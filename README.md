# Partnership analyzer page logic, modelled in Dafny

The repository is a single-page browser demo. It pretends to analyse an
uploaded partnership agreement and shows canned results. Almost all of
`app.js` is event wiring. This project models the sequential logic under
that wiring and proves what the handlers do:

- **Upload intake** (`processFiles`, `startDocumentProcessing`). Only the first
  file is examined. It is accepted when its MIME type is one of three allowed
  strings, or when its lower-cased name ends in `.pdf`, `.doc` or `.docx`. A
  refused file gets one error toast and the page is left as it was. An
  accepted file sets `isProcessing`, `currentDocument` and the current section
  and starts a run. Nothing checks whether a run is already going.
- **Navigation** (`switchToSection`). Each nav link and each section is
  active exactly when its key equals the requested name.
- **Stage walker** (`simulateProcessingStages`, `processStage`,
  `completeProcessing`, `loadExtractedComponents`). Each timer firing is one
  `Tick` of one run. Each run has its own counter. A stage's class list is two
  independent flags, `active` and `completed`. Completion marks every stage
  completed, loads the four fixed results into the first four cards and clears
  `isProcessing`.
- **Edit dialog**. The click handler takes the first run of digits in the
  card's confidence label. `openEditModal` strips tags with `/<[^>]*>/g` and
  then trims. Close, cancel and save hide the dialog. Save shows a toast and
  writes nothing back to the card.
- **Settings**. `saveSettings` builds positional keys `select_i` and
  `range_i` and merges them over `appState.settings`, overwriting keys they
  share. `resetSettings` puts every select on its first option and every range
  on 85.
- **Notifications** (`showNotification`). A new toast replaces any existing
  one. Its colour comes from a fixed table, with unknown types falling back to
  `info`. Closing or auto-dismissing a toast removes that toast only.

Layout, one module per component:

- `strings.dfy`: `Strings`. Decimal numerals, ASCII lower-casing, suffix tests
  and the whitespace set of `trim`.
- `notifications.dfy`: `Notifications`. The colour lookup, the `Toast`
  element and the `NotificationCenter` class.
- `upload.dfy`: `Upload`. The acceptance predicate and lemmas about it.
- `navigation.dfy`: `Navigation`. The activation function and its
  exclusivity lemmas.
- `pipeline.dfy`: `Pipeline`. Stage flags, one tick, the walk of a run, the
  canned results and the cards.
- `edit_modal.dfy`: `EditModal`. Digit-run extraction, tag stripping, trim and
  the dialog text.
- `settings.dfy`: `Settings`. Controls, positional keys, `CollectSettings`
  and the reset values.
- `app.dfy`: `App`. The class `PartnershipApp` holds `appState`, the page's
  controls, the runs and a `NotificationCenter`. It has one method per
  handler. Each method states the whole new page as an update of the old one
  (`Snapshot()`).
- `scenarios.dfy`: `Scenarios`. Three client methods that use the contracts
  alone, on any page with two stages and no run yet:
  - An undisturbed upload. With the page's own results, the first card ends
    up showing `Confidence: 95%`.
  - Two overlapping uploads. The first run's completion clears
    `isProcessing` while the second run is still ticking.
  - A second upload after the first run's first tick. Its reset un-completes
    the stage the first run had completed.
  The second run then leaves a stage both active and completed.

Facts about `app.js` that the model keeps as they are:

- **Settings save.** Saving merges the positional entries over the existing
  settings object. The named initial settings therefore survive every save
  (`Settings.PositionalKeysDistinct`).
- **Stage order.** Once the first upload has reset the stages, no stage is
  active while an earlier one is not completed. This holds under every
  interleaving of runs (`Pipeline.Ordered`,
  kept by `PartnershipApp.Valid()`). Overlapping runs break three other facts
  of an undisturbed run (`Pipeline.WalkedOrder`,
  `Pipeline.CompletedNeverReverts`):
  - Two stages can be active at once.
  - A stage can be active and completed at once
    (`Pipeline.OverlapLeavesTwoActive`, `Scenarios.OverlappingUploads`).
  - A second upload's reset takes `completed` away from stages that the
    first run, still ticking, had already completed
    (`Scenarios.SecondUploadUncompletes`).
- **Notification types.** Any type string is accepted. It is used as given in
  the class name, and only the colour falls back to `info`.
- **Navigation with no target.** A nav link without `data-section` switches
  to the null name. Every link without the attribute then becomes active, no
  section does, and `currentSection` becomes null.

## Model

| member | source | states |
|---|---|---|
| `App.PartnershipApp.constructor` | app.js:1-13 | given sections that all have an `id`, starts in section `dashboard`, not processing, no document, the four named default settings, no run and no toast, and the fixed results as the components completion loads |
| `App.PartnershipApp.ProcessFiles` | app.js:158-177 | an empty list changes nothing; otherwise only `files[0]` decides; a refused file leaves the page unchanged and shows exactly one `error` toast with the fixed message; an accepted file starts processing (`StartedOn`) whatever `isProcessing` was |
| `App.PartnershipApp.StartDocumentProcessing` | app.js:179-199 | sets `isProcessing`, `currentDocument` to the file name and the current section to `analysis`, activates the `analysis` link and section, writes `Processing: <name>` into the status heading when the page has one, and starts a new run; with no stages the run completes at once and `isProcessing` is false again |
| `App.PartnershipApp.SwitchToSection` | app.js:67-91 | links and sections become `Activate(old, name)`, the current section becomes the name (null included), and nothing else changes |
| `App.PartnershipApp.NavLinkClicked` | app.js:57-63 | a click on a link switches to that link's `data-section`, null when the link has none |
| `Navigation.Activate` | app.js:74-88 | every marker's `active` is set to whether its key equals the name; its properties are the `Navigation` lemmas below |
| `Navigation.NullNameActivatesUnkeyed` | app.js:60-86 | switching to the null name activates exactly the links without `data-section`, and no section |
| `Navigation.ActivateKeepsKeyed` | app.js:74-88 | switching changes no key, so every section keeps its `id` |
| `Navigation.ActivateExclusive` | app.js:74-88 | after activation a marker is active if and only if its key equals the name; keys and count are unchanged |
| `Navigation.UnknownNameDeactivatesAll` | app.js:74-88 | a name no marker carries leaves every marker inactive |
| `Navigation.KnownNameActivatesOne` | app.js:74-88 | with distinct keys, a name one marker carries leaves exactly that marker active |
| `Navigation.ActivateForgetsHistory` | app.js:74-90 | switching to a then to b gives the same page as switching to b alone |
| `App.PartnershipApp.SimulateProcessingStages` | app.js:201-234 | every stage is reset to pending, a new run is appended, and the first tick is made at once: stage 0 becomes active and the counter is 1, or the run completes when there are no stages |
| `App.PartnershipApp.Tick` | app.js:210-231 | with counter k below the stage count, the stages become `TickStages(old, k)` and the counter becomes k + 1, with nothing else changed; otherwise the run ends and the completion effects follow |
| `Pipeline.TickAdvances` | app.js:211-223 | in an undisturbed run, a tick moves the shape "stages before c - 1 completed, stage c - 1 active, the rest pending" from counter k to counter k + 1 |
| `Pipeline.WalkFromReset` | app.js:205-226 | after a reset followed by the ticks with counters 0 .. k - 1, the stages have exactly that shape for counter k |
| `Pipeline.TickKeepsCompleted` | app.js:213-221 | a tick never takes `completed` away from a stage |
| `Pipeline.CompletedNeverReverts` | app.js:210-226 | in an undisturbed run (no second upload while it ticks), a stage completed after j ticks is still completed after any later number of ticks |
| `Pipeline.WalkedOrder` | app.js:211-223 | in an undisturbed run, an active stage has every earlier stage completed and not active, and every later stage pending |
| `Pipeline.CompletionFinishesLastStage` | app.js:210-244 | after a full undisturbed walk, completion changes only the last stage: the walk had already completed every other stage (that the walk went through them once and in order is `WalkFromReset`) |
| `Pipeline.Reset` | app.js:205-208 | every stage loses `active` and `completed`; `ResetOrdered` proves the result is in order |
| `Pipeline.TickStages` | app.js:211-223 | the tick with counter k: stages before k completed and not active, stage k active, later stages untouched; `TickAdvances`, `TickKeepsCompleted` and `TickOrdered` state its properties |
| `Pipeline.CompleteStages` | app.js:239-244 | every stage completed and not active; `CompleteOrdered` and `CompletionFinishesLastStage` state its properties |
| `Pipeline.Walk` | app.js:210-226 | the stages after the ticks with counters 0 .. k - 1 of one run, of the same length as before; `WalkFromReset` gives its shape |
| `Pipeline.ResetOrdered` | app.js:205-208 | after a reset no stage is active, so the stages are in order |
| `Pipeline.TickOrdered` | app.js:211-223 | a tick of any run keeps the stages in order: no stage active while an earlier one is not completed |
| `Pipeline.CompleteOrdered` | app.js:239-244 | completion leaves the stages in order |
| `Pipeline.OverlapLeavesTwoActive` | app.js:201-231 | on four stages, a run walked to its end followed by a tick of a second run at counter 1 leaves stages 1 and 3 both active, and stage 1 also completed |
| `Pipeline.LoadCard` | app.js:305-315 | a card gets the label and the content of its result where it has those elements; its heading is never written |
| `Pipeline.LoadCards` | app.js:304-317 | card i gets result i while there are results, and later cards are unchanged; `LoadCardsByPosition` and `LoadCardsIdempotent` state its properties |
| `App.PartnershipApp.CompleteProcessing` | app.js:236-253 | every stage is completed and not active, the fixed results are loaded into the cards, exactly one `success` toast is shown, `isProcessing` is false, and nothing else changes |
| `App.PartnershipApp.LoadExtractedComponents` | app.js:255-318 | card i receives result i of the fixed results (`LoadCards`), and nothing else changes |
| `Pipeline.LoadCardsByPosition` | app.js:259-317 | card i < 4 gets the label `Confidence: N%` with N = 95, 88, 92, 86 and the i-th fixed content, where it has those elements; its heading is left alone; cards from index 4 on are untouched |
| `Pipeline.LoadCardsIdempotent` | app.js:304-317 | loading the same results twice gives the same cards as loading them once |
| `EditModal.FirstDigitRun` | app.js:333 | None exactly when the text has no digit; otherwise a non-empty, maximal run of digits with no digit before it |
| `EditModal.FirstRunUnique` | app.js:333 | the first maximal digit run of a text is unique in position and content |
| `EditModal.ConfidenceRoundTrip` | app.js:311-333 | the digit run read from the label written at completion is exactly the numeral of the confidence written |
| `EditModal.StripTags` | app.js:384 | the result has no `<` followed anywhere by `>`; text without `<`, or without `>`, is returned unchanged; the result is no longer than the input |
| `EditModal.StripTagsFixesClean` | app.js:384 | a text with nothing left for the pattern to match is its own stripping |
| `EditModal.StripTagsIdempotent` | app.js:384 | stripping twice gives the same text as stripping once |
| `EditModal.Trim` | app.js:384 | the result is the part of the input that starts after its leading whitespace, everything after it is whitespace, and it neither starts nor ends with whitespace; it is empty exactly when the input is all whitespace |
| `EditModal.TrimKeepsTrimmed` | app.js:384 | a text that neither starts nor ends with whitespace is unchanged by trimming |
| `EditModal.EditText` | app.js:384 | the textarea text: tags stripped first, then trimmed; `EditTextIsClean` and `EditTextIsStable` state its properties |
| `EditModal.EditTextIsClean` | app.js:384 | the dialog text has no tag span left and is its own stripping |
| `EditModal.EditTextIsStable` | app.js:384 | preparing the dialog text a second time gives the same text |
| `App.PartnershipApp.EditClicked` | app.js:327-337 | with heading, content and a label containing a digit, the dialog opens with that heading, that content and the label's first digit run; otherwise, where the handler throws, nothing changes |
| `App.PartnershipApp.OpenEditModal` | app.js:376-388 | the dialog is shown with title `Edit <title>`, the stripped and trimmed text, the slider at the confidence and the label `<confidence>%`; nothing else changes |
| `App.PartnershipApp.CloseEditModal` | app.js:390-395 | the dialog gets `hidden` and nothing else changes |
| `App.PartnershipApp.SaveComponentChanges` | app.js:397-400 | exactly one `success` toast, the dialog hidden, and the cards unchanged, so the edit is discarded |
| `Settings.SelectValue` | app.js:541 | a select's value is its selected option's value, empty when nothing is selected |
| `Settings.RangeValue` | app.js:544 | a range's value is its number written in decimal |
| `Settings.ResetSelect` | app.js:556-558 | `selectedIndex` becomes 0, which leaves no selection when there are no options; the options are unchanged |
| `Settings.ResetRange` | app.js:560-566 | the value becomes 85 and the following span, if any, shows `85%` |
| `Settings.CollectSettings` | app.js:535-545 | the collected keys are exactly `select_0 .. select_{s-1}` and `range_0 .. range_{r-1}`, each mapped to the value of the control at that position |
| `Settings.SelectKeyInjective` | app.js:540-542 | different select positions give different keys |
| `Settings.RangeKeyInjective` | app.js:543-545 | different range positions give different keys |
| `Settings.PositionalKeysDistinct` | app.js:539-547 | a select key is never a range key, and no positional key is one of the named initial settings |
| `App.PartnershipApp.SaveSettings` | app.js:535-549 | the new settings have the old keys plus the positional ones; positional keys carry the controls' values; the other old keys keep their values; only the settings change, and one `success` toast is shown |
| `Settings.ResetValues` | app.js:551-565 | after a reset a select reads as its first option (empty when it has none) and a range reads as `85`, with its label showing `85%` where it has one |
| `App.PartnershipApp.ResetSettings` | app.js:551-568 | every select and range is reset, nothing else on the page changes, and one `info` toast is shown |
| `Notifications.ColorFor` | app.js:639-646 | the colour is one of the four table colours: the type's own when the type is known, and the `info` colour exactly when the type is `info` or unknown |
| `Notifications.NotificationCenter.Show` | app.js:597-649 | afterwards exactly one toast is shown: a new one with the given message and type (default `info`), the type's class name and `ColorFor(type)` |
| `Notifications.NotificationCenter.Dismiss` | app.js:651-664 | closing or auto-dismissing a toast removes exactly that toast when it is still shown, and otherwise changes nothing |
| `Upload.IsAccepted` | app.js:165-168 | a file is accepted when its MIME type is one of the three allowed strings or its name has a document extension; the `Upload` lemmas below state its properties |
| `Upload.HasDocumentExtension` | app.js:166-168 | the lower-cased name ends in `.pdf`, `.doc` or `.docx` |
| `Upload.ExtensionAcceptedInAnyCase` | app.js:166-168 | a name ending in `.pdf`, `.doc` or `.docx` in any letter case is accepted, whatever its MIME type |
| `Upload.AllowedTypeAccepted` | app.js:165-168 | a file with an allowed MIME type is accepted, whatever its name |
| `Upload.AcceptanceIgnoresCase` | app.js:168 | the decision is the same for a name and its lower-cased form |
| `Upload.RejectedByLastCharacter` | app.js:165-168 | with a MIME type outside the list, a name whose last character does not lower-case to `f`, `c` or `x` is refused |
| `Upload.RejectedExamples` | app.js:165-173 | `agreement.txt` as `text/plain` and `agreement.pdf.txt` as `APPLICATION/PDF` are refused: the MIME type must match exactly and the extension must be at the end |
| `Upload.AcceptedExample` | app.js:166-168 | any name ending in `.DOCX` is accepted even with an empty MIME type |
| `Strings.ToLower` | app.js:168 | each character is mapped on its own and the length is kept |
| `Strings.IsJsSpace` | app.js:384 | the characters `trim` removes: the ECMAScript WhiteSpace set (tab, vertical tab, form feed, space, no-break space, every space separator, byte order mark) and LineTerminator set (line feed, carriage return, line and paragraph separators) |
| `Strings.Decimal` | app.js:311 | the numeral a template literal writes for a non-negative integer: non-empty, digits only, one digit exactly below 10, a leading `0` only for 0 itself; `DecimalRoundTrip` reads it back as the number and `DecimalCanonical` shows no other such digit string denotes it |
| `Strings.DecimalCanonical` | app.js:311 | any digit string without a leading zero (other than `0`) that denotes n is exactly the numeral of n |
| `Strings.DecimalRoundTrip` | app.js:311 | reading the digits of the numeral of n gives back n |

## Left out

- Timers (`setTimeout` and `Math.random` delays). Each scheduled
  `processStage` call is an explicit `Tick`. A toast's five-second timer is an
  explicit `Dismiss`. Elapsed time is not modelled.
- The `initialize*` listeners, event delegation by class name, the drag-over
  CSS toggles, inline styles, the injected stylesheet and logging. They are UI
  plumbing with no decision logic.
- The slider and range `input` handlers, which only copy a value into a label.
  They are UI plumbing.
- `configurePlatform`, `validateMapping` and `syncToTaxSoftware`. Each shows
  an info toast, then a success toast on a timer.
- `exportConfiguration`. It shows a success toast and downloads a constant
  XML document through browser APIs.
- The API item buttons. Any button shows an info toast. If the button reads
  `Connect`, a timer later relabels it `Configure` and changes its class from
  `btn--primary` to `btn--outline`. The same timer sets the status element
  before it to `Connected` with class `status status--success`, then shows a
  success toast. These are labels and toasts with no decision logic.
- `updateResultsAnalytics`, which sets the widths of the `.structure-fill`
  bars to 65%, 28% and 7% on staggered timers without any toast. Also
  `updateRecentResults`, which only logs. Both are inline styles and logging
  run at startup.
- `formatBytes` (floating point) and `formatDate` (locale formatting). Both
  are unused by the core.
- `sampleData` and `appState.analysisResults`, which no handler reads.
- The window-level export object (app.js:725-730). It re-exposes the modelled
  handlers, and also `appState` itself, so outside code can overwrite any
  state field (`isProcessing`, say). Such outside writes are not modelled.
- `Strings.ToLower`: only `A`–`Z` are lower-cased, not full Unicode case
  mapping. This cannot change the extension test: apart from the Latin letters
  themselves, no character lower-cases to a string that ends in `.`, `p`, `d`,
  `f`, `o`, `c` or `x`.
- Characters are Unicode scalar values, not the UTF-16 code units of
  JavaScript strings.
- `innerHTML` is modelled as the string last assigned. The browser's
  parse-and-serialise round trip is not modelled.
- A slider's or range's value is taken as given. HTML's clamping to `min`,
  `max` and `step` is not modelled, and range values are non-negative integers.
- Selects are single-choice.
- The edit dialog's slider is assumed not to be one of the page's range
  inputs. If `#confidenceSlider` is an `input[type="range"]`, `saveSettings`
  also collects it as some `range_k`, and `resetSettings` also sets it to 85.
  `ResetSettings` and `SaveSettings` here leave the dialog's slider unchanged
  and do not read it.
- The `if (element)` guards on the dialog's own elements are not modelled: the
  dialog's title, textarea, slider and label are assumed to exist.
- `EditClicked` assumes the edit button sits inside a card, so the case where
  `closest('.component-card')` is null is not modelled.
- `NotificationCenter.Valid` assumes the page holds no `.notification`
  elements other than the ones `showNotification` creates.
- `Notifications.ColorFor`: type names that are properties inherited from
  `Object.prototype` (such as `constructor`) are treated as unknown. In the
  browser they would give a truthy non-colour value.
- The toast's message is kept as a string. That it is spliced into markup is
  not modelled.
- `EditModal.StripTags`: its contract states what is left after stripping: no
  tag span, and text without `<` or `>` unchanged. Which spans are removed is
  given by its body, which follows the left-to-right scan of the global
  pattern.
