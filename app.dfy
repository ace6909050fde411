/** The page controller: `appState` and the parts of the page the handlers
    change, with one method per handler. Timers are explicit: every
    scheduled `processStage` call is a `Tick`, and a toast's close button
    or five-second timer is `NotificationCenter.Dismiss`. */
module App {
  import opened Strings
  import opened Notifications
  import opened Upload
  import opened Navigation
  import opened Pipeline
  import opened EditModal
  import opened Settings

  /** `appState`. (`analysisResults` is never read or written and is left out.)
      `currentSection` is null (None) after a click on a link without `data-section`. */
  datatype AppState = AppState(
    currentSection: Option<string>,
    isProcessing: bool,
    currentDocument: Option<string>,
    settings: map<string, SettingValue>)

  const InitialState: AppState := AppState(Some("dashboard"), false, None, InitialSettings)

  /** The edit dialog: whether it carries `hidden`, its heading, the
      textarea, the slider's value and the text shown beside the slider. */
  datatype Modal = Modal(hidden: bool, title: string, text: string, slider: string, sliderLabel: string)

  /** What `openEditModal(title, content, confidence)` puts in the dialog. */
  function OpenedModal(title: string, content: string, confidence: string): Modal
  {
    Modal(false, "Edit " + title, EditText(content), confidence, confidence + "%")
  }

  const RejectMessage: string := "Please upload a PDF or DOC file."
  const CompletionMessage: string := "Document analysis completed successfully!"
  const SavedComponentMessage: string := "Component changes saved successfully!"
  const SavedSettingsMessage: string := "Settings saved successfully!"
  const ResetSettingsMessage: string := "Settings reset to defaults"

  /** Everything the handlers change apart from the toasts, as one value. */
  datatype Page = Page(
    state: AppState,
    navLinks: seq<Marker>,
    sections: seq<Marker>,
    statusHeading: Option<string>,
    stages: seq<Stage>,
    runs: seq<Run>,
    cards: seq<Card>,
    modal: Modal,
    selects: seq<Select>,
    ranges: seq<Range>)

  function ResetSelects(ss: seq<Select>): seq<Select>
  {
    seq(|ss|, i requires 0 <= i < |ss| => ResetSelect(ss[i]))
  }

  function ResetRanges(rs: seq<Range>): seq<Range>
  {
    seq(|rs|, i requires 0 <= i < |rs| => ResetRange(rs[i]))
  }

  class PartnershipApp {
    var state: AppState
    var navLinks: seq<Marker>
    var sections: seq<Marker>
    /** The `.processing-status h3` text, absent when the page has no such element. */
    var statusHeading: Option<string>
    var stages: seq<Stage>
    /** One entry per `simulateProcessingStages` call, in start order. */
    var runs: seq<Run>
    var cards: seq<Card>
    var modal: Modal
    var selects: seq<Select>
    var ranges: seq<Range>
    const notes: NotificationCenter
    /** The components completion writes into the cards: always `Results`. */
    const results: seq<Extracted>

    ghost function Snapshot(): Page
      reads this
    {
      Page(state, navLinks, sections, statusHeading, stages, runs, cards, modal, selects, ranges)
    }

    /** At most one toast; every section has an `id`; a run still ticking
        has not gone past the last stage; and once a run has started, no
        stage is active while an earlier one is not completed. */
    ghost predicate Valid()
      reads this, notes
    {
      && notes.Valid()
      && AllKeyed(sections)
      && (forall r :: 0 <= r < |runs| && runs[r].live ==> runs[r].counter <= |stages|)
      && (|runs| > 0 ==> Ordered(stages))
    }

    /** Exactly one toast is shown, with this message and type. */
    ghost predicate Showing(message: string, kind: string)
      reads this, notes
    {
      |notes.shown| == 1 && notes.shown[0].message == message && notes.shown[0].kind == kind
    }

    constructor (navLinks: seq<Marker>, sections: seq<Marker>, statusHeading: Option<string>,
                 stages: seq<Stage>, cards: seq<Card>, modal: Modal, selects: seq<Select>, ranges: seq<Range>)
      requires AllKeyed(sections)
      ensures Valid() && fresh(notes) && notes.shown == [] && results == Results
      ensures Snapshot() == Page(InitialState, navLinks, sections, statusHeading, stages, [], cards, modal, selects, ranges)
    {
      state := InitialState;
      this.navLinks := navLinks;
      this.sections := sections;
      this.statusHeading := statusHeading;
      this.stages := stages;
      runs := [];
      this.cards := cards;
      this.modal := modal;
      this.selects := selects;
      this.ranges := ranges;
      notes := new NotificationCenter();
      results := Results;
    }

    /** `switchToSection(name)`: each link and each section is active exactly
        when its key is the name, and the name becomes the current section. */
    method SwitchToSection(name: Option<string>)
      requires Valid()
      modifies this
      ensures Valid()
      ensures Snapshot() == old(Snapshot()).(
        state := old(state).(currentSection := name),
        navLinks := Activate(old(navLinks), name),
        sections := Activate(old(sections), name))
    {
      var i := 0;
      while i < |navLinks|
        invariant i <= |navLinks| == |old(navLinks)|
        invariant forall k :: 0 <= k < |navLinks| ==>
          navLinks[k] == if k < i then Activate(old(navLinks), name)[k] else old(navLinks)[k]
        invariant Snapshot() == old(Snapshot()).(navLinks := navLinks)
      {
        navLinks := navLinks[i := navLinks[i].(active := navLinks[i].key == name)];
        i := i + 1;
      }
      var j := 0;
      while j < |sections|
        invariant j <= |sections| == |old(sections)|
        invariant forall k :: 0 <= k < |sections| ==>
          sections[k] == if k < j then Activate(old(sections), name)[k] else old(sections)[k]
        invariant Snapshot() == old(Snapshot()).(navLinks := navLinks, sections := sections)
        invariant navLinks == Activate(old(navLinks), name)
      {
        sections := sections[j := sections[j].(active := sections[j].key == name)];
        j := j + 1;
      }
      state := state.(currentSection := name);
      ActivateKeepsKeyed(old(sections), name);
    }

    /** A click on nav link `index`: the switch is to its `data-section`,
        which is null when the link has no such attribute. */
    method NavLinkClicked(index: nat)
      requires Valid() && index < |navLinks|
      modifies this
      ensures Valid()
      ensures var name := old(navLinks[index].key);
        Snapshot() == old(Snapshot()).(
          state := old(state).(currentSection := name),
          navLinks := Activate(old(navLinks), name),
          sections := Activate(old(sections), name))
    {
      SwitchToSection(navLinks[index].key);
    }

    /** `loadExtractedComponents`: result i goes into card i, for the first four cards. */
    method LoadExtractedComponents()
      requires Valid()
      modifies this
      ensures Valid()
      ensures Snapshot() == old(Snapshot()).(cards := LoadCards(old(cards), results))
    {
      var i := 0;
      while i < |cards|
        invariant i <= |cards| == |old(cards)|
        invariant forall k :: 0 <= k < |cards| ==>
          cards[k] == if k < i then LoadCards(old(cards), results)[k] else old(cards)[k]
        invariant Snapshot() == old(Snapshot()).(cards := cards)
      {
        if i < |results| {
          var card := cards[i];
          if card.confidenceLabel.Some? {
            card := card.(confidenceLabel := Some(ConfidenceLabel(results[i].confidence)));
          }
          if card.content.Some? {
            card := card.(content := Some(results[i].content));
          }
          cards := cards[i := card];
        }
        i := i + 1;
      }
      assert cards == LoadCards(old(cards), results);
    }

    /** `completeProcessing`: all stages completed, results loaded, a success
        toast, and `isProcessing` cleared. */
    method CompleteProcessing()
      requires Valid()
      modifies this, notes
      ensures Valid()
      ensures Snapshot() == old(Snapshot()).(
        state := old(state).(isProcessing := false),
        stages := CompleteStages(old(stages)),
        cards := LoadCards(old(cards), results))
      ensures Showing(CompletionMessage, "success") && fresh(notes.shown[0])
    {
      var i := 0;
      while i < |stages|
        modifies this
        invariant i <= |stages| == |old(stages)|
        invariant forall k :: 0 <= k < |stages| ==> stages[k] == if k < i then Done else old(stages)[k]
        invariant Snapshot() == old(Snapshot()).(stages := stages)
      {
        stages := stages[i := stages[i].(active := false, completed := true)];
        i := i + 1;
      }
      assert stages == CompleteStages(old(stages));
      LoadExtractedComponents();
      var toast := notes.Show(CompletionMessage, "success");
      state := state.(isProcessing := false);
    }

    /** One firing of run r's `processStage`. With counter k below the stage
        count: stages before k completed, stage k active, counter k + 1.
        Otherwise the run ends with `completeProcessing`. */
    method Tick(r: nat)
      requires Valid() && r < |runs| && runs[r].live
      modifies this, notes
      ensures Valid()
      ensures old(runs[r].counter) < |old(stages)| ==>
        && Snapshot() == old(Snapshot()).(
             stages := TickStages(old(stages), old(runs[r].counter)),
             runs := old(runs)[r := Run(old(runs[r].counter) + 1, true)])
        && notes.shown == old(notes.shown)
      ensures old(runs[r].counter) >= |old(stages)| ==>
        && Snapshot() == old(Snapshot()).(
             state := old(state).(isProcessing := false),
             stages := CompleteStages(old(stages)),
             runs := old(runs)[r := Run(old(runs[r].counter), false)],
             cards := LoadCards(old(cards), results))
        && Showing(CompletionMessage, "success") && fresh(notes.shown[0])
    {
      var k := runs[r].counter;
      if k < |stages| {
        var i := 0;
        while i < k
          modifies this
          invariant i <= k && |stages| == |old(stages)|
          invariant forall j :: 0 <= j < |stages| ==> stages[j] == if j < i then Done else old(stages)[j]
          invariant Snapshot() == old(Snapshot()).(stages := stages)
        {
          stages := stages[i := stages[i].(active := false, completed := true)];
          i := i + 1;
        }
        stages := stages[k := stages[k].(active := true)];
        assert stages == TickStages(old(stages), k);
        runs := runs[r := Run(k + 1, true)];
      } else {
        runs := runs[r := Run(k, false)];
        CompleteProcessing();
      }
    }

    /** `simulateProcessingStages`: a new run with counter 0, every stage
        reset, and the first `processStage` call made at once. */
    method SimulateProcessingStages()
      requires Valid()
      modifies this, notes
      ensures Valid()
      ensures |old(stages)| > 0 ==>
        && Snapshot() == old(Snapshot()).(
             stages := TickStages(Reset(old(stages)), 0),
             runs := old(runs) + [Run(1, true)])
        && notes.shown == old(notes.shown)
      ensures |old(stages)| == 0 ==>
        && Snapshot() == old(Snapshot()).(
             state := old(state).(isProcessing := false),
             runs := old(runs) + [Run(0, false)],
             cards := LoadCards(old(cards), results))
        && Showing(CompletionMessage, "success") && fresh(notes.shown[0])
    {
      var i := 0;
      while i < |stages|
        modifies this
        invariant i <= |stages| == |old(stages)|
        invariant forall k :: 0 <= k < |stages| ==> stages[k] == if k < i then Pending else old(stages)[k]
        invariant Snapshot() == old(Snapshot()).(stages := stages)
      {
        stages := stages[i := stages[i].(active := false, completed := false)];
        i := i + 1;
      }
      assert stages == Reset(old(stages));
      runs := runs + [Run(0, true)];
      Tick(|runs| - 1);
      assert |old(stages)| == 0 ==> CompleteStages(Reset(old(stages))) == old(stages);
    }

    /** The page after `startDocumentProcessing(file)` began processing, relative to before. */
    twostate predicate StartedOn(file: FileInfo)
      reads this, notes
    {
      var started := old(Snapshot()).(
        state := old(state).(isProcessing := true, currentDocument := Some(file.name), currentSection := Some("analysis")),
        navLinks := Activate(old(navLinks), Some("analysis")),
        sections := Activate(old(sections), Some("analysis")),
        statusHeading := if old(statusHeading).Some? then Some("Processing: " + file.name) else None);
      if |old(stages)| > 0 then
        && Snapshot() == started.(stages := TickStages(Reset(old(stages)), 0), runs := old(runs) + [Run(1, true)])
        && notes.shown == old(notes.shown)
      else
        && Snapshot() == started.(
             state := started.state.(isProcessing := false),
             runs := old(runs) + [Run(0, false)],
             cards := LoadCards(old(cards), results))
        && Showing(CompletionMessage, "success") && fresh(notes.shown[0])
    }

    /** `startDocumentProcessing(file)`. Nothing checks whether a run is
        already going: a second upload starts a second run beside the first. */
    method StartDocumentProcessing(file: FileInfo)
      requires Valid()
      modifies this, notes
      ensures Valid()
      ensures StartedOn(file)
    {
      state := state.(isProcessing := true, currentDocument := Some(file.name));
      SwitchToSection(Some("analysis"));
      if statusHeading.Some? {
        statusHeading := Some("Processing: " + file.name);
      }
      SimulateProcessingStages();
    }

    /** `processFiles(files)`: nothing for an empty list; otherwise only the
        first file is looked at, and it is either refused with one error toast
        and no other change, or processing starts on it. */
    method ProcessFiles(files: seq<FileInfo>)
      requires Valid()
      modifies this, notes
      ensures Valid()
      ensures files == [] ==> Snapshot() == old(Snapshot()) && notes.shown == old(notes.shown)
      ensures files != [] && !IsAccepted(files[0]) ==>
        Snapshot() == old(Snapshot()) && Showing(RejectMessage, "error") && fresh(notes.shown[0])
      ensures files != [] && IsAccepted(files[0]) ==> StartedOn(files[0])
    {
      if |files| == 0 {
        return;
      }
      var file := files[0];
      if !IsAccepted(file) {
        var toast := notes.Show(RejectMessage, "error");
        return;
      }
      StartDocumentProcessing(file);
    }

    /** `openEditModal(title, content, confidence)`. */
    method OpenEditModal(title: string, content: string, confidence: string)
      requires Valid()
      modifies this
      ensures Valid()
      ensures Snapshot() == old(Snapshot()).(modal := OpenedModal(title, content, confidence))
    {
      modal := OpenedModal(title, content, confidence);
    }

    /** A click on the edit button of card `index`: the dialog opens with the
        card's heading, its content as text and the first digit run of its
        confidence label; when the heading, the content or the label is
        missing, or the label has no digit, the handler throws and nothing
        changes. */
    method EditClicked(index: nat)
      requires Valid() && index < |cards|
      modifies this
      ensures Valid()
      ensures var c := old(cards[index]);
        if c.heading.Some? && c.content.Some? && c.confidenceLabel.Some? && FirstDigitRun(c.confidenceLabel.value).Some?
        then Snapshot() == old(Snapshot()).(
          modal := OpenedModal(c.heading.value, c.content.value, FirstDigitRun(c.confidenceLabel.value).value))
        else Snapshot() == old(Snapshot())
    {
      var card := cards[index];
      if card.heading.None? || card.content.None? || card.confidenceLabel.None? {
        return;
      }
      var confidence := FirstDigitRun(card.confidenceLabel.value);
      if confidence.None? {
        return;
      }
      OpenEditModal(card.heading.value, card.content.value, confidence.value);
    }

    /** `closeEditModal`, for the close button, the cancel button and the backdrop. */
    method CloseEditModal()
      requires Valid()
      modifies this
      ensures Valid()
      ensures Snapshot() == old(Snapshot()).(modal := old(modal).(hidden := true))
    {
      modal := modal.(hidden := true);
    }

    /** `saveComponentChanges`: a success toast and the dialog hidden; the
        edited text and confidence are not written back to any card. */
    method SaveComponentChanges()
      requires Valid()
      modifies this, notes
      ensures Valid()
      ensures Snapshot() == old(Snapshot()).(modal := old(modal).(hidden := true))
      ensures cards == old(cards)
      ensures Showing(SavedComponentMessage, "success") && fresh(notes.shown[0])
    {
      var toast := notes.Show(SavedComponentMessage, "success");
      CloseEditModal();
    }

    /** `saveSettings`: the positional entries are merged over the current
        settings, which they overwrite where the keys coincide. */
    method SaveSettings()
      requires Valid()
      modifies this, notes
      ensures Valid()
      ensures Snapshot() == old(Snapshot()).(state := old(state).(settings := state.settings))
      ensures state.settings.Keys == old(state.settings).Keys + PositionalKeys(|selects|, |ranges|)
      ensures forall i: nat :: i < |selects| ==> state.settings[SelectKey(i)] == Text(SelectValue(selects[i]))
      ensures forall i: nat :: i < |ranges| ==> state.settings[RangeKey(i)] == Text(RangeValue(ranges[i]))
      ensures forall k :: k in old(state.settings) && k !in PositionalKeys(|selects|, |ranges|) ==>
        state.settings[k] == old(state.settings)[k]
      ensures Showing(SavedSettingsMessage, "success") && fresh(notes.shown[0])
    {
      var collected := CollectSettings(selects, ranges);
      state := state.(settings := state.settings + collected);
      var toast := notes.Show(SavedSettingsMessage, "success");
    }

    /** `resetSettings`: every select back to its first option, every range
        to 85 with its label showing `85%`, and an info toast. */
    method ResetSettings()
      requires Valid()
      modifies this, notes
      ensures Valid()
      ensures Snapshot() == old(Snapshot()).(selects := ResetSelects(old(selects)), ranges := ResetRanges(old(ranges)))
      ensures Showing(ResetSettingsMessage, "info") && fresh(notes.shown[0])
    {
      var i := 0;
      while i < |selects|
        modifies this
        invariant i <= |selects| == |old(selects)|
        invariant forall k :: 0 <= k < |selects| ==>
          selects[k] == if k < i then ResetSelect(old(selects)[k]) else old(selects)[k]
        invariant Snapshot() == old(Snapshot()).(selects := selects)
      {
        selects := selects[i := ResetSelect(selects[i])];
        i := i + 1;
      }
      var j := 0;
      while j < |ranges|
        modifies this
        invariant j <= |ranges| == |old(ranges)|
        invariant forall k :: 0 <= k < |ranges| ==>
          ranges[k] == if k < j then ResetRange(old(ranges)[k]) else old(ranges)[k]
        invariant Snapshot() == old(Snapshot()).(selects := selects, ranges := ranges)
        invariant selects == ResetSelects(old(selects))
      {
        ranges := ranges[j := ResetRange(ranges[j])];
        j := j + 1;
      }
      var toast := notes.Show(ResetSettingsMessage, "info");
    }
  }
}
