/** The settings panel: form controls read into a positional settings
    object, and the reset of every control to a fixed default. */
module Settings {
  import opened Strings

  /** A value in `appState.settings`: the initial threshold is a number,
      everything read from a control is a string. */
  datatype SettingValue = Text(text: string) | Number(number: int)

  /** A `select`: the values of its options and its `selectedIndex`
      (-1 when nothing is selected). */
  datatype Select = Select(options: seq<string>, selectedIndex: int)

  /** An `input[type="range"]`: its value, and the text of the `span` that
      follows it, absent when no such span follows. */
  datatype Range = Range(value: nat, display: Option<string>)

  const ResetValue: nat := 85

  const InitialSettings: map<string, SettingValue> := map[
    "nlpModel" := Text("LegalBERT v2.1"),
    "confidenceThreshold" := Number(85),
    "defaultTaxSoftware" := Text("GoSystem Tax"),
    "processingPriority" := Text("Accuracy")
  ]

  /** `select.value`: the value of the selected option, empty when none is selected. */
  function SelectValue(s: Select): string
  {
    if 0 <= s.selectedIndex < |s.options| then s.options[s.selectedIndex] else ""
  }

  /** `range.value`: the number as a string. */
  function RangeValue(r: Range): string
  {
    Decimal(r.value)
  }

  function SelectKey(i: nat): string { "select_" + Decimal(i) }

  function RangeKey(i: nat): string { "range_" + Decimal(i) }

  /** Different positions give different keys. */
  lemma SelectKeyInjective(i: nat, j: nat)
    requires SelectKey(i) == SelectKey(j)
    ensures i == j
  {
    assert SelectKey(i)[7..] == Decimal(i);
    assert SelectKey(j)[7..] == Decimal(j);
    DecimalInjective(i, j);
  }

  lemma RangeKeyInjective(i: nat, j: nat)
    requires RangeKey(i) == RangeKey(j)
    ensures i == j
  {
    assert RangeKey(i)[6..] == Decimal(i);
    assert RangeKey(j)[6..] == Decimal(j);
    DecimalInjective(i, j);
  }

  /** A select key is never a range key, and no positional key is one of
      the named initial settings, which therefore survive every save. */
  lemma PositionalKeysDistinct(i: nat, j: nat)
    ensures SelectKey(i) != RangeKey(j)
    ensures SelectKey(i) !in InitialSettings && RangeKey(j) !in InitialSettings
  {
    assert SelectKey(i)[0] == 's' && RangeKey(j)[0] == 'r';
  }

  /** The keys select_0 .. select_{s-1} and range_0 .. range_{r-1}. */
  ghost function PositionalKeys(selectCount: nat, rangeCount: nat): set<string>
  {
    (set i: nat | i < selectCount :: SelectKey(i)) + (set i: nat | i < rangeCount :: RangeKey(i))
  }

  /** The key of select i is not among those of the selects before it. */
  lemma FreshSelectKey(i: nat)
    ensures SelectKey(i) !in (set k: nat | k < i :: SelectKey(k))
  {
    forall k: nat | k < i ensures SelectKey(k) != SelectKey(i) {
      if SelectKey(k) == SelectKey(i) { SelectKeyInjective(k, i); }
    }
  }

  /** The key of range j is neither a select key nor the key of an earlier range. */
  lemma FreshRangeKey(selectCount: nat, j: nat)
    ensures RangeKey(j) !in (set k: nat | k < selectCount :: SelectKey(k))
    ensures RangeKey(j) !in (set k: nat | k < j :: RangeKey(k))
  {
    forall k: nat | k < j ensures RangeKey(k) != RangeKey(j) {
      if RangeKey(k) == RangeKey(j) { RangeKeyInjective(k, j); }
    }
    forall k: nat | k < selectCount ensures SelectKey(k) != RangeKey(j) {
      PositionalKeysDistinct(k, j);
    }
  }

  /** The `settings` object `saveSettings` builds: one entry per select and
      one per range, keyed by position, with the controls' current values. */
  method CollectSettings(selects: seq<Select>, ranges: seq<Range>) returns (m: map<string, SettingValue>)
    ensures m.Keys == PositionalKeys(|selects|, |ranges|)
    ensures forall i: nat :: i < |selects| ==> m[SelectKey(i)] == Text(SelectValue(selects[i]))
    ensures forall i: nat :: i < |ranges| ==> m[RangeKey(i)] == Text(RangeValue(ranges[i]))
  {
    m := map[];
    var i := 0;
    while i < |selects|
      invariant i <= |selects|
      invariant m.Keys == (set k: nat | k < i :: SelectKey(k))
      invariant forall k: nat :: k < i ==> m[SelectKey(k)] == Text(SelectValue(selects[k]))
    {
      FreshSelectKey(i);
      m := m[SelectKey(i) := Text(SelectValue(selects[i]))];
      i := i + 1;
    }
    ghost var selectPart := m;
    var j := 0;
    while j < |ranges|
      invariant j <= |ranges|
      invariant m.Keys == selectPart.Keys + (set k: nat | k < j :: RangeKey(k))
      invariant forall k: nat :: k < |selects| ==> m[SelectKey(k)] == selectPart[SelectKey(k)]
      invariant forall k: nat :: k < j ==> m[RangeKey(k)] == Text(RangeValue(ranges[k]))
    {
      FreshRangeKey(|selects|, j);
      m := m[RangeKey(j) := Text(RangeValue(ranges[j]))];
      j := j + 1;
    }
  }

  /** `select.selectedIndex = 0`: the first option, or no selection at all
      when the select has no options. */
  function ResetSelect(s: Select): (r: Select)
  {
    s.(selectedIndex := if |s.options| > 0 then 0 else -1)
  }

  /** `range.value = 85`, and the following span, if any, shows `85%`. */
  function ResetRange(r: Range): Range
  {
    Range(ResetValue, if r.display.Some? then Some("85%") else None)
  }

  /** After a reset a select reads as its first option, whatever was chosen
      before, and a range reads as 85 with the label `85%`. */
  lemma ResetValues(s: Select, r: Range)
    ensures SelectValue(ResetSelect(s)) == if |s.options| > 0 then s.options[0] else ""
    ensures ResetSelect(s).options == s.options
    ensures RangeValue(ResetRange(r)) == "85"
    ensures r.display.Some? ==> ResetRange(r).display == Some("85%")
    ensures r.display.None? ==> ResetRange(r).display.None?
  {
    assert Decimal(85) == Decimal(8) + [DigitChar(5)];
  }
}
