/** What the edit dialog reads off a card: the confidence number in the
    card's text and the card's content as plain text. */
module EditModal {
  import opened Strings
  import opened Pipeline

  /** Index of the first digit in s, or |s| when s has none. */
  function FirstDigitIndex(s: string): (p: nat)
    ensures p <= |s|
    ensures forall i :: 0 <= i < p ==> !IsDigit(s[i])
    ensures p < |s| ==> IsDigit(s[p])
  {
    if s == [] || IsDigit(s[0]) then 0 else 1 + FirstDigitIndex(s[1..])
  }

  /** Length of the run of digits s begins with. */
  function DigitPrefixLength(s: string): (n: nat)
    ensures n <= |s| && AllDigits(s[..n])
    ensures n < |s| ==> !IsDigit(s[n])
  {
    if s == [] || !IsDigit(s[0]) then 0 else 1 + DigitPrefixLength(s[1..])
  }

  /** d sits at position p of s, is a maximal run of digits, and no digit
      comes before it. */
  ghost predicate FirstRunAt(s: string, p: nat, d: string)
  {
    && p + |d| <= |s| && |d| > 0 && s[p..p + |d|] == d && AllDigits(d)
    && (forall i :: 0 <= i < p ==> !IsDigit(s[i]))
    && (p + |d| == |s| || !IsDigit(s[p + |d|]))
  }

  /** `text.match(/\d+/)[0]`: the first maximal run of digits; None where the
      match is null (the click handler then throws and the dialog stays shut). */
  function FirstDigitRun(s: string): (r: Option<string>)
    ensures r.None? <==> (forall i :: 0 <= i < |s| ==> !IsDigit(s[i]))
    ensures r.Some? ==> exists p :: FirstRunAt(s, p, r.value)
  {
    var p := FirstDigitIndex(s);
    if p == |s| then None
    else
      var n := DigitPrefixLength(s[p..]);
      assert n > 0;
      assert s[p..][..n] == s[p..p + n];
      assert FirstRunAt(s, p, s[p..p + n]);
      Some(s[p..p + n])
  }

  /** There is only one first maximal digit run. */
  lemma FirstRunUnique(s: string, p: nat, d: string, q: nat, e: string)
    requires FirstRunAt(s, p, d) && FirstRunAt(s, q, e)
    ensures p == q && d == e
  {
    assert IsDigit(s[p]) by { assert s[p] == d[0]; }
    assert IsDigit(s[q]) by { assert s[q] == e[0]; }
  }

  /** The text written on a loaded card gives back exactly the number it
      was made from: completion and the edit dialog agree on the confidence. */
  lemma ConfidenceRoundTrip(n: nat)
    ensures FirstDigitRun(ConfidenceLabel(n)) == Some(Decimal(n))
  {
    var text := ConfidenceLabel(n);
    var d := Decimal(n);
    assert text == "Confidence: " + d + "%";
    assert text[12..12 + |d|] == d;
    assert text[12 + |d|] == '%';
    assert FirstRunAt(text, 12, d);
    var r := FirstDigitRun(text);
    assert IsDigit(text[12]) by { assert text[12] == d[0]; }
    assert r.Some?;
    var p :| FirstRunAt(text, p, r.value);
    FirstRunUnique(text, p, r.value, 12, d);
  }

  /** Nothing is left for `/<[^>]*>/` to match: every `<` that remains has
      no `>` anywhere after it. */
  ghost predicate NoTagSpan(s: string)
  {
    forall i, j :: 0 <= i < j < |s| && s[i] == '<' ==> s[j] != '>'
  }

  /** `s.replace(/<[^>]*>/g, '')`: scanning left to right, a `<` with a `>`
      somewhere after it is removed together with everything up to and
      including the first such `>`; any other character is kept. */
  function StripTags(s: string): (r: string)
    ensures NoTagSpan(r)
    ensures '>' !in s ==> r == s
    ensures '<' !in s ==> r == s
    ensures |r| <= |s|
    decreases |s|
  {
    if s == [] then []
    else if s[0] == '<' && '>' in s then
      var close := FirstIndex(s, '>');
      StripTags(s[close + 1..])
    else
      var rest := StripTags(s[1..]);
      assert s[0] == '<' ==> '>' !in s[1..] && rest == s[1..];
      [s[0]] + rest
  }

  /** A string with no tag span left is its own stripping. */
  lemma {:induction false} StripTagsFixesClean(s: string)
    requires NoTagSpan(s)
    ensures StripTags(s) == s
  {
    if s != [] && s[0] != '<' {
      assert NoTagSpan(s[1..]) by {
        forall i, j | 0 <= i < j < |s[1..]| && s[1..][i] == '<'
          ensures s[1..][j] != '>'
        {
          assert s[i + 1] == '<';
        }
      }
      StripTagsFixesClean(s[1..]);
    } else if s != [] {
      assert forall j :: 0 < j < |s| ==> s[j] != '>';
      assert '>' !in s;
    }
  }

  /** Stripping twice strips nothing more than stripping once. */
  lemma StripTagsIdempotent(s: string)
    ensures StripTags(StripTags(s)) == StripTags(s)
  {
    StripTagsFixesClean(StripTags(s));
  }

  /** Number of whitespace characters s begins with. */
  function LeadingSpace(s: string): (n: nat)
    ensures n <= |s| && forall i :: 0 <= i < n ==> IsJsSpace(s[i])
    ensures n < |s| ==> !IsJsSpace(s[n])
  {
    if s == [] || !IsJsSpace(s[0]) then 0 else 1 + LeadingSpace(s[1..])
  }

  /** Number of whitespace characters s ends with. */
  function TrailingSpace(s: string): (n: nat)
    ensures n <= |s| && forall i :: |s| - n <= i < |s| ==> IsJsSpace(s[i])
    ensures n < |s| ==> !IsJsSpace(s[|s| - n - 1])
  {
    if s == [] || !IsJsSpace(s[|s| - 1]) then 0 else 1 + TrailingSpace(s[..|s| - 1])
  }

  /** s neither starts nor ends with whitespace. */
  predicate NoOuterSpace(s: string)
  {
    s == [] || (!IsJsSpace(s[0]) && !IsJsSpace(s[|s| - 1]))
  }

  /** `String.prototype.trim`: s with its leading and trailing whitespace removed. */
  function Trim(s: string): (r: string)
    ensures NoOuterSpace(r)
    ensures LeadingSpace(s) + |r| <= |s| && r == s[LeadingSpace(s)..LeadingSpace(s) + |r|]
    ensures forall i :: LeadingSpace(s) + |r| <= i < |s| ==> IsJsSpace(s[i])
    ensures AllSpace(s) <==> r == []
  {
    var a := LeadingSpace(s);
    if a == |s| then
      assert s[|s|..] == [];
      []
    else
      var b := TrailingSpace(s);
      assert |s| - b > a;
      var r := s[a..|s| - b];
      assert r == s[a..a + |r|];
      assert !AllSpace(s) by { assert !IsJsSpace(s[a]); }
      r
  }

  /** Trimming text that neither starts nor ends with whitespace changes nothing. */
  lemma TrimKeepsTrimmed(s: string)
    requires NoOuterSpace(s)
    ensures Trim(s) == s
  {
    if s != [] {
      assert LeadingSpace(s) == 0;
      assert TrailingSpace(s) == 0;
    }
  }

  /** A slice of a string with no tag span has none either. */
  lemma NoTagSpanSlice(s: string, a: nat, b: nat)
    requires NoTagSpan(s) && a <= b <= |s|
    ensures NoTagSpan(s[a..b])
  {
    forall i, j | 0 <= i < j < |s[a..b]| && s[a..b][i] == '<'
      ensures s[a..b][j] != '>'
    {
      assert s[a + i] == '<';
    }
  }

  /** Trimming cuts a slice out of the text, so it cannot create a tag span. */
  lemma TrimKeepsClean(s: string)
    requires NoTagSpan(s)
    ensures NoTagSpan(Trim(s))
  {
    var a := LeadingSpace(s);
    if a < |s| {
      var b := TrailingSpace(s);
      assert |s| - b > a by { assert !IsJsSpace(s[a]); }
      NoTagSpanSlice(s, a, |s| - b);
    }
  }

  /** The text the dialog's textarea receives: tags stripped, then trimmed. */
  function EditText(content: string): string
  {
    Trim(StripTags(content))
  }

  /** The edit text carries no tag span, so stripping it again changes nothing. */
  lemma EditTextIsClean(content: string)
    ensures NoTagSpan(EditText(content))
    ensures StripTags(EditText(content)) == EditText(content)
  {
    TrimKeepsClean(StripTags(content));
    StripTagsFixesClean(EditText(content));
  }

  /** The edit text carries no tag span and no outer whitespace, so preparing
      it a second time gives the same text. */
  lemma EditTextIsStable(content: string)
    ensures EditText(EditText(content)) == EditText(content)
  {
    var r := EditText(content);
    EditTextIsClean(content);
    TrimKeepsTrimmed(r);
  }
}
