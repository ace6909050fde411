/** The simulated processing pipeline: a walk over the `.stage` markers,
    one stage per timer tick, and the canned results loaded into the cards
    when the walk is over. */
module Pipeline {
  import opened Strings

  /** The class list of one `.stage` element: does it carry `active`, does
      it carry `completed`. The two flags are independent in the page; a
      single walk only ever produces the three states below. */
  datatype Stage = Stage(active: bool, completed: bool)

  const Pending: Stage := Stage(false, false)
  const Current: Stage := Stage(true, false)
  const Done: Stage := Stage(false, true)

  /** One timer chain started by an upload: its `currentStage` counter, and
      whether a further tick is still scheduled. */
  datatype Run = Run(counter: nat, live: bool)

  /** Start of a run: `active` and `completed` removed from every stage. */
  function Reset(s: seq<Stage>): (r: seq<Stage>)
  {
    seq(|s|, i requires 0 <= i < |s| => Pending)
  }

  /** The tick whose counter is k: stages before k lose `active` and gain
      `completed`; stage k gains `active`; later stages are untouched. */
  function TickStages(s: seq<Stage>, k: nat): (r: seq<Stage>)
    requires k < |s|
  {
    seq(|s|, i requires 0 <= i < |s| =>
      if i < k then Done else if i == k then s[i].(active := true) else s[i])
  }

  /** Completion: every stage loses `active` and gains `completed`. */
  function CompleteStages(s: seq<Stage>): (r: seq<Stage>)
  {
    seq(|s|, i requires 0 <= i < |s| => Done)
  }

  /** The stage list of an undisturbed run whose counter is c: the stages
      before c - 1 are completed, stage c - 1 is the active one, the rest
      are pending. */
  ghost predicate Walked(s: seq<Stage>, c: nat)
  {
    c <= |s| &&
    forall i :: 0 <= i < |s| ==>
      s[i] == (if i + 1 < c then Done else if i + 1 == c then Current else Pending)
  }

  /** The stage list after the ticks with counters 0, ..., k - 1. */
  function Walk(s: seq<Stage>, k: nat): (r: seq<Stage>)
    requires k <= |s|
    ensures |r| == |s|
  {
    if k == 0 then s else TickStages(Walk(s, k - 1), k - 1)
  }

  /** A tick moves an undisturbed run on by exactly one stage. */
  lemma TickAdvances(s: seq<Stage>, k: nat)
    requires Walked(s, k) && k < |s|
    ensures Walked(TickStages(s, k), k + 1)
  {
  }

  /** From a reset, every prefix of the walk has the expected shape. */
  lemma {:induction false} WalkFromReset(s: seq<Stage>, k: nat)
    requires k <= |s|
    ensures Walked(Walk(Reset(s), k), k)
  {
    if k > 0 {
      WalkFromReset(s, k - 1);
      TickAdvances(Walk(Reset(s), k - 1), k - 1);
    }
  }

  /** A tick never takes `completed` away from a stage. */
  lemma TickKeepsCompleted(s: seq<Stage>, k: nat, i: nat)
    requires k < |s| && i < |s| && s[i].completed
    ensures TickStages(s, k)[i].completed
  {
  }

  /** Within one run, a stage once completed stays completed. */
  lemma {:induction false} CompletedNeverReverts(s: seq<Stage>, j: nat, k: nat, i: nat)
    requires j <= k <= |s| && i < |s|
    requires Walk(s, j)[i].completed
    ensures Walk(s, k)[i].completed
  {
    if j < k {
      CompletedNeverReverts(s, j, k - 1, i);
      TickKeepsCompleted(Walk(s, k - 1), k - 1, i);
    }
  }

  /** In an undisturbed run a stage is active only once all stages before it
      are completed, and at most one stage is active. */
  lemma WalkedOrder(s: seq<Stage>, c: nat, i: nat)
    requires Walked(s, c) && i < |s| && s[i].active
    ensures forall j :: 0 <= j < i ==> s[j].completed && !s[j].active
    ensures forall j :: i < j < |s| ==> !s[j].active && !s[j].completed
  {
  }

  /** A full run ends with the last stage active and all others completed,
      so completion only finishes the last stage. */
  lemma CompletionFinishesLastStage(s: seq<Stage>)
    requires |s| > 0
    ensures CompleteStages(Walk(Reset(s), |s|)) == Walk(Reset(s), |s|)[|s| - 1 := Done]
  {
    WalkFromReset(s, |s|);
  }

  /** No stage is active while an earlier one is not completed. */
  ghost predicate Ordered(s: seq<Stage>)
  {
    forall i, j :: 0 <= j < i < |s| && s[i].active ==> s[j].completed
  }

  /** A reset, a tick of any run and completion all keep the stages in
      order, so the order holds under every interleaving of runs. */
  lemma ResetOrdered(s: seq<Stage>)
    ensures Ordered(Reset(s))
  {
  }

  lemma TickOrdered(s: seq<Stage>, k: nat)
    requires k < |s| && Ordered(s)
    ensures Ordered(TickStages(s, k))
  {
  }

  lemma CompleteOrdered(s: seq<Stage>)
    ensures Ordered(CompleteStages(s))
  {
  }

  /** What overlapping runs do break. Two uploads on four stages: the first
      run walks to the end (counter 4) while the second waits at counter 1;
      the second run's next tick then leaves stages 1 and 3 both active,
      and stage 1 active and completed at once. */
  lemma OverlapLeavesTwoActive(s: seq<Stage>)
    requires |s| == 4
    ensures var t := TickStages(Walk(Reset(s), 4), 1);
      t[1].active && t[1].completed && t[3].active
  {
    WalkFromReset(s, 4);
  }

  /** One of the four canned components. */
  datatype Extracted = Extracted(title: string, confidence: nat, content: string)

  const Results: seq<Extracted> := [
    Extracted("Distribution Waterfall", 95,
      "\n<ul>\n<li>Return of capital contributions - 100% to LPs</li>\n<li>8% preferred return - 100% to LPs</li>\n<li>Catchup - 100% to GP until 20% total return</li>\n<li>Carried interest - 20% GP, 80% LPs</li>\n</ul>\n            "),
    Extracted("Preferred Return", 88,
      "\n<p><strong>Rate:</strong> 8% annually</p>\n<p><strong>Method:</strong> Cumulative compound</p>\n<p><strong>Calculation:</strong> Based on capital contributions</p>\n            "),
    Extracted("Capital Call Provisions", 92,
      "\n<p><strong>Notice Period:</strong> 45 days</p>\n<p><strong>Default Interest:</strong> 12% per annum</p>\n<p><strong>Remedies:</strong> Dilution, suspension of rights</p>\n            "),
    Extracted("Special Allocations", 86,
      "\n<ul>\n<li>Depreciation allocated 90% to LPs</li>\n<li>Section 704(c) gain allocated to contributing partner</li>\n<li>Minimum gain chargeback provisions included</li>\n</ul>\n            ")
  ]

  /** A `.component-card`: the text of its `h4`, of its `.confidence-score`
      and the markup of its `.component-content`, each absent when the card
      has no such element. */
  datatype Card = Card(heading: Option<string>, confidenceLabel: Option<string>, content: Option<string>)

  function ConfidenceLabel(n: nat): string
  {
    "Confidence: " + Decimal(n) + "%"
  }

  /** Card i receives result i in the elements it has; the heading is never written. */
  function LoadCard(c: Card, x: Extracted): Card
  {
    c.(confidenceLabel := if c.confidenceLabel.Some? then Some(ConfidenceLabel(x.confidence)) else None,
       content := if c.content.Some? then Some(x.content) else None)
  }

  /** `loadExtractedComponents` on the whole card list: card i receives
      result i, for as many cards as there are results. */
  function LoadCards(cards: seq<Card>, results: seq<Extracted>): (r: seq<Card>)
  {
    seq(|cards|, i requires 0 <= i < |cards| =>
      if i < |results| then LoadCard(cards[i], results[i]) else cards[i])
  }

  /** The first four cards show the fixed confidences 95, 88, 92, 86 and
      the fixed contents; cards from the fifth on are left as they were. */
  lemma LoadCardsByPosition(cards: seq<Card>)
    ensures |LoadCards(cards, Results)| == |cards|
    ensures forall i :: 0 <= i < |cards| && i < 4 && cards[i].confidenceLabel.Some? ==>
      LoadCards(cards, Results)[i].confidenceLabel == Some(ConfidenceLabel([95, 88, 92, 86][i]))
    ensures forall i :: 0 <= i < |cards| && i < 4 && cards[i].content.Some? ==>
      LoadCards(cards, Results)[i].content == Some(Results[i].content)
    ensures forall i :: 0 <= i < |cards| && i < 4 ==>
      LoadCards(cards, Results)[i].heading == cards[i].heading
    ensures forall i :: 4 <= i < |cards| ==> LoadCards(cards, Results)[i] == cards[i]
  {
  }

  /** Loading twice shows the same as loading once. */
  lemma LoadCardsIdempotent(cards: seq<Card>, results: seq<Extracted>)
    ensures LoadCards(LoadCards(cards, results), results) == LoadCards(cards, results)
  {
  }
}
