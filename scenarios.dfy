/** What a caller can conclude from the handlers' contracts alone, on a
    page with two stages and no run yet. */
module Scenarios {
  import opened Strings
  import opened Upload
  import opened Pipeline
  import opened App

  /** One upload of an accepted file: the walk goes through both stages in
      order, then completion marks both completed, loads the results into
      the cards and clears `isProcessing`. With the page's own results, the
      first card then shows a confidence of 95. */
  method SingleUpload(app: PartnershipApp, file: FileInfo)
    requires app.Valid() && IsAccepted(file)
    requires |app.stages| == 2 && app.runs == [] && app.results == Results
    modifies app, app.notes
  {
    var cards := app.cards;
    app.ProcessFiles([file]);
    assert app.state.isProcessing && app.state.currentDocument == Some(file.name);
    assert app.state.currentSection == Some("analysis");
    assert app.stages == [Current, Pending];
    app.Tick(0);
    assert app.stages == [Done, Current];
    app.Tick(0);
    assert app.stages == [Done, Done];
    assert !app.state.isProcessing && !app.runs[0].live;
    assert app.cards == LoadCards(cards, app.results);
    assert app.Showing(CompletionMessage, "success");
    if |cards| > 0 && cards[0].confidenceLabel.Some? {
      LoadCardsByPosition(cards);
      assert app.cards[0].confidenceLabel == Some(ConfidenceLabel(95));
    }
  }

  /** Two uploads in a row: nothing stops the second, so two runs tick over
      the same stages. The first run's completion clears `isProcessing`
      while the second is still going, and the second run's next tick then
      makes the last stage both active and completed. */
  method OverlappingUploads(app: PartnershipApp, file: FileInfo)
    requires app.Valid() && IsAccepted(file)
    requires |app.stages| == 2 && app.runs == []
    modifies app, app.notes
  {
    app.ProcessFiles([file]);
    app.ProcessFiles([file]);
    assert app.runs == [Run(1, true), Run(1, true)];
    app.Tick(0);
    app.Tick(0);
    assert !app.state.isProcessing && app.runs[1].live;
    app.Tick(1);
    assert app.stages[1] == Stage(true, true);
  }

  /** A second upload while the first run is still ticking: its reset takes
      `completed` away from the stage the first run had completed, and the
      first run goes on from where its counter stands. */
  method SecondUploadUncompletes(app: PartnershipApp, file: FileInfo)
    requires app.Valid() && IsAccepted(file)
    requires |app.stages| == 2 && app.runs == []
    modifies app, app.notes
  {
    app.ProcessFiles([file]);
    app.Tick(0);
    assert app.stages[0].completed && app.runs[0].live;
    app.ProcessFiles([file]);
    assert !app.stages[0].completed && app.runs[0] == Run(2, true);
  }
}
