/**
 The accepted-line event of a reported turn, in terms of the lines of its latest diff.
 */
module ReducerLines {
  import opened Options
  import opened Reducer
  import DiffParser
  import DiffPrinting
  import DiffLookback

  /** Added and deleted lines of a text, each judged by the lines before it. */
  function AddedLines(diff: string): nat
  {
    DiffLookback.AddedIn(DiffParser.Lines(diff), |DiffParser.Lines(diff)|)
  }

  function DeletedLines(diff: string): nat
  {
    DiffLookback.DeletedIn(DiffParser.Lines(diff), |DiffParser.Lines(diff)|)
  }

  /** One event exactly if the latest diff adds or deletes a line. */
  function LineEvents(thread: ThreadId, turn: TurnId, config: Payload, diff: Option<string>): seq<Event>
  {
    if diff.None? || (AddedLines(diff.value) == 0 && DeletedLines(diff.value) == 0) then []
    else [AcceptedLines(thread, turn, config, AddedLines(diff.value), DeletedLines(diff.value))]
  }

  lemma {:induction false} LinesAreCounted(turn: TurnId, t: TurnState)
    requires Ready(t)
    ensures AcceptedLineEvents(turn, t) == LineEvents(t.thread.value, turn, t.config.value, t.latestDiff)
  {
    if t.latestDiff.Some? { DiffLookback.ParseLooksBack(t.latestDiff.value, NoLetter); }
  }

  /** For a printed diff the counts are those of its structure, whatever counts as a letter. */
  lemma {:induction false} PrintedDiffCounts(files: seq<DiffPrinting.FileDiff>, alnum: char -> bool)
    requires forall f | f in files :: DiffPrinting.WellFormed(f)
    ensures
      var total := DiffPrinting.TotalSummary(files, alnum);
      AddedLines(DiffPrinting.Print(files)) == total.added && DeletedLines(DiffPrinting.Print(files)) == total.deleted
  {
    DiffPrinting.ParseInvertsPrint(files, alnum);
    DiffLookback.ParseLooksBack(DiffPrinting.Print(files), alnum);
  }
}
