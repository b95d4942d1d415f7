/**
 The context invariant of the reducer, and what single facts leave alone.
 */
module ReducerContext {
  import opened Options
  import opened Reducer
  import opened ReducerLines

  lemma {:induction false} RunSnoc(start: State, facts: seq<Fact>, f: Fact)
    ensures
      var before := RunFrom(start, facts);
      var step := Ingest(before.state, f);
      RunFrom(start, facts + [f]) == Step(step.state, before.events + step.events)
  {
    assert (facts + [f])[..|facts|] == facts;
  }

  // ---- every known thread has metadata and, if any, a connection that was initialized ----

  predicate ThreadInv(s: State, thread: ThreadId)
  {
    thread in s.threads ==>
      && s.threads[thread].metadata.Some?
      && (s.threads[thread].connection.Some? ==> s.threads[thread].connection.value in s.connections)
  }

  predicate ContextInv(s: State)
  {
    forall thread :: thread in s.threads ==> ThreadInv(s, thread)
  }

  /** A turn update touches requests and turns only. */
  lemma {:induction false} UpdateShape(s: State, f: Fact)
    requires TurnUpdateOf(s, f).Some?
    ensures
      var s' := Ingest(s, f).state;
      s' == s.(requests := s'.requests, turns := s'.turns)
  {
    var u := TurnUpdateOf(s, f).value;
    var s' := UpdateTurn(u.base, u.turn, u.entry).state;
    assert s' == u.base.(turns := s'.turns);
    assert u.base == s.(requests := u.base.requests);
  }

  /** A finished review touches pending reviews and summaries only. */
  lemma {:induction false} ReviewShape(s: State, f: Fact)
    requires FinishedReviewOf(s, f).Some?
    ensures TurnUpdateOf(s, f).None?
    ensures
      var s' := Ingest(s, f).state;
      s' == s.(pendingReviews := s'.pendingReviews, summaries := s'.summaries)
  {
    var r := FinishedReviewOf(s, f).value;
    var s' := EmitReview(r.base, r.review, r.reviewer, r.verdict, r.completedAt).state;
    assert s' == r.base.(summaries := s'.summaries);
    assert r.base == s.(pendingReviews := r.base.pendingReviews);
  }

  lemma {:induction false} RequestFactShape(s: State, f: Fact)
    ensures
      var s' := IngestRequestFact(s, f).state;
      s' == s.(requests := s'.requests, turns := s'.turns)
  {
    match f
    case TurnSteerResponse(connection, request, turn) =>
      var s' := SteerResponse(s, RequestKey(connection, request), turn).state;
      assert s' == s.(requests := s'.requests, turns := s'.turns);
    case ErrorResponse(connection, request, reason) =>
      var s' := RequestError(s, RequestKey(connection, request), reason).state;
      assert s' == s.(requests := s'.requests);
    case _ =>
  }

  lemma {:induction false} ItemFactShape(s: State, f: Fact)
    ensures
      var s' := IngestItemFact(s, f).state;
      s' == s.(turns := s'.turns, toolStarts := s'.toolStarts, pendingReviews := s'.pendingReviews,
               summaries := s'.summaries)
  {
  }

  lemma {:induction false} TurnFactShape(s: State, f: Fact)
    ensures
      var s' := IngestTurnFact(s, f).state;
      s' == s.(turns := s'.turns) && IngestTurnFact(s, f).events == []
  {
  }

  lemma {:induction false} ThreadFactShape(s: State, f: Fact)
    ensures
      var s' := IngestThreadFact(s, f).state;
      s' == s.(connections := s'.connections, threads := s'.threads)
  {
  }

  /** Which maps a plain fact can touch, by family. */
  lemma {:induction false} PlainShape(s: State, f: Fact)
    ensures
      var s' := IngestPlain(s, f).state;
      match FamilyOf(f)
      case RequestFamily => s' == s.(requests := s'.requests, turns := s'.turns)
      case ItemFamily => s' == s.(turns := s'.turns, toolStarts := s'.toolStarts, pendingReviews := s'.pendingReviews,
                                  summaries := s'.summaries)
      case TurnFamily => s' == s.(turns := s'.turns)
      case ThreadFamily => s' == s.(connections := s'.connections, threads := s'.threads)
  {
    match FamilyOf(f)
    case RequestFamily => RequestFactShape(s, f);
    case ItemFamily => ItemFactShape(s, f);
    case TurnFamily => TurnFactShape(s, f);
    case ThreadFamily => ThreadFactShape(s, f);
  }

  predicate Registers(f: Fact)
  {
    f.Initialize? || f.ThreadResponse? || f.SubAgentThreadStarted?
  }

  lemma {:induction false} PlainRegistryFrame(s: State, f: Fact)
    requires !Registers(f)
    ensures IngestPlain(s, f).state.threads == s.threads && IngestPlain(s, f).state.connections == s.connections
  {
    PlainShape(s, f);
    if FamilyOf(f) == ThreadFamily { assert IngestThreadFact(s, f).state == s; }
  }

  /** Only three kinds of fact touch threads and connections. */
  lemma {:induction false} RegistryFrame(s: State, f: Fact)
    requires !Registers(f)
    ensures Ingest(s, f).state.threads == s.threads && Ingest(s, f).state.connections == s.connections
  {
    if TurnUpdateOf(s, f).Some? {
      UpdateShape(s, f);
    } else if FinishedReviewOf(s, f).Some? {
      ReviewShape(s, f);
    } else {
      PlainRegistryFrame(s, f);
    }
  }

  lemma {:induction false} RegisteringFact(s: State, f: Fact)
    requires Registers(f)
    ensures Ingest(s, f) == match f
                            case Initialize(connection, client) =>
                              Step(s.(connections := s.connections[connection := client]), [])
                            case ThreadResponse(connection, thread, metadata, details) =>
                              RegisterThread(s, connection, thread, metadata, details)
                            case SubAgentThreadStarted(thread, metadata, details) =>
                              StartSubAgent(s, thread, metadata, details)
  {
  }

  lemma {:induction false} ContextStep(s: State, f: Fact)
    requires ContextInv(s)
    ensures ContextInv(Ingest(s, f).state)
  {
    if Registers(f) {
      RegisteringFact(s, f);
      if f.SubAgentThreadStarted? {
        var parent := f.metadata.parent;
        assert parent.Some? && parent.value in s.threads ==> ThreadInv(s, parent.value);
        assert f.thread in s.threads ==> ThreadInv(s, f.thread);
      }
    } else {
      RegistryFrame(s, f);
    }
  }

  lemma {:induction false} ContextRun(facts: seq<Fact>)
    ensures ContextInv(Run(facts).state)
  {
    if facts != [] {
      ContextRun(facts[..|facts| - 1]);
      ContextStep(Run(facts[..|facts| - 1]).state, facts[|facts| - 1]);
    }
  }

  /**
   In every reachable state the thread lookup fails for one reason only: the thread is not known
   or has no connection.  The missing-connection and missing-metadata branches are dead, also for
   connections inherited down a chain of subagents.
   */
  lemma ThreadLookupFailsOnlyWithoutConnection(facts: seq<Fact>, thread: ThreadId)
    ensures
      var s := Run(facts).state;
      ThreadContext(s, thread).None? <==> thread !in s.threads || s.threads[thread].connection.None?
  {
    ContextRun(facts);
    assert thread in Run(facts).state.threads ==> ThreadInv(Run(facts).state, thread);
  }

  // ---- what a fact can do to the entry of a turn ----

  /** The turn whose entry a fact may create, change or remove. */
  function TurnOf(f: Fact): Option<TurnId>
  {
    match f
    case TurnStartResponse(_, _, turn) => Some(turn)
    case TurnSteerResponse(_, _, turn) => Some(turn)
    case ItemCompleted(_, turn, _, _) => Some(turn)
    case TurnStarted(turn, _) => Some(turn)
    case TurnDiffUpdated(_, turn, _) => Some(turn)
    case TurnCompleted(turn, _, _, _, _) => Some(turn)
    case TurnResolvedConfig(turn, _, _, _) => Some(turn)
    case TurnTokenUsage(turn, _, _) => Some(turn)
    case TurnProfile(turn, _) => Some(turn)
    case TurnCodexError(turn, _, _) => Some(turn)
    case _ => None
  }

  predicate SameTurn(s: State, s': State, turn: TurnId)
  {
    && (turn in s.turns <==> turn in s'.turns)
    && (turn in s.turns ==> s'.turns[turn] == s.turns[turn])
  }

  /** The turn events about one turn, in order. */
  function TurnsFor(events: seq<Event>, turn: TurnId): seq<Event>
  {
    if events == [] then []
    else
      var last := events[|events| - 1];
      TurnsFor(events[..|events| - 1], turn) + if last.TurnEvent? && last.turn == turn then [last] else []
  }

  lemma {:induction false} TurnsForAppend(a: seq<Event>, b: seq<Event>, turn: TurnId)
    ensures TurnsFor(a + b, turn) == TurnsFor(a, turn) + TurnsFor(b, turn)
    decreases |b|
  {
    if b == [] {
      assert a + b == a;
    } else {
      var n := |b| - 1;
      TurnsForAppend(a, b[..n], turn);
      assert |a + b| - 1 == |a| + n && (a + b)[|a| + n] == b[n];
      assert (a + b)[..|a| + n] == a + b[..n];
    }
  }

  lemma {:induction false} NoTurnEvents(events: seq<Event>, turn: TurnId)
    requires forall i | 0 <= i < |events| :: !(events[i].TurnEvent? && events[i].turn == turn)
    ensures TurnsFor(events, turn) == []
  {
    if events != [] { NoTurnEvents(events[..|events| - 1], turn); }
  }

  /** The events that report a turn: turn events and accepted lines. */
  function ReportsFor(events: seq<Event>, turn: TurnId): seq<Event>
  {
    if events == [] then []
    else
      var last := events[|events| - 1];
      ReportsFor(events[..|events| - 1], turn)
      + if (last.TurnEvent? || last.AcceptedLines?) && last.turn == turn then [last] else []
  }

  lemma {:induction false} ReportsForAppend(a: seq<Event>, b: seq<Event>, turn: TurnId)
    ensures ReportsFor(a + b, turn) == ReportsFor(a, turn) + ReportsFor(b, turn)
    decreases |b|
  {
    if b == [] {
      assert a + b == a;
    } else {
      var n := |b| - 1;
      ReportsForAppend(a, b[..n], turn);
      assert |a + b| - 1 == |a| + n && (a + b)[|a| + n] == b[n];
      assert (a + b)[..|a| + n] == a + b[..n];
    }
  }

  lemma {:induction false} NoReports(events: seq<Event>, turn: TurnId)
    requires forall i | 0 <= i < |events| ::
               !((events[i].TurnEvent? || events[i].AcceptedLines?) && events[i].turn == turn)
    ensures ReportsFor(events, turn) == []
  {
    if events != [] { NoReports(events[..|events| - 1], turn); }
  }

  lemma {:induction false} AllReports(events: seq<Event>, turn: TurnId)
    requires forall i | 0 <= i < |events| ::
               (events[i].TurnEvent? || events[i].AcceptedLines?) && events[i].turn == turn
    ensures ReportsFor(events, turn) == events
  {
    if events != [] { AllReports(events[..|events| - 1], turn); }
  }

  /** Whether the updated entry is ready to be reported, and with what context. */
  function EmitContext(s: State, turn: TurnId, t: TurnState): Option<Context>
  {
    if !Ready(t) then None else ContextFor(s, t.connection, t.thread.value)
  }

  /** An update of a turn's entry either stores it, or reports it once and removes the entry. */
  lemma {:induction false} UpdateTurnEffect(s: State, turn: TurnId, t: TurnState)
    ensures
      var step := UpdateTurn(s, turn, t);
      var context := EmitContext(s, turn, t);
      if context.None? then step == Step(SetTurn(s, turn, t), [])
      else
        && step.state.turns == s.turns - {turn}
        && step.state == s.(turns := step.state.turns)
        && step.events
           == [TurnEventOf(turn, t, context.value)] + LineEvents(t.thread.value, turn, t.config.value, t.latestDiff)
        && TurnsFor(step.events, turn) == [TurnEventOf(turn, t, context.value)]
  {
    var step := UpdateTurn(s, turn, t);
    var context := EmitContext(s, turn, t);
    assert ContextFor(SetTurn(s, turn, t), t.connection, if t.thread.Some? then t.thread.value else ThreadId(0))
        == ContextFor(s, t.connection, if t.thread.Some? then t.thread.value else ThreadId(0));
    if context.Some? {
      assert s.turns[turn := t] - {turn} == s.turns - {turn};
      var first := TurnEventOf(turn, t, context.value);
      LinesAreCounted(turn, t);
      TurnsForAppend([first], AcceptedLineEvents(turn, t), turn);
      NoTurnEvents(AcceptedLineEvents(turn, t), turn);
      assert [first][..0] == [];
    }
  }

  lemma {:induction false} UpdateTurnFrame(s: State, turn: TurnId, t: TurnState, other: TurnId)
    requires other != turn
    ensures SameTurn(s, UpdateTurn(s, turn, t).state, other)
    ensures forall i | 0 <= i < |UpdateTurn(s, turn, t).events| ::
              var e := UpdateTurn(s, turn, t).events[i]; !(e.TurnEvent? && e.turn == other)
  {
    UpdateTurnEffect(s, turn, t);
  }

  /** A fact leaves the entries of all other turns alone and reports none of them. */
  lemma {:induction false} TurnFrame(s: State, f: Fact, turn: TurnId)
    requires TurnOf(f) != Some(turn)
    ensures SameTurn(s, Ingest(s, f).state, turn)
    ensures TurnsFor(Ingest(s, f).events, turn) == []
  {
    var update := TurnUpdateOf(s, f);
    if update.Some? {
      UpdateTurnFrame(update.value.base, update.value.turn, update.value.entry, turn);
    } else if FinishedReviewOf(s, f).None? {
      PlainTurnFrame(s, f, turn);
      PlainEmitsNoTurnEvent(s, f);
    }
    NoTurnEvents(Ingest(s, f).events, turn);
  }

  /** A fact about another turn reports nothing for this one. */
  lemma {:induction false} ReportFrame(s: State, f: Fact, turn: TurnId)
    requires TurnOf(f) != Some(turn)
    ensures ReportsFor(Ingest(s, f).events, turn) == []
  {
    var update := TurnUpdateOf(s, f);
    if update.Some? {
      UpdateTurnEffect(update.value.base, update.value.turn, update.value.entry);
    } else if FinishedReviewOf(s, f).None? {
      PlainEmitsNoTurnEvent(s, f);
    }
    NoReports(Ingest(s, f).events, turn);
  }

  lemma {:induction false} PlainTurnFrame(s: State, f: Fact, turn: TurnId)
    requires TurnOf(f) != Some(turn)
    ensures SameTurn(s, IngestPlain(s, f).state, turn)
  {
    PlainShape(s, f);
    match FamilyOf(f)
    case RequestFamily => assert SameTurn(s, IngestRequestFact(s, f).state, turn);
    case ItemFamily => ItemTurnFrame(s, f, turn);
    case TurnFamily => assert SameTurn(s, IngestTurnFact(s, f).state, turn);
    case ThreadFamily =>
  }

  lemma {:induction false} ItemTurnFrame(s: State, f: Fact, turn: TurnId)
    requires TurnOf(f) != Some(turn)
    ensures SameTurn(s, IngestItemFact(s, f).state, turn)
  {
    if f.ItemCompleted? { CompleteItemTurns(s, f.thread, f.turn, f.threadItem, f.completedAt); }
  }

  lemma {:induction false} PlainEmitsNoTurnEvent(s: State, f: Fact)
    ensures forall i | 0 <= i < |IngestPlain(s, f).events| ::
              !IngestPlain(s, f).events[i].TurnEvent? && !IngestPlain(s, f).events[i].AcceptedLines?
  {
    match FamilyOf(f)
    case RequestFamily => RequestEvents(s, f);
    case ItemFamily => ItemEvents(s, f);
    case TurnFamily => TurnFactShape(s, f);
    case ThreadFamily => ThreadEvents(s, f);
  }

  lemma {:induction false} RequestEvents(s: State, f: Fact)
    ensures |IngestRequestFact(s, f).events| <= 1
    ensures forall i | 0 <= i < |IngestRequestFact(s, f).events| :: IngestRequestFact(s, f).events[i].SteerEvent?
  {
  }

  lemma {:induction false} ItemEvents(s: State, f: Fact)
    ensures |IngestItemFact(s, f).events| <= 1
    ensures forall i | 0 <= i < |IngestItemFact(s, f).events| :: IngestItemFact(s, f).events[i].ToolEvent?
  {
  }

  lemma {:induction false} ThreadEvents(s: State, f: Fact)
    ensures |IngestThreadFact(s, f).events| <= 1
    ensures forall i | 0 <= i < |IngestThreadFact(s, f).events| ::
              var e := IngestThreadFact(s, f).events[i]; e.ThreadInitialized? || e.CompactionEvent? || e.GuardianEvent?
  {
  }

  /** The facts that write to a turn's entry without reporting it: what the entry is afterwards. */
  function PlainEntry(s: State, f: Fact, t: TurnState): TurnState
  {
    match f
    case TurnSteerResponse(c, r, _) =>
      if RequestKey(c, r) in s.requests && s.requests[RequestKey(c, r)].PendingSteer?
      then t.(steerCount := t.steerCount + 1) else t
    case ItemCompleted(_, _, item, _) => t.(tools := Record(t.tools, item))
    case TurnStarted(_, startedAt) => t.(startedAt := NonNegativeOf(startedAt))
    case TurnDiffUpdated(thread, _, diff) => t.(thread := Some(thread), latestDiff := Some(diff))
    case TurnCodexError(_, thread, error) =>
      t.(thread := if t.thread.None? then Some(thread) else t.thread, codexError := Some(error))
    case _ => t
  }

  /** The facts that make an entry for a turn that has none. */
  predicate Creates(f: Fact)
  {
    f.TurnStarted? || f.TurnDiffUpdated? || f.TurnCodexError?
  }

  lemma {:induction false} CompleteItemTurns(s: State, thread: ThreadId, turn: TurnId, item: Item, completedAt: int)
    ensures CompleteItem(s, thread, turn, item, completedAt).state.turns
         == if turn in s.turns then s.turns[turn := s.turns[turn].(tools := Record(s.turns[turn].tools, item))]
            else s.turns
  {
    if turn in s.turns && item.OtherItem? { assert s.turns[turn := s.turns[turn]] == s.turns; }
  }

  lemma {:induction false} PlainTurnEffect(s: State, f: Fact, turn: TurnId)
    requires TurnUpdateOf(s, f).None? && TurnOf(f) == Some(turn)
    ensures Ingest(s, f) == IngestPlain(s, f)
    ensures
      var s' := IngestPlain(s, f).state;
      && (turn in s'.turns <==> turn in s.turns || Creates(f))
      && (turn in s'.turns ==> s'.turns[turn] == PlainEntry(s, f, TurnAt(s, turn)))
  {
    assert FinishedReviewOf(s, f).None?;
    match FamilyOf(f)
    case RequestFamily => SteeredEntry(s, f, turn);
    case ItemFamily => CompleteItemTurns(s, f.thread, f.turn, f.threadItem, f.completedAt);
    case TurnFamily =>
      assert IngestTurnFact(s, f).state.turns == s.turns[turn := PlainEntry(s, f, TurnAt(s, turn))];
  }

  lemma {:induction false} SteeredEntry(s: State, f: Fact, turn: TurnId)
    requires f.TurnStartResponse? || f.TurnSteerResponse?
    requires TurnOf(f) == Some(turn)
    ensures
      var s' := IngestRequestFact(s, f).state;
      && (turn in s'.turns <==> turn in s.turns)
      && (turn in s'.turns ==> s'.turns[turn] == PlainEntry(s, f, TurnAt(s, turn)))
  {
  }
}
