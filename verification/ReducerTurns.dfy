/**
 Turns as the facts leave them: the entry of a turn in every reachable state, and the report that
 closes it, as a fold over the facts with the requests behind replies found by looking back.
 */
module ReducerTurns {
  import opened Options
  import opened Reducer
  import opened ReducerLines
  import opened ReducerContext
  import Emission = ReducerEmission
  import Isolation = ReducerIsolation
  import Reports = ReducerReports

  function Usable(time: Option<int>): Option<nat>
  {
    if time.Some? && time.value >= 0 then Some(time.value) else None
  }

  /** The request a reply answers, as a fact. */
  function Asked(facts: seq<Fact>, connection: ConnectionId, request: RequestId): Option<Fact>
  {
    var j := Emission.Recorded(facts, RequestKey(connection, request));
    if j.Some? && j.value < |facts| then Some(facts[j.value]) else None
  }

  /** The entry after a fact that may close the turn; none if the fact has nothing to say to it. */
  function Updated(facts: seq<Fact>, t: TurnState, f: Fact): Option<TurnState>
  {
    match f
    case TurnStartResponse(connection, request, _) =>
      var asked := Asked(facts, connection, request);
      if asked.None? || !asked.value.TurnStartRequest? then None
      else Some(t.(connection := Some(connection), thread := Some(asked.value.thread),
                   images := Some(asked.value.images)))
    case TurnResolvedConfig(_, thread, images, config) =>
      Some(t.(thread := Some(thread), images := Some(images), config := Some(config)))
    case TurnTokenUsage(_, thread, usage) => Some(t.(thread := Some(thread), tokenUsage := Some(usage)))
    case TurnProfile(_, profile) => Some(t.(profile := Some(profile)))
    case TurnCompleted(_, status, error, completedAt, duration) =>
      var at := if Usable(completedAt).Some? then Usable(completedAt).value else 0;
      Some(t.(completed := Some(CompletedTurn(status, error, at, Usable(duration)))))
    case _ => None
  }

  /** The entry after any other fact about the turn. */
  function Noted(facts: seq<Fact>, t: TurnState, f: Fact): TurnState
  {
    match f
    case TurnSteerResponse(connection, request, _) =>
      var asked := Asked(facts, connection, request);
      if asked.Some? && asked.value.TurnSteerRequest? then t.(steerCount := t.steerCount + 1) else t
    case ItemCompleted(_, _, item, _) => t.(tools := Record(t.tools, item))
    case TurnStarted(_, startedAt) => t.(startedAt := Usable(startedAt))
    case TurnDiffUpdated(thread, _, diff) => t.(thread := Some(thread), latestDiff := Some(diff))
    case TurnCodexError(_, thread, error) =>
      t.(codexError := Some(error), thread := if t.thread.Some? then t.thread else Some(thread))
    case _ => t
  }

  /** Everything the turn event needs is there, and the thread is heard on the turn's connection. */
  predicate Closed(facts: seq<Fact>, t: TurnState)
  {
    && t.completed.Some? && t.profile.Some? && t.config.Some? && t.images.Some? && t.thread.Some?
    && Reports.Heard(facts, t.connection, t.thread.value).Some?
  }

  function Known(t: Option<TurnState>): TurnState
  {
    if t.Some? then t.value else NEW_TURN
  }

  /** The entry of a turn after these facts. */
  function TurnIn(facts: seq<Fact>, turn: TurnId): Option<TurnState>
  {
    if facts == [] then None
    else
      var before, f := facts[..|facts| - 1], facts[|facts| - 1];
      var t := TurnIn(before, turn);
      if TurnOf(f) != Some(turn) then t
      else
        var u := Updated(before, Known(t), f);
        if u.Some? then if Closed(before, u.value) then None else u
        else if t.Some? || Creates(f) then Some(Noted(before, Known(t), f))
        else None
  }

  lemma {:induction false} AskedIsPending(facts: seq<Fact>, connection: ConnectionId, request: RequestId)
    ensures
      var pending := Emission.Lookup(Run(facts).state, RequestKey(connection, request));
      var asked := Asked(facts, connection, request);
      && (pending.Some? <==> asked.Some?)
      && (pending.Some? ==> Emission.RequestOf(asked.value) == pending)
  {
    var key := RequestKey(connection, request);
    Emission.RequestsAreRecorded(facts, key);
    if Emission.Recorded(facts, key).Some? { Emission.RecordedInRange(facts, key); }
  }

  /** The reducer's update is the one the facts call for, in the same context. */
  lemma {:induction false} UpdateIsUpdated(facts: seq<Fact>, f: Fact, turn: TurnId)
    requires TurnOf(f) == Some(turn)
    ensures
      var s := Run(facts).state;
      var u, u' := TurnUpdateOf(s, f), Updated(facts, TurnAt(s, turn), f);
      && (u.Some? <==> u'.Some?)
      && (u.Some? ==> u.value.turn == turn && u.value.entry == u'.value && u.value.base.turns == s.turns
                      && u.value.base.connections == s.connections && u.value.base.threads == s.threads)
  {
    if f.TurnStartResponse? { AskedIsPending(facts, f.connection, f.request); }
  }

  lemma {:induction false} ClosedIffEmitted(facts: seq<Fact>, base: State, turn: TurnId, t: TurnState)
    requires base.connections == Run(facts).state.connections && base.threads == Run(facts).state.threads
    ensures EmitContext(base, turn, t).Some? <==> Closed(facts, t)
    ensures Closed(facts, t) ==> EmitContext(base, turn, t) == Reports.Heard(facts, t.connection, t.thread.value)
  {
    if t.thread.Some? {
      Reports.ContextsAreHeard(facts, t.connection, t.thread.value);
      assert ContextFor(base, t.connection, t.thread.value)
          == ContextFor(Run(facts).state, t.connection, t.thread.value);
    }
  }

  lemma {:induction false} UpdatedTurn(facts: seq<Fact>, f: Fact, turn: TurnId)
    requires TurnOf(f) == Some(turn) && TurnUpdateOf(Run(facts).state, f).Some?
    ensures
      var s := Run(facts).state;
      var u := Updated(facts, TurnAt(s, turn), f);
      u.Some? && Isolation.TurnEntry(Ingest(s, f).state, turn) == if Closed(facts, u.value) then None else u
  {
    var s := Run(facts).state;
    UpdateIsUpdated(facts, f, turn);
    var u := TurnUpdateOf(s, f).value;
    ClosedIffEmitted(facts, u.base, turn, u.entry);
    UpdateTurnEffect(u.base, turn, u.entry);
  }

  lemma {:induction false} NotedTurn(facts: seq<Fact>, f: Fact, turn: TurnId)
    requires TurnOf(f) == Some(turn) && TurnUpdateOf(Run(facts).state, f).None?
    ensures
      var s := Run(facts).state;
      && Updated(facts, TurnAt(s, turn), f).None?
      && Isolation.TurnEntry(Ingest(s, f).state, turn)
         == if turn in s.turns || Creates(f) then Some(Noted(facts, TurnAt(s, turn), f)) else None
  {
    var s := Run(facts).state;
    UpdateIsUpdated(facts, f, turn);
    PlainTurnEffect(s, f, turn);
    if f.TurnSteerResponse? { AskedIsPending(facts, f.connection, f.request); }
  }

  /** In every reachable state the entry of a turn is what the facts about it add up to. */
  lemma {:induction false} TurnsAreRecorded(facts: seq<Fact>, turn: TurnId)
    ensures Isolation.TurnEntry(Run(facts).state, turn) == TurnIn(facts, turn)
  {
    if facts != [] {
      var n := |facts| - 1;
      var s, f := Run(facts[..n]).state, facts[n];
      TurnsAreRecorded(facts[..n], turn);
      assert Known(TurnIn(facts[..n], turn)) == TurnAt(s, turn);
      if TurnOf(f) != Some(turn) {
        TurnFrame(s, f, turn);
      } else if TurnUpdateOf(s, f).Some? {
        UpdatedTurn(facts[..n], f, turn);
      } else {
        NotedTurn(facts[..n], f, turn);
      }
    }
  }

  /**
   A fact reports a turn exactly if it closes it: one turn event with everything the entry holds, and
   the accepted lines of the latest diff if there are any.
   */
  lemma {:induction false} TurnsAreReported(facts: seq<Fact>, f: Fact, turn: TurnId)
    ensures
      var reports := ReportsFor(Ingest(Run(facts).state, f).events, turn);
      var u := Updated(facts, Known(TurnIn(facts, turn)), f);
      if TurnOf(f) != Some(turn) || u.None? || !Closed(facts, u.value) then reports == []
      else
        var t := u.value;
        reports
        == [TurnEvent(t.thread.value, turn, Reports.Heard(facts, t.connection, t.thread.value).value, t.images.value,
                      t.config.value, t.profile.value, t.completed.value, t.startedAt, t.tokenUsage, t.codexError,
                      t.steerCount, t.tools)]
           + LineEvents(t.thread.value, turn, t.config.value, t.latestDiff)
  {
    var s := Run(facts).state;
    TurnsAreRecorded(facts, turn);
    assert Known(TurnIn(facts, turn)) == TurnAt(s, turn);
    if TurnOf(f) != Some(turn) {
      ReportFrame(s, f, turn);
    } else {
      UpdateIsUpdated(facts, f, turn);
      if TurnUpdateOf(s, f).Some? {
        ReportedUpdate(facts, f, turn);
      } else {
        PlainTurnEffect(s, f, turn);
        PlainEmitsNoTurnEvent(s, f);
        NoReports(IngestPlain(s, f).events, turn);
      }
    }
  }

  lemma {:induction false} ReportedUpdate(facts: seq<Fact>, f: Fact, turn: TurnId)
    requires TurnOf(f) == Some(turn) && TurnUpdateOf(Run(facts).state, f).Some?
    ensures
      var s := Run(facts).state;
      var u := Updated(facts, TurnAt(s, turn), f);
      u.Some?
      && var t, reports := u.value, ReportsFor(Ingest(s, f).events, turn);
         if !Closed(facts, t) then reports == []
         else
           reports
           == [TurnEventOf(turn, t, Reports.Heard(facts, t.connection, t.thread.value).value)]
              + LineEvents(t.thread.value, turn, t.config.value, t.latestDiff)
  {
    var s := Run(facts).state;
    UpdateIsUpdated(facts, f, turn);
    var u := TurnUpdateOf(s, f).value;
    ClosedIffEmitted(facts, u.base, turn, u.entry);
    UpdateTurnEffect(u.base, turn, u.entry);
    if Closed(facts, u.entry) { AllReports(Ingest(s, f).events, turn); }
  }
}
