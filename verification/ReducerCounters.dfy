/**
 Counter agreement: what a turn's entry counts is what happened since the entry was made, and the
 turn event reports exactly that.
 */
module ReducerCounters {
  import opened Options
  import opened Reducer
  import opened ReducerContext

  datatype ToolKind = Shell | Patch | Mcp | Dynamic | Subagent | Search | Image

  function KindOf(item: Item): Option<ToolKind>
  {
    match item
    case CommandExecution(_, _) => Some(Shell)
    case FileChange(_, _) => Some(Patch)
    case McpToolCall(_, _) => Some(Mcp)
    case DynamicToolCall(_, _) => Some(Dynamic)
    case CollabAgentToolCall(_, _) => Some(Subagent)
    case WebSearch(_) => Some(Search)
    case ImageGeneration(_, _) => Some(Image)
    case OtherItem => None
  }

  function Count(tools: ToolCounts, kind: ToolKind): nat
  {
    match kind
    case Shell => tools.shellCommand
    case Patch => tools.fileChange
    case Mcp => tools.mcpToolCall
    case Dynamic => tools.dynamicToolCall
    case Subagent => tools.subagentToolCall
    case Search => tools.webSearch
    case Image => tools.imageGeneration
  }

  /** The fact completes an item of this kind in this turn. */
  predicate Completes(f: Fact, turn: TurnId, kind: ToolKind)
  {
    f.ItemCompleted? && f.turn == turn && KindOf(f.threadItem) == Some(kind)
  }

  /** The fact is the acceptance, naming this turn, of a recorded steer request. */
  predicate AcceptsSteer(s: State, f: Fact, turn: TurnId)
  {
    f.TurnSteerResponse? && f.turn == turn
    && RequestKey(f.connection, f.request) in s.requests
    && s.requests[RequestKey(f.connection, f.request)].PendingSteer?
  }

  /** Items of a kind completed in the turn from position `from` on. */
  function ItemsDone(facts: seq<Fact>, from: nat, turn: TurnId, kind: ToolKind): nat
  {
    if |facts| <= from then 0
    else
      var n := |facts| - 1;
      ItemsDone(facts[..n], from, turn, kind) + if Completes(facts[n], turn, kind) then 1 else 0
  }

  /** Steers accepted for the turn from position `from` on. */
  function Steers(facts: seq<Fact>, from: nat, turn: TurnId): nat
  {
    if |facts| <= from then 0
    else
      var n := |facts| - 1;
      Steers(facts[..n], from, turn) + if AcceptsSteer(Run(facts[..n]).state, facts[n], turn) then 1 else 0
  }

  /** The turn's entry was made by the fact at `from` and has been there ever since. */
  predicate LiveSince(facts: seq<Fact>, from: nat, turn: TurnId)
  {
    && from < |facts|
    && turn !in Run(facts[..from]).state.turns
    && forall j | from < j <= |facts| :: turn in Run(facts[..j]).state.turns
  }

  predicate Agrees(t: TurnState, facts: seq<Fact>, from: nat, turn: TurnId)
  {
    && (forall kind :: Count(t.tools, kind) == ItemsDone(facts, from, turn, kind))
    && t.tools.total == Count(t.tools, Shell) + Count(t.tools, Patch) + Count(t.tools, Mcp) + Count(t.tools, Dynamic)
                        + Count(t.tools, Subagent) + Count(t.tools, Search) + Count(t.tools, Image)
    && t.steerCount == Steers(facts, from, turn)
  }

  lemma {:induction false} RecordCounts(tools: ToolCounts, item: Item, kind: ToolKind)
    ensures Count(Record(tools, item), kind) == Count(tools, kind) + if KindOf(item) == Some(kind) then 1 else 0
    ensures Record(tools, item).total == tools.total + if KindOf(item).Some? then 1 else 0
  {
  }

  /** A turn update leaves the counters of its entry alone. */
  lemma {:induction false} UpdateKeepsCounters(s: State, f: Fact)
    requires TurnUpdateOf(s, f).Some?
    ensures
      var u := TurnUpdateOf(s, f).value;
      && TurnOf(f) == Some(u.turn) && u.base.turns == s.turns
      && u.entry.tools == TurnAt(s, u.turn).tools && u.entry.steerCount == TurnAt(s, u.turn).steerCount
  {
  }

  lemma {:induction false} UpdatedCounters(s: State, f: Fact, turn: TurnId)
    requires TurnUpdateOf(s, f).Some? && turn in Ingest(s, f).state.turns
    requires TurnOf(f) == Some(turn)
    ensures
      var t, t' := TurnAt(s, turn), Ingest(s, f).state.turns[turn];
      t'.tools == t.tools && t'.steerCount == t.steerCount
  {
    var u := TurnUpdateOf(s, f).value;
    UpdateKeepsCounters(s, f);
    UpdateTurnEffect(u.base, u.turn, u.entry);
  }

  /** What one fact does to the counters of an entry that is there afterwards. */
  lemma {:induction false} CounterStep(s: State, f: Fact, turn: TurnId)
    requires turn in Ingest(s, f).state.turns
    ensures
      var t, t' := TurnAt(s, turn), Ingest(s, f).state.turns[turn];
      && t'.tools == (if f.ItemCompleted? && f.turn == turn then Record(t.tools, f.threadItem) else t.tools)
      && t'.steerCount == t.steerCount + if AcceptsSteer(s, f, turn) then 1 else 0
    ensures turn !in s.turns ==> !AcceptsSteer(s, f, turn) && !(f.ItemCompleted? && f.turn == turn)
  {
    if TurnOf(f) != Some(turn) {
      TurnFrame(s, f, turn);
    } else if TurnUpdateOf(s, f).Some? {
      UpdatedCounters(s, f, turn);
    } else {
      PlainTurnEffect(s, f, turn);
    }
  }

  lemma {:induction false} AgreesStep(facts: seq<Fact>, from: nat, turn: TurnId, t: TurnState)
    requires from < |facts| && turn in Run(facts).state.turns
    requires t == TurnAt(Run(facts[..|facts| - 1]).state, turn)
    requires Agrees(t, facts[..|facts| - 1], from, turn)
    ensures Agrees(Run(facts).state.turns[turn], facts, from, turn)
  {
    var n := |facts| - 1;
    var s, f := Run(facts[..n]).state, facts[n];
    CounterStep(s, f, turn);
    AgreesAfter(facts, from, turn, t, Run(facts).state.turns[turn]);
  }

  lemma {:induction false} AgreesAfter(facts: seq<Fact>, from: nat, turn: TurnId, t: TurnState, t': TurnState)
    requires from < |facts| && Agrees(t, facts[..|facts| - 1], from, turn)
    requires
      var f := facts[|facts| - 1];
      && t'.tools == (if f.ItemCompleted? && f.turn == turn then Record(t.tools, f.threadItem) else t.tools)
      && t'.steerCount == t.steerCount + if AcceptsSteer(Run(facts[..|facts| - 1]).state, f, turn) then 1 else 0
    ensures Agrees(t', facts, from, turn)
  {
    var f := facts[|facts| - 1];
    if f.ItemCompleted? && f.turn == turn {
      forall kind ensures Count(t'.tools, kind) == ItemsDone(facts, from, turn, kind) {
        RecordCounts(t.tools, f.threadItem, kind);
      }
      RecordedTotal(t.tools, f.threadItem);
    }
  }

  lemma {:induction false} RecordedTotal(tools: ToolCounts, item: Item)
    requires tools.total == tools.shellCommand + tools.fileChange + tools.mcpToolCall + tools.dynamicToolCall
                            + tools.subagentToolCall + tools.webSearch + tools.imageGeneration
    ensures
      var r := Record(tools, item);
      r.total == r.shellCommand + r.fileChange + r.mcpToolCall + r.dynamicToolCall
                 + r.subagentToolCall + r.webSearch + r.imageGeneration
  {
  }

  lemma {:induction false} AgreesAtStart(facts: seq<Fact>, turn: TurnId)
    ensures Agrees(NEW_TURN, facts, |facts|, turn)
  {
  }

  lemma {:induction false} LiveBefore(facts: seq<Fact>, from: nat, turn: TurnId)
    requires LiveSince(facts, from, turn) && from < |facts| - 1
    ensures LiveSince(facts[..|facts| - 1], from, turn)
  {
    var before := facts[..|facts| - 1];
    assert before[..from] == facts[..from];
    forall j | from < j <= |before| ensures turn in Run(before[..j]).state.turns {
      assert before[..j] == facts[..j];
    }
  }

  /** Every entry was made by some fact and has been there since. */
  lemma {:induction false} MadeAt(facts: seq<Fact>, turn: TurnId) returns (from: nat)
    requires turn in Run(facts).state.turns
    ensures LiveSince(facts, from, turn)
    decreases |facts|
  {
    var n := |facts| - 1;
    if turn in Run(facts[..n]).state.turns {
      from := MadeAt(facts[..n], turn);
      LiveAfter(facts, from, turn);
    } else {
      from := n;
      assert facts[..n + 1] == facts;
    }
  }

  lemma {:induction false} LiveAfter(facts: seq<Fact>, from: nat, turn: TurnId)
    requires facts != [] && LiveSince(facts[..|facts| - 1], from, turn) && turn in Run(facts).state.turns
    ensures LiveSince(facts, from, turn)
  {
    var before := facts[..|facts| - 1];
    assert before[..from] == facts[..from];
    forall j | from < j <= |facts| ensures turn in Run(facts[..j]).state.turns {
      if j < |facts| { assert before[..j] == facts[..j]; } else { assert facts[..j] == facts; }
    }
  }

  /**
   In every reachable state, for every turn: the total is the sum of the seven kinds, each kind is
   the number of such items completed since the entry was made, and the steer count is the number
   of accepted steers naming the turn since then.
   */
  lemma {:induction false} CountersAgree(facts: seq<Fact>, from: nat, turn: TurnId)
    requires LiveSince(facts, from, turn)
    ensures turn in Run(facts).state.turns && Agrees(Run(facts).state.turns[turn], facts, from, turn)
    decreases |facts|
  {
    var n := |facts| - 1;
    assert turn in Run(facts).state.turns by { assert facts[..|facts|] == facts; }
    if n == from {
      AgreesAtStart(facts[..n], turn);
      AgreesStep(facts, from, turn, NEW_TURN);
    } else {
      LiveBefore(facts, from, turn);
      CountersAgree(facts[..n], from, turn);
      AgreesStep(facts, from, turn, Run(facts[..n]).state.turns[turn]);
    }
  }

  predicate Reports(s: State, f: Fact, turn: TurnId, k: nat)
  {
    var events := Ingest(s, f).events;
    k < |events| && events[k].TurnEvent? && events[k].turn == turn
  }

  /** No single fact makes a turn complete: what is reported was there before, and so were its counters. */
  lemma {:induction false} ReportedCounters(s: State, f: Fact, turn: TurnId, k: nat)
    requires Reports(s, f, turn, k)
    ensures turn in s.turns
    ensures
      var e, t := Ingest(s, f).events[k], s.turns[turn];
      e.tools == t.tools && e.steerCount == t.steerCount
  {
    if TurnUpdateOf(s, f).Some? {
      var u := TurnUpdateOf(s, f).value;
      UpdateKeepsCounters(s, f);
      UpdateTurnEffect(u.base, u.turn, u.entry);
      if turn !in s.turns { NewTurnIsNotReady(s, f); }
    } else {
      PlainEmitsNoTurnEvent(s, f);
      assert false;
    }
  }

  lemma {:induction false} NewTurnIsNotReady(s: State, f: Fact)
    requires TurnUpdateOf(s, f).Some? && TurnUpdateOf(s, f).value.turn !in s.turns
    ensures !Ready(TurnUpdateOf(s, f).value.entry)
  {
    var u := TurnUpdateOf(s, f).value;
    assert TurnAt(s, u.turn) == NEW_TURN;
    assert u.entry.profile.None? || u.entry.completed.None?;
  }

  /**
   Every turn event reports exactly what its turn had counted since its entry was made by some earlier
   fact; the fact that triggers the event adds nothing.
   */
  lemma {:induction false} TurnEventReportsCounters(facts: seq<Fact>, f: Fact, turn: TurnId, k: nat)
    returns (from: nat)
    requires Reports(Run(facts).state, f, turn, k)
    ensures LiveSince(facts, from, turn)
    ensures
      var e := Ingest(Run(facts).state, f).events[k];
      && (forall kind :: Count(e.tools, kind) == ItemsDone(facts, from, turn, kind))
      && e.tools.total == Count(e.tools, Shell) + Count(e.tools, Patch) + Count(e.tools, Mcp) + Count(e.tools, Dynamic)
                          + Count(e.tools, Subagent) + Count(e.tools, Search) + Count(e.tools, Image)
      && e.steerCount == Steers(facts, from, turn)
  {
    ReportedCounters(Run(facts).state, f, turn, k);
    from := MadeAt(facts, turn);
    CountersAgree(facts, from, turn);
  }
}
