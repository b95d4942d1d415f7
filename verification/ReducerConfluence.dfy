/**
 Confluence: the four facts a turn event needs may arrive in any order, between any other facts about
 the turn and any facts about other turns, and one event comes out, at the last of the four.
 */
module ReducerConfluence {
  import opened Options
  import opened Reducer
  import opened ReducerLines
  import DiffPrinting
  import opened ReducerContext
  import Emission = ReducerEmission

  datatype Part = StartPart | ConfigPart | ProfilePart | CompletedPart

  const ALL: set<Part> := {StartPart, ConfigPart, ProfilePart, CompletedPart}

  /** One turn: who started it and where, and what its four facts say. */
  datatype Plan = Plan(
    turn: TurnId, connection: ConnectionId, request: RequestId, thread: ThreadId, images: nat,
    config: Payload, profile: Payload, status: Option<TurnStatus>, error: Option<Payload>,
    completedAt: Option<int>, duration: Option<int>, client: Payload, metadata: ThreadMetadata)

  function FactOf(p: Plan, part: Part): Fact
  {
    match part
    case StartPart => TurnStartResponse(p.connection, p.request, p.turn)
    case ConfigPart => TurnResolvedConfig(p.turn, p.thread, p.images, p.config)
    case ProfilePart => TurnProfile(p.turn, p.profile)
    case CompletedPart => TurnCompleted(p.turn, p.status, p.error, p.completedAt, p.duration)
  }

  /** A time that is there and not negative. */
  predicate Usable(time: Option<int>)
  {
    time.Some? && time.value >= 0
  }

  function CompletedOf(p: Plan): CompletedTurn
  {
    CompletedTurn(p.status, p.error, if Usable(p.completedAt) then p.completedAt.value else 0,
                  if Usable(p.duration) then Some(p.duration.value) else None)
  }

  /** What the other facts of the turn leave in its entry. */
  datatype Extras = Extras(startedAt: Option<nat>, tokenUsage: Option<Payload>, codexError: Option<Payload>,
                           latestDiff: Option<string>, steerCount: nat, tools: ToolCounts)

  const NO_EXTRAS := Extras(None, None, None, None, 0, NO_TOOLS)

  /** The turn's entry with these parts, and with the thread if anything has named it. */
  function Entry(p: Plan, held: set<Part>, threadKnown: bool, x: Extras): TurnState
  {
    TurnState(
      connection := if StartPart in held then Some(p.connection) else None,
      thread := if StartPart in held || ConfigPart in held || threadKnown then Some(p.thread) else None,
      images := if StartPart in held || ConfigPart in held then Some(p.images) else None,
      config := if ConfigPart in held then Some(p.config) else None,
      startedAt := x.startedAt,
      tokenUsage := x.tokenUsage,
      profile := if ProfilePart in held then Some(p.profile) else None,
      completed := if CompletedPart in held then Some(CompletedOf(p)) else None,
      codexError := x.codexError,
      latestDiff := x.latestDiff,
      steerCount := x.steerCount,
      tools := x.tools)
  }

  /** The one event the four facts add up to, with what the entry had picked up besides. */
  function Expected(p: Plan, x: Extras): Event
  {
    TurnEvent(p.thread, p.turn, Context(p.client, p.metadata), p.images, p.config, p.profile, CompletedOf(p),
              x.startedAt, x.tokenUsage, x.codexError, x.steerCount, x.tools)
  }

  /** The turn event, and the accepted lines of the latest diff if there are any. */
  function Reported(p: Plan, x: Extras): seq<Event>
  {
    [Expected(p, x)] + LineEvents(p.thread, p.turn, p.config, x.latestDiff)
  }

  // ---- interleavings ----

  /** The fact is not about this turn or its start request and leaves its connection and metadata as they are. */
  predicate Foreign(p: Plan, f: Fact)
  {
    && TurnOf(f) != Some(p.turn)
    && Emission.KeyOf(f) != Some(RequestKey(p.connection, p.request))
    && !(f.Initialize? && f.connection == p.connection)
    && !(f.ThreadResponse? && f.thread == p.thread)
  }

  /** Any other fact of the turn, as long as it does not name another thread or answer the start request. */
  predicate OnTheSide(p: Plan, f: Fact)
  {
    match f
    case TurnStarted(turn, _) => turn == p.turn
    case ItemCompleted(_, turn, _, _) => turn == p.turn
    case TurnSteerResponse(c, r, turn) => turn == p.turn && RequestKey(c, r) != RequestKey(p.connection, p.request)
    case TurnDiffUpdated(thread, turn, _) => turn == p.turn && thread == p.thread
    case TurnTokenUsage(turn, thread, _) => turn == p.turn && thread == p.thread
    case TurnCodexError(turn, thread, _) => turn == p.turn && thread == p.thread
    case _ => false
  }

  /** One position of an interleaving. */
  datatype Slot = Own(part: Part) | Side(fact: Fact) | Other(fact: Fact)

  function FactAt(p: Plan, slot: Slot): Fact
  {
    if slot.Own? then FactOf(p, slot.part) else slot.fact
  }

  function FactsOf(p: Plan, slots: seq<Slot>): seq<Fact>
  {
    if slots == [] then [] else FactsOf(p, slots[..|slots| - 1]) + [FactAt(p, slots[|slots| - 1])]
  }

  function Seen(slots: seq<Slot>): set<Part>
  {
    if slots == [] then {}
    else Seen(slots[..|slots| - 1]) + if slots[|slots| - 1].Own? then {slots[|slots| - 1].part} else {}
  }

  /** A part of the plan not seen yet, another fact of the turn, or a foreign fact. */
  predicate Fits(p: Plan, slot: Slot, seen: set<Part>)
  {
    match slot
    case Own(part) => part !in seen
    case Side(f) => OnTheSide(p, f)
    case Other(f) => Foreign(p, f)
  }

  /** Every part at most once, in any order, among facts on the side and foreign facts. */
  predicate Admissible(p: Plan, slots: seq<Slot>)
  {
    slots == []
    || (Admissible(p, slots[..|slots| - 1]) && Fits(p, slots[|slots| - 1], Seen(slots[..|slots| - 1])))
  }

  // ---- what an interleaving adds up to ----

  /** The facts that make an entry where there is none. */
  predicate Makes(f: Fact)
  {
    Creates(f) || f.TurnTokenUsage?
  }

  predicate NamesThread(f: Fact)
  {
    f.TurnDiffUpdated? || f.TurnTokenUsage? || f.TurnCodexError?
  }

  /** A fact on the side, applied to what the entry has picked up: the latest wins, items and accepted steers add up. */
  function WithSide(x: Extras, pending: Option<RequestState>, f: Fact): Extras
  {
    match f
    case TurnStarted(_, at) => x.(startedAt := if Usable(at) then Some(at.value) else None)
    case TurnDiffUpdated(_, _, diff) => x.(latestDiff := Some(diff))
    case TurnTokenUsage(_, _, usage) => x.(tokenUsage := Some(usage))
    case TurnCodexError(_, _, error) => x.(codexError := Some(error))
    case ItemCompleted(_, _, item, _) => x.(tools := Record(x.tools, item))
    case TurnSteerResponse(_, _, _) =>
      if pending.Some? && pending.value.PendingSteer? then x.(steerCount := x.steerCount + 1) else x
    case _ => x
  }

  /** Where a turn stands: the parts seen, its entry if there is one, and what was reported with it. */
  datatype Progress = Progress(seen: set<Part>, live: bool, threadKnown: bool, extras: Extras, reported: Option<Extras>)

  const NO_PROGRESS := Progress({}, false, false, NO_EXTRAS, None)

  /** The parts in the entry; the last part takes all of them out. */
  function HeldParts(g: Progress): set<Part>
  {
    if g.seen == ALL then {} else g.seen
  }

  function AfterOwn(g: Progress, part: Part): Progress
  {
    if g.seen + {part} == ALL then Progress(ALL, false, false, NO_EXTRAS, Some(g.extras))
    else g.(seen := g.seen + {part}, live := true)
  }

  function AfterSide(g: Progress, pending: Option<RequestState>, f: Fact): Progress
  {
    if g.live || Makes(f)
    then g.(live := true, threadKnown := g.threadKnown || NamesThread(f), extras := WithSide(g.extras, pending, f))
    else g
  }

  /** The request a reply answers. */
  function RequestBehind(s: State, f: Fact): Option<RequestState>
  {
    if Emission.KeyOf(f).Some? then Emission.Lookup(s, Emission.KeyOf(f).value) else None
  }

  function AfterSlot(g: Progress, s: State, slot: Slot): Progress
  {
    match slot
    case Own(part) => AfterOwn(g, part)
    case Side(f) => AfterSide(g, RequestBehind(s, f), f)
    case Other(_) => g
  }

  /** The fold over an interleaving.  The state is asked only which request a steer response answers. */
  function ProgressOf(p: Plan, start: State, slots: seq<Slot>): Progress
  {
    if slots == [] then NO_PROGRESS
    else
      var before := slots[..|slots| - 1];
      AfterSlot(ProgressOf(p, start, before), RunFrom(start, FactsOf(p, before)).state, slots[|slots| - 1])
  }

  // ---- the state along the way ----

  predicate Fixed(p: Plan, s: State)
  {
    && p.connection in s.connections && s.connections[p.connection] == p.client
    && MetadataOf(s, p.thread) == Some(p.metadata)
  }

  /** All that matters of a state for the plan. */
  datatype View = View(fixed: bool, pending: Option<RequestState>, entry: Option<TurnState>)

  function ViewOf(p: Plan, s: State): View
  {
    View(Fixed(p, s), Emission.Lookup(s, RequestKey(p.connection, p.request)),
         if p.turn in s.turns then Some(s.turns[p.turn]) else None)
  }

  /** The turn's entry and start request stand as the progress says. */
  predicate Holds(p: Plan, s: State, g: Progress)
  {
    ViewOf(p, s) == View(true, if StartPart in g.seen then None else Some(PendingStart(p.thread, p.images)),
                         if g.live then Some(Entry(p, HeldParts(g), g.threadKnown, g.extras)) else None)
  }

  /** Without an entry nothing is held, and something was reported exactly when all parts were seen. */
  predicate Sound(g: Progress)
  {
    && (!g.live ==> HeldParts(g) == {} && !g.threadKnown && g.extras == NO_EXTRAS)
    && (g.reported.Some? <==> g.seen == ALL)
  }

  lemma {:induction false} ForeignKeepsFixed(p: Plan, s: State, f: Fact)
    requires Fixed(p, s) && Foreign(p, f)
    ensures Fixed(p, Ingest(s, f).state)
  {
    if Registers(f) { RegisteringFact(s, f); } else { RegistryFrame(s, f); }
  }

  lemma {:induction false} ForeignStep(p: Plan, s: State, f: Fact, g: Progress)
    requires Holds(p, s, g) && Foreign(p, f)
    ensures Holds(p, Ingest(s, f).state, g)
    ensures ReportsFor(Ingest(s, f).events, p.turn) == []
  {
    ForeignKeepsFixed(p, s, f);
    Emission.RequestStep(s, f, RequestKey(p.connection, p.request));
    TurnFrame(s, f, p.turn);
    ReportFrame(s, f, p.turn);
  }

  lemma InAll(part: Part)
    ensures part in ALL
  {
    match part
    case StartPart =>
    case ConfigPart =>
    case ProfilePart =>
    case CompletedPart =>
  }

  lemma AllParts(seen: set<Part>)
    requires StartPart in seen && ConfigPart in seen && ProfilePart in seen && CompletedPart in seen
    ensures seen == ALL
  {
    forall part | part in seen ensures part in ALL { InAll(part); }
  }

  /** The entry the plan's turn has, or would start from. */
  lemma {:induction false} EntryAt(p: Plan, s: State, g: Progress)
    requires Holds(p, s, g) && Sound(g)
    ensures TurnAt(s, p.turn) == Entry(p, HeldParts(g), g.threadKnown, g.extras)
  {
    if !g.live { assert Entry(p, {}, false, NO_EXTRAS) == NEW_TURN; }
  }

  lemma {:induction false} ReadyIffAll(p: Plan, s: State, held: set<Part>, threadKnown: bool, x: Extras)
    requires Fixed(p, s)
    ensures EmitContext(s, p.turn, Entry(p, held, threadKnown, x))
         == if held == ALL then Some(Context(p.client, p.metadata)) else None
  {
    if StartPart in held && ConfigPart in held && ProfilePart in held && CompletedPart in held {
      AllParts(held);
    }
  }

  /** A turn update that stores an entry of the plan: kept, or reported and removed once all parts are in. */
  lemma {:induction false} UpdateEffect(p: Plan, s: State, f: Fact, held: set<Part>, threadKnown: bool, x: Extras)
    requires
      var u := TurnUpdateOf(s, f);
      && u.Some? && u.value.turn == p.turn && Fixed(p, u.value.base)
      && u.value.entry == Entry(p, held, threadKnown, x)
    ensures
      var base, step := TurnUpdateOf(s, f).value.base, Ingest(s, f);
      && Fixed(p, step.state) && step.state.requests == base.requests
      && ReportsFor(step.events, p.turn) == (if held == ALL then Reported(p, x) else [])
      && (p.turn in step.state.turns <==> held != ALL)
      && (held != ALL ==> step.state.turns[p.turn] == Entry(p, held, threadKnown, x))
  {
    var u := TurnUpdateOf(s, f).value;
    UpdateTurnEffect(u.base, u.turn, u.entry);
    ReadyIffAll(p, u.base, held, threadKnown, x);
    if held == ALL { AllReports(Reported(p, x), p.turn); }
  }

  lemma {:induction false} OwnUpdate(p: Plan, s: State, part: Part, g: Progress)
    requires Holds(p, s, g) && Sound(g) && part !in g.seen
    ensures
      var u := TurnUpdateOf(s, FactOf(p, part));
      && u.Some? && u.value.turn == p.turn && u.value.base.turns == s.turns && Fixed(p, u.value.base)
      && u.value.entry == Entry(p, g.seen + {part}, g.threadKnown, g.extras)
      && Emission.Lookup(u.value.base, RequestKey(p.connection, p.request))
         == if StartPart in g.seen + {part} then None else Some(PendingStart(p.thread, p.images))
  {
    InAll(part);
    EntryAt(p, s, g);
  }

  /** A part not seen yet is added to the entry; the last one reports it and takes it out. */
  lemma {:induction false} OwnStep(p: Plan, s: State, part: Part, g: Progress)
    requires Holds(p, s, g) && Sound(g) && part !in g.seen
    ensures Holds(p, Ingest(s, FactOf(p, part)).state, AfterOwn(g, part)) && Sound(AfterOwn(g, part))
    ensures ReportsFor(Ingest(s, FactOf(p, part)).events, p.turn)
         == if g.seen + {part} == ALL then Reported(p, g.extras) else []
  {
    InAll(part);
    OwnUpdate(p, s, part, g);
    UpdateEffect(p, s, FactOf(p, part), g.seen + {part}, g.threadKnown, g.extras);
    assert part in g.seen + {part};
  }

  lemma {:induction false} UsageStep(p: Plan, s: State, f: Fact, g: Progress)
    requires Holds(p, s, g) && Sound(g) && OnTheSide(p, f) && f.TurnTokenUsage?
    ensures Holds(p, Ingest(s, f).state, AfterSide(g, RequestBehind(s, f), f))
    ensures ReportsFor(Ingest(s, f).events, p.turn) == []
  {
    EntryAt(p, s, g);
    assert StartPart in ALL;
    UpdateEffect(p, s, f, HeldParts(g), true, g.extras.(tokenUsage := Some(f.usage)));
  }

  lemma {:induction false} PlainSideStep(p: Plan, s: State, f: Fact, g: Progress)
    requires Holds(p, s, g) && Sound(g) && OnTheSide(p, f) && !f.TurnTokenUsage?
    ensures Holds(p, Ingest(s, f).state, AfterSide(g, RequestBehind(s, f), f))
    ensures ReportsFor(Ingest(s, f).events, p.turn) == []
  {
    EntryAt(p, s, g);
    RegistryFrame(s, f);
    Emission.RequestStep(s, f, RequestKey(p.connection, p.request));
    PlainTurnEffect(s, f, p.turn);
    SideEntry(p, s, f, g);
    PlainEmitsNoTurnEvent(s, f);
    NoReports(IngestPlain(s, f).events, p.turn);
  }

  lemma {:induction false} SideEntry(p: Plan, s: State, f: Fact, g: Progress)
    requires OnTheSide(p, f) && !f.TurnTokenUsage?
    ensures
      var g' := AfterSide(g, RequestBehind(s, f), f);
      g.live || Creates(f) ==>
        PlainEntry(s, f, Entry(p, HeldParts(g), g.threadKnown, g.extras))
        == Entry(p, HeldParts(g), g'.threadKnown, g'.extras)
  {
  }

  /** Any other fact of the turn only adds to what the entry has picked up. */
  lemma {:induction false} SideStep(p: Plan, s: State, f: Fact, g: Progress)
    requires Holds(p, s, g) && Sound(g) && OnTheSide(p, f)
    ensures Holds(p, Ingest(s, f).state, AfterSide(g, RequestBehind(s, f), f))
    ensures Sound(AfterSide(g, RequestBehind(s, f), f))
    ensures ReportsFor(Ingest(s, f).events, p.turn) == []
  {
    if f.TurnTokenUsage? { UsageStep(p, s, f, g); } else { PlainSideStep(p, s, f, g); }
  }

  // ---- whole interleavings ----

  /** No turn event for the turn until all parts have been seen, then one, with what was picked up by then. */
  predicate AsExpected(p: Plan, run: Step, g: Progress)
  {
    && Holds(p, run.state, g) && Sound(g)
    && ReportsFor(run.events, p.turn) == if g.reported.Some? then Reported(p, g.reported.value) else []
  }

  lemma {:induction false} SeenOf(p: Plan, start: State, slots: seq<Slot>)
    ensures ProgressOf(p, start, slots).seen == Seen(slots)
  {
    if slots != [] { SeenOf(p, start, slots[..|slots| - 1]); }
  }

  /**
   For every interleaving, in any order, of at most one each of the four facts with any other facts of
   the turn and any foreign facts: no turn event for the turn until all four have been seen, and then
   exactly one, followed by the accepted lines of the latest diff if it has any.  Its thread, context,
   images, config, profile and completion are the plan's, whatever the order; the rest is what the facts on
   the side left in the entry between its making and the last of the four.  Applied to the prefixes of an
   interleaving, this puts the report at the last of the four.
   */
  lemma {:induction false} TurnFactsAreConfluent(p: Plan, start: State, slots: seq<Slot>)
    requires Holds(p, start, NO_PROGRESS) && Admissible(p, slots)
    ensures
      var g := ProgressOf(p, start, slots);
      && (g.reported.Some? <==> Seen(slots) == ALL)
      && ReportsFor(RunFrom(start, FactsOf(p, slots)).events, p.turn)
         == if Seen(slots) == ALL then Reported(p, g.reported.value) else []
  {
    ConfluentRun(p, start, slots);
    SeenOf(p, start, slots);
  }

  lemma {:induction false} ConfluentRun(p: Plan, start: State, slots: seq<Slot>)
    requires Holds(p, start, NO_PROGRESS) && Admissible(p, slots)
    ensures AsExpected(p, RunFrom(start, FactsOf(p, slots)), ProgressOf(p, start, slots))
    decreases |slots|
  {
    if slots == [] {
      NothingSeen(p, start);
    } else {
      ConfluentRun(p, start, slots[..|slots| - 1]);
      SeenOf(p, start, slots[..|slots| - 1]);
      SlotRun(p, start, slots);
    }
  }

  lemma {:induction false} NothingSeen(p: Plan, start: State)
    requires Holds(p, start, NO_PROGRESS)
    ensures AsExpected(p, RunFrom(start, FactsOf(p, [])), ProgressOf(p, start, []))
  {
    assert StartPart in ALL;
  }

  lemma {:induction false} SlotRun(p: Plan, start: State, slots: seq<Slot>)
    requires slots != [] && Fits(p, slots[|slots| - 1], ProgressOf(p, start, slots[..|slots| - 1]).seen)
    requires
      var before := slots[..|slots| - 1];
      AsExpected(p, RunFrom(start, FactsOf(p, before)), ProgressOf(p, start, before))
    ensures AsExpected(p, RunFrom(start, FactsOf(p, slots)), ProgressOf(p, start, slots))
  {
    var before, slot := slots[..|slots| - 1], slots[|slots| - 1];
    RunSnoc(start, FactsOf(p, before), FactAt(p, slot));
    SlotStep(p, RunFrom(start, FactsOf(p, before)), slot, ProgressOf(p, start, before));
  }

  /** The next slot, from what the slots before it have led to. */
  lemma {:induction false} SlotStep(p: Plan, before: Step, slot: Slot, g: Progress)
    requires AsExpected(p, before, g) && Fits(p, slot, g.seen)
    ensures
      var step := Ingest(before.state, FactAt(p, slot));
      AsExpected(p, Step(step.state, before.events + step.events), AfterSlot(g, before.state, slot))
  {
    ReportsForAppend(before.events, Ingest(before.state, FactAt(p, slot)).events, p.turn);
    match slot
    case Own(part) =>
      InAll(part);
      OwnStep(p, before.state, part, g);
    case Side(f) => SideStep(p, before.state, f, g);
    case Other(f) => ForeignStep(p, before.state, f, g);
  }

  // ---- two interleavings ----

  /** A fact on the side, with the request it answers. */
  datatype SideFact = SideFact(fact: Fact, request: Option<RequestState>)

  /** The facts on the side, in order. */
  function Sides(p: Plan, start: State, slots: seq<Slot>): seq<SideFact>
  {
    if slots == [] then []
    else
      var before, slot := slots[..|slots| - 1], slots[|slots| - 1];
      Sides(p, start, before)
      + if slot.Side?
        then [SideFact(slot.fact, RequestBehind(RunFrom(start, FactsOf(p, before)).state, slot.fact))] else []
  }

  /** The turn has, or had, an entry. */
  predicate Made(slots: seq<Slot>)
  {
    slots != []
    && var slot := slots[|slots| - 1];
       Made(slots[..|slots| - 1]) || slot.Own? || (slot.Side? && Makes(slot.fact))
  }

  /** Every fact on the side comes between the making of the entry and the last of the four. */
  predicate Timely(slots: seq<Slot>)
  {
    slots == []
    || var before, slot := slots[..|slots| - 1], slots[|slots| - 1];
       Timely(before) && (slot.Side? ==> Seen(before) != ALL && (Made(before) || Makes(slot.fact)))
  }

  function Fold(sides: seq<SideFact>): Extras
  {
    if sides == [] then NO_EXTRAS
    else
      var side := sides[|sides| - 1];
      WithSide(Fold(sides[..|sides| - 1]), side.request, side.fact)
  }

  lemma {:induction false} FoldSnoc(sides: seq<SideFact>, side: SideFact)
    ensures Fold(sides + [side]) == WithSide(Fold(sides), side.request, side.fact)
  {
    assert (sides + [side])[..|sides|] == sides;
  }

  lemma {:induction false} AllStays(slots: seq<Slot>)
    requires slots != [] && Seen(slots) != ALL
    ensures Seen(slots[..|slots| - 1]) != ALL
  {
    var before := Seen(slots[..|slots| - 1]);
    if before == ALL {
      assert StartPart in before && ConfigPart in before && ProfilePart in before && CompletedPart in before;
      AllParts(Seen(slots));
    }
  }

  lemma {:induction false} LiveIffMade(p: Plan, start: State, slots: seq<Slot>)
    requires Seen(slots) != ALL
    ensures ProgressOf(p, start, slots).live <==> Made(slots)
  {
    if slots != [] {
      AllStays(slots);
      LiveIffMade(p, start, slots[..|slots| - 1]);
      SeenOf(p, start, slots[..|slots| - 1]);
    }
  }

  /** What has been picked up: in the entry, or with the event once it is out. */
  predicate PicksUp(g: Progress, x: Extras)
  {
    if g.seen == ALL then g.reported == Some(x) else g.extras == x
  }

  lemma {:induction false} PicksUpStep(g: Progress, s: State, slot: Slot, x: Extras)
    requires PicksUp(g, x)
    requires slot.Own? ==> slot.part !in g.seen
    requires slot.Side? ==> g.seen != ALL && (g.live || Makes(slot.fact))
    ensures PicksUp(AfterSlot(g, s, slot),
                    if slot.Side? then WithSide(x, RequestBehind(s, slot.fact), slot.fact) else x)
  {
    if slot.Own? { InAll(slot.part); }
  }

  lemma {:induction false} FoldStep(p: Plan, start: State, slots: seq<Slot>)
    requires slots != []
    ensures
      var before, slot := slots[..|slots| - 1], slots[|slots| - 1];
      var x := Fold(Sides(p, start, before));
      Fold(Sides(p, start, slots))
      == if slot.Side? then WithSide(x, RequestBehind(RunFrom(start, FactsOf(p, before)).state, slot.fact), slot.fact)
         else x
  {
    var before, slot := slots[..|slots| - 1], slots[|slots| - 1];
    if slot.Side? {
      var request := RequestBehind(RunFrom(start, FactsOf(p, before)).state, slot.fact);
      FoldSnoc(Sides(p, start, before), SideFact(slot.fact, request));
    } else {
      assert Sides(p, start, slots) == Sides(p, start, before);
    }
  }

  /** What the turn event picks up is the fold of the facts on the side, wherever the four facts stand. */
  lemma {:induction false} ReportedFold(p: Plan, start: State, slots: seq<Slot>)
    requires Admissible(p, slots) && Timely(slots)
    ensures PicksUp(ProgressOf(p, start, slots), Fold(Sides(p, start, slots)))
  {
    if slots == [] {
      assert StartPart in ALL;
    } else {
      var before, slot := slots[..|slots| - 1], slots[|slots| - 1];
      ReportedFold(p, start, before);
      SeenOf(p, start, before);
      if slot.Side? { LiveIffMade(p, start, before); }
      FoldStep(p, start, slots);
      PicksUpStep(ProgressOf(p, start, before), RunFrom(start, FactsOf(p, before)).state, slot,
                  Fold(Sides(p, start, before)));
    }
  }

  /**
   Two complete interleavings, from whatever states, with the same facts on the side in the same order
   report the same event, however the four facts and the foreign ones are placed among them.
   */
  lemma SameSidesSameEvent(p: Plan, start: State, slots: seq<Slot>, start': State, slots': seq<Slot>)
    requires Holds(p, start, NO_PROGRESS) && Admissible(p, slots) && Timely(slots) && Seen(slots) == ALL
    requires Holds(p, start', NO_PROGRESS) && Admissible(p, slots') && Timely(slots') && Seen(slots') == ALL
    requires Sides(p, start, slots) == Sides(p, start', slots')
    ensures ReportsFor(RunFrom(start, FactsOf(p, slots)).events, p.turn)
         == ReportsFor(RunFrom(start', FactsOf(p, slots')).events, p.turn)
         == Reported(p, Fold(Sides(p, start, slots)))
  {
    TurnFactsAreConfluent(p, start, slots);
    ReportedFold(p, start, slots);
    SeenOf(p, start, slots);
    TurnFactsAreConfluent(p, start', slots');
    ReportedFold(p, start', slots');
    SeenOf(p, start', slots');
  }

  /** For a latest diff printed from a structure, the accepted lines are those the structure adds and deletes. */
  lemma {:induction false} PrintedDiffIsReported(p: Plan, x: Extras, files: seq<DiffPrinting.FileDiff>,
                                                 alnum: char -> bool)
    requires x.latestDiff == Some(DiffPrinting.Print(files)) && forall f | f in files :: DiffPrinting.WellFormed(f)
    ensures
      var total := DiffPrinting.TotalSummary(files, alnum);
      Reported(p, x)
      == [Expected(p, x)] + if total.added == 0 && total.deleted == 0 then []
                            else [AcceptedLines(p.thread, p.turn, p.config, total.added, total.deleted)]
  {
    PrintedDiffCounts(files, alnum);
  }

  // ---- the agreement between config and start request is needed ----

  /** The turn's entry after config and start request have been seen: the later one has the last word. */
  function StartedEntry(p: Plan, thread: ThreadId, images: nat): TurnState
  {
    NEW_TURN.(connection := Some(p.connection), thread := Some(thread), images := Some(images),
              config := Some(p.config))
  }

  predicate Started(p: Plan, s: State, thread: ThreadId, images: nat)
  {
    && p.connection in s.connections && s.connections[p.connection] == p.client
    && p.turn in s.turns && s.turns[p.turn] == StartedEntry(p, thread, images)
  }

  /** What is reported in the end for that thread and image count: nothing if the thread has no metadata. */
  function Report(p: Plan, thread: ThreadId, images: nat, metadata: Option<ThreadMetadata>): seq<Event>
  {
    if metadata.None? then []
    else [Expected(p.(thread := thread, images := images, metadata := metadata.value), NO_EXTRAS)]
  }

  lemma {:induction false} ProfileStored(p: Plan, s: State, thread: ThreadId, images: nat)
    requires Started(p, s, thread, images)
    ensures Ingest(s, FactOf(p, ProfilePart))
         == Step(SetTurn(s, p.turn, StartedEntry(p, thread, images).(profile := Some(p.profile))), [])
  {
    var entry := StartedEntry(p, thread, images).(profile := Some(p.profile));
    assert TurnUpdateOf(s, FactOf(p, ProfilePart)) == Some(TurnUpdate(s, p.turn, entry));
    UpdateTurnEffect(s, p.turn, entry);
  }

  lemma {:induction false} CompletionReports(p: Plan, s: State, thread: ThreadId, images: nat)
    requires p.connection in s.connections && s.connections[p.connection] == p.client
    requires p.turn in s.turns && s.turns[p.turn] == StartedEntry(p, thread, images).(profile := Some(p.profile))
    ensures Ingest(s, FactOf(p, CompletedPart)).events == Report(p, thread, images, MetadataOf(s, thread))
  {
    var done := s.turns[p.turn].(completed := Some(CompletedOf(p)));
    assert TurnUpdateOf(s, FactOf(p, CompletedPart)) == Some(TurnUpdate(s, p.turn, done));
    UpdateTurnEffect(s, p.turn, done);
  }

  /** Profile and completion then report that thread and that image count. */
  lemma {:induction false} FinishStarted(p: Plan, start: State, facts: seq<Fact>, thread: ThreadId, images: nat)
    requires Started(p, RunFrom(start, facts).state, thread, images)
    requires RunFrom(start, facts).events == []
    ensures RunFrom(start, facts + [FactOf(p, ProfilePart)] + [FactOf(p, CompletedPart)]).events
         == Report(p, thread, images, MetadataOf(RunFrom(start, facts).state, thread))
  {
    var s, f, g := RunFrom(start, facts).state, FactOf(p, ProfilePart), FactOf(p, CompletedPart);
    ProfileStored(p, s, thread, images);
    RunSnoc(start, facts, f);
    CompletionReports(p, Ingest(s, f).state, thread, images);
    RunSnoc(start, facts + [f], g);
  }

  /** A config fact for the turn that may name another thread and image count than the start request. */
  function ConfigFact(p: Plan, thread: ThreadId, images: nat): Fact
  {
    TurnResolvedConfig(p.turn, thread, images, p.config)
  }

  lemma {:induction false} StartThenConfig(p: Plan, s: State, thread: ThreadId, images: nat)
    requires Holds(p, s, NO_PROGRESS)
    ensures
      var step := RunFrom(s, [FactOf(p, StartPart)] + [ConfigFact(p, thread, images)]);
      step.events == [] && Started(p, step.state, thread, images) && step.state.threads == s.threads
  {
    StartIsSilent(p, s);
    var s1 := Ingest(s, FactOf(p, StartPart)).state;
    RunSnoc(s, [], FactOf(p, StartPart));
    assert [] + [FactOf(p, StartPart)] == [FactOf(p, StartPart)];
    var entry := StartedEntry(p, thread, images);
    assert TurnUpdateOf(s1, ConfigFact(p, thread, images)) == Some(TurnUpdate(s1, p.turn, entry));
    UpdateTurnEffect(s1, p.turn, entry);
    RunSnoc(s, [FactOf(p, StartPart)], ConfigFact(p, thread, images));
  }

  lemma {:induction false} StartIsSilent(p: Plan, s: State)
    requires Holds(p, s, NO_PROGRESS)
    ensures
      var step := Ingest(s, FactOf(p, StartPart));
      && step.events == [] && step.state.threads == s.threads && step.state.connections == s.connections
      && p.turn in step.state.turns
      && step.state.turns[p.turn] == Entry(p, {StartPart}, false, NO_EXTRAS)
  {
    OwnUpdate(p, s, StartPart, NO_PROGRESS);
    var u := TurnUpdateOf(s, FactOf(p, StartPart)).value;
    assert {} + {StartPart} == {StartPart};
    UpdateTurnEffect(u.base, u.turn, u.entry);
    UpdateShape(s, FactOf(p, StartPart));
  }

  lemma {:induction false} ConfigThenStart(p: Plan, s: State, thread: ThreadId, images: nat)
    requires Holds(p, s, NO_PROGRESS)
    ensures
      var step := RunFrom(s, [ConfigFact(p, thread, images)] + [FactOf(p, StartPart)]);
      step.events == [] && Started(p, step.state, p.thread, p.images) && step.state.threads == s.threads
  {
    var f := ConfigFact(p, thread, images);
    var entry := NEW_TURN.(thread := Some(thread), images := Some(images), config := Some(p.config));
    assert TurnUpdateOf(s, f) == Some(TurnUpdate(s, p.turn, entry));
    UpdateTurnEffect(s, p.turn, entry);
    RunSnoc(s, [], f);
    assert [] + [f] == [f];
    var s1, started := SetTurn(s, p.turn, entry), StartedEntry(p, p.thread, p.images);
    var base := s1.(requests := s1.requests - {RequestKey(p.connection, p.request)});
    assert TurnUpdateOf(s1, FactOf(p, StartPart)) == Some(TurnUpdate(base, p.turn, started));
    UpdateTurnEffect(base, p.turn, started);
    RunSnoc(s, [f], FactOf(p, StartPart));
  }

  /**
   Order does not matter only because config and start request agree: with a config that names any
   thread, known or not, and any image count, the two orders of the pair report the same exactly when
   it agrees with the start request on both.
   */
  lemma OrderIrrelevantIffAgreement(p: Plan, s: State, thread: ThreadId, images: nat)
    requires Holds(p, s, NO_PROGRESS)
    ensures
      var config, start := ConfigFact(p, thread, images), FactOf(p, StartPart);
      var profile, completed := FactOf(p, ProfilePart), FactOf(p, CompletedPart);
      RunFrom(s, [start] + [config] + [profile] + [completed]).events
      == RunFrom(s, [config] + [start] + [profile] + [completed]).events
      <==> thread == p.thread && images == p.images
  {
    var config, start := ConfigFact(p, thread, images), FactOf(p, StartPart);
    StartThenConfig(p, s, thread, images);
    FinishStarted(p, s, [start] + [config], thread, images);
    ConfigThenStart(p, s, thread, images);
    FinishStarted(p, s, [config] + [start], p.thread, p.images);
    ReportsAgree(p, thread, images, MetadataOf(s, thread));
  }

  lemma {:induction false} ReportsAgree(p: Plan, thread: ThreadId, images: nat, metadata: Option<ThreadMetadata>)
    requires thread == p.thread ==> metadata == Some(p.metadata)
    ensures Report(p, thread, images, metadata) == Report(p, p.thread, p.images, Some(p.metadata))
       <==> thread == p.thread && images == p.images
  {
    if metadata.Some? {
      var e := Expected(p.(thread := thread, images := images, metadata := metadata.value), NO_EXTRAS);
      assert Report(p, thread, images, metadata)[0] == e;
      assert Report(p, p.thread, p.images, Some(p.metadata))[0]
          == Expected(p.(thread := p.thread, images := p.images, metadata := p.metadata), NO_EXTRAS);
    }
  }
}
