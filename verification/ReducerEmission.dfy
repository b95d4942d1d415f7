/**
 Emission is linear in its causes: a turn event uses up one completion, one config, one profile
 and one matched start response of its turn, and a steer event uses up one recorded steer request.
 */
module ReducerEmission {
  import opened Options
  import opened Reducer
  import opened ReducerContext

  // ---- turn events ----

  datatype Cause = Completion | ResolvedConfig | Profile | MatchedStart

  /** The fact supplies this cause to the turn. */
  predicate Supplies(s: State, f: Fact, turn: TurnId, cause: Cause)
  {
    match cause
    case Completion => f.TurnCompleted? && f.turn == turn
    case ResolvedConfig => f.TurnResolvedConfig? && f.turn == turn
    case Profile => f.TurnProfile? && f.turn == turn
    case MatchedStart => f.TurnStartResponse? && f.turn == turn && TurnUpdateOf(s, f).Some?
  }

  /** The entry of a turn holds what the cause supplies. */
  predicate Has(t: TurnState, cause: Cause)
  {
    match cause
    case Completion => t.completed.Some?
    case ResolvedConfig => t.config.Some?
    case Profile => t.profile.Some?
    case MatchedStart => t.connection.Some?
  }

  function Supplied(facts: seq<Fact>, turn: TurnId, cause: Cause): nat
  {
    if facts == [] then 0
    else
      var n := |facts| - 1;
      Supplied(facts[..n], turn, cause) + if Supplies(Run(facts[..n]).state, facts[n], turn, cause) then 1 else 0
  }

  function Held(s: State, turn: TurnId, cause: Cause): nat
  {
    if turn in s.turns && Has(s.turns[turn], cause) then 1 else 0
  }

  /** An updated entry holds what the old one held and what the fact supplies. */
  lemma {:induction false} UpdatedEntryHas(s: State, f: Fact, cause: Cause)
    requires TurnUpdateOf(s, f).Some?
    ensures
      var u := TurnUpdateOf(s, f).value;
      && TurnOf(f) == Some(u.turn)
      && u.base.turns == s.turns
      && (Has(u.entry, cause) <==> Has(TurnAt(s, u.turn), cause) || Supplies(s, f, u.turn, cause))
  {
  }

  lemma {:induction false} EmissionUpdate(s: State, f: Fact, turn: TurnId, cause: Cause)
    requires TurnUpdateOf(s, f).Some? && TurnOf(f) == Some(turn)
    ensures |TurnsFor(Ingest(s, f).events, turn)| + Held(Ingest(s, f).state, turn, cause)
         <= Held(s, turn, cause) + if Supplies(s, f, turn, cause) then 1 else 0
  {
    var u := TurnUpdateOf(s, f).value;
    UpdatedEntryHas(s, f, cause);
    UpdateTurnEffect(u.base, u.turn, u.entry);
  }

  lemma {:induction false} EmissionPlain(s: State, f: Fact, turn: TurnId, cause: Cause)
    requires TurnUpdateOf(s, f).None? && TurnOf(f) == Some(turn)
    ensures TurnsFor(Ingest(s, f).events, turn) == []
    ensures Held(Ingest(s, f).state, turn, cause) == Held(s, turn, cause)
  {
    PlainTurnEffect(s, f, turn);
    PlainEmitsNoTurnEvent(s, f);
    NoTurnEvents(IngestPlain(s, f).events, turn);
  }

  lemma {:induction false} EmissionStep(s: State, f: Fact, turn: TurnId, cause: Cause)
    ensures |TurnsFor(Ingest(s, f).events, turn)| + Held(Ingest(s, f).state, turn, cause)
         <= Held(s, turn, cause) + if Supplies(s, f, turn, cause) then 1 else 0
  {
    if TurnOf(f) != Some(turn) {
      TurnFrame(s, f, turn);
    } else if TurnUpdateOf(s, f).Some? {
      EmissionUpdate(s, f, turn, cause);
    } else {
      EmissionPlain(s, f, turn, cause);
    }
  }

  /** For every run, turn and cause: turn events, plus one if the cause is waiting, never exceed the supply. */
  lemma {:induction false} TurnEventsAreLinear(facts: seq<Fact>, turn: TurnId, cause: Cause)
    ensures |TurnsFor(Run(facts).events, turn)| + Held(Run(facts).state, turn, cause) <= Supplied(facts, turn, cause)
  {
    if facts != [] {
      var n := |facts| - 1;
      var before := Run(facts[..n]);
      TurnEventsAreLinear(facts[..n], turn, cause);
      EmissionStep(before.state, facts[n], turn, cause);
      TurnsForAppend(before.events, Ingest(before.state, facts[n]).events, turn);
    }
  }

  // ---- recorded requests ----

  function KeyOf(f: Fact): Option<RequestKey>
  {
    match f
    case TurnStartRequest(c, r, _, _) => Some(RequestKey(c, r))
    case TurnSteerRequest(c, r, _, _, _, _) => Some(RequestKey(c, r))
    case TurnStartResponse(c, r, _) => Some(RequestKey(c, r))
    case TurnSteerResponse(c, r, _) => Some(RequestKey(c, r))
    case ErrorResponse(c, r, _) => Some(RequestKey(c, r))
    case _ => None
  }

  function RequestOf(f: Fact): Option<RequestState>
  {
    match f
    case TurnStartRequest(_, _, thread, images) => Some(PendingStart(thread, images))
    case TurnSteerRequest(_, _, thread, expected, images, at) => Some(PendingSteer(thread, expected, images, at))
    case _ => None
  }

  /** The position of the request a key stands for: the last fact about the key, if that is a request. */
  function Recorded(facts: seq<Fact>, key: RequestKey): Option<nat>
  {
    if facts == [] then None
    else
      var n := |facts| - 1;
      if KeyOf(facts[n]) != Some(key) then Recorded(facts[..n], key)
      else if RequestOf(facts[n]).Some? then Some(n)
      else None
  }

  function Lookup(s: State, key: RequestKey): Option<RequestState>
  {
    if key in s.requests then Some(s.requests[key]) else None
  }

  lemma {:induction false} PlainRequestStep(s: State, f: Fact, key: RequestKey)
    ensures Lookup(IngestPlain(s, f).state, key) == if KeyOf(f) == Some(key) then RequestOf(f) else Lookup(s, key)
  {
    PlainShape(s, f);
    if FamilyOf(f) == RequestFamily { RequestFactLaw(s, f, key); }
  }

  lemma {:induction false} RequestFactLaw(s: State, f: Fact, key: RequestKey)
    requires FamilyOf(f) == RequestFamily
    ensures Lookup(IngestRequestFact(s, f).state, key) == if KeyOf(f) == Some(key) then RequestOf(f) else Lookup(s, key)
  {
    match f
    case TurnSteerResponse(c, r, turn) => SteerResponseLaw(s, RequestKey(c, r), turn, key);
    case ErrorResponse(c, r, reason) => RequestErrorLaw(s, RequestKey(c, r), reason, key);
    case _ =>
  }

  lemma {:induction false} SteerResponseLaw(s: State, reply: RequestKey, turn: TurnId, key: RequestKey)
    ensures Lookup(SteerResponse(s, reply, turn).state, key) == if reply == key then None else Lookup(s, key)
  {
  }

  lemma {:induction false} RequestErrorLaw(s: State, reply: RequestKey, reason: Option<Payload>, key: RequestKey)
    ensures Lookup(RequestError(s, reply, reason).state, key) == if reply == key then None else Lookup(s, key)
  {
  }

  lemma {:induction false} RequestStep(s: State, f: Fact, key: RequestKey)
    ensures Lookup(Ingest(s, f).state, key) == if KeyOf(f) == Some(key) then RequestOf(f) else Lookup(s, key)
  {
    if TurnUpdateOf(s, f).Some? {
      var u := TurnUpdateOf(s, f).value;
      UpdateTurnEffect(u.base, u.turn, u.entry);
    } else if FinishedReviewOf(s, f).Some? {
      ReviewShape(s, f);
    } else {
      PlainRequestStep(s, f, key);
    }
  }

  lemma {:induction false} RecordedInRange(facts: seq<Fact>, key: RequestKey)
    requires Recorded(facts, key).Some?
    ensures
      var j := Recorded(facts, key).value;
      && j < |facts| && KeyOf(facts[j]) == Some(key) && RequestOf(facts[j]).Some?
      && forall m | j < m < |facts| :: KeyOf(facts[m]) != Some(key)
  {
    var n := |facts| - 1;
    if KeyOf(facts[n]) != Some(key) { RecordedInRange(facts[..n], key); }
  }

  /** The request map holds, for each key, the request recorded under it that nothing has answered yet. */
  lemma {:induction false} RequestsAreRecorded(facts: seq<Fact>, key: RequestKey)
    ensures
      var j := Recorded(facts, key);
      && (j.Some? ==> j.value < |facts|)
      && Lookup(Run(facts).state, key) == (if j.Some? then RequestOf(facts[j.value]) else None)
  {
    if facts != [] {
      var n := |facts| - 1;
      RequestsAreRecorded(facts[..n], key);
      RequestStep(Run(facts[..n]).state, facts[n], key);
    }
  }

  // ---- steer events ----

  predicate EmitsSteer(events: seq<Event>)
  {
    exists i | 0 <= i < |events| :: events[i].SteerEvent?
  }

  predicate Emits(facts: seq<Fact>, i: int)
  {
    0 <= i < |facts| && EmitsSteer(Ingest(Run(facts[..i]).state, facts[i]).events)
  }

  /** This step answers a recorded steer request and reports it, and nothing else. */
  predicate ReportsSteer(s: State, f: Fact, step: Step)
  {
    && (f.TurnSteerResponse? || f.ErrorResponse?)
    && var pending := Lookup(s, RequestKey(f.connection, f.request));
       && pending.Some? && pending.value.PendingSteer?
       && |step.events| == 1
       && var e := step.events[0];
          && e.SteerEvent? && e.thread == pending.value.thread && e.expectedTurn == pending.value.expectedTurn
          && e.images == pending.value.images && e.createdAt == pending.value.createdAt
          && e.acceptedTurn == (if f.TurnSteerResponse? then Some(f.turn) else None)
          && e.reason == (if f.TurnSteerResponse? then None else f.reason)
  }

  /** A steer event comes from a reply to a recorded steer request, and reports that request. */
  lemma {:induction false} SteerStep(s: State, f: Fact)
    requires EmitsSteer(Ingest(s, f).events)
    ensures ReportsSteer(s, f, Ingest(s, f))
  {
    if TurnUpdateOf(s, f).Some? {
      var u := TurnUpdateOf(s, f).value;
      UpdateTurnEffect(u.base, u.turn, u.entry);
    } else if FinishedReviewOf(s, f).None? {
      PlainSteer(s, f);
    }
  }

  lemma {:induction false} PlainSteer(s: State, f: Fact)
    requires EmitsSteer(IngestPlain(s, f).events)
    ensures ReportsSteer(s, f, IngestPlain(s, f))
  {
    match FamilyOf(f)
    case RequestFamily => assert ReportsSteer(s, f, IngestRequestFact(s, f));
    case ItemFamily => ItemEvents(s, f);
    case TurnFamily => TurnFactShape(s, f);
    case ThreadFamily => ThreadEvents(s, f);
  }

  /** The request a steer event reports: recorded earlier, a steer request, and not answered in between. */
  lemma {:induction false} SteerCause(facts: seq<Fact>, i: nat) returns (j: nat)
    requires Emits(facts, i)
    ensures j < i && facts[j].TurnSteerRequest? && KeyOf(facts[i]) == KeyOf(facts[j])
    ensures Recorded(facts[..i], KeyOf(facts[i]).value) == Some(j)
    ensures forall m | j < m < i :: KeyOf(facts[m]) != KeyOf(facts[j])
    ensures
      var e := Ingest(Run(facts[..i]).state, facts[i]).events[0];
      && e.SteerEvent? && e.thread == facts[j].thread && e.expectedTurn == facts[j].expectedTurn
      && e.images == facts[j].images && e.createdAt == facts[j].createdAt
  {
    SteerStep(Run(facts[..i]).state, facts[i]);
    var key := KeyOf(facts[i]).value;
    RequestsAreRecorded(facts[..i], key);
    RecordedInRange(facts[..i], key);
    j := Recorded(facts[..i], key).value;
    forall m | j < m < i ensures KeyOf(facts[m]) != KeyOf(facts[j]) {
      assert facts[..i][m] == facts[m];
    }
  }

  /** Two steer events never report the same request: each is the one recorded for its own reply. */
  lemma SteerEventsConsumeDistinctRequests(facts: seq<Fact>, i: nat, i': nat) returns (j: nat, j': nat)
    requires i < i' && Emits(facts, i) && Emits(facts, i')
    ensures j < i && j' < i' && j != j'
    ensures facts[j].TurnSteerRequest? && KeyOf(facts[j]) == KeyOf(facts[i])
    ensures facts[j'].TurnSteerRequest? && KeyOf(facts[j']) == KeyOf(facts[i'])
    ensures Recorded(facts[..i], KeyOf(facts[i]).value) == Some(j)
    ensures Recorded(facts[..i'], KeyOf(facts[i']).value) == Some(j')
  {
    j := SteerCause(facts, i);
    j' := SteerCause(facts, i');
  }

  // ---- steer events against steer requests ----

  function SteersReported(events: seq<Event>): nat
  {
    if events == [] then 0
    else SteersReported(events[..|events| - 1]) + if events[|events| - 1].SteerEvent? then 1 else 0
  }

  function SteersRequested(facts: seq<Fact>): nat
  {
    if facts == [] then 0
    else SteersRequested(facts[..|facts| - 1]) + if facts[|facts| - 1].TurnSteerRequest? then 1 else 0
  }

  function PendingSteers(s: State): set<RequestKey>
  {
    set key | key in s.requests && s.requests[key].PendingSteer?
  }

  lemma {:induction false} SteersReportedAppend(a: seq<Event>, b: seq<Event>)
    ensures SteersReported(a + b) == SteersReported(a) + SteersReported(b)
    decreases |b|
  {
    if b == [] {
      assert a + b == a;
    } else {
      var n := |b| - 1;
      SteersReportedAppend(a, b[..n]);
      assert |a + b| - 1 == |a| + n && (a + b)[|a| + n] == b[n];
      assert (a + b)[..|a| + n] == a + b[..n];
    }
  }

  lemma {:induction false} NoSteersReported(events: seq<Event>)
    requires !EmitsSteer(events)
    ensures SteersReported(events) == 0
  {
    if events != [] { NoSteersReported(events[..|events| - 1]); }
  }

  lemma {:induction false} PendingSteersStep(s: State, f: Fact)
    ensures
      var about := if KeyOf(f).Some? then {KeyOf(f).value} else {};
      PendingSteers(Ingest(s, f).state) == PendingSteers(s) - about + if f.TurnSteerRequest? then about else {}
  {
    var s', about := Ingest(s, f).state, if KeyOf(f).Some? then {KeyOf(f).value} else {};
    var expected := PendingSteers(s) - about + if f.TurnSteerRequest? then about else {};
    forall key ensures key in PendingSteers(s') <==> key in expected {
      RequestStep(s, f, key);
      assert key in PendingSteers(s') <==> Lookup(s', key).Some? && Lookup(s', key).value.PendingSteer?;
      assert key in PendingSteers(s) <==> Lookup(s, key).Some? && Lookup(s, key).value.PendingSteer?;
    }
  }

  lemma {:induction false} SteerBalance(s: State, f: Fact)
    ensures SteersReported(Ingest(s, f).events) + |PendingSteers(Ingest(s, f).state)|
         <= |PendingSteers(s)| + if f.TurnSteerRequest? then 1 else 0
  {
    PendingSteersStep(s, f);
    var before, events := PendingSteers(s), Ingest(s, f).events;
    if EmitsSteer(events) {
      SteerStep(s, f);
      var key := RequestKey(f.connection, f.request);
      assert key in before && PendingSteers(Ingest(s, f).state) == before - {key};
      assert events[..0] == [];
    } else {
      NoSteersReported(events);
      if f.TurnSteerRequest? {
        SetSizes(before, KeyOf(f).value);
      } else if KeyOf(f).Some? {
        SetSizes(before, KeyOf(f).value);
        assert before - {KeyOf(f).value} + {} == before - {KeyOf(f).value};
      } else {
        assert before - {} + {} == before;
      }
    }
  }

  lemma {:induction false} SetSizes(keys: set<RequestKey>, key: RequestKey)
    ensures |keys - {key}| <= |keys| && |keys - {key} + {key}| <= |keys| + 1
  {
  }

  /** Over every run: steer events, plus steers still waiting for a reply, never exceed the steer requests. */
  lemma {:induction false} SteerEventsAreLinear(facts: seq<Fact>)
    ensures SteersReported(Run(facts).events) + |PendingSteers(Run(facts).state)| <= SteersRequested(facts)
  {
    if facts == [] {
      assert PendingSteers(START) == {};
    } else {
      var n := |facts| - 1;
      var before := Run(facts[..n]);
      SteerEventsAreLinear(facts[..n]);
      SteerBalance(before.state, facts[n]);
      SteersReportedAppend(before.events, Ingest(before.state, facts[n]).events);
    }
  }

  /** A reply on a key with no recorded request changes nothing and emits nothing. */
  lemma UnmatchedReplyIsSilent(facts: seq<Fact>, f: Fact)
    requires f.TurnStartResponse? || f.TurnSteerResponse? || f.ErrorResponse?
    requires Recorded(facts, KeyOf(f).value).None?
    ensures Ingest(Run(facts).state, f) == Step(Run(facts).state, [])
  {
    var s, key := Run(facts).state, KeyOf(f).value;
    RequestsAreRecorded(facts, key);
    assert s.requests - {key} == s.requests;
  }
}
