/**
 Non-interference between threads: deleting every fact of some threads from a run leaves the
 events of all other threads as they were, in the same order, provided identifiers are not shared
 between threads and no remaining thread has a deleted one as its parent.
 */
module ReducerIsolation {
  import opened Options
  import opened Reducer
  import opened ReducerContext
  import opened ReducerApprovals
  import Emission = ReducerEmission
  import Reviews = ReducerReviews

  /** Which thread each turn id, client request and approval request belongs to. */
  datatype Owners = Owners(turn: TurnId -> ThreadId, request: RequestKey -> ThreadId, approval: RequestId -> ThreadId)

  /** The thread a fact is about; none for facts about connections. */
  function ThreadOf(o: Owners, f: Fact): Option<ThreadId>
  {
    match f
    case Initialize(_, _) => None
    case Ignored => None
    case TurnStartResponse(c, r, _) => Some(o.request(RequestKey(c, r)))
    case TurnSteerResponse(c, r, _) => Some(o.request(RequestKey(c, r)))
    case ErrorResponse(c, r, _) => Some(o.request(RequestKey(c, r)))
    case CommandApprovalResponse(r, _, _) => Some(o.approval(r))
    case FileApprovalResponse(r, _, _) => Some(o.approval(r))
    case PermissionsApprovalResponse(r, _, _, _) => Some(o.approval(r))
    case ServerRequestAborted(r, _) => Some(o.approval(r))
    case TurnStarted(turn, _) => Some(o.turn(turn))
    case TurnCompleted(turn, _, _, _, _) => Some(o.turn(turn))
    case TurnProfile(turn, _) => Some(o.turn(turn))
    case _ => Some(f.thread)
  }

  /** The identifiers in a fact all belong to its thread. */
  predicate Owned(o: Owners, f: Fact)
  {
    var thread := ThreadOf(o, f);
    && (thread.Some? && TurnOf(f).Some? ==> o.turn(TurnOf(f).value) == thread.value)
    && (thread.Some? && Emission.KeyOf(f).Some? ==> o.request(Emission.KeyOf(f).value) == thread.value)
    && (thread.Some? && ApprovalOf(f).Some? ==> o.approval(ApprovalOf(f).value) == thread.value)
  }

  /** No thread that stays has a parent that goes. */
  predicate Orphanless(f: Fact, gone: set<ThreadId>)
  {
    f.SubAgentThreadStarted? && f.thread !in gone && f.metadata.parent.Some? ==> f.metadata.parent.value !in gone
  }

  predicate Stays(o: Owners, f: Fact, gone: set<ThreadId>)
  {
    ThreadOf(o, f).Some? ==> ThreadOf(o, f).value !in gone
  }

  function ThreadOfEvent(e: Event): ThreadId
  {
    match e
    case ReviewEvent(review, _, _, _, _) => review.thread
    case ToolEvent(key, _, _, _, _, _, _, _, _, _, _) => key.thread
    case _ => e.thread
  }

  function Without(o: Owners, facts: seq<Fact>, gone: set<ThreadId>): seq<Fact>
  {
    if facts == [] then []
    else
      var n := |facts| - 1;
      Without(o, facts[..n], gone) + if Stays(o, facts[n], gone) then [facts[n]] else []
  }

  /** The events about threads that stay. */
  function Remaining(events: seq<Event>, gone: set<ThreadId>): seq<Event>
  {
    if events == [] then []
    else
      var n := |events| - 1;
      Remaining(events[..n], gone) + if ThreadOfEvent(events[n]) !in gone then [events[n]] else []
  }

  // ---- what one fact does to each map, entry by entry ----

  function TurnEntry(s: State, turn: TurnId): Option<TurnState>
  {
    if turn in s.turns then Some(s.turns[turn]) else None
  }

  function ThreadEntry(s: State, thread: ThreadId): Option<ThreadState>
  {
    if thread in s.threads then Some(s.threads[thread]) else None
  }

  function StartEntry(s: State, key: ItemKey): Option<nat>
  {
    if key in s.toolStarts then Some(s.toolStarts[key]) else None
  }

  predicate Starts(f: Fact, key: ItemKey)
  {
    f.ItemStarted? && !f.threadItem.OtherItem? && f.startedAt >= 0 && key == ItemKey(f.thread, f.turn, f.threadItem.id)
  }

  predicate Ends(s: State, f: Fact, key: ItemKey)
  {
    && f.ItemCompleted? && !f.threadItem.OtherItem? && f.turn in s.turns
    && key == ItemKey(f.thread, f.turn, f.threadItem.id)
  }

  lemma {:induction false} StartLaw(s: State, f: Fact, key: ItemKey)
    ensures StartEntry(Ingest(s, f).state, key)
         == if Starts(f, key) then Some(f.startedAt) else if Ends(s, f, key) then None else StartEntry(s, key)
  {
    if TurnUpdateOf(s, f).Some? {
      UpdateShape(s, f);
    } else if FinishedReviewOf(s, f).Some? {
      ReviewShape(s, f);
    } else {
      PlainStartLaw(s, f, key);
    }
  }

  lemma {:induction false} CompletedStartLaw(s: State, f: Fact, key: ItemKey)
    requires f.ItemCompleted?
    ensures StartEntry(CompleteItem(s, f.thread, f.turn, f.threadItem, f.completedAt).state, key)
         == if Ends(s, f, key) then None else StartEntry(s, key)
  {
  }

  lemma {:induction false} PlainStartLaw(s: State, f: Fact, key: ItemKey)
    ensures StartEntry(IngestPlain(s, f).state, key)
         == if Starts(f, key) then Some(f.startedAt) else if Ends(s, f, key) then None else StartEntry(s, key)
  {
    PlainShape(s, f);
    if FamilyOf(f) == ItemFamily { ItemStartLaw(s, f, key); }
  }

  lemma {:induction false} ItemStartLaw(s: State, f: Fact, key: ItemKey)
    requires FamilyOf(f) == ItemFamily
    ensures StartEntry(IngestItemFact(s, f).state, key)
         == if Starts(f, key) then Some(f.startedAt) else if Ends(s, f, key) then None else StartEntry(s, key)
  {
    if f.ItemStarted? {
      assert IngestItemFact(s, f) == StartItem(s, f.thread, f.turn, f.threadItem, f.startedAt);
    } else if f.ItemCompleted? {
      assert IngestItemFact(s, f) == CompleteItem(s, f.thread, f.turn, f.threadItem, f.completedAt);
      CompletedStartLaw(s, f, key);
    } else {
      assert IngestItemFact(s, f) == RecordReview(s, f, f.request);
    }
  }

  lemma {:induction false} SummaryLaw(s: State, f: Fact, key: ItemKey)
    ensures
      var r := FinishedReviewOf(s, f);
      Reviews.Lookup(Ingest(s, f).state, key)
      == if Reviews.Clears(s, f, key) then None
         else if r.Some? && SummaryKey(r.value.review) == Some(key) then
           Some(Summarise(SummaryAt(s, key), r.value.reviewer, r.value.verdict, r.value.review))
         else Reviews.Lookup(s, key)
  {
    if TurnUpdateOf(s, f).Some? {
      UpdateShape(s, f);
    } else if FinishedReviewOf(s, f).Some? {
      FinishedSummaryLaw(s, f, key);
    } else {
      Reviews.PlainSummaryStep(s, f, key);
    }
  }

  lemma {:induction false} FinishedSummaryLaw(s: State, f: Fact, key: ItemKey)
    requires FinishedReviewOf(s, f).Some?
    ensures !f.ItemCompleted?
    ensures
      var r := FinishedReviewOf(s, f).value;
      Reviews.Lookup(Ingest(s, f).state, key)
      == if SummaryKey(r.review) == Some(key) then
           Some(Summarise(SummaryAt(s, key), r.reviewer, r.verdict, r.review))
         else Reviews.Lookup(s, key)
  {
    var r := FinishedReviewOf(s, f).value;
    Reviews.FinishedBase(s, f);
    Reviews.EmittedSummary(r.base, r.review, r.reviewer, r.verdict, r.completedAt, key);
    assert SummaryAt(r.base, key) == SummaryAt(s, key);
  }

  // ---- ownership is kept ----

  /** Everything the state holds names the thread its key belongs to. */
  predicate StateOwned(o: Owners, s: State)
  {
    && (forall key | key in s.requests :: s.requests[key].thread == o.request(key))
    && (forall turn | turn in s.turns :: s.turns[turn].thread.Some? ==> s.turns[turn].thread.value == o.turn(turn))
    && (forall r | r in s.pendingReviews :: s.pendingReviews[r].thread == o.approval(r))
  }

  lemma {:induction false} RequestsOwned(o: Owners, s: State, f: Fact, key: RequestKey)
    requires StateOwned(o, s) && Owned(o, f) && key in Ingest(s, f).state.requests
    ensures Ingest(s, f).state.requests[key].thread == o.request(key)
  {
    Emission.RequestStep(s, f, key);
    assert Emission.Lookup(Ingest(s, f).state, key).Some?;
  }

  lemma {:induction false} ReviewsOwned(o: Owners, s: State, f: Fact, r: RequestId)
    requires StateOwned(o, s) && Owned(o, f) && r in Ingest(s, f).state.pendingReviews
    ensures Ingest(s, f).state.pendingReviews[r].thread == o.approval(r)
  {
    ReviewLaw(s, f, r);
    assert ReviewEntry(Ingest(s, f).state, r).Some?;
  }

  /** The entry a turn update stores names the turn's own thread. */
  lemma {:induction false} UpdateOwned(o: Owners, s: State, f: Fact)
    requires StateOwned(o, s) && Owned(o, f) && TurnUpdateOf(s, f).Some?
    ensures
      var u := TurnUpdateOf(s, f).value;
      && TurnOf(f) == Some(u.turn) && u.base.turns == s.turns && ThreadOf(o, f) == Some(o.turn(u.turn))
      && (u.entry.thread.Some? ==> u.entry.thread.value == o.turn(u.turn))
  {
  }

  lemma {:induction false} TurnsOwned(o: Owners, s: State, f: Fact, turn: TurnId)
    requires StateOwned(o, s) && Owned(o, f) && turn in Ingest(s, f).state.turns
    ensures
      var t := Ingest(s, f).state.turns[turn];
      t.thread.Some? ==> t.thread.value == o.turn(turn)
  {
    if TurnOf(f) != Some(turn) {
      TurnFrame(s, f, turn);
    } else if TurnUpdateOf(s, f).Some? {
      var u := TurnUpdateOf(s, f).value;
      UpdateOwned(o, s, f);
      UpdateTurnEffect(u.base, u.turn, u.entry);
    } else {
      PlainTurnEffect(s, f, turn);
      PlainEntryOwned(o, s, f, turn);
    }
  }

  /** A plain fact of the turn leaves the entry naming the turn's own thread. */
  lemma {:induction false} PlainEntryOwned(o: Owners, s: State, f: Fact, turn: TurnId)
    requires Owned(o, f) && TurnOf(f) == Some(turn)
    requires turn in s.turns && s.turns[turn].thread.Some? ==> s.turns[turn].thread.value == o.turn(turn)
    ensures
      var t := PlainEntry(s, f, TurnAt(s, turn));
      t.thread.Some? ==> t.thread.value == o.turn(turn)
  {
  }

  lemma {:induction false} OwnedStep(o: Owners, s: State, f: Fact)
    requires StateOwned(o, s) && Owned(o, f)
    ensures StateOwned(o, Ingest(s, f).state)
  {
    var s' := Ingest(s, f).state;
    forall key | key in s'.requests ensures s'.requests[key].thread == o.request(key) { RequestsOwned(o, s, f, key); }
    forall turn | turn in s'.turns
      ensures s'.turns[turn].thread.Some? ==> s'.turns[turn].thread.value == o.turn(turn)
    {
      TurnsOwned(o, s, f, turn);
    }
    forall r | r in s'.pendingReviews ensures s'.pendingReviews[r].thread == o.approval(r) { ReviewsOwned(o, s, f, r); }
  }

  // ---- every event is about the thread of its fact ----

  lemma {:induction false} UpdateEventsAbout(o: Owners, s: State, f: Fact, i: nat)
    requires StateOwned(o, s) && Owned(o, f) && TurnUpdateOf(s, f).Some? && i < |Ingest(s, f).events|
    ensures ThreadOf(o, f) == Some(ThreadOfEvent(Ingest(s, f).events[i]))
  {
    var u := TurnUpdateOf(s, f).value;
    UpdateOwned(o, s, f);
    UpdateTurnEffect(u.base, u.turn, u.entry);
  }

  lemma {:induction false} FinishedAbout(o: Owners, s: State, f: Fact)
    requires StateOwned(o, s) && Owned(o, f) && FinishedReviewOf(s, f).Some?
    ensures ThreadOf(o, f) == Some(FinishedReviewOf(s, f).value.review.thread)
  {
  }

  lemma {:induction false} PlainEventsAbout(o: Owners, s: State, f: Fact, i: nat)
    requires StateOwned(o, s) && Owned(o, f) && i < |IngestPlain(s, f).events|
    ensures ThreadOf(o, f) == Some(ThreadOfEvent(IngestPlain(s, f).events[i]))
  {
    match FamilyOf(f)
    case RequestFamily => ReplyEventsAbout(o, s, f, i);
    case ItemFamily => assert ThreadOf(o, f) == Some(ThreadOfEvent(IngestItemFact(s, f).events[i]));
    case TurnFamily => TurnFactShape(s, f);
    case ThreadFamily => assert ThreadOf(o, f) == Some(ThreadOfEvent(IngestThreadFact(s, f).events[i]));
  }

  lemma {:induction false} ReplyEventsAbout(o: Owners, s: State, f: Fact, i: nat)
    requires StateOwned(o, s) && Owned(o, f) && i < |IngestRequestFact(s, f).events|
    ensures ThreadOf(o, f) == Some(ThreadOfEvent(IngestRequestFact(s, f).events[i]))
  {
  }

  lemma {:induction false} EventsAbout(o: Owners, s: State, f: Fact, i: nat)
    requires StateOwned(o, s) && Owned(o, f) && i < |Ingest(s, f).events|
    ensures ThreadOf(o, f) == Some(ThreadOfEvent(Ingest(s, f).events[i]))
  {
    if TurnUpdateOf(s, f).Some? {
      UpdateEventsAbout(o, s, f, i);
    } else if FinishedReviewOf(s, f).Some? {
      FinishedAbout(o, s, f);
      Reviews.FinishedBase(s, f);
    } else {
      PlainEventsAbout(o, s, f, i);
    }
  }

  // ---- two states that agree on what stays ----

  ghost predicate Agree(o: Owners, gone: set<ThreadId>, s: State, s': State)
  {
    && s.connections == s'.connections
    && (forall key | o.request(key) !in gone :: Emission.Lookup(s, key) == Emission.Lookup(s', key))
    && (forall turn | o.turn(turn) !in gone :: TurnEntry(s, turn) == TurnEntry(s', turn))
    && (forall thread | thread !in gone :: ThreadEntry(s, thread) == ThreadEntry(s', thread))
    && (forall key: ItemKey | key.thread !in gone :: StartEntry(s, key) == StartEntry(s', key))
    && (forall key: ItemKey | key.thread !in gone :: Reviews.Lookup(s, key) == Reviews.Lookup(s', key))
    && (forall r | o.approval(r) !in gone :: ReviewEntry(s, r) == ReviewEntry(s', r))
  }

  lemma {:induction false} ThreadLaw(s: State, f: Fact, thread: ThreadId)
    requires !((f.ThreadResponse? || f.SubAgentThreadStarted?) && f.thread == thread)
    ensures ThreadEntry(Ingest(s, f).state, thread) == ThreadEntry(s, thread)
  {
    if Registers(f) { RegisteringFact(s, f); } else { RegistryFrame(s, f); }
  }

  // ---- a fact of a thread that goes ----

  lemma {:induction false} GoneConnections(o: Owners, gone: set<ThreadId>, s: State, f: Fact)
    requires !Stays(o, f, gone)
    ensures Ingest(s, f).state.connections == s.connections
  {
    if Registers(f) { RegisteringFact(s, f); } else { RegistryFrame(s, f); }
  }

  lemma {:induction false} GoneSummaries(o: Owners, gone: set<ThreadId>, s: State, f: Fact, key: ItemKey)
    requires StateOwned(o, s) && Owned(o, f) && !Stays(o, f, gone) && key.thread !in gone
    ensures Reviews.Lookup(Ingest(s, f).state, key) == Reviews.Lookup(s, key)
  {
    SummaryLaw(s, f, key);
    if FinishedReviewOf(s, f).Some? { FinishedAbout(o, s, f); }
  }

  /** It changes nothing that stays. */
  lemma {:induction false} GoneEntries(o: Owners, gone: set<ThreadId>, s: State, f: Fact)
    requires StateOwned(o, s) && Owned(o, f) && !Stays(o, f, gone)
    ensures Agree(o, gone, Ingest(s, f).state, s)
  {
    var s' := Ingest(s, f).state;
    GoneConnections(o, gone, s, f);
    forall key | o.request(key) !in gone ensures Emission.Lookup(s', key) == Emission.Lookup(s, key) {
      Emission.RequestStep(s, f, key);
    }
    forall turn | o.turn(turn) !in gone ensures TurnEntry(s', turn) == TurnEntry(s, turn) { TurnFrame(s, f, turn); }
    forall thread | thread !in gone ensures ThreadEntry(s', thread) == ThreadEntry(s, thread) {
      ThreadLaw(s, f, thread);
    }
    forall key: ItemKey | key.thread !in gone ensures StartEntry(s', key) == StartEntry(s, key) {
      StartLaw(s, f, key);
    }
    forall key: ItemKey | key.thread !in gone ensures Reviews.Lookup(s', key) == Reviews.Lookup(s, key) {
      GoneSummaries(o, gone, s, f, key);
    }
    forall r | o.approval(r) !in gone ensures ReviewEntry(s', r) == ReviewEntry(s, r) { ReviewLaw(s, f, r); }
  }

  lemma {:induction false} AllGone(events: seq<Event>, gone: set<ThreadId>)
    requires forall i | 0 <= i < |events| :: ThreadOfEvent(events[i]) in gone
    ensures Remaining(events, gone) == []
  {
    if events != [] { AllGone(events[..|events| - 1], gone); }
  }

  lemma {:induction false} NoneGone(events: seq<Event>, gone: set<ThreadId>)
    requires forall i | 0 <= i < |events| :: ThreadOfEvent(events[i]) !in gone
    ensures Remaining(events, gone) == events
  {
    if events != [] { NoneGone(events[..|events| - 1], gone); }
  }

  // ---- a fact of a thread that stays ----

  lemma {:induction false} SameContext(o: Owners, gone: set<ThreadId>, s: State, s': State,
                                       connection: Option<ConnectionId>, thread: ThreadId)
    requires Agree(o, gone, s, s') && thread !in gone
    ensures ContextFor(s, connection, thread) == ContextFor(s', connection, thread)
    ensures ThreadContext(s, thread) == ThreadContext(s', thread)
  {
    assert ThreadEntry(s, thread) == ThreadEntry(s', thread);
  }

  lemma {:induction false} SameUpdate(o: Owners, gone: set<ThreadId>, s: State, s': State, f: Fact)
    requires Agree(o, gone, s, s') && Owned(o, f) && Stays(o, f, gone)
    ensures
      var u, u' := TurnUpdateOf(s, f), TurnUpdateOf(s', f);
      && (u.Some? <==> u'.Some?)
      && (u.Some? ==> u.value.turn == u'.value.turn && u.value.entry == u'.value.entry
                      && u.value.base.connections == s.connections && u.value.base.threads == s.threads
                      && u'.value.base.connections == s'.connections && u'.value.base.threads == s'.threads)
  {
    if f.TurnStartResponse? {
      var key := RequestKey(f.connection, f.request);
      assert Emission.Lookup(s, key) == Emission.Lookup(s', key);
    }
    if TurnOf(f).Some? && ThreadOf(o, f).Some? {
      assert TurnEntry(s, TurnOf(f).value) == TurnEntry(s', TurnOf(f).value);
    }
  }

  lemma {:induction false} SameFinished(o: Owners, gone: set<ThreadId>, s: State, s': State, f: Fact)
    requires Agree(o, gone, s, s') && Owned(o, f) && Stays(o, f, gone)
    ensures
      var r, r' := FinishedReviewOf(s, f), FinishedReviewOf(s', f);
      && (r.Some? <==> r'.Some?)
      && (r.Some? ==> r.value == r'.value.(base := r.value.base))
  {
    if ApprovalOf(f).Some? {
      assert ReviewEntry(s, ApprovalOf(f).value) == ReviewEntry(s', ApprovalOf(f).value);
    }
    SameAnswer(s, s', f);
  }

  lemma {:induction false} SameAnswer(s: State, s': State, f: Fact)
    requires ApprovalOf(f).Some? ==> ReviewEntry(s, ApprovalOf(f).value) == ReviewEntry(s', ApprovalOf(f).value)
    ensures
      var r, r' := FinishedReviewOf(s, f), FinishedReviewOf(s', f);
      && (r.Some? <==> r'.Some?)
      && (r.Some? ==> r.value == r'.value.(base := r.value.base))
  {
  }

  /** The same turn update takes place on both sides, with the same context. */
  lemma {:induction false} SameEmission(o: Owners, gone: set<ThreadId>, s: State, s': State, f: Fact)
    requires Agree(o, gone, s, s') && StateOwned(o, s) && Owned(o, f) && Stays(o, f, gone)
    requires TurnUpdateOf(s, f).Some?
    ensures TurnUpdateOf(s', f).Some?
    ensures
      var u, u' := TurnUpdateOf(s, f).value, TurnUpdateOf(s', f).value;
      EmitContext(u.base, u.turn, u.entry) == EmitContext(u'.base, u'.turn, u'.entry)
  {
    SameUpdate(o, gone, s, s', f);
    UpdateOwned(o, s, f);
    var u, u' := TurnUpdateOf(s, f).value, TurnUpdateOf(s', f).value;
    if u.entry.thread.Some? {
      SameContext(o, gone, s, s', u.entry.connection, u.entry.thread.value);
      assert ContextFor(u.base, u.entry.connection, u.entry.thread.value)
          == ContextFor(s, u.entry.connection, u.entry.thread.value);
      assert ContextFor(u'.base, u.entry.connection, u.entry.thread.value)
          == ContextFor(s', u.entry.connection, u.entry.thread.value);
    }
  }

  lemma {:induction false} StayingTurns(o: Owners, gone: set<ThreadId>, s: State, s': State, f: Fact, turn: TurnId)
    requires Agree(o, gone, s, s') && StateOwned(o, s) && Owned(o, f) && Stays(o, f, gone)
    requires o.turn(turn) !in gone
    ensures TurnEntry(Ingest(s, f).state, turn) == TurnEntry(Ingest(s', f).state, turn)
  {
    assert TurnEntry(s, turn) == TurnEntry(s', turn);
    SameUpdate(o, gone, s, s', f);
    if TurnOf(f) != Some(turn) {
      TurnFrame(s, f, turn);
      TurnFrame(s', f, turn);
    } else if TurnUpdateOf(s, f).Some? {
      UpdatedTurns(o, gone, s, s', f);
    } else {
      PlainTurnEffect(s, f, turn);
      PlainTurnEffect(s', f, turn);
      SamePlainEntry(o, gone, s, s', f, turn);
    }
  }

  lemma {:induction false} UpdatedTurns(o: Owners, gone: set<ThreadId>, s: State, s': State, f: Fact)
    requires Agree(o, gone, s, s') && StateOwned(o, s) && Owned(o, f) && Stays(o, f, gone)
    requires TurnUpdateOf(s, f).Some?
    ensures
      var turn := TurnUpdateOf(s, f).value.turn;
      TurnEntry(Ingest(s, f).state, turn) == TurnEntry(Ingest(s', f).state, turn)
  {
    SameUpdate(o, gone, s, s', f);
    SameEmission(o, gone, s, s', f);
    var u, u' := TurnUpdateOf(s, f).value, TurnUpdateOf(s', f).value;
    UpdateTurnEffect(u.base, u.turn, u.entry);
    UpdateTurnEffect(u'.base, u'.turn, u'.entry);
  }

  lemma {:induction false} SamePlainEntry(o: Owners, gone: set<ThreadId>, s: State, s': State, f: Fact, turn: TurnId)
    requires Agree(o, gone, s, s') && Owned(o, f) && Stays(o, f, gone) && TurnOf(f) == Some(turn)
    ensures PlainEntry(s, f, TurnAt(s, turn)) == PlainEntry(s', f, TurnAt(s', turn))
  {
    assert ThreadOf(o, f).Some?;
    assert TurnEntry(s, turn) == TurnEntry(s', turn);
    if f.TurnSteerResponse? {
      var key := RequestKey(f.connection, f.request);
      assert Emission.Lookup(s, key) == Emission.Lookup(s', key);
    }
  }

  lemma {:induction false} StayingThreads(o: Owners, gone: set<ThreadId>, s: State, s': State, f: Fact,
                                          thread: ThreadId)
    requires Agree(o, gone, s, s') && Stays(o, f, gone) && Orphanless(f, gone) && thread !in gone
    ensures ThreadEntry(Ingest(s, f).state, thread) == ThreadEntry(Ingest(s', f).state, thread)
  {
    assert ThreadEntry(s, thread) == ThreadEntry(s', thread);
    if (f.ThreadResponse? || f.SubAgentThreadStarted?) && f.thread == thread {
      if f.SubAgentThreadStarted? && f.metadata.parent.Some? {
        assert ThreadEntry(s, f.metadata.parent.value) == ThreadEntry(s', f.metadata.parent.value);
      }
      SameRegistration(s, s', f);
    } else {
      ThreadLaw(s, f, thread);
      ThreadLaw(s', f, thread);
    }
  }

  lemma {:induction false} SameRegistration(s: State, s': State, f: Fact)
    requires f.ThreadResponse? || f.SubAgentThreadStarted?
    requires s.connections == s'.connections && ThreadEntry(s, f.thread) == ThreadEntry(s', f.thread)
    requires f.SubAgentThreadStarted? && f.metadata.parent.Some? ==>
               ThreadEntry(s, f.metadata.parent.value) == ThreadEntry(s', f.metadata.parent.value)
    ensures ThreadEntry(Ingest(s, f).state, f.thread) == ThreadEntry(Ingest(s', f).state, f.thread)
  {
    RegisteringFact(s, f);
    RegisteringFact(s', f);
    if f.SubAgentThreadStarted? { SameSubAgent(s, s', f.thread, f.metadata, f.details); }
  }

  lemma {:induction false} SameSubAgent(s: State, s': State, thread: ThreadId, metadata: ThreadMetadata,
                                        details: Payload)
    requires ThreadEntry(s, thread) == ThreadEntry(s', thread)
    requires metadata.parent.Some? ==> ThreadEntry(s, metadata.parent.value) == ThreadEntry(s', metadata.parent.value)
    ensures ThreadEntry(StartSubAgent(s, thread, metadata, details).state, thread)
         == ThreadEntry(StartSubAgent(s', thread, metadata, details).state, thread)
  {
  }

  lemma {:induction false} StayingStarts(o: Owners, gone: set<ThreadId>, s: State, s': State, f: Fact, key: ItemKey)
    requires Agree(o, gone, s, s') && Owned(o, f) && Stays(o, f, gone) && key.thread !in gone
    ensures StartEntry(Ingest(s, f).state, key) == StartEntry(Ingest(s', f).state, key)
  {
    StartLaw(s, f, key);
    StartLaw(s', f, key);
    if f.ItemCompleted? { assert TurnEntry(s, f.turn) == TurnEntry(s', f.turn); }
    assert StartEntry(s, key) == StartEntry(s', key);
  }

  lemma {:induction false} SameClears(o: Owners, gone: set<ThreadId>, s: State, s': State, f: Fact, key: ItemKey)
    requires Agree(o, gone, s, s') && Owned(o, f) && Stays(o, f, gone) && key.thread !in gone
    ensures Reviews.Clears(s, f, key) <==> Reviews.Clears(s', f, key)
  {
    if f.ItemCompleted? {
      assert TurnEntry(s, f.turn) == TurnEntry(s', f.turn);
      assert StartEntry(s, key) == StartEntry(s', key);
      SameContext(o, gone, s, s', None, f.thread);
    }
  }

  lemma {:induction false} StayingSummaries(o: Owners, gone: set<ThreadId>, s: State, s': State, f: Fact, key: ItemKey)
    requires Agree(o, gone, s, s') && Owned(o, f) && Stays(o, f, gone) && key.thread !in gone
    ensures Reviews.Lookup(Ingest(s, f).state, key) == Reviews.Lookup(Ingest(s', f).state, key)
  {
    SummaryLaw(s, f, key);
    SummaryLaw(s', f, key);
    SameFinished(o, gone, s, s', f);
    SameClears(o, gone, s, s', f, key);
    assert Reviews.Lookup(s, key) == Reviews.Lookup(s', key);
    assert SummaryAt(s, key) == SummaryAt(s', key);
  }

  lemma {:induction false} StayingConnections(s: State, s': State, f: Fact)
    requires s.connections == s'.connections
    ensures Ingest(s, f).state.connections == Ingest(s', f).state.connections
  {
    if Registers(f) {
      RegisteringFact(s, f);
      RegisteringFact(s', f);
    } else {
      RegistryFrame(s, f);
      RegistryFrame(s', f);
    }
  }

  /** It does the same to both states. */
  lemma {:induction false} StayingEntries(o: Owners, gone: set<ThreadId>, s: State, s': State, f: Fact)
    requires Agree(o, gone, s, s') && StateOwned(o, s) && Owned(o, f) && Stays(o, f, gone) && Orphanless(f, gone)
    ensures Agree(o, gone, Ingest(s, f).state, Ingest(s', f).state)
  {
    var t, t' := Ingest(s, f).state, Ingest(s', f).state;
    StayingConnections(s, s', f);
    forall key | o.request(key) !in gone ensures Emission.Lookup(t, key) == Emission.Lookup(t', key) {
      Emission.RequestStep(s, f, key);
      Emission.RequestStep(s', f, key);
      assert Emission.Lookup(s, key) == Emission.Lookup(s', key);
    }
    forall turn | o.turn(turn) !in gone ensures TurnEntry(t, turn) == TurnEntry(t', turn) {
      StayingTurns(o, gone, s, s', f, turn);
    }
    forall thread | thread !in gone ensures ThreadEntry(t, thread) == ThreadEntry(t', thread) {
      StayingThreads(o, gone, s, s', f, thread);
    }
    forall key: ItemKey | key.thread !in gone ensures StartEntry(t, key) == StartEntry(t', key) {
      StayingStarts(o, gone, s, s', f, key);
    }
    forall key: ItemKey | key.thread !in gone ensures Reviews.Lookup(t, key) == Reviews.Lookup(t', key) {
      StayingSummaries(o, gone, s, s', f, key);
    }
    forall r | o.approval(r) !in gone ensures ReviewEntry(t, r) == ReviewEntry(t', r) {
      ReviewLaw(s, f, r);
      ReviewLaw(s', f, r);
      assert ReviewEntry(s, r) == ReviewEntry(s', r);
    }
  }

  lemma {:induction false} UpdatedEvents(o: Owners, gone: set<ThreadId>, s: State, s': State, f: Fact)
    requires Agree(o, gone, s, s') && StateOwned(o, s) && Owned(o, f) && Stays(o, f, gone)
    requires TurnUpdateOf(s, f).Some?
    ensures Ingest(s, f).events == Ingest(s', f).events
  {
    SameUpdate(o, gone, s, s', f);
    SameEmission(o, gone, s, s', f);
    var u, u' := TurnUpdateOf(s, f).value, TurnUpdateOf(s', f).value;
    UpdateTurnEffect(u.base, u.turn, u.entry);
    UpdateTurnEffect(u'.base, u'.turn, u'.entry);
  }

  lemma {:induction false} FinishedEvents(o: Owners, gone: set<ThreadId>, s: State, s': State, f: Fact)
    requires Agree(o, gone, s, s') && StateOwned(o, s) && Owned(o, f) && Stays(o, f, gone)
    requires FinishedReviewOf(s, f).Some?
    ensures Ingest(s, f).events == Ingest(s', f).events
  {
    SameFinished(o, gone, s, s', f);
    FinishedAbout(o, s, f);
    var r, r' := FinishedReviewOf(s, f).value, FinishedReviewOf(s', f).value;
    ReviewContext(s, f);
    ReviewContext(s', f);
    SameContext(o, gone, s, s', None, r.review.thread);
  }

  /** A finished review is reported with the context of its thread, or not at all. */
  lemma {:induction false} ReviewContext(s: State, f: Fact)
    requires FinishedReviewOf(s, f).Some?
    ensures
      var r := FinishedReviewOf(s, f).value;
      var context := ThreadContext(s, r.review.thread);
      Ingest(s, f).events
      == if context.None? then [] else [ReviewEvent(r.review, context.value, r.reviewer, r.verdict, r.completedAt)]
  {
    var r := FinishedReviewOf(s, f).value;
    Reviews.FinishedBase(s, f);
    assert r.base == s.(pendingReviews := r.base.pendingReviews);
    EmittedReview(r.base, r.review, r.reviewer, r.verdict, r.completedAt);
    assert ThreadContext(r.base, r.review.thread) == ThreadContext(s, r.review.thread);
  }

  lemma {:induction false} EmittedReview(s: State, review: PendingReview, reviewer: Reviewer, verdict: Verdict, at: nat)
    ensures
      var context := ThreadContext(s, review.thread);
      EmitReview(s, review, reviewer, verdict, at).events
      == if context.None? then [] else [ReviewEvent(review, context.value, reviewer, verdict, at)]
  {
  }

  predicate Speaks(f: Fact)
  {
    f.ThreadResponse? || f.SubAgentThreadStarted? || f.ItemCompleted? || f.TurnSteerResponse? || f.ErrorResponse?
    || f.Compaction? || f.GuardianReview?
  }

  lemma {:induction false} PlainSilence(s: State, f: Fact)
    requires !Speaks(f)
    ensures IngestPlain(s, f).events == []
  {
  }

  lemma {:induction false} PlainEvents(o: Owners, gone: set<ThreadId>, s: State, s': State, f: Fact)
    requires Agree(o, gone, s, s') && StateOwned(o, s) && Owned(o, f) && Stays(o, f, gone)
    ensures IngestPlain(s, f).events == IngestPlain(s', f).events
  {
    if !Speaks(f) {
      PlainSilence(s, f);
      PlainSilence(s', f);
    } else if f.ItemCompleted? {
      ItemEvents(o, gone, s, s', f);
    } else if f.TurnSteerResponse? || f.ErrorResponse? {
      ReplyEvents(o, gone, s, s', f);
    } else if f.Compaction? || f.GuardianReview? {
      SameContext(o, gone, s, s', None, f.thread);
    }
  }

  lemma {:induction false} ItemEvents(o: Owners, gone: set<ThreadId>, s: State, s': State, f: Fact)
    requires Agree(o, gone, s, s') && Owned(o, f) && Stays(o, f, gone) && f.ItemCompleted?
    ensures CompleteItem(s, f.thread, f.turn, f.threadItem, f.completedAt).events
         == CompleteItem(s', f.thread, f.turn, f.threadItem, f.completedAt).events
  {
    if !f.threadItem.OtherItem? {
      var key := ItemKey(f.thread, f.turn, f.threadItem.id);
      assert TurnEntry(s, f.turn) == TurnEntry(s', f.turn);
      assert StartEntry(s, key) == StartEntry(s', key);
      assert Reviews.Lookup(s, key) == Reviews.Lookup(s', key);
      assert SummaryAt(s, key) == SummaryAt(s', key);
      SameContext(o, gone, s, s', None, f.thread);
      ItemEventsOf(s, f);
      ItemEventsOf(s', f);
    }
  }

  lemma {:induction false} ItemEventsOf(s: State, f: Fact)
    requires f.ItemCompleted? && !f.threadItem.OtherItem?
    ensures
      var key, context := ItemKey(f.thread, f.turn, f.threadItem.id), ThreadContext(s, f.thread);
      CompleteItem(s, f.thread, f.turn, f.threadItem, f.completedAt).events
      == if Reviews.Clears(s, f, key)
         then ToolEvents(key, f.threadItem, context.value, s.toolStarts[key], f.completedAt, SummaryAt(s, key))
         else []
  {
  }

  lemma {:induction false} ReplyEvents(o: Owners, gone: set<ThreadId>, s: State, s': State, f: Fact)
    requires Agree(o, gone, s, s') && StateOwned(o, s) && Owned(o, f) && Stays(o, f, gone)
    requires f.TurnSteerResponse? || f.ErrorResponse?
    ensures IngestPlain(s, f).events == IngestPlain(s', f).events
  {
    var key := RequestKey(f.connection, f.request);
    assert Emission.Lookup(s, key) == Emission.Lookup(s', key);
    if key in s.requests && s.requests[key].PendingSteer? {
      SameContext(o, gone, s, s', Some(f.connection), s.requests[key].thread);
      ReplyEventsOf(s, f);
      ReplyEventsOf(s', f);
    }
  }

  lemma {:induction false} ReplyEventsOf(s: State, f: Fact)
    requires f.TurnSteerResponse? || f.ErrorResponse?
    requires RequestKey(f.connection, f.request) in s.requests
    requires s.requests[RequestKey(f.connection, f.request)].PendingSteer?
    ensures
      var pending := s.requests[RequestKey(f.connection, f.request)];
      IngestPlain(s, f).events
      == SteerEvents(s, f.connection, pending, if f.TurnSteerResponse? then Some(f.turn) else None,
                     if f.TurnSteerResponse? then None else f.reason)
  {
  }

  lemma {:induction false} StayingEvents(o: Owners, gone: set<ThreadId>, s: State, s': State, f: Fact)
    requires Agree(o, gone, s, s') && StateOwned(o, s) && Owned(o, f) && Stays(o, f, gone)
    ensures Ingest(s, f).events == Ingest(s', f).events
  {
    SameUpdate(o, gone, s, s', f);
    SameFinished(o, gone, s, s', f);
    if TurnUpdateOf(s, f).Some? {
      UpdatedEvents(o, gone, s, s', f);
    } else if FinishedReviewOf(s, f).Some? {
      FinishedEvents(o, gone, s, s', f);
    } else {
      PlainEvents(o, gone, s, s', f);
    }
  }

  // ---- whole runs ----

  lemma {:induction false} RemainingAppend(a: seq<Event>, b: seq<Event>, gone: set<ThreadId>)
    ensures Remaining(a + b, gone) == Remaining(a, gone) + Remaining(b, gone)
    decreases |b|
  {
    if b == [] {
      assert a + b == a;
    } else {
      var n := |b| - 1;
      RemainingAppend(a, b[..n], gone);
      assert |a + b| - 1 == |a| + n && (a + b)[|a| + n] == b[n];
      assert (a + b)[..|a| + n] == a + b[..n];
    }
  }

  ghost predicate RunInv(o: Owners, gone: set<ThreadId>, full: Step, rest: Step)
  {
    StateOwned(o, full.state) && Agree(o, gone, full.state, rest.state) && Remaining(full.events, gone) == rest.events
  }

  lemma {:induction false} AgreeTransitive(o: Owners, gone: set<ThreadId>, s: State, t: State, u: State)
    requires Agree(o, gone, s, t) && Agree(o, gone, t, u)
    ensures Agree(o, gone, s, u)
  {
    forall key | o.request(key) !in gone ensures Emission.Lookup(s, key) == Emission.Lookup(u, key) {
      assert Emission.Lookup(s, key) == Emission.Lookup(t, key);
    }
    forall turn | o.turn(turn) !in gone ensures TurnEntry(s, turn) == TurnEntry(u, turn) {
      assert TurnEntry(s, turn) == TurnEntry(t, turn);
    }
    forall thread | thread !in gone ensures ThreadEntry(s, thread) == ThreadEntry(u, thread) {
      assert ThreadEntry(s, thread) == ThreadEntry(t, thread);
    }
    forall r | o.approval(r) !in gone ensures ReviewEntry(s, r) == ReviewEntry(u, r) {
      assert ReviewEntry(s, r) == ReviewEntry(t, r);
    }
  }

  lemma {:induction false} GoneStep(o: Owners, gone: set<ThreadId>, full: Step, rest: Step, f: Fact)
    requires RunInv(o, gone, full, rest) && Owned(o, f) && !Stays(o, f, gone)
    ensures RunInv(o, gone, Step(Ingest(full.state, f).state, full.events + Ingest(full.state, f).events), rest)
  {
    var step := Ingest(full.state, f);
    OwnedStep(o, full.state, f);
    GoneEntries(o, gone, full.state, f);
    AgreeTransitive(o, gone, step.state, full.state, rest.state);
    forall i | 0 <= i < |step.events| ensures ThreadOfEvent(step.events[i]) in gone {
      EventsAbout(o, full.state, f, i);
    }
    AllGone(step.events, gone);
    RemainingAppend(full.events, step.events, gone);
  }

  lemma {:induction false} StayingStep(o: Owners, gone: set<ThreadId>, full: Step, rest: Step, f: Fact)
    requires RunInv(o, gone, full, rest) && Owned(o, f) && Stays(o, f, gone) && Orphanless(f, gone)
    ensures RunInv(o, gone, Step(Ingest(full.state, f).state, full.events + Ingest(full.state, f).events),
                            Step(Ingest(rest.state, f).state, rest.events + Ingest(rest.state, f).events))
  {
    var step := Ingest(full.state, f);
    OwnedStep(o, full.state, f);
    StayingEntries(o, gone, full.state, rest.state, f);
    StayingEvents(o, gone, full.state, rest.state, f);
    forall i | 0 <= i < |step.events| ensures ThreadOfEvent(step.events[i]) !in gone {
      EventsAbout(o, full.state, f, i);
    }
    NoneGone(step.events, gone);
    RemainingAppend(full.events, step.events, gone);
  }

  lemma {:induction false} IsolationRun(o: Owners, facts: seq<Fact>, gone: set<ThreadId>)
    requires forall i | 0 <= i < |facts| :: Owned(o, facts[i]) && Orphanless(facts[i], gone)
    ensures RunInv(o, gone, Run(facts), Run(Without(o, facts, gone)))
  {
    if facts != [] {
      var n := |facts| - 1;
      var before := Without(o, facts[..n], gone);
      IsolationRun(o, facts[..n], gone);
      if Stays(o, facts[n], gone) {
        StayingStep(o, gone, Run(facts[..n]), Run(before), facts[n]);
        assert (before + [facts[n]])[..|before|] == before;
      } else {
        GoneStep(o, gone, Run(facts[..n]), Run(before), facts[n]);
        assert before + [] == before;
      }
    }
  }

  /**
   Non-interference.  If turn, request and approval ids are not shared between threads, and no
   thread that stays was started under one that goes, then deleting all facts of the threads in
   `gone` from any run leaves exactly the events of the other threads, in the same order.
   */
  lemma ThreadsDoNotInterfere(o: Owners, facts: seq<Fact>, gone: set<ThreadId>)
    requires forall i | 0 <= i < |facts| :: Owned(o, facts[i]) && Orphanless(facts[i], gone)
    ensures Run(Without(o, facts, gone)).events == Remaining(Run(facts).events, gone)
  {
    IsolationRun(o, facts, gone);
  }

  // ---- the condition on parents is needed ----

  /** A new subagent has a context exactly when its parent was known with a connection that was initialized. */
  lemma {:induction false} SubAgentHeardIffParentWas(s: State, thread: ThreadId, metadata: ThreadMetadata,
                                                     details: Payload)
    requires thread !in s.threads
    ensures
      var s' := Ingest(s, SubAgentThreadStarted(thread, metadata, details)).state;
      var parent := ParentConnection(s, metadata.parent);
      ThreadContext(s', thread).Some? <==> parent.Some? && parent.value in s.connections
  {
    RegisteringFact(s, SubAgentThreadStarted(thread, metadata, details));
  }

  /** A subagent is started and then compacts its context: the second is reported only if it has one. */
  lemma {:induction false} ChildRun(facts: seq<Fact>, child: ThreadId, metadata: ThreadMetadata, turn: TurnId)
    returns (events: seq<Event>)
    requires child !in Run(facts).state.threads
    ensures Run(facts + [SubAgentThreadStarted(child, metadata, 0)] + [Compaction(child, turn, 0)]).events
         == Run(facts).events + events
    ensures
      var parent := ParentConnection(Run(facts).state, metadata.parent);
      |events| == if parent.Some? && parent.value in Run(facts).state.connections then 2 else 1
    ensures forall i | 0 <= i < |events| :: ThreadOfEvent(events[i]) == child
  {
    var start := SubAgentThreadStarted(child, metadata, 0);
    var first := Ingest(Run(facts).state, start);
    var second := Ingest(first.state, Compaction(child, turn, 0));
    ChildSteps(Run(facts).state, child, metadata, turn);
    RunTwo(facts, start, Compaction(child, turn, 0));
    events := first.events + second.events;
  }

  lemma {:induction false} RunTwo(facts: seq<Fact>, f: Fact, g: Fact)
    ensures
      var first := Ingest(Run(facts).state, f);
      Run(facts + [f] + [g]).events == Run(facts).events + (first.events + Ingest(first.state, g).events)
  {
    RunSnoc(START, facts, f);
    RunSnoc(START, facts + [f], g);
  }

  lemma {:induction false} ChildSteps(s: State, child: ThreadId, metadata: ThreadMetadata, turn: TurnId)
    requires child !in s.threads
    ensures
      var parent := ParentConnection(s, metadata.parent);
      var first := Ingest(s, SubAgentThreadStarted(child, metadata, 0));
      var second := Ingest(first.state, Compaction(child, turn, 0));
      && |first.events| == 1 && ThreadOfEvent(first.events[0]) == child
      && |second.events| == (if parent.Some? && parent.value in s.connections then 1 else 0)
      && (second.events != [] ==> ThreadOfEvent(second.events[0]) == child)
  {
    var start := SubAgentThreadStarted(child, metadata, 0);
    SubAgentHeardIffParentWas(s, child, metadata, 0);
    RegisteringFact(s, start);
    CompactionStep(Ingest(s, start).state, child, turn);
  }

  lemma {:induction false} CompactionStep(s: State, thread: ThreadId, turn: TurnId)
    ensures
      var context := ThreadContext(s, thread);
      Ingest(s, Compaction(thread, turn, 0)).events
      == if context.None? then [] else [CompactionEvent(thread, turn, context.value, 0)]
  {
  }

  lemma {:induction false} WithoutSnoc(o: Owners, facts: seq<Fact>, f: Fact, gone: set<ThreadId>)
    ensures Without(o, facts + [f], gone) == Without(o, facts, gone) + if Stays(o, f, gone) then [f] else []
  {
    assert (facts + [f])[..|facts|] == facts;
  }

  /** A connection, and a thread on it. */
  lemma {:induction false} ParentRun(connection: ConnectionId, client: Payload, parent: ThreadId,
                                     metadata: ThreadMetadata)
    ensures
      var first, second := Initialize(connection, client), ThreadResponse(connection, parent, metadata, 0);
      && Run([first]) == Step(START.(connections := map[connection := client]), [])
      && Run([first] + [second]).state
         == START.(connections := map[connection := client],
                   threads := map[parent := ThreadState(Some(connection), Some(metadata))])
      && |Run([first] + [second]).events| == 1 && ThreadOfEvent(Run([first] + [second]).events[0]) == parent
  {
    var first, second := Initialize(connection, client), ThreadResponse(connection, parent, metadata, 0);
    RegisteringFact(START, first);
    RunSnoc(START, [], first);
    assert [] + [first] == [first];
    RegisteringFact(Run([first]).state, second);
    RunSnoc(START, [first], second);
  }

  /** Connect, register a parent, start a child under it, let the child compact its context. */
  function FamilyRun(connection: ConnectionId, client: Payload, parent: ThreadId, child: ThreadId,
                     metadata: ThreadMetadata, turn: TurnId): seq<Fact>
  {
    [Initialize(connection, client)] + [ThreadResponse(connection, parent, metadata, 0)]
    + [SubAgentThreadStarted(child, metadata.(parent := Some(parent)), 0)] + [Compaction(child, turn, 0)]
  }

  /** Deleting the parent's facts from such a run takes one of the child's two events away. */
  lemma {:induction false} ParentsMatter(o: Owners, connection: ConnectionId, client: Payload, parent: ThreadId,
                                         child: ThreadId, metadata: ThreadMetadata, turn: TurnId)
    requires parent != child
    ensures
      var facts := FamilyRun(connection, client, parent, child, metadata, turn);
      && |Run(Without(o, facts, {parent})).events| == 1
      && |Remaining(Run(facts).events, {parent})| == 2
  {
    FamilyHeard(connection, client, parent, child, metadata, turn);
    OrphanUnheard(o, connection, client, parent, child, metadata, turn);
  }

  lemma {:induction false} FamilyHeard(connection: ConnectionId, client: Payload, parent: ThreadId, child: ThreadId,
                                       metadata: ThreadMetadata, turn: TurnId)
    requires parent != child
    ensures |Remaining(Run(FamilyRun(connection, client, parent, child, metadata, turn)).events, {parent})| == 2
  {
    var first, second := Initialize(connection, client), ThreadResponse(connection, parent, metadata, 0);
    ParentRun(connection, client, parent, metadata);
    var events := ChildRun([first] + [second], child, metadata.(parent := Some(parent)), turn);
    ParentSilenced(Run([first] + [second]).events + events, parent, child);
  }

  lemma {:induction false} OrphanUnheard(o: Owners, connection: ConnectionId, client: Payload, parent: ThreadId,
                                         child: ThreadId, metadata: ThreadMetadata, turn: TurnId)
    requires parent != child
    ensures |Run(Without(o, FamilyRun(connection, client, parent, child, metadata, turn), {parent})).events| == 1
  {
    var first, second := Initialize(connection, client), ThreadResponse(connection, parent, metadata, 0);
    var orphaned := metadata.(parent := Some(parent));
    ParentRun(connection, client, parent, metadata);
    var _ := ChildRun([first], child, orphaned, turn);
    ParentDeleted(o, first, second, SubAgentThreadStarted(child, orphaned, 0), Compaction(child, turn, 0), parent);
  }

  lemma {:induction false} ParentDeleted(o: Owners, first: Fact, second: Fact, start: Fact, compaction: Fact,
                                         parent: ThreadId)
    requires Stays(o, first, {parent}) && !Stays(o, second, {parent})
    requires Stays(o, start, {parent}) && Stays(o, compaction, {parent})
    ensures Without(o, [first] + [second] + [start] + [compaction], {parent}) == [first] + [start] + [compaction]
  {
    WithoutSnoc(o, [], first, {parent});
    assert [] + [first] == [first];
    WithoutSnoc(o, [first], second, {parent});
    WithoutSnoc(o, [first] + [second], start, {parent});
    WithoutSnoc(o, [first] + [second] + [start], compaction, {parent});
  }

  lemma {:induction false} ParentSilenced(events: seq<Event>, parent: ThreadId, child: ThreadId)
    requires |events| == 3 && parent != child && ThreadOfEvent(events[0]) == parent
    requires ThreadOfEvent(events[1]) == child && ThreadOfEvent(events[2]) == child
    ensures |Remaining(events, {parent})| == 2
  {
    RemainingAppend(events[..1], events[1..], {parent});
    assert events == events[..1] + events[1..];
    AllGone(events[..1], {parent});
    NoneGone(events[1..], {parent});
  }
}
