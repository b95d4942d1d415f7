/**
 When the reducer does report: replies, reviews, tools, threads and contexts, each with the condition
 under which its event comes out and what the event says, told from the facts.
 */
module ReducerReports {
  import opened Options
  import opened Reducer
  import opened ReducerContext
  import opened ReducerApprovals
  import Emission = ReducerEmission
  import Isolation = ReducerIsolation
  import Reviews = ReducerReviews

  // ---- connections and threads ----

  /** The client behind a connection: the one its last initialization named. */
  function ClientOf(facts: seq<Fact>, connection: ConnectionId): Option<Payload>
  {
    if facts == [] then None
    else
      var last := facts[|facts| - 1];
      if last.Initialize? && last.connection == connection then Some(last.client)
      else ClientOf(facts[..|facts| - 1], connection)
  }

  lemma {:induction false} ClientsAreRecorded(facts: seq<Fact>, connection: ConnectionId)
    ensures
      var connections := Run(facts).state.connections;
      ClientOf(facts, connection) == if connection in connections then Some(connections[connection]) else None
  {
    if facts != [] {
      var n := |facts| - 1;
      ClientsAreRecorded(facts[..n], connection);
      if Registers(facts[n]) {
        RegisteringFact(Run(facts[..n]).state, facts[n]);
      } else {
        RegistryFrame(Run(facts[..n]).state, facts[n]);
      }
    }
  }

  /** The connection and metadata a known thread has. */
  datatype Thread = Thread(connection: Option<ConnectionId>, metadata: ThreadMetadata)

  /**
   A thread as the facts leave it: a response on an initialized connection has the last word, a subagent
   start fills in what is missing, with the parent's connection.
   */
  function ThreadIn(facts: seq<Fact>, thread: ThreadId): Option<Thread>
    decreases |facts|
  {
    if facts == [] then None
    else
      var before, last := facts[..|facts| - 1], facts[|facts| - 1];
      var known := ThreadIn(before, thread);
      if last.ThreadResponse? && last.thread == thread && ClientOf(before, last.connection).Some? then
        Some(Thread(Some(last.connection), last.metadata))
      else if last.SubAgentThreadStarted? && last.thread == thread then
        var parent := if last.metadata.parent.Some? then ThreadIn(before, last.metadata.parent.value) else None;
        var inherited := if parent.Some? then parent.value.connection else None;
        if known.None? then Some(Thread(inherited, last.metadata))
        else if known.value.connection.None? then Some(known.value.(connection := inherited))
        else known
      else known
  }

  predicate IsThread(entry: Option<ThreadState>, thread: Option<Thread>)
  {
    && (entry.Some? <==> thread.Some?)
    && (entry.Some? ==> entry.value == ThreadState(thread.value.connection, Some(thread.value.metadata)))
  }

  lemma {:induction false} ThreadsAreRecorded(facts: seq<Fact>, thread: ThreadId)
    ensures IsThread(Isolation.ThreadEntry(Run(facts).state, thread), ThreadIn(facts, thread))
    decreases |facts|
  {
    if facts != [] {
      var n := |facts| - 1;
      var s, f := Run(facts[..n]).state, facts[n];
      ThreadsAreRecorded(facts[..n], thread);
      if f.ThreadResponse? && f.thread == thread {
        ClientsAreRecorded(facts[..n], f.connection);
        RegisteringFact(s, f);
      } else if f.SubAgentThreadStarted? && f.thread == thread {
        if f.metadata.parent.Some? { ThreadsAreRecorded(facts[..n], f.metadata.parent.value); }
        RegisteringFact(s, f);
      } else {
        Isolation.ThreadLaw(s, f, thread);
      }
    }
  }

  /** Client and metadata for events about a thread, on a given connection. */
  function Heard(facts: seq<Fact>, connection: Option<ConnectionId>, thread: ThreadId): Option<Context>
  {
    if connection.None? || ClientOf(facts, connection.value).None? || ThreadIn(facts, thread).None? then None
    else Some(Context(ClientOf(facts, connection.value).value, ThreadIn(facts, thread).value.metadata))
  }

  /** The same, on the thread's own connection. */
  function HeardOf(facts: seq<Fact>, thread: ThreadId): Option<Context>
  {
    if ThreadIn(facts, thread).None? then None else Heard(facts, ThreadIn(facts, thread).value.connection, thread)
  }

  lemma {:induction false} ContextsAreHeard(facts: seq<Fact>, connection: Option<ConnectionId>, thread: ThreadId)
    ensures ContextFor(Run(facts).state, connection, thread) == Heard(facts, connection, thread)
  {
    if connection.Some? { ClientsAreRecorded(facts, connection.value); }
    ThreadsAreRecorded(facts, thread);
  }

  /** In every reachable state the context of a thread is what the facts say about it. */
  lemma {:induction false} ThreadContextIsHeard(facts: seq<Fact>, thread: ThreadId)
    ensures ThreadContext(Run(facts).state, thread) == HeardOf(facts, thread)
  {
    ThreadsAreRecorded(facts, thread);
    if ThreadIn(facts, thread).Some? { ContextsAreHeard(facts, ThreadIn(facts, thread).value.connection, thread); }
  }

  /** A thread response is reported if its connection is known, a subagent start always. */
  lemma {:induction false} ThreadsAreReported(facts: seq<Fact>, f: Fact)
    requires f.ThreadResponse? || f.SubAgentThreadStarted?
    ensures
      Ingest(Run(facts).state, f).events
      == if f.SubAgentThreadStarted? then [ThreadInitialized(f.thread, None, f.metadata, f.details)]
         else if ClientOf(facts, f.connection).None? then []
         else [ThreadInitialized(f.thread, ClientOf(facts, f.connection), f.metadata, f.details)]
  {
    RegisteringFact(Run(facts).state, f);
    if f.ThreadResponse? { ClientsAreRecorded(facts, f.connection); }
  }

  /** Compactions and guardian facts are reported exactly for threads with a context. */
  lemma {:induction false} ContextEventsAreReported(facts: seq<Fact>, f: Fact)
    requires f.Compaction? || f.GuardianReview?
    ensures
      var context := HeardOf(facts, f.thread);
      Ingest(Run(facts).state, f).events
      == if context.None? then []
         else if f.Compaction? then [CompactionEvent(f.thread, f.turn, context.value, f.details)]
         else [GuardianEvent(f.thread, f.turn, context.value, f.details)]
  {
    ThreadContextIsHeard(facts, f.thread);
  }

  // ---- steers ----

  /** A reply to a recorded steer request is reported exactly if client and thread are known, with all it says. */
  lemma {:induction false} SteerRepliesAreReported(facts: seq<Fact>, f: Fact)
    requires f.TurnSteerResponse? || f.ErrorResponse?
    ensures
      var j := Emission.Recorded(facts, RequestKey(f.connection, f.request));
      && (j.Some? ==> j.value < |facts|)
      && Ingest(Run(facts).state, f).events
         == if j.None? || !facts[j.value].TurnSteerRequest? then []
            else
              var asked := facts[j.value];
              var context := Heard(facts, Some(f.connection), asked.thread);
              if context.None? then []
              else [SteerEvent(asked.thread, context.value, asked.expectedTurn,
                               if f.TurnSteerResponse? then Some(f.turn) else None, asked.images,
                               if f.TurnSteerResponse? then None else f.reason, asked.createdAt)]
  {
    var key := RequestKey(f.connection, f.request);
    Emission.RequestsAreRecorded(facts, key);
    var j := Emission.Recorded(facts, key);
    if j.Some? {
      Emission.RecordedInRange(facts, key);
      if facts[j.value].TurnSteerRequest? { ContextsAreHeard(facts, Some(f.connection), facts[j.value].thread); }
    }
    SteerReplyEvents(Run(facts).state, f);
  }

  lemma {:induction false} SteerReplyEvents(s: State, f: Fact)
    requires f.TurnSteerResponse? || f.ErrorResponse?
    ensures
      var pending := Emission.Lookup(s, RequestKey(f.connection, f.request));
      Ingest(s, f).events
      == if pending.None? || pending.value.PendingStart? then []
         else
           var context := ContextFor(s, Some(f.connection), pending.value.thread);
           if context.None? then []
           else [SteerEvent(pending.value.thread, context.value, pending.value.expectedTurn,
                            if f.TurnSteerResponse? then Some(f.turn) else None, pending.value.images,
                            if f.TurnSteerResponse? then None else f.reason, pending.value.createdAt)]
  {
    assert Ingest(s, f) == IngestRequestFact(s, f);
  }

  // ---- reviews ----

  /** The verdict says what the reply or report was. */
  predicate Says(verdict: Verdict, f: Fact)
  {
    && (verdict.status == Approved <==> Reviews.Accepting(f))
    && (verdict.status == Denied <==> Reviews.Declining(f))
    && (verdict.status == TimedOut <==> f.GuardianReviewCompleted? && f.status == ReviewTimedOut)
    && (verdict.resolution == SessionApproval <==> Reviews.AcceptingForSession(f))
    && (verdict.resolution == ExecPolicyAmendment <==>
          f.CommandApprovalResponse? && f.commandDecision.AcceptWithExecpolicyAmendment?)
    && (verdict.resolution == NetworkPolicyAmendment <==>
          f.CommandApprovalResponse? && f.commandDecision.ApplyNetworkPolicyAmendment?)
  }

  lemma {:induction false} VerdictSays(f: Fact)
    requires Reviews.AnswersApproval(f) || GuardianDone(f)
    ensures Says(Reviews.VerdictIn(f), f)
  {
  }

  /** A reply to a recorded approval request is reported exactly if the request's thread is heard, once and in full. */
  lemma {:induction false} RepliesToApprovalsAreReported(facts: seq<Fact>, f: Fact)
    requires Reviews.AnswersApproval(f)
    ensures
      var j, events := AskedAt(facts, f.request), Ingest(Run(facts).state, f).events;
      if j.None? || HeardOf(facts, facts[j.value].thread).None? then events == []
      else
        && |events| == 1 && events[0].ReviewEvent? && events[0].reviewer == User
        && Describes(events[0].review, facts[j.value]) && Says(events[0].verdict, f)
        && events[0].context == HeardOf(facts, facts[j.value].thread).value
        && events[0].completedAt == f.answeredAt
  {
    var s, j := Run(facts).state, AskedAt(facts, f.request);
    PendingAreAsked(facts, f.request);
    VerdictSays(f);
    assert FinishedReviewOf(s, f) == Answered(s, f.request, Reviews.VerdictIn(f), f.answeredAt);
    if j.Some? {
      Isolation.ReviewContext(s, f);
      ThreadContextIsHeard(facts, facts[j.value].thread);
    } else {
      assert Ingest(s, f) == IngestPlain(s, f) == Step(s, []);
    }
  }

  /** A finished guardian review is reported exactly if its thread is heard. */
  lemma {:induction false} GuardianReportsAreReported(facts: seq<Fact>, f: Fact)
    requires f.GuardianReviewCompleted?
    ensures
      var events, row := Ingest(Run(facts).state, f).events, GuardianTable(f.action);
      if !GuardianDone(f) || HeardOf(facts, f.thread).None? then events == []
      else
        && |events| == 1 && events[0].ReviewEvent? && events[0].reviewer == Guardian
        && events[0].review == PendingReview(f.thread, f.turn, f.target, f.reviewId, row.subject, row.trigger,
                                             f.startedAt, row.permissions, row.network)
        && Says(events[0].verdict, f) && events[0].context == HeardOf(facts, f.thread).value
        && events[0].completedAt == f.completedAt
  {
    var s := Run(facts).state;
    ReportDescribed(f);
    if GuardianDone(f) {
      VerdictSays(f);
      Isolation.ReviewContext(s, f);
      ThreadContextIsHeard(facts, f.thread);
    } else {
      assert Ingest(s, f) == IngestPlain(s, f) == Step(s, []);
    }
  }

  // ---- tools ----

  /** When the item was started: the last usable start that no completion has used up. */
  function StartedAt(facts: seq<Fact>, key: ItemKey): Option<nat>
  {
    if facts == [] then None
    else
      var n := |facts| - 1;
      if Isolation.Starts(facts[n], key) then Some(facts[n].startedAt)
      else if Isolation.Ends(Run(facts[..n]).state, facts[n], key) then None
      else StartedAt(facts[..n], key)
  }

  lemma {:induction false} StartsAreRecorded(facts: seq<Fact>, key: ItemKey)
    ensures Isolation.StartEntry(Run(facts).state, key) == StartedAt(facts, key)
  {
    if facts != [] {
      var n := |facts| - 1;
      StartsAreRecorded(facts[..n], key);
      Isolation.StartLaw(Run(facts[..n]).state, facts[n], key);
    }
  }

  predicate StillRunning(item: Item)
  {
    match item
    case CommandExecution(_, status) => status == PatchInProgress
    case FileChange(_, status) => status == PatchInProgress
    case McpToolCall(_, status) => status == CallInProgress
    case DynamicToolCall(_, status) => status == CallInProgress
    case CollabAgentToolCall(_, status) => status == CallInProgress
    case _ => false
  }

  /** How the tool ended, from the item's own status. */
  predicate EndedAs(terminal: TerminalStatus, item: Item)
  {
    match item
    case CommandExecution(_, status) => EndedAsPatch(terminal, status)
    case FileChange(_, status) => EndedAsPatch(terminal, status)
    case McpToolCall(_, status) => terminal == if status == CallCompleted then Completed else Failed
    case DynamicToolCall(_, status) => terminal == if status == CallCompleted then Completed else Failed
    case CollabAgentToolCall(_, status) => terminal == if status == CallCompleted then Completed else Failed
    case WebSearch(_) => terminal == Completed
    case ImageGeneration(_, failed) => terminal == if failed then Failed else Completed
    case OtherItem => false
  }

  predicate EndedAsPatch(terminal: TerminalStatus, status: PatchStatus)
  {
    && (terminal == Completed <==> status == PatchCompleted)
    && (terminal == Rejected <==> status == PatchDeclined)
  }

  lemma {:induction false} TerminalTellsEnd(item: Item)
    requires !item.OtherItem?
    ensures Terminal(item).None? <==> StillRunning(item)
    ensures Terminal(item).Some? ==> EndedAs(Terminal(item).value, item)
  {
  }

  /**
   The completion of a tool item is reported exactly if its turn has an entry, it was started, both times
   are usable, its thread is heard and it is over; with its own start, end and status.
   */
  lemma {:induction false} CompletionsAreReported(facts: seq<Fact>, f: Fact)
    requires f.ItemCompleted? && !f.threadItem.OtherItem?
    ensures
      var s, key := Run(facts).state, ItemKey(f.thread, f.turn, f.threadItem.id);
      var started, context, events := StartedAt(facts, key), HeardOf(facts, f.thread), Ingest(s, f).events;
      if f.turn !in s.turns || started.None? || f.completedAt < 0 || context.None? || StillRunning(f.threadItem)
      then events == []
      else
        && |events| == 1 && events[0].ToolEvent? && events[0].key == key && events[0].context == context.value
        && events[0].toolStartedAt == started.value && events[0].completedAt == f.completedAt
        && EndedAs(events[0].terminal, f.threadItem)
  {
    var s, key := Run(facts).state, ItemKey(f.thread, f.turn, f.threadItem.id);
    StartsAreRecorded(facts, key);
    ThreadContextIsHeard(facts, f.thread);
    TerminalTellsEnd(f.threadItem);
    assert Ingest(s, f) == CompleteItem(s, f.thread, f.turn, f.threadItem, f.completedAt);
    Isolation.ItemEventsOf(s, f);
  }
}
