/**
 The analytics reducer (codex-rs/analytics/src/reducer.rs) as a function from a state and a fact to
 the next state and the events emitted.  Identifiers are opaque, compared for equality only;
 payloads that are only passed through are integers.  Skill, app, hook and plugin facts, which
 neither read nor write the state, are not modelled.
 */
module Reducer {
  import opened Options
  import DiffParser

  type Payload = int

  datatype ThreadId = ThreadId(raw: int)
  datatype TurnId = TurnId(raw: int)
  datatype ItemId = ItemId(raw: int)
  datatype ConnectionId = ConnectionId(raw: int)
  datatype RequestId = RequestId(raw: int)
  datatype RequestKey = RequestKey(connection: ConnectionId, request: RequestId)
  datatype ItemKey = ItemKey(thread: ThreadId, turn: TurnId, item: ItemId)

  // ---- items ----

  datatype PatchStatus = PatchInProgress | PatchCompleted | PatchFailed | PatchDeclined
  datatype CallStatus = CallInProgress | CallCompleted | CallFailed

  datatype Item =
    | CommandExecution(id: ItemId, patchStatus: PatchStatus)
    | FileChange(id: ItemId, patchStatus: PatchStatus)
    | McpToolCall(id: ItemId, callStatus: CallStatus)
    | DynamicToolCall(id: ItemId, callStatus: CallStatus)
    | CollabAgentToolCall(id: ItemId, callStatus: CallStatus)
    | WebSearch(id: ItemId)
    | ImageGeneration(id: ItemId, failed: bool)
    | OtherItem

  datatype TerminalStatus = Completed | Failed | Rejected

  /** The status a tool event reports; none while the item is still in progress. */
  function Terminal(item: Item): Option<TerminalStatus>
  {
    match item
    case CommandExecution(_, status) => PatchTerminal(status)
    case FileChange(_, status) => PatchTerminal(status)
    case McpToolCall(_, status) => CallTerminal(status)
    case DynamicToolCall(_, status) => CallTerminal(status)
    case CollabAgentToolCall(_, status) => CallTerminal(status)
    case WebSearch(_) => Some(Completed)
    case ImageGeneration(_, failed) => Some(if failed then Failed else Completed)
    case OtherItem => None
  }

  function PatchTerminal(status: PatchStatus): Option<TerminalStatus>
  {
    match status
    case PatchInProgress => None
    case PatchCompleted => Some(Completed)
    case PatchFailed => Some(Failed)
    case PatchDeclined => Some(Rejected)
  }

  function CallTerminal(status: CallStatus): Option<TerminalStatus>
  {
    match status
    case CallInProgress => None
    case CallCompleted => Some(Completed)
    case CallFailed => Some(Failed)
  }

  datatype ToolCounts = ToolCounts(
    total: nat,
    shellCommand: nat,
    fileChange: nat,
    mcpToolCall: nat,
    dynamicToolCall: nat,
    subagentToolCall: nat,
    webSearch: nat,
    imageGeneration: nat)

  const NO_TOOLS := ToolCounts(0, 0, 0, 0, 0, 0, 0, 0)

  /** `TurnToolCounts::record` */
  function Record(counts: ToolCounts, item: Item): ToolCounts
  {
    match item
    case CommandExecution(_, _) => counts.(shellCommand := counts.shellCommand + 1, total := counts.total + 1)
    case FileChange(_, _) => counts.(fileChange := counts.fileChange + 1, total := counts.total + 1)
    case McpToolCall(_, _) => counts.(mcpToolCall := counts.mcpToolCall + 1, total := counts.total + 1)
    case DynamicToolCall(_, _) => counts.(dynamicToolCall := counts.dynamicToolCall + 1, total := counts.total + 1)
    case CollabAgentToolCall(_, _) =>
      counts.(subagentToolCall := counts.subagentToolCall + 1, total := counts.total + 1)
    case WebSearch(_) => counts.(webSearch := counts.webSearch + 1, total := counts.total + 1)
    case ImageGeneration(_, _) => counts.(imageGeneration := counts.imageGeneration + 1, total := counts.total + 1)
    case OtherItem => counts
  }

  // ---- reviews ----

  datatype SubjectKind = CommandSubject | FileSubject | McpSubject | PermissionsSubject | NetworkSubject
  datatype Trigger = Initial | SandboxDenial | NetworkPolicyDenial | ExecveIntercept
  datatype Reviewer = Guardian | User
  datatype ReviewStatus = Approved | Denied | Aborted | TimedOut
  datatype Resolution = NoResolution | SessionApproval | ExecPolicyAmendment | NetworkPolicyAmendment
  datatype Verdict = Verdict(status: ReviewStatus, resolution: Resolution)

  datatype ApprovalOutcome =
    | Unknown
    | GuardianApproved | GuardianDenied | GuardianAborted
    | UserApproved | UserApprovedForSession | UserDenied | UserAborted

  datatype CommandDecision =
    | AcceptCommand | AcceptCommandForSession | AcceptWithExecpolicyAmendment
    | ApplyNetworkPolicyAmendment(allow: bool) | DeclineCommand | CancelCommand

  datatype FileDecision = AcceptFile | AcceptFileForSession | DeclineFile | CancelFile

  datatype GuardianStatus = ReviewInProgress | ReviewApproved | ReviewDenied | ReviewTimedOut | ReviewAborted

  datatype GuardianAction =
    | ReviewCommand | ReviewExecve | ReviewPatch | ReviewNetwork
    | ReviewPermissions(network: bool, fileSystem: bool) | ReviewMcpToolCall

  /** What a command approval request asks for. */
  datatype CommandApproval = CommandApproval(
    networkContext: bool,
    policyAmendments: bool,          // a non-empty list of proposed amendments
    additionalPermissions: bool,
    additionalNetwork: bool,         // `enabled` inside the additional permissions
    approvalId: bool)

  datatype PendingReview = PendingReview(
    thread: ThreadId,
    turn: TurnId,
    item: Option<ItemId>,
    reviewId: Payload,
    subject: SubjectKind,
    trigger: Trigger,
    startedAt: nat,
    additionalPermissions: bool,
    networkAccess: bool)

  datatype ReviewSummary = ReviewSummary(
    reviewCount: nat,
    guardianCount: nat,
    userCount: nat,
    outcome: Option<ApprovalOutcome>,
    additionalPermissions: bool,
    networkAccess: bool)

  const NO_REVIEWS := ReviewSummary(0, 0, 0, None, false, false)

  function CommandVerdict(decision: CommandDecision): Verdict
  {
    match decision
    case AcceptCommand => Verdict(Approved, NoResolution)
    case AcceptCommandForSession => Verdict(Approved, SessionApproval)
    case AcceptWithExecpolicyAmendment => Verdict(Approved, ExecPolicyAmendment)
    case ApplyNetworkPolicyAmendment(allow) => Verdict(if allow then Approved else Denied, NetworkPolicyAmendment)
    case DeclineCommand => Verdict(Denied, NoResolution)
    case CancelCommand => Verdict(Aborted, NoResolution)
  }

  function FileVerdict(decision: FileDecision): Verdict
  {
    match decision
    case AcceptFile => Verdict(Approved, NoResolution)
    case AcceptFileForSession => Verdict(Approved, SessionApproval)
    case DeclineFile => Verdict(Denied, NoResolution)
    case CancelFile => Verdict(Aborted, NoResolution)
  }

  function PermissionsVerdict(empty: bool, session: bool): Verdict
  {
    if empty then Verdict(Denied, NoResolution)
    else if session then Verdict(Approved, SessionApproval)
    else Verdict(Approved, NoResolution)
  }

  function GuardianVerdict(status: GuardianStatus): Option<Verdict>
  {
    match status
    case ReviewInProgress => None
    case ReviewApproved => Some(Verdict(Approved, NoResolution))
    case ReviewDenied => Some(Verdict(Denied, NoResolution))
    case ReviewTimedOut => Some(Verdict(TimedOut, NoResolution))
    case ReviewAborted => Some(Verdict(Aborted, NoResolution))
  }

  /** `final_approval_outcome` */
  function Outcome(reviewer: Reviewer, verdict: Verdict): ApprovalOutcome
  {
    match reviewer
    case Guardian =>
      (match verdict.status
       case Approved => GuardianApproved
       case Denied => GuardianDenied
       case _ => GuardianAborted)
    case User =>
      match verdict.status
      case Approved => if verdict.resolution == SessionApproval then UserApprovedForSession else UserApproved
      case Denied => UserDenied
      case _ => UserAborted
  }

  /** `item_review_summary_key` */
  function SummaryKey(review: PendingReview): Option<ItemKey>
  {
    if review.subject.PermissionsSubject? || review.subject.NetworkSubject? || review.item.None? then None
    else Some(ItemKey(review.thread, review.turn, review.item.value))
  }

  function GuardianSubject(action: GuardianAction): SubjectKind
  {
    match action
    case ReviewCommand => CommandSubject
    case ReviewExecve => CommandSubject
    case ReviewPatch => FileSubject
    case ReviewNetwork => NetworkSubject
    case ReviewPermissions(_, _) => PermissionsSubject
    case ReviewMcpToolCall => McpSubject
  }

  function GuardianTrigger(action: GuardianAction): Trigger
  {
    match action
    case ReviewCommand => Initial
    case ReviewExecve => ExecveIntercept
    case ReviewPatch => SandboxDenial
    case ReviewNetwork => NetworkPolicyDenial
    case ReviewPermissions(network, fileSystem) =>
      if network then NetworkPolicyDenial else if fileSystem then SandboxDenial else Initial
    case ReviewMcpToolCall => Initial
  }

  predicate GuardianAsksPermissions(action: GuardianAction)
  {
    action.ReviewPatch? || action.ReviewNetwork?
    || (action.ReviewPermissions? && (action.network || action.fileSystem))
  }

  predicate GuardianAsksNetwork(action: GuardianAction)
  {
    action.ReviewNetwork? || (action.ReviewPermissions? && action.network)
  }

  // ---- facts ----

  datatype ThreadMetadata = ThreadMetadata(
    session: Payload,
    source: Option<Payload>,
    mode: Payload,
    subagentSource: Option<Payload>,
    parent: Option<ThreadId>)

  datatype TurnStatus = TurnDone | TurnFailed | TurnInterrupted

  datatype Fact =
    | Initialize(connection: ConnectionId, client: Payload)
    | TurnStartRequest(connection: ConnectionId, request: RequestId, thread: ThreadId, images: nat)
    | TurnSteerRequest(connection: ConnectionId, request: RequestId, thread: ThreadId, expectedTurn: TurnId,
                       images: nat, createdAt: nat)
    | ThreadResponse(connection: ConnectionId, thread: ThreadId, metadata: ThreadMetadata, details: Payload)
    | TurnStartResponse(connection: ConnectionId, request: RequestId, turn: TurnId)
    | TurnSteerResponse(connection: ConnectionId, request: RequestId, turn: TurnId)
    | ErrorResponse(connection: ConnectionId, request: RequestId, reason: Option<Payload>)
    | CommandApprovalRequest(request: RequestId, thread: ThreadId, turn: TurnId, item: ItemId,
                             approval: CommandApproval, startedAt: int)
    | FileApprovalRequest(request: RequestId, thread: ThreadId, turn: TurnId, item: ItemId,
                          grantRoot: bool, startedAt: int)
    | PermissionsApprovalRequest(request: RequestId, thread: ThreadId, turn: TurnId, item: ItemId,
                                 network: bool, fileSystem: bool, startedAt: int)
    | CommandApprovalResponse(request: RequestId, commandDecision: CommandDecision, answeredAt: nat)
    | FileApprovalResponse(request: RequestId, fileDecision: FileDecision, answeredAt: nat)
    | PermissionsApprovalResponse(request: RequestId, empty: bool, session: bool, answeredAt: nat)
    | ServerRequestAborted(request: RequestId, answeredAt: nat)
    | ItemStarted(thread: ThreadId, turn: TurnId, threadItem: Item, startedAt: int)
    | ItemCompleted(thread: ThreadId, turn: TurnId, threadItem: Item, completedAt: int)
    | GuardianReviewCompleted(thread: ThreadId, turn: TurnId, target: Option<ItemId>, reviewId: Payload,
                              status: GuardianStatus, action: GuardianAction, startedAt: int, completedAt: int)
    | TurnStarted(turn: TurnId, turnStartedAt: Option<int>)
    | TurnDiffUpdated(thread: ThreadId, turn: TurnId, diff: string)
    | TurnCompleted(turn: TurnId, turnStatus: Option<TurnStatus>, error: Option<Payload>,
                    turnCompletedAt: Option<int>, duration: Option<int>)
    | SubAgentThreadStarted(thread: ThreadId, metadata: ThreadMetadata, details: Payload)
    | Compaction(thread: ThreadId, turn: TurnId, details: Payload)
    | GuardianReview(thread: ThreadId, turn: TurnId, details: Payload)
    | TurnResolvedConfig(turn: TurnId, thread: ThreadId, images: nat, config: Payload)
    | TurnTokenUsage(turn: TurnId, thread: ThreadId, usage: Payload)
    | TurnProfile(turn: TurnId, profile: Payload)
    | TurnCodexError(turn: TurnId, thread: ThreadId, codexError: Payload)
    | Ignored

  // ---- events ----

  datatype Context = Context(client: Payload, metadata: ThreadMetadata)

  datatype Event =
    | ThreadInitialized(thread: ThreadId, client: Option<Payload>, metadata: ThreadMetadata, details: Payload)
    | GuardianEvent(thread: ThreadId, turn: TurnId, context: Context, details: Payload)
    | CompactionEvent(thread: ThreadId, turn: TurnId, context: Context, details: Payload)
    | TurnEvent(thread: ThreadId, turn: TurnId, context: Context, images: nat, config: Payload, profile: Payload,
                completed: CompletedTurn, startedAt: Option<nat>, tokenUsage: Option<Payload>,
                codexError: Option<Payload>, steerCount: nat, tools: ToolCounts)
    | AcceptedLines(thread: ThreadId, turn: TurnId, config: Payload, added: nat, deleted: nat)
    | SteerEvent(thread: ThreadId, context: Context, expectedTurn: TurnId, acceptedTurn: Option<TurnId>,
                 images: nat, reason: Option<Payload>, createdAt: nat)
    | ReviewEvent(review: PendingReview, context: Context, reviewer: Reviewer, verdict: Verdict, completedAt: nat)
    | ToolEvent(key: ItemKey, context: Context, terminal: TerminalStatus, toolStartedAt: nat, completedAt: nat,
                reviewCount: nat, guardianCount: nat, userCount: nat, outcome: ApprovalOutcome,
                additionalPermissions: bool, networkAccess: bool)

  // ---- state ----

  datatype RequestState =
    | PendingStart(thread: ThreadId, images: nat)
    | PendingSteer(thread: ThreadId, expectedTurn: TurnId, images: nat, createdAt: nat)

  datatype CompletedTurn = CompletedTurn(status: Option<TurnStatus>, error: Option<Payload>,
                                         completedAt: nat, duration: Option<nat>)

  datatype TurnState = TurnState(
    connection: Option<ConnectionId>,
    thread: Option<ThreadId>,
    images: Option<nat>,
    config: Option<Payload>,
    startedAt: Option<nat>,
    tokenUsage: Option<Payload>,
    profile: Option<Payload>,
    completed: Option<CompletedTurn>,
    codexError: Option<Payload>,
    latestDiff: Option<string>,
    steerCount: nat,
    tools: ToolCounts)

  const NEW_TURN := TurnState(None, None, None, None, None, None, None, None, None, None, 0, NO_TOOLS)

  datatype ThreadState = ThreadState(connection: Option<ConnectionId>, metadata: Option<ThreadMetadata>)

  const NEW_THREAD := ThreadState(None, None)

  datatype State = State(
    requests: map<RequestKey, RequestState>,
    turns: map<TurnId, TurnState>,
    connections: map<ConnectionId, Payload>,
    threads: map<ThreadId, ThreadState>,
    toolStarts: map<ItemKey, nat>,
    pendingReviews: map<RequestId, PendingReview>,
    summaries: map<ItemKey, ReviewSummary>)

  const START := State(map[], map[], map[], map[], map[], map[], map[])

  datatype Step = Step(state: State, events: seq<Event>)

  // ---- helpers ----

  /** `u64::try_from` on a signed timestamp. */
  function NonNegative(n: int): Option<nat>
  {
    if n >= 0 then Some(n) else None
  }

  function NonNegativeOf(n: Option<int>): Option<nat>
  {
    if n.Some? then NonNegative(n.value) else None
  }

  function TurnAt(s: State, turn: TurnId): TurnState
  {
    if turn in s.turns then s.turns[turn] else NEW_TURN
  }

  function SetTurn(s: State, turn: TurnId, t: TurnState): State
  {
    s.(turns := s.turns[turn := t])
  }

  function MetadataOf(s: State, thread: ThreadId): Option<ThreadMetadata>
  {
    if thread in s.threads then s.threads[thread].metadata else None
  }

  /** The client behind a connection, paired with the metadata of a thread. */
  function ContextFor(s: State, connection: Option<ConnectionId>, thread: ThreadId): Option<Context>
  {
    if connection.Some? && connection.value in s.connections && MetadataOf(s, thread).Some?
    then Some(Context(s.connections[connection.value], MetadataOf(s, thread).value))
    else None
  }

  /** `thread_context_or_warn` */
  function ThreadContext(s: State, thread: ThreadId): Option<Context>
  {
    if thread in s.threads then ContextFor(s, s.threads[thread].connection, thread) else None
  }

  // ---- turns ----

  predicate Ready(t: TurnState)
  {
    t.thread.Some? && t.images.Some? && t.config.Some? && t.profile.Some? && t.completed.Some?
  }

  function TurnEventOf(turn: TurnId, t: TurnState, context: Context): Event
    requires Ready(t)
  {
    TurnEvent(t.thread.value, turn, context, t.images.value, t.config.value, t.profile.value, t.completed.value,
              t.startedAt, t.tokenUsage, t.codexError, t.steerCount, t.tools)
  }

  /** A stand-in for `char::is_alphanumeric`: the counts do not depend on it. */
  predicate NoLetter(c: char)
  {
    false
  }

  function DiffCounts(diff: string): DiffParser.Summary
  {
    DiffParser.Parse(diff, NoLetter)
  }

  function AcceptedLineEvents(turn: TurnId, t: TurnState): seq<Event>
    requires Ready(t)
  {
    if t.latestDiff.None? then []
    else
      var counts := DiffCounts(t.latestDiff.value);
      if counts.added == 0 && counts.deleted == 0 then []
      else [AcceptedLines(t.thread.value, turn, t.config.value, counts.added, counts.deleted)]
  }

  /** `maybe_emit_turn_event` */
  function MaybeEmitTurn(s: State, turn: TurnId): Step
  {
    if turn !in s.turns || !Ready(s.turns[turn]) then Step(s, [])
    else
      var t := s.turns[turn];
      var context := ContextFor(s, t.connection, t.thread.value);
      if context.None? then Step(s, [])
      else Step(s.(turns := s.turns - {turn}),
                [TurnEventOf(turn, t, context.value)] + AcceptedLineEvents(turn, t))
  }

  function UpdateTurn(s: State, turn: TurnId, t: TurnState): Step
  {
    MaybeEmitTurn(SetTurn(s, turn, t), turn)
  }

  // ---- requests ----

  function SteerEvents(s: State, connection: ConnectionId, pending: RequestState,
                       acceptedTurn: Option<TurnId>, reason: Option<Payload>): seq<Event>
    requires pending.PendingSteer?
  {
    var context := ContextFor(s, Some(connection), pending.thread);
    if context.None? then []
    else [SteerEvent(pending.thread, context.value, pending.expectedTurn, acceptedTurn, pending.images, reason,
                     pending.createdAt)]
  }

  function SteerResponse(s: State, key: RequestKey, turn: TurnId): Step
  {
    if key !in s.requests then Step(s, [])
    else
      var s' := s.(requests := s.requests - {key});
      var pending := s.requests[key];
      if pending.PendingStart? then Step(s', [])
      else
        var s'' := if turn in s.turns
                   then SetTurn(s', turn, s.turns[turn].(steerCount := s.turns[turn].steerCount + 1)) else s';
        Step(s'', SteerEvents(s'', key.connection, pending, Some(turn), None))
  }

  function RequestError(s: State, key: RequestKey, reason: Option<Payload>): Step
  {
    if key !in s.requests then Step(s, [])
    else
      var s' := s.(requests := s.requests - {key});
      var pending := s.requests[key];
      Step(s', if pending.PendingSteer? then SteerEvents(s', key.connection, pending, None, reason) else [])
  }

  // ---- threads ----

  function RegisterThread(s: State, connection: ConnectionId, thread: ThreadId,
                          metadata: ThreadMetadata, details: Payload): Step
  {
    if connection !in s.connections then Step(s, [])
    else Step(s.(threads := s.threads[thread := ThreadState(Some(connection), Some(metadata))]),
              [ThreadInitialized(thread, Some(s.connections[connection]), metadata, details)])
  }

  function ParentConnection(s: State, parent: Option<ThreadId>): Option<ConnectionId>
  {
    if parent.Some? && parent.value in s.threads then s.threads[parent.value].connection else None
  }

  /** `ingest_subagent_thread_started`: first metadata wins, and the connection is the parent's unless known. */
  function StartSubAgent(s: State, thread: ThreadId, metadata: ThreadMetadata, details: Payload): Step
  {
    var t := if thread in s.threads then s.threads[thread] else NEW_THREAD;
    var t' := ThreadState(if t.connection.None? then ParentConnection(s, metadata.parent) else t.connection,
                          if t.metadata.None? then Some(metadata) else t.metadata);
    Step(s.(threads := s.threads[thread := t']), [ThreadInitialized(thread, None, metadata, details)])
  }

  // ---- reviews ----

  /** The review an approval request asks for; a negative timestamp means it is not recorded. */
  function RequestedReview(f: Fact): Option<PendingReview>
  {
    match f
    case CommandApprovalRequest(request, thread, turn, item, a, startedAt) =>
      if startedAt < 0 then None
      else
        var network := a.networkContext || a.policyAmendments || (a.additionalPermissions && a.additionalNetwork);
        var trigger := if a.approvalId then ExecveIntercept
                       else if network then NetworkPolicyDenial
                       else if a.additionalPermissions then SandboxDenial
                       else Initial;
        Some(PendingReview(thread, turn, Some(item), request.raw,
                           if a.networkContext then NetworkSubject else CommandSubject,
                           trigger, startedAt, a.additionalPermissions, network))
    case FileApprovalRequest(request, thread, turn, item, grantRoot, startedAt) =>
      if startedAt < 0 then None
      else Some(PendingReview(thread, turn, Some(item), request.raw, FileSubject,
                              if grantRoot then SandboxDenial else Initial, startedAt, grantRoot, false))
    case PermissionsApprovalRequest(request, thread, turn, item, network, fileSystem, startedAt) =>
      if startedAt < 0 then None
      else Some(PendingReview(thread, turn, Some(item), request.raw, PermissionsSubject,
                              if network then NetworkPolicyDenial else if fileSystem then SandboxDenial else Initial,
                              startedAt, network || fileSystem, network))
    case _ => None
  }

  function RecordReview(s: State, f: Fact, request: RequestId): Step
  {
    if RequestedReview(f).None? then Step(s, [])
    else Step(s.(pendingReviews := s.pendingReviews[request := RequestedReview(f).value]), [])
  }

  function SummaryAt(s: State, key: ItemKey): ReviewSummary
  {
    if key in s.summaries then s.summaries[key] else NO_REVIEWS
  }

  /** `record_item_review_summary` */
  function Summarise(summary: ReviewSummary, reviewer: Reviewer, verdict: Verdict, review: PendingReview): ReviewSummary
  {
    ReviewSummary(summary.reviewCount + 1,
                  summary.guardianCount + (if reviewer == Guardian then 1 else 0),
                  summary.userCount + (if reviewer == User then 1 else 0),
                  Some(Outcome(reviewer, verdict)),
                  summary.additionalPermissions || review.additionalPermissions,
                  summary.networkAccess || review.networkAccess)
  }

  /** `emit_review_event` */
  function EmitReview(s: State, review: PendingReview, reviewer: Reviewer, verdict: Verdict, completedAt: nat): Step
  {
    var key := SummaryKey(review);
    var s' := if key.None? then s
              else s.(summaries := s.summaries[key.value :=
                        Summarise(SummaryAt(s, key.value), reviewer, verdict, review)]);
    var context := ThreadContext(s', review.thread);
    Step(s', if context.None? then [] else [ReviewEvent(review, context.value, reviewer, verdict, completedAt)])
  }

  /** The review a guardian reports, once it is over and both timestamps are usable. */
  function ReportedReview(f: Fact): Option<PendingReview>
    requires f.GuardianReviewCompleted?
  {
    if GuardianVerdict(f.status).None? || f.startedAt < 0 || f.completedAt < 0 then None
    else Some(PendingReview(f.thread, f.turn, f.target, f.reviewId, GuardianSubject(f.action),
                            GuardianTrigger(f.action), f.startedAt, GuardianAsksPermissions(f.action),
                            GuardianAsksNetwork(f.action)))
  }

  // ---- items ----

  function StartItem(s: State, thread: ThreadId, turn: TurnId, item: Item, startedAt: int): Step
  {
    if item.OtherItem? || startedAt < 0 then Step(s, [])
    else Step(s.(toolStarts := s.toolStarts[ItemKey(thread, turn, item.id) := startedAt]), [])
  }

  function ToolEvents(key: ItemKey, item: Item, context: Context, startedAt: nat, completedAt: nat,
                      summary: ReviewSummary): seq<Event>
  {
    if Terminal(item).None? then []
    else [ToolEvent(key, context, Terminal(item).value, startedAt, completedAt,
                    summary.reviewCount, summary.guardianCount, summary.userCount,
                    if summary.outcome.Some? then summary.outcome.value else Unknown,
                    summary.additionalPermissions, summary.networkAccess)]
  }

  function CompleteItem(s: State, thread: ThreadId, turn: TurnId, item: Item, completedAt: int): Step
  {
    if item.OtherItem? || turn !in s.turns then Step(s, [])
    else
      var key := ItemKey(thread, turn, item.id);
      var s1 := SetTurn(s, turn, s.turns[turn].(tools := Record(s.turns[turn].tools, item)));
      if key !in s.toolStarts then Step(s1, [])
      else
        var s2 := s1.(toolStarts := s.toolStarts - {key});
        var context := ThreadContext(s2, thread);
        if completedAt < 0 || context.None? then Step(s2, [])
        else Step(s2.(summaries := s.summaries - {key}),
                  ToolEvents(key, item, context.value, s.toolStarts[key], completedAt, SummaryAt(s, key)))
  }

  // ---- `ingest` ----

  /** A turn entry to be stored in `base` and then, if it is complete, reported. */
  datatype TurnUpdate = TurnUpdate(base: State, turn: TurnId, entry: TurnState)

  /** The facts that end in `maybe_emit_turn_event`. */
  function TurnUpdateOf(s: State, f: Fact): Option<TurnUpdate>
  {
    match f
    case TurnStartResponse(connection, request, turn) =>
      var key := RequestKey(connection, request);
      if key !in s.requests || s.requests[key].PendingSteer? then None
      else Some(TurnUpdate(s.(requests := s.requests - {key}), turn,
                           TurnAt(s, turn).(connection := Some(connection), thread := Some(s.requests[key].thread),
                                            images := Some(s.requests[key].images))))
    case TurnCompleted(turn, status, error, completedAt, duration) =>
      var at := NonNegativeOf(completedAt);
      var completed := CompletedTurn(status, error, if at.Some? then at.value else 0, NonNegativeOf(duration));
      Some(TurnUpdate(s, turn, TurnAt(s, turn).(completed := Some(completed))))
    case TurnResolvedConfig(turn, thread, images, config) =>
      Some(TurnUpdate(s, turn,
                      TurnAt(s, turn).(thread := Some(thread), images := Some(images), config := Some(config))))
    case TurnTokenUsage(turn, thread, usage) =>
      Some(TurnUpdate(s, turn, TurnAt(s, turn).(thread := Some(thread), tokenUsage := Some(usage))))
    case TurnProfile(turn, profile) => Some(TurnUpdate(s, turn, TurnAt(s, turn).(profile := Some(profile))))
    case _ => None
  }

  /** A review that is over, to be counted and reported in `base`. */
  datatype FinishedReview = FinishedReview(base: State, review: PendingReview, reviewer: Reviewer,
                                           verdict: Verdict, completedAt: nat)

  function Answered(s: State, request: RequestId, verdict: Verdict, completedAt: nat): Option<FinishedReview>
  {
    if request !in s.pendingReviews then None
    else Some(FinishedReview(s.(pendingReviews := s.pendingReviews - {request}), s.pendingReviews[request], User,
                             verdict, completedAt))
  }

  /** The facts that end in `emit_review_event`. */
  function FinishedReviewOf(s: State, f: Fact): Option<FinishedReview>
  {
    match f
    case CommandApprovalResponse(request, decision, at) => Answered(s, request, CommandVerdict(decision), at)
    case FileApprovalResponse(request, decision, at) => Answered(s, request, FileVerdict(decision), at)
    case PermissionsApprovalResponse(request, empty, session, at) =>
      Answered(s, request, PermissionsVerdict(empty, session), at)
    case ServerRequestAborted(request, at) => Answered(s, request, Verdict(Aborted, NoResolution), at)
    case GuardianReviewCompleted(_, _, _, _, status, _, _, completedAt) =>
      if ReportedReview(f).None? then None
      else Some(FinishedReview(s, ReportedReview(f).value, Guardian, GuardianVerdict(status).value, completedAt))
    case _ => None
  }

  /** Client requests and the replies to them; a start response comes here when nothing was pending for it. */
  function IngestRequestFact(s: State, f: Fact): Step
  {
    match f
    case TurnStartRequest(connection, request, thread, images) =>
      Step(s.(requests := s.requests[RequestKey(connection, request) := PendingStart(thread, images)]), [])
    case TurnSteerRequest(connection, request, thread, expectedTurn, images, createdAt) =>
      Step(s.(requests := s.requests[RequestKey(connection, request) :=
                PendingSteer(thread, expectedTurn, images, createdAt)]), [])
    case TurnStartResponse(connection, request, _) =>
      Step(s.(requests := s.requests - {RequestKey(connection, request)}), [])
    case TurnSteerResponse(connection, request, turn) => SteerResponse(s, RequestKey(connection, request), turn)
    case ErrorResponse(connection, request, reason) => RequestError(s, RequestKey(connection, request), reason)
    case _ => Step(s, [])
  }

  /** Items and the approval requests made for them. */
  function IngestItemFact(s: State, f: Fact): Step
  {
    match f
    case CommandApprovalRequest(request, _, _, _, _, _) => RecordReview(s, f, request)
    case FileApprovalRequest(request, _, _, _, _, _) => RecordReview(s, f, request)
    case PermissionsApprovalRequest(request, _, _, _, _, _, _) => RecordReview(s, f, request)
    case ItemStarted(thread, turn, item, startedAt) => StartItem(s, thread, turn, item, startedAt)
    case ItemCompleted(thread, turn, item, completedAt) => CompleteItem(s, thread, turn, item, completedAt)
    case _ => Step(s, [])
  }

  /** Facts that only write to the entry of a turn. */
  function IngestTurnFact(s: State, f: Fact): Step
  {
    match f
    case TurnStarted(turn, startedAt) =>
      Step(SetTurn(s, turn, TurnAt(s, turn).(startedAt := NonNegativeOf(startedAt))), [])
    case TurnDiffUpdated(thread, turn, diff) =>
      Step(SetTurn(s, turn, TurnAt(s, turn).(thread := Some(thread), latestDiff := Some(diff))), [])
    case TurnCodexError(turn, thread, error) =>
      var t := TurnAt(s, turn);
      Step(SetTurn(s, turn, t.(thread := if t.thread.None? then Some(thread) else t.thread,
                               codexError := Some(error))), [])
    case _ => Step(s, [])
  }

  /** Connections, threads, and events that only need the context of a thread. */
  function IngestThreadFact(s: State, f: Fact): Step
  {
    match f
    case Initialize(connection, client) => Step(s.(connections := s.connections[connection := client]), [])
    case ThreadResponse(connection, thread, metadata, details) =>
      RegisterThread(s, connection, thread, metadata, details)
    case SubAgentThreadStarted(thread, metadata, details) => StartSubAgent(s, thread, metadata, details)
    case Compaction(thread, turn, details) =>
      var context := ThreadContext(s, thread);
      Step(s, if context.None? then [] else [CompactionEvent(thread, turn, context.value, details)])
    case GuardianReview(thread, turn, details) =>
      var context := ThreadContext(s, thread);
      Step(s, if context.None? then [] else [GuardianEvent(thread, turn, context.value, details)])
    case _ => Step(s, [])
  }

  datatype Family = RequestFamily | ItemFamily | TurnFamily | ThreadFamily

  function FamilyOf(f: Fact): Family
  {
    match f
    case TurnStartRequest(_, _, _, _) => RequestFamily
    case TurnSteerRequest(_, _, _, _, _, _) => RequestFamily
    case TurnStartResponse(_, _, _) => RequestFamily
    case TurnSteerResponse(_, _, _) => RequestFamily
    case ErrorResponse(_, _, _) => RequestFamily
    case CommandApprovalRequest(_, _, _, _, _, _) => ItemFamily
    case FileApprovalRequest(_, _, _, _, _, _) => ItemFamily
    case PermissionsApprovalRequest(_, _, _, _, _, _, _) => ItemFamily
    case ItemStarted(_, _, _, _) => ItemFamily
    case ItemCompleted(_, _, _, _) => ItemFamily
    case TurnStarted(_, _) => TurnFamily
    case TurnDiffUpdated(_, _, _) => TurnFamily
    case TurnCodexError(_, _, _) => TurnFamily
    case _ => ThreadFamily
  }

  /** All other facts, and those above when they find nothing to act on. */
  function IngestPlain(s: State, f: Fact): Step
  {
    match FamilyOf(f)
    case RequestFamily => IngestRequestFact(s, f)
    case ItemFamily => IngestItemFact(s, f)
    case TurnFamily => IngestTurnFact(s, f)
    case ThreadFamily => IngestThreadFact(s, f)
  }

  function Ingest(s: State, f: Fact): Step
  {
    var update, finished := TurnUpdateOf(s, f), FinishedReviewOf(s, f);
    if update.Some? then UpdateTurn(update.value.base, update.value.turn, update.value.entry)
    else if finished.Some? then
      EmitReview(finished.value.base, finished.value.review, finished.value.reviewer, finished.value.verdict,
                 finished.value.completedAt)
    else IngestPlain(s, f)
  }

  /** A run from a given state. */
  function RunFrom(start: State, facts: seq<Fact>): Step
  {
    if facts == [] then Step(start, [])
    else
      var before := RunFrom(start, facts[..|facts| - 1]);
      var step := Ingest(before.state, facts[|facts| - 1]);
      Step(step.state, before.events + step.events)
  }

  /** A whole run from the empty reducer. */
  function Run(facts: seq<Fact>): Step
  {
    RunFrom(START, facts)
  }
}
