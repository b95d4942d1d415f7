/**
 The reducer as the source has it: an object with seven maps that `ingest` updates in place, and a
 list of events it appends to.  Every method is proved against the function of module Reducer.
 */
module ReducerClass {
  import opened Options
  import opened Reducer
  import DiffParser

  predicate IsNotification(f: Fact)
  {
    f.ItemStarted? || f.ItemCompleted? || f.GuardianReviewCompleted? || f.TurnStarted? || f.TurnDiffUpdated?
    || f.TurnCompleted?
  }

  predicate IsCustom(f: Fact)
  {
    f.SubAgentThreadStarted? || f.Compaction? || f.GuardianReview? || f.TurnResolvedConfig? || f.TurnTokenUsage?
    || f.TurnProfile? || f.TurnCodexError?
  }

  predicate IsServerRequest(f: Fact)
  {
    f.CommandApprovalRequest? || f.FileApprovalRequest? || f.PermissionsApprovalRequest?
  }

  predicate IsServerResponse(f: Fact)
  {
    f.CommandApprovalResponse? || f.FileApprovalResponse? || f.PermissionsApprovalResponse?
    || f.ServerRequestAborted?
  }

  class AnalyticsReducer {
    var requests: map<RequestKey, RequestState>
    var turns: map<TurnId, TurnState>
    var connections: map<ConnectionId, Payload>
    var threads: map<ThreadId, ThreadState>
    var toolItemsStartedAtMs: map<ItemKey, nat>
    var pendingReviews: map<RequestId, PendingReview>
    var itemReviewSummaries: map<ItemKey, ReviewSummary>

    function Model(): State
      reads this
    {
      State(requests, turns, connections, threads, toolItemsStartedAtMs, pendingReviews, itemReviewSummaries)
    }

    constructor ()
      ensures Model() == START
    {
      requests, turns, connections, threads := map[], map[], map[], map[];
      toolItemsStartedAtMs, pendingReviews, itemReviewSummaries := map[], map[], map[];
    }

    method Ingest(input: Fact, out: seq<Event>) returns (out': seq<Event>)
      modifies this
      ensures Model() == Reducer.Ingest(old(Model()), input).state
      ensures out' == out + Reducer.Ingest(old(Model()), input).events
    {
      if IsNotification(input) {
        out' := IngestNotification(input, out);
      } else if IsCustom(input) {
        out' := IngestCustom(input, out);
      } else if IsServerRequest(input) {
        out' := out;
        IngestServerRequest(input);
      } else if IsServerResponse(input) {
        out' := IngestServerResponse(input, out);
      } else {
        out' := IngestClientFact(input, out);
      }
    }

    /** Initialization, client requests and the replies to them. */
    method IngestClientFact(input: Fact, out: seq<Event>) returns (out': seq<Event>)
      requires !IsNotification(input) && !IsCustom(input) && !IsServerRequest(input) && !IsServerResponse(input)
      modifies this
      ensures Model() == Reducer.Ingest(old(Model()), input).state
      ensures out' == out + Reducer.Ingest(old(Model()), input).events
    {
      out' := out;
      match input
      case Initialize(connection, client) => connections := connections[connection := client];
      case TurnStartRequest(connection, request, thread, images) =>
        requests := requests[RequestKey(connection, request) := PendingStart(thread, images)];
      case TurnSteerRequest(connection, request, thread, expectedTurn, images, createdAt) =>
        requests := requests[RequestKey(connection, request) := PendingSteer(thread, expectedTurn, images, createdAt)];
      case ThreadResponse(connection, thread, metadata, details) =>
        out' := EmitThreadInitialized(connection, thread, metadata, details, out);
      case TurnStartResponse(connection, request, turn) =>
        out' := IngestTurnStartResponse(connection, request, turn, out);
      case TurnSteerResponse(connection, request, turn) =>
        out' := IngestTurnSteerResponse(RequestKey(connection, request), turn, out);
      case ErrorResponse(connection, request, reason) =>
        out' := IngestErrorResponse(RequestKey(connection, request), reason, out);
      case Ignored =>
    }

    /** `ingest_notification` */
    method IngestNotification(input: Fact, out: seq<Event>) returns (out': seq<Event>)
      requires IsNotification(input)
      modifies this
      ensures Model() == Reducer.Ingest(old(Model()), input).state
      ensures out' == out + Reducer.Ingest(old(Model()), input).events
    {
      match input
      case ItemStarted(thread, turn, item, startedAt) =>
        out' := IngestItemStarted(thread, turn, item, startedAt, out);
      case ItemCompleted(thread, turn, item, completedAt) =>
        out' := IngestItemCompleted(thread, turn, item, completedAt, out);
      case GuardianReviewCompleted(_, _, _, _, _, _, _, _) => out' := IngestGuardianReviewCompleted(input, out);
      case TurnStarted(turn, startedAt) => out' := IngestTurnStarted(turn, startedAt, out);
      case TurnDiffUpdated(thread, turn, diff) => out' := IngestTurnDiffUpdated(thread, turn, diff, out);
      case TurnCompleted(turn, status, error, completedAt, duration) =>
        out' := IngestTurnCompleted(turn, status, error, completedAt, duration, out);
    }

    method IngestItemStarted(thread: ThreadId, turn: TurnId, item: Item, startedAt: int, out: seq<Event>)
      returns (out': seq<Event>)
      modifies this
      ensures Model() == Reducer.Ingest(old(Model()), ItemStarted(thread, turn, item, startedAt)).state
      ensures out' == out + Reducer.Ingest(old(Model()), ItemStarted(thread, turn, item, startedAt)).events
    {
      out' := out;
      if !item.OtherItem? && startedAt >= 0 {
        toolItemsStartedAtMs := toolItemsStartedAtMs[ItemKey(thread, turn, item.id) := startedAt];
      }
    }

    method IngestTurnStarted(turn: TurnId, startedAt: Option<int>, out: seq<Event>) returns (out': seq<Event>)
      modifies this
      ensures Model() == Reducer.Ingest(old(Model()), TurnStarted(turn, startedAt)).state
      ensures out' == out + Reducer.Ingest(old(Model()), TurnStarted(turn, startedAt)).events
    {
      out' := out;
      StoreTurn(turn, TurnAt(Model(), turn).(startedAt := NonNegativeOf(startedAt)));
    }

    method IngestTurnDiffUpdated(thread: ThreadId, turn: TurnId, diff: string, out: seq<Event>)
      returns (out': seq<Event>)
      modifies this
      ensures Model() == Reducer.Ingest(old(Model()), TurnDiffUpdated(thread, turn, diff)).state
      ensures out' == out + Reducer.Ingest(old(Model()), TurnDiffUpdated(thread, turn, diff)).events
    {
      out' := out;
      StoreTurn(turn, TurnAt(Model(), turn).(thread := Some(thread), latestDiff := Some(diff)));
    }

    method IngestTurnCompleted(turn: TurnId, status: Option<TurnStatus>, error: Option<Payload>,
                               completedAt: Option<int>, duration: Option<int>, out: seq<Event>)
      returns (out': seq<Event>)
      modifies this
      ensures
        var step := Reducer.Ingest(old(Model()), TurnCompleted(turn, status, error, completedAt, duration));
        Model() == step.state && out' == out + step.events
    {
      var at := NonNegativeOf(completedAt);
      var completed := CompletedTurn(status, error, if at.Some? then at.value else 0, NonNegativeOf(duration));
      out' := StoreTurnAndEmit(turn, TurnAt(Model(), turn).(completed := Some(completed)), out);
    }

    method IngestServerRequest(input: Fact)
      requires IsServerRequest(input)
      modifies this
      ensures Model() == Reducer.Ingest(old(Model()), input).state
      ensures [] == Reducer.Ingest(old(Model()), input).events
    {
      match input
      case CommandApprovalRequest(request, thread, turn, item, a, startedAt) =>
        var network := a.networkContext || a.policyAmendments || (a.additionalPermissions && a.additionalNetwork);
        var trigger := Initial;
        if a.approvalId {
          trigger := ExecveIntercept;
        } else if network {
          trigger := NetworkPolicyDenial;
        } else if a.additionalPermissions {
          trigger := SandboxDenial;
        }
        if startedAt < 0 {
          return;
        }
        var subject := if a.networkContext then NetworkSubject else CommandSubject;
        pendingReviews := pendingReviews[request := PendingReview(thread, turn, Some(item), request.raw, subject,
                                                                  trigger, startedAt, a.additionalPermissions,
                                                                  network)];
      case FileApprovalRequest(request, thread, turn, item, grantRoot, startedAt) =>
        if startedAt < 0 {
          return;
        }
        var trigger := if grantRoot then SandboxDenial else Initial;
        pendingReviews := pendingReviews[request := PendingReview(thread, turn, Some(item), request.raw, FileSubject,
                                                                  trigger, startedAt, grantRoot, false)];
      case PermissionsApprovalRequest(request, thread, turn, item, network, fileSystem, startedAt) =>
        var permissions := network || fileSystem;
        var trigger := Initial;
        if network {
          trigger := NetworkPolicyDenial;
        } else if permissions {
          trigger := SandboxDenial;
        }
        if startedAt < 0 {
          return;
        }
        pendingReviews := pendingReviews[request := PendingReview(thread, turn, Some(item), request.raw,
                                                                  PermissionsSubject, trigger, startedAt, permissions,
                                                                  network)];
    }

    /** The replies to approval requests, and their abortion. */
    method IngestServerResponse(input: Fact, out: seq<Event>) returns (out': seq<Event>)
      requires IsServerResponse(input)
      modifies this
      ensures Model() == Reducer.Ingest(old(Model()), input).state
      ensures out' == out + Reducer.Ingest(old(Model()), input).events
    {
      out' := out;
      if input.request !in pendingReviews {
        return;
      }
      var verdict :=
        match input
        case CommandApprovalResponse(_, decision, _) => CommandVerdict(decision)
        case FileApprovalResponse(_, decision, _) => FileVerdict(decision)
        case PermissionsApprovalResponse(_, empty, session, _) => PermissionsVerdict(empty, session)
        case _ => Verdict(Aborted, NoResolution);
      var review := pendingReviews[input.request];
      assert FinishedReviewOf(Model(), input) == Answered(Model(), input.request, verdict, input.answeredAt);
      pendingReviews := pendingReviews - {input.request};
      out' := EmitReviewEvent(review, User, verdict, input.answeredAt, out);
    }

    /** The custom facts of `ingest`. */
    method IngestCustom(input: Fact, out: seq<Event>) returns (out': seq<Event>)
      requires IsCustom(input)
      modifies this
      ensures Model() == Reducer.Ingest(old(Model()), input).state
      ensures out' == out + Reducer.Ingest(old(Model()), input).events
    {
      match input
      case SubAgentThreadStarted(thread, metadata, details) =>
        out' := IngestSubagentThreadStarted(thread, metadata, details, out);
      case Compaction(thread, turn, details) => out' := IngestCompaction(thread, turn, details, out);
      case GuardianReview(thread, turn, details) => out' := IngestGuardianReview(thread, turn, details, out);
      case TurnResolvedConfig(turn, thread, images, config) =>
        out' := IngestTurnResolvedConfig(turn, thread, images, config, out);
      case TurnTokenUsage(turn, thread, usage) => out' := IngestTurnTokenUsage(turn, thread, usage, out);
      case TurnProfile(turn, profile) => out' := IngestTurnProfile(turn, profile, out);
      case TurnCodexError(turn, thread, error) => out' := IngestTurnCodexError(turn, thread, error, out);
    }

    method IngestCompaction(thread: ThreadId, turn: TurnId, details: Payload, out: seq<Event>)
      returns (out': seq<Event>)
      modifies this
      ensures Model() == Reducer.Ingest(old(Model()), Compaction(thread, turn, details)).state
      ensures out' == out + Reducer.Ingest(old(Model()), Compaction(thread, turn, details)).events
    {
      out' := out;
      var context := ThreadContext(Model(), thread);
      if context.Some? {
        out' := out + [CompactionEvent(thread, turn, context.value, details)];
      }
    }

    method IngestGuardianReview(thread: ThreadId, turn: TurnId, details: Payload, out: seq<Event>)
      returns (out': seq<Event>)
      modifies this
      ensures Model() == Reducer.Ingest(old(Model()), GuardianReview(thread, turn, details)).state
      ensures out' == out + Reducer.Ingest(old(Model()), GuardianReview(thread, turn, details)).events
    {
      out' := out;
      var context := ThreadContext(Model(), thread);
      if context.Some? {
        out' := out + [GuardianEvent(thread, turn, context.value, details)];
      }
    }

    method IngestTurnResolvedConfig(turn: TurnId, thread: ThreadId, images: nat, config: Payload, out: seq<Event>)
      returns (out': seq<Event>)
      modifies this
      ensures Model() == Reducer.Ingest(old(Model()), TurnResolvedConfig(turn, thread, images, config)).state
      ensures out' == out + Reducer.Ingest(old(Model()), TurnResolvedConfig(turn, thread, images, config)).events
    {
      var t := TurnAt(Model(), turn);
      out' := StoreTurnAndEmit(turn, t.(thread := Some(thread), images := Some(images), config := Some(config)), out);
    }

    method IngestTurnTokenUsage(turn: TurnId, thread: ThreadId, usage: Payload, out: seq<Event>)
      returns (out': seq<Event>)
      modifies this
      ensures Model() == Reducer.Ingest(old(Model()), TurnTokenUsage(turn, thread, usage)).state
      ensures out' == out + Reducer.Ingest(old(Model()), TurnTokenUsage(turn, thread, usage)).events
    {
      var t := TurnAt(Model(), turn);
      out' := StoreTurnAndEmit(turn, t.(thread := Some(thread), tokenUsage := Some(usage)), out);
    }

    method IngestTurnProfile(turn: TurnId, profile: Payload, out: seq<Event>) returns (out': seq<Event>)
      modifies this
      ensures Model() == Reducer.Ingest(old(Model()), TurnProfile(turn, profile)).state
      ensures out' == out + Reducer.Ingest(old(Model()), TurnProfile(turn, profile)).events
    {
      out' := StoreTurnAndEmit(turn, TurnAt(Model(), turn).(profile := Some(profile)), out);
    }

    method IngestTurnCodexError(turn: TurnId, thread: ThreadId, error: Payload, out: seq<Event>)
      returns (out': seq<Event>)
      modifies this
      ensures Model() == Reducer.Ingest(old(Model()), TurnCodexError(turn, thread, error)).state
      ensures out' == out + Reducer.Ingest(old(Model()), TurnCodexError(turn, thread, error)).events
    {
      out' := out;
      var t := TurnAt(Model(), turn);
      if t.thread.None? {
        t := t.(thread := Some(thread));
      }
      StoreTurn(turn, t.(codexError := Some(error)));
    }

    /** Write back an entry obtained by `entry(turn_id).or_default()`. */
    method StoreTurn(turn: TurnId, t: TurnState)
      modifies this
      ensures Model() == SetTurn(old(Model()), turn, t)
    {
      turns := turns[turn := t];
    }

    method StoreTurnAndEmit(turn: TurnId, t: TurnState, out: seq<Event>) returns (out': seq<Event>)
      modifies this
      ensures Model() == UpdateTurn(old(Model()), turn, t).state
      ensures out' == out + UpdateTurn(old(Model()), turn, t).events
    {
      StoreTurn(turn, t);
      out' := MaybeEmitTurnEvent(turn, out);
    }

    method MaybeEmitTurnEvent(turn: TurnId, out: seq<Event>) returns (out': seq<Event>)
      modifies this
      ensures Model() == MaybeEmitTurn(old(Model()), turn).state
      ensures out' == out + MaybeEmitTurn(old(Model()), turn).events
    {
      out' := out;
      if turn !in turns {
        return;
      }
      var t := turns[turn];
      if t.thread.None? || t.images.None? || t.config.None? || t.profile.None? || t.completed.None? {
        return;
      }
      if t.connection.None? || t.connection.value !in connections {
        return;
      }
      if t.thread.value !in threads || threads[t.thread.value].metadata.None? {
        return;
      }
      var context := Context(connections[t.connection.value], threads[t.thread.value].metadata.value);
      out' := out + [TurnEvent(t.thread.value, turn, context, t.images.value, t.config.value, t.profile.value,
                               t.completed.value, t.startedAt, t.tokenUsage, t.codexError, t.steerCount, t.tools)];
      if t.latestDiff.Some? {
        var summary := DiffParser.AcceptedLineFingerprints(t.latestDiff.value, NoLetter);
        if summary.added != 0 || summary.deleted != 0 {
          out' := out' + [AcceptedLines(t.thread.value, turn, t.config.value, summary.added, summary.deleted)];
        }
      }
      turns := turns - {turn};
    }

    method IngestTurnStartResponse(connection: ConnectionId, request: RequestId, turn: TurnId, out: seq<Event>)
      returns (out': seq<Event>)
      modifies this
      ensures Model() == Reducer.Ingest(old(Model()), TurnStartResponse(connection, request, turn)).state
      ensures out' == out + Reducer.Ingest(old(Model()), TurnStartResponse(connection, request, turn)).events
    {
      out' := out;
      var key := RequestKey(connection, request);
      if key !in requests {
        assert requests - {key} == requests;
        return;
      }
      var pending := requests[key];
      requests := requests - {key};
      if pending.PendingSteer? {
        return;
      }
      var t := TurnAt(Model(), turn);
      out' := StoreTurnAndEmit(turn, t.(connection := Some(connection), thread := Some(pending.thread),
                                        images := Some(pending.images)), out);
    }

    method IngestTurnSteerResponse(key: RequestKey, turn: TurnId, out: seq<Event>) returns (out': seq<Event>)
      modifies this
      ensures Model() == SteerResponse(old(Model()), key, turn).state
      ensures out' == out + SteerResponse(old(Model()), key, turn).events
    {
      out' := out;
      if key !in requests {
        return;
      }
      var pending := requests[key];
      requests := requests - {key};
      if pending.PendingStart? {
        return;
      }
      if turn in turns {
        turns := turns[turn := turns[turn].(steerCount := turns[turn].steerCount + 1)];
      }
      out' := EmitTurnSteerEvent(key.connection, pending, Some(turn), None, out);
    }

    method IngestErrorResponse(key: RequestKey, reason: Option<Payload>, out: seq<Event>) returns (out': seq<Event>)
      modifies this
      ensures Model() == RequestError(old(Model()), key, reason).state
      ensures out' == out + RequestError(old(Model()), key, reason).events
    {
      out' := out;
      if key !in requests {
        return;
      }
      var pending := requests[key];
      requests := requests - {key};
      if pending.PendingSteer? {
        out' := EmitTurnSteerEvent(key.connection, pending, None, reason, out);
      }
    }

    method EmitTurnSteerEvent(connection: ConnectionId, pending: RequestState, acceptedTurn: Option<TurnId>,
                              reason: Option<Payload>, out: seq<Event>)
      returns (out': seq<Event>)
      requires pending.PendingSteer?
      ensures out' == out + SteerEvents(Model(), connection, pending, acceptedTurn, reason)
    {
      out' := out;
      if connection !in connections {
        return;
      }
      if pending.thread !in threads || threads[pending.thread].metadata.None? {
        return;
      }
      var context := Context(connections[connection], threads[pending.thread].metadata.value);
      out' := out + [SteerEvent(pending.thread, context, pending.expectedTurn, acceptedTurn, pending.images, reason,
                                pending.createdAt)];
    }

    method EmitThreadInitialized(connection: ConnectionId, thread: ThreadId, metadata: ThreadMetadata,
                                 details: Payload, out: seq<Event>)
      returns (out': seq<Event>)
      modifies this
      ensures Model() == RegisterThread(old(Model()), connection, thread, metadata, details).state
      ensures out' == out + RegisterThread(old(Model()), connection, thread, metadata, details).events
    {
      out' := out;
      if connection !in connections {
        return;
      }
      threads := threads[thread := ThreadState(Some(connection), Some(metadata))];
      out' := out + [ThreadInitialized(thread, Some(connections[connection]), metadata, details)];
    }

    method IngestSubagentThreadStarted(thread: ThreadId, metadata: ThreadMetadata, details: Payload, out: seq<Event>)
      returns (out': seq<Event>)
      modifies this
      ensures Model() == StartSubAgent(old(Model()), thread, metadata, details).state
      ensures out' == out + StartSubAgent(old(Model()), thread, metadata, details).events
    {
      var parentConnection: Option<ConnectionId> := None;
      if metadata.parent.Some? && metadata.parent.value in threads {
        parentConnection := threads[metadata.parent.value].connection;
      }
      if thread !in threads {
        threads := threads[thread := NEW_THREAD];
      }
      if threads[thread].metadata.None? {
        threads := threads[thread := threads[thread].(metadata := Some(metadata))];
      }
      if threads[thread].connection.None? {
        threads := threads[thread := threads[thread].(connection := parentConnection)];
      }
      assert threads[thread := threads[thread]] == threads;
      out' := out + [ThreadInitialized(thread, None, metadata, details)];
    }

    method IngestGuardianReviewCompleted(input: Fact, out: seq<Event>) returns (out': seq<Event>)
      requires input.GuardianReviewCompleted?
      modifies this
      ensures Model() == Reducer.Ingest(old(Model()), input).state
      ensures out' == out + Reducer.Ingest(old(Model()), input).events
    {
      out' := out;
      var verdict := GuardianVerdict(input.status);
      if verdict.None? || input.startedAt < 0 {
        return;
      }
      var review := PendingReview(input.thread, input.turn, input.target, input.reviewId, GuardianSubject(input.action),
                                  GuardianTrigger(input.action), input.startedAt, GuardianAsksPermissions(input.action),
                                  GuardianAsksNetwork(input.action));
      if input.completedAt < 0 {
        return;
      }
      out' := EmitReviewEvent(review, Guardian, verdict.value, input.completedAt, out);
    }

    method EmitReviewEvent(review: PendingReview, reviewer: Reviewer, verdict: Verdict, completedAt: nat,
                           out: seq<Event>)
      returns (out': seq<Event>)
      modifies this
      ensures Model() == EmitReview(old(Model()), review, reviewer, verdict, completedAt).state
      ensures out' == out + EmitReview(old(Model()), review, reviewer, verdict, completedAt).events
    {
      out' := out;
      var key := SummaryKey(review);
      if key.Some? {
        RecordItemReviewSummary(key.value, reviewer, verdict, review);
      }
      var context := ThreadContext(Model(), review.thread);
      if context.Some? {
        out' := out + [ReviewEvent(review, context.value, reviewer, verdict, completedAt)];
      }
    }

    method RecordItemReviewSummary(key: ItemKey, reviewer: Reviewer, verdict: Verdict, review: PendingReview)
      modifies this
      ensures Model() == old(Model()).(summaries := old(Model()).summaries[key :=
                           Summarise(SummaryAt(old(Model()), key), reviewer, verdict, review)])
    {
      var summary := if key in itemReviewSummaries then itemReviewSummaries[key] else NO_REVIEWS;
      summary := summary.(reviewCount := summary.reviewCount + 1);
      match reviewer {
        case Guardian => summary := summary.(guardianCount := summary.guardianCount + 1);
        case User => summary := summary.(userCount := summary.userCount + 1);
      }
      summary := summary.(outcome := Some(Outcome(reviewer, verdict)));
      summary := summary.(additionalPermissions := summary.additionalPermissions || review.additionalPermissions);
      summary := summary.(networkAccess := summary.networkAccess || review.networkAccess);
      itemReviewSummaries := itemReviewSummaries[key := summary];
    }

    method IngestItemCompleted(thread: ThreadId, turn: TurnId, item: Item, completedAt: int, out: seq<Event>)
      returns (out': seq<Event>)
      modifies this
      ensures Model() == Reducer.Ingest(old(Model()), ItemCompleted(thread, turn, item, completedAt)).state
      ensures out' == out + Reducer.Ingest(old(Model()), ItemCompleted(thread, turn, item, completedAt)).events
    {
      out' := out;
      if item.OtherItem? || turn !in turns {
        return;
      }
      turns := turns[turn := turns[turn].(tools := Record(turns[turn].tools, item))];
      var key := ItemKey(thread, turn, item.id);
      if key !in toolItemsStartedAtMs {
        return;
      }
      var startedAt := toolItemsStartedAtMs[key];
      toolItemsStartedAtMs := toolItemsStartedAtMs - {key};
      if completedAt < 0 {
        return;
      }
      var context := ThreadContext(Model(), thread);
      if context.None? {
        return;
      }
      var summary := if key in itemReviewSummaries then itemReviewSummaries[key] else NO_REVIEWS;
      var terminal := Terminal(item);
      if terminal.Some? {
        var outcome := if summary.outcome.Some? then summary.outcome.value else Unknown;
        out' := out + [ToolEvent(key, context.value, terminal.value, startedAt, completedAt, summary.reviewCount,
                                 summary.guardianCount, summary.userCount, outcome, summary.additionalPermissions,
                                 summary.networkAccess)];
      }
      itemReviewSummaries := itemReviewSummaries - {key};
    }

    /** The queue task: one fact after another into the same reducer. */
    method IngestAll(facts: seq<Fact>) returns (out: seq<Event>)
      modifies this
      ensures Model() == RunFrom(old(Model()), facts).state
      ensures out == RunFrom(old(Model()), facts).events
    {
      out := [];
      for i := 0 to |facts|
        invariant Model() == RunFrom(old(Model()), facts[..i]).state
        invariant out == RunFrom(old(Model()), facts[..i]).events
      {
        assert facts[..i + 1][..i] == facts[..i];
        out := Ingest(facts[i], out);
      }
      assert facts[..|facts|] == facts;
    }
  }
}
