/**
 Approval requests and guardian reports as facts: which request a reply answers, by looking back over
 the facts, and what the review it finishes was about.
 */
module ReducerApprovals {
  import opened Options
  import opened Reducer
  import opened ReducerContext

  /** The approval request id a fact records or answers. */
  function ApprovalOf(f: Fact): Option<RequestId>
  {
    match f
    case CommandApprovalRequest(r, _, _, _, _, _) => Some(r)
    case FileApprovalRequest(r, _, _, _, _, _) => Some(r)
    case PermissionsApprovalRequest(r, _, _, _, _, _, _) => Some(r)
    case CommandApprovalResponse(r, _, _) => Some(r)
    case FileApprovalResponse(r, _, _) => Some(r)
    case PermissionsApprovalResponse(r, _, _, _) => Some(r)
    case ServerRequestAborted(r, _) => Some(r)
    case _ => None
  }

  predicate AsksApproval(f: Fact)
  {
    f.CommandApprovalRequest? || f.FileApprovalRequest? || f.PermissionsApprovalRequest?
  }

  lemma {:induction false} ItemPending(s: State, f: Fact)
    requires FamilyOf(f) == ItemFamily
    ensures IngestItemFact(s, f).state.pendingReviews
         == if RequestedReview(f).Some? then s.pendingReviews[f.request := RequestedReview(f).value]
            else s.pendingReviews
  {
    if f.ItemCompleted? {
      assert CompleteItem(s, f.thread, f.turn, f.threadItem, f.completedAt).state.pendingReviews == s.pendingReviews;
    }
  }

  function ReviewEntry(s: State, request: RequestId): Option<PendingReview>
  {
    if request in s.pendingReviews then Some(s.pendingReviews[request]) else None
  }

  lemma {:induction false} ReviewLaw(s: State, f: Fact, request: RequestId)
    ensures ReviewEntry(Ingest(s, f).state, request)
         == if ApprovalOf(f) != Some(request) then ReviewEntry(s, request)
            else if !AsksApproval(f) then None
            else if RequestedReview(f).Some? then RequestedReview(f)
            else ReviewEntry(s, request)
  {
    if TurnUpdateOf(s, f).Some? {
      UpdateShape(s, f);
    } else if FinishedReviewOf(s, f).Some? {
      var r := FinishedReviewOf(s, f).value;
      assert Ingest(s, f).state.pendingReviews == r.base.pendingReviews;
    } else {
      PlainReviewLaw(s, f, request);
    }
  }

  lemma {:induction false} PlainReviewLaw(s: State, f: Fact, request: RequestId)
    requires FinishedReviewOf(s, f).None?
    ensures ReviewEntry(IngestPlain(s, f).state, request)
         == if ApprovalOf(f) != Some(request) then ReviewEntry(s, request)
            else if !AsksApproval(f) then None
            else if RequestedReview(f).Some? then RequestedReview(f)
            else ReviewEntry(s, request)
  {
    PlainShape(s, f);
    if FamilyOf(f) == ItemFamily { ItemPending(s, f); }
  }

  // ---- what an approval request asks for ----

  /** The request is recorded: its timestamp is usable. */
  predicate Usable(f: Fact)
  {
    AsksApproval(f) && f.startedAt >= 0
  }

  predicate AsksPermissions(f: Fact)
    requires AsksApproval(f)
  {
    match f
    case CommandApprovalRequest(_, _, _, _, approval, _) => approval.additionalPermissions
    case FileApprovalRequest(_, _, _, _, grantRoot, _) => grantRoot
    case PermissionsApprovalRequest(_, _, _, _, network, fileSystem, _) => network || fileSystem
  }

  predicate AsksNetwork(f: Fact)
    requires AsksApproval(f)
  {
    match f
    case CommandApprovalRequest(_, _, _, _, approval, _) =>
      approval.networkContext || approval.policyAmendments
      || (approval.additionalPermissions && approval.additionalNetwork)
    case FileApprovalRequest(_, _, _, _, _, _) => false
    case PermissionsApprovalRequest(_, _, _, _, network, _, _) => network
  }

  /** The review says what the request asked: where, about what, why, since when, and for which access. */
  predicate Describes(review: PendingReview, f: Fact)
    requires AsksApproval(f)
  {
    && review.thread == f.thread && review.turn == f.turn && review.item == Some(f.item)
    && review.startedAt == f.startedAt && review.reviewId == f.request.raw
    && (review.subject == PermissionsSubject <==> f.PermissionsApprovalRequest?)
    && (review.subject == FileSubject <==> f.FileApprovalRequest?)
    && (review.subject == NetworkSubject <==> f.CommandApprovalRequest? && f.approval.networkContext)
    && (review.subject == CommandSubject <==> f.CommandApprovalRequest? && !f.approval.networkContext)
    && (review.trigger == ExecveIntercept <==> f.CommandApprovalRequest? && f.approval.approvalId)
    && (review.trigger == NetworkPolicyDenial <==> review.trigger != ExecveIntercept && AsksNetwork(f))
    && (review.trigger == Initial <==> review.trigger != ExecveIntercept && !AsksNetwork(f) && !AsksPermissions(f))
    && review.additionalPermissions == AsksPermissions(f) && review.networkAccess == AsksNetwork(f)
  }

  lemma {:induction false} RequestDescribed(f: Fact)
    ensures RequestedReview(f).Some? <==> Usable(f)
    ensures Usable(f) ==> Describes(RequestedReview(f).value, f)
  {
  }

  // ---- looking back ----

  /** The position of the approval request an id stands for: the last recorded one, if no reply came since. */
  function AskedAt(facts: seq<Fact>, request: RequestId): (j: Option<nat>)
    ensures j.Some? ==> j.value < |facts| && Usable(facts[j.value]) && ApprovalOf(facts[j.value]) == Some(request)
  {
    if facts == [] then None
    else
      var n := |facts| - 1;
      if ApprovalOf(facts[n]) != Some(request) then AskedAt(facts[..n], request)
      else if Usable(facts[n]) then Some(n)
      else if AsksApproval(facts[n]) then AskedAt(facts[..n], request)
      else None
  }

  /** In every reachable state exactly the unanswered requests are pending, and each review describes its request. */
  lemma {:induction false} PendingAreAsked(facts: seq<Fact>, request: RequestId)
    ensures
      var j, entry := AskedAt(facts, request), ReviewEntry(Run(facts).state, request);
      && (entry.Some? <==> j.Some?)
      && (j.Some? ==> j.value < |facts| && Usable(facts[j.value]) && Describes(entry.value, facts[j.value]))
  {
    if facts != [] {
      var n := |facts| - 1;
      PendingAreAsked(facts[..n], request);
      ReviewLaw(Run(facts[..n]).state, facts[n], request);
      RequestDescribed(facts[n]);
    }
  }

  // ---- what a guardian reports ----

  predicate GuardianDone(f: Fact)
  {
    f.GuardianReviewCompleted? && f.status != ReviewInProgress && f.startedAt >= 0 && f.completedAt >= 0
  }

  datatype GuardianRow = GuardianRow(subject: SubjectKind, trigger: Trigger, permissions: bool, network: bool)

  function GuardianTable(action: GuardianAction): GuardianRow
  {
    match action
    case ReviewCommand => GuardianRow(CommandSubject, Initial, false, false)
    case ReviewExecve => GuardianRow(CommandSubject, ExecveIntercept, false, false)
    case ReviewPatch => GuardianRow(FileSubject, SandboxDenial, true, false)
    case ReviewNetwork => GuardianRow(NetworkSubject, NetworkPolicyDenial, true, true)
    case ReviewMcpToolCall => GuardianRow(McpSubject, Initial, false, false)
    case ReviewPermissions(true, _) => GuardianRow(PermissionsSubject, NetworkPolicyDenial, true, true)
    case ReviewPermissions(false, true) => GuardianRow(PermissionsSubject, SandboxDenial, true, false)
    case ReviewPermissions(false, false) => GuardianRow(PermissionsSubject, Initial, false, false)
  }

  lemma {:induction false} ReportDescribed(f: Fact)
    requires f.GuardianReviewCompleted?
    ensures ReportedReview(f).Some? <==> GuardianDone(f)
    ensures
      var row := GuardianTable(f.action);
      GuardianDone(f) ==>
        ReportedReview(f) == Some(PendingReview(f.thread, f.turn, f.target, f.reviewId, row.subject, row.trigger,
                                                f.startedAt, row.permissions, row.network))
  {
  }
}
