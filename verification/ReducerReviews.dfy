/**
 Review conservation: user reviews are answers to recorded approval requests, item summaries count
 the reviews since the item was last reported, and a tool event carries the latest outcome.
 */
module ReducerReviews {
  import opened Options
  import opened Reducer
  import opened ReducerContext
  import opened ReducerApprovals

  // ---- user reviews against approval requests ----

  function UserReviews(events: seq<Event>): nat
  {
    if events == [] then 0
    else
      var last := events[|events| - 1];
      UserReviews(events[..|events| - 1]) + if last.ReviewEvent? && last.reviewer == User then 1 else 0
  }

  /** Approval requests that were recorded, that is, carried a usable timestamp. */
  function ApprovalsRecorded(facts: seq<Fact>): nat
  {
    if facts == [] then 0
    else ApprovalsRecorded(facts[..|facts| - 1]) + if Usable(facts[|facts| - 1]) then 1 else 0
  }

  lemma {:induction false} UserReviewsAppend(a: seq<Event>, b: seq<Event>)
    ensures UserReviews(a + b) == UserReviews(a) + UserReviews(b)
    decreases |b|
  {
    if b == [] {
      assert a + b == a;
    } else {
      var n := |b| - 1;
      UserReviewsAppend(a, b[..n]);
      assert |a + b| - 1 == |a| + n && (a + b)[|a| + n] == b[n];
      assert (a + b)[..|a| + n] == a + b[..n];
    }
  }

  lemma {:induction false} NoUserReviews(events: seq<Event>)
    requires forall i | 0 <= i < |events| :: !events[i].ReviewEvent?
    ensures UserReviews(events) == 0
  {
    if events != [] { NoUserReviews(events[..|events| - 1]); }
  }

  lemma {:induction false} MapSizes<K, V>(m: map<K, V>, k: K, v: V)
    ensures |m[k := v]| <= |m| + 1
    ensures k in m ==> |m - {k}| == |m| - 1
  {
    assert m[k := v].Keys == m.Keys + {k};
    assert (m - {k}).Keys == m.Keys - {k};
  }

  lemma {:induction false} PlainReviews(s: State, f: Fact)
    requires FinishedReviewOf(s, f).None?
    ensures UserReviews(IngestPlain(s, f).events) == 0
    ensures |IngestPlain(s, f).state.pendingReviews|
         <= |s.pendingReviews| + if RequestedReview(f).Some? then 1 else 0
  {
    PlainShape(s, f);
    PlainEmitsNoReview(s, f);
    NoUserReviews(IngestPlain(s, f).events);
    if FamilyOf(f) == ItemFamily { ItemReviews(s, f); }
  }

  lemma {:induction false} ItemReviews(s: State, f: Fact)
    requires FamilyOf(f) == ItemFamily
    ensures |IngestItemFact(s, f).state.pendingReviews|
         <= |s.pendingReviews| + if RequestedReview(f).Some? then 1 else 0
  {
    ItemPending(s, f);
    if RequestedReview(f).Some? { MapSizes(s.pendingReviews, f.request, RequestedReview(f).value); }
  }

  lemma {:induction false} PlainEmitsNoReview(s: State, f: Fact)
    ensures forall i | 0 <= i < |IngestPlain(s, f).events| :: !IngestPlain(s, f).events[i].ReviewEvent?
  {
    match FamilyOf(f)
    case RequestFamily => RequestEvents(s, f);
    case ItemFamily => ItemEvents(s, f);
    case TurnFamily => TurnFactShape(s, f);
    case ThreadFamily => ThreadEvents(s, f);
  }

  lemma {:induction false} FinishedReviews(s: State, f: Fact)
    requires FinishedReviewOf(s, f).Some?
    ensures UserReviews(Ingest(s, f).events) + |Ingest(s, f).state.pendingReviews| <= |s.pendingReviews|
  {
    var r := FinishedReviewOf(s, f).value;
    FinishedBase(s, f);
    EmitReviewCounts(r.base, r.review, r.reviewer, r.verdict, r.completedAt);
    PendingAfterReview(s, f);
  }

  /** A user's review uses up one pending request, a guardian's none. */
  lemma {:induction false} PendingAfterReview(s: State, f: Fact)
    requires FinishedReviewOf(s, f).Some?
    ensures
      var r := FinishedReviewOf(s, f).value;
      |r.base.pendingReviews| == |s.pendingReviews| - if r.reviewer == User then 1 else 0
  {
    var r := FinishedReviewOf(s, f).value;
    if r.reviewer == User {
      assert r.base.pendingReviews == s.pendingReviews - {f.request};
      MapSizes(s.pendingReviews, f.request, r.review);
    }
  }

  lemma {:induction false} EmitReviewCounts(s: State, review: PendingReview, reviewer: Reviewer, verdict: Verdict,
                                            at: nat)
    ensures
      var step := EmitReview(s, review, reviewer, verdict, at);
      step.state.pendingReviews == s.pendingReviews && UserReviews(step.events) <= if reviewer == User then 1 else 0
  {
    var step := EmitReview(s, review, reviewer, verdict, at);
    assert step.events != [] ==> step.events[..0] == [];
  }

  lemma {:induction false} UpdateReviews(s: State, f: Fact)
    requires TurnUpdateOf(s, f).Some?
    ensures UserReviews(Ingest(s, f).events) == 0 && Ingest(s, f).state.pendingReviews == s.pendingReviews
  {
    var u := TurnUpdateOf(s, f).value;
    UpdateShape(s, f);
    UpdateTurnEffect(u.base, u.turn, u.entry);
    NoUserReviews(Ingest(s, f).events);
  }

  /** Over every run: user review events, plus requests still waiting, never exceed the approval requests recorded. */
  lemma {:induction false} UserReviewsAnswerRequests(facts: seq<Fact>)
    ensures UserReviews(Run(facts).events) + |Run(facts).state.pendingReviews| <= ApprovalsRecorded(facts)
  {
    if facts != [] {
      var n := |facts| - 1;
      var before, f := Run(facts[..n]), facts[n];
      UserReviewsAnswerRequests(facts[..n]);
      UserReviewsAppend(before.events, Ingest(before.state, f).events);
      RequestDescribed(f);
      if TurnUpdateOf(before.state, f).Some? {
        UpdateReviews(before.state, f);
      } else if FinishedReviewOf(before.state, f).Some? {
        FinishedReviews(before.state, f);
      } else {
        PlainReviews(before.state, f);
      }
    }
  }

  // ---- answers and outcomes ----

  predicate ByGuardian(outcome: ApprovalOutcome)
  {
    outcome == GuardianApproved || outcome == GuardianDenied || outcome == GuardianAborted
  }

  predicate Grants(outcome: ApprovalOutcome)
  {
    outcome == GuardianApproved || outcome == UserApproved || outcome == UserApprovedForSession
  }

  predicate Refuses(outcome: ApprovalOutcome)
  {
    outcome == GuardianDenied || outcome == UserDenied
  }

  /** An outcome says who reviewed, and whether they granted or refused; only a user grants for a session. */
  lemma {:induction false} OutcomeSaysWhoAndWhat(reviewer: Reviewer, verdict: Verdict)
    ensures
      var outcome := Outcome(reviewer, verdict);
      && outcome != Unknown
      && (ByGuardian(outcome) <==> reviewer == Guardian)
      && (Grants(outcome) <==> verdict.status == Approved)
      && (Refuses(outcome) <==> verdict.status == Denied)
      && (outcome == UserApprovedForSession <==> reviewer == User && verdict == Verdict(Approved, SessionApproval))
  {
  }

  /** Whoever reviewed it let it pass. */
  predicate Accepting(f: Fact)
  {
    match f
    case CommandApprovalResponse(_, d, _) =>
      d.AcceptCommand? || d.AcceptCommandForSession? || d.AcceptWithExecpolicyAmendment?
      || d == ApplyNetworkPolicyAmendment(true)
    case FileApprovalResponse(_, d, _) => d.AcceptFile? || d.AcceptFileForSession?
    case PermissionsApprovalResponse(_, empty, _, _) => !empty
    case GuardianReviewCompleted(_, _, _, _, status, _, _, _) => status == ReviewApproved
    case _ => false
  }

  /** Whoever reviewed it said no, as opposed to giving up. */
  predicate Declining(f: Fact)
  {
    match f
    case CommandApprovalResponse(_, d, _) => d.DeclineCommand? || d == ApplyNetworkPolicyAmendment(false)
    case FileApprovalResponse(_, d, _) => d.DeclineFile?
    case PermissionsApprovalResponse(_, empty, _, _) => empty
    case GuardianReviewCompleted(_, _, _, _, status, _, _, _) => status == ReviewDenied
    case _ => false
  }

  predicate AcceptingForSession(f: Fact)
  {
    match f
    case CommandApprovalResponse(_, d, _) => d.AcceptCommandForSession?
    case FileApprovalResponse(_, d, _) => d.AcceptFileForSession?
    case PermissionsApprovalResponse(_, empty, session, _) => !empty && session
    case _ => false
  }

  /** The outcome says who answered and what the answer was. */
  predicate Tells(outcome: ApprovalOutcome, answer: Fact)
  {
    && (ByGuardian(outcome) <==> answer.GuardianReviewCompleted?)
    && (Grants(outcome) <==> Accepting(answer))
    && (Refuses(outcome) <==> Declining(answer))
    && (outcome == UserApprovedForSession <==> AcceptingForSession(answer))
  }

  /** A finished review ends in an outcome that tells the answer. */
  lemma {:induction false} OutcomeFollowsAnswer(s: State, f: Fact)
    requires FinishedReviewOf(s, f).Some?
    ensures
      var r := FinishedReviewOf(s, f).value;
      Tells(Outcome(r.reviewer, r.verdict), f)
  {
    var r := FinishedReviewOf(s, f).value;
    OutcomeSaysWhoAndWhat(r.reviewer, r.verdict);
  }

  // ---- item summaries against the reviews of the item ----

  /** A review of a command, a file change or an MCP call, made for this item. */
  predicate IsAbout(review: PendingReview, key: ItemKey)
  {
    && (review.subject == CommandSubject || review.subject == FileSubject || review.subject == McpSubject)
    && review.thread == key.thread && review.turn == key.turn && review.item == Some(key.item)
  }

  lemma {:induction false} SummaryKeyIsAbout(review: PendingReview, key: ItemKey)
    ensures SummaryKey(review) == Some(key) <==> IsAbout(review, key)
  {
  }

  /** A finished review, and the position of the fact that finished it. */
  datatype ReviewRecord = ReviewRecord(at: nat, reviewer: Reviewer, verdict: Verdict, permissions: bool, network: bool)

  /** The reply or report the fact is, as a verdict. */
  function VerdictIn(f: Fact): Verdict
  {
    match f
    case CommandApprovalResponse(_, decision, _) => CommandVerdict(decision)
    case FileApprovalResponse(_, decision, _) => FileVerdict(decision)
    case PermissionsApprovalResponse(_, empty, session, _) => PermissionsVerdict(empty, session)
    case GuardianReviewCompleted(_, _, _, _, status, _, _, _) =>
      if GuardianVerdict(status).Some? then GuardianVerdict(status).value else Verdict(Aborted, NoResolution)
    case _ => Verdict(Aborted, NoResolution)
  }

  predicate AnswersApproval(f: Fact)
  {
    f.CommandApprovalResponse? || f.FileApprovalResponse? || f.PermissionsApprovalResponse? || f.ServerRequestAborted?
  }

  /** The request is about a command, not about its network access, or about a file change, of this item. */
  predicate AsksAbout(f: Fact, key: ItemKey)
  {
    && ((f.CommandApprovalRequest? && !f.approval.networkContext) || f.FileApprovalRequest?)
    && f.thread == key.thread && f.turn == key.turn && f.item == key.item
  }

  /** The guardian reports on a command, a patch or an MCP call of this item. */
  predicate ReportsAbout(f: Fact, key: ItemKey)
  {
    && GuardianDone(f) && !f.action.ReviewNetwork? && !f.action.ReviewPermissions?
    && f.thread == key.thread && f.turn == key.turn && f.target == Some(key.item)
  }

  /** The review of item `key` that the fact at a position finishes, told from the facts alone. */
  function ReviewAt(facts: seq<Fact>, at: nat, key: ItemKey): Option<ReviewRecord>
    requires at < |facts|
  {
    var f := facts[at];
    if f.GuardianReviewCompleted? then
      if !ReportsAbout(f, key) then None
      else Some(ReviewRecord(at, Guardian, VerdictIn(f), f.action.ReviewPatch?, false))
    else if AnswersApproval(f) then
      var j := AskedAt(facts[..at], f.request);
      if j.None? || !AsksAbout(facts[j.value], key) then None
      else Some(ReviewRecord(at, User, VerdictIn(f), AsksPermissions(facts[j.value]), AsksNetwork(facts[j.value])))
    else None
  }

  /** The same review in the reducer's terms. */
  function ReviewFor(s: State, f: Fact, at: nat, key: ItemKey): Option<ReviewRecord>
  {
    var finished := FinishedReviewOf(s, f);
    if finished.Some? && IsAbout(finished.value.review, key) then
      Some(ReviewRecord(at, finished.value.reviewer, finished.value.verdict,
                        finished.value.review.additionalPermissions, finished.value.review.networkAccess))
    else None
  }

  /** The fact completes item `key` with everything needed to report it. */
  predicate Clears(s: State, f: Fact, key: ItemKey)
  {
    && f.ItemCompleted? && !f.threadItem.OtherItem?
    && key == ItemKey(f.thread, f.turn, f.threadItem.id)
    && f.turn in s.turns && key in s.toolStarts && f.completedAt >= 0 && ThreadContext(s, f.thread).Some?
  }

  function NextLog(s: State, f: Fact, at: nat, key: ItemKey, log: seq<ReviewRecord>): seq<ReviewRecord>
  {
    if Clears(s, f, key) then []
    else if ReviewFor(s, f, at, key).Some? then log + [ReviewFor(s, f, at, key).value]
    else log
  }

  /** The reviews of an item since it was last cleared, oldest first. */
  function ReviewLog(facts: seq<Fact>, key: ItemKey): seq<ReviewRecord>
  {
    if facts == [] then []
    else
      var n := |facts| - 1;
      var review := ReviewAt(facts, n, key);
      if Clears(Run(facts[..n]).state, facts[n], key) then []
      else ReviewLog(facts[..n], key) + if review.Some? then [review.value] else []
  }

  function By(log: seq<ReviewRecord>, reviewer: Reviewer): nat
  {
    if log == [] then 0
    else By(log[..|log| - 1], reviewer) + if log[|log| - 1].reviewer == reviewer then 1 else 0
  }

  function LatestOutcome(log: seq<ReviewRecord>): ApprovalOutcome
  {
    if log == [] then Unknown else Outcome(log[|log| - 1].reviewer, log[|log| - 1].verdict)
  }

  /** The summary says what the log says. */
  predicate Reflects(summary: ReviewSummary, log: seq<ReviewRecord>)
  {
    && summary.reviewCount == |log|
    && summary.guardianCount == By(log, Guardian) && summary.userCount == By(log, User)
    && summary.reviewCount == summary.guardianCount + summary.userCount
    && summary.outcome == (if log == [] then None else Some(LatestOutcome(log)))
    && (summary.additionalPermissions <==> exists i | 0 <= i < |log| :: log[i].permissions)
    && (summary.networkAccess <==> exists i | 0 <= i < |log| :: log[i].network)
  }

  /** The log folded into a summary, review by review. */
  function Digest(log: seq<ReviewRecord>): ReviewSummary
  {
    if log == [] then NO_REVIEWS
    else
      var before, r := Digest(log[..|log| - 1]), log[|log| - 1];
      ReviewSummary(before.reviewCount + 1,
                    before.guardianCount + (if r.reviewer == Guardian then 1 else 0),
                    before.userCount + (if r.reviewer == User then 1 else 0),
                    Some(Outcome(r.reviewer, r.verdict)),
                    before.additionalPermissions || r.permissions,
                    before.networkAccess || r.network)
  }

  lemma {:induction false} DigestSnoc(log: seq<ReviewRecord>, at: nat, reviewer: Reviewer, verdict: Verdict,
                                      review: PendingReview)
    ensures
      var r := ReviewRecord(at, reviewer, verdict, review.additionalPermissions, review.networkAccess);
      Digest(log + [r]) == Summarise(Digest(log), reviewer, verdict, review)
  {
    var r := ReviewRecord(at, reviewer, verdict, review.additionalPermissions, review.networkAccess);
    assert (log + [r])[..|log|] == log;
  }

  lemma {:induction false} DigestReflects(log: seq<ReviewRecord>)
    ensures Reflects(Digest(log), log)
  {
    if log != [] {
      var n := |log| - 1;
      DigestReflects(log[..n]);
      assert log == log[..n] + [log[n]];
      if log[n].permissions { assert log[n].permissions; }
      if log[n].network { assert log[n].network; }
    }
  }

  function Lookup(s: State, key: ItemKey): Option<ReviewSummary>
  {
    if key in s.summaries then Some(s.summaries[key]) else None
  }

  lemma {:induction false} PlainSummaryStep(s: State, f: Fact, key: ItemKey)
    ensures Lookup(IngestPlain(s, f).state, key) == if Clears(s, f, key) then None else Lookup(s, key)
  {
    PlainShape(s, f);
    if f.ItemCompleted? {
      ItemSummaryStep(s, f, key);
    } else if FamilyOf(f) == ItemFamily {
      assert IngestItemFact(s, f).state.summaries == s.summaries;
    }
  }

  lemma {:induction false} ItemSummaryStep(s: State, f: Fact, key: ItemKey)
    requires f.ItemCompleted?
    ensures Lookup(CompleteItem(s, f.thread, f.turn, f.threadItem, f.completedAt).state, key)
         == if Clears(s, f, key) then None else Lookup(s, key)
  {
  }

  predicate SummaryInv(s: State, key: ItemKey, log: seq<ReviewRecord>)
  {
    Lookup(s, key) == if log == [] then None else Some(Digest(log))
  }

  lemma {:induction false} EmittedSummary(s: State, review: PendingReview, reviewer: Reviewer, verdict: Verdict,
                                          completedAt: nat, key: ItemKey)
    ensures Lookup(EmitReview(s, review, reviewer, verdict, completedAt).state, key)
         == if SummaryKey(review) == Some(key) then Some(Summarise(SummaryAt(s, key), reviewer, verdict, review))
            else Lookup(s, key)
  {
  }

  lemma {:induction false} FinishedBase(s: State, f: Fact)
    requires FinishedReviewOf(s, f).Some?
    ensures
      var r := FinishedReviewOf(s, f).value;
      && !f.ItemCompleted?
      && r.base.summaries == s.summaries
      && Ingest(s, f) == EmitReview(r.base, r.review, r.reviewer, r.verdict, r.completedAt)
  {
    ReviewShape(s, f);
  }

  lemma {:induction false} FinishedSummaryStep(s: State, f: Fact, at: nat, key: ItemKey, log: seq<ReviewRecord>)
    requires SummaryInv(s, key, log) && FinishedReviewOf(s, f).Some?
    ensures SummaryInv(Ingest(s, f).state, key, NextLog(s, f, at, key, log))
  {
    var r := FinishedReviewOf(s, f).value;
    FinishedBase(s, f);
    EmittedSummary(r.base, r.review, r.reviewer, r.verdict, r.completedAt, key);
    SummaryKeyIsAbout(r.review, key);
    DigestSnoc(log, at, r.reviewer, r.verdict, r.review);
    assert SummaryAt(s, key) == SummaryAt(r.base, key) == Digest(log);
  }

  lemma {:induction false} SummaryStep(s: State, f: Fact, at: nat, key: ItemKey, log: seq<ReviewRecord>)
    requires SummaryInv(s, key, log)
    ensures SummaryInv(Ingest(s, f).state, key, NextLog(s, f, at, key, log))
  {
    if TurnUpdateOf(s, f).Some? {
      UpdateShape(s, f);
      assert Lookup(Ingest(s, f).state, key) == Lookup(s, key) && NextLog(s, f, at, key, log) == log;
    } else if FinishedReviewOf(s, f).Some? {
      FinishedSummaryStep(s, f, at, key, log);
    } else {
      PlainSummaryStep(s, f, key);
    }
  }

  lemma {:induction false} SummaryRun(facts: seq<Fact>, key: ItemKey)
    ensures SummaryInv(Run(facts).state, key, ReviewLog(facts, key))
  {
    if facts != [] {
      var n := |facts| - 1;
      SummaryRun(facts[..n], key);
      SummaryStep(Run(facts[..n]).state, facts[n], n, key, ReviewLog(facts[..n], key));
      ReviewForIsReviewAt(facts, n, key);
      assert ReviewLog(facts, key) == NextLog(Run(facts[..n]).state, facts[n], n, key, ReviewLog(facts[..n], key));
    }
  }

  lemma {:induction false} GuardianReviewFor(s: State, f: Fact, at: nat, key: ItemKey)
    requires f.GuardianReviewCompleted?
    ensures ReviewFor(s, f, at, key)
         == if ReportsAbout(f, key) then Some(ReviewRecord(at, Guardian, VerdictIn(f), f.action.ReviewPatch?, false))
            else None
  {
    ReportDescribed(f);
  }

  lemma {:induction false} UserReviewFor(s: State, f: Fact, at: nat, key: ItemKey, asked: Fact)
    requires AnswersApproval(f) && f.request in s.pendingReviews
    requires AsksApproval(asked) && Describes(s.pendingReviews[f.request], asked)
    ensures ReviewFor(s, f, at, key)
         == if AsksAbout(asked, key)
            then Some(ReviewRecord(at, User, VerdictIn(f), AsksPermissions(asked), AsksNetwork(asked))) else None
  {
    assert FinishedReviewOf(s, f) == Answered(s, f.request, VerdictIn(f), f.answeredAt);
  }

  lemma {:induction false} ReviewForIsReviewAt(facts: seq<Fact>, n: nat, key: ItemKey)
    requires n < |facts|
    ensures ReviewFor(Run(facts[..n]).state, facts[n], n, key) == ReviewAt(facts, n, key)
  {
    var s, f := Run(facts[..n]).state, facts[n];
    if f.GuardianReviewCompleted? {
      GuardianReviewFor(s, f, n, key);
    } else if AnswersApproval(f) {
      PendingAreAsked(facts[..n], f.request);
      var j := AskedAt(facts[..n], f.request);
      if j.Some? { UserReviewFor(s, f, n, key, facts[j.value]); }
    }
  }

  /**
   In every reachable state an item has a summary exactly when it was reviewed since it was last
   cleared, and the summary says how often, by whom, with what latest outcome and what was asked for.
   */
  lemma {:induction false} SummariesReflectReviews(facts: seq<Fact>, key: ItemKey)
    ensures
      var s, log := Run(facts).state, ReviewLog(facts, key);
      (key in s.summaries <==> log != []) && Reflects(SummaryAt(s, key), log)
  {
    SummaryRun(facts, key);
    DigestReflects(ReviewLog(facts, key));
  }

  // ---- tool events ----

  lemma {:induction false} ToolEventStep(s: State, f: Fact, i: nat)
    requires i < |Ingest(s, f).events| && Ingest(s, f).events[i].ToolEvent?
    ensures
      var e := Ingest(s, f).events[i];
      && Clears(s, f, e.key)
      && e.reviewCount == SummaryAt(s, e.key).reviewCount
      && e.guardianCount == SummaryAt(s, e.key).guardianCount && e.userCount == SummaryAt(s, e.key).userCount
      && e.outcome == (if SummaryAt(s, e.key).outcome.Some? then SummaryAt(s, e.key).outcome.value else Unknown)
      && e.toolStartedAt == s.toolStarts[e.key] && e.completedAt == f.completedAt
      && Some(e.terminal) == Terminal(f.threadItem)
      && e.additionalPermissions == SummaryAt(s, e.key).additionalPermissions
      && e.networkAccess == SummaryAt(s, e.key).networkAccess
  {
    ToolEventFact(s, f, i);
    var key := ItemKey(f.thread, f.turn, f.threadItem.id);
    assert Clears(s, f, key);
    assert Ingest(s, f).events == ToolEvents(key, f.threadItem, ThreadContext(s, f.thread).value, s.toolStarts[key],
                                             f.completedAt, SummaryAt(s, key));
  }

  /** A fact that reports a tool is the completion of an item. */
  lemma {:induction false} ToolEventFact(s: State, f: Fact, i: nat)
    requires i < |Ingest(s, f).events| && Ingest(s, f).events[i].ToolEvent?
    ensures f.ItemCompleted? && !f.threadItem.OtherItem?
    ensures Ingest(s, f) == CompleteItem(s, f.thread, f.turn, f.threadItem, f.completedAt)
  {
    if TurnUpdateOf(s, f).Some? {
      var u := TurnUpdateOf(s, f).value;
      UpdateTurnEffect(u.base, u.turn, u.entry);
      assert false;
    } else if FinishedReviewOf(s, f).Some? {
      assert false;
    } else {
      PlainToolEvent(s, f);
    }
  }

  lemma {:induction false} PlainToolEvent(s: State, f: Fact)
    requires exists i | 0 <= i < |IngestPlain(s, f).events| :: IngestPlain(s, f).events[i].ToolEvent?
    ensures f.ItemCompleted?
    ensures IngestPlain(s, f) == CompleteItem(s, f.thread, f.turn, f.threadItem, f.completedAt)
  {
    match FamilyOf(f)
    case RequestFamily => RequestEvents(s, f);
    case ItemFamily =>
    case TurnFamily => TurnFactShape(s, f);
    case ThreadFamily => ThreadEvents(s, f);
  }

  /**
   A tool event counts the item's reviews since it was last cleared; its outcome is that of the
   latest of them, and Unknown exactly when there was none.  It grants or refuses, names a guardian, or
   grants for the session exactly as the fact that finished that review did.  It reports additional
   permissions or network access exactly when one of them asked for it.
   */
  lemma {:induction false} ToolEventReportsReviews(facts: seq<Fact>, f: Fact, i: nat)
    requires i < |Ingest(Run(facts).state, f).events| && Ingest(Run(facts).state, f).events[i].ToolEvent?
    ensures
      var e := Ingest(Run(facts).state, f).events[i];
      var log := ReviewLog(facts, e.key);
      && e.reviewCount == |log| == e.guardianCount + e.userCount
      && e.guardianCount == By(log, Guardian) && e.userCount == By(log, User)
      && e.outcome == LatestOutcome(log)
      && (e.outcome == Unknown <==> e.reviewCount == 0)
      && (e.additionalPermissions <==> exists j | 0 <= j < |log| :: log[j].permissions)
      && (e.networkAccess <==> exists j | 0 <= j < |log| :: log[j].network)
      && (log != [] ==> IsLatest(facts, e.key, log[|log| - 1]) && Tells(e.outcome, facts[log[|log| - 1].at]))
  {
    var e := Ingest(Run(facts).state, f).events[i];
    var log := ReviewLog(facts, e.key);
    ToolEventStep(Run(facts).state, f, i);
    SummaryRun(facts, e.key);
    assert SummaryAt(Run(facts).state, e.key) == Digest(log);
    DigestCounts(log);
    if log != [] { LatestReview(facts, e.key); }
  }

  /** The record is of a review the fact at its position finished, and no later fact finished one. */
  predicate IsLatest(facts: seq<Fact>, key: ItemKey, r: ReviewRecord)
  {
    && r.at < |facts|
    && ReviewAt(facts, r.at, key) == Some(r)
    && forall m | r.at < m < |facts| :: ReviewAt(facts, m, key).None?
  }

  lemma {:induction false} ReviewAtPrefix(facts: seq<Fact>, at: nat, key: ItemKey)
    requires at < |facts| - 1
    ensures ReviewAt(facts[..|facts| - 1], at, key) == ReviewAt(facts, at, key)
  {
    assert facts[..|facts| - 1][..at] == facts[..at];
  }

  /** The latest review, with an outcome that tells the answer. */
  predicate Closes(facts: seq<Fact>, key: ItemKey, r: ReviewRecord)
  {
    IsLatest(facts, key, r) && Tells(Outcome(r.reviewer, r.verdict), facts[r.at])
  }

  lemma {:induction false} LatestReview(facts: seq<Fact>, key: ItemKey)
    requires ReviewLog(facts, key) != []
    ensures Closes(facts, key, ReviewLog(facts, key)[|ReviewLog(facts, key)| - 1])
  {
    var n := |facts| - 1;
    if ReviewAt(facts, n, key).Some? {
      NewlyLatest(facts, key);
    } else {
      var before := ReviewLog(facts[..n], key);
      assert ReviewLog(facts, key) == before;
      LatestReview(facts[..n], key);
      StillLatest(facts, key, before[|before| - 1]);
    }
  }

  lemma {:induction false} NewlyLatest(facts: seq<Fact>, key: ItemKey)
    requires facts != [] && ReviewAt(facts, |facts| - 1, key).Some?
    ensures Closes(facts, key, ReviewAt(facts, |facts| - 1, key).value)
  {
    ReviewForIsReviewAt(facts, |facts| - 1, key);
    OutcomeFollowsAnswer(Run(facts[..|facts| - 1]).state, facts[|facts| - 1]);
  }

  lemma {:induction false} StillLatest(facts: seq<Fact>, key: ItemKey, r: ReviewRecord)
    requires facts != [] && Closes(facts[..|facts| - 1], key, r) && ReviewAt(facts, |facts| - 1, key).None?
    ensures Closes(facts, key, r)
  {
    ReviewAtPrefix(facts, r.at, key);
    forall m | r.at < m < |facts| ensures ReviewAt(facts, m, key).None? {
      if m < |facts| - 1 { ReviewAtPrefix(facts, m, key); }
    }
  }

  lemma {:induction false} DigestCounts(log: seq<ReviewRecord>)
    ensures
      var d := Digest(log);
      && d.reviewCount == |log| == d.guardianCount + d.userCount
      && d.guardianCount == By(log, Guardian) && d.userCount == By(log, User)
      && (if d.outcome.Some? then d.outcome.value else Unknown) == LatestOutcome(log)
      && (LatestOutcome(log) == Unknown <==> log == [])
      && (d.additionalPermissions <==> exists j | 0 <= j < |log| :: log[j].permissions)
      && (d.networkAccess <==> exists j | 0 <= j < |log| :: log[j].network)
  {
    DigestReflects(log);
    if log != [] { OutcomeSaysWhoAndWhat(log[|log| - 1].reviewer, log[|log| - 1].verdict); }
  }
}
