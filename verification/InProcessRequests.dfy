/**
 What becomes of a server request read by the in-process worker: delivered or rejected, exactly once,
 unless the worker puts it down in front of a closed event channel.
 */
module InProcessRequests {
  import opened InProcess
  import opened InProcessDelivery

  /** How often `r` has been delivered or rejected. */
  function Settled(w: World, r: ServerRequest): nat
  {
    TimesDelivered(w.sent, r) + TimesRejected(w.rejected, r)
  }

  /** The step is the worker's next channel operation, with `r` in hand. */
  predicate Handles(w: World, a: Action, r: ServerRequest)
  {
    && ((a.FlushLag? && w.pc.Flushing?) || (a.SendEvent? && w.pc.Sending?))
    && w.pc.event == Request(r)
  }

  /**
   Whenever the worker puts a request down, it has been delivered or rejected by that step exactly when
   the receiver was open: the documented rejection of dropped requests does not cover a closed channel.
   */
  lemma {:induction false} PutDownSettlesIffOpen(w: World, a: Action, r: ServerRequest)
    requires Enabled(w, a) && Handles(w, a, r) && Next(w, a).pc == Selecting
    ensures Settled(Next(w, a), r) == Settled(w, r) + if w.receiverOpen then 1 else 0
  {
    TimesAppend(w, r, w.pc.event, Forwarded(w.pc.event), r);
  }

  /** How often a run puts `r` down in front of a closed channel. */
  function Missed(w: World, acts: seq<Action>, r: ServerRequest): nat
    requires Valid(w, acts)
    decreases |acts|
  {
    if acts == [] then 0
    else (if Handles(w, acts[0], r) && !w.receiverOpen then 1 else 0) + Missed(Next(w, acts[0]), acts[1..], r)
  }

  lemma {:induction false} LostStep(w: World, a: Action, r: ServerRequest)
    requires Enabled(w, a)
    ensures TimesRead(Next(w, a).lost, r)
         == TimesRead(w.lost, r) + if Handles(w, a, r) && !w.receiverOpen then 1 else 0
  {
    if (a.FlushLag? || a.SendEvent?) && !w.receiverOpen {
      TimesAppend(w, r, w.pc.event, LagMarker(0), r);
    } else {
      assert Next(w, a).lost == w.lost;
    }
  }

  lemma {:induction false} MissedAreLost(w: World, acts: seq<Action>, r: ServerRequest)
    requires Valid(w, acts)
    ensures TimesRead(Exec(w, acts).lost, r) == TimesRead(w.lost, r) + Missed(w, acts, r)
    decreases |acts|
  {
    if acts != [] {
      LostStep(w, acts[0], r);
      MissedAreLost(Next(w, acts[0]), acts[1..], r);
    }
  }

  lemma {:induction false} TimesReadBound(events: seq<Event>, r: ServerRequest)
    ensures TimesRead(events, r) <= |events|
  {
    if events != [] { TimesReadBound(events[..|events| - 1], r); }
  }

  /**
   For every run and request: readings are deliveries plus rejections, plus the request in hand, exactly
   when the worker never put it down in front of a closed channel.  That happens at most once in a run, to
   one request, and not while the consumer keeps its receiver.
   */
  lemma RequestsSettleIff(capacity: nat, acts: seq<Action>, r: ServerRequest)
    requires Valid(Init(capacity), acts)
    ensures
      var w, missed := Exec(Init(capacity), acts), Missed(Init(capacity), acts, r);
      && TimesRead(w.read, r) == Settled(w, r) + TimesRead(InHand(w.pc), r) + missed
      && (TimesRead(w.read, r) == Settled(w, r) + TimesRead(InHand(w.pc), r) <==> missed == 0)
      && missed <= 1 && (w.receiverOpen ==> missed == 0)
      && (missed == 1 ==> w.lost == [Request(r)])
  {
    var start := Init(capacity);
    var w := Exec(start, acts);
    RunInvariants(start, acts);
    RunRequests(start, acts, r);
    MissedAreLost(start, acts, r);
    TimesReadBound(w.lost, r);
    if |w.lost| == 1 { assert w.lost == [w.lost[0]] && w.lost[..0] == []; }
  }

  // ---- at the consumer ----

  /** How often `r` was in the queue when the receiver was dropped. */
  function Unread(w: World, acts: seq<Action>, r: ServerRequest): nat
    requires Valid(w, acts)
    decreases |acts|
  {
    if acts == [] then 0
    else (if acts[0].DropReceiver? then TimesRead(w.queue, r) else 0) + Unread(Next(w, acts[0]), acts[1..], r)
  }

  /** What was put into the channel was consumed, is queued, or was dropped with the queue. */
  predicate QueueInv(w: World, r: ServerRequest, unread: nat)
  {
    TimesDelivered(w.sent, r) == TimesRead(w.consumed, r) + TimesRead(w.queue, r) + unread
  }

  lemma {:induction false} TimesReadAppend(a: seq<Event>, b: seq<Event>, r: ServerRequest)
    ensures TimesRead(a + b, r) == TimesRead(a, r) + TimesRead(b, r)
    decreases |b|
  {
    if b == [] {
      assert a + b == a;
    } else {
      var n := |b| - 1;
      TimesReadAppend(a, b[..n], r);
      assert |a + b| - 1 == |a| + n && (a + b)[|a| + n] == b[n];
      assert (a + b)[..|a| + n] == a + b[..n];
    }
  }

  lemma {:induction false} PushBalance(w: World, s: Sent, r: ServerRequest, unread: nat)
    requires QueueInv(w, r, unread)
    ensures QueueInv(Push(w, s), r, unread)
  {
    TimesReadAppend(w.queue, [Erase(s)], r);
    TimesAppend(w, r, Erase(s), s, r);
  }

  lemma {:induction false} ConsumeBalance(w: World, r: ServerRequest, unread: nat)
    requires QueueInv(w, r, unread) && Enabled(w, Consume)
    ensures QueueInv(Next(w, Consume), r, unread)
  {
    assert w.queue == [w.queue[0]] + w.queue[1..];
    TimesReadAppend([w.queue[0]], w.queue[1..], r);
    TimesReadAppend(w.consumed, [w.queue[0]], r);
  }

  lemma {:induction false} QueueStep(w: World, a: Action, r: ServerRequest, unread: nat)
    requires QueueInv(w, r, unread) && Enabled(w, a)
    ensures QueueInv(Next(w, a), r, unread + if a.DropReceiver? then TimesRead(w.queue, r) else 0)
  {
    var w' := Next(w, a);
    if (a.FlushLag? || a.SendEvent?) && w.receiverOpen && !Full(w) {
      var s := if a.FlushLag? then LagMarker(w.skipped) else Forwarded(w.pc.event);
      PushBalance(w, s, r, unread);
      assert w' == Push(w, s).(skipped := w'.skipped, pc := w'.pc);
    } else if a.Consume? {
      ConsumeBalance(w, r, unread);
    } else {
      assert w'.sent == w.sent && w'.consumed == w.consumed && (!a.DropReceiver? ==> w'.queue == w.queue);
    }
  }

  lemma {:induction false} QueueRun(w: World, acts: seq<Action>, r: ServerRequest, unread: nat)
    requires Valid(w, acts) && QueueInv(w, r, unread)
    ensures QueueInv(Exec(w, acts), r, unread + Unread(w, acts, r))
    decreases |acts|
  {
    if acts != [] {
      QueueStep(w, acts[0], r, unread);
      QueueRun(Next(w, acts[0]), acts[1..], r,
               unread + if acts[0].DropReceiver? then TimesRead(w.queue, r) else 0);
    }
  }

  lemma {:induction false} NothingUnread(w: World, acts: seq<Action>, r: ServerRequest)
    requires Valid(w, acts) && Exec(w, acts).receiverOpen
    ensures w.receiverOpen && Unread(w, acts, r) == 0
    decreases |acts|
  {
    if acts != [] { NothingUnread(Next(w, acts[0]), acts[1..], r); }
  }

  /**
   The balance at the consumer: every reading of a request was consumed, rejected, is queued or in hand,
   was put down in front of a closed channel, or was in the queue when the receiver was dropped.  The last
   two never happen while the consumer keeps its receiver.
   */
  lemma RequestsAccountedAtConsumer(capacity: nat, acts: seq<Action>, r: ServerRequest)
    requires Valid(Init(capacity), acts)
    ensures
      var start := Init(capacity);
      var w := Exec(start, acts);
      var accounted := TimesRead(w.consumed, r) + TimesRejected(w.rejected, r) + TimesRead(w.queue, r)
                       + TimesRead(InHand(w.pc), r);
      && TimesRead(w.read, r) == accounted + Missed(start, acts, r) + Unread(start, acts, r)
      && (TimesRead(w.read, r) == accounted <==> Missed(start, acts, r) == 0 && Unread(start, acts, r) == 0)
      && (w.receiverOpen ==> TimesRead(w.read, r) == accounted)
  {
    RequestsSettleIff(capacity, acts, r);
    QueueRun(Init(capacity), acts, r, 0);
    if Exec(Init(capacity), acts).receiverOpen { NothingUnread(Init(capacity), acts, r); }
  }

  // ---- exactly once ----

  lemma {:induction false} AuthRefreshNeverMissed(w: World, acts: seq<Action>, r: ServerRequest)
    requires Valid(w, acts) && ControlInv(w) && r.kind == ChatgptAuthTokensRefresh
    ensures Missed(w, acts, r) == 0 && Request(r) !in InHand(Exec(w, acts).pc)
    decreases |acts|
  {
    if acts != [] {
      ControlStep(w, acts[0]);
      AuthRefreshNeverMissed(Next(w, acts[0]), acts[1..], r);
    }
  }

  /**
   Exactly once.  A request that was read once and is no longer in hand was delivered or rejected, never
   both, and this happened exactly if it was not put down in front of a closed channel; so it always
   happened if the receiver is still open.
   */
  lemma RequestsExactlyOnce(capacity: nat, acts: seq<Action>, r: ServerRequest)
    requires Valid(Init(capacity), acts)
    requires TimesRead(Exec(Init(capacity), acts).read, r) == 1
    requires Request(r) !in InHand(Exec(Init(capacity), acts).pc)
    ensures
      var w := Exec(Init(capacity), acts);
      && Settled(w, r) <= 1
      && (Settled(w, r) == 1 <==> Missed(Init(capacity), acts, r) == 0)
      && (w.receiverOpen ==> Settled(w, r) == 1)
  {
    var w := Exec(Init(capacity), acts);
    RequestsSettleIff(capacity, acts, r);
    NotInHand(w, r);
  }

  lemma {:induction false} NotInHand(w: World, r: ServerRequest)
    requires Request(r) !in InHand(w.pc)
    ensures TimesRead(InHand(w.pc), r) == 0
  {
    if InHand(w.pc) != [] { assert InHand(w.pc)[..0] == []; }
  }

  /** A token-refresh request is rejected as often as it is read, in every run, and never delivered. */
  lemma AuthRefreshAlwaysRejected(capacity: nat, acts: seq<Action>, r: ServerRequest)
    requires Valid(Init(capacity), acts) && r.kind == ChatgptAuthTokensRefresh
    ensures
      var w := Exec(Init(capacity), acts);
      TimesRejected(w.rejected, r) == TimesRead(w.read, r) && TimesDelivered(w.sent, r) == 0
  {
    var w := Exec(Init(capacity), acts);
    RequestsSettleIff(capacity, acts, r);
    AuthRefreshNeverSent(Init(capacity), acts);
    AuthRefreshNeverMissed(Init(capacity), acts, r);
    NotInHand(w, r);
    DeliveredWasSent(w.sent, r);
  }

  /** The failing run: the request is read, the receiver dropped, and nobody is told. */
  function MissingRun(r: ServerRequest): seq<Action>
  {
    [ReadEvent(Request(r)), DropReceiver, SendEvent]
  }

  lemma {:induction false} RequestMayGoUnanswered(r: ServerRequest)
    requires r.kind == OrdinaryRequest
    ensures
      Valid(Init(1), MissingRun(r))
      && var w := Exec(Init(1), MissingRun(r));
         && TimesRead(w.read, r) == 1 && InHand(w.pc) == []
         && TimesDelivered(w.sent, r) == 0 && TimesRejected(w.rejected, r) == 0
  {
    var acts, w0 := MissingRun(r), Init(1);
    var w1 := Next(w0, acts[0]);
    var w2 := Next(w1, acts[1]);
    var w3 := Next(w2, acts[2]);
    assert acts[1..] == [acts[1], acts[2]] && acts[1..][1..] == [acts[2]] && acts[1..][1..][1..] == [];
    assert Valid(w3, []) && Valid(w2, [acts[2]]) && Valid(w1, acts[1..]);
    assert Exec(w0, acts) == Exec(w1, acts[1..]) == Exec(w2, [acts[2]]) == w3;
    TimesAppend(w0, r, Request(r), LagMarker(0), r);
  }
}
