/**
 What a consumer of the in-process event stream can rely on, over every run.

 The reference view is a ledger with one slot per forwarded event: a local lag marker stands for
 as many holes as it counts, a forwarded event for itself, and the events skipped since the last
 marker for as many holes again.
 */
module InProcessDelivery {
  import opened InProcess

  datatype Slot = Hole | Filled(event: Event)

  function Holes(n: nat): (s: seq<Slot>)
    ensures |s| == n
    ensures forall i | 0 <= i < n :: s[i] == Hole
  {
    if n == 0 then [] else Holes(n - 1) + [Hole]
  }

  function Expand(sent: seq<Sent>): seq<Slot>
  {
    if sent == [] then []
    else
      var last := sent[|sent| - 1];
      Expand(sent[..|sent| - 1]) + (if last.LagMarker? then Holes(last.count) else [Filled(last.event)])
  }

  function Ledger(w: World): seq<Slot>
  {
    Expand(w.sent) + Holes(w.skipped)
  }

  /** The events handed to `forward_in_process_event`: everything read but auth-refresh requests. */
  function Offered(read: seq<Event>): seq<Event>
  {
    if read == [] then []
    else
      var e := read[|read| - 1];
      Offered(read[..|read| - 1]) + (if IsAuthRefresh(e) then [] else [e])
  }

  function Erased(sent: seq<Sent>): seq<Event>
  {
    if sent == [] then [] else Erased(sent[..|sent| - 1]) + [Erase(sent[|sent| - 1])]
  }

  function InHand(pc: Pc): seq<Event>
  {
    if pc.Flushing? || pc.Sending? then [pc.event] else []
  }

  /** The transcript and completion events that backpressure must not drop, one by one. */
  predicate Lossless(e: Event)
  {
    e.ServerNotification?
    && e.kind in {TurnCompleted, ThreadSettingsUpdated, ItemCompleted, AgentMessageDelta, PlanDelta,
                  ReasoningSummaryTextDelta, ReasoningTextDelta}
  }

  lemma {:induction false} LosslessIsRequired(e: Event)
    ensures Lossless(e) <==> RequiresDelivery(e)
  {
  }

  /** Slot by slot, a filled slot holds exactly the event at that position and no lossless event is a hole. */
  predicate Aligned(slots: seq<Slot>, events: seq<Event>)
  {
    && |slots| <= |events|
    && forall i | 0 <= i < |slots| ::
         && (slots[i].Filled? ==> slots[i].event == events[i])
         && (slots[i].Hole? ==> !Lossless(events[i]))
  }

  predicate LedgerInv(w: World)
  {
    var offered := Offered(w.read);
    && Aligned(Ledger(w), offered)
    && offered[|Ledger(w)|..] == w.lost + InHand(w.pc)
  }

  predicate ControlInv(w: World)
  {
    && w.capacity >= 1
    && |w.queue| <= w.capacity && |w.commands| <= w.capacity
    && |w.lost| <= 1
    && (w.enabled <==> w.lost == []) && (w.receiverOpen ==> w.enabled)
    && (w.pc.Flushing? || w.pc.Sending? ==> w.enabled && !IsAuthRefresh(w.pc.event))
    && (w.pc.Sending? ==> w.skipped == 0)
  }

  predicate ChannelInv(w: World)
  {
    if w.receiverOpen then w.consumed + w.queue == Erased(w.sent)
    else w.consumed <= Erased(w.sent) && w.queue == []
  }

  function TimesRead(events: seq<Event>, r: ServerRequest): nat
  {
    if events == [] then 0
    else TimesRead(events[..|events| - 1], r) + (if events[|events| - 1] == Request(r) then 1 else 0)
  }

  function TimesDelivered(sent: seq<Sent>, r: ServerRequest): nat
  {
    if sent == [] then 0
    else TimesDelivered(sent[..|sent| - 1], r) + (if sent[|sent| - 1] == Forwarded(Request(r)) then 1 else 0)
  }

  function TimesRejected(rejected: seq<ServerRequest>, r: ServerRequest): nat
  {
    if rejected == [] then 0
    else TimesRejected(rejected[..|rejected| - 1], r) + (if rejected[|rejected| - 1] == r then 1 else 0)
  }

  /** Every reading of `r` is accounted for: delivered, rejected, lost to a closed channel, or still in hand. */
  predicate RequestInv(w: World, r: ServerRequest)
  {
    TimesRead(w.read, r)
    == TimesDelivered(w.sent, r) + TimesRejected(w.rejected, r)
       + TimesRead(w.lost, r) + TimesRead(InHand(w.pc), r)
  }

  // ---- one step ----

  lemma {:induction false} OfferedAppend(read: seq<Event>, e: Event)
    ensures Offered(read + [e]) == Offered(read) + (if IsAuthRefresh(e) then [] else [e])
  {
    assert (read + [e])[..|read|] == read;
  }

  lemma {:induction false} TimesAppend(w: World, r: ServerRequest, e: Event, s: Sent, x: ServerRequest)
    ensures TimesRead([], r) == 0
    ensures TimesRead([e], r) == if e == Request(r) then 1 else 0
    ensures TimesRead(w.read + [e], r) == TimesRead(w.read, r) + TimesRead([e], r)
    ensures TimesRead(w.lost + [e], r) == TimesRead(w.lost, r) + TimesRead([e], r)
    ensures TimesDelivered(w.sent + [s], r) == TimesDelivered(w.sent, r) + if s == Forwarded(Request(r)) then 1 else 0
    ensures TimesRejected(w.rejected + [x], r) == TimesRejected(w.rejected, r) + if x == r then 1 else 0
  {
    assert [] + [e] == [e];
    TimesReadSnoc([], e, r);
    TimesReadSnoc(w.read, e, r);
    TimesReadSnoc(w.lost, e, r);
    assert (w.sent + [s])[..|w.sent|] == w.sent;
    assert (w.rejected + [x])[..|w.rejected|] == w.rejected;
  }

  lemma {:induction false} TimesReadSnoc(events: seq<Event>, e: Event, r: ServerRequest)
    ensures TimesRead(events + [e], r) == TimesRead(events, r) + if e == Request(r) then 1 else 0
  {
    assert (events + [e])[..|events|] == events;
  }

  lemma {:induction false} ExpandAppend(sent: seq<Sent>, s: Sent)
    ensures Expand(sent + [s]) == Expand(sent) + (if s.LagMarker? then Holes(s.count) else [Filled(s.event)])
  {
    assert (sent + [s])[..|sent|] == sent;
  }

  lemma {:induction false} ErasedAppend(sent: seq<Sent>, s: Sent)
    ensures Erased(sent + [s]) == Erased(sent) + [Erase(s)]
  {
    assert (sent + [s])[..|sent|] == sent;
  }

  lemma {:induction false} OfferedBound(read: seq<Event>)
    ensures |Offered(read)| <= |read|
  {
    if read != [] { OfferedBound(read[..|read| - 1]); }
  }

  lemma {:induction false} ControlStep(w: World, a: Action)
    requires ControlInv(w) && Enabled(w, a)
    ensures ControlInv(Next(w, a))
  {
  }

  lemma {:induction false} ChannelStep(w: World, a: Action)
    requires ControlInv(w) && ChannelInv(w) && Enabled(w, a)
    ensures ChannelInv(Next(w, a))
  {
    var w' := Next(w, a);
    if (a.FlushLag? || a.SendEvent?) && w.receiverOpen && !Full(w) {
      var s := if a.FlushLag? then LagMarker(w.skipped) else Forwarded(w.pc.event);
      ChannelPush(w, s);
      assert w' == Push(w, s).(skipped := w'.skipped, pc := w'.pc);
    } else if a.Consume? {
      assert w'.consumed + w'.queue == w.consumed + w.queue;
    } else if a.DropReceiver? {
      assert w.consumed <= w.consumed + w.queue;
    } else {
      assert w'.sent == w.sent && w'.queue == w.queue && w'.consumed == w.consumed;
    }
  }

  lemma {:induction false} ChannelPush(w: World, s: Sent)
    requires ChannelInv(w) && w.receiverOpen
    ensures ChannelInv(Push(w, s))
  {
    ErasedAppend(w.sent, s);
    assert w.consumed + (w.queue + [Erase(s)]) == (w.consumed + w.queue) + [Erase(s)];
  }

  lemma {:induction false} RequestStep(w: World, a: Action, r: ServerRequest)
    requires ControlInv(w) && RequestInv(w, r) && Enabled(w, a)
    ensures RequestInv(Next(w, a), r)
  {
    if a.ReadEvent? {
      RequestRead(w, a.event, r);
    } else if a.FlushLag? || a.SendEvent? {
      RequestSettled(w, r);
      RequestPushed(w, r);
    } else {
      var w' := Next(w, a);
      assert w'.read == w.read && w'.sent == w.sent && w'.rejected == w.rejected && w'.lost == w.lost;
      assert InHand(w'.pc) == InHand(w.pc);
    }
  }

  lemma {:induction false} RequestRead(w: World, e: Event, r: ServerRequest)
    requires ControlInv(w) && RequestInv(w, r) && Enabled(w, ReadEvent(e))
    ensures RequestInv(Next(w, ReadEvent(e)), r)
  {
    var w' := Next(w, ReadEvent(e));
    assert InHand(w.pc) == [] && w'.lost == w.lost && w'.sent == w.sent && w'.read == w.read + [e];
    if IsAuthRefresh(e) {
      TimesAppend(w, r, e, LagMarker(0), e.request);
      assert InHand(w'.pc) == [] && w'.rejected == w.rejected + [e.request];
    } else {
      TimesAppend(w, r, e, LagMarker(0), r);
      assert InHand(w'.pc) == [e] && w'.rejected == w.rejected;
    }
  }

  lemma {:induction false} RequestPushed(w: World, r: ServerRequest)
    requires ControlInv(w) && RequestInv(w, r) && (w.pc.Flushing? || w.pc.Sending?)
    ensures w.pc.Flushing? ==>
              RequestInv(Push(w, LagMarker(w.skipped)).(skipped := 0, pc := Sending(w.pc.event)), r)
    ensures w.pc.Sending? ==> RequestInv(Push(w, Forwarded(w.pc.event)).(pc := Selecting), r)
  {
    TimesAppend(w, r, w.pc.event, LagMarker(w.skipped), r);
    TimesAppend(w, r, w.pc.event, Forwarded(w.pc.event), r);
  }

  /** Giving up on the event in hand, by rejecting it or by losing it, keeps the balance. */
  lemma {:induction false} RequestSettled(w: World, r: ServerRequest)
    requires ControlInv(w) && RequestInv(w, r) && (w.pc.Flushing? || w.pc.Sending?)
    ensures RequestInv(DropEvent(w, w.pc.event), r)
    ensures RequestInv(DisableStream(w, w.pc.event), r)
  {
    TimesAppend(w, r, w.pc.event, LagMarker(0), if w.pc.event.Request? then w.pc.event.request else r);
  }

  /** The step drops an event that the saturated skip counter can no longer count. */
  predicate DropsUncounted(w: World, a: Action)
  {
    (a.FlushLag? || a.SendEvent?) && Full(w) && w.skipped >= USIZE_MAX
  }

  lemma {:induction false} LedgerStep(w: World, a: Action)
    requires ControlInv(w) && LedgerInv(w) && Enabled(w, a) && !DropsUncounted(w, a)
    ensures LedgerInv(Next(w, a))
  {
    if a.ReadEvent? {
      LedgerRead(w, a.event);
    } else if a.FlushLag? {
      LedgerFlush(w);
    } else if a.SendEvent? {
      LedgerSend(w);
    } else {
      LedgerIdle(w, a);
    }
  }

  lemma {:induction false} LedgerIdle(w: World, a: Action)
    requires ControlInv(w) && LedgerInv(w) && Enabled(w, a)
    requires !a.ReadEvent? && !a.FlushLag? && !a.SendEvent?
    ensures LedgerInv(Next(w, a))
  {
    var w' := Next(w, a);
    assert w'.sent == w.sent && w'.skipped == w.skipped && w'.read == w.read;
    assert InHand(w'.pc) == InHand(w.pc) && w'.lost == w.lost;
  }

  lemma {:induction false} LedgerRead(w: World, e: Event)
    requires ControlInv(w) && LedgerInv(w) && Enabled(w, ReadEvent(e))
    ensures LedgerInv(Next(w, ReadEvent(e)))
  {
    var w' := Next(w, ReadEvent(e));
    OfferedAppend(w.read, e);
    assert Ledger(w') == Ledger(w);
    assert w.lost + InHand(w.pc) == [];
    assert w'.lost + InHand(w'.pc) == InHand(w'.pc);
  }

  lemma {:induction false} AlignedSnoc(slots: seq<Slot>, slot: Slot, events: seq<Event>, e: Event)
    requires Aligned(slots, events) && events[|slots|..] == [e]
    requires slot == Filled(e) || (slot == Hole && !Lossless(e))
    ensures Aligned(slots + [slot], events) && events[|slots| + 1..] == []
  {
    assert events[|slots|] == events[|slots|..][0];
    assert |events| == |slots| + 1;
  }

  /** Dropping the event in hand adds one hole at its position. */
  lemma {:induction false} LedgerDrop(w: World)
    requires ControlInv(w) && LedgerInv(w) && w.skipped < USIZE_MAX
    requires (w.pc.Flushing? || w.pc.Sending?) && !RequiresDelivery(w.pc.event)
    ensures LedgerInv(DropEvent(w, w.pc.event))
  {
    var w' := DropEvent(w, w.pc.event);
    assert w.lost + InHand(w.pc) == [w.pc.event];
    LosslessIsRequired(w.pc.event);
    AlignedSnoc(Ledger(w), Hole, Offered(w.read), w.pc.event);
    assert w'.skipped == w.skipped + 1;
    assert Ledger(w') == Ledger(w) + [Hole];
    assert w'.lost + InHand(w'.pc) == [];
  }

  lemma {:induction false} LedgerFlush(w: World)
    requires ControlInv(w) && LedgerInv(w) && Enabled(w, FlushLag) && !DropsUncounted(w, FlushLag)
    ensures LedgerInv(Next(w, FlushLag))
  {
    var e := w.pc.event;
    var w' := Next(w, FlushLag);
    assert w.lost + InHand(w.pc) == [e];
    if !w.receiverOpen {
      assert Ledger(w') == Ledger(w);
      assert w'.lost + InHand(w'.pc) == [e];
    } else if Full(w) {
      LedgerDrop(w);
    } else {
      ExpandAppend(w.sent, LagMarker(w.skipped));
      assert Ledger(w') == Ledger(w);
      assert w'.lost + InHand(w'.pc) == [e];
    }
  }

  lemma {:induction false} LedgerSend(w: World)
    requires ControlInv(w) && LedgerInv(w) && Enabled(w, SendEvent) && !DropsUncounted(w, SendEvent)
    ensures LedgerInv(Next(w, SendEvent))
  {
    var e := w.pc.event;
    var w' := Next(w, SendEvent);
    assert w.lost + InHand(w.pc) == [e];
    if !w.receiverOpen {
      assert Ledger(w') == Ledger(w);
      assert w'.lost + InHand(w'.pc) == [e];
    } else if Full(w) {
      LedgerDrop(w);
    } else {
      ExpandAppend(w.sent, Forwarded(e));
      AlignedSnoc(Ledger(w), Filled(e), Offered(w.read), e);
      assert Ledger(w') == Ledger(w) + [Filled(e)];
      assert w'.lost + InHand(w'.pc) == [];
    }
  }

  // ---- whole runs ----

  lemma {:induction false} ReadGrows(w: World, acts: seq<Action>)
    requires Valid(w, acts)
    ensures |w.read| <= |Exec(w, acts).read|
    decreases |acts|
  {
    if acts != [] { ReadGrows(Next(w, acts[0]), acts[1..]); }
  }

  lemma {:induction false} RunRequests(w: World, acts: seq<Action>, r: ServerRequest)
    requires Valid(w, acts)
    requires ControlInv(w) && RequestInv(w, r)
    ensures RequestInv(Exec(w, acts), r)
    decreases |acts|
  {
    if acts != [] {
      ControlStep(w, acts[0]);
      RequestStep(w, acts[0], r);
      RunRequests(Next(w, acts[0]), acts[1..], r);
    }
  }

  lemma {:induction false} RunInvariants(w: World, acts: seq<Action>)
    requires Valid(w, acts)
    requires ControlInv(w) && ChannelInv(w)
    ensures ControlInv(Exec(w, acts)) && ChannelInv(Exec(w, acts))
    decreases |acts|
  {
    if acts != [] {
      ControlStep(w, acts[0]);
      ChannelStep(w, acts[0]);
      RunInvariants(Next(w, acts[0]), acts[1..]);
    }
  }

  function UncountedDrops(w: World, acts: seq<Action>): nat
    requires Valid(w, acts)
    decreases |acts|
  {
    if acts == [] then 0
    else (if DropsUncounted(w, acts[0]) then 1 else 0) + UncountedDrops(Next(w, acts[0]), acts[1..])
  }

  /** Every event offered has a slot, is lost or in hand, or was dropped without being counted. */
  predicate LengthInv(w: World, uncounted: nat)
  {
    |Offered(w.read)| == |Expand(w.sent)| + w.skipped + |w.lost| + |InHand(w.pc)| + uncounted
  }

  lemma {:induction false} LengthStep(w: World, a: Action, uncounted: nat)
    requires LengthInv(w, uncounted) && Enabled(w, a)
    ensures LengthInv(Next(w, a), uncounted + if DropsUncounted(w, a) then 1 else 0)
  {
    if a.ReadEvent? {
      OfferedAppend(w.read, a.event);
    } else if a.FlushLag? || a.SendEvent? {
      LengthForward(w, a, uncounted);
    } else {
      var w' := Next(w, a);
      assert w'.read == w.read && w'.sent == w.sent && w'.skipped == w.skipped && w'.lost == w.lost;
      assert InHand(w'.pc) == InHand(w.pc);
    }
  }

  lemma {:induction false} LengthForward(w: World, a: Action, uncounted: nat)
    requires LengthInv(w, uncounted) && Enabled(w, a) && (a.FlushLag? || a.SendEvent?)
    ensures LengthInv(Next(w, a), uncounted + if DropsUncounted(w, a) then 1 else 0)
  {
    var w', e := Next(w, a), w.pc.event;
    if !w.receiverOpen {
      assert w' == DisableStream(w, e);
    } else if Full(w) {
      LengthDrop(w, uncounted);
    } else if a.FlushLag? {
      ExpandAppend(w.sent, LagMarker(w.skipped));
    } else {
      ExpandAppend(w.sent, Forwarded(e));
    }
  }

  lemma {:induction false} LengthDrop(w: World, uncounted: nat)
    requires LengthInv(w, uncounted) && (w.pc.Flushing? || w.pc.Sending?)
    ensures LengthInv(DropEvent(w, w.pc.event), uncounted + if w.skipped >= USIZE_MAX then 1 else 0)
  {
  }

  lemma {:induction false} RunLength(w: World, acts: seq<Action>, uncounted: nat)
    requires Valid(w, acts) && LengthInv(w, uncounted)
    ensures LengthInv(Exec(w, acts), uncounted + UncountedDrops(w, acts))
    decreases |acts|
  {
    if acts != [] {
      LengthStep(w, acts[0], uncounted);
      RunLength(Next(w, acts[0]), acts[1..], uncounted + if DropsUncounted(w, acts[0]) then 1 else 0);
    }
  }

  /** The counter cannot saturate before `usize::MAX` events have been read. */
  lemma {:induction false} ShortRunsCountAll(w: World, acts: seq<Action>)
    requires Valid(w, acts) && LengthInv(w, 0) && |Exec(w, acts).read| <= USIZE_MAX
    ensures UncountedDrops(w, acts) == 0
    decreases |acts|
  {
    if acts != [] {
      ReadGrows(w, acts);
      OfferedBound(w.read);
      assert !DropsUncounted(w, acts[0]);
      LengthStep(w, acts[0], 0);
      ShortRunsCountAll(Next(w, acts[0]), acts[1..]);
    }
  }

  lemma {:induction false} RunLedger(w: World, acts: seq<Action>)
    requires Valid(w, acts)
    requires ControlInv(w) && LedgerInv(w) && UncountedDrops(w, acts) == 0
    ensures LedgerInv(Exec(w, acts))
    decreases |acts|
  {
    if acts != [] {
      ControlStep(w, acts[0]);
      LedgerStep(w, acts[0]);
      RunLedger(Next(w, acts[0]), acts[1..]);
    }
  }

  /** Slot for slot: all events offered but the one in hand and the one lost to a closed channel. */
  predicate Positional(w: World)
  {
    var offered := Offered(w.read);
    var settled := |offered| - |InHand(w.pc)| - |w.lost|;
    && 0 <= settled == |Ledger(w)|
    && Aligned(Ledger(w), offered[..settled])
    && offered[settled..] == w.lost + InHand(w.pc)
  }

  /**
   Positional refinement.  For every capacity and every interleaving, the ledger lines up with the
   events offered, except for the one in the worker's hand and, once the stream is disabled, the
   single event on which that was noticed.  This holds exactly as long as the saturating skip
   counter counted every drop, so in every run that reads no more than `usize::MAX` events.
   */
  lemma ForwardingIsPositional(capacity: nat, acts: seq<Action>)
    requires Valid(Init(capacity), acts)
    ensures
      var w := Exec(Init(capacity), acts);
      && (Positional(w) <==> UncountedDrops(Init(capacity), acts) == 0)
      && (|w.read| <= USIZE_MAX ==> Positional(w))
      && |w.lost| <= 1 && (w.enabled <==> w.lost == [])
  {
    var start := Init(capacity);
    RunInvariants(start, acts);
    RunLength(start, acts, 0);
    if |Exec(start, acts).read| <= USIZE_MAX { ShortRunsCountAll(start, acts); }
    if UncountedDrops(start, acts) == 0 {
      RunLedger(start, acts);
      LedgerIsPositional(Exec(start, acts));
    }
  }

  lemma {:induction false} LedgerIsPositional(w: World)
    requires LedgerInv(w)
    ensures Positional(w)
  {
    var offered := Offered(w.read);
    assert |offered| == |Ledger(w)| + |offered[|Ledger(w)|..]|;
  }

  /** The event the consumer gets is the event read, or a marker with the worker's count. */
  predicate Shows(e: Event, s: Sent)
  {
    e == if s.LagMarker? then Lagged(s.count) else s.event
  }

  lemma {:induction false} ErasedShows(sent: seq<Sent>)
    ensures |Erased(sent)| == |sent| && forall i | 0 <= i < |sent| :: Shows(Erased(sent)[i], sent[i])
  {
    if sent != [] { ErasedShows(sent[..|sent| - 1]); }
  }

  lemma {:induction false} CapacityStays(w: World, acts: seq<Action>)
    requires Valid(w, acts)
    ensures Exec(w, acts).capacity == w.capacity
    decreases |acts|
  {
    if acts != [] { CapacityStays(Next(w, acts[0]), acts[1..]); }
  }

  /**
   While the receiver lives, what it got plus what is queued is what was sent, marker for marker; the
   channel holds as much as was asked for, but at least one event, and never more.
   */
  lemma ConsumerSeesWhatWasSent(capacity: nat, acts: seq<Action>)
    requires Valid(Init(capacity), acts)
    ensures
      var w := Exec(Init(capacity), acts);
      var seen := w.consumed + w.queue;
      && |w.queue| <= w.capacity == (if capacity == 0 then 1 else capacity)
      && |w.consumed| <= |w.sent| && (w.receiverOpen ==> |seen| == |w.sent|) && (!w.receiverOpen ==> w.queue == [])
      && forall i | 0 <= i < |seen| :: i < |w.sent| && Shows(seen[i], w.sent[i])
  {
    var w := Exec(Init(capacity), acts);
    RunInvariants(Init(capacity), acts);
    CapacityStays(Init(capacity), acts);
    ErasedShows(w.sent);
    assert w.receiverOpen || w.consumed + w.queue == w.consumed;
  }

  /** The worker's next channel operation, with an event in hand. */
  predicate InForward(w: World, a: Action)
  {
    (a.FlushLag? && w.pc.Flushing?) || (a.SendEvent? && w.pc.Sending?)
  }

  /** It waits exactly for a lossless event in front of a full, open channel; any other event is never waited for. */
  lemma {:induction false} WaitsIff(w: World, a: Action)
    requires InForward(w, a)
    ensures Enabled(w, a) <==> !(Lossless(w.pc.event) && w.receiverOpen && |w.queue| >= w.capacity)
  {
    LosslessIsRequired(w.pc.event);
  }

  /**
   What the operation does: with room it puts the marker or the event into the channel, a full channel
   costs the event one count and a request its rejection, and a closed one the event and the stream.
   */
  lemma {:induction false} ForwardingLaw(w: World, a: Action)
    requires InForward(w, a) && Enabled(w, a)
    ensures
      var w', e := Next(w, a), w.pc.event;
      if !w.receiverOpen then
        w' == w.(lost := w.lost + [e], enabled := false, pc := Selecting)
      else if |w.queue| < w.capacity then
        && w'.queue == w.queue + [if a.FlushLag? then Lagged(w.skipped) else e]
        && w'.skipped == (if a.FlushLag? then 0 else w.skipped) && w'.rejected == w.rejected && w'.lost == w.lost
        && w'.pc == if a.FlushLag? then Sending(e) else Selecting
      else
        && w'.queue == w.queue && w'.sent == w.sent && w'.lost == w.lost && w'.pc == Selecting
        && w'.skipped == (if w.skipped < USIZE_MAX then w.skipped + 1 else w.skipped)
        && w'.rejected == w.rejected + if e.Request? then [e.request] else []
  {
  }

  lemma {:induction false} DeliveredWasSent(sent: seq<Sent>, r: ServerRequest)
    ensures TimesDelivered(sent, r) > 0 ==> Forwarded(Request(r)) in sent
  {
    if sent != [] {
      var n := |sent| - 1;
      DeliveredWasSent(sent[..n], r);
      assert sent == sent[..n] + [sent[n]];
    }
  }

  /** Auth-refresh requests are never put into the event channel. */
  lemma {:induction false} AuthRefreshNeverSent(w: World, acts: seq<Action>)
    requires Valid(w, acts) && ControlInv(w)
    requires forall s | s in w.sent :: s.Forwarded? ==> !IsAuthRefresh(s.event)
    ensures forall s | s in Exec(w, acts).sent :: s.Forwarded? ==> !IsAuthRefresh(s.event)
    decreases |acts|
  {
    if acts != [] {
      ControlStep(w, acts[0]);
      AuthRefreshNeverSent(Next(w, acts[0]), acts[1..]);
    }
  }
}
