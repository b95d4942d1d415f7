/**
 Routing of replies: who gets which answer, how often, and how frames and replies balance.

 The reference view reads only the traffic.  An id is outstanding when the last entry that
 mentions it is a written request; a reply belongs to that request's waiter, or to nobody.
 */
module RemoteRouting {
  import opened Options
  import opened Remote

  /** The waiter owed a reply for `id`, by looking back to the last entry that mentions it. */
  function Outstanding(traffic: seq<Traffic>, id: RequestId): Option<nat>
  {
    if traffic == [] then None
    else
      var last := traffic[|traffic| - 1];
      if last.id != id then Outstanding(traffic[..|traffic| - 1], id)
      else if last.Written? then Some(last.waiter)
      else None
  }

  /** The completions the traffic calls for: one for each reply that finds its id outstanding. */
  function Routed(traffic: seq<Traffic>): seq<Completion>
  {
    if traffic == [] then []
    else
      var before := traffic[..|traffic| - 1];
      var last := traffic[|traffic| - 1];
      Routed(before) + if last.Replied? && Outstanding(before, last.id).Some?
                       then [Completion(Outstanding(before, last.id).value, last.outcome)] else []
  }

  /** The completions that carry something the server sent. */
  function FromServer(completions: seq<Completion>): seq<Completion>
  {
    if completions == [] then []
    else
      var last := completions[|completions| - 1];
      FromServer(completions[..|completions| - 1]) + if last.outcome.IoError? then [] else [last]
  }

  function Times(completions: seq<Completion>, waiter: int): nat
  {
    if completions == [] then 0
    else Times(completions[..|completions| - 1], waiter)
         + if completions[|completions| - 1].waiter == waiter then 1 else 0
  }

  function FramesWritten(traffic: seq<Traffic>, id: RequestId): nat
  {
    if traffic == [] then 0
    else
      var last := traffic[|traffic| - 1];
      FramesWritten(traffic[..|traffic| - 1], id) + if last.Written? && last.id == id then 1 else 0
  }

  function RepliesMatched(traffic: seq<Traffic>, id: RequestId): nat
  {
    if traffic == [] then 0
    else
      var before := traffic[..|traffic| - 1];
      var last := traffic[|traffic| - 1];
      RepliesMatched(before, id) + if last.Replied? && last.id == id && Outstanding(before, id).Some? then 1 else 0
  }

  function GivenUp(traffic: seq<Traffic>, id: RequestId): nat
  {
    if traffic == [] then 0
    else
      var last := traffic[|traffic| - 1];
      GivenUp(traffic[..|traffic| - 1], id) + if last.Abandoned? && last.id == id then 1 else 0
  }

  predicate IsPending(w: World, waiter: int)
  {
    0 <= waiter < |w.requests|
    && w.requests[waiter] in w.pending && w.pending[w.requests[waiter]] == waiter
  }

  // ---- invariants, one id and one waiter at a time ----

  predicate PendingInv(w: World, id: RequestId)
  {
    && (id in w.pending ==> w.pending[id] < |w.requests| && w.requests[w.pending[id]] == id)
    && Outstanding(w.traffic, id) == (if id in w.pending then Some(w.pending[id]) else None)
  }

  predicate WaiterInv(w: World, waiter: int)
  {
    Times(w.completions, waiter)
    == if 0 <= waiter < |w.requests| && !IsPending(w, waiter) then 1 else 0
  }

  predicate FrameInv(w: World, id: RequestId)
  {
    FramesWritten(w.traffic, id)
    == RepliesMatched(w.traffic, id) + GivenUp(w.traffic, id) + if id in w.pending then 1 else 0
  }

  predicate RoutedInv(w: World)
  {
    && FromServer(w.completions) == Routed(w.traffic)
    && (w.phase == Exited ==> w.pending == map[])
  }

  lemma {:induction false} TrafficAppend(traffic: seq<Traffic>, t: Traffic, id: RequestId)
    ensures Outstanding(traffic + [t], id)
         == if t.id != id then Outstanding(traffic, id) else if t.Written? then Some(t.waiter) else None
    ensures FramesWritten(traffic + [t], id)
         == FramesWritten(traffic, id) + if t.Written? && t.id == id then 1 else 0
    ensures RepliesMatched(traffic + [t], id)
         == RepliesMatched(traffic, id) + if t.Replied? && t.id == id && Outstanding(traffic, id).Some? then 1 else 0
    ensures GivenUp(traffic + [t], id) == GivenUp(traffic, id) + if t.Abandoned? && t.id == id then 1 else 0
  {
    assert (traffic + [t])[..|traffic|] == traffic;
  }

  lemma {:induction false} RoutedAppend(traffic: seq<Traffic>, t: Traffic)
    ensures Routed(traffic + [t])
         == Routed(traffic) + if t.Replied? && Outstanding(traffic, t.id).Some?
                              then [Completion(Outstanding(traffic, t.id).value, t.outcome)] else []
  {
    assert (traffic + [t])[..|traffic|] == traffic;
  }

  lemma {:induction false} CompletionAppend(completions: seq<Completion>, c: Completion, waiter: int)
    ensures Times(completions + [c], waiter) == Times(completions, waiter) + if c.waiter == waiter then 1 else 0
    ensures FromServer(completions + [c]) == FromServer(completions) + if c.outcome.IoError? then [] else [c]
  {
    assert (completions + [c])[..|completions|] == completions;
  }

  // ---- the three kinds of step that matter ----

  predicate Routing(w: World, id: RequestId, waiter: int)
  {
    PendingInv(w, id) && WaiterInv(w, waiter) && FrameInv(w, id) && RoutedInv(w)
  }

  /** Steps that neither complete a waiter nor touch the pending map. */
  lemma {:induction false} QuietStep(w: World, w': World, id: RequestId, waiter: int)
    requires Routing(w, id, waiter)
    requires w'.pending == w.pending && w'.requests == w.requests
    requires w'.completions == w.completions && w'.traffic == w.traffic
    requires w'.phase == Exited ==> w'.pending == map[]
    ensures Routing(w', id, waiter)
  {
  }

  lemma {:induction false} ReplyStep(w: World, from: RequestId, outcome: Outcome, id: RequestId, waiter: int)
    requires Routing(w, id, waiter) && PendingInv(w, from)
    requires !outcome.IoError? && w.phase == Running
    ensures Routing(Reply(w, from, outcome), id, waiter)
  {
    TrafficAppend(w.traffic, Replied(from, outcome), id);
    RoutedAppend(w.traffic, Replied(from, outcome));
    if from in w.pending {
      CompletionAppend(w.completions, Completion(w.pending[from], outcome), waiter);
    }
  }

  lemma {:induction false} SubmitStep(w: World, from: RequestId, writeOk: bool, id: RequestId, waiter: int)
    requires Routing(w, id, waiter) && PendingInv(w, from)
    requires w.phase == Running
    ensures Routing(Submit(w, from, writeOk), id, waiter)
  {
    var k := |w.requests|;
    if from in w.pending {
      RefuseStep(w, from, IoError(InvalidInput), id, waiter);
    } else if writeOk {
      TrafficAppend(w.traffic, Written(from, k), id);
      RoutedAppend(w.traffic, Written(from, k));
    } else {
      RefuseStep(w, from, IoError(OtherError), id, waiter);
      var refused := Complete(w.(requests := w.requests + [from]), k, IoError(OtherError));
      QuietStep(refused, Disconnect(refused, WriteFailed), id, waiter);
    }
  }

  /** A request answered on the spot, without a frame. */
  lemma {:induction false} RefuseStep(w: World, from: RequestId, outcome: Outcome, id: RequestId, waiter: int)
    requires Routing(w, id, waiter) && PendingInv(w, from)
    requires w.phase == Running && outcome.IoError?
    ensures Routing(Complete(w.(requests := w.requests + [from]), |w.requests|, outcome), id, waiter)
  {
    CompletionAppend(w.completions, Completion(|w.requests|, outcome), waiter);
  }

  lemma {:induction false} DrainStep(w: World, from: RequestId, id: RequestId, waiter: int)
    requires Routing(w, id, waiter) && PendingInv(w, from)
    requires Enabled(w, Drain(from))
    ensures Routing(Next(w, Drain(from)), id, waiter)
  {
    TrafficAppend(w.traffic, Abandoned(from), id);
    RoutedAppend(w.traffic, Abandoned(from));
    CompletionAppend(w.completions, Completion(w.pending[from], IoError(w.phase.kind)), waiter);
  }

  /** The id a step is about, besides the one in question. */
  function Concerns(a: Action): RequestId
  {
    match a
    case TakeRequest(id, _) => id
    case Drain(id) => id
    case ReadMessage(Response(id, _), _) => id
    case ReadMessage(ErrorReply(id, _), _) => id
    case _ => INITIALIZE
  }

  lemma {:induction false} ReadStep(w: World, m: Message, writeOk: bool, id: RequestId, waiter: int)
    requires Routing(w, id, waiter) && PendingInv(w, Concerns(ReadMessage(m, writeOk)))
    requires Enabled(w, ReadMessage(m, writeOk))
    ensures Routing(Next(w, ReadMessage(m, writeOk)), id, waiter)
  {
    var w' := w.(messages := w.messages + [m]);
    QuietStep(w, w', id, waiter);
    if w.phase == Running && m.Response? {
      ReplyStep(w', m.id, Result(m.result), id, waiter);
    } else if w.phase == Running && m.ErrorReply? {
      ReplyStep(w', m.id, ServerError(m.error), id, waiter);
    } else {
      QuietStep(w, Next(w, ReadMessage(m, writeOk)), id, waiter);
    }
  }

  lemma {:induction false} RoutingStep(w: World, a: Action, id: RequestId, waiter: int)
    requires Routing(w, id, waiter) && PendingInv(w, Concerns(a)) && Enabled(w, a)
    ensures Routing(Next(w, a), id, waiter)
  {
    match a
    case TakeRequest(from, writeOk) => SubmitStep(w, from, writeOk, id, waiter);
    case Drain(from) => DrainStep(w, from, id, waiter);
    case ReadMessage(m, writeOk) => ReadStep(w, m, writeOk, id, waiter);
    case _ => QuietStep(w, Next(w, a), id, waiter);
  }

  lemma {:induction false} RoutingRun(w: World, acts: seq<Action>)
    requires Valid(w, acts)
    requires forall id, waiter :: Routing(w, id, waiter)
    ensures forall id, waiter :: Routing(Exec(w, acts), id, waiter)
    decreases |acts|
  {
    if acts != [] {
      assert PendingInv(w, Concerns(acts[0])) by { assert Routing(w, Concerns(acts[0]), 0); }
      forall id, waiter ensures Routing(Next(w, acts[0]), id, waiter) {
        RoutingStep(w, acts[0], id, waiter);
      }
      RoutingRun(Next(w, acts[0]), acts[1..]);
    }
  }

  // ---- whole runs ----

  /**
   Every request command the worker dequeued has its waiter completed at most once, exactly once
   unless it is still pending, and nothing is pending when the worker has exited.
   */
  lemma WaitersCompleteOnce(acts: seq<Action>, waiter: nat)
    requires Valid(INIT, acts) && waiter < |Exec(INIT, acts).requests|
    ensures
      var w := Exec(INIT, acts);
      && Times(w.completions, waiter) == (if IsPending(w, waiter) then 0 else 1)
      && (w.phase == Exited ==> Times(w.completions, waiter) == 1)
  {
    RoutingRun(INIT, acts);
    assert Routing(Exec(INIT, acts), INITIALIZE, waiter);
  }

  /** Server results go where the traffic says, and the pending map is what the traffic says. */
  lemma RepliesFollowTraffic(acts: seq<Action>, id: RequestId)
    requires Valid(INIT, acts)
    ensures
      var w := Exec(INIT, acts);
      && FromServer(w.completions) == Routed(w.traffic)
      && Outstanding(w.traffic, id) == (if id in w.pending then Some(w.pending[id]) else None)
  {
    RoutingRun(INIT, acts);
    assert Routing(Exec(INIT, acts), id, 0);
  }

  /** For each id, frames written balance replies matched, requests given up at exit, and the pending one. */
  lemma FramesBalance(acts: seq<Action>, id: RequestId)
    requires Valid(INIT, acts)
    ensures
      var w := Exec(INIT, acts);
      FramesWritten(w.traffic, id)
      == RepliesMatched(w.traffic, id) + GivenUp(w.traffic, id) + if id in w.pending then 1 else 0
  {
    RoutingRun(INIT, acts);
    assert Routing(Exec(INIT, acts), id, 0);
  }

  /** `j` is a reply to the request written at `i`: same id, and nothing about that id in between. */
  predicate Answers(traffic: seq<Traffic>, i: int, j: int)
  {
    && 0 <= i < j < |traffic|
    && traffic[i].Written? && traffic[j].Replied? && traffic[i].id == traffic[j].id
    && forall m | i < m < j :: traffic[m].id != traffic[i].id
  }

  lemma {:induction false} OutstandingAt(traffic: seq<Traffic>, id: RequestId) returns (i: nat)
    requires Outstanding(traffic, id).Some?
    ensures i < |traffic| && traffic[i] == Written(id, Outstanding(traffic, id).value)
    ensures forall m | i < m < |traffic| :: traffic[m].id != id
  {
    var n := |traffic| - 1;
    if traffic[n].id == id {
      i := n;
    } else {
      i := OutstandingAt(traffic[..n], id);
    }
  }

  lemma {:induction false} RoutedAnswers(traffic: seq<Traffic>, k: nat) returns (i: nat, j: nat)
    requires k < |Routed(traffic)|
    ensures Answers(traffic, i, j)
    ensures Routed(traffic)[k] == Completion(traffic[i].waiter, traffic[j].outcome)
  {
    var n := |traffic| - 1;
    var before := traffic[..n];
    if k < |Routed(before)| {
      i, j := RoutedAnswers(before, k);
    } else {
      i := OutstandingAt(before, traffic[n].id);
      j := n;
    }
  }

  /** A written frame names the id of the command its waiter was numbered by. */
  predicate WrittenInv(w: World)
  {
    forall i | 0 <= i < |w.traffic| && w.traffic[i].Written? ::
      w.traffic[i].waiter < |w.requests| && w.requests[w.traffic[i].waiter] == w.traffic[i].id
  }

  lemma {:induction false} WrittenStep(w: World, a: Action)
    requires WrittenInv(w) && Enabled(w, a)
    ensures WrittenInv(Next(w, a))
  {
    var w' := Next(w, a);
    if a.TakeRequest? {
      assert w'.requests[..|w.requests|] == w.requests;
    } else {
      assert w'.requests == w.requests;
      assert w'.traffic == w.traffic
             || (w'.traffic == w.traffic + [w'.traffic[|w.traffic|]] && !w'.traffic[|w.traffic|].Written?);
    }
  }

  lemma {:induction false} WrittenRun(w: World, acts: seq<Action>)
    requires Valid(w, acts) && WrittenInv(w)
    ensures WrittenInv(Exec(w, acts))
    decreases |acts|
  {
    if acts != [] {
      WrittenStep(w, acts[0]);
      WrittenRun(Next(w, acts[0]), acts[1..]);
    }
  }

  /**
   A server result reaches a waiter only as the first word on that waiter's own id after its frame
   was written, as section 5 of JSON-RPC 2.0 asks of the `id` member.
   */
  lemma ResultsReachTheirOwnWaiter(acts: seq<Action>, k: nat) returns (i: nat, j: nat)
    requires Valid(INIT, acts)
    requires k < |FromServer(Exec(INIT, acts).completions)|
    ensures
      var w := Exec(INIT, acts);
      var c := FromServer(w.completions)[k];
      && Answers(w.traffic, i, j)
      && c.waiter == w.traffic[i].waiter < |w.requests|
      && w.requests[c.waiter] == w.traffic[j].id
      && c.outcome == w.traffic[j].outcome
  {
    var w := Exec(INIT, acts);
    RepliesFollowTraffic(acts, INITIALIZE);
    i, j := RoutedAnswers(w.traffic, k);
    WrittenRun(INIT, acts);
  }

  /** The replies in the traffic, in order. */
  function RepliesIn(traffic: seq<Traffic>): seq<Traffic>
  {
    if traffic == [] then []
    else RepliesIn(traffic[..|traffic| - 1]) + if traffic[|traffic| - 1].Replied? then [traffic[|traffic| - 1]] else []
  }

  /** The response to `initialize` is among these messages. */
  predicate Greeted(messages: seq<Message>)
  {
    messages != []
    && (Greeted(messages[..|messages| - 1])
        || (messages[|messages| - 1].Response? && messages[|messages| - 1].id == INITIALIZE))
  }

  function AsReply(m: Message): seq<Traffic>
  {
    if m.Response? then [Replied(m.id, Result(m.result))]
    else if m.ErrorReply? then [Replied(m.id, ServerError(m.error))]
    else []
  }

  /** The replies among the messages read after the response to `initialize`. */
  function RepliesAfterConnect(messages: seq<Message>): seq<Traffic>
  {
    if messages == [] then []
    else
      var before := messages[..|messages| - 1];
      RepliesAfterConnect(before) + if Greeted(before) then AsReply(messages[|messages| - 1]) else []
  }

  predicate StreamInv(w: World)
  {
    && RepliesIn(w.traffic) == RepliesAfterConnect(w.messages)
    && (w.phase == Connecting ==> !Greeted(w.messages))
    && (w.phase == Running ==> Greeted(w.messages))
  }

  lemma {:induction false} StreamAppend(traffic: seq<Traffic>, t: Traffic)
    ensures RepliesIn(traffic + [t]) == RepliesIn(traffic) + if t.Replied? then [t] else []
  {
    assert (traffic + [t])[..|traffic|] == traffic;
  }

  lemma {:induction false} GreetedAppend(messages: seq<Message>, m: Message)
    ensures Greeted(messages + [m]) <==> Greeted(messages) || (m.Response? && m.id == INITIALIZE)
    ensures RepliesAfterConnect(messages + [m])
         == RepliesAfterConnect(messages) + if Greeted(messages) then AsReply(m) else []
  {
    assert (messages + [m])[..|messages|] == messages;
  }

  lemma {:induction false} StreamRead(w: World, m: Message, writeOk: bool)
    requires StreamInv(w) && Enabled(w, ReadMessage(m, writeOk))
    ensures StreamInv(Next(w, ReadMessage(m, writeOk)))
  {
    GreetedAppend(w.messages, m);
    var w1 := w.(messages := w.messages + [m]);
    if w.phase == Connecting {
      StreamHandshake(w1, m, writeOk);
    } else {
      StreamWork(w1, m, writeOk);
    }
  }

  lemma {:induction false} StreamHandshake(w: World, m: Message, writeOk: bool)
    requires w.phase == Connecting
    requires RepliesIn(w.traffic) == RepliesAfterConnect(w.messages)
    requires Greeted(w.messages) <==> m.Response? && m.id == INITIALIZE
    ensures StreamInv(Handshake(w, m, writeOk))
  {
    var w' := Handshake(w, m, writeOk);
    assert w'.traffic == w.traffic && w'.messages == w.messages;
  }

  lemma {:induction false} StreamWork(w: World, m: Message, writeOk: bool)
    requires w.phase == Running && Greeted(w.messages)
    requires RepliesIn(w.traffic) + AsReply(m) == RepliesAfterConnect(w.messages)
    ensures StreamInv(Work(w, m, writeOk))
  {
    WorkTraffic(w, m, writeOk);
    if AsReply(m) != [] {
      StreamAppend(w.traffic, AsReply(m)[0]);
      assert AsReply(m) == [AsReply(m)[0]];
    }
  }

  lemma {:induction false} WorkTraffic(w: World, m: Message, writeOk: bool)
    requires w.phase == Running
    ensures
      var w' := Work(w, m, writeOk);
      w'.messages == w.messages && w'.phase != Connecting && w'.traffic == w.traffic + AsReply(m)
  {
  }

  lemma {:induction false} StreamStep(w: World, a: Action)
    requires StreamInv(w) && Enabled(w, a)
    ensures StreamInv(Next(w, a))
  {
    match a
    case ReadMessage(m, writeOk) => StreamRead(w, m, writeOk);
    case TakeRequest(id, _) => StreamAppend(w.traffic, Written(id, |w.requests|));
    case Drain(id) => StreamAppend(w.traffic, Abandoned(id));
    case _ =>
  }

  lemma {:induction false} StreamRun(w: World, acts: seq<Action>)
    requires Valid(w, acts) && StreamInv(w)
    ensures StreamInv(Exec(w, acts))
    decreases |acts|
  {
    if acts != [] {
      StreamStep(w, acts[0]);
      StreamRun(Next(w, acts[0]), acts[1..]);
    }
  }

  /** No reply after the handshake is overlooked or invented, whether or not anyone waits for it. */
  lemma TrafficHasEveryReply(acts: seq<Action>)
    requires Valid(INIT, acts)
    ensures RepliesIn(Exec(INIT, acts).traffic) == RepliesAfterConnect(Exec(INIT, acts).messages)
  {
    StreamRun(INIT, acts);
  }
}
