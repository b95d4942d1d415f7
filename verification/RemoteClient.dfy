/**
 The remote client as imperative code: the handshake loop, the branches of the worker loop, the
 drain loop at its end, and `next_event`.  Every method is proved to take exactly the model's steps.
 */
module RemoteClient {
  import opened Options
  import opened Remote
  import Exit = RemoteExit
  import Routing = RemoteRouting

  /** A message together with the fate of the write it may provoke. */
  datatype Incoming = Incoming(message: Message, writeOk: bool)

  /** A step of the consumer. */
  datatype Reading = TakeEvent | CloseReceiver

  /** A branch of the worker's select loop, or something the consumer does between two of them. */
  datatype Input =
    | FromConsumer(reading: Reading)
    | FromServer(incoming: Incoming)
    | RequestCommand(id: RequestId, writeOk: bool)
    | OtherCommand
    | ShutdownCommand
    | SendersGone

  function ActionOf(input: Input): Action
  {
    match input
    case FromConsumer(reading) => if reading == TakeEvent then NextEvent else DropReceiver
    case FromServer(incoming) => ReadMessage(incoming.message, incoming.writeOk)
    case RequestCommand(id, writeOk) => TakeRequest(id, writeOk)
    case OtherCommand => TakeOtherCommand
    case ShutdownCommand => TakeShutdown
    case SendersGone => CommandsClosed
  }

  /** The handshake over a finite supply of messages; waiting for more of them ends in a timeout. */
  function AfterHandshake(w: World, incoming: seq<Incoming>): World
    requires w.phase == Connecting
    decreases |incoming|
  {
    if incoming == [] then Next(w, InitializeTimeout)
    else
      var w' := Next(w, ReadMessage(incoming[0].message, incoming[0].writeOk));
      if w'.phase == Connecting then AfterHandshake(w', incoming[1..]) else w'
  }

  /** Take the step if it is possible now; only steps of the consumer can be impossible while the worker runs. */
  function AfterInput(w: World, input: Input): World
  {
    if Enabled(w, ActionOf(input)) then Next(w, ActionOf(input)) else w
  }

  /** The worker loop, until it breaks or the inputs run out. */
  function AfterInputs(w: World, inputs: seq<Input>): World
    decreases |inputs|
  {
    if inputs == [] || w.phase != Running then w else AfterInputs(AfterInput(w, inputs[0]), inputs[1..])
  }

  function AfterReadings(w: World, readings: seq<Reading>): World
  {
    if readings == [] then w
    else AfterInput(AfterReadings(w, readings[..|readings| - 1]), FromConsumer(readings[|readings| - 1]))
  }

  /** Giving up on the requests still pending, in this order. */
  function AfterDrains(w: World, order: seq<RequestId>): World
  {
    if order == [] then w
    else
      var w' := AfterDrains(w, order[..|order| - 1]);
      var a := Drain(order[|order| - 1]);
      if Enabled(w', a) then Next(w', a) else w'
  }

  /** Connect, work, give up what is pending, finish; the consumer may go on reading afterwards. */
  function Lifetime(incoming: seq<Incoming>, inputs: seq<Input>, order: seq<RequestId>, readings: seq<Reading>): World
  {
    var drained := AfterDrains(AfterInputs(AfterHandshake(INIT, incoming), inputs), order);
    AfterReadings(if Enabled(drained, Finish) then Next(drained, Finish) else drained, readings)
  }

  class Client {
    var phase: Phase
    var pendingRequests: map<RequestId, nat>
    var pendingEvents: seq<Event>
    var queue: seq<Event>
    var receiverOpen: bool
    ghost var requests: seq<RequestId>
    ghost var completions: seq<Completion>
    ghost var traffic: seq<Traffic>
    ghost var messages: seq<Message>
    ghost var returned: seq<Event>
    ghost var rejections: seq<RequestId>
    ghost var disconnect: seq<Event>
    var nextWaiter: nat

    ghost function Model(): World
      reads this
    {
      World(phase, pendingRequests, pendingEvents, queue, receiverOpen, requests, completions, traffic,
            messages, returned, rejections, disconnect)
    }

    ghost predicate Numbered()
      reads this
    {
      nextWaiter == |requests|
    }

    constructor ()
      ensures Model() == INIT && Numbered()
    {
      phase, pendingRequests, nextWaiter := Connecting, map[], 0;
      pendingEvents, queue, receiverOpen := [], [], true;
      requests, completions, traffic, messages := [], [], [], [];
      returned, rejections, disconnect := [], [], [];
    }

    /** `initialize_remote_connection`, after the initialize request has been written. */
    method Initialize(incoming: seq<Incoming>)
      requires phase == Connecting && Numbered()
      modifies this
      ensures Model() == AfterHandshake(old(Model()), incoming) && Numbered()
      ensures phase == Running || phase == ConnectFailed
    {
      var i := 0;
      while phase == Connecting
        invariant 0 <= i <= |incoming| && Numbered()
        invariant phase == Connecting || phase == Running || phase == ConnectFailed
        invariant phase == Connecting ==>
                    AfterHandshake(old(Model()), incoming) == AfterHandshake(Model(), incoming[i..])
        invariant phase != Connecting ==> AfterHandshake(old(Model()), incoming) == Model()
        decreases |incoming| - i, phase == Connecting
      {
        if i == |incoming| {
          phase := ConnectFailed;
          return;
        }
        var message, writeOk := incoming[i].message, incoming[i].writeOk;
        assert incoming[i..][1..] == incoming[i + 1..];
        HandshakeMessage(message, writeOk);
        i := i + 1;
      }
    }

    method HandshakeMessage(message: Message, writeOk: bool)
      requires phase == Connecting && Numbered()
      modifies this
      ensures Model() == Next(old(Model()), ReadMessage(message, writeOk)) && Numbered()
    {
      messages := messages + [message];
      match message
      case Response(id, _) =>
        if id == INITIALIZE {
          phase := if writeOk then Running else ConnectFailed;
        }
      case ErrorReply(id, _) =>
        if id == INITIALIZE {
          phase := ConnectFailed;
        }
      case Notification(known, payload) =>
        if known {
          pendingEvents := pendingEvents + [ServerNotification(payload)];
        }
      case Request(id, known, payload) =>
        if known {
          pendingEvents := pendingEvents + [ServerRequest(id, payload)];
        } else {
          rejections := rejections + [id];
          if !writeOk {
            phase := ConnectFailed;
          }
        }
      case Ignored =>
      case InvalidJson => phase := ConnectFailed;
      case Close => phase := ConnectFailed;
      case TransportError => phase := ConnectFailed;
      case EndOfStream => phase := ConnectFailed;
    }

    method LeaveWith(cause: Cause)
      modifies this
      ensures Model() == Disconnect(old(Model()), cause) && nextWaiter == old(nextWaiter)
    {
      disconnect := disconnect + [Disconnected(cause)];
      if receiverOpen {
        queue := queue + [Disconnected(cause)];
      }
      phase := Draining(KindOf(cause));
    }

    method DeliverEvent(event: Event)
      modifies this
      ensures Model() == Deliver(old(Model()), event) && nextWaiter == old(nextWaiter)
    {
      if receiverOpen {
        queue := queue + [event];
      } else {
        phase := Draining(BrokenPipe);
      }
    }

    method CompletePending(id: RequestId, outcome: Outcome)
      modifies this
      ensures Model() == Reply(old(Model()), id, outcome) && nextWaiter == old(nextWaiter)
    {
      traffic := traffic + [Replied(id, outcome)];
      if id in pendingRequests {
        completions := completions + [Completion(pendingRequests[id], outcome)];
        pendingRequests := pendingRequests - {id};
      }
    }

    method HandleMessage(message: Message, writeOk: bool)
      requires phase == Running && Numbered()
      modifies this
      ensures Model() == Next(old(Model()), ReadMessage(message, writeOk)) && Numbered()
    {
      messages := messages + [message];
      match message
      case Response(id, result) => CompletePending(id, Result(result));
      case ErrorReply(id, error) => CompletePending(id, ServerError(error));
      case Notification(known, payload) =>
        if known {
          DeliverEvent(ServerNotification(payload));
        }
      case Request(id, known, payload) =>
        if known {
          DeliverEvent(ServerRequest(id, payload));
        } else {
          rejections := rejections + [id];
          if !writeOk {
            LeaveWith(WriteFailed);
          }
        }
      case InvalidJson => LeaveWith(SentInvalidJson);
      case Close => LeaveWith(ServerClosed);
      case Ignored =>
      case TransportError => LeaveWith(TransportFailed);
      case EndOfStream => LeaveWith(StreamEnded);
    }

    /** A request command: register the waiter, then write; a failed write takes it out again. */
    method HandleRequest(id: RequestId, writeOk: bool)
      requires phase == Running && Numbered()
      modifies this
      ensures Model() == Next(old(Model()), TakeRequest(id, writeOk)) && Numbered()
    {
      var waiter := nextWaiter;
      nextWaiter := nextWaiter + 1;
      requests := requests + [id];
      if id in pendingRequests {
        completions := completions + [Completion(waiter, IoError(InvalidInput))];
        return;
      }
      ghost var before := pendingRequests;
      pendingRequests := pendingRequests[id := waiter];
      if writeOk {
        traffic := traffic + [Written(id, waiter)];
      } else {
        completions := completions + [Completion(pendingRequests[id], IoError(OtherError))];
        pendingRequests := pendingRequests - {id};
        assert pendingRequests == before;
        LeaveWith(WriteFailed);
      }
    }

    /** The select loop of the worker. */
    method Work(inputs: seq<Input>)
      requires phase == Running && Numbered()
      modifies this
      ensures Model() == AfterInputs(old(Model()), inputs) && Numbered()
    {
      var i := 0;
      while i < |inputs| && phase == Running
        invariant 0 <= i <= |inputs| && Numbered()
        invariant AfterInputs(old(Model()), inputs) == AfterInputs(Model(), inputs[i..])
        decreases |inputs| - i
      {
        assert inputs[i..][1..] == inputs[i + 1..];
        match inputs[i] {
          case FromConsumer(reading) => Read(reading);
          case FromServer(incoming) => HandleMessage(incoming.message, incoming.writeOk);
          case RequestCommand(id, writeOk) => HandleRequest(id, writeOk);
          case OtherCommand =>
          case ShutdownCommand => phase := Draining(BrokenPipe);
          case SendersGone => phase := Draining(BrokenPipe);
        }
        i := i + 1;
      }
    }

    method GiveUpOn(id: RequestId)
      requires phase.Draining? && id in pendingRequests
      modifies this
      ensures Model() == Next(old(Model()), Drain(id))
      ensures |pendingRequests| == |old(pendingRequests)| - 1
    {
      completions := completions + [Completion(pendingRequests[id], IoError(phase.kind))];
      traffic := traffic + [Abandoned(id)];
      ghost var before := pendingRequests;
      pendingRequests := pendingRequests - {id};
      assert before.Keys == pendingRequests.Keys + {id};
    }

    /** The loop after the worker loop, in whatever order the map is walked. */
    method DrainPending() returns (ghost order: seq<RequestId>)
      requires phase.Draining?
      modifies this
      ensures phase == Exited && pendingRequests == map[]
      ensures |order| == |old(pendingRequests)|
      ensures Enabled(AfterDrains(old(Model()), order), Finish)
      ensures Model() == Next(AfterDrains(old(Model()), order), Finish)
    {
      order := [];
      while pendingRequests != map[]
        invariant phase.Draining?
        invariant |order| + |pendingRequests| == |old(pendingRequests)|
        invariant AfterDrains(old(Model()), order) == Model()
        decreases |pendingRequests|
      {
        var id :| id in pendingRequests;
        GiveUpOn(id);
        assert (order + [id])[..|order|] == order;
        order := order + [id];
      }
      phase := Exited;
    }

    /** A step of the consumer, if it is possible. */
    method Read(reading: Reading)
      modifies this
      ensures Model() == AfterInput(old(Model()), FromConsumer(reading))
      ensures nextWaiter == old(nextWaiter) && phase == old(phase)
    {
      if !receiverOpen || phase == Connecting || phase == ConnectFailed {
        return;
      }
      match reading
      case TakeEvent =>
        var _ := NextEventFromEither();
      case CloseReceiver =>
        receiverOpen, pendingEvents, queue := false, [], [];
    }

    method ReadAll(readings: seq<Reading>)
      modifies this
      ensures Model() == AfterReadings(old(Model()), readings) && phase == old(phase)
    {
      for i := 0 to |readings|
        invariant Model() == AfterReadings(old(Model()), readings[..i]) && phase == old(phase)
      {
        assert readings[..i + 1][..i] == readings[..i];
        Read(readings[i]);
      }
      assert readings[..|readings|] == readings;
    }

    /** The whole life of the client, from the written initialize request on. */
    method Live(incoming: seq<Incoming>, inputs: seq<Input>, readings: seq<Reading>)
      returns (ghost order: seq<RequestId>)
      requires Model() == INIT && Numbered()
      modifies this
      ensures Model() == Lifetime(incoming, inputs, order, readings)
      ensures !phase.Draining?
    {
      Initialize(incoming);
      if phase == Running {
        Work(inputs);
      }
      order := [];
      if phase.Draining? {
        order := DrainPending();
      }
      ReadAll(readings);
    }

    /** `next_event`: the handshake's events first, then the channel. */
    method NextEventFromEither() returns (event: Option<Event>)
      requires receiverOpen && phase != Connecting && phase != ConnectFailed
      modifies this
      ensures nextWaiter == old(nextWaiter) && phase == old(phase)
      ensures event == if old(pendingEvents + queue) == [] then None else Some(old(pendingEvents + queue)[0])
      ensures Model() == if event == None then old(Model()) else Next(old(Model()), NextEvent)
    {
      if pendingEvents != [] {
        event := Some(pendingEvents[0]);
        returned := returned + [pendingEvents[0]];
        pendingEvents := pendingEvents[1..];
      } else if queue != [] {
        event := Some(queue[0]);
        returned := returned + [queue[0]];
        queue := queue[1..];
      } else {
        event := None;
      }
    }
  }

  // ---- the functions take everything that comes ----

  function Reads(incoming: seq<Incoming>): seq<Action>
  {
    if incoming == [] then [] else [ReadMessage(incoming[0].message, incoming[0].writeOk)] + Reads(incoming[1..])
  }

  /** The handshake is decided by the first decisive message, and times out without one. */
  lemma {:induction false} HandshakeDecides(w: World, incoming: seq<Incoming>)
    requires w.phase == Connecting
    ensures Exit.Standing(AfterHandshake(w, incoming))
         == if Exit.FirstVerdict(Reads(incoming)) == Exit.Accepted then Exit.Accepted else Exit.Refused
    decreases |incoming|
  {
    if incoming != [] {
      var a := ReadMessage(incoming[0].message, incoming[0].writeOk);
      assert Reads(incoming)[0] == a && Reads(incoming)[1..] == Reads(incoming[1..]);
      Exit.VerdictStep(w, a);
      if Next(w, a).phase == Connecting { HandshakeDecides(Next(w, a), incoming[1..]); }
    }
  }

  function MessagesOf(inputs: seq<Input>): seq<Message>
  {
    if inputs == [] then []
    else (if inputs[0].FromServer? then [inputs[0].incoming.message] else []) + MessagesOf(inputs[1..])
  }

  function RequestsOf(inputs: seq<Input>): seq<RequestId>
  {
    if inputs == [] then []
    else (if inputs[0].RequestCommand? then [inputs[0].id] else []) + RequestsOf(inputs[1..])
  }

  lemma {:induction false} InputTaken(w: World, input: Input)
    requires w.phase == Running
    ensures
      var w' := AfterInput(w, input);
      && w'.messages == w.messages + (if input.FromServer? then [input.incoming.message] else [])
      && w'.requests == w.requests + if input.RequestCommand? then [input.id] else []
  {
    if input.FromServer? {
      var m := input.incoming.message;
      assert Work(w.(messages := w.messages + [m]), m, input.incoming.writeOk).messages == w.messages + [m];
    }
  }

  /** A worker that is still running has taken every message and every request, in order. */
  lemma {:induction false} InputsAllTaken(w: World, inputs: seq<Input>)
    requires w.phase == Running && AfterInputs(w, inputs).phase == Running
    ensures AfterInputs(w, inputs).messages == w.messages + MessagesOf(inputs)
    ensures AfterInputs(w, inputs).requests == w.requests + RequestsOf(inputs)
    decreases |inputs|
  {
    if inputs == [] {
      assert w.messages + [] == w.messages && w.requests + [] == w.requests;
    } else {
      var input, rest := inputs[0], inputs[1..];
      InputTaken(w, input);
      assert AfterInput(w, input).phase == Running;
      InputsAllTaken(AfterInput(w, input), rest);
      Regrouped(w.messages, if input.FromServer? then [input.incoming.message] else [], MessagesOf(rest));
      Regrouped(w.requests, if input.RequestCommand? then [input.id] else [], RequestsOf(rest));
    }
  }

  lemma {:induction false} Regrouped<T>(a: seq<T>, b: seq<T>, c: seq<T>)
    ensures a + b + c == a + (b + c)
  {
  }

  // ---- the functions perform runs ----

  lemma {:induction false} ValidSnoc(w: World, acts: seq<Action>, a: Action)
    requires Valid(w, acts) && Enabled(Exec(w, acts), a)
    ensures Valid(w, acts + [a]) && Exec(w, acts + [a]) == Next(Exec(w, acts), a)
    decreases |acts|
  {
    if acts == [] {
      assert (acts + [a])[1..] == [];
    } else {
      ValidSnoc(Next(w, acts[0]), acts[1..], a);
      assert (acts + [a])[1..] == acts[1..] + [a];
    }
  }

  lemma {:induction false} HandshakeRuns(start: World, acts: seq<Action>, w: World, incoming: seq<Incoming>)
    returns (more: seq<Action>)
    requires Valid(start, acts) && Exec(start, acts) == w && w.phase == Connecting
    ensures Valid(start, more) && Exec(start, more) == AfterHandshake(w, incoming)
    decreases |incoming|
  {
    var a := if incoming == [] then InitializeTimeout else ReadMessage(incoming[0].message, incoming[0].writeOk);
    ValidSnoc(start, acts, a);
    more := acts + [a];
    if incoming != [] && Next(w, a).phase == Connecting {
      more := HandshakeRuns(start, more, Next(w, a), incoming[1..]);
    }
  }

  lemma {:induction false} InputRuns(start: World, acts: seq<Action>, w: World, input: Input)
    returns (more: seq<Action>)
    requires Valid(start, acts) && Exec(start, acts) == w
    ensures Valid(start, more) && Exec(start, more) == AfterInput(w, input)
  {
    more := acts;
    if Enabled(w, ActionOf(input)) {
      ValidSnoc(start, acts, ActionOf(input));
      more := acts + [ActionOf(input)];
    }
  }

  lemma {:induction false} InputsRun(start: World, acts: seq<Action>, w: World, inputs: seq<Input>)
    returns (more: seq<Action>)
    requires Valid(start, acts) && Exec(start, acts) == w
    ensures Valid(start, more) && Exec(start, more) == AfterInputs(w, inputs)
    decreases |inputs|
  {
    more := acts;
    if inputs != [] && w.phase == Running {
      more := InputRuns(start, acts, w, inputs[0]);
      more := InputsRun(start, more, AfterInput(w, inputs[0]), inputs[1..]);
    }
  }

  lemma {:induction false} ReadingsRun(start: World, acts: seq<Action>, w: World, readings: seq<Reading>)
    returns (more: seq<Action>)
    requires Valid(start, acts) && Exec(start, acts) == w
    ensures Valid(start, more) && Exec(start, more) == AfterReadings(w, readings)
    decreases |readings|
  {
    more := acts;
    if readings != [] {
      var n := |readings| - 1;
      more := ReadingsRun(start, acts, w, readings[..n]);
      more := InputRuns(start, more, AfterReadings(w, readings[..n]), FromConsumer(readings[n]));
    }
  }

  lemma {:induction false} DrainsRun(start: World, acts: seq<Action>, w: World, order: seq<RequestId>)
    returns (more: seq<Action>)
    requires Valid(start, acts) && Exec(start, acts) == w
    ensures Valid(start, more) && Exec(start, more) == AfterDrains(w, order)
    decreases |order|
  {
    more := acts;
    if order != [] {
      var n := |order| - 1;
      more := DrainsRun(start, acts, w, order[..n]);
      if Enabled(AfterDrains(w, order[..n]), Drain(order[n])) {
        ValidSnoc(start, more, Drain(order[n]));
        more := more + [Drain(order[n])];
      }
    }
  }

  /** The whole life of a client, consumer included, is one run of the step system. */
  lemma {:induction false} LifetimeRuns(incoming: seq<Incoming>, inputs: seq<Input>, order: seq<RequestId>,
                                        readings: seq<Reading>)
    returns (acts: seq<Action>)
    ensures Valid(INIT, acts) && Exec(INIT, acts) == Lifetime(incoming, inputs, order, readings)
  {
    assert Valid(INIT, []) && Exec(INIT, []) == INIT;
    var connected := AfterHandshake(INIT, incoming);
    var drained := AfterDrains(AfterInputs(connected, inputs), order);
    acts := HandshakeRuns(INIT, [], INIT, incoming);
    acts := InputsRun(INIT, acts, connected, inputs);
    acts := DrainsRun(INIT, acts, AfterInputs(connected, inputs), order);
    if Enabled(drained, Finish) {
      ValidSnoc(INIT, acts, Finish);
      acts := ReadingsRun(INIT, acts + [Finish], Next(drained, Finish), readings);
    } else {
      acts := ReadingsRun(INIT, acts, drained, readings);
    }
  }

  /** A client whose worker has exited owes nobody an answer: every request it took was answered exactly once. */
  lemma {:induction false} ExitedClientAnsweredAll(incoming: seq<Incoming>, inputs: seq<Input>, order: seq<RequestId>,
                                                   readings: seq<Reading>, waiter: nat)
    requires Lifetime(incoming, inputs, order, readings).phase == Exited
    requires waiter < |Lifetime(incoming, inputs, order, readings).requests|
    ensures Routing.Times(Lifetime(incoming, inputs, order, readings).completions, waiter) == 1
  {
    var acts := LifetimeRuns(incoming, inputs, order, readings);
    Routing.WaitersCompleteOnce(acts, waiter);
  }
}
