/**
 The remote app-server client (codex-rs/app-server-client/src/remote.rs) as a step system: the
 initialize handshake, the worker that multiplexes JSON-RPC requests over one stream, and the
 consumer of the event queue, with their steps in any order.

 Whether a method is known to the client is a property of the message; whether a write succeeds
 is chosen by the environment.
 */
module Remote {
  import opened Options

  datatype RequestId = Text(text: string) | Number(value: int)

  const INITIALIZE := Text("initialize")

  /** What `stream.next()` yields. */
  datatype Message =
    | Response(id: RequestId, result: int)
    | ErrorReply(id: RequestId, error: int)
    | Notification(known: bool, payload: int)
    | Request(id: RequestId, known: bool, payload: int)
    | InvalidJson
    | Close
    | Ignored             // binary, ping, pong and raw frames
    | TransportError
    | EndOfStream

  datatype ErrorKind = BrokenPipe | InvalidInput | InvalidData | ConnectionAborted | UnexpectedEof | OtherError

  datatype Cause = WriteFailed | SentInvalidJson | ServerClosed | TransportFailed | StreamEnded

  datatype Event =
    | ServerNotification(payload: int)
    | ServerRequest(id: RequestId, payload: int)
    | Disconnected(cause: Cause)

  datatype Outcome = Result(value: int) | ServerError(error: int) | IoError(kind: ErrorKind)

  /** A value sent through the oneshot channel of the request command with this number. */
  datatype Completion = Completion(waiter: nat, outcome: Outcome)

  /** The traffic that concerns client requests, plus the moments the exiting worker gives up on one. */
  datatype Traffic =
    | Written(id: RequestId, waiter: nat)
    | Replied(id: RequestId, outcome: Outcome)
    | Abandoned(id: RequestId)

  datatype Phase = Connecting | ConnectFailed | Running | Draining(kind: ErrorKind) | Exited

  datatype World = World(
    phase: Phase,
    pending: map<RequestId, nat>,   // `pending_requests`; waiters are numbered by their command
    pendingEvents: seq<Event>,      // buffered by the handshake
    queue: seq<Event>,              // the unbounded event channel
    receiverOpen: bool,
    // histories
    requests: seq<RequestId>,       // the ids of the request commands dequeued so far
    completions: seq<Completion>,
    traffic: seq<Traffic>,
    messages: seq<Message>,         // everything read from the stream, in both phases
    returned: seq<Event>,           // what `next_event` handed out
    rejections: seq<RequestId>,     // attempted -32601 replies
    disconnect: seq<Event>          // the Disconnected event, once produced
  )

  datatype Action =
    | ReadMessage(message: Message, writeOk: bool)
    | InitializeTimeout
    | TakeRequest(id: RequestId, writeOk: bool)
    | TakeOtherCommand              // notify, resolve, reject: one write, one answer
    | TakeShutdown
    | CommandsClosed
    | Drain(id: RequestId)
    | Finish
    | NextEvent
    | DropReceiver

  const INIT := World(Connecting, map[], [], [], true, [], [], [], [], [], [], [])

  predicate Connected(w: World)
  {
    w.phase != Connecting && w.phase != ConnectFailed
  }

  predicate Enabled(w: World, a: Action)
  {
    match a
    case ReadMessage(_, _) => w.phase == Connecting || w.phase == Running
    case InitializeTimeout => w.phase == Connecting
    case TakeRequest(_, _) => w.phase == Running
    case TakeOtherCommand => w.phase == Running
    case TakeShutdown => w.phase == Running
    case CommandsClosed => w.phase == Running
    case Drain(id) => w.phase.Draining? && id in w.pending
    case Finish => w.phase.Draining? && w.pending == map[]
    case NextEvent => Connected(w) && w.receiverOpen && w.pendingEvents + w.queue != []
    case DropReceiver => Connected(w) && w.receiverOpen
  }

  function KindOf(cause: Cause): ErrorKind
  {
    match cause
    case WriteFailed => BrokenPipe
    case SentInvalidJson => InvalidData
    case ServerClosed => ConnectionAborted
    case TransportFailed => InvalidData
    case StreamEnded => UnexpectedEof
  }

  /** The event for a notification or request the client knows. */
  function EventOf(m: Message): Option<Event>
  {
    match m
    case Notification(true, payload) => Some(ServerNotification(payload))
    case Request(id, true, payload) => Some(ServerRequest(id, payload))
    case _ => None
  }

  function Complete(w: World, waiter: nat, outcome: Outcome): World
  {
    w.(completions := w.completions + [Completion(waiter, outcome)])
  }

  /** A `Disconnected` event, unless nobody listens, and on to draining. */
  function Disconnect(w: World, cause: Cause): World
  {
    var w' := w.(phase := Draining(KindOf(cause)), disconnect := w.disconnect + [Disconnected(cause)]);
    if w.receiverOpen then w'.(queue := w'.queue + [Disconnected(cause)]) else w'
  }

  /** Deliver to the consumer; a closed channel ends the worker without a Disconnected event. */
  function Deliver(w: World, e: Event): World
  {
    if w.receiverOpen then w.(queue := w.queue + [e]) else w.(phase := Draining(BrokenPipe))
  }

  /** One message of the handshake loop. */
  function Handshake(w: World, m: Message, writeOk: bool): World
  {
    match m
    case Response(id, _) =>
      if id == INITIALIZE then w.(phase := if writeOk then Running else ConnectFailed) else w
    case ErrorReply(id, _) => if id == INITIALIZE then w.(phase := ConnectFailed) else w
    case Notification(known, payload) =>
      if known then w.(pendingEvents := w.pendingEvents + [ServerNotification(payload)]) else w
    case Request(id, known, payload) =>
      if known then w.(pendingEvents := w.pendingEvents + [ServerRequest(id, payload)])
      else w.(rejections := w.rejections + [id], phase := if writeOk then Connecting else ConnectFailed)
    case Ignored => w
    case InvalidJson => w.(phase := ConnectFailed)
    case Close => w.(phase := ConnectFailed)
    case TransportError => w.(phase := ConnectFailed)
    case EndOfStream => w.(phase := ConnectFailed)
  }

  /** A reply: complete the waiter of that id, if there is one. */
  function Reply(w: World, id: RequestId, outcome: Outcome): World
  {
    var w' := w.(traffic := w.traffic + [Replied(id, outcome)]);
    if id in w.pending then Complete(w', w.pending[id], outcome).(pending := w.pending - {id}) else w'
  }

  /** One message of the worker loop. */
  function Work(w: World, m: Message, writeOk: bool): World
  {
    match m
    case Response(id, result) => Reply(w, id, Result(result))
    case ErrorReply(id, error) => Reply(w, id, ServerError(error))
    case Notification(known, payload) => if known then Deliver(w, ServerNotification(payload)) else w
    case Request(id, known, payload) =>
      if known then Deliver(w, ServerRequest(id, payload))
      else
        var w' := w.(rejections := w.rejections + [id]);
        if writeOk then w' else Disconnect(w', WriteFailed)
    case InvalidJson => Disconnect(w, SentInvalidJson)
    case Close => Disconnect(w, ServerClosed)
    case Ignored => w
    case TransportError => Disconnect(w, TransportFailed)
    case EndOfStream => Disconnect(w, StreamEnded)
  }

  function Submit(w: World, id: RequestId, writeOk: bool): World
  {
    var waiter := |w.requests|;
    var w' := w.(requests := w.requests + [id]);
    if id in w.pending then Complete(w', waiter, IoError(InvalidInput))
    else if writeOk then w'.(pending := w.pending[id := waiter], traffic := w.traffic + [Written(id, waiter)])
    else Disconnect(Complete(w', waiter, IoError(OtherError)), WriteFailed)
  }

  function PopEvent(w: World): World
    requires w.pendingEvents + w.queue != []
  {
    if w.pendingEvents != [] then
      w.(pendingEvents := w.pendingEvents[1..], returned := w.returned + [w.pendingEvents[0]])
    else w.(queue := w.queue[1..], returned := w.returned + [w.queue[0]])
  }

  function Next(w: World, a: Action): World
    requires Enabled(w, a)
  {
    match a
    case ReadMessage(m, writeOk) =>
      var w' := w.(messages := w.messages + [m]);
      if w.phase == Connecting then Handshake(w', m, writeOk) else Work(w', m, writeOk)
    case InitializeTimeout => w.(phase := ConnectFailed)
    case TakeRequest(id, writeOk) => Submit(w, id, writeOk)
    case TakeOtherCommand => w
    case TakeShutdown => w.(phase := Draining(BrokenPipe))
    case CommandsClosed => w.(phase := Draining(BrokenPipe))
    case Drain(id) =>
      Complete(w, w.pending[id], IoError(w.phase.kind))
        .(pending := w.pending - {id}, traffic := w.traffic + [Abandoned(id)])
    case Finish => w.(phase := Exited)
    case NextEvent => PopEvent(w)
    case DropReceiver => w.(receiverOpen := false, pendingEvents := [], queue := [])
  }

  predicate Valid(w: World, acts: seq<Action>)
    decreases |acts|
  {
    acts == [] || (Enabled(w, acts[0]) && Valid(Next(w, acts[0]), acts[1..]))
  }

  function Exec(w: World, acts: seq<Action>): World
    requires Valid(w, acts)
    decreases |acts|
  {
    if acts == [] then w else Exec(Next(w, acts[0]), acts[1..])
  }
}
