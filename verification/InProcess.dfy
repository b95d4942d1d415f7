/**
 The in-process app-server client (codex-rs/app-server-client/src/lib.rs) as a step system.

 One worker task forwards runtime events into a bounded channel that a consumer drains, and it
 drains a FIFO of caller commands.  Every channel operation is one atomic step, so consumer,
 caller and worker steps interleave in any order, also between the two channel operations that
 forwarding a single event may need.
 */
module InProcess {

  const USIZE_MAX: nat := 0xFFFF_FFFF_FFFF_FFFF

  datatype NotificationKind =
    | TurnCompleted
    | ThreadSettingsUpdated
    | ItemCompleted
    | AgentMessageDelta
    | PlanDelta
    | ReasoningSummaryTextDelta
    | ReasoningTextDelta
    | BestEffort

  datatype RequestKind = ChatgptAuthTokensRefresh | OrdinaryRequest

  datatype ServerRequest = ServerRequest(kind: RequestKind, id: int)

  /** An event of the embedded runtime.  The runtime has lag markers of its own. */
  datatype Event =
    | Lagged(skipped: nat)
    | ServerNotification(kind: NotificationKind, payload: int)
    | Request(request: ServerRequest)

  /** What the worker put into the event channel: a lag marker it made itself, or an event it read. */
  datatype Sent = LagMarker(count: nat) | Forwarded(event: Event)

  datatype Command = Operation | Shutdown

  /** Where the worker task is.  Flushing and Sending are inside `forward_in_process_event`. */
  datatype Pc = Selecting | Flushing(event: Event) | Sending(event: Event) | Stopping | Exited

  datatype World = World(
    capacity: nat,              // of both channels
    queue: seq<Event>,          // the bounded event channel
    receiverOpen: bool,
    skipped: nat,               // `skipped_events`
    enabled: bool,              // `event_stream_enabled`
    pc: Pc,
    commands: seq<Command>,     // the bounded command channel
    sendersOpen: bool,
    // histories
    read: seq<Event>,           // every event taken from the runtime
    sent: seq<Sent>,            // every value accepted by the event channel
    consumed: seq<Event>,       // every event the consumer received
    rejected: seq<ServerRequest>,
    lost: seq<Event>            // read, then dropped because the channel was closed
  )

  datatype Action =
    // worker
    | ReadEvent(event: Event)
    | StreamEnded
    | TakeCommand
    | CommandsClosed
    | FlushLag
    | SendEvent
    | FinishShutdown
    // consumer and callers
    | Consume
    | DropReceiver
    | Enqueue(command: Command)
    | DropSenders

  predicate NotificationRequiresDelivery(kind: NotificationKind)
  {
    kind != BestEffort
  }

  predicate RequiresDelivery(e: Event)
  {
    e.ServerNotification? && NotificationRequiresDelivery(e.kind)
  }

  predicate IsAuthRefresh(e: Event)
  {
    e.Request? && e.request.kind == ChatgptAuthTokensRefresh
  }

  function Erase(s: Sent): Event
  {
    match s
    case LagMarker(count) => Lagged(count)
    case Forwarded(event) => event
  }

  function SaturatingSucc(n: nat): nat
  {
    if n < USIZE_MAX then n + 1 else n
  }

  function Init(channelCapacity: nat): World
  {
    World(if channelCapacity < 1 then 1 else channelCapacity, [], true, 0, true, Selecting, [], true,
          [], [], [], [], [])
  }

  /** A full, open channel: a `send` waits here, a `try_send` reports Full. */
  predicate Full(w: World)
  {
    w.receiverOpen && |w.queue| >= w.capacity
  }

  predicate Enabled(w: World, a: Action)
  {
    match a
    case ReadEvent(_) => w.pc == Selecting && w.enabled
    case StreamEnded => w.pc == Selecting && w.enabled
    case TakeCommand => w.pc == Selecting && w.commands != []
    case CommandsClosed => w.pc == Selecting && w.commands == [] && !w.sendersOpen
    case FlushLag => w.pc.Flushing? && (RequiresDelivery(w.pc.event) ==> !Full(w))
    case SendEvent => w.pc.Sending? && (RequiresDelivery(w.pc.event) ==> !Full(w))
    case FinishShutdown => w.pc == Stopping
    case Consume => w.receiverOpen && w.queue != []
    case DropReceiver => w.receiverOpen
    case Enqueue(_) => w.sendersOpen && |w.commands| < w.capacity
    case DropSenders => w.sendersOpen
  }

  function Push(w: World, s: Sent): World
  {
    w.(queue := w.queue + [Erase(s)], sent := w.sent + [s])
  }

  function RejectIfRequest(w: World, e: Event): World
  {
    if e.Request? then w.(rejected := w.rejected + [e.request]) else w
  }

  /** The channel was full: count the event as skipped and reject it if it is a server request. */
  function DropEvent(w: World, e: Event): World
  {
    RejectIfRequest(w.(skipped := SaturatingSucc(w.skipped), pc := Selecting), e)
  }

  /** The channel is closed: give up on the event in hand and stop reading events. */
  function DisableStream(w: World, e: Event): World
  {
    w.(enabled := false, pc := Selecting, lost := w.lost + [e])
  }

  function Next(w: World, a: Action): World
    requires Enabled(w, a)
  {
    match a
    case ReadEvent(e) =>
      var w' := w.(read := w.read + [e]);
      if IsAuthRefresh(e) then RejectIfRequest(w', e)
      else if w.skipped > 0 then w'.(pc := Flushing(e))
      else w'.(pc := Sending(e))
    case StreamEnded => w.(pc := Exited)
    case TakeCommand =>
      w.(commands := w.commands[1..], pc := if w.commands[0] == Shutdown then Stopping else w.pc)
    case CommandsClosed => w.(pc := Stopping)
    case FlushLag =>
      var e := w.pc.event;
      if !w.receiverOpen then DisableStream(w, e)
      else if Full(w) then DropEvent(w, e)
      else Push(w, LagMarker(w.skipped)).(skipped := 0, pc := Sending(e))
    case SendEvent =>
      var e := w.pc.event;
      if !w.receiverOpen then DisableStream(w, e)
      else if Full(w) then DropEvent(w, e)
      else Push(w, Forwarded(e)).(pc := Selecting)
    case FinishShutdown => w.(pc := Exited)
    case Consume => w.(queue := w.queue[1..], consumed := w.consumed + [w.queue[0]])
    case DropReceiver => w.(queue := [], receiverOpen := false)
    case Enqueue(c) => w.(commands := w.commands + [c])
    case DropSenders => w.(sendersOpen := false)
  }

  /** `acts` can happen, in this order, starting in `w`. */
  predicate Valid(w: World, acts: seq<Action>)
    decreases |acts|
  {
    acts == [] || (Enabled(w, acts[0]) && Valid(Next(w, acts[0]), acts[1..]))
  }

  function Exec(w: World, acts: seq<Action>): World
    requires Valid(w, acts)
    decreases |acts|
  {
    if acts == [] then w else Exec(Next(w, acts[0]), acts[1..])
  }

  predicate Reaches(w: World, acts: seq<Action>, w': World)
  {
    Valid(w, acts) && Exec(w, acts) == w'
  }

  lemma {:induction false} ExecAppend(w: World, acts: seq<Action>, more: seq<Action>)
    requires Valid(w, acts)
    requires Valid(Exec(w, acts), more)
    ensures Valid(w, acts + more)
    ensures Exec(w, acts + more) == Exec(Exec(w, acts), more)
    decreases |acts|
  {
    if acts == [] {
      assert acts + more == more;
    } else {
      assert (acts + more)[0] == acts[0] && (acts + more)[1..] == acts[1..] + more;
      ExecAppend(Next(w, acts[0]), acts[1..], more);
    }
  }
}
