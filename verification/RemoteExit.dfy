/**
 How a remote connection begins and ends: which message decides the handshake, which step makes the
 worker leave, with which event and which error, and what every waiter is told.
 */
module RemoteExit {
  import opened Options
  import opened Remote
  import opened RemoteRouting

  /** The messages that end a connection in either phase. */
  predicate Fatal(m: Message)
  {
    m.Close? || m.InvalidJson? || m.TransportError? || m.EndOfStream?
  }

  // ---- the handshake ----

  datatype Verdict = Undecided | Accepted | Refused

  /** What a step means for a handshake in progress. */
  function VerdictOn(a: Action): Verdict
  {
    match a
    case InitializeTimeout => Refused
    case ReadMessage(Response(id, _), writeOk) =>
      if id != INITIALIZE then Undecided else if writeOk then Accepted else Refused
    case ReadMessage(ErrorReply(id, _), _) => if id == INITIALIZE then Refused else Undecided
    case ReadMessage(Request(_, known, _), writeOk) => if known || writeOk then Undecided else Refused
    case ReadMessage(m, _) => if Fatal(m) then Refused else Undecided
    case _ => Undecided
  }

  function FirstVerdict(acts: seq<Action>): Verdict
  {
    if acts == [] then Undecided
    else if VerdictOn(acts[0]) != Undecided then VerdictOn(acts[0])
    else FirstVerdict(acts[1..])
  }

  function Standing(w: World): Verdict
  {
    if w.phase == Connecting then Undecided else if w.phase == ConnectFailed then Refused else Accepted
  }

  lemma {:induction false} VerdictStep(w: World, a: Action)
    requires Enabled(w, a)
    ensures Standing(Next(w, a)) == if Standing(w) == Undecided then VerdictOn(a) else Standing(w)
  {
    if a.ReadMessage? {
      if w.phase == Connecting {
        HandshakeVerdict(w.(messages := w.messages + [a.message]), a.message, a.writeOk);
      } else {
        assert Standing(Work(w.(messages := w.messages + [a.message]), a.message, a.writeOk)) == Accepted;
      }
    }
  }

  lemma {:induction false} HandshakeVerdict(w: World, m: Message, writeOk: bool)
    requires w.phase == Connecting
    ensures Standing(Handshake(w, m, writeOk)) == VerdictOn(ReadMessage(m, writeOk))
  {
  }

  lemma {:induction false} VerdictRun(w: World, acts: seq<Action>)
    requires Valid(w, acts)
    ensures Standing(Exec(w, acts)) == if Standing(w) == Undecided then FirstVerdict(acts) else Standing(w)
    decreases |acts|
  {
    if acts != [] {
      VerdictStep(w, acts[0]);
      VerdictRun(Next(w, acts[0]), acts[1..]);
    }
  }

  /** The first decisive step decides: connected, failed, or still waiting. */
  lemma ConnectsIff(acts: seq<Action>)
    requires Valid(INIT, acts)
    ensures
      var w := Exec(INIT, acts);
      && (w.phase == Connecting <==> FirstVerdict(acts) == Undecided)
      && (w.phase == ConnectFailed <==> FirstVerdict(acts) == Refused)
      && (Connected(w) <==> FirstVerdict(acts) == Accepted)
  {
    VerdictRun(INIT, acts);
  }

  // ---- leaving ----

  /** With what a worker leaves: the events it produces for that, and the error for abandoned requests. */
  datatype Leave = Leave(events: seq<Event>, kind: ErrorKind)

  function LeaveOn(m: Message): Leave
    requires Fatal(m)
  {
    match m
    case Close => Leave([Disconnected(ServerClosed)], ConnectionAborted)
    case InvalidJson => Leave([Disconnected(SentInvalidJson)], InvalidData)
    case TransportError => Leave([Disconnected(TransportFailed)], InvalidData)
    case EndOfStream => Leave([Disconnected(StreamEnded)], UnexpectedEof)
  }

  const FAILED_WRITE := Leave([Disconnected(WriteFailed)], BrokenPipe)
  const QUIETLY := Leave([], BrokenPipe)

  /** The steps on which a running worker leaves. */
  function Leaving(w: World, a: Action): Option<Leave>
  {
    match a
    case TakeShutdown => Some(QUIETLY)
    case CommandsClosed => Some(QUIETLY)
    case TakeRequest(id, writeOk) =>
      if !writeOk && Outstanding(w.traffic, id).None? then Some(FAILED_WRITE) else None
    case ReadMessage(m, writeOk) =>
      if Fatal(m) then Some(LeaveOn(m))
      else if m.Request? && !m.known && !writeOk then Some(FAILED_WRITE)
      else if (m.Request? || m.Notification?) && m.known && !w.receiverOpen then Some(QUIETLY)
      else None
    case _ => None
  }

  /** In every run: a running worker goes on, or leaves with exactly the event and the error of the step. */
  lemma {:induction false} LeavesExactlyWhen(acts: seq<Action>, a: Action)
    requires Valid(INIT, acts) && Exec(INIT, acts).phase == Running && Enabled(Exec(INIT, acts), a)
    ensures
      var w := Exec(INIT, acts);
      var w', leave := Next(w, a), Leaving(w, a);
      && w'.phase == (if leave.Some? then Draining(leave.value.kind) else Running)
      && w'.disconnect == w.disconnect + if leave.Some? then leave.value.events else []
  {
    var w := Exec(INIT, acts);
    match a
    case ReadMessage(m, writeOk) => WorkLeaves(w.(messages := w.messages + [m]), m, writeOk);
    case TakeRequest(id, _) => RepliesFollowTraffic(acts, id);
    case _ =>
  }

  lemma {:induction false} WorkLeaves(w: World, m: Message, writeOk: bool)
    requires w.phase == Running
    ensures
      var w', leave := Work(w, m, writeOk), Leaving(w, ReadMessage(m, writeOk));
      && w'.phase == (if leave.Some? then Draining(leave.value.kind) else Running)
      && w'.disconnect == w.disconnect + if leave.Some? then leave.value.events else []
  {
  }

  /**
   A fatal message is the last one read and ends the worker: the Disconnected event and the error are the
   ones for that message, and no worker goes on behind it.
   */
  predicate FatalInv(w: World)
  {
    var n := |w.messages| - 1;
    && (w.phase == Connecting || w.phase == Running ==> w.disconnect == [] && forall m | m in w.messages :: !Fatal(m))
    && (Connected(w) ==> forall i | 0 <= i < n :: !Fatal(w.messages[i]))
    && (Connected(w) && n >= 0 && Fatal(w.messages[n]) ==>
          && w.disconnect == LeaveOn(w.messages[n]).events
          && (w.phase == Exited || w.phase == Draining(LeaveOn(w.messages[n]).kind)))
  }

  lemma {:induction false} FatalStep(w: World, a: Action)
    requires FatalInv(w) && Enabled(w, a)
    ensures FatalInv(Next(w, a))
  {
    if a.ReadMessage? {
      var w1 := w.(messages := w.messages + [a.message]);
      assert forall i | 0 <= i < |w.messages| :: w.messages[i] in w.messages;
      if w.phase == Connecting {
        FatalHandshake(w, w1, a.message, a.writeOk);
      } else {
        WorkLeaves(w1, a.message, a.writeOk);
        FatalWork(w, w1, a.message, a.writeOk);
      }
    } else {
      assert Next(w, a).messages == w.messages;
      if w.phase.Draining? { assert Next(w, a).disconnect == w.disconnect; }
    }
  }

  lemma {:induction false} FatalHandshake(w: World, w1: World, m: Message, writeOk: bool)
    requires FatalInv(w) && w.phase == Connecting && w1 == w.(messages := w.messages + [m])
    ensures FatalInv(Handshake(w1, m, writeOk))
  {
    HandshakeVerdict(w1, m, writeOk);
    assert Handshake(w1, m, writeOk).messages == w1.messages && Handshake(w1, m, writeOk).disconnect == [];
  }

  lemma {:induction false} FatalWork(w: World, w1: World, m: Message, writeOk: bool)
    requires FatalInv(w) && w.phase == Running && w1 == w.(messages := w.messages + [m])
    requires
      var w', leave := Work(w1, m, writeOk), Leaving(w1, ReadMessage(m, writeOk));
      && w'.phase == (if leave.Some? then Draining(leave.value.kind) else Running)
      && w'.disconnect == w.disconnect + if leave.Some? then leave.value.events else []
    ensures FatalInv(Work(w1, m, writeOk))
  {
    assert Work(w1, m, writeOk).messages == w1.messages;
    assert [] + (if Fatal(m) then LeaveOn(m).events else []) == if Fatal(m) then LeaveOn(m).events else [];
  }

  lemma {:induction false} FatalRun(w: World, acts: seq<Action>)
    requires Valid(w, acts) && FatalInv(w)
    ensures FatalInv(Exec(w, acts))
    decreases |acts|
  {
    if acts != [] {
      FatalStep(w, acts[0]);
      FatalRun(Next(w, acts[0]), acts[1..]);
    }
  }

  /** Over every run, in terms of the messages read. */
  lemma FatalMessagesEndIt(acts: seq<Action>)
    requires Valid(INIT, acts)
    ensures
      var w := Exec(INIT, acts);
      var n := |w.messages| - 1;
      && (w.phase == Connecting || w.phase == Running ==> forall m | m in w.messages :: !Fatal(m))
      && (Connected(w) ==> forall i | 0 <= i < n :: !Fatal(w.messages[i]))
      && (Connected(w) && n >= 0 && Fatal(w.messages[n]) ==>
            && w.disconnect == LeaveOn(w.messages[n]).events
            && (w.phase == Exited || w.phase == Draining(LeaveOn(w.messages[n]).kind)))
  {
    FatalRun(INIT, acts);
  }

  lemma {:induction false} LeftForGood(w: World, acts: seq<Action>)
    requires Valid(w, acts) && (w.phase.Draining? || w.phase == Exited)
    ensures Exec(w, acts).phase.Draining? || Exec(w, acts).phase == Exited
    decreases |acts|
  {
    if acts != [] { LeftForGood(Next(w, acts[0]), acts[1..]); }
  }

  /** A shutdown command, or the loss of every sender, ends the worker for good. */
  lemma {:induction false} ShutdownEndsWorker(w: World, acts: seq<Action>)
    requires Valid(w, acts) && (TakeShutdown in acts || CommandsClosed in acts)
    ensures Exec(w, acts).phase.Draining? || Exec(w, acts).phase == Exited
    decreases |acts|
  {
    if acts[0].TakeShutdown? || acts[0].CommandsClosed? {
      LeftForGood(Next(w, acts[0]), acts[1..]);
    } else {
      assert acts == [acts[0]] + acts[1..];
      ShutdownEndsWorker(Next(w, acts[0]), acts[1..]);
    }
  }

  // ---- what waiters are told ----

  /** The error for abandoned requests, by the Disconnected event if there was one. */
  function ExitError(w: World): ErrorKind
  {
    if w.disconnect == [] || !w.disconnect[0].Disconnected? then BrokenPipe
    else
      match w.disconnect[0].cause
      case ServerClosed => ConnectionAborted
      case SentInvalidJson => InvalidData
      case TransportFailed => InvalidData
      case StreamEnded => UnexpectedEof
      case WriteFailed => BrokenPipe
  }

  /** The answers a step gives, and to whom: the waiter is found by looking back over the traffic. */
  function Answers(w: World, a: Action): seq<Completion>
  {
    match a
    case TakeRequest(id, writeOk) =>
      if Outstanding(w.traffic, id).Some? then [Completion(|w.requests|, IoError(InvalidInput))]
      else if writeOk then []
      else [Completion(|w.requests|, IoError(OtherError))]
    case ReadMessage(m, _) =>
      if w.phase == Connecting || !(m.Response? || m.ErrorReply?) || Outstanding(w.traffic, m.id).None? then []
      else [Completion(Outstanding(w.traffic, m.id).value,
                       if m.Response? then Result(m.result) else ServerError(m.error))]
    case Drain(id) =>
      if Outstanding(w.traffic, id).None? then []
      else [Completion(Outstanding(w.traffic, id).value, IoError(ExitError(w)))]
    case _ => []
  }

  /** In every run, each step gives exactly these answers, in this order, and the request it takes is recorded. */
  lemma {:induction false} AnswersFollowRun(acts: seq<Action>, a: Action)
    requires Valid(INIT, acts) && Enabled(Exec(INIT, acts), a)
    ensures
      var w := Exec(INIT, acts);
      && Next(w, a).completions == w.completions + Answers(w, a)
      && Next(w, a).requests == w.requests + if a.TakeRequest? then [a.id] else []
  {
    var w := Exec(INIT, acts);
    match a
    case TakeRequest(id, _) => RepliesFollowTraffic(acts, id);
    case Drain(id) =>
      RepliesFollowTraffic(acts, id);
      ExitErrorRun(INIT, acts);
    case ReadMessage(m, writeOk) =>
      if m.Response? || m.ErrorReply? { RepliesFollowTraffic(acts, m.id); }
      ReadAnswers(w, m, writeOk);
    case _ =>
  }

  lemma {:induction false} ReadAnswers(w: World, m: Message, writeOk: bool)
    requires Enabled(w, ReadMessage(m, writeOk))
    requires m.Response? || m.ErrorReply? ==>
               Outstanding(w.traffic, m.id) == if m.id in w.pending then Some(w.pending[m.id]) else None
    ensures
      var w' := Next(w, ReadMessage(m, writeOk));
      w'.completions == w.completions + Answers(w, ReadMessage(m, writeOk)) && w'.requests == w.requests
  {
    var w1 := w.(messages := w.messages + [m]);
    if w.phase == Connecting {
      assert Handshake(w1, m, writeOk).completions == w.completions;
    } else if !(m.Response? || m.ErrorReply?) {
      assert Work(w1, m, writeOk).completions == w.completions;
    }
  }

  predicate ExitErrorInv(w: World)
  {
    && (w.phase == Connecting || w.phase == Running ==> w.disconnect == [])
    && (w.phase.Draining? ==> w.phase.kind == ExitError(w))
  }

  lemma {:induction false} ExitErrorRun(w: World, acts: seq<Action>)
    requires Valid(w, acts) && ExitErrorInv(w)
    ensures ExitErrorInv(Exec(w, acts))
    decreases |acts|
  {
    if acts != [] {
      ExitErrorStep(w, acts[0]);
      ExitErrorRun(Next(w, acts[0]), acts[1..]);
    }
  }

  /** The error given to abandoned requests agrees with the Disconnected event, or is BrokenPipe without one. */
  lemma ExitErrorMatchesDisconnect(acts: seq<Action>)
    requires Valid(INIT, acts) && Exec(INIT, acts).phase.Draining?
    ensures Exec(INIT, acts).phase.kind == ExitError(Exec(INIT, acts))
  {
    ExitErrorRun(INIT, acts);
  }

  lemma {:induction false} ExitErrorStep(w: World, a: Action)
    requires ExitErrorInv(w) && Enabled(w, a)
    ensures ExitErrorInv(Next(w, a))
  {
    if a.ReadMessage? {
      var w1 := w.(messages := w.messages + [a.message]);
      if w.phase == Connecting {
        HandshakeVerdict(w1, a.message, a.writeOk);
        assert Handshake(w1, a.message, a.writeOk).disconnect == w.disconnect;
        assert !Handshake(w1, a.message, a.writeOk).phase.Draining?;
      } else {
        WorkLeaves(w1, a.message, a.writeOk);
      }
    }
  }
}
