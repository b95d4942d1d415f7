/**
 Handshake transparency: what `next_event` returns does not depend on where the response to
 `initialize` fell in the server's message sequence.
 */
module RemoteEvents {
  import opened Options
  import opened Remote
  import Exit = RemoteExit

  /** The events a message sequence calls for: its known notifications and requests, in order. */
  function Recognised(messages: seq<Message>): seq<Event>
  {
    if messages == [] then []
    else
      var last := EventOf(messages[|messages| - 1]);
      Recognised(messages[..|messages| - 1]) + if last.Some? then [last.value] else []
  }

  /** The ids of the server requests the client does not know. */
  function Unknown(messages: seq<Message>): seq<RequestId>
  {
    if messages == [] then []
    else
      var last := messages[|messages| - 1];
      Unknown(messages[..|messages| - 1]) + if last.Request? && !last.known then [last.id] else []
  }

  predicate PhaseInv(w: World)
  {
    && |w.disconnect| <= 1
    && (w.phase == Connecting ==>
          w.receiverOpen && w.queue == [] && w.returned == [] && w.disconnect == []
          && w.pendingEvents == Recognised(w.messages))
    && (w.phase == Running ==> w.disconnect == [])
    && (forall e | e in w.disconnect :: e.Disconnected?)
  }

  predicate EventInv(w: World)
  {
    Connected(w) ==>
      if w.receiverOpen then w.returned + w.pendingEvents + w.queue == Recognised(w.messages) + w.disconnect
      else w.returned <= Recognised(w.messages) + w.disconnect
  }

  lemma {:induction false} MessageAppend(messages: seq<Message>, m: Message)
    ensures Recognised(messages + [m]) == Recognised(messages) + if EventOf(m).Some? then [EventOf(m).value] else []
    ensures Unknown(messages + [m]) == Unknown(messages) + if m.Request? && !m.known then [m.id] else []
  {
    assert (messages + [m])[..|messages|] == messages;
  }

  lemma {:induction false} RejectionStep(w: World, a: Action)
    requires w.rejections == Unknown(w.messages) && Enabled(w, a)
    ensures Next(w, a).rejections == Unknown(Next(w, a).messages)
  {
    if a.ReadMessage? {
      MessageAppend(w.messages, a.message);
      ReadRejects(w.(messages := w.messages + [a.message]), a.message, a.writeOk);
    } else {
      assert Next(w, a).rejections == w.rejections && Next(w, a).messages == w.messages;
    }
  }

  lemma {:induction false} ReadRejects(w: World, m: Message, writeOk: bool)
    ensures
      var rejections := w.rejections + if m.Request? && !m.known then [m.id] else [];
      && Handshake(w, m, writeOk).rejections == rejections == Work(w, m, writeOk).rejections
      && Handshake(w, m, writeOk).messages == w.messages == Work(w, m, writeOk).messages
  {
  }

  lemma {:induction false} PhaseStep(w: World, a: Action)
    requires PhaseInv(w) && Enabled(w, a)
    ensures PhaseInv(Next(w, a))
  {
    if a.ReadMessage? {
      if w.phase == Connecting {
        HandshakePhase(w, a.message, a.writeOk);
      } else {
        WorkPhase(w.(messages := w.messages + [a.message]), a.message, a.writeOk);
      }
    }
  }

  lemma {:induction false} HandshakePhase(w: World, m: Message, writeOk: bool)
    requires PhaseInv(w) && w.phase == Connecting
    ensures PhaseInv(Handshake(w.(messages := w.messages + [m]), m, writeOk))
  {
    MessageAppend(w.messages, m);
  }

  lemma {:induction false} WorkPhase(w: World, m: Message, writeOk: bool)
    requires PhaseInv(w) && w.phase == Running
    ensures PhaseInv(Work(w, m, writeOk))
  {
  }

  lemma {:induction false} EventStep(w: World, a: Action)
    requires PhaseInv(w) && EventInv(w) && Enabled(w, a)
    ensures EventInv(Next(w, a))
  {
    match a
    case ReadMessage(m, writeOk) =>
      if w.phase == Connecting { HandshakeRead(w, m, writeOk); } else { WorkerRead(w, m, writeOk); }
    case TakeRequest(id, writeOk) =>
      SubmitEvents(w, id, writeOk);
    case NextEvent =>
      assert PopEvent(w).returned + PopEvent(w).pendingEvents + PopEvent(w).queue
             == w.returned + w.pendingEvents + w.queue;
    case DropReceiver =>
      assert w.returned <= w.returned + w.pendingEvents + w.queue;
    case _ =>
  }

  lemma {:induction false} HandshakeRead(w: World, m: Message, writeOk: bool)
    requires PhaseInv(w) && w.phase == Connecting
    ensures EventInv(Next(w, ReadMessage(m, writeOk)))
  {
    MessageAppend(w.messages, m);
  }

  /** Turning a state into a disconnected one appends the Disconnected event on both sides. */
  lemma {:induction false} DisconnectEvents(w: World, cause: Cause)
    requires w.phase == Running && w.disconnect == [] && EventInv(w)
    ensures EventInv(Disconnect(w, cause))
  {
    var w' := Disconnect(w, cause);
    if w.receiverOpen {
      assert w'.returned + w'.pendingEvents + w'.queue
             == w.returned + w.pendingEvents + w.queue + [Disconnected(cause)];
    } else {
      assert w.returned <= Recognised(w.messages) <= Recognised(w'.messages) + w'.disconnect;
    }
  }

  lemma {:induction false} SubmitEvents(w: World, id: RequestId, writeOk: bool)
    requires w.phase == Running && w.disconnect == [] && EventInv(w)
    ensures EventInv(Submit(w, id, writeOk))
  {
    if id !in w.pending && !writeOk {
      var refused := Complete(w.(requests := w.requests + [id]), |w.requests|, IoError(OtherError));
      DisconnectEvents(refused, WriteFailed);
    }
  }

  lemma {:induction false} WorkerRead(w: World, m: Message, writeOk: bool)
    requires w.phase == Running && w.disconnect == [] && EventInv(w)
    ensures EventInv(Next(w, ReadMessage(m, writeOk)))
  {
    MessageAppend(w.messages, m);
    var w1 := w.(messages := w.messages + [m]);
    if EventOf(m).Some? {
      DeliverEvents(w, m);
    } else {
      assert EventInv(w1);
      var w2 := if m.Request? then w1.(rejections := w1.rejections + [m.id]) else w1;
      match m
      case Request(_, _, _) => DisconnectEvents(w2, WriteFailed);
      case InvalidJson => DisconnectEvents(w1, SentInvalidJson);
      case Close => DisconnectEvents(w1, ServerClosed);
      case TransportError => DisconnectEvents(w1, TransportFailed);
      case EndOfStream => DisconnectEvents(w1, StreamEnded);
      case _ =>
    }
  }

  lemma {:induction false} DeliverEvents(w: World, m: Message)
    requires w.phase == Running && w.disconnect == [] && EventInv(w) && EventOf(m).Some?
    ensures EventInv(Deliver(w.(messages := w.messages + [m]), EventOf(m).value))
  {
    MessageAppend(w.messages, m);
    var e := EventOf(m).value;
    if w.receiverOpen {
      assert w.returned + w.pendingEvents + (w.queue + [e]) == w.returned + w.pendingEvents + w.queue + [e];
      assert Recognised(w.messages) + [e] + [] == Recognised(w.messages + [m]) + w.disconnect;
    } else {
      assert w.returned <= Recognised(w.messages) <= Recognised(w.messages + [m]) + w.disconnect;
    }
  }

  lemma {:induction false} EventRun(w: World, acts: seq<Action>)
    requires Valid(w, acts)
    requires PhaseInv(w) && EventInv(w) && w.rejections == Unknown(w.messages)
    ensures
      var v := Exec(w, acts);
      PhaseInv(v) && EventInv(v) && v.rejections == Unknown(v.messages)
    decreases |acts|
  {
    if acts != [] {
      PhaseStep(w, acts[0]);
      EventStep(w, acts[0]);
      RejectionStep(w, acts[0]);
      EventRun(Next(w, acts[0]), acts[1..]);
    }
  }

  lemma {:induction false} RecognisedHasNoDisconnect(messages: seq<Message>)
    ensures forall e | e in Recognised(messages) :: !e.Disconnected?
  {
    if messages != [] { RecognisedHasNoDisconnect(messages[..|messages| - 1]); }
  }

  /**
   After a successful connect, what was returned and what is still buffered make up exactly the
   known notifications and requests of the whole message sequence, in arrival order, with at most
   one Disconnected, at the end: the one for the message that ended the connection, if a message did.
   With the receiver gone, what was returned is a prefix of that.
   */
  lemma HandshakeIsTransparent(acts: seq<Action>)
    requires Valid(INIT, acts) && Connected(Exec(INIT, acts))
    ensures
      var w := Exec(INIT, acts);
      var expected := Recognised(w.messages) + w.disconnect;
      && |w.disconnect| <= 1
      && w.returned <= expected
      && (w.receiverOpen ==> w.returned + w.pendingEvents + w.queue == expected)
      && (forall i | 0 <= i < |w.returned| && w.returned[i].Disconnected? ::
            i == |w.returned| - 1 == |Recognised(w.messages)|)
      && (w.messages != [] && Exit.Fatal(w.messages[|w.messages| - 1]) ==>
            w.disconnect == Exit.LeaveOn(w.messages[|w.messages| - 1]).events)
  {
    var w := Exec(INIT, acts);
    Exit.FatalMessagesEndIt(acts);
    EventRun(INIT, acts);
    RecognisedHasNoDisconnect(w.messages);
    assert w.returned <= w.returned + w.pendingEvents + w.queue;
  }

  /** In both phases every server request with an unknown method gets a -32601 reply attempt, in order. */
  lemma UnknownRequestsAreRejected(acts: seq<Action>)
    requires Valid(INIT, acts)
    ensures Exec(INIT, acts).rejections == Unknown(Exec(INIT, acts).messages)
  {
    EventRun(INIT, acts);
  }
}
