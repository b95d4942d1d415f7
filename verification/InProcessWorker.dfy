/**
 The worker task of the in-process client as imperative code.  Whatever consumer and callers do
 while the worker is off the processor is a parameter: a list of their steps in front of each channel
 operation and between rounds of the loop.  The code is proved against functions on the model state,
 and these are proved to perform runs of the step system, so every run-level result holds of the code.
 */
module InProcessWorker {
  import opened InProcess
  import Delivery = InProcessDelivery

  /** A step of the consumer or of a caller. */
  datatype OutsideStep = Receive | CloseReceiver | Queue(command: Command) | CloseSenders

  datatype ForwardEventResult = Continue | Disable | Waiting(pc: Pc)

  /** `send`/`try_send`: accepted, skipped because full, closed, or still waiting. */
  datatype SendOutcome = Accepted | Skipped | Closed | Blocked

  /** One round of the select loop: the ready branch and the others' steps meanwhile, or only the latter. */
  datatype Round =
    | NothingReady(steps: seq<OutsideStep>)
    | CommandReady
    | EventReady(event: Event, first: seq<OutsideStep>, second: seq<OutsideStep>)
    | EventStreamEnded

  // ---- what the code computes ----

  function OutsideAction(step: OutsideStep): Action
  {
    match step
    case Receive => Consume
    case CloseReceiver => DropReceiver
    case Queue(command) => Enqueue(command)
    case CloseSenders => DropSenders
  }

  /** Take the step if it is possible now. */
  function Attempt(w: World, a: Action): World
  {
    if Enabled(w, a) then Next(w, a) else w
  }

  function AfterOutside(w: World, steps: seq<OutsideStep>): World
  {
    if steps == [] then w
    else Attempt(AfterOutside(w, steps[..|steps| - 1]), OutsideAction(steps[|steps| - 1]))
  }

  /** Forwarding the event in hand, as far as the others let it go. */
  function AfterForward(w: World, first: seq<OutsideStep>, second: seq<OutsideStep>): World
  {
    var w1 := AfterOutside(w, first);
    if w.pc.Flushing? then
      var w2 := Attempt(w1, FlushLag);
      if w2.pc.Sending? then Attempt(AfterOutside(w2, second), SendEvent) else w2
    else Attempt(w1, SendEvent)
  }

  function AfterRound(w: World, round: Round): World
  {
    match round
    case NothingReady(steps) => AfterOutside(w, steps)
    case CommandReady =>
      Attempt(if w.commands != [] then Attempt(w, TakeCommand) else Attempt(w, CommandsClosed), FinishShutdown)
    case EventStreamEnded => Attempt(w, StreamEnded)
    case EventReady(event, first, second) =>
      if !w.enabled then w
      else
        var w1 := Attempt(w, ReadEvent(event));
        if w1.pc.Selecting? then w1 else AfterForward(w1, first, second)
  }

  /** The select loop until it exits, waits in a send, or runs out of rounds. */
  function AfterRounds(w: World, rounds: seq<Round>): World
    decreases |rounds|
  {
    if rounds == [] || w.pc != Selecting then w else AfterRounds(AfterRound(w, rounds[0]), rounds[1..])
  }

  // ---- the code ----

  class Worker {
    const capacity: nat
    var queue: seq<Event>
    var receiverOpen: bool
    var skippedEvents: nat
    var eventStreamEnabled: bool
    var commands: seq<Command>
    var sendersOpen: bool
    ghost var read: seq<Event>
    ghost var sent: seq<Sent>
    ghost var consumed: seq<Event>
    ghost var rejected: seq<ServerRequest>
    ghost var lost: seq<Event>

    constructor (channelCapacity: nat)
      ensures Model(Selecting) == Init(channelCapacity)
    {
      capacity := if channelCapacity < 1 then 1 else channelCapacity;
      queue, receiverOpen, skippedEvents, eventStreamEnabled := [], true, 0, true;
      commands, sendersOpen := [], true;
      read, sent, consumed, rejected, lost := [], [], [], [], [];
    }

    ghost function Model(pc: Pc): World
      reads this
    {
      World(capacity, queue, receiverOpen, skippedEvents, eventStreamEnabled, pc, commands, sendersOpen,
            read, sent, consumed, rejected, lost)
    }

    /** The other ends of the two channels; a step that is not possible does nothing. */
    method RunOutside(steps: seq<OutsideStep>)
      modifies this
      ensures forall pc :: Model(pc) == AfterOutside(old(Model(pc)), steps)
      ensures skippedEvents == old(skippedEvents)
    {
      for i := 0 to |steps|
        invariant forall pc :: Model(pc) == AfterOutside(old(Model(pc)), steps[..i])
        invariant skippedEvents == old(skippedEvents)
      {
        assert steps[..i + 1][..i] == steps[..i];
        match steps[i] {
          case Receive =>
            if receiverOpen && queue != [] {
              consumed := consumed + [queue[0]];
              queue := queue[1..];
            }
          case CloseReceiver =>
            if receiverOpen {
              queue, receiverOpen := [], false;
            }
          case Queue(command) =>
            if sendersOpen && |commands| < capacity {
              commands := commands + [command];
            }
          case CloseSenders =>
            sendersOpen := false;
        }
      }
      assert steps[..|steps|] == steps;
    }

    method CountSkipped(event: Event)
      modifies this
      ensures forall pc :: Model(Selecting) == DropEvent(old(Model(pc)), event)
    {
      if skippedEvents < USIZE_MAX {
        skippedEvents := skippedEvents + 1;
      }
      if event.Request? {
        rejected := rejected + [event.request];
      }
    }

    /** The lag marker: `send` for a lossless event, `try_send` otherwise. */
    method SendLagMarker(event: Event) returns (outcome: SendOutcome)
      modifies this
      ensures Attempt(old(Model(Flushing(event))), FlushLag)
           == Outcome(Model(Selecting), outcome, Flushing(event), Sending(event))
      ensures outcome == Blocked <==> old(!Enabled(Model(Flushing(event)), FlushLag))
      ensures outcome == Accepted ==> skippedEvents == 0
    {
      if !receiverOpen {
        lost := lost + [event];
        outcome := Closed;
      } else if |queue| < capacity {
        queue, sent := queue + [Lagged(skippedEvents)], sent + [LagMarker(skippedEvents)];
        skippedEvents := 0;
        outcome := Accepted;
      } else if RequiresDelivery(event) {
        outcome := Blocked;
      } else {
        CountSkipped(event);
        outcome := Skipped;
      }
    }

    /** The event itself: `send` for a lossless event, `try_send` otherwise. */
    method SendEventInHand(event: Event) returns (outcome: SendOutcome)
      modifies this
      ensures Attempt(old(Model(Sending(event))), SendEvent)
           == Outcome(Model(Selecting), outcome, Sending(event), Selecting)
      ensures outcome == Blocked <==> old(!Enabled(Model(Sending(event)), SendEvent))
    {
      if !receiverOpen {
        lost := lost + [event];
        outcome := Closed;
      } else if |queue| < capacity {
        queue, sent := queue + [event], sent + [Forwarded(event)];
        outcome := Accepted;
      } else if RequiresDelivery(event) {
        outcome := Blocked;
      } else {
        CountSkipped(event);
        outcome := Skipped;
      }
    }

    /**
     `forward_in_process_event`, entered with the event in hand.  `first` happens before the first
     channel operation, `second` between the lag marker and the event.
     */
    method ForwardInProcessEvent(event: Event, first: seq<OutsideStep>, second: seq<OutsideStep>)
      returns (result: ForwardEventResult)
      modifies this
      ensures
        var start := old(Model(if skippedEvents > 0 then Flushing(event) else Sending(event)));
        AfterForward(start, first, second)
        == match result
           case Continue => Model(Selecting)
           case Disable => Model(Selecting).(enabled := false)
           case Waiting(pc) => Model(pc)
    {
      RunOutside(first);
      if skippedEvents > 0 {
        var outcome := SendLagMarker(event);
        match outcome {
          case Blocked => return Waiting(Flushing(event));
          case Closed => return Disable;
          case Skipped => return Continue;
          case Accepted => RunOutside(second);
        }
      }
      var outcome := SendEventInHand(event);
      match outcome {
        case Blocked => return Waiting(Sending(event));
        case Closed => return Disable;
        case Skipped => return Continue;
        case Accepted => return Continue;
      }
    }

    /** The command branch of the loop. */
    method TakeNextCommand() returns (pc: Pc)
      modifies this
      ensures Model(pc) == AfterRound(old(Model(Selecting)), CommandReady)
    {
      pc := Selecting;
      if commands != [] {
        if commands[0] == Shutdown {
          pc := Exited;
        }
        commands := commands[1..];
      } else if !sendersOpen {
        pc := Exited;
      }
    }

    /** The event branch of the loop. */
    method TakeNextEvent(event: Event, first: seq<OutsideStep>, second: seq<OutsideStep>) returns (pc: Pc)
      requires eventStreamEnabled
      modifies this
      ensures Model(pc) == AfterRound(old(Model(Selecting)), EventReady(event, first, second))
    {
      pc := Selecting;
      read := read + [event];
      if IsAuthRefresh(event) {
        rejected := rejected + [event.request];
        return;
      }
      var result := ForwardInProcessEvent(event, first, second);
      match result {
        case Continue =>
        case Disable => eventStreamEnabled := false;
        case Waiting(pc') => pc := pc';
      }
    }

    /** The select loop, for any order in which its branches become ready. */
    method Run(rounds: seq<Round>) returns (pc: Pc)
      modifies this
      ensures Model(pc) == AfterRounds(old(Model(Selecting)), rounds)
    {
      pc := Selecting;
      var i := 0;
      while i < |rounds| && pc == Selecting
        invariant 0 <= i <= |rounds|
        invariant AfterRounds(old(Model(Selecting)), rounds) == AfterRounds(Model(pc), rounds[i..])
        decreases |rounds| - i
      {
        match rounds[i] {
          case NothingReady(steps) =>
            RunOutside(steps);
          case CommandReady =>
            pc := TakeNextCommand();
          case EventStreamEnded =>
            if eventStreamEnabled {
              pc := Exited;
            }
          case EventReady(event, first, second) =>
            if eventStreamEnabled {
              pc := TakeNextEvent(event, first, second);
            }
        }
        assert rounds[i..][1..] == rounds[i + 1..];
        i := i + 1;
      }
    }
  }

  ghost function Outcome(selecting: World, outcome: SendOutcome, waiting: Pc, accepted: Pc): World
  {
    match outcome
    case Blocked => selecting.(pc := waiting)
    case Accepted => selecting.(pc := accepted)
    case Skipped => selecting
    case Closed => selecting.(enabled := false)
  }

  // ---- the functions do what the round is about ----

  /** A ready command is taken, and ends the loop exactly if it is Shutdown; so does a closed, empty queue. */
  lemma {:induction false} CommandRoundLaw(w: World)
    requires w.pc == Selecting
    ensures
      var w' := AfterRound(w, CommandReady);
      && w'.commands == (if w.commands == [] then [] else w.commands[1..])
      && (w'.pc == Exited <==> if w.commands == [] then !w.sendersOpen else w.commands[0] == Shutdown)
      && (w'.pc == Exited || w'.pc == Selecting) && w'.read == w.read
  {
  }

  lemma {:induction false} OutsideKeepsHand(w: World, steps: seq<OutsideStep>)
    ensures
      var w' := AfterOutside(w, steps);
      w'.pc == w.pc && w'.read == w.read && w'.enabled == w.enabled && w'.skipped == w.skipped
      && w'.capacity == w.capacity
  {
    if steps != [] { OutsideKeepsHand(w, steps[..|steps| - 1]); }
  }

  /** A ready event is read; the round ends with it settled, or waiting for a full channel with a lossless event. */
  lemma {:induction false} EventRoundLaw(w: World, event: Event, first: seq<OutsideStep>, second: seq<OutsideStep>)
    requires w.pc == Selecting && w.enabled
    ensures
      var w' := AfterRound(w, EventReady(event, first, second));
      && w'.read == w.read + [event]
      && (w'.pc == Selecting
          || (Delivery.Lossless(event) && w'.receiverOpen && |w'.queue| >= w'.capacity
              && (w'.pc == Flushing(event) || w'.pc == Sending(event))))
  {
    Delivery.LosslessIsRequired(event);
    var w1 := Next(w, ReadEvent(event));
    if w1.pc != Selecting {
      OutsideKeepsHand(w1, first);
      var w2 := Attempt(AfterOutside(w1, first), FlushLag);
      if w1.pc.Flushing? && w2.pc.Sending? { OutsideKeepsHand(w2, second); }
    }
  }

  function EventsOf(rounds: seq<Round>): seq<Event>
  {
    if rounds == [] then []
    else (if rounds[0].EventReady? then [rounds[0].event] else []) + EventsOf(rounds[1..])
  }

  lemma {:induction false} DisabledForGood(w: World, rounds: seq<Round>)
    requires !w.enabled
    ensures !AfterRounds(w, rounds).enabled
    decreases |rounds|
  {
    if rounds != [] && w.pc == Selecting {
      match rounds[0] {
        case NothingReady(steps) => OutsideKeepsHand(w, steps);
        case CommandReady =>
        case EventStreamEnded =>
        case EventReady(_, _, _) =>
      }
      DisabledForGood(AfterRound(w, rounds[0]), rounds[1..]);
    }
  }

  /** A worker that is still in its loop, with the stream enabled, has read every event that was ready. */
  lemma {:induction false} RoundsReadAll(w: World, rounds: seq<Round>)
    requires w.pc == Selecting && AfterRounds(w, rounds).pc == Selecting && AfterRounds(w, rounds).enabled
    ensures AfterRounds(w, rounds).read == w.read + EventsOf(rounds)
    decreases |rounds|
  {
    if rounds == [] {
      assert w.read + [] == w.read;
    } else {
      if !w.enabled { DisabledForGood(w, rounds); }
      var w', rest := AfterRound(w, rounds[0]), EventsOf(rounds[1..]);
      match rounds[0] {
        case NothingReady(steps) => OutsideKeepsHand(w, steps);
        case CommandReady => CommandRoundLaw(w);
        case EventStreamEnded =>
        case EventReady(event, first, second) => EventRoundLaw(w, event, first, second);
      }
      assert w'.pc == Selecting;
      RoundsReadAll(w', rounds[1..]);
      if rounds[0].EventReady? {
        assert w.read + [rounds[0].event] + rest == w.read + ([rounds[0].event] + rest);
      } else {
        assert w'.read == w.read && [] + rest == rest;
      }
    }
  }

  // ---- the functions perform runs ----

  lemma {:induction false} AttemptRuns(start: World, acts: seq<Action>, w: World, a: Action) returns (more: seq<Action>)
    requires Reaches(start, acts, w)
    ensures Reaches(start, more, Attempt(w, a))
  {
    more := acts;
    if Enabled(w, a) {
      more := acts + [a];
      assert [a][1..] == [];
      assert Valid(Next(w, a), []);
      ExecAppend(start, acts, [a]);
    }
  }

  lemma {:induction false} OutsideRuns(start: World, acts: seq<Action>, w: World, steps: seq<OutsideStep>)
    returns (more: seq<Action>)
    requires Reaches(start, acts, w)
    ensures Reaches(start, more, AfterOutside(w, steps))
    decreases |steps|
  {
    more := acts;
    if steps != [] {
      var n := |steps| - 1;
      more := OutsideRuns(start, acts, w, steps[..n]);
      more := AttemptRuns(start, more, AfterOutside(w, steps[..n]), OutsideAction(steps[n]));
    }
  }

  lemma {:induction false} ForwardRuns(start: World, acts: seq<Action>, w: World,
                                       first: seq<OutsideStep>, second: seq<OutsideStep>)
    returns (more: seq<Action>)
    requires Reaches(start, acts, w)
    ensures Reaches(start, more, AfterForward(w, first, second))
  {
    more := OutsideRuns(start, acts, w, first);
    var w1 := AfterOutside(w, first);
    if w.pc.Flushing? {
      more := AttemptRuns(start, more, w1, FlushLag);
      var w2 := Attempt(w1, FlushLag);
      if w2.pc.Sending? {
        more := OutsideRuns(start, more, w2, second);
        more := AttemptRuns(start, more, AfterOutside(w2, second), SendEvent);
      }
    } else {
      more := AttemptRuns(start, more, w1, SendEvent);
    }
  }

  lemma {:induction false} RoundRuns(start: World, acts: seq<Action>, w: World, round: Round)
    returns (more: seq<Action>)
    requires Reaches(start, acts, w)
    ensures Reaches(start, more, AfterRound(w, round))
  {
    match round
    case NothingReady(steps) =>
      more := OutsideRuns(start, acts, w, steps);
    case CommandReady =>
      var a := if w.commands != [] then TakeCommand else CommandsClosed;
      more := AttemptRuns(start, acts, w, a);
      more := AttemptRuns(start, more, Attempt(w, a), FinishShutdown);
    case EventStreamEnded =>
      more := AttemptRuns(start, acts, w, StreamEnded);
    case EventReady(event, first, second) =>
      more := acts;
      if w.enabled {
        more := AttemptRuns(start, acts, w, ReadEvent(event));
        var w1 := Attempt(w, ReadEvent(event));
        if !w1.pc.Selecting? {
          more := ForwardRuns(start, more, w1, first, second);
        }
      }
  }

  /** Everything the imperative worker can do is a run of the step system. */
  lemma {:induction false} RoundsRun(start: World, acts: seq<Action>, w: World, rounds: seq<Round>)
    returns (more: seq<Action>)
    requires Reaches(start, acts, w)
    ensures Reaches(start, more, AfterRounds(w, rounds))
    decreases |rounds|
  {
    more := acts;
    if rounds != [] && w.pc == Selecting {
      more := RoundRuns(start, acts, w, rounds[0]);
      more := RoundsRun(start, more, AfterRound(w, rounds[0]), rounds[1..]);
    }
  }
}
