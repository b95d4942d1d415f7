/**
 Shutdown progress of the in-process client.  `shutdown` drops the event receiver first; then a full
 command queue moves on until Shutdown can be queued, and from then on nothing can hold the worker up.
 */
module InProcessShutdown {
  import opened InProcess
  import Delivery = InProcessDelivery

  /** How many commands are in front of the first Shutdown. */
  function Ahead(commands: seq<Command>): (n: nat)
    ensures n <= |commands|
    ensures Shutdown in commands ==> n < |commands| && commands[n] == Shutdown
    ensures Shutdown !in commands[..n]
  {
    if commands == [] || commands[0] == Shutdown then 0 else
      assert commands == [commands[0]] + commands[1..];
      1 + Ahead(commands[1..])
  }

  /** The receiver is gone and Shutdown is queued, or the worker is already past it. */
  predicate Closing(w: World)
  {
    && !w.receiverOpen
    && (w.pc.Stopping? || w.pc.Exited? || Shutdown in w.commands)
  }

  /**
   The pair (commands ahead of Shutdown, stream enabled) as one number, refined by how far the
   event in hand has come.
   */
  function Remaining(w: World): nat
  {
    match w.pc
    case Exited => 0
    case Stopping => 1
    case Selecting => 2 + 3 * Ahead(w.commands) + (if w.enabled then 2 else 0)
    case Flushing(_) => 2 + 3 * Ahead(w.commands) + 1
    case Sending(_) => 2 + 3 * Ahead(w.commands) + 1
  }

  predicate IsWorkerAction(a: Action)
  {
    a.ReadEvent? || a.StreamEnded? || a.TakeCommand? || a.CommandsClosed?
    || a.FlushLag? || a.SendEvent? || a.FinishShutdown?
  }

  predicate RejectsAuthRefresh(a: Action)
  {
    a.ReadEvent? && IsAuthRefresh(a.event)
  }

  predicate Counts(a: Action)
  {
    IsWorkerAction(a) && !RejectsAuthRefresh(a)
  }

  /** Worker steps in a run, not counting the rejection of auth-refresh requests. */
  function WorkerSteps(acts: seq<Action>): nat
  {
    if acts == [] then 0 else (if Counts(acts[0]) then 1 else 0) + WorkerSteps(acts[1..])
  }

  lemma {:induction false} AheadAppend(commands: seq<Command>, c: Command)
    requires Shutdown in commands
    ensures Ahead(commands + [c]) == Ahead(commands)
  {
    if commands[0] != Shutdown {
      assert commands == [commands[0]] + commands[1..];
      AheadAppend(commands[1..], c);
      assert (commands + [c])[1..] == commands[1..] + [c];
    }
  }

  lemma {:induction false} ClosingStep(w: World, a: Action)
    requires Closing(w) && Enabled(w, a)
    ensures Closing(Next(w, a))
    ensures Remaining(Next(w, a)) + (if Counts(a) then 1 else 0) <= Remaining(w)
  {
    if a.TakeCommand? {
      assert w.commands == [w.commands[0]] + w.commands[1..];
    } else if a.Enqueue? && Shutdown in w.commands {
      AheadAppend(w.commands, a.command);
    }
  }

  /**
   After the receiver is dropped and Shutdown is queued, every worker step but the rejection of an
   auth-refresh request uses up part of a budget fixed by the state the run starts in, whatever
   the callers do meanwhile.  When the budget is spent the worker has exited.
   */
  lemma {:induction false} ShutdownProgress(w: World, acts: seq<Action>)
    requires Closing(w) && Valid(w, acts)
    ensures Closing(Exec(w, acts))
    ensures WorkerSteps(acts) + Remaining(Exec(w, acts)) <= Remaining(w)
    ensures WorkerSteps(acts) == Remaining(w) ==> Exec(w, acts).pc == Exited
    decreases |acts|
  {
    if acts != [] {
      ClosingStep(w, acts[0]);
      ShutdownProgress(Next(w, acts[0]), acts[1..]);
    }
  }

  /** The step the worker can take without waiting for the consumer, a caller or a runtime event. */
  function WorkerMove(w: World): Action
  {
    match w.pc
    case Selecting => TakeCommand
    case Flushing(_) => FlushLag
    case Sending(_) => SendEvent
    case Stopping => FinishShutdown
    case Exited => FinishShutdown
  }

  /** The worker always has a move of its own, so no must-deliver send holds it up. */
  lemma {:induction false} NeverStuck(w: World)
    requires Closing(w) && w.pc != Exited
    ensures Enabled(w, WorkerMove(w)) && Counts(WorkerMove(w))
    ensures Remaining(Next(w, WorkerMove(w))) < Remaining(w)
  {
    ClosingStep(w, WorkerMove(w));
  }

  /** Left to itself, the worker exits, within the budget. */
  lemma {:induction false} WorkerExits(w: World) returns (acts: seq<Action>)
    requires Closing(w)
    ensures Valid(w, acts) && Exec(w, acts).pc == Exited
    ensures |acts| <= Remaining(w)
    ensures forall a | a in acts :: Counts(a)
    decreases Remaining(w)
  {
    if w.pc == Exited {
      acts := [];
    } else {
      NeverStuck(w);
      var a := WorkerMove(w);
      ClosingStep(w, a);
      var rest := WorkerExits(Next(w, a));
      acts := [a] + rest;
      assert acts[1..] == rest;
    }
  }

  // ---- until Shutdown is queued ----

  /** Worker steps that may go by, after the receiver is dropped, before the worker turns to its commands. */
  function Patience(w: World): nat
  {
    match w.pc
    case Selecting => if w.enabled then 2 else 0
    case Flushing(_) => 1
    case Sending(_) => 1
    case Stopping => 0
    case Exited => 0
  }

  /** The worker takes a command, or stops. */
  predicate MovesOn(a: Action)
  {
    a.TakeCommand? || a.CommandsClosed? || a.StreamEnded? || a.FinishShutdown?
  }

  /**
   After the receiver is dropped, whatever callers and the runtime do, at most two worker steps other than
   rejecting token refreshes go by before the worker takes a command or stops.
   */
  lemma {:induction false} QueueMovesOn(w: World, acts: seq<Action>)
    requires !w.receiverOpen && Valid(w, acts)
    requires forall a | a in acts :: !MovesOn(a)
    ensures WorkerSteps(acts) <= Patience(w) <= 2
    decreases |acts|
  {
    if acts != [] {
      var w' := Next(w, acts[0]);
      assert acts[0] in acts;
      assert !w'.receiverOpen && Patience(w') + (if Counts(acts[0]) then 1 else 0) <= Patience(w);
      QueueMovesOn(w', acts[1..]);
    }
  }

  predicate Stopped(w: World)
  {
    w.pc.Stopping? || w.pc.Exited?
  }

  /** The worker's own moves make room for Shutdown, unless it stops first. */
  lemma {:induction false} RoomAppears(w: World) returns (acts: seq<Action>)
    requires !w.receiverOpen && 1 <= w.capacity && |w.commands| <= w.capacity
    ensures Valid(w, acts) && |acts| <= 2 && forall a | a in acts :: Counts(a)
    ensures
      var w' := Exec(w, acts);
      && !w'.receiverOpen && w'.sendersOpen == w.sendersOpen && w'.capacity == w.capacity
      && (Stopped(w') || |w'.commands| < w.capacity)
    decreases Patience(w)
  {
    if Stopped(w) || |w.commands| < w.capacity {
      acts := [];
    } else if w.pc == Selecting {
      acts := [TakeCommand];
      assert acts[1..] == [];
    } else {
      var a := WorkerMove(w);
      var w' := Next(w, a);
      assert w'.pc == Selecting && w'.commands == w.commands;
      acts := [a, TakeCommand];
      assert acts[1..] == [TakeCommand] && acts[1..][1..] == [];
    }
  }

  /** Dropping the receiver, queueing Shutdown, and the worker: nobody else has to act. */
  predicate ByShutdown(a: Action)
  {
    a.DropReceiver? || a == Enqueue(Shutdown) || Counts(a)
  }

  lemma {:induction false} AheadBound(w: World)
    ensures Remaining(w) <= 5 + 3 * |w.commands|
  {
  }

  lemma {:induction false} QueueShutdown(w: World) returns (acts: seq<Action>)
    requires !w.receiverOpen && w.sendersOpen && |w.commands| <= w.capacity
    requires Stopped(w) || |w.commands| < w.capacity
    ensures Valid(w, acts) && |acts| <= 1 && forall a | a in acts :: ByShutdown(a)
    ensures Closing(Exec(w, acts)) && |Exec(w, acts).commands| <= w.capacity
  {
    acts := [];
    if !Stopped(w) {
      acts := [Enqueue(Shutdown)];
      assert acts[1..] == [];
      assert Shutdown in Next(w, acts[0]).commands;
    }
  }

  /**
   From every reachable state with a live handle, `shutdown` can run to the worker's exit on its own,
   however full the command queue and whatever event the worker is waiting to deliver, in a number of steps
   bounded by the capacity.
   */
  lemma {:induction false} ShutdownCompletes(capacity: nat, before: seq<Action>) returns (acts: seq<Action>)
    requires Valid(Init(capacity), before)
    requires Exec(Init(capacity), before).receiverOpen && Exec(Init(capacity), before).sendersOpen
    ensures
      var w := Exec(Init(capacity), before);
      && Valid(w, acts) && Exec(w, acts).pc == Exited
      && acts != [] && acts[0] == DropReceiver && (forall a | a in acts :: ByShutdown(a))
      && |acts| <= 9 + 3 * w.capacity
  {
    Delivery.RunInvariants(Init(capacity), before);
    acts := ShutdownFrom(Exec(Init(capacity), before));
  }

  lemma {:induction false} ShutdownFrom(w: World) returns (acts: seq<Action>)
    requires w.receiverOpen && w.sendersOpen && 1 <= w.capacity && |w.commands| <= w.capacity
    ensures Valid(w, acts) && Exec(w, acts).pc == Exited
    ensures acts != [] && acts[0] == DropReceiver && forall a | a in acts :: ByShutdown(a)
    ensures |acts| <= 9 + 3 * w.capacity
  {
    var w0 := Next(w, DropReceiver);
    var room := RoomAppears(w0);
    var w1 := Exec(w0, room);
    CommandsShrink(w0, room);
    var queue := QueueShutdown(w1);
    var w2 := Exec(w1, queue);
    var exit := WorkerExits(w2);
    AheadBound(w2);
    ExecAppend(w1, queue, exit);
    ExecAppend(w0, room, queue + exit);
    acts := [DropReceiver] + (room + (queue + exit));
    assert acts[1..] == room + (queue + exit);
  }

  lemma {:induction false} CommandsShrink(w: World, acts: seq<Action>)
    requires Valid(w, acts) && forall a | a in acts :: Counts(a)
    ensures |Exec(w, acts).commands| <= |w.commands|
    decreases |acts|
  {
    if acts != [] {
      assert acts[0] in acts;
      CommandsShrink(Next(w, acts[0]), acts[1..]);
    }
  }
}
