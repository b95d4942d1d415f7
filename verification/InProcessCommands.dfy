/**
 The command side of the in-process worker: commands are taken in the order they were queued, and the
 worker stops exactly when it is told to.
 */
module InProcessCommands {
  import opened InProcess

  function Queued(acts: seq<Action>): seq<Command>
  {
    if acts == [] then []
    else (if acts[0].Enqueue? then [acts[0].command] else []) + Queued(acts[1..])
  }

  /** The commands the worker took, in order. */
  function Taken(w: World, acts: seq<Action>): seq<Command>
    requires Valid(w, acts)
    decreases |acts|
  {
    if acts == [] then []
    else (if acts[0].TakeCommand? then [w.commands[0]] else []) + Taken(Next(w, acts[0]), acts[1..])
  }

  lemma {:induction false} CommandStep(w: World, a: Action)
    requires Enabled(w, a)
    ensures w.commands + (if a.Enqueue? then [a.command] else [])
         == (if a.TakeCommand? then [w.commands[0]] else []) + Next(w, a).commands
  {
  }

  /** Regrouping one step in front of the rest of a run. */
  lemma {:induction false} Regroup(c: seq<Command>, q: seq<Command>, t: seq<Command>, c': seq<Command>,
                                   qs: seq<Command>, ts: seq<Command>, rest: seq<Command>)
    requires c + q == t + c' && c' + qs == ts + rest
    ensures c + (q + qs) == (t + ts) + rest
  {
    calc {
      c + (q + qs);
      (c + q) + qs;
      t + (c' + qs);
      (t + ts) + rest;
    }
  }

  lemma {:induction false} CommandsRun(w: World, acts: seq<Action>)
    requires Valid(w, acts)
    ensures w.commands + Queued(acts) == Taken(w, acts) + Exec(w, acts).commands
    decreases |acts|
  {
    if acts != [] {
      var a, w' := acts[0], Next(w, acts[0]);
      CommandStep(w, a);
      CommandsRun(w', acts[1..]);
      Regroup(w.commands, if a.Enqueue? then [a.command] else [], if a.TakeCommand? then [w.commands[0]] else [],
              w'.commands, Queued(acts[1..]), Taken(w', acts[1..]), Exec(w', acts[1..]).commands);
    }
  }

  /** First in, first out: the commands queued are those taken, in that order, and then those still waiting. */
  lemma CommandsInOrder(capacity: nat, acts: seq<Action>)
    requires Valid(Init(capacity), acts)
    ensures Queued(acts) == Taken(Init(capacity), acts) + Exec(Init(capacity), acts).commands
  {
    CommandsRun(Init(capacity), acts);
    assert [] + Queued(acts) == Queued(acts);
  }

  /** The step tells the worker to stop: the runtime ended, every sender is gone, or Shutdown is next. */
  predicate Stops(w: World, a: Action)
  {
    a.StreamEnded? || (w.commands == [] && a.CommandsClosed?)
    || (a.TakeCommand? && w.commands != [] && w.commands[0] == Shutdown)
  }

  predicate Told(w: World, acts: seq<Action>)
    requires Valid(w, acts)
    decreases |acts|
  {
    acts != [] && (Stops(w, acts[0]) || Told(Next(w, acts[0]), acts[1..]))
  }

  predicate HasStopped(w: World)
  {
    w.pc.Stopping? || w.pc.Exited?
  }

  lemma {:induction false} StopRun(w: World, acts: seq<Action>)
    requires Valid(w, acts)
    ensures HasStopped(Exec(w, acts)) <==> HasStopped(w) || Told(w, acts)
    decreases |acts|
  {
    if acts != [] {
      var w' := Next(w, acts[0]);
      assert HasStopped(w') <==> HasStopped(w) || Stops(w, acts[0]);
      StopRun(w', acts[1..]);
    }
  }

  /** The worker has left its loop exactly when a step of the run told it to; any other command keeps it running. */
  lemma StopsExactlyWhenTold(capacity: nat, acts: seq<Action>)
    requires Valid(Init(capacity), acts)
    ensures HasStopped(Exec(Init(capacity), acts)) <==> Told(Init(capacity), acts)
  {
    StopRun(Init(capacity), acts);
  }
}
