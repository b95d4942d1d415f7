/**
 Splitting events into upload requests (codex-rs/analytics/src/client.rs): accepted-line events
 travel alone, everything else in as few requests as that allows.
 */
module Batching {

  datatype Event = AcceptedLineFingerprints(payload: int) | Ordinary(payload: int)

  predicate Isolated(e: Event)
  {
    e.AcceptedLineFingerprints?
  }

  function Flatten(batches: seq<seq<Event>>): seq<Event>
  {
    if batches == [] then [] else Flatten(batches[..|batches| - 1]) + batches[|batches| - 1]
  }

  /** A batch the server accepts: not empty, and an accepted-line event only on its own. */
  predicate Sendable(batch: seq<Event>)
  {
    batch != [] && (forall e | e in batch :: e.AcceptedLineFingerprints? ==> |batch| == 1)
  }

  /** An order-preserving split of `events` into batches the server accepts. */
  predicate IsSplit(events: seq<Event>, batches: seq<seq<Event>>)
  {
    && Flatten(batches) == events
    && forall i | 0 <= i < |batches| :: Sendable(batches[i])
  }

  /** How many batches any split needs: one per isolated event and one per run of other events. */
  function Needed(events: seq<Event>): nat
  {
    if events == [] then 0
    else
      var n := |events| - 1;
      Needed(events[..n])
      + if !Isolated(events[n]) && n > 0 && !Isolated(events[n - 1]) then 0 else 1
  }

  lemma {:induction false} FlattenSnoc(batches: seq<seq<Event>>, batch: seq<Event>)
    ensures Flatten(batches + [batch]) == Flatten(batches) + batch
  {
    assert (batches + [batch])[..|batches|] == batches;
  }

  lemma {:induction false} NeededSnoc(events: seq<Event>, e: Event)
    ensures Needed(events + [e])
         == Needed(events) + if !Isolated(e) && events != [] && !Isolated(events[|events| - 1]) then 0 else 1
  {
    assert (events + [e])[..|events|] == events;
  }

  /** A further batch adds at most one to what is needed. */
  lemma {:induction false} NeededBatch(events: seq<Event>, batch: seq<Event>)
    requires Sendable(batch)
    ensures Needed(events + batch) <= Needed(events) + 1
    decreases |batch|
  {
    var n := |batch| - 1;
    assert events + batch == (events + batch[..n]) + [batch[n]];
    NeededSnoc(events + batch[..n], batch[n]);
    if n == 0 {
      assert events + batch[..n] == events;
    } else {
      assert batch[n] in batch && batch[n - 1] in batch;
      assert Sendable(batch[..n]);
      NeededBatch(events, batch[..n]);
      assert (events + batch[..n])[|events| + n - 1] == batch[n - 1];
    }
  }

  /** Lower bound: no split gets by with fewer. */
  lemma {:induction false} SplitNeeds(events: seq<Event>, batches: seq<seq<Event>>)
    requires IsSplit(events, batches)
    ensures Needed(events) <= |batches|
    decreases |batches|
  {
    if batches != [] {
      var n := |batches| - 1;
      SplitNeeds(Flatten(batches[..n]), batches[..n]);
      NeededBatch(Flatten(batches[..n]), batches[n]);
    }
  }

  lemma {:induction false} NoFewer(events: seq<Event>)
    ensures forall other :: IsSplit(events, other) ==> Needed(events) <= |other|
  {
    forall other | IsSplit(events, other) ensures Needed(events) <= |other| {
      SplitNeeds(events, other);
    }
  }

  /** The first `i` events are in the finished batches and the current one, as few as possible. */
  predicate Split(events: seq<Event>, i: nat, batches: seq<seq<Event>>, current: seq<Event>)
  {
    && i <= |events|
    && Flatten(batches) + current == events[..i]
    && (forall k | 0 <= k < |batches| :: Sendable(batches[k]))
    && (forall e | e in current :: !Isolated(e))
    && (current == [] ==> i == 0 || Isolated(events[i - 1]))
    && |batches| + (if current == [] then 0 else 1) == Needed(events[..i])
  }

  function Close(batches: seq<seq<Event>>, current: seq<Event>): seq<seq<Event>>
  {
    if current == [] then batches else batches + [current]
  }

  lemma {:induction false} CloseKeeps(batches: seq<seq<Event>>, current: seq<Event>)
    requires forall k | 0 <= k < |batches| :: Sendable(batches[k])
    requires forall e | e in current :: !Isolated(e)
    ensures
      var closed := Close(batches, current);
      && Flatten(closed) == Flatten(batches) + current
      && (forall k | 0 <= k < |closed| :: Sendable(closed[k]))
      && |closed| == |batches| + if current == [] then 0 else 1
  {
    FlattenSnoc(batches, current);
  }

  lemma {:induction false} TakeIsolated(events: seq<Event>, i: nat, batches: seq<seq<Event>>, current: seq<Event>)
    requires Split(events, i, batches, current) && i < |events| && Isolated(events[i])
    ensures Split(events, i + 1, Close(batches, current) + [[events[i]]], [])
  {
    var closed := Close(batches, current);
    assert events[..i + 1] == events[..i] + [events[i]];
    CloseKeeps(batches, current);
    FlattenSnoc(closed, [events[i]]);
    NeededSnoc(events[..i], events[i]);
    assert Flatten(closed + [[events[i]]]) + [] == events[..i + 1];
  }

  lemma {:induction false} TakeOrdinary(events: seq<Event>, i: nat, batches: seq<seq<Event>>, current: seq<Event>)
    requires Split(events, i, batches, current) && i < |events| && !Isolated(events[i])
    ensures Split(events, i + 1, batches, current + [events[i]])
  {
    assert events[..i + 1] == events[..i] + [events[i]];
    NeededSnoc(events[..i], events[i]);
    assert Flatten(batches) + (current + [events[i]]) == Flatten(batches) + current + [events[i]];
    if current != [] {
      assert events[..i][i - 1] == current[|current| - 1];
      assert current[|current| - 1] in current;
    }
  }

  /** `track_event_request_batches`: a split, and one that no order-preserving split undercuts. */
  method TrackEventRequestBatches(events: seq<Event>) returns (batches: seq<seq<Event>>)
    ensures IsSplit(events, batches)
    ensures forall other :: IsSplit(events, other) ==> |batches| <= |other|
  {
    batches := [];
    var currentBatch: seq<Event> := [];
    for i := 0 to |events|
      invariant Split(events, i, batches, currentBatch)
    {
      var event := events[i];
      if Isolated(event) {
        TakeIsolated(events, i, batches, currentBatch);
        if currentBatch != [] {
          batches := batches + [currentBatch];
          currentBatch := [];
        }
        batches := batches + [[event]];
      } else {
        TakeOrdinary(events, i, batches, currentBatch);
        currentBatch := currentBatch + [event];
      }
    }
    CloseKeeps(batches, currentBatch);
    assert events[..|events|] == events;
    if currentBatch != [] {
      batches := batches + [currentBatch];
    }
    NoFewer(events);
  }
}
