/**
 Deduplication of app-used and plugin-used events (codex-rs/analytics/src/client.rs): a set of
 keys that is emptied when it has grown to 4096, set against one that is never emptied.
 */
module Dedupe {
  import opened Options

  const MAX_KEYS: nat := 4096

  datatype Key = Key(turn: string, subject: string)

  class EmittedKeys {
    var keys: set<Key>

    constructor ()
      ensures keys == {}
    {
      keys := {};
    }

    /** `should_enqueue_plugin_used`; also the keyed half of `should_enqueue_app_used`. */
    method ShouldEnqueue(key: Key) returns (unseen: bool)
      modifies this
      ensures keys == After(old(keys), key) && unseen == Accepts(old(keys), key)
    {
      if |keys| >= MAX_KEYS {
        keys := {};
      }
      unseen := key !in keys;
      keys := keys + {key};
    }

    /** `should_enqueue_app_used`: an app without a connector id is never held back. */
    method ShouldEnqueueApp(turn: string, connector: Option<string>) returns (unseen: bool)
      modifies this
      ensures connector.None? ==> unseen && keys == old(keys)
      ensures connector.Some? ==>
                keys == After(old(keys), Key(turn, connector.value))
                && unseen == Accepts(old(keys), Key(turn, connector.value))
    {
      if connector.None? {
        return true;
      }
      unseen := ShouldEnqueue(Key(turn, connector.value));
    }
  }

  function Room(keys: set<Key>): set<Key>
  {
    if |keys| >= MAX_KEYS then {} else keys
  }

  function After(keys: set<Key>, key: Key): set<Key>
  {
    Room(keys) + {key}
  }

  predicate Accepts(keys: set<Key>, key: Key)
  {
    key !in Room(keys)
  }

  /** The key set after a run of keyed calls. */
  function Run(calls: seq<Key>): set<Key>
  {
    if calls == [] then {} else After(Run(calls[..|calls| - 1]), calls[|calls| - 1])
  }

  /** The answer to the last of these calls. */
  predicate Answer(calls: seq<Key>)
    requires calls != []
  {
    Accepts(Run(calls[..|calls| - 1]), calls[|calls| - 1])
  }

  /** The keys of the accepted calls, in order. */
  function Accepted(calls: seq<Key>): seq<Key>
  {
    if calls == [] then []
    else Accepted(calls[..|calls| - 1]) + if Answer(calls) then [calls[|calls| - 1]] else []
  }

  function KeysOf(calls: seq<Key>): set<Key>
  {
    set k | k in calls
  }

  /** Each key differs from all those before it. */
  predicate Distinct(keys: seq<Key>)
  {
    keys == [] || (Distinct(keys[..|keys| - 1]) && keys[|keys| - 1] !in keys[..|keys| - 1])
  }

  lemma {:induction false} DistinctPair(keys: seq<Key>, i: nat, j: nat)
    requires Distinct(keys) && i < j < |keys|
    ensures keys[i] != keys[j]
  {
    var before := keys[..|keys| - 1];
    assert before[i] == keys[i];
    if j < |before| { DistinctPair(before, i, j); }
  }

  // ---- the set never outgrows the bound, and holds the accepted keys of the block in progress ----

  lemma {:induction false} RunBound(calls: seq<Key>)
    ensures |Run(calls)| <= MAX_KEYS
  {
    if calls != [] {
      RunBound(calls[..|calls| - 1]);
    }
  }

  /** `keys` holds exactly the accepted keys from position `s` on, which begins a block. */
  predicate IsBlock(keys: set<Key>, accepted: seq<Key>, s: nat)
  {
    && s <= |accepted| && s % MAX_KEYS == 0
    && |accepted| - s <= MAX_KEYS && (accepted != [] ==> s < |accepted|)
    && Distinct(accepted[s..])
    && keys == KeysOf(accepted[s..])
    && |keys| == |accepted| - s
  }

  lemma {:induction false} BlockGrows(keys: set<Key>, accepted: seq<Key>, s: nat, key: Key)
    requires IsBlock(keys, accepted, s) && key !in keys && |keys| < MAX_KEYS
    ensures IsBlock(keys + {key}, accepted + [key], s)
  {
    var block := accepted[s..];
    assert (accepted + [key])[s..] == block + [key];
    assert (block + [key])[..|block|] == block;
    assert KeysOf(block + [key]) == KeysOf(block) + {key};
  }

  lemma {:induction false} BlockBegins(accepted: seq<Key>, key: Key)
    requires |accepted| % MAX_KEYS == 0
    ensures IsBlock({key}, accepted + [key], |accepted|)
  {
    assert (accepted + [key])[|accepted|..] == [key];
    assert KeysOf([key]) == {key};
  }

  lemma {:induction false} BlockStep(keys: set<Key>, accepted: seq<Key>, s: nat, key: Key) returns (s': nat)
    requires IsBlock(keys, accepted, s)
    ensures IsBlock(After(keys, key), accepted + if Accepts(keys, key) then [key] else [], s')
  {
    if |keys| >= MAX_KEYS {
      BlockBegins(accepted, key);
      s' := |accepted|;
      assert After(keys, key) == {key};
    } else if key !in keys {
      BlockGrows(keys, accepted, s, key);
      s' := s;
    } else {
      assert After(keys, key) == keys && accepted + [] == accepted;
      s' := s;
    }
  }

  lemma {:induction false} RunIsBlock(calls: seq<Key>) returns (s: nat)
    ensures IsBlock(Run(calls), Accepted(calls), s)
  {
    if calls == [] {
      s := 0;
      assert KeysOf(Accepted(calls)[0..]) == {};
    } else {
      var n := |calls| - 1;
      s := RunIsBlock(calls[..n]);
      s := BlockStep(Run(calls[..n]), Accepted(calls[..n]), s, calls[n]);
    }
  }

  lemma {:induction false} BlockArithmetic(s: nat, i: nat, j: nat)
    requires s % MAX_KEYS == 0 && s <= j < s + MAX_KEYS
    requires i / MAX_KEYS == j / MAX_KEYS
    ensures s <= i
  {
    assert s == s / MAX_KEYS * MAX_KEYS;
    assert j / MAX_KEYS == s / MAX_KEYS;
  }

  lemma {:induction false} AcceptedPrefix(calls: seq<Key>, m: nat) returns (n: nat)
    requires m <= |Accepted(calls)|
    ensures n <= |calls| && Accepted(calls[..n]) == Accepted(calls)[..m]
    decreases |calls|
  {
    if m == |Accepted(calls)| {
      n := |calls|;
      assert calls[..n] == calls && Accepted(calls)[..m] == Accepted(calls);
    } else {
      var k := |calls| - 1;
      n := AcceptedPrefix(calls[..k], m);
      assert calls[..k][..n] == calls[..n];
      assert Accepted(calls)[..m] == Accepted(calls[..k])[..m];
    }
  }

  /**
   Cut the accepted calls of any run into consecutive blocks of 4096: no key occurs twice in a
   block, and the set never holds more than 4096 keys.
   */
  lemma {:induction false} BlocksHaveNoRepeats(calls: seq<Key>, i: nat, j: nat)
    requires i < j < |Accepted(calls)|
    requires i / 4096 == j / 4096
    ensures Accepted(calls)[i] != Accepted(calls)[j]
    ensures |Run(calls)| <= 4096
  {
    RunBound(calls);
    var accepted := Accepted(calls);
    var n := AcceptedPrefix(calls, j + 1);
    var s := RunIsBlock(calls[..n]);
    var upTo := accepted[..j + 1];
    BlockArithmetic(s, i, j);
    assert upTo[s..][i - s] == accepted[i] && upTo[s..][j - s] == accepted[j];
    DistinctPair(upTo[s..], i - s, j - s);
  }

  // ---- against an unbounded set ----

  lemma {:induction false} SubsetSize(a: set<Key>, b: set<Key>)
    requires a <= b
    ensures |a| <= |b|
  {
    assert b == a + (b - a);
  }

  lemma {:induction false} RunIsUnbounded(calls: seq<Key>)
    requires |KeysOf(calls)| < MAX_KEYS
    ensures Run(calls) == KeysOf(calls)
  {
    if calls != [] {
      var n := |calls| - 1;
      var before := KeysOf(calls[..n]);
      assert KeysOf(calls) == before + {calls[n]} by {
        assert calls == calls[..n] + [calls[n]];
      }
      SubsetSize(before, KeysOf(calls));
      RunIsUnbounded(calls[..n]);
    }
  }

  /** With fewer than 4096 distinct keys so far, the answer is that of a set that is never emptied. */
  lemma {:induction false} AnswersAsUnbounded(calls: seq<Key>)
    requires calls != [] && |KeysOf(calls[..|calls| - 1])| < 4096
    ensures Answer(calls) <==> calls[|calls| - 1] !in calls[..|calls| - 1]
  {
    RunIsUnbounded(calls[..|calls| - 1]);
  }

  lemma {:induction false} DistinctFills(calls: seq<Key>)
    requires Distinct(calls) && |calls| <= MAX_KEYS
    ensures Run(calls) == KeysOf(calls) && |KeysOf(calls)| == |calls|
  {
    if calls != [] {
      var n := |calls| - 1;
      DistinctFills(calls[..n]);
      assert KeysOf(calls) == KeysOf(calls[..n]) + {calls[n]} by {
        assert calls == calls[..n] + [calls[n]];
      }
      assert calls[n] !in KeysOf(calls[..n]);
    }
  }

  /** The bound is sharp: after 4096 distinct keys every key is accepted again. */
  lemma {:induction false} FullSetForgets(calls: seq<Key>, key: Key)
    requires Distinct(calls) && |calls| == 4096
    ensures Answer(calls + [key])
  {
    DistinctFills(calls);
    assert (calls + [key])[..|calls|] == calls;
  }
}
