/** The recursion-depth guard of sub-workflow dispatch. */
module Nesting {

  /** For each stored workflow, the sub-workflows its nodes dispatch. */
  type Store = map<nat, seq<nat>>

  datatype Attempt =
    | Missing(id: nat, depth: nat)
    | Refused(id: nat, depth: nat)
    | Entered(id: nat, depth: nat)

  /** Everything that can come of dispatching `id` from an engine at `depth`: the graph is
      looked up, then the guard decides, then the sub-engine, one level deeper, dispatches. */
  function Attempts(store: Store, limit: nat, depth: nat, id: nat): seq<Attempt>
    requires depth <= limit
    decreases limit - depth, 0, 0
  {
    if id !in store then [Missing(id, depth + 1)]
    else if depth + 1 > limit then [Refused(id, depth + 1)]
    else [Entered(id, depth + 1)] + AttemptAll(store, limit, depth + 1, store[id])
  }

  function AttemptAll(store: Store, limit: nat, depth: nat, ids: seq<nat>): seq<Attempt>
    requires depth <= limit
    decreases limit - depth, 1, |ids|
  {
    if ids == [] then []
    else Attempts(store, limit, depth, ids[0]) + AttemptAll(store, limit, depth, ids[1..])
  }

  /** Each workflow of the walk dispatches the next; all of them are stored. */
  ghost predicate CallChain(store: Store, walk: seq<nat>) {
    && (forall i | 0 <= i < |walk| :: walk[i] in store)
    && forall i | 0 <= i < |walk| - 1 :: walk[i + 1] in store[walk[i]]
  }

  /** Whatever the store, self-referential or not: no engine runs deeper than the limit, and a
      refusal happens exactly one level below it. */
  lemma {:induction false} DepthIsBounded(store: Store, limit: nat, depth: nat, id: nat, a: Attempt)
    requires depth <= limit && a in Attempts(store, limit, depth, id)
    ensures depth < a.depth <= limit + 1
    ensures a.Entered? ==> a.depth <= limit
    ensures a.Refused? ==> a.depth == limit + 1
    decreases limit - depth, 0, 0
  {
    if id in store && depth < limit && a != Entered(id, depth + 1) {
      AllAreBounded(store, limit, depth + 1, store[id], a);
    }
  }

  lemma {:induction false} AllAreBounded(store: Store, limit: nat, depth: nat, ids: seq<nat>, a: Attempt)
    requires depth <= limit && a in AttemptAll(store, limit, depth, ids)
    ensures depth < a.depth <= limit + 1
    ensures a.Entered? ==> a.depth <= limit
    ensures a.Refused? ==> a.depth == limit + 1
    decreases limit - depth, 1, |ids|
  {
    if a in Attempts(store, limit, depth, ids[0]) {
      DepthIsBounded(store, limit, depth, ids[0], a);
    } else {
      AllAreBounded(store, limit, depth, ids[1..], a);
    }
  }

  ghost predicate Refuses(attempts: seq<Attempt>) {
    exists i | 0 <= i < |attempts| :: attempts[i].Refused?
  }

  lemma RefusesEither(a: seq<Attempt>, b: seq<Attempt>)
    ensures Refuses(a + b) <==> Refuses(a) || Refuses(b)
  {
    if Refuses(a) {
      var i :| 0 <= i < |a| && a[i].Refused?;
      assert (a + b)[i].Refused?;
    }
    if Refuses(b) {
      var i :| 0 <= i < |b| && b[i].Refused?;
      assert (a + b)[|a| + i].Refused?;
    }
  }

  /** The guard refuses exactly when some chain of stored workflows, starting at `id`, is
      longer than the levels that are left. */
  lemma {:induction false} RefusedIffChainTooLong(store: Store, limit: nat, depth: nat, id: nat)
    requires depth <= limit
    ensures Refuses(Attempts(store, limit, depth, id))
            <==> exists walk :: |walk| == limit - depth + 1 && walk[0] == id && CallChain(store, walk)
    decreases limit - depth, 0, 0
  {
    if id !in store {
    } else if depth == limit {
      assert [Refused(id, depth + 1)][0].Refused?;
      assert CallChain(store, [id]) && |[id]| == 1 && [id][0] == id;
    } else {
      var entered, below := [Entered(id, depth + 1)], AttemptAll(store, limit, depth + 1, store[id]);
      RefusesEither(entered, below);
      AnyRefusedIff(store, limit, depth + 1, store[id]);
      if Refuses(below) {
        var k, walk :| 0 <= k < |store[id]| && |walk| == limit - depth && walk[0] == store[id][k]
                       && CallChain(store, walk);
        var longer := [id] + walk;
        assert forall i | 0 <= i < |longer| - 1 :: longer[i + 1] == walk[i];
        assert forall i | 0 < i < |longer| :: longer[i] == walk[i - 1];
        assert CallChain(store, longer) && longer[0] == id;
      }
      if walk :| |walk| == limit - depth + 1 && walk[0] == id && CallChain(store, walk) {
        var rest := walk[1..];
        assert walk[0 + 1] in store[walk[0]];
        assert forall i | 0 <= i < |rest| :: rest[i] == walk[i + 1];
        assert CallChain(store, rest) && rest[0] in store[id];
        var k :| 0 <= k < |store[id]| && store[id][k] == rest[0];
      }
    }
  }

  lemma {:induction false} AnyRefusedIff(store: Store, limit: nat, depth: nat, ids: seq<nat>)
    requires depth <= limit
    ensures Refuses(AttemptAll(store, limit, depth, ids))
            <==> exists k, walk ::
                   0 <= k < |ids| && |walk| == limit - depth + 1 && walk[0] == ids[k] && CallChain(store, walk)
    decreases limit - depth, 1, |ids|
  {
    if ids != [] {
      var first, rest := Attempts(store, limit, depth, ids[0]), AttemptAll(store, limit, depth, ids[1..]);
      RefusesEither(first, rest);
      RefusedIffChainTooLong(store, limit, depth, ids[0]);
      AnyRefusedIff(store, limit, depth, ids[1..]);
      if Refuses(rest) {
        var k, walk :| 0 <= k < |ids[1..]| && |walk| == limit - depth + 1 && walk[0] == ids[1..][k]
                       && CallChain(store, walk);
        assert ids[k + 1] == walk[0];
      }
      if k, walk :| 0 <= k < |ids| && |walk| == limit - depth + 1 && walk[0] == ids[k] && CallChain(store, walk) {
        if k > 0 { assert ids[1..][k - 1] == walk[0]; }
      }
    }
  }

  // ----- every attempt -----

  /** Stored workflows, each dispatching the next, lead from `id` to x in n workflows. */
  ghost predicate Reached(store: Store, id: nat, x: nat, n: int) {
    exists walk :: |walk| == n >= 1 && walk[0] == id && walk[n - 1] == x && Dispatches(store, walk)
  }

  ghost predicate Dispatches(store: Store, walk: seq<nat>) {
    forall i | 0 <= i < |walk| - 1 :: walk[i] in store && walk[i + 1] in store[walk[i]]
  }

  /** What an attempt on a workflow at a depth comes to. */
  predicate ComesTo(store: Store, limit: nat, a: Attempt) {
    match a
    case Missing(id, depth) => id !in store && depth <= limit + 1
    case Refused(id, depth) => id in store && depth == limit + 1
    case Entered(id, depth) => id in store && depth <= limit
  }

  lemma ReachedStep(store: Store, id: nat, x: nat, n: int)
    ensures Reached(store, id, x, 1) <==> id == x
    ensures n >= 1 ==> (Reached(store, id, x, n + 1)
                        <==> id in store && exists k :: 0 <= k < |store[id]| && Reached(store, store[id][k], x, n))
  {
    if id == x { assert |[id]| == 1 && [id][0] == id && Dispatches(store, [id]); }
    if n >= 1 && Reached(store, id, x, n + 1) {
      var walk :| |walk| == n + 1 && walk[0] == id && walk[n] == x && Dispatches(store, walk);
      var rest := walk[1..];
      assert walk[0] in store && walk[0 + 1] in store[walk[0]];
      assert Dispatches(store, rest) && rest[n - 1] == x;
      var k :| 0 <= k < |store[id]| && store[id][k] == rest[0];
    }
    if n >= 1 && id in store && exists k :: 0 <= k < |store[id]| && Reached(store, store[id][k], x, n) {
      var k :| 0 <= k < |store[id]| && Reached(store, store[id][k], x, n);
      var rest :| |rest| == n && rest[0] == store[id][k] && rest[n - 1] == x && Dispatches(store, rest);
      var walk := [id] + rest;
      forall i | 0 <= i < |walk| - 1 ensures walk[i] in store && walk[i + 1] in store[walk[i]] {
        if i > 0 { assert rest[i - 1] in store && rest[i - 1 + 1] in store[rest[i - 1]]; }
      }
      assert Dispatches(store, walk) && walk[n] == x;
    }
  }

  /** A workflow is attempted at a depth exactly when that many stored workflows lead to it, up to one
      level below the limit: it is missing when it is not stored, and else entered within the limit
      and refused below it. */
  lemma {:induction false} AttemptedIff(store: Store, limit: nat, depth: nat, id: nat, a: Attempt)
    requires depth <= limit
    ensures a in Attempts(store, limit, depth, id)
            <==> Reached(store, id, a.id, a.depth - depth) && ComesTo(store, limit, a)
    decreases limit - depth, 0, 0
  {
    ReachedStep(store, id, a.id, a.depth - depth - 1);
    NoneReached(store, id, a.id, a.depth - depth);
    hide Reached;
    if id in store && depth < limit {
      AnyAttemptedIff(store, limit, depth + 1, store[id], a);
      forall k | 0 <= k < |store[id]| { NoneReached(store, store[id][k], a.id, a.depth - depth - 1); }
    }
  }

  lemma NoneReached(store: Store, id: nat, x: nat, n: int)
    ensures n < 1 ==> !Reached(store, id, x, n)
  {
  }

  lemma {:induction false} AnyAttemptedIff(store: Store, limit: nat, depth: nat, ids: seq<nat>, a: Attempt)
    requires depth <= limit
    ensures a in AttemptAll(store, limit, depth, ids)
            <==> (exists k :: 0 <= k < |ids| && Reached(store, ids[k], a.id, a.depth - depth))
                 && ComesTo(store, limit, a)
    decreases limit - depth, 1, |ids|
  {
    hide Reached;
    if ids != [] {
      AttemptedIff(store, limit, depth, ids[0], a);
      AnyAttemptedIff(store, limit, depth, ids[1..], a);
      hide Attempts;
      var rest := ids[1..];
      assert forall k | 0 <= k < |rest| :: rest[k] == ids[k + 1];
      if k :| 0 <= k < |ids| && Reached(store, ids[k], a.id, a.depth - depth) {
        if k > 0 { assert Reached(store, rest[k - 1], a.id, a.depth - depth); }
      }
      if k :| 0 <= k < |rest| && Reached(store, rest[k], a.id, a.depth - depth) {
        assert Reached(store, ids[k + 1], a.id, a.depth - depth);
      }
    }
  }
}
