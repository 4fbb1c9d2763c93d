/** The per-child counter of `pending` and the early release of fan-in nodes. */
module FanIn {

  datatype JoinMode = All | Any | Majority | AtLeast(n: nat)

  // `usize` arithmetic is unchecked in release builds.
  const USIZE: nat := 0x1_0000_0000_0000_0000

  /** `*cnt -= 1` without a guard. */
  function Decrement(cnt: nat): nat {
    if cnt == 0 then USIZE - 1 else cnt - 1
  }

  /** `if *cnt > 0 { *cnt -= 1 }`. */
  function GuardedDecrement(cnt: nat): nat {
    if cnt == 0 then 0 else cnt - 1
  }

  /** `total_parents - cnt`, wrapping. */
  function Completed(total: nat, cnt: nat): nat {
    (total - cnt) % USIZE
  }

  /** The counter after `apply_fan_in_early_ready`. */
  function EarlyReady(mode: JoinMode, total: nat, cnt: nat): nat {
    if cnt == 0 then cnt
    else match mode
      case All => cnt
      case Any => 0
      case Majority => if Completed(total, cnt) > total / 2 then 0 else cnt
      case AtLeast(n) => if Completed(total, cnt) >= n then 0 else cnt
  }

  /** How many parent deliveries a fan-in with `total` incoming edges waits for. */
  function Threshold(mode: JoinMode, total: nat): nat {
    match mode
    case All => total
    case Any => 1
    case Majority => total / 2 + 1
    case AtLeast(n) => if n == 0 then 1 else if n < total then n else total
  }

  /** The counter of a fan-in and how often it has been put on the ready queue. */
  datatype Counter = Counter(cnt: nat, pushes: nat)

  /** A counter left at zero puts the fan-in on the queue. */
  function Passed(c: Counter, cnt: nat): Counter {
    Counter(cnt, if cnt == 0 then c.pushes + 1 else c.pushes)
  }

  function Deliver(mode: JoinMode, total: nat, c: Counter): Counter {
    Passed(c, EarlyReady(mode, total, Decrement(c.cnt)))
  }

  function DeliverMore(mode: JoinMode, total: nat, c: Counter, m: nat): Counter {
    if m == 0 then c else Deliver(mode, total, DeliverMore(mode, total, c, m - 1))
  }

  function Deliveries(mode: JoinMode, total: nat, m: nat): Counter {
    DeliverMore(mode, total, Counter(total, 0), m)
  }

  /** How a settled parent reaches the fan-in.  The success walk decrements unguarded and the
      error route guarded, and both release early; what unblocks the successors of a system node
      or of a continued failure decrements guarded and does not. */
  datatype Delivery = BySuccess | ByErrorRoute | ByUnblock

  function Receive(mode: JoinMode, total: nat, c: Counter, d: Delivery): Counter {
    match d
    case BySuccess => Deliver(mode, total, c)
    case ByErrorRoute => Passed(c, EarlyReady(mode, total, GuardedDecrement(c.cnt)))
    case ByUnblock => Passed(c, GuardedDecrement(c.cnt))
  }

  function ReceiveAll(mode: JoinMode, total: nat, c: Counter, ds: seq<Delivery>): Counter {
    if ds == [] then c
    else Receive(mode, total, ReceiveAll(mode, total, c, ds[..|ds| - 1]), ds[|ds| - 1])
  }

  lemma {:induction false} ReceiveInTwo(mode: JoinMode, total: nat, c: Counter, ds: seq<Delivery>, es: seq<Delivery>)
    ensures ReceiveAll(mode, total, c, ds + es) == ReceiveAll(mode, total, ReceiveAll(mode, total, c, ds), es)
  {
    if es == [] {
      assert ds + es == ds;
    } else {
      assert (ds + es)[..|ds + es| - 1] == ds + es[..|es| - 1];
      ReceiveInTwo(mode, total, c, ds, es[..|es| - 1]);
    }
  }

  lemma {:induction false} PushesAdd(mode: JoinMode, total: nat, c: Counter, ds: seq<Delivery>, before: nat)
    ensures ReceiveAll(mode, total, Counter(c.cnt, c.pushes + before), ds)
         == Counter(ReceiveAll(mode, total, c, ds).cnt, ReceiveAll(mode, total, c, ds).pushes + before)
  {
    if ds != [] {
      PushesAdd(mode, total, c, ds[..|ds| - 1], before);
    }
  }

  /** A fan-in that hears of successes only. */
  lemma {:induction false} SuccessesDeliver(mode: JoinMode, total: nat, c: Counter, ds: seq<Delivery>)
    requires forall k | 0 <= k < |ds| :: ds[k] == BySuccess
    ensures ReceiveAll(mode, total, c, ds) == DeliverMore(mode, total, c, |ds|)
  {
    if ds != [] {
      SuccessesDeliver(mode, total, c, ds[..|ds| - 1]);
    }
  }

  /** The release rule: no push before the threshold-th delivery, the first push exactly
      there, and one more push for every delivery after it. */
  lemma {:induction false} ReleaseSchedule(mode: JoinMode, total: nat, m: nat)
    requires 1 <= total < 0x1_0000_0000 && m <= total
    ensures 1 <= Threshold(mode, total) <= total
    ensures m < Threshold(mode, total) ==> Deliveries(mode, total, m) == Counter(total - m, 0)
    ensures m >= Threshold(mode, total) ==>
              Deliveries(mode, total, m) == Counter(0, m - Threshold(mode, total) + 1)
  {
    if m > 0 {
      ReleaseSchedule(mode, total, m - 1);
      OneMoreDelivery(mode, total, m, Deliveries(mode, total, m - 1));
    }
  }

  lemma OneMoreDelivery(mode: JoinMode, total: nat, m: nat, c: Counter)
    requires 1 <= m <= total < 0x1_0000_0000
    requires c == if m <= Threshold(mode, total) then Counter(total - (m - 1), 0)
                  else Counter(0, m - Threshold(mode, total))
    ensures Deliver(mode, total, c) == if m < Threshold(mode, total) then Counter(total - m, 0)
                                       else Counter(0, m - Threshold(mode, total) + 1)
  {
    if m <= Threshold(mode, total) {
      EarlyFromThreshold(mode, total, m);
    } else {
      assert Completed(total, USIZE - 1) == total + 1;
    }
  }

  /** The join mode is satisfied by m of the parents exactly from the threshold on. */
  lemma EarlyFromThreshold(mode: JoinMode, total: nat, m: nat)
    requires 1 <= m <= total < 0x1_0000_0000
    ensures EarlyReady(mode, total, total - m) == if m >= Threshold(mode, total) then 0 else total - m
  {
    assert Completed(total, total - m) == m;
  }

  // ----- mixed deliveries -----

  /** The k-th delivery looks at the join mode, and the threshold has been reached. */
  predicate Releases(mode: JoinMode, total: nat, ds: seq<Delivery>, k: nat)
    requires k < |ds|
  {
    !ds[k].ByUnblock? && k + 1 >= Threshold(mode, total)
  }

  /** Every edge has delivered, or some delivery has released the fan-in before. */
  predicate ReleasedBy(mode: JoinMode, total: nat, ds: seq<Delivery>) {
    |ds| >= total || exists k | 0 <= k < |ds| :: Releases(mode, total, ds, k)
  }

  lemma ReleasedByMore(mode: JoinMode, total: nat, ds: seq<Delivery>)
    requires ds != []
    ensures var k := |ds| - 1;
            ReleasedBy(mode, total, ds)
            <==> ReleasedBy(mode, total, ds[..k]) || |ds| == total || Releases(mode, total, ds, k)
  {
    var k := |ds| - 1;
    assert forall i | 0 <= i < k :: Releases(mode, total, ds[..k], i) == Releases(mode, total, ds, i);
  }

  /** What any deliveries, in any order, do: until one satisfies the join the counter is the
      number of deliveries missing and nothing is pushed; after that the fan-in has been pushed. */
  lemma {:induction false} MixedReleaseSchedule(mode: JoinMode, total: nat, ds: seq<Delivery>)
    requires 1 <= total < 0x1_0000_0000
    ensures var c := ReceiveAll(mode, total, Counter(total, 0), ds);
            && (c.pushes >= 1 <==> ReleasedBy(mode, total, ds))
            && (!ReleasedBy(mode, total, ds) ==> |ds| < total && c.cnt == total - |ds|)
  {
    if ds != [] {
      var k := |ds| - 1;
      MixedReleaseSchedule(mode, total, ds[..k]);
      ReleasedByMore(mode, total, ds);
      if !ReleasedBy(mode, total, ds[..k]) {
        EarlyFromThreshold(mode, total, |ds|);
      }
    }
  }

  /** "Released once" holds of exactly those fan-ins that wait for every parent: a mode
      that releases early is pushed again by each parent that finishes later. */
  lemma EnqueuedOnceIffWaitsForAll(mode: JoinMode, total: nat)
    requires 1 <= total < 0x1_0000_0000
    ensures Deliveries(mode, total, total).pushes == 1 <==> Threshold(mode, total) == total
  {
    ReleaseSchedule(mode, total, total);
  }

  /** A fan-in whose threshold is its number of parents is never released early, in any mode. */
  lemma NeverReleasedEarly(mode: JoinMode, total: nat, cnt: nat)
    requires 1 <= total < 0x1_0000_0000 && Threshold(mode, total) == total && cnt < total
    ensures EarlyReady(mode, total, cnt) == cnt
  {
    if cnt > 0 { assert Completed(total, cnt) == total - cnt; }
  }

  lemma ReleasedAtThreshold(mode: JoinMode, total: nat, ds: seq<Delivery>)
    requires 1 <= total && |ds| == Threshold(mode, total)
    ensures 1 <= |ds| <= total && (ReleasedBy(mode, total, ds) <==> |ds| == total || !ds[|ds| - 1].ByUnblock?)
  {
    assert Releases(mode, total, ds, |ds| - 1) <==> !ds[|ds| - 1].ByUnblock?;
  }

  lemma ReleasedBySuccesses(mode: JoinMode, total: nat, ds: seq<Delivery>)
    requires 1 <= total && forall k | 0 <= k < |ds| :: ds[k] == BySuccess
    ensures ReleasedBy(mode, total, ds) <==> |ds| >= Threshold(mode, total)
  {
    if |ds| >= Threshold(mode, total) {
      assert Releases(mode, total, ds, Threshold(mode, total) - 1);
    }
  }
}
