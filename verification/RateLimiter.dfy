/** The fixed-window rate limiter, its in-memory windows and their background eviction. */
module RateLimiting {
  // Instants, in milliseconds of a monotone clock.
  const WINDOW: nat := 60_000
  const STALE: nat := 300_000
  const MAX_ENTRIES: nat := 1000
  const U32: nat := 0x1_0000_0000

  datatype Entry = Entry(start: nat, count: nat)
  type Entries = map<nat, Entry>
  type Limits = map<nat, int>

  datatype Op =
    | Check(now: nat, id: nat)
    | Evict(now: nat)

  // ----- one operation -----

  /** The module has a limit that is enforced. */
  predicate Limited(limits: Limits, id: nat) {
    id in limits && limits[id] > 0
  }

  /** The entry after a call at `now`: opened, rolled over or counted up. */
  function Counted(entries: Entries, now: nat, id: nat): Entry {
    if id !in entries || now > entries[id].start + WINDOW then Entry(now, 1)
    else Entry(entries[id].start, (entries[id].count + 1) % U32)
  }

  function Apply(limits: Limits, entries: Entries, op: Op): Entries {
    match op
    case Check(now, id) => if Limited(limits, id) then entries[id := Counted(entries, now, id)] else entries
    case Evict(now) =>
      if |entries| > MAX_ENTRIES then map id | id in entries && entries[id].start + STALE > now :: entries[id]
      else entries
  }

  predicate Allows(limits: Limits, entries: Entries, now: nat, id: nat) {
    Limited(limits, id) ==> Counted(entries, now, id).count <= limits[id]
  }

  /** Who counts a call: this process, or a shared counter that answers or fails. */
  datatype Counter =
    | InMemory
    | Shared(count: nat)
    | Unavailable

  /** The map the process shares, updated in place. */
  class Limiter {
    const limits: Limits
    var entries: Entries

    constructor (limits: Limits)
      ensures this.limits == limits && entries == map[]
    {
      this.limits := limits;
      entries := map[];
    }

    /** True when the call is refused.  A shared counter leaves the windows alone, and one that
        fails lets the call through.  A module without an enforced limit is never refused and leaves no
        trace; any other counts in the window that is open, to the end of its sixtieth second, or opens
        one of its own. */
    method CheckRateLimit(now: nat, id: nat, counter: Counter) returns (refused: bool)
      modifies this`entries
      ensures entries == if counter.InMemory? then Apply(limits, old(entries), Check(now, id)) else old(entries)
      ensures refused <==>
                match counter
                case InMemory => !Allows(limits, old(entries), now, id)
                case Shared(count) => Limited(limits, id) && count > limits[id]
                case Unavailable => false
      ensures id !in limits || limits[id] <= 0 ==> !refused && entries == old(entries)
      ensures id in limits && limits[id] > 0 && counter.InMemory? ==>
                var open := id in old(entries) && now <= old(entries)[id].start + 60_000;
                && entries == old(entries)[id := entries[id]]
                && entries[id].start == (if open then old(entries)[id].start else now)
                && entries[id].count == (if open then (old(entries)[id].count + 1) % 4_294_967_296 else 1)
                && (refused <==> entries[id].count > limits[id])
    {
      if id !in limits || limits[id] <= 0 { return false; }
      match counter {
        case Unavailable => return false;
        case Shared(count) => return count > limits[id];
        case InMemory =>
      }
      if id !in entries { entries := entries[id := Entry(now, 0)]; }
      if now > entries[id].start + WINDOW { entries := entries[id := Entry(now, 0)]; }
      entries := entries[id := Entry(entries[id].start, (entries[id].count + 1) % U32)];
      refused := entries[id].count > limits[id];
    }

    /** Nothing goes up to a thousand windows; beyond that, exactly those opened five minutes ago or
        earlier. */
    method EvictStaleRateLimits(now: nat)
      modifies this`entries
      ensures entries == Apply(limits, old(entries), Evict(now))
      ensures |old(entries)| <= 1000 ==> entries == old(entries)
      ensures |old(entries)| > 1000 ==>
                && (forall id :: id in entries <==> id in old(entries) && now < old(entries)[id].start + 300_000)
                && forall id | id in entries :: entries[id] == old(entries)[id]
    {
      if |entries| > MAX_ENTRIES {
        var todo := entries.Keys;
        while todo != {}
          invariant todo <= entries.Keys <= old(entries).Keys
          invariant forall id | id in entries :: entries[id] == old(entries)[id]
          invariant forall id | id in old(entries) && id !in todo ::
                      id in entries <==> old(entries)[id].start + STALE > now
          decreases |todo|
        {
          var id :| id in todo;
          if !(entries[id].start + STALE > now) { entries := entries - {id}; }
          todo := todo - {id};
        }
      }
    }
  }

  // ----- sequences of operations -----

  /** The clock never runs backwards and starts no earlier than `clock`. */
  ghost predicate Monotone(clock: nat, ops: seq<Op>)
    decreases |ops|
  {
    ops == [] || (clock <= ops[0].now && Monotone(ops[0].now, ops[1..]))
  }

  /** The answers to the calls, in order. */
  function Decisions(limits: Limits, entries: Entries, ops: seq<Op>): seq<bool>
    decreases |ops|
  {
    if ops == [] then []
    else
      (if ops[0].Check? then [Allows(limits, entries, ops[0].now, ops[0].id)] else [])
      + Decisions(limits, Apply(limits, entries, ops[0]), ops[1..])
  }

  /** How many calls for `id` at instants from lo to hi are allowed. */
  function Allowed(limits: Limits, entries: Entries, ops: seq<Op>, id: nat, lo: nat, hi: nat): nat
    decreases |ops|
  {
    if ops == [] then 0
    else
      (if ops[0].Check? && ops[0].id == id && lo <= ops[0].now <= hi && Allows(limits, entries, ops[0].now, id)
       then 1 else 0)
      + Allowed(limits, Apply(limits, entries, ops[0]), ops[1..], id, lo, hi)
  }

  function Calls(ops: seq<Op>, id: nat): nat {
    if ops == [] then 0 else (if ops[0].Check? && ops[0].id == id then 1 else 0) + Calls(ops[1..], id)
  }

  // ----- bounds -----

  /** What is left of the budget of a window. */
  function Rest(limit: nat, e: Entry): nat {
    if e.count < limit then limit - e.count else 0
  }

  /** How many calls between lo and hi can still be allowed. */
  function Budget(limit: nat, entries: Entries, id: nat, lo: nat, hi: nat): nat {
    if limit == 0 then 0
    else if id !in entries then 2 * limit - 1
    else
      var e := entries[id];
      if hi <= e.start + WINDOW then Rest(limit, e)
      else if lo <= e.start + WINDOW then Rest(limit, e) + limit
      else 2 * limit - 1
  }

  /** The calls for `id` at instants up to `last`. */
  function CallsUntil(ops: seq<Op>, id: nat, last: nat): nat {
    if ops == [] || ops[0].now > last then 0
    else (if ops[0].Check? && ops[0].id == id then 1 else 0) + CallsUntil(ops[1..], id, last)
  }

  /** From any call for `id` on, fewer than 2^32 calls for it come within a window. */
  predicate NoFlood(ops: seq<Op>, id: nat) {
    ops == []
    || ((ops[0].Check? && ops[0].id == id ==> CallsUntil(ops, id, ops[0].now + WINDOW) < U32)
        && NoFlood(ops[1..], id))
  }

  /** The counter of the open window cannot wrap during ops. */
  predicate RoomFor(entries: Entries, ops: seq<Op>, id: nat) {
    id in entries ==>
      && 1 <= entries[id].count
      && entries[id].count + CallsUntil(ops, id, entries[id].start + WINDOW) < U32
  }

  lemma RoomStays(limits: Limits, entries: Entries, ops: seq<Op>, id: nat, clock: nat)
    requires Monotone(clock, ops) && Limited(limits, id) && ops != [] && NoFlood(ops, id) && RoomFor(entries, ops, id)
    ensures RoomFor(Apply(limits, entries, ops[0]), ops[1..], id)
  {
  }

  lemma {:induction false} LateCallsDoNotCount(limits: Limits, entries: Entries, ops: seq<Op>, id: nat, lo: nat,
        hi: nat, clock: nat)
    requires Monotone(clock, ops) && hi < clock
    ensures Allowed(limits, entries, ops, id, lo, hi) == 0
    decreases |ops|
  {
    if ops != [] {
      LateCallsDoNotCount(limits, Apply(limits, entries, ops[0]), ops[1..], id, lo, hi, ops[0].now);
    }
  }

  lemma {:induction false} AllowedWithinBudget(limits: Limits, entries: Entries, ops: seq<Op>, id: nat, lo: nat,
        hi: nat, clock: nat)
    requires Monotone(clock, ops) && Limited(limits, id) && hi <= lo + WINDOW
    requires RoomFor(entries, ops, id) && NoFlood(ops, id)
    ensures Allowed(limits, entries, ops, id, lo, hi) <= Budget(limits[id], entries, id, lo, hi)
    decreases |ops|
  {
    if ops != [] {
      var entries' := Apply(limits, entries, ops[0]);
      if hi < ops[0].now {
        LateCallsDoNotCount(limits, entries', ops[1..], id, lo, hi, ops[0].now);
      } else {
        RoomStays(limits, entries, ops, id, clock);
        AllowedWithinBudget(limits, entries', ops[1..], id, lo, hi, ops[0].now);
      }
    }
  }

  /** From an empty map, any 60 seconds see at most 2 * limit - 1 allowed calls, unless 2^32 calls
      come within one window. */
  lemma UnderTwiceTheLimitPerMinute(limits: Limits, ops: seq<Op>, id: nat, lo: nat, hi: nat)
    requires Monotone(0, ops) && Limited(limits, id) && hi <= lo + WINDOW && NoFlood(ops, id)
    ensures Allowed(limits, map[], ops, id, lo, hi) <= 2 * limits[id] - 1
  {
    AllowedWithinBudget(limits, map[], ops, id, lo, hi, 0);
  }

  function Repeat(op: Op, n: nat): seq<Op> {
    if n == 0 then [] else [op] + Repeat(op, n - 1)
  }

  lemma AllowedHead(limits: Limits, entries: Entries, op: Op, rest: seq<Op>, id: nat, lo: nat, hi: nat)
    ensures Allowed(limits, entries, [op] + rest, id, lo, hi)
         == (if op.Check? && op.id == id && lo <= op.now <= hi && Allows(limits, entries, op.now, id) then 1 else 0)
            + Allowed(limits, Apply(limits, entries, op), rest, id, lo, hi)
  {
    assert ([op] + rest)[1..] == rest;
  }

  /** n calls at one instant of an open window, and whatever follows. */
  lemma {:induction false} AllowedInBurst(limits: Limits, entries: Entries, id: nat, now: nat, n: nat, rest: seq<Op>,
                                          lo: nat, hi: nat)
    requires Limited(limits, id) && id in entries && now <= entries[id].start + WINDOW
    requires entries[id].count + n <= limits[id] < U32 && lo <= now <= hi
    ensures Allowed(limits, entries, Repeat(Check(now, id), n) + rest, id, lo, hi)
         == n + Allowed(limits, entries[id := Entry(entries[id].start, entries[id].count + n)], rest, id, lo, hi)
    decreases n
  {
    hide Apply, Allowed, Allows, Repeat;
    var op := Check(now, id);
    RepeatUnfolds(op, n, rest);
    if n == 0 {
      assert entries[id := Entry(entries[id].start, entries[id].count + n)] == entries;
    } else {
      var entries' := AfterOne(limits, entries, id, now, n);
      AllowedHead(limits, entries, op, Repeat(op, n - 1) + rest, id, lo, hi);
      AllowedInBurst(limits, entries', id, now, n - 1, rest, lo, hi);
    }
  }

  lemma RepeatUnfolds(op: Op, n: nat, rest: seq<Op>)
    ensures Repeat(op, n) + rest == if n == 0 then rest else [op] + (Repeat(op, n - 1) + rest)
  {
  }

  lemma AfterOne(limits: Limits, entries: Entries, id: nat, now: nat, n: nat) returns (entries': Entries)
    requires Limited(limits, id) && id in entries && now <= entries[id].start + WINDOW
    requires 1 <= n && entries[id].count + n <= limits[id] < U32
    ensures entries' == Apply(limits, entries, Check(now, id)) && Allows(limits, entries, now, id)
    ensures id in entries' && entries'[id] == Entry(entries[id].start, entries[id].count + 1)
    ensures entries'[id := Entry(entries'[id].start, entries'[id].count + (n - 1))]
         == entries[id := Entry(entries[id].start, entries[id].count + n)]
  {
    entries' := Apply(limits, entries, Check(now, id));
  }

  /** The bound is reached: one call opens a window, the rest of its budget is spent in its
      last millisecond, and the next window's budget in the following one. */
  lemma TwiceTheLimitLessOneIsReached(limits: Limits, id: nat) returns (ops: seq<Op>)
    requires Limited(limits, id) && limits[id] < U32
    ensures Allowed(limits, map[], ops, id, 1, WINDOW + 1) == 2 * limits[id] - 1
  {
    hide Apply, Allowed, Allows, Repeat;
    var limit, last, next := limits[id], Check(WINDOW, id), Check(WINDOW + 1, id);
    var one: Entries, spent: Entries := map[id := Entry(0, 1)], map[id := Entry(0, limit)];
    var second := [next] + (Repeat(next, limit - 1) + []);
    ops := [Check(0, id)] + (Repeat(last, limit - 1) + second);
    OpeningCalls(limits, id);
    AllowedHead(limits, map[], Check(0, id), Repeat(last, limit - 1) + second, id, 1, WINDOW + 1);
    AllowedInBurst(limits, one, id, WINDOW, limit - 1, second, 1, WINDOW + 1);
    assert one[id := Entry(0, 1 + (limit - 1))] == spent;
    NextWindow(limits, id);
  }

  /** A call at 0 opens a window; the first call after its end opens the next one. */
  lemma OpeningCalls(limits: Limits, id: nat)
    requires Limited(limits, id)
    ensures Apply(limits, map[], Check(0, id)) == map[id := Entry(0, 1)] && Allows(limits, map[], 0, id)
    ensures Apply(limits, map[id := Entry(0, limits[id])], Check(WINDOW + 1, id)) == map[id := Entry(WINDOW + 1, 1)]
    ensures Allows(limits, map[id := Entry(0, limits[id])], WINDOW + 1, id)
  {
  }

  lemma NextWindow(limits: Limits, id: nat)
    requires Limited(limits, id) && limits[id] < U32
    ensures var next := Check(WINDOW + 1, id);
            var calls := [next] + (Repeat(next, limits[id] - 1) + []);
            Allowed(limits, map[id := Entry(0, limits[id])], calls, id, 1, WINDOW + 1) == limits[id]
  {
    hide Apply, Allowed, Allows, Repeat;
    var limit, next := limits[id], Check(WINDOW + 1, id);
    var spent: Entries, again: Entries := map[id := Entry(0, limit)], map[id := Entry(WINDOW + 1, 1)];
    OpeningCalls(limits, id);
    AllowedHead(limits, spent, next, Repeat(next, limit - 1) + [], id, 1, WINDOW + 1);
    AllowedInBurst(limits, again, id, WINDOW + 1, limit - 1, [], 1, WINDOW + 1);
    NothingAllowed(limits, again[id := Entry(WINDOW + 1, 1 + (limit - 1))], id, 1, WINDOW + 1);
  }

  lemma NothingAllowed(limits: Limits, entries: Entries, id: nat, lo: nat, hi: nat)
    ensures Allowed(limits, entries, [], id, lo, hi) == 0
  {
  }

  /** Calls beyond the limit of an open window are refused until the counter is full. */
  lemma {:induction false} AllowedInExcess(limits: Limits, entries: Entries, id: nat, now: nat, n: nat, rest: seq<Op>,
                                           lo: nat, hi: nat)
    requires Limited(limits, id) && id in entries && now <= entries[id].start + WINDOW
    requires limits[id] <= entries[id].count && entries[id].count + n < U32
    ensures Allowed(limits, entries, Repeat(Check(now, id), n) + rest, id, lo, hi)
         == Allowed(limits, entries[id := Entry(entries[id].start, entries[id].count + n)], rest, id, lo, hi)
    decreases n
  {
    var op := Check(now, id);
    RepeatUnfolds(op, n, rest);
    if n == 0 {
      assert entries[id := Entry(entries[id].start, entries[id].count + n)] == entries;
    } else {
      var entries' := Apply(limits, entries, op);
      assert entries'[id := Entry(entries'[id].start, entries'[id].count + (n - 1))]
          == entries[id := Entry(entries[id].start, entries[id].count + n)];
      AllowedHead(limits, entries, op, Repeat(op, n - 1) + rest, id, lo, hi);
      AllowedInExcess(limits, entries', id, now, n - 1, rest, lo, hi);
    }
  }

  /** What the condition is for: a flood at one instant wraps the counter, and the window lets its
      budget through a second time, with one call more. */
  lemma FloodIsLetThroughTwice(limits: Limits, id: nat) returns (ops: seq<Op>)
    requires Limited(limits, id) && limits[id] < U32
    ensures Monotone(0, ops) && !NoFlood(ops, id)
    ensures Allowed(limits, map[], ops, id, 0, WINDOW) == 2 * limits[id] + 1
  {
    hide Apply, Allowed, Allows, Repeat, Monotone, NoFlood;
    var limit, call := limits[id], Check(0, id);
    var again := [call] + (Repeat(call, limit) + []);
    var excess := Repeat(call, U32 - 1 - limit) + again;
    ops := [call] + (Repeat(call, limit - 1) + excess);
    OpeningCalls(limits, id);
    AllowedHead(limits, map[], call, Repeat(call, limit - 1) + excess, id, 0, WINDOW);
    AllowedInBurst(limits, map[id := Entry(0, 1)], id, 0, limit - 1, excess, 0, WINDOW);
    assert map[id := Entry(0, 1)][id := Entry(0, 1 + (limit - 1))] == map[id := Entry(0, limit)];
    AllowedInExcess(limits, map[id := Entry(0, limit)], id, 0, U32 - 1 - limit, again, 0, WINDOW);
    assert map[id := Entry(0, limit)][id := Entry(0, limit + (U32 - 1 - limit))] == map[id := Entry(0, U32 - 1)];
    AfterTheWrap(limits, id);
    RepeatIsSteady(call, limit);
    RepeatIsSteady(call, U32 - 1 - limit);
    RepeatIsSteady(call, limit - 1);
    FloodOfCalls(ops, id);
  }

  lemma FloodOfCalls(ops: seq<Op>, id: nat)
    requires |ops| >= U32 && forall o | o in ops :: o == Check(0, id)
    ensures Monotone(0, ops) && !NoFlood(ops, id)
  {
    SteadyCalls(ops, id);
    assert ops[0] in ops;
  }

  /** The call that finds the counter full starts it again at zero. */
  lemma AfterTheWrap(limits: Limits, id: nat)
    requires Limited(limits, id) && limits[id] < U32
    ensures var call := Check(0, id);
            Allowed(limits, map[id := Entry(0, U32 - 1)], [call] + (Repeat(call, limits[id]) + []), id, 0, WINDOW)
            == limits[id] + 1
  {
    var limit, call := limits[id], Check(0, id);
    assert Apply(limits, map[id := Entry(0, U32 - 1)], call) == map[id := Entry(0, 0)];
    assert Allows(limits, map[id := Entry(0, U32 - 1)], 0, id);
    hide Apply, Allows, Repeat, Allowed;
    AllowedHead(limits, map[id := Entry(0, U32 - 1)], call, Repeat(call, limit) + [], id, 0, WINDOW);
    AllowedInBurst(limits, map[id := Entry(0, 0)], id, 0, limit, [], 0, WINDOW);
    assert Allowed(limits, map[id := Entry(0, 0)][id := Entry(0, 0 + limit)], [], id, 0, WINDOW) == 0 by {
      NothingAllowed(limits, map[id := Entry(0, 0)][id := Entry(0, 0 + limit)], id, 0, WINDOW);
    }
  }

  lemma {:induction false} RepeatIsSteady(op: Op, n: nat)
    ensures |Repeat(op, n)| == n && forall o | o in Repeat(op, n) :: o == op
  {
    if n > 0 { RepeatIsSteady(op, n - 1); }
  }

  lemma {:induction false} SteadyCalls(ops: seq<Op>, id: nat)
    requires forall o | o in ops :: o == Check(0, id)
    ensures Monotone(0, ops) && CallsUntil(ops, id, WINDOW) == |ops|
    decreases |ops|
  {
    if ops != [] {
      assert ops[0] in ops && forall o | o in ops[1..] :: o in ops;
      SteadyCalls(ops[1..], id);
    }
  }

  /** An operation inside the window neither closes nor evicts it. */
  lemma StillOpen(limits: Limits, entries: Entries, op: Op, id: nat)
    requires Limited(limits, id) && id in entries && op.now <= entries[id].start + WINDOW
    requires op.Check? && op.id == id ==> entries[id].count + 1 < U32
    ensures id in Apply(limits, entries, op) && Apply(limits, entries, op)[id].start == entries[id].start
    ensures Apply(limits, entries, op)[id].count
         == entries[id].count + if op.Check? && op.id == id then 1 else 0
  {
  }

  /** Inside one window exactly the first `limit` calls are allowed. */
  lemma {:induction false} WindowAllowsTheFirst(limits: Limits, entries: Entries, ops: seq<Op>, id: nat, clock: nat)
    requires Monotone(clock, ops) && Limited(limits, id) && id in entries
    requires RoomFor(entries, ops, id) && entries[id].start <= clock
    requires forall i | 0 <= i < |ops| :: ops[i].now <= entries[id].start + WINDOW
    ensures var calls, rest := Calls(ops, id), Rest(limits[id], entries[id]);
            Allowed(limits, entries, ops, id, clock, entries[id].start + WINDOW) == if calls < rest then calls else rest
    decreases |ops|
  {
    if ops != [] {
      var entries' := Apply(limits, entries, ops[0]);
      assert forall i | 0 <= i < |ops[1..]| :: ops[1..][i] == ops[i + 1];
      StillOpen(limits, entries, ops[0], id);
      hide Apply, Monotone;
      WindowAllowsTheFirst(limits, entries', ops[1..], id, ops[0].now);
      AllowedFrom(limits, entries', ops[1..], id, clock, ops[0].now, entries[id].start + WINDOW);
    }
  }

  lemma {:induction false} AllowedFrom(limits: Limits, entries: Entries, ops: seq<Op>, id: nat, lo: nat, lo': nat,
                                       hi: nat)
    requires Monotone(lo', ops) && lo <= lo'
    ensures Allowed(limits, entries, ops, id, lo, hi) == Allowed(limits, entries, ops, id, lo', hi)
    decreases |ops|
  {
    if ops != [] {
      var entries', now := Apply(limits, entries, ops[0]), ops[0].now;
      AllowedFrom(limits, entries', ops[1..], id, lo, now, hi);
      AllowedFrom(limits, entries', ops[1..], id, lo', now, hi);
    }
  }

  // ----- eviction is transparent -----

  function WithoutEvictions(ops: seq<Op>): seq<Op> {
    if ops == [] then [] else (if ops[0].Evict? then [] else [ops[0]]) + WithoutEvictions(ops[1..])
  }

  /** `kept` lacks at most entries whose window is over. */
  ghost predicate SameButStale(clock: nat, kept: Entries, all: Entries) {
    && (forall id | id in kept :: id in all && all[id] == kept[id])
    && (forall id | id in all && id !in kept :: all[id].start + WINDOW < clock)
  }

  lemma {:induction false} EvictionIsTransparentFrom(limits: Limits, kept: Entries, all: Entries, ops: seq<Op>,
        clock: nat)
    requires Monotone(clock, ops) && SameButStale(clock, kept, all)
    ensures Decisions(limits, kept, ops) == Decisions(limits, all, WithoutEvictions(ops))
    decreases |ops|
  {
    if ops != [] {
      var op, rest := ops[0], WithoutEvictions(ops[1..]);
      if op.Evict? {
        assert WithoutEvictions(ops) == rest;
        EvictionIsTransparentFrom(limits, Apply(limits, kept, op), all, ops[1..], op.now);
      } else {
        assert (WithoutEvictions(ops))[1..] == rest;
        EvictionIsTransparentFrom(limits, Apply(limits, kept, op), Apply(limits, all, op), ops[1..], op.now);
      }
    }
  }

  /** Evicting at any points changes no decision. */
  lemma EvictionIsTransparent(limits: Limits, ops: seq<Op>)
    requires Monotone(0, ops)
    ensures Decisions(limits, map[], ops) == Decisions(limits, map[], WithoutEvictions(ops))
  {
    EvictionIsTransparentFrom(limits, map[], map[], ops, 0);
  }
}
