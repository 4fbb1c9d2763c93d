/** When a run enqueues a fan-in node: the release rule, over whole runs. */
module FanInRuns {
  import opened Graphs
  import opened FanIn
  import opened Scheduler
  import opened SchedulerInvariant
  import opened SchedulerRuns

  /** No edge of the graph has a condition, and f is a node of its own, as fan-ins are: no chain
      batches it. */
  ghost predicate PlainFanIn(w: Workflow, f: nat) {
    && Valid(w.graph) && NoConditions(w.graph) && !InChains(w.chains, f)
    && f in w.joins && f < w.graph.size
  }

  function Total(w: Workflow, f: nat): nat {
    |InEdges(w.graph, f)|
  }

  function Edges(g: Graph, u: nat, f: nat): nat {
    |Targets(g, u, f, |g.edges|)|
  }

  function InQueue(s: State, f: nat): nat {
    multiset(s.ready)[f]
  }

  function Tally(s: State, f: nat): Counter
    requires f in s.pending
  {
    Counter(s.pending[f], InQueue(s, f))
  }

  /** The deliveries take the counter from a to b. */
  ghost predicate Advances(w: Workflow, f: nat, a: Counter, ds: seq<Delivery>, b: Counter) {
    f in w.joins && ReceiveAll(w.joins[f], Total(w, f), a, ds) == b
  }

  lemma AdvancesNone(w: Workflow, f: nat, a: Counter)
    requires PlainFanIn(w, f)
    ensures Advances(w, f, a, [], a)
  {
  }

  lemma AdvancesThen(w: Workflow, f: nat, a: Counter, ds: seq<Delivery>, b: Counter, es: seq<Delivery>, c: Counter)
    requires Advances(w, f, a, ds, b) && Advances(w, f, b, es, c)
    ensures Advances(w, f, a, ds + es, c)
  {
    ReceiveInTwo(w.joins[f], Total(w, f), a, ds, es);
  }

  // ----- one walk -----

  /** What the walk of u hands to f along each edge between them. */
  function PerEdge(g: Graph, u: nat, f: nat, walk: Walk): seq<Delivery> {
    match walk
    case OnSuccess(_) => if ErrorBetween(g, u, f) then [] else [BySuccess]
    case OnErrorRoute => if ErrorBetween(g, u, f) then [ByErrorRoute] else []
    case OnUnblock => [ByUnblock]
  }

  function Times(ds: seq<Delivery>, n: nat): seq<Delivery> {
    if n == 0 then [] else ds + Times(ds, n - 1)
  }

  function Sent(w: Workflow, u: nat, f: nat, walk: Walk): seq<Delivery> {
    Times(PerEdge(w.graph, u, f, walk), Edges(w.graph, u, f))
  }

  lemma VisitTallies(w: Workflow, s: State, u: nat, c: nat, walk: Walk, f: nat)
    requires PlainFanIn(w, f) && f in s.pending
    ensures f in VisitEdge(w, s, u, c, walk).pending
    ensures Advances(w, f, Tally(s, f), if c == f then PerEdge(w.graph, u, f, walk) else [],
                     Tally(VisitEdge(w, s, u, c, walk), f))
  {
    assert !ConditionFails(w, u, c, if walk.OnSuccess? then walk.output else Skipped);
    AdvancesNone(w, f, Tally(s, f));
    forall d: Delivery
      ensures ReceiveAll(w.joins[f], Total(w, f), Tally(s, f), [d]) == Receive(w.joins[f], Total(w, f), Tally(s, f), d)
    {
      assert [d][..0] == [];
    }
  }

  /** A walk from u delivers to f once for every edge from u to f. */
  lemma {:induction false} WalkTallies(w: Workflow, s: State, u: nat, walk: Walk, k: nat, f: nat)
    requires PlainFanIn(w, f) && f in s.pending && k <= |w.graph.edges|
    ensures f in WalkEdges(w, s, u, walk, k).pending
    ensures Advances(w, f, Tally(s, f), Times(PerEdge(w.graph, u, f, walk), |Targets(w.graph, u, f, k)|),
                     Tally(WalkEdges(w, s, u, walk, k), f))
    decreases k
  {
    hide VisitEdge, PlainFanIn, Advances, PerEdge, Targets;
    var g, per := w.graph, PerEdge(w.graph, u, f, walk);
    TargetsNext(g, u, f, k);
    if k == 0 {
      AdvancesNone(w, f, Tally(s, f));
    } else {
      var e, left := g.edges[k - 1], Times(per, |Targets(g, u, f, k - 1)|);
      if e.src == u {
        var s' := VisitEdge(w, s, u, e.dst, walk);
        VisitTallies(w, s, u, e.dst, walk, f);
        WalkTallies(w, s', u, walk, k - 1, f);
        AdvancesThen(w, f, Tally(s, f), if e.dst == f then per else [], Tally(s', f), left,
                     Tally(WalkEdges(w, s', u, walk, k - 1), f));
        assert [] + left == left;
      } else {
        WalkTallies(w, s, u, walk, k - 1, f);
      }
    }
  }

  // ----- one step -----

  /** What the failure of u hands to f: its error route, else its continuation, else nothing. */
  function SentByFailure(w: Workflow, u: nat, f: nat): seq<Delivery> {
    if RoutesErrors(w.graph, u) then Sent(w, u, f, OnErrorRoute)
    else if u in w.continueOnError then Sent(w, u, f, OnUnblock)
    else []
  }

  /** The deliveries to f that the step makes. */
  ghost function ReceivedFrom(w: Workflow, s: State, e: Event, f: nat): seq<Delivery>
    requires Enabled(w, s, e)
  {
    match e
    case Pop(i, decision) =>
      if ChainOf(w.chains, s.ready[i]).Some? then []
      else if decision.Resolve? then Sent(w, s.ready[i], f, OnUnblock)
      else if decision.Reject? then SentByFailure(w, s.ready[i], f)
      else []
    case Finish(i, outcome) =>
      var u := Reporter(w, s.executing[i]);
      if outcome.Ok? then Sent(w, u, f, OnSuccess(Admit(w.policy, outcome.value))) else SentByFailure(w, u, f)
  }

  /** The queue a step appends to. */
  function Base(s: State, e: Event): State {
    if e.Pop? && e.index < |s.ready| then s.(ready := Without(s.ready, e.index)) else s
  }

  lemma FailureTallies(w: Workflow, s: State, u: nat, error: string, f: nat)
    requires PlainFanIn(w, f) && f in s.pending
    ensures f in Fail(w, s, u, error).pending
    ensures Advances(w, f, Tally(s, f), SentByFailure(w, u, f), Tally(Fail(w, s, u, error), f))
  {
    hide Targets, RoutesErrors, PlainFanIn, Advances, ClearChain, PerEdge;
    AdvancesNone(w, f, Tally(s, f));
    ClearingSpares(w, u, s.pending, f);
    var message := w.policy.redact(error);
    WalkTallies(w, s.(results := s.results[u := RoutedError(message, u)], pending := ClearChain(w, u, s.pending)),
                u, OnErrorRoute, |w.graph.edges|, f);
    WalkTallies(w, s.(results := s.results[u := ContinuedError(message)]), u, OnUnblock, |w.graph.edges|, f);
  }

  lemma SuccessTallies(w: Workflow, s: State, u: nat, raw: string, f: nat)
    requires PlainFanIn(w, f) && f in s.pending
    ensures f in Succeed(w, s, u, raw).pending
    ensures Advances(w, f, Tally(s, f), Sent(w, u, f, OnSuccess(Admit(w.policy, raw))), Tally(Succeed(w, s, u, raw), f))
  {
    hide Targets, PlainFanIn, Advances, ClearChain, PerEdge;
    ClearingSpares(w, u, s.pending, f);
    var output := Admit(w.policy, raw);
    WalkTallies(w, s.(results := s.results[u := output], pending := ClearChain(w, u, s.pending)),
                u, OnSuccess(output), |w.graph.edges|, f);
  }

  /** A finished chain clears its own members' counters only. */
  lemma ClearingSpares(w: Workflow, u: nat, p: map<nat, nat>, f: nat)
    requires PlainFanIn(w, f) && f in p
    ensures f in ClearChain(w, u, p) && ClearChain(w, u, p)[f] == p[f]
  {
  }

  lemma StepTallies(w: Workflow, s: State, e: Event, f: nat)
    requires PlainFanIn(w, f) && f in s.pending && Enabled(w, s, e)
    ensures f in Step(w, s, e).pending
    ensures Advances(w, f, Tally(Base(s, e), f), ReceivedFrom(w, s, e, f), Tally(Step(w, s, e), f))
  {
    hide Targets, PlainFanIn, Fail, Succeed, Gather, WalkEdges, Advances, PerEdge, SentByFailure, IsHead, ChainOf;
    AdvancesNone(w, f, Tally(Base(s, e), f));
    match e
    case Finish(i, outcome) =>
      var u, s1 := Reporter(w, s.executing[i]), s.(executing := Without(s.executing, i));
      match outcome {
        case Ok(raw) => SuccessTallies(w, s1, u, raw, f);
        case Err(error) => FailureTallies(w, s1, u, error, f);
      }
    case Pop(i, decision) =>
      var u, s1 := s.ready[i], s.(ready := Without(s.ready, i));
      if decision.Resolve? {
        WalkTallies(w, s1.(results := s.results[u := decision.value]), u, OnUnblock, |w.graph.edges|, f);
      } else if decision.Reject? {
        FailureTallies(w, s1, u, decision.message, f);
      }
  }

  // ----- whole runs -----

  /** The deliveries to f in the course of a run, in order. */
  ghost function Received(w: Workflow, s: State, events: seq<Event>, f: nat): seq<Delivery>
    requires IsRun(w, s, events)
    decreases |events|
  {
    if events == [] then []
    else ReceivedFrom(w, s, events[0], f) + Received(w, Step(w, s, events[0]), events[1..], f)
  }

  /** How often f is put on the ready queue in the course of a run. */
  ghost function Enqueued(w: Workflow, s: State, events: seq<Event>, f: nat): int
    requires IsRun(w, s, events)
    decreases |events|
  {
    if events == [] then 0
    else
      InQueue(Step(w, s, events[0]), f) - InQueue(Base(s, events[0]), f)
      + Enqueued(w, Step(w, s, events[0]), events[1..], f)
  }

  lemma {:induction false} RunTallies(w: Workflow, s: State, events: seq<Event>, f: nat, before: nat)
    returns (pushed: nat)
    requires PlainFanIn(w, f) && f in s.pending && IsRun(w, s, events)
    ensures f in After(w, s, events).pending
    ensures pushed == Enqueued(w, s, events, f)
    ensures Advances(w, f, Counter(s.pending[f], before), Received(w, s, events, f),
                     Counter(After(w, s, events).pending[f], before + pushed))
    decreases |events|
  {
    hide Step, PlainFanIn, ReceivedFrom, InQueue, Advances;
    pushed := 0;
    if events == [] {
      AdvancesNone(w, f, Counter(s.pending[f], before));
    } else {
      var e, s' := events[0], Step(w, s, events[0]);
      var first := StepPushes(w, s, e, f, before);
      var rest := RunTallies(w, s', events[1..], f, before + first);
      pushed := first + rest;
      AdvancesThen(w, f, Counter(s.pending[f], before), ReceivedFrom(w, s, e, f),
                   Counter(s'.pending[f], before + first), Received(w, s', events[1..], f),
                   Counter(After(w, s', events[1..]).pending[f], before + first + rest));
    }
  }

  lemma StepPushes(w: Workflow, s: State, e: Event, f: nat, before: nat) returns (pushed: nat)
    requires PlainFanIn(w, f) && f in s.pending && Enabled(w, s, e)
    ensures f in Step(w, s, e).pending
    ensures pushed == InQueue(Step(w, s, e), f) - InQueue(Base(s, e), f)
    ensures Advances(w, f, Counter(s.pending[f], before), ReceivedFrom(w, s, e, f),
                     Counter(Step(w, s, e).pending[f], before + pushed))
  {
    StepTallies(w, s, e, f);
    assert f in w.joins;
    hide Step, PlainFanIn, ReceivedFrom, InQueue, Total, ReceiveAll;
    var mode, total, ds := w.joins[f], Total(w, f), ReceivedFrom(w, s, e, f);
    PushesAdd(mode, total, Counter(s.pending[f], 0), ds, InQueue(Base(s, e), f));
    PushesAdd(mode, total, Counter(s.pending[f], 0), ds, before);
    pushed := ReceiveAll(mode, total, Counter(s.pending[f], 0), ds).pushes;
  }

  // ----- from the start of a run -----

  /** A fan-in that is not seeded itself. */
  ghost predicate OpenFanIn(w: Workflow, seed: map<nat, Value>, f: nat) {
    PlainFanIn(w, f) && InEdges(w.graph, f) != {} && f !in seed
  }

  function SeededEdges(g: Graph, seeds: set<nat>, f: nat): set<nat> {
    set i | i in InEdges(g, f) && g.edges[i].src in seeds
  }

  /** All that f hears: a seeded parent counts like one that unblocks, before the run. */
  ghost function Heard(w: Workflow, seed: map<nat, Value>, events: seq<Event>, f: nat): seq<Delivery>
    requires IsRun(w, Start(w, seed), events)
  {
    Times([ByUnblock], |SeededEdges(w.graph, seed.Keys, f)|) + Received(w, Start(w, seed), events, f)
  }

  /** How often f has been put on the queue, the initial queue included. */
  ghost function Pushes(w: Workflow, seed: map<nat, Value>, events: seq<Event>, f: nat): int
    requires IsRun(w, Start(w, seed), events)
  {
    InQueue(Start(w, seed), f) + Enqueued(w, Start(w, seed), events, f)
  }

  lemma {:induction false} Unblocks(mode: JoinMode, total: nat, c: Counter, m: nat)
    requires m <= c.cnt
    ensures ReceiveAll(mode, total, c, Times([ByUnblock], m))
         == Counter(c.cnt - m, if 0 < m == c.cnt then c.pushes + 1 else c.pushes)
    decreases m
  {
    if m > 0 {
      var c' := Passed(c, c.cnt - 1);
      assert [ByUnblock][..0] == [];
      assert ReceiveAll(mode, total, c, [ByUnblock]) == c';
      ReceiveInTwo(mode, total, c, [ByUnblock], Times([ByUnblock], m - 1));
      Unblocks(mode, total, c', m - 1);
    }
  }

  lemma QueuedOnce(ready: seq<nat>, f: nat)
    requires forall i, j | 0 <= i < j < |ready| :: ready[i] != ready[j]
    ensures multiset(ready)[f] == if f in ready then 1 else 0
  {
    if f in ready {
      var i :| 0 <= i < |ready| && ready[i] == f;
      assert ready == ready[..i] + [f] + ready[i + 1..];
      assert f !in ready[..i] && f !in ready[i + 1..];
    }
  }

  /** The start is what the seeded parents make of a fan-in that waits for all its edges. */
  lemma StartHears(w: Workflow, seed: map<nat, Value>, f: nat)
    requires OpenFanIn(w, seed, f)
    ensures f in Start(w, seed).pending && 1 <= Total(w, f) < MAX_EDGES && PlainFanIn(w, f)
    ensures Advances(w, f, Counter(Total(w, f), 0), Times([ByUnblock], |SeededEdges(w.graph, seed.Keys, f)|),
                     Counter(Start(w, seed).pending[f], InQueue(Start(w, seed), f)))
  {
    var g, m := w.graph, |SeededEdges(w.graph, seed.Keys, f)|;
    SomeInEdges(g, f);
    assert InEdges(g, f) == SeededEdges(g, seed.Keys, f) + FromUnseeded(g, seed.Keys, f);
    assert SeededEdges(g, seed.Keys, f) !! FromUnseeded(g, seed.Keys, f);
    RootsAre(g, seed.Keys, g.size);
    QueuedOnce(Roots(g, seed.Keys, g.size), f);
    Unblocks(w.joins[f], Total(w, f), Counter(Total(w, f), 0), m);
  }

  /** What a whole run makes of the fan-in. */
  lemma RunReceives(w: Workflow, seed: map<nat, Value>, events: seq<Event>, f: nat)
    requires OpenFanIn(w, seed, f) && IsRun(w, Start(w, seed), events)
    ensures var s := Start(w, seed);
            && f in After(w, s, events).pending && Pushes(w, seed, events, f) >= 0 && f in w.joins
            && Counter(After(w, s, events).pending[f], Pushes(w, seed, events, f))
               == ReceiveAll(w.joins[f], Total(w, f), Counter(Total(w, f), 0), Heard(w, seed, events, f))
  {
    var s, before := Start(w, seed), InQueue(Start(w, seed), f);
    var seeded := Times([ByUnblock], |SeededEdges(w.graph, seed.Keys, f)|);
    hide Start, OpenFanIn, Received, Enqueued, After, IsRun, PlainFanIn, Total, InQueue, SeededEdges, Times;
    StartHears(w, seed, f);
    var pushed := RunTallies(w, s, events, f, before);
    AdvancesThen(w, f, Counter(Total(w, f), 0), seeded, Counter(s.pending[f], before),
                 Received(w, s, events, f), Counter(After(w, s, events).pending[f], before + pushed));
  }

  /** When a fan-in is released, over all runs, batched or not, fresh or seeded, whatever its
      parents do.  It has been enqueued exactly when all its edges have delivered, or some delivery
      from the threshold-th on came from a success or along an error route: seeds, system nodes
      and continued failures count, but never release early.  Until then its counter is the number
      of deliveries still missing. */
  lemma FanInReleasedIff(w: Workflow, seed: map<nat, Value>, events: seq<Event>, f: nat)
    requires OpenFanIn(w, seed, f) && IsRun(w, Start(w, seed), events)
    ensures var total, ds := Total(w, f), Heard(w, seed, events, f);
            && f in After(w, Start(w, seed), events).pending
            && (Pushes(w, seed, events, f) >= 1 <==> ReleasedBy(w.joins[f], total, ds))
            && (!ReleasedBy(w.joins[f], total, ds) ==> After(w, Start(w, seed), events).pending[f] == total - |ds|)
  {
    var total, ds := Total(w, f), Heard(w, seed, events, f);
    RunReceives(w, seed, events, f);
    StartHears(w, seed, f);
    hide Start, OpenFanIn, Heard, Pushes, After, IsRun, PlainFanIn, Total, SeededEdges, ReceiveAll, ReleasedBy;
    MixedReleaseSchedule(w.joins[f], total, ds);
  }

  /** The documented rule, release with the threshold-th delivery, is met exactly when that
      delivery is not an unblocking one, or is the last. */
  lemma ReleasedOnTimeIff(w: Workflow, seed: map<nat, Value>, events: seq<Event>, f: nat)
    requires OpenFanIn(w, seed, f) && IsRun(w, Start(w, seed), events)
    requires |Heard(w, seed, events, f)| == Threshold(w.joins[f], Total(w, f))
    ensures var total, ds := Total(w, f), Heard(w, seed, events, f);
            && 1 <= |ds| <= total
            && (Pushes(w, seed, events, f) >= 1 <==> |ds| == total || !ds[|ds| - 1].ByUnblock?)
  {
    hide *;
    FanInReleasedIff(w, seed, events, f);
    StartHears(w, seed, f);
    ReleasedAtThreshold(w.joins[f], Total(w, f), Heard(w, seed, events, f));
  }

  /** In particular, of a fan-in whose parents all succeed: it is enqueued with the threshold-th
      delivery, however often parents deliver.  As long as no more deliveries are made than there
      are edges, its counter is zero from there on, and each later delivery enqueues it again. */
  lemma FanInReleasesAtThreshold(w: Workflow, seed: map<nat, Value>, events: seq<Event>, f: nat)
    requires OpenFanIn(w, seed, f) && IsRun(w, Start(w, seed), events)
    requires var ds := Heard(w, seed, events, f); forall k | 0 <= k < |ds| :: ds[k] == BySuccess
    ensures var total, m := Total(w, f), |Heard(w, seed, events, f)|;
            var threshold := Threshold(w.joins[f], total);
            && 1 <= threshold <= total
            && f in After(w, Start(w, seed), events).pending
            && (Pushes(w, seed, events, f) >= 1 <==> m >= threshold)
            && (m <= total ==>
                  && After(w, Start(w, seed), events).pending[f] == (if m < threshold then total - m else 0)
                  && Pushes(w, seed, events, f) == (if m < threshold then 0 else m - threshold + 1))
  {
    var total, ds := Total(w, f), Heard(w, seed, events, f);
    RunReceives(w, seed, events, f);
    FanInReleasedIff(w, seed, events, f);
    StartHears(w, seed, f);
    hide Start, OpenFanIn, Heard, Pushes, After, IsRun, PlainFanIn, Total, SeededEdges, ReceiveAll, ReleasedBy;
    ReleaseSchedule(w.joins[f], total, if |ds| <= total then |ds| else total);
    SuccessesDeliver(w.joins[f], total, Counter(total, 0), ds);
    ReleasedBySuccesses(w.joins[f], total, ds);
  }

  lemma SomeInEdges(g: Graph, f: nat)
    requires Valid(g) && InEdges(g, f) != {}
    ensures 1 <= |InEdges(g, f)| < MAX_EDGES
  {
    InEdgesFit(g, f);
  }
}
