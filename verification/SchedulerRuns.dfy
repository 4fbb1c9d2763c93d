/** What holds along every run of the reactor, whatever finishes when and however it ends. */
module SchedulerRuns {
  import opened Graphs
  import opened Scheduler
  import opened SchedulerInvariant
  import opened SchedulerSteps

  // ----- the start of a run -----

  ghost predicate PredecessorClosed(g: Graph, seeds: set<nat>) {
    forall i | 0 <= i < |g.edges| && g.edges[i].dst in seeds :: g.edges[i].src in seeds
  }

  /** A well-formed workflow and a seed it can be resumed from: predecessor-closed, and
      without batching unless it is empty. */
  ghost predicate Startable(w: Workflow, seed: map<nat, Value>) {
    && WellFormed(w)
    && PredecessorClosed(w.graph, seed.Keys)
    && (seed != map[] ==> w.chains == [])
  }

  function SeedDispositions(g: Graph, seed: map<nat, Value>): Dispositions {
    map n | n in seed && n < g.size :: Opened
  }

  lemma SeededCounts(w: Workflow, seed: map<nat, Value>, n: nat)
    requires Startable(w, seed) && n < w.graph.size
    ensures SeededCount(w.graph, seed.Keys, n) == |Waiting(w.graph, SeedDispositions(w.graph, seed), {}, n)|
  {
    var g, disp := w.graph, SeedDispositions(w.graph, seed);
    var unseeded := FromUnseeded(g, seed.Keys, n);
    assert Waiting(g, disp, {}, n) == unseeded;
    if n in seed {
      assert unseeded == {};
    }
  }

  predicate IsRoot(g: Graph, seeds: set<nat>, n: nat) {
    SeededCount(g, seeds, n) == 0 && n !in seeds
  }

  lemma {:induction false} RootsAre(g: Graph, seeds: set<nat>, k: nat)
    ensures forall n: nat :: n in Roots(g, seeds, k) <==> n < k && IsRoot(g, seeds, n)
    ensures Ascending(Roots(g, seeds, k)) && Distinct(Roots(g, seeds, k))
  {
    if k > 0 {
      RootsAre(g, seeds, k - 1);
      var below := Roots(g, seeds, k - 1);
      hide IsRoot, SeededCount;
      assert forall i | 0 <= i < |below| :: below[i] in below;
    }
  }

  lemma RootsAreDue(w: Workflow, seed: map<nat, Value>, n: nat)
    requires Startable(w, seed) && n < w.graph.size
    ensures IsRoot(w.graph, seed.Keys, n) <==> Due(w, SeedDispositions(w.graph, seed), {}, n)
    ensures Inner(w.chains, n) ==> Waiting(w.graph, SeedDispositions(w.graph, seed), {}, n) != {}
  {
    var g, disp := w.graph, SeedDispositions(w.graph, seed);
    SeededCounts(w, seed, n);
    if Inner(w.chains, n) {
      var k, j :| 0 <= k < |w.chains| && 1 <= j < |w.chains[k]| && w.chains[k][j] == n;
      assert IsChain(g, w.chains[k]);
      assert Link(g, w.chains[k][j - 1], w.chains[k][j - 1 + 1]);
      var e: nat :| OutEdges(g, w.chains[k][j - 1]) == {e} && InEdges(g, n) == {e};
      assert e in InEdges(g, n);
      assert e in Waiting(g, disp, {}, n);
    }
  }

  lemma StartCounted(w: Workflow, seed: map<nat, Value>)
    requires Startable(w, seed)
    ensures Counted(w, Start(w, seed), SeedDispositions(w.graph, seed), {})
  {
    forall n: nat | n < w.graph.size
      ensures SeededCount(w.graph, seed.Keys, n) == |Waiting(w.graph, SeedDispositions(w.graph, seed), {}, n)|
      ensures SeededCount(w.graph, seed.Keys, n) <= |InEdges(w.graph, n)|
    {
      SeededCounts(w, seed, n);
      SubsetSize(FromUnseeded(w.graph, seed.Keys, n), InEdges(w.graph, n));
    }
  }

  lemma StartSettled(w: Workflow, seed: map<nat, Value>)
    requires Startable(w, seed)
    ensures Settled(w, Start(w, seed), SeedDispositions(w.graph, seed), {})
    ensures WholeChains(w, SeedDispositions(w.graph, seed))
  {
    forall n | n in seed && n < w.graph.size
      ensures Waiting(w.graph, SeedDispositions(w.graph, seed), {}, n) == {}
    {
    }
  }

  lemma StartQueued(w: Workflow, seed: map<nat, Value>)
    requires Startable(w, seed)
    ensures var s, disp := Start(w, seed), SeedDispositions(w.graph, seed);
            Queued(w, s, disp, {}) && StalledNodes(w, s, disp, {}) == {}
  {
    var s, disp := Start(w, seed), SeedDispositions(w.graph, seed);
    RootsAre(w.graph, seed.Keys, w.graph.size);
    hide Startable, SeededCount, WellFormed, Inner, Waiting, IsRoot;
    forall n: nat | n < w.graph.size
      ensures n in s.ready <==> Due(w, disp, {}, n)
      ensures n !in disp && Waiting(w.graph, disp, {}, n) == {} ==> n in s.ready
    {
      RootsAreDue(w, seed, n);
    }
    assert forall i | 0 <= i < |s.ready| :: s.ready[i] in s.ready;
  }

  lemma StartIsLive(w: Workflow, seed: map<nat, Value>)
    requires Startable(w, seed)
    ensures Inv(w, Start(w, seed), SeedDispositions(w.graph, seed), {})
    ensures Live(w, Start(w, seed), SeedDispositions(w.graph, seed))
  {
    hide Startable, Counted, Settled, Queued, Marked, WholeChains, StalledNodes, WellFormed, SeededCount, Roots;
    StartCounted(w, seed);
    StartSettled(w, seed);
    StartQueued(w, seed);
    StartMarked(w, seed);
  }

  lemma StartMarked(w: Workflow, seed: map<nat, Value>)
    ensures Marked(w, Start(w, seed), SeedDispositions(w.graph, seed), {})
  {
  }

  // ----- every state of a run -----

  ghost predicate NoneRouted(disp: Dispositions) {
    forall n | n in disp :: disp[n] != Routed
  }

  lemma SettlesNoneRouted(w: Workflow, s: State, disp: Dispositions, e: Event)
    requires Enabled(w, s, e) && NoErrorEdges(w.graph) && NoneRouted(disp)
    ensures NoneRouted(Settles(w, s, disp, e))
  {
    forall u ensures !RoutesErrors(w.graph, u) {
      NoRoutes(w.graph, u);
    }
  }

  /** The nodes stranded by the cascades of a run. */
  ghost function StrandedIn(w: Workflow, s: State, events: seq<Event>): set<nat>
    requires IsRun(w, s, events)
    decreases |events|
  {
    if events == [] then {}
    else StrandedByStep(w, s, events[0]) + StrandedIn(w, Step(w, s, events[0]), events[1..])
  }

  lemma {:induction false} NothingStrandedInRuns(w: Workflow, s: State, events: seq<Event>)
    requires NoConditions(w.graph) && IsRun(w, s, events)
    ensures StrandedIn(w, s, events) == {}
    decreases |events|
  {
    hide NoConditions, Step, StrandedByStep;
    if events != [] {
      NothingStrandedWithoutConditions(w, s, events[0]);
      NothingStrandedInRuns(w, Step(w, s, events[0]), events[1..]);
    }
  }

  /** The invariant holds in every state a run reaches while it is running, the nodes its
      cascades strand stay stranded and no others do, and results are never changed,
      whatever the run ends in. */
  lemma {:induction false} RunKeeps(w: Workflow, s: State, disp: Dispositions, events: seq<Event>)
    returns (disp': Dispositions)
    requires WellFormed(w) && IsRun(w, s, events)
    requires s.status == Running ==> Inv(w, s, disp, {})
    ensures var t := After(w, s, events);
            && Grows(s, t)
            && (t.status == Running ==>
                  && Inv(w, t, disp', {})
                  && StalledNodes(w, t, disp', {}) == StalledNodes(w, s, disp, {}) + StrandedIn(w, s, events)
                  && (NoConditions(w.graph) && WholeChains(w, disp) ==> WholeChains(w, disp'))
                  && (NoErrorEdges(w.graph) && NoneRouted(disp) ==> NoneRouted(disp')))
    decreases |events|
  {
    hide Inv, StalledNodes, WholeChains, WellFormed, Step, NoConditions, Settles, Records, NextExecuting;
    hide StrandedByStep;
    disp' := disp;
    if events != [] {
      var disp1 := StepKeeps(w, s, disp, events[0]);
      if NoErrorEdges(w.graph) && NoneRouted(disp) {
        SettlesNoneRouted(w, s, disp, events[0]);
      }
      disp' := RunKeeps(w, Step(w, s, events[0]), disp1, events[1..]);
      if Step(w, s, events[0]).status != Running { StoppedRunsStay(w, Step(w, s, events[0]), events[1..]); }
    }
  }

  lemma StoppedRunsStay(w: Workflow, s: State, events: seq<Event>)
    requires IsRun(w, s, events) && s.status != Running
    ensures After(w, s, events) == s
  {
  }

  /** A run from a fresh or a resumed start, without conditions, leaves nothing stalled. */
  lemma RunStaysLive(w: Workflow, seed: map<nat, Value>, events: seq<Event>) returns (disp: Dispositions)
    requires Startable(w, seed) && NoConditions(w.graph) && IsRun(w, Start(w, seed), events)
    ensures var t := After(w, Start(w, seed), events);
            && Grows(Start(w, seed), t)
            && (t.status == Running ==>
                  Inv(w, t, disp, {}) && Live(w, t, disp) && (NoErrorEdges(w.graph) ==> NoneRouted(disp)))
  {
    StartIsLive(w, seed);
    NothingStrandedInRuns(w, Start(w, seed), events);
    hide Inv, StalledNodes, WholeChains, NoConditions, WellFormed, After, IsRun, StrandedIn;
    disp := RunKeeps(w, Start(w, seed), SeedDispositions(w.graph, seed), events);
  }

  lemma StoppedRunsEnd(w: Workflow, s: State, events: seq<Event>)
    requires s.status != Running && IsRun(w, s, events)
    ensures events == []
  {
  }

  lemma {:induction false} RunSplits(w: Workflow, s: State, first: seq<Event>, second: seq<Event>)
    requires IsRun(w, s, first + second)
    ensures IsRun(w, s, first) && IsRun(w, After(w, s, first), second)
    ensures After(w, s, first + second) == After(w, After(w, s, first), second)
    decreases |first|
  {
    if first == [] {
      assert first + second == second;
    } else {
      assert (first + second)[1..] == first[1..] + second;
      RunSplits(w, Step(w, s, first[0]), first[1..], second);
    }
  }

  /** Whatever is in `results` at some point of a run is in it, unchanged, ever after: a skip
      marker is never replaced by an output, and an output never by a skip marker. */
  lemma ResultsAreFinal(w: Workflow, seed: map<nat, Value>, first: seq<Event>, second: seq<Event>, n: nat)
    requires Startable(w, seed) && IsRun(w, Start(w, seed), first + second)
    ensures IsRun(w, Start(w, seed), first)
    ensures var now, later := After(w, Start(w, seed), first), After(w, Start(w, seed), first + second);
            n in now.results ==> n in later.results && later.results[n] == now.results[n]
  {
    StartIsLive(w, seed);
    RunSplits(w, Start(w, seed), first, second);
    var disp := RunKeeps(w, Start(w, seed), SeedDispositions(w.graph, seed), first);
    var _ := RunKeeps(w, After(w, Start(w, seed), first), disp, second);
  }

  // ----- what each node's completion delivered, read off the run -----

  /** Nodes that a false condition skipped: marked, and waiting for nothing. */
  function ConditionSkips(s: State, disp: Dispositions): Dispositions {
    map n | n in s.results && n !in disp && s.results[n] == Skipped && n in s.pending && s.pending[n] == 0 :: Opened
  }

  /** How each node settled in the course of a run. */
  ghost function History(w: Workflow, s: State, disp: Dispositions, events: seq<Event>): Dispositions
    requires IsRun(w, s, events)
    decreases |events|
  {
    if events == [] then disp
    else
      var s' := Step(w, s, events[0]);
      var settled := Settles(w, s, disp, events[0]);
      History(w, s', settled + ConditionSkips(s', settled), events[1..])
  }

  lemma SkipsAreVisible(w: Workflow, disp: Dispositions, s': State, disp': Dispositions)
    requires Inv(w, s', disp', {}) && Extends(w, disp, s', disp')
    ensures disp' == disp + ConditionSkips(s', disp)
  {
    hide *;
    forall n | n in disp ensures n in disp' && disp'[n] == disp[n] {
      SettledAlready(w, disp, s', disp', n);
    }
    forall n | n !in disp
      ensures n in disp' <==> n in s'.results && s'.results[n] == Skipped && n in s'.pending && s'.pending[n] == 0
      ensures n in disp' ==> disp'[n] == Opened
    {
      if n in disp' {
        SkippedIsDrained(w, disp, s', disp', n);
      } else if n in s'.results && n in s'.pending {
        UnsettledWaits(w, s', disp', n);
      }
    }
    SkipsAreAdded(disp, s', disp');
  }

  lemma SkipsAreAdded(disp: Dispositions, s': State, disp': Dispositions)
    requires forall n | n in disp :: n in disp' && disp'[n] == disp[n]
    requires forall n | n !in disp ::
               && (n in disp' <==> n in s'.results && s'.results[n] == Skipped && n in s'.pending && s'.pending[n] == 0)
               && (n in disp' ==> disp'[n] == Opened)
    ensures disp' == disp + ConditionSkips(s', disp)
  {
  }

  lemma SettledAlready(w: Workflow, disp: Dispositions, s': State, disp': Dispositions, n: nat)
    requires Extends(w, disp, s', disp') && n in disp
    ensures n in disp' && disp'[n] == disp[n]
  {
  }

  lemma SkippedIsDrained(w: Workflow, disp: Dispositions, s': State, disp': Dispositions, n: nat)
    requires Inv(w, s', disp', {}) && Extends(w, disp, s', disp')
    requires n in disp' && n !in disp
    ensures disp'[n] == Opened && n in s'.results && s'.results[n] == Skipped && n in s'.pending && s'.pending[n] == 0
  {
    hide Waiting, NonTail, HeadsFirst, Queued, InFlight, Marked, SelfFed;
  }

  lemma UnsettledWaits(w: Workflow, s: State, disp: Dispositions, n: nat)
    requires Inv(w, s, disp, {})
    requires n in s.results && n in s.pending && n !in disp
    ensures s.pending[n] > 0
  {
    var i :| i in InEdges(w.graph, n) && Dead(w.graph, disp, {}, i);
    assert i in Waiting(w.graph, disp, {}, n);
  }

  lemma {:induction false} HistoryKeeps(w: Workflow, s: State, disp: Dispositions, events: seq<Event>)
    requires WellFormed(w) && IsRun(w, s, events)
    requires s.status == Running ==> Inv(w, s, disp, {})
    ensures After(w, s, events).status == Running ==>
              Inv(w, After(w, s, events), History(w, s, disp, events), {})
    decreases |events|
  {
    if events != [] {
      var s' := Step(w, s, events[0]);
      var disp' := StepKeeps(w, s, disp, events[0]);
      if s'.status == Running {
        SkipsAreVisible(w, Settles(w, s, disp, events[0]), s', disp');
        hide Inv, Step, Settles, StepOk;
        HistoryKeeps(w, s', disp', events[1..]);
      }
    }
  }

  /** Counter exactness: in every running state of every run, batched or not, `pending[n]`
      is the number of edges into n whose source has not delivered them; only a chain member
      that settled behind its head may keep another value, and no counter ever wraps. */
  lemma CountersAreExact(w: Workflow, seed: map<nat, Value>, events: seq<Event>, n: nat)
    requires Startable(w, seed) && IsRun(w, Start(w, seed), events)
    requires After(w, Start(w, seed), events).status == Running && n < w.graph.size
    ensures var s := After(w, Start(w, seed), events);
            var disp := History(w, Start(w, seed), SeedDispositions(w.graph, seed), events);
            && n in s.pending
            && (!(n in disp && Inner(w.chains, n)) ==>
                  s.pending[n] == |set i: nat | i < |w.graph.edges| && w.graph.edges[i].dst == n
                                                && !Delivered(w.graph, disp, {}, i)|)
            && s.pending[n] <= |InEdges(w.graph, n)|
  {
    StartIsLive(w, seed);
    HistoryKeeps(w, Start(w, seed), SeedDispositions(w.graph, seed), events);
  }

  // ----- dispatch: at most once, with every input, boundedly often -----

  ghost predicate Claimed(s: State, disp: Dispositions, n: nat) {
    n in disp || exists i | 0 <= i < |s.executing| :: s.executing[i].node == n
  }

  /** The jobs a run hands to the dispatcher, in order. */
  ghost function Launched(w: Workflow, s: State, events: seq<Event>): seq<Job>
    requires IsRun(w, s, events)
    decreases |events|
  {
    if events == [] then []
    else (if Launches(w, s, events[0]) then [PoppedJob(w, s, events[0].index)] else [])
         + Launched(w, Step(w, s, events[0]), events[1..])
  }

  /** A settled or dispatched node stays settled or in flight; a popped one becomes so. */
  lemma StepClaims(w: Workflow, s: State, disp: Dispositions, e: Event, s': State, disp': Dispositions, n: nat)
    requires Enabled(w, s, e) && InFlight(w, s, disp, {})
    requires s'.executing == NextExecuting(w, s, e)
    requires forall m | m in Settles(w, s, disp, e) :: m in disp'
    requires Claimed(s, disp, n) || (Launches(w, s, e) && n == s.ready[e.index])
    ensures Claimed(s', disp', n)
  {
    SettlesAll(w, s, disp, e);
    hide Settles, InFlight, ChainOf, Gather;
    if n !in disp && Claimed(s, disp, n) {
      var i :| 0 <= i < |s.executing| && s.executing[i].node == n;
      if e.Pop? || e.index != i {
        if e.Finish? { WithoutKeepsOthers(s.executing, e.index); }
        assert s.executing[i] in s'.executing;
      }
    } else if n !in disp {
      assert s'.executing[|s.executing|] == PoppedJob(w, s, e.index);
    }
  }

  lemma SettlesAll(w: Workflow, s: State, disp: Dispositions, e: Event)
    requires Enabled(w, s, e) && InFlight(w, s, disp, {})
    ensures forall m | m in disp :: m in Settles(w, s, disp, e)
    ensures e.Finish? ==> s.executing[e.index].node in Settles(w, s, disp, e)
    ensures e.Pop? && !Launches(w, s, e) && !e.decision.Halt? && !e.decision.Pause? ==>
              s.ready[e.index] in Settles(w, s, disp, e)
  {
    if e.Finish? { assert JobOk(w, s, s.executing[e.index]); }
  }

  lemma {:induction false} GatherIsComplete(g: Graph, results: map<nat, Value>, n: nat, k: nat)
    requires k <= |g.edges|
    requires forall i | i in InEdges(g, n) :: g.edges[i].src in results
    ensures |Gather(g, results, n, k)| == |set i | i in InEdges(g, n) && i < k|
  {
    var below := set i | i in InEdges(g, n) && i < k;
    if k == 0 {
      assert below == {};
    } else {
      GatherIsComplete(g, results, n, k - 1);
      var rest := set i | i in InEdges(g, n) && i < k - 1;
      assert g.edges[k - 1].dst == n <==> k - 1 in InEdges(g, n);
      assert below == if g.edges[k - 1].dst == n then rest + {k - 1} else rest;
    }
  }

  /** The inputs of a node are the results of its parents that have one, and nothing else. */
  lemma {:induction false} GatherHolds(g: Graph, results: map<nat, Value>, n: nat, k: nat, p: nat, v: Value)
    requires k <= |g.edges|
    ensures (p, v) in Gather(g, results, n, k)
            <==> (exists i | 0 <= i < k :: g.edges[i].src == p && g.edges[i].dst == n) && p in results
                 && results[p] == v
  {
    if k > 0 { GatherHolds(g, results, n, k - 1, p, v); }
  }

  /** `at` are the edges below k from a parent with a result into n, newest first, and `inputs` lists
      their sources with what these hold. */
  ghost predicate Lists(g: Graph, results: map<nat, Value>, n: nat, k: nat, at: seq<nat>, inputs: Inputs)
    requires k <= |g.edges|
  {
    && Descending(at) && |at| == |inputs|
    && (forall i: nat :: i in at <==> i < k && g.edges[i].dst == n && g.edges[i].src in results)
    && forall j | 0 <= j < |at| ::
         at[j] < k && g.edges[at[j]].src in results
         && inputs[j] == (g.edges[at[j]].src, results[g.edges[at[j]].src])
  }

  /** They are listed with the newest edge first, parallel edges one by one. */
  lemma {:induction false} GatherIsNewestFirst(g: Graph, results: map<nat, Value>, n: nat, k: nat)
    returns (at: seq<nat>)
    requires k <= |g.edges|
    ensures Lists(g, results, n, k, at, Gather(g, results, n, k))
  {
    if k == 0 {
      at := [];
    } else {
      hide Lists;
      at := GatherIsNewestFirst(g, results, n, k - 1);
      ListsOneMore(g, results, n, k, at, Gather(g, results, n, k - 1));
      if g.edges[k - 1].dst == n && g.edges[k - 1].src in results { at := [k - 1] + at; }
      assert [] + Gather(g, results, n, k - 1) == Gather(g, results, n, k - 1);
    }
  }

  lemma ListsOneMore(g: Graph, results: map<nat, Value>, n: nat, k: nat, at: seq<nat>, inputs: Inputs)
    requires 1 <= k <= |g.edges| && Lists(g, results, n, k - 1, at, inputs)
    ensures var e := g.edges[k - 1];
            if e.dst == n && e.src in results then
              Lists(g, results, n, k, [k - 1] + at, [(e.src, results[e.src])] + inputs)
            else Lists(g, results, n, k, at, inputs)
  {
  }

  /** What a walk enqueues comes behind the queue, the child behind the newest edge first. */
  lemma {:induction false} WalkQueuesNewestFirst(w: Workflow, s: State, u: nat, walk: Walk, k: nat)
    returns (at: seq<nat>)
    requires k <= |w.graph.edges|
    ensures var s' := WalkEdges(w, s, u, walk, k);
            && Descending(at) && |s'.ready| == |s.ready| + |at| && s.ready <= s'.ready
            && forall j | 0 <= j < |at| ::
                 at[j] < k && w.graph.edges[at[j]].src == u
                 && s'.ready[|s.ready| + j] == w.graph.edges[at[j]].dst
    decreases k
  {
    hide Cascade;
    if k == 0 {
      at := [];
    } else {
      var e := w.graph.edges[k - 1];
      var next := if e.src == u then VisitEdge(w, s, u, e.dst, walk) else s;
      VisitQueues(w, s, u, e.dst, walk);
      hide VisitEdge;
      at := WalkQueuesNewestFirst(w, next, u, walk, k - 1);
      if next.ready != s.ready { at := [k - 1] + at; }
    }
  }

  lemma VisitQueues(w: Workflow, s: State, u: nat, c: nat, walk: Walk)
    ensures var s' := VisitEdge(w, s, u, c, walk); s'.ready == s.ready || s'.ready == s.ready + [c]
  {
  }

  /** A job for a node that is new here, with an input for each incoming edge. */
  ghost predicate Launchable(w: Workflow, s: State, disp: Dispositions, job: Job) {
    && job.node < w.graph.size && job.node !in s.results
    && !Claimed(s, disp, job.node)
    && |job.inputs| == |InEdges(w.graph, job.node)|
  }

  ghost predicate Fresh(w: Workflow, s: State, disp: Dispositions, jobs: seq<Job>) {
    && (forall i | 0 <= i < |jobs| :: Launchable(w, s, disp, jobs[i]))
    && (forall i, j | 0 <= i < j < |jobs| :: jobs[i].node != jobs[j].node)
  }

  lemma LaunchIsReady(w: Workflow, s: State, disp: Dispositions, e: Event)
    requires WellFormed(w) && Inv(w, s, disp, {}) && Enabled(w, s, e) && Launches(w, s, e)
    ensures Launchable(w, s, disp, PoppedJob(w, s, e.index))
  {
    var n := s.ready[e.index];
    assert Due(w, disp, {}, n);
    assert forall i | 0 <= i < |s.executing| :: s.executing[i].node !in s.ready;
    DueHasNoResult(w, s, disp, {}, n);
    DueHasInputs(w, s, disp, {}, n);
    hide Inv, Due;
    GatherIsComplete(w.graph, s.results, n, |w.graph.edges|);
    assert (set i | i in InEdges(w.graph, n) && i < |w.graph.edges|) == InEdges(w.graph, n);
  }

  lemma FreshBefore(w: Workflow, s: State, disp: Dispositions, s': State, disp': Dispositions, jobs: seq<Job>)
    requires Grows(s, s') && forall n | Claimed(s, disp, n) :: Claimed(s', disp', n)
    requires Fresh(w, s', disp', jobs)
    ensures Fresh(w, s, disp, jobs)
  {
    hide Claimed;
    forall i | 0 <= i < |jobs| ensures Launchable(w, s, disp, jobs[i]) {
      assert Launchable(w, s', disp', jobs[i]);
    }
  }

  lemma FreshWithFront(w: Workflow, s: State, disp: Dispositions, s': State, disp': Dispositions, front: Job,
                       jobs: seq<Job>)
    requires Fresh(w, s, disp, jobs) && Fresh(w, s', disp', jobs)
    requires Launchable(w, s, disp, front) && Claimed(s', disp', front.node)
    ensures Fresh(w, s, disp, [front] + jobs)
  {
    assert forall i | 0 <= i < |jobs| :: Launchable(w, s', disp', jobs[i]);
  }

  lemma StepKeepsClaims(w: Workflow, s: State, disp: Dispositions, e: Event, s': State, disp': Dispositions)
    requires Inv(w, s, disp, {}) && Enabled(w, s, e)
    requires s'.status == Running && StepOk(w, s, disp, e, s', disp')
    ensures forall n | Claimed(s, disp, n) || (Launches(w, s, e) && n == s.ready[e.index]) :: Claimed(s', disp', n)
  {
    hide Claimed, Settles, NextExecuting, Live, Records, SelfFed, Grows, NoConditions;
    forall n | Claimed(s, disp, n) || (Launches(w, s, e) && n == s.ready[e.index])
      ensures Claimed(s', disp', n)
    {
      StepClaims(w, s, disp, e, s', disp', n);
    }
  }

  lemma StoppingStepLaunchesNothing(w: Workflow, s: State, disp: Dispositions, e: Event)
    requires Inv(w, s, disp, {}) && Enabled(w, s, e) && Step(w, s, e).status != Running
    ensures !Launches(w, s, e)
  {
    if e.Pop? {
      ReadyNodeIsLooseOrHead(w, s, disp, e.index);
    }
  }

  lemma StepGrows(w: Workflow, s: State, disp: Dispositions, e: Event, s': State, disp': Dispositions)
    requires Enabled(w, s, e) && StepOk(w, s, disp, e, s', disp')
    ensures Grows(s, s') && (e.Pop? ==> e.index < |s.ready|)
            && (Launches(w, s, e) ==> e.index < |s.ready| && PoppedJob(w, s, e.index).node == s.ready[e.index])
  {
  }

  lemma LaunchExtendsFresh(w: Workflow, s: State, disp: Dispositions, e: Event, s': State, disp': Dispositions,
                           rest: seq<Job>)
    requires WellFormed(w) && Inv(w, s, disp, {}) && Enabled(w, s, e)
    requires s'.status == Running && StepOk(w, s, disp, e, s', disp')
    requires Fresh(w, s', disp', rest) && (e.Pop? ==> e.index < |s.ready|)
    ensures Fresh(w, s, disp, (if Launches(w, s, e) then [PoppedJob(w, s, e.index)] else []) + rest)
  {
    hide *;
    StepGrows(w, s, disp, e, s', disp');
    StepKeepsClaims(w, s, disp, e, s', disp');
    FreshBefore(w, s, disp, s', disp', rest);
    if Launches(w, s, e) {
      LaunchIsReady(w, s, disp, e);
      FreshWithFront(w, s, disp, s', disp', PoppedJob(w, s, e.index), rest);
    } else {
      assert [] + rest == rest;
    }
  }

  /** What is launched from here on is new, complete and pairwise distinct. */
  lemma {:induction false} LaunchedAreFresh(w: Workflow, s: State, disp: Dispositions, events: seq<Event>)
    requires WellFormed(w) && IsRun(w, s, events)
    requires s.status == Running ==> Inv(w, s, disp, {})
    ensures Fresh(w, s, disp, Launched(w, s, events))
    decreases |events|
  {
    if events == [] {
    } else {
      hide Inv, Claimed, Step, Settles, NextExecuting, Live, Records, Fresh, Grows, WellFormed, Extends;
      var e, s' := events[0], Step(w, s, events[0]);
      var disp' := StepKeeps(w, s, disp, e);
      LaunchedAreFresh(w, s', disp', events[1..]);
      if s'.status == Running {
        LaunchExtendsFresh(w, s, disp, e, s', disp', Launched(w, s', events[1..]));
      } else {
        StoppedRunsEnd(w, s', events[1..]);
        StoppingStepLaunchesNothing(w, s, disp, e);
        NothingIsFresh(w, s, disp);
      }
    }
  }

  lemma NothingIsFresh(w: Workflow, s: State, disp: Dispositions)
    ensures Fresh(w, s, disp, [])
  {
  }

  /** At most once, causally: over a whole run no node is dispatched twice, no seeded node
      is dispatched at all, and every dispatch has an input from each incoming edge. */
  lemma DispatchedAtMostOnce(w: Workflow, seed: map<nat, Value>, events: seq<Event>)
    requires Startable(w, seed) && IsRun(w, Start(w, seed), events)
    ensures var jobs := Launched(w, Start(w, seed), events);
            && (forall i, j | 0 <= i < j < |jobs| :: jobs[i].node != jobs[j].node)
            && (forall i | 0 <= i < |jobs| ::
                  && jobs[i].node < w.graph.size && jobs[i].node !in seed
                  && |jobs[i].inputs| == |InEdges(w.graph, jobs[i].node)|)
            && |jobs| <= w.graph.size
  {
    StartIsLive(w, seed);
    LaunchedAreFresh(w, Start(w, seed), SeedDispositions(w.graph, seed), events);
    NodesFit(Launched(w, Start(w, seed), events), {}, w.graph.size);
  }

  /** A node that has a result, a skip marker for instance, is never dispatched afterwards. */
  lemma SkippedIsFinal(w: Workflow, seed: map<nat, Value>, first: seq<Event>, second: seq<Event>, n: nat)
    requires Startable(w, seed) && IsRun(w, Start(w, seed), first + second)
    ensures IsRun(w, Start(w, seed), first) && IsRun(w, After(w, Start(w, seed), first), second)
    ensures n in After(w, Start(w, seed), first).results ==>
              forall i | 0 <= i < |Launched(w, After(w, Start(w, seed), first), second)| ::
                Launched(w, After(w, Start(w, seed), first), second)[i].node != n
  {
    StartIsLive(w, seed);
    RunSplits(w, Start(w, seed), first, second);
    var disp := RunKeeps(w, Start(w, seed), SeedDispositions(w.graph, seed), first);
    LaunchedAreFresh(w, After(w, Start(w, seed), first), disp, second);
  }

  // ----- termination -----

  function NodesOf(jobs: seq<Job>): set<nat> {
    set i | 0 <= i < |jobs| :: jobs[i].node
  }

  lemma NodesOfLast(jobs: seq<Job>)
    requires jobs != []
    ensures NodesOf(jobs) == NodesOf(jobs[..|jobs| - 1]) + {jobs[|jobs| - 1].node}
  {
    var rest := jobs[..|jobs| - 1];
    forall n ensures n in NodesOf(jobs) <==> n in NodesOf(rest) + {jobs[|jobs| - 1].node} {
      if n in NodesOf(jobs) {
        var i :| 0 <= i < |jobs| && jobs[i].node == n;
        assert i < |rest| ==> rest[i].node == n;
      }
      if n in NodesOf(rest) {
        var i :| 0 <= i < |rest| && rest[i].node == n;
        assert jobs[i].node == n;
      }
    }
  }

  lemma {:induction false} NodesOfSize(jobs: seq<Job>)
    requires forall i, j | 0 <= i < j < |jobs| :: jobs[i].node != jobs[j].node
    ensures |NodesOf(jobs)| == |jobs|
  {
    if jobs != [] {
      NodesOfLast(jobs);
      NodesOfSize(jobs[..|jobs| - 1]);
    }
  }

  lemma NodesFit(jobs: seq<Job>, others: set<nat>, size: nat)
    requires forall i, j | 0 <= i < j < |jobs| :: jobs[i].node != jobs[j].node
    requires forall i | 0 <= i < |jobs| :: jobs[i].node < size && jobs[i].node !in others
    requires forall n | n in others :: n < size
    ensures |jobs| + |others| <= size
  {
    NodesOfSize(jobs);
    BelowSize(NodesOf(jobs) + others, size);
    assert NodesOf(jobs) !! others;
  }

  /** Two for a settled node, one for a node in flight: every step adds at least one. */
  function Progress(s: State, disp: Dispositions): nat {
    2 * |disp.Keys| + |s.executing|
  }

  lemma ClaimedFit(w: Workflow, s: State, disp: Dispositions)
    requires Settled(w, s, disp, {}) && InFlight(w, s, disp, {})
    ensures |s.executing| + |disp.Keys| <= w.graph.size
  {
    hide JobOk, Waiting, NonTail, Inner;
    assert forall i | 0 <= i < |s.executing| :: Due(w, disp, {}, s.executing[i].node);
    NodesFit(s.executing, disp.Keys, w.graph.size);
  }

  lemma FrontFits(w: Workflow, s: State, disp: Dispositions)
    requires Settled(w, s, disp, {}) && InFlight(w, s, disp, {}) && Queued(w, s, disp, {}) && s.ready != []
    ensures |s.executing| + |disp.Keys| < w.graph.size
  {
    hide JobOk, Waiting, NonTail, Inner;
    var n := s.ready[0];
    assert Due(w, disp, {}, n);
    assert forall i | 0 <= i < |s.executing| ::
        Due(w, disp, {}, s.executing[i].node) && s.executing[i].node !in s.ready;
    NodesFit(s.executing, disp.Keys + {n}, w.graph.size);
  }

  lemma ProgressIsBounded(w: Workflow, s: State, disp: Dispositions)
    requires Inv(w, s, disp, {})
    ensures Progress(s, disp) <= 2 * w.graph.size
    ensures s.ready != [] || s.executing != [] ==> Progress(s, disp) < 2 * w.graph.size
  {
    hide Counted, Settled, Queued, InFlight, Marked;
    ClaimedFit(w, s, disp);
    if s.ready != [] { FrontFits(w, s, disp); }
  }

  /** A step that does not launch a job settles the node it takes, unless it ends the run. */
  lemma StepSettlesOne(w: Workflow, s: State, disp: Dispositions, e: Event) returns (n: nat)
    requires Inv(w, s, disp, {}) && Enabled(w, s, e) && !Launches(w, s, e)
    requires e.Pop? ==> !e.decision.Halt? && !e.decision.Pause?
    ensures n !in disp && n in Settles(w, s, disp, e)
  {
    SettlesAll(w, s, disp, e);
    n := if e.Pop? then s.ready[e.index] else s.executing[e.index].node;
    assert Due(w, disp, {}, n);
  }

  lemma RunningStepIsNoStop(w: Workflow, s: State, e: Event)
    requires Enabled(w, s, e) && Step(w, s, e).status == Running && !Launches(w, s, e)
    ensures e.Pop? ==> !e.decision.Halt? && !e.decision.Pause? && NextExecuting(w, s, e) == s.executing
  {
    hide WalkEdges, Fail, Gather;
  }

  lemma SettledStay(w: Workflow, s: State, disp: Dispositions, e: Event)
    requires Inv(w, s, disp, {}) && Enabled(w, s, e)
    ensures disp.Keys <= Settles(w, s, disp, e).Keys
    ensures e.Pop? ==> e.index < |s.ready|
  {
    SettlesAll(w, s, disp, e);
  }

  lemma StepSettles(w: Workflow, s: State, disp: Dispositions, e: Event) returns (settled: set<nat>)
    requires Inv(w, s, disp, {}) && Enabled(w, s, e) && Step(w, s, e).status == Running
    ensures settled <= Settles(w, s, disp, e).Keys
    ensures if Launches(w, s, e) then settled == disp.Keys
            else |settled| == |disp.Keys| + 1 && (e.Pop? ==> NextExecuting(w, s, e) == s.executing)
  {
    hide *;
    SettledStay(w, s, disp, e);
    settled := disp.Keys;
    if !Launches(w, s, e) {
      RunningStepIsNoStop(w, s, e);
      var n := StepSettlesOne(w, s, disp, e);
      settled := disp.Keys + {n};
      assert |settled| == |disp.Keys| + 1;
    }
  }

  lemma ExtendsGrows(w: Workflow, disp: Dispositions, s': State, disp': Dispositions)
    requires Extends(w, disp, s', disp')
    ensures disp.Keys <= disp'.Keys
  {
  }

  lemma StepProgresses(w: Workflow, s: State, disp: Dispositions, e: Event, s': State, disp': Dispositions)
    requires Inv(w, s, disp, {}) && Enabled(w, s, e) && Step(w, s, e).status == Running
    requires s'.executing == NextExecuting(w, s, e)
    requires Extends(w, Settles(w, s, disp, e), s', disp')
    ensures Progress(s', disp') > Progress(s, disp)
  {
    hide *;
    var settled := StepSettles(w, s, disp, e);
    ExtendsGrows(w, Settles(w, s, disp, e), s', disp');
    SubsetSize(settled, disp'.Keys);
    ProgressGrows(w, s, disp, e, s', disp', settled);
  }

  lemma ProgressGrows(w: Workflow, s: State, disp: Dispositions, e: Event, s': State, disp': Dispositions,
                      settled: set<nat>)
    requires Enabled(w, s, e) && s'.executing == NextExecuting(w, s, e)
    requires |settled| <= |disp'.Keys|
    requires if Launches(w, s, e) then settled == disp.Keys
             else |settled| == |disp.Keys| + 1 && (e.Pop? ==> NextExecuting(w, s, e) == s.executing)
    ensures Progress(s', disp') > Progress(s, disp)
  {
  }

  /** Every run is at most two steps per node long, whatever succeeds or fails. */
  lemma {:induction false} RunIsShort(w: Workflow, s: State, disp: Dispositions, events: seq<Event>)
    requires WellFormed(w) && IsRun(w, s, events) && Inv(w, s, disp, {})
    ensures |events| + Progress(s, disp) <= 2 * w.graph.size
    decreases |events|
  {
    hide Inv, Step, Settles, Progress, NextExecuting, Records, Extends, Live, Grows, WellFormed;
    ProgressIsBounded(w, s, disp);
    if events != [] {
      var e, s' := events[0], Step(w, s, events[0]);
      var disp' := StepKeeps(w, s, disp, e);
      if s'.status == Running {
        StepProgresses(w, s, disp, e, s', disp');
        RunIsShort(w, s', disp', events[1..]);
      } else {
        StoppedRunsEnd(w, s', events[1..]);
      }
    }
  }

  lemma RunsAreShort(w: Workflow, seed: map<nat, Value>, events: seq<Event>)
    requires Startable(w, seed) && IsRun(w, Start(w, seed), events)
    ensures |events| <= 2 * w.graph.size
  {
    StartIsLive(w, seed);
    RunIsShort(w, Start(w, seed), SeedDispositions(w.graph, seed), events);
  }

  // ----- completeness -----

  /** In a live state with nothing queued or in flight, an unsettled node waits for something. */
  lemma QuietNodesWait(w: Workflow, s: State, disp: Dispositions, n: nat)
    requires StalledNodes(w, s, disp, {}) == {} && Quiescent(s)
    requires n < w.graph.size && n !in disp
    ensures Waiting(w.graph, disp, {}, n) != {}
  {
    assert Idle(s, n);
    assert n !in StalledNodes(w, s, disp, {});
  }

  lemma {:induction false} AllSettled(w: Workflow, s: State, disp: Dispositions, rank: seq<nat>, n: nat)
    requires WellFormed(w) && Inv(w, s, disp, {}) && StalledNodes(w, s, disp, {}) == {} && Quiescent(s)
    requires IsRank(w.graph, rank) && NoErrorEdges(w.graph) && n < w.graph.size
    requires NoneRouted(disp)
    ensures n in disp
    decreases rank[n]
  {
    if n !in disp {
      QuietNodesWait(w, s, disp, n);
      var i :| i in Waiting(w.graph, disp, {}, n);
      AllSettled(w, s, disp, rank, w.graph.edges[i].src);
    }
  }

  /** Completeness: in an acyclic graph without error edges and conditions, when the loop
      exits every node has a result, save the members a chain's tail answers for. */
  lemma QuiescentRunsAreComplete(w: Workflow, seed: map<nat, Value>, events: seq<Event>, n: nat)
    requires Startable(w, seed) && IsRun(w, Start(w, seed), events)
    requires Acyclic(w.graph) && NoErrorEdges(w.graph) && NoConditions(w.graph)
    requires Quiescent(After(w, Start(w, seed), events)) && n < w.graph.size
    ensures n in After(w, Start(w, seed), events).results <==> !NonTail(w.chains, n)
  {
    var rank :| IsRank(w.graph, rank);
    var s := After(w, Start(w, seed), events);
    var disp := RunStaysLive(w, seed, events);
    hide Inv, StalledNodes, WellFormed, PredecessorClosed, IsRun, Start, After, IsRank;
    AllSettled(w, s, disp, rank, n);
    OnlyBatchedNodesAreSilent(w, s, disp, n);
  }

  lemma OnlyBatchedNodesAreSilent(w: Workflow, s: State, disp: Dispositions, n: nat)
    requires Inv(w, s, disp, {}) && Live(w, s, disp) && n in disp
    ensures n in s.results <==> !NonTail(w.chains, n)
  {
    hide Counted, Queued, InFlight, Marked, StalledNodes, Waiting;
    if NonTail(w.chains, n) {
      var k, j :| 0 <= k < |w.chains| && 0 <= j < |w.chains[k]| - 1 && w.chains[k][j] == n;
      assert w.chains[k][0] in disp;
    }
  }
}
