/** Where the guarantees stop: cycles never start, and the hypotheses of the other theorems
    cannot be dropped. */
module Limits {
  import opened Graphs
  import opened FanIn
  import opened Scheduler
  import opened SchedulerInvariant
  import opened SchedulerSteps
  import opened SchedulerRuns
  import opened Fates
  import opened Meaning

  // ----- cycles -----

  lemma {:induction false} ChainOutsideCore(w: Workflow, core: set<nat>, k: nat, j: nat)
    requires WellFormed(w) && SelfFed(w.graph, core) && k < |w.chains| && j < |w.chains[k]|
    requires w.chains[k][0] !in core
    ensures w.chains[k][j] !in core
  {
    if j > 0 && w.chains[k][j] in core {
      var i :| i in InEdges(w.graph, w.chains[k][j]) && w.graph.edges[i].src in core;
      ChainFedFromWithin(w, k, j, i);
      ChainOutsideCore(w, core, k, j - 1);
    }
  }

  /** A step settles nothing that feeds on itself. */
  lemma StepStaysOutsideCore(w: Workflow, s: State, disp: Dispositions, e: Event, core: set<nat>)
    requires WellFormed(w) && Inv(w, s, disp, {}) && Enabled(w, s, e)
    requires SelfFed(w.graph, core) && core !! disp.Keys
    ensures core !! Settles(w, s, disp, e).Keys
  {
    hide Inv, WellFormed, SelfFed, OutcomeOf, SettleJob, Due, Idle;
    match e
    case Pop(i, _) =>
      PoppedIsTaken(w, s, disp, i);
      DueStaysOutside(w, disp, s.ready[i], core);
    case Finish(i, outcome) =>
      JobIsDue(w, s, disp, i);
      DueStaysOutside(w, disp, s.executing[i].node, core);
      JobStaysOutside(w, disp, s.executing[i], OutcomeOf(w, Reporter(w, s.executing[i]), outcome), core);
  }

  lemma DueStaysOutside(w: Workflow, disp: Dispositions, n: nat, core: set<nat>)
    requires Due(w, disp, {}, n) && SelfFed(w.graph, core) && core !! disp.Keys
    ensures n !in core
  {
    DueIsNotSelfFed(w, disp, {}, n);
  }

  lemma JobStaysOutside(w: Workflow, disp: Dispositions, job: Job, d: Disposition, core: set<nat>)
    requires WellFormed(w) && SelfFed(w.graph, core) && core !! disp.Keys && job.node !in core
    requires job.chain.Some? ==> job.chain.value < |w.chains| && w.chains[job.chain.value] != []
                                 && w.chains[job.chain.value][0] == job.node
    ensures core !! SettleJob(w, disp, job, d).Keys
  {
    hide WellFormed, SelfFed;
    if job.chain.Some? {
      var k := job.chain.value;
      forall n | n in w.chains[k] ensures n !in core {
        var j :| 0 <= j < |w.chains[k]| && w.chains[k][j] == n;
        ChainOutsideCore(w, core, k, j);
      }
    }
  }

  ghost predicate Outside(jobs: seq<Job>, core: set<nat>) {
    forall i | 0 <= i < |jobs| :: jobs[i].node !in core
  }

  ghost predicate Unqueued(s: State, core: set<nat>) {
    (forall i | 0 <= i < |s.ready| :: s.ready[i] !in core) && Outside(s.executing, core)
  }

  lemma CoreIsUnqueued(w: Workflow, s: State, disp: Dispositions, core: set<nat>)
    requires Inv(w, s, disp, {}) && SelfFed(w.graph, core) && core !! disp.Keys
    ensures Unqueued(s, core)
  {
    assert Queued(w, s, disp, {}) && InFlight(w, s, disp, {});
    hide Inv, SelfFed, Waiting, Inner, JobOk;
    forall i | 0 <= i < |s.ready| ensures s.ready[i] !in core {
      DueIsNotSelfFed(w, disp, {}, s.ready[i]);
    }
    forall i | 0 <= i < |s.executing| ensures s.executing[i].node !in core {
      DueIsNotSelfFed(w, disp, {}, s.executing[i].node);
    }
  }

  lemma {:induction false} CoreIsNeverLaunched(w: Workflow, s: State, disp: Dispositions, events: seq<Event>,
        core: set<nat>)
    requires WellFormed(w) && IsRun(w, s, events) && s.status == Running && Inv(w, s, disp, {})
    requires SelfFed(w.graph, core) && core !! disp.Keys
    ensures Outside(Launched(w, s, events), core)
    ensures After(w, s, events).status == Running ==> Unqueued(After(w, s, events), core)
    decreases |events|
  {
    hide Inv, Step, Settles, WellFormed, NextExecuting, Records, Live, SelfFed, Gather;
    CoreIsUnqueued(w, s, disp, core);
    if events != [] {
      var e, s' := events[0], Step(w, s, events[0]);
      if s'.status == Running {
        var disp' := StepKeeps(w, s, disp, e);
        StepStaysOutsideCore(w, s, disp, e, core);
        CoreIsNeverLaunched(w, s', disp', events[1..], core);
      } else {
        StoppedRunsEnd(w, s', events[1..]);
      }
    }
  }

  /** No node of a cycle, and of no other set in which every node is fed from the set, is
      enqueued or dispatched in a run from an empty seed. */
  lemma CyclesNeverStart(w: Workflow, events: seq<Event>, core: set<nat>)
    requires WellFormed(w) && IsRun(w, Start(w, map[]), events) && SelfFed(w.graph, core)
    ensures forall i | 0 <= i < |Launched(w, Start(w, map[]), events)| ::
              Launched(w, Start(w, map[]), events)[i].node !in core
    ensures var t := After(w, Start(w, map[]), events);
            t.status == Running ==> forall i | 0 <= i < |t.ready| :: t.ready[i] !in core
  {
    StartIsLive(w, map[]);
    CoreIsNeverLaunched(w, Start(w, map[]), SeedDispositions(w.graph, map[]), events, core);
  }

  // ----- seeds -----

  /** Seeding leaves exact counters exactly when the seed is predecessor-closed. */
  lemma SeedingIsExactIffClosed(w: Workflow, seed: map<nat, Value>)
    requires Valid(w.graph)
    ensures (forall n: nat | n < w.graph.size ::
               Start(w, seed).pending[n] == |Waiting(w.graph, SeedDispositions(w.graph, seed), {}, n)|)
            <==> PredecessorClosed(w.graph, seed.Keys)
  {
    var g, disp := w.graph, SeedDispositions(w.graph, seed);
    if PredecessorClosed(g, seed.Keys) {
      forall n: nat | n < g.size ensures SeededCount(g, seed.Keys, n) == |Waiting(g, disp, {}, n)| {
        SeededCounts(w.(chains := [], joins := map[]), seed, n);
      }
    } else {
      var i :| 0 <= i < |g.edges| && g.edges[i].dst in seed && g.edges[i].src !in seed;
      assert i in Waiting(g, disp, {}, g.edges[i].dst);
      assert Start(w, seed).pending[g.edges[i].dst] == 0;
    }
  }

  // ----- batching and resumption do not mix -----

  /** What a finished run leaves is a seed it could be resumed from exactly when the run was
      not batched: a chain's tail has a result and its predecessor has none. */
  lemma FinishedResultsAreSeedIff(w: Workflow, seed: map<nat, Value>, events: seq<Event>)
    requires Startable(w, seed) && IsRun(w, Start(w, seed), events)
    requires Acyclic(w.graph) && NoErrorEdges(w.graph) && NoConditions(w.graph)
    requires Quiescent(After(w, Start(w, seed), events))
    ensures PredecessorClosed(w.graph, After(w, Start(w, seed), events).results.Keys) <==> w.chains == []
  {
    var results := After(w, Start(w, seed), events).results;
    assert WellFormed(w) && forall i | 0 <= i < |w.graph.edges| :: w.graph.edges[i].src < w.graph.size;
    hide After, IsRun, Start, Quiescent, Startable, WellFormed, Acyclic, NoErrorEdges, NoConditions;
    if w.chains == [] {
      forall i | 0 <= i < |w.graph.edges| ensures w.graph.edges[i].src in results {
        QuiescentRunsAreComplete(w, seed, events, w.graph.edges[i].src);
        assert !NonTail(w.chains, w.graph.edges[i].src);
      }
    } else {
      var c := w.chains[0];
      ChainFacts(w, 0);
      TailIsNoNonTail(w, 0);
      var i := LinkEdge(w, 0, |c| - 1);
      assert c[|c| - 1] in c && NonTail(w.chains, c[|c| - 2]);
      QuiescentRunsAreComplete(w, seed, events, c[|c| - 1]);
      QuiescentRunsAreComplete(w, seed, events, c[|c| - 2]);
    }
  }

  /** 0 -> 1, perhaps batched as one chain, where a failure of 0 is tolerated. */
  function Pair(chains: seq<seq<nat>>): Workflow {
    Workflow(Graph(2, [Edge(0, 1, false, None)]), map[], {0}, chains, FREE)
  }

  lemma PairEdges()
    ensures InEdges(Pair([]).graph, 0) == {} && InEdges(Pair([]).graph, 1) == {0}
    ensures OutEdges(Pair([]).graph, 0) == {0} && OutEdges(Pair([]).graph, 1) == {}
  {
  }

  lemma SeededCountIsSmall(g: Graph, seeds: set<nat>, n: nat)
    ensures SeededCount(g, seeds, n) <= |InEdges(g, n)|
  {
    SubsetSize(FromUnseeded(g, seeds, n), InEdges(g, n));
  }

  lemma PairStart(chains: seq<seq<nat>>, seed: map<nat, Value>)
    requires seed.Keys <= {1}
    ensures Start(Pair(chains), seed) == State(seed, map[0 := 0, 1 := if 1 in seed then 0 else 1], [0], [], Running)
  {
    var g := Pair(chains).graph;
    PairEdges();
    SeededCountIsSmall(g, seed.Keys, 0);
    assert SeededCount(g, seed.Keys, 1) == if 1 in seed then 0 else 1 by {
      assert FromUnseeded(g, seed.Keys, 1) == {0};
    }
    assert Roots(g, seed.Keys, 0) == [];
    assert Roots(g, seed.Keys, 1) == [0];
    assert Roots(g, seed.Keys, 2) == [0];
  }

  /** An example: resuming from the results of a batched run decrements the counter of the
      finished tail below zero. */
  lemma BatchedResultsAreNoSeed() returns (batched: seq<Event>, resumed: seq<Event>)
    ensures WellFormed(Pair([[0, 1]])) && Acyclic(Pair([[0, 1]]).graph)
    ensures IsRun(Pair([[0, 1]]), Start(Pair([[0, 1]]), map[]), batched)
    ensures var seed := After(Pair([[0, 1]]), Start(Pair([[0, 1]]), map[]), batched).results;
            && Quiescent(After(Pair([[0, 1]]), Start(Pair([[0, 1]]), map[]), batched))
            && !PredecessorClosed(Pair([]).graph, seed.Keys)
            && IsRun(Pair([]), Start(Pair([]), seed), resumed)
            && 1 in After(Pair([]), Start(Pair([]), seed), resumed).pending
            && After(Pair([]), Start(Pair([]), seed), resumed).pending[1] == USIZE - 1
  {
    var w := Pair([[0, 1]]);
    PairIsWellFormed();
    PairStart([[0, 1]], map[]);
    var s1, s2 := BatchedPair();
    batched := [Pop(0, Dispatch), Finish(0, Ok(""))];
    hide Step, WellFormed, Start, IsRun, After, Acyclic;
    TwoSteps(w, Start(w, map[]), Pop(0, Dispatch), s1, Finish(0, Ok("")), s2);
    resumed := ResumedPair(s2.results);
  }

  lemma PairIsWellFormed()
    ensures WellFormed(Pair([[0, 1]])) && Acyclic(Pair([[0, 1]]).graph)
  {
    PairEdges();
    assert Link(Pair([[0, 1]]).graph, 0, 1);
    assert IsRank(Pair([[0, 1]]).graph, [0, 1]);
  }

  lemma TwoSteps(w: Workflow, s: State, a: Event, s1: State, b: Event, s2: State)
    requires Enabled(w, s, a) && Step(w, s, a) == s1 && Enabled(w, s1, b) && Step(w, s1, b) == s2
    ensures IsRun(w, s, [a, b]) && After(w, s, [a, b]) == s2
  {
    hide Step, Enabled;
    assert [a, b][1..] == [b] && [b][1..] == [];
    assert IsRun(w, s2, []) && After(w, s1, [b]) == s2;
  }

  lemma BatchedPair() returns (s1: State, s2: State)
    ensures var w := Pair([[0, 1]]);
            var s0 := State(map[], map[0 := 0, 1 := 1], [0], [], Running);
            && s1.status == Running && s1.ready == [] && |s1.executing| == 1 && s1.executing[0].chain == Some(0)
            && Step(w, s0, Pop(0, Dispatch)) == s1 && Step(w, s1, Finish(0, Ok(""))) == s2
    ensures s2 == State(map[1 := Output("")], map[0 := 0, 1 := 0], [], [], Running)
  {
    var w := Pair([[0, 1]]);
    var s0 := State(map[], map[0 := 0, 1 := 1], [0], [], Running);
    assert ChainOf(w.chains, 0) == Some(0) && ChainOf(w.chains, 1) == Some(0);
    assert w.chains[0][0] == 0 && IsHead(w.chains, 0);
    s1 := s0.(ready := [], executing := [Job(0, Some(0), InputsOf(w.graph, map[], 0))]);
    assert Step(w, s0, Pop(0, Dispatch)) == s1;
    s2 := State(map[1 := Output("")], map[0 := 0, 1 := 0], [], [], Running);
    hide IsHead, Gather, ErrorBetween;
    assert ClearChain(w, 1, s1.pending) == map[0 := 0, 1 := 0];
    assert WalkEdges(w, s2, 1, OnSuccess(Output("")), 1) == s2;
    assert s1.executing[..0] + s1.executing[1..] == [];
  }

  lemma ResumedPair(seed: map<nat, Value>) returns (resumed: seq<Event>)
    requires seed == map[1 := Output("")]
    ensures IsRun(Pair([]), Start(Pair([]), seed), resumed)
    ensures 1 in After(Pair([]), Start(Pair([]), seed), resumed).pending
    ensures After(Pair([]), Start(Pair([]), seed), resumed).pending[1] == USIZE - 1
  {
    var w := Pair([]);
    resumed := [Pop(0, Dispatch), Finish(0, Ok(""))];
    PairStart([], seed);
    PairEdges();
    var s0 := Start(w, seed);
    var s1 := s0.(ready := [], executing := [Job(0, None, InputsOf(w.graph, seed, 0))]);
    assert Step(w, s0, resumed[0]) == s1;
    var done := s1.(results := seed[0 := Output("")], executing := []);
    var s2 := done.(pending := map[0 := 0, 1 := USIZE - 1]);
    assert Step(w, s1, resumed[1]) == s2 by {
      assert !ErrorBetween(w.graph, 0, 1);
      assert VisitEdge(w, done, 0, 1, OnSuccess(Output(""))) == s2;
      assert WalkEdges(w, done, 0, OnSuccess(Output("")), 1) == WalkEdges(w, s2, 0, OnSuccess(Output("")), 0);
    }
    TwoSteps(w, s0, resumed[0], s1, resumed[1], s2);
  }

  // ----- batching and tolerated failures do not mix -----

  /** An example: `continue_on_error` is not looked at inside a chain.  Node by node the failure
      of 0 is recorded and 1 runs; batched, the chain fails under 1 and the run is aborted. */
  lemma ToleranceIsLostInChains() returns (single: seq<Event>, batched: seq<Event>, t: State, t': State)
    ensures WellFormed(Pair([[0, 1]])) && Acyclic(Pair([]).graph) && 0 in Pair([[0, 1]]).continueOnError
    ensures Reaches(Pair([]), FAILING, single, t) && Quiescent(t) && 0 in t.results && 1 in t.results
    ensures t.results[0].ContinuedError? && t.results[1] == EMPTY
    ensures Reaches(Pair([[0, 1]]), FAILING, batched, t') && t'.status.Aborted?
  {
    PairIsWellFormed();
    single, t := SinglePair();
    batched, t' := FailedChain();
  }

  lemma FailedChain() returns (events: seq<Event>, t: State)
    ensures Reaches(Pair([[0, 1]]), FAILING, events, t) && t.status.Aborted?
  {
    var w := Pair([[0, 1]]);
    var t0 := State(map[], map[0 := 0, 1 := 1], [0], [], Running);
    PairStart([[0, 1]], map[]);
    ReachesStart(w, FAILING);
    var t1, _ := BatchedPair();
    ChainFails(t1);
    hide Reaches, Gather, Start, Step, ChainOf, Compose, FinishStep;
    ReachesNext(w, FAILING, [], t0, Pop(0, Dispatch), t1);
    t := FinishStep(w, t1, 0, Err(""));
    ReachesNext(w, FAILING, [] + [Pop(0, Dispatch)], t1, Finish(0, Err("")), t);
    events := [] + [Pop(0, Dispatch)] + [Finish(0, Err(""))];
  }

  lemma ChainFails(s: State)
    requires s.status == Running && s.ready == [] && |s.executing| == 1 && s.executing[0].chain == Some(0)
    ensures var w, e := Pair([[0, 1]]), Finish(0, Err(""));
            && Enabled(w, s, e) && Follows(w, FAILING, s, e)
            && Step(w, s, e) == FinishStep(w, s, 0, Err("")) && Step(w, s, e).status.Aborted?
    ensures Follows(Pair([[0, 1]]), FAILING, s.(ready := [0]), Pop(0, Dispatch))
  {
    var w := Pair([[0, 1]]);
    assert Reporter(w, s.executing[0]) == 1 && !RoutesErrors(w.graph, 1);
    assert ChainOf(w.chains, 0) == Some(0);
  }

  lemma FirstIsContinued(t: State)
    requires t.status == Running && t.ready == [] && t.results == map[] && t.pending == map[0 := 0, 1 := 1]
    requires |t.executing| == 1 && t.executing[0].node == 0 && t.executing[0].chain.None?
    ensures Step(Pair([]), t, Finish(0, Err("")))
         == State(map[0 := ContinuedError("")], map[0 := 0, 1 := 0], [1], [], Running)
    ensures Follows(Pair([]), FAILING, t, Finish(0, Err("")))
  {
    var w := Pair([]);
    var s := State(map[0 := ContinuedError("")], map[0 := 0, 1 := 1], [], [], Running);
    var s' := State(map[0 := ContinuedError("")], map[0 := 0, 1 := 0], [1], [], Running);
    assert !RoutesErrors(w.graph, 0) && Without(t.executing, 0) == [];
    assert VisitEdge(w, s, 0, 1, OnUnblock) == s';
    assert WalkEdges(w, s, 0, OnUnblock, 1) == WalkEdges(w, s', 0, OnUnblock, 0);
  }

  lemma SecondEnds(s: State)
    ensures WalkAll(Pair([]), s, 1, OnSuccess(EMPTY)) == s && Admit(Pair([]).policy, "") == EMPTY
  {
    assert WalkEdges(Pair([]), s, 1, OnSuccess(EMPTY), 1) == WalkEdges(Pair([]), s, 1, OnSuccess(EMPTY), 0);
  }

  lemma PairIsPerNode()
    ensures Pair([]).chains == []
  {
  }

  lemma SinglePair() returns (events: seq<Event>, t: State)
    ensures Reaches(Pair([]), FAILING, events, t) && Quiescent(t) && 0 in t.results && 1 in t.results
    ensures t.results[0].ContinuedError? && t.results[1] == EMPTY
  {
    var w := Pair([]);
    var t0 := State(map[], map[0 := 0, 1 := 1], [0], [], Running);
    hide Reaches, Gather, Start, WalkEdges, Pair, Step, Follows, Admit;
    PairStart([], map[]);
    PairIsPerNode();
    ReachesStart(w, FAILING);
    PopReaches(w, FAILING, [], t0);
    var t1 := t0.(ready := [], executing := [SingleJob(w, t0)]);
    assert t0.ready[1..] == t1.ready && t0.executing + [SingleJob(w, t0)] == t1.executing;
    events := [] + [Pop(0, Dispatch)];
    var t2 := State(map[0 := ContinuedError("")], map[0 := 0, 1 := 0], [1], [], Running);
    FirstIsContinued(t1);
    ReachesNext(w, FAILING, events, t1, Finish(0, Err("")), t2);
    events := events + [Finish(0, Err(""))];
    PopReaches(w, FAILING, events, t2);
    var t3 := t2.(ready := [], executing := [SingleJob(w, t2)]);
    assert t2.ready[1..] == t3.ready && t2.executing + [SingleJob(w, t2)] == t3.executing;
    events := events + [Pop(0, Dispatch)];
    t := t3.(results := t3.results[1 := EMPTY], executing := Without(t3.executing, 0));
    SecondEnds(t);
    FinishReaches(w, FAILING, events, t3, 0, "", t);
    events := events + [Finish(0, Ok(""))];
  }

  // ----- early release -----

  /** 0 -> 2 and 1 -> 2, where 2 waits for any one parent and a failure of 0 is tolerated. */
  function EitherOr(): Workflow {
    Workflow(Graph(3, [Edge(0, 2, false, None), Edge(1, 2, false, None)]), map[2 := Any], {0}, [], FREE)
  }

  function Joining(results: map<nat, Value>, two: nat, ready: seq<nat>, executing: seq<Job>): State {
    State(results, map[0 := 0, 1 := 0, 2 := two], ready, executing, Running)
  }

  lemma JoiningCounts(n: nat)
    requires n < 3
    ensures SeededCount(EitherOr().graph, {}, n) == if n == 2 then 2 else 0
    ensures |InEdges(EitherOr().graph, 2)| == 2
  {
    var g := EitherOr().graph;
    assert FromUnseeded(g, {}, n) == InEdges(g, n) && InEdges(g, 2) == {0, 1};
    assert n < 2 ==> InEdges(g, n) == {};
  }

  lemma JoiningRoots()
    ensures Roots(EitherOr().graph, {}, 3) == [0, 1]
  {
    var g := EitherOr().graph;
    hide EitherOr, SeededCount;
    JoiningCounts(0);
    JoiningCounts(1);
    JoiningCounts(2);
    assert Roots(g, {}, 1) == [0];
    assert Roots(g, {}, 2) == [0, 1];
  }

  lemma JoiningStart()
    ensures Start(EitherOr(), map[]) == Joining(map[], 2, [0, 1], [])
  {
    hide *;
    JoiningSize();
    JoiningRoots();
    forall n: nat | n < 3 ensures SeededCount(EitherOr().graph, {}, n) == if n == 2 then 2 else 0 {
      JoiningCounts(n);
    }
    StartIs(EitherOr(), map[0 := 0, 1 := 0, 2 := 2], [0, 1]);
    JoiningIs();
  }

  lemma JoiningSize()
    ensures EitherOr().graph.size == 3
  {
  }

  lemma JoiningIs()
    ensures Joining(map[], 2, [0, 1], []) == State(map[], map[0 := 0, 1 := 0, 2 := 2], [0, 1], [], Running)
  {
  }

  /** Each finished parent releases the fan-in: the counter is cleared, or wraps and is cleared. */
  lemma ParentReleases(s: State, u: nat)
    requires u < 2 && s.pending.Keys == {0, 1, 2} && (s.pending[2] == 2 || s.pending[2] == 0)
    ensures WalkAll(EitherOr(), s, u, OnSuccess(EMPTY)) == s.(pending := s.pending[2 := 0], ready := s.ready + [2])
  {
    var w, walk := EitherOr(), OnSuccess(EMPTY);
    var t := s.(pending := s.pending[2 := 0], ready := s.ready + [2]);
    JoiningCounts(2);
    assert !ErrorBetween(w.graph, u, 2) && !ConditionFails(w, u, 2, EMPTY);
    assert VisitEdge(w, s, u, 2, walk) == t;
    hide VisitEdge;
    assert WalkEdges(w, t, u, walk, 0) == t;
    assert WalkEdges(w, if u == 0 then s else t, u, walk, 1) == t;
  }

  lemma EitherOrIsPerNode()
    ensures EitherOr().chains == [] && Admit(EitherOr().policy, "") == EMPTY
  {
  }

  /** A fan-in that is released early runs again for each parent that finishes later: here it
      is in the queue a second time while its first job is still in flight. */
  lemma EarlyFanInRunsTwice() returns (events: seq<Event>, t: State)
    ensures Valid(EitherOr().graph) && Acyclic(EitherOr().graph)
    ensures Reaches(EitherOr(), IDLE, events, t)
    ensures t.ready == [2] && |t.executing| == 1 && t.executing[0].node == 2
  {
    var w := EitherOr();
    assert IsRank(w.graph, [0, 0, 1]);
    hide Reaches, WalkEdges, EitherOr, Gather, Admit;
    EitherOrIsPerNode();
    var t2;
    events, t2 := BothParentsRun(IDLE);
    var t3 := ParentFinishes(events, t2, 0);
    events := events + [Finish(0, Ok(""))];
    PopReaches(w, IDLE, events, t3);
    var t4 := t3.(ready := [], executing := t3.executing + [SingleJob(w, t3)]);
    assert t3.ready[1..] == t4.ready;
    events := events + [Pop(0, Dispatch)];
    t := ParentFinishes(events, t4, 1);
    events := events + [Finish(0, Ok(""))];
  }

  lemma BothParentsRun(env: Env) returns (events: seq<Event>, t: State)
    requires forall n, inputs :: env.preflight(n, inputs) == Dispatch
    ensures Reaches(EitherOr(), env, events, t)
    ensures t.status == Running && t.ready == [] && t.pending == map[0 := 0, 1 := 0, 2 := 2]
    ensures |t.executing| == 2 && t.executing[0].node == 0 && t.executing[1].node == 1
    ensures t.executing[0].chain.None? && t.executing[1].chain.None?
  {
    var w := EitherOr();
    hide Reaches, EitherOr, Gather;
    EitherOrIsPerNode();
    JoiningStart();
    ReachesStart(EitherOr(), env);
    var t0 := Joining(map[], 2, [0, 1], []);
    PopReaches(w, env, [], t0);
    var t1 := t0.(ready := [1], executing := [SingleJob(w, t0)]);
    assert t0.ready[1..] == t1.ready && t0.executing + [SingleJob(w, t0)] == t1.executing;
    events := [] + [Pop(0, Dispatch)];
    PopReaches(w, env, events, t1);
    t := t1.(ready := [], executing := t1.executing + [SingleJob(w, t1)]);
    assert t1.ready[1..] == t.ready;
    events := events + [Pop(0, Dispatch)];
  }

  lemma ParentFinishes(events: seq<Event>, t: State, u: nat) returns (t': State)
    requires Reaches(EitherOr(), IDLE, events, t) && u < 2 && t.status == Running && t.ready == []
    requires t.pending.Keys == {0, 1, 2} && (t.pending[2] == 2 || t.pending[2] == 0)
    requires |t.executing| == 2 && t.executing[0].node == u && t.executing[0].chain.None? && t.executing[1].chain.None?
    ensures Reaches(EitherOr(), IDLE, events + [Finish(0, Ok(""))], t')
    ensures t'.status == Running && t'.ready == [2] && t'.executing == [t.executing[1]]
    ensures t'.pending == t.pending[2 := 0]
  {
    hide Reaches, EitherOr, Gather, WalkEdges, Admit;
    EitherOrIsPerNode();
    var left := t.(results := t.results[u := EMPTY], executing := Without(t.executing, 0));
    assert Without(t.executing, 0) == [t.executing[1]];
    t' := left.(pending := left.pending[2 := 0], ready := left.ready + [2]);
    ParentReleases(left, u);
    FinishReaches(EitherOr(), IDLE, events, t, 0, "", t');
  }

  // ----- unblocking does not release -----

  /** Node 0 is a system node: it has its result without being dispatched. */
  const LOCAL := Env((n: nat, inputs: Inputs) => if n == 0 then Resolve(EMPTY) else Dispatch,
                     (n: nat, inputs: Inputs) => Ok(""))

  lemma ParentUnblocks(s: State)
    requires s.pending.Keys == {0, 1, 2} && s.pending[2] == 2
    ensures WalkAll(EitherOr(), s, 0, OnUnblock) == s.(pending := s.pending[2 := 1])
  {
    var w, t := EitherOr(), s.(pending := s.pending[2 := 1]);
    assert VisitEdge(w, s, 0, 2, OnUnblock) == t;
    hide VisitEdge;
    assert WalkEdges(w, t, 0, OnUnblock, 0) == t;
    assert WalkEdges(w, s, 0, OnUnblock, 1) == t;
  }

  /** A fan-in for any one parent is not released by a system node: the node has its result, the
      fan-in waits on at counter one, and the other parent is in flight. */
  lemma SystemNodeReleasesNothing() returns (events: seq<Event>, t: State)
    ensures EitherOr().joins == map[2 := Any] && Threshold(Any, 2) == 1
    ensures Reaches(EitherOr(), LOCAL, events, t) && 0 in t.results
    ensures t.ready == [] && t.pending == map[0 := 0, 1 := 0, 2 := 1]
    ensures |t.executing| == 1 && t.executing[0].node == 1
  {
    var w := EitherOr();
    var t0 := Joining(map[], 2, [0, 1], []);
    var t1 := Joining(map[0 := EMPTY], 1, [1], []);
    LocalNodeResolves();
    hide Reaches, WalkEdges, Gather, Start, Step, Follows, EitherOr;
    EitherOrIsPerNode();
    JoiningStart();
    ReachesStart(w, LOCAL);
    ReachesNext(w, LOCAL, [], t0, Pop(0, Resolve(EMPTY)), t1);
    events := [] + [Pop(0, Resolve(EMPTY))];
    PopReaches(w, LOCAL, events, t1);
    t := t1.(ready := [], executing := t1.executing + [SingleJob(w, t1)]);
    assert t1.ready[1..] == t.ready;
    events := events + [Pop(0, Dispatch)];
  }

  lemma LocalNodeResolves()
    ensures EitherOr().joins == map[2 := Any]
    ensures var t0 := Joining(map[], 2, [0, 1], []);
            && Follows(EitherOr(), LOCAL, t0, Pop(0, Resolve(EMPTY)))
            && Step(EitherOr(), t0, Pop(0, Resolve(EMPTY))) == Joining(map[0 := EMPTY], 1, [1], [])
  {
    var t0, settled := Joining(map[], 2, [0, 1], []), Joining(map[0 := EMPTY], 2, [1], []);
    ParentUnblocks(settled);
    hide WalkEdges, Gather;
    assert Without(t0.ready, 0) == [1] && t0.results[0 := EMPTY] == settled.results;
    assert settled.pending[2 := 1] == Joining(map[], 1, [], []).pending;
  }

  /** Nor is it by a failure that the run continues after. */
  lemma ContinuedFailureReleasesNothing() returns (events: seq<Event>, t: State)
    ensures EitherOr().joins == map[2 := Any] && Threshold(Any, 2) == 1
    ensures Reaches(EitherOr(), FAILING, events, t) && 0 in t.results && t.results[0].ContinuedError?
    ensures t.ready == [] && t.pending == map[0 := 0, 1 := 0, 2 := 1]
    ensures |t.executing| == 1 && t.executing[0].node == 1
  {
    hide Reaches, WalkEdges, Gather, Start, Step, Follows, EitherOr;
    var first, t2 := BothParentsRun(FAILING);
    t := FailureContinues(t2);
    ReachesNext(EitherOr(), FAILING, first, t2, Finish(0, Err("")), t);
    events := first + [Finish(0, Err(""))];
  }

  lemma FailureContinues(s: State) returns (t: State)
    requires s.status == Running && s.ready == [] && s.pending == map[0 := 0, 1 := 0, 2 := 2]
    requires |s.executing| == 2 && s.executing[0].node == 0 && s.executing[0].chain.None?
    ensures EitherOr().joins == map[2 := Any]
    ensures Follows(EitherOr(), FAILING, s, Finish(0, Err(""))) && Step(EitherOr(), s, Finish(0, Err(""))) == t
    ensures t.ready == [] && t.pending == map[0 := 0, 1 := 0, 2 := 1] && t.executing == [s.executing[1]]
    ensures 0 in t.results && t.results[0].ContinuedError?
  {
    var failed := s.(results := s.results[0 := ContinuedError("")], executing := Without(s.executing, 0));
    assert Without(s.executing, 0) == [s.executing[1]];
    ParentUnblocks(failed);
    t := failed.(pending := failed.pending[2 := 1]);
    assert !RoutesErrors(EitherOr().graph, 0);
    hide WalkEdges, Gather;
  }
}
