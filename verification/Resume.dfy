/** Snapshots and resumption: what a run has when it stops is a legal seed, and resuming from
    any legal part of it computes what an uninterrupted run computes. */
module Resume {
  import opened Graphs
  import opened Scheduler
  import opened SchedulerInvariant
  import opened SchedulerSteps
  import opened SchedulerRuns
  import opened Fates
  import opened Meaning
  import opened Equivalences

  /** The workflows whose snapshots can be resumed: no error or conditional edges. */
  ghost predicate Resumable(w: Workflow) {
    WellFormed(w) && NoErrorEdges(w.graph) && NoConditions(w.graph)
  }

  ghost predicate Snapshot(w: Workflow, s: State, disp: Dispositions) {
    Inv(w, s, disp, {}) && NoneRouted(disp)
  }

  /** Without error edges nothing is ever marked: a result belongs to a settled node. */
  lemma ResultsAreSettled(w: Workflow, s: State, disp: Dispositions, n: nat)
    requires Resumable(w) && Snapshot(w, s, disp) && n in s.results && n < w.graph.size
    ensures n in disp
  {
    assert Settled(w, s, disp, {});
    forall i: nat | i < |w.graph.edges| ensures !Dead(w.graph, disp, {}, i) {
    }
  }

  lemma SettledParents(w: Workflow, s: State, disp: Dispositions, n: nat)
    requires Resumable(w) && w.chains == [] && Snapshot(w, s, disp) && Waiting(w.graph, disp, {}, n) == {}
    ensures forall i | i in InEdges(w.graph, n) :: w.graph.edges[i].src in s.results
  {
    forall i | i in InEdges(w.graph, n) ensures w.graph.edges[i].src in s.results {
      assert i !in Waiting(w.graph, disp, {}, n);
      assert Settled(w, s, disp, {});
    }
  }

  lemma RunningSnapshotIsClosed(w: Workflow, s: State, disp: Dispositions)
    requires Resumable(w) && w.chains == [] && Snapshot(w, s, disp)
    ensures PredecessorClosed(w.graph, s.results.Keys)
  {
    forall i | 0 <= i < |w.graph.edges| && w.graph.edges[i].dst in s.results
      ensures w.graph.edges[i].src in s.results
    {
      ResultsAreSettled(w, s, disp, w.graph.edges[i].dst);
      assert Settled(w, s, disp, {});
      SettledParents(w, s, disp, w.graph.edges[i].dst);
      assert i in InEdges(w.graph, w.graph.edges[i].dst);
    }
  }

  /** The step that stops a run adds at most the paused node, whose parents all have results. */
  lemma StoppedSnapshotIsClosed(w: Workflow, s: State, disp: Dispositions, e: Event)
    requires Resumable(w) && w.chains == [] && Snapshot(w, s, disp) && Enabled(w, s, e)
             && Step(w, s, e).status != Running
    ensures PredecessorClosed(w.graph, Step(w, s, e).results.Keys)
  {
    RunningSnapshotIsClosed(w, s, disp);
    StoppingStepWrites(w, s, e);
    if e.Pop? {
      var n := s.ready[e.index];
      assert Due(w, disp, {}, n);
      SettledParents(w, s, disp, n);
      assert forall i: nat | i < |w.graph.edges| && w.graph.edges[i].dst == n :: i in InEdges(w.graph, n);
      hide Inv, Step;
    }
  }

  lemma StoppingStepWrites(w: Workflow, s: State, e: Event)
    requires Enabled(w, s, e) && Step(w, s, e).status != Running
    ensures Step(w, s, e).status.Aborted? ==> Step(w, s, e).results == s.results
    ensures e.Finish? ==> Step(w, s, e).status.Aborted?
    ensures e.Pop? && !Step(w, s, e).status.Aborted? ==>
              e.decision.Pause? && Step(w, s, e).results == s.results[s.ready[e.index] := e.decision.value]
  {
    WalkKeepsStatus(w, s, if e.Pop? then s.ready[e.index] else Reporter(w, s.executing[e.index]));
    hide WalkEdges, RoutesErrors, Gather, ClearChain;
  }

  lemma {:induction false} RunSnapshotIsClosed(w: Workflow, s: State, disp: Dispositions, events: seq<Event>)
    requires Resumable(w) && w.chains == [] && IsRun(w, s, events) && s.status == Running && Snapshot(w, s, disp)
    ensures PredecessorClosed(w.graph, After(w, s, events).results.Keys)
    decreases |events|
  {
    hide Inv, Step, Settles, WellFormed, NextExecuting, Records, Live, NoConditions, NoErrorEdges, NoneRouted;
    hide PredecessorClosed;
    if events == [] {
      RunningSnapshotIsClosed(w, s, disp);
    } else {
      var e, s' := events[0], Step(w, s, events[0]);
      if s'.status == Running {
        var disp' := StepKeeps(w, s, disp, e);
        SettlesNoneRouted(w, s, disp, e);
        assert disp' == Settles(w, s, disp, e);
        RunSnapshotIsClosed(w, s', disp', events[1..]);
      } else {
        StoppedSnapshotIsClosed(w, s, disp, e);
        StoppedRunsEnd(w, s', events[1..]);
      }
    }
  }

  lemma StartIsSnapshot(w: Workflow, seed: map<nat, Value>)
    requires Startable(w, seed)
    ensures Snapshot(w, Start(w, seed), SeedDispositions(w.graph, seed))
  {
    StartIsLive(w, seed);
  }

  /** However and whenever a per-node run stops, its `results` are predecessor-closed: a legal seed. */
  lemma SnapshotsAreSeeds(w: Workflow, seed: map<nat, Value>, events: seq<Event>)
    requires Resumable(w) && w.chains == [] && Startable(w, seed) && IsRun(w, Start(w, seed), events)
    ensures Startable(w, After(w, Start(w, seed), events).results)
  {
    StartIsSnapshot(w, seed);
    RunSnapshotIsClosed(w, Start(w, seed), SeedDispositions(w.graph, seed), events);
  }

  // ----- resuming -----

  ghost predicate HoldsFates(g: Graph, fates: Fates, results: map<nat, Value>) {
    forall n | n in results && n < g.size :: n in fates && fates[n].Ran? && fates[n].value == results[n]
  }

  lemma SnapshotHoldsFates(w: Workflow, env: Env, seed: map<nat, Value>, fates: Fates, s: State, disp: Dispositions)
    requires Resumable(w) && Snapshot(w, s, disp) && Faithful(w, seed, fates, s, disp)
    ensures HoldsFates(w.graph, fates, s.results)
  {
    forall n | n in s.results && n < w.graph.size
      ensures n in fates && fates[n].Ran? && fates[n].value == s.results[n]
    {
      ResultsAreSettled(w, s, disp, n);
      assert Met(w, fates, s, disp, n);
      assert Settled(w, s, disp, {});
    }
  }

  /** Until it pauses, a driven run holds fates only. */
  lemma {:induction false} DrivenRunHoldsFates(w: Workflow, env: Env, seed: map<nat, Value>, fates: Fates,
                                               s: State, disp: Dispositions, events: seq<Event>)
    requires Resumable(w) && Comparable(w, env, seed, fates)
    requires Driven(w, env, s, events) && IsRun(w, s, events)
    requires s.status == Running && OnCourse(w, env, seed, fates, s, disp) && NoneRouted(disp)
    ensures After(w, s, events).status != Paused ==> HoldsFates(w.graph, fates, After(w, s, events).results)
    decreases |events|
  {
    hide Inv, Step, Settles, Solves, WellFormed, Faithful, Wanted, NoConditions, NoErrorEdges, Follows;
    hide HoldsFates, NoneRouted, StepOk;
    if events == [] {
      SnapshotHoldsFates(w, env, seed, fates, s, disp);
    } else {
      var e, s' := events[0], Step(w, s, events[0]);
      if s'.status == Running {
        var disp' := StepStaysOnCourse(w, env, seed, fates, s, disp, e);
        SettlesNoneRouted(w, s, disp, e);
        DrivenRunHoldsFates(w, env, seed, fates, s', disp', events[1..]);
      } else {
        SnapshotHoldsFates(w, env, seed, fates, s, disp);
        StoppingStepWrites(w, s, e);
        StoppedRunsEnd(w, s', events[1..]);
      }
    }
  }

  /** The fates after resuming: seeded nodes deliver everything, the others are unchanged. */
  function Reseeded(fates: Fates, seed: map<nat, Value>): Fates {
    map n | n in fates :: if n in seed && fates[n].Ran? then Ran(Opened, fates[n].value) else fates[n]
  }

  ghost predicate NoFateRouted(fates: Fates) {
    forall n | n in fates && fates[n].Ran? :: fates[n].how != Routed
  }

  lemma UnroutedFate(w: Workflow, env: Env, seed: map<nat, Value>, fates: Fates, n: nat)
    requires NoErrorEdges(w.graph) && Solves(w, env, seed, fates) && n in fates
    ensures fates[n].Ran? ==> fates[n].how != Routed
  {
    assert fates[n] == Judge(w, env, seed, fates, n);
    hide Solves, NoErrorEdges, Arrived, Refused, Gather, Entry, Started;
    UnroutedStart(w, env, n, FateInputs(w.graph, fates, Entry(w, n)));
  }

  lemma UnroutedStart(w: Workflow, env: Env, n: nat, inputs: Inputs)
    requires NoErrorEdges(w.graph)
    ensures Started(w, env, n, inputs).Ran? ==> Started(w, env, n, inputs).how != Routed
  {
    NoRoutes(w.graph, n);
    hide RoutesErrors, Compose, ChainAt, NoErrorEdges;
  }

  /** Without error edges a fate that ran delivers everywhere, reseeded or not. */
  lemma ReseededJudge(w: Workflow, env: Env, fates: Fates, seed0: map<nat, Value>, seed: map<nat, Value>, n: nat)
    requires NoErrorEdges(w.graph) && NoFateRouted(fates) && n !in seed && n !in seed0
    ensures Judge(w, env, seed, Reseeded(fates, seed), n) == Judge(w, env, seed0, fates, n)
  {
    var g, fates' := w.graph, Reseeded(fates, seed);
    forall i: nat | i < |g.edges|
      ensures Arrives(g, fates', i) <==> Arrives(g, fates, i)
      ensures Refuses(g, fates', i) <==> Refuses(g, fates, i)
    {
    }
    assert Values(fates') == Values(fates);
  }

  lemma ReseededSolves(w: Workflow, env: Env, fates: Fates, seed0: map<nat, Value>, seed: map<nat, Value>)
    requires NoErrorEdges(w.graph) && Solves(w, env, seed0, fates) && HoldsFates(w.graph, fates, seed)
    requires seed0.Keys <= seed.Keys
    ensures Solves(w, env, seed, Reseeded(fates, seed))
  {
    forall n | n in fates ensures fates[n].Ran? ==> fates[n].how != Routed {
      UnroutedFate(w, env, seed0, fates, n);
    }
    var fates' := Reseeded(fates, seed);
    forall n | n in fates'
      ensures fates'[n] == Judge(w, env, seed, fates', n)
    {
      assert fates[n] == Judge(w, env, seed0, fates, n);
      if n !in seed { ReseededJudge(w, env, fates, seed0, seed, n); }
    }
  }

  // ----- a batched first run -----

  /** A tail's predecessor has no result, so no predecessor-closed part of a batched run's
      results has a chain member in it. */
  lemma ClosedPartHasNoMember(w: Workflow, env: Env, fates: Fates, seed: map<nat, Value>, n: nat)
    requires WellFormed(w) && Solves(w, env, map[], fates) && HoldsFates(w.graph, fates, seed)
    requires PredecessorClosed(w.graph, seed.Keys) && n in seed && n < w.graph.size
    ensures ChainAt(w, n) == []
  {
    if ChainAt(w, n) != [] {
      var k, j := PlaceInChain(w, n);
      OnlyTailRuns(w, env, fates, k, j);
      var i := LinkEdge(w, k, j);
      OnlyTailRuns(w, env, fates, k, j - 1);
    }
  }

  lemma OnlyTailRuns(w: Workflow, env: Env, fates: Fates, k: nat, j: nat)
    requires WellFormed(w) && Solves(w, env, map[], fates) && k < |w.chains| && j < |w.chains[k]|
    ensures w.chains[k][j] in fates && (fates[w.chains[k][j]].Ran? ==> j == |w.chains[k]| - 1 && j > 0)
  {
    ChainFacts(w, k);
    ChainAtMember(w, k, w.chains[k][j]);
    assert w.chains[k][j] in fates;
    assert fates[w.chains[k][j]] == Judge(w, env, map[], fates, w.chains[k][j]);
    hide Solves, WellFormed, Arrived, Refused, Gather, Compose, Entry, ChainAt, ChainOf;
  }

  /** Outside the chains and what follows them, batching changes no fate. */
  lemma {:induction false} ClosedPartKeepsFates(w: Workflow, env: Env, rank: seq<nat>, fates: Fates, single: Fates,
                                                seed: map<nat, Value>, n: nat)
    requires WellFormed(w) && IsRank(w.graph, rank) && HoldsFates(w.graph, fates, seed)
    requires Solves(w, env, map[], fates) && Solves(Unbatched(w), env, map[], single)
    requires PredecessorClosed(w.graph, seed.Keys) && n in seed && n < w.graph.size
    ensures n in single && single[n] == fates[n]
    decreases rank[n]
  {
    ClosedPartHasNoMember(w, env, fates, seed, n);
    forall i | i in InEdges(w.graph, n)
      ensures var p := w.graph.edges[i].src; p in single && p in fates && single[p] == fates[p]
    {
      ClosedPartKeepsFates(w, env, rank, fates, single, seed, w.graph.edges[i].src);
    }
    assert Entry(Unbatched(w), n) == n && n in single;
    JudgeIsLocal(Unbatched(w), env, map[], single, fates, n);
    JudgedAlone(w, env, fates, n);
  }

  // ----- resumption -----

  /** A seed taken from the results of an interrupted run. */
  ghost predicate IsPartOf(seed: map<nat, Value>, t: State) {
    t.status != Paused && forall n | n in seed :: n in t.results && seed[n] == t.results[n]
  }

  /** A seed for another run of w: predecessor-closed, and keeping what seed0 had settled. */
  ghost predicate Continues(w: Workflow, seed0: map<nat, Value>, seed: map<nat, Value>) {
    && Resumable(w) && Acyclic(w.graph) && Startable(w, seed0)
    && PredecessorClosed(w.graph, seed.Keys) && seed0.Keys <= seed.Keys
  }

  /** Resume equivalence.  Start from any legal seed, such as an earlier interruption left;
      interrupt the run anywhere, short of a pause, batched or not; keep any predecessor-closed
      part of its results that contains the old seed as the new one; run on from there, node by
      node.  The resumed run completes exactly when an uninterrupted node-by-node run from the old
      seed does, and with the same results. */
  lemma ResumeEquivalence(w: Workflow, env: Env, seed0: map<nat, Value>, first: seq<Event>, seed: map<nat, Value>,
                          resumed: seq<Event>, full: seq<Event>)
    requires Continues(w, seed0, seed)
    requires Driven(w, env, Start(w, seed0), first)
    requires Driven(Unbatched(w), env, Start(Unbatched(w), seed), resumed)
    requires Driven(Unbatched(w), env, Start(Unbatched(w), seed0), full)
    ensures IsRun(w, Start(w, seed0), first)
    ensures IsRun(Unbatched(w), Start(Unbatched(w), seed), resumed)
    ensures IsRun(Unbatched(w), Start(Unbatched(w), seed0), full)
    ensures var t := After(w, Start(w, seed0), first);
            var r, r' := After(Unbatched(w), Start(Unbatched(w), seed0), full),
                         After(Unbatched(w), Start(Unbatched(w), seed), resumed);
            IsPartOf(seed, t) && Maximal(r) && Maximal(r') ==>
              && (Quiescent(r') <==> Quiescent(r))
              && (Quiescent(r) ==> r'.results == r.results)
  {
    DrivenIsRun(w, env, Start(w, seed0), first);
    DrivenIsRun(Unbatched(w), env, Start(Unbatched(w), seed), resumed);
    DrivenIsRun(Unbatched(w), env, Start(Unbatched(w), seed0), full);
    hide Continues, After, Start, Driven, IsRun, Maximal, Solves, PredecessorClosed;
    var t := After(w, Start(w, seed0), first);
    var r, r' := After(Unbatched(w), Start(Unbatched(w), seed0), full),
                 After(Unbatched(w), Start(Unbatched(w), seed), resumed);
    if IsPartOf(seed, t) && Maximal(r) && Maximal(r') {
      var fates := InterruptedRunHoldsFates(w, env, seed0, seed, first);
      var single := ResumedFates(w, env, fates, seed0, seed);
      OutsideStays(w, seed0, seed, first);
      UnbatchedContinues(w, seed0, seed);
      ResumedRunsAgree(Unbatched(w), env, single, seed0, seed, resumed, full);
    }
  }

  /** Two per-node runs, one from a larger seed that holds fates, compute the same. */
  lemma ResumedRunsAgree(w: Workflow, env: Env, fates: Fates, seed0: map<nat, Value>, seed: map<nat, Value>,
                         resumed: seq<Event>, full: seq<Event>)
    requires Continues(w, seed0, seed) && w.chains == []
    requires Solves(w, env, seed0, fates) && Solves(w, env, seed, Reseeded(fates, seed))
    requires forall n | n >= w.graph.size :: Lookup(seed, n) == Lookup(seed0, n)
    requires Driven(w, env, Start(w, seed), resumed) && IsRun(w, Start(w, seed), resumed)
    requires Driven(w, env, Start(w, seed0), full) && IsRun(w, Start(w, seed0), full)
    requires Maximal(After(w, Start(w, seed), resumed)) && Maximal(After(w, Start(w, seed0), full))
    ensures Quiescent(After(w, Start(w, seed), resumed)) <==> Quiescent(After(w, Start(w, seed0), full))
    ensures Quiescent(After(w, Start(w, seed0), full)) ==>
              After(w, Start(w, seed), resumed).results == After(w, Start(w, seed0), full).results
  {
    var fates' := Reseeded(fates, seed);
    assert Startable(w, seed) && Startable(w, seed0);
    hide WellFormed, NoConditions, NoErrorEdges, After, IsRun, Driven, Solves, Start, Startable, PredecessorClosed;
    CompletesIffNothingEnds(w, env, seed, fates', resumed);
    CompletesIffNothingEnds(w, env, seed0, fates, full);
    EndsAgree(fates, seed);
    var r, r' := After(w, Start(w, seed0), full), After(w, Start(w, seed), resumed);
    if Quiescent(r) {
      forall n: nat | n < w.graph.size ensures Lookup(r'.results, n) == Lookup(r.results, n) {
        QuiescentRunsComputeFates(w, env, seed0, fates, full, n);
        QuiescentRunsComputeFates(w, env, seed, fates', resumed, n);
      }
      ResultsAgree(w, seed, w, seed0, resumed, full);
    }
  }

  lemma EndsAgree(fates: Fates, seed: map<nat, Value>)
    ensures (forall n | n in Reseeded(fates, seed) :: Reseeded(fates, seed)[n] != Ends)
            <==> (forall n | n in fates :: fates[n] != Ends)
  {
    assert forall n | n in fates :: Reseeded(fates, seed)[n] == Ends <==> fates[n] == Ends;
  }

  /** What a run finds under names that are no nodes it leaves there. */
  lemma OutsideStays(w: Workflow, seed0: map<nat, Value>, seed: map<nat, Value>, first: seq<Event>)
    requires Continues(w, seed0, seed) && IsRun(w, Start(w, seed0), first)
    requires forall n | n in seed && n >= w.graph.size ::
               Lookup(After(w, Start(w, seed0), first).results, n) == Some(seed[n])
    ensures forall n | n >= w.graph.size :: Lookup(seed, n) == Lookup(seed0, n)
  {
    StartIsLive(w, seed0);
    assert Start(w, seed0).results == seed0 && WellFormed(w);
    hide Inv, Live, WellFormed, After, IsRun, Startable, Start, PredecessorClosed;
    var _ := RunKeeps(w, Start(w, seed0), SeedDispositions(w.graph, seed0), first);
    forall n | n >= w.graph.size ensures Lookup(seed, n) == Lookup(seed0, n) {
      if n in seed { RunWritesNodes(w, Start(w, seed0), SeedDispositions(w.graph, seed0), first, n); }
    }
  }

  /** The node-by-node fates, and that they stay the fates when the seed is taken for granted. */
  lemma ResumedFates(w: Workflow, env: Env, fates: Fates, seed0: map<nat, Value>, seed: map<nat, Value>)
    returns (single: Fates)
    requires Continues(w, seed0, seed) && Solves(w, env, seed0, fates) && HoldsFates(w.graph, fates, seed)
    ensures Solves(Unbatched(w), env, seed0, single) && Solves(Unbatched(w), env, seed, Reseeded(single, seed))
    ensures HoldsFates(w.graph, single, seed)
  {
    if w.chains == [] {
      assert Unbatched(w) == w;
      single := fates;
    } else {
      assert seed0 == map[];
      var rank :| IsRank(w.graph, rank);
      single := EvaluationSolves(Unbatched(w), env, map[], rank);
      hide Solves, WellFormed, NoConditions, IsRank;
      forall n | n in seed && n < w.graph.size
        ensures n in single && single[n].Ran? && single[n].value == seed[n]
      {
        ClosedPartKeepsFates(w, env, rank, fates, single, seed, n);
      }
    }
    hide Solves, WellFormed, NoConditions;
    ReseededSolves(Unbatched(w), env, single, seed0, seed);
  }

  /** What a run holds before it pauses are fates, and so is every part of it. */
  lemma InterruptedRunHoldsFates(w: Workflow, env: Env, seed0: map<nat, Value>, seed: map<nat, Value>,
                                 first: seq<Event>) returns (fates: Fates)
    requires Resumable(w) && Acyclic(w.graph) && Startable(w, seed0)
    requires Driven(w, env, Start(w, seed0), first) && IsRun(w, Start(w, seed0), first)
    requires IsPartOf(seed, After(w, Start(w, seed0), first))
    ensures Solves(w, env, seed0, fates) && HoldsFates(w.graph, fates, seed)
  {
    var rank :| IsRank(w.graph, rank);
    fates := EvaluationSolves(w, env, seed0, rank);
    StartIsLive(w, seed0);
    StartIsFaithful(w, env, seed0, fates);
    StartIsSnapshot(w, seed0);
    assert Comparable(w, env, seed0, fates) && Start(w, seed0).executing == [];
    hide Inv, Live, Faithful, WellFormed, NoConditions, NoErrorEdges, IsRun, Driven, After, Solves, Startable;
    DrivenRunHoldsFates(w, env, seed0, fates, Start(w, seed0), SeedDispositions(w.graph, seed0), first);
  }

  lemma UnbatchedContinues(w: Workflow, seed0: map<nat, Value>, seed: map<nat, Value>)
    requires Continues(w, seed0, seed)
    ensures Continues(Unbatched(w), seed0, seed) && Unbatched(w).chains == [] && Unbatched(w).graph == w.graph
  {
  }

  // ----- any number of interruptions -----

  /** Only the first run may be batched: the others are seeded. */
  function Stage(w: Workflow, i: nat): Workflow {
    if i == 0 then w else Unbatched(w)
  }

  /** A first run and its resumptions, each interrupted somewhere and the next one started from
      part of what it left. */
  ghost predicate Interrupted(w: Workflow, env: Env, seeds: seq<map<nat, Value>>, runs: seq<seq<Event>>) {
    && |seeds| == |runs| + 1 && seeds[0] == map[]
    && forall i | 0 <= i < |runs| :: IsInterrupted(w, env, seeds, runs, i)
  }

  ghost predicate IsInterrupted(w: Workflow, env: Env, seeds: seq<map<nat, Value>>, runs: seq<seq<Event>>, i: nat)
    requires i < |runs| < |seeds|
  {
    && Continues(Stage(w, i), seeds[i], seeds[i + 1])
    && Driven(Stage(w, i), env, Start(Stage(w, i), seeds[i]), runs[i])
    && IsRun(Stage(w, i), Start(Stage(w, i), seeds[i]), runs[i])
    && IsPartOf(seeds[i + 1], After(Stage(w, i), Start(Stage(w, i), seeds[i]), runs[i]))
  }

  predicate SeedsNodes(g: Graph, seed: map<nat, Value>) {
    forall n | n in seed :: n < g.size
  }

  lemma InterruptedBefore(w: Workflow, env: Env, seeds: seq<map<nat, Value>>, runs: seq<seq<Event>>)
    requires Interrupted(w, env, seeds, runs) && runs != []
    ensures var k := |runs| - 1;
            && |seeds| == |runs| + 1
            && Interrupted(w, env, seeds[..k + 1], runs[..k]) && seeds[..k + 1][k] == seeds[k]
            && IsInterrupted(w, env, seeds, runs, k)
  {
    hide IsInterrupted;
    var seeds', runs' := seeds[..|runs|], runs[..|runs| - 1];
    forall i | 0 <= i < |runs'| ensures IsInterrupted(w, env, seeds', runs', i) {
      assert IsInterrupted(w, env, seeds, runs, i);
      SameStage(w, env, seeds, runs, seeds', runs', i);
    }
  }

  lemma SameStage(w: Workflow, env: Env, seeds: seq<map<nat, Value>>, runs: seq<seq<Event>>,
                  seeds': seq<map<nat, Value>>, runs': seq<seq<Event>>, i: nat)
    requires i < |runs| < |seeds| && i < |runs'| < |seeds'| && IsInterrupted(w, env, seeds, runs, i)
    requires seeds'[i] == seeds[i] && seeds'[i + 1] == seeds[i + 1] && runs'[i] == runs[i]
    ensures IsInterrupted(w, env, seeds', runs', i)
  {
  }

  /** Every seed along the way holds the fates of the uninterrupted run. */
  lemma {:induction false} SeedsHoldFates(w: Workflow, env: Env, seeds: seq<map<nat, Value>>, runs: seq<seq<Event>>,
                                          single: Fates)
    requires Interrupted(w, env, seeds, runs) && Resumable(w) && Acyclic(w.graph)
    requires Solves(Unbatched(w), env, map[], single)
    ensures HoldsFates(w.graph, single, seeds[|runs|])
    ensures Solves(Unbatched(w), env, seeds[|runs|], Reseeded(single, seeds[|runs|]))
    ensures PredecessorClosed(w.graph, seeds[|runs|].Keys)
    ensures SeedsNodes(w.graph, seeds[|runs|])
    decreases |runs|
  {
    hide *;
    if runs == [] {
      NothingSeeded(w, env, seeds, runs, single);
    } else {
      var k := |runs| - 1;
      InterruptedBefore(w, env, seeds, runs);
      SeedsHoldFates(w, env, seeds[..k + 1], runs[..k], single);
      OneMoreInterruption(w, env, seeds, runs, k, single);
    }
  }

  lemma NothingSeeded(w: Workflow, env: Env, seeds: seq<map<nat, Value>>, runs: seq<seq<Event>>, single: Fates)
    requires Interrupted(w, env, seeds, runs) && runs == [] && Resumable(w)
    requires Solves(Unbatched(w), env, map[], single)
    ensures |seeds| == 1 && seeds[0] == map[] && HoldsFates(w.graph, single, seeds[0])
    ensures Solves(Unbatched(w), env, seeds[0], Reseeded(single, seeds[0])) && PredecessorClosed(w.graph, seeds[0].Keys)
    ensures SeedsNodes(w.graph, seeds[0])
  {
    assert NoErrorEdges(Unbatched(w).graph);
    hide NoErrorEdges, Solves, Resumable;
    ReseededSolves(Unbatched(w), env, single, map[], map[]);
  }

  lemma OneMoreInterruption(w: Workflow, env: Env, seeds: seq<map<nat, Value>>, runs: seq<seq<Event>>, k: nat,
                            single: Fates)
    requires k < |runs| < |seeds| && IsInterrupted(w, env, seeds, runs, k) && Resumable(w) && Acyclic(w.graph)
    requires Solves(Unbatched(w), env, map[], single)
    requires Solves(Unbatched(w), env, seeds[k], Reseeded(single, seeds[k]))
    requires SeedsNodes(w.graph, seeds[k])
    ensures HoldsFates(w.graph, single, seeds[k + 1])
    ensures Solves(Unbatched(w), env, seeds[k + 1], Reseeded(single, seeds[k + 1]))
    ensures PredecessorClosed(w.graph, seeds[k + 1].Keys)
    ensures SeedsNodes(w.graph, seeds[k + 1])
  {
    var seed := seeds[k + 1];
    hide *;
    StageContinues(w, env, seeds, runs, k);
    var single' := StageFates(Stage(w, k), env, seeds[k], seed, runs[k]);
    HoldsBefore(Unbatched(w), env, seeds[k], single, single', seed);
    ReseededSolves(Unbatched(w), env, single, map[], seed);
  }

  lemma StageFates(w: Workflow, env: Env, seed0: map<nat, Value>, seed: map<nat, Value>, first: seq<Event>)
    returns (single: Fates)
    requires Continues(w, seed0, seed) && Resumable(w) && Acyclic(w.graph) && Startable(w, seed0)
    requires Driven(w, env, Start(w, seed0), first) && IsRun(w, Start(w, seed0), first)
    requires IsPartOf(seed, After(w, Start(w, seed0), first))
    ensures Solves(Unbatched(w), env, seed0, single) && HoldsFates(w.graph, single, seed)
    ensures SeedsNodes(w.graph, seed0) ==> SeedsNodes(w.graph, seed)
  {
    hide Continues, Driven, IsRun, After, Start, Solves, Resumable, Acyclic, HoldsFates, Startable;
    var fates := InterruptedRunHoldsFates(w, env, seed0, seed, first);
    single := ResumedFates(w, env, fates, seed0, seed);
    OutsideStays(w, seed0, seed, first);
    if SeedsNodes(w.graph, seed0) {
      forall n | n in seed ensures n < w.graph.size {
        assert Lookup(seed, n).Some? && (n in seed0 ==> n < w.graph.size);
      }
    }
  }

  lemma StageContinues(w: Workflow, env: Env, seeds: seq<map<nat, Value>>, runs: seq<seq<Event>>, k: nat)
    requires k < |runs| < |seeds| && IsInterrupted(w, env, seeds, runs, k)
    ensures var stage, s := Stage(w, k), Start(Stage(w, k), seeds[k]);
            && Continues(stage, seeds[k], seeds[k + 1]) && Startable(stage, seeds[k]) && Resumable(stage)
            && Driven(stage, env, s, runs[k]) && IsRun(stage, s, runs[k])
            && IsPartOf(seeds[k + 1], After(stage, s, runs[k]))
            && Unbatched(stage) == Unbatched(w) && stage.graph == w.graph && Unbatched(w).graph == w.graph
            && Acyclic(w.graph) && NoErrorEdges(w.graph) && ChainsOk(w.graph, Unbatched(w).chains)
            && PredecessorClosed(w.graph, seeds[k + 1].Keys)
  {
  }

  /** The fates before and after a reseeding have the same values. */
  lemma HoldsBefore(w: Workflow, env: Env, seed0: map<nat, Value>, single: Fates, single': Fates, seed: map<nat, Value>)
    requires ChainsOk(w.graph, w.chains) && Acyclic(w.graph)
    requires Solves(w, env, seed0, Reseeded(single, seed0)) && Solves(w, env, seed0, single')
    requires HoldsFates(w.graph, single', seed)
    ensures HoldsFates(w.graph, single, seed)
  {
    var rank :| IsRank(w.graph, rank);
    assert forall n | n in Reseeded(single, seed0) :: n in single;
    forall n | n in seed && n < w.graph.size ensures n in single && single[n].Ran? && single[n].value == seed[n] {
      SolutionsAgree(w, env, seed0, rank, Reseeded(single, seed0), single', n);
      hide Judge, ChainsOk;
      assert n in Reseeded(single, seed0);
    }
  }

  /** Resume equivalence over any number of interruptions: the last resumption completes exactly
      when a run that is never interrupted does, and with the same results. */
  lemma ResumeAfterInterruptions(w: Workflow, env: Env, seeds: seq<map<nat, Value>>, runs: seq<seq<Event>>,
                                 resumed: seq<Event>, full: seq<Event>)
    requires Resumable(w) && Acyclic(w.graph) && Interrupted(w, env, seeds, runs)
    requires Driven(Unbatched(w), env, Start(Unbatched(w), seeds[|runs|]), resumed)
    requires Driven(Unbatched(w), env, Start(Unbatched(w), map[]), full)
    ensures IsRun(Unbatched(w), Start(Unbatched(w), seeds[|runs|]), resumed)
    ensures IsRun(Unbatched(w), Start(Unbatched(w), map[]), full)
    ensures var r, r' := After(Unbatched(w), Start(Unbatched(w), map[]), full),
                         After(Unbatched(w), Start(Unbatched(w), seeds[|runs|]), resumed);
            Maximal(r) && Maximal(r') ==>
              && (Quiescent(r') <==> Quiescent(r))
              && (Quiescent(r) ==> r'.results == r.results)
  {
    var w', seed := Unbatched(w), seeds[|runs|];
    DrivenIsRun(w', env, Start(w', seed), resumed);
    DrivenIsRun(w', env, Start(w', map[]), full);
    var rank :| IsRank(w.graph, rank);
    var single := EvaluationSolves(w', env, map[], rank);
    SeedsHoldFates(w, env, seeds, runs, single);
    assert Continues(w', map[], seed);
    hide Continues, Driven, IsRun, After, Start, Solves, Interrupted, Maximal;
    if Maximal(After(w', Start(w', map[]), full)) && Maximal(After(w', Start(w', seed), resumed)) {
      ResumedRunsAgree(w', env, single, map[], seed, resumed, full);
    }
  }

  // ----- against a batched run -----

  /** The same against a batched uninterrupted run whose members succeed: it differs from the
      resumed run only in saying nothing for the members before a chain's tail. */
  lemma ResumeOfBatchedRun(w: Workflow, env: Env, fates: Fates, first: seq<Event>, seed: map<nat, Value>,
                           resumed: seq<Event>, full: seq<Event>, n: nat)
    requires Continues(w, map[], seed) && n < w.graph.size
    requires Solves(Unbatched(w), env, map[], fates) && KeptOrEnded(w, env, fates)
    requires Driven(w, env, Start(w, map[]), first) && Driven(w, env, Start(w, map[]), full)
    requires Driven(Unbatched(w), env, Start(Unbatched(w), seed), resumed)
    ensures IsRun(w, Start(w, map[]), first) && IsRun(w, Start(w, map[]), full)
    ensures IsRun(Unbatched(w), Start(Unbatched(w), seed), resumed)
    ensures var t, r := After(w, Start(w, map[]), first), After(w, Start(w, map[]), full);
            var r' := After(Unbatched(w), Start(Unbatched(w), seed), resumed);
            IsPartOf(seed, t) && Maximal(r) && Maximal(r') ==>
              && (Quiescent(r') <==> Quiescent(r))
              && (Quiescent(r) ==>
                    Lookup(r.results, n) == if NonTail(w.chains, n) then None else Lookup(r'.results, n))
  {
    var w' := Unbatched(w);
    DrivenIsRun(w, env, Start(w, map[]), first);
    DrivenIsRun(w, env, Start(w, map[]), full);
    DrivenIsRun(w', env, Start(w', seed), resumed);
    var t, r := After(w, Start(w, map[]), first), After(w, Start(w, map[]), full);
    var r' := After(w', Start(w', seed), resumed);
    if IsPartOf(seed, t) && Maximal(r) && Maximal(r') {
      hide *;
      ContinuesFrom(w, map[], seed);
      UnbatchedContinues(w, map[], seed);
      ContinuesFrom(w', map[], seed);
      var interrupted := InterruptedRunHoldsFates(w, env, map[], seed, first);
      var single := ResumedFates(w, env, interrupted, map[], seed);
      SolvedOnce(w', env, single, fates);
      BatchedResumeAgrees(w, env, fates, seed, resumed, full, n);
    }
  }

  lemma SolvedOnce(w: Workflow, env: Env, fates: Fates, fates': Fates)
    requires WellFormed(w) && Acyclic(w.graph) && Solves(w, env, map[], fates) && Solves(w, env, map[], fates')
    ensures fates == fates'
  {
    var rank :| IsRank(w.graph, rank);
    hide Judge, ChainsOk;
    forall n | n in fates ensures n in fates' && fates[n] == fates'[n] {
      SolutionsAgree(w, env, map[], rank, fates, fates', n);
    }
    assert forall n | n in fates' :: n in fates;
  }

  lemma BatchedResumeAgrees(w: Workflow, env: Env, single: Fates, seed: map<nat, Value>,
                            resumed: seq<Event>, full: seq<Event>, n: nat)
    requires Continues(w, map[], seed) && KeptOrEnded(w, env, single)
    requires Solves(Unbatched(w), env, map[], single) && Solves(Unbatched(w), env, seed, Reseeded(single, seed))
    requires Driven(w, env, Start(w, map[]), full) && IsRun(w, Start(w, map[]), full) && n < w.graph.size
    requires Driven(Unbatched(w), env, Start(Unbatched(w), seed), resumed)
    requires IsRun(Unbatched(w), Start(Unbatched(w), seed), resumed)
    requires Maximal(After(w, Start(w, map[]), full))
             && Maximal(After(Unbatched(w), Start(Unbatched(w), seed), resumed))
    ensures var r, r' := After(w, Start(w, map[]), full), After(Unbatched(w), Start(Unbatched(w), seed), resumed);
            && (Quiescent(r') <==> Quiescent(r))
            && (Quiescent(r) ==>
                  Lookup(r.results, n) == if NonTail(w.chains, n) then None else Lookup(r'.results, n))
  {
    var w' := Unbatched(w);
    assert n in single && w'.graph == w.graph;
    var rank :| IsRank(w.graph, rank);
    hide *;
    ContinuesFrom(w, map[], seed);
    UnbatchedContinues(w, map[], seed);
    ResumableFrom(w, map[], seed);
    ResumableFrom(w', map[], seed);
    var batched := EvaluationSolves(w, env, map[], rank);
    EndsAlike(w, env, rank, single, batched);
    CompletesIffNothingEnds(w, env, map[], batched, full);
    CompletesIffNothingEnds(w', env, seed, Reseeded(single, seed), resumed);
    EndsAgree(single, seed);
    if Quiescent(After(w, Start(w, map[]), full)) {
      QuiescentRunsComputeFates(w, env, map[], batched, full, n);
      QuiescentRunsComputeFates(w', env, seed, Reseeded(single, seed), resumed, n);
      NothingMarkedWithoutErrors(w', env, map[], single, n);
      CarriedUnmarked(w, single, n);
      ReseededResult(single, seed, n);
    }
  }

  lemma ResumableFrom(w: Workflow, seed0: map<nat, Value>, seed: map<nat, Value>)
    requires Continues(w, seed0, seed)
    ensures WellFormed(w) && NoErrorEdges(w.graph) && NoConditions(w.graph) && ChainsOk(w.graph, w.chains)
    ensures Acyclic(w.graph) && Startable(w, seed0) && (w.chains == [] ==> Startable(w, seed))
  {
  }

  lemma CarriedUnmarked(w: Workflow, fates: Fates, n: nat)
    requires n in fates && fates[n] != SkipMarked
    ensures ResultOf(Carry(w, fates)[n]) == if NonTail(w.chains, n) then None else ResultOf(fates[n])
  {
  }

  lemma ReseededResult(fates: Fates, seed: map<nat, Value>, n: nat)
    requires n in fates
    ensures n in Reseeded(fates, seed) && ResultOf(Reseeded(fates, seed)[n]) == ResultOf(fates[n])
  {
  }

  // ----- resuming from a pause -----

  /** The environment once somebody has answered for p: the answer is p's own result. */
  function Answering(env: Env, p: nat, answer: Value): Env {
    env.(preflight := (n: nat, inputs: Inputs) => if n == p then Resolve(answer) else env.preflight(n, inputs))
  }

  lemma AnsweringElsewhere(env: Env, p: nat, answer: Value)
    ensures Answering(env, p, answer).dispatch == env.dispatch
    ensures forall n, inputs | n != p :: Answering(env, p, answer).preflight(n, inputs) == env.preflight(n, inputs)
  {
  }

  /** A popped node never comes back to the queue. */
  lemma {:induction false} ClaimedIsNotQueued(w: Workflow, s: State, disp: Dispositions, events: seq<Event>, n: nat)
    requires WellFormed(w) && IsRun(w, s, events) && s.status == Running && Inv(w, s, disp, {}) && Claimed(s, disp, n)
    ensures After(w, s, events).status == Running ==> n !in After(w, s, events).ready
    decreases |events|
  {
    hide Inv, Claimed, Step, StepOk, WellFormed;
    if events == [] {
      ClaimedIsBusy(w, s, disp, n);
    } else {
      var disp' := StepKeeps(w, s, disp, events[0]);
      if Step(w, s, events[0]).status == Running {
        StepKeepsClaims(w, s, disp, events[0], Step(w, s, events[0]), disp');
        StepKeepsInv(w, s, disp, events[0], Step(w, s, events[0]), disp');
        ClaimedIsNotQueued(w, Step(w, s, events[0]), disp', events[1..], n);
      } else {
        StoppedRunsStay(w, Step(w, s, events[0]), events[1..]);
      }
    }
  }

  lemma StepKeepsInv(w: Workflow, s: State, disp: Dispositions, e: Event, s': State, disp': Dispositions)
    requires Enabled(w, s, e) && StepOk(w, s, disp, e, s', disp') && s'.status == Running
    ensures Inv(w, s', disp', {})
  {
  }

  lemma ClaimedIsBusy(w: Workflow, s: State, disp: Dispositions, n: nat)
    requires Inv(w, s, disp, {}) && Claimed(s, disp, n)
    ensures n !in s.ready
  {
    assert Queued(w, s, disp, {}) && InFlight(w, s, disp, {});
    hide Inv, Waiting, JobOk, Inner;
  }

  lemma PoppedIsClaimed(w: Workflow, s: State, disp: Dispositions, e: Event, s': State, disp': Dispositions)
    requires Inv(w, s, disp, {}) && Enabled(w, s, e) && e.Pop? && s' == Step(w, s, e)
    requires s'.status == Running && StepOk(w, s, disp, e, s', disp')
    ensures Claimed(s', disp', s.ready[e.index])
  {
    assert e.index < |s.ready| && InFlight(w, s, disp, {});
    hide *;
    StepKeepsClaims(w, s, disp, e, s', disp');
    if !Launches(w, s, e) {
      RunningStepIsNoStop(w, s, e);
      SettlesAll(w, s, disp, e);
      SettledIsClaimed(w, s, disp, e, s', disp', s.ready[e.index]);
    }
  }

  lemma SettledIsClaimed(w: Workflow, s: State, disp: Dispositions, e: Event, s': State, disp': Dispositions, n: nat)
    requires Enabled(w, s, e) && StepOk(w, s, disp, e, s', disp') && s'.status == Running
    requires n in Settles(w, s, disp, e)
    ensures Claimed(s', disp', n)
  {
  }

  /** A run that ends with p at the front of the queue has not asked about p. */
  lemma {:induction false} DrivenByAnswer(w: Workflow, env: Env, p: nat, answer: Value, s: State, disp: Dispositions,
                                          events: seq<Event>)
    requires WellFormed(w) && s.status == Running && Inv(w, s, disp, {})
    requires Driven(w, env, s, events) && IsRun(w, s, events)
    requires After(w, s, events).status == Running && p in After(w, s, events).ready
    ensures Driven(w, Answering(env, p, answer), s, events)
    decreases |events|
  {
    hide Inv, Claimed, Step, StepOk, WellFormed, Follows, Answering;
    if events != [] {
      var e, s' := events[0], Step(w, s, events[0]);
      if s'.status != Running { StoppedRunsStay(w, s', events[1..]); }
      var disp' := StepKeeps(w, s, disp, e);
      StepKeepsInv(w, s, disp, e, s', disp');
      if e.Pop? && s.ready[e.index] == p {
        PoppedIsClaimed(w, s, disp, e, s', disp');
        ClaimedIsNotQueued(w, s', disp', events[1..], p);
      } else {
        AnsweringElsewhere(env, p, answer);
        FollowsToo(w, env, Answering(env, p, answer), s, e);
        DrivenByAnswer(w, env, p, answer, s', disp', events[1..]);
      }
    }
  }

  /** A seed taken from the results of a run that paused at p, with an answer in place of p's
      waiting marker. */
  ghost predicate IsAnsweredPartOf(seed: map<nat, Value>, t: State, p: nat, answer: Value) {
    forall n | n in seed :: if n == p then seed[n] == answer else n in t.results && seed[n] == t.results[n]
  }

  /** Resuming from a pause.  The run pauses at a node; somebody answers for it; any
      predecessor-closed part of the results, with the answer in place of the waiting marker,
      is the seed.  The resumed run computes what it would have computed had the answer been
      there all along. */
  lemma ResumeAfterPause(w: Workflow, env: Env, seed0: map<nat, Value>, before: seq<Event>,
                         marker: Value, answer: Value,
                         seed: map<nat, Value>, resumed: seq<Event>, full: seq<Event>)
    requires Continues(w, seed0, seed)
    requires Driven(w, env, Start(w, seed0), before) && IsRun(w, Start(w, seed0), before)
    requires var t := After(w, Start(w, seed0), before);
             Enabled(w, t, Pop(0, Pause(marker))) && Follows(w, env, t, Pop(0, Pause(marker)))
             && Step(w, t, Pop(0, Pause(marker))).status == Paused
             && IsAnsweredPartOf(seed, Step(w, t, Pop(0, Pause(marker))), t.ready[0], answer)
    requires var answered := Answering(env, After(w, Start(w, seed0), before).ready[0], answer);
             && Driven(Unbatched(w), answered, Start(Unbatched(w), seed), resumed)
             && Driven(Unbatched(w), answered, Start(Unbatched(w), seed0), full)
    ensures IsRun(Unbatched(w), Start(Unbatched(w), seed), resumed)
            && IsRun(Unbatched(w), Start(Unbatched(w), seed0), full)
    ensures var r, r' := After(Unbatched(w), Start(Unbatched(w), seed0), full),
                         After(Unbatched(w), Start(Unbatched(w), seed), resumed);
            Maximal(r) && Maximal(r') ==>
              && (Quiescent(r') <==> Quiescent(r))
              && (Quiescent(r) ==> r'.results == r.results)
  {
    var t := After(w, Start(w, seed0), before);
    var answered := Answering(env, t.ready[0], answer);
    DrivenIsRun(Unbatched(w), answered, Start(Unbatched(w), seed), resumed);
    DrivenIsRun(Unbatched(w), answered, Start(Unbatched(w), seed0), full);
    hide *;
    UnbatchedContinues(w, seed0, seed);
    var single := AnsweredSeed(w, env, seed0, before, marker, answer, seed);
    var r := After(Unbatched(w), Start(Unbatched(w), seed0), full);
    var r' := After(Unbatched(w), Start(Unbatched(w), seed), resumed);
    if Maximal(r) && Maximal(r') {
      ResumedRunsAgree(Unbatched(w), answered, single, seed0, seed, resumed, full);
    }
  }

  lemma AnsweredSeed(w: Workflow, env: Env, seed0: map<nat, Value>, before: seq<Event>, marker: Value, answer: Value,
                     seed: map<nat, Value>) returns (single: Fates)
    requires Continues(w, seed0, seed)
    requires Driven(w, env, Start(w, seed0), before) && IsRun(w, Start(w, seed0), before)
    requires var t := After(w, Start(w, seed0), before);
             Enabled(w, t, Pop(0, Pause(marker))) && Step(w, t, Pop(0, Pause(marker))).status == Paused
             && IsAnsweredPartOf(seed, Step(w, t, Pop(0, Pause(marker))), t.ready[0], answer)
    ensures var answered := Answering(env, After(w, Start(w, seed0), before).ready[0], answer);
            Solves(Unbatched(w), answered, seed0, single)
                && Solves(Unbatched(w), answered, seed, Reseeded(single, seed))
    ensures forall n | n >= w.graph.size :: Lookup(seed, n) == Lookup(seed0, n)
  {
    var t := After(w, Start(w, seed0), before);
    hide *;
    PauseWritesMarker(w, t, marker);
    ContinuesFrom(w, seed0, seed);
    var fates := AnsweredFates(w, env, seed0, before, answer);
    AnsweredPartHoldsFates(w, fates, seed, t, marker, answer);
    OutsideStays(w, seed0, seed, before);
    single := ResumedFates(w, Answering(env, t.ready[0], answer), fates, seed0, seed);
  }

  lemma AnsweredPartHoldsFates(w: Workflow, fates: Fates, seed: map<nat, Value>, t: State, marker: Value, answer: Value)
    requires Enabled(w, t, Pop(0, Pause(marker)))
    requires Step(w, t, Pop(0, Pause(marker))).results == t.results[t.ready[0] := marker]
    requires IsAnsweredPartOf(seed, Step(w, t, Pop(0, Pause(marker))), t.ready[0], answer)
    requires HoldsFates(w.graph, fates, t.results)
    requires t.ready[0] < w.graph.size && t.ready[0] in fates && fates[t.ready[0]] == Ran(Opened, answer)
    ensures HoldsFates(w.graph, fates, seed)
    ensures forall n | n in seed && n >= w.graph.size :: Lookup(t.results, n) == Some(seed[n])
  {
    hide Step;
  }

  lemma PauseWritesMarker(w: Workflow, t: State, marker: Value)
    requires Enabled(w, t, Pop(0, Pause(marker))) && Step(w, t, Pop(0, Pause(marker))).status == Paused
    ensures t.status == Running && t.ready != []
    ensures ChainOf(w.chains, t.ready[0]).None?
    ensures Step(w, t, Pop(0, Pause(marker))).results == t.results[t.ready[0] := marker]
  {
  }

  lemma ContinuesFrom(w: Workflow, seed0: map<nat, Value>, seed: map<nat, Value>)
    requires Continues(w, seed0, seed)
    ensures Resumable(w) && Acyclic(w.graph) && Startable(w, seed0)
  {
  }

  lemma AnsweredFates(w: Workflow, env: Env, seed0: map<nat, Value>, before: seq<Event>, answer: Value)
    returns (fates: Fates)
    requires Resumable(w) && Acyclic(w.graph) && Startable(w, seed0)
    requires Driven(w, env, Start(w, seed0), before) && IsRun(w, Start(w, seed0), before)
    requires var t := After(w, Start(w, seed0), before);
             t.status == Running && t.ready != [] && ChainOf(w.chains, t.ready[0]).None?
    ensures var t := After(w, Start(w, seed0), before);
            && Solves(w, Answering(env, t.ready[0], answer), seed0, fates)
            && HoldsFates(w.graph, fates, t.results)
            && t.ready[0] < w.graph.size && t.ready[0] in fates && fates[t.ready[0]] == Ran(Opened, answer)
  {
    var s, disp := Start(w, seed0), SeedDispositions(w.graph, seed0);
    var t := After(w, s, before);
    var answered := Answering(env, t.ready[0], answer);
    StartIsLive(w, seed0);
    DrivenByAnswer(w, env, t.ready[0], answer, s, disp, before);
    fates := InterruptedRunHoldsFates(w, answered, seed0, t.results, before);
    StartIsFaithful(w, answered, seed0, fates);
    assert s.results == seed0 && s.executing == [] && Wanted(answered, s.executing);
    assert Comparable(w, answered, seed0, fates);
    hide Inv, Live, Solves, WellFormed, Driven, IsRun, After, Start, NoConditions, NoErrorEdges, Faithful, Wanted;
    var disp' := DrivenRunStaysOnCourse(w, answered, seed0, fates, s, disp, before);
    AnsweredFate(w, env, seed0, answer, fates, t, disp');
  }

  lemma AnsweredFate(w: Workflow, env: Env, seed0: map<nat, Value>, answer: Value, fates: Fates, t: State,
                     disp: Dispositions)
    requires WellFormed(w) && t.ready != [] && ChainOf(w.chains, t.ready[0]).None?
    requires var answered := Answering(env, t.ready[0], answer);
             Solves(w, answered, seed0, fates) && OnCourse(w, answered, seed0, fates, t, disp)
    ensures t.ready[0] < w.graph.size && t.ready[0] in fates && fates[t.ready[0]] == Ran(Opened, answer)
  {
    var answered := Answering(env, t.ready[0], answer);
    PoppedIsTaken(w, t, disp, 0);
    DueArrives(w, seed0, fates, t, disp, t.ready[0]);
    assert t.ready[0] in fates;
    SolvedFate(w, answered, seed0, fates, t.ready[0]);
    hide Inv, Solves, Faithful, Arrived, Gather;
  }

  // ----- what a resumed run dispatches -----

  ghost predicate Wants(w: Workflow, env: Env, fates: Fates, n: nat) {
    env.preflight(n, FateInputs(w.graph, fates, n)) == Dispatch
  }

  ghost predicate LaunchesNode(jobs: seq<Job>, n: nat) {
    exists i | 0 <= i < |jobs| :: jobs[i].node == n
  }

  lemma LaunchesLater(jobs: seq<Job>, more: seq<Job>, n: nat)
    requires LaunchesNode(more, n)
    ensures LaunchesNode(jobs + more, n)
  {
    var i :| 0 <= i < |more| && more[i].node == n;
    assert (jobs + more)[|jobs| + i].node == n;
  }

  lemma WantedIsNotDecided(w: Workflow, env: Env, seed: map<nat, Value>, fates: Fates, s: State, disp: Dispositions,
                           i: nat, decision: Decision)
    requires Comparable(w, env, seed, fates) && OnCourse(w, env, seed, fates, s, disp) && w.chains == []
    requires Enabled(w, s, Pop(i, decision)) && Follows(w, env, s, Pop(i, decision))
    requires Wants(w, env, fates, s.ready[i])
    ensures Launches(w, s, Pop(i, decision))
  {
    assert Due(w, disp, {}, s.ready[i]);
    DueArrives(w, seed, fates, s, disp, s.ready[i]);
  }

  /** A node the environment wants dispatched settles only after a launch. */
  lemma WantedSettlesInFlight(w: Workflow, env: Env, seed: map<nat, Value>, fates: Fates, s: State,
                              disp: Dispositions, e: Event, n: nat)
    requires Comparable(w, env, seed, fates) && OnCourse(w, env, seed, fates, s, disp) && w.chains == []
    requires Enabled(w, s, e) && Follows(w, env, s, e)
    requires Wants(w, env, fates, n) && n !in disp
    requires forall i | 0 <= i < |s.executing| :: s.executing[i].node != n
    requires !(Launches(w, s, e) && PoppedJob(w, s, e.index).node == n)
    ensures n !in Settles(w, s, disp, e)
    ensures forall i | 0 <= i < |NextExecuting(w, s, e)| :: NextExecuting(w, s, e)[i].node != n
  {
    hide Inv, Faithful, Wanted, Solves, WellFormed, Follows, Wants, OutcomeOf, Gather, NoConditions, Due;
    match e
    case Finish(i, _) => JobIsDue(w, s, disp, i);
    case Pop(i, decision) =>
      if s.ready[i] == n { WantedIsNotDecided(w, env, seed, fates, s, disp, i, decision); }
  }

  lemma {:induction false} WantedAreLaunched(w: Workflow, env: Env, seed: map<nat, Value>, fates: Fates, rank: seq<nat>,
                                             s: State, disp: Dispositions, events: seq<Event>, n: nat)
    requires Comparable(w, env, seed, fates) && OnCourse(w, env, seed, fates, s, disp) && w.chains == []
    requires IsRank(w.graph, rank) && Live(w, s, disp)
    requires Driven(w, env, s, events) && IsRun(w, s, events) && Quiescent(After(w, s, events))
    requires n in fates && fates[n].Ran? && Wants(w, env, fates, n) && n !in disp
    requires forall i | 0 <= i < |s.executing| :: s.executing[i].node != n
    ensures LaunchesNode(Launched(w, s, events), n)
    decreases |events|
  {
    if events == [] {
      UnsettledAtRest(w, env, seed, fates, rank, s, disp, n);
    } else {
      var e, s' := events[0], Step(w, s, events[0]);
      var rest := Launched(w, s', events[1..]);
      hide Inv, Step, Comparable, Faithful, OnCourse, StepOk, Settles, Follows, Live, NextExecuting, Launches;
      hide Wants, LaunchesNode;
      if Launches(w, s, e) && PoppedJob(w, s, e.index).node == n {
        LaunchedFirst(PoppedJob(w, s, e.index), rest);
      } else {
        WantedSettlesInFlight(w, env, seed, fates, s, disp, e, n);
        if s'.status != Running { StoppedRunsEnd(w, s', events[1..]); }
        var disp' := StepStaysOnCourse(w, env, seed, fates, s, disp, e);
        CourseStaysLive(w, env, seed, fates, s, disp, e, s', disp');
        WantedAreLaunched(w, env, seed, fates, rank, s', disp', events[1..], n);
        LaunchesLater(if Launches(w, s, e) then [PoppedJob(w, s, e.index)] else [], rest, n);
      }
    }
  }

  lemma UnsettledAtRest(w: Workflow, env: Env, seed: map<nat, Value>, fates: Fates, rank: seq<nat>,
                        s: State, disp: Dispositions, n: nat)
    requires Comparable(w, env, seed, fates) && OnCourse(w, env, seed, fates, s, disp)
    requires IsRank(w.graph, rank) && Live(w, s, disp) && Quiescent(s)
    requires n in fates && fates[n].Ran?
    ensures n in disp
  {
    RestIsFate(w, env, seed, fates, rank, s, disp, n);
  }

  lemma CourseStaysLive(w: Workflow, env: Env, seed: map<nat, Value>, fates: Fates,
                        s: State, disp: Dispositions, e: Event, s': State, disp': Dispositions)
    requires Comparable(w, env, seed, fates) && Live(w, s, disp)
    requires Enabled(w, s, e) && StepOk(w, s, disp, e, s', disp') && s'.status == Running
    ensures Live(w, s', disp')
  {
    hide WellFormed, Solves, Live, StepOk;
    StepStaysLive(w, s, disp, e, s', disp');
  }

  lemma LaunchedFirst(job: Job, rest: seq<Job>)
    ensures LaunchesNode([job] + rest, job.node)
  {
    assert ([job] + rest)[0] == job;
  }

  /** Only wanted nodes are launched. */
  lemma {:induction false} LaunchedAreWanted(w: Workflow, env: Env, seed: map<nat, Value>, fates: Fates,
                                             s: State, disp: Dispositions, events: seq<Event>, n: nat)
    requires Comparable(w, env, seed, fates) && w.chains == []
    requires OnCourse(w, env, seed, fates, s, disp) && s.status == Running
    requires Driven(w, env, s, events) && IsRun(w, s, events)
    requires LaunchesNode(Launched(w, s, events), n)
    ensures Wants(w, env, fates, n)
    decreases |events|
  {
    var e, s' := events[0], Step(w, s, events[0]);
    var rest := Launched(w, s', events[1..]);
    hide Inv, Step, Comparable, Faithful, OnCourse, StepOk, Settles, Follows, Launches, Wants;
    if Launches(w, s, e) && PoppedJob(w, s, e.index).node == n {
      FrontIsWanted(w, env, seed, fates, s, disp, e);
    } else {
      NotLaunchedFirst(if Launches(w, s, e) then [PoppedJob(w, s, e.index)] else [], rest, n);
      LaunchingRunsRun(w, s', events[1..], n);
      var disp' := StepStaysOnCourse(w, env, seed, fates, s, disp, e);
      LaunchedAreWanted(w, env, seed, fates, s', disp', events[1..], n);
    }
  }

  lemma LaunchingRunsRun(w: Workflow, s: State, events: seq<Event>, n: nat)
    requires IsRun(w, s, events) && LaunchesNode(Launched(w, s, events), n)
    ensures s.status == Running
  {
  }

  lemma FrontIsWanted(w: Workflow, env: Env, seed: map<nat, Value>, fates: Fates, s: State, disp: Dispositions,
                      e: Event)
    requires Comparable(w, env, seed, fates) && OnCourse(w, env, seed, fates, s, disp) && w.chains == []
    requires Enabled(w, s, e) && Follows(w, env, s, e) && Launches(w, s, e)
    ensures Wants(w, env, fates, PoppedJob(w, s, e.index).node)
  {
    PoppedIsTaken(w, s, disp, e.index);
    DueArrives(w, seed, fates, s, disp, s.ready[e.index]);
    hide Comparable, OnCourse, Inv, Gather;
  }

  lemma NotLaunchedFirst(jobs: seq<Job>, rest: seq<Job>, n: nat)
    requires LaunchesNode(jobs + rest, n) && forall i | 0 <= i < |jobs| :: jobs[i].node != n
    ensures LaunchesNode(rest, n)
  {
    var i :| 0 <= i < |jobs + rest| && (jobs + rest)[i].node == n;
    assert rest[i - |jobs|].node == n;
  }

  /** A resumed run that completes dispatches exactly the unseeded nodes that the environment
      wants dispatched, each of them once. */
  lemma ResumeDispatchesTheRest(w: Workflow, env: Env, seed: map<nat, Value>, events: seq<Event>, n: nat)
    requires Resumable(w) && w.chains == [] && Acyclic(w.graph) && Startable(w, seed)
    requires Driven(w, env, Start(w, seed), events) && IsRun(w, Start(w, seed), events)
    requires Quiescent(After(w, Start(w, seed), events)) && n < w.graph.size
    ensures var results := After(w, Start(w, seed), events).results;
            LaunchesNode(Launched(w, Start(w, seed), events), n)
            <==> n !in seed && env.preflight(n, InputsOf(w.graph, results, n)) == Dispatch
    ensures var jobs := Launched(w, Start(w, seed), events);
            forall i, j | 0 <= i < j < |jobs| :: jobs[i].node != jobs[j].node
  {
    var rank :| IsRank(w.graph, rank);
    var fates := EvaluationSolves(w, env, seed, rank);
    var s, disp := Start(w, seed), SeedDispositions(w.graph, seed);
    StartIsLive(w, seed);
    StartIsFaithful(w, env, seed, fates);
    DispatchedAtMostOnce(w, seed, events);
    assert Wanted(env, s.executing) && s.executing == [];
    assert n in disp <==> n in seed;
    FinalInputsAreFateInputs(w, env, seed, fates, events, n);
    hide Inv, Live, Solves, WellFormed, Faithful, Wanted, NoConditions, NoErrorEdges, IsRank, Launched, After;
    hide IsRun, Driven;
    if LaunchesNode(Launched(w, s, events), n) {
      LaunchedAreWanted(w, env, seed, fates, s, disp, events, n);
    } else if n !in seed && Wants(w, env, fates, n) {
      WantedAreLaunched(w, env, seed, fates, rank, s, disp, events, n);
    }
  }

  lemma FinalResultIsFate(w: Workflow, env: Env, seed: map<nat, Value>, fates: Fates, events: seq<Event>, n: nat)
    requires Resumable(w) && w.chains == [] && Acyclic(w.graph) && Startable(w, seed) && Solves(w, env, seed, fates)
    requires Driven(w, env, Start(w, seed), events) && IsRun(w, Start(w, seed), events)
    requires Quiescent(After(w, Start(w, seed), events)) && n < w.graph.size
    ensures fates[n].Ran? && Lookup(After(w, Start(w, seed), events).results, n) == Some(fates[n].value)
  {
    assert !NonTail(w.chains, n);
    hide After, IsRun, Driven, Start, NoConditions, NoErrorEdges, Judge, Startable, WellFormed, Acyclic, NonTail;
    QuiescentRunsAreComplete(w, seed, events, n);
    QuiescentRunsComputeFates(w, env, seed, fates, events, n);
    NothingMarkedWithoutErrors(w, env, seed, fates, n);
  }

  lemma FinalInputsAreFateInputs(w: Workflow, env: Env, seed: map<nat, Value>, fates: Fates, events: seq<Event>, n: nat)
    requires Resumable(w) && w.chains == [] && Acyclic(w.graph) && Startable(w, seed) && Solves(w, env, seed, fates)
    requires Driven(w, env, Start(w, seed), events) && IsRun(w, Start(w, seed), events)
    requires Quiescent(After(w, Start(w, seed), events)) && n < w.graph.size
    ensures InputsOf(w.graph, After(w, Start(w, seed), events).results, n) == FateInputs(w.graph, fates, n)
    ensures fates[n].Ran?
  {
    var r := After(w, Start(w, seed), events).results;
    hide After, IsRun, Driven, Start, NoConditions, NoErrorEdges, Judge, Startable, Acyclic, ChainsOk, Gather;
    forall i | i in InEdges(w.graph, n)
      ensures var p := w.graph.edges[i].src; p in r && p in Values(fates) && r[p] == Values(fates)[p]
    {
      FinalResultIsFate(w, env, seed, fates, events, w.graph.edges[i].src);
    }
    FinalResultIsFate(w, env, seed, fates, events, n);
    GatherSame(w.graph, r, Values(fates), n, |w.graph.edges|);
  }

  lemma NothingMarkedWithoutErrors(w: Workflow, env: Env, seed: map<nat, Value>, fates: Fates, n: nat)
    requires NoErrorEdges(w.graph) && Solves(w, env, seed, fates) && n in fates
    ensures fates[n] != SkipMarked
  {
    NothingRefuses(w, env, seed, fates, n);
    assert fates[n] == Judge(w, env, seed, fates, n);
    hide Refused, Arrived, Gather, Solves, NoErrorEdges, Entry, Started;
    NeverSkippedOnStart(w, env, n, FateInputs(w.graph, fates, Entry(w, n)));
  }

  lemma NothingRefuses(w: Workflow, env: Env, seed: map<nat, Value>, fates: Fates, n: nat)
    requires NoErrorEdges(w.graph) && Solves(w, env, seed, fates)
    ensures !Refused(w.graph, fates, n)
  {
    hide Solves;
    forall i | i in InEdges(w.graph, n) ensures !Refuses(w.graph, fates, i) {
      if w.graph.edges[i].src in fates { UnroutedFate(w, env, seed, fates, w.graph.edges[i].src); }
    }
  }

  lemma NeverSkippedOnStart(w: Workflow, env: Env, n: nat, inputs: Inputs)
    ensures Started(w, env, n, inputs) != SkipMarked
  {
    hide RoutesErrors, Compose, ChainAt;
  }
}
