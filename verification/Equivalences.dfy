/** Consequences of the main theorem: which choices cannot change what a workflow computes. */
module Equivalences {
  import opened Graphs
  import opened Scheduler
  import opened SchedulerInvariant
  import opened SchedulerSteps
  import opened SchedulerRuns
  import opened Fates
  import opened Meaning

  // ----- runs only write to nodes of the graph -----

  lemma {:induction false} WalkWritesNodes(w: Workflow, s: State, u: nat, walk: Walk, k: nat)
    requires Valid(w.graph) && k <= |w.graph.edges|
    ensures forall n | n in WalkEdges(w, s, u, walk, k).results :: n in s.results || n < w.graph.size
    decreases k
  {
    if k > 0 {
      var e := w.graph.edges[k - 1];
      WalkWritesNodes(w, if e.src == u then VisitEdge(w, s, u, e.dst, walk) else s, u, walk, k - 1);
    }
  }

  lemma CompletionWritesNodes(w: Workflow, s: State, u: nat, outcome: Result<string>, n: nat)
    requires Valid(w.graph) && u < w.graph.size && n in Complete(w, s, u, outcome).results
    ensures n in s.results || n < w.graph.size
  {
    forall s1, walk
      ensures forall m | m in WalkAll(w, s1, u, walk).results :: m in s1.results || m < w.graph.size
    {
      WalkWritesNodes(w, s1, u, walk, |w.graph.edges|);
    }
    hide WalkEdges, ErrorBetween, RoutesErrors, ClearChain;
  }

  lemma PopWritesNodes(w: Workflow, s: State, i: nat, decision: Decision, n: nat)
    requires Valid(w.graph) && i < |s.ready| && s.ready[i] < w.graph.size
    requires n in PopStep(w, s, i, decision).results
    ensures n in s.results || n < w.graph.size
  {
    hide WalkEdges, Gather, Fail;
    var u := s.ready[i];
    if ChainOf(w.chains, u).None? {
      if decision.Resolve? {
        WalkWritesNodes(w, s.(ready := Without(s.ready, i), results := s.results[u := decision.value]), u, OnUnblock,
                        |w.graph.edges|);
      } else if decision.Reject? {
        CompletionWritesNodes(w, s.(ready := Without(s.ready, i)), u, Err(decision.message), n);
      }
    }
  }

  lemma StepWritesNodes(w: Workflow, s: State, disp: Dispositions, e: Event, n: nat)
    requires WellFormed(w) && Inv(w, s, disp, {}) && Enabled(w, s, e) && n in Step(w, s, e).results
    ensures n in s.results || n < w.graph.size
  {
    hide Inv, ChainsOk, Complete, PopStep, Reporter;
    match e
    case Finish(i, outcome) =>
      ReporterInGraph(w, s, disp, i);
      CompletionWritesNodes(w, s.(executing := Without(s.executing, i)),
                            Reporter(w, s.executing[i]), outcome, n);
    case Pop(i, decision) =>
      PoppedIsTaken(w, s, disp, i);
      PopWritesNodes(w, s, i, decision, n);
  }

  lemma {:induction false} RunWritesNodes(w: Workflow, s: State, disp: Dispositions, events: seq<Event>, n: nat)
    requires WellFormed(w) && IsRun(w, s, events) && (s.status == Running ==> Inv(w, s, disp, {}))
    requires n in After(w, s, events).results
    ensures n in s.results || n < w.graph.size
    decreases |events|
  {
    hide Inv, Step, Settles, WellFormed, Extends, NextExecuting, Records, Live, Grows;
    if events != [] {
      var disp' := StepKeeps(w, s, disp, events[0]);
      RunWritesNodes(w, Step(w, s, events[0]), disp', events[1..], n);
      if n in Step(w, s, events[0]).results { StepWritesNodes(w, s, disp, events[0], n); }
    }
  }

  // ----- schedule independence -----

  /** Nothing more can happen: the loop has exited, or the run was aborted or paused. */
  predicate Maximal(s: State) {
    s.status != Running || Quiescent(s)
  }

  /** A maximal run completes exactly when no node's fate ends it. */
  lemma CompletesIffNothingEnds(w: Workflow, env: Env, seed: map<nat, Value>, fates: Fates, events: seq<Event>)
    requires Startable(w, seed) && Acyclic(w.graph) && NoConditions(w.graph)
    requires Solves(w, env, seed, fates) && Driven(w, env, Start(w, seed), events)
    ensures IsRun(w, Start(w, seed), events)
    ensures Maximal(After(w, Start(w, seed), events)) ==>
              (Quiescent(After(w, Start(w, seed), events)) <==> forall n | n in fates :: fates[n] != Ends)
  {
    var s := Start(w, seed);
    DrivenIsRun(w, env, s, events);
    var t := After(w, s, events);
    StartIsLive(w, seed);
    StartIsFaithful(w, env, seed, fates);
    hide Inv, Live, Faithful, WellFormed, NoConditions;
    var _ := DrivenRunStaysOnCourse(w, env, seed, fates, s, SeedDispositions(w.graph, seed), events);
    if Quiescent(t) {
      forall n | n in fates ensures fates[n] != Ends {
        QuiescentRunsComputeFates(w, env, seed, fates, events, n);
      }
    }
  }

  lemma ResultsAgree(w: Workflow, seed: map<nat, Value>, w': Workflow, seed': map<nat, Value>,
                     events: seq<Event>, events': seq<Event>)
    requires Startable(w, seed) && Startable(w', seed') && w'.graph == w.graph
    requires IsRun(w, Start(w, seed), events) && IsRun(w', Start(w', seed'), events')
    requires forall n: nat | n < w.graph.size ::
               Lookup(After(w, Start(w, seed), events).results, n)
                   == Lookup(After(w', Start(w', seed'), events').results, n)
    requires forall n | n >= w.graph.size :: Lookup(seed, n) == Lookup(seed', n)
    ensures After(w, Start(w, seed), events).results == After(w', Start(w', seed'), events').results
  {
    var r, r' := After(w, Start(w, seed), events).results, After(w', Start(w', seed'), events').results;
    StartIsLive(w, seed);
    StartIsLive(w', seed');
    assert Start(w, seed).results == seed && Start(w', seed').results == seed';
    hide Inv, Live, WellFormed, After, IsRun, Startable, Start;
    var _ := RunKeeps(w, Start(w, seed), SeedDispositions(w.graph, seed), events);
    var _ := RunKeeps(w', Start(w', seed'), SeedDispositions(w'.graph, seed'), events');
    forall n: nat ensures Lookup(r, n) == Lookup(r', n) {
      if n in r { RunWritesNodes(w, Start(w, seed), SeedDispositions(w.graph, seed), events, n); }
      if n in r' { RunWritesNodes(w', Start(w', seed'), SeedDispositions(w'.graph, seed'), events', n); }
      if n >= w.graph.size {
        assert Lookup(seed, n) == Lookup(seed', n);
      }
    }
    SameLookups(r, r');
  }

  lemma SameLookups(r: map<nat, Value>, r': map<nat, Value>)
    requires forall n: nat :: Lookup(r, n) == Lookup(r', n)
    ensures r == r'
  {
    assert forall n | n in r :: Lookup(r, n) == Lookup(r', n);
    assert forall n | n in r' :: Lookup(r, n) == Lookup(r', n);
  }

  /** Schedule independence.  Two runs to the end of the same workflow in the same environment
      either both complete, with the same `results`, or neither completes: with or without
      batching, and whatever fails. */
  lemma ScheduleIndependence(w: Workflow, env: Env, seed: map<nat, Value>, events: seq<Event>, events': seq<Event>)
    requires Startable(w, seed) && Acyclic(w.graph) && NoConditions(w.graph)
    requires Driven(w, env, Start(w, seed), events) && Driven(w, env, Start(w, seed), events')
    ensures IsRun(w, Start(w, seed), events) && IsRun(w, Start(w, seed), events')
    ensures var t, t' := After(w, Start(w, seed), events), After(w, Start(w, seed), events');
            Maximal(t) && Maximal(t') ==>
              && (Quiescent(t) <==> Quiescent(t'))
              && (Quiescent(t) ==> t.results == t'.results)
  {
    var s := Start(w, seed);
    DrivenIsRun(w, env, s, events);
    DrivenIsRun(w, env, s, events');
    var rank :| IsRank(w.graph, rank);
    var fates := EvaluationSolves(w, env, seed, rank);
    var t, t' := After(w, s, events), After(w, s, events');
    hide Startable, NoConditions, After, IsRun, Driven, Solves, Start;
    if Maximal(t) && Maximal(t') {
      CompletesIffNothingEnds(w, env, seed, fates, events);
      CompletesIffNothingEnds(w, env, seed, fates, events');
      if Quiescent(t) {
        forall n: nat | n < w.graph.size ensures Lookup(t.results, n) == Lookup(t'.results, n) {
          QuiescentRunsComputeFates(w, env, seed, fates, events, n);
          QuiescentRunsComputeFates(w, env, seed, fates, events', n);
        }
        ResultsAgree(w, seed, w, seed, events, events');
      }
    }
  }

  // ----- batching -----

  /** Chain members are plain modules: nothing decides about them before the dispatch, those
      before the tail succeed, and no edge inside a chain is an error edge. */
  ghost predicate MembersSucceed(w: Workflow, env: Env) {
    forall k, j | 0 <= k < |w.chains| && 0 <= j < |w.chains[k]| :: MemberSucceeds(w, env, k, j)
  }

  ghost predicate MemberSucceeds(w: Workflow, env: Env, k: nat, j: nat)
    requires k < |w.chains| && j < |w.chains[k]|
  {
    && (forall inputs :: env.preflight(w.chains[k][j], inputs) == Dispatch)
    && (j < |w.chains[k]| - 1 ==>
          && (forall inputs :: env.dispatch(w.chains[k][j], inputs).Ok?)
          && !ErrorBetween(w.graph, w.chains[k][j], w.chains[k][j + 1]))
  }

  lemma MembersAreBatchable(w: Workflow, env: Env, fates: Fates)
    requires MembersSucceed(w, env)
    ensures Batchable(w, env, fates)
  {
    forall k, j | 0 <= k < |w.chains| && 0 <= j < |w.chains[k]|
      ensures BatchableMember(w, env, fates, k, j)
    {
      assert MemberSucceeds(w, env, k, j);
    }
  }

  /** Then every chain is kept, whatever the inputs that reach it. */
  lemma SucceedingMembersKeep(w: Workflow, env: Env, fates: Fates)
    requires WellFormed(w) && Solves(Unbatched(w), env, map[], fates) && MembersSucceed(w, env)
    ensures ChainsKept(w, env, fates)
  {
    MembersAreBatchable(w, env, fates);
    hide WellFormed, Solves, MembersSucceed, Batchable, ChainKept;
    forall k | 0 <= k < |w.chains| ensures ChainKept(w, env, fates, k) { BatchableIsKept(w, env, fates, k); }
  }

  /** Batching preserves meaning.  Suppose that every chain that can start is kept, or ends both
      runs.  A batched run completes exactly when the per-node run does, and then leaves every
      chain tail and every node outside the chains the same result, and nothing for a member
      before its tail that ran. */
  lemma BatchingPreservesMeaning(w: Workflow, env: Env, fates: Fates, batched: seq<Event>, single: seq<Event>, n: nat)
    requires WellFormed(w) && Acyclic(w.graph) && NoConditions(w.graph)
    requires Solves(Unbatched(w), env, map[], fates) && KeptOrEnded(w, env, fates)
    requires Driven(w, env, Start(w, map[]), batched) && Driven(Unbatched(w), env, Start(Unbatched(w), map[]), single)
    requires n < w.graph.size
    ensures IsRun(w, Start(w, map[]), batched) && IsRun(Unbatched(w), Start(Unbatched(w), map[]), single)
    ensures var t, t' := After(w, Start(w, map[]), batched), After(Unbatched(w), Start(Unbatched(w), map[]), single);
            Maximal(t) && Maximal(t') ==>
              && (Quiescent(t) <==> Quiescent(t'))
              && (Quiescent(t) ==>
                    Lookup(t.results, n)
                    == if NonTail(w.chains, n) && fates[n].Ran? then None else Lookup(t'.results, n))
  {
    var w' := Unbatched(w);
    DrivenIsRun(w, env, Start(w, map[]), batched);
    DrivenIsRun(w', env, Start(w', map[]), single);
    var rank :| IsRank(w.graph, rank);
    assert n in fates && w'.graph == w.graph;
    hide *;
    StartableEitherWay(w);
    var fates' := EvaluationSolves(w, env, map[], rank);
    EndsAlike(w, env, rank, fates, fates');
    CompletesIffNothingEnds(w, env, map[], fates', batched);
    CompletesIffNothingEnds(w', env, map[], fates, single);
    if Quiescent(After(w, Start(w, map[]), batched)) && Quiescent(After(w', Start(w', map[]), single)) {
      QuiescentRunsComputeFates(w, env, map[], fates', batched, n);
      QuiescentRunsComputeFates(w', env, map[], fates, single, n);
      CarriedResult(w, fates, n);
    }
  }

  lemma StartableEitherWay(w: Workflow)
    requires WellFormed(w)
    ensures Startable(w, map[]) && Startable(Unbatched(w), map[]) && ChainsOk(w.graph, w.chains)
  {
  }

  /** A carried member leaves nothing; the others leave what they leave node by node. */
  lemma CarriedResult(w: Workflow, fates: Fates, n: nat)
    requires n in fates
    ensures ResultOf(Carry(w, fates)[n]) == if NonTail(w.chains, n) && fates[n].Ran? then None else ResultOf(fates[n])
  {
  }
}
