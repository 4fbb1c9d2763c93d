/** Conditional edges.  When the outcome of a join depends on the completion order, and which
    nodes a run with conditions leaves without a result. */
module Conditions {
  import opened Graphs
  import opened Scheduler
  import opened SchedulerInvariant
  import opened SchedulerSteps
  import opened SchedulerRuns
  import opened Fates
  import opened Meaning

  // ----- conditions, on the edges -----

  /** Every condition on the edges from u to c holds of the output. */
  predicate ConditionsHold(w: Workflow, u: nat, c: nat, output: Value) {
    forall i | 0 <= i < |w.graph.edges| && Joins(w.graph, i, u, c) && w.graph.edges[i].condition.Some? ::
      w.policy.holds(w.graph.edges[i].condition.value, output)
  }

  lemma ConditionFailsIff(w: Workflow, u: nat, c: nat, output: Value)
    ensures ConditionFails(w, u, c, output) <==> !ConditionsHold(w, u, c, output)
  {
    if ConditionFails(w, u, c, output) {
      var i :| 0 <= i < |w.graph.edges| && w.graph.edges[i].src == u && w.graph.edges[i].dst == c
               && w.graph.edges[i].condition.Some? && !w.policy.holds(w.graph.edges[i].condition.value, output);
      assert Joins(w.graph, i, u, c);
    }
  }

  // ----- the last parent decides -----

  /** c has been skipped, or it has been enqueued. */
  predicate Decided(s: State, c: nat, skipped: bool) {
    if skipped then c in s.results && s.results[c] == Skipped && c !in s.ready
    else c in s.ready && c !in s.results
  }

  lemma SkippedIsNotQueued(w: Workflow, s: State, disp: Dispositions, s': State, disp': Dispositions, c: nat)
    requires c in disp && c in s.results && s.results[c] == Skipped
    requires Extends(w, disp, s', disp') && Grows(s, s') && Inv(w, s', disp', {})
    ensures Decided(s', c, true)
  {
    assert Queued(w, s', disp', {});
    hide Inv, Waiting, Inner, SelfFed;
  }

  lemma EnqueuedStaysQueued(w: Workflow, s: State, s': State, disp': Dispositions, c: nat)
    requires c in s.ready && s.ready <= s'.ready && Inv(w, s', disp', {})
    ensures Decided(s', c, false)
  {
    assert Queued(w, s', disp', {}) && Marked(w, s', disp', {});
    hide Inv, Waiting, Inner;
    DueHasNoResult(w, s', disp', {}, c);
  }

  /** A visit of another child leaves the edges that c awaits from u as they are. */
  lemma OtherVisitLeavesWaiting(w: Workflow, s: State, disp: Dispositions, todo: set<nat>, u: nat, walk: Walk, i: nat,
                                disp1: Dispositions, c: nat)
    requires WellFormed(w) && Inv(w, s, disp, todo) && Walking(w, disp, todo, u, walk) && i in todo
    requires w.graph.edges[i].dst != c && Waiting(w.graph, disp, todo, c) <= todo
    requires disp1 == if Delivers(w.graph, disp[u], i) && SkipsChild(w, s, u, w.graph.edges[i].dst, walk)
                      then disp[w.graph.edges[i].dst := Opened] else disp
    ensures Waiting(w.graph, disp1, todo - {i}, c) == Waiting(w.graph, disp, todo, c)
  {
    hide Inv, WellFormed, SkipsChild, NonTail;
    var g, d := w.graph, w.graph.edges[i].dst;
    if Delivers(g, disp[u], i) {
      CountAwaited(w, s, disp, todo, i);
      DeliveredNoLongerWaited(g, disp, todo, i);
      if SkipsChild(w, s, u, d, walk) {
        OpenedNoLongerWaited(g, disp, todo - {i}, d);
        assert Targets(g, d, c, |g.edges|) <= todo <= OutEdges(g, u);
        assert Targets(g, d, c, |g.edges|) == {};
      }
    } else {
      DeadStillWaited(g, disp, todo, i);
    }
  }

  /** One more visit, whatever it does to its child. */
  lemma OneVisit(w: Workflow, s: State, disp: Dispositions, todo: set<nat>, u: nat, walk: Walk, i: nat)
    returns (disp1: Dispositions)
    requires WellFormed(w) && Inv(w, s, disp, todo) && Walking(w, disp, todo, u, walk) && i in todo
    ensures var s1 := VisitEdge(w, s, u, w.graph.edges[i].dst, walk);
            Inv(w, s1, disp1, todo - {i}) && Walking(w, disp1, todo - {i}, u, walk)
    ensures disp1 == if Delivers(w.graph, disp[u], i) && SkipsChild(w, s, u, w.graph.edges[i].dst, walk)
                     then disp[w.graph.edges[i].dst := Opened] else disp
  {
    hide Inv, WellFormed, VisitEdge, SkipsChild, StalledNodes, NonTail, StrandedByVisit;
    disp1 := disp;
    if Delivers(w.graph, disp[u], i) {
      disp1 := VisitDelivered(w, s, disp, todo, u, walk, i);
    } else {
      VisitDead(w, s, disp, todo, u, walk, i);
    }
  }

  lemma NextBelow(g: Graph, u: nat, k: nat)
    requires 0 < k <= |g.edges|
    ensures if g.edges[k - 1].src == u then k - 1 in Below(g, u, k) && Below(g, u, k - 1) == Below(g, u, k) - {k - 1}
            else Below(g, u, k - 1) == Below(g, u, k)
  {
  }

  lemma PlainEdgeDelivers(w: Workflow, disp: Dispositions, todo: set<nat>, u: nat, output: Value, i: nat, c: nat)
    requires Walking(w, disp, todo, u, OnSuccess(output)) && !ErrorBetween(w.graph, u, c)
    requires i < |w.graph.edges| && w.graph.edges[i].src == u && w.graph.edges[i].dst == c
    ensures u in disp && Delivers(w.graph, disp[u], i)
  {
  }

  /** An awaited edge that is not the last one only counts. */
  lemma EdgeIsCounted(w: Workflow, s: State, disp: Dispositions, u: nat, output: Value, k: nat, c: nat)
    requires WellFormed(w) && 0 < k <= |w.graph.edges| && !ErrorBetween(w.graph, u, c)
    requires Inv(w, s, disp, Below(w.graph, u, k)) && Walking(w, disp, Below(w.graph, u, k), u, OnSuccess(output))
    requires w.graph.edges[k - 1].src == u && w.graph.edges[k - 1].dst == c
    ensures c in s.pending
    ensures s.pending[c] != 1 ==>
              var s1, todo1 := VisitEdge(w, s, u, c, OnSuccess(output)), Below(w.graph, u, k - 1);
              && Inv(w, s1, disp, todo1) && Walking(w, disp, todo1, u, OnSuccess(output))
              && Waiting(w.graph, disp, todo1, c) == Waiting(w.graph, disp, Below(w.graph, u, k), c) - {k - 1}
              && Waiting(w.graph, disp, todo1, c) != {}
  {
    var todo := Below(w.graph, u, k);
    hide Inv, WellFormed, VisitEdge, SkipsChild, NonTail, Waiting, Below, ErrorBetween;
    NextBelow(w.graph, u, k);
    PlainEdgeDelivers(w, disp, todo, u, output, k - 1, c);
    DeliveringVisit(w, s, disp, todo, u, OnSuccess(output), k - 1);
    CountKeeps(w, s, disp, todo, k - 1);
    DeliveredNoLongerWaited(w.graph, disp, todo, k - 1);
  }

  /** The last awaited edge decides, and the rest of the walk leaves the decision alone. */
  lemma LastEdgeDecides(w: Workflow, s: State, disp: Dispositions, u: nat, output: Value, k: nat, c: nat)
    requires WellFormed(w) && 0 < k <= |w.graph.edges| && !ErrorBetween(w.graph, u, c)
    requires Inv(w, s, disp, Below(w.graph, u, k)) && Walking(w, disp, Below(w.graph, u, k), u, OnSuccess(output))
    requires w.graph.edges[k - 1].src == u && w.graph.edges[k - 1].dst == c && c in s.pending && s.pending[c] == 1
    ensures Decided(WalkEdges(w, s, u, OnSuccess(output), k), c, ConditionFails(w, u, c, output))
  {
    var todo, walk := Below(w.graph, u, k), OnSuccess(output);
    var s1 := VisitEdge(w, s, u, c, walk);
    hide Inv, WellFormed, VisitEdge, Below, SkipsChild, NonTail, Waiting, Decided, Cascade, StalledNodes;
    hide ConditionFails, ErrorBetween;
    NextBelow(w.graph, u, k);
    PlainEdgeDelivers(w, disp, todo, u, output, k - 1, c);
    DeliveringVisit(w, s, disp, todo, u, walk, k - 1);
    var disp1 := OneVisit(w, s, disp, todo, u, walk, k - 1);
    var disp' := WalkKeeps(w, s1, disp1, u, walk, k - 1);
    var s' := WalkEdges(w, s1, u, walk, k - 1);
    if SkipsChild(w, s, u, c, walk) {
      SkippedIsNotQueued(w, s1, disp1, s', disp', c);
    } else {
      EnqueuedStaysQueued(w, s1, s', disp', c);
    }
  }

  /** When everything c still waits for comes from u, the walk from u decides c: it is skipped
      exactly when a condition on u's edges to it fails, whatever the parents before u said. */
  lemma {:induction false} LastParentDecides(w: Workflow, s: State, disp: Dispositions, u: nat, output: Value,
                                             k: nat, c: nat)
    requires WellFormed(w) && k <= |w.graph.edges| && !ErrorBetween(w.graph, u, c)
    requires Inv(w, s, disp, Below(w.graph, u, k)) && Walking(w, disp, Below(w.graph, u, k), u, OnSuccess(output))
    requires Waiting(w.graph, disp, Below(w.graph, u, k), c) != {}
    requires Waiting(w.graph, disp, Below(w.graph, u, k), c) <= Below(w.graph, u, k)
    ensures Decided(WalkEdges(w, s, u, OnSuccess(output), k), c, ConditionFails(w, u, c, output))
    decreases k
  {
    hide Inv, WellFormed, Waiting, VisitEdge, Decided, ConditionFails, SkipsChild, ErrorBetween, NonTail, Walking;
    var g, walk, i := w.graph, OnSuccess(output), k - 1;
    if k > 0 {
      NextBelow(g, u, k);
      var s1 := VisitEdge(w, s, u, g.edges[i].dst, walk);
      if g.edges[i].src != u {
        LastParentDecides(w, s, disp, u, output, i, c);
      } else if g.edges[i].dst == c {
        EdgeIsCounted(w, s, disp, u, output, k, c);
        if s.pending[c] == 1 {
          LastEdgeDecides(w, s, disp, u, output, k, c);
        } else {
          LastParentDecides(w, s1, disp, u, output, i, c);
        }
      } else {
        var disp1 := OneVisit(w, s, disp, Below(g, u, k), u, walk, i);
        OtherVisitLeavesWaiting(w, s, disp, Below(g, u, k), u, walk, i, disp1, c);
        OtherEdgeIsNotAwaited(g, disp, Below(g, u, k), i, c);
        LastParentDecides(w, s1, disp1, u, output, i, c);
      }
    }
  }

  lemma OtherEdgeIsNotAwaited(g: Graph, disp: Dispositions, todo: set<nat>, i: nat, c: nat)
    requires i < |g.edges| && g.edges[i].dst != c
    ensures i !in Waiting(g, disp, todo, c)
  {
  }

  // ----- the finish of the last awaited job -----

  /** A tail feeds nobody in its own chain. */
  lemma TailFeedsOutside(w: Workflow, k: nat, i: nat)
    requires WellFormed(w) && k < |w.chains| && w.chains[k] != [] && i < |w.graph.edges|
    requires w.graph.edges[i].src == Last(w.chains[k])
    ensures w.graph.edges[i].dst in w.chains[k] ==> w.graph.edges[i].dst == w.chains[k][0]
  {
    var c := w.chains[k];
    ChainFacts(w, k);
    if w.graph.edges[i].dst in c {
      var j :| 0 <= j < |c| && c[j] == w.graph.edges[i].dst;
      if j > 0 { ChainFedFromWithin(w, k, j, i); }
    }
  }

  /** Settling a job changes nothing for a node that still waits for it. */
  lemma AwaitedBySettled(w: Workflow, s: State, disp: Dispositions, job: Job, d: Disposition, c: nat, i: nat)
    requires WellFormed(w) && Inv(w, s, disp, {}) && Settling(w, s, disp, job)
    requires i in Waiting(w.graph, disp, {}, c) && w.graph.edges[i].src == Reporter(w, job)
    ensures Waiting(w.graph, SettleJob(w, disp, job, d), OutEdges(w.graph, Reporter(w, job)), c)
         == Waiting(w.graph, disp, {}, c)
  {
    hide WellFormed, Inv, Idle, SettleChain, Waiting, Inner;
    assert i < |w.graph.edges| && w.graph.edges[i].dst == c by { WaitedEdge(w.graph, disp, {}, c, i); }
    match job.chain
    case None =>
      NotSettled(w, s, disp, job.node);
      NotYetVisited(w.graph, disp, job.node, d);
    case Some(k) =>
      ChainUntouched(w, s, disp, k);
      TailFeedsOutside(w, k, i);
      ChainWaitingAt(w, disp, k, d, c);
  }

  lemma WaitedEdge(g: Graph, disp: Dispositions, todo: set<nat>, n: nat, i: nat)
    requires i in Waiting(g, disp, todo, n)
    ensures i < |g.edges| && g.edges[i].dst == n
  {
  }

  /** The job that c still waits for finishes: c is skipped or enqueued, as its condition says. */
  lemma LastJobDecides(w: Workflow, s: State, disp: Dispositions, idx: nat, raw: string, c: nat)
    requires WellFormed(w) && Inv(w, s, disp, {}) && Enabled(w, s, Finish(idx, Ok(raw)))
    requires var u := Reporter(w, s.executing[idx]);
             && !ErrorBetween(w.graph, u, c) && Waiting(w.graph, disp, {}, c) != {}
             && forall i | i in Waiting(w.graph, disp, {}, c) :: w.graph.edges[i].src == u
    ensures Decided(Step(w, s, Finish(idx, Ok(raw))), c,
                    ConditionFails(w, Reporter(w, s.executing[idx]), c, Admit(w.policy, raw)))
  {
    var job := s.executing[idx];
    assert idx < |s.executing|;
    hide *;
    TakeJob(w, s, disp, idx);
    TakenJobSettles(w, s, disp, idx);
    JobOut(w, s, s.(executing := Without(s.executing, idx)), idx, raw);
    SuccessDecides(w, s.(executing := Without(s.executing, idx)), disp, job, raw, c);
  }

  lemma JobOut(w: Workflow, s: State, s1: State, idx: nat, raw: string)
    requires Enabled(w, s, Finish(idx, Ok(raw))) && s1 == s.(executing := Without(s.executing, idx))
    ensures var u, v := Reporter(w, s.executing[idx]), Admit(w.policy, raw);
            Step(w, s, Finish(idx, Ok(raw)))
            == WalkEdges(w, Record(s1, u, v).(pending := ClearChain(w, u, s1.pending)), u, OnSuccess(v),
                         |w.graph.edges|)
  {
    hide WalkEdges, Reporter, ClearChain, Admit;
  }

  lemma SuccessDecides(w: Workflow, s: State, disp: Dispositions, job: Job, raw: string, c: nat)
    requires WellFormed(w) && Inv(w, s, disp, {}) && Settling(w, s, disp, job)
    requires var u := Reporter(w, job);
             && !ErrorBetween(w.graph, u, c) && Waiting(w.graph, disp, {}, c) != {}
             && forall i | i in Waiting(w.graph, disp, {}, c) :: w.graph.edges[i].src == u
    ensures var u, v := Reporter(w, job), Admit(w.policy, raw);
            Decided(WalkEdges(w, Record(s, u, v).(pending := ClearChain(w, u, s.pending)), u, OnSuccess(v),
                              |w.graph.edges|),
                    c, ConditionFails(w, u, c, v))
  {
    var g, u, v := w.graph, Reporter(w, job), Admit(w.policy, raw);
    var p := ClearChain(w, u, s.pending);
    hide *;
    var i :| i in Waiting(g, disp, {}, c);
    CountedOf(w, s, disp);
    ClearChainClears(w, s, disp, job);
    SettleJobKeeps(w, s, disp, job, v, Succeeded, p);
    AwaitedBySettled(w, s, disp, job, Succeeded, c, i);
    AllBelow(w, SettleJob(w, disp, job, Succeeded), u, v);
    forall e | e in Waiting(g, disp, {}, c) ensures e in OutEdges(g, u) {
      WaitedEdge(g, disp, {}, c, e);
      EdgeLeaves(g, u, e);
    }
    LastParentDecides(w, Record(s, u, v).(pending := p), SettleJob(w, disp, job, Succeeded), u, v, |g.edges|, c);
  }

  lemma EdgeLeaves(g: Graph, u: nat, i: nat)
    requires i < |g.edges| && g.edges[i].src == u
    ensures i in OutEdges(g, u)
  {
  }

  lemma AllBelow(w: Workflow, disp: Dispositions, u: nat, v: Value)
    requires u in disp && disp[u] == Succeeded && !NonTail(w.chains, u)
    ensures Below(w.graph, u, |w.graph.edges|) == OutEdges(w.graph, u)
    ensures Walking(w, disp, OutEdges(w.graph, u), u, OnSuccess(v))
  {
  }

  lemma CountedOf(w: Workflow, s: State, disp: Dispositions)
    requires Inv(w, s, disp, {})
    ensures Counted(w, s, disp, {})
  {
  }

  // ----- a join that waits for jobs in flight only -----

  /** The edges into c from nodes that report an in-flight job. */
  function Awaited(w: Workflow, s: State, c: nat): set<nat> {
    set i | i in InEdges(w.graph, c) && InFlightFrom(w, s, w.graph.edges[i].src)
  }

  predicate InFlightFrom(w: Workflow, s: State, u: nat) {
    exists j | 0 <= j < |s.executing| :: Reporter(w, s.executing[j]) == u
  }

  ghost predicate AwaitedFrom(w: Workflow, s: State, jobs: set<Job>, u: nat) {
    exists j | 0 <= j < |s.executing| :: s.executing[j] in jobs && Reporter(w, s.executing[j]) == u
  }

  /** c waits for some of these jobs, and for nothing else. */
  ghost predicate AwaitsJobs(w: Workflow, s: State, disp: Dispositions, c: nat, jobs: set<Job>) {
    && Waiting(w.graph, disp, {}, c) != {}
    && forall i | i in Waiting(w.graph, disp, {}, c) :: AwaitedFrom(w, s, jobs, w.graph.edges[i].src)
  }

  /** The jobs succeed, and c hears of it. */
  ghost predicate Deliver(w: Workflow, env: Env, jobs: set<Job>, c: nat) {
    forall job | job in jobs :: JobOutcome(w, env, job).Ok? && !ErrorBetween(w.graph, Reporter(w, job), c)
  }

  /** A condition on an edge from the job's reporter to c does not hold of the job's output. */
  ghost predicate FailsFor(w: Workflow, env: Env, job: Job, c: nat) {
    JobOutcome(w, env, job).Ok?
    && !ConditionsHold(w, Reporter(w, job), c, Admit(w.policy, JobOutcome(w, env, job).value))
  }

  lemma ReporterIsUnsettled(w: Workflow, s: State, disp: Dispositions, j: nat)
    requires WellFormed(w) && Inv(w, s, disp, {}) && j < |s.executing|
    ensures Reporter(w, s.executing[j]) !in disp && !NonTail(w.chains, Reporter(w, s.executing[j]))
  {
    JobIsDue(w, s, disp, j);
    assert HeadsFirst(w.chains, disp);
    hide Inv, WellFormed, Waiting;
    if s.executing[j].chain.Some? { TailIsNoNonTail(w, s.executing[j].chain.value); }
  }

  lemma JobsDiffer(w: Workflow, s: State, disp: Dispositions, i: nat, j: nat)
    requires Inv(w, s, disp, {}) && i < |s.executing| && j < |s.executing| && i != j
    ensures s.executing[i].node != s.executing[j].node
  {
    assert InFlight(w, s, disp, {});
    hide Inv, Waiting, JobOk, Inner;
  }

  /** What a step settles was not settled before. */
  lemma StepKeepsDispositions(w: Workflow, s: State, disp: Dispositions, e: Event, disp': Dispositions)
    requires WellFormed(w) && Inv(w, s, disp, {}) && Enabled(w, s, e) && Step(w, s, e).status == Running
    requires StepOk(w, s, disp, e, Step(w, s, e), disp')
    ensures forall n | n in disp :: n in disp' && disp'[n] == disp[n]
    ensures e.Finish? && e.outcome.Ok? ==>
              var u := Reporter(w, s.executing[e.index]); u in disp' && disp'[u] == Succeeded
  {
    hide WellFormed, Inv, SettleChain, Waiting, Step;
    assert Extends(w, Settles(w, s, disp, e), Step(w, s, e), disp');
    hide StepOk, Extends;
    forall n | n in Settles(w, s, disp, e) ensures n in disp' && disp'[n] == Settles(w, s, disp, e)[n] {
      SettledAlready(w, Settles(w, s, disp, e), Step(w, s, e), disp', n);
    }
    match e
    case Pop(i, _) => PoppedIsTaken(w, s, disp, i);
    case Finish(i, outcome) =>
      JobIsDue(w, s, disp, i);
      ReporterIsUnsettled(w, s, disp, i);
      JobKeepsDispositions(w, s, disp, i, OutcomeOf(w, Reporter(w, s.executing[i]), outcome));
  }

  lemma JobKeepsDispositions(w: Workflow, s: State, disp: Dispositions, i: nat, d: Disposition)
    requires WellFormed(w) && Inv(w, s, disp, {}) && i < |s.executing|
    ensures var job := s.executing[i];
            && (forall n | n in disp :: n in SettleJob(w, disp, job, d) && SettleJob(w, disp, job, d)[n] == disp[n])
            && Reporter(w, job) in SettleJob(w, disp, job, d) && SettleJob(w, disp, job, d)[Reporter(w, job)] == d
  {
    hide *;
    match s.executing[i].chain
    case None => SettledAlone(w, s, disp, i, d);
    case Some(k) =>
      HeadIsFreeOfJob(w, map[], s, disp, i, k);
      SettledUnderTail(w, disp, s.executing[i], d);
      SettleChainAddsMembers(w.chains[k], disp, d);
  }

  lemma SettleChainAddsMembers(chain: seq<nat>, disp: Dispositions, d: Disposition)
    requires chain != [] && forall n | n in chain :: n !in disp
    ensures forall n | n in disp :: n in SettleChain(chain, disp, d) && SettleChain(chain, disp, d)[n] == disp[n]
    ensures Last(chain) in SettleChain(chain, disp, d) && SettleChain(chain, disp, d)[Last(chain)] == d
  {
  }

  lemma WaitingShrinks(g: Graph, disp: Dispositions, disp': Dispositions, c: nat)
    requires forall n | n in disp :: n in disp' && disp'[n] == disp[n]
    ensures Waiting(g, disp', {}, c) <= Waiting(g, disp, {}, c)
    ensures forall i | i in Waiting(g, disp, {}, c) && g.edges[i].src !in disp' :: i in Waiting(g, disp', {}, c)
  {
  }

  /** The job at j stays in flight unless it is the one that finishes. */
  lemma JobStays(w: Workflow, s: State, e: Event, j: nat)
    requires Enabled(w, s, e) && j < |s.executing| && (e.Finish? ==> e.index != j)
    ensures s.executing[j] in NextExecuting(w, s, e)
  {
    hide Gather, ChainOf;
    if e.Finish? {
      WithoutKeepsOthers(s.executing, e.index);
    } else {
      assert NextExecuting(w, s, e)[j] == s.executing[j];
    }
  }

  /** A step either leaves c waiting for the jobs, or it is the finish of the last of them,
      which decides c. */
  lemma AwaitingStep(w: Workflow, env: Env, s: State, disp: Dispositions, c: nat, jobs: set<Job>, e: Event)
    returns (disp': Dispositions)
    requires WellFormed(w) && Inv(w, s, disp, {}) && AwaitsJobs(w, s, disp, c, jobs) && Deliver(w, env, jobs, c)
    requires Enabled(w, s, e) && Follows(w, env, s, e) && Step(w, s, e).status == Running
    ensures StepOk(w, s, disp, e, Step(w, s, e), disp')
    ensures var s' := Step(w, s, e);
            if Waiting(w.graph, disp', {}, c) != {} then AwaitsJobs(w, s', disp', c, jobs)
            else e.Finish? && e.index < |s.executing| && s.executing[e.index] in jobs
                 && Decided(s', c, FailsFor(w, env, s.executing[e.index], c))
  {
    hide *;
    disp' := StepKeeps(w, s, disp, e);
    var s' := Step(w, s, e);
    StepKeepsDispositions(w, s, disp, e, disp');
    WaitingShrinks(w.graph, disp, disp', c);
    StepQueues(w, s, disp, e, s', disp');
    if Waiting(w.graph, disp', {}, c) != {} {
      forall i | i in Waiting(w.graph, disp', {}, c)
        ensures i < |w.graph.edges| && AwaitedFrom(w, s', jobs, w.graph.edges[i].src)
      {
        StillAwaited(w, env, s, disp, c, jobs, e, s', disp', i);
      }
      AwaitsAll(w, s', disp', c, jobs);
    } else {
      var i := AwaitedEdgeOf(w, s, disp, c, jobs);
      var j := AwaitedJob(w, s, jobs, w.graph.edges[i].src);
      if !(e.Finish? && e.index == j) {
        JobStays(w, s, e, j);
        StaysUnsettled(w, s', disp', s.executing[j]);
      }
      forall i' | i' in Waiting(w.graph, disp, {}, c)
        ensures i' < |w.graph.edges| && w.graph.edges[i'].src == w.graph.edges[i].src
      {
        OnlyFinishedIsAwaited(w, s, disp, c, jobs, e, s', disp', i', j);
      }
      DeliverAt(w, env, jobs, c, s.executing[j]);
      FollowsFinish(w, env, s, e);
      LastJobDecides(w, s, disp, j, e.outcome.value, c);
      FailsForIs(w, env, s.executing[j], c);
    }
  }

  lemma StepQueues(w: Workflow, s: State, disp: Dispositions, e: Event, s': State, disp': Dispositions)
    requires Enabled(w, s, e) && StepOk(w, s, disp, e, s', disp') && s'.status == Running
    ensures Inv(w, s', disp', {}) && s'.executing == NextExecuting(w, s, e)
  {
  }

  lemma AwaitedJob(w: Workflow, s: State, jobs: set<Job>, u: nat) returns (j: nat)
    requires AwaitedFrom(w, s, jobs, u)
    ensures j < |s.executing| && s.executing[j] in jobs && Reporter(w, s.executing[j]) == u
  {
    j :| 0 <= j < |s.executing| && s.executing[j] in jobs && Reporter(w, s.executing[j]) == u;
  }

  lemma AwaitedEdgeOf(w: Workflow, s: State, disp: Dispositions, c: nat, jobs: set<Job>) returns (i: nat)
    requires AwaitsJobs(w, s, disp, c, jobs)
    ensures i in Waiting(w.graph, disp, {}, c) && i < |w.graph.edges|
    ensures AwaitedFrom(w, s, jobs, w.graph.edges[i].src)
  {
    i :| i in Waiting(w.graph, disp, {}, c);
  }

  lemma AwaitsAll(w: Workflow, s: State, disp: Dispositions, c: nat, jobs: set<Job>)
    requires Waiting(w.graph, disp, {}, c) != {}
    requires forall i | i in Waiting(w.graph, disp, {}, c) ::
               i < |w.graph.edges| && AwaitedFrom(w, s, jobs, w.graph.edges[i].src)
    ensures AwaitsJobs(w, s, disp, c, jobs)
  {
    hide Waiting, AwaitedFrom;
  }

  lemma DeliverAt(w: Workflow, env: Env, jobs: set<Job>, c: nat, job: Job)
    requires Deliver(w, env, jobs, c) && job in jobs
    ensures JobOutcome(w, env, job).Ok? && !ErrorBetween(w.graph, Reporter(w, job), c)
  {
  }

  lemma FollowsFinish(w: Workflow, env: Env, s: State, e: Event)
    requires Enabled(w, s, e) && Follows(w, env, s, e) && e.Finish?
    ensures e.index < |s.executing| && e.outcome == JobOutcome(w, env, s.executing[e.index])
  {
  }

  lemma FailsForIs(w: Workflow, env: Env, job: Job, c: nat)
    requires JobOutcome(w, env, job).Ok?
    ensures FailsFor(w, env, job, c)
         == ConditionFails(w, Reporter(w, job), c, Admit(w.policy, JobOutcome(w, env, job).value))
  {
    ConditionFailsIff(w, Reporter(w, job), c, Admit(w.policy, JobOutcome(w, env, job).value));
  }

  lemma StaysUnsettled(w: Workflow, s: State, disp: Dispositions, job: Job)
    requires WellFormed(w) && Inv(w, s, disp, {}) && job in s.executing
    ensures Reporter(w, job) !in disp
  {
    var j :| 0 <= j < |s.executing| && s.executing[j] == job;
    ReporterIsUnsettled(w, s, disp, j);
  }

  /** What c waits for after the step, it waits for from a job that is still in flight. */
  lemma StillAwaited(w: Workflow, env: Env, s: State, disp: Dispositions, c: nat, jobs: set<Job>, e: Event,
                     s': State, disp': Dispositions, i: nat)
    requires WellFormed(w) && Inv(w, s, disp, {}) && AwaitsJobs(w, s, disp, c, jobs) && Deliver(w, env, jobs, c)
    requires Enabled(w, s, e) && Follows(w, env, s, e) && s'.executing == NextExecuting(w, s, e)
    requires e.Finish? && e.outcome.Ok? ==>
               var u := Reporter(w, s.executing[e.index]); u in disp' && disp'[u] == Succeeded
    requires i in Waiting(w.graph, disp', {}, c) && i in Waiting(w.graph, disp, {}, c)
    ensures i < |w.graph.edges| && AwaitedFrom(w, s', jobs, w.graph.edges[i].src)
  {
    hide *;
    AwaitsAt(w, s, disp, c, jobs, i);
    var j := AwaitedJob(w, s, jobs, w.graph.edges[i].src);
    DeliverAt(w, env, jobs, c, s.executing[j]);
    if e.Finish? && e.index == j {
      FollowsFinish(w, env, s, e);
      SucceededEdgeIsNotAwaited(w.graph, disp', c, i);
    } else {
      JobStays(w, s, e, j);
      AwaitedFromJob(w, s', jobs, s.executing[j]);
    }
  }

  lemma AwaitsAt(w: Workflow, s: State, disp: Dispositions, c: nat, jobs: set<Job>, i: nat)
    requires AwaitsJobs(w, s, disp, c, jobs) && i in Waiting(w.graph, disp, {}, c)
    ensures i < |w.graph.edges| && w.graph.edges[i].dst == c && AwaitedFrom(w, s, jobs, w.graph.edges[i].src)
  {
  }

  lemma AwaitedFromJob(w: Workflow, s: State, jobs: set<Job>, job: Job)
    requires job in s.executing && job in jobs
    ensures AwaitedFrom(w, s, jobs, Reporter(w, job))
  {
    var j :| 0 <= j < |s.executing| && s.executing[j] == job;
  }

  lemma SucceededEdgeIsNotAwaited(g: Graph, disp: Dispositions, c: nat, i: nat)
    requires i < |g.edges| && g.edges[i].src in disp && disp[g.edges[i].src] == Succeeded
    requires !ErrorBetween(g, g.edges[i].src, c)
    ensures i !in Waiting(g, disp, {}, c)
  {
  }

  lemma OnlyFinishedIsAwaited(w: Workflow, s: State, disp: Dispositions, c: nat, jobs: set<Job>, e: Event,
                              s': State, disp': Dispositions, i: nat, j: nat)
    requires WellFormed(w) && Inv(w, s', disp', {}) && AwaitsJobs(w, s, disp, c, jobs)
    requires Enabled(w, s, e) && s'.executing == NextExecuting(w, s, e)
    requires e.Finish? && e.index == j && j < |s.executing|
    requires i in Waiting(w.graph, disp, {}, c) && Waiting(w.graph, disp', {}, c) == {}
    requires i < |w.graph.edges| && w.graph.edges[i].src !in disp' ==> i in Waiting(w.graph, disp', {}, c)
    ensures i < |w.graph.edges| && w.graph.edges[i].src == Reporter(w, s.executing[j])
  {
    hide *;
    AwaitsAt(w, s, disp, c, jobs, i);
    var j' := AwaitedJob(w, s, jobs, w.graph.edges[i].src);
    if j' != j {
      JobStays(w, s, e, j');
      StaysUnsettled(w, s', disp', s.executing[j']);
    }
  }

  // ----- completion orders -----

  /** Driven events up to and including the finish of the last job that c awaits. */
  ghost predicate CompletionOrder(w: Workflow, env: Env, s: State, c: nat, events: seq<Event>)
    decreases |events|
  {
    && events != [] && Awaited(w, s, c) != {}
    && Enabled(w, s, events[0]) && Follows(w, env, s, events[0])
    && (var s' := Step(w, s, events[0]);
        && s'.status == Running
        && if Awaited(w, s', c) == {} then events[1..] == [] else CompletionOrder(w, env, s', c, events[1..]))
  }

  lemma {:induction false} OrderIsRun(w: Workflow, env: Env, s: State, c: nat, events: seq<Event>)
    requires CompletionOrder(w, env, s, c, events)
    ensures Driven(w, env, s, events) && IsRun(w, s, events)
    decreases |events|
  {
    hide Enabled, Follows, Step, Awaited;
    if events[1..] != [] {
      OrderIsRun(w, env, Step(w, s, events[0]), c, events[1..]);
    }
  }

  /** The edges from in-flight jobs are awaited, and for a node that awaits jobs no others are. */
  lemma AwaitedIsWaiting(w: Workflow, s: State, disp: Dispositions, c: nat, jobs: set<Job>)
    requires WellFormed(w) && Inv(w, s, disp, {})
    ensures Awaited(w, s, c) <= Waiting(w.graph, disp, {}, c)
    ensures AwaitsJobs(w, s, disp, c, jobs) ==> Awaited(w, s, c) == Waiting(w.graph, disp, {}, c)
  {
    hide Inv, WellFormed, Reporter;
    forall i | i in Awaited(w, s, c) ensures i in Waiting(w.graph, disp, {}, c) {
      var j :| 0 <= j < |s.executing| && Reporter(w, s.executing[j]) == w.graph.edges[i].src;
      ReporterIsUnsettled(w, s, disp, j);
    }
  }

  /** Whatever the order, c is decided by one of the jobs it awaited. */
  lemma {:induction false} OrderDecides(w: Workflow, env: Env, s: State, disp: Dispositions, c: nat, jobs: set<Job>,
                                        events: seq<Event>)
    returns (job: Job)
    requires WellFormed(w) && Inv(w, s, disp, {}) && AwaitsJobs(w, s, disp, c, jobs) && Deliver(w, env, jobs, c)
    requires CompletionOrder(w, env, s, c, events) && IsRun(w, s, events)
    ensures job in jobs && Decided(After(w, s, events), c, FailsFor(w, env, job, c))
    decreases |events|
  {
    hide Inv, WellFormed, AwaitsJobs, Deliver, Enabled, Follows, Step, Awaited, Waiting, StepOk, Decided, FailsFor;
    var e, s' := events[0], Step(w, s, events[0]);
    var disp' := AwaitingStep(w, env, s, disp, c, jobs, e);
    StepQueues(w, s, disp, e, s', disp');
    AwaitedIsWaiting(w, s', disp', c, jobs);
    if Waiting(w.graph, disp', {}, c) != {} {
      job := OrderDecides(w, env, s', disp', c, jobs, events[1..]);
    } else {
      job := s.executing[e.index];
    }
  }

  /** Nothing the environment says in front of a dispatch ends the run. */
  ghost predicate NeverStops(w: Workflow, env: Env) {
    forall n, inputs ::
      match env.preflight(n, inputs)
      case Dispatch => true
      case Resolve(_) => true
      case Reject(_) => RoutesErrors(w.graph, n) || n in w.continueOnError
      case Halt(_) => false
      case Pause(_) => false
  }

  lemma PopGoesOn(w: Workflow, env: Env, s: State) returns (e: Event)
    requires NeverStops(w, env) && s.status == Running && s.ready != []
    ensures e.Pop? && Enabled(w, s, e) && Follows(w, env, s, e) && Step(w, s, e).status == Running
  {
    var n := s.ready[0];
    var decision := env.preflight(n, InputsOf(w.graph, s.results, n));
    e := Pop(0, decision);
    hide Gather, WalkEdges, RoutesErrors, Fail;
    WalkKeepsStatus(w, s, n);
    if decision.Reject? {
      EndingConclusionStops(w, s.(ready := Without(s.ready, 0)), n, Err(decision.message));
    }
  }

  lemma FinishGoesOn(w: Workflow, env: Env, s: State, i: nat) returns (e: Event)
    requires s.status == Running && s.ready == [] && i < |s.executing| && JobOutcome(w, env, s.executing[i]).Ok?
    ensures e.Finish? && e.index == i && Enabled(w, s, e) && Follows(w, env, s, e) && Step(w, s, e).status == Running
  {
    var outcome := JobOutcome(w, env, s.executing[i]);
    e := Finish(i, outcome);
    hide JobOutcome, Complete, RoutesErrors, Reporter;
    EndingConclusionStops(w, s.(executing := Without(s.executing, i)), Reporter(w, s.executing[i]), outcome);
  }

  lemma StepGoesFurther(w: Workflow, s: State, disp: Dispositions, e: Event, disp': Dispositions)
    requires WellFormed(w) && Inv(w, s, disp, {}) && Enabled(w, s, e) && Step(w, s, e).status == Running
    requires StepOk(w, s, disp, e, Step(w, s, e), disp')
    ensures Progress(s, disp) < Progress(Step(w, s, e), disp') <= 2 * w.graph.size
  {
    StepProgressesOn(w, s, disp, e, Step(w, s, e), disp');
    ProgressIsBounded(w, Step(w, s, e), disp');
  }

  lemma StepProgressesOn(w: Workflow, s: State, disp: Dispositions, e: Event, s': State, disp': Dispositions)
    requires Inv(w, s, disp, {}) && Enabled(w, s, e) && s' == Step(w, s, e) && s'.status == Running
    requires StepOk(w, s, disp, e, s', disp')
    ensures Progress(s', disp') > Progress(s, disp)
    ensures Inv(w, s', disp', {})
  {
    hide Inv, Step, Progress, Settles, NextExecuting, Extends, Records, Enabled;
    StepProgresses(w, s, disp, e, s', disp');
  }

  /** The next event on the way to an order in which `last` comes last. */
  lemma NextEvent(w: Workflow, env: Env, s: State, c: nat, jobs: set<Job>, last: Job) returns (e: Event)
    requires NeverStops(w, env) && Deliver(w, env, jobs, c) && s.status == Running
    requires last in jobs && last in s.executing
    ensures Enabled(w, s, e) && Follows(w, env, s, e) && Step(w, s, e).status == Running
    ensures e.Finish? && s.executing[e.index] == last ==>
              forall j | 0 <= j < |s.executing| :: s.executing[j] in jobs ==> s.executing[j] == last
  {
    hide Follows, Step, NeverStops, JobOutcome;
    if s.ready != [] {
      e := PopGoesOn(w, env, s);
    } else if j :| 0 <= j < |s.executing| && s.executing[j] in jobs && s.executing[j] != last {
      e := FinishGoesOn(w, env, s, j);
    } else {
      var j :| 0 <= j < |s.executing| && s.executing[j] == last;
      e := FinishGoesOn(w, env, s, j);
    }
  }

  /** Any of the awaited jobs can come last, and then it decides. */
  lemma {:induction false} OrderEndingWith(w: Workflow, env: Env, s: State, disp: Dispositions, c: nat,
                                           jobs: set<Job>, last: Job, edge: nat)
    returns (events: seq<Event>)
    requires WellFormed(w) && Inv(w, s, disp, {}) && AwaitsJobs(w, s, disp, c, jobs) && Deliver(w, env, jobs, c)
    requires NeverStops(w, env) && s.status == Running && Progress(s, disp) <= 2 * w.graph.size
    requires last in jobs && last in s.executing
    requires edge in Waiting(w.graph, disp, {}, c) && edge < |w.graph.edges|
             && w.graph.edges[edge].src == Reporter(w, last)
    ensures CompletionOrder(w, env, s, c, events) && IsRun(w, s, events)
    ensures Decided(After(w, s, events), c, FailsFor(w, env, last, c))
    decreases 2 * w.graph.size - Progress(s, disp)
  {
    hide *;
    var e := NextEvent(w, env, s, c, jobs, last);
    var s' := Step(w, s, e);
    var disp' := AwaitingStep(w, env, s, disp, c, jobs, e);
    StepGoesFurther(w, s, disp, e, disp');
    StepQueues(w, s, disp, e, s', disp');
    AwaitedIsWaiting(w, s, disp, c, jobs);
    AwaitedIsWaiting(w, s', disp', c, jobs);
    if Waiting(w.graph, disp', {}, c) == {} {
      DecidedByLast(w, s, disp, c, e, s', disp', last, edge);
      events := [e];
      OneEventOrder(w, env, s, c, e);
    } else {
      LastStays(w, s, disp, c, jobs, e, s', disp', last, edge);
      var rest := OrderEndingWith(w, env, s', disp', c, jobs, last, edge);
      events := [e] + rest;
      OneMoreEvent(w, env, s, c, e, rest);
    }
  }

  lemma OneEventOrder(w: Workflow, env: Env, s: State, c: nat, e: Event)
    requires Awaited(w, s, c) != {} && Enabled(w, s, e) && Follows(w, env, s, e)
    requires Step(w, s, e).status == Running && Awaited(w, Step(w, s, e), c) == {}
    ensures CompletionOrder(w, env, s, c, [e]) && IsRun(w, s, [e]) && After(w, s, [e]) == Step(w, s, e)
  {
    hide Awaited, Enabled, Follows, Step;
    assert [e][1..] == [];
    assert IsRun(w, Step(w, s, e), []);
  }

  lemma OneMoreEvent(w: Workflow, env: Env, s: State, c: nat, e: Event, rest: seq<Event>)
    requires Awaited(w, s, c) != {} && Enabled(w, s, e) && Follows(w, env, s, e)
    requires Step(w, s, e).status == Running && CompletionOrder(w, env, Step(w, s, e), c, rest)
    requires IsRun(w, Step(w, s, e), rest)
    ensures CompletionOrder(w, env, s, c, [e] + rest) && IsRun(w, s, [e] + rest)
    ensures After(w, s, [e] + rest) == After(w, Step(w, s, e), rest)
  {
    hide Awaited, Enabled, Follows, Step;
    assert ([e] + rest)[1..] == rest;
  }

  /** While `last` is in flight, c waits for it. */
  lemma LastIsAwaited(w: Workflow, s: State, disp: Dispositions, e: Event, s': State, disp': Dispositions, last: Job)
    requires WellFormed(w) && Inv(w, s', disp', {}) && Enabled(w, s, e) && s'.executing == NextExecuting(w, s, e)
    requires last in s.executing && !(e.Finish? && e.index < |s.executing| && s.executing[e.index] == last)
    ensures last in s'.executing && Reporter(w, last) !in disp'
  {
    var j :| 0 <= j < |s.executing| && s.executing[j] == last;
    hide *;
    JobStays(w, s, e, j);
    StaysUnsettled(w, s', disp', last);
  }

  lemma DecidedByLast(w: Workflow, s: State, disp: Dispositions, c: nat, e: Event, s': State, disp': Dispositions,
                      last: Job, edge: nat)
    requires WellFormed(w) && Inv(w, s', disp', {}) && Enabled(w, s, e) && s'.executing == NextExecuting(w, s, e)
    requires last in s.executing && edge in Waiting(w.graph, disp, {}, c)
    requires edge < |w.graph.edges| && w.graph.edges[edge].src == Reporter(w, last)
    requires Waiting(w.graph, disp', {}, c) == {}
    ensures e.Finish? && e.index < |s.executing| && s.executing[e.index] == last
  {
    hide Inv, WellFormed, NextExecuting, Reporter;
    if !(e.Finish? && e.index < |s.executing| && s.executing[e.index] == last) {
      WaitedEdge(w.graph, disp, {}, c, edge);
      LastIsAwaited(w, s, disp, e, s', disp', last);
    }
  }

  lemma LastStays(w: Workflow, s: State, disp: Dispositions, c: nat, jobs: set<Job>, e: Event, s': State,
                  disp': Dispositions,
                  last: Job, edge: nat)
    requires WellFormed(w) && Inv(w, s, disp, {}) && Inv(w, s', disp', {}) && AwaitsJobs(w, s', disp', c, jobs)
    requires Enabled(w, s, e) && s'.executing == NextExecuting(w, s, e)
    requires e.Finish? && s.executing[e.index] == last ==>
               forall j | 0 <= j < |s.executing| :: s.executing[j] in jobs ==> s.executing[j] == last
    requires last in s.executing && edge in Waiting(w.graph, disp, {}, c)
    requires edge < |w.graph.edges| && w.graph.edges[edge].src == Reporter(w, last)
    ensures last in s'.executing && edge in Waiting(w.graph, disp', {}, c)
  {
    assert edge < |w.graph.edges| && w.graph.edges[edge].dst == c;
    hide Inv, WellFormed, NextExecuting, Reporter, AwaitsJobs;
    if e.Finish? && s.executing[e.index] == last {
      var i := AwaitedEdgeOf(w, s', disp', c, jobs);
      var j := AwaitedJob(w, s', jobs, w.graph.edges[i].src);
      OtherJobsRemain(w, s, disp, e, s', j);
    } else {
      LastIsAwaited(w, s, disp, e, s', disp', last);
    }
  }

  lemma OtherJobsRemain(w: Workflow, s: State, disp: Dispositions, e: Event, s': State, j: nat)
    requires Inv(w, s, disp, {}) && Enabled(w, s, e) && e.Finish? && s'.executing == NextExecuting(w, s, e)
    requires j < |s'.executing|
    ensures s'.executing[j] in s.executing && s'.executing[j] != s.executing[e.index]
  {
    hide Inv, StepOk, ChainOf, Gather;
    var k := if j < e.index then j else j + 1;
    assert s'.executing[j] == s.executing[k];
    JobsDiffer(w, s, disp, k, e.index);
  }

  // ----- when the order matters -----

  /** c waits for in-flight jobs only: its counter is the number of edges from them. */
  ghost predicate OnlyAwaits(w: Workflow, s: State, c: nat) {
    c in s.pending && Awaited(w, s, c) != {} && s.pending[c] == |Awaited(w, s, c)|
  }

  function AwaitedJobs(w: Workflow, s: State, c: nat): set<Job> {
    set j | 0 <= j < |s.executing|
        && (exists i | i in Awaited(w, s, c) :: w.graph.edges[i].src == Reporter(w, s.executing[j]))
      :: s.executing[j]
  }

  lemma SameSize(a: set<nat>, b: set<nat>)
    requires a <= b && |a| == |b|
    ensures a == b
  {
    assert b == a + (b - a) && |b| == |a| + |b - a|;
  }

  lemma AwaitedFromOutside(w: Workflow, s: State, disp: Dispositions, c: nat)
    requires WellFormed(w) && Inv(w, s, disp, {}) && Awaited(w, s, c) != {}
    ensures !Inner(w.chains, c)
  {
    var i :| i in Awaited(w, s, c);
    var j :| 0 <= j < |s.executing| && Reporter(w, s.executing[j]) == w.graph.edges[i].src;
    hide Inv, WellFormed, Reporter, Inner, NonTail;
    ReporterIsUnsettled(w, s, disp, j);
    if Inner(w.chains, c) { InnerFedByNonTail(w, i); }
  }

  /** What the counters say is what the bookkeeping says. */
  lemma AwaitsExactly(w: Workflow, s: State, disp: Dispositions, c: nat)
    requires WellFormed(w) && Inv(w, s, disp, {}) && OnlyAwaits(w, s, c)
    ensures AwaitsJobs(w, s, disp, c, AwaitedJobs(w, s, c))
  {
    CountedOf(w, s, disp);
    hide Inv, WellFormed, Reporter, Inner, Waiting, InFlightFrom;
    AwaitedFromOutside(w, s, disp, c);
    AwaitedIsWaiting(w, s, disp, c, {});
    SameSize(Awaited(w, s, c), Waiting(w.graph, disp, {}, c));
    forall i | i in Awaited(w, s, c) ensures AwaitedFrom(w, s, AwaitedJobs(w, s, c), w.graph.edges[i].src) {
      AwaitedEdgeHasJob(w, s, c, i);
    }
  }

  lemma AwaitedEdgeHasJob(w: Workflow, s: State, c: nat, i: nat)
    requires i in Awaited(w, s, c)
    ensures AwaitedFrom(w, s, AwaitedJobs(w, s, c), w.graph.edges[i].src)
  {
    var j :| 0 <= j < |s.executing| && Reporter(w, s.executing[j]) == w.graph.edges[i].src;
    assert s.executing[j] in AwaitedJobs(w, s, c);
  }

  lemma AwaitedJobHasEdge(w: Workflow, s: State, disp: Dispositions, c: nat, job: Job) returns (i: nat)
    requires WellFormed(w) && Inv(w, s, disp, {}) && job in AwaitedJobs(w, s, c)
    ensures job in s.executing
    ensures i in Waiting(w.graph, disp, {}, c) && i < |w.graph.edges| && w.graph.edges[i].src == Reporter(w, job)
  {
    AwaitedIsWaiting(w, s, disp, c, {});
    hide Inv, WellFormed, Waiting, InFlightFrom;
    i :| i in Awaited(w, s, c) && w.graph.edges[i].src == Reporter(w, job);
  }

  ghost predicate EndsDecided(w: Workflow, s: State, events: seq<Event>, c: nat, skipped: bool) {
    IsRun(w, s, events) && Decided(After(w, s, events), c, skipped)
  }

  /** A node that waits for succeeding in-flight jobs only is decided by the one that comes last,
      by its own condition: in every completion order, whatever else happens meanwhile. */
  lemma LastOfOrderDecides(w: Workflow, env: Env, seed: map<nat, Value>, before: seq<Event>, c: nat, events: seq<Event>)
    returns (last: Job)
    requires Startable(w, seed) && IsRun(w, Start(w, seed), before)
    requires var s := After(w, Start(w, seed), before);
             && s.status == Running && OnlyAwaits(w, s, c) && Deliver(w, env, AwaitedJobs(w, s, c), c)
             && CompletionOrder(w, env, s, c, events)
    ensures var s := After(w, Start(w, seed), before);
            last in AwaitedJobs(w, s, c) && EndsDecided(w, s, events, c, FailsFor(w, env, last, c))
  {
    var s := After(w, Start(w, seed), before);
    StartIsLive(w, seed);
    assert WellFormed(w);
    hide Inv, Live, WellFormed, Startable, OnlyAwaits, Deliver, CompletionOrder, AwaitsJobs, AwaitedJobs;
    hide After, IsRun, Start, Decided, FailsFor;
    var disp := RunKeeps(w, Start(w, seed), SeedDispositions(w.graph, seed), before);
    AwaitsExactly(w, s, disp, c);
    OrderIsRun(w, env, s, c, events);
    last := OrderDecides(w, env, s, disp, c, AwaitedJobs(w, s, c), events);
  }

  /** And each of them can come last. */
  lemma OrderWithLast(w: Workflow, env: Env, seed: map<nat, Value>, before: seq<Event>, c: nat, last: Job)
    returns (events: seq<Event>)
    requires Startable(w, seed) && IsRun(w, Start(w, seed), before) && NeverStops(w, env)
    requires var s := After(w, Start(w, seed), before);
             && s.status == Running && OnlyAwaits(w, s, c) && Deliver(w, env, AwaitedJobs(w, s, c), c)
             && last in AwaitedJobs(w, s, c)
    ensures var s := After(w, Start(w, seed), before);
            CompletionOrder(w, env, s, c, events) && EndsDecided(w, s, events, c, FailsFor(w, env, last, c))
  {
    var s := After(w, Start(w, seed), before);
    StartIsLive(w, seed);
    assert WellFormed(w);
    hide Inv, Live, WellFormed, Startable, OnlyAwaits, Deliver, CompletionOrder, AwaitsJobs, AwaitedJobs;
    hide After, IsRun, Start, Decided, FailsFor;
    hide NeverStops, Waiting, Progress, Reporter;
    var disp := RunKeeps(w, Start(w, seed), SeedDispositions(w.graph, seed), before);
    AwaitsExactly(w, s, disp, c);
    ProgressIsBounded(w, s, disp);
    var edge := AwaitedJobHasEdge(w, s, disp, c, last);
    events := OrderEndingWith(w, env, s, disp, c, AwaitedJobs(w, s, c), last, edge);
  }

  /** When the completion order of a join's parents matters.  Every order skips c exactly when
      the conditions of all awaited parents fail, and every order enqueues it exactly when none
      fails; otherwise some order skips it and some other enqueues it. */
  lemma JoinSettlesAlikeIff(w: Workflow, env: Env, seed: map<nat, Value>, before: seq<Event>, c: nat)
    requires Startable(w, seed) && IsRun(w, Start(w, seed), before) && NeverStops(w, env)
    requires var s := After(w, Start(w, seed), before);
             s.status == Running && OnlyAwaits(w, s, c) && Deliver(w, env, AwaitedJobs(w, s, c), c)
    ensures var s := After(w, Start(w, seed), before);
            && ((forall events | CompletionOrder(w, env, s, c, events) :: EndsDecided(w, s, events, c, true))
                <==> forall job | job in AwaitedJobs(w, s, c) :: FailsFor(w, env, job, c))
            && ((forall events | CompletionOrder(w, env, s, c, events) :: EndsDecided(w, s, events, c, false))
                <==> forall job | job in AwaitedJobs(w, s, c) :: !FailsFor(w, env, job, c))
  {
    AllOrdersIff(w, env, seed, before, c, true);
    AllOrdersIff(w, env, seed, before, c, false);
    hide *;
  }

  /** One outcome in every order, exactly when it is what each awaited parent alone would say. */
  lemma AllOrdersIff(w: Workflow, env: Env, seed: map<nat, Value>, before: seq<Event>, c: nat, skipped: bool)
    requires Startable(w, seed) && IsRun(w, Start(w, seed), before) && NeverStops(w, env)
    requires var s := After(w, Start(w, seed), before);
             s.status == Running && OnlyAwaits(w, s, c) && Deliver(w, env, AwaitedJobs(w, s, c), c)
    ensures var s := After(w, Start(w, seed), before);
            (forall events | CompletionOrder(w, env, s, c, events) :: EndsDecided(w, s, events, c, skipped))
            <==> forall job | job in AwaitedJobs(w, s, c) :: FailsFor(w, env, job, c) == skipped
  {
    var s := After(w, Start(w, seed), before);
    hide *;
    if job :| job in AwaitedJobs(w, s, c) && FailsFor(w, env, job, c) != skipped {
      var events := OrderWithLast(w, env, seed, before, c, job);
      DecidedOnce(w, s, events, c);
    } else {
      forall events | CompletionOrder(w, env, s, c, events) ensures EndsDecided(w, s, events, c, skipped) {
        var last := LastOfOrderDecides(w, env, seed, before, c, events);
      }
    }
  }

  lemma DecidedOnce(w: Workflow, s: State, events: seq<Event>, c: nat)
    ensures !(EndsDecided(w, s, events, c, true) && EndsDecided(w, s, events, c, false))
  {
  }

  // ----- nodes a run with conditions leaves behind -----

  /** A node that waits for nothing and is not settled has no result. */
  lemma StalledHasNoResult(w: Workflow, s: State, disp: Dispositions, n: nat)
    requires Marked(w, s, disp, {}) && n < w.graph.size && n !in disp && Waiting(w.graph, disp, {}, n) == {}
    ensures n !in s.results
  {
    forall i | i in InEdges(w.graph, n) ensures !Dead(w.graph, disp, {}, i) {
      assert i !in Waiting(w.graph, disp, {}, n);
    }
  }

  lemma StalledAtRest(w: Workflow, s: State, disp: Dispositions, n: nat)
    requires Inv(w, s, disp, {}) && Quiescent(s) && n < w.graph.size && !NonTail(w.chains, n)
    ensures n in StalledNodes(w, s, disp, {}) <==> n !in s.results && n in s.pending && s.pending[n] == 0
  {
    assert Idle(s, n) && n in s.pending;
    if n !in disp {
      assert s.pending[n] == |Waiting(w.graph, disp, {}, n)|;
      if Waiting(w.graph, disp, {}, n) == {} { StalledHasNoResult(w, s, disp, n); }
    }
  }

  /** A run leaves a node without a result although its counter is zero exactly when a cascade
      behind a skipped node made the last delivery to it: such deliveries enqueue nothing. */
  lemma StrandedIff(w: Workflow, seed: map<nat, Value>, events: seq<Event>, n: nat)
    requires Startable(w, seed) && IsRun(w, Start(w, seed), events)
    requires Quiescent(After(w, Start(w, seed), events)) && n < w.graph.size && !NonTail(w.chains, n)
    ensures var t := After(w, Start(w, seed), events);
            n in StrandedIn(w, Start(w, seed), events) <==> n !in t.results && n in t.pending && t.pending[n] == 0
  {
    StartIsLive(w, seed);
    hide Inv, WellFormed, WholeChains, StalledNodes, After, IsRun, Start, StrandedIn, NonTail;
    var disp := RunKeeps(w, Start(w, seed), SeedDispositions(w.graph, seed), events);
    StalledAtRest(w, After(w, Start(w, seed), events), disp, n);
  }

  lemma {:induction false} NothingStalledAllSettled(w: Workflow, s: State, disp: Dispositions, rank: seq<nat>, n: nat)
    requires WellFormed(w) && Inv(w, s, disp, {}) && Quiescent(s) && StalledNodes(w, s, disp, {}) == {}
    requires IsRank(w.graph, rank) && NoErrorEdges(w.graph) && NoneRouted(disp) && n < w.graph.size
             && !NonTail(w.chains, n)
    ensures n in s.results
  {
    AllSettled(w, s, disp, rank, n);
    assert Settled(w, s, disp, {});
  }

  /** With a settled node everything before it is settled. */
  lemma {:induction false} SettledBackAlongChain(w: Workflow, s: State, disp: Dispositions, k: nat, j: nat)
    requires WellFormed(w) && Inv(w, s, disp, {}) && k < |w.chains| && j < |w.chains[k]|
    requires Last(w.chains[k]) in disp
    ensures w.chains[k][j] in disp
    decreases |w.chains[k]| - j
  {
    hide Inv, WellFormed, Waiting;
    if j < |w.chains[k]| - 1 {
      SettledBackAlongChain(w, s, disp, k, j + 1);
      var i := LinkEdge(w, k, j + 1);
      SettledParent(w, s, disp, i);
    }
  }

  lemma SettledParent(w: Workflow, s: State, disp: Dispositions, i: nat)
    requires Inv(w, s, disp, {}) && i < |w.graph.edges| && w.graph.edges[i].dst in disp
    ensures w.graph.edges[i].src in disp
  {
    assert Settled(w, s, disp, {});
    assert i !in Waiting(w.graph, disp, {}, w.graph.edges[i].dst);
  }

  lemma StalledMemberSilencesTail(w: Workflow, s: State, disp: Dispositions, n: nat) returns (m: nat)
    requires WellFormed(w) && Inv(w, s, disp, {}) && NoErrorEdges(w.graph) && NoneRouted(disp)
    requires n in StalledNodes(w, s, disp, {})
    ensures m < w.graph.size && !NonTail(w.chains, m) && m !in s.results
  {
    hide *;
    StalledIs(w, s, disp, n);
    m := n;
    if NonTail(w.chains, n) {
      var k, j := MemberPlace(w, n);
      m := Last(w.chains[k]);
      if m in disp { SettledBackAlongChain(w, s, disp, k, j); }
    }
    UnsettledIsSilent(w, s, disp, m);
  }

  lemma StalledIs(w: Workflow, s: State, disp: Dispositions, n: nat)
    requires n in StalledNodes(w, s, disp, {})
    ensures n < w.graph.size && n !in disp
  {
  }

  lemma MemberPlace(w: Workflow, n: nat) returns (k: nat, j: nat)
    requires WellFormed(w) && NonTail(w.chains, n)
    ensures k < |w.chains| && j < |w.chains[k]| && w.chains[k][j] == n
    ensures Last(w.chains[k]) < w.graph.size && !NonTail(w.chains, Last(w.chains[k]))
  {
    k, j :| 0 <= k < |w.chains| && 0 <= j < |w.chains[k]| - 1 && w.chains[k][j] == n;
    ChainFacts(w, k);
    TailIsNoNonTail(w, k);
  }

  /** Without error edges nothing is marked: an unsettled node has no result. */
  lemma UnsettledIsSilent(w: Workflow, s: State, disp: Dispositions, m: nat)
    requires Inv(w, s, disp, {}) && NoErrorEdges(w.graph) && NoneRouted(disp) && m < w.graph.size && m !in disp
    ensures m !in s.results
  {
    assert Marked(w, s, disp, {});
    forall i: nat | i < |w.graph.edges| ensures !Dead(w.graph, disp, {}, i) {
    }
  }

  /** Completeness with conditions: in an acyclic graph without error edges every node is
      answered for when the loop exits, exactly when no cascade has stranded a node. */
  lemma CompleteIffNothingStranded(w: Workflow, seed: map<nat, Value>, events: seq<Event>)
    requires Startable(w, seed) && IsRun(w, Start(w, seed), events)
    requires Acyclic(w.graph) && NoErrorEdges(w.graph)
    requires Quiescent(After(w, Start(w, seed), events))
    ensures (forall n: nat | n < w.graph.size && !NonTail(w.chains, n) :: n in After(w, Start(w, seed), events).results)
            <==> StrandedIn(w, Start(w, seed), events) == {}
  {
    var t := After(w, Start(w, seed), events);
    var rank :| IsRank(w.graph, rank);
    StartIsLive(w, seed);
    hide Inv, WellFormed, WholeChains, StalledNodes, After, IsRun, Start, StrandedIn, NonTail, NoErrorEdges, IsRank;
    var disp := RunKeeps(w, Start(w, seed), SeedDispositions(w.graph, seed), events);
    if StalledNodes(w, t, disp, {}) == {} {
      forall n: nat | n < w.graph.size && !NonTail(w.chains, n) ensures n in t.results {
        NothingStalledAllSettled(w, t, disp, rank, n);
      }
    } else {
      var n :| n in StalledNodes(w, t, disp, {});
      var m := StalledMemberSilencesTail(w, t, disp, n);
    }
  }

  // ----- an example -----

  /** 0 -> 2 under a false condition, 1 -> 2, 2 -> 3. */
  function Fork(): Workflow {
    Workflow(Graph(4, [Edge(0, 2, false, Some("never")), Edge(1, 2, false, None), Edge(2, 3, false, None)]),
             map[], {}, [], FREE)
  }

  function Forked(results: map<nat, Value>, two: nat, three: nat, ready: seq<nat>, executing: seq<Job>): State {
    State(results, map[0 := 0, 1 := 0, 2 := two, 3 := three], ready, executing, Running)
  }

  function FirstJob(n: nat): Job {
    Job(n, None, [])
  }

  lemma ForkCounts(n: nat)
    requires n < 4
    ensures SeededCount(Fork().graph, {}, n) == if n == 2 then 2 else if n == 3 then 1 else 0
  {
    var g := Fork().graph;
    assert FromUnseeded(g, {}, n) == InEdges(g, n);
    assert InEdges(g, n) == if n == 2 then {0, 1} else if n == 3 then {2} else {};
  }

  lemma ForkRoots()
    ensures Roots(Fork().graph, {}, 4) == [0, 1]
  {
    var g := Fork().graph;
    hide Fork, SeededCount;
    ForkCounts(0);
    ForkCounts(1);
    ForkCounts(2);
    ForkCounts(3);
    assert Roots(g, {}, 1) == [0];
    assert Roots(g, {}, 2) == [0, 1];
    assert Roots(g, {}, 3) == [0, 1];
  }

  lemma ForkStart()
    ensures Start(Fork(), map[]) == Forked(map[], 2, 1, [0, 1], [])
  {
    hide *;
    ForkSize();
    ForkRoots();
    forall n: nat | n < 4 ensures SeededCount(Fork().graph, {}, n) == if n == 2 then 2 else if n == 3 then 1 else 0 {
      ForkCounts(n);
    }
    StartIs(Fork(), map[0 := 0, 1 := 0, 2 := 2, 3 := 1], [0, 1]);
    ForkedIs();
  }

  lemma ForkSize()
    ensures Fork().graph.size == 4
  {
  }

  lemma ForkedIs()
    ensures Forked(map[], 2, 1, [0, 1], []) == State(map[], map[0 := 0, 1 := 0, 2 := 2, 3 := 1], [0, 1], [], Running)
  {
  }

  lemma ForkEdges(u: nat, v: nat)
    ensures !ErrorBetween(Fork().graph, u, v)
    ensures ConditionFails(Fork(), u, v, EMPTY) <==> (u == 0 && v == 2)
  {
    assert Fork().graph.edges[0].condition.Some?;
  }

  /** Each node has one edge out of it, save the last one. */
  lemma ForkWalks(s: State, u: nat)
    requires u < 4
    ensures WalkAll(Fork(), s, u, OnSuccess(EMPTY))
         == if u == 3 then s else VisitEdge(Fork(), s, u, if u == 2 then 3 else 2, OnSuccess(EMPTY))
  {
    var w, walk := Fork(), OnSuccess(EMPTY);
    hide VisitEdge;
    var t := if u == 3 then s else VisitEdge(w, s, u, if u == 2 then 3 else 2, walk);
    assert WalkEdges(w, t, u, walk, 0) == t;
    assert WalkEdges(w, if u == 0 then s else t, u, walk, 1) == t;
    assert WalkEdges(w, if u == 0 || u == 1 then s else t, u, walk, 2) == t;
  }

  lemma ForkCascade()
    ensures Cascade(Fork().graph, map[0 := 0, 1 := 0, 2 := 0, 3 := 1], 2, 3) == map[0 := 0, 1 := 0, 2 := 0, 3 := 0]
  {
    var g, q := Fork().graph, map[0 := 0, 1 := 0, 2 := 0, 3 := 1];
    var r := map[0 := 0, 1 := 0, 2 := 0, 3 := 0];
    assert q[3 := 0] == r;
    assert Cascade(g, r, 2, 0) == r;
    assert Cascade(g, r, 2, 1) == r;
    assert Cascade(g, r, 2, 2) == r;
  }

  lemma FirstParent(r: map<nat, Value>, u: nat, executing: seq<Job>)
    ensures VisitEdge(Fork(), Forked(r, 2, 1, [], executing), u, 2, OnSuccess(EMPTY)) == Forked(r, 1, 1, [], executing)
  {
    ForkEdges(u, 2);
    hide ErrorBetween, ConditionFails;
    assert Forked(r, 2, 1, [], executing).pending[2 := 1] == map[0 := 0, 1 := 0, 2 := 1, 3 := 1];
  }

  lemma LastParent(r: map<nat, Value>, u: nat)
    requires u == 0 || u == 1
    ensures VisitEdge(Fork(), Forked(r, 1, 1, [], []), u, 2, OnSuccess(EMPTY))
         == if u == 1 then Forked(r, 0, 1, [2], []) else Forked(r[2 := Skipped], 0, 0, [], [])
  {
    var s := Forked(r, 1, 1, [], []);
    ForkEdges(u, 2);
    ForkCascade();
    hide ConditionFails, ErrorBetween, WalkEdges, Cascade;
    assert s.pending[2 := 0] == map[0 := 0, 1 := 0, 2 := 0, 3 := 1];
  }

  lemma Grandchild(r: map<nat, Value>)
    ensures VisitEdge(Fork(), Forked(r, 0, 1, [], []), 2, 3, OnSuccess(EMPTY)) == Forked(r, 0, 0, [3], [])
  {
    var s := Forked(r, 0, 1, [], []);
    ForkEdges(2, 3);
    hide ConditionFails, ErrorBetween, Cascade;
    assert s.pending[3 := 0] == map[0 := 0, 1 := 0, 2 := 0, 3 := 0];
  }

  lemma ForkIsPerNode()
    ensures Fork().chains == [] && Admit(Fork().policy, "") == EMPTY
  {
  }

  lemma ForkLaunches() returns (events: seq<Event>)
    ensures Reaches(Fork(), IDLE, events, Forked(map[], 2, 1, [], [FirstJob(0), FirstJob(1)]))
  {
    hide Reaches, Fork, Gather, Start;
    ForkIsPerNode();
    var t0, t1 := Forked(map[], 2, 1, [0, 1], []), Forked(map[], 2, 1, [1], [FirstJob(0)]);
    var t2 := Forked(map[], 2, 1, [], [FirstJob(0), FirstJob(1)]);
    ForkStart();
    ReachesStart(Fork(), IDLE);
    PopReaches(Fork(), IDLE, [], t0);
    NoParents(0);
    NoParents(1);
    assert t0.ready[1..] == [1] && t0.executing + [FirstJob(0)] == t1.executing;
    events := [] + [Pop(0, Dispatch)];
    PopReaches(Fork(), IDLE, events, t1);
    assert t1.ready[1..] == [] && t1.executing + [FirstJob(1)] == t2.executing;
    events := events + [Pop(0, Dispatch)];
  }

  /** Both parents are in flight, and the one called `first` finishes first. */
  lemma ForkBothParents(first: nat) returns (events: seq<Event>)
    requires first == 0 || first == 1
    ensures var both := map[0 := EMPTY, 1 := EMPTY];
            Reaches(Fork(), IDLE, events,
                    if first == 0 then Forked(both, 0, 1, [2], []) else Forked(both[2 := Skipped], 0, 0, [], []))
  {
    hide Reaches, WalkEdges, VisitEdge, Fork, Admit;
    ForkIsPerNode();
    var one: map<nat, Value>, both: map<nat, Value> := map[first := EMPTY], map[0 := EMPTY, 1 := EMPTY];
    var t2, t3 := Forked(map[], 2, 1, [], [FirstJob(0), FirstJob(1)]), Forked(one, 1, 1, [], [FirstJob(1 - first)]);
    events := ForkLaunches();
    FirstParent(one, first, t3.executing);
    assert t2.results[first := EMPTY] == one && Without(t2.executing, first) == t3.executing;
    ForkWalks(Forked(one, 2, 1, [], t3.executing), first);
    FinishReaches(Fork(), IDLE, events, t2, first, "", t3);
    events := events + [Finish(first, Ok(""))];
    LastParent(both, 1 - first);
    assert t3.results[1 - first := EMPTY] == both && Without(t3.executing, 0) == [];
    ForkWalks(Forked(both, 1, 1, [], []), 1 - first);
    FinishReaches(Fork(), IDLE, events, t3, 0, "",
                  if first == 0 then Forked(both, 0, 1, [2], []) else Forked(both[2 := Skipped], 0, 0, [], []));
    events := events + [Finish(0, Ok(""))];
  }

  lemma NoParents(n: nat)
    requires n == 0 || n == 1
    ensures InputsOf(Fork().graph, map[], n) == []
  {
    var g := Fork().graph;
    assert Gather(g, map[], n, 0) == [];
    assert Gather(g, map[], n, 1) == [];
    assert Gather(g, map[], n, 2) == [];
  }

  /** Two runs to the end of the same workflow in the same environment, with the same results
      so far but in another order.  When the unconditional parent comes last, all four nodes
      run; when the conditional one does, node 2 is skipped and node 3 stranded. */
  lemma ConditionsDependOnOrder() returns (complete: seq<Event>, stranded: seq<Event>)
    ensures WellFormed(Fork()) && Acyclic(Fork().graph) && NeverStops(Fork(), IDLE)
    ensures Reaches(Fork(), IDLE, complete, Forked(map[0 := EMPTY, 1 := EMPTY, 2 := EMPTY, 3 := EMPTY], 0, 0, [], []))
    ensures Reaches(Fork(), IDLE, stranded, Forked(map[0 := EMPTY, 1 := EMPTY, 2 := Skipped], 0, 0, [], []))
  {
    ForkIsFine();
    hide Reaches, WalkEdges, VisitEdge, Fork, Gather;
    stranded := ForkBothParents(1);
    var both: map<nat, Value> := map[0 := EMPTY, 1 := EMPTY];
    assert both[2 := Skipped] == map[0 := EMPTY, 1 := EMPTY, 2 := Skipped];
    complete := ForkBothParents(0);
    var t := Forked(both, 0, 1, [2], []);
    Grandchild(both[2 := EMPTY]);
    ForkWalks(Forked(both[2 := EMPTY], 0, 1, [], []), 2);
    complete := ForkRunsOn(complete, t, Forked(both[2 := EMPTY], 0, 0, [3], []));
    var all := both[2 := EMPTY][3 := EMPTY];
    ForkWalks(Forked(all, 0, 0, [], []), 3);
    complete := ForkRunsOn(complete, Forked(both[2 := EMPTY], 0, 0, [3], []), Forked(all, 0, 0, [], []));
    assert all == map[0 := EMPTY, 1 := EMPTY, 2 := EMPTY, 3 := EMPTY];
  }

  lemma ForkIsFine()
    ensures WellFormed(Fork()) && Acyclic(Fork().graph) && NeverStops(Fork(), IDLE)
  {
    var g := Fork().graph;
    assert forall i | 0 <= i < |g.edges| :: g.edges[i].src < 4 && g.edges[i].dst < 4;
    assert IsRank(g, [0, 0, 1, 2]);
  }

  /** The only node in the queue is launched and finishes. */
  lemma ForkRunsOn(events: seq<Event>, t: State, t': State) returns (more: seq<Event>)
    requires Reaches(Fork(), IDLE, events, t) && t.status == Running && |t.ready| == 1 && t.executing == []
    requires var u := t.ready[0];
             WalkAll(Fork(), t.(results := t.results[u := EMPTY], ready := []), u, OnSuccess(EMPTY)) == t'
    ensures Reaches(Fork(), IDLE, more, t')
  {
    hide Reaches, WalkEdges, Fork, Gather, Admit;
    ForkIsPerNode();
    var job := SingleJob(Fork(), t);
    PopReaches(Fork(), IDLE, events, t);
    assert t.ready[1..] == [] && [] + [job] == [job] && t.executing + [job] == [job];
    more := events + [Pop(0, Dispatch)];
    assert Without([job], 0) == [];
    FinishReaches(Fork(), IDLE, more, t.(ready := [], executing := [job]), 0, "", t');
    more := more + [Finish(0, Ok(""))];
  }
}
