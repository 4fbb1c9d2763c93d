/** Branching.  Where each conditional node hangs on one parent, conditions have a meaning that no
    completion order can change, as long as no cascade strands anything. */
module Branching {
  import opened Graphs
  import opened FanIn
  import opened Scheduler
  import opened SchedulerInvariant
  import opened SchedulerSteps
  import opened SchedulerRuns
  import opened Fates
  import opened Meaning
  import opened Equivalences
  import opened Conditions

  /** A node with a condition on an edge into it has a single parent, and no chain batches it. */
  ghost predicate Branches(w: Workflow) {
    forall i, j | 0 <= i < |w.graph.edges| && 0 <= j < |w.graph.edges|
                  && w.graph.edges[i].condition.Some? && w.graph.edges[j].dst == w.graph.edges[i].dst ::
      w.graph.edges[j].src == w.graph.edges[i].src && !InChains(w.chains, w.graph.edges[i].dst)
  }

  // ----- fates with conditions -----

  /** The edge's source succeeded with an output of which the edge's own condition is false. */
  predicate Blocks(w: Workflow, fates: Fates, i: nat)
    requires i < |w.graph.edges|
  {
    var p := w.graph.edges[i].src;
    && p in fates && fates[p].Ran? && fates[p].how == Succeeded
    && w.graph.edges[i].condition.Some? && !w.policy.holds(w.graph.edges[i].condition.value, fates[p].value)
  }

  /** The parent succeeded, and the condition on the way to n is false of its output. */
  predicate Blocked(w: Workflow, fates: Fates, n: nat) {
    exists i | i in InEdges(w.graph, n) :: Blocks(w, fates, i)
  }

  predicate IsSkipped(w: Workflow, seed: map<nat, Value>, fates: Fates, n: nat) {
    n !in seed && ChainAt(w, n) == [] && Arrived(w.graph, fates, n) && Blocked(w, fates, n)
  }

  /** The fate of n where conditions count: a skipped node delivers like a resolved one. */
  function JudgeBranch(w: Workflow, env: Env, seed: map<nat, Value>, fates: Fates, n: nat): Fate {
    if IsSkipped(w, seed, fates, n) then Ran(Opened, Skipped) else Judge(w, env, seed, fates, n)
  }

  ghost predicate SolvesBranches(w: Workflow, env: Env, seed: map<nat, Value>, fates: Fates) {
    && (forall n: nat :: n in fates <==> n < w.graph.size)
    && forall n | n in fates :: fates[n] == JudgeBranch(w, env, seed, fates, n)
  }

  // ----- the recursive evaluation -----

  lemma BlockedIsLocal(w: Workflow, fates: Fates, fates': Fates, n: nat)
    requires forall i | i in InEdges(w.graph, n) ::
               w.graph.edges[i].src in fates && w.graph.edges[i].src in fates'
               && fates[w.graph.edges[i].src] == fates'[w.graph.edges[i].src]
    ensures Blocked(w, fates, n) ==> Blocked(w, fates', n)
    ensures Arrived(w.graph, fates, n) ==> Arrived(w.graph, fates', n)
  {
    hide ConditionFails;
    if Blocked(w, fates, n) {
      var i :| i in InEdges(w.graph, n) && Blocks(w, fates, i);
      assert Blocks(w, fates', i);
    }
    if Arrived(w.graph, fates, n) {
      forall i | i in InEdges(w.graph, n) ensures Arrives(w.graph, fates', i) {
        assert Arrives(w.graph, fates, i);
      }
    }
  }

  lemma BranchIsLocal(w: Workflow, env: Env, seed: map<nat, Value>, fates: Fates, fates': Fates, n: nat)
    requires forall i | i in InEdges(w.graph, Entry(w, n)) ::
               w.graph.edges[i].src in fates && w.graph.edges[i].src in fates'
               && fates[w.graph.edges[i].src] == fates'[w.graph.edges[i].src]
    ensures JudgeBranch(w, env, seed, fates, n) == JudgeBranch(w, env, seed, fates', n)
  {
    assert ChainAt(w, n) == [] ==> Entry(w, n) == n;
    hide Entry, ChainAt, Judge, Blocked, Arrived;
    JudgeIsLocal(w, env, seed, fates, fates', n);
    if ChainAt(w, n) == [] {
      BlockedIsLocal(w, fates, fates', n);
      BlockedIsLocal(w, fates', fates, n);
    }
  }

  ghost function EvaluateBranch(w: Workflow, env: Env, seed: map<nat, Value>, rank: seq<nat>, n: nat): Fate
    requires ChainsOk(w.graph, w.chains) && IsRank(w.graph, rank) && n < w.graph.size
    decreases rank[n], 1
  {
    EntryIsNoLater(w, rank, n);
    JudgeBranch(w, env, seed, ParentBranches(w, env, seed, rank, Entry(w, n)), n)
  }

  ghost function ParentBranches(w: Workflow, env: Env, seed: map<nat, Value>, rank: seq<nat>, n: nat): Fates
    requires ChainsOk(w.graph, w.chains) && IsRank(w.graph, rank) && n < w.graph.size
    decreases rank[n], 0
  {
    map p | p in Parents(w.graph, n) :: EvaluateBranch(w, env, seed, rank, p)
  }

  /** On an acyclic graph the evaluation with conditions has a solution. */
  lemma BranchEvaluationSolves(w: Workflow, env: Env, seed: map<nat, Value>, rank: seq<nat>) returns (fates: Fates)
    requires ChainsOk(w.graph, w.chains) && IsRank(w.graph, rank)
    ensures SolvesBranches(w, env, seed, fates)
  {
    fates := map n: nat | n < w.graph.size :: EvaluateBranch(w, env, seed, rank, n);
    forall n | n in fates
      ensures fates[n] == JudgeBranch(w, env, seed, fates, n)
    {
      EntryIsNoLater(w, rank, n);
      var below := ParentBranches(w, env, seed, rank, Entry(w, n));
      hide JudgeBranch, Entry, ChainsOk;
      forall i | i in InEdges(w.graph, Entry(w, n))
        ensures w.graph.edges[i].src in below && w.graph.edges[i].src in fates
                && below[w.graph.edges[i].src] == fates[w.graph.edges[i].src]
      {
        assert w.graph.edges[i].src in Parents(w.graph, Entry(w, n));
      }
      BranchIsLocal(w, env, seed, below, fates, n);
    }
  }

  // ----- skips as decisions -----

  function SkipSet(w: Workflow, seed: map<nat, Value>, fates: Fates): set<nat> {
    set n | n in fates && IsSkipped(w, seed, fates, n)
  }

  /** The environment that resolves the skipped nodes itself. */
  function Deciding(env: Env, skips: set<nat>): Env {
    env.(preflight := (n: nat, inputs: Inputs) => if n in skips then Resolve(Skipped) else env.preflight(n, inputs))
  }

  /** With the skips taken for decisions, the fates solve the equations without conditions. */
  lemma SkipsAreDecisions(w: Workflow, env: Env, seed: map<nat, Value>, fates: Fates)
    requires SolvesBranches(w, env, seed, fates)
    ensures Solves(w, Deciding(env, SkipSet(w, seed, fates)), seed, fates)
  {
    var env' := Deciding(env, SkipSet(w, seed, fates));
    forall n | n in fates ensures fates[n] == Judge(w, env', seed, fates, n) {
      assert fates[n] == JudgeBranch(w, env, seed, fates, n);
      if n in SkipSet(w, seed, fates) {
        SkipIsResolved(w, env, seed, fates, n);
      } else {
        JudgedByDecision(w, env, SkipSet(w, seed, fates), seed, fates, n);
      }
    }
  }

  lemma SkipIsResolved(w: Workflow, env: Env, seed: map<nat, Value>, fates: Fates, n: nat)
    requires n in SkipSet(w, seed, fates)
    ensures Judge(w, Deciding(env, SkipSet(w, seed, fates)), seed, fates, n) == Ran(Opened, Skipped)
    ensures JudgeBranch(w, env, seed, fates, n) == Ran(Opened, Skipped)
  {
    hide Arrived, Refused, Blocked, ChainAt, Gather;
  }

  lemma JudgedByDecision(w: Workflow, env: Env, skips: set<nat>, seed: map<nat, Value>, fates: Fates, n: nat)
    requires n !in skips
    ensures Judge(w, Deciding(env, skips), seed, fates, n) == Judge(w, env, seed, fates, n)
  {
    var chain, inputs := ChainAt(w, n), FateInputs(w.graph, fates, Entry(w, n));
    if chain != [] { ComposeDispatches(w, env, Deciding(env, skips), chain, 0, inputs); }
    hide Arrived, Refused, ChainAt, Gather, Compose, Concluded;
  }

  // ----- what a step skips -----

  /** Why a walk of u marks c: a dead edge, or a false condition. */
  ghost predicate MarksAlong(w: Workflow, u: nat, walk: Walk, c: nat, i: nat)
    requires i < |w.graph.edges|
  {
    && w.graph.edges[i].src == u && w.graph.edges[i].dst == c
    && match walk
       case OnSuccess(output) => ErrorBetween(w.graph, u, c) || ConditionFails(w, u, c, output)
       case OnErrorRoute => !ErrorBetween(w.graph, u, c)
       case OnUnblock => false
  }

  lemma {:induction false} WalkMarks(w: Workflow, s: State, u: nat, walk: Walk, k: nat, c: nat) returns (i: nat)
    requires k <= |w.graph.edges| && c !in s.results && c in WalkEdges(w, s, u, walk, k).results
    ensures i < k && MarksAlong(w, u, walk, c, i)
    decreases k
  {
    var e := w.graph.edges[k - 1];
    i := k - 1;
    if e.src != u {
      i := WalkMarks(w, s, u, walk, k - 1, c);
    } else if c !in VisitEdge(w, s, u, e.dst, walk).results {
      i := WalkMarks(w, VisitEdge(w, s, u, e.dst, walk), u, walk, k - 1, c);
    } else {
      hide ErrorBetween, ConditionFails, Cascade, ReleaseEarly, WalkEdges;
    }
  }

  /** The edge is dead once its source has settled as d, or its condition failed the target. */
  ghost predicate MarkedBy(w: Workflow, d: Disposition, output: Option<Value>, c: nat, i: nat)
    requires i < |w.graph.edges|
  {
    && w.graph.edges[i].dst == c
    && (!Delivers(w.graph, d, i)
        || (d == Succeeded && output.Some? && ConditionFails(w, w.graph.edges[i].src, c, output.value)))
  }

  lemma CompletionMarks(w: Workflow, s: State, u: nat, outcome: Result<string>, c: nat) returns (i: nat)
    requires c != u && c !in s.results && c in Complete(w, s, u, outcome).results
    requires Complete(w, s, u, outcome).status == Running && s.status == Running
    ensures i < |w.graph.edges| && w.graph.edges[i].src == u
    ensures MarkedBy(w, OutcomeOf(w, u, outcome), if outcome.Ok? then Some(OutcomeValue(w, u, outcome)) else None, c, i)
  {
    var n, p, v := |w.graph.edges|, ClearChain(w, u, s.pending), OutcomeValue(w, u, outcome);
    hide WalkEdges, ErrorBetween, ConditionFails, ClearChain;
    if outcome.Ok? {
      i := WalkMarks(w, s.(results := s.results[u := v], pending := p), u, OnSuccess(v), n, c);
    } else if RoutesErrors(w.graph, u) {
      i := WalkMarks(w, s.(results := s.results[u := v], pending := p), u, OnErrorRoute, n, c);
    } else {
      i := WalkMarks(w, s.(results := s.results[u := v]), u, OnUnblock, n, c);
    }
  }

  /** The edge along which a step marks c, and what the source's settling says about it. */
  ghost predicate StepMark(w: Workflow, s: State, disp: Dispositions, e: Event, c: nat, i: nat)
    requires Enabled(w, s, e) && i < |w.graph.edges|
  {
    var u := w.graph.edges[i].src;
    && w.graph.edges[i].dst == c && u in Settles(w, s, disp, e)
    && (!Delivers(w.graph, Settles(w, s, disp, e)[u], i)
        || (e.Finish? && e.outcome.Ok? && u == Reporter(w, s.executing[e.index])
            && ConditionFails(w, u, c, Admit(w.policy, e.outcome.value))))
  }

  lemma StepMarks(w: Workflow, s: State, disp: Dispositions, e: Event, c: nat) returns (i: nat)
    requires Inv(w, s, disp, {}) && Enabled(w, s, e) && Step(w, s, e).status == Running
    requires c !in s.results && c in Step(w, s, e).results && c !in Settles(w, s, disp, e)
    ensures i < |w.graph.edges| && StepMark(w, s, disp, e, c, i)
  {
    match e
    case Finish(idx, outcome) =>
      var u := Reporter(w, s.executing[idx]);
      ReporterSettles(w, s, disp, idx, outcome);
      hide Inv, Complete, Reporter, Settles, ConditionFails, Delivers;
      i := CompletionMarks(w, s.(executing := Without(s.executing, idx)), u, outcome, c);
    case Pop(idx, decision) =>
      hide Inv, Fail, WalkEdges, ConditionFails, Delivers, Gather;
      i := PopMarks(w, s, disp, idx, decision, c);
  }

  lemma ReporterSettles(w: Workflow, s: State, disp: Dispositions, idx: nat, outcome: Result<string>)
    requires Inv(w, s, disp, {}) && Enabled(w, s, Finish(idx, outcome))
    ensures var u, settled := Reporter(w, s.executing[idx]), Settles(w, s, disp, Finish(idx, outcome));
            u in settled && settled[u] == OutcomeOf(w, u, outcome)
  {
    JobIsDue(w, s, disp, idx);
    hide Inv, OutcomeOf;
  }

  lemma PopMarks(w: Workflow, s: State, disp: Dispositions, idx: nat, decision: Decision, c: nat) returns (i: nat)
    requires Enabled(w, s, Pop(idx, decision)) && Step(w, s, Pop(idx, decision)).status == Running
    requires c !in s.results && c in Step(w, s, Pop(idx, decision)).results
    requires c !in Settles(w, s, disp, Pop(idx, decision))
    ensures i < |w.graph.edges| && StepMark(w, s, disp, Pop(idx, decision), c, i)
  {
    var n, s1 := s.ready[idx], s.(ready := Without(s.ready, idx));
    hide Complete, WalkEdges, ConditionFails, Delivers, Gather, RoutesErrors;
    match decision
    case Resolve(v) => i := WalkMarks(w, s1.(results := s.results[n := v]), n, OnUnblock, |w.graph.edges|, c);
    case Reject(m) =>
      RejectCompletes(w, s, idx, m);
      i := CompletionMarks(w, s1, n, Err(m), c);
  }

  lemma RejectCompletes(w: Workflow, s: State, idx: nat, m: string)
    requires Enabled(w, s, Pop(idx, Reject(m))) && ChainOf(w.chains, s.ready[idx]).None?
    ensures Step(w, s, Pop(idx, Reject(m))) == Complete(w, s.(ready := Without(s.ready, idx)), s.ready[idx], Err(m))
  {
    hide Fail, Gather;
  }

  // ----- one step -----

  /** The fates of a workflow that branches. */
  ghost predicate Evaluates(w: Workflow, env: Env, seed: map<nat, Value>, fates: Fates) {
    WellFormed(w) && Branches(w) && (seed != map[] ==> w.chains == []) && SolvesBranches(w, env, seed, fates)
  }

  ghost predicate OnBranch(w: Workflow, env: Env, seed: map<nat, Value>, fates: Fates, s: State, disp: Dispositions) {
    OnCourse(w, Deciding(env, SkipSet(w, seed, fates)), seed, fates, s, disp)
  }

  lemma EvaluatesDecided(w: Workflow, env: Env, seed: map<nat, Value>, fates: Fates)
    requires Evaluates(w, env, seed, fates)
    ensures Evaluated(w, Deciding(env, SkipSet(w, seed, fates)), seed, fates)
  {
    hide Solves, SolvesBranches, WellFormed;
    SkipsAreDecisions(w, env, seed, fates);
  }

  lemma SettlesOthers(w: Workflow, s: State, disp: Dispositions, e: Event, n: nat)
    requires Inv(w, s, disp, {}) && Enabled(w, s, e) && n in disp
    ensures n in Settles(w, s, disp, e) && Settles(w, s, disp, e)[n] == disp[n]
  {
    hide *;
    if e.Pop? {
      PopSettlesOthers(w, s, disp, e.index, e.decision, n);
    } else {
      FinishTakes(w, s, e);
      FinishedAs(w, s, disp, e.index, e.outcome);
      JobSettlesOthers(w, disp, s.executing[e.index], OutcomeOf(w, Reporter(w, s.executing[e.index]), e.outcome), n);
    }
  }

  lemma PopSettlesOthers(w: Workflow, s: State, disp: Dispositions, i: nat, decision: Decision, n: nat)
    requires Inv(w, s, disp, {}) && Enabled(w, s, Pop(i, decision)) && n in disp
    ensures n in Settles(w, s, disp, Pop(i, decision)) && Settles(w, s, disp, Pop(i, decision))[n] == disp[n]
  {
    assert i < |s.ready|;
    hide *;
    PoppedIsTaken(w, s, disp, i);
    DueIsUnsettled(w, disp, s.ready[i]);
    OtherThanPopped(w, s, disp, i, decision, n);
  }

  lemma DueIsUnsettled(w: Workflow, disp: Dispositions, n: nat)
    requires Due(w, disp, {}, n)
    ensures n !in disp && n < w.graph.size && Waiting(w.graph, disp, {}, n) == {}
  {
  }

  lemma OtherThanPopped(w: Workflow, s: State, disp: Dispositions, i: nat, decision: Decision, n: nat)
    requires Enabled(w, s, Pop(i, decision)) && n in disp && n != s.ready[i]
    ensures n in Settles(w, s, disp, Pop(i, decision)) && Settles(w, s, disp, Pop(i, decision))[n] == disp[n]
  {
    hide FailureOf, ChainOf;
  }

  lemma FinishedAs(w: Workflow, s: State, disp: Dispositions, i: nat, outcome: Result<string>)
    requires Inv(w, s, disp, {}) && Enabled(w, s, Finish(i, outcome))
    ensures var job := s.executing[i];
            && Settles(w, s, disp, Finish(i, outcome))
                 == SettleJob(w, disp, job, OutcomeOf(w, Reporter(w, job), outcome))
            && job.node !in disp && HeadsFirst(w.chains, disp)
            && (job.chain.Some? ==> job.chain.value < |w.chains| && w.chains[job.chain.value] != []
                                    && w.chains[job.chain.value][0] == job.node)
  {
    JobIsDue(w, s, disp, i);
    assert Settled(w, s, disp, {});
    hide Inv, SettleJob, OutcomeOf, Reporter, Waiting;
  }

  lemma JobSettlesOthers(w: Workflow, disp: Dispositions, job: Job, d: Disposition, n: nat)
    requires n in disp && job.node !in disp && HeadsFirst(w.chains, disp)
    requires job.chain.Some? ==> job.chain.value < |w.chains| && w.chains[job.chain.value] != []
                                 && w.chains[job.chain.value][0] == job.node
    ensures n in SettleJob(w, disp, job, d) && SettleJob(w, disp, job, d)[n] == disp[n]
  {
    if job.chain.Some? {
      SettleChainAt(w.chains[job.chain.value], disp, d, n);
    }
  }

  /** What has settled stays as it settled. */
  lemma SettlesKeeps(w: Workflow, s: State, disp: Dispositions, e: Event, s': State, disp': Dispositions, n: nat)
    requires Inv(w, s, disp, {}) && Enabled(w, s, e) && StepOk(w, s, disp, e, s', disp') && s'.status == Running
    ensures n in Settles(w, s, disp, e) ==> n in disp' && disp'[n] == Settles(w, s, disp, e)[n]
    ensures n in disp ==> n in disp' && disp'[n] == disp[n]
    ensures n in disp ==> n in Settles(w, s, disp, e)
  {
    hide *;
    StepOkInv(w, s, disp, e, s', disp');
    if n in disp { SettlesOthers(w, s, disp, e, n); }
    if n in Settles(w, s, disp, e) { SettledAlready(w, Settles(w, s, disp, e), s', disp', n); }
  }

  /** A settled node waits for nothing. */
  lemma SettledIsDelivered(w: Workflow, s: State, disp: Dispositions, c: nat, i: nat)
    requires Inv(w, s, disp, {}) && c in disp && i in InEdges(w.graph, c)
    ensures c < w.graph.size && w.graph.edges[i].src in disp && Delivers(w.graph, disp[w.graph.edges[i].src], i)
  {
    assert i !in Waiting(w.graph, disp, {}, c);
  }

  /** A node marked by a dead edge never settles. */
  lemma MarkedBeforeStays(w: Workflow, s: State, disp: Dispositions, e: Event, s': State, disp': Dispositions, c: nat)
    requires WellFormed(w) && Inv(w, s, disp, {}) && Enabled(w, s, e) && StepOk(w, s, disp, e, s', disp')
    requires s'.status == Running && c in s.results && c !in disp && c < w.graph.size
    ensures c !in disp'
  {
    assert Marked(w, s, disp, {});
    var i :| i in InEdges(w.graph, c) && Dead(w.graph, disp, {}, i);
    hide Inv, StepOk, WellFormed, Settles;
    SettlesKeeps(w, s, disp, e, s', disp', w.graph.edges[i].src);
    if c in disp' {
      StepOkInv(w, s, disp, e, s', disp');
      SettledIsDelivered(w, s', disp', c, i);
    }
  }

  lemma StepOkInv(w: Workflow, s: State, disp: Dispositions, e: Event, s': State, disp': Dispositions)
    requires Enabled(w, s, e) && StepOk(w, s, disp, e, s', disp') && s'.status == Running
    ensures Inv(w, s', disp', {}) && Grows(s, s') && Extends(w, Settles(w, s, disp, e), s', disp')
  {
  }

  lemma ConditionNamesEdge(w: Workflow, u: nat, c: nat, output: Value)
    requires Branches(w) && ConditionFails(w, u, c, output)
    ensures !InChains(w.chains, c) && forall i | i in InEdges(w.graph, c) :: w.graph.edges[i].src == u
  {
    var j :| 0 <= j < |w.graph.edges| && w.graph.edges[j].src == u && w.graph.edges[j].dst == c
             && w.graph.edges[j].condition.Some?;
    hide ConditionFails, InChains;
  }

  /** The nodes a step skips are those whose fate it is. */
  lemma NewSkipMeets(w: Workflow, env: Env, seed: map<nat, Value>, fates: Fates, s: State, disp: Dispositions,
                     e: Event, s': State, disp': Dispositions, c: nat)
    requires Evaluates(w, env, seed, fates) && OnBranch(w, env, seed, fates, s, disp)
    requires Enabled(w, s, e) && Follows(w, Deciding(env, SkipSet(w, seed, fates)), s, e) && s' == Step(w, s, e)
    requires s'.status == Running && StepOk(w, s, disp, e, s', disp') && c in disp' && c !in Settles(w, s, disp, e)
    ensures c in fates && fates[c] == Ran(Opened, Skipped) && !InChains(w.chains, c)
    ensures disp'[c] == Opened && c in s'.results && s'.results[c] == Skipped
  {
    hide *;
    var env' := Deciding(env, SkipSet(w, seed, fates));
    EvaluatesDecided(w, env, seed, fates);
    EvaluatedParts(w, env', seed, fates);
    BranchCourse(w, env, seed, fates, s, disp);
    StepOkInv(w, s, disp, e, s', disp');
    AddedIsSkipped(w, s, disp, e, s', disp', c);
    var i := SkippingEdge(w, s, disp, e, s', disp', c);
    FinishTakes(w, s, e);
    FinishMeets(w, env', seed, fates, s, disp, e.index, e.outcome);
    FinishedWell(w, Reporter(w, s.executing[e.index]), e.outcome.value);
    SkipIsFate(w, env, seed, fates, s, disp, e, s', disp', c, i);
  }

  lemma BranchCourse(w: Workflow, env: Env, seed: map<nat, Value>, fates: Fates, s: State, disp: Dispositions)
    requires OnBranch(w, env, seed, fates, s, disp)
    ensures Inv(w, s, disp, {}) && Faithful(w, seed, fates, s, disp)
    ensures OnCourse(w, Deciding(env, SkipSet(w, seed, fates)), seed, fates, s, disp)
  {
  }

  lemma AddedIsSkipped(w: Workflow, s: State, disp: Dispositions, e: Event, s': State, disp': Dispositions, c: nat)
    requires WellFormed(w) && Inv(w, s, disp, {}) && Enabled(w, s, e) && StepOk(w, s, disp, e, s', disp')
    requires s'.status == Running && c in disp' && c !in Settles(w, s, disp, e)
    ensures disp'[c] == Opened && c in s'.results && s'.results[c] == Skipped
    ensures c !in disp && c !in s.results && c < w.graph.size
  {
    hide WellFormed, Settles, NoConditions, Inner, SelfFed, Counted, Queued, InFlight, Marked;
    SettlesKeeps(w, s, disp, e, s', disp', c);
    assert c < w.graph.size;
    if c in s.results { MarkedBeforeStays(w, s, disp, e, s', disp', c); }
  }

  lemma FinishTakes(w: Workflow, s: State, e: Event)
    requires Enabled(w, s, e) && e.Finish?
    ensures e.index < |s.executing|
  {
  }

  lemma FinishedWell(w: Workflow, u: nat, raw: string)
    ensures OutcomeOf(w, u, Ok(raw)) == Succeeded && OutcomeValue(w, u, Ok(raw)) == Admit(w.policy, raw)
  {
  }

  /** A newly skipped node was reached by a finished job's edge whose condition is false. */
  lemma SkippingEdge(w: Workflow, s: State, disp: Dispositions, e: Event, s': State, disp': Dispositions, c: nat)
    returns (i: nat)
    requires WellFormed(w) && Inv(w, s, disp, {}) && Enabled(w, s, e) && StepOk(w, s, disp, e, s', disp')
    requires s' == Step(w, s, e) && s'.status == Running
    requires c in disp' && c !in Settles(w, s, disp, e) && c in s'.results && c !in s.results
    ensures e.Finish? && e.outcome.Ok? && i in InEdges(w.graph, c)
    ensures w.graph.edges[i].src == Reporter(w, s.executing[e.index])
    ensures ConditionFails(w, Reporter(w, s.executing[e.index]), c, Admit(w.policy, e.outcome.value))
  {
    hide *;
    StepOkInv(w, s, disp, e, s', disp');
    i := StepMarks(w, s, disp, e, c);
    MarkLeadsTo(w, s, disp, e, c, i);
    SettlesKeeps(w, s, disp, e, s', disp', w.graph.edges[i].src);
    SettledIsDelivered(w, s', disp', c, i);
  }

  lemma MarkLeadsTo(w: Workflow, s: State, disp: Dispositions, e: Event, c: nat, i: nat)
    requires Enabled(w, s, e) && i < |w.graph.edges| && StepMark(w, s, disp, e, c, i)
    ensures i in InEdges(w.graph, c) && w.graph.edges[i].src in Settles(w, s, disp, e)
    ensures Delivers(w.graph, Settles(w, s, disp, e)[w.graph.edges[i].src], i) ==>
              && e.Finish? && e.outcome.Ok? && w.graph.edges[i].src == Reporter(w, s.executing[e.index])
              && ConditionFails(w, w.graph.edges[i].src, c, Admit(w.policy, e.outcome.value))
  {
    hide Settles, Delivers, ConditionFails, Reporter;
  }

  lemma SkipIsFate(w: Workflow, env: Env, seed: map<nat, Value>, fates: Fates, s: State, disp: Dispositions,
                   e: Event, s': State, disp': Dispositions, c: nat, i: nat)
    requires Evaluates(w, env, seed, fates) && Faithful(w, seed, fates, s, disp) && WellFormed(w)
    requires Inv(w, s, disp, {}) && Enabled(w, s, e) && StepOk(w, s, disp, e, s', disp') && s'.status == Running
    requires c in disp' && c !in disp && c < w.graph.size && e.Finish? && e.outcome.Ok? && i in InEdges(w.graph, c)
    requires var u, v := Reporter(w, s.executing[e.index]), Admit(w.policy, e.outcome.value);
             && w.graph.edges[i].src == u && ConditionFails(w, u, c, v)
             && u in fates && fates[u] == Ran(Succeeded, v)
    ensures c in fates && fates[c] == Ran(Opened, Skipped) && !InChains(w.chains, c)
  {
    hide *;
    EvaluatesParts(w, env, seed, fates);
    FinishTakes(w, s, e);
    var u, v := Reporter(w, s.executing[e.index]), Admit(w.policy, e.outcome.value);
    ConditionNamesEdge(w, u, c, v);
    LooseChainAt(w, c);
    SeededIsSettled(w, seed, fates, s, disp, c);
    ReporterSettles(w, s, disp, e.index, e.outcome);
    FinishedWell(w, u, e.outcome.value);
    SettlesKeeps(w, s, disp, e, s', disp', u);
    StepOkInv(w, s, disp, e, s', disp');
    AllFromParent(w, s', disp', u, c);
    BlockedFate(w, env, seed, fates, u, v, c);
  }

  lemma AllFromParent(w: Workflow, s: State, disp: Dispositions, u: nat, c: nat)
    requires Inv(w, s, disp, {}) && c in disp && u in disp
    requires forall i | i in InEdges(w.graph, c) :: w.graph.edges[i].src == u
    ensures forall i | i in InEdges(w.graph, c) :: w.graph.edges[i].src == u && Delivers(w.graph, disp[u], i)
  {
    hide Inv, Delivers;
    forall i | i in InEdges(w.graph, c) ensures Delivers(w.graph, disp[u], i) {
      SettledIsDelivered(w, s, disp, c, i);
    }
  }

  lemma EvaluatesParts(w: Workflow, env: Env, seed: map<nat, Value>, fates: Fates)
    requires Evaluates(w, env, seed, fates)
    ensures WellFormed(w) && Branches(w) && (seed != map[] ==> w.chains == []) && SolvesBranches(w, env, seed, fates)
  {
  }

  lemma LooseChainAt(w: Workflow, c: nat)
    requires !InChains(w.chains, c)
    ensures ChainAt(w, c) == [] && ChainOf(w.chains, c).None?
  {
    ChainOfFinds(w.chains, c);
  }

  lemma FalseEdge(w: Workflow, u: nat, c: nat, output: Value) returns (i: nat)
    requires ConditionFails(w, u, c, output)
    ensures Joins(w.graph, i, u, c) && w.graph.edges[i].condition.Some?
    ensures !w.policy.holds(w.graph.edges[i].condition.value, output)
  {
    ConditionFailsIff(w, u, c, output);
    i :| 0 <= i < |w.graph.edges| && Joins(w.graph, i, u, c) && w.graph.edges[i].condition.Some?
         && !w.policy.holds(w.graph.edges[i].condition.value, output);
  }

  lemma BlockedFate(w: Workflow, env: Env, seed: map<nat, Value>, fates: Fates, u: nat, v: Value, c: nat)
    requires SolvesBranches(w, env, seed, fates) && c < w.graph.size && c !in seed && ChainAt(w, c) == []
    requires u in fates && fates[u] == Ran(Succeeded, v) && ConditionFails(w, u, c, v)
    requires forall j | j in InEdges(w.graph, c) :: w.graph.edges[j].src == u && Delivers(w.graph, Succeeded, j)
    ensures c in fates && fates[c] == Ran(Opened, Skipped) && c in SkipSet(w, seed, fates)
  {
    assert c in fates && fates[c] == JudgeBranch(w, env, seed, fates, c);
    var k := FalseEdge(w, u, c, v);
    hide SolvesBranches, ConditionFails, Judge, Delivers, ChainAt;
    assert forall j | j in InEdges(w.graph, c) :: Arrives(w.graph, fates, j);
    assert k in InEdges(w.graph, c) && Blocks(w, fates, k);
  }

  // ----- skips are never late -----

  /** A node to be skipped is skipped with its last delivery: none of them is due. */
  ghost predicate Prompt(w: Workflow, seed: map<nat, Value>, fates: Fates, disp: Dispositions) {
    forall n | n in SkipSet(w, seed, fates) && n !in disp :: Waiting(w.graph, disp, {}, n) != {}
  }

  /** A skipped node has one parent, which succeeded with an output that fails the condition. */
  lemma SkipHasParent(w: Workflow, seed: map<nat, Value>, fates: Fates, n: nat) returns (p: nat, v: Value)
    requires Branches(w) && n in SkipSet(w, seed, fates)
    ensures p in fates && fates[p] == Ran(Succeeded, v) && ConditionFails(w, p, n, v)
    ensures forall i | i in InEdges(w.graph, n) :: w.graph.edges[i].src == p
    ensures exists i :: i in InEdges(w.graph, n)
    ensures forall i | i in InEdges(w.graph, n) :: Delivers(w.graph, Succeeded, i)
  {
    var i :| i in InEdges(w.graph, n) && Blocks(w, fates, i);
    p := w.graph.edges[i].src;
    v := fates[p].value;
    assert Joins(w.graph, i, p, n);
    ConditionFailsIff(w, p, n, v);
    ConditionNamesEdge(w, p, n, v);
    hide ConditionFails, Branches, ChainAt, Delivers;
    forall j | j in InEdges(w.graph, n) ensures Delivers(w.graph, Succeeded, j) {
      assert Arrives(w.graph, fates, j);
    }
  }

  lemma StartIsPrompt(w: Workflow, seed: map<nat, Value>, env: Env, fates: Fates)
    requires Branches(w) && Startable(w, seed) && SolvesBranches(w, env, seed, fates)
    ensures Prompt(w, seed, fates, SeedDispositions(w.graph, seed))
  {
    var disp := SeedDispositions(w.graph, seed);
    hide Startable, IsSkipped, Judge, Branches, ConditionFails;
    forall n | n in SkipSet(w, seed, fates) && n !in disp ensures Waiting(w.graph, disp, {}, n) != {} {
      var p, v := SkipHasParent(w, seed, fates, n);
      var i :| i in InEdges(w.graph, n);
      assert fates[p] == JudgeBranch(w, env, seed, fates, p);
      SeededFate(w, env, seed, fates, p);
      assert i in Waiting(w.graph, disp, {}, n);
    }
  }

  lemma SeededFate(w: Workflow, env: Env, seed: map<nat, Value>, fates: Fates, p: nat)
    ensures p in seed ==> JudgeBranch(w, env, seed, fates, p) == Ran(Opened, seed[p])
  {
  }

  /** What is in front of the queue is not to be skipped. */
  lemma PoppedIsNotSkipped(w: Workflow, seed: map<nat, Value>, fates: Fates, s: State, disp: Dispositions, i: nat)
    requires Inv(w, s, disp, {}) && i < |s.ready| && Prompt(w, seed, fates, disp)
    ensures s.ready[i] !in SkipSet(w, seed, fates)
  {
    hide *;
    PoppedIsTaken(w, s, disp, i);
    DueIsUnsettled(w, disp, s.ready[i]);
    PromptAt(w, seed, fates, disp, s.ready[i]);
  }

  lemma PromptAt(w: Workflow, seed: map<nat, Value>, fates: Fates, disp: Dispositions, n: nat)
    requires Prompt(w, seed, fates, disp)
    ensures n in SkipSet(w, seed, fates) && n !in disp ==> Waiting(w.graph, disp, {}, n) != {}
  {
  }

  /** The parent of a node that is now due settled in this step, by finishing a job. */
  lemma ParentFinished(w: Workflow, env: Env, seed: map<nat, Value>, fates: Fates, s: State, disp: Dispositions,
                       e: Event, s': State, disp': Dispositions, n: nat, p: nat, v: Value)
    requires WellFormed(w) && Inv(w, s, disp, {}) && Enabled(w, s, e) && StepOk(w, s, disp, e, s', disp')
    requires s'.status == Running && Faithful(w, seed, fates, s', disp')
    requires n !in disp && Waiting(w.graph, disp, {}, n) != {} && Waiting(w.graph, disp', {}, n) == {}
    requires p in fates && fates[p] == Ran(Succeeded, v)
    requires forall i | i in InEdges(w.graph, n) :: w.graph.edges[i].src == p && Delivers(w.graph, Succeeded, i)
    ensures p !in disp && p in disp' && disp'[p] == Succeeded && p in s'.results && s'.results[p] == v
  {
    hide *;
    var i :| i in Waiting(w.graph, disp, {}, n);
    AwaitedEdgeOf(w, disp, n, i);
    ArrivedEdge(w, disp', n, i);
    MetRan(w, seed, fates, s', disp', p);
    if p in disp { SettlesKeeps(w, s, disp, e, s', disp', p); }
  }

  lemma AwaitedEdgeOf(w: Workflow, disp: Dispositions, n: nat, i: nat)
    requires i in Waiting(w.graph, disp, {}, n)
    ensures i in InEdges(w.graph, n) && i < |w.graph.edges|
    ensures w.graph.edges[i].src in disp ==> !Delivers(w.graph, disp[w.graph.edges[i].src], i)
  {
  }

  lemma ArrivedEdge(w: Workflow, disp: Dispositions, n: nat, i: nat)
    requires i in InEdges(w.graph, n) && Waiting(w.graph, disp, {}, n) == {}
    ensures w.graph.edges[i].src in disp
  {
    assert i !in Waiting(w.graph, disp, {}, n);
  }

  lemma MetRan(w: Workflow, seed: map<nat, Value>, fates: Fates, s: State, disp: Dispositions, p: nat)
    requires Faithful(w, seed, fates, s, disp) && p in disp && p in fates && fates[p].Ran?
    ensures disp[p] == fates[p].how && p in s.results && s.results[p] == fates[p].value
  {
    assert Met(w, fates, s, disp, p);
  }

  /** Only a job that finishes well settles its reporter as succeeded. */
  lemma SucceededByFinish(w: Workflow, s: State, disp: Dispositions, e: Event, p: nat)
    requires Inv(w, s, disp, {}) && Enabled(w, s, e) && p in Settles(w, s, disp, e) && p !in disp
    requires Settles(w, s, disp, e)[p] == Succeeded
    ensures e.Finish? && e.outcome.Ok? && p == Reporter(w, s.executing[e.index])
    ensures Records(w, s, e) == Some((p, Admit(w.policy, e.outcome.value)))
  {
    hide *;
    if e.Pop? {
      PopSettlesNoSuccess(w, s, disp, e.index, e.decision, p);
    } else {
      FinishTakes(w, s, e);
      FinishedAs(w, s, disp, e.index, e.outcome);
      var job := s.executing[e.index];
      JobSettlesSuccess(w, disp, job, OutcomeOf(w, Reporter(w, job), e.outcome), p);
      FinishedBy(w, s, e, job);
    }
  }

  lemma PopSettlesNoSuccess(w: Workflow, s: State, disp: Dispositions, i: nat, decision: Decision, p: nat)
    requires Enabled(w, s, Pop(i, decision)) && p in Settles(w, s, disp, Pop(i, decision)) && p !in disp
    ensures Settles(w, s, disp, Pop(i, decision))[p] != Succeeded
  {
    hide ChainOf, RoutesErrors;
  }

  lemma JobSettlesSuccess(w: Workflow, disp: Dispositions, job: Job, d: Disposition, p: nat)
    requires p in SettleJob(w, disp, job, d) && p !in disp && SettleJob(w, disp, job, d)[p] == Succeeded
    requires job.chain.Some? ==> job.chain.value < |w.chains| && w.chains[job.chain.value] != []
    ensures p == Reporter(w, job) && d == Succeeded
  {
    if job.chain.Some? { SettleChainAt(w.chains[job.chain.value], disp, d, p); }
  }

  lemma FinishedBy(w: Workflow, s: State, e: Event, job: Job)
    requires Enabled(w, s, e) && e.Finish? && job == s.executing[e.index]
    requires OutcomeOf(w, Reporter(w, job), e.outcome) == Succeeded
    ensures e.outcome.Ok?
    ensures Records(w, s, e) == Some((Reporter(w, job), Admit(w.policy, e.outcome.value)))
  {
    hide Reporter, Admit, RoutesErrors;
  }

  /** A marked, unsettled node waits for the edge that marked it. */
  lemma MarkedWaits(w: Workflow, s: State, disp: Dispositions, n: nat)
    requires Inv(w, s, disp, {}) && n in s.results && n !in disp && n < w.graph.size
    ensures Waiting(w.graph, disp, {}, n) != {}
  {
    assert Marked(w, s, disp, {});
    var i :| i in InEdges(w.graph, n) && Dead(w.graph, disp, {}, i);
    assert i in Waiting(w.graph, disp, {}, n);
  }

  ghost predicate StepsOn(w: Workflow, env: Env, seed: map<nat, Value>, fates: Fates, s: State, disp: Dispositions,
                          e: Event, s': State, disp': Dispositions)
  {
    && Evaluates(w, env, seed, fates) && OnBranch(w, env, seed, fates, s, disp) && Prompt(w, seed, fates, disp)
    && Enabled(w, s, e) && Follows(w, Deciding(env, SkipSet(w, seed, fates)), s, e) && s' == Step(w, s, e)
    && s'.status == Running && StepOk(w, s, disp, e, s', disp')
  }

  lemma StepsOnParts(w: Workflow, env: Env, seed: map<nat, Value>, fates: Fates, s: State, disp: Dispositions,
                     e: Event, s': State, disp': Dispositions)
    requires StepsOn(w, env, seed, fates, s, disp, e, s', disp')
    ensures Evaluates(w, env, seed, fates) && OnBranch(w, env, seed, fates, s, disp) && Prompt(w, seed, fates, disp)
    ensures Enabled(w, s, e) && Follows(w, Deciding(env, SkipSet(w, seed, fates)), s, e) && s' == Step(w, s, e)
    ensures s'.status == Running && StepOk(w, s, disp, e, s', disp')
    ensures Inv(w, s, disp, {}) && Inv(w, s', disp', {})
    ensures WellFormed(w) && Branches(w) && SolvesBranches(w, env, seed, fates)
  {
  }

  lemma StaysFaithful(w: Workflow, env: Env, seed: map<nat, Value>, fates: Fates, s: State, disp: Dispositions,
                      e: Event, s': State, disp': Dispositions)
    requires StepsOn(w, env, seed, fates, s, disp, e, s', disp')
    ensures Faithful(w, seed, fates, s', disp')
  {
    hide *;
    var env' := Deciding(env, SkipSet(w, seed, fates));
    StepsOnParts(w, env, seed, fates, s, disp, e, s', disp');
    EvaluatesDecided(w, env, seed, fates);
    BranchCourse(w, env, seed, fates, s, disp);
    match e {
      case Pop(i, decision) => PopStaysFaithful(w, env', seed, fates, s, disp, i, decision, s', disp');
      case Finish(i, outcome) => FinishStaysFaithful(w, env', seed, fates, s, disp, i, outcome, s', disp');
    }
    forall n | n in disp' && n !in Settles(w, s, disp, e)
      ensures n in fates && fates[n] == Ran(Opened, Skipped) && disp'[n] == Opened
      ensures n in s'.results && s'.results[n] == Skipped
    {
      NewSkipMeets(w, env, seed, fates, s, disp, e, s', disp', n);
    }
    forall n | n in Settles(w, s, disp, e) ensures n in disp' && disp'[n] == Settles(w, s, disp, e)[n] {
      SettlesKeeps(w, s, disp, e, s', disp', n);
    }
    FaithfulWithSkips(w, seed, fates, s', Settles(w, s, disp, e), disp');
  }

  lemma FaithfulWithSkips(w: Workflow, seed: map<nat, Value>, fates: Fates, s: State, disp: Dispositions,
                          disp': Dispositions)
    requires Faithful(w, seed, fates, s, disp)
    requires forall n | n in disp :: n in disp' && disp'[n] == disp[n]
    requires forall n | n in disp' && n !in disp ::
               && n in fates && fates[n] == Ran(Opened, Skipped) && disp'[n] == Opened
               && n in s.results && s.results[n] == Skipped
    ensures Faithful(w, seed, fates, s, disp')
  {
    forall n | n in disp' ensures Met(w, fates, s, disp', n) {
      assert n in disp ==> Met(w, fates, s, disp, n);
    }
  }

  lemma StaysPrompt(w: Workflow, env: Env, seed: map<nat, Value>, fates: Fates, s: State, disp: Dispositions,
                    e: Event, s': State, disp': Dispositions)
    requires StepsOn(w, env, seed, fates, s, disp, e, s', disp')
    ensures Prompt(w, seed, fates, disp')
  {
    forall n | n in SkipSet(w, seed, fates) && n !in disp' ensures Waiting(w.graph, disp', {}, n) != {} {
      StaysPromptAt(w, env, seed, fates, s, disp, e, s', disp', n);
    }
  }

  lemma StaysPromptAt(w: Workflow, env: Env, seed: map<nat, Value>, fates: Fates, s: State, disp: Dispositions,
                      e: Event, s': State, disp': Dispositions, n: nat)
    requires StepsOn(w, env, seed, fates, s, disp, e, s', disp') && n in SkipSet(w, seed, fates) && n !in disp'
    ensures Waiting(w.graph, disp', {}, n) != {}
  {
    hide *;
    StepsOnParts(w, env, seed, fates, s, disp, e, s', disp');
    if Waiting(w.graph, disp', {}, n) == {} {
      SettlesKeeps(w, s, disp, e, s', disp', n);
      PromptAt(w, seed, fates, disp, n);
      StaysFaithful(w, env, seed, fates, s, disp, e, s', disp');
      var p, v := SkipHasParent(w, seed, fates, n);
      ParentFinished(w, env, seed, fates, s, disp, e, s', disp', n, p, v);
      SettlesKeeps(w, s, disp, e, s', disp', p);
      if p !in Settles(w, s, disp, e) {
        NewSkipMeets(w, env, seed, fates, s, disp, e, s', disp', p);
      } else {
        SucceededByFinish(w, s, disp, e, p);
        RecordedIsThere(w, s, disp, e, s', disp');
        JobSkips(w, s, disp, e.index, e.outcome.value, n, p);
        NodeOfSkip(w, env, seed, fates, n);
        MarkedWaits(w, s', disp', n);
      }
    }
  }

  lemma NodeOfSkip(w: Workflow, env: Env, seed: map<nat, Value>, fates: Fates, n: nat)
    requires SolvesBranches(w, env, seed, fates) && n in SkipSet(w, seed, fates)
    ensures n < w.graph.size
  {
  }

  lemma JobSkips(w: Workflow, s: State, disp: Dispositions, idx: nat, raw: string, n: nat, p: nat)
    requires WellFormed(w) && Inv(w, s, disp, {}) && Enabled(w, s, Finish(idx, Ok(raw)))
    requires p == Reporter(w, s.executing[idx]) && Waiting(w.graph, disp, {}, n) != {}
    requires forall i | i in InEdges(w.graph, n) :: w.graph.edges[i].src == p && Delivers(w.graph, Succeeded, i)
    requires ConditionFails(w, p, n, Admit(w.policy, raw))
    ensures n in Step(w, s, Finish(idx, Ok(raw))).results
  {
    var i :| i in Waiting(w.graph, disp, {}, n);
    assert i in InEdges(w.graph, n) && !ErrorBetween(w.graph, p, n);
    forall j | j in Waiting(w.graph, disp, {}, n) ensures w.graph.edges[j].src == p {
      assert j in InEdges(w.graph, n);
    }
    hide Inv, WellFormed, Step, ConditionFails, Waiting, Reporter;
    LastJobDecides(w, s, disp, idx, raw, n);
  }

  // ----- whole runs -----

  ghost predicate OnPath(w: Workflow, env: Env, seed: map<nat, Value>, fates: Fates, s: State, disp: Dispositions) {
    OnBranch(w, env, seed, fates, s, disp) && Prompt(w, seed, fates, disp) && Live(w, s, disp)
  }

  lemma OnPathParts(w: Workflow, env: Env, seed: map<nat, Value>, fates: Fates, s: State, disp: Dispositions)
    requires OnPath(w, env, seed, fates, s, disp)
    ensures OnBranch(w, env, seed, fates, s, disp) && Prompt(w, seed, fates, disp) && Live(w, s, disp)
    ensures Inv(w, s, disp, {}) && Wanted(Deciding(env, SkipSet(w, seed, fates)), s.executing)
  {
  }

  /** The decided environment is followed as well: nobody asks about a skipped node. */
  lemma FollowsDeciding(w: Workflow, env: Env, seed: map<nat, Value>, fates: Fates, s: State, disp: Dispositions,
                        e: Event)
    requires Inv(w, s, disp, {}) && Prompt(w, seed, fates, disp) && Enabled(w, s, e) && Follows(w, env, s, e)
    ensures Follows(w, Deciding(env, SkipSet(w, seed, fates)), s, e)
  {
    assert e.Pop? ==> e.index < |s.ready|;
    hide *;
    DecidesElsewhere(env, SkipSet(w, seed, fates));
    if e.Pop? { PoppedIsNotSkipped(w, seed, fates, s, disp, e.index); }
    FollowsToo(w, env, Deciding(env, SkipSet(w, seed, fates)), s, e);
  }

  lemma DecidesElsewhere(env: Env, skips: set<nat>)
    ensures Deciding(env, skips).dispatch == env.dispatch
    ensures forall n, inputs | n !in skips :: Deciding(env, skips).preflight(n, inputs) == env.preflight(n, inputs)
  {
  }

  /** A step that strands nothing leaves nothing stalled. */
  lemma StaysLive(w: Workflow, s: State, disp: Dispositions, e: Event, s': State, disp': Dispositions)
    requires Live(w, s, disp) && Enabled(w, s, e) && StepOk(w, s, disp, e, s', disp') && s'.status == Running
    requires StrandedByStep(w, s, e) == {}
    requires forall n | n in disp' && n !in Settles(w, s, disp, e) :: !InChains(w.chains, n)
    ensures Live(w, s', disp')
  {
    hide *;
    StepOkInv(w, s, disp, e, s', disp');
    StepStalls(w, s, disp, e, s', disp');
    forall n | n in Settles(w, s, disp, e) ensures n in disp' && disp'[n] == Settles(w, s, disp, e)[n] {
      SettledAlready(w, Settles(w, s, disp, e), s', disp', n);
    }
    LooseSkipsKeepChainsWhole(w, s', Settles(w, s, disp, e), disp');
  }

  lemma StepStalls(w: Workflow, s: State, disp: Dispositions, e: Event, s': State, disp': Dispositions)
    requires Live(w, s, disp) && Enabled(w, s, e) && StepOk(w, s, disp, e, s', disp') && s'.status == Running
    requires StrandedByStep(w, s, e) == {}
    ensures StalledNodes(w, s', disp', {}) == {} && WholeChains(w, Settles(w, s, disp, e))
  {
    hide StalledNodes, Inv, Settles, NextExecuting, Records, StrandedByStep, Extends, WholeChains, Grows;
  }

  lemma LooseSkipsKeepChainsWhole(w: Workflow, s: State, disp: Dispositions, disp': Dispositions)
    requires WholeChains(w, disp) && StalledNodes(w, s, disp', {}) == {}
    requires forall n | n in disp :: n in disp' && disp'[n] == disp[n]
    requires forall n | n in disp' && n !in disp :: !InChains(w.chains, n)
    ensures Live(w, s, disp')
  {
    hide StalledNodes;
    forall k, j | 0 <= k < |w.chains| && 0 <= j < |w.chains[k]| && w.chains[k][0] in disp'
      ensures w.chains[k][j] in disp' && (j < |w.chains[k]| - 1 ==> disp'[w.chains[k][j]] == Batched)
    {
      assert w.chains[k][0] in w.chains[k] && w.chains[k][j] in w.chains[k];
    }
  }

  lemma StepStaysOnPath(w: Workflow, env: Env, seed: map<nat, Value>, fates: Fates, s: State, disp: Dispositions,
                        e: Event) returns (disp': Dispositions)
    requires Evaluates(w, env, seed, fates) && OnPath(w, env, seed, fates, s, disp)
    requires Enabled(w, s, e) && Follows(w, env, s, e) && Step(w, s, e).status == Running
    requires StrandedByStep(w, s, e) == {}
    ensures OnPath(w, env, seed, fates, Step(w, s, e), disp')
  {
    hide *;
    var s' := Step(w, s, e);
    OnPathParts(w, env, seed, fates, s, disp);
    EvaluatesParts(w, env, seed, fates);
    FollowsDeciding(w, env, seed, fates, s, disp, e);
    disp' := StepKeeps(w, s, disp, e);
    StepsOnOf(w, env, seed, fates, s, disp, e, s', disp');
    StaysFaithful(w, env, seed, fates, s, disp, e, s', disp');
    StaysPrompt(w, env, seed, fates, s, disp, e, s', disp');
    StepKeepsWanted(w, Deciding(env, SkipSet(w, seed, fates)), s, e);
    forall n | n in disp' && n !in Settles(w, s, disp, e) ensures !InChains(w.chains, n) {
      NewSkipMeets(w, env, seed, fates, s, disp, e, s', disp', n);
    }
    StaysLive(w, s, disp, e, s', disp');
    NextOnPath(w, env, seed, fates, s, disp, e, s', disp');
  }

  lemma StepsOnOf(w: Workflow, env: Env, seed: map<nat, Value>, fates: Fates, s: State, disp: Dispositions,
                  e: Event, s': State, disp': Dispositions)
    requires Evaluates(w, env, seed, fates) && OnBranch(w, env, seed, fates, s, disp) && Prompt(w, seed, fates, disp)
    requires Enabled(w, s, e) && Follows(w, Deciding(env, SkipSet(w, seed, fates)), s, e) && s' == Step(w, s, e)
    requires s'.status == Running && StepOk(w, s, disp, e, s', disp')
    ensures StepsOn(w, env, seed, fates, s, disp, e, s', disp')
  {
  }

  lemma NextOnPath(w: Workflow, env: Env, seed: map<nat, Value>, fates: Fates, s: State, disp: Dispositions,
                   e: Event, s': State, disp': Dispositions)
    requires Enabled(w, s, e) && StepOk(w, s, disp, e, s', disp') && s'.status == Running
    requires Faithful(w, seed, fates, s', disp') && Prompt(w, seed, fates, disp') && Live(w, s', disp')
    requires Wanted(Deciding(env, SkipSet(w, seed, fates)), NextExecuting(w, s, e))
    ensures OnPath(w, env, seed, fates, s', disp')
  {
    hide Inv, Faithful, Prompt, Live, Wanted, NextExecuting, Settles, Records, StalledNodes, SkipSet;
  }

  lemma {:induction false} DrivenStaysOnPath(w: Workflow, env: Env, seed: map<nat, Value>, fates: Fates,
                                             s: State, disp: Dispositions, events: seq<Event>)
    returns (disp': Dispositions)
    requires Evaluates(w, env, seed, fates) && Driven(w, env, s, events) && IsRun(w, s, events)
    requires s.status == Running && OnPath(w, env, seed, fates, s, disp) && StrandedIn(w, s, events) == {}
    ensures var t := After(w, s, events);
            if t.status == Running then OnPath(w, env, seed, fates, t, disp')
            else exists n | n in fates :: fates[n] == Ends
    decreases |events|
  {
    hide Evaluates, OnPath, Step, Follows, StrandedByStep, Enabled;
    disp' := disp;
    if events != [] {
      var e, s' := events[0], Step(w, s, events[0]);
      if s'.status == Running {
        var disp1 := StepStaysOnPath(w, env, seed, fates, s, disp, e);
        DrivenIsRun(w, env, s', events[1..]);
        disp' := DrivenStaysOnPath(w, env, seed, fates, s', disp1, events[1..]);
      } else {
        var n := StopOnPath(w, env, seed, fates, s, disp, e);
        StoppedRunsEnd(w, s', events[1..]);
      }
    }
  }

  lemma StopOnPath(w: Workflow, env: Env, seed: map<nat, Value>, fates: Fates, s: State, disp: Dispositions, e: Event)
    returns (n: nat)
    requires Evaluates(w, env, seed, fates) && OnPath(w, env, seed, fates, s, disp)
    requires Enabled(w, s, e) && Follows(w, env, s, e) && Step(w, s, e).status != Running
    ensures n in fates && fates[n] == Ends
  {
    hide *;
    OnPathParts(w, env, seed, fates, s, disp);
    FollowsDeciding(w, env, seed, fates, s, disp, e);
    EvaluatesDecided(w, env, seed, fates);
    BranchCourse(w, env, seed, fates, s, disp);
    n := StoppingStepEnds(w, Deciding(env, SkipSet(w, seed, fates)), seed, fates, s, disp, e);
  }

  lemma StartIsOnPath(w: Workflow, env: Env, seed: map<nat, Value>, fates: Fates)
    requires Startable(w, seed) && Branches(w) && SolvesBranches(w, env, seed, fates)
    ensures Evaluates(w, env, seed, fates) && Start(w, seed).status == Running
    ensures OnPath(w, env, seed, fates, Start(w, seed), SeedDispositions(w.graph, seed))
  {
    var env' := Deciding(env, SkipSet(w, seed, fates));
    assert Start(w, seed).executing == [] && Wanted(env', []);
    hide Inv, Live, Prompt, Faithful, Solves, SolvesBranches, Branches, WellFormed, Start, SkipSet, Wanted;
    StartIsLive(w, seed);
    StartIsPrompt(w, seed, env, fates);
    SkipsAreDecisions(w, env, seed, fates);
    StartIsFaithful(w, env', seed, fates);
    assert Start(w, seed).status == Running by { StartRuns(w, seed); }
  }

  lemma StartRuns(w: Workflow, seed: map<nat, Value>)
    ensures Start(w, seed).status == Running
  {
  }

  /** Where conditions branch, every run that comes to rest with nothing stranded holds the fates
      that the evaluation with conditions assigns: batched or not, in every completion and queue
      order, and whatever fails. */
  lemma BranchingRunsComputeFates(w: Workflow, env: Env, seed: map<nat, Value>, fates: Fates,
                                  events: seq<Event>, n: nat)
    requires Startable(w, seed) && Acyclic(w.graph) && Branches(w) && SolvesBranches(w, env, seed, fates)
    requires Driven(w, env, Start(w, seed), events) && IsRun(w, Start(w, seed), events)
    requires StrandedIn(w, Start(w, seed), events) == {}
    requires Quiescent(After(w, Start(w, seed), events)) && n < w.graph.size
    ensures Lookup(After(w, Start(w, seed), events).results, n) == ResultOf(fates[n])
    ensures fates[n] != Ends
  {
    var rank :| IsRank(w.graph, rank);
    assert n in fates && After(w, Start(w, seed), events).status == Running;
    hide *;
    StartIsOnPath(w, env, seed, fates);
    var disp := DrivenStaysOnPath(w, env, seed, fates, Start(w, seed), SeedDispositions(w.graph, seed), events);
    var t, env' := After(w, Start(w, seed), events), Deciding(env, SkipSet(w, seed, fates));
    OnPathParts(w, env, seed, fates, t, disp);
    BranchCourse(w, env, seed, fates, t, disp);
    EvaluatesDecided(w, env, seed, fates);
    RestHoldsResults(w, env', seed, fates, rank, t, disp, n);
    RestIsFate(w, env', seed, fates, rank, t, disp, n);
  }

  lemma StoppedBranchesEnd(w: Workflow, env: Env, seed: map<nat, Value>, fates: Fates, events: seq<Event>)
    requires Startable(w, seed) && Acyclic(w.graph) && Branches(w) && SolvesBranches(w, env, seed, fates)
    requires Driven(w, env, Start(w, seed), events) && IsRun(w, Start(w, seed), events)
    requires StrandedIn(w, Start(w, seed), events) == {} && Maximal(After(w, Start(w, seed), events))
    ensures Quiescent(After(w, Start(w, seed), events)) <==> forall n | n in fates :: fates[n] != Ends
  {
    var t := After(w, Start(w, seed), events);
    assert forall n | n in fates :: n < w.graph.size;
    hide Startable, Acyclic, Branches, SolvesBranches, After, IsRun, Driven, Start, StrandedIn;
    if Quiescent(t) {
      forall n | n in fates ensures fates[n] != Ends {
        BranchingRunsComputeFates(w, env, seed, fates, events, n);
      }
    } else {
      StartIsOnPath(w, env, seed, fates);
      var _ := DrivenStaysOnPath(w, env, seed, fates, Start(w, seed), SeedDispositions(w.graph, seed), events);
    }
  }

  /** Schedule independence with branching.  Two runs to the end that strand nothing either both
      complete, with the same `results`, or neither completes: the completion order can decide
      whether a cascade strands a node, and nothing else. */
  lemma BranchingIsIndependent(w: Workflow, env: Env, seed: map<nat, Value>, events: seq<Event>, events': seq<Event>)
    requires Startable(w, seed) && Acyclic(w.graph) && Branches(w)
    requires Driven(w, env, Start(w, seed), events) && IsRun(w, Start(w, seed), events)
    requires Driven(w, env, Start(w, seed), events') && IsRun(w, Start(w, seed), events')
    requires StrandedIn(w, Start(w, seed), events) == {} && StrandedIn(w, Start(w, seed), events') == {}
    ensures var t, t' := After(w, Start(w, seed), events), After(w, Start(w, seed), events');
            Maximal(t) && Maximal(t') ==>
              && (Quiescent(t) <==> Quiescent(t'))
              && (Quiescent(t) ==> t.results == t'.results)
  {
    var rank :| IsRank(w.graph, rank);
    assert ChainsOk(w.graph, w.chains);
    hide Startable, Acyclic, Branches, After, IsRun, Driven, Start, StrandedIn, SolvesBranches, Quiescent, ChainsOk;
    var fates := BranchEvaluationSolves(w, env, seed, rank);
    var t, t' := After(w, Start(w, seed), events), After(w, Start(w, seed), events');
    if Maximal(t) && Maximal(t') {
      StoppedBranchesEnd(w, env, seed, fates, events);
      StoppedBranchesEnd(w, env, seed, fates, events');
      if Quiescent(t) {
        forall n: nat | n < w.graph.size ensures Lookup(t.results, n) == Lookup(t'.results, n) {
          BranchingRunsComputeFates(w, env, seed, fates, events, n);
          BranchingRunsComputeFates(w, env, seed, fates, events', n);
        }
        ResultsAgree(w, seed, w, seed, events, events');
      }
    }
  }

  // ----- an example: what the order still decides -----

  /** 0 -> 2 on a condition that fails, and 1 -> 3, 2 -> 3. */
  function Ramp(): Workflow {
    Workflow(Graph(4, [Edge(0, 2, false, Some("never")), Edge(1, 3, false, None), Edge(2, 3, false, None)]),
             map[], {}, [], FREE)
  }

  function OnRamp(results: map<nat, Value>, two: nat, three: nat, ready: seq<nat>, executing: seq<Job>): State {
    State(results, map[0 := 0, 1 := 0, 2 := two, 3 := three], ready, executing, Running)
  }

  lemma RampCounts(n: nat)
    requires n < 4
    ensures SeededCount(Ramp().graph, {}, n) == if n == 2 then 1 else if n == 3 then 2 else 0
  {
    var g := Ramp().graph;
    assert FromUnseeded(g, {}, n) == InEdges(g, n);
    assert InEdges(g, n) == if n == 2 then {0} else if n == 3 then {1, 2} else {};
  }

  lemma RampRoots()
    ensures Roots(Ramp().graph, {}, 4) == [0, 1]
  {
    var g := Ramp().graph;
    hide Ramp, SeededCount;
    RampCounts(0);
    RampCounts(1);
    RampCounts(2);
    RampCounts(3);
    assert Roots(g, {}, 1) == [0];
    assert Roots(g, {}, 2) == [0, 1];
    assert Roots(g, {}, 3) == [0, 1];
  }

  lemma RampStart()
    ensures Start(Ramp(), map[]) == OnRamp(map[], 1, 2, [0, 1], [])
  {
    hide *;
    RampIs();
    RampRoots();
    forall n: nat | n < 4 ensures SeededCount(Ramp().graph, {}, n) == if n == 2 then 1 else if n == 3 then 2 else 0 {
      RampCounts(n);
    }
    StartIs(Ramp(), map[0 := 0, 1 := 0, 2 := 1, 3 := 2], [0, 1]);
  }

  lemma RampIs()
    ensures Ramp().graph.size == 4 && Ramp().chains == [] && Admit(Ramp().policy, "") == EMPTY
    ensures OnRamp(map[], 1, 2, [0, 1], []) == State(map[], map[0 := 0, 1 := 0, 2 := 1, 3 := 2], [0, 1], [], Running)
  {
  }

  lemma RampIsFine()
    ensures Startable(Ramp(), map[]) && Acyclic(Ramp().graph) && Branches(Ramp())
  {
    RampBranches();
    hide Branches;
    var g := Ramp().graph;
    assert forall i | 0 <= i < |g.edges| :: g.edges[i].src < 4 && g.edges[i].dst < 4;
    assert IsRank(g, [0, 0, 1, 2]);
  }

  lemma RampBranches()
    ensures Branches(Ramp())
  {
    assert Ramp().graph.edges[0] == Edge(0, 2, false, Some("never"));
    hide InChains;
    assert !InChains(Ramp().chains, 2) by { NoChains(2); }
  }

  lemma NoChains(n: nat)
    ensures !InChains([], n)
  {
  }

  lemma RampEdges(u: nat, v: nat)
    ensures !ErrorBetween(Ramp().graph, u, v)
    ensures ConditionFails(Ramp(), u, v, EMPTY) <==> (u == 0 && v == 2)
  {
    assert Ramp().graph.edges[0].condition.Some?;
  }

  lemma RampCascade(q: map<nat, nat>)
    requires q.Keys == {0, 1, 2, 3}
    ensures Cascade(Ramp().graph, q, 2, 3) == q[3 := GuardedDecrement(q[3])]
  {
    var g, r := Ramp().graph, q[3 := GuardedDecrement(q[3])];
    assert Cascade(g, r, 2, 0) == r;
    assert Cascade(g, r, 2, 1) == r;
    assert Cascade(g, r, 2, 2) == r;
  }

  /** The finish of node 0 skips node 2 and takes one from the counter of node 3. */
  lemma SkipOnRamp(r: map<nat, Value>, three: nat, executing: seq<Job>)
    ensures WalkAll(Ramp(), OnRamp(r, 1, three, [], executing), 0, OnSuccess(EMPTY))
         == OnRamp(r[2 := Skipped], 0, GuardedDecrement(three), [], executing)
  {
    var w, walk, s := Ramp(), OnSuccess(EMPTY), OnRamp(r, 1, three, [], executing);
    var t := OnRamp(r[2 := Skipped], 0, GuardedDecrement(three), [], executing);
    RampEdges(0, 2);
    RampCascade(s.pending[2 := 0]);
    assert s.pending[2 := 0][3 := GuardedDecrement(three)] == t.pending;
    hide ErrorBetween, ConditionFails, Cascade;
    assert VisitEdge(w, s, 0, 2, walk) == t;
    hide VisitEdge;
    assert WalkEdges(w, t, 0, walk, 0) == t;
    assert WalkEdges(w, s, 0, walk, 1) == t;
    assert WalkEdges(w, s, 0, walk, 2) == t;
  }

  lemma StepOnRamp(r: map<nat, Value>, two: nat, three: nat, executing: seq<Job>)
    requires three == 1 || three == 2
    ensures WalkAll(Ramp(), OnRamp(r, two, three, [], executing), 1, OnSuccess(EMPTY))
         == OnRamp(r, two, three - 1, if three == 1 then [3] else [], executing)
  {
    var w, walk, s := Ramp(), OnSuccess(EMPTY), OnRamp(r, two, three, [], executing);
    var t := OnRamp(r, two, three - 1, if three == 1 then [3] else [], executing);
    RampEdges(1, 3);
    assert s.pending[3 := three - 1] == t.pending;
    hide ErrorBetween, ConditionFails, Cascade;
    assert VisitEdge(w, s, 1, 3, walk) == t;
    hide VisitEdge;
    assert WalkEdges(w, t, 1, walk, 0) == t;
    assert WalkEdges(w, t, 1, walk, 1) == t;
    assert WalkEdges(w, s, 1, walk, 2) == t;
  }

  lemma RampInputs(n: nat)
    requires n < 2
    ensures InputsOf(Ramp().graph, map[], n) == []
  {
    var g := Ramp().graph;
    assert Gather(g, map[], n, 0) == [];
    assert Gather(g, map[], n, 1) == [];
    assert Gather(g, map[], n, 2) == [];
  }

  lemma RampLaunches() returns (events: seq<Event>)
    ensures Reaches(Ramp(), IDLE, events, OnRamp(map[], 1, 2, [], [Job(0, None, []), Job(1, None, [])]))
  {
    hide Reaches, Ramp, Gather, Start;
    RampIs();
    var t0, t1 := OnRamp(map[], 1, 2, [0, 1], []), OnRamp(map[], 1, 2, [1], [Job(0, None, [])]);
    RampStart();
    ReachesStart(Ramp(), IDLE);
    PopReaches(Ramp(), IDLE, [], t0);
    RampInputs(0);
    RampInputs(1);
    assert t0.ready[1..] == [1] && t0.executing + [Job(0, None, [])] == t1.executing;
    events := [] + [Pop(0, Dispatch)];
    PopReaches(Ramp(), IDLE, events, t1);
    assert t1.ready[1..] == [] && t1.executing + [Job(1, None, [])] == [Job(0, None, []), Job(1, None, [])];
    events := events + [Pop(0, Dispatch)];
  }

  /** Two runs of one workflow that branches.  If node 1 finishes first, the skip of node 2 makes
      the last delivery to node 3 and strands it; if node 0 does, node 3 is enqueued. */
  lemma OrderStrands() returns (stranded: seq<Event>, queued: seq<Event>, t: State, t': State)
    ensures Startable(Ramp(), map[]) && Acyclic(Ramp().graph) && Branches(Ramp())
    ensures Reaches(Ramp(), IDLE, stranded, t) && Quiescent(t) && 3 !in t.results
    ensures Reaches(Ramp(), IDLE, queued, t') && t'.ready == [3] && t'.executing == []
  {
    RampIsFine();
    RampIs();
    hide Reaches, WalkEdges, Ramp, Admit, Startable, Acyclic, Branches;
    var events := RampLaunches();
    var zero, one := Job(0, None, []), Job(1, None, []);
    var s := OnRamp(map[], 1, 2, [], [zero, one]);
    assert Without(s.executing, 0) == [one] && Without(s.executing, 1) == [zero];

    var s1 := OnRamp(map[1 := EMPTY], 1, 1, [], [zero]);
    StepOnRamp(map[1 := EMPTY], 1, 2, [zero]);
    FinishReaches(Ramp(), IDLE, events, s, 1, "", s1);
    SkipOnRamp(s1.results[0 := EMPTY], 1, []);
    t := OnRamp(s1.results[0 := EMPTY][2 := Skipped], 0, 0, [], []);
    assert Without(s1.executing, 0) == [];
    FinishReaches(Ramp(), IDLE, events + [Finish(1, Ok(""))], s1, 0, "", t);
    stranded := events + [Finish(1, Ok(""))] + [Finish(0, Ok(""))];

    var s2 := OnRamp(map[0 := EMPTY, 2 := Skipped], 0, 1, [], [one]);
    SkipOnRamp(map[0 := EMPTY], 2, [one]);
    assert map[0 := EMPTY][2 := Skipped] == s2.results;
    FinishReaches(Ramp(), IDLE, events, s, 0, "", s2);
    StepOnRamp(s2.results[1 := EMPTY], 0, 1, []);
    t' := OnRamp(s2.results[1 := EMPTY], 0, 0, [3], []);
    assert Without(s2.executing, 0) == [];
    FinishReaches(Ramp(), IDLE, events + [Finish(0, Ok(""))], s2, 0, "", t');
    queued := events + [Finish(0, Ok(""))] + [Finish(0, Ok(""))];
  }
}
