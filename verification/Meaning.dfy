/** Every run the reactor finishes computes the fates, whatever the completion order and
    whether or not chains are batched. */
module Meaning {
  import opened Graphs
  import opened Scheduler
  import opened SchedulerInvariant
  import opened SchedulerSteps
  import opened SchedulerRuns
  import opened Fates

  // ----- runs driven by a deterministic environment -----

  function JobOutcome(w: Workflow, env: Env, job: Job): Result<string> {
    match job.chain
    case None => env.dispatch(job.node, job.inputs)
    case Some(k) =>
      if k < |w.chains| && w.chains[k] != [] then Compose(w, env, w.chains[k], 0, job.inputs)
      else env.dispatch(job.node, job.inputs)
  }

  /** The event's outcome is what the environment answers; which event comes next is free. */
  ghost predicate Follows(w: Workflow, env: Env, s: State, e: Event)
    requires Enabled(w, s, e)
  {
    match e
    case Pop(i, decision) =>
      ChainOf(w.chains, s.ready[i]).None? ==>
        decision == env.preflight(s.ready[i], InputsOf(w.graph, s.results, s.ready[i]))
    case Finish(i, outcome) => outcome == JobOutcome(w, env, s.executing[i])
  }

  ghost predicate Driven(w: Workflow, env: Env, s: State, events: seq<Event>)
    decreases |events|
  {
    events == []
    || (Enabled(w, s, events[0]) && Follows(w, env, s, events[0])
        && Driven(w, env, Step(w, s, events[0]), events[1..]))
  }

  lemma {:induction false} DrivenIsRun(w: Workflow, env: Env, s: State, events: seq<Event>)
    requires Driven(w, env, s, events)
    ensures IsRun(w, s, events)
    decreases |events|
  {
    if events != [] {
      DrivenIsRun(w, env, Step(w, s, events[0]), events[1..]);
    }
  }

  lemma {:induction false} DrivenAppend(w: Workflow, env: Env, s: State, first: seq<Event>, second: seq<Event>)
    requires IsRun(w, s, first) && IsRun(w, After(w, s, first), second)
    ensures IsRun(w, s, first + second) && After(w, s, first + second) == After(w, After(w, s, first), second)
    ensures Driven(w, env, s, first) && Driven(w, env, After(w, s, first), second) ==> Driven(w, env, s, first + second)
    decreases |first|
  {
    hide Enabled, Follows, Step;
    if first == [] {
      assert first + second == second;
    } else {
      assert (first + second)[1..] == first[1..] + second;
      DrivenAppend(w, env, Step(w, s, first[0]), first[1..], second);
    }
  }

  lemma RunThen(w: Workflow, env: Env, s: State, events: seq<Event>, e: Event)
    requires IsRun(w, s, events) && Enabled(w, After(w, s, events), e)
    ensures IsRun(w, s, events + [e]) && After(w, s, events + [e]) == Step(w, After(w, s, events), e)
    ensures Driven(w, env, s, events) && Follows(w, env, After(w, s, events), e) ==> Driven(w, env, s, events + [e])
  {
    hide *;
    OneEventRun(w, env, After(w, s, events), e);
    DrivenAppend(w, env, s, events, [e]);
  }

  lemma OneEventRun(w: Workflow, env: Env, s: State, e: Event)
    requires Enabled(w, s, e)
    ensures IsRun(w, s, [e]) && After(w, s, [e]) == Step(w, s, e)
    ensures Follows(w, env, s, e) ==> Driven(w, env, s, [e])
  {
    hide Step, Follows, Enabled;
    var rest: seq<Event> := [];
    assert [e][1..] == rest;
    assert IsRun(w, Step(w, s, e), rest) && Driven(w, env, Step(w, s, e), rest)
        && After(w, Step(w, s, e), rest) == Step(w, s, e);
  }

  // ----- environments that differ in front of the dispatch -----

  lemma {:induction false} ComposeDispatches(w: Workflow, env: Env, env': Env, chain: seq<nat>, j: nat, inputs: Inputs)
    requires j < |chain| && env'.dispatch == env.dispatch
    ensures Compose(w, env', chain, j, inputs) == Compose(w, env, chain, j, inputs)
    decreases |chain| - j
  {
    if env.dispatch(chain[j], inputs).Ok? && j < |chain| - 1 {
      var output := Admit(w.policy, env.dispatch(chain[j], inputs).value);
      ComposeDispatches(w, env, env', chain, j + 1, [(chain[j], output)]);
    }
  }

  /** An event follows any environment that decides alike about the node it pops. */
  lemma FollowsToo(w: Workflow, env: Env, env': Env, s: State, e: Event)
    requires Enabled(w, s, e) && Follows(w, env, s, e) && env'.dispatch == env.dispatch
    requires e.Pop? ==> forall inputs ::
             env'.preflight(s.ready[e.index], inputs) == env.preflight(s.ready[e.index], inputs)
    ensures Follows(w, env', s, e)
  {
    if e.Finish? && s.executing[e.index].chain.Some? {
      var job := s.executing[e.index];
      if job.chain.value < |w.chains| && w.chains[job.chain.value] != [] {
        ComposeDispatches(w, env, env', w.chains[job.chain.value], 0, job.inputs);
      }
    }
    hide Compose, Gather, ChainOf;
  }

  // ----- concrete runs, for the examples -----

  const EMPTY := Output("")
  const FREE := Policy(1000, (raw: string) => raw, (raw: string) => raw, (condition: string, v: Value) => false)

  /** Every node is dispatched and returns the empty string. */
  const IDLE := Env((n: nat, inputs: Inputs) => Dispatch, (n: nat, inputs: Inputs) => Ok(""))

  /** Node 0 fails. */
  const FAILING := Env((n: nat, inputs: Inputs) => Dispatch,
                       (n: nat, inputs: Inputs) => if n == 0 then Err("") else Ok(""))

  /** The events are a driven run from an empty seed to t. */
  ghost predicate Reaches(w: Workflow, env: Env, events: seq<Event>, t: State) {
    && Driven(w, env, Start(w, map[]), events) && IsRun(w, Start(w, map[]), events)
    && After(w, Start(w, map[]), events) == t
  }

  lemma StartIs(w: Workflow, pending: map<nat, nat>, roots: seq<nat>)
    requires forall n: nat :: n in pending <==> n < w.graph.size
    requires forall n: nat | n < w.graph.size :: SeededCount(w.graph, {}, n) == pending[n]
    requires Roots(w.graph, {}, w.graph.size) == roots
    ensures Start(w, map[]) == State(map[], pending, roots, [], Running)
  {
    hide SeededCount, Roots;
    var none: map<nat, Value> := map[];
    assert none.Keys == {};
    assert Start(w, none).pending == pending;
  }

  lemma ReachesStart(w: Workflow, env: Env)
    ensures Reaches(w, env, [], Start(w, map[]))
  {
  }

  lemma ReachesNext(w: Workflow, env: Env, events: seq<Event>, t: State, e: Event, t': State)
    requires Reaches(w, env, events, t)
    requires Enabled(w, t, e) && Follows(w, env, t, e) && Step(w, t, e) == t'
    ensures Reaches(w, env, events + [e], t')
  {
    hide Driven, IsRun, After, Start, Step, Follows, Enabled;
    RunThen(w, env, Start(w, map[]), events, e);
  }

  function SingleJob(w: Workflow, t: State): Job
    requires t.ready != []
  {
    Job(t.ready[0], None, InputsOf(w.graph, t.results, t.ready[0]))
  }

  lemma PopReaches(w: Workflow, env: Env, events: seq<Event>, t: State)
    requires Reaches(w, env, events, t) && t.status == Running && t.ready != [] && w.chains == []
    requires env.preflight(t.ready[0], InputsOf(w.graph, t.results, t.ready[0])) == Dispatch
    ensures Reaches(w, env, events + [Pop(0, Dispatch)],
                    t.(ready := t.ready[1..], executing := t.executing + [SingleJob(w, t)]))
  {
    hide Reaches, Gather;
    assert Without(t.ready, 0) == t.ready[1..];
    ReachesNext(w, env, events, t, Pop(0, Dispatch),
                t.(ready := t.ready[1..], executing := t.executing + [SingleJob(w, t)]));
  }

  lemma FinishReaches(w: Workflow, env: Env, events: seq<Event>, t: State, i: nat, raw: string, t': State)
    requires Reaches(w, env, events, t) && t.status == Running && t.ready == [] && w.chains == []
    requires i < |t.executing| && t.executing[i].chain.None?
             && env.dispatch(t.executing[i].node, t.executing[i].inputs) == Ok(raw)
    requires var u, output := t.executing[i].node, Admit(w.policy, raw);
             WalkAll(w, t.(results := t.results[u := output], executing := Without(t.executing, i)), u,
                     OnSuccess(output)) == t'
    ensures Reaches(w, env, events + [Finish(i, Ok(raw))], t')
  {
    hide Reaches, WalkEdges, Admit;
    ReachesNext(w, env, events, t, Finish(i, Ok(raw)), t');
  }

  // ----- settled nodes have met their fate -----

  ghost predicate Met(w: Workflow, fates: Fates, s: State, disp: Dispositions, n: nat)
    requires n in disp
  {
    && n in fates
    && if disp[n] == Batched then fates[n].Carried?
       else n in s.results && fates[n] == Ran(disp[n], s.results[n])
  }

  ghost predicate Faithful(w: Workflow, seed: map<nat, Value>, fates: Fates, s: State, disp: Dispositions) {
    && (forall n | n in disp :: Met(w, fates, s, disp, n))
    && (forall n | n in seed && n < w.graph.size :: n in disp)
  }

  lemma StartIsFaithful(w: Workflow, env: Env, seed: map<nat, Value>, fates: Fates)
    requires Solves(w, env, seed, fates)
    ensures Faithful(w, seed, fates, Start(w, seed), SeedDispositions(w.graph, seed))
  {
  }

  /** Everything has arrived at a due node, and its inputs are the ones its fate is made of. */
  lemma DueArrives(w: Workflow, seed: map<nat, Value>, fates: Fates, s: State, disp: Dispositions, n: nat)
    requires WellFormed(w) && Settled(w, s, disp, {}) && Faithful(w, seed, fates, s, disp)
    requires Due(w, disp, {}, n)
    ensures n !in seed && Arrived(w.graph, fates, n)
    ensures InputsOf(w.graph, s.results, n) == FateInputs(w.graph, fates, n)
  {
    DueHasInputs(w, s, disp, {}, n);
    hide WellFormed, Inner, NonTail;
    forall i | i in InEdges(w.graph, n)
      ensures Arrives(w.graph, fates, i)
      ensures var p := w.graph.edges[i].src;
              p in s.results && p in Values(fates) && s.results[p] == Values(fates)[p]
    {
      assert i !in Waiting(w.graph, disp, {}, n);
      assert Met(w, fates, s, disp, w.graph.edges[i].src);
    }
    GatherSame(w.graph, s.results, Values(fates), n, |w.graph.edges|);
  }

  lemma GrowthKeepsMet(w: Workflow, fates: Fates, s: State, disp: Dispositions, s': State, disp': Dispositions, n: nat)
    requires n in disp && n in disp' && disp'[n] == disp[n]
    requires Grows(s, s') && Met(w, fates, s, disp, n)
    ensures Met(w, fates, s', disp', n)
  {
  }

  /** A step that settles no chain meets the fate of the node it settles. */
  lemma LooseNodeMeetsFate(w: Workflow, seed: map<nat, Value>, fates: Fates, s: State, disp: Dispositions,
                           s': State, n: nat, d: Disposition, v: Value)
    requires Faithful(w, seed, fates, s, disp) && Grows(s, s') && n !in disp && d != Batched
    requires n in fates && fates[n] == Ran(d, v) && n in s'.results && s'.results[n] == v
    ensures Faithful(w, seed, fates, s', disp[n := d])
  {
    var disp' := disp[n := d];
    forall m | m in disp'
      ensures Met(w, fates, s', disp', m)
    {
      if m != n { GrowthKeepsMet(w, fates, s, disp, s', disp', m); }
    }
  }

  lemma ChainMeetsFate(w: Workflow, env: Env, seed: map<nat, Value>, fates: Fates, s: State, disp: Dispositions,
                       s': State, k: nat, d: Disposition, v: Value)
    requires WellFormed(w) && Solves(w, env, seed, fates)
    requires Faithful(w, seed, fates, s, disp) && Grows(s, s') && d != Batched
    requires k < |w.chains| && w.chains[k] != []
    requires forall n | n in w.chains[k] :: n !in disp && n !in seed
    requires Arrived(w.graph, fates, w.chains[k][0])
    requires Last(w.chains[k]) in fates && fates[Last(w.chains[k])] == Ran(d, v)
    requires Last(w.chains[k]) in s'.results && s'.results[Last(w.chains[k])] == v
    ensures Faithful(w, seed, fates, s', SettleChain(w.chains[k], disp, d))
  {
    var c := w.chains[k];
    var disp' := SettleChain(c, disp, d);
    ChainFacts(w, k);
    assert forall n | n in c :: n in fates;
    hide WellFormed, Solves, SettleChain, Arrived, Gather;
    forall n | n in disp'
      ensures Met(w, fates, s', disp', n)
    {
      SettleChainAt(c, disp, d, n);
      if n !in c {
        GrowthKeepsMet(w, fates, s, disp, s', disp', n);
      } else if n != Last(c) {
        MemberIsCarried(w, env, seed, fates, k, n);
      }
    }
    forall n | n in seed && n < w.graph.size ensures n in disp' {
      SettleChainAt(c, disp, d, n);
    }
  }

  lemma MemberIsCarried(w: Workflow, env: Env, seed: map<nat, Value>, fates: Fates, k: nat, n: nat)
    requires WellFormed(w) && Solves(w, env, seed, fates) && n in fates && n !in seed
    requires k < |w.chains| && n in w.chains[k] && n != Last(w.chains[k]) && Arrived(w.graph, fates, w.chains[k][0])
    ensures fates[n].Carried?
  {
    SolvedMember(w, env, seed, fates, k, n);
  }

  /** Single-node jobs in flight are ones the environment wanted dispatched. */
  ghost predicate Wanted(env: Env, jobs: seq<Job>) {
    forall i | 0 <= i < |jobs| && jobs[i].chain.None? :: env.preflight(jobs[i].node, jobs[i].inputs) == Dispatch
  }

  lemma StepKeepsWanted(w: Workflow, env: Env, s: State, e: Event)
    requires Enabled(w, s, e) && Follows(w, env, s, e) && Wanted(env, s.executing)
    ensures Wanted(env, NextExecuting(w, s, e))
  {
    hide JobOutcome, Gather, ChainOf;
  }

  /** A popped node is told what its fate says. */
  lemma PopDecides(w: Workflow, env: Env, seed: map<nat, Value>, fates: Fates, s: State, disp: Dispositions, i: nat,
                   decision: Decision)
    requires WellFormed(w) && Inv(w, s, disp, {}) && Enabled(w, s, Pop(i, decision))
    requires Solves(w, env, seed, fates) && Faithful(w, seed, fates, s, disp)
    requires Follows(w, env, s, Pop(i, decision)) && ChainOf(w.chains, s.ready[i]).None?
    ensures s.ready[i] !in disp && s.ready[i] in fates
    ensures var n := s.ready[i];
            && (decision.Resolve? ==> fates[n] == Ran(Opened, decision.value))
            && (decision.Reject? ==> fates[n] == Concluded(w, n, Err(decision.message)))
            && (decision.Halt? || decision.Pause? ==> fates[n] == Ends)
  {
    var n := s.ready[i];
    assert Due(w, disp, {}, n);
    DueArrives(w, seed, fates, s, disp, n);
    SolvedFate(w, env, seed, fates, n);
  }

  lemma JobIsDue(w: Workflow, s: State, disp: Dispositions, i: nat)
    requires Inv(w, s, disp, {}) && i < |s.executing|
    ensures Due(w, disp, {}, s.executing[i].node) && JobOk(w, s, s.executing[i])
  {
  }

  lemma HeadIsFree(w: Workflow, seed: map<nat, Value>, s: State, disp: Dispositions, k: nat)
    requires WellFormed(w) && (seed != map[] ==> w.chains == [])
    requires k < |w.chains| && w.chains[k] != [] && w.chains[k][0] !in disp && HeadsFirst(w.chains, disp)
    ensures forall n | n in w.chains[k] :: n !in disp && n !in seed
  {
  }

  /** A finished future reports its reporter's own answer, and a chain its tail's. */
  lemma FinishDecides(w: Workflow, env: Env, seed: map<nat, Value>, fates: Fates, s: State, disp: Dispositions,
                      i: nat, outcome: Result<string>)
    requires WellFormed(w) && Inv(w, s, disp, {}) && Enabled(w, s, Finish(i, outcome))
    requires Solves(w, env, seed, fates) && Faithful(w, seed, fates, s, disp)
    requires (seed != map[] ==> w.chains == []) && Follows(w, env, s, Finish(i, outcome)) && Wanted(env, s.executing)
    ensures Reporter(w, s.executing[i]) in fates
    ensures fates[Reporter(w, s.executing[i])] == Concluded(w, Reporter(w, s.executing[i]), outcome)
  {
    var job := s.executing[i];
    hide Inv, Faithful, WellFormed, Solves, Concluded, Gather, Arrived, Compose;
    JobArrives(w, seed, fates, s, disp, i);
    JobInGraph(w, env, seed, fates, s, disp, i);
    match job.chain
    case None =>
      assert env.preflight(job.node, job.inputs) == Dispatch;
      SingleJobIsLoose(w, s, disp, i);
      SolvedFate(w, env, seed, fates, job.node);
    case Some(k) =>
      HeadIsFreeOfJob(w, seed, s, disp, i, k);
      SolvedMember(w, env, seed, fates, k, Last(w.chains[k]));
  }

  lemma JobArrives(w: Workflow, seed: map<nat, Value>, fates: Fates, s: State, disp: Dispositions, i: nat)
    requires WellFormed(w) && Inv(w, s, disp, {}) && Faithful(w, seed, fates, s, disp) && i < |s.executing|
    ensures var job := s.executing[i];
            job.node !in seed && Arrived(w.graph, fates, job.node)
            && job.inputs == FateInputs(w.graph, fates, job.node)
  {
    JobIsDue(w, s, disp, i);
    DueArrives(w, seed, fates, s, disp, s.executing[i].node);
  }

  lemma JobInGraph(w: Workflow, env: Env, seed: map<nat, Value>, fates: Fates, s: State, disp: Dispositions, i: nat)
    requires WellFormed(w) && Inv(w, s, disp, {}) && Solves(w, env, seed, fates) && i < |s.executing|
    ensures Reporter(w, s.executing[i]) in fates
  {
    ReporterInGraph(w, s, disp, i);
    hide Inv, WellFormed, Judge, Reporter;
  }

  lemma ReporterInGraph(w: Workflow, s: State, disp: Dispositions, i: nat)
    requires WellFormed(w) && Inv(w, s, disp, {}) && i < |s.executing|
    ensures Reporter(w, s.executing[i]) < w.graph.size
  {
    JobIsDue(w, s, disp, i);
    hide Inv, WellFormed;
    if s.executing[i].chain.Some? { ChainFacts(w, s.executing[i].chain.value); }
  }

  lemma SingleJobIsLoose(w: Workflow, s: State, disp: Dispositions, i: nat)
    requires Inv(w, s, disp, {}) && i < |s.executing| && s.executing[i].chain.None?
    ensures ChainOf(w.chains, s.executing[i].node).None?
  {
    JobIsDue(w, s, disp, i);
    hide Inv;
    ChainOfFinds(w.chains, s.executing[i].node);
  }

  lemma HeadIsFreeOfJob(w: Workflow, seed: map<nat, Value>, s: State, disp: Dispositions, i: nat, k: nat)
    requires WellFormed(w) && Inv(w, s, disp, {}) && i < |s.executing| && s.executing[i].chain == Some(k)
    requires seed != map[] ==> w.chains == []
    ensures k < |w.chains| && w.chains[k] != [] && w.chains[k][0] == s.executing[i].node
    ensures forall n | n in w.chains[k] :: n !in disp && n !in seed
  {
    JobIsDue(w, s, disp, i);
    HeadIsFree(w, seed, s, disp, k);
  }

  // ----- one step -----

  lemma ConcludedOutcome(w: Workflow, n: nat, outcome: Result<string>)
    requires Concluded(w, n, outcome).Ran?
    ensures Concluded(w, n, outcome) == Ran(OutcomeOf(w, n, outcome), OutcomeValue(w, n, outcome))
  {
  }

  /** A node whose conclusion would end the run does end it. */
  lemma EndingConclusionStops(w: Workflow, s: State, n: nat, outcome: Result<string>)
    requires s.status == Running
    ensures Concluded(w, n, outcome) == Ends <==> Complete(w, s, n, outcome).status != Running
    ensures Concluded(w, n, outcome) == Ends || Concluded(w, n, outcome).Ran?
  {
    WalkKeepsStatus(w, s, n);
  }

  lemma WalkKeepsStatus(w: Workflow, s: State, n: nat)
    ensures forall s1, walk :: WalkAll(w, s1, n, walk).status == s1.status
  {
    forall s1, walk ensures WalkAll(w, s1, n, walk).status == s1.status {
      WalkEdgesKeepStatus(w, s1, n, walk, |w.graph.edges|);
    }
  }

  lemma {:induction false} WalkEdgesKeepStatus(w: Workflow, s: State, u: nat, walk: Walk, k: nat)
    requires k <= |w.graph.edges|
    ensures WalkEdges(w, s, u, walk, k).status == s.status
    decreases k
  {
    if k > 0 {
      var e := w.graph.edges[k - 1];
      WalkEdgesKeepStatus(w, if e.src == u then VisitEdge(w, s, u, e.dst, walk) else s, u, walk, k - 1);
    }
  }

  lemma QuietStepStaysFaithful(w: Workflow, seed: map<nat, Value>, fates: Fates, s: State, disp: Dispositions,
                               s': State)
    requires Faithful(w, seed, fates, s, disp) && Grows(s, s')
    ensures Faithful(w, seed, fates, s', disp)
  {
    forall n | n in disp ensures Met(w, fates, s', disp, n) {
      GrowthKeepsMet(w, fates, s, disp, s', disp, n);
    }
  }

  /** Everything a step of a driven run starts from. */
  ghost predicate OnCourse(w: Workflow, env: Env, seed: map<nat, Value>, fates: Fates, s: State, disp: Dispositions) {
    && Inv(w, s, disp, {}) && Faithful(w, seed, fates, s, disp) && Wanted(env, s.executing)
  }

  ghost predicate Evaluated(w: Workflow, env: Env, seed: map<nat, Value>, fates: Fates) {
    WellFormed(w) && (seed != map[] ==> w.chains == []) && Solves(w, env, seed, fates)
  }

  ghost predicate Comparable(w: Workflow, env: Env, seed: map<nat, Value>, fates: Fates) {
    Evaluated(w, env, seed, fates) && NoConditions(w.graph)
  }

  /** What a popped node that settles at once records is its fate. */
  lemma PopMeets(w: Workflow, env: Env, seed: map<nat, Value>, fates: Fates, s: State, disp: Dispositions, i: nat,
                 decision: Decision)
    returns (d: Disposition, v: Value)
    requires Evaluated(w, env, seed, fates) && OnCourse(w, env, seed, fates, s, disp)
    requires Enabled(w, s, Pop(i, decision)) && Follows(w, env, s, Pop(i, decision))
             && !Launches(w, s, Pop(i, decision))
    requires Step(w, s, Pop(i, decision)).status == Running
    ensures var n := s.ready[i];
            && n !in disp && n in fates && fates[n] == Ran(d, v) && d != Batched
            && Records(w, s, Pop(i, decision)) == Some((n, v)) && Settles(w, s, disp, Pop(i, decision)) == disp[n := d]
  {
    var n := s.ready[i];
    hide *;
    CourseIsFaithful(w, env, seed, fates, s, disp);
    EvaluatedParts(w, env, seed, fates);
    NotLaunched(w, s, Pop(i, decision));
    RunningStepIsNoStop(w, s, Pop(i, decision));
    PopDecides(w, env, seed, fates, s, disp, i, decision);
    d, v := PopSettles(w, s, disp, i, decision, fates[n]);
  }

  lemma EvaluatedParts(w: Workflow, env: Env, seed: map<nat, Value>, fates: Fates)
    requires Evaluated(w, env, seed, fates)
    ensures WellFormed(w) && (seed != map[] ==> w.chains == []) && Solves(w, env, seed, fates)
  {
  }

  lemma NotLaunched(w: Workflow, s: State, e: Event)
    requires Enabled(w, s, e) && !Launches(w, s, e)
    ensures e.Pop? ==> e.index < |s.ready| && ChainOf(w.chains, s.ready[e.index]).None? && !e.decision.Dispatch?
  {
  }

  lemma PopSettles(w: Workflow, s: State, disp: Dispositions, i: nat, decision: Decision,
                   fate: Fate) returns (d: Disposition, v: Value)
    requires Enabled(w, s, Pop(i, decision)) && Step(w, s, Pop(i, decision)).status == Running
    requires ChainOf(w.chains, s.ready[i]).None? && (decision.Resolve? || decision.Reject?)
    requires decision.Resolve? ==> fate == Ran(Opened, decision.value)
    requires decision.Reject? ==> fate == Concluded(w, s.ready[i], Err(decision.message))
    ensures var n := s.ready[i];
            && fate == Ran(d, v) && d != Batched
            && Records(w, s, Pop(i, decision)) == Some((n, v)) && Settles(w, s, disp, Pop(i, decision)) == disp[n := d]
  {
    var n := s.ready[i];
    hide Gather, WalkEdges, Fail, Concluded, RoutesErrors;
    if decision.Reject? {
      EndingConclusionStops(w, s.(ready := Without(s.ready, i)), n, Err(decision.message));
      ConcludedOutcome(w, n, Err(decision.message));
      d, v := FailureOf(w, n), OutcomeValue(w, n, Err(decision.message));
    } else {
      d, v := Opened, decision.value;
    }
  }

  lemma RecordedIsThere(w: Workflow, s: State, disp: Dispositions, e: Event, s': State, disp': Dispositions)
    requires Enabled(w, s, e) && StepOk(w, s, disp, e, s', disp') && s'.status == Running
    ensures Grows(s, s')
    ensures Records(w, s, e).Some? ==>
              Records(w, s, e).value.0 in s'.results && s'.results[Records(w, s, e).value.0] == Records(w, s, e).value.1
  {
  }

  lemma LaunchSettlesNothing(w: Workflow, s: State, disp: Dispositions, e: Event)
    requires Enabled(w, s, e) && Launches(w, s, e)
    ensures Settles(w, s, disp, e) == disp
  {
  }

  lemma PopStaysFaithful(w: Workflow, env: Env, seed: map<nat, Value>, fates: Fates, s: State, disp: Dispositions,
                         i: nat, decision: Decision, s': State, disp': Dispositions)
    requires Evaluated(w, env, seed, fates) && OnCourse(w, env, seed, fates, s, disp)
    requires Enabled(w, s, Pop(i, decision)) && Follows(w, env, s, Pop(i, decision))
             && s' == Step(w, s, Pop(i, decision))
    requires StepOk(w, s, disp, Pop(i, decision), s', disp') && s'.status == Running
    ensures Faithful(w, seed, fates, s', Settles(w, s, disp, Pop(i, decision)))
  {
    assert i < |s.ready|;
    hide *;
    CourseIsFaithful(w, env, seed, fates, s, disp);
    RecordedIsThere(w, s, disp, Pop(i, decision), s', disp');
    if Launches(w, s, Pop(i, decision)) {
      LaunchSettlesNothing(w, s, disp, Pop(i, decision));
      QuietStepStaysFaithful(w, seed, fates, s, disp, s');
    } else {
      var d, v := PopMeets(w, env, seed, fates, s, disp, i, decision);
      LooseNodeMeetsFate(w, seed, fates, s, disp, s', s.ready[i], d, v);
    }
  }

  lemma CourseIsFaithful(w: Workflow, env: Env, seed: map<nat, Value>, fates: Fates, s: State, disp: Dispositions)
    requires OnCourse(w, env, seed, fates, s, disp)
    ensures Inv(w, s, disp, {}) && Faithful(w, seed, fates, s, disp)
  {
  }

  /** What a finished job records is its reporter's fate. */
  lemma FinishMeets(w: Workflow, env: Env, seed: map<nat, Value>, fates: Fates, s: State, disp: Dispositions, i: nat,
                    outcome: Result<string>)
    requires Evaluated(w, env, seed, fates) && OnCourse(w, env, seed, fates, s, disp)
    requires Enabled(w, s, Finish(i, outcome)) && Follows(w, env, s, Finish(i, outcome))
    requires Step(w, s, Finish(i, outcome)).status == Running
    ensures var u := Reporter(w, s.executing[i]);
            var d, v := OutcomeOf(w, u, outcome), OutcomeValue(w, u, outcome);
            && u in fates && fates[u] == Ran(d, v) && d != Batched && Records(w, s, Finish(i, outcome)) == Some((u, v))
            && Settles(w, s, disp, Finish(i, outcome)) == SettleJob(w, disp, s.executing[i], d)
  {
    assert i < |s.executing|;
    hide *;
    CourseIsFaithful(w, env, seed, fates, s, disp);
    CourseIsWanted(w, env, seed, fates, s, disp);
    EvaluatedParts(w, env, seed, fates);
    FinishDecides(w, env, seed, fates, s, disp, i, outcome);
    FinishSettlesAs(w, s, disp, i, outcome, fates[Reporter(w, s.executing[i])]);
  }

  lemma CourseIsWanted(w: Workflow, env: Env, seed: map<nat, Value>, fates: Fates, s: State, disp: Dispositions)
    requires OnCourse(w, env, seed, fates, s, disp)
    ensures Wanted(env, s.executing)
  {
  }

  lemma FinishSettlesAs(w: Workflow, s: State, disp: Dispositions, i: nat, outcome: Result<string>, fate: Fate)
    requires Enabled(w, s, Finish(i, outcome)) && Step(w, s, Finish(i, outcome)).status == Running
    requires fate == Concluded(w, Reporter(w, s.executing[i]), outcome)
    ensures var u := Reporter(w, s.executing[i]);
            var d, v := OutcomeOf(w, u, outcome), OutcomeValue(w, u, outcome);
            && fate == Ran(d, v) && d != Batched && Records(w, s, Finish(i, outcome)) == Some((u, v))
            && Settles(w, s, disp, Finish(i, outcome)) == SettleJob(w, disp, s.executing[i], d)
  {
    var u := Reporter(w, s.executing[i]);
    hide Complete, Concluded, RoutesErrors, SettleJob, Reporter;
    EndingConclusionStops(w, s.(executing := Without(s.executing, i)), u, outcome);
    ConcludedOutcome(w, u, outcome);
  }

  lemma FinishedJobMeets(w: Workflow, env: Env, seed: map<nat, Value>, fates: Fates, s: State, disp: Dispositions,
                         i: nat, s': State, d: Disposition, v: Value)
    requires Evaluated(w, env, seed, fates) && OnCourse(w, env, seed, fates, s, disp) && i < |s.executing|
    requires Grows(s, s') && d != Batched
    requires var u := Reporter(w, s.executing[i]);
             u in fates && fates[u] == Ran(d, v) && u in s'.results && s'.results[u] == v
    ensures Faithful(w, seed, fates, s', SettleJob(w, disp, s.executing[i], d))
  {
    var job := s.executing[i];
    hide *;
    CourseIsFaithful(w, env, seed, fates, s, disp);
    EvaluatedParts(w, env, seed, fates);
    match job.chain
    case None =>
      SettledAlone(w, s, disp, i, d);
      LooseNodeMeetsFate(w, seed, fates, s, disp, s', job.node, d, v);
    case Some(k) =>
      HeadIsFreeOfJob(w, seed, s, disp, i, k);
      JobArrives(w, seed, fates, s, disp, i);
      SettledUnderTail(w, disp, job, d);
      ChainMeetsFate(w, env, seed, fates, s, disp, s', k, d, v);
  }

  lemma SettledAlone(w: Workflow, s: State, disp: Dispositions, i: nat, d: Disposition)
    requires Inv(w, s, disp, {}) && i < |s.executing| && s.executing[i].chain.None?
    ensures s.executing[i].node !in disp && Reporter(w, s.executing[i]) == s.executing[i].node
    ensures SettleJob(w, disp, s.executing[i], d) == disp[s.executing[i].node := d]
  {
    JobIsDue(w, s, disp, i);
  }

  lemma SettledUnderTail(w: Workflow, disp: Dispositions, job: Job, d: Disposition)
    requires job.chain.Some? && job.chain.value < |w.chains| && w.chains[job.chain.value] != []
    ensures Reporter(w, job) == Last(w.chains[job.chain.value])
    ensures SettleJob(w, disp, job, d) == SettleChain(w.chains[job.chain.value], disp, d)
  {
  }

  lemma FinishStaysFaithful(w: Workflow, env: Env, seed: map<nat, Value>, fates: Fates, s: State, disp: Dispositions,
                            i: nat, outcome: Result<string>, s': State, disp': Dispositions)
    requires Evaluated(w, env, seed, fates) && OnCourse(w, env, seed, fates, s, disp)
    requires Enabled(w, s, Finish(i, outcome)) && Follows(w, env, s, Finish(i, outcome))
             && s' == Step(w, s, Finish(i, outcome))
    requires StepOk(w, s, disp, Finish(i, outcome), s', disp') && s'.status == Running
    ensures Faithful(w, seed, fates, s', Settles(w, s, disp, Finish(i, outcome)))
  {
    assert i < |s.executing|;
    hide *;
    var u := Reporter(w, s.executing[i]);
    RecordedIsThere(w, s, disp, Finish(i, outcome), s', disp');
    FinishMeets(w, env, seed, fates, s, disp, i, outcome);
    FinishedJobMeets(w, env, seed, fates, s, disp, i, s', OutcomeOf(w, u, outcome), OutcomeValue(w, u, outcome));
  }

  lemma StoppingPopEnds(w: Workflow, env: Env, seed: map<nat, Value>, fates: Fates, s: State, disp: Dispositions,
                        i: nat, decision: Decision)
    requires Evaluated(w, env, seed, fates) && OnCourse(w, env, seed, fates, s, disp)
    requires Enabled(w, s, Pop(i, decision)) && Follows(w, env, s, Pop(i, decision))
             && Step(w, s, Pop(i, decision)).status != Running
    ensures s.ready[i] in fates && fates[s.ready[i]] == Ends
  {
    assert i < |s.ready|;
    hide *;
    CourseIsFaithful(w, env, seed, fates, s, disp);
    EvaluatedParts(w, env, seed, fates);
    StoppingStepLaunchesNothing(w, s, disp, Pop(i, decision));
    NotLaunched(w, s, Pop(i, decision));
    PopDecides(w, env, seed, fates, s, disp, i, decision);
    PopStops(w, s, i, decision, fates[s.ready[i]]);
  }

  lemma PopStops(w: Workflow, s: State, i: nat, decision: Decision, fate: Fate)
    requires Enabled(w, s, Pop(i, decision)) && Step(w, s, Pop(i, decision)).status != Running
    requires ChainOf(w.chains, s.ready[i]).None? && !decision.Dispatch?
    requires decision.Reject? ==> fate == Concluded(w, s.ready[i], Err(decision.message))
    requires decision.Halt? || decision.Pause? ==> fate == Ends
    ensures fate == Ends
  {
    hide Fail, WalkEdges, Concluded, Gather, RoutesErrors;
    if decision.Reject? {
      EndingConclusionStops(w, s.(ready := Without(s.ready, i)), s.ready[i], Err(decision.message));
    } else if decision.Resolve? {
      WalkKeepsStatus(w, s, s.ready[i]);
    }
  }

  /** A step that ends the run ends it at a node whose fate is to end it. */
  lemma StoppingStepEnds(w: Workflow, env: Env, seed: map<nat, Value>, fates: Fates, s: State, disp: Dispositions,
                         e: Event)
    returns (n: nat)
    requires Evaluated(w, env, seed, fates) && OnCourse(w, env, seed, fates, s, disp)
    requires Enabled(w, s, e) && Follows(w, env, s, e) && Step(w, s, e).status != Running
    ensures n in fates && fates[n] == Ends
  {
    hide Inv, Faithful, Complete, Solves, WellFormed, Concluded, Follows, Gather, NoConditions;
    match e
    case Pop(i, decision) =>
      n := s.ready[i];
      StoppingPopEnds(w, env, seed, fates, s, disp, i, decision);
    case Finish(i, outcome) =>
      n := Reporter(w, s.executing[i]);
      FinishDecides(w, env, seed, fates, s, disp, i, outcome);
      EndingConclusionStops(w, s.(executing := Without(s.executing, i)), n, outcome);
  }

  lemma StepStaysOnCourse(w: Workflow, env: Env, seed: map<nat, Value>, fates: Fates, s: State, disp: Dispositions,
                          e: Event)
    returns (disp': Dispositions)
    requires Comparable(w, env, seed, fates) && OnCourse(w, env, seed, fates, s, disp)
    requires Enabled(w, s, e) && Follows(w, env, s, e) && Step(w, s, e).status == Running
    ensures OnCourse(w, env, seed, fates, Step(w, s, e), disp')
    ensures StepOk(w, s, disp, e, Step(w, s, e), disp')
    ensures disp' == Settles(w, s, disp, e)
  {
    disp' := StepKeeps(w, s, disp, e);
    assert disp' == Settles(w, s, disp, e);
    hide Inv, Step, Settles, StepOk, Solves, WellFormed, NextExecuting, Follows, NoConditions;
    StepKeepsWanted(w, env, s, e);
    match e
    case Pop(i, decision) => PopStaysFaithful(w, env, seed, fates, s, disp, i, decision, Step(w, s, e), disp');
    case Finish(i, outcome) => FinishStaysFaithful(w, env, seed, fates, s, disp, i, outcome, Step(w, s, e), disp');
  }

  lemma StepStaysLive(w: Workflow, s: State, disp: Dispositions, e: Event, s': State, disp': Dispositions)
    requires NoConditions(w.graph) && Live(w, s, disp)
    requires Enabled(w, s, e) && StepOk(w, s, disp, e, s', disp') && s'.status == Running
    ensures Live(w, s', disp')
  {
    NothingStrandedWithoutConditions(w, s, e);
  }

  /** Along a driven run every settled node has met its fate; and a run that ends before it
      is quiescent has met a fate that ends it. */
  lemma {:induction false} DrivenRunStaysOnCourse(w: Workflow, env: Env, seed: map<nat, Value>, fates: Fates,
                                                  s: State, disp: Dispositions, events: seq<Event>)
    returns (disp': Dispositions)
    requires Comparable(w, env, seed, fates) && Driven(w, env, s, events) && IsRun(w, s, events)
    requires s.status == Running && OnCourse(w, env, seed, fates, s, disp) && Live(w, s, disp)
    ensures var t := After(w, s, events);
            if t.status == Running then OnCourse(w, env, seed, fates, t, disp') && Live(w, t, disp')
            else exists n | n in fates :: fates[n] == Ends
    decreases |events|
  {
    hide Inv, Live, Step, Settles, Solves, WellFormed, NextExecuting, Records, Extends, Faithful, Wanted;
    hide NoConditions, Follows;
    disp' := disp;
    if events != [] {
      var e, s' := events[0], Step(w, s, events[0]);
      if s'.status == Running {
        var disp1 := StepStaysOnCourse(w, env, seed, fates, s, disp, e);
        StepStaysLive(w, s, disp, e, s', disp1);
        DrivenIsRun(w, env, s', events[1..]);
        disp' := DrivenRunStaysOnCourse(w, env, seed, fates, s', disp1, events[1..]);
      } else {
        var n := StoppingStepEnds(w, env, seed, fates, s, disp, e);
        StoppedRunsEnd(w, s', events[1..]);
      }
    }
  }

  // ----- at rest -----

  lemma SettledMet(w: Workflow, env: Env, seed: map<nat, Value>, fates: Fates, s: State, disp: Dispositions, p: nat)
    requires OnCourse(w, env, seed, fates, s, disp) && p in disp
    ensures Met(w, fates, s, disp, p) && (disp[p] == Batched ==> NonTail(w.chains, p))
  {
  }

  /** What an edge delivered during the run is what it delivers in the fates. */
  lemma EdgesAgree(w: Workflow, env: Env, seed: map<nat, Value>, fates: Fates, s: State, disp: Dispositions, i: nat)
    requires OnCourse(w, env, seed, fates, s, disp) && i < |w.graph.edges|
    requires w.graph.edges[i].src in disp || (w.graph.edges[i].src in fates && !Starts(fates[w.graph.edges[i].src]))
    ensures Arrives(w.graph, fates, i) <==> Delivered(w.graph, disp, {}, i)
    ensures Refuses(w.graph, fates, i) <==> Dead(w.graph, disp, {}, i)
  {
    hide OnCourse, Inv, NonTail;
    if w.graph.edges[i].src in disp {
      SettledMet(w, env, seed, fates, s, disp, w.graph.edges[i].src);
    }
  }

  /** The node runs, under its own name or inside its chain. */
  predicate Starts(fate: Fate) {
    fate.Ran? || fate.Carried?
  }

  /** A chain settles as a whole. */
  lemma EntryIsUnsettled(w: Workflow, s: State, disp: Dispositions, n: nat)
    requires WellFormed(w) && Live(w, s, disp) && n !in disp
    ensures Entry(w, n) !in disp
  {
    if ChainAt(w, n) != [] {
      var k, j := PlaceInChain(w, n);
      ChainSettlesWhole(w, disp, k, 0, j);
    }
  }

  lemma ChainSettlesWhole(w: Workflow, disp: Dispositions, k: nat, i: nat, j: nat)
    requires WholeChains(w, disp) && k < |w.chains| && i < |w.chains[k]| && j < |w.chains[k]|
    requires i == 0 || HeadsFirst(w.chains, disp)
    ensures w.chains[k][i] in disp ==> w.chains[k][j] in disp
  {
  }

  lemma PlaceInChain(w: Workflow, n: nat) returns (k: nat, j: nat)
    requires ChainAt(w, n) != []
    ensures k < |w.chains| && j < |w.chains[k]| && w.chains[k][j] == n && Entry(w, n) == w.chains[k][0]
  {
    ChainOfFinds(w.chains, n);
    k := ChainOf(w.chains, n).value;
    j :| 0 <= j < |w.chains[k]| && w.chains[k][j] == n;
  }

  lemma {:induction false} RestIsFate(w: Workflow, env: Env, seed: map<nat, Value>, fates: Fates, rank: seq<nat>,
                                      s: State, disp: Dispositions, n: nat)
    requires Evaluated(w, env, seed, fates) && OnCourse(w, env, seed, fates, s, disp)
    requires IsRank(w.graph, rank) && Live(w, s, disp) && Quiescent(s) && n < w.graph.size
    ensures n in disp <==> Starts(fates[n])
    ensures fates[n] != Ends
    decreases rank[n]
  {
    if n in disp {
      SettledStarts(w, env, seed, fates, s, disp, n);
    } else {
      hide *;
      EvaluatedFacts(w, env, seed, fates, rank, n);
      EntryIsNoLater(w, rank, n);
      EntryIsUnsettled(w, s, disp, n);
      var i := AwaitedEdge(w, s, disp, rank, Entry(w, n));
      RestIsFate(w, env, seed, fates, rank, s, disp, w.graph.edges[i].src);
      EdgesAgree(w, env, seed, fates, s, disp, i);
      UnarrivedIsNotStarted(w, env, seed, fates, s, disp, i, n);
    }
  }

  lemma SettledStarts(w: Workflow, env: Env, seed: map<nat, Value>, fates: Fates, s: State, disp: Dispositions, n: nat)
    requires OnCourse(w, env, seed, fates, s, disp) && n in disp
    ensures n in fates && Starts(fates[n])
  {
    SettledMet(w, env, seed, fates, s, disp, n);
  }

  lemma EvaluatedFacts(w: Workflow, env: Env, seed: map<nat, Value>, fates: Fates, rank: seq<nat>, n: nat)
    requires Evaluated(w, env, seed, fates) && IsRank(w.graph, rank) && n < w.graph.size
    ensures WellFormed(w) && ChainsOk(w.graph, w.chains) && Solves(w, env, seed, fates)
    ensures n in fates && n < |rank|
  {
  }

  lemma AwaitedEdge(w: Workflow, s: State, disp: Dispositions, rank: seq<nat>, n: nat) returns (i: nat)
    requires Live(w, s, disp) && Quiescent(s) && IsRank(w.graph, rank) && n < w.graph.size && n !in disp
    ensures i < |w.graph.edges| && w.graph.edges[i].dst == n && !Delivered(w.graph, disp, {}, i)
    ensures w.graph.edges[i].src < w.graph.size && rank[w.graph.edges[i].src] < rank[n]
  {
    QuietNodesWait(w, s, disp, n);
    i :| i in Waiting(w.graph, disp, {}, n);
  }

  lemma UnarrivedIsNotStarted(w: Workflow, env: Env, seed: map<nat, Value>, fates: Fates, s: State,
                              disp: Dispositions, i: nat, n: nat)
    requires OnCourse(w, env, seed, fates, s, disp) && Solves(w, env, seed, fates) && n in fates && n !in disp
    requires i < |w.graph.edges| && w.graph.edges[i].dst == Entry(w, n) && !Arrives(w.graph, fates, i)
    ensures !Starts(fates[n]) && fates[n] != Ends
  {
    assert n < w.graph.size;
    CourseIsFaithful(w, env, seed, fates, s, disp);
    SeededIsSettled(w, seed, fates, s, disp, n);
    assert fates[n] == Judge(w, env, seed, fates, n);
    assert i in InEdges(w.graph, Entry(w, n)) && !Arrived(w.graph, fates, Entry(w, n));
  }

  lemma SeededIsSettled(w: Workflow, seed: map<nat, Value>, fates: Fates, s: State, disp: Dispositions, n: nat)
    requires Faithful(w, seed, fates, s, disp) && n < w.graph.size && n !in disp
    ensures n !in seed
  {
  }

  /** What a fate leaves in `results`. */
  function ResultOf(fate: Fate): Option<Value> {
    match fate
    case Ran(_, value) => Some(value)
    case SkipMarked => Some(Skipped)
    case Carried => None
    case Unreached => None
    case Ends => None
  }

  function Lookup(results: map<nat, Value>, n: nat): Option<Value> {
    if n in results then Some(results[n]) else None
  }

  lemma RestHoldsResults(w: Workflow, env: Env, seed: map<nat, Value>, fates: Fates, rank: seq<nat>,
                         s: State, disp: Dispositions, n: nat)
    requires Evaluated(w, env, seed, fates) && OnCourse(w, env, seed, fates, s, disp)
    requires IsRank(w.graph, rank) && Live(w, s, disp) && Quiescent(s) && n < w.graph.size
    ensures Lookup(s.results, n) == ResultOf(fates[n])
  {
    hide *;
    EvaluatedFacts(w, env, seed, fates, rank, n);
    RestIsFate(w, env, seed, fates, rank, s, disp, n);
    if n in disp {
      SettledHoldsResult(w, env, seed, fates, s, disp, n);
    } else {
      RestRefuses(w, env, seed, fates, rank, s, disp, n);
      UnstartedResult(s.results, fates, n);
    }
  }

  lemma SettledHoldsResult(w: Workflow, env: Env, seed: map<nat, Value>, fates: Fates, s: State, disp: Dispositions,
                           n: nat)
    requires OnCourse(w, env, seed, fates, s, disp) && n in disp
    ensures n in fates && Lookup(s.results, n) == ResultOf(fates[n])
  {
    SettledMet(w, env, seed, fates, s, disp, n);
    assert Settled(w, s, disp, {});
  }

  lemma UnstartedResult(results: map<nat, Value>, fates: Fates, n: nat)
    requires n in fates && !Starts(fates[n])
    requires n in results <==> fates[n] == SkipMarked
    requires n in results ==> results[n] == Skipped
    ensures Lookup(results, n) == ResultOf(fates[n])
  {
  }

  /** At rest a chain member behind an unsettled head has not been marked. */
  lemma InnerIsUnmarked(w: Workflow, s: State, disp: Dispositions, n: nat)
    requires WellFormed(w) && Inv(w, s, disp, {}) && Live(w, s, disp)
    requires n < w.graph.size && n !in disp && Entry(w, n) != n
    ensures n !in s.results
  {
    var k, j := PlaceInChain(w, n);
    hide Counted, Queued, InFlight, Waiting, StalledNodes;
    forall i | i in InEdges(w.graph, n) ensures !Dead(w.graph, disp, {}, i) {
      ChainFedFromWithin(w, k, j, i);
      ChainSettlesWhole(w, disp, k, j - 1, j);
    }
  }

  lemma RestRefuses(w: Workflow, env: Env, seed: map<nat, Value>, fates: Fates, rank: seq<nat>,
                    s: State, disp: Dispositions, n: nat)
    requires Evaluated(w, env, seed, fates) && OnCourse(w, env, seed, fates, s, disp)
    requires IsRank(w.graph, rank) && Live(w, s, disp) && Quiescent(s) && n < w.graph.size && n !in disp
    ensures n in s.results <==> fates[n] == SkipMarked
    ensures n in s.results ==> s.results[n] == Skipped
  {
    RestIsFate(w, env, seed, fates, rank, s, disp, n);
    SeededIsSettled(w, seed, fates, s, disp, n);
    JudgedAtRest(w, env, seed, fates, n);
    if Entry(w, n) == n {
      hide *;
      RestRefusesEdges(w, env, seed, fates, rank, s, disp, n);
      MarkedAtRest(w, env, seed, fates, s, disp, n);
    } else {
      InnerIsUnmarked(w, s, disp, n);
    }
  }

  lemma RestRefusesEdges(w: Workflow, env: Env, seed: map<nat, Value>, fates: Fates, rank: seq<nat>,
                         s: State, disp: Dispositions, n: nat)
    requires Evaluated(w, env, seed, fates) && OnCourse(w, env, seed, fates, s, disp)
    requires IsRank(w.graph, rank) && Live(w, s, disp) && Quiescent(s)
    ensures forall i | i in InEdges(w.graph, n) :: Refuses(w.graph, fates, i) <==> Dead(w.graph, disp, {}, i)
  {
    hide OnCourse, Live, Refuses, Dead, Judge, ChainsOk, NoConditions;
    forall i | i in InEdges(w.graph, n)
      ensures Refuses(w.graph, fates, i) <==> Dead(w.graph, disp, {}, i)
    {
      RestIsFate(w, env, seed, fates, rank, s, disp, w.graph.edges[i].src);
      EdgesAgree(w, env, seed, fates, s, disp, i);
    }
  }

  lemma MarkedAtRest(w: Workflow, env: Env, seed: map<nat, Value>, fates: Fates, s: State, disp: Dispositions, n: nat)
    requires OnCourse(w, env, seed, fates, s, disp) && n < w.graph.size && n !in disp
    requires forall i | i in InEdges(w.graph, n) :: Refuses(w.graph, fates, i) <==> Dead(w.graph, disp, {}, i)
    ensures n in s.results <==> Refused(w.graph, fates, n)
    ensures n in s.results ==> s.results[n] == Skipped
  {
    assert Marked(w, s, disp, {});
    hide OnCourse, Inv, Refuses, Dead;
  }

  lemma JudgedAtRest(w: Workflow, env: Env, seed: map<nat, Value>, fates: Fates, n: nat)
    requires Solves(w, env, seed, fates) && n !in seed && n < w.graph.size && !Starts(fates[n]) && fates[n] != Ends
    ensures fates[n] == SkipMarked <==> Entry(w, n) == n && Refused(w.graph, fates, n)
  {
    assert fates[n] == Judge(w, env, seed, fates, n);
    hide Arrived, Refused, Gather, ChainAt, Compose, RoutesErrors;
  }

  /** The main theorem.  A run that comes to rest leaves in `results` exactly what the
      recursive evaluation says, for every node and every completion order, whether or not
      chains are batched and whatever fails. */
  lemma QuiescentRunsComputeFates(w: Workflow, env: Env, seed: map<nat, Value>, fates: Fates,
                                  events: seq<Event>, n: nat)
    requires Startable(w, seed) && Acyclic(w.graph) && NoConditions(w.graph) && Solves(w, env, seed, fates)
    requires Driven(w, env, Start(w, seed), events) && IsRun(w, Start(w, seed), events)
    requires Quiescent(After(w, Start(w, seed), events)) && n < w.graph.size
    ensures Lookup(After(w, Start(w, seed), events).results, n) == ResultOf(fates[n])
    ensures fates[n] != Ends
  {
    var s := Start(w, seed);
    var rank :| IsRank(w.graph, rank);
    StartIsLive(w, seed);
    StartIsFaithful(w, env, seed, fates);
    hide Inv, Live, Faithful, Solves, WellFormed, NoConditions, IsRank;
    var disp := DrivenRunStaysOnCourse(w, env, seed, fates, s, SeedDispositions(w.graph, seed), events);
    RestHoldsResults(w, env, seed, fates, rank, After(w, s, events), disp, n);
    RestIsFate(w, env, seed, fates, rank, After(w, s, events), disp, n);
  }

  /** The same, with the recursion spelled out. */
  lemma QuiescentRunsEvaluate(w: Workflow, env: Env, seed: map<nat, Value>, rank: seq<nat>, events: seq<Event>, n: nat)
    requires Startable(w, seed) && IsRank(w.graph, rank) && NoConditions(w.graph)
    requires Driven(w, env, Start(w, seed), events) && IsRun(w, Start(w, seed), events)
    requires Quiescent(After(w, Start(w, seed), events)) && n < w.graph.size
    ensures Lookup(After(w, Start(w, seed), events).results, n) == ResultOf(Evaluate(w, env, seed, rank, n))
  {
    var fates := EvaluationSolves(w, env, seed, rank);
    hide Startable, NoConditions, After, IsRun, Driven, Solves, Start, ChainsOk;
    QuiescentRunsComputeFates(w, env, seed, fates, events, n);
  }
}
