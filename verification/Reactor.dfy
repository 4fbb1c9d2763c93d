/** The reactor as the engine writes it: fields updated in place by loops over edges, each
    method proved against the corresponding transition of Scheduler. */
module Reactors {
  import opened Graphs
  import opened FanIn
  import opened Scheduler
  import opened SchedulerInvariant
  import opened SchedulerRuns
  import opened Fates
  import opened Meaning
  import opened Conditions
  import opened Equivalences
  import opened SubWorkflows
  import opened Termination

  // ----- seeding -----

  function Counts(g: Graph, seeds: set<nat>): map<nat, nat> {
    map n: nat | 0 <= n < g.size :: SeededCount(g, seeds, n)
  }

  lemma UnseededCount(g: Graph, n: nat)
    ensures SeededCount(g, {}, n) == |InEdges(g, n)|
  {
    assert FromUnseeded(g, {}, n) == InEdges(g, n);
  }

  /** One more seed: its own counter is cleared and its children are decremented. */
  lemma SeedOne(g: Graph, seeds: set<nat>, s: nat)
    requires Valid(g) && s !in seeds
    ensures Counts(g, seeds + {s})
         == if s < g.size then Cascade(g, Counts(g, seeds)[s := 0], s, |g.edges|) else Counts(g, seeds)
  {
    var p := Counts(g, seeds);
    if s < g.size {
      CascadeCounts(g, p[s := 0], s, |g.edges|, s);
      forall n: nat | n < g.size
        ensures Cascade(g, p[s := 0], s, |g.edges|)[n] == SeededCount(g, seeds + {s}, n)
      {
        SeedCount(g, seeds, s, n);
        CascadeCounts(g, p[s := 0], s, |g.edges|, n);
      }
    } else {
      forall n: nat | n < g.size ensures SeededCount(g, seeds + {s}, n) == SeededCount(g, seeds, n) {
        SeedCount(g, seeds, s, n);
        assert Targets(g, s, n, |g.edges|) == {};
      }
    }
  }

  lemma SeedCount(g: Graph, seeds: set<nat>, s: nat, n: nat)
    requires s !in seeds
    ensures SeededCount(g, seeds + {s}, n)
         == if n in seeds || n == s then 0 else SeededCount(g, seeds, n) - |Targets(g, s, n, |g.edges|)|
    ensures n !in seeds ==> SeededCount(g, seeds, n) >= |Targets(g, s, n, |g.edges|)|
  {
    var unseeded, still := FromUnseeded(g, seeds, n), FromUnseeded(g, seeds + {s}, n);
    var targets := Targets(g, s, n, |g.edges|);
    assert still == unseeded - targets;
    assert unseeded * targets == targets;
    SubsetSize(targets, unseeded);
  }

  class Reactor {
    const w: Workflow
    var results: map<nat, Value>
    var pending: map<nat, nat>
    var ready: seq<nat>
    var executing: seq<Job>
    var status: Status

    ghost function Contents(): State
      reads this
    {
      State(results, pending, ready, executing, status)
    }

    /** In-degrees, minus what the seeded nodes have already delivered, whatever order the
        seeds are visited in; then the roots. */
    constructor (w: Workflow, seed: map<nat, Value>)
      requires Valid(w.graph)
      ensures this.w == w && Contents() == Start(w, seed)
    {
      this.w := w;
      results := seed;
      executing := [];
      status := Running;
      pending := map[];
      ready := [];
      new;
      CountInDegrees();
      PropagateSeeds(seed);
      QueueRoots(seed);
    }

    method CountInDegrees()
      modifies this`pending
      ensures pending == Counts(w.graph, {})
    {
      var g := w.graph;
      pending := map[];
      for n := 0 to g.size
        invariant pending == map m: nat | 0 <= m < n :: SeededCount(g, {}, m)
      {
        UnseededCount(g, n);
        pending := pending[n := |InEdges(g, n)|];
      }
    }

    method PropagateSeeds(seed: map<nat, Value>)
      requires Valid(w.graph) && pending == Counts(w.graph, {})
      modifies this`pending
      ensures pending == Counts(w.graph, seed.Keys)
    {
      var todo := seed.Keys;
      ghost var done: set<nat> := {};
      while todo != {}
        invariant todo !! done && todo + done == seed.Keys
        invariant pending == Counts(w.graph, done)
        decreases |todo|
      {
        var s: nat :| s in todo;
        SeedOne(w.graph, done, s);
        if s < w.graph.size {
          pending := pending[s := 0];
          Propagate(s);
        }
        todo, done := todo - {s}, done + {s};
      }
      assert done == seed.Keys;
    }

    method QueueRoots(seed: map<nat, Value>)
      requires pending == Counts(w.graph, seed.Keys)
      modifies this`ready
      ensures ready == Roots(w.graph, seed.Keys, w.graph.size)
    {
      ready := [];
      for n := 0 to w.graph.size
        invariant ready == Roots(w.graph, seed.Keys, n)
      {
        if pending[n] == 0 && n !in seed {
          ready := ready + [n];
        }
      }
    }

    /** The guarded decrements of u's children, one per edge. */
    method Propagate(u: nat)
      modifies this`pending
      ensures pending == Cascade(w.graph, old(pending), u, |w.graph.edges|)
    {
      var g := w.graph;
      for i := |g.edges| downto 0
        invariant Cascade(g, pending, u, i) == Cascade(g, old(pending), u, |g.edges|)
      {
        var e := g.edges[i];
        if e.src == u && e.dst in pending {
          var cnt := pending[e.dst];
          if cnt > 0 { cnt := cnt - 1; }
          pending := pending[e.dst := cnt];
        }
      }
    }

    method ApplyFanInEarlyReady(child: nat)
      requires child in pending
      modifies this`pending
      ensures pending == old(pending)[child := ReleaseEarly(w, child, old(pending[child]))]
    {
      if child !in w.joins { return; }
      var totalParents, cnt := |InEdges(w.graph, child)|, pending[child];
      var completedParents := (totalParents - cnt) % USIZE;
      match w.joins[child]
      case Any =>
        if cnt > 0 { pending := pending[child := 0]; }
      case Majority =>
        if completedParents > totalParents / 2 && cnt > 0 { pending := pending[child := 0]; }
      case AtLeast(n) =>
        if completedParents >= n && cnt > 0 { pending := pending[child := 0]; }
      case All =>
    }

    method UnblockSuccessors(u: nat)
      modifies this
      ensures Contents() == WalkAll(w, old(Contents()), u, OnUnblock)
    {
      var g := w.graph;
      for i := |g.edges| downto 0
        invariant WalkEdges(w, Contents(), u, OnUnblock, i) == WalkAll(w, old(Contents()), u, OnUnblock)
      {
        var e := g.edges[i];
        if e.src == u && e.dst in pending {
          var cnt := pending[e.dst];
          if cnt > 0 { cnt := cnt - 1; }
          pending := pending[e.dst := cnt];
          if cnt == 0 { ready := ready + [e.dst]; }
        }
      }
    }

    /** `ClearChain`: the members of a finished chain stop waiting. */
    method ClearFinishedChain(u: nat)
      modifies this`pending
      ensures pending == ClearChain(w, u, old(pending))
    {
      var k := ChainOf(w.chains, u);
      if k.Some? && k.value < |w.chains| {
        var chain := w.chains[k.value];
        for j := 0 to |chain|
          invariant pending == old(pending) + (map n | n in chain[..j] :: 0)
        {
          pending := pending[chain[j] := 0];
        }
        assert chain[..|chain|] == chain;
      }
    }

    /** Some edge from u to child has a condition that is false of the output; the scan stops
        at the first. */
    method EdgeConditionFailed(u: nat, child: nat, output: Value) returns (failed: bool)
      ensures failed <==> !ConditionsHold(w, u, child, output)
    {
      var g := w.graph;
      failed := false;
      for i := |g.edges| downto 0
        invariant !failed
        invariant forall j | i <= j < |g.edges| && Joins(g, j, u, child) && g.edges[j].condition.Some? ::
                    w.policy.holds(g.edges[j].condition.value, output)
      {
        var e := g.edges[i];
        if e.src == u && e.dst == child && e.condition.Some? {
          if !w.policy.holds(e.condition.value, output) {
            failed := true;
            assert Joins(g, i, u, child);
            break;
          }
        }
      }
    }

    method HandleNodeSuccess(u: nat, raw: string)
      modifies this
      ensures Contents() == Succeed(w, old(Contents()), u, raw)
    {
      var output := if |raw| > w.policy.maxOutputBytes then TooLarge(|raw|, w.policy.maxOutputBytes)
                    else Output(w.policy.sanitize(raw));
      results := results[u := output];
      ClearFinishedChain(u);
      ghost var start := Contents();
      var g := w.graph;
      for i := |g.edges| downto 0
        invariant WalkEdges(w, Contents(), u, OnSuccess(output), i) == WalkAll(w, start, u, OnSuccess(output))
      {
        if g.edges[i].src == u {
          VisitChild(u, g.edges[i].dst, output);
        }
      }
    }

    /** One turn of the success loop. */
    method VisitChild(u: nat, child: nat, output: Value)
      modifies this
      ensures Contents() == VisitEdge(w, old(Contents()), u, child, OnSuccess(output))
    {
      if ErrorBetween(w.graph, u, child) {
        results := results[child := Skipped];
        return;
      }
      if child !in pending { return; }
      pending := pending[child := Decrement(pending[child])];
      ApplyFanInEarlyReady(child);
      assert pending == old(pending)[child := ReleaseEarly(w, child, Decrement(old(pending[child])))];
      if pending[child] == 0 {
        var failed := EdgeConditionFailed(u, child, output);
        ConditionFailsIff(w, u, child, output);
        if failed {
          results := results[child := Skipped];
          Propagate(child);
        } else {
          ready := ready + [child];
        }
      }
    }

    method RouteToErrorHandlers(u: nat)
      modifies this
      ensures Contents() == WalkAll(w, old(Contents()), u, OnErrorRoute)
    {
      var g := w.graph;
      for i := |g.edges| downto 0
        invariant WalkEdges(w, Contents(), u, OnErrorRoute, i) == WalkAll(w, old(Contents()), u, OnErrorRoute)
      {
        var child := g.edges[i].dst;
        if g.edges[i].src == u {
          if !ErrorBetween(g, u, child) {
            results := results[child := Skipped];
          } else if child in pending {
            var cnt := pending[child];
            if cnt > 0 { cnt := cnt - 1; }
            ghost var before := pending;
            pending := pending[child := cnt];
            ApplyFanInEarlyReady(child);
            assert pending == before[child := ReleaseEarly(w, child, cnt)];
            if pending[child] == 0 { ready := ready + [child]; }
          }
        }
      }
    }

    method HandleNodeFailure(u: nat, error: string)
      modifies this
      ensures Contents() == Fail(w, old(Contents()), u, error)
    {
      var message := w.policy.redact(error);
      if RoutesErrors(w.graph, u) {
        results := results[u := RoutedError(message, u)];
        ClearFinishedChain(u);
        RouteToErrorHandlers(u);
      } else if u in w.continueOnError {
        results := results[u := ContinuedError(message)];
        UnblockSuccessors(u);
      } else {
        status := Aborted(message);
      }
    }

    method HandleCompletedFuture(u: nat, outcome: Result<string>)
      modifies this
      ensures Contents() == Complete(w, old(Contents()), u, outcome)
    {
      match outcome
      case Ok(raw) => HandleNodeSuccess(u, raw);
      case Err(error) => HandleNodeFailure(u, error);
    }

    /** The inner loop's body for the node at the front of the queue. */
    method TakeFront(env: Env) returns (ghost decision: Decision)
      requires status == Running && ready != []
      modifies this
      ensures Follows(w, env, old(Contents()), Pop(0, decision))
      ensures Contents() == Step(w, old(Contents()), Pop(0, decision))
    {
      var n := ready[0];
      assert Without(ready, 0) == ready[1..];
      ready := ready[1..];
      var inputs := InputsOf(w.graph, results, n);
      var answer := env.preflight(n, inputs);
      decision := answer;
      var chain := ChainOf(w.chains, n);
      if chain.Some? {
        if IsHead(w.chains, n) { executing := executing + [Job(n, chain, inputs)]; }
        return;
      }
      match answer
      case Dispatch => executing := executing + [Job(n, None, inputs)];
      case Resolve(value) =>
        results := results[n := value];
        UnblockSuccessors(n);
      case Reject(message) => HandleNodeFailure(n, message);
      case Halt(message) => status := Aborted(message);
      case Pause(value) =>
        results := results[n := value];
        status := Paused;
    }

    /** A sub-workflow node is at the front: every other one in the queue is taken with it, all
        are evaluated on the results as they are, and resolved one after the other. */
    method TakeSubWorkflows(sub: Nested) returns (ghost events: seq<Event>)
      requires status == Running && ready != [] && ready[0] in sub.nodes && OutsideChains(w, sub)
      modifies this
      ensures events == DrainEvents(w, sub, old(results), 0, old(ready)) && events != []
      ensures IsRun(w, old(Contents()), events) && Contents() == After(w, old(Contents()), events)
    {
      ghost var s, before := Contents(), results;
      events := DrainEvents(w, sub, results, 0, ready);
      QueueIsReady(w, s);
      DrainIsRun(w, sub, results, s.(ready := []), [], ready);
      assert [] + Others(sub, ready) == Others(sub, ready);
      var batch, keep := SplitQueue(sub);
      ready := keep;
      var outputs := EvaluateBatch(sub, batch);
      hide Others, Subs, DrainEvents, IsRun, After, AnswerOn;
      ResolveAllIgnoresQueue(w, sub, before, s.(ready := []), keep, batch);
      BehindIs(s, keep);
      ghost var start := Contents();
      for k := 0 to |batch|
        invariant ResolveAll(w, sub, before, Contents(), batch[k..]) == ResolveAll(w, sub, before, start, batch)
      {
        ghost var now := Contents();
        results := results[batch[k] := outputs[k]];
        UnblockSuccessors(batch[k]);
        assert batch[k..][0] == batch[k] && batch[k..][1..] == batch[k + 1..];
        assert Contents() == ResolveNode(w, now, batch[k], outputs[k]);
      }
      assert batch[|batch|..] == [];
    }

    /** The sub-workflow nodes of the queue and the others, both in order. */
    method SplitQueue(sub: Nested) returns (batch: seq<nat>, keep: seq<nat>)
      ensures batch == Subs(sub, ready) && keep == Others(sub, ready)
    {
      batch, keep := [], [];
      var queue := ready;
      while queue != []
        invariant batch + Subs(sub, queue) == Subs(sub, ready) && keep + Others(sub, queue) == Others(sub, ready)
        decreases |queue|
      {
        if queue[0] in sub.nodes { batch := batch + [queue[0]]; } else { keep := keep + [queue[0]]; }
        queue := queue[1..];
      }
    }

    /** What the batched nodes return, all on the same results. */
    method EvaluateBatch(sub: Nested, batch: seq<nat>) returns (outputs: seq<Value>)
      ensures |outputs| == |batch| && forall k | 0 <= k < |batch| :: outputs[k] == AnswerOn(w, sub, results, batch[k])
    {
      outputs := [];
      for k := 0 to |batch|
        invariant |outputs| == k && forall j | 0 <= j < k :: outputs[j] == AnswerOn(w, sub, results, batch[j])
      {
        outputs := outputs + [sub.answer(batch[k], InputsOf(w.graph, results, batch[k]))];
      }
    }

    /** Some in-flight future finishes: nothing says which. */
    method AwaitNext(env: Env) returns (ghost e: Event)
      requires status == Running && ready == [] && executing != []
      modifies this
      ensures Enabled(w, old(Contents()), e) && Follows(w, env, old(Contents()), e)
      ensures Contents() == Step(w, old(Contents()), e)
    {
      var i: nat :| i < |executing|;
      var job := executing[i];
      var outcome := JobOutcome(w, env, job);
      e := Finish(i, outcome);
      executing := Without(executing, i);
      HandleCompletedFuture(Reporter(w, job), outcome);
    }

    /** The reactor loop, past the cycle check.  It ends, whatever the join modes, conditions and
        seeds, on a run of the reactor; and if it exits without an abort or a pause, `results`
        holds what the recursive evaluation says, unless a sub-workflow node has a skip condition. */
    method RunSchedulerLoop(env: Env, sub: Nested, ghost seed: map<nat, Value>) returns (ghost events: seq<Event>)
      requires Acyclic(w.graph) && ChainsOk(w.graph, w.chains) && Contents() == Start(w, seed)
      requires OutsideChains(w, sub) && SpeaksFor(env, sub)
      modifies this
      ensures IsRun(w, Start(w, seed), events) && Contents() == After(w, Start(w, seed), events) && Maximal(Contents())
      ensures Startable(w, seed) && Unskipped(sub) ==> Driven(w, env, Start(w, seed), events)
      ensures forall fates: Fates, n: nat |
                Startable(w, seed) && Unskipped(sub) && NoConditions(w.graph) && Solves(w, env, seed, fates)
                && n < w.graph.size && Quiescent(Contents()) :: Lookup(results, n) == ResultOf(fates[n])
    {
      ghost var rank := AcyclicIsNumbered(w.graph);
      ghost var top := w.graph.size;
      events := [];
      while ready != [] || executing != []
        invariant Reached(env, sub, seed, events) && status == Running
        decreases Load(w, rank, top, Contents())
      {
        ghost var before := Load(w, rank, top, Contents());
        while ready != []
          invariant Reached(env, sub, seed, events) && status == Running
          invariant Load(w, rank, top, Contents()) < before || ready != [] || executing != []
          invariant Load(w, rank, top, Contents()) <= before
          decreases Load(w, rank, top, Contents())
        {
          events := TakeTurn(env, sub, seed, events, rank, top);
          if status != Running { return; }
        }
        if executing != [] {
          events := AwaitTurn(env, sub, seed, events, rank, top);
          if status != Running { return; }
        }
      }
      forall fates: Fates, n: nat |
        Startable(w, seed) && Unskipped(sub) && NoConditions(w.graph) && Solves(w, env, seed, fates)
        && n < w.graph.size && Quiescent(Contents())
        ensures Lookup(results, n) == ResultOf(fates[n])
      {
        QuiescentRunsComputeFates(w, env, seed, fates, events, n);
      }
    }

    ghost predicate Reached(env: Env, sub: Nested, seed: map<nat, Value>, events: seq<Event>)
      reads this
    {
      && IsRun(w, Start(w, seed), events) && Contents() == After(w, Start(w, seed), events)
      && (Startable(w, seed) && Unskipped(sub) ==> Driven(w, env, Start(w, seed), events))
    }

    /** One turn of the inner loop. */
    method TakeTurn(env: Env, sub: Nested, ghost seed: map<nat, Value>, ghost events: seq<Event>,
                    ghost rank: seq<nat>, ghost top: nat)
      returns (ghost more: seq<Event>)
      requires Reached(env, sub, seed, events) && status == Running && ready != []
      requires Numbering(w.graph, rank, top) && ChainsOk(w.graph, w.chains)
      requires OutsideChains(w, sub) && SpeaksFor(env, sub)
      modifies this
      ensures Reached(env, sub, seed, more)
      ensures Load(w, rank, top, Contents()) < Load(w, rank, top, old(Contents()))
    {
      ghost var s := Contents();
      hide IsRun, After, Start, Driven, Load, Step, Follows, Startable, DrainEvents, ChainsOk, Gather;
      if ready[0] in sub.nodes && sub.skip(ready[0], InputsOf(w.graph, results, ready[0])).None? {
        ghost var batch := TakeSubWorkflows(sub);
        BatchIsDriven(w, env, sub, seed, events);
        DrivenAppend(w, env, Start(w, seed), events, batch);
        RunUnloads(w, rank, top, s, batch);
        more := events + batch;
      } else {
        ghost var decision := TakeFront(env);
        RunThen(w, env, Start(w, seed), events, Pop(0, decision));
        StepUnloads(w, rank, top, s, Pop(0, decision));
        more := events + [Pop(0, decision)];
      }
    }

    /** One turn of the outer loop: the next future. */
    method AwaitTurn(env: Env, sub: Nested, ghost seed: map<nat, Value>, ghost events: seq<Event>,
                     ghost rank: seq<nat>, ghost top: nat)
      returns (ghost more: seq<Event>)
      requires Reached(env, sub, seed, events) && status == Running && ready == [] && executing != []
      requires Numbering(w.graph, rank, top) && ChainsOk(w.graph, w.chains)
      modifies this
      ensures Reached(env, sub, seed, more)
      ensures Load(w, rank, top, Contents()) < Load(w, rank, top, old(Contents()))
    {
      ghost var s := Contents();
      ghost var e := AwaitNext(env);
      hide IsRun, After, Start, Driven, Load, Step, Follows, Startable, ChainsOk;
      RunThen(w, env, Start(w, seed), events, e);
      StepUnloads(w, rank, top, s, e);
      more := events + [e];
    }
  }

  lemma BatchIsDriven(w: Workflow, env: Env, sub: Nested, seed: map<nat, Value>, events: seq<Event>)
    requires IsRun(w, Start(w, seed), events) && After(w, Start(w, seed), events).status == Running
    requires OutsideChains(w, sub) && SpeaksFor(env, sub)
    ensures var s := After(w, Start(w, seed), events);
            Startable(w, seed) && Unskipped(sub) ==> Driven(w, env, s, DrainEvents(w, sub, s.results, 0, s.ready))
  {
    if Startable(w, seed) && Unskipped(sub) {
      BatchIgnoresSkipsIff(w, env, sub, seed, events);
      hide IsRun, After, Start, Driven, Startable, DrainEvents, Gather;
    }
  }
}
