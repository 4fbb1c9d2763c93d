/** Every run of an acyclic workflow ends, whatever its join modes, conditions and seeds.  No
    invariant is needed: a node is worth more than everything its completion can enqueue. */
module Termination {
  import opened Graphs
  import opened Scheduler
  import opened SchedulerInvariant

  /** A topological numbering and a bound on it. */
  ghost predicate Numbering(g: Graph, rank: seq<nat>, top: nat) {
    IsRank(g, rank) && forall n | 0 <= n < |rank| :: rank[n] <= top
  }

  ghost function Height(g: Graph, rank: seq<nat>, top: nat, n: nat): nat
    requires Numbering(g, rank, top)
  {
    if n < g.size then top - rank[n] else 0
  }

  /** What finishing n is worth: more than enqueueing every child once for each edge to it. */
  ghost function Worth(g: Graph, rank: seq<nat>, top: nat, n: nat): nat
    requires Numbering(g, rank, top)
    decreases Height(g, rank, top, n), |g.edges| + 1
  {
    1 + WorthBelow(g, rank, top, n, |g.edges|)
  }

  ghost function WorthBelow(g: Graph, rank: seq<nat>, top: nat, n: nat, k: nat): nat
    requires Numbering(g, rank, top) && k <= |g.edges|
    decreases Height(g, rank, top, n), k
  {
    if k == 0 then 0
    else
      (if g.edges[k - 1].src == n then 1 + Worth(g, rank, top, g.edges[k - 1].dst) else 0)
      + WorthBelow(g, rank, top, n, k - 1)
  }

  ghost function QueueWorth(g: Graph, rank: seq<nat>, top: nat, ready: seq<nat>): nat
    requires Numbering(g, rank, top)
  {
    if ready == [] then 0
    else QueueWorth(g, rank, top, ready[..|ready| - 1]) + 1 + Worth(g, rank, top, ready[|ready| - 1])
  }

  ghost function JobsWorth(w: Workflow, rank: seq<nat>, top: nat, jobs: seq<Job>): nat
    requires Numbering(w.graph, rank, top)
  {
    if jobs == [] then 0
    else JobsWorth(w, rank, top, jobs[..|jobs| - 1]) + Worth(w.graph, rank, top, Reporter(w, jobs[|jobs| - 1]))
  }

  /** What is queued and in flight. */
  ghost function Load(w: Workflow, rank: seq<nat>, top: nat, s: State): nat
    requires Numbering(w.graph, rank, top)
  {
    QueueWorth(w.graph, rank, top, s.ready) + JobsWorth(w, rank, top, s.executing)
  }

  lemma EnqueueAddsWorth(g: Graph, rank: seq<nat>, top: nat, ready: seq<nat>, n: nat)
    requires Numbering(g, rank, top)
    ensures QueueWorth(g, rank, top, ready + [n]) == QueueWorth(g, rank, top, ready) + 1 + Worth(g, rank, top, n)
  {
    assert (ready + [n])[..|ready|] == ready;
  }

  lemma {:induction false} PoppedHasWorth(g: Graph, rank: seq<nat>, top: nat, ready: seq<nat>, i: nat)
    requires Numbering(g, rank, top) && i < |ready|
    ensures QueueWorth(g, rank, top, ready)
            == QueueWorth(g, rank, top, Without(ready, i)) + 1 + Worth(g, rank, top, ready[i])
    decreases |ready|
  {
    hide Worth, Numbering;
    var rest := ready[..|ready| - 1];
    if i == |ready| - 1 {
      assert Without(ready, i) == rest;
    } else {
      PoppedHasWorth(g, rank, top, rest, i);
      assert Without(ready, i) == Without(rest, i) + [ready[|ready| - 1]];
      EnqueueAddsWorth(g, rank, top, Without(rest, i), ready[|ready| - 1]);
    }
  }

  lemma LaunchAddsWorth(w: Workflow, rank: seq<nat>, top: nat, jobs: seq<Job>, job: Job)
    requires Numbering(w.graph, rank, top)
    ensures JobsWorth(w, rank, top, jobs + [job])
            == JobsWorth(w, rank, top, jobs) + Worth(w.graph, rank, top, Reporter(w, job))
  {
    assert (jobs + [job])[..|jobs|] == jobs;
  }

  lemma {:induction false} JobHasWorth(w: Workflow, rank: seq<nat>, top: nat, jobs: seq<Job>, i: nat)
    requires Numbering(w.graph, rank, top) && i < |jobs|
    ensures JobsWorth(w, rank, top, jobs)
         == JobsWorth(w, rank, top, Without(jobs, i)) + Worth(w.graph, rank, top, Reporter(w, jobs[i]))
    decreases |jobs|
  {
    hide Worth, Numbering, Reporter;
    var rest := jobs[..|jobs| - 1];
    if i == |jobs| - 1 {
      assert Without(jobs, i) == rest;
    } else {
      JobHasWorth(w, rank, top, rest, i);
      assert Without(jobs, i) == Without(rest, i) + [jobs[|jobs| - 1]];
      LaunchAddsWorth(w, rank, top, Without(rest, i), jobs[|jobs| - 1]);
    }
  }

  // ----- walks -----

  /** A visit enqueues its child at most once and leaves the jobs and the status alone. */
  lemma VisitEnqueuesOnce(w: Workflow, s: State, u: nat, c: nat, walk: Walk)
    ensures var s' := VisitEdge(w, s, u, c, walk);
            && s'.executing == s.executing && s'.status == s.status
            && (s'.ready == s.ready || s'.ready == s.ready + [c])
  {
    hide ErrorBetween, ConditionFails, Cascade, ReleaseEarly;
  }

  lemma {:induction false} WalkAddsAtMost(w: Workflow, rank: seq<nat>, top: nat, s: State, u: nat, walk: Walk, k: nat)
    requires Numbering(w.graph, rank, top) && k <= |w.graph.edges|
    ensures WalkEdges(w, s, u, walk, k).status == s.status
    ensures Load(w, rank, top, WalkEdges(w, s, u, walk, k))
            <= Load(w, rank, top, s) + WorthBelow(w.graph, rank, top, u, k)
    decreases k
  {
    hide VisitEdge, Numbering, JobsWorth, QueueWorth;
    if k > 0 {
      var e := w.graph.edges[k - 1];
      if e.src == u {
        var s' := VisitEdge(w, s, u, e.dst, walk);
        VisitEnqueuesOnce(w, s, u, e.dst, walk);
        EnqueueAddsWorth(w.graph, rank, top, s.ready, e.dst);
        WalkAddsAtMost(w, rank, top, s', u, walk, k - 1);
      } else {
        WalkAddsAtMost(w, rank, top, s, u, walk, k - 1);
      }
    }
  }

  lemma CompletionAddsLess(w: Workflow, rank: seq<nat>, top: nat, s: State, u: nat, outcome: Result<string>)
    requires Numbering(w.graph, rank, top)
    ensures Load(w, rank, top, Complete(w, s, u, outcome)) < Load(w, rank, top, s) + Worth(w.graph, rank, top, u)
  {
    var k, p := |w.graph.edges|, ClearChain(w, u, s.pending);
    hide WalkEdges, Numbering, JobsWorth, QueueWorth, RoutesErrors, ClearChain;
    match outcome
    case Ok(raw) =>
      var output := Admit(w.policy, raw);
      WalkAddsAtMost(w, rank, top, s.(results := s.results[u := output], pending := p), u, OnSuccess(output), k);
    case Err(error) =>
      var message := w.policy.redact(error);
      WalkAddsAtMost(w, rank, top, s.(results := s.results[u := RoutedError(message, u)], pending := p), u,
                     OnErrorRoute, k);
      WalkAddsAtMost(w, rank, top, s.(results := s.results[u := ContinuedError(message)]), u, OnUnblock, k);
  }

  // ----- steps -----

  lemma {:induction false} EdgeIsCheaper(g: Graph, rank: seq<nat>, top: nat, i: nat, k: nat)
    requires Numbering(g, rank, top) && i < k <= |g.edges|
    ensures WorthBelow(g, rank, top, g.edges[i].src, k) >= 1 + Worth(g, rank, top, g.edges[i].dst)
    decreases k
  {
    if i < k - 1 { EdgeIsCheaper(g, rank, top, i, k - 1); }
  }

  /** Along a chain the worth decreases: the tail, which reports, is worth no more than any member. */
  lemma {:induction false} TailIsCheaper(w: Workflow, rank: seq<nat>, top: nat, k: nat, j: nat)
    requires Numbering(w.graph, rank, top) && ChainsOk(w.graph, w.chains) && k < |w.chains| && j < |w.chains[k]|
    ensures Worth(w.graph, rank, top, w.chains[k][|w.chains[k]| - 1]) <= Worth(w.graph, rank, top, w.chains[k][j])
    decreases |w.chains[k]| - j
  {
    var c, g := w.chains[k], w.graph;
    if j < |c| - 1 {
      assert IsChain(g, c) && Link(g, c[j], c[j + 1]);
      var i: nat :| OutEdges(g, c[j]) == {i} && InEdges(g, c[j + 1]) == {i};
      assert i in OutEdges(g, c[j]) && i in InEdges(g, c[j + 1]);
      EdgeIsCheaper(g, rank, top, i, |g.edges|);
      TailIsCheaper(w, rank, top, k, j + 1);
    }
  }

  lemma JobIsCheaper(w: Workflow, rank: seq<nat>, top: nat, job: Job)
    requires Numbering(w.graph, rank, top) && ChainsOk(w.graph, w.chains) && job.chain == ChainOf(w.chains, job.node)
    ensures Worth(w.graph, rank, top, Reporter(w, job)) <= Worth(w.graph, rank, top, job.node)
  {
    ChainOfFinds(w.chains, job.node);
    hide Worth, ChainsOk, Numbering;
    if job.chain.Some? {
      var k := job.chain.value;
      var j :| 0 <= j < |w.chains[k]| && w.chains[k][j] == job.node;
      TailIsCheaper(w, rank, top, k, j);
    }
  }

  lemma PopUnloads(w: Workflow, rank: seq<nat>, top: nat, s: State, i: nat, decision: Decision)
    requires Numbering(w.graph, rank, top) && ChainsOk(w.graph, w.chains) && i < |s.ready|
    ensures Load(w, rank, top, PopStep(w, s, i, decision)) < Load(w, rank, top, s)
  {
    var n, s1 := s.ready[i], s.(ready := Without(s.ready, i));
    var job := Job(n, ChainOf(w.chains, n), InputsOf(w.graph, s.results, n));
    hide WalkEdges, Numbering, ChainsOk, JobsWorth, QueueWorth, Fail, Gather, IsHead, ChainOf, Reporter;
    PoppedHasWorth(w.graph, rank, top, s.ready, i);
    JobIsCheaper(w, rank, top, job);
    LaunchAddsWorth(w, rank, top, s.executing, job);
    if decision.Resolve? {
      WalkAddsAtMost(w, rank, top, s1.(results := s.results[n := decision.value]), n, OnUnblock, |w.graph.edges|);
    } else if decision.Reject? {
      CompletionAddsLess(w, rank, top, s1, n, Err(decision.message));
    }
  }

  /** Every step unloads: the loop cannot go on for ever. */
  lemma StepUnloads(w: Workflow, rank: seq<nat>, top: nat, s: State, e: Event)
    requires Numbering(w.graph, rank, top) && ChainsOk(w.graph, w.chains) && Enabled(w, s, e)
    ensures Load(w, rank, top, Step(w, s, e)) < Load(w, rank, top, s)
  {
    match e
    case Pop(i, decision) => PopUnloads(w, rank, top, s, i, decision);
    case Finish(i, outcome) =>
      hide Numbering, ChainsOk, JobsWorth, QueueWorth, Complete, Reporter, Worth;
      JobHasWorth(w, rank, top, s.executing, i);
      CompletionAddsLess(w, rank, top, s.(executing := Without(s.executing, i)), Reporter(w, s.executing[i]), outcome);
  }

  lemma {:induction false} RunUnloads(w: Workflow, rank: seq<nat>, top: nat, s: State, events: seq<Event>)
    requires Numbering(w.graph, rank, top) && ChainsOk(w.graph, w.chains) && IsRun(w, s, events)
    ensures |events| + Load(w, rank, top, After(w, s, events)) <= Load(w, rank, top, s)
    decreases |events|
  {
    hide Numbering, ChainsOk, Step, Enabled, Load;
    if events != [] {
      StepUnloads(w, rank, top, s, events[0]);
      RunUnloads(w, rank, top, Step(w, s, events[0]), events[1..]);
    }
  }

  // ----- the bound -----

  function Power(b: nat, n: nat): (p: nat)
    ensures b >= 1 ==> p >= 1
  {
    if n == 0 then 1 else b * Power(b, n - 1)
  }

  lemma {:induction false} PowerGrows(b: nat, m: nat, n: nat)
    requires b >= 1 && m <= n
    ensures Power(b, m) <= Power(b, n)
    decreases n
  {
    if m < n {
      PowerGrows(b, m, n - 1);
      assert Power(b, n - 1) <= b * Power(b, n - 1);
    }
  }

  /** What the power must cover in one level of the graph. */
  lemma OneLevel(edges: nat, k: nat, p: nat)
    requires k <= edges && p >= 1
    ensures 2 + k * p <= (edges + 2) * p
  {
    assert k * p <= edges * p;
  }

  lemma {:induction false} BelowFits(g: Graph, rank: seq<nat>, top: nat, n: nat, k: nat, p: nat)
    requires Numbering(g, rank, top) && k <= |g.edges|
    requires forall i | 0 <= i < k && g.edges[i].src == n :: 1 + Worth(g, rank, top, g.edges[i].dst) <= p
    ensures WorthBelow(g, rank, top, n, k) <= k * p
  {
    if k > 0 {
      BelowFits(g, rank, top, n, k - 1, p);
      assert k * p == (k - 1) * p + p;
    }
  }

  /** The worth of a node is exponential in its height at most. */
  lemma {:induction false} WorthFits(g: Graph, rank: seq<nat>, top: nat, n: nat)
    requires Numbering(g, rank, top)
    ensures 1 + Worth(g, rank, top, n) <= Power(|g.edges| + 2, Height(g, rank, top, n) + 1)
    decreases Height(g, rank, top, n)
  {
    var b, h := |g.edges| + 2, Height(g, rank, top, n);
    forall i | 0 <= i < |g.edges| && g.edges[i].src == n
      ensures 1 + Worth(g, rank, top, g.edges[i].dst) <= Power(b, h)
    {
      var c := g.edges[i].dst;
      assert Height(g, rank, top, c) < h;
      WorthFits(g, rank, top, c);
      PowerGrows(b, Height(g, rank, top, c) + 1, h);
    }
    BelowFits(g, rank, top, n, |g.edges|, Power(b, h));
    OneLevel(|g.edges|, |g.edges|, Power(b, h));
  }

  lemma WorthFitsTop(g: Graph, rank: seq<nat>, top: nat, n: nat)
    requires Numbering(g, rank, top)
    ensures 1 + Worth(g, rank, top, n) <= Power(|g.edges| + 2, top + 1)
  {
    WorthFits(g, rank, top, n);
    PowerGrows(|g.edges| + 2, Height(g, rank, top, n) + 1, top + 1);
  }

  lemma {:induction false} QueueFits(g: Graph, rank: seq<nat>, top: nat, ready: seq<nat>)
    requires Numbering(g, rank, top)
    ensures QueueWorth(g, rank, top, ready) <= |ready| * Power(|g.edges| + 2, top + 1)
  {
    hide Worth, Numbering, Power;
    if ready != [] {
      QueueFits(g, rank, top, ready[..|ready| - 1]);
      WorthFitsTop(g, rank, top, ready[|ready| - 1]);
      assert |ready| * Power(|g.edges| + 2, top + 1)
          == (|ready| - 1) * Power(|g.edges| + 2, top + 1) + Power(|g.edges| + 2, top + 1);
    }
  }

  lemma {:induction false} JobsFit(w: Workflow, rank: seq<nat>, top: nat, jobs: seq<Job>)
    requires Numbering(w.graph, rank, top)
    ensures JobsWorth(w, rank, top, jobs) <= |jobs| * Power(|w.graph.edges| + 2, top + 1)
  {
    hide Worth, Numbering, Power, Reporter;
    if jobs != [] {
      JobsFit(w, rank, top, jobs[..|jobs| - 1]);
      WorthFitsTop(w.graph, rank, top, Reporter(w, jobs[|jobs| - 1]));
      assert |jobs| * Power(|w.graph.edges| + 2, top + 1)
          == (|jobs| - 1) * Power(|w.graph.edges| + 2, top + 1) + Power(|w.graph.edges| + 2, top + 1);
    }
  }

  // ----- a numbering below the number of nodes -----

  function Earlier(rank: seq<nat>, n: nat): set<nat>
    requires n < |rank|
  {
    set m: nat | m < |rank| && rank[m] < rank[n]
  }

  lemma EarlierGrows(rank: seq<nat>, m: nat, n: nat)
    requires m < |rank| && n < |rank| && rank[m] < rank[n]
    ensures |Earlier(rank, m)| < |Earlier(rank, n)|
  {
    assert m in Earlier(rank, n) && m !in Earlier(rank, m);
    SubsetSize(Earlier(rank, m) + {m}, Earlier(rank, n));
  }

  /** Counting the nodes that come earlier is a topological numbering too. */
  lemma AcyclicIsNumbered(g: Graph) returns (rank: seq<nat>)
    requires Acyclic(g)
    ensures Numbering(g, rank, g.size)
  {
    var any :| IsRank(g, any);
    rank := seq(g.size, n requires 0 <= n < g.size => |Earlier(any, n)|);
    forall n | 0 <= n < |rank| ensures rank[n] <= g.size { BelowSize(Earlier(any, n), g.size); }
    forall i | 0 <= i < |g.edges| ensures rank[g.edges[i].src] < rank[g.edges[i].dst] {
      EarlierGrows(any, g.edges[i].src, g.edges[i].dst);
    }
  }

  /** Termination.  From any state of an acyclic workflow all runs are bounded by the work at hand
      and the size of the graph: early-released fan-ins, conditions, arbitrary seeds and whatever
      succeeds or fails cannot keep the reactor going. */
  lemma RunsAreBounded(w: Workflow, s: State, events: seq<Event>)
    requires Acyclic(w.graph) && ChainsOk(w.graph, w.chains) && IsRun(w, s, events)
    ensures |events| <= (|s.ready| + |s.executing|) * Power(|w.graph.edges| + 2, w.graph.size + 1)
  {
    var rank := AcyclicIsNumbered(w.graph);
    var top := w.graph.size;
    hide Numbering, ChainsOk, IsRun, Power, QueueWorth, JobsWorth;
    RunUnloads(w, rank, top, s, events);
    QueueFits(w.graph, rank, top, s.ready);
    JobsFit(w, rank, top, s.executing);
    assert (|s.ready| + |s.executing|) * Power(|w.graph.edges| + 2, top + 1)
        == |s.ready| * Power(|w.graph.edges| + 2, top + 1) + |s.executing| * Power(|w.graph.edges| + 2, top + 1);
  }
}
