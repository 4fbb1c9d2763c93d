/** The bookkeeping invariant of the reactor and its preservation by every handler.

    Two ghost sets describe a state.  `disp` records, for each node that has been settled,
    which of its outgoing edges its completion delivers.  `todo` holds the edges of the
    settling node that its successor walk has not visited yet; between steps it is empty. */
module SchedulerInvariant {
  import opened Graphs
  import opened FanIn
  import opened Scheduler

  datatype Disposition =
    | Succeeded   // delivers every edge to a child without an error edge
    | Routed      // delivers every edge to a child with an error edge
    | Opened      // delivers everything: seeded, resolved, continued, condition-skipped
    | Batched     // ran inside a chain, before the chain's tail

  type Dispositions = map<nat, Disposition>

  predicate Delivers(g: Graph, d: Disposition, i: nat)
    requires i < |g.edges|
  {
    match d
    case Succeeded => !ErrorBetween(g, g.edges[i].src, g.edges[i].dst)
    case Routed => ErrorBetween(g, g.edges[i].src, g.edges[i].dst)
    case Opened => true
    case Batched => true
  }

  predicate Delivered(g: Graph, disp: Dispositions, todo: set<nat>, i: nat)
    requires i < |g.edges|
  {
    i !in todo && g.edges[i].src in disp && Delivers(g, disp[g.edges[i].src], i)
  }

  /** An edge whose source settled without delivering it. */
  predicate Dead(g: Graph, disp: Dispositions, todo: set<nat>, i: nat)
    requires i < |g.edges|
  {
    i !in todo && g.edges[i].src in disp && !Delivers(g, disp[g.edges[i].src], i)
  }

  /** The incoming edges n still waits for. */
  function Waiting(g: Graph, disp: Dispositions, todo: set<nat>, n: nat): set<nat> {
    set i: nat | i < |g.edges| && g.edges[i].dst == n && !Delivered(g, disp, todo, i)
  }

  // ----- chains -----

  predicate InChains(chains: seq<seq<nat>>, n: nat) {
    exists k | 0 <= k < |chains| :: n in chains[k]
  }

  lemma {:induction false} ChainOfFinds(chains: seq<seq<nat>>, n: nat)
    ensures match ChainOf(chains, n)
            case None => !InChains(chains, n)
            case Some(k) => k < |chains| && n in chains[k]
  {
    if chains != [] && n !in chains[|chains| - 1] {
      var rest := chains[..|chains| - 1];
      ChainOfFinds(rest, n);
      if InChains(chains, n) {
        var k :| 0 <= k < |chains| && n in chains[k];
        assert n in rest[k];
      }
    }
  }

  /** A chain member other than the head. */
  predicate Inner(chains: seq<seq<nat>>, n: nat) {
    exists k, j | 0 <= k < |chains| && 1 <= j < |chains[k]| :: chains[k][j] == n
  }

  /** A chain member other than the tail. */
  predicate NonTail(chains: seq<seq<nat>>, n: nat) {
    exists k, j | 0 <= k < |chains| && 0 <= j < |chains[k]| - 1 :: chains[k][j] == n
  }

  ghost predicate IsChain(g: Graph, chain: seq<nat>) {
    && |chain| >= 2
    && (forall j | 0 <= j < |chain| :: chain[j] < g.size)
    && (forall i, j | 0 <= i < j < |chain| :: chain[i] != chain[j])
    && (forall j | 0 <= j < |chain| - 1 :: Link(g, chain[j], chain[j + 1]))
  }

  /** Pairwise disjoint linear chains, as chain detection returns them. */
  ghost predicate ChainsOk(g: Graph, chains: seq<seq<nat>>) {
    && (forall k | 0 <= k < |chains| :: IsChain(g, chains[k]))
    && (forall k, l, n | 0 <= k < l < |chains| && n in chains[k] :: n !in chains[l])
  }

  /** The fan-in's join mode is satisfied by the last of its parents only. */
  predicate WaitsForAll(w: Workflow, n: nat)
    requires n in w.joins
  {
    Threshold(w.joins[n], |InEdges(w.graph, n)|) == |InEdges(w.graph, n)|
  }

  ghost predicate WellFormed(w: Workflow) {
    && Valid(w.graph)
    && ChainsOk(w.graph, w.chains)
    && forall n | n in w.joins && InEdges(w.graph, n) != {} :: WaitsForAll(w, n)
  }

  // ----- the invariant -----

  /** The counters are exact, save those of chain members behind a head that has settled, and
      none has wrapped around. */
  ghost predicate Counted(w: Workflow, s: State, disp: Dispositions, todo: set<nat>) {
    && (forall n: nat :: n in s.pending <==> n < w.graph.size)
    && (forall n | n in s.pending && !(n in disp && Inner(w.chains, n)) ::
          s.pending[n] == |Waiting(w.graph, disp, todo, n)|)
    && forall n | n in s.pending :: s.pending[n] <= |InEdges(w.graph, n)|
  }

  /** No member settles before its chain's head. */
  ghost predicate HeadsFirst(chains: seq<seq<nat>>, disp: Dispositions) {
    forall k, j | 0 <= k < |chains| && 0 <= j < |chains[k]| && chains[k][j] in disp :: chains[k][0] in disp
  }

  ghost predicate Settled(w: Workflow, s: State, disp: Dispositions, todo: set<nat>) {
    && (forall n | n in disp ::
          && n < w.graph.size
          && Waiting(w.graph, disp, todo, n) == {}
          && (disp[n] == Batched <==> n !in s.results)
          && (disp[n] == Batched ==> NonTail(w.chains, n)))
    && HeadsFirst(w.chains, disp)
  }

  /** Not settled and waiting for nothing. */
  ghost predicate Due(w: Workflow, disp: Dispositions, todo: set<nat>, n: nat) {
    n < w.graph.size && n !in disp && !Inner(w.chains, n) && Waiting(w.graph, disp, todo, n) == {}
  }

  ghost predicate Queued(w: Workflow, s: State, disp: Dispositions, todo: set<nat>) {
    && (forall i | 0 <= i < |s.ready| :: Due(w, disp, todo, s.ready[i]))
    && (forall i, j | 0 <= i < j < |s.ready| :: s.ready[i] != s.ready[j])
  }

  ghost predicate JobOk(w: Workflow, s: State, job: Job) {
    && job.inputs == InputsOf(w.graph, s.results, job.node)
    && match job.chain
       case None => !InChains(w.chains, job.node)
       case Some(k) => k < |w.chains| && w.chains[k] != [] && w.chains[k][0] == job.node
  }

  ghost predicate InFlight(w: Workflow, s: State, disp: Dispositions, todo: set<nat>) {
    && (forall i | 0 <= i < |s.executing| ::
          && Due(w, disp, todo, s.executing[i].node)
          && s.executing[i].node !in s.ready
          && JobOk(w, s, s.executing[i]))
    && (forall i, j | 0 <= i < j < |s.executing| :: s.executing[i].node != s.executing[j].node)
  }

  /** A result of an unsettled node is a skip marker, put there by a dead edge; and every
      dead edge has left one. */
  ghost predicate Marked(w: Workflow, s: State, disp: Dispositions, todo: set<nat>) {
    && (forall n | n in s.results && n < w.graph.size && n !in disp ::
          s.results[n] == Skipped && exists i | i in InEdges(w.graph, n) :: Dead(w.graph, disp, todo, i))
    && (forall i | 0 <= i < |w.graph.edges| && Dead(w.graph, disp, todo, i) :: w.graph.edges[i].dst in s.results)
  }

  ghost predicate Inv(w: Workflow, s: State, disp: Dispositions, todo: set<nat>) {
    && Counted(w, s, disp, todo)
    && Settled(w, s, disp, todo)
    && Queued(w, s, disp, todo)
    && InFlight(w, s, disp, todo)
    && Marked(w, s, disp, todo)
  }

  /** s' only adds results to s. */
  ghost predicate Grows(s: State, s': State) {
    forall n | n in s.results :: n in s'.results && s'.results[n] == s.results[n]
  }

  // ----- small facts -----

  lemma GatherSame(g: Graph, r: map<nat, Value>, r': map<nat, Value>, n: nat, k: nat)
    requires k <= |g.edges|
    requires forall i | i in InEdges(g, n) ::
               g.edges[i].src in r && g.edges[i].src in r' && r[g.edges[i].src] == r'[g.edges[i].src]
    ensures Gather(g, r, n, k) == Gather(g, r', n, k)
  {
    if k > 0 {
      assert g.edges[k - 1].dst == n ==> k - 1 in InEdges(g, n);
    }
  }

  /** A due node finds a result for every parent. */
  lemma DueHasInputs(w: Workflow, s: State, disp: Dispositions, todo: set<nat>, n: nat)
    requires WellFormed(w) && Settled(w, s, disp, todo) && Due(w, disp, todo, n)
    ensures forall i | i in InEdges(w.graph, n) :: w.graph.edges[i].src in disp && w.graph.edges[i].src in s.results
  {
    forall i | i in InEdges(w.graph, n)
      ensures w.graph.edges[i].src in disp && w.graph.edges[i].src in s.results
    {
      var p := w.graph.edges[i].src;
      assert i !in Waiting(w.graph, disp, todo, n);
      if p !in s.results {
        NonTailFeedsInner(w, p, i);
      }
    }
  }

  /** The only edge out of a non-tail chain member leads to the next member. */
  lemma NonTailFeedsInner(w: Workflow, p: nat, i: nat)
    requires WellFormed(w) && NonTail(w.chains, p) && i in OutEdges(w.graph, p)
    ensures Inner(w.chains, w.graph.edges[i].dst)
  {
    var k, j :| 0 <= k < |w.chains| && 0 <= j < |w.chains[k]| - 1 && w.chains[k][j] == p;
    assert IsChain(w.graph, w.chains[k]);
    assert Link(w.graph, w.chains[k][j], w.chains[k][j + 1]);
    var e: nat :| OutEdges(w.graph, p) == {e} && InEdges(w.graph, w.chains[k][j + 1]) == {e};
    assert i in {e} && e in InEdges(w.graph, w.chains[k][j + 1]);
  }

  lemma InnerFedByNonTail(w: Workflow, i: nat)
    requires WellFormed(w) && i < |w.graph.edges| && Inner(w.chains, w.graph.edges[i].dst)
    ensures NonTail(w.chains, w.graph.edges[i].src)
  {
    var c := w.graph.edges[i].dst;
    var k, j :| 0 <= k < |w.chains| && 1 <= j < |w.chains[k]| && w.chains[k][j] == c;
    assert IsChain(w.graph, w.chains[k]);
    assert Link(w.graph, w.chains[k][j - 1], w.chains[k][j - 1 + 1]);
    var e: nat :| OutEdges(w.graph, w.chains[k][j - 1]) == {e} && InEdges(w.graph, c) == {e};
    assert i in InEdges(w.graph, c) && e in OutEdges(w.graph, w.chains[k][j - 1]);
    assert w.chains[k][j - 1] == w.graph.edges[i].src;
  }

  // ----- one visited edge -----

  /** The disposition a walk belongs to. */
  function WalkOf(walk: Walk): Disposition {
    match walk
    case OnSuccess(_) => Succeeded
    case OnErrorRoute => Routed
    case OnUnblock => Opened
  }

  ghost predicate Walking(w: Workflow, disp: Dispositions, todo: set<nat>, u: nat, walk: Walk) {
    && u in disp && disp[u] == WalkOf(walk) && !NonTail(w.chains, u)
    && todo <= OutEdges(w.graph, u)
  }

  // A dead edge leaves a skip marker and nothing else.

  lemma DeadStillWaited(g: Graph, disp: Dispositions, todo: set<nat>, i: nat)
    requires i in todo && i < |g.edges| && g.edges[i].src in disp && !Delivers(g, disp[g.edges[i].src], i)
    ensures forall n :: Waiting(g, disp, todo - {i}, n) == Waiting(g, disp, todo, n)
    ensures Dead(g, disp, todo - {i}, i)
    ensures forall j | 0 <= j < |g.edges| :: Dead(g, disp, todo - {i}, j) <==> (j == i || Dead(g, disp, todo, j))
  {
    forall n ensures Waiting(g, disp, todo - {i}, n) == Waiting(g, disp, todo, n) {
      assert forall j: nat | j < |g.edges| :: Delivered(g, disp, todo - {i}, j) <==> Delivered(g, disp, todo, j);
    }
  }

  lemma MarkKeepsInFlight(w: Workflow, s: State, disp: Dispositions, todo: set<nat>, c: nat)
    requires WellFormed(w) && Settled(w, s, disp, todo) && InFlight(w, s, disp, todo)
    requires c !in disp
    ensures InFlight(w, Mark(s, c), disp, todo)
  {
    forall j | 0 <= j < |s.executing|
      ensures JobOk(w, Mark(s, c), s.executing[j])
    {
      DueHasInputs(w, s, disp, todo, s.executing[j].node);
      GatherSame(w.graph, s.results, Mark(s, c).results, s.executing[j].node, |w.graph.edges|);
    }
  }

  lemma MarkKeeps(w: Workflow, s: State, disp: Dispositions, todo: set<nat>, i: nat)
    requires WellFormed(w) && Inv(w, s, disp, todo)
    requires i in todo && i < |w.graph.edges|
    requires w.graph.edges[i].src in disp && !Delivers(w.graph, disp[w.graph.edges[i].src], i)
    ensures Inv(w, Mark(s, w.graph.edges[i].dst), disp, todo - {i})
    ensures Grows(s, Mark(s, w.graph.edges[i].dst))
  {
    var c := w.graph.edges[i].dst;
    DeadStillWaited(w.graph, disp, todo, i);
    assert i in Waiting(w.graph, disp, todo, c);
    assert c < w.graph.size && c !in disp;
    MarkKeepsInFlight(w, s, disp, todo, c);
    assert i in InEdges(w.graph, c);
  }

  // A delivered edge decrements its child's counter.

  ghost predicate Idle(s: State, c: nat) {
    c !in s.ready && forall i | 0 <= i < |s.executing| :: s.executing[i].node != c
  }

  function Count(s: State, c: nat): State
    requires c in s.pending && s.pending[c] > 0
  {
    s.(pending := s.pending[c := s.pending[c] - 1])
  }

  lemma DeliveredNoLongerWaited(g: Graph, disp: Dispositions, todo: set<nat>, i: nat)
    requires i in todo && i < |g.edges| && g.edges[i].src in disp && Delivers(g, disp[g.edges[i].src], i)
    ensures forall n :: Waiting(g, disp, todo - {i}, n) == Waiting(g, disp, todo, n) - {i}
    ensures i in Waiting(g, disp, todo, g.edges[i].dst)
    ensures forall n | n != g.edges[i].dst :: i !in Waiting(g, disp, todo, n)
    ensures forall j | 0 <= j < |g.edges| :: Dead(g, disp, todo - {i}, j) <==> Dead(g, disp, todo, j)
  {
    assert forall j: nat | j < |g.edges| ::
        Delivered(g, disp, todo - {i}, j) <==> (j == i || Delivered(g, disp, todo, j));
  }

  lemma WaitedIsIdle(w: Workflow, s: State, disp: Dispositions, todo: set<nat>, c: nat)
    requires Inv(w, s, disp, todo) && Waiting(w.graph, disp, todo, c) != {}
    ensures c !in disp && Idle(s, c)
    ensures c in s.pending ==> s.pending[c] == |Waiting(w.graph, disp, todo, c)| > 0
  {
  }

  lemma DeliveryDecrements(g: Graph, disp: Dispositions, todo: set<nat>, i: nat, n: nat)
    requires i in todo && i < |g.edges| && g.edges[i].src in disp && Delivers(g, disp[g.edges[i].src], i)
    ensures |Waiting(g, disp, todo, n)|
         == |Waiting(g, disp, todo - {i}, n)| + if n == g.edges[i].dst then 1 else 0
  {
    DeliveredNoLongerWaited(g, disp, todo, i);
    if n != g.edges[i].dst {
      assert Waiting(g, disp, todo - {i}, n) == Waiting(g, disp, todo, n);
    }
  }

  lemma CountKeepsCounted(w: Workflow, s: State, disp: Dispositions, todo: set<nat>, i: nat)
    requires Counted(w, s, disp, todo)
    requires i in todo && i < |w.graph.edges| && w.graph.edges[i].dst in s.pending
    requires w.graph.edges[i].src in disp && Delivers(w.graph, disp[w.graph.edges[i].src], i)
    requires w.graph.edges[i].dst !in disp && s.pending[w.graph.edges[i].dst] > 0
    ensures Counted(w, Count(s, w.graph.edges[i].dst), disp, todo - {i})
  {
    var s' := Count(s, w.graph.edges[i].dst);
    forall n | n in s'.pending && !(n in disp && Inner(w.chains, n))
      ensures s'.pending[n] == |Waiting(w.graph, disp, todo - {i}, n)|
    {
      DeliveryDecrements(w.graph, disp, todo, i, n);
    }
  }

  /** Everything but the counters survives when waiting sets shrink and dead edges stay. */
  lemma ShrinkKeeps(w: Workflow, s: State, disp: Dispositions, todo: set<nat>, todo': set<nat>)
    requires Settled(w, s, disp, todo) && Queued(w, s, disp, todo)
    requires InFlight(w, s, disp, todo) && Marked(w, s, disp, todo)
    requires forall n :: Waiting(w.graph, disp, todo', n) <= Waiting(w.graph, disp, todo, n)
    requires forall j | 0 <= j < |w.graph.edges| :: Dead(w.graph, disp, todo', j) <==> Dead(w.graph, disp, todo, j)
    ensures Settled(w, s, disp, todo') && Queued(w, s, disp, todo')
    ensures InFlight(w, s, disp, todo') && Marked(w, s, disp, todo')
  {
    forall n | n in s.results && n < w.graph.size && n !in disp
      ensures exists i | i in InEdges(w.graph, n) :: Dead(w.graph, disp, todo', i)
    {
      var i :| i in InEdges(w.graph, n) && Dead(w.graph, disp, todo, i);
      assert Dead(w.graph, disp, todo', i);
    }
  }

  lemma CountKeeps(w: Workflow, s: State, disp: Dispositions, todo: set<nat>, i: nat)
    requires WellFormed(w) && Inv(w, s, disp, todo)
    requires i in todo && i < |w.graph.edges|
    requires w.graph.edges[i].src in disp && Delivers(w.graph, disp[w.graph.edges[i].src], i)
    ensures var c := w.graph.edges[i].dst;
            && c in s.pending && s.pending[c] > 0
            && c !in disp && Idle(s, c)
            && (s.pending[c] == 1 <==> Waiting(w.graph, disp, todo - {i}, c) == {})
            && Inv(w, Count(s, c), disp, todo - {i})
  {
    CountAwaited(w, s, disp, todo, i);
    CountKeepsCounted(w, s, disp, todo, i);
    DeliveredNoLongerWaited(w.graph, disp, todo, i);
    hide Counted, Settled, Queued, InFlight, Marked, Waiting, Dead;
    ShrinkKeeps(w, s, disp, todo, todo - {i});
    FieldsIgnoreCounters(w, s, disp, todo - {i}, Count(s, w.graph.edges[i].dst).pending);
  }

  lemma CountAwaited(w: Workflow, s: State, disp: Dispositions, todo: set<nat>, i: nat)
    requires WellFormed(w) && Inv(w, s, disp, todo)
    requires i in todo && i < |w.graph.edges|
    requires w.graph.edges[i].src in disp && Delivers(w.graph, disp[w.graph.edges[i].src], i)
    ensures var c := w.graph.edges[i].dst;
            && c in s.pending && s.pending[c] > 0 && c !in disp && Idle(s, c)
            && (s.pending[c] == 1 <==> Waiting(w.graph, disp, todo - {i}, c) == {})
  {
    hide Settled, Marked, Due, JobOk;
    var c := w.graph.edges[i].dst;
    DeliveredNoLongerWaited(w.graph, disp, todo, i);
    WaitedIsIdle(w, s, disp, todo, c);
    DeliveryDecrements(w.graph, disp, todo, i, c);
  }

  /** Everything but the count itself is blind to the counters. */
  lemma FieldsIgnoreCounters(w: Workflow, s: State, disp: Dispositions, todo: set<nat>, p: map<nat, nat>)
    requires Settled(w, s, disp, todo) && Queued(w, s, disp, todo)
    requires InFlight(w, s, disp, todo) && Marked(w, s, disp, todo)
    ensures Settled(w, s.(pending := p), disp, todo) && Queued(w, s.(pending := p), disp, todo)
    ensures InFlight(w, s.(pending := p), disp, todo) && Marked(w, s.(pending := p), disp, todo)
  {
    hide Waiting, Dead, Due, Gather, Inner;
  }

  // A child that waits for nothing is enqueued.

  lemma EnqueueKeeps(w: Workflow, s: State, disp: Dispositions, todo: set<nat>, c: nat)
    requires WellFormed(w) && Inv(w, s, disp, todo)
    requires Due(w, disp, todo, c) && Idle(s, c)
    ensures Inv(w, s.(ready := s.ready + [c]), disp, todo)
  {
  }

  // Or it is skipped, and everything behind it is decremented.

  function Targets(g: Graph, c: nat, n: nat, k: nat): set<nat> {
    set i: nat | i < |g.edges| && i < k && g.edges[i].src == c && g.edges[i].dst == n
  }

  lemma {:induction false} CascadeCounts(g: Graph, pending: map<nat, nat>, c: nat, k: nat, n: nat)
    requires k <= |g.edges|
    ensures Cascade(g, pending, c, k).Keys == pending.Keys
    ensures n in pending ==>
              Cascade(g, pending, c, k)[n]
              == if pending[n] >= |Targets(g, c, n, k)| then pending[n] - |Targets(g, c, n, k)| else 0
  {
    hide Targets;
    TargetsNext(g, c, n, k);
    if k > 0 {
      var e := g.edges[k - 1];
      CascadeCounts(g,
        if e.src == c && e.dst in pending then pending[e.dst := GuardedDecrement(pending[e.dst])] else pending,
        c, k - 1, n);
    }
  }

  lemma TargetsNext(g: Graph, c: nat, n: nat, k: nat)
    requires k <= |g.edges|
    ensures k == 0 ==> Targets(g, c, n, k) == {}
    ensures k > 0 ==>
              var hit := g.edges[k - 1].src == c && g.edges[k - 1].dst == n;
              |Targets(g, c, n, k)| == |Targets(g, c, n, k - 1)| + if hit then 1 else 0
  {
    if k > 0 {
      var hit := g.edges[k - 1].src == c && g.edges[k - 1].dst == n;
      assert Targets(g, c, n, k) == Targets(g, c, n, k - 1) + if hit then {k - 1} else {};
    }
  }

  lemma OpenedNoLongerWaited(g: Graph, disp: Dispositions, todo: set<nat>, c: nat)
    requires c !in disp && OutEdges(g, c) !! todo
    ensures forall n :: Waiting(g, disp[c := Opened], todo, n)
                        == Waiting(g, disp, todo, n) - Targets(g, c, n, |g.edges|)
    ensures forall n :: Targets(g, c, n, |g.edges|) <= Waiting(g, disp, todo, n)
    ensures forall j | 0 <= j < |g.edges| :: Dead(g, disp[c := Opened], todo, j) <==> Dead(g, disp, todo, j)
  {
    assert forall j: nat | j < |g.edges| && g.edges[j].src == c :: j in OutEdges(g, c);
    assert forall j: nat | j < |g.edges| ::
        Delivered(g, disp[c := Opened], todo, j) <==> (g.edges[j].src == c || Delivered(g, disp, todo, j));
  }

  function SkipAndCascade(g: Graph, s: State, c: nat): State {
    Mark(s, c).(pending := Cascade(g, s.pending, c, |g.edges|))
  }

  lemma SkipKeepsCounted(w: Workflow, s: State, disp: Dispositions, todo: set<nat>, c: nat)
    requires Counted(w, s, disp, todo)
    requires c !in disp && OutEdges(w.graph, c) !! todo
    ensures Counted(w, SkipAndCascade(w.graph, s, c), disp[c := Opened], todo)
  {
    var g := w.graph;
    var s' := SkipAndCascade(g, s, c);
    CascadeCounts(g, s.pending, c, |g.edges|, 0);
    forall n | n in s'.pending && !(n in disp[c := Opened] && Inner(w.chains, n))
      ensures s'.pending[n] == |Waiting(g, disp[c := Opened], todo, n)|
    {
      OpenedNoLongerWaited(g, disp, todo, c);
      CascadeCounts(g, s.pending, c, |g.edges|, n);
      var a, b := Waiting(g, disp, todo, n), Targets(g, c, n, |g.edges|);
      assert a * b == b;
      assert |a - b| == |a| - |b|;
    }
    forall n | n in s'.pending ensures s'.pending[n] <= |InEdges(g, n)| {
      CascadeCounts(g, s.pending, c, |g.edges|, n);
    }
    hide Cascade, Waiting, Inner, Targets;
  }

  lemma SkipKeepsHeadsFirst(chains: seq<seq<nat>>, disp: Dispositions, c: nat)
    requires HeadsFirst(chains, disp) && !Inner(chains, c)
    ensures HeadsFirst(chains, disp[c := Opened])
  {
  }

  lemma SkipSettles(w: Workflow, s: State, disp: Dispositions, todo: set<nat>, c: nat)
    requires Settled(w, s, disp, todo)
    requires Due(w, disp, todo, c) && OutEdges(w.graph, c) !! todo
    ensures Settled(w, SkipAndCascade(w.graph, s, c), disp[c := Opened], todo)
  {
    SkipKeepsHeadsFirst(w.chains, disp, c);
    OpenedNoLongerWaited(w.graph, disp, todo, c);
    hide HeadsFirst, Waiting, Targets, Cascade, NonTail, Dead, Inner;
  }

  lemma SkipMarks(w: Workflow, s: State, disp: Dispositions, todo: set<nat>, c: nat)
    requires Marked(w, s, disp, todo)
    requires Due(w, disp, todo, c) && OutEdges(w.graph, c) !! todo
    ensures Marked(w, SkipAndCascade(w.graph, s, c), disp[c := Opened], todo)
    ensures Grows(s, SkipAndCascade(w.graph, s, c))
  {
    OpenedNoLongerWaited(w.graph, disp, todo, c);
    var s' := SkipAndCascade(w.graph, s, c);
    forall n | n in s'.results && n < w.graph.size && n !in disp[c := Opened]
      ensures exists i | i in InEdges(w.graph, n) :: Dead(w.graph, disp[c := Opened], todo, i)
    {
      var i :| i in InEdges(w.graph, n) && Dead(w.graph, disp, todo, i);
      assert Dead(w.graph, disp[c := Opened], todo, i);
    }
    forall i | i in InEdges(w.graph, c)
      ensures !Dead(w.graph, disp, todo, i)
    {
      assert i !in Waiting(w.graph, disp, todo, c);
    }
  }

  lemma SkipKeepsWaiters(w: Workflow, s: State, disp: Dispositions, todo: set<nat>, c: nat)
    requires WellFormed(w) && Settled(w, s, disp, todo) && Queued(w, s, disp, todo) && InFlight(w, s, disp, todo)
    requires Idle(s, c) && c !in disp && OutEdges(w.graph, c) !! todo
    ensures Queued(w, SkipAndCascade(w.graph, s, c), disp[c := Opened], todo)
    ensures InFlight(w, SkipAndCascade(w.graph, s, c), disp[c := Opened], todo)
  {
    MarkKeepsInFlight(w, s, disp, todo, c);
    OpenedNoLongerWaited(w.graph, disp, todo, c);
    hide Waiting, Targets, Cascade, Inner, WellFormed, Settled, Gather;
    forall i | 0 <= i < |s.ready|
      ensures Due(w, disp[c := Opened], todo, s.ready[i])
    {
      assert Due(w, disp, todo, s.ready[i]);
    }
  }

  lemma SkipKeeps(w: Workflow, s: State, disp: Dispositions, todo: set<nat>, c: nat)
    requires WellFormed(w) && Inv(w, s, disp, todo)
    requires Due(w, disp, todo, c) && Idle(s, c) && OutEdges(w.graph, c) !! todo
    ensures Inv(w, SkipAndCascade(w.graph, s, c), disp[c := Opened], todo)
    ensures Grows(s, SkipAndCascade(w.graph, s, c))
  {
    hide Counted, Settled, Queued, InFlight, Marked, WellFormed, Idle, SkipAndCascade, Waiting, Grows;
    SkipKeepsCounted(w, s, disp, todo, c);
    SkipSettles(w, s, disp, todo, c);
    SkipKeepsWaiters(w, s, disp, todo, c);
    SkipMarks(w, s, disp, todo, c);
  }

  // ----- the walk -----

  /** Every node of the core is fed by the core: the nodes of a cycle, for instance. */
  ghost predicate SelfFed(g: Graph, core: set<nat>) {
    forall n | n in core :: exists i | i in InEdges(g, n) :: g.edges[i].src in core
  }

  /** Later dispositions keep the earlier ones.  A walk adds only nodes skipped by a false
      condition, and never one that feeds on itself. */
  ghost predicate Extends(w: Workflow, disp: Dispositions, s': State, disp': Dispositions) {
    && (forall n | n in disp :: n in disp' && disp'[n] == disp[n])
    && (forall n | n in disp' && n !in disp ::
          disp'[n] == Opened && n in s'.results && s'.results[n] == Skipped && !Inner(w.chains, n))
    && (NoConditions(w.graph) ==> disp' == disp)
    && (forall core | SelfFed(w.graph, core) && core !! disp.Keys :: core !! disp'.Keys)
  }

  lemma DueIsNotSelfFed(w: Workflow, disp: Dispositions, todo: set<nat>, c: nat)
    requires Waiting(w.graph, disp, todo, c) == {}
    ensures forall core | SelfFed(w.graph, core) && core !! disp.Keys :: c !in core
  {
    forall i | i in InEdges(w.graph, c) ensures w.graph.edges[i].src in disp {
      assert i !in Waiting(w.graph, disp, todo, c);
    }
  }

  /** Not settled, waiting for nothing, neither queued nor in flight: nothing will ever run it. */
  ghost predicate Stalled(w: Workflow, s: State, disp: Dispositions, todo: set<nat>, n: nat) {
    n < w.graph.size && n !in disp && Waiting(w.graph, disp, todo, n) == {} && Idle(s, n)
  }

  ghost function StalledNodes(w: Workflow, s: State, disp: Dispositions, todo: set<nat>): set<nat> {
    set n: nat | n < w.graph.size && Stalled(w, s, disp, todo, n)
  }

  /** What every handler leaves alone, and what it may add. */
  ghost predicate Continues(s: State, s': State) {
    && s'.executing == s.executing && s'.status == s.status
    && s.ready <= s'.ready
    && Grows(s, s')
  }

  // ----- nodes stranded by a cascade -----

  /** The nodes whose counter the cascade behind c brings to zero. */
  function Zeroed(g: Graph, pending: map<nat, nat>, c: nat): set<nat> {
    var after := Cascade(g, pending, c, |g.edges|);
    set n | n in pending && n in after && pending[n] > 0 && after[n] == 0
  }

  /** The visit skips c for a false condition. */
  predicate SkipsChild(w: Workflow, s: State, u: nat, c: nat, walk: Walk) {
    && walk.OnSuccess? && !ErrorBetween(w.graph, u, c) && c in s.pending
    && ReleaseEarly(w, c, Decrement(s.pending[c])) == 0 && ConditionFails(w, u, c, walk.output)
  }

  /** The nodes that the visit's cascade brings to zero: nothing enqueues them. */
  function StrandedByVisit(w: Workflow, s: State, u: nat, c: nat, walk: Walk): set<nat> {
    if SkipsChild(w, s, u, c, walk) then Zeroed(w.graph, s.pending[c := 0], c) else {}
  }

  function StrandedByWalk(w: Workflow, s: State, u: nat, walk: Walk, k: nat): set<nat>
    requires k <= |w.graph.edges|
    decreases k
  {
    if k == 0 then {}
    else
      var e := w.graph.edges[k - 1];
      if e.src == u then
        StrandedByVisit(w, s, u, e.dst, walk) + StrandedByWalk(w, VisitEdge(w, s, u, e.dst, walk), u, walk, k - 1)
      else StrandedByWalk(w, s, u, walk, k - 1)
  }

  lemma {:induction false} OnlyConditionsStrand(w: Workflow, s: State, u: nat, walk: Walk, k: nat)
    requires k <= |w.graph.edges| && (walk.OnSuccess? ==> NoConditions(w.graph))
    ensures StrandedByWalk(w, s, u, walk, k) == {}
    decreases k
  {
    hide VisitEdge;
    if k > 0 {
      var e := w.graph.edges[k - 1];
      if e.src == u {
        OnlyConditionsStrand(w, VisitEdge(w, s, u, e.dst, walk), u, walk, k - 1);
      } else {
        OnlyConditionsStrand(w, s, u, walk, k - 1);
      }
    }
  }

  // ----- one visited edge, all together -----

  /** The last awaited edge into c is enough to release it, and no earlier one is. */
  lemma ReleasedByLast(w: Workflow, s: State, disp: Dispositions, todo: set<nat>, i: nat)
    requires WellFormed(w) && Inv(w, s, disp, todo) && i in todo && i < |w.graph.edges|
    requires w.graph.edges[i].src in disp && Delivers(w.graph, disp[w.graph.edges[i].src], i)
    ensures var c := w.graph.edges[i].dst;
            c in s.pending && s.pending[c] > 0 && ReleaseEarly(w, c, s.pending[c] - 1) == s.pending[c] - 1
  {
    var c := w.graph.edges[i].dst;
    hide *;
    CountAwaited(w, s, disp, todo, i);
    CounterFits(w, s, disp, todo, c);
    InEdge(w.graph, i);
    if c in w.joins {
      FanInWaits(w, c);
      NeverReleasedEarly(w.joins[c], |InEdges(w.graph, c)|, s.pending[c] - 1);
    }
    ReleasesAt(w, c, s.pending[c] - 1);
  }

  lemma CounterFits(w: Workflow, s: State, disp: Dispositions, todo: set<nat>, c: nat)
    requires WellFormed(w) && Inv(w, s, disp, todo) && c in s.pending
    ensures s.pending[c] <= |InEdges(w.graph, c)| < MAX_EDGES
  {
    InEdgesFit(w.graph, c);
  }

  lemma InEdge(g: Graph, i: nat)
    requires i < |g.edges|
    ensures i in InEdges(g, g.edges[i].dst)
  {
  }

  lemma FanInWaits(w: Workflow, c: nat)
    requires WellFormed(w) && c in w.joins && InEdges(w.graph, c) != {}
    ensures Threshold(w.joins[c], |InEdges(w.graph, c)|) == |InEdges(w.graph, c)|
  {
    assert WaitsForAll(w, c);
  }

  lemma ReleasesAt(w: Workflow, c: nat, cnt: nat)
    ensures ReleaseEarly(w, c, cnt) == if c in w.joins then EarlyReady(w.joins[c], |InEdges(w.graph, c)|, cnt) else cnt
  {
  }

  /** The visit of a delivering edge, whichever walk it belongs to. */
  lemma DeliveringVisit(w: Workflow, s: State, disp: Dispositions, todo: set<nat>, u: nat, walk: Walk, i: nat)
    requires WellFormed(w) && Inv(w, s, disp, todo) && Walking(w, disp, todo, u, walk)
    requires i in todo && Delivers(w.graph, disp[u], i)
    ensures var c := w.graph.edges[i].dst;
            && c in s.pending && s.pending[c] > 0
            && (SkipsChild(w, s, u, c, walk) <==>
                  s.pending[c] == 1 && walk.OnSuccess? && ConditionFails(w, u, c, walk.output))
            && VisitEdge(w, s, u, c, walk)
               == (if s.pending[c] != 1 then Count(s, c)
                   else if SkipsChild(w, s, u, c, walk) then SkipAndCascade(w.graph, Count(s, c), c)
                   else Count(s, c).(ready := s.ready + [c]))
  {
    ReleasedByLast(w, s, disp, todo, i);
    hide Inv, WellFormed, Cascade, ConditionFails, ReleaseEarly;
  }

  /** Skipping c stalls exactly the nodes the cascade brings to zero. */
  lemma SkipStrands(w: Workflow, s: State, disp: Dispositions, todo: set<nat>, c: nat)
    requires Counted(w, s, disp, todo) && Due(w, disp, todo, c) && OutEdges(w.graph, c) !! todo
    requires forall n: nat | n < w.graph.size && n !in disp && Waiting(w.graph, disp, todo, n) != {} :: Idle(s, n)
    requires forall n | n in disp :: Waiting(w.graph, disp, todo, n) == {}
    ensures StalledNodes(w, SkipAndCascade(w.graph, s, c), disp[c := Opened], todo)
         == StalledNodes(w, s, disp, todo) - {c} + Zeroed(w.graph, s.pending, c)
  {
    var g := w.graph;
    OpenedNoLongerWaited(g, disp, todo, c);
    forall n: nat | n < g.size
      ensures Stalled(w, SkipAndCascade(g, s, c), disp[c := Opened], todo, n)
              <==> (n != c && Stalled(w, s, disp, todo, n)) || n in Zeroed(g, s.pending, c)
    {
      CascadeCounts(g, s.pending, c, |g.edges|, n);
      var a, b := Waiting(g, disp, todo, n), Targets(g, c, n, |g.edges|);
      assert a * b == b;
      assert |a - b| == |a| - |b|;
      hide Cascade, Waiting, Targets, Inner;
    }
  }

  lemma StalledAfterCount(w: Workflow, s: State, disp: Dispositions, todo: set<nat>, i: nat, n: nat)
    requires WellFormed(w) && Inv(w, s, disp, todo) && i in todo && i < |w.graph.edges|
    requires w.graph.edges[i].src in disp && Delivers(w.graph, disp[w.graph.edges[i].src], i)
    requires w.graph.edges[i].dst in s.pending && s.pending[w.graph.edges[i].dst] > 0
    ensures var c := w.graph.edges[i].dst;
            Stalled(w, Count(s, c), disp, todo - {i}, n)
            <==> Stalled(w, s, disp, todo, n) || (s.pending[c] == 1 && n == c)
  {
    hide Inv, WellFormed, Waiting, Dead, Delivers, Idle;
    CountKeeps(w, s, disp, todo, i);
    DeliveredNoLongerWaited(w.graph, disp, todo, i);
    EdgeInGraph(w, i);
    CountKeepsIdle(s, w.graph.edges[i].dst);
    assert Waiting(w.graph, disp, todo - {i}, n) == Waiting(w.graph, disp, todo, n) - {i};
  }

  /** Counting an edge stalls its child for as long as it is not enqueued or skipped, if the
      edge was the last one, and nothing else. */
  lemma CountStrands(w: Workflow, s: State, disp: Dispositions, todo: set<nat>, i: nat)
    requires WellFormed(w) && Inv(w, s, disp, todo) && i in todo && i < |w.graph.edges|
    requires w.graph.edges[i].src in disp && Delivers(w.graph, disp[w.graph.edges[i].src], i)
    requires w.graph.edges[i].dst in s.pending && s.pending[w.graph.edges[i].dst] > 0
    ensures var c := w.graph.edges[i].dst;
            StalledNodes(w, Count(s, c), disp, todo - {i})
            == StalledNodes(w, s, disp, todo) + if s.pending[c] == 1 then {c} else {}
  {
    hide *;
    var c := w.graph.edges[i].dst;
    EdgeInGraph(w, i);
    var last: set<nat> := if s.pending[c] == 1 then {c} else {};
    forall n: nat | n < w.graph.size
      ensures Stalled(w, Count(s, c), disp, todo - {i}, n) <==> Stalled(w, s, disp, todo, n) || n in last
    {
      StalledAfterCount(w, s, disp, todo, i, n);
    }
    StalledGrow(w, s, disp, todo, Count(s, c), todo - {i}, last);
  }

  lemma StalledGrow(w: Workflow, s: State, disp: Dispositions, todo: set<nat>, s': State, todo': set<nat>,
                    more: set<nat>)
    requires forall n: nat | n < w.graph.size ::
               Stalled(w, s', disp, todo', n) <==> Stalled(w, s, disp, todo, n) || n in more
    requires forall n | n in more :: n < w.graph.size
    ensures StalledNodes(w, s', disp, todo') == StalledNodes(w, s, disp, todo) + more
  {
    hide Stalled;
  }

  lemma EdgeInGraph(w: Workflow, i: nat)
    requires WellFormed(w) && i < |w.graph.edges|
    ensures w.graph.edges[i].src < w.graph.size && w.graph.edges[i].dst < w.graph.size
  {
  }

  lemma CountKeepsIdle(s: State, c: nat)
    requires c in s.pending && s.pending[c] > 0
    ensures forall n :: Idle(Count(s, c), n) == Idle(s, n)
  {
  }

  lemma EnqueueStrands(w: Workflow, s: State, disp: Dispositions, todo: set<nat>, c: nat)
    ensures StalledNodes(w, s.(ready := s.ready + [c]), disp, todo) == StalledNodes(w, s, disp, todo) - {c}
  {
    var s' := s.(ready := s.ready + [c]);
    hide Waiting;
    assert forall n :: Idle(s', n) <==> Idle(s, n) && n != c;
  }

  lemma VisitDelivered(w: Workflow, s: State, disp: Dispositions, todo: set<nat>, u: nat, walk: Walk, i: nat)
    returns (disp': Dispositions)
    requires WellFormed(w) && Inv(w, s, disp, todo) && Walking(w, disp, todo, u, walk)
    requires i in todo && Delivers(w.graph, disp[u], i)
    ensures var c := w.graph.edges[i].dst;
            var s' := VisitEdge(w, s, u, c, walk);
            && Inv(w, s', disp', todo - {i}) && Continues(s, s') && Extends(w, disp, s', disp')
            && disp' == (if SkipsChild(w, s, u, c, walk) then disp[c := Opened] else disp)
            && StalledNodes(w, s', disp', todo - {i})
               == StalledNodes(w, s, disp, todo) + StrandedByVisit(w, s, u, c, walk)
  {
    hide Inv, SelfFed, NonTail, Cascade, ChainsOk, StalledNodes, Zeroed, ConditionFails, ReleaseEarly;
    var g, c := w.graph, w.graph.edges[i].dst;
    DeliveringVisit(w, s, disp, todo, u, walk, i);
    CountKeeps(w, s, disp, todo, i);
    CountStrands(w, s, disp, todo, i);
    NotYetStalled(w, s, disp, todo, i);
    if Inner(w.chains, c) { InnerFedByNonTail(w, i); }
    var s1 := Count(s, c);
    disp' := disp;
    if s.pending[c] == 1 {
      if SkipsChild(w, s, u, c, walk) {
        SkipVisit(w, s1, disp, todo - {i}, c);
        SkipNeedsCondition(w, u, c, walk);
        disp' := disp[c := Opened];
      } else {
        EnqueueKeeps(w, s1, disp, todo - {i}, c);
        EnqueueStrands(w, s1, disp, todo - {i}, c);
      }
    }
  }

  lemma NotYetStalled(w: Workflow, s: State, disp: Dispositions, todo: set<nat>, i: nat)
    requires i in todo && i < |w.graph.edges|
    ensures w.graph.edges[i].dst !in StalledNodes(w, s, disp, todo)
  {
    assert i in Waiting(w.graph, disp, todo, w.graph.edges[i].dst);
  }

  lemma SkipNeedsCondition(w: Workflow, u: nat, c: nat, walk: Walk)
    requires walk.OnSuccess? && ConditionFails(w, u, c, walk.output)
    ensures !NoConditions(w.graph)
  {
  }

  /** The skip of an idle child that waits for nothing, with everything it entails. */
  lemma SkipVisit(w: Workflow, s: State, disp: Dispositions, todo: set<nat>, c: nat)
    requires WellFormed(w) && Inv(w, s, disp, todo)
    requires Due(w, disp, todo, c) && Idle(s, c) && OutEdges(w.graph, c) !! todo
    ensures var s', disp' := SkipAndCascade(w.graph, s, c), disp[c := Opened];
            && Inv(w, s', disp', todo) && Grows(s, s')
            && StalledNodes(w, s', disp', todo) == StalledNodes(w, s, disp, todo) - {c} + Zeroed(w.graph, s.pending, c)
            && s'.results[c] == Skipped
            && forall core | SelfFed(w.graph, core) && core !! disp.Keys :: c !in core
  {
    SkipKeeps(w, s, disp, todo, c);
    DueIsNotSelfFed(w, disp, todo, c);
    forall n: nat | n < w.graph.size && n !in disp && Waiting(w.graph, disp, todo, n) != {} ensures Idle(s, n) {
      WaitedIsIdle(w, s, disp, todo, n);
    }
    SkipStrands(w, s, disp, todo, c);
  }

  lemma VisitDead(w: Workflow, s: State, disp: Dispositions, todo: set<nat>, u: nat, walk: Walk, i: nat)
    requires WellFormed(w) && Inv(w, s, disp, todo) && Walking(w, disp, todo, u, walk)
    requires i in todo && !Delivers(w.graph, disp[u], i)
    ensures var c := w.graph.edges[i].dst;
            var s' := VisitEdge(w, s, u, c, walk);
            && Inv(w, s', disp, todo - {i}) && Continues(s, s')
            && !SkipsChild(w, s, u, c, walk)
            && StalledNodes(w, s', disp, todo - {i}) == StalledNodes(w, s, disp, todo)
  {
    hide Inv, Waiting, ConditionFails, ReleaseEarly, Idle;
    MarkKeeps(w, s, disp, todo, i);
    DeadStillWaited(w.graph, disp, todo, i);
    var c := w.graph.edges[i].dst;
    assert VisitEdge(w, s, u, c, walk) == Mark(s, c);
    assert forall n :: Idle(Mark(s, c), n) == Idle(s, n) by { MarkKeepsIdle(s, c); }
  }

  lemma MarkKeepsIdle(s: State, c: nat)
    ensures forall n :: Idle(Mark(s, c), n) == Idle(s, n)
  {
  }

  // ----- the walk -----

  function Below(g: Graph, u: nat, k: nat): set<nat> {
    set i | i in OutEdges(g, u) && i < k
  }

  lemma {:induction false} WalkKeeps(w: Workflow, s: State, disp: Dispositions, u: nat, walk: Walk, k: nat)
    returns (disp': Dispositions)
    requires WellFormed(w) && k <= |w.graph.edges|
    requires Inv(w, s, disp, Below(w.graph, u, k)) && Walking(w, disp, Below(w.graph, u, k), u, walk)
    ensures var s' := WalkEdges(w, s, u, walk, k);
            && Inv(w, s', disp', {}) && Continues(s, s') && Extends(w, disp, s', disp')
            && StalledNodes(w, s', disp', {})
               == StalledNodes(w, s, disp, Below(w.graph, u, k)) + StrandedByWalk(w, s, u, walk, k)
    decreases k
  {
    hide Inv, StalledNodes, VisitEdge, SelfFed, StrandedByVisit, SkipsChild, Inner, NonTail, WellFormed;
    if k == 0 {
      assert Below(w.graph, u, 0) == {};
      disp' := disp;
    } else {
      var i := k - 1;
      var e := w.graph.edges[i];
      if e.src == u {
        assert Below(w.graph, u, i) == Below(w.graph, u, k) - {i};
        var s1 := VisitEdge(w, s, u, e.dst, walk);
        var disp1 := disp;
        if Delivers(w.graph, disp[u], i) {
          disp1 := VisitDelivered(w, s, disp, Below(w.graph, u, k), u, walk, i);
        } else {
          VisitDead(w, s, disp, Below(w.graph, u, k), u, walk, i);
          NothingStrandedUnlessSkipped(w, s, u, e.dst, walk);
        }
        disp' := WalkKeeps(w, s1, disp1, u, walk, i);
      } else {
        assert Below(w.graph, u, i) == Below(w.graph, u, k);
        disp' := WalkKeeps(w, s, disp, u, walk, i);
      }
    }
  }

  lemma NothingStrandedUnlessSkipped(w: Workflow, s: State, u: nat, c: nat, walk: Walk)
    requires !SkipsChild(w, s, u, c, walk)
    ensures StrandedByVisit(w, s, u, c, walk) == {}
  {
  }
}
