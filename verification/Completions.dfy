/** What the completion handlers do with a node and its successors, said of the edges, the
    conditions and the limits themselves. */
module Completions {
  import opened Graphs
  import opened FanIn
  import opened Scheduler
  import opened SchedulerInvariant
  import opened SchedulerSteps
  import opened SchedulerRuns
  import opened Fates
  import opened Meaning
  import opened Conditions

  /** c is a successor of u, and an error edge leads there. */
  predicate IsHandler(g: Graph, u: nat, c: nat) {
    exists i | 0 <= i < |g.edges| :: Joins(g, i, u, c) && g.edges[i].isError
  }

  /** c is a successor of u through plain edges only. */
  predicate IsPlainChild(g: Graph, u: nat, c: nat) {
    && (exists i | 0 <= i < |g.edges| :: Joins(g, i, u, c))
    && forall i | 0 <= i < |g.edges| :: Joins(g, i, u, c) ==> !g.edges[i].isError
  }

  /** The number of edges from u to c. */
  function Multiplicity(g: Graph, u: nat, c: nat): nat {
    |set i: nat | i < |g.edges| && Joins(g, i, u, c)|
  }

  lemma MultiplicityIs(g: Graph, u: nat, c: nat)
    ensures Multiplicity(g, u, c) == |Targets(g, u, c, |g.edges|)|
  {
    assert (set i: nat | i < |g.edges| && Joins(g, i, u, c)) == Targets(g, u, c, |g.edges|);
  }

  predicate NoSelfLoop(g: Graph, u: nat) {
    forall i | 0 <= i < |g.edges| :: !Joins(g, i, u, u)
  }

  // ----- the error route -----

  lemma {:induction false} RouteAdds(w: Workflow, s: State, u: nat, k: nat)
    requires k <= |w.graph.edges|
    ensures var t := WalkEdges(w, s, u, OnErrorRoute, k);
            && s.ready <= t.ready && t.executing == s.executing && t.status == s.status
            && forall j | |s.ready| <= j < |t.ready| :: ErrorBetween(w.graph, u, t.ready[j])
    decreases k
  {
    hide ErrorBetween, ReleaseEarly;
    if k > 0 {
      var e := w.graph.edges[k - 1];
      RouteAdds(w, if e.src == u then VisitEdge(w, s, u, e.dst, OnErrorRoute) else s, u, k - 1);
    }
  }

  lemma {:induction false} RouteMarks(w: Workflow, s: State, u: nat, k: nat, c: nat)
    requires k <= |w.graph.edges|
    ensures Lookup(WalkEdges(w, s, u, OnErrorRoute, k).results, c)
         == if !ErrorBetween(w.graph, u, c) && exists i | 0 <= i < k :: Joins(w.graph, i, u, c) then Some(Skipped)
            else Lookup(s.results, c)
    decreases k
  {
    hide ErrorBetween, ReleaseEarly;
    if k > 0 {
      var e := w.graph.edges[k - 1];
      assert Joins(w.graph, k - 1, u, c) <==> e.src == u && e.dst == c;
      RouteMarks(w, if e.src == u then VisitEdge(w, s, u, e.dst, OnErrorRoute) else s, u, k - 1, c);
    }
  }

  lemma {:induction false} RouteQueues(w: Workflow, s: State, u: nat, k: nat, c: nat)
    requires k <= |w.graph.edges| && ErrorBetween(w.graph, u, c) && c in s.pending
    requires 1 <= |Targets(w.graph, u, c, k)| && s.pending[c] <= |Targets(w.graph, u, c, k)|
    ensures c in WalkEdges(w, s, u, OnErrorRoute, k).ready
    decreases k
  {
    hide ErrorBetween, Targets, ReleaseEarly;
    TargetsNext(w.graph, u, c, k);
    var e := w.graph.edges[k - 1];
    var s' := if e.src == u then VisitEdge(w, s, u, e.dst, OnErrorRoute) else s;
    RouteAdds(w, s', u, k - 1);
    if e.src == u && e.dst == c { ReleasedNoHigher(w, c, if s.pending[c] == 0 then 0 else s.pending[c] - 1); }
    if !(e.src == u && e.dst == c && s'.pending[c] == 0) {
      RouteQueues(w, s', u, k - 1, c);
    } else {
      assert s'.ready[|s.ready|] == c;
      assert WalkEdges(w, s', u, OnErrorRoute, k - 1).ready[|s.ready|] == c;
    }
  }

  lemma ReleasedNoHigher(w: Workflow, c: nat, cnt: nat)
    ensures ReleaseEarly(w, c, cnt) <= cnt
  {
  }

  lemma ErrorBetweenIs(g: Graph, u: nat, c: nat)
    ensures ErrorBetween(g, u, c) <==> IsHandler(g, u, c)
    ensures !ErrorBetween(g, u, c) && (exists i | 0 <= i < |g.edges| :: Joins(g, i, u, c)) <==> IsPlainChild(g, u, c)
  {
    if ErrorBetween(g, u, c) {
      var i :| 0 <= i < |g.edges| && g.edges[i].src == u && g.edges[i].dst == c && g.edges[i].isError;
      assert Joins(g, i, u, c);
    }
  }

  lemma RoutedFailure(w: Workflow, s: State, u: nat, error: string)
    requires RoutesErrors(w.graph, u)
    ensures var message := w.policy.redact(error);
            var recorded := s.(results := s.results[u := RoutedError(message, u)],
                               pending := ClearChain(w, u, s.pending));
            Fail(w, s, u, error) == WalkEdges(w, recorded, u, OnErrorRoute, |w.graph.edges|)
  {
    hide WalkEdges, RoutesErrors, ClearChain;
  }

  lemma ClearingLowers(w: Workflow, u: nat, p: map<nat, nat>, c: nat)
    requires c in p
    ensures c in ClearChain(w, u, p) && ClearChain(w, u, p)[c] <= p[c]
  {
    hide ChainOf;
  }

  /** Error routing.  If the newest edge to some successor of u is an error edge, a failure of u
      does not end the run: u has the redacted error, every handler that awaits nobody else is
      queued, every plain child is marked skipped, and nothing else is queued or gets a result. */
  lemma FailureIsRouted(w: Workflow, s: State, u: nat, error: string, c: nat)
    requires HasErrorRoute(w.graph, u) && NoSelfLoop(w.graph, u)
    ensures var t := Fail(w, s, u, error);
            && t.status == s.status && t.executing == s.executing
            && Lookup(t.results, u) == Some(RoutedError(w.policy.redact(error), u))
            && (IsPlainChild(w.graph, u, c) ==> Lookup(t.results, c) == Some(Skipped))
            && (!IsPlainChild(w.graph, u, c) && c != u ==> Lookup(t.results, c) == Lookup(s.results, c))
            && (IsHandler(w.graph, u, c) && c in s.pending && s.pending[c] <= Multiplicity(w.graph, u, c) ==>
                  c in t.ready)
            && s.ready <= t.ready
            && forall j | |s.ready| <= j < |t.ready| :: IsHandler(w.graph, u, t.ready[j])
  {
    var message, n := w.policy.redact(error), |w.graph.edges|;
    var s1 := s.(results := s.results[u := RoutedError(message, u)], pending := ClearChain(w, u, s.pending));
    hide *;
    RoutesErrorsIff(w.graph, u);
    RoutedFailure(w, s, u, error);
    RouteAdds(w, s1, u, n);
    RouteMarks(w, s1, u, n, c);
    RouteMarks(w, s1, u, n, u);
    ErrorBetweenIs(w.graph, u, c);
    NotItsOwnChild(w.graph, u);
    Recorded(s.results, u, RoutedError(message, u), c);
    Recorded(s.results, u, RoutedError(message, u), u);
    if IsHandler(w.graph, u, c) && c in s.pending && s.pending[c] <= Multiplicity(w.graph, u, c) {
      ClearingLowers(w, u, s.pending, c);
      HandlerIsTarget(w.graph, u, c);
      RouteQueues(w, s1, u, n, c);
    }
    var t := Fail(w, s, u, error);
    forall j | |s.ready| <= j < |t.ready| ensures IsHandler(w.graph, u, t.ready[j]) {
      ErrorBetweenIs(w.graph, u, t.ready[j]);
    }
  }

  lemma Recorded(results: map<nat, Value>, u: nat, v: Value, c: nat)
    ensures Lookup(results[u := v], c) == if c == u then Some(v) else Lookup(results, c)
  {
  }

  lemma NotItsOwnChild(g: Graph, u: nat)
    requires NoSelfLoop(g, u)
    ensures !exists i | 0 <= i < |g.edges| :: Joins(g, i, u, u)
  {
  }

  lemma HandlerIsTarget(g: Graph, u: nat, c: nat)
    requires IsHandler(g, u, c)
    ensures 1 <= |Targets(g, u, c, |g.edges|)| == Multiplicity(g, u, c)
  {
    MultiplicityIs(g, u, c);
    var i :| 0 <= i < |g.edges| && Joins(g, i, u, c) && g.edges[i].isError;
    assert i in Targets(g, u, c, |g.edges|);
  }

  /** A failure ends the run exactly when it has no error route and is not tolerated. */
  lemma FailureEndsIff(w: Workflow, s: State, u: nat, error: string)
    requires s.status == Running
    ensures Fail(w, s, u, error).status != Running <==> !HasErrorRoute(w.graph, u) && u !in w.continueOnError
    ensures Fail(w, s, u, error).status != Running ==>
              Fail(w, s, u, error) == s.(status := Aborted(w.policy.redact(error)))
  {
    RoutesErrorsIff(w.graph, u);
    WalkKeepsStatus(w, s, u);
    hide WalkEdges, RoutesErrors, HasErrorRoute, ClearChain;
  }

  // ----- unblocking -----

  /** Every counter is lower by the number of edges from u, but not below zero; the nodes that this
      brings to zero are queued behind the others, and no other node is. */
  ghost predicate Unblocks(w: Workflow, s: State, u: nat, t: State) {
    && t.pending.Keys == s.pending.Keys && s.ready <= t.ready
    && (forall c | c in s.pending :: Unblocked(w.graph, s, u, t, c))
    && forall j | |s.ready| <= j < |t.ready| ::
         Multiplicity(w.graph, u, t.ready[j]) >= 1 && t.ready[j] in t.pending && t.pending[t.ready[j]] == 0
  }

  ghost predicate Unblocked(g: Graph, s: State, u: nat, t: State, c: nat)
    requires c in s.pending && c in t.pending
  {
    var m := Multiplicity(g, u, c);
    && t.pending[c] == (if s.pending[c] > m then s.pending[c] - m else 0)
    && (1 <= m && s.pending[c] <= m ==> c in t.ready)
  }

  lemma {:induction false} UnblockKeeps(w: Workflow, s: State, u: nat, k: nat)
    requires k <= |w.graph.edges|
    ensures var t := WalkEdges(w, s, u, OnUnblock, k);
            && t.results == s.results && t.executing == s.executing && t.status == s.status
            && t.pending.Keys == s.pending.Keys && s.ready <= t.ready
    decreases k
  {
    if k > 0 {
      var e := w.graph.edges[k - 1];
      UnblockKeeps(w, if e.src == u then VisitEdge(w, s, u, e.dst, OnUnblock) else s, u, k - 1);
    }
  }

  lemma {:induction false} UnblockCounts(w: Workflow, s: State, u: nat, k: nat, c: nat)
    requires k <= |w.graph.edges| && c in s.pending
    ensures var t, m := WalkEdges(w, s, u, OnUnblock, k), |Targets(w.graph, u, c, k)|;
            && c in t.pending && t.pending[c] == (if s.pending[c] > m then s.pending[c] - m else 0)
            && (1 <= m && s.pending[c] <= m ==> c in t.ready)
    decreases k
  {
    hide Targets;
    TargetsNext(w.graph, u, c, k);
    if k > 0 {
      var e := w.graph.edges[k - 1];
      var s' := if e.src == u then VisitEdge(w, s, u, e.dst, OnUnblock) else s;
      UnblockKeeps(w, s', u, k - 1);
      UnblockCounts(w, s', u, k - 1, c);
      if e.src == u && e.dst == c && s'.pending[c] == 0 { assert s'.ready[|s.ready|] == c; }
    }
  }

  lemma {:induction false} UnblockQueues(w: Workflow, s: State, u: nat, k: nat, j: nat)
    requires k <= |w.graph.edges| && |s.ready| <= j < |WalkEdges(w, s, u, OnUnblock, k).ready|
    ensures var t := WalkEdges(w, s, u, OnUnblock, k);
            && t.ready[j] in t.pending && t.pending[t.ready[j]] == 0 && Targets(w.graph, u, t.ready[j], k) != {}
    decreases k
  {
    hide Targets;
    if k > 0 {
      var e := w.graph.edges[k - 1];
      var s', c := if e.src == u then VisitEdge(w, s, u, e.dst, OnUnblock) else s,
                   WalkEdges(w, s, u, OnUnblock, k).ready[j];
      UnblockKeeps(w, s', u, k - 1);
      TargetsNext(w.graph, u, c, k);
      if j < |s'.ready| {
        assert c == s'.ready[j] == e.dst;
        UnblockCounts(w, s', u, k - 1, c);
      } else {
        UnblockQueues(w, s', u, k - 1, j);
      }
    }
  }

  /** The walk behind system nodes and tolerated failures is what its name says. */
  lemma UnblockingWalkUnblocks(w: Workflow, s: State, u: nat)
    ensures var t := WalkAll(w, s, u, OnUnblock);
            Unblocks(w, s, u, t) && t.results == s.results && t.executing == s.executing && t.status == s.status
  {
    hide WalkEdges, Multiplicity, Targets;
    var t := WalkAll(w, s, u, OnUnblock);
    UnblockKeeps(w, s, u, |w.graph.edges|);
    forall c | c in s.pending ensures c in t.pending && Unblocked(w.graph, s, u, t, c) {
      UnblockCounts(w, s, u, |w.graph.edges|, c);
      MultiplicityIs(w.graph, u, c);
    }
    forall j | |s.ready| <= j < |t.ready|
      ensures Multiplicity(w.graph, u, t.ready[j]) >= 1 && t.ready[j] in t.pending && t.pending[t.ready[j]] == 0
    {
      UnblockQueues(w, s, u, |w.graph.edges|, j);
      MultiplicityIs(w.graph, u, t.ready[j]);
    }
  }

  /** A tolerated failure leaves the redacted error under its own name, and nothing else, and
      unblocks the successors. */
  lemma FailureIsTolerated(w: Workflow, s: State, u: nat, error: string)
    requires !HasErrorRoute(w.graph, u) && u in w.continueOnError
    ensures var t := Fail(w, s, u, error);
            && t.results == s.results[u := ContinuedError(w.policy.redact(error))]
            && t.status == s.status && t.executing == s.executing && Unblocks(w, s, u, t)
  {
    RoutesErrorsIff(w.graph, u);
    var s1 := s.(results := s.results[u := ContinuedError(w.policy.redact(error))]);
    UnblockingWalkUnblocks(w, s1, u);
    SameUnblocking(w, s1, s, u, WalkAll(w, s1, u, OnUnblock));
    hide WalkEdges, RoutesErrors, HasErrorRoute, ClearChain, Unblocks;
  }

  lemma SameUnblocking(w: Workflow, s: State, s': State, u: nat, t: State)
    requires Unblocks(w, s, u, t) && s.pending == s'.pending && s.ready == s'.ready
    ensures Unblocks(w, s', u, t)
  {
    hide Multiplicity;
    assert forall c | c in s.pending :: Unblocked(w.graph, s, u, t, c) ==> Unblocked(w.graph, s', u, t, c);
  }

  // ----- popped nodes -----

  ghost predicate InChain(w: Workflow, n: nat) {
    exists k | 0 <= k < |w.chains| :: n in w.chains[k]
  }

  /** A popped node of a chain only starts a job, for a chain it is in, and only if it heads one. */
  lemma PoppedMemberStartsItsChain(w: Workflow, s: State, i: nat, decision: Decision)
    requires Enabled(w, s, Pop(i, decision)) && InChain(w, s.ready[i])
    ensures var n, t := s.ready[i], Step(w, s, Pop(i, decision));
            && t == s.(ready := s.ready[..i] + s.ready[i + 1..], executing := t.executing)
            && if exists k | 0 <= k < |w.chains| :: w.chains[k] != [] && w.chains[k][0] == n then
                 exists k: nat :: k < |w.chains| && n in w.chains[k]
                                  && t.executing == s.executing + [Job(n, Some(k), InputsOf(w.graph, s.results, n))]
               else t.executing == s.executing
  {
    ChainOfFinds(w.chains, s.ready[i]);
    hide Gather, ChainOf;
  }

  /** A popped node of no chain goes where the handlers in front of the dispatch send it. */
  lemma PoppedNodeGoes(w: Workflow, s: State, i: nat, decision: Decision)
    requires Enabled(w, s, Pop(i, decision)) && !InChain(w, s.ready[i])
    ensures var n, t := s.ready[i], Step(w, s, Pop(i, decision));
            var popped := s.(ready := s.ready[..i] + s.ready[i + 1..]);
            match decision
            case Dispatch =>
              t == popped.(executing := s.executing + [Job(n, None, InputsOf(w.graph, s.results, n))])
            case Resolve(value) =>
              && t.results == s.results[n := value] && t.executing == s.executing && t.status == Running
              && Unblocks(w, popped, n, t)
            case Reject(message) =>
              && (HasErrorRoute(w.graph, n) && NoSelfLoop(w.graph, n) ==>
                    Lookup(t.results, n) == Some(RoutedError(w.policy.redact(message), n)) && t.status == Running)
              && (!HasErrorRoute(w.graph, n) && n in w.continueOnError ==>
                    t.results == s.results[n := ContinuedError(w.policy.redact(message))] && t.status == Running)
              && (!HasErrorRoute(w.graph, n) && n !in w.continueOnError ==>
                    t == popped.(status := Aborted(w.policy.redact(message))))
            case Halt(message) => t == popped.(status := Aborted(message))
            case Pause(value) => t == popped.(results := s.results[n := value], status := Paused)
  {
    var n, popped := s.ready[i], s.(ready := s.ready[..i] + s.ready[i + 1..]);
    ChainOfFinds(w.chains, n);
    assert ChainOf(w.chains, n).None?;
    hide Gather, WalkEdges, Fail, Unblocks, HasErrorRoute, NoSelfLoop, ChainOf;
    match decision
    case Resolve(value) =>
      var s1 := popped.(results := s.results[n := value]);
      UnblockingWalkUnblocks(w, s1, n);
      SameUnblocking(w, s1, popped, n, WalkAll(w, s1, n, OnUnblock));
    case Reject(message) =>
      FailureEndsIff(w, popped, n, message);
      if HasErrorRoute(w.graph, n) && NoSelfLoop(w.graph, n) { FailureIsRouted(w, popped, n, message, n); }
      if !HasErrorRoute(w.graph, n) && n in w.continueOnError { FailureIsTolerated(w, popped, n, message); }
    case _ =>
  }

  // ----- a finished chain -----

  lemma {:induction false} WalkKeepsZero(w: Workflow, s: State, u: nat, walk: Walk, k: nat, c: nat)
    requires k <= |w.graph.edges| && c in s.pending && s.pending[c] == 0
    requires forall i | 0 <= i < k :: !Joins(w.graph, i, u, c)
    ensures var t := WalkEdges(w, s, u, walk, k); c in t.pending && t.pending[c] == 0
    decreases k
  {
    if k > 0 {
      var e := w.graph.edges[k - 1];
      assert !Joins(w.graph, k - 1, u, c);
      if e.src == u { VisitKeepsZero(w, s, u, e.dst, walk, c); }
      hide VisitEdge;
      WalkKeepsZero(w, if e.src == u then VisitEdge(w, s, u, e.dst, walk) else s, u, walk, k - 1, c);
    }
  }

  lemma VisitKeepsZero(w: Workflow, s: State, u: nat, child: nat, walk: Walk, c: nat)
    requires c in s.pending && s.pending[c] == 0 && c != child
    ensures var t := VisitEdge(w, s, u, child, walk); c in t.pending && t.pending[c] == 0
  {
    hide ErrorBetween, ConditionFails, ReleaseEarly, Cascade;
    if child in s.pending {
      var cnt := ReleaseEarly(w, child, Decrement(s.pending[child]));
      CascadeCounts(w.graph, s.pending[child := cnt], child, |w.graph.edges|, c);
    }
  }

  /** A success or a routed failure of the node a chain answers under leaves no member of that chain
      waiting, but those it has an edge to. */
  lemma FinishedChainStopsWaiting(w: Workflow, s: State, u: nat, outcome: Result<string>, k: nat, c: nat)
    requires k < |w.chains| && u in w.chains[k] && c in w.chains[k]
    requires forall l | 0 <= l < |w.chains| && l != k :: u !in w.chains[l]
    requires outcome.Ok? || HasErrorRoute(w.graph, u)
    requires forall i | 0 <= i < |w.graph.edges| :: !Joins(w.graph, i, u, c)
    ensures var t := Complete(w, s, u, outcome); c in t.pending && t.pending[c] == 0
  {
    ChainOfFinds(w.chains, u);
    var cleared := ClearChain(w, u, s.pending);
    assert c in cleared && cleared[c] == 0;
    RoutesErrorsIff(w.graph, u);
    hide *;
    CompleteWalks(w, s, u, outcome);
    match outcome
    case Ok(raw) =>
      var output := Admit(w.policy, raw);
      WalkKeepsZero(w, s.(results := s.results[u := output], pending := cleared), u, OnSuccess(output),
                    |w.graph.edges|, c);
    case Err(error) =>
      var value := RoutedError(w.policy.redact(error), u);
      WalkKeepsZero(w, s.(results := s.results[u := value], pending := cleared), u, OnErrorRoute,
                    |w.graph.edges|, c);
  }

  lemma CompleteWalks(w: Workflow, s: State, u: nat, outcome: Result<string>)
    requires outcome.Ok? || RoutesErrors(w.graph, u)
    ensures var value := if outcome.Ok? then Admit(w.policy, outcome.value)
                         else RoutedError(w.policy.redact(outcome.message), u);
            Complete(w, s, u, outcome)
            == WalkEdges(w, s.(results := s.results[u := value], pending := ClearChain(w, u, s.pending)), u,
                         if outcome.Ok? then OnSuccess(value) else OnErrorRoute, |w.graph.edges|)
  {
    hide WalkEdges, Admit, ClearChain, RoutesErrors;
  }

  // ----- the success walk -----

  lemma {:induction false} SuccessMarks(w: Workflow, s: State, u: nat, output: Value, k: nat, c: nat)
    requires k <= |w.graph.edges|
    ensures (exists i | 0 <= i < k :: Joins(w.graph, i, u, c)) && ErrorBetween(w.graph, u, c) ==>
              Lookup(WalkEdges(w, s, u, OnSuccess(output), k).results, c) == Some(Skipped)
    ensures Lookup(WalkEdges(w, s, u, OnSuccess(output), k).results, c) in {Lookup(s.results, c), Some(Skipped)}
    ensures (forall i | 0 <= i < k :: !Joins(w.graph, i, u, c)) ==>
              Lookup(WalkEdges(w, s, u, OnSuccess(output), k).results, c) == Lookup(s.results, c)
    decreases k
  {
    hide ErrorBetween, ReleaseEarly, ConditionFails, Cascade;
    if k > 0 {
      var e := w.graph.edges[k - 1];
      assert Joins(w.graph, k - 1, u, c) <==> e.src == u && e.dst == c;
      SuccessMarks(w, if e.src == u then VisitEdge(w, s, u, e.dst, OnSuccess(output)) else s, u, output, k - 1, c);
    }
  }

  lemma SucceedIs(w: Workflow, s: State, u: nat, raw: string)
    ensures var output := Admit(w.policy, raw);
            Succeed(w, s, u, raw)
            == WalkEdges(w, s.(results := s.results[u := output], pending := ClearChain(w, u, s.pending)),
                         u, OnSuccess(output), |w.graph.edges|)
  {
    hide WalkEdges, ClearChain, Admit;
  }

  /** What a success records: an output no larger than the cap, sanitised, or a note of how much
      too large it was; its handlers are marked skipped, and nothing is recorded elsewhere but
      skip markers of its successors. */
  lemma SuccessRecords(w: Workflow, s: State, u: nat, raw: string, c: nat)
    requires NoSelfLoop(w.graph, u)
    ensures var results := Succeed(w, s, u, raw).results;
            && (|raw| <= w.policy.maxOutputBytes ==> Lookup(results, u) == Some(Output(w.policy.sanitize(raw))))
            && (|raw| > w.policy.maxOutputBytes ==>
                  Lookup(results, u) == Some(TooLarge(|raw|, w.policy.maxOutputBytes)))
            && (IsHandler(w.graph, u, c) ==> Lookup(results, c) == Some(Skipped))
            && (c != u && Lookup(results, c) != Lookup(s.results, c) ==>
                  Lookup(results, c) == Some(Skipped) && exists i | 0 <= i < |w.graph.edges| :: Joins(w.graph, i, u, c))
  {
    var output, n := Admit(w.policy, raw), |w.graph.edges|;
    assert |raw| <= w.policy.maxOutputBytes ==> output == Output(w.policy.sanitize(raw));
    assert |raw| > w.policy.maxOutputBytes ==> output == TooLarge(|raw|, w.policy.maxOutputBytes);
    var s1 := s.(results := s.results[u := output], pending := ClearChain(w, u, s.pending));
    hide *;
    SucceedIs(w, s, u, raw);
    SuccessMarks(w, s1, u, output, n, u);
    SuccessMarks(w, s1, u, output, n, c);
    NotItsOwnChild(w.graph, u);
    Recorded(s.results, u, output, u);
    Recorded(s.results, u, output, c);
    ErrorBetweenIs(w.graph, u, c);
    if IsHandler(w.graph, u, c) { HandlerIsChild(w.graph, u, c); }
  }

  lemma HandlerIsChild(g: Graph, u: nat, c: nat)
    requires IsHandler(g, u, c)
    ensures exists i | 0 <= i < |g.edges| :: Joins(g, i, u, c)
  {
  }

  /** Edges from an unsettled node have delivered nothing. */
  lemma UnsettledEdgesAreAwaited(w: Workflow, disp: Dispositions, u: nat, c: nat)
    requires u !in disp
    ensures Targets(w.graph, u, c, |w.graph.edges|) <= Waiting(w.graph, disp, {}, c)
  {
  }

  lemma SameSize(a: set<nat>, b: set<nat>)
    requires a <= b && |a| == |b|
    ensures a == b
  {
    assert |b - a| == 0;
  }

  /** A reporter feeds no inner member of a chain. */
  lemma ReporterFeedsNoInner(w: Workflow, u: nat, c: nat)
    requires WellFormed(w) && !NonTail(w.chains, u) && Targets(w.graph, u, c, |w.graph.edges|) != {}
    ensures !Inner(w.chains, c)
  {
    var i :| i in Targets(w.graph, u, c, |w.graph.edges|);
    hide WellFormed, Inner, NonTail;
    if Inner(w.chains, c) { InnerFedByNonTail(w, i); }
  }

  lemma AllAwaited(w: Workflow, s: State, disp: Dispositions, u: nat, c: nat)
    requires WellFormed(w) && Inv(w, s, disp, {}) && u !in disp && !NonTail(w.chains, u) && c in s.pending
    requires 1 <= s.pending[c] == |Targets(w.graph, u, c, |w.graph.edges|)|
    ensures Waiting(w.graph, disp, {}, c) == Targets(w.graph, u, c, |w.graph.edges|) != {}
  {
    assert Counted(w, s, disp, {});
    hide Inv, WellFormed, Waiting, Targets, Inner, NonTail;
    ReporterFeedsNoInner(w, u, c);
    UnsettledEdgesAreAwaited(w, disp, u, c);
    SameSize(Targets(w.graph, u, c, |w.graph.edges|), Waiting(w.graph, disp, {}, c));
  }

  /** Conditions, over all runs.  When a job succeeds and its reporter's edges are all that a
      child still waits for, the child is queued if every condition on those edges holds of the
      output, and is skipped and not queued if one does not. */
  lemma SuccessSettlesChild(w: Workflow, seed: map<nat, Value>, before: seq<Event>, idx: nat, raw: string, c: nat)
    requires Startable(w, seed) && IsRun(w, Start(w, seed), before)
    requires var s := After(w, Start(w, seed), before);
             && Enabled(w, s, Finish(idx, Ok(raw)))
             && var u := Reporter(w, s.executing[idx]);
                !IsHandler(w.graph, u, c) && c in s.pending && 1 <= s.pending[c] == Multiplicity(w.graph, u, c)
    ensures var s := After(w, Start(w, seed), before);
            var u, t := Reporter(w, s.executing[idx]), Step(w, s, Finish(idx, Ok(raw)));
            if ConditionsHold(w, u, c, Admit(w.policy, raw)) then c in t.ready && c !in t.results
            else c !in t.ready && c in t.results && t.results[c] == Skipped
  {
    var s := After(w, Start(w, seed), before);
    var u := Reporter(w, s.executing[idx]);
    StartIsLive(w, seed);
    assert WellFormed(w) && idx < |s.executing| && s.status == Running;
    hide *;
    var disp := RunKeeps(w, Start(w, seed), SeedDispositions(w.graph, seed), before);
    ReporterIsUnsettled(w, s, disp, idx);
    MultiplicityIs(w.graph, u, c);
    AllAwaited(w, s, disp, u, c);
    ErrorBetweenIs(w.graph, u, c);
    TargetsComeFrom(w.graph, u, c);
    LastJobDecides(w, s, disp, idx, raw, c);
    ConditionFailsIff(w, u, c, Admit(w.policy, raw));
    DecidedMeans(Step(w, s, Finish(idx, Ok(raw))), c);
  }

  lemma TargetsComeFrom(g: Graph, u: nat, c: nat)
    ensures forall i | i in Targets(g, u, c, |g.edges|) :: i < |g.edges| && g.edges[i].src == u
  {
  }

  lemma DecidedMeans(t: State, c: nat)
    ensures Decided(t, c, true) <==> c in t.results && t.results[c] == Skipped && c !in t.ready
    ensures Decided(t, c, false) <==> c in t.ready && c !in t.results
  {
  }

  // ----- an example: one node, three ways out -----

  const SAYS_YES := Policy(1000, (raw: string) => raw, (raw: string) => raw,
                           (condition: string, v: Value) => condition == "yes")

  /** 0 -> 1 on a condition that holds, 0 -> 2 on one that does not, and 0 -> 3 on error. */
  function Crossing(): Workflow {
    Workflow(Graph(4, [Edge(0, 1, false, Some("yes")), Edge(0, 2, false, Some("no")), Edge(0, 3, true, None)]),
             map[], {}, [], SAYS_YES)
  }

  const CROSSED: map<nat, nat> := map[0 := 0, 1 := 1, 2 := 1, 3 := 1]

  lemma CrossingCounts(n: nat)
    requires n < 4
    ensures SeededCount(Crossing().graph, {}, n) == CROSSED[n]
  {
    var g := Crossing().graph;
    assert FromUnseeded(g, {}, n) == InEdges(g, n);
    assert InEdges(g, n) == if n == 0 then {} else {n - 1};
  }

  lemma CrossingRoots()
    ensures Roots(Crossing().graph, {}, 4) == [0]
  {
    var g := Crossing().graph;
    hide Crossing, SeededCount;
    CrossingCounts(0);
    CrossingCounts(1);
    CrossingCounts(2);
    CrossingCounts(3);
    assert Roots(g, {}, 1) == [0];
    assert Roots(g, {}, 2) == [0];
    assert Roots(g, {}, 3) == [0];
  }

  lemma CrossingStart()
    ensures Start(Crossing(), map[]) == State(map[], CROSSED, [0], [], Running)
    ensures Crossing().chains == []
  {
    assert Crossing().graph.size == 4 && Crossing().chains == [];
    hide Crossing, SeededCount;
    CrossingRoots();
    forall n: nat | n < 4 ensures SeededCount(Crossing().graph, {}, n) == CROSSED[n] {
      CrossingCounts(n);
    }
    StartIs(Crossing(), CROSSED, [0]);
  }

  lemma CrossingEdges(u: nat, v: nat)
    ensures ErrorBetween(Crossing().graph, u, v) <==> u == 0 && v == 3
    ensures ConditionFails(Crossing(), u, v, EMPTY) <==> u == 0 && v == 2
    ensures RoutesErrors(Crossing().graph, 0)
  {
    var g := Crossing().graph;
    assert g.edges[2].isError && g.edges[1].condition.Some?;
    assert FindsErrorEdge(g, 0, 3, 3) && g.edges[2].dst == 3;
  }

  lemma CrossingCascade(q: map<nat, nat>)
    ensures Cascade(Crossing().graph, q, 2, 3) == q
  {
    var g := Crossing().graph;
    assert Cascade(g, q, 2, 0) == q;
    assert Cascade(g, q, 2, 1) == q;
    assert Cascade(g, q, 2, 2) == q;
  }

  /** What each of the three ways out of node 0 gets. */
  function Crossed(results: map<nat, Value>, one: nat, two: nat, three: nat, ready: seq<nat>): State {
    State(results, map[0 := 0, 1 := one, 2 := two, 3 := three], ready, [], Running)
  }

  lemma SuccessSkipsHandler(r: map<nat, Value>)
    ensures VisitEdge(Crossing(), Crossed(r, 1, 1, 1, []), 0, 3, OnSuccess(EMPTY))
            == Crossed(r[3 := Skipped], 1, 1, 1, [])
  {
    CrossingEdges(0, 3);
    hide ErrorBetween, ConditionFails, Cascade, ReleaseEarly;
  }

  lemma SuccessSkipsFalse(r: map<nat, Value>)
    ensures VisitEdge(Crossing(), Crossed(r, 1, 1, 1, []), 0, 2, OnSuccess(EMPTY))
            == Crossed(r[2 := Skipped], 1, 0, 1, [])
  {
    var p, q := Crossed(r, 1, 1, 1, []).pending, Crossed(r, 1, 0, 1, []).pending;
    CrossingEdges(0, 2);
    assert p[2 := 0] == q;
    CrossingCascade(q);
    hide ErrorBetween, ConditionFails, Cascade;
  }

  lemma SuccessQueuesTrue(r: map<nat, Value>)
    ensures VisitEdge(Crossing(), Crossed(r, 1, 0, 1, []), 0, 1, OnSuccess(EMPTY)) == Crossed(r, 0, 0, 1, [1])
  {
    CrossingEdges(0, 1);
    assert Crossed(r, 1, 0, 1, []).pending[1 := 0] == Crossed(r, 0, 0, 1, []).pending;
    hide ErrorBetween, ConditionFails, Cascade;
  }

  lemma SuccessCrosses(r: map<nat, Value>)
    ensures WalkAll(Crossing(), Crossed(r, 1, 1, 1, []), 0, OnSuccess(EMPTY))
         == Crossed(r[3 := Skipped][2 := Skipped], 0, 0, 1, [1])
  {
    var w, walk := Crossing(), OnSuccess(EMPTY);
    var s0, s1 := Crossed(r, 1, 1, 1, []), Crossed(r[3 := Skipped], 1, 1, 1, []);
    var s2, s3 := Crossed(r[3 := Skipped][2 := Skipped], 1, 0, 1, []),
                  Crossed(r[3 := Skipped][2 := Skipped], 0, 0, 1, [1]);
    hide VisitEdge;
    SuccessSkipsHandler(r);
    SuccessSkipsFalse(r[3 := Skipped]);
    SuccessQueuesTrue(r[3 := Skipped][2 := Skipped]);
    assert WalkEdges(w, s3, 0, walk, 0) == s3;
    assert WalkEdges(w, s2, 0, walk, 1) == s3;
    assert WalkEdges(w, s1, 0, walk, 2) == s3;
  }

  lemma FailureCrosses(r: map<nat, Value>)
    ensures WalkAll(Crossing(), Crossed(r, 1, 1, 1, []), 0, OnErrorRoute)
         == Crossed(r[2 := Skipped][1 := Skipped], 1, 1, 0, [3])
  {
    var w, walk := Crossing(), OnErrorRoute;
    var s0, s1 := Crossed(r, 1, 1, 1, []), Crossed(r, 1, 1, 0, [3]);
    var s2, s3 := Crossed(r[2 := Skipped], 1, 1, 0, [3]), Crossed(r[2 := Skipped][1 := Skipped], 1, 1, 0, [3]);
    CrossingEdges(0, 1);
    CrossingEdges(0, 2);
    CrossingEdges(0, 3);
    assert s0.pending[3 := 0] == s1.pending;
    hide ErrorBetween, ConditionFails, RoutesErrors;
    assert VisitEdge(w, s0, 0, 3, walk) == s1 && VisitEdge(w, s1, 0, 2, walk) == s2
        && VisitEdge(w, s2, 0, 1, walk) == s3;
    hide VisitEdge;
    assert WalkEdges(w, s3, 0, walk, 0) == s3;
    assert WalkEdges(w, s2, 0, walk, 1) == s3;
    assert WalkEdges(w, s1, 0, walk, 2) == s3;
  }

  /** A run in which node 0 succeeds: the condition that holds queues node 1, the one that does
      not skips node 2, and the error handler is skipped. */
  lemma SuccessTakesOneWay() returns (events: seq<Event>)
    ensures Reaches(Crossing(), IDLE, events,
                    Crossed(map[0 := EMPTY, 3 := Skipped, 2 := Skipped], 0, 0, 1, [1]))
  {
    var w := Crossing();
    var t0 := State(map[], CROSSED, [0], [], Running);
    assert Admit(w.policy, "") == EMPTY;
    SuccessCrosses(map[0 := EMPTY]);
    hide Reaches, WalkEdges, Gather, Start, Crossing, Admit;
    CrossingStart();
    ReachesStart(Crossing(), IDLE);
    PopReaches(Crossing(), IDLE, [], t0);
    var job := SingleJob(Crossing(), t0);
    var t1 := t0.(ready := [], executing := [job]);
    assert t0.ready[1..] == [] && t0.executing + [job] == [job] && Without([job], 0) == [];
    events := [] + [Pop(0, Dispatch)];
    FinishReaches(Crossing(), IDLE, events, t1, 0, "",
                  Crossed(map[0 := EMPTY][3 := Skipped][2 := Skipped], 0, 0, 1, [1]));
    events := events + [Finish(0, Ok(""))];
    assert map[0 := EMPTY][3 := Skipped][2 := Skipped] == map[0 := EMPTY, 3 := Skipped, 2 := Skipped];
  }

  /** A run in which node 0 fails: it holds the error, the handler is queued, and the successors
      behind plain edges are skipped. */
  lemma FailureTakesTheOther() returns (events: seq<Event>)
    ensures Reaches(Crossing(), FAILING, events,
                    Crossed(map[0 := RoutedError("", 0), 2 := Skipped, 1 := Skipped], 1, 1, 0, [3]))
  {
    var t0 := State(map[], CROSSED, [0], [], Running);
    var routed: map<nat, Value> := map[0 := RoutedError("", 0)];
    assert Crossing().policy.redact("") == "";
    CrossingEdges(0, 3);
    FailureCrosses(routed);
    hide Reaches, WalkEdges, Gather, Start, Crossing, RoutesErrors;
    CrossingStart();
    ReachesStart(Crossing(), FAILING);
    PopReaches(Crossing(), FAILING, [], t0);
    var job := SingleJob(Crossing(), t0);
    var t1 := t0.(ready := [], executing := [job]);
    assert t0.ready[1..] == [] && t0.executing + [job] == [job] && Without([job], 0) == [];
    events := [] + [Pop(0, Dispatch)];
    var t2 := Crossed(routed[2 := Skipped][1 := Skipped], 1, 1, 0, [3]);
    assert t1.results[0 := RoutedError("", 0)] == routed;
    assert FinishStep(Crossing(), t1, 0, Err("")) == t2;
    ReachesNext(Crossing(), FAILING, events, t1, Finish(0, Err("")), t2);
    events := events + [Finish(0, Err(""))];
    assert routed[2 := Skipped][1 := Skipped] == map[0 := RoutedError("", 0), 2 := Skipped, 1 := Skipped];
  }
}
