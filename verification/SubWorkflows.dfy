/** Sub-workflow nodes.  When one is popped, every other one in the queue is taken with it; all
    are evaluated on the same results, past the checks in front of the dispatch, and resolved
    in queue order. */
module SubWorkflows {
  import opened Graphs
  import opened Scheduler
  import opened SchedulerInvariant
  import opened SchedulerSteps
  import opened SchedulerRuns
  import opened Fates
  import opened Meaning

  /** The sub-workflow nodes, their skip conditions (the output of a node that is skipped), and
      what each returns for its inputs. */
  datatype Nested = Nested(
    nodes: set<nat>,
    skip: (nat, Inputs) -> Option<Value>,
    answer: (nat, Inputs) -> Value)

  /** The environment's word on a sub-workflow node that is popped itself. */
  ghost predicate SpeaksFor(env: Env, sub: Nested) {
    forall n, inputs | n in sub.nodes ::
      env.preflight(n, inputs)
      == Resolve(if sub.skip(n, inputs).Some? then sub.skip(n, inputs).value else sub.answer(n, inputs))
  }

  /** No sub-workflow node is ever to be skipped. */
  ghost predicate Unskipped(sub: Nested) {
    forall n, inputs | n in sub.nodes :: sub.skip(n, inputs) == None
  }

  /** Only modules are batched into chains. */
  predicate OutsideChains(w: Workflow, sub: Nested) {
    forall n | n in sub.nodes :: ChainOf(w.chains, n) == None
  }

  function AnswerOn(w: Workflow, sub: Nested, results: map<nat, Value>, n: nat): Value {
    sub.answer(n, InputsOf(w.graph, results, n))
  }

  /** The queue without its sub-workflow nodes. */
  function Others(sub: Nested, ready: seq<nat>): seq<nat> {
    if ready == [] then []
    else (if ready[0] in sub.nodes then [] else [ready[0]]) + Others(sub, ready[1..])
  }

  function Subs(sub: Nested, ready: seq<nat>): seq<nat> {
    if ready == [] then []
    else (if ready[0] in sub.nodes then [ready[0]] else []) + Subs(sub, ready[1..])
  }

  function ResolveNode(w: Workflow, s: State, n: nat, v: Value): State {
    WalkAll(w, s.(results := s.results[n := v]), n, OnUnblock)
  }

  /** Resolve these nodes one after the other, with what they return on `results`. */
  function ResolveAll(w: Workflow, sub: Nested, results: map<nat, Value>, s: State, nodes: seq<nat>): State
    decreases |nodes|
  {
    if nodes == [] then s
    else ResolveAll(w, sub, results, ResolveNode(w, s, nodes[0], AnswerOn(w, sub, results, nodes[0])), nodes[1..])
  }

  /** The pops that the batch amounts to, when `kept` other nodes are left in front of `ready`. */
  function DrainEvents(w: Workflow, sub: Nested, results: map<nat, Value>, kept: nat, ready: seq<nat>): seq<Event>
    decreases |ready|
  {
    if ready == [] then []
    else if ready[0] in sub.nodes then
      [Pop(kept, Resolve(AnswerOn(w, sub, results, ready[0])))] + DrainEvents(w, sub, results, kept, ready[1..])
    else DrainEvents(w, sub, results, kept + 1, ready[1..])
  }

  // ----- walks append to the queue -----

  function Behind(s: State, queue: seq<nat>): State {
    s.(ready := queue + s.ready)
  }

  lemma VisitIgnoresQueue(w: Workflow, s: State, queue: seq<nat>, u: nat, c: nat, walk: Walk)
    ensures VisitEdge(w, Behind(s, queue), u, c, walk) == Behind(VisitEdge(w, s, u, c, walk), queue)
  {
    hide ErrorBetween, ConditionFails, Cascade, ReleaseEarly;
    assert queue + (s.ready + [c]) == (queue + s.ready) + [c];
  }

  lemma {:induction false} WalkIgnoresQueue(w: Workflow, s: State, queue: seq<nat>, u: nat, walk: Walk, k: nat)
    requires k <= |w.graph.edges|
    ensures WalkEdges(w, Behind(s, queue), u, walk, k) == Behind(WalkEdges(w, s, u, walk, k), queue)
    decreases k
  {
    hide VisitEdge, Behind;
    if k > 0 {
      var e := w.graph.edges[k - 1];
      if e.src == u {
        VisitIgnoresQueue(w, s, queue, u, e.dst, walk);
        WalkIgnoresQueue(w, VisitEdge(w, s, u, e.dst, walk), queue, u, walk, k - 1);
      } else {
        WalkIgnoresQueue(w, s, queue, u, walk, k - 1);
      }
    }
  }

  lemma ResolveIgnoresQueue(w: Workflow, s: State, queue: seq<nat>, n: nat, v: Value)
    ensures ResolveNode(w, Behind(s, queue), n, v) == Behind(ResolveNode(w, s, n, v), queue)
  {
    hide WalkEdges;
    WalkIgnoresQueue(w, s.(results := s.results[n := v]), queue, n, OnUnblock, |w.graph.edges|);
  }

  lemma {:induction false} ResolveAllIgnoresQueue(w: Workflow, sub: Nested, results: map<nat, Value>, s: State,
        queue: seq<nat>, nodes: seq<nat>)
    ensures ResolveAll(w, sub, results, Behind(s, queue), nodes) == Behind(ResolveAll(w, sub, results, s, nodes), queue)
    decreases |nodes|
  {
    hide ResolveNode, Behind, AnswerOn;
    if nodes != [] {
      var v := AnswerOn(w, sub, results, nodes[0]);
      ResolveIgnoresQueue(w, s, queue, nodes[0], v);
      ResolveAllIgnoresQueue(w, sub, results, ResolveNode(w, s, nodes[0], v), queue, nodes[1..]);
    }
  }

  // ----- the batch is a run -----

  /** The pop of one batched node, with `kept` in front of it and `rest` behind. */
  lemma PopFromBatch(w: Workflow, sub: Nested, s: State, kept: seq<nat>, n: nat, rest: seq<nat>, v: Value)
    requires OutsideChains(w, sub) && n in sub.nodes && s.status == Running
    ensures var t := Behind(s, kept + [n] + rest);
            && Enabled(w, t, Pop(|kept|, Resolve(v)))
            && Step(w, t, Pop(|kept|, Resolve(v))) == Behind(ResolveNode(w, s, n, v), kept + rest)
  {
    hide WalkEdges, Gather;
    var t := Behind(s, kept + [n] + rest);
    assert t.ready[|kept|] == n && Without(t.ready, |kept|) == (kept + rest) + s.ready;
    ResolveIgnoresQueue(w, s, kept + rest, n, v);
    assert Behind(s, kept + rest).(results := s.results[n := v])
        == t.(ready := Without(t.ready, |kept|), results := s.results[n := v]);
  }

  lemma ResolveKeepsStatus(w: Workflow, s: State, n: nat, v: Value)
    ensures ResolveNode(w, s, n, v).status == s.status
  {
    WalkKeepsStatus(w, s, n);
  }

  /** Taking the sub-workflow nodes out of the queue all at once and resolving them one by one is
      popping them one by one: the batch is a run of the reactor. */
  lemma {:induction false} DrainIsRun(w: Workflow, sub: Nested, results: map<nat, Value>, s: State, kept: seq<nat>,
                                      ready: seq<nat>)
    requires OutsideChains(w, sub) && s.status == Running
    ensures var t, events := Behind(s, kept + ready), DrainEvents(w, sub, results, |kept|, ready);
            && IsRun(w, t, events)
            && After(w, t, events)
               == Behind(ResolveAll(w, sub, results, s, Subs(sub, ready)), kept + Others(sub, ready))
            && After(w, t, events).status == Running
    decreases |ready|
  {
    hide Step, Enabled, ResolveNode, Behind, AnswerOn, OutsideChains;
    BehindKeepsStatus(s, kept + ready);
    if ready == [] {
      assert kept + ready == kept + Others(sub, ready);
    } else {
      var n, rest := ready[0], ready[1..];
      if n in sub.nodes {
        var v := AnswerOn(w, sub, results, n);
        var events := DrainEvents(w, sub, results, |kept|, rest);
        assert kept + ready == kept + [n] + rest;
        PopFromBatch(w, sub, s, kept, n, rest, v);
        ResolveKeepsStatus(w, s, n, v);
        DrainIsRun(w, sub, results, ResolveNode(w, s, n, v), kept, rest);
        assert ([Pop(|kept|, Resolve(v))] + events)[1..] == events;
        assert Subs(sub, ready) == [n] + Subs(sub, rest) && Others(sub, ready) == Others(sub, rest);
        assert ([n] + Subs(sub, rest))[1..] == Subs(sub, rest);
      } else {
        DrainIsRun(w, sub, results, s, kept + [n], rest);
        assert kept + ready == kept + [n] + rest;
        assert kept + [n] + Others(sub, rest) == kept + Others(sub, ready);
        assert Subs(sub, ready) == Subs(sub, rest);
      }
    }
  }

  lemma BehindIs(s: State, queue: seq<nat>)
    ensures Behind(s.(ready := []), queue) == s.(ready := queue)
  {
    assert queue + [] == queue;
  }

  lemma BehindKeepsStatus(s: State, queue: seq<nat>)
    ensures Behind(s, queue).status == s.status
  {
  }

  // ----- when the batch does what the environment says -----

  /** The node would be answered for, not skipped, if it were popped itself. */
  predicate Answered(w: Workflow, env: Env, sub: Nested, results: map<nat, Value>, n: nat) {
    env.preflight(n, InputsOf(w.graph, results, n)) == Resolve(AnswerOn(w, sub, results, n))
  }

  /** The inputs of these nodes are settled: later results do not change them. */
  ghost predicate SameInputs(w: Workflow, results: map<nat, Value>, s: State, nodes: seq<nat>) {
    forall n | n in nodes :: InputsOf(w.graph, s.results, n) == InputsOf(w.graph, results, n)
  }

  lemma QueuedInputsAreSettled(w: Workflow, s: State, disp: Dispositions, s': State)
    requires WellFormed(w) && Inv(w, s, disp, {}) && Grows(s, s')
    ensures SameInputs(w, s.results, s', s.ready)
  {
    assert Settled(w, s, disp, {});
    hide Inv, WellFormed, Gather, Waiting, Settled;
    forall n | n in s.ready ensures InputsOf(w.graph, s'.results, n) == InputsOf(w.graph, s.results, n) {
      var i :| 0 <= i < |s.ready| && s.ready[i] == n;
      PoppedIsTaken(w, s, disp, i);
      DueHasInputs(w, s, disp, {}, n);
      GatherSame(w.graph, s'.results, s.results, n, |w.graph.edges|);
    }
  }

  lemma SameInputsOfRest(w: Workflow, results: map<nat, Value>, s: State, disp: Dispositions, s': State,
                         nodes: seq<nat>)
    requires WellFormed(w) && Inv(w, s, disp, {}) && Grows(s, s')
    requires SameInputs(w, results, s, nodes) && forall n | n in nodes :: n in s.ready
    ensures SameInputs(w, results, s', nodes)
  {
    hide Inv, WellFormed, Grows, Gather;
    QueuedInputsAreSettled(w, s, disp, s');
  }

  /** The pop of a batched node follows the environment exactly when that would answer. */
  lemma PopFollowsIff(w: Workflow, env: Env, sub: Nested, results: map<nat, Value>, t: State, i: nat)
    requires OutsideChains(w, sub) && t.status == Running && i < |t.ready| && t.ready[i] in sub.nodes
    requires InputsOf(w.graph, t.results, t.ready[i]) == InputsOf(w.graph, results, t.ready[i])
    ensures Enabled(w, t, Pop(i, Resolve(AnswerOn(w, sub, results, t.ready[i]))))
    ensures Follows(w, env, t, Pop(i, Resolve(AnswerOn(w, sub, results, t.ready[i]))))
            <==> Answered(w, env, sub, results, t.ready[i])
  {
  }

  ghost predicate AllAnswered(w: Workflow, env: Env, sub: Nested, results: map<nat, Value>, nodes: seq<nat>) {
    forall n | n in nodes :: Answered(w, env, sub, results, n)
  }

  lemma AllAnsweredFrom(w: Workflow, env: Env, sub: Nested, results: map<nat, Value>, n: nat, rest: seq<nat>)
    ensures AllAnswered(w, env, sub, results, [n] + rest)
            <==> Answered(w, env, sub, results, n) && AllAnswered(w, env, sub, results, rest)
  {
    hide Answered;
    assert n in [n] + rest && forall m | m in rest :: m in [n] + rest;
  }

  /** The batch does what the environment would have done node by node, exactly when no batched
      node would have been skipped instead.  The skip condition of a node that is batched behind
      another one is never looked at. */
  lemma {:induction false} DrainFollowsIff(w: Workflow, env: Env, sub: Nested, results: map<nat, Value>, s: State,
                                           disp: Dispositions, kept: seq<nat>, ready: seq<nat>)
    requires WellFormed(w) && OutsideChains(w, sub) && s.status == Running
    requires Inv(w, Behind(s, kept + ready), disp, {}) && SameInputs(w, results, Behind(s, kept + ready), ready)
    ensures Driven(w, env, Behind(s, kept + ready), DrainEvents(w, sub, results, |kept|, ready))
            <==> AllAnswered(w, env, sub, results, Subs(sub, ready))
    decreases |ready|
  {
    hide *;
    if ready == [] {
      NothingToDrain(w, env, sub, results, s, kept);
    } else if ready[0] in sub.nodes {
      var disp' := DrainOne(w, env, sub, results, s, disp, kept, ready);
      var v := AnswerOn(w, sub, results, ready[0]);
      DrainFollowsIff(w, env, sub, results, ResolveNode(w, s, ready[0], v), disp', kept, ready[1..]);
      AllAnsweredFrom(w, env, sub, results, ready[0], Subs(sub, ready[1..]));
    } else {
      OtherStays(w, sub, results, s, kept, ready);
      DrainFollowsIff(w, env, sub, results, s, disp, kept + [ready[0]], ready[1..]);
    }
  }

  lemma NothingToDrain(w: Workflow, env: Env, sub: Nested, results: map<nat, Value>, s: State, kept: seq<nat>)
    ensures Driven(w, env, Behind(s, kept + []), DrainEvents(w, sub, results, |kept|, []))
    ensures AllAnswered(w, env, sub, results, Subs(sub, []))
  {
  }

  /** One batched node: what is left to do after it, and that the rest is as before. */
  lemma DrainOne(w: Workflow, env: Env, sub: Nested, results: map<nat, Value>, s: State, disp: Dispositions,
                 kept: seq<nat>, ready: seq<nat>)
    returns (disp': Dispositions)
    requires WellFormed(w) && OutsideChains(w, sub) && s.status == Running && ready != [] && ready[0] in sub.nodes
    requires Inv(w, Behind(s, kept + ready), disp, {}) && SameInputs(w, results, Behind(s, kept + ready), ready)
    ensures var s1, rest := ResolveNode(w, s, ready[0], AnswerOn(w, sub, results, ready[0])), ready[1..];
            && s1.status == Running
            && Inv(w, Behind(s1, kept + rest), disp', {}) && SameInputs(w, results, Behind(s1, kept + rest), rest)
            && Subs(sub, ready) == [ready[0]] + Subs(sub, rest)
            && (Driven(w, env, Behind(s, kept + ready), DrainEvents(w, sub, results, |kept|, ready))
                <==> Answered(w, env, sub, results, ready[0])
                     && Driven(w, env, Behind(s1, kept + rest), DrainEvents(w, sub, results, |kept|, rest)))
  {
    hide *;
    var n, rest, t := ready[0], ready[1..], Behind(s, kept + ready);
    var v := AnswerOn(w, sub, results, n);
    var e, t' := Pop(|kept|, Resolve(v)), Behind(ResolveNode(w, s, n, v), kept + rest);
    assert ready == [n] + rest && kept + ([n] + rest) == kept + [n] + rest;
    PopFromBatch(w, sub, s, kept, n, rest, v);
    ResolveKeepsStatus(w, s, n, v);
    BehindKeepsStatus(ResolveNode(w, s, n, v), kept + rest);
    BatchedIsQueued(w, results, s, kept, n, rest);
    disp' := StepKeeps(w, t, disp, e);
    StepKeepsInvariant(w, t, disp, e, t', disp');
    SameInputsOfRest(w, results, t, disp, t', rest);
    PopFollowsIff(w, env, sub, results, t, |kept|);
    DrivenFrom(w, env, sub, results, t, kept, ready);
  }

  lemma StepKeepsInvariant(w: Workflow, s: State, disp: Dispositions, e: Event, s': State, disp': Dispositions)
    requires Enabled(w, s, e) && StepOk(w, s, disp, e, s', disp') && s'.status == Running
    ensures Inv(w, s', disp', {}) && Grows(s, s')
  {
  }

  lemma BatchedIsQueued(w: Workflow, results: map<nat, Value>, s: State, kept: seq<nat>, n: nat, rest: seq<nat>)
    requires SameInputs(w, results, Behind(s, kept + ([n] + rest)), [n] + rest)
    ensures var t := Behind(s, kept + ([n] + rest));
            && |kept| < |t.ready| && t.ready[|kept|] == n && t.status == s.status
            && (forall m | m in rest :: m in t.ready) && SameInputs(w, results, t, rest)
            && InputsOf(w.graph, t.results, n) == InputsOf(w.graph, results, n)
  {
    hide Gather;
    assert n in [n] + rest && forall m | m in rest :: m in [n] + rest;
  }

  lemma DrivenFrom(w: Workflow, env: Env, sub: Nested, results: map<nat, Value>, t: State, kept: seq<nat>,
                   ready: seq<nat>)
    requires ready != [] && ready[0] in sub.nodes
    ensures Subs(sub, ready) == [ready[0]] + Subs(sub, ready[1..])
    ensures var e, rest := Pop(|kept|, Resolve(AnswerOn(w, sub, results, ready[0]))),
                           DrainEvents(w, sub, results, |kept|, ready[1..]);
            Driven(w, env, t, DrainEvents(w, sub, results, |kept|, ready))
            <==> Enabled(w, t, e) && Follows(w, env, t, e) && Driven(w, env, Step(w, t, e), rest)
  {
    hide Enabled, Follows, Step, AnswerOn;
    var e := Pop(|kept|, Resolve(AnswerOn(w, sub, results, ready[0])));
    var rest := DrainEvents(w, sub, results, |kept|, ready[1..]);
    assert ([e] + rest)[1..] == rest;
  }

  lemma OtherStays(w: Workflow, sub: Nested, results: map<nat, Value>, s: State, kept: seq<nat>, ready: seq<nat>)
    requires ready != [] && ready[0] !in sub.nodes && SameInputs(w, results, Behind(s, kept + ready), ready)
    ensures kept + [ready[0]] + ready[1..] == kept + ready && Subs(sub, ready) == Subs(sub, ready[1..])
    ensures SameInputs(w, results, Behind(s, kept + ready), ready[1..])
    ensures DrainEvents(w, sub, results, |kept|, ready) == DrainEvents(w, sub, results, |kept + [ready[0]]|, ready[1..])
  {
    hide Gather;
    assert kept + [ready[0]] + ready[1..] == kept + ([ready[0]] + ready[1..]) && [ready[0]] + ready[1..] == ready;
  }

  lemma {:induction false} SubsAre(sub: Nested, ready: seq<nat>)
    ensures forall n :: n in Subs(sub, ready) <==> n in ready && n in sub.nodes
  {
    if ready != [] {
      SubsAre(sub, ready[1..]);
      assert ready == [ready[0]] + ready[1..];
    }
  }

  lemma QueueIsReady(w: Workflow, s: State)
    ensures Behind(s.(ready := []), [] + s.ready) == s && s.(ready := []).status == s.status
    ensures SameInputs(w, s.results, s, s.ready)
  {
    hide Gather;
    assert [] + s.ready + [] == s.ready;
  }

  /** Batching is a run, and the environment's own exactly when every batched node is answered. */
  lemma BatchFollowsIff(w: Workflow, env: Env, sub: Nested, s: State, disp: Dispositions)
    requires WellFormed(w) && Inv(w, s, disp, {}) && s.status == Running && OutsideChains(w, sub)
    ensures var events := DrainEvents(w, sub, s.results, 0, s.ready);
            && IsRun(w, s, events)
            && (Driven(w, env, s, events)
                <==> forall n | n in s.ready && n in sub.nodes :: Answered(w, env, sub, s.results, n))
  {
    hide *;
    QueueIsReady(w, s);
    DrainIsRun(w, sub, s.results, s.(ready := []), [], s.ready);
    DrainFollowsIff(w, env, sub, s.results, s.(ready := []), disp, [], s.ready);
    AllSubsAnswered(w, env, sub, s.results, s.ready);
  }

  lemma AllSubsAnswered(w: Workflow, env: Env, sub: Nested, results: map<nat, Value>, ready: seq<nat>)
    ensures AllAnswered(w, env, sub, results, Subs(sub, ready))
            <==> forall n | n in ready && n in sub.nodes :: Answered(w, env, sub, results, n)
  {
    SubsAre(sub, ready);
    hide Answered, Subs;
  }

  lemma AnsweredIff(w: Workflow, env: Env, sub: Nested, results: map<nat, Value>, n: nat)
    requires SpeaksFor(env, sub) && n in sub.nodes
    ensures Answered(w, env, sub, results, n)
            <==> var inputs := InputsOf(w.graph, results, n);
                 sub.skip(n, inputs).None? || sub.skip(n, inputs).value == sub.answer(n, inputs)
  {
  }

  /** In every running state of every run: batching the queued sub-workflow nodes does what popping
      them one by one would do, exactly when none of them is to be skipped (or would be skipped
      with the very output it returns).  The check in front of the dispatch is made for the popped
      node only, not for those that are taken along. */
  lemma BatchIgnoresSkipsIff(w: Workflow, env: Env, sub: Nested, seed: map<nat, Value>, before: seq<Event>)
    requires Startable(w, seed) && IsRun(w, Start(w, seed), before) && OutsideChains(w, sub) && SpeaksFor(env, sub)
    requires After(w, Start(w, seed), before).status == Running
    ensures var s := After(w, Start(w, seed), before);
            var events := DrainEvents(w, sub, s.results, 0, s.ready);
            && IsRun(w, s, events)
            && (Driven(w, env, s, events)
                <==> forall n | n in s.ready && n in sub.nodes ::
                       var inputs := InputsOf(w.graph, s.results, n);
                       sub.skip(n, inputs).None? || sub.skip(n, inputs).value == sub.answer(n, inputs))
  {
    hide *;
    var s := After(w, Start(w, seed), before);
    var disp := ReachedKeeps(w, seed, before);
    BatchFollowsIff(w, env, sub, s, disp);
    forall n | n in sub.nodes
      ensures Answered(w, env, sub, s.results, n)
              <==> var inputs := InputsOf(w.graph, s.results, n);
                   sub.skip(n, inputs).None? || sub.skip(n, inputs).value == sub.answer(n, inputs)
    {
      AnsweredIff(w, env, sub, s.results, n);
    }
  }

  lemma ReachedKeeps(w: Workflow, seed: map<nat, Value>, events: seq<Event>) returns (disp: Dispositions)
    requires Startable(w, seed) && IsRun(w, Start(w, seed), events)
    requires After(w, Start(w, seed), events).status == Running
    ensures WellFormed(w) && Inv(w, After(w, Start(w, seed), events), disp, {})
  {
    StartIsLive(w, seed);
    hide Inv, Live, ChainsOk, After, IsRun, Start;
    disp := RunKeeps(w, Start(w, seed), SeedDispositions(w.graph, seed), events);
  }

  // ----- an example -----

  /** Two sub-workflow nodes and no edges; node 1 is always to be skipped. */
  function Two(): Workflow {
    Workflow(Graph(2, []), map[], {}, [], FREE)
  }

  const PICKY := Nested({0, 1}, (n: nat, inputs: Inputs) => if n == 1 then Some(Skipped) else None,
                        (n: nat, inputs: Inputs) => EMPTY)

  lemma TwoStarts()
    ensures Start(Two(), map[]) == State(map[], map[0 := 0, 1 := 0], [0, 1], [], Running)
  {
    var g := Two().graph;
    forall n: nat ensures SeededCount(g, {}, n) == 0 {
      assert FromUnseeded(g, {}, n) == {};
    }
    hide SeededCount;
    assert Roots(g, {}, 2) == [0, 1] by { assert Roots(g, {}, 1) == [0]; }
    StartIs(Two(), map[0 := 0, 1 := 0], [0, 1]);
  }

  /** Node 1 runs although its skip condition holds, because node 0 was popped first. */
  lemma SkipConditionIsIgnored()
    ensures PICKY.skip(1, []) == Some(Skipped) && OutsideChains(Two(), PICKY)
    ensures var s, events := Start(Two(), map[]), DrainEvents(Two(), PICKY, map[], 0, [0, 1]);
            IsRun(Two(), s, events) && After(Two(), s, events).results == map[0 := EMPTY, 1 := EMPTY]
  {
    var w := Two();
    TwoStarts();
    var s := State(map[], map[0 := 0, 1 := 0], [0, 1], [], Running);
    var p := s.(ready := []);
    QueueIsReady(w, s);
    DrainIsRun(w, PICKY, map[], p, [], [0, 1]);
    assert Subs(PICKY, [0, 1]) == [0, 1] by { assert [0, 1][1..] == [1] && Subs(PICKY, [1]) == [1]; }
    hide DrainEvents, IsRun, After, Start, Gather;
    var one := p.(results := map[0 := EMPTY]);
    assert ResolveNode(w, p, 0, EMPTY) == one;
    assert ResolveNode(w, one, 1, EMPTY) == p.(results := map[0 := EMPTY, 1 := EMPTY]);
    assert [0, 1][1..] == [1] && [1][1..] == [];
    assert ResolveAll(w, PICKY, map[], one, [1])
        == ResolveAll(w, PICKY, map[], p.(results := map[0 := EMPTY, 1 := EMPTY]), []);
  }
}
