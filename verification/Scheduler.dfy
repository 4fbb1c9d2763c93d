/** The reactor as a state machine: what one popped node and one finished future do to
    `results`, `pending`, `ready` and the in-flight set.  Every choice the environment makes
    (which future finishes, what it returned, what a system node decided) is in the event. */
module Scheduler {
  import opened Graphs
  import opened FanIn

  /** What `results` can hold for a node. */
  datatype Value =
    | Output(payload: string)
    | TooLarge(bytes: nat, limit: nat)
    | Skipped
    | RoutedError(message: string, failedNode: nat)
    | ContinuedError(message: string)

  datatype Result<+T> = Ok(value: T) | Err(message: string)

  /** The evaluators the engine is configured with. */
  datatype Policy = Policy(
    maxOutputBytes: nat,
    sanitize: string -> string,
    redact: string -> string,
    holds: (string, Value) -> bool)

  /** `chains` is what chain detection kept: empty on a seeded run. */
  datatype Workflow = Workflow(
    graph: Graph,
    joins: map<nat, JoinMode>,
    continueOnError: set<nat>,
    chains: seq<seq<nat>>,
    policy: Policy)

  type Inputs = seq<(nat, Value)>

  /** An in-flight future: one node, or chain number `chain` dispatched from its head. */
  datatype Job = Job(node: nat, chain: Option<nat>, inputs: Inputs)

  datatype Status = Running | Paused | Aborted(message: string)

  datatype State = State(
    results: map<nat, Value>,
    pending: map<nat, nat>,
    ready: seq<nat>,
    executing: seq<Job>,
    status: Status)

  /** What the handlers in front of the single-node dispatch do with a popped node. */
  datatype Decision =
    | Dispatch
    | Resolve(value: Value)      // local output: unblock the successors
    | Reject(message: string)    // failure, through the failure handler
    | Halt(message: string)      // failure that ends the run at once
    | Pause(value: Value)        // waiting: the run returns with what it has

  /** A queued node is popped: the one at the front, or a sub-workflow node behind another; or
      an in-flight future finishes. */
  datatype Event =
    | Pop(index: nat, decision: Decision)
    | Finish(index: nat, outcome: Result<string>)

  // ----- chains -----

  /** `node_to_chain`: a later chain overwrites an earlier one. */
  function ChainOf(chains: seq<seq<nat>>, n: nat): Option<nat> {
    if chains == [] then None
    else if n in chains[|chains| - 1] then Some(|chains| - 1)
    else ChainOf(chains[..|chains| - 1], n)
  }

  predicate IsHead(chains: seq<seq<nat>>, n: nat) {
    exists k | 0 <= k < |chains| :: chains[k] != [] && chains[k][0] == n
  }

  // ----- inputs -----

  /** `gather_inputs` before the values are wrapped: the parents that have a result,
      one entry per incoming edge, newest edge first. */
  function Gather(g: Graph, results: map<nat, Value>, n: nat, k: nat): Inputs
    requires k <= |g.edges|
  {
    if k == 0 then []
    else
      var e := g.edges[k - 1];
      (if e.dst == n && e.src in results then [(e.src, results[e.src])] else [])
      + Gather(g, results, n, k - 1)
  }

  function InputsOf(g: Graph, results: map<nat, Value>, n: nat): Inputs {
    Gather(g, results, n, |g.edges|)
  }

  /** The size guard and the sanitizer. */
  function Admit(p: Policy, raw: string): Value {
    if |raw| > p.maxOutputBytes then TooLarge(|raw|, p.maxOutputBytes) else Output(p.sanitize(raw))
  }

  // ----- the walk over the successors of a finished node -----

  datatype Walk =
    | OnSuccess(output: Value)
    | OnErrorRoute
    | OnUnblock     // local outputs and continue_on_error

  function Mark(s: State, n: nat): State {
    s.(results := s.results[n := Skipped])
  }

  function ReleaseEarly(w: Workflow, c: nat, cnt: nat): nat {
    if c in w.joins then EarlyReady(w.joins[c], |InEdges(w.graph, c)|, cnt) else cnt
  }

  predicate ConditionFails(w: Workflow, u: nat, c: nat, output: Value) {
    exists i | 0 <= i < |w.graph.edges| ::
      && w.graph.edges[i].src == u && w.graph.edges[i].dst == c
      && w.graph.edges[i].condition.Some? && !w.policy.holds(w.graph.edges[i].condition.value, output)
  }

  /** The decrements a condition-skipped node passes on; nothing is enqueued. */
  function Cascade(g: Graph, pending: map<nat, nat>, c: nat, k: nat): map<nat, nat>
    requires k <= |g.edges|
  {
    if k == 0 then pending
    else
      var e := g.edges[k - 1];
      Cascade(g,
              if e.src == c && e.dst in pending then pending[e.dst := GuardedDecrement(pending[e.dst])] else pending,
              c, k - 1)
  }

  /** Visit one outgoing edge of u. */
  function VisitEdge(w: Workflow, s: State, u: nat, c: nat, walk: Walk): State {
    var isError := ErrorBetween(w.graph, u, c);
    match walk
    case OnSuccess(output) =>
      if isError then Mark(s, c)
      else if c !in s.pending then s
      else
        var cnt := ReleaseEarly(w, c, Decrement(s.pending[c]));
        var s' := s.(pending := s.pending[c := cnt]);
        if cnt != 0 then s'
        else if ConditionFails(w, u, c, output) then
          var m := Mark(s', c);
          m.(pending := Cascade(w.graph, m.pending, c, |w.graph.edges|))
        else s'.(ready := s.ready + [c])
    case OnErrorRoute =>
      if !isError then Mark(s, c)
      else if c !in s.pending then s
      else
        var cnt := ReleaseEarly(w, c, GuardedDecrement(s.pending[c]));
        var s' := s.(pending := s.pending[c := cnt]);
        if cnt != 0 then s' else s'.(ready := s.ready + [c])
    case OnUnblock =>
      if c !in s.pending then s
      else
        var cnt := GuardedDecrement(s.pending[c]);
        var s' := s.(pending := s.pending[c := cnt]);
        if cnt != 0 then s' else s'.(ready := s.ready + [c])
  }

  /** Visit the outgoing edges of u below index k, newest first. */
  function WalkEdges(w: Workflow, s: State, u: nat, walk: Walk, k: nat): State
    requires k <= |w.graph.edges|
    decreases k
  {
    if k == 0 then s
    else
      var e := w.graph.edges[k - 1];
      WalkEdges(w, if e.src == u then VisitEdge(w, s, u, e.dst, walk) else s, u, walk, k - 1)
  }

  function WalkAll(w: Workflow, s: State, u: nat, walk: Walk): State {
    WalkEdges(w, s, u, walk, |w.graph.edges|)
  }

  // ----- completion handlers -----

  /** The whole chain of a finished chain stops waiting. */
  function ClearChain(w: Workflow, u: nat, pending: map<nat, nat>): map<nat, nat> {
    match ChainOf(w.chains, u)
    case None => pending
    case Some(k) =>
      if k < |w.chains| then pending + (map n | n in w.chains[k] :: 0) else pending
  }

  /** `handle_node_success`. */
  function Succeed(w: Workflow, s: State, u: nat, raw: string): State {
    var output := Admit(w.policy, raw);
    var s' := s.(results := s.results[u := output], pending := ClearChain(w, u, s.pending));
    WalkAll(w, s', u, OnSuccess(output))
  }

  /** `handle_node_failure`. */
  function Fail(w: Workflow, s: State, u: nat, error: string): State {
    var message := w.policy.redact(error);
    if RoutesErrors(w.graph, u) then
      var s' := s.(results := s.results[u := RoutedError(message, u)], pending := ClearChain(w, u, s.pending));
      WalkAll(w, s', u, OnErrorRoute)
    else if u in w.continueOnError then
      WalkAll(w, s.(results := s.results[u := ContinuedError(message)]), u, OnUnblock)
    else s.(status := Aborted(message))
  }

  function Complete(w: Workflow, s: State, u: nat, outcome: Result<string>): State {
    match outcome
    case Ok(raw) => Succeed(w, s, u, raw)
    case Err(error) => Fail(w, s, u, error)
  }

  // ----- steps -----

  function Without<T>(all: seq<T>, i: nat): seq<T>
    requires i < |all|
  {
    all[..i] + all[i + 1..]
  }

  ghost predicate Enabled(w: Workflow, s: State, e: Event) {
    && s.status == Running
    && match e
       case Pop(i, _) => i < |s.ready|
       case Finish(i, _) => s.ready == [] && i < |s.executing|
  }

  /** The body of the inner loop, for the popped node. */
  function PopStep(w: Workflow, s: State, i: nat, decision: Decision): State
    requires i < |s.ready|
  {
    var n := s.ready[i];
    var s' := s.(ready := Without(s.ready, i));
    var inputs := InputsOf(w.graph, s.results, n);
    if ChainOf(w.chains, n).Some? then
      if IsHead(w.chains, n) then s'.(executing := s.executing + [Job(n, ChainOf(w.chains, n), inputs)]) else s'
    else match decision
      case Dispatch => s'.(executing := s.executing + [Job(n, None, inputs)])
      case Resolve(value) => WalkAll(w, s'.(results := s.results[n := value]), n, OnUnblock)
      case Reject(message) => Fail(w, s', n, message)
      case Halt(message) => s'.(status := Aborted(message))
      case Pause(value) => s'.(results := s.results[n := value], status := Paused)
  }

  /** The node under which a finished future reports: a chain reports under its tail. */
  function Reporter(w: Workflow, job: Job): nat {
    match job.chain
    case None => job.node
    case Some(k) =>
      if k < |w.chains| && w.chains[k] != [] then w.chains[k][|w.chains[k]| - 1] else job.node
  }

  function FinishStep(w: Workflow, s: State, i: nat, outcome: Result<string>): State
    requires i < |s.executing|
  {
    Complete(w, s.(executing := Without(s.executing, i)), Reporter(w, s.executing[i]), outcome)
  }

  function Step(w: Workflow, s: State, e: Event): State
    requires Enabled(w, s, e)
  {
    match e
    case Pop(i, decision) => PopStep(w, s, i, decision)
    case Finish(i, outcome) => FinishStep(w, s, i, outcome)
  }

  // ----- the start of a run -----

  /** The counter of n once the seeds have been propagated, in whatever order: a seeded
      node waits for nothing, any other for its edges from unseeded parents. */
  function SeededCount(g: Graph, seeds: set<nat>, n: nat): nat {
    if n in seeds then 0 else |FromUnseeded(g, seeds, n)|
  }

  function FromUnseeded(g: Graph, seeds: set<nat>, n: nat): set<nat> {
    set i | i in InEdges(g, n) && g.edges[i].src !in seeds
  }

  /** The zero-count nodes below k that were not seeded, in index order. */
  function Roots(g: Graph, seeds: set<nat>, k: nat): seq<nat> {
    if k == 0 then []
    else Roots(g, seeds, k - 1)
         + (if SeededCount(g, seeds, k - 1) == 0 && k - 1 !in seeds then [k - 1] else [])
  }

  function Start(w: Workflow, seed: map<nat, Value>): State {
    State(seed,
          map n: nat | 0 <= n < w.graph.size :: SeededCount(w.graph, seed.Keys, n),
          Roots(w.graph, seed.Keys, w.graph.size), [], Running)
  }

  /** `events` is a run from s: each event is enabled where it happens. */
  ghost predicate IsRun(w: Workflow, s: State, events: seq<Event>)
    decreases |events|
  {
    events == [] || (Enabled(w, s, events[0]) && IsRun(w, Step(w, s, events[0]), events[1..]))
  }

  function After(w: Workflow, s: State, events: seq<Event>): State
    requires IsRun(w, s, events)
    decreases |events|
  {
    if events == [] then s else After(w, Step(w, s, events[0]), events[1..])
  }

  /** The reactor loop's exit condition, without a pause or an abort. */
  predicate Quiescent(s: State) {
    s.status == Running && s.ready == [] && s.executing == []
  }
}
