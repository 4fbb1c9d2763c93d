/** What a workflow means, without queue, counters or completion order: the fate of a node
    is a function of its parents' fates.  The reactor is compared with this in Meaning. */
module Fates {
  import opened Graphs
  import opened Scheduler
  import opened SchedulerInvariant
  import opened SchedulerSteps

  /** A deterministic environment: what the handlers in front of the dispatch decide about a
      node, and what its dispatch returns, given the inputs gathered for it. */
  datatype Env = Env(
    preflight: (nat, Inputs) -> Decision,
    dispatch: (nat, Inputs) -> Result<string>)

  datatype Fate =
    | Ran(how: Disposition, value: Value)
    | Carried       // ran inside a chain, before the chain's tail: no result of its own
    | SkipMarked    // some parent settled without delivering to it
    | Unreached     // some parent neither delivers nor refuses
    | Ends          // the run stops here: aborted or paused

  type Fates = map<nat, Fate>

  predicate Arrives(g: Graph, fates: Fates, i: nat)
    requires i < |g.edges|
  {
    var p := g.edges[i].src;
    p in fates && (fates[p].Carried? || (fates[p].Ran? && Delivers(g, fates[p].how, i)))
  }

  predicate Refuses(g: Graph, fates: Fates, i: nat)
    requires i < |g.edges|
  {
    var p := g.edges[i].src;
    p in fates && fates[p].Ran? && !Delivers(g, fates[p].how, i)
  }

  predicate Arrived(g: Graph, fates: Fates, n: nat) {
    forall i | i in InEdges(g, n) :: Arrives(g, fates, i)
  }

  predicate Refused(g: Graph, fates: Fates, n: nat) {
    exists i | i in InEdges(g, n) :: Refuses(g, fates, i)
  }

  function Values(fates: Fates): map<nat, Value> {
    map n | n in fates && fates[n].Ran? :: fates[n].value
  }

  function FateInputs(g: Graph, fates: Fates, n: nat): Inputs {
    InputsOf(g, Values(fates), n)
  }

  function Concluded(w: Workflow, n: nat, outcome: Result<string>): Fate {
    match outcome
    case Ok(raw) => Ran(Succeeded, Admit(w.policy, raw))
    case Err(error) =>
      var message := w.policy.redact(error);
      if RoutesErrors(w.graph, n) then Ran(Routed, RoutedError(message, n))
      else if n in w.continueOnError then Ran(Opened, ContinuedError(message))
      else Ends
  }

  function Executed(w: Workflow, env: Env, n: nat, inputs: Inputs): Fate {
    match env.preflight(n, inputs)
    case Dispatch => Concluded(w, n, env.dispatch(n, inputs))
    case Resolve(value) => Ran(Opened, value)
    case Reject(message) => Concluded(w, n, Err(message))
    case Halt(_) => Ends
    case Pause(_) => Ends
  }

  // ----- chains count as one node, entered at the head -----

  /** The chain n belongs to, if any. */
  function ChainAt(w: Workflow, n: nat): seq<nat> {
    match ChainOf(w.chains, n)
    case None => []
    case Some(k) => if k < |w.chains| then w.chains[k] else []
  }

  /** The node whose inputs start n: the head of its chain, or n itself. */
  function Entry(w: Workflow, n: nat): nat {
    if ChainAt(w, n) == [] then n else ChainAt(w, n)[0]
  }

  /** A chain transport: each step's admitted output is the next step's only input. */
  function Compose(w: Workflow, env: Env, chain: seq<nat>, j: nat, inputs: Inputs): Result<string>
    requires j < |chain|
    decreases |chain| - j
  {
    match env.dispatch(chain[j], inputs)
    case Err(error) => Err(error)
    case Ok(raw) =>
      if j == |chain| - 1 then Ok(raw)
      else Compose(w, env, chain, j + 1, [(chain[j], Admit(w.policy, raw))])
  }

  /** What becomes of n once its entry can start: a chain answers under its tail. */
  function Started(w: Workflow, env: Env, n: nat, inputs: Inputs): Fate {
    var chain := ChainAt(w, n);
    if chain == [] then Executed(w, env, n, inputs)
    else if n == chain[|chain| - 1] then Concluded(w, n, Compose(w, env, chain, 0, inputs))
    else Carried
  }

  /** The fate of n, from the fates of its entry's parents. */
  function Judge(w: Workflow, env: Env, seed: map<nat, Value>, fates: Fates, n: nat): Fate {
    var entry := Entry(w, n);
    if n in seed then Ran(Opened, seed[n])
    else if Arrived(w.graph, fates, entry) then Started(w, env, n, FateInputs(w.graph, fates, entry))
    else if entry == n && Refused(w.graph, fates, n) then SkipMarked
    else Unreached
  }

  lemma EntryInGraph(w: Workflow, n: nat)
    requires ChainsOk(w.graph, w.chains) && n < w.graph.size
    ensures Entry(w, n) < w.graph.size
  {
    ChainOfFinds(w.chains, n);
    if ChainAt(w, n) != [] { assert IsChain(w.graph, ChainAt(w, n)); }
  }

  lemma {:induction false} RankAlongChain(g: Graph, chain: seq<nat>, rank: seq<nat>, j: nat)
    requires IsChain(g, chain) && IsRank(g, rank) && j < |chain|
    ensures rank[chain[0]] <= rank[chain[j]]
  {
    if j > 0 {
      RankAlongChain(g, chain, rank, j - 1);
      assert Link(g, chain[j - 1], chain[j - 1 + 1]);
      var i: nat :| OutEdges(g, chain[j - 1]) == {i} && InEdges(g, chain[j]) == {i};
      assert i in OutEdges(g, chain[j - 1]) && i in InEdges(g, chain[j]);
    }
  }

  /** A chain is entered no later than at any of its members. */
  lemma EntryIsNoLater(w: Workflow, rank: seq<nat>, n: nat)
    requires ChainsOk(w.graph, w.chains) && IsRank(w.graph, rank) && n < w.graph.size
    ensures Entry(w, n) < w.graph.size && rank[Entry(w, n)] <= rank[n]
  {
    EntryInGraph(w, n);
    ChainOfFinds(w.chains, n);
    if ChainAt(w, n) != [] {
      var chain := ChainAt(w, n);
      assert IsChain(w.graph, chain);
      var j :| 0 <= j < |chain| && chain[j] == n;
      RankAlongChain(w.graph, chain, rank, j);
    }
  }

  function Parents(g: Graph, n: nat): set<nat> {
    set i | i in InEdges(g, n) :: g.edges[i].src
  }

  /** The recursive evaluation over an acyclic graph. */
  ghost function Evaluate(w: Workflow, env: Env, seed: map<nat, Value>, rank: seq<nat>, n: nat): Fate
    requires ChainsOk(w.graph, w.chains) && IsRank(w.graph, rank) && n < w.graph.size
    decreases rank[n], 1
  {
    EntryIsNoLater(w, rank, n);
    Judge(w, env, seed, ParentFates(w, env, seed, rank, Entry(w, n)), n)
  }

  ghost function ParentFates(w: Workflow, env: Env, seed: map<nat, Value>, rank: seq<nat>, n: nat): Fates
    requires ChainsOk(w.graph, w.chains) && IsRank(w.graph, rank) && n < w.graph.size
    decreases rank[n], 0
  {
    map p | p in Parents(w.graph, n) :: Evaluate(w, env, seed, rank, p)
  }

  /** `fates` assigns every node the fate that the parents of its entry give it. */
  ghost predicate Solves(w: Workflow, env: Env, seed: map<nat, Value>, fates: Fates) {
    && (forall n: nat :: n in fates <==> n < w.graph.size)
    && forall n | n in fates :: fates[n] == Judge(w, env, seed, fates, n)
  }

  /** A node's fate depends on the fates of its entry's parents only. */
  lemma JudgeIsLocal(w: Workflow, env: Env, seed: map<nat, Value>, fates: Fates, fates': Fates, n: nat)
    requires forall i | i in InEdges(w.graph, Entry(w, n)) ::
               w.graph.edges[i].src in fates && w.graph.edges[i].src in fates'
               && fates[w.graph.edges[i].src] == fates'[w.graph.edges[i].src]
    ensures Judge(w, env, seed, fates, n) == Judge(w, env, seed, fates', n)
  {
    var entry := Entry(w, n);
    hide ChainAt, Entry;
    forall i | i in InEdges(w.graph, entry)
      ensures Arrives(w.graph, fates, i) <==> Arrives(w.graph, fates', i)
      ensures Refuses(w.graph, fates, i) <==> Refuses(w.graph, fates', i)
    {
    }
    GatherAlike(w.graph, fates, fates', entry, |w.graph.edges|);
  }

  lemma {:induction false} GatherAlike(g: Graph, fates: Fates, fates': Fates, n: nat, k: nat)
    requires k <= |g.edges|
    requires forall i | i in InEdges(g, n) ::
               g.edges[i].src in fates && g.edges[i].src in fates' && fates[g.edges[i].src] == fates'[g.edges[i].src]
    ensures Gather(g, Values(fates), n, k) == Gather(g, Values(fates'), n, k)
  {
    if k > 0 {
      GatherAlike(g, fates, fates', n, k - 1);
      assert g.edges[k - 1].dst == n ==> k - 1 in InEdges(g, n);
    }
  }

  /** On an acyclic graph the recursive evaluation solves the equations ... */
  lemma EvaluationSolves(w: Workflow, env: Env, seed: map<nat, Value>, rank: seq<nat>) returns (fates: Fates)
    requires ChainsOk(w.graph, w.chains) && IsRank(w.graph, rank)
    ensures Solves(w, env, seed, fates)
    ensures forall n: nat | n < w.graph.size :: fates[n] == Evaluate(w, env, seed, rank, n)
  {
    fates := map n: nat | n < w.graph.size :: Evaluate(w, env, seed, rank, n);
    forall n | n in fates
      ensures fates[n] == Judge(w, env, seed, fates, n)
    {
      EntryIsNoLater(w, rank, n);
      var below := ParentFates(w, env, seed, rank, Entry(w, n));
      hide Judge, Entry, ChainsOk;
      forall i | i in InEdges(w.graph, Entry(w, n))
        ensures w.graph.edges[i].src in below && w.graph.edges[i].src in fates
                && below[w.graph.edges[i].src] == fates[w.graph.edges[i].src]
      {
        assert w.graph.edges[i].src in Parents(w.graph, Entry(w, n));
      }
      JudgeIsLocal(w, env, seed, below, fates, n);
    }
  }

  /** ... and nothing else does. */
  lemma {:induction false} SolutionsAgree(w: Workflow, env: Env, seed: map<nat, Value>, rank: seq<nat>, fates: Fates,
                                          fates': Fates, n: nat)
    requires ChainsOk(w.graph, w.chains) && IsRank(w.graph, rank) && n < w.graph.size
    requires Solves(w, env, seed, fates) && Solves(w, env, seed, fates')
    ensures fates[n] == fates'[n]
    decreases rank[n]
  {
    EntryIsNoLater(w, rank, n);
    hide ChainsOk, Judge, Entry;
    forall i | i in InEdges(w.graph, Entry(w, n))
      ensures fates[w.graph.edges[i].src] == fates'[w.graph.edges[i].src]
    {
      SolutionsAgree(w, env, seed, rank, fates, fates', w.graph.edges[i].src);
    }
    JudgeIsLocal(w, env, seed, fates, fates', n);
  }

  // ----- batching -----

  /** Batching is transparent for these fates: members that would run are dispatched, those
      before the tail succeed, and no edge inside a chain is an error edge. */
  ghost predicate Batchable(w: Workflow, env: Env, fates: Fates) {
    forall k, j | 0 <= k < |w.chains| && 0 <= j < |w.chains[k]| ::
      BatchableMember(w, env, fates, k, j)
  }

  ghost predicate BatchableMember(w: Workflow, env: Env, fates: Fates, k: nat, j: nat)
    requires k < |w.chains| && j < |w.chains[k]|
  {
    var n := w.chains[k][j];
    var inputs := FateInputs(w.graph, fates, n);
    && (Arrived(w.graph, fates, n) ==> env.preflight(n, inputs) == Dispatch)
    && (j < |w.chains[k]| - 1 ==>
          && (Arrived(w.graph, fates, n) ==> env.dispatch(n, inputs).Ok?)
          && !ErrorBetween(w.graph, n, w.chains[k][j + 1]))
  }

  lemma {:induction false} GatherSingle(g: Graph, results: map<nat, Value>, n: nat, i: nat, k: nat)
    requires InEdges(g, n) == {i} && i < |g.edges| && g.edges[i].src in results && k <= |g.edges|
    ensures Gather(g, results, n, k) == if i < k then [(g.edges[i].src, results[g.edges[i].src])] else []
  {
    if k > 0 {
      GatherSingle(g, results, n, i, k - 1);
      assert g.edges[k - 1].dst == n <==> k - 1 in InEdges(g, n);
    }
  }

  function Unbatched(w: Workflow): Workflow {
    w.(chains := [])
  }

  /** Node by node, once a batchable chain's head can run every member can, and the
      transport's answer is the tail's own. */
  lemma {:induction false} ChainFates(w: Workflow, env: Env, fates: Fates, k: nat, j: nat)
    requires WellFormed(w) && Solves(Unbatched(w), env, map[], fates) && Batchable(w, env, fates)
    requires k < |w.chains| && j < |w.chains[k]|
    requires Arrived(w.graph, fates, w.chains[k][0])
    ensures var n := w.chains[k][j];
            && n in fates && Arrived(w.graph, fates, n)
            && fates[n] == Concluded(w, n, env.dispatch(n, FateInputs(w.graph, fates, n)))
            && (j < |w.chains[k]| - 1 ==> fates[n].Ran? && fates[n].how == Succeeded)
    ensures Compose(w, env, w.chains[k], 0, FateInputs(w.graph, fates, w.chains[k][0]))
         == Compose(w, env, w.chains[k], j, FateInputs(w.graph, fates, w.chains[k][j]))
  {
    var c := w.chains[k];
    assert IsChain(w.graph, c) && BatchableMember(w, env, fates, k, j);
    assert c[j] in fates;
    if j > 0 {
      ChainFates(w, env, fates, k, j - 1);
      assert Link(w.graph, c[j - 1], c[j - 1 + 1]) && BatchableMember(w, env, fates, k, j - 1);
      hide Judge, Solves, Batchable, WellFormed, IsChain, Concluded;
      ChainInput(w.graph, fates, c[j - 1], c[j]);
      assert fates[c[j - 1]] == Concluded(w, c[j - 1], env.dispatch(c[j - 1], FateInputs(w.graph, fates, c[j - 1])));
      ConcludedValue(w, c[j - 1], env.dispatch(c[j - 1], FateInputs(w.graph, fates, c[j - 1])));
    }
    SolvedFate(Unbatched(w), env, map[], fates, c[j]);
    ConclusionsIgnoreChains(w, c[j], env.dispatch(c[j], FateInputs(w.graph, fates, c[j])));
  }

  lemma ConclusionsIgnoreChains(w: Workflow, n: nat, outcome: Result<string>)
    ensures Concluded(Unbatched(w), n, outcome) == Concluded(w, n, outcome)
  {
  }

  lemma SolvedFate(w: Workflow, env: Env, seed: map<nat, Value>, fates: Fates, n: nat)
    requires Solves(w, env, seed, fates) && n in fates && n !in seed
    requires ChainOf(w.chains, n).None? && Arrived(w.graph, fates, n)
    ensures fates[n] == Executed(w, env, n, FateInputs(w.graph, fates, n))
  {
  }

  lemma ChainAtMember(w: Workflow, k: nat, n: nat)
    requires WellFormed(w) && k < |w.chains| && n in w.chains[k]
    ensures ChainOf(w.chains, n) == Some(k) && ChainAt(w, n) == w.chains[k] && Entry(w, n) == w.chains[k][0]
  {
    ChainOfFinds(w.chains, n);
  }

  /** A chain whose head can start answers for its tail and for nobody else. */
  lemma SolvedMember(w: Workflow, env: Env, seed: map<nat, Value>, fates: Fates, k: nat, n: nat)
    requires WellFormed(w) && Solves(w, env, seed, fates) && n in fates && n !in seed
    requires k < |w.chains| && n in w.chains[k] && Arrived(w.graph, fates, w.chains[k][0])
    ensures var c := w.chains[k];
            fates[n] == if n == c[|c| - 1] then Concluded(w, n, Compose(w, env, c, 0, FateInputs(w.graph, fates, c[0])))
                        else Carried
  {
    ChainAtMember(w, k, n);
  }

  lemma ConcludedValue(w: Workflow, n: nat, outcome: Result<string>)
    requires outcome.Ok?
    ensures Concluded(w, n, outcome) == Ran(Succeeded, Admit(w.policy, outcome.value))
  {
  }

  lemma ChainInput(g: Graph, fates: Fates, u: nat, v: nat)
    requires Link(g, u, v) && !ErrorBetween(g, u, v)
    requires u in fates && fates[u].Ran? && fates[u].how == Succeeded
    ensures Arrived(g, fates, v) && FateInputs(g, fates, v) == [(u, fates[u].value)]
  {
    var i: nat :| OutEdges(g, u) == {i} && InEdges(g, v) == {i};
    assert i in OutEdges(g, u) && i in InEdges(g, v);
    GatherSingle(g, Values(fates), v, i, |g.edges|);
  }

  /** Nothing inside a chain runs when its head cannot. */
  lemma {:induction false} ChainStaysOut(w: Workflow, env: Env, fates: Fates, k: nat, j: nat)
    requires WellFormed(w) && Solves(Unbatched(w), env, map[], fates)
    requires k < |w.chains| && j < |w.chains[k]|
    requires !Arrived(w.graph, fates, w.chains[k][0])
    ensures var n := w.chains[k][j];
            n in fates && fates[n] == if j == 0 && Refused(w.graph, fates, n) then SkipMarked else Unreached
  {
    var c := w.chains[k];
    assert IsChain(w.graph, c);
    assert c[j] in fates && fates[c[j]] == Judge(Unbatched(w), env, map[], fates, c[j]);
    if j > 0 {
      ChainStaysOut(w, env, fates, k, j - 1);
      assert Link(w.graph, c[j - 1], c[j - 1 + 1]);
      var i: nat :| OutEdges(w.graph, c[j - 1]) == {i} && InEdges(w.graph, c[j]) == {i};
      assert i in OutEdges(w.graph, c[j - 1]) && i in InEdges(w.graph, c[j]);
      assert !Arrives(w.graph, fates, i) && !Refuses(w.graph, fates, i);
    }
  }

  /** The node-by-node fates, with the members that run before a tail carried by its chain. */
  function Carry(w: Workflow, fates: Fates): Fates {
    map n | n in fates :: if fates[n].Ran? && NonTail(w.chains, n) then Carried else fates[n]
  }

  /** What the transport of chain k makes of the chain's tail. */
  function TransportFate(w: Workflow, env: Env, fates: Fates, k: nat): Fate
    requires k < |w.chains| && w.chains[k] != []
  {
    var c := w.chains[k];
    Concluded(w, c[|c| - 1], Compose(w, env, c, 0, FateInputs(w.graph, fates, c[0])))
  }

  /** If the chain can start, its members before the tail run, and the tail comes out as the
      transport's answer would have it. */
  ghost predicate ChainKept(w: Workflow, env: Env, fates: Fates, k: nat)
    requires k < |w.chains|
  {
    var c := w.chains[k];
    c != [] && (Arrived(w.graph, fates, c[0]) ==>
      && (forall j | 0 <= j < |c| - 1 :: c[j] in fates && fates[c[j]].Ran?)
      && c[|c| - 1] in fates && fates[c[|c| - 1]] == TransportFate(w, env, fates, k))
  }

  ghost predicate ChainsKept(w: Workflow, env: Env, fates: Fates) {
    forall k | 0 <= k < |w.chains| :: ChainKept(w, env, fates, k)
  }

  /** An edge into a chain's entry, or into a node of no chain, does not come from before a tail. */
  lemma CarriedEdges(w: Workflow, fates: Fates, n: nat, i: nat)
    requires WellFormed(w) && !Inner(w.chains, n) && i in InEdges(w.graph, n)
    ensures Arrives(w.graph, Carry(w, fates), i) <==> Arrives(w.graph, fates, i)
    ensures Refuses(w.graph, Carry(w, fates), i) <==> Refuses(w.graph, fates, i)
  {
    if NonTail(w.chains, w.graph.edges[i].src) { NonTailFeedsInner(w, w.graph.edges[i].src, i); }
  }

  lemma {:induction false} CarriedInputs(w: Workflow, fates: Fates, n: nat, k: nat)
    requires WellFormed(w) && !Inner(w.chains, n) && k <= |w.graph.edges|
    ensures Gather(w.graph, Values(Carry(w, fates)), n, k) == Gather(w.graph, Values(fates), n, k)
  {
    if k > 0 {
      CarriedInputs(w, fates, n, k - 1);
      var p := w.graph.edges[k - 1].src;
      if w.graph.edges[k - 1].dst == n && NonTail(w.chains, p) {
        NonTailFeedsInner(w, p, k - 1);
      }
    }
  }

  lemma EntryIsNotInner(w: Workflow, n: nat)
    requires WellFormed(w)
    ensures !Inner(w.chains, Entry(w, n))
    ensures ChainAt(w, n) == [] <==> !InChains(w.chains, n)
  {
    ChainOfFinds(w.chains, n);
    if ChainAt(w, n) != [] {
      var k := ChainOf(w.chains, n).value;
      assert IsChain(w.graph, w.chains[k]);
      forall l, j | 0 <= l < |w.chains| && 1 <= j < |w.chains[l]| ensures w.chains[l][j] != w.chains[k][0] {
        assert w.chains[l][j] in w.chains[l] && w.chains[k][0] in w.chains[k];
        assert IsChain(w.graph, w.chains[l]);
      }
    } else {
      forall k | 0 <= k < |w.chains| ensures w.chains[k] != [] { assert IsChain(w.graph, w.chains[k]); }
    }
  }

  /** Batched, a node is judged by the carried fates as by the others. */
  lemma JudgedAlike(w: Workflow, env: Env, fates: Fates, n: nat)
    requires WellFormed(w)
    ensures Judge(w, env, map[], Carry(w, fates), n) == Judge(w, env, map[], fates, n)
  {
    hide WellFormed, Carry, ChainAt, Started, Values, Gather, Arrives, Refuses;
    EntryIsNotInner(w, n);
    CarriedInputs(w, fates, Entry(w, n), |w.graph.edges|);
    forall i | i in InEdges(w.graph, Entry(w, n))
      ensures Arrives(w.graph, Carry(w, fates), i) <==> Arrives(w.graph, fates, i)
      ensures Refuses(w.graph, Carry(w, fates), i) <==> Refuses(w.graph, fates, i)
    {
      CarriedEdges(w, fates, Entry(w, n), i);
    }
  }

  lemma JudgedAlone(w: Workflow, env: Env, fates: Fates, n: nat)
    requires ChainAt(w, n) == []
    ensures Judge(Unbatched(w), env, map[], fates, n) == Judge(w, env, map[], fates, n)
  {
    hide Arrived, Refused, Gather, Concluded;
    forall outcome ensures Concluded(Unbatched(w), n, outcome) == Concluded(w, n, outcome) {
      ConclusionsIgnoreChains(w, n, outcome);
    }
  }

  lemma SolvedAt(w: Workflow, env: Env, seed: map<nat, Value>, fates: Fates, n: nat)
    requires Solves(w, env, seed, fates) && n in fates
    ensures fates[n] == Judge(w, env, seed, fates, n)
  {
  }

  lemma LooseIsNotCarried(w: Workflow, fates: Fates, n: nat)
    requires n in fates && !InChains(w.chains, n)
    ensures Carry(w, fates)[n] == fates[n]
  {
    assert !NonTail(w.chains, n);
  }

  lemma LooseFate(w: Workflow, env: Env, fates: Fates, n: nat)
    requires WellFormed(w) && Solves(Unbatched(w), env, map[], fates) && n in fates && !InChains(w.chains, n)
    ensures Carry(w, fates)[n] == Judge(w, env, map[], fates, n)
  {
    hide *;
    EntryIsNotInner(w, n);
    LooseIsNotCarried(w, fates, n);
    SolvedAt(Unbatched(w), env, map[], fates, n);
    JudgedAlone(w, env, fates, n);
  }

  lemma OnlyTailIsLast(w: Workflow, k: nat, j: nat)
    requires WellFormed(w) && k < |w.chains| && j < |w.chains[k]|
    ensures NonTail(w.chains, w.chains[k][j]) <==> j < |w.chains[k]| - 1
    ensures forall i | 0 <= i < |w.chains[k]| && w.chains[k][i] == w.chains[k][j] :: i == j
  {
    var n := w.chains[k][j];
    assert IsChain(w.graph, w.chains[k]) && n in w.chains[k];
    if NonTail(w.chains, n) {
      var l, i :| 0 <= l < |w.chains| && 0 <= i < |w.chains[l]| - 1 && w.chains[l][i] == n;
      assert n in w.chains[l];
    }
  }

  /** How a batched member is judged: all or nothing, under the tail. */
  lemma MemberJudged(w: Workflow, env: Env, fates: Fates, k: nat, j: nat)
    requires WellFormed(w) && k < |w.chains| && j < |w.chains[k]|
    ensures var c := w.chains[k];
            Judge(w, env, map[], fates, c[j])
            == if Arrived(w.graph, fates, c[0]) then
                 if j == |c| - 1 then TransportFate(w, env, fates, k) else Carried
               else if j == 0 && Refused(w.graph, fates, c[0]) then SkipMarked else Unreached
  {
    ChainAtMember(w, k, w.chains[k][j]);
    OnlyTailIsLast(w, k, j);
    hide WellFormed, ChainAt, NonTail, Arrived, Refused, Gather, Compose, Concluded;
  }

  lemma NeverCarried(w: Workflow, env: Env, fates: Fates, n: nat)
    requires Solves(Unbatched(w), env, map[], fates) && n in fates
    ensures !fates[n].Carried?
  {
    assert fates[n] == Judge(Unbatched(w), env, map[], fates, n);
    hide Solves, Arrived, Refused, Gather;
  }

  lemma CarriedMember(w: Workflow, env: Env, fates: Fates, k: nat, j: nat)
    requires WellFormed(w) && Solves(Unbatched(w), env, map[], fates)
    requires k < |w.chains| && j < |w.chains[k]| && ChainKept(w, env, fates, k)
    ensures w.chains[k][j] in fates && Carry(w, fates)[w.chains[k][j]] == Judge(w, env, map[], fates, w.chains[k][j])
  {
    MemberJudged(w, env, fates, k, j);
    OnlyTailIsLast(w, k, j);
    if !Arrived(w.graph, fates, w.chains[k][0]) { ChainStaysOut(w, env, fates, k, j); }
    hide WellFormed, NonTail, Arrived, Refused, TransportFate, Judge, Solves;
  }

  lemma KeptMembers(w: Workflow, env: Env, fates: Fates, k: nat)
    requires WellFormed(w) && Solves(Unbatched(w), env, map[], fates) && k < |w.chains|
    requires Solves(w, env, map[], Carry(w, fates))
    ensures ChainKept(w, env, fates, k)
  {
    var c := w.chains[k];
    assert IsChain(w.graph, c);
    if Arrived(w.graph, fates, c[0]) {
      forall j | 0 <= j < |c|
        ensures c[j] in fates && if j < |c| - 1 then fates[c[j]].Ran?
                else fates[c[j]] == TransportFate(w, env, fates, k)
      {
        KeptMember(w, env, fates, k, j);
      }
    }
    hide WellFormed, Solves, Arrived, TransportFate, IsChain;
  }

  lemma KeptMember(w: Workflow, env: Env, fates: Fates, k: nat, j: nat)
    requires WellFormed(w) && Solves(Unbatched(w), env, map[], fates)
    requires Solves(w, env, map[], Carry(w, fates))
    requires k < |w.chains| && j < |w.chains[k]| && Arrived(w.graph, fates, w.chains[k][0])
    ensures var c := w.chains[k];
            c[j] in fates && if j < |c| - 1 then fates[c[j]].Ran? else fates[c[j]] == TransportFate(w, env, fates, k)
  {
    assert w.chains[k][j] in Carry(w, fates) by { assert IsChain(w.graph, w.chains[k]); }
    SolvedAt(w, env, map[], Carry(w, fates), w.chains[k][j]);
    NeverCarried(w, env, fates, w.chains[k][j]);
    hide WellFormed, NonTail, Arrived, Refused, TransportFate, Judge, Solves, Unbatched;
    JudgedAlike(w, env, fates, w.chains[k][j]);
    MemberJudged(w, env, fates, k, j);
    OnlyTailIsLast(w, k, j);
  }

  /** The exact condition for batching not to be seen from outside: carrying the members before
      the tails turns the node-by-node fates into those of the batched run if and only if every
      chain that can start is kept. */
  lemma CarryingSolvesIff(w: Workflow, env: Env, fates: Fates)
    requires WellFormed(w) && Solves(Unbatched(w), env, map[], fates)
    ensures Solves(w, env, map[], Carry(w, fates)) <==> ChainsKept(w, env, fates)
  {
    hide Judge, WellFormed, Solves, ChainKept;
    if ChainsKept(w, env, fates) {
      CarriedSolution(w, env, fates);
    } else if Solves(w, env, map[], Carry(w, fates)) {
      forall k | 0 <= k < |w.chains| ensures ChainKept(w, env, fates, k) { KeptMembers(w, env, fates, k); }
    }
  }

  lemma CarriedSolution(w: Workflow, env: Env, fates: Fates)
    requires WellFormed(w) && Solves(Unbatched(w), env, map[], fates) && ChainsKept(w, env, fates)
    ensures Solves(w, env, map[], Carry(w, fates))
  {
    forall n | n in fates ensures Carry(w, fates)[n] == Judge(w, env, map[], Carry(w, fates), n) {
      JudgedAlike(w, env, fates, n);
      CarriedFate(w, env, fates, n);
    }
  }

  lemma CarriedFate(w: Workflow, env: Env, fates: Fates, n: nat)
    requires WellFormed(w) && Solves(Unbatched(w), env, map[], fates) && n in fates && ChainsKept(w, env, fates)
    ensures Carry(w, fates)[n] == Judge(w, env, map[], fates, n)
  {
    if InChains(w.chains, n) {
      var k :| 0 <= k < |w.chains| && n in w.chains[k];
      var j :| 0 <= j < |w.chains[k]| && w.chains[k][j] == n;
      assert ChainKept(w, env, fates, k);
      CarriedMember(w, env, fates, k, j);
    } else {
      LooseFate(w, env, fates, n);
    }
  }

  /** A chain is kept if its members go straight to the dispatch, and succeed before the tail. */
  lemma BatchableIsKept(w: Workflow, env: Env, fates: Fates, k: nat)
    requires WellFormed(w) && Solves(Unbatched(w), env, map[], fates) && Batchable(w, env, fates) && k < |w.chains|
    ensures ChainKept(w, env, fates, k)
  {
    hide *;
    var c := w.chains[k];
    ChainIsLong(w, k);
    if Arrived(w.graph, fates, c[0]) {
      forall j | 0 <= j < |c| - 1 ensures c[j] in fates && fates[c[j]].Ran? { ChainFates(w, env, fates, k, j); }
      ChainFates(w, env, fates, k, |c| - 1);
      ComposeLast(w, env, c, FateInputs(w.graph, fates, c[|c| - 1]));
    }
    KeptIf(w, env, fates, k);
  }

  lemma ChainIsLong(w: Workflow, k: nat)
    requires WellFormed(w) && k < |w.chains|
    ensures |w.chains[k]| >= 2
  {
    assert IsChain(w.graph, w.chains[k]);
  }

  lemma KeptIf(w: Workflow, env: Env, fates: Fates, k: nat)
    requires k < |w.chains| && w.chains[k] != []
    requires var c := w.chains[k]; Arrived(w.graph, fates, c[0]) ==>
               && (forall j | 0 <= j < |c| - 1 :: c[j] in fates && fates[c[j]].Ran?)
               && c[|c| - 1] in fates
               && fates[c[|c| - 1]]
                  == Concluded(w, c[|c| - 1], Compose(w, env, c, 0, FateInputs(w.graph, fates, c[0])))
    ensures ChainKept(w, env, fates, k)
  {
    hide Arrived, Gather, Concluded, Compose;
  }

  lemma ComposeLast(w: Workflow, env: Env, chain: seq<nat>, inputs: Inputs)
    requires chain != []
    ensures Compose(w, env, chain, |chain| - 1, inputs) == env.dispatch(chain[|chain| - 1], inputs)
  {
  }

  // ----- chains that end both runs -----

  /** The chain can start, a member's fate ends the per-node run, and the transport's answer ends
      the batched run: a failure that neither the member nor the tail handles. */
  ghost predicate ChainEnds(w: Workflow, env: Env, fates: Fates, k: nat)
    requires k < |w.chains|
  {
    var c := w.chains[k];
    && c != [] && Arrived(w.graph, fates, c[0])
    && (exists j | 0 <= j < |c| :: c[j] in fates && fates[c[j]] == Ends)
    && TransportFate(w, env, fates, k) == Ends
  }

  ghost predicate KeptOrEnded(w: Workflow, env: Env, fates: Fates) {
    forall k | 0 <= k < |w.chains| :: ChainKept(w, env, fates, k) || ChainEnds(w, env, fates, k)
  }

  /** As long as nothing ends the batched run, its fates are the carried ones. */
  lemma {:induction false} UnendedCarries(w: Workflow, env: Env, rank: seq<nat>, fates: Fates, batched: Fates, n: nat)
    requires WellFormed(w) && IsRank(w.graph, rank) && n < w.graph.size
    requires Solves(Unbatched(w), env, map[], fates) && Solves(w, env, map[], batched)
    requires KeptOrEnded(w, env, fates) && forall m | m in batched :: batched[m] != Ends
    ensures n in batched && n in fates && batched[n] == Carry(w, fates)[n] == Judge(w, env, map[], fates, n)
    decreases if Entry(w, n) < |rank| then rank[Entry(w, n)] else 0
  {
    EntryIsNoLater(w, rank, n);
    assert n in batched && n in fates;
    hide *;
    forall i | i in InEdges(w.graph, Entry(w, n))
      ensures var p := w.graph.edges[i].src; p in batched && p in fates && batched[p] == fates[p]
    {
      UnendedParent(w, rank, fates, n, i);
      UnendedCarries(w, env, rank, fates, batched, w.graph.edges[i].src);
    }
    UnendedFate(w, env, fates, batched, n);
  }

  lemma UnendedParent(w: Workflow, rank: seq<nat>, fates: Fates, n: nat, i: nat)
    requires WellFormed(w) && IsRank(w.graph, rank) && n < w.graph.size && i in InEdges(w.graph, Entry(w, n))
    ensures var p := w.graph.edges[i].src;
            && p < w.graph.size == |rank| && Entry(w, p) < w.graph.size && Entry(w, n) < w.graph.size
            && rank[Entry(w, p)] < rank[Entry(w, n)]
            && (p in fates ==> Carry(w, fates)[p] == fates[p])
  {
    var p := w.graph.edges[i].src;
    EntryIsNotInner(w, n);
    EntryIsNoLater(w, rank, n);
    assert w.graph.edges[i].dst == Entry(w, n) && rank[p] < rank[Entry(w, n)] && p < w.graph.size;
    EntryIsNoLater(w, rank, p);
    hide Entry, WellFormed, Inner;
    if NonTail(w.chains, p) { NonTailFeedsInner(w, p, i); }
  }

  lemma UnendedFate(w: Workflow, env: Env, fates: Fates, batched: Fates, n: nat)
    requires WellFormed(w) && KeptOrEnded(w, env, fates) && n in fates && n in batched
    requires Solves(Unbatched(w), env, map[], fates) && Solves(w, env, map[], batched)
    requires forall m | m in batched :: batched[m] != Ends
    requires forall i | i in InEdges(w.graph, Entry(w, n)) ::
               var p := w.graph.edges[i].src; p in batched && p in fates && batched[p] == fates[p]
    ensures batched[n] == Carry(w, fates)[n] == Judge(w, env, map[], fates, n)
  {
    hide *;
    SolvedAt(w, env, map[], batched, n);
    JudgeIsLocal(w, env, map[], batched, fates, n);
    if InChains(w.chains, n) {
      var k, j := PlaceOf(w, n);
      UnendedChain(w, env, fates, batched, k, j);
      CarriedMember(w, env, fates, k, j);
    } else {
      LooseFate(w, env, fates, n);
    }
  }

  lemma PlaceOf(w: Workflow, n: nat) returns (k: nat, j: nat)
    requires InChains(w.chains, n)
    ensures k < |w.chains| && j < |w.chains[k]| && w.chains[k][j] == n
  {
    k :| 0 <= k < |w.chains| && n in w.chains[k];
    j :| 0 <= j < |w.chains[k]| && w.chains[k][j] == n;
  }

  /** A chain whose answer ends the run has a tail that ends it. */
  lemma UnendedChain(w: Workflow, env: Env, fates: Fates, batched: Fates, k: nat, j: nat)
    requires WellFormed(w) && KeptOrEnded(w, env, fates) && k < |w.chains| && j < |w.chains[k]|
    requires Solves(w, env, map[], batched) && forall m | m in batched :: batched[m] != Ends
    requires forall i | i in InEdges(w.graph, Entry(w, w.chains[k][j])) ::
               var p := w.graph.edges[i].src; p in batched && p in fates && batched[p] == fates[p]
    ensures ChainKept(w, env, fates, k)
  {
    hide *;
    TailOf(w, env, batched, k);
    var tail := w.chains[k][|w.chains[k]| - 1];
    ChainAtMember(w, k, w.chains[k][j]);
    ChainAtMember(w, k, tail);
    JudgeIsLocal(w, env, map[], batched, fates, tail);
    MemberJudged(w, env, fates, k, |w.chains[k]| - 1);
    if !ChainKept(w, env, fates, k) { EitherWay(w, env, fates, k); }
  }

  lemma TailOf(w: Workflow, env: Env, batched: Fates, k: nat)
    requires WellFormed(w) && Solves(w, env, map[], batched) && k < |w.chains|
    ensures var c := w.chains[k];
            c != [] && c[|c| - 1] in batched && batched[c[|c| - 1]] == Judge(w, env, map[], batched, c[|c| - 1])
  {
    assert IsChain(w.graph, w.chains[k]);
  }

  lemma EitherWay(w: Workflow, env: Env, fates: Fates, k: nat)
    requires KeptOrEnded(w, env, fates) && k < |w.chains| && w.chains[k] != [] && !ChainKept(w, env, fates, k)
    ensures Arrived(w.graph, fates, w.chains[k][0]) && TransportFate(w, env, fates, k) == Ends
  {
  }

  /** If every chain is kept, or ends both runs, the per-node and the batched run have the same
      end, and if nothing ends them the batched fates are the carried ones. */
  lemma EndsAlike(w: Workflow, env: Env, rank: seq<nat>, fates: Fates, batched: Fates)
    requires WellFormed(w) && IsRank(w.graph, rank) && KeptOrEnded(w, env, fates)
    requires Solves(Unbatched(w), env, map[], fates) && Solves(w, env, map[], batched)
    ensures (forall n | n in batched :: batched[n] != Ends) <==> (forall n | n in fates :: fates[n] != Ends)
    ensures (forall n | n in batched :: batched[n] != Ends) ==>
              forall n | n in fates :: n in batched && batched[n] == Carry(w, fates)[n]
  {
    assert forall n :: n in fates <==> n in batched;
    assert forall n | n in fates :: n < w.graph.size && (Carry(w, fates)[n] == Ends <==> fates[n] == Ends);
    assert ChainsOk(w.graph, w.chains);
    hide WellFormed, ChainsOk, Solves, Carry, Judge, IsRank, Entry;
    if forall n | n in batched :: batched[n] != Ends {
      forall n | n in fates ensures batched[n] == Carry(w, fates)[n] {
        UnendedCarries(w, env, rank, fates, batched, n);
      }
    } else if forall n | n in fates :: fates[n] != Ends {
      assert forall k | 0 <= k < |w.chains| :: ChainKept(w, env, fates, k) || ChainEnds(w, env, fates, k);
      hide ChainKept;
      CarriedSolution(w, env, fates);
      forall n | n in fates ensures batched[n] == Carry(w, fates)[n] {
        SolutionsAgree(w, env, map[], rank, batched, Carry(w, fates), n);
      }
    }
  }
}
