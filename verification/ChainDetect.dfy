/** Linear-chain detection, and the chains a run batches. */
module ChainDetect {
  import opened Graphs
  import opened SchedulerInvariant

  /** The neighbour `neighbors_directed` lists first: adjacency lists put the newest edge in front. */
  function FirstSuccessor(g: Graph, u: nat, k: nat): Option<nat>
    requires k <= |g.edges|
  {
    if k == 0 then None
    else if g.edges[k - 1].src == u then Some(g.edges[k - 1].dst)
    else FirstSuccessor(g, u, k - 1)
  }

  function FirstPredecessor(g: Graph, v: nat, k: nat): Option<nat>
    requires k <= |g.edges|
  {
    if k == 0 then None
    else if g.edges[k - 1].dst == v then Some(g.edges[k - 1].src)
    else FirstPredecessor(g, v, k - 1)
  }

  /** Edge m is the newest edge into v. */
  predicate IsNewestInto(g: Graph, v: nat, m: nat) {
    m in InEdges(g, v) && forall i | i in InEdges(g, v) :: i <= m
  }

  /** A node the detector starts a chain from: one way out, and no way in or a newest way in
      whose source does not have exactly one way out. */
  ghost predicate IsStart(g: Graph, n: nat) {
    && n < g.size && |OutEdges(g, n)| == 1
    && forall m: nat | IsNewestInto(g, n, m) :: |OutEdges(g, g.edges[m].src)| != 1
  }

  // ----- links -----

  ghost predicate LinkPath(g: Graph, path: seq<nat>) {
    path != [] && forall j | 0 <= j < |path| - 1 :: Link(g, path[j], path[j + 1])
  }

  /** Walking links backwards from u reaches s. */
  ghost predicate Reaches(g: Graph, s: nat, u: nat) {
    exists path :: LinkPath(g, path) && path[0] == s && path[|path| - 1] == u
  }

  ghost predicate InSomeChain(chains: seq<seq<nat>>, u: nat, v: nat) {
    exists k, j | 0 <= k < |chains| && 0 <= j < |chains[k]| - 1 :: chains[k][j] == u && chains[k][j + 1] == v
  }

  ghost predicate NoLinkInto(g: Graph, v: nat) {
    forall u: nat :: !Link(g, u, v)
  }

  ghost predicate NoLinkOutOf(g: Graph, u: nat) {
    forall v: nat :: !Link(g, u, v)
  }

  /** No link leads into the first node or out of the last. */
  ghost predicate IsMaximal(g: Graph, path: seq<nat>)
    requires path != []
  {
    NoLinkInto(g, path[0]) && NoLinkOutOf(g, path[|path| - 1])
  }

  lemma SuccessorIsUnique(g: Graph, u: nat, v: nat, v': nat)
    requires Link(g, u, v) && Link(g, u, v')
    ensures v == v'
  {
    var e: nat :| OutEdges(g, u) == {e} && InEdges(g, v) == {e};
    var e': nat :| OutEdges(g, u) == {e'} && InEdges(g, v') == {e'};
    assert e in OutEdges(g, u) && e in InEdges(g, v) && e' in InEdges(g, v');
  }

  lemma PredecessorIsUnique(g: Graph, u: nat, u': nat, v: nat)
    requires Link(g, u, v) && Link(g, u', v)
    ensures u == u'
  {
    var e: nat :| OutEdges(g, u) == {e} && InEdges(g, v) == {e};
    var e': nat :| OutEdges(g, u') == {e'} && InEdges(g, v) == {e'};
    assert e in InEdges(g, v) && e in OutEdges(g, u) && e' in OutEdges(g, u');
  }

  lemma {:induction false} NewestBelow(g: Graph, v: nat, k: nat)
    requires k <= |g.edges| && forall i | i in InEdges(g, v) :: i < k
    ensures match FirstPredecessor(g, v, k)
            case None => InEdges(g, v) == {}
            case Some(p) => exists m: nat :: IsNewestInto(g, v, m) && g.edges[m].src == p
  {
    if k > 0 {
      if g.edges[k - 1].dst == v {
        assert IsNewestInto(g, v, k - 1);
      } else {
        NewestBelow(g, v, k - 1);
      }
    }
  }

  /** The predecessor the detector looks at is the source of the newest edge into the node. */
  lemma FirstPredecessorIsNewest(g: Graph, v: nat)
    ensures FirstPredecessor(g, v, |g.edges|).None? <==> InEdges(g, v) == {}
    ensures forall m: nat | IsNewestInto(g, v, m) :: FirstPredecessor(g, v, |g.edges|) == Some(g.edges[m].src)
    ensures InEdges(g, v) != {} ==> exists m: nat :: IsNewestInto(g, v, m)
  {
    NewestBelow(g, v, |g.edges|);
  }

  lemma {:induction false} FirstSuccessorIsOne(g: Graph, u: nat, k: nat)
    requires k <= |g.edges|
    ensures match FirstSuccessor(g, u, k)
            case None => forall i | 0 <= i < k :: g.edges[i].src != u
            case Some(v) => exists i | 0 <= i < k :: g.edges[i].src == u && g.edges[i].dst == v
  {
    if k > 0 { FirstSuccessorIsOne(g, u, k - 1); }
  }

  /** A link into v is the newest edge into v, and the only way out of its source. */
  lemma LinkIsNewest(g: Graph, u: nat, v: nat)
    requires Link(g, u, v)
    ensures exists m: nat :: IsNewestInto(g, v, m) && g.edges[m].src == u && |OutEdges(g, u)| == 1
  {
    var e: nat :| OutEdges(g, u) == {e} && InEdges(g, v) == {e};
    assert e in OutEdges(g, u) && IsNewestInto(g, v, e);
  }

  /** No link leads into a start. */
  lemma StartHasNoLink(g: Graph, s: nat)
    requires IsStart(g, s)
    ensures NoLinkInto(g, s)
  {
    forall u: nat ensures !Link(g, u, s) {
      if Link(g, u, s) { LinkIsNewest(g, u, s); }
    }
  }

  lemma SingletonOf(a: set<nat>, x: nat)
    requires |a| == 1 && x in a
    ensures a == {x}
  {
    assert |a - {x}| == 0;
  }

  /** The step of the chain walk: the only successor, if it has one way in, is a link away. */
  lemma LinkForward(g: Graph, u: nat)
    requires |OutEdges(g, u)| == 1
    ensures FirstSuccessor(g, u, |g.edges|).Some?
    ensures var v := FirstSuccessor(g, u, |g.edges|).value;
            && (forall n: nat :: Link(g, u, n) ==> n == v)
            && (Link(g, u, v) <==> |InEdges(g, v)| == 1)
  {
    FirstSuccessorIsOne(g, u, |g.edges|);
    var e :| e in OutEdges(g, u);
    var v := FirstSuccessor(g, u, |g.edges|).value;
    var i :| 0 <= i < |g.edges| && g.edges[i].src == u && g.edges[i].dst == v;
    assert i in OutEdges(g, u) && i in InEdges(g, v);
    SingletonOf(OutEdges(g, u), i);
    if |InEdges(g, v)| == 1 {
      SingletonOf(InEdges(g, v), i);
    }
    forall n: nat | Link(g, u, n) ensures n == v {
      var x: nat :| OutEdges(g, u) == {x} && InEdges(g, n) == {x};
      assert x in OutEdges(g, u) && i in {x} && x in InEdges(g, n);
    }
  }

  lemma NoLinkOut(g: Graph, u: nat)
    requires |OutEdges(g, u)| != 1
    ensures NoLinkOutOf(g, u)
  {
  }

  // ----- link paths -----

  /** Two link paths from starts that share a node share the start, at the same distance. */
  lemma {:induction false} PathsMeetAtStarts(g: Graph, a: seq<nat>, i: nat, b: seq<nat>, j: nat)
    requires LinkPath(g, a) && LinkPath(g, b) && IsStart(g, a[0]) && IsStart(g, b[0])
    requires i < |a| && j < |b| && a[i] == b[j]
    ensures i == j && a[0] == b[0]
    decreases i
  {
    if i > 0 { PathLink(g, a, i); }
    if j > 0 { PathLink(g, b, j); }
    StartHasNoLink(g, a[0]);
    StartHasNoLink(g, b[0]);
    if i > 0 && j > 0 {
      PredecessorIsUnique(g, a[i - 1], b[j - 1], a[i]);
      PathsMeetAtStarts(g, a, i - 1, b, j - 1);
    }
  }

  /** A link path from a start repeats no node. */
  lemma StartedPathIsDistinct(g: Graph, a: seq<nat>)
    requires LinkPath(g, a) && IsStart(g, a[0])
    ensures forall i, j | 0 <= i < j < |a| :: a[i] != a[j]
  {
    forall i, j | 0 <= i < j < |a| ensures a[i] != a[j] {
      if a[i] == a[j] { PathsMeetAtStarts(g, a, i, a, j); }
    }
  }

  lemma PathLink(g: Graph, path: seq<nat>, j: nat)
    requires LinkPath(g, path) && 1 <= j < |path|
    ensures Link(g, path[j - 1], path[j])
  {
    assert Link(g, path[j - 1], path[j - 1 + 1]);
  }

  /** A maximal path contains every link path from its first node. */
  lemma {:induction false} MaximalContains(g: Graph, a: seq<nat>, b: seq<nat>, j: nat)
    requires LinkPath(g, a) && IsMaximal(g, a) && LinkPath(g, b) && a[0] == b[0] && j < |b|
    ensures j < |a| && a[j] == b[j]
  {
    if j > 0 {
      MaximalContains(g, a, b, j - 1);
      PathLink(g, b, j);
      assert Link(g, a[j - 1], b[j]);
      assert !Link(g, a[|a| - 1], b[j]);
      assert j < |a|;
      PathLink(g, a, j);
      SuccessorIsUnique(g, a[j - 1], a[j], b[j]);
    }
  }

  // ----- detection -----

  ghost predicate IsWholeChain(g: Graph, chain: seq<nat>) {
    |chain| >= 2 && LinkPath(g, chain) && IsStart(g, chain[0]) && IsMaximal(g, chain)
  }

  ghost predicate HeadsDiffer(chains: seq<seq<nat>>) {
    forall k, l | 0 <= k < l < |chains| && chains[k] != [] && chains[l] != [] :: chains[k][0] != chains[l][0]
  }

  /** Every start among `starts` that has a link heads a chain. */
  ghost predicate Expanded(g: Graph, starts: seq<nat>, chains: seq<seq<nat>>) {
    forall s | s in starts ::
      NoLinkOutOf(g, s) || exists k | 0 <= k < |chains| :: chains[k] != [] && chains[k][0] == s
  }

  lemma ExpandedOneMore(g: Graph, starts: seq<nat>, a: nat, chains: seq<seq<nat>>, chains': seq<seq<nat>>)
    requires a < |starts| && Expanded(g, starts[..a], chains) && chains <= chains'
    requires || starts[a] in starts[..a]
             || NoLinkOutOf(g, starts[a])
             || (|chains'| > |chains| && chains'[|chains|] != [] && chains'[|chains|][0] == starts[a])
    ensures Expanded(g, starts[..a + 1], chains')
  {
    forall s | s in starts[..a + 1] && s in starts[..a]
      ensures NoLinkOutOf(g, s) || exists k | 0 <= k < |chains'| :: chains'[k] != [] && chains'[k][0] == s
    {
      if !NoLinkOutOf(g, s) {
        var k :| 0 <= k < |chains| && chains[k] != [] && chains[k][0] == s;
        assert chains'[k] == chains[k];
      }
    }
    assert starts[..a + 1] == starts[..a] + [starts[a]];
  }

  /** One way on from `start` for as long as the next node has one way in; the walk ends on
      every finite graph, cyclic ones included. */
  method Expand(g: Graph, start: nat, visited: set<nat>) returns (chain: seq<nat>, seen: set<nat>)
    requires Valid(g) && IsStart(g, start)
    ensures LinkPath(g, chain) && chain[0] == start
    ensures NoLinkOutOf(g, chain[|chain| - 1])
    ensures start in seen && visited <= seen && forall n | n in seen && n !in visited :: n in chain
  {
    chain := [start];
    var current := start;
    seen := visited;
    while true
      invariant LinkPath(g, chain) && chain[0] == start && current == chain[|chain| - 1]
      invariant |OutEdges(g, current)| == 1
      invariant visited <= seen && forall n | n in seen && n !in visited :: n in chain
      invariant |chain| > 1 ==> start in seen
      decreases g.size - |chain|
    {
      ghost var before := chain;
      PathFits(g, chain);
      seen := seen + {current};
      LinkForward(g, current);
      var next := FirstSuccessor(g, current, |g.edges|);
      if next.None? { break; }
      if |InEdges(g, next.value)| != 1 { break; }
      chain := chain + [next.value];
      current := next.value;
      forall j | 0 <= j < |chain| - 1 ensures Link(g, chain[j], chain[j + 1]) {
        if j < |before| - 1 { assert Link(g, before[j], before[j + 1]); }
      }
      PathFits(g, chain);
      if |OutEdges(g, current)| != 1 {
        NoLinkOut(g, current);
        break;
      }
    }
  }

  lemma PathFits(g: Graph, chain: seq<nat>)
    requires Valid(g) && LinkPath(g, chain) && IsStart(g, chain[0])
    ensures |chain| <= g.size && forall j | 0 <= j < |chain| :: chain[j] < g.size
  {
    forall j | 0 <= j < |chain| ensures chain[j] < g.size {
      if j > 0 {
        assert Link(g, chain[j - 1], chain[j - 1 + 1]);
        var e: nat :| OutEdges(g, chain[j - 1]) == {e} && InEdges(g, chain[j]) == {e};
        assert e in InEdges(g, chain[j]);
      }
    }
    StartedPathIsDistinct(g, chain);
    DistinctFits(chain, g.size);
  }

  lemma {:induction false} DistinctFits(s: seq<nat>, n: nat)
    requires forall i, j | 0 <= i < j < |s| :: s[i] != s[j]
    requires forall i | 0 <= i < |s| :: s[i] < n
    ensures |s| <= n
  {
    var all := set i | 0 <= i < |s| :: s[i];
    SeqSize(s);
    BelowSize(all, n);
  }

  lemma {:induction false} SeqSize(s: seq<nat>)
    requires forall i, j | 0 <= i < j < |s| :: s[i] != s[j]
    ensures |set i | 0 <= i < |s| :: s[i]| == |s|
  {
    if s != [] {
      var rest := s[..|s| - 1];
      SeqSize(rest);
      assert (set i | 0 <= i < |s| :: s[i]) == (set i | 0 <= i < |rest| :: rest[i]) + {s[|s| - 1]};
    }
  }

  method DetectLinearChains(g: Graph) returns (chains: seq<seq<nat>>)
    requires Valid(g)
    ensures ChainsOk(g, chains)
    ensures forall c :: c in chains <==> IsWholeChain(g, c)
    ensures forall u: nat, v: nat | Link(g, u, v) ::
              InSomeChain(chains, u, v) <==> exists s: nat :: IsStart(g, s) && Reaches(g, s, u)
  {
    var starts: seq<nat> := [];
    for n := 0 to g.size
      invariant forall s: nat :: s in starts <==> s < n && IsStart(g, s)
    {
      if |OutEdges(g, n)| != 1 { continue; }
      FirstPredecessorIsNewest(g, n);
      var parent := FirstPredecessor(g, n, |g.edges|);
      if parent.None? {
        starts := starts + [n];
      } else if |OutEdges(g, parent.value)| != 1 {
        starts := starts + [n];
      }
    }

    var visited: set<nat> := {};
    chains := [];
    for a := 0 to |starts|
      invariant forall k | 0 <= k < |chains| :: IsWholeChain(g, chains[k])
      invariant forall k | 0 <= k < |chains| && chains[k] != [] :: chains[k][0] in visited
      invariant HeadsDiffer(chains)
      invariant forall n | n in visited && IsStart(g, n) :: n in starts[..a]
      invariant Expanded(g, starts[..a], chains)
    {
      var start := starts[a];
      assert start in starts;
      ghost var before := chains;
      if start in visited {
        ExpandedOneMore(g, starts, a, before, chains);
        continue;
      }
      var chain, seen := Expand(g, start, visited);
      VisitedStarts(g, chain, seen - visited);
      visited := seen;
      if |chain| >= 2 {
        StartHasNoLink(g, start);
        chains := chains + [chain];
      }
      ExpandedOneMore(g, starts, a, before, chains);
      assert starts[..a + 1] == starts[..a] + [start];
    }
    assert starts[..|starts|] == starts;
    WholeChainsAreOk(g, chains);
    forall c | IsWholeChain(g, c) ensures c in chains {
      WholeChainIsDetected(g, starts, chains, c);
    }
    forall u: nat, v: nat | Link(g, u, v)
      ensures InSomeChain(chains, u, v) <==> exists s: nat :: IsStart(g, s) && Reaches(g, s, u)
    {
      CoverageIsExact(g, starts, chains, u, v);
    }
  }

  /** A start has one whole chain, and it is detected. */
  lemma WholeChainIsUnique(g: Graph, a: seq<nat>, b: seq<nat>)
    requires IsWholeChain(g, a) && IsWholeChain(g, b) && a[0] == b[0]
    ensures a == b
  {
    MaximalContains(g, a, b, |b| - 1);
    MaximalContains(g, b, a, |a| - 1);
    forall j | 0 <= j < |a| ensures a[j] == b[j] {
      MaximalContains(g, a, b, j);
    }
  }

  lemma WholeChainIsDetected(g: Graph, starts: seq<nat>, chains: seq<seq<nat>>, c: seq<nat>)
    requires forall k | 0 <= k < |chains| :: IsWholeChain(g, chains[k])
    requires forall s: nat :: s in starts <==> s < g.size && IsStart(g, s)
    requires Expanded(g, starts, chains) && IsWholeChain(g, c)
    ensures c in chains
  {
    PathLink(g, c, 1);
    assert c[0] in starts;
    var k :| 0 <= k < |chains| && chains[k] != [] && chains[k][0] == c[0];
    WholeChainIsUnique(g, chains[k], c);
  }

  /** Of the nodes of a chain only the first is a start. */
  lemma VisitedStarts(g: Graph, chain: seq<nat>, seen: set<nat>)
    requires LinkPath(g, chain) && forall n | n in seen :: n in chain
    ensures forall n | n in seen && IsStart(g, n) :: n == chain[0]
  {
    forall n | n in seen && IsStart(g, n) ensures n == chain[0] {
      var j :| 0 <= j < |chain| && chain[j] == n;
      if j > 0 { PathLink(g, chain, j); }
      StartHasNoLink(g, n);
    }
  }

  lemma WholeChainsAreOk(g: Graph, chains: seq<seq<nat>>)
    requires Valid(g) && forall k | 0 <= k < |chains| :: IsWholeChain(g, chains[k])
    requires HeadsDiffer(chains)
    ensures ChainsOk(g, chains)
  {
    forall k | 0 <= k < |chains| ensures IsChain(g, chains[k]) {
      PathFits(g, chains[k]);
      StartedPathIsDistinct(g, chains[k]);
    }
    forall k, l, n | 0 <= k < l < |chains| && n in chains[k] ensures n !in chains[l] {
      if n in chains[l] {
        var i :| 0 <= i < |chains[k]| && chains[k][i] == n;
        var j :| 0 <= j < |chains[l]| && chains[l][j] == n;
        PathsMeetAtStarts(g, chains[k], i, chains[l], j);
      }
    }
  }

  /** Coverage: a link is inside some chain exactly when its backward walk reaches a start. */
  lemma CoverageIsExact(g: Graph, starts: seq<nat>, chains: seq<seq<nat>>, u: nat, v: nat)
    requires forall k | 0 <= k < |chains| :: IsWholeChain(g, chains[k])
    requires forall s: nat :: s in starts <==> s < g.size && IsStart(g, s)
    requires Expanded(g, starts, chains) && Link(g, u, v)
    ensures InSomeChain(chains, u, v) <==> exists s: nat :: IsStart(g, s) && Reaches(g, s, u)
  {
    hide LinkPath, Link, IsMaximal, Expanded;
    if InSomeChain(chains, u, v) {
      var k, j :| 0 <= k < |chains| && 0 <= j < |chains[k]| - 1 && chains[k][j] == u && chains[k][j + 1] == v;
      ChainLeadsTo(g, chains[k], u, v);
      assert IsStart(g, chains[k][0]);
    }
    if s: nat :| IsStart(g, s) && Reaches(g, s, u) {
      LinkIsCovered(g, starts, chains, u, v, s);
    }
  }

  predicate PassesThrough(chain: seq<nat>, u: nat, v: nat) {
    exists j | 0 <= j < |chain| - 1 :: chain[j] == u && chain[j + 1] == v
  }

  lemma ChainLeadsTo(g: Graph, c: seq<nat>, u: nat, v: nat)
    requires IsWholeChain(g, c) && PassesThrough(c, u, v)
    ensures Reaches(g, c[0], u)
  {
    var j :| 0 <= j < |c| - 1 && c[j] == u && c[j + 1] == v;
    var path := c[..j + 1];
    assert LinkPath(g, path) && path[0] == c[0] && path[|path| - 1] == u;
  }

  lemma LinkIsCovered(g: Graph, starts: seq<nat>, chains: seq<seq<nat>>, u: nat, v: nat, s: nat)
    requires forall k | 0 <= k < |chains| :: IsWholeChain(g, chains[k])
    requires forall s: nat :: s in starts <==> s < g.size && IsStart(g, s)
    requires Expanded(g, starts, chains) && Link(g, u, v) && IsStart(g, s) && Reaches(g, s, u)
    ensures InSomeChain(chains, u, v)
  {
    var path :| LinkPath(g, path) && path[0] == s && path[|path| - 1] == u;
    var longer := path + [v];
    LongerPath(g, path, v);
    PathLink(g, longer, 1);
    assert s in starts && Link(g, s, longer[1]);
    var k :| 0 <= k < |chains| && chains[k] != [] && chains[k][0] == s;
    hide Link, LinkPath, Expanded, IsMaximal;
    MaximalContains(g, chains[k], longer, |path| - 1);
    MaximalContains(g, chains[k], longer, |path|);
    assert chains[k][|path| - 1] == u && chains[k][|path| - 1 + 1] == v;
  }

  lemma LongerPath(g: Graph, path: seq<nat>, v: nat)
    requires LinkPath(g, path) && Link(g, path[|path| - 1], v)
    ensures LinkPath(g, path + [v])
  {
    var longer := path + [v];
    forall j | 0 <= j < |longer| - 1 ensures Link(g, longer[j], longer[j + 1]) {
      if j < |path| - 1 { assert Link(g, path[j], path[j + 1]); }
    }
  }

  // ----- what a run batches -----

  /** The chains made of plain modules only. */
  function ModuleChains(chains: seq<seq<nat>>, modules: set<nat>): seq<seq<nat>> {
    if chains == [] then []
    else
      (if forall n | n in chains[0] :: n in modules then [chains[0]] else [])
      + ModuleChains(chains[1..], modules)
  }

  lemma {:induction false} ModuleChainsAre(g: Graph, chains: seq<seq<nat>>, modules: set<nat>)
    requires ChainsOk(g, chains)
    ensures ChainsOk(g, ModuleChains(chains, modules))
    ensures forall c :: c in ModuleChains(chains, modules) <==> c in chains && forall n | n in c :: n in modules
  {
    if chains != [] {
      var rest := chains[1..];
      RestIsOk(g, chains);
      hide ChainsOk;
      ModuleChainsAre(g, rest, modules);
      if forall n | n in chains[0] :: n in modules {
        OkWithFirst(g, chains, ModuleChains(rest, modules));
      } else {
        assert [] + ModuleChains(rest, modules) == ModuleChains(rest, modules);
      }
      assert chains == [chains[0]] + rest;
    }
  }

  lemma RestIsOk(g: Graph, chains: seq<seq<nat>>)
    requires ChainsOk(g, chains) && chains != []
    ensures ChainsOk(g, chains[1..])
  {
    assert forall k | 0 <= k < |chains[1..]| :: chains[1..][k] == chains[k + 1];
  }

  lemma OkWithFirst(g: Graph, chains: seq<seq<nat>>, kept: seq<seq<nat>>)
    requires ChainsOk(g, chains) && chains != [] && ChainsOk(g, kept) && forall c | c in kept :: c in chains[1..]
    ensures ChainsOk(g, [chains[0]] + kept)
  {
    hide IsChain;
    var all := [chains[0]] + kept;
    forall k, n | 0 <= k < |kept| && n in chains[0] ensures n !in kept[k] {
      assert kept[k] in kept;
      var l :| 0 <= l < |chains[1..]| && chains[1..][l] == kept[k];
      assert chains[l + 1] == kept[k];
    }
    forall k, l, n | 0 <= k < l < |all| && n in all[k] ensures n !in all[l] {
      assert all[l] == kept[l - 1] && (k > 0 ==> all[k] == kept[k - 1]);
    }
    assert forall k | 0 <= k < |all| :: all[k] == if k == 0 then chains[0] else kept[k - 1];
  }

  /** The chains a run batches: none when it resumes from a seed, else every whole chain whose
      members are all modules, and no other.  A link is batched exactly when the whole chain it
      lies on consists of modules.  The chains are what the scheduler theorems ask for. */
  method PlanChains(g: Graph, modules: set<nat>, freshRun: bool) returns (chains: seq<seq<nat>>)
    requires Valid(g)
    ensures ChainsOk(g, chains) && (!freshRun ==> chains == [])
    ensures freshRun ==> forall c :: c in chains <==> IsWholeChain(g, c) && forall n | n in c :: n in modules
    ensures freshRun ==>
              forall u: nat, v: nat :: InSomeChain(chains, u, v) <==>
                exists c | IsWholeChain(g, c) :: PassesThrough(c, u, v) && forall n | n in c :: n in modules
  {
    if !freshRun { return []; }
    var detected := DetectLinearChains(g);
    ModuleChainsAre(g, detected, modules);
    chains := ModuleChains(detected, modules);
    hide *;
    forall u: nat, v: nat
      ensures InSomeChain(chains, u, v) <==> exists c | c in chains :: PassesThrough(c, u, v)
    {
      ChainsPass(chains, u, v);
    }
  }

  lemma ChainsPass(chains: seq<seq<nat>>, u: nat, v: nat)
    ensures InSomeChain(chains, u, v) <==> exists c | c in chains :: PassesThrough(c, u, v)
  {
    if InSomeChain(chains, u, v) {
      var k, j :| 0 <= k < |chains| && 0 <= j < |chains[k]| - 1 && chains[k][j] == u && chains[k][j + 1] == v;
      assert chains[k] in chains && PassesThrough(chains[k], u, v);
    }
    if c :| c in chains && PassesThrough(c, u, v) {
      var k :| 0 <= k < |chains| && chains[k] == c;
      var j :| 0 <= j < |c| - 1 && c[j] == u && c[j + 1] == v;
      assert chains[k][j] == u && chains[k][j + 1] == v;
    }
  }

  // ----- a link that no chain covers -----

  /** A link behind a join is on a detected chain exactly when the source of the newest edge into
      the join has no way out or several. */
  lemma LinkBehindJoinIsCoveredIff(g: Graph, u: nat, v: nat)
    requires Valid(g) && Link(g, u, v) && |InEdges(g, u)| >= 2
    ensures (exists s: nat :: IsStart(g, s) && Reaches(g, s, u))
            <==> forall m: nat | IsNewestInto(g, u, m) :: |OutEdges(g, g.edges[m].src)| != 1
  {
    var e: nat :| OutEdges(g, u) == {e} && InEdges(g, v) == {e};
    assert e in OutEdges(g, u) && LinkPath(g, [u]) && [u][0] == u && Reaches(g, u, u);
    forall s: nat | Reaches(g, s, u) ensures s == u { NothingLeadsTo(g, s, u); }
    assert IsStart(g, u) <==> forall m: nat | IsNewestInto(g, u, m) :: |OutEdges(g, g.edges[m].src)| != 1;
  }

  /** 0 -> 2, 1 -> 2, 2 -> 3. */
  const JOINED := Graph(4, [Edge(0, 2, false, None), Edge(1, 2, false, None), Edge(2, 3, false, None)])

  /** The link behind a join is missed when the parents of the join have no other way out: the
      detector takes such a join for the inside of some other chain. */
  lemma LinkBehindJoinIsMissed()
    ensures Valid(JOINED) && Link(JOINED, 2, 3)
    ensures !exists s: nat :: IsStart(JOINED, s) && Reaches(JOINED, s, 2)
    ensures !exists c: seq<nat> :: IsWholeChain(JOINED, c) && PassesThrough(c, 2, 3)
  {
    var g := JOINED;
    assert OutEdges(g, 2) == {2} && InEdges(g, 3) == {2} && InEdges(g, 2) == {0, 1} && OutEdges(g, 1) == {1};
    assert IsNewestInto(g, 2, 1);
    forall s: nat ensures !(IsStart(g, s) && Reaches(g, s, 2)) {
      if Reaches(g, s, 2) { NothingLeadsTo(g, s, 2); }
    }
    forall c | IsWholeChain(g, c) ensures !PassesThrough(c, 2, 3) {
      if PassesThrough(c, 2, 3) { ChainLeadsTo(g, c, 2, 3); }
    }
  }

  /** 0 -> 2, 0 -> 3, 1 -> 2, 2 -> 4; and the same edges with 1 -> 2 as the first of them. */
  const NEWEST_IS_1 :=
    Graph(5, [Edge(0, 2, false, None), Edge(0, 3, false, None), Edge(1, 2, false, None), Edge(2, 4, false, None)])
  const NEWEST_IS_0 :=
    Graph(5, [Edge(1, 2, false, None), Edge(0, 2, false, None), Edge(0, 3, false, None), Edge(2, 4, false, None)])

  /** The order in which edges were added decides: the join 2 heads the chain [2, 4] when the parent
      with two ways out was joined to it last, and no chain at all when the other parent was. */
  lemma InsertionOrderDecidesChains()
    ensures !IsStart(NEWEST_IS_1, 2) && forall c: seq<nat> | IsWholeChain(NEWEST_IS_1, c) :: !PassesThrough(c, 2, 4)
    ensures IsStart(NEWEST_IS_0, 2) && IsWholeChain(NEWEST_IS_0, [2, 4])
  {
    NewestIs1();
    NewestIs0();
  }

  lemma NewestIs1()
    ensures !IsStart(NEWEST_IS_1, 2) && forall c: seq<nat> | IsWholeChain(NEWEST_IS_1, c) :: !PassesThrough(c, 2, 4)
  {
    var g := NEWEST_IS_1;
    assert InEdges(g, 2) == {0, 2} && OutEdges(g, 1) == {2} && IsNewestInto(g, 2, 2);
    forall c | IsWholeChain(g, c) ensures !PassesThrough(c, 2, 4) {
      if PassesThrough(c, 2, 4) {
        ChainLeadsTo(g, c, 2, 4);
        NothingLeadsTo(g, c[0], 2);
      }
    }
  }

  lemma NewestIs0()
    ensures IsStart(NEWEST_IS_0, 2) && IsWholeChain(NEWEST_IS_0, [2, 4])
  {
    var g := NEWEST_IS_0;
    assert InEdges(g, 2) == {0, 1} && OutEdges(g, 0) == {1, 2} && |{1 as nat, 2}| == 2;
    assert OutEdges(g, 2) == {3} && InEdges(g, 4) == {3} && OutEdges(g, 4) == {};
    assert IsStart(g, 2) && Link(g, 2, 4);
    StartHasNoLink(g, 2);
    NoLinkOut(g, 4);
  }

  lemma NothingLeadsTo(g: Graph, s: nat, v: nat)
    requires |InEdges(g, v)| != 1 && Reaches(g, s, v)
    ensures s == v
  {
    var path :| LinkPath(g, path) && path[0] == s && path[|path| - 1] == v;
    if |path| > 1 { PathLink(g, path, |path| - 1); }
  }
}
