/** The synthetic trigger node and its wiring to the roots of a graph. */
module Triggers {
  import opened Graphs
  import opened SchedulerRuns

  /** Where the node labelled as the trigger is: nowhere, in the graph, or dropped by the node
      cap after its label was recorded. */
  datatype Placement = Absent | At(node: nat) | Dangling

  datatype Wiring = Wired(trigger: nat) | Unwired | Panicked

  /** The nodes below k without incoming edges, other than t. */
  function OtherRoots(g: Graph, t: Option<nat>, k: nat): seq<nat> {
    if k == 0 then []
    else OtherRoots(g, t, k - 1) + (if InEdges(g, k - 1) == {} && t != Some(k - 1) then [k - 1] else [])
  }

  function TriggerEdges(t: nat, roots: seq<nat>): seq<Edge> {
    if roots == [] then []
    else TriggerEdges(t, roots[..|roots| - 1]) + [Edge(t, roots[|roots| - 1], false, None)]
  }

  /** The graph with t wired to every other root. */
  function Wire(g: Graph, t: nat): Graph {
    Graph(g.size, g.edges + TriggerEdges(t, OtherRoots(g, Some(t), g.size)))
  }

  /** The graph with one more node. */
  function WithNode(g: Graph): Graph {
    Graph(g.size + 1, g.edges)
  }

  class Engine {
    const maxNodes: nat
    var graph: Graph
    var place: Placement

    constructor (maxNodes: nat)
      ensures this.maxNodes == maxNodes && graph == Graph(0, []) && place == Absent
    {
      this.maxNodes := maxNodes;
      graph := Graph(0, []);
      place := Absent;
    }

    method AddNode() returns (added: bool)
      modifies this`graph
      ensures added <==> old(graph).size < maxNodes
      ensures graph == if added then Graph(old(graph).size + 1, old(graph).edges) else old(graph)
    {
      if graph.size >= maxNodes { return false; }
      graph := Graph(graph.size + 1, graph.edges);
      added := true;
    }

    method AddEdge(e: Edge) returns (added: bool)
      modifies this`graph
      ensures added <==> e.src < old(graph).size && e.dst < old(graph).size
      ensures graph == if added then Graph(old(graph).size, old(graph).edges + [e]) else old(graph)
    {
      if e.src >= graph.size || e.dst >= graph.size { return false; }
      graph := Graph(graph.size, graph.edges + [e]);
      added := true;
    }

    /** Reuse the trigger, or add one and record its label whether or not the cap dropped it. */
    method PlaceTrigger()
      modifies this`graph, this`place
      ensures var room := old(place).Absent? && old(graph).size < maxNodes;
              && graph == (if room then WithNode(old(graph)) else old(graph))
              && place == (if room then At(old(graph).size) else if old(place).Absent? then Dangling else old(place))
    {
      if place.Absent? {
        var t := graph.size;
        var added := AddNode();
        place := if added then At(t) else Dangling;
      }
    }

    method CollectRoots(t: Option<nat>) returns (roots: seq<nat>)
      ensures roots == OtherRoots(graph, t, graph.size)
    {
      roots := [];
      for n := 0 to graph.size
        invariant roots == OtherRoots(graph, t, n)
      {
        if t != Some(n) && InEdges(graph, n) == {} { roots := roots + [n]; }
      }
    }

    method WireRoots(t: nat, roots: seq<nat>)
      requires Valid(graph) && t < graph.size && roots == OtherRoots(graph, Some(t), graph.size)
      modifies this`graph
      ensures graph == Wire(old(graph), t)
    {
      ghost var g := graph;
      OtherRootsAre(g, Some(t), g.size);
      assert forall i | 0 <= i < |roots| :: roots[i] in roots;
      for i := 0 to |roots|
        invariant graph == Graph(g.size, g.edges + TriggerEdges(t, roots[..i]))
      {
        assert roots[..i + 1][..i] == roots[..i];
        NotYetWired(g, t, roots, i);
        if !HasEdge(graph, t, roots[i]) {
          var _ := AddEdge(Edge(t, roots[i], false, None));
        }
      }
      assert roots[..|roots|] == roots;
    }

    /** With the trigger in the graph, or room for it, every other root is wired to it once.
        Without room the look-up of the missing node panics if there is any root to wire. */
    method EnsureTriggerNodeWiredToRoots() returns (wiring: Wiring)
      requires Valid(graph) && (place.At? ==> place.node < graph.size)
      modifies this`graph, this`place
      ensures var placed := old(place).At? || (old(place).Absent? && old(graph).size < maxNodes);
              if placed then
                var t := if old(place).At? then old(place).node else old(graph).size;
                && wiring == Wired(t) && place == At(t)
                && graph == Wire(if old(place).At? then old(graph) else WithNode(old(graph)), t)
              else
                && place == Dangling && graph == old(graph)
                && wiring == (if OtherRoots(old(graph), None, old(graph).size) == [] then Unwired else Panicked)
    {
      PlaceTrigger();
      var t := if place.At? then Some(place.node) else None;
      var roots := CollectRoots(t);
      if t.None? {
        return if roots == [] then Unwired else Panicked;
      }
      WireRoots(t.value, roots);
      wiring := Wired(t.value);
    }
  }

  // ----- small facts -----

  lemma {:induction false} OtherRootsAre(g: Graph, t: Option<nat>, k: nat)
    ensures forall n: nat :: n in OtherRoots(g, t, k) <==> n < k && InEdges(g, n) == {} && t != Some(n)
    ensures Distinct(OtherRoots(g, t, k)) && Ascending(OtherRoots(g, t, k))
  {
    if k > 0 {
      OtherRootsAre(g, t, k - 1);
      var below := OtherRoots(g, t, k - 1);
      assert forall i | 0 <= i < |below| :: below[i] in below;
    }
  }

  lemma {:induction false} TriggerEdgesAre(t: nat, roots: seq<nat>)
    ensures |TriggerEdges(t, roots)| == |roots|
    ensures forall i | 0 <= i < |roots| :: TriggerEdges(t, roots)[i] == Edge(t, roots[i], false, None)
  {
    if roots != [] { TriggerEdgesAre(t, roots[..|roots| - 1]); }
  }

  lemma NotYetWired(g: Graph, t: nat, roots: seq<nat>, i: nat)
    requires Valid(g) && i < |roots| && Distinct(roots) && InEdges(g, roots[i]) == {}
    ensures var edges := g.edges + TriggerEdges(t, roots[..i]);
            forall k | 0 <= k < |edges| :: edges[k].dst != roots[i]
  {
    TriggerEdgesAre(t, roots[..i]);
    forall k | 0 <= k < |g.edges| ensures g.edges[k].dst != roots[i] {
      assert k !in InEdges(g, roots[i]);
    }
  }

  // ----- what wiring achieves -----

  predicate HasEdge(g: Graph, u: nat, v: nat) {
    exists i | 0 <= i < |g.edges| :: g.edges[i].src == u && g.edges[i].dst == v
  }

  ghost predicate Path(g: Graph, path: seq<nat>) {
    path != [] && forall j | 0 <= j < |path| - 1 :: HasEdge(g, path[j], path[j + 1])
  }

  ghost predicate Reachable(g: Graph, from: nat, to: nat) {
    exists path :: Path(g, path) && path[0] == from && path[|path| - 1] == to
  }

  lemma PathFurther(g: Graph, path: seq<nat>, n: nat)
    requires Path(g, path) && HasEdge(g, path[|path| - 1], n)
    ensures Path(g, path + [n])
  {
    hide HasEdge;
    var further := path + [n];
    forall j | 0 <= j < |further| - 1 ensures HasEdge(g, further[j], further[j + 1]) {
      if j < |path| - 1 { assert HasEdge(g, path[j], path[j + 1]); }
    }
  }

  lemma ReachableFurther(g: Graph, from: nat, u: nat, v: nat)
    requires HasEdge(g, u, v) && Reachable(g, from, u)
    ensures Reachable(g, from, v)
  {
    hide HasEdge;
    var path :| Path(g, path) && path[0] == from && path[|path| - 1] == u;
    PathFurther(g, path, v);
    var further := path + [v];
    assert further[0] == from && further[|further| - 1] == v;
  }

  lemma ReachesItself(g: Graph, n: nat)
    ensures Reachable(g, n, n)
  {
    assert Path(g, [n]) && [n][0] == n && [n][|[n]| - 1] == n;
  }

  /** The wired graph keeps g's edges and adds plain ones from t to roots, one to each. */
  lemma WireAdds(g: Graph, t: nat)
    requires Valid(g) && t < g.size
    ensures g.edges <= Wire(g, t).edges && Wire(g, t).size == g.size
    ensures forall i | |g.edges| <= i < |Wire(g, t).edges| ::
              var e := Wire(g, t).edges[i];
              e.src == t && e.dst < g.size && e.dst != t && InEdges(g, e.dst) == {} && !e.isError && e.condition.None?
    ensures forall i, j | |g.edges| <= i < j < |Wire(g, t).edges| :: Wire(g, t).edges[i].dst < Wire(g, t).edges[j].dst
  {
    var roots := OtherRoots(g, Some(t), g.size);
    OtherRootsAre(g, Some(t), g.size);
    TriggerEdgesAre(t, roots);
    hide OtherRoots, TriggerEdges, InEdges;
    forall i | |g.edges| <= i < |Wire(g, t).edges|
      ensures Wire(g, t).edges[i] == Edge(t, roots[i - |g.edges|], false, None) && roots[i - |g.edges|] in roots
    {
    }
  }

  lemma WireReaches(g: Graph, t: nat, n: nat)
    requires Valid(g) && t < g.size && n < g.size && n != t && InEdges(g, n) == {}
    ensures HasEdge(Wire(g, t), t, n)
  {
    var roots := OtherRoots(g, Some(t), g.size);
    OtherRootsAre(g, Some(t), g.size);
    TriggerEdgesAre(t, roots);
    var k :| 0 <= k < |roots| && roots[k] == n;
    var w := Wire(g, t);
    assert w.edges[|g.edges| + k] == Edge(t, n, false, None);
  }

  lemma EveryOtherNodeIsFed(g: Graph, t: nat, n: nat)
    requires Valid(g) && t < g.size && n < g.size && n != t
    ensures InEdges(Wire(g, t), n) != {}
  {
    var w := Wire(g, t);
    if InEdges(g, n) == {} {
      WireReaches(g, t, n);
      var i :| 0 <= i < |w.edges| && w.edges[i].src == t && w.edges[i].dst == n;
      assert i in InEdges(w, n);
    } else {
      WireAdds(g, t);
      var i :| i in InEdges(g, n);
      assert w.edges[i] == g.edges[i];
      assert i in InEdges(w, n);
    }
  }

  lemma HasMember(s: seq<nat>)
    requires s != []
    ensures exists n: nat :: n in s
  {
    assert s[0] in s;
  }

  lemma NoMembers(s: seq<nat>)
    requires forall n: nat :: n !in s
    ensures s == []
  {
    if s != [] { HasMember(s); }
  }

  /** Wiring again adds nothing. */
  lemma WiringIsIdempotent(g: Graph, t: nat)
    requires Valid(g) && t < g.size
    ensures Wire(Wire(g, t), t) == Wire(g, t)
  {
    var w := Wire(g, t);
    forall n: nat | n < g.size && n != t ensures InEdges(w, n) != {} {
      EveryOtherNodeIsFed(g, t, n);
    }
    var again := OtherRoots(w, Some(t), w.size);
    OtherRootsAre(w, Some(t), w.size);
    NoMembers(again);
    assert w.edges + [] == w.edges;
  }

  /** Every node of an acyclic graph has a root at or above it. */
  lemma {:induction false} RootAbove(g: Graph, rank: seq<nat>, n: nat) returns (root: nat, path: seq<nat>)
    requires IsRank(g, rank) && n < g.size
    ensures root < g.size && InEdges(g, root) == {}
    ensures Path(g, path) && path[0] == root && path[|path| - 1] == n
    decreases rank[n]
  {
    if InEdges(g, n) == {} {
      root, path := n, [n];
    } else {
      var i :| i in InEdges(g, n);
      var above;
      root, above := RootAbove(g, rank, g.edges[i].src);
      path := above + [n];
      assert HasEdge(g, g.edges[i].src, n);
      PathFurther(g, above, n);
    }
  }

  /** A path within g climbs in every ranking of a graph that has g's edges. */
  lemma {:induction false} PathClimbs(g: Graph, w: Graph, rank: seq<nat>, path: seq<nat>)
    requires Path(g, path) && path[0] < w.size && IsRank(w, rank) && g.edges <= w.edges
    ensures path[|path| - 1] < w.size && rank[path[0]] <= rank[path[|path| - 1]]
    decreases |path|
  {
    if |path| > 1 {
      var j, before := |path| - 2, path[..|path| - 1];
      PathPrefix(g, path);
      PathClimbs(g, w, rank, before);
      EdgeClimbs(g, w, rank, path[j], path[j + 1]);
    }
  }

  lemma PathPrefix(g: Graph, path: seq<nat>)
    requires Path(g, path) && |path| > 1
    ensures Path(g, path[..|path| - 1]) && HasEdge(g, path[|path| - 2], path[|path| - 1])
  {
    hide HasEdge;
    var before := path[..|path| - 1];
    forall j | 0 <= j < |before| - 1 ensures HasEdge(g, before[j], before[j + 1]) {
      assert HasEdge(g, path[j], path[j + 1]);
    }
    assert HasEdge(g, path[|path| - 2], path[|path| - 2 + 1]);
  }

  lemma EdgeClimbs(g: Graph, w: Graph, rank: seq<nat>, u: nat, v: nat)
    requires HasEdge(g, u, v) && IsRank(w, rank) && g.edges <= w.edges
    ensures u < w.size && v < w.size && rank[u] < rank[v]
  {
    var i :| 0 <= i < |g.edges| && g.edges[i].src == u && g.edges[i].dst == v;
    assert w.edges[i] == g.edges[i];
  }

  lemma WiredRank(g: Graph, t: nat, rank: seq<nat>)
    requires Valid(g) && t < g.size && IsRank(g, rank) && InEdges(g, t) == {}
    ensures IsRank(Wire(g, t), seq(g.size, n requires 0 <= n < g.size => if n == t then 0 else rank[n] + 1))
  {
    WireAdds(g, t);
    NothingInto(g, t);
  }

  lemma NothingInto(g: Graph, t: nat)
    requires InEdges(g, t) == {}
    ensures forall i | 0 <= i < |g.edges| :: g.edges[i].dst != t
  {
    forall i | 0 <= i < |g.edges| ensures g.edges[i].dst != t {
      assert i !in InEdges(g, t);
    }
  }

  /** If something leads into the trigger, some root does, and wiring closes a cycle. */
  lemma FedTriggerHasNoRank(g: Graph, t: nat, rank: seq<nat>, rank': seq<nat>)
    requires Valid(g) && t < g.size && IsRank(g, rank) && InEdges(g, t) != {}
    ensures !IsRank(Wire(g, t), rank')
  {
    var w := Wire(g, t);
    var root, path := RootAbove(g, rank, t);
    WireAdds(g, t);
    WireReaches(g, t, root);
    hide Wire, HasEdge, Path;
    if IsRank(w, rank') {
      EdgeClimbs(w, w, rank', t, root);
      PathClimbs(g, w, rank', path);
    }
  }

  /** Wiring keeps a graph acyclic exactly when nothing leads into the trigger. */
  lemma WiringKeepsAcyclicIff(g: Graph, t: nat)
    requires Valid(g) && t < g.size && Acyclic(g)
    ensures Acyclic(Wire(g, t)) <==> InEdges(g, t) == {}
  {
    var rank :| IsRank(g, rank);
    if InEdges(g, t) == {} {
      WiredRank(g, t, rank);
    } else {
      forall rank' ensures !IsRank(Wire(g, t), rank') {
        FedTriggerHasNoRank(g, t, rank, rank');
      }
    }
  }

  /** On an acyclic graph into whose trigger nothing leads, the trigger is the only root, it
      reaches every node, and it is a seed the run can be resumed from. */
  lemma TriggerReachesAll(g: Graph, t: nat, n: nat)
    requires Valid(g) && t < g.size && Acyclic(g) && InEdges(g, t) == {} && n < g.size
    ensures Reachable(Wire(g, t), t, n)
    ensures InEdges(Wire(g, t), n) == {} <==> n == t
    ensures PredecessorClosed(Wire(g, t), {t})
  {
    var rank :| IsRank(g, rank);
    WiredRank(g, t, rank);
    WireAdds(g, t);
    NothingInto(g, t);
    var w := Wire(g, t);
    forall m: nat | m < g.size && m != t ensures InEdges(w, m) != {} {
      EveryOtherNodeIsFed(g, t, m);
    }
    assert forall i | 0 <= i < |w.edges| :: w.edges[i].dst != t;
    hide Wire, IsRank, Acyclic;
    Reaches(w, t, seq(g.size, n requires 0 <= n < g.size => if n == t then 0 else rank[n] + 1), n);
  }

  lemma {:induction false} Reaches(w: Graph, t: nat, rank: seq<nat>, n: nat)
    requires IsRank(w, rank) && t < w.size && n < w.size
    requires forall m: nat | m < w.size && m != t :: InEdges(w, m) != {}
    ensures Reachable(w, t, n)
    decreases rank[n]
  {
    hide Reachable;
    if n == t {
      ReachesItself(w, n);
    } else {
      var i :| i in InEdges(w, n);
      Reaches(w, t, rank, w.edges[i].src);
      assert HasEdge(w, w.edges[i].src, n);
      ReachableFurther(w, t, w.edges[i].src, n);
    }
  }

  /** A new node is a trigger into which nothing leads, and leaves an acyclic graph acyclic. */
  lemma NewTriggerIsFree(g: Graph)
    requires Valid(g) && Acyclic(g)
    ensures Valid(WithNode(g)) && Acyclic(WithNode(g))
    ensures InEdges(WithNode(g), g.size) == {}
  {
    var rank :| IsRank(g, rank);
    assert IsRank(WithNode(g), rank + [0]);
  }
}
