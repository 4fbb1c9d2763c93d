/** The workflow graph: a directed multigraph whose edges keep their insertion order. */
module Graphs {

  datatype Option<+T> = None | Some(value: T)

  predicate Distinct<T(==)>(s: seq<T>) {
    forall i, j | 0 <= i < j < |s| :: s[i] != s[j]
  }

  predicate Ascending(s: seq<nat>) {
    forall i, j | 0 <= i < j < |s| :: s[i] < s[j]
  }

  predicate Descending(s: seq<nat>) {
    forall i, j | 0 <= i < j < |s| :: s[i] > s[j]
  }

  /** An edge with the two attributes the scheduler reads: whether its type is "error",
      and its optional condition expression. */
  datatype Edge = Edge(src: nat, dst: nat, isError: bool, condition: Option<string>)

  datatype Graph = Graph(size: nat, edges: seq<Edge>)

  // Node and edge indices are 32 bits wide in the graph library the engine uses.
  const MAX_EDGES := 0x1_0000_0000

  ghost predicate Valid(g: Graph) {
    && |g.edges| < MAX_EDGES
    && forall i | 0 <= i < |g.edges| :: g.edges[i].src < g.size && g.edges[i].dst < g.size
  }

  function OutEdges(g: Graph, u: nat): set<nat> {
    set i: nat | i < |g.edges| && g.edges[i].src == u
  }

  function InEdges(g: Graph, v: nat): set<nat> {
    set i: nat | i < |g.edges| && g.edges[i].dst == v
  }

  /** Edge i leads from u to c. */
  predicate Joins(g: Graph, i: nat, u: nat, c: nat) {
    i < |g.edges| && g.edges[i].src == u && g.edges[i].dst == c
  }

  /** Some edge from u to v has type "error" (`edges_connecting(u, v).any(..)`). */
  predicate ErrorBetween(g: Graph, u: nat, v: nat) {
    exists i | 0 <= i < |g.edges| :: g.edges[i].src == u && g.edges[i].dst == v && g.edges[i].isError
  }

  /** The edge `find_edge(u, v)` returns, looking only below index k, has type "error".
      Adjacency lists put the newest edge first, so the newest one decides. */
  predicate FindsErrorEdge(g: Graph, u: nat, v: nat, k: nat)
    requires k <= |g.edges|
  {
    if k == 0 then false
    else if g.edges[k - 1].src == u && g.edges[k - 1].dst == v then g.edges[k - 1].isError
    else FindsErrorEdge(g, u, v, k - 1)
  }

  /** A failure of u is handed to error handlers: some successor is found through an error edge. */
  predicate RoutesErrors(g: Graph, u: nat) {
    exists i | 0 <= i < |g.edges| :: g.edges[i].src == u && FindsErrorEdge(g, u, g.edges[i].dst, |g.edges|)
  }

  /** An edge that is the only way out of u and the only way into v. */
  ghost predicate Link(g: Graph, u: nat, v: nat) {
    exists i: nat :: OutEdges(g, u) == {i} && InEdges(g, v) == {i}
  }

  // ----- acyclicity -----

  /** `rank` is a topological numbering. */
  ghost predicate IsRank(g: Graph, rank: seq<nat>) {
    && |rank| == g.size
    && forall i | 0 <= i < |g.edges| ::
         g.edges[i].src < g.size && g.edges[i].dst < g.size && rank[g.edges[i].src] < rank[g.edges[i].dst]
  }

  ghost predicate Acyclic(g: Graph) {
    exists rank :: IsRank(g, rank)
  }

  predicate NoConditions(g: Graph) {
    forall i | 0 <= i < |g.edges| :: g.edges[i].condition.None?
  }

  predicate NoErrorEdges(g: Graph) {
    forall i | 0 <= i < |g.edges| :: !g.edges[i].isError
  }

  lemma RoutedOnlyThroughErrorEdges(g: Graph, u: nat, v: nat, k: nat)
    requires k <= |g.edges| && FindsErrorEdge(g, u, v, k)
    ensures ErrorBetween(g, u, v)
  {
  }

  lemma NoRoutes(g: Graph, u: nat)
    requires NoErrorEdges(g)
    ensures !RoutesErrors(g, u)
  {
    if RoutesErrors(g, u) {
      var i :| 0 <= i < |g.edges| && g.edges[i].src == u && FindsErrorEdge(g, u, g.edges[i].dst, |g.edges|);
      RoutedOnlyThroughErrorEdges(g, u, g.edges[i].dst, |g.edges|);
    }
  }

  // ----- which failures are routed -----

  /** No later edge joins the two nodes that edge i joins. */
  ghost predicate IsNewest(g: Graph, i: nat)
    requires i < |g.edges|
  {
    forall j | i < j < |g.edges| :: !(g.edges[j].src == g.edges[i].src && g.edges[j].dst == g.edges[i].dst)
  }

  /** The newest edge to some successor of u has type "error". */
  ghost predicate HasErrorRoute(g: Graph, u: nat) {
    exists i | 0 <= i < |g.edges| :: g.edges[i].src == u && g.edges[i].isError && IsNewest(g, i)
  }

  lemma {:induction false} FoundIsNewest(g: Graph, u: nat, v: nat, k: nat)
    requires k <= |g.edges|
    requires forall j | k <= j < |g.edges| :: !(g.edges[j].src == u && g.edges[j].dst == v)
    ensures FindsErrorEdge(g, u, v, k)
            <==> exists i | 0 <= i < |g.edges| ::
                   g.edges[i].src == u && g.edges[i].dst == v && g.edges[i].isError && IsNewest(g, i)
    decreases k
  {
    if k > 0 {
      if g.edges[k - 1].src == u && g.edges[k - 1].dst == v {
        assert IsNewest(g, k - 1);
      } else {
        FoundIsNewest(g, u, v, k - 1);
      }
    }
  }

  /** A failure of u is routed exactly when the newest edge to some successor of u is an error
      edge, whatever other ways out u has. */
  lemma RoutesErrorsIff(g: Graph, u: nat)
    ensures RoutesErrors(g, u) <==> HasErrorRoute(g, u)
  {
    forall v { FoundIsNewest(g, u, v, |g.edges|); }
    hide FindsErrorEdge, IsNewest;
    if HasErrorRoute(g, u) {
      var i :| 0 <= i < |g.edges| && g.edges[i].src == u && g.edges[i].isError && IsNewest(g, i);
      assert FindsErrorEdge(g, u, g.edges[i].dst, |g.edges|);
    }
  }

  // ----- sizes -----

  lemma SubsetSize<T>(a: set<T>, b: set<T>)
    requires a <= b
    ensures |a| <= |b|
  {
    assert b == a + (b - a);
  }

  lemma {:induction false} BelowSize(a: set<nat>, n: nat)
    requires forall x | x in a :: x < n
    ensures |a| <= n
  {
    if n == 0 {
      assert a == {};
    } else {
      BelowSize(a - {n - 1}, n - 1);
      assert a <= (a - {n - 1}) + {n - 1};
    }
  }

  lemma InEdgesFit(g: Graph, v: nat)
    requires Valid(g)
    ensures |InEdges(g, v)| < MAX_EDGES
  {
    BelowSize(InEdges(g, v), |g.edges|);
  }
}
