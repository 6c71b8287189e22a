/** The graph representation shared by the three star families: an
    adjacency dictionary from vertex to the list of its neighbours (in the
    order the edges were added) and a dictionary from ordered vertex pairs to
    edge weights. `add_edge(u, v, w)` is the same in all three programs; the
    builders are loops that call it once per edge, and the state after each
    call is given here by a recursive function with one `Link` (or `PutBoth`)
    per level, so that a builder's loop invariant can name it. */
module Adjacency {

  type AdjList = map<int, seq<int>>
  type WeightMap = map<(int, int), int>
  type Edge = (int, int)

  /** `{i: [] for i in range(order)}`. */
  function EmptyAdj(order: int): (adj: AdjList)
    ensures forall v :: v in adj <==> 0 <= v < order
    ensures forall v :: v in adj ==> adj[v] == []
    decreases order
  {
    if order <= 0 then map[] else EmptyAdj(order - 1)[order - 1 := []]
  }

  /** `v` appears in the neighbour list of `u`. */
  predicate Adjacent(adj: AdjList, u: int, v: int) {
    u in adj && v in adj[u]
  }

  /** `adj_list[u].append(v); adj_list[v].append(u)`. */
  function Link(adj: AdjList, u: int, v: int): (r: AdjList)
    requires u in adj && v in adj
    ensures r.Keys == adj.Keys
  {
    var a := adj[u := adj[u] + [v]];
    a[v := a[v] + [u]]
  }

  /** `Link` appends each end to the other's list (a loop appends `u` to its
      own list twice) and leaves every other list as it was. */
  lemma LinkLists(adj: AdjList, u: int, v: int)
    requires u in adj && v in adj
    ensures u != v ==> Link(adj, u, v)[u] == adj[u] + [v] && Link(adj, u, v)[v] == adj[v] + [u]
    ensures u == v ==> Link(adj, u, v)[u] == adj[u] + [u, u]
    ensures forall x :: x in adj && x != u && x != v ==> Link(adj, u, v)[x] == adj[x]
  {
  }

  /** After `Link`, `a` and `b` are neighbours exactly when they were before
      or they are the two ends of the new edge. */
  lemma LinkAdjacent(adj: AdjList, u: int, v: int, a: int, b: int)
    requires u in adj && v in adj
    ensures Adjacent(Link(adj, u, v), a, b) <==> Adjacent(adj, a, b) || (a, b) == (u, v) || (a, b) == (v, u)
  {
  }

  /** `edge_weights[(u, v)] = x; edge_weights[(v, u)] = x`. */
  function PutBoth(w: WeightMap, u: int, v: int, x: int): (r: WeightMap)
    ensures (u, v) in r && (v, u) in r && r[(u, v)] == x && r[(v, u)] == x
  {
    w[(u, v) := x][(v, u) := x]
  }

  /** After `PutBoth`, `(a, b)` has an entry exactly when it had one before
      or it is a direction of the new edge; the new edge weighs `x` both
      ways and every other entry is unchanged. */
  lemma PutBothEntry(w: WeightMap, u: int, v: int, x: int, a: int, b: int)
    ensures (a, b) in PutBoth(w, u, v, x) <==> (a, b) in w || (a, b) == (u, v) || (a, b) == (v, u)
    ensures (a, b) == (u, v) || (a, b) == (v, u) ==> PutBoth(w, u, v, x)[(a, b)] == x
    ensures (a, b) in w && (a, b) != (u, v) && (a, b) != (v, u) ==> PutBoth(w, u, v, x)[(a, b)] == w[(a, b)]
  {
  }

  /** When the adjacency lists and a weight dictionary record the same pairs,
      adding one edge to both keeps them in step. */
  lemma LinkPutBoth(adj: AdjList, w: WeightMap, x: int, y: int, z: int, u: int, v: int)
    requires x in adj && y in adj
    requires Adjacent(adj, u, v) <==> (u, v) in w
    ensures Adjacent(Link(adj, x, y), u, v) <==> (u, v) in PutBoth(w, x, y, z)
  {
    LinkAdjacent(adj, x, y, u, v);
    PutBothEntry(w, x, y, z, u, v);
  }

  // ---------------------------------------------------------------------------
  // The amalgamated-star builder: center 0, branches 1..n, and L leaves per
  // branch numbered consecutively from n + 1, so n + n * L + 1 vertices.

  /** The vertex number of leaf `j` (1-based) of branch `b`. */
  function StarLeaf(n: int, L: int, b: int, j: int): int {
    n + (b - 1) * L + j
  }

  /** Leaf `j` of branch `b` lies after the branches and before the end. */
  lemma StarLeafRange(n: nat, L: nat, b: int, j: int)
    requires 1 <= b <= n && 1 <= j <= L
    ensures n < StarLeaf(n, L, b, j) <= n + n * L
  {
    assert (b - 1) * L + j <= (b - 1) * L + L == b * L;
    assert b * L <= n * L;
  }

  /** Leaves of one branch are numbered consecutively. */
  lemma StarLeafSucc(n: int, L: int, b: int, j: int)
    ensures StarLeaf(n, L, b, j + 1) == StarLeaf(n, L, b, j) + 1
  {
  }

  /** The leaf after the last leaf of branch `b` is the first of `b + 1`. */
  lemma StarLeafNext(n: int, L: int, b: int)
    ensures StarLeaf(n, L, b, L) == StarLeaf(n, L, b + 1, 0)
  {
    assert (b - 1) * L + L == b * L;
  }

  /** `u`–`v` is an edge the builder adds while handling branches `1..i`:
      a center–branch edge, or a branch–leaf edge to one of the branch's own
      leaves. */
  predicate IsStarEdge(n: int, L: int, i: int, u: int, v: int) {
    || (u == 0 && 1 <= v <= i)
    || (1 <= u <= i && StarLeaf(n, L, u, 1) <= v <= StarLeaf(n, L, u, L))
  }

  /** The adjacency lists once the builder has handled branches `1..i`:
      for each branch, `add_edge(0, b)` and then `add_edge(b, leaf)` for
      each of its `L` leaves. */
  function StarAdj(n: nat, L: nat, i: nat): (adj: AdjList)
    requires i <= n
    ensures forall v :: v in adj <==> 0 <= v <= n + n * L
    decreases i, L + 1
  {
    if i == 0 then EmptyAdj(n + n * L + 1) else LeafAdj(n, L, i, L)
  }

  /** The adjacency lists once the builder has handled branches `1..i-1`,
      the center edge of branch `i` and its first `j` leaves. */
  function LeafAdj(n: nat, L: nat, i: nat, j: nat): (adj: AdjList)
    requires 1 <= i <= n && j <= L
    ensures forall v :: v in adj <==> 0 <= v <= n + n * L
    decreases i, j
  {
    if j == 0 then Link(StarAdj(n, L, i - 1), 0, i)
    else
      StarLeafRange(n, L, i, j);
      Link(LeafAdj(n, L, i, j - 1), i, StarLeaf(n, L, i, j))
  }

  /** The weight dictionary alongside `StarAdj`: every added edge stores 0
      in both directions. */
  function StarWeights(n: nat, L: nat, i: nat): WeightMap
    requires i <= n
    decreases i, L + 1
  {
    if i == 0 then map[] else LeafWeights(n, L, i, L)
  }

  function LeafWeights(n: nat, L: nat, i: nat, j: nat): WeightMap
    requires 1 <= i <= n && j <= L
    decreases i, j
  {
    if j == 0 then PutBoth(StarWeights(n, L, i - 1), 0, i, 0)
    else PutBoth(LeafWeights(n, L, i, j - 1), i, StarLeaf(n, L, i, j), 0)
  }

  /** After the builder: two vertices are neighbours exactly when one is the
      center and the other a branch, or one is a branch and the other one of
      its own leaves. */
  lemma StarAdjacent(n: nat, L: nat, i: nat)
    requires i <= n
    ensures forall u, v :: Adjacent(StarAdj(n, L, i), u, v) <==> IsStarEdge(n, L, i, u, v) || IsStarEdge(n, L, i, v, u)
  {
    forall u, v
      ensures Adjacent(StarAdj(n, L, i), u, v) <==> IsStarEdge(n, L, i, u, v) || IsStarEdge(n, L, i, v, u)
    {
      StarSameEdges(n, L, i, u, v);
      StarWeightEntry(n, L, i, u, v);
    }
  }

  /** The builder links `u` and `v` exactly when it stores a weight for
      `(u, v)`. */
  lemma {:induction false} StarSameEdges(n: nat, L: nat, i: nat, u: int, v: int)
    requires i <= n
    ensures Adjacent(StarAdj(n, L, i), u, v) <==> (u, v) in StarWeights(n, L, i)
    decreases i, L + 1
  {
    if i > 0 {
      LeafSameEdges(n, L, i, L, u, v);
    }
  }

  lemma {:induction false} LeafSameEdges(n: nat, L: nat, i: nat, j: nat, u: int, v: int)
    requires 1 <= i <= n && j <= L
    ensures Adjacent(LeafAdj(n, L, i, j), u, v) <==> (u, v) in LeafWeights(n, L, i, j)
    decreases i, j
  {
    if j == 0 {
      StarSameEdges(n, L, i - 1, u, v);
      LinkPutBoth(StarAdj(n, L, i - 1), StarWeights(n, L, i - 1), 0, i, 0, u, v);
    } else {
      StarLeafRange(n, L, i, j);
      LeafSameEdges(n, L, i, j - 1, u, v);
      LinkPutBoth(LeafAdj(n, L, i, j - 1), LeafWeights(n, L, i, j - 1), i, StarLeaf(n, L, i, j), 0, u, v);
    }
  }

  /** After the builder the weight dictionary holds both directions of every
      built edge, and nothing else. */
  lemma StarWeightEntries(n: nat, L: nat, i: nat)
    requires i <= n
    ensures forall u, v :: (u, v) in StarWeights(n, L, i) <==> IsStarEdge(n, L, i, u, v) || IsStarEdge(n, L, i, v, u)
  {
    forall u, v
      ensures (u, v) in StarWeights(n, L, i) <==> IsStarEdge(n, L, i, u, v) || IsStarEdge(n, L, i, v, u)
    {
      StarWeightEntry(n, L, i, u, v);
    }
  }

  /** `StarWeightEntries` for one pair, by induction over the edges in the
      order the builder adds them. */
  lemma {:induction false} StarWeightEntry(n: nat, L: nat, i: nat, u: int, v: int)
    requires i <= n
    ensures (u, v) in StarWeights(n, L, i) <==> IsStarEdge(n, L, i, u, v) || IsStarEdge(n, L, i, v, u)
    decreases i, L + 1
  {
    if i > 0 {
      LeafWeightEntry(n, L, i, L, u, v);
    }
  }

  lemma {:induction false} LeafWeightEntry(n: nat, L: nat, i: nat, j: nat, u: int, v: int)
    requires 1 <= i <= n && j <= L
    ensures (u, v) in LeafWeights(n, L, i, j) <==>
      || IsStarEdge(n, L, i - 1, u, v) || IsStarEdge(n, L, i - 1, v, u)
      || (u, v) == (0, i) || (u, v) == (i, 0)
      || (u == i && StarLeaf(n, L, i, 1) <= v <= StarLeaf(n, L, i, j))
      || (v == i && StarLeaf(n, L, i, 1) <= u <= StarLeaf(n, L, i, j))
    decreases i, j
  {
    if j == 0 {
      StarWeightEntry(n, L, i - 1, u, v);
      PutBothEntry(StarWeights(n, L, i - 1), 0, i, 0, u, v);
    } else {
      LeafWeightEntry(n, L, i, j - 1, u, v);
      PutBothEntry(LeafWeights(n, L, i, j - 1), i, StarLeaf(n, L, i, j), 0, u, v);
    }
  }

  /** Every weight the builder stores is 0. */
  lemma {:induction false} StarWeightsZero(n: nat, L: nat, i: nat)
    requires i <= n
    ensures forall u, v :: (u, v) in StarWeights(n, L, i) ==> StarWeights(n, L, i)[(u, v)] == 0
    decreases i, L + 1
  {
    if i > 0 {
      LeafWeightsZero(n, L, i, L);
    }
  }

  lemma {:induction false} LeafWeightsZero(n: nat, L: nat, i: nat, j: nat)
    requires 1 <= i <= n && j <= L
    ensures forall u, v :: (u, v) in LeafWeights(n, L, i, j) ==> LeafWeights(n, L, i, j)[(u, v)] == 0
    decreases i, j
  {
    if j == 0 {
      StarWeightsZero(n, L, i - 1);
      forall u, v {
        PutBothEntry(StarWeights(n, L, i - 1), 0, i, 0, u, v);
      }
    } else {
      LeafWeightsZero(n, L, i, j - 1);
      forall u, v {
        PutBothEntry(LeafWeights(n, L, i, j - 1), i, StarLeaf(n, L, i, j), 0, u, v);
      }
    }
  }

  /** An edge between two different vertices adds one entry to each end's
      list and none to any other. */
  lemma LinkDegree(adj: AdjList, u: int, v: int, x: int)
    requires u in adj && v in adj && x in adj && u != v
    ensures |Link(adj, u, v)[x]| == |adj[x]| + (if x == u || x == v then 1 else 0)
  {
    LinkLists(adj, u, v);
  }

  /** How many entries each list holds once the builder has handled branches
      `1..i`: one per branch in the center's, the center and `L` leaves in a
      handled branch's, and one in a handled leaf's. Nothing is listed twice. */
  lemma {:induction false} StarDegrees(n: nat, L: nat, i: nat, v: int)
    requires i <= n && 0 <= v <= n + n * L
    ensures v == 0 ==> |StarAdj(n, L, i)[v]| == i
    ensures 1 <= v <= n ==> |StarAdj(n, L, i)[v]| == if v <= i then 1 + L else 0
    ensures n < v ==> |StarAdj(n, L, i)[v]| == if v <= StarLeaf(n, L, i, L) then 1 else 0
    decreases i, L + 1
  {
    if i > 0 {
      LeafDegrees(n, L, i, L, v);
    }
  }

  /** The same as `StarDegrees`, part way through the leaves of branch `i`. */
  lemma {:induction false} LeafDegrees(n: nat, L: nat, i: nat, j: nat, v: int)
    requires 1 <= i <= n && j <= L && 0 <= v <= n + n * L
    ensures v == 0 ==> |LeafAdj(n, L, i, j)[v]| == i
    ensures 1 <= v <= n ==> |LeafAdj(n, L, i, j)[v]| == if v < i then 1 + L else if v == i then 1 + j else 0
    ensures n < v ==> |LeafAdj(n, L, i, j)[v]| == if v <= StarLeaf(n, L, i, j) then 1 else 0
    decreases i, j
  {
    if j == 0 {
      StarDegrees(n, L, i - 1, v);
      StarLeafNext(n, L, i - 1);
      LinkDegree(StarAdj(n, L, i - 1), 0, i, v);
    } else {
      StarLeafRange(n, L, i, j);
      StarLeafSucc(n, L, i, j - 1);
      LeafDegrees(n, L, i, j - 1, v);
      LinkDegree(LeafAdj(n, L, i, j - 1), i, StarLeaf(n, L, i, j), v);
    }
  }

  /** After the builder the center lists the `n` branches, each branch the
      center and its `L` leaves, and each leaf its branch. */
  lemma BuiltStarDegrees(n: nat, L: nat, v: int)
    requires 0 <= v <= n + n * L
    ensures |StarAdj(n, L, n)[v]| == if v == 0 then n else if v <= n then 1 + L else 1
  {
    StarDegrees(n, L, n, v);
    assert StarLeaf(n, L, n, L) == n + n * L;
  }
}
