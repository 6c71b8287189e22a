/** The homogeneous amalgamated star S(n, 3) of `problem1_Ashna.py`: center 0,
    branches 1..n and two leaves per branch (`n + 2(i-1) + 1` and
    `n + 2(i-1) + 2`), labelled by a closed form that depends on `n % 4` and
    on `c = ceil(n / 4)`. Under these labels the 3n edge weights are pairwise
    distinct and lie in 2 .. 3n + 1, the largest being 3n + 1, so the
    weighting is edge-irregular and the uniqueness check reports it so. */
module HomogeneousStar {
  import opened Sets
  import opened Adjacency
  import opened EdgeWeights

  class Graph {
    const n: int
    const m: int
    const k: int
    const order: int
    var adj: AdjList
    var edgeWeights: WeightMap
    /** A vertex without a key has the label `None`. */
    var vertexLabels: map<int, int>

    constructor (n: int, m: int, k: int, order: int)
      ensures this.n == n && this.m == m && this.k == k && this.order == order
      ensures adj == EmptyAdj(order) && edgeWeights == map[] && vertexLabels == map[]
    {
      this.n := n;
      this.m := m;
      this.k := k;
      this.order := order;
      adj := EmptyAdj(order);
      edgeWeights := map[];
      vertexLabels := map[];
    }

    /** Appends each end to the other's neighbour list and stores `weight`
        under both directions. */
    method AddEdge(u: int, v: int, weight: int)
      requires u in adj && v in adj
      modifies this
      ensures adj == Link(old(adj), u, v)
      ensures edgeWeights == PutBoth(old(edgeWeights), u, v, weight)
      ensures vertexLabels == old(vertexLabels)
    {
      adj := Link(adj, u, v);
      edgeWeights := PutBoth(edgeWeights, u, v, weight);
    }

    /** `vertex_k_labeling`: labels vertices `0..3n` by the closed form
        `Label` and keeps the labels of other vertices. With `n < 1` the
        source fails on an unbound vertex cursor. */
    method VertexKLabeling() returns (labels: map<int, int>)
      requires n >= 1
      modifies this
      ensures adj == old(adj) && edgeWeights == old(edgeWeights)
      ensures labels == vertexLabels
      ensures forall v :: v in vertexLabels <==> v in old(vertexLabels) || 0 <= v <= 3 * n
      ensures forall v :: 0 <= v <= 3 * n ==> vertexLabels[v] == Label(n, v)
      ensures forall v :: v in old(vertexLabels) && !(0 <= v <= 3 * n) ==> vertexLabels[v] == old(vertexLabels)[v]
    {
      labels := LabelVertices(n, vertexLabels);
      vertexLabels := labels;
    }

    /** `calculate_edge_weights`: every adjacency pair gets the sum of its
        end labels, in both directions, over the weights already stored. A
        vertex without a label makes the source fail on `None + int`. */
    method CalculateEdgeWeights() returns (weights: WeightMap)
      requires Labelled(adj, vertexLabels)
      modifies this
      ensures adj == old(adj) && vertexLabels == old(vertexLabels)
      ensures weights == edgeWeights
      ensures edgeWeights == Derived(old(edgeWeights), adj, vertexLabels)
    {
      edgeWeights := DeriveWeights(adj, vertexLabels, edgeWeights);
      weights := edgeWeights;
    }

    /** `verify_unique_edge_values`: the count comparison and the maximum,
        taken over the graph's own weights; the argument is not used. */
    function VerifyUniqueEdgeValues(edgeLabels: WeightMap): (r: Report)
      reads this
      ensures r.NoEdges? <==> edgeWeights == map[]
      ensures r.Report? ==> IsMax(r.maxWeight, edgeWeights.Values)
      ensures r.Report? && Symmetric(edgeWeights) && Loopless(edgeWeights) ==> (r.allUnique <==> EdgeIrregular(edgeWeights))
    {
      UniqueCheckWhenSimple(edgeWeights);
      Verify(edgeWeights)
    }
  }

  // ---------------------------------------------------------------------------
  // The edge-building loop of `main`.

  /** For each branch `i`, `add_edge(0, i, 0)` and then `add_edge(i, leaf, 0)`
      for its `m` leaves, numbered on from `n` by a running counter. */
  method AddStarEdges(g: Graph)
    requires g.n >= 0 && g.m >= 0
    requires g.adj == EmptyAdj(g.m * g.n + g.n + 1) && g.edgeWeights == map[]
    modifies g
    ensures g.adj == StarAdj(g.n, g.m, g.n) && g.edgeWeights == StarWeights(g.n, g.m, g.n)
    ensures g.vertexLabels == old(g.vertexLabels)
  {
    var outerVerts := g.n;
    for i := 1 to g.n + 1
      invariant g.adj == StarAdj(g.n, g.m, i - 1) && g.edgeWeights == StarWeights(g.n, g.m, i - 1)
      invariant outerVerts == StarLeaf(g.n, g.m, i, 0)
      invariant g.vertexLabels == old(g.vertexLabels)
    {
      outerVerts := AddBranch(g, i, outerVerts);
    }
  }

  /** One pass of the outer loop: the center edge of branch `i` and then the
      edges to its `m` leaves. */
  method AddBranch(g: Graph, i: nat, start: int) returns (outerVerts: int)
    requires g.m >= 0 && 1 <= i <= g.n && start == StarLeaf(g.n, g.m, i, 0)
    requires g.adj == StarAdj(g.n, g.m, i - 1) && g.edgeWeights == StarWeights(g.n, g.m, i - 1)
    modifies g
    ensures g.adj == StarAdj(g.n, g.m, i) && g.edgeWeights == StarWeights(g.n, g.m, i)
    ensures outerVerts == StarLeaf(g.n, g.m, i + 1, 0)
    ensures g.vertexLabels == old(g.vertexLabels)
  {
    outerVerts := start;
    AddCenterEdge(g, i);
    for j := 0 to g.m
      invariant g.adj == LeafAdj(g.n, g.m, i, j) && g.edgeWeights == LeafWeights(g.n, g.m, i, j)
      invariant outerVerts == StarLeaf(g.n, g.m, i, j)
      invariant g.vertexLabels == old(g.vertexLabels)
    {
      StarLeafSucc(g.n, g.m, i, j);
      outerVerts := outerVerts + 1;
      AddLeafEdge(g, i, j, outerVerts);
    }
    StarLeafNext(g.n, g.m, i);
  }

  /** `add_edge(0, i, 0)`, the center edge of branch `i`. */
  method AddCenterEdge(g: Graph, i: nat)
    requires g.m >= 0 && 1 <= i <= g.n
    requires g.adj == StarAdj(g.n, g.m, i - 1) && g.edgeWeights == StarWeights(g.n, g.m, i - 1)
    modifies g
    ensures g.adj == LeafAdj(g.n, g.m, i, 0) && g.edgeWeights == LeafWeights(g.n, g.m, i, 0)
    ensures g.vertexLabels == old(g.vertexLabels)
  {
    g.AddEdge(0, i, 0);
  }

  /** `add_edge(i, leaf, 0)` for the leaf after the first `j` of branch `i`. */
  method AddLeafEdge(g: Graph, i: nat, j: nat, leaf: int)
    requires g.m >= 0 && 1 <= i <= g.n && j < g.m && leaf == StarLeaf(g.n, g.m, i, j + 1)
    requires g.adj == LeafAdj(g.n, g.m, i, j) && g.edgeWeights == LeafWeights(g.n, g.m, i, j)
    modifies g
    ensures g.adj == LeafAdj(g.n, g.m, i, j + 1) && g.edgeWeights == LeafWeights(g.n, g.m, i, j + 1)
    ensures g.vertexLabels == old(g.vertexLabels)
  {
    StarLeafRange(g.n, g.m, i, j + 1);
    g.AddEdge(i, leaf, 0);
  }

  // ---------------------------------------------------------------------------
  // The closed-form labels.

  /** The center, then the `n` branches, then the `2n` leaves `n + 1 .. 3n`
      in branch order through a vertex cursor: `vertex_k_labeling` over the
      label dictionary `init`. */
  method LabelVertices(n: int, init: map<int, int>) returns (labels: map<int, int>)
    requires n >= 1
    ensures forall v :: v in labels <==> v in init || 0 <= v <= 3 * n
    ensures forall v :: 0 <= v <= 3 * n ==> labels[v] == Label(n, v)
    ensures forall v :: v in init && !(0 <= v <= 3 * n) ==> labels[v] == init[v]
  {
    labels := init[0 := 1];
    if n % 4 == 0 || n % 4 == 2 || n % 4 == 3 {
      labels := LabelSplitAfterNext(n, init, labels);
    } else {
      labels := LabelSplitAtQuarter(n, init, labels);
    }
  }

  /** The first case, `n % 4` in {0, 2, 3}: the branch labels step by 3 up to
      branch `c + 1`, and the leaves of branches `1..c` get 2 and 3. */
  method LabelSplitAfterNext(n: int, init: map<int, int>, start: map<int, int>) returns (labels: map<int, int>)
    requires n >= 1 && n % 4 != 1 && WrittenUpTo(start, init, n, 0)
    ensures WrittenUpTo(labels, init, n, 3 * n)
  {
    labels := start;
    var c := (n + 3) / 4;
    var vertex := 0;
    var i := 1;
    while i <= n
      invariant 1 <= i <= n + 1 && vertex == i - 1
      invariant WrittenUpTo(labels, init, n, vertex)
    {
      vertex := i;
      if 1 <= i <= c + 1 {
        WriteStep(labels, init, n, vertex, 3 * i - 2);
        labels := labels[vertex := 3 * i - 2];
      } else if c + 2 <= i <= n {
        WriteStep(labels, init, n, vertex, 2 * c + i);
        labels := labels[vertex := 2 * c + i];
      }
      i := i + 1;
    }
    vertex := vertex + 1;
    labels, vertex := LabelLowLeaves(n, init, labels, vertex, c);
    labels, vertex := LabelHighLeavesAfterNext(n, init, labels, vertex);
  }

  /** The second case, `n % 4 == 1`: the branch labels step by 3 up to
      branch `c`, the leaves of branches `1..c-1` get 2 and 3, and those of
      branch `c` get 2 and `n - c + 3`. */
  method LabelSplitAtQuarter(n: int, init: map<int, int>, start: map<int, int>) returns (labels: map<int, int>)
    requires n >= 1 && n % 4 == 1 && WrittenUpTo(start, init, n, 0)
    ensures WrittenUpTo(labels, init, n, 3 * n)
  {
    var c := (n + 3) / 4;
    labels := LabelBranchesAtQuarter(n, init, start);
    var vertex := n + 1;
    labels, vertex := LabelLowLeaves(n, init, labels, vertex, c - 1);
    labels, vertex := LabelQuarterLeaves(n, init, labels, vertex);
    labels, vertex := LabelHighLeavesAtQuarter(n, init, labels, vertex);
  }

  /** The branch loop of the second case: branches `1..c` step by 3 from 1,
      the rest continue from `3c - 2` one at a time. */
  method LabelBranchesAtQuarter(n: int, init: map<int, int>, start: map<int, int>) returns (labels: map<int, int>)
    requires n >= 1 && n % 4 == 1 && WrittenUpTo(start, init, n, 0)
    ensures WrittenUpTo(labels, init, n, n)
  {
    labels := start;
    var c := (n + 3) / 4;
    var vertex := 0;
    var i := 1;
    while i <= n
      invariant 1 <= i <= n + 1 && vertex == i - 1
      invariant WrittenUpTo(labels, init, n, vertex)
    {
      vertex := i;
      if 1 <= i <= c {
        WriteStep(labels, init, n, vertex, 3 * i - 2);
        labels := labels[vertex := 3 * i - 2];
      } else if c + 1 <= i <= n {
        WriteStep(labels, init, n, vertex, 2 * c + i - 1);
        labels := labels[vertex := 2 * c + i - 1];
      }
      i := i + 1;
    }
  }

  /** The two leaves of branch `c` in the second case: 2, then `n - c + 3`. */
  method LabelQuarterLeaves(n: int, init: map<int, int>, start: map<int, int>, first: int)
    returns (labels: map<int, int>, vertex: int)
    requires n >= 1 && n % 4 == 1 && first == n + 2 * (Quarter(n) - 1) + 1
    requires WrittenUpTo(start, init, n, first - 1)
    ensures vertex == first + 2 && WrittenUpTo(labels, init, n, vertex - 1)
  {
    var c := (n + 3) / 4;
    vertex := first;
    LeafVertexLabel(n, c, 1);
    WriteStep(start, init, n, vertex, 2);
    labels := start[vertex := 2];
    vertex := vertex + 1;
    LeafVertexLabel(n, c, 2);
    WriteStep(labels, init, n, vertex, n - c + 3);
    labels := labels[vertex := n - c + 3];
    vertex := vertex + 1;
  }

  /** `for i in range(1, last + 1): for j in range(1, 3)`: the two leaves of
      each of the first `last` branches get `j + 1`, that is 2 and 3. */
  method LabelLowLeaves(n: int, init: map<int, int>, start: map<int, int>, first: int, last: int)
    returns (labels: map<int, int>, vertex: int)
    requires n >= 1 && first == n + 1 && 0 <= last
    requires last <= (if n % 4 == 1 then Quarter(n) - 1 else Quarter(n))
    requires WrittenUpTo(start, init, n, first - 1)
    ensures vertex == n + 2 * last + 1 && WrittenUpTo(labels, init, n, vertex - 1)
  {
    labels, vertex := start, first;
    var i := 1;
    while i < last + 1
      invariant 1 <= i <= last + 1 && vertex == n + 2 * (i - 1) + 1
      invariant WrittenUpTo(labels, init, n, vertex - 1)
    {
      var j := 1;
      while j < 3
        invariant 1 <= j <= 3 && vertex == n + 2 * (i - 1) + j
        invariant WrittenUpTo(labels, init, n, vertex - 1)
      {
        LeafVertexLabel(n, i, j);
        WriteStep(labels, init, n, vertex, j + 1);
        labels := labels[vertex := j + 1];
        vertex := vertex + 1;
        j := j + 1;
      }
      i := i + 1;
    }
  }

  /** The leaves of branches `c + 1 .. n` in the first case:
      `n + i + j - 1 - 2c`. */
  method LabelHighLeavesAfterNext(n: int, init: map<int, int>, start: map<int, int>, first: int)
    returns (labels: map<int, int>, vertex: int)
    requires n >= 1 && n % 4 != 1 && first == n + 2 * Quarter(n) + 1
    requires WrittenUpTo(start, init, n, first - 1)
    ensures vertex == 3 * n + 1 && WrittenUpTo(labels, init, n, vertex - 1)
  {
    labels, vertex := start, first;
    var c := (n + 3) / 4;
    var i := c + 1;
    while i < n + 1
      invariant c + 1 <= i <= n + 1 && vertex == n + 2 * (i - 1) + 1
      invariant WrittenUpTo(labels, init, n, vertex - 1)
    {
      var j := 1;
      while j < 3
        invariant 1 <= j <= 3 && vertex == n + 2 * (i - 1) + j
        invariant WrittenUpTo(labels, init, n, vertex - 1)
      {
        LeafVertexLabel(n, i, j);
        WriteStep(labels, init, n, vertex, n + i + j - 1 - 2 * c);
        labels := labels[vertex := n + i + j - 1 - 2 * c];
        vertex := vertex + 1;
        j := j + 1;
      }
      i := i + 1;
    }
  }

  /** The leaves of branches `c + 1 .. n` in the second case:
      `n + i + j - 2c`. */
  method LabelHighLeavesAtQuarter(n: int, init: map<int, int>, start: map<int, int>, first: int)
    returns (labels: map<int, int>, vertex: int)
    requires n >= 1 && n % 4 == 1 && first == n + 2 * Quarter(n) + 1
    requires WrittenUpTo(start, init, n, first - 1)
    ensures vertex == 3 * n + 1 && WrittenUpTo(labels, init, n, vertex - 1)
  {
    labels, vertex := start, first;
    var c := (n + 3) / 4;
    var i := c + 1;
    while i < n + 1
      invariant c + 1 <= i <= n + 1 && vertex == n + 2 * (i - 1) + 1
      invariant WrittenUpTo(labels, init, n, vertex - 1)
    {
      var j := 1;
      while j < 3
        invariant 1 <= j <= 3 && vertex == n + 2 * (i - 1) + j
        invariant WrittenUpTo(labels, init, n, vertex - 1)
      {
        LeafVertexLabel(n, i, j);
        WriteStep(labels, init, n, vertex, n + i + j - 2 * c);
        labels := labels[vertex := n + i + j - 2 * c];
        vertex := vertex + 1;
        j := j + 1;
      }
      i := i + 1;
    }
  }

  /** `math.ceil(n / 4)`. */
  function Quarter(n: int): (c: int)
    ensures 4 * (c - 1) < n <= 4 * c
  {
    (n + 3) / 4
  }

  /** The label of branch `i`: `3i - 2` up to a split point, then one more
      per branch; the split is after branch `c + 1` when `n % 4` is 0, 2 or 3
      and after branch `c` when it is 1. */
  function BranchLabel(n: int, i: int): (r: int)
    ensures 1 <= i <= Quarter(n) ==> r == 3 * i - 2
    ensures n >= 1 && 1 <= i <= n ==> i <= r <= n + 2 * Quarter(n)
  {
    var c := Quarter(n);
    if n % 4 == 1 then (if i <= c then 3 * i - 2 else 2 * c + i - 1)
    else (if i <= c + 1 then 3 * i - 2 else 2 * c + i)
  }

  /** The label of leaf `j` (1 or 2) of branch `b`. */
  function LeafLabel(n: int, b: int, j: int): (r: int)
    ensures n >= 2 && 1 <= b <= n && (j == 1 || j == 2) ==> 2 <= r <= Bound(n)
  {
    var c := Quarter(n);
    if n % 4 != 1 then (if b <= c then j + 1 else n + b + j - 1 - 2 * c)
    else if b < c then j + 1
    else if b == c then (if j == 1 then 2 else n - c + 3)
    else n + b + j - 2 * c
  }

  /** The label of vertex `v`: 1 for the center, then the branches, then the
      leaves, two per branch in branch order. From two branches on every
      label lies in `1..k` with `k = Bound(n)`; the residue cases are what
      make the largest branch and leaf labels meet the bound. */
  function Label(n: int, v: int): (r: int)
    ensures v == 0 ==> r == 1
    ensures n >= 2 && 0 <= v <= 3 * n ==> 1 <= r <= Bound(n)
  {
    if v == 0 then 1
    else if v <= n then BranchLabel(n, v)
    else
      var b := (v - n + 1) / 2;
      var j := v - n - 2 * (b - 1);
      assert v <= 3 * n ==> 1 <= b <= n && (j == 1 || j == 2);
      LeafLabel(n, b, j)
  }

  /** Leaf `j` of branch `b`, vertex `n + 2(b-1) + j`, has `LeafLabel(n, b, j)`. */
  lemma LeafVertexLabel(n: int, b: int, j: int)
    requires n >= 0 && 1 <= b && (j == 1 || j == 2)
    ensures Label(n, StarLeaf(n, 2, b, j)) == LeafLabel(n, b, j)
  {
    var v := StarLeaf(n, 2, b, j);
    assert v > n && (v - n + 1) / 2 == b;
  }

  /** The labeling loops have written the vertices `0..hi` with `Label` and
      kept every other label of `init`. */
  ghost predicate WrittenUpTo(labels: map<int, int>, init: map<int, int>, n: int, hi: int) {
    && (forall v :: v in labels <==> v in init || 0 <= v <= hi)
    && (forall v :: 0 <= v <= hi ==> labels[v] == Label(n, v))
    && (forall v :: v in init && !(0 <= v <= hi) ==> labels[v] == init[v])
  }

  /** Writing `Label(n, hi)` at `hi` extends the written prefix by one. */
  lemma WriteStep(labels: map<int, int>, init: map<int, int>, n: int, hi: int, x: int)
    requires hi >= 1 && WrittenUpTo(labels, init, n, hi - 1) && x == Label(n, hi)
    ensures WrittenUpTo(labels[hi := x], init, n, hi)
  {
  }

  /** `ceil((3n + 1) / 2)`, the bound `k` that `main` computes for `m = 2`. */
  function Bound(n: int): int {
    (3 * n + 2) / 2
  }

  /** With a single branch the labeling exceeds the bound: the second leaf
      gets 3 while `k = 2`. */
  lemma SingleBranchExceedsBound()
    ensures Bound(1) == 2 && Label(1, 3) == 3
  {
  }

  // ---------------------------------------------------------------------------
  // The edge weights are 2 .. 3n + 1, one per edge.

  /** The weight of an edge of branch `i`: the center edge when `j == 0`,
      the edge to leaf `j` otherwise. */
  function EdgeWeight(n: int, i: int, j: int): int {
    if j == 0 then 1 + BranchLabel(n, i) else BranchLabel(n, i) + LeafLabel(n, i, j)
  }

  /** Distinct edges have distinct weights, all in `2..3n + 1`. */
  lemma EdgeWeightsInjective(n: int, i: int, j: int, i': int, j': int)
    requires n >= 1 && 1 <= i <= n && 0 <= j <= 2 && 1 <= i' <= n && 0 <= j' <= 2
    ensures 2 <= EdgeWeight(n, i, j) <= 3 * n + 1
    ensures EdgeWeight(n, i, j) == EdgeWeight(n, i', j') ==> i == i' && j == j'
  {
    var c := Quarter(n);
    assert 1 <= c && 4 * c - 3 <= n <= 4 * c;
    if n % 4 != 1 {
      assert c + 1 <= n;
    }
  }

  /** The largest weight, `3n + 1`, is that of the last leaf edge. */
  lemma LastEdgeWeight(n: int)
    requires n >= 1
    ensures EdgeWeight(n, n, 2) == 3 * n + 1
  {
    var c := Quarter(n);
    assert 1 <= c && 4 * c - 3 <= n <= 4 * c;
  }

  /** Edge `j` of branch `i`, smaller end first: to the center when
      `j == 0`, to leaf `j` otherwise. */
  function StarEdge(n: int, i: int, j: int): Edge {
    if j == 0 then (0, i) else (i, StarLeaf(n, 2, i, j))
  }

  /** A star edge `u`–`v` (center to branch, or branch to one of its leaves)
      is some `StarEdge(n, i, j)` and weighs `EdgeWeight(n, i, j)` under
      `Label`. */
  lemma StarEdgeWeight(n: int, u: int, v: int) returns (i: int, j: int)
    requires n >= 1 && IsStarEdge(n, 2, n, u, v)
    ensures 1 <= i <= n && 0 <= j <= 2
    ensures (u, v) == StarEdge(n, i, j)
    ensures Label(n, u) + Label(n, v) == EdgeWeight(n, i, j)
  {
    if u == 0 {
      i, j := v, 0;
      assert Label(n, v) == BranchLabel(n, v);
    } else {
      i, j := u, v - StarLeaf(n, 2, u, 0);
      assert (j == 1 || j == 2) && v == StarLeaf(n, 2, i, j);
      assert Label(n, u) == BranchLabel(n, u);
      LeafVertexLabel(n, i, j);
    }
  }

  /** A star edge is one of the built edges; its ends are vertices `0..3n`. */
  lemma StarEdgeEnds(n: nat, u: int, v: int)
    requires IsStarEdge(n, 2, n, u, v)
    ensures 0 <= u < v <= 3 * n
  {
  }

  /** Labels on all of `0..3n` label every vertex of the star `main` builds,
      which has no self-loop. */
  lemma StarLabelled(n: nat, labels: map<int, int>)
    requires forall v :: 0 <= v <= 3 * n ==> v in labels
    ensures Labelled(StarAdj(n, 2, n), labels)
    ensures forall a :: !Adjacent(StarAdj(n, 2, n), a, a)
  {
    var adj := StarAdj(n, 2, n);
    StarAdjacent(n, 2, n);
    forall a, b | Adjacent(adj, a, b)
      ensures a in labels && b in labels
    {
      if IsStarEdge(n, 2, n, a, b) {
        StarEdgeEnds(n, a, b);
      } else {
        StarEdgeEnds(n, b, a);
      }
    }
    forall a ensures !Adjacent(adj, a, a) {
      if IsStarEdge(n, 2, n, a, a) {
        StarEdgeEnds(n, a, a);
      }
    }
  }

  /** `vertex_k_labeling` labels vertices `0..3n` with `Label`. */
  ghost predicate LabelledByFormula(n: int, labels: map<int, int>) {
    forall v :: 0 <= v <= 3 * n ==> v in labels && labels[v] == Label(n, v)
  }

  /** Each derived weight entry is a direction of some `StarEdge(n, i, j)`
      and holds `EdgeWeight(n, i, j)`. */
  lemma DerivedEntry(n: nat, labels: map<int, int>, a: int, b: int) returns (i: int, j: int)
    requires n >= 1 && LabelledByFormula(n, labels)
    requires Labelled(StarAdj(n, 2, n), labels)
    requires (a, b) in Derived(map[], StarAdj(n, 2, n), labels)
    ensures 1 <= i <= n && 0 <= j <= 2
    ensures (a, b) == StarEdge(n, i, j) || (b, a) == StarEdge(n, i, j)
    ensures Derived(map[], StarAdj(n, 2, n), labels)[(a, b)] == EdgeWeight(n, i, j)
  {
    StarAdjacent(n, 2, n);
    if IsStarEdge(n, 2, n, a, b) {
      StarEdgeEnds(n, a, b);
      i, j := StarEdgeWeight(n, a, b);
    } else {
      StarEdgeEnds(n, b, a);
      i, j := StarEdgeWeight(n, b, a);
    }
  }

  /** Labels from `vertex_k_labeling` on the star built by `main`: the
      derived weights are symmetric, loop-free and edge-irregular. */
  lemma LabellingIrregular(n: nat, labels: map<int, int>)
    requires n >= 1 && LabelledByFormula(n, labels)
    ensures Labelled(StarAdj(n, 2, n), labels)
    ensures Symmetric(Derived(map[], StarAdj(n, 2, n), labels))
    ensures Loopless(Derived(map[], StarAdj(n, 2, n), labels))
    ensures EdgeIrregular(Derived(map[], StarAdj(n, 2, n), labels))
  {
    StarLabelled(n, labels);
    DerivedShape(StarAdj(n, 2, n), labels);
    var w := Derived(map[], StarAdj(n, 2, n), labels);
    forall p, q | p in w && q in w && w[p] == w[q]
      ensures p == q || p == (q.1, q.0)
    {
      var i, j := DerivedEntry(n, labels, p.0, p.1);
      var i', j' := DerivedEntry(n, labels, q.0, q.1);
      EdgeWeightsInjective(n, i, j, i', j');
    }
  }

  /** The largest derived weight is `3n + 1`. */
  lemma LabellingMaxWeight(n: nat, labels: map<int, int>)
    requires n >= 1 && LabelledByFormula(n, labels)
    requires Labelled(StarAdj(n, 2, n), labels)
    ensures IsMax(3 * n + 1, Derived(map[], StarAdj(n, 2, n), labels).Values)
  {
    WeightsAtMost(n, labels);
    LastEdgeWeighs(n, labels);
    MaxAt(Derived(map[], StarAdj(n, 2, n), labels), (n, 3 * n), 3 * n + 1);
  }

  /** An entry holding a bound on all the weights holds the largest one. */
  lemma MaxAt(w: WeightMap, p: Edge, x: int)
    requires p in w && w[p] == x
    requires forall y :: y in w.Values ==> y <= x
    ensures IsMax(x, w.Values)
  {
  }

  /** No derived weight exceeds `3n + 1`. */
  lemma WeightsAtMost(n: nat, labels: map<int, int>)
    requires n >= 1 && LabelledByFormula(n, labels)
    requires Labelled(StarAdj(n, 2, n), labels)
    ensures forall x :: x in Derived(map[], StarAdj(n, 2, n), labels).Values ==> x <= 3 * n + 1
  {
    var w := Derived(map[], StarAdj(n, 2, n), labels);
    forall x | x in w.Values
      ensures x <= 3 * n + 1
    {
      var p :| p in w && w[p] == x;
      var i, j := DerivedEntry(n, labels, p.0, p.1);
      EdgeWeightsInjective(n, i, j, i, j);
    }
  }

  /** The edge from branch `n` to its second leaf, vertex `3n`, weighs
      `3n + 1`. */
  lemma LastEdgeWeighs(n: nat, labels: map<int, int>)
    requires n >= 1 && LabelledByFormula(n, labels)
    requires Labelled(StarAdj(n, 2, n), labels)
    ensures (n, 3 * n) in Derived(map[], StarAdj(n, 2, n), labels)
    ensures Derived(map[], StarAdj(n, 2, n), labels)[(n, 3 * n)] == 3 * n + 1
  {
    LastEdgeLabelled(n, labels);
    LastEdgeAdjacent(n);
  }

  /** Under the closed form, branch `n` and the last leaf `3n` have labels
      summing to `3n + 1`. */
  lemma LastEdgeLabelled(n: int, labels: map<int, int>)
    requires n >= 1 && LabelledByFormula(n, labels)
    ensures n in labels && 3 * n in labels && labels[n] + labels[3 * n] == 3 * n + 1
  {
    LastEdgeLabels(n);
  }

  /** The last leaf is vertex `3n`, and its edge to branch `n` has end labels
      summing to `3n + 1`. */
  lemma LastEdgeLabels(n: int)
    requires n >= 1
    ensures StarLeaf(n, 2, n, 2) == 3 * n
    ensures Label(n, n) + Label(n, 3 * n) == 3 * n + 1
  {
    LeafVertexLabel(n, n, 2);
    LastEdgeWeight(n);
  }

  /** Branch `n` is linked to its second leaf. */
  lemma LastEdgeAdjacent(n: nat)
    requires n >= 1
    ensures Adjacent(StarAdj(n, 2, n), n, 3 * n)
  {
    StarAdjacent(n, 2, n);
    assert IsStarEdge(n, 2, n, n, StarLeaf(n, 2, n, 2));
  }


  // ---------------------------------------------------------------------------
  // `main` with `m = 2` and `n` as a parameter.

  /** `calculate_edge_weights` overwrites every zero weight the builder
      stored, so its result is the same as deriving from no weights. */
  lemma BuiltWeightsOverwritten(n: nat, labels: map<int, int>)
    requires Labelled(StarAdj(n, 2, n), labels)
    ensures Derived(StarWeights(n, 2, n), StarAdj(n, 2, n), labels) == Derived(map[], StarAdj(n, 2, n), labels)
  {
    StarWeightEntries(n, 2, n);
    StarAdjacent(n, 2, n);
    DerivedOverwrites(StarWeights(n, 2, n), StarAdj(n, 2, n), labels);
  }

  /** From two branches on, labels that follow the closed form on exactly
      `0..3n` all lie in `1..k`. */
  lemma LabelsWithinBound(n: int, labels: map<int, int>)
    requires n >= 1 && LabelledByFormula(n, labels)
    requires forall v :: v in labels ==> 0 <= v <= 3 * n
    ensures n >= 2 ==> forall v :: v in labels ==> 1 <= labels[v] <= Bound(n)
  {
    if n >= 2 {
      forall v | v in labels
        ensures 1 <= labels[v] <= Bound(n)
      {
        assert labels[v] == Label(n, v);
      }
    }
  }

  /** On the labelled star, `verify_unique_edge_values` reports "unique"
      with largest weight `3n + 1`. */
  lemma LabellingReport(n: nat, labels: map<int, int>)
    requires n >= 1 && LabelledByFormula(n, labels)
    ensures Labelled(StarAdj(n, 2, n), labels)
    ensures Verify(Derived(map[], StarAdj(n, 2, n), labels)) == Report(true, 3 * n + 1)
  {
    LabellingIrregular(n, labels);
    LabellingMaxWeight(n, labels);
    var w := Derived(map[], StarAdj(n, 2, n), labels);
    VerifyCorrect(w);
    MaxUnique(Verify(w).maxWeight, 3 * n + 1, w.Values);
  }

  /** Build the star, label it, derive the weights and check them, as `main`
      does before it prints and draws: the labels follow the closed form and
      stay within `k` from two branches on, the weights are the end-label
      sums of the built edges, and the check reports them unique with
      largest weight `3n + 1`. */
  method Run(n: int) returns (vertexLabels: map<int, int>, edgeWeights: WeightMap, report: Report)
    requires n >= 1
    ensures forall v :: v in vertexLabels <==> 0 <= v <= 3 * n
    ensures LabelledByFormula(n, vertexLabels)
    ensures n >= 2 ==> forall v :: v in vertexLabels ==> 1 <= vertexLabels[v] <= Bound(n)
    ensures Labelled(StarAdj(n, 2, n), vertexLabels)
    ensures edgeWeights == Derived(map[], StarAdj(n, 2, n), vertexLabels)
    ensures EdgeIrregular(edgeWeights)
    ensures report == Report(true, 3 * n + 1)
  {
    var m := 2;
    var order := m * n + n + 1;
    var k := (m * n + n + 1 + 1) / 2;
    var g := new Graph(n, m, k, order);
    AddStarEdges(g);
    vertexLabels := g.VertexKLabeling();
    StarLabelled(n, vertexLabels);
    edgeWeights := g.CalculateEdgeWeights();
    BuiltWeightsOverwritten(n, vertexLabels);
    LabellingIrregular(n, vertexLabels);
    LabelsWithinBound(n, vertexLabels);
    report := g.VerifyUniqueEdgeValues(edgeWeights);
    LabellingReport(n, vertexLabels);
  }
}
