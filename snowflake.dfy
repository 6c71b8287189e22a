/** The snowflake star of `Problem3_Alex.py`: center 0, branches 1..n, two
    leaves per branch (`n + 2(i-1) + 1` and `n + 2(i-1) + 2`) and a ring
    edge from every branch `i` to branch `i % n + 1`. Branch labels grow by 4
    from 11 and leaf labels sit 1 and 3 above their branch, all clamped to
    the bound `k`. */
module Snowflake {
  import opened Sets
  import opened Adjacency
  import opened EdgeWeights

  class Graph {
    const n: nat
    const order: int
    var adj: AdjList
    var edgeLabels: WeightMap

    constructor (n: nat)
      ensures this.n == n && order == 1 + n + 2 * n
      ensures adj == EmptyAdj(order) && edgeLabels == map[]
    {
      this.n := n;
      order := 1 + n + 2 * n;
      adj := EmptyAdj(1 + n + 2 * n);
      edgeLabels := map[];
    }

    /** Appends each end to the other's neighbour list and stores `weight`
        under both directions. */
    method AddEdge(u: int, v: int, weight: int)
      requires u in adj && v in adj
      modifies this
      ensures adj == Link(old(adj), u, v)
      ensures edgeLabels == PutBoth(old(edgeLabels), u, v, weight)
    {
      adj := Link(adj, u, v);
      edgeLabels := PutBoth(edgeLabels, u, v, weight);
    }
  }

  /** The ring neighbour `i % n + 1` of branch `i`, written without `%`. */
  function NextBranch(n: int, i: int): (r: int)
    requires 1 <= i <= n
    ensures r == i % n + 1
    ensures 1 <= r <= n
  {
    if i < n then i + 1 else 1
  }

  /** The `t`-th edge (1-based) the building loop adds for branch `i`:
      center edge, first leaf, second leaf, ring edge. */
  function BranchEdge(n: int, i: int, t: int): Edge
    requires 1 <= i <= n
  {
    if t == 1 then (0, i)
    else if t == 2 then (i, n + 2 * (i - 1) + 1)
    else if t == 3 then (i, n + 2 * (i - 1) + 2)
    else (i, NextBranch(n, i))
  }

  /** `u`–`v` is one of the first `s` edges added for branch `i`. */
  predicate IsBranchEdge(n: int, i: int, s: int, u: int, v: int)
    requires 1 <= i <= n
  {
    || (1 <= s && (u, v) == BranchEdge(n, i, 1))
    || (2 <= s && (u, v) == BranchEdge(n, i, 2))
    || (3 <= s && (u, v) == BranchEdge(n, i, 3))
    || (4 <= s && (u, v) == BranchEdge(n, i, 4))
  }

  /** The first `s` edges of branch `i` are the first `s - 1` and edge `s`. */
  lemma BranchEdgeStep(n: int, i: int, s: int, u: int, v: int)
    requires 1 <= i <= n && 1 <= s <= 4
    ensures IsBranchEdge(n, i, s, u, v) <==> IsBranchEdge(n, i, s - 1, u, v) || (u, v) == BranchEdge(n, i, s)
  {
  }

  /** `u`–`v` is an edge the building loop of `main` adds while handling
      branches `1..i`: center–branch, branch–own leaf, or the ring edge from
      a branch to the next one. */
  predicate IsSnowflakeEdge(n: int, i: int, u: int, v: int) {
    || (u == 0 && 1 <= v <= i)
    || (1 <= u <= i <= n && (v == n + 2 * (u - 1) + 1 || v == n + 2 * (u - 1) + 2 || v == u % n + 1))
  }

  /** The snowflake edges for branches `1..i` are those for `1..i-1` and the
      four of branch `i`. */
  lemma SnowflakeEdgeStep(n: nat, i: nat, u: int, v: int)
    requires 1 <= i <= n
    ensures IsSnowflakeEdge(n, i, u, v) <==> IsSnowflakeEdge(n, i - 1, u, v) || IsBranchEdge(n, i, 4, u, v)
  {
  }

  /** The adjacency lists once the building loop has handled branches
      `1..i`. */
  function Built(n: nat, i: nat): (adj: AdjList)
    requires i <= n
    ensures forall v :: v in adj <==> 0 <= v <= 3 * n
    decreases i, 5
  {
    if i == 0 then EmptyAdj(1 + n + 2 * n) else BuiltSteps(n, i, 4)
  }

  /** The adjacency lists once the loop has handled branches `1..i-1` and the
      first `s` edges of branch `i`. */
  function BuiltSteps(n: nat, i: nat, s: nat): (adj: AdjList)
    requires 1 <= i <= n && s <= 4
    ensures forall v :: v in adj <==> 0 <= v <= 3 * n
    decreases i, s
  {
    if s == 0 then Built(n, i - 1)
    else
      var e := BranchEdge(n, i, s);
      Link(BuiltSteps(n, i, s - 1), e.0, e.1)
  }

  /** The label dictionary alongside `Built`: every added edge stores 0 in
      both directions. */
  function BuiltLabels(n: nat, i: nat): WeightMap
    requires i <= n
    decreases i, 5
  {
    if i == 0 then map[] else BuiltLabelSteps(n, i, 4)
  }

  function BuiltLabelSteps(n: nat, i: nat, s: nat): WeightMap
    requires 1 <= i <= n && s <= 4
    decreases i, s
  {
    if s == 0 then BuiltLabels(n, i - 1)
    else
      var e := BranchEdge(n, i, s);
      PutBoth(BuiltLabelSteps(n, i, s - 1), e.0, e.1, 0)
  }

  /** Two vertices are neighbours exactly when the loop placed an edge
      between them. */
  lemma BuiltAdjacent(n: nat, i: nat)
    requires i <= n
    ensures forall u, v :: Adjacent(Built(n, i), u, v) <==> IsSnowflakeEdge(n, i, u, v) || IsSnowflakeEdge(n, i, v, u)
  {
    forall u, v
      ensures Adjacent(Built(n, i), u, v) <==> IsSnowflakeEdge(n, i, u, v) || IsSnowflakeEdge(n, i, v, u)
    {
      BuiltAdjacentPair(n, i, u, v);
    }
  }

  /** `BuiltAdjacent` for one pair of vertices: the adjacency lists and the
      label dictionary record the same pairs. */
  lemma BuiltAdjacentPair(n: nat, i: nat, u: int, v: int)
    requires i <= n
    ensures Adjacent(Built(n, i), u, v) <==> IsSnowflakeEdge(n, i, u, v) || IsSnowflakeEdge(n, i, v, u)
  {
    BuiltSameEdges(n, i, u, v);
    BuiltLabelEntryPair(n, i, u, v);
  }

  /** The loop links `u` and `v` exactly when it stores a label for `(u, v)`. */
  lemma {:induction false} BuiltSameEdges(n: nat, i: nat, u: int, v: int)
    requires i <= n
    ensures Adjacent(Built(n, i), u, v) <==> (u, v) in BuiltLabels(n, i)
    decreases i, 5
  {
    if i > 0 {
      BuiltStepsSameEdges(n, i, 4, u, v);
    }
  }

  lemma {:induction false} BuiltStepsSameEdges(n: nat, i: nat, s: nat, u: int, v: int)
    requires 1 <= i <= n && s <= 4
    ensures Adjacent(BuiltSteps(n, i, s), u, v) <==> (u, v) in BuiltLabelSteps(n, i, s)
    decreases i, s
  {
    if s == 0 {
      BuiltSameEdges(n, i - 1, u, v);
    } else {
      BuiltStepsSameEdges(n, i, s - 1, u, v);
      var e := BranchEdge(n, i, s);
      LinkPutBoth(BuiltSteps(n, i, s - 1), BuiltLabelSteps(n, i, s - 1), e.0, e.1, 0, u, v);
    }
  }

  /** The label dictionary holds both directions of every built edge and
      nothing else. */
  lemma BuiltLabelEntries(n: nat, i: nat)
    requires i <= n
    ensures forall u, v :: (u, v) in BuiltLabels(n, i) <==> IsSnowflakeEdge(n, i, u, v) || IsSnowflakeEdge(n, i, v, u)
  {
    forall u, v
      ensures (u, v) in BuiltLabels(n, i) <==> IsSnowflakeEdge(n, i, u, v) || IsSnowflakeEdge(n, i, v, u)
    {
      BuiltLabelEntryPair(n, i, u, v);
    }
  }

  lemma {:induction false} BuiltLabelEntryPair(n: nat, i: nat, u: int, v: int)
    requires i <= n
    ensures (u, v) in BuiltLabels(n, i) <==> IsSnowflakeEdge(n, i, u, v) || IsSnowflakeEdge(n, i, v, u)
    decreases i, 5
  {
    if i > 0 {
      BuiltLabelStepEntryPair(n, i, 4, u, v);
      SnowflakeEdgeStep(n, i, u, v);
      SnowflakeEdgeStep(n, i, v, u);
    }
  }

  lemma {:induction false} BuiltLabelStepEntryPair(n: nat, i: nat, s: nat, u: int, v: int)
    requires 1 <= i <= n && s <= 4
    ensures (u, v) in BuiltLabelSteps(n, i, s) <==>
      || IsSnowflakeEdge(n, i - 1, u, v) || IsSnowflakeEdge(n, i - 1, v, u)
      || IsBranchEdge(n, i, s, u, v) || IsBranchEdge(n, i, s, v, u)
    decreases i, s
  {
    if s == 0 {
      BuiltLabelEntryPair(n, i - 1, u, v);
    } else {
      BuiltLabelStepEntryPair(n, i, s - 1, u, v);
      var e := BranchEdge(n, i, s);
      PutBothEntry(BuiltLabelSteps(n, i, s - 1), e.0, e.1, 0, u, v);
      BranchEdgeStep(n, i, s, u, v);
      BranchEdgeStep(n, i, s, v, u);
    }
  }

  /** Every label the building loop stores is 0. */
  lemma {:induction false} BuiltLabelsZero(n: nat, i: nat)
    requires i <= n
    ensures forall u, v :: (u, v) in BuiltLabels(n, i) ==> BuiltLabels(n, i)[(u, v)] == 0
    decreases i, 5
  {
    if i > 0 {
      BuiltLabelStepsZero(n, i, 4);
    }
  }

  lemma {:induction false} BuiltLabelStepsZero(n: nat, i: nat, s: nat)
    requires 1 <= i <= n && s <= 4
    ensures forall u, v :: (u, v) in BuiltLabelSteps(n, i, s) ==> BuiltLabelSteps(n, i, s)[(u, v)] == 0
    decreases i, s
  {
    if s == 0 {
      BuiltLabelsZero(n, i - 1);
    } else {
      BuiltLabelStepsZero(n, i, s - 1);
      var e := BranchEdge(n, i, s);
      forall u, v | (u, v) in BuiltLabelSteps(n, i, s)
        ensures BuiltLabelSteps(n, i, s)[(u, v)] == 0
      {
        PutBothEntry(BuiltLabelSteps(n, i, s - 1), e.0, e.1, 0, u, v);
      }
    }
  }

  /** The graph-building loop of `main`: a fresh graph of order `3n + 1`, then
      for each branch `i` its four edges, all with label 0. */
  method Build(n: nat) returns (g: Graph)
    ensures fresh(g)
    ensures g.n == n && g.order == 3 * n + 1
    ensures g.adj == Built(n, n) && g.edgeLabels == BuiltLabels(n, n)
  {
    g := new Graph(n);
    for i := 1 to n + 1
      invariant g.n == n && g.order == 3 * n + 1
      invariant g.adj == Built(n, i - 1) && g.edgeLabels == BuiltLabels(n, i - 1)
    {
      AddBranchEdges(g, i);
    }
  }

  /** One pass of the building loop: the center edge of branch `i`, the
      edges to its two leaves and the ring edge to branch `i % n + 1`. */
  method AddBranchEdges(g: Graph, i: nat)
    requires 1 <= i <= g.n && g.order == 3 * g.n + 1
    requires g.adj == Built(g.n, i - 1) && g.edgeLabels == BuiltLabels(g.n, i - 1)
    modifies g
    ensures g.adj == Built(g.n, i) && g.edgeLabels == BuiltLabels(g.n, i)
  {
    var n := g.n;
    AddBranchEdge(g, i, 1, 0, i);
    var leaf1 := n + 2 * (i - 1) + 1;
    var leaf2 := n + 2 * (i - 1) + 2;
    AddBranchEdge(g, i, 2, i, leaf1);
    AddBranchEdge(g, i, 3, i, leaf2);
    var nextBranch := i % n + 1;
    assert nextBranch == NextBranch(n, i);
    AddBranchEdge(g, i, 4, i, nextBranch);
  }

  /** `add_edge(u, v, 0)` as the `s`-th edge the loop adds for branch `i`. */
  method AddBranchEdge(g: Graph, i: nat, s: nat, u: int, v: int)
    requires 1 <= i <= g.n && 1 <= s <= 4 && g.order == 3 * g.n + 1
    requires (u, v) == BranchEdge(g.n, i, s)
    requires g.adj == BuiltSteps(g.n, i, s - 1) && g.edgeLabels == BuiltLabelSteps(g.n, i, s - 1)
    modifies g
    ensures g.adj == BuiltSteps(g.n, i, s) && g.edgeLabels == BuiltLabelSteps(g.n, i, s)
  {
    g.AddEdge(u, v, 0);
  }

  /** How many entries `v`'s list holds once the loop has handled branches
      `1..i-1` and the first `s` edges of branch `i`. A branch gets four
      entries from its own pass and one from the ring edge of the branch
      before it; branch 1 gets that one from branch `n` at the very end. */
  function StepDegree(n: int, i: int, s: int, v: int): int {
    if v == 0 then i - 1 + (if s >= 1 then 1 else 0)
    else if v <= n then
      (if v < i then 4 else if v == i then s else 0)
      + (if 2 <= v <= i then 1 else 0)
      + (if s == 4 && (v == i + 1 || (v == 1 && i == n)) then 1 else 0)
    else if v <= n + 2 * (i - 1) + (if s >= 3 then 2 else if s == 2 then 1 else 0) then 1
    else 0
  }

  lemma {:induction false} BuiltStepsDegree(n: nat, i: nat, s: nat, v: int)
    requires 1 <= i <= n && s <= 4 && 0 <= v <= 3 * n
    ensures |BuiltSteps(n, i, s)[v]| == StepDegree(n, i, s, v)
    decreases i, s
  {
    if s == 0 {
      if i > 1 {
        BuiltStepsDegree(n, i - 1, 4, v);
      }
    } else {
      BuiltStepsDegree(n, i, s - 1, v);
      var e := BranchEdge(n, i, s);
      if e.0 == e.1 {
        LinkLists(BuiltSteps(n, i, s - 1), e.0, e.1);
      } else {
        LinkDegree(BuiltSteps(n, i, s - 1), e.0, e.1, v);
      }
    }
  }

  /** After the loop the center lists the `n` branches, every branch lists
      five vertices (the center, its two leaves and its two ring neighbours,
      so for `n = 2` the other branch twice and for `n = 1` itself twice),
      and every leaf lists its branch. */
  lemma BuiltDegrees(n: nat, v: int)
    requires n >= 1 && 0 <= v <= 3 * n
    ensures |Built(n, n)[v]| == if v == 0 then n else if v <= n then 5 else 1
  {
    BuiltStepsDegree(n, n, 4, v);
  }

  // ---------------------------------------------------------------------------
  // assign_labels

  function Min(a: int, b: int): int {
    if a <= b then a else b
  }

  /** The label of branch `b`: 11, 15, 19, ... clamped to `k`. */
  function BranchLabel(k: int, b: int): (r: int)
    ensures r <= k && r <= 11 + 4 * (b - 1)
    ensures r == k || r == 11 + 4 * (b - 1)
  {
    Min(k, 11 + 4 * (b - 1))
  }

  /** The label `assign_labels` gives vertex `v` of the snowflake on `n`
      branches with bound `k`: 1 for the center, `BranchLabel` for the
      branches, and for the two leaves of branch `b` (`n + 2b - 1` and
      `n + 2b`) the branch label plus 1 and plus 3, clamped to `k`. Given
      `k >= 1`, every label lies in `1..k`. */
  function VertexLabel(n: int, k: int, v: int): (r: int)
    ensures v == 0 ==> r == 1
    ensures k >= 1 && v >= 0 ==> 1 <= r <= k
  {
    if v == 0 then 1
    else if v <= n then BranchLabel(k, v)
    else Min(k, BranchLabel(k, (v - n + 1) / 2) + (if (v - n) % 2 == 1 then 1 else 3))
  }

  /** The leaves of branch `i` are labelled 1 and 3 above the branch, clamped
      to `k`. */
  lemma LeafLabels(n: int, k: int, i: int)
    requires 1 <= i <= n
    ensures VertexLabel(n, k, n + 2 * (i - 1) + 1) == Min(k, VertexLabel(n, k, i) + 1)
    ensures VertexLabel(n, k, n + 2 * (i - 1) + 2) == Min(k, VertexLabel(n, k, i) + 3)
  {
  }

  /** Branch labels never decrease along the branches, and leaf labels are
      never below their branch's. */
  lemma LabelsNonDecreasing(n: int, k: int, u: int, v: int)
    requires 1 <= u <= v <= n
    ensures VertexLabel(n, k, u) <= VertexLabel(n, k, v)
    ensures VertexLabel(n, k, u) <= VertexLabel(n, k, n + 2 * u - 1) <= VertexLabel(n, k, n + 2 * u)
  {
  }

  /** `assign_labels(graph)` with the bound `k` as a parameter: the labels of
      all `3n + 1` vertices and, for every adjacency pair, the sum of its end
      labels under both directions. The graph itself is not changed. */
  method AssignLabels(g: Graph, k: int) returns (vertexLabels: map<int, int>, edgeLabels: WeightMap)
    requires forall a, b :: Adjacent(g.adj, a, b) ==> 0 <= a <= 3 * g.n && 0 <= b <= 3 * g.n
    ensures forall v :: v in vertexLabels <==> 0 <= v <= 3 * g.n
    ensures forall v :: v in vertexLabels ==> vertexLabels[v] == VertexLabel(g.n, k, v)
    ensures Labelled(g.adj, vertexLabels)
    ensures edgeLabels == Derived(map[], g.adj, vertexLabels)
  {
    var n: int := g.n;
    var vert;
    vertexLabels, vert := LabelCenterAndBranches(n, k);
    var i := 1;
    while i <= n
      invariant 1 <= i <= n + 1
      invariant vert == n + 2 * (i - 1)
      invariant LabelledUpTo(n, k, vertexLabels, vert)
    {
      vertexLabels, vert := LabelLeafPair(n, k, i, vertexLabels, vert);
      i := i + 1;
    }
    edgeLabels := DeriveWeights(g.adj, vertexLabels, map[]);
  }

  /** `labels` holds exactly the vertices `0..top`, each with its
      `VertexLabel`. */
  ghost predicate LabelledUpTo(n: int, k: int, labels: map<int, int>, top: int) {
    && (forall v :: v in labels <==> 0 <= v <= top)
    && (forall v :: v in labels ==> labels[v] == VertexLabel(n, k, v))
  }

  /** The center gets 1, then the branch loop gives branch `vert` the label
      `min(k, inner_verts)` with `inner_verts` growing by 4 from 11. */
  method LabelCenterAndBranches(n: nat, k: int) returns (labels: map<int, int>, vert: int)
    ensures vert == n && LabelledUpTo(n, k, labels, n)
  {
    labels := map[0 := 1];
    var innerVerts := 11;
    vert := 0;
    while vert < n
      invariant 0 <= vert <= n
      invariant innerVerts == 11 + 4 * vert
      invariant LabelledUpTo(n, k, labels, vert)
    {
      vert := vert + 1;
      labels := labels[vert := Min(k, innerVerts)];
      innerVerts := innerVerts + 4;
    }
  }

  /** One pass of the leaf loop: the two leaves of branch `i` get the branch
      label plus `j` for `j` in 1, 3, clamped to `k`. */
  method LabelLeafPair(n: int, k: int, i: int, labels: map<int, int>, vert: int) returns (labels': map<int, int>, vert': int)
    requires 1 <= i <= n && vert == n + 2 * (i - 1) && LabelledUpTo(n, k, labels, vert)
    ensures vert' == vert + 2 && LabelledUpTo(n, k, labels', vert')
  {
    labels', vert' := labels, vert;
    var branchVal := labels'[i];
    LeafLabels(n, k, i);
    var j := 1;
    while j < 4
      invariant j == 1 || j == 3 || j == 5
      invariant vert' == vert + (j - 1) / 2
      invariant LabelledUpTo(n, k, labels', vert')
    {
      vert' := vert' + 1;
      labels' := labels'[vert' := Min(k, branchVal + j)];
      j := j + 2;
    }
  }

  // ---------------------------------------------------------------------------
  // verify_unique_edge_values

  /** `verify_unique_edge_values` as written: it reports "unique" when
      `len(values) / 2 == len(set(values)) + 1`. */
  function VerifyUniqueEdgeValues(edgeLabels: WeightMap): (r: Report)
    ensures r.NoEdges? <==> edgeLabels == map[]
    ensures r.Report? ==> IsMax(r.maxWeight, edgeLabels.Values)
    ensures r.Report? ==> (r.allUnique <==> |edgeLabels| == 2 * (|edgeLabels.Values| + 1))
  {
    ReportWith(edgeLabels, |edgeLabels| == 2 * (|edgeLabels.Values| + 1))
  }

  /** The check as written rejects every edge-irregular labeling: on such a
      labeling the entries are exactly twice the distinct values, never twice
      one more. */
  lemma AsWrittenRejectsIrregular(edgeLabels: WeightMap)
    requires Symmetric(edgeLabels) && Loopless(edgeLabels) && edgeLabels != map[]
    requires EdgeIrregular(edgeLabels)
    ensures !VerifyUniqueEdgeValues(edgeLabels).allUnique
  {
    UniqueCheckCorrect(edgeLabels);
  }

  /** The check without the `+ 1`, as in `problem1_Ashna.py`: on a graph
      without self-loops it reports "unique" exactly for edge-irregular
      labelings. */
  function VerifyUniqueEdgeValuesCorrected(edgeLabels: WeightMap): (r: Report)
    ensures r.NoEdges? <==> edgeLabels == map[]
    ensures r.Report? ==> IsMax(r.maxWeight, edgeLabels.Values)
    ensures r.Report? && Symmetric(edgeLabels) && Loopless(edgeLabels) ==> (r.allUnique <==> EdgeIrregular(edgeLabels))
  {
    UniqueCheckWhenSimple(edgeLabels);
    Verify(edgeLabels)
  }

  /** From two branches on, the snowflake has no self-loop. */
  lemma NoSelfLoop(n: nat, a: int)
    requires n >= 2
    ensures !IsSnowflakeEdge(n, n, a, a)
  {
    if 1 <= a < n {
      assert a % n == a;
    } else if a == n {
      assert a % n == 0;
    }
  }

  /** The weights `assign_labels` derives on the built snowflake: every edge
      carries the sum of its end labels in both directions, nothing else is
      stored, and from two branches on there is no self-loop. */
  lemma BuiltWeights(n: nat, labels: map<int, int>)
    requires Labelled(Built(n, n), labels)
    ensures Symmetric(Derived(map[], Built(n, n), labels))
    ensures n >= 2 ==> Loopless(Derived(map[], Built(n, n), labels))
    ensures Derived(map[], Built(n, n), labels) == map[] <==> n == 0
  {
    var adj := Built(n, n);
    BuiltAdjacent(n, n);
    if n >= 2 {
      forall a ensures !Adjacent(adj, a, a) {
        NoSelfLoop(n, a);
      }
    }
    DerivedShape(adj, labels);
    if n >= 1 {
      assert Adjacent(adj, 0, 1);
      assert (0, 1) in Derived(map[], adj, labels);
    } else {
      forall p ensures p !in Derived(map[], adj, labels) {
        assert p == (p.0, p.1);
      }
    }
  }

  /** On the derived weights of the built snowflake, both checks report an
      error exactly when there are no branches. From two branches on the
      check as written never says "unique" for an edge-irregular labeling,
      and the corrected check says "unique" exactly for one. */
  lemma BuiltReports(n: nat, labels: map<int, int>)
    requires Labelled(Built(n, n), labels)
    ensures VerifyUniqueEdgeValues(Derived(map[], Built(n, n), labels)).NoEdges? <==> n == 0
    ensures VerifyUniqueEdgeValuesCorrected(Derived(map[], Built(n, n), labels)).NoEdges? <==> n == 0
    ensures n >= 2 && EdgeIrregular(Derived(map[], Built(n, n), labels)) ==>
      !VerifyUniqueEdgeValues(Derived(map[], Built(n, n), labels)).allUnique
    ensures n >= 2 && VerifyUniqueEdgeValuesCorrected(Derived(map[], Built(n, n), labels)).Report? ==>
      (VerifyUniqueEdgeValuesCorrected(Derived(map[], Built(n, n), labels)).allUnique <==> EdgeIrregular(Derived(map[], Built(n, n), labels)))
  {
    var w := Derived(map[], Built(n, n), labels);
    BuiltWeights(n, labels);
    if n >= 2 && EdgeIrregular(w) {
      AsWrittenRejectsIrregular(w);
    }
  }

  /** Build, label and check, as `main` does before it prints and draws:
      the weights are the end-label sums of the built edges, `report` is the
      check as written, which from two branches on never says "unique" for
      an edge-irregular labeling, and `corrected` is the check without the
      `+ 1`, which says "unique" exactly for one. */
  method Run(n: nat, k: int) returns (vertexLabels: map<int, int>, edgeLabels: WeightMap, report: Report, corrected: Report)
    ensures forall v :: v in vertexLabels <==> 0 <= v <= 3 * n
    ensures forall v :: v in vertexLabels ==> vertexLabels[v] == VertexLabel(n, k, v)
    ensures Labelled(Built(n, n), vertexLabels)
    ensures edgeLabels == Derived(map[], Built(n, n), vertexLabels)
    ensures report.NoEdges? <==> n == 0
    ensures n >= 2 && report.Report? && EdgeIrregular(edgeLabels) ==> !report.allUnique
    ensures report == VerifyUniqueEdgeValues(edgeLabels) && corrected == VerifyUniqueEdgeValuesCorrected(edgeLabels)
    ensures corrected.NoEdges? <==> n == 0
    ensures n >= 2 && corrected.Report? ==> (corrected.allUnique <==> EdgeIrregular(edgeLabels))
  {
    var g := Build(n);
    BuiltAdjacent(n, n);
    vertexLabels, edgeLabels := AssignLabels(g, k);
    BuiltReports(n, vertexLabels);
    report := VerifyUniqueEdgeValues(edgeLabels);
    corrected := VerifyUniqueEdgeValuesCorrected(edgeLabels);
  }
}
