/** Edge weights derived from vertex labels, and the after-the-fact check
    that the weights are pairwise distinct. A weight dictionary stores every
    undirected edge twice, once per direction, so "all weights distinct"
    means "half as many distinct values as entries". */
module EdgeWeights {
  import opened Sets
  import opened Adjacency

  /** `(a, b)` is one direction of an edge of the adjacency lists. */
  ghost predicate Touched(adj: AdjList, a: int, b: int) {
    Adjacent(adj, a, b) || Adjacent(adj, b, a)
  }

  /** Every vertex that occurs in the adjacency lists has a label. */
  ghost predicate Labelled(adj: AdjList, labels: map<int, int>) {
    forall a, b :: Adjacent(adj, a, b) ==> a in labels && b in labels
  }

  /** Both directions of every adjacency pair. */
  function AdjPairs(adj: AdjList): (r: set<Edge>)
    ensures forall a, b :: (a, b) in r <==> Touched(adj, a, b)
  {
    (set a, b | a in adj && b in adj[a] :: (a, b)) + (set a, b | a in adj && b in adj[a] :: (b, a))
  }

  /** The dictionary `w` after every adjacency pair `(a, b)` has been given
      the weight `label(a) + label(b)` in both directions. */
  function Derived(w: WeightMap, adj: AdjList, labels: map<int, int>): (r: WeightMap)
    requires Labelled(adj, labels)
    ensures forall a, b :: (a, b) in r <==> (a, b) in w || Touched(adj, a, b)
    ensures forall a, b :: Touched(adj, a, b) ==> r[(a, b)] == labels[a] + labels[b]
    ensures forall a, b :: (a, b) in w && !Touched(adj, a, b) ==> r[(a, b)] == w[(a, b)]
  {
    map p | p in w.Keys + AdjPairs(adj) :: if p in AdjPairs(adj) then labels[p.0] + labels[p.1] else w[p]
  }

  /** Deriving the weights a second time from the same labels changes
      nothing. */
  lemma DerivedIdempotent(w: WeightMap, adj: AdjList, labels: map<int, int>)
    requires Labelled(adj, labels)
    ensures Derived(Derived(w, adj, labels), adj, labels) == Derived(w, adj, labels)
  {
    var once := Derived(w, adj, labels);
    var twice := Derived(once, adj, labels);
    assert forall p :: p in twice <==> p in once by {
      forall p ensures p in twice <==> p in once {
        assert p == (p.0, p.1);
      }
    }
    forall p | p in twice
      ensures twice[p] == once[p]
    {
      assert p == (p.0, p.1);
    }
  }

  /** `(a, b)` is one direction of an adjacency pair whose source vertex is in
      `done`, the vertices the derivation loop has finished. */
  ghost predicate DoneTouch(adj: AdjList, done: set<int>, a: int, b: int) {
    (a in done && Adjacent(adj, a, b)) || (b in done && Adjacent(adj, b, a))
  }

  /** As `DoneTouch`, and also the pairs of `u` with the neighbours `seen`
      the inner loop has handled. */
  ghost predicate InnerDone(adj: AdjList, done: set<int>, u: int, seen: seq<int>, a: int, b: int) {
    || DoneTouch(adj, done, a, b)
    || (a == u && b in seen && Adjacent(adj, u, b))
    || (b == u && a in seen && Adjacent(adj, u, a))
  }

  /** The loop `for vertex, neighbors in adj_list.items(): for neighbor in
      neighbors: w[(vertex, neighbor)] = w[(neighbor, vertex)] = label(vertex)
      + label(neighbor)` of both `calculate_edge_weights` and `assign_labels`. */
  method DeriveWeights(adj: AdjList, labels: map<int, int>, w: WeightMap) returns (r: WeightMap)
    requires Labelled(adj, labels)
    ensures r == Derived(w, adj, labels)
  {
    r := w;
    var todo := adj.Keys;
    ghost var done: set<int> := {};
    while todo != {}
      invariant todo + done == adj.Keys && todo !! done
      invariant forall a, b :: (a, b) in r <==> (a, b) in w || DoneTouch(adj, done, a, b)
      invariant forall a, b :: DoneTouch(adj, done, a, b) ==> r[(a, b)] == labels[a] + labels[b]
      invariant forall a, b :: (a, b) in w && !DoneTouch(adj, done, a, b) ==> r[(a, b)] == w[(a, b)]
      decreases todo
    {
      ghost var some := Pick(todo);
      var u :| u in todo;
      r := WeighNeighbours(adj, labels, w, done, u, r);
      done := done + {u};
      todo := todo - {u};
    }
    assert done == adj.Keys;
    assert forall a, b :: DoneTouch(adj, done, a, b) <==> Touched(adj, a, b);
    MatchesDerived(r, w, adj, labels);
  }

  /** The inner loop of `DeriveWeights` for one vertex `u`: it weighs every
      edge from `u` to a neighbour, in both directions. */
  method WeighNeighbours(adj: AdjList, labels: map<int, int>, w: WeightMap, ghost done: set<int>, u: int, r: WeightMap)
    returns (r': WeightMap)
    requires Labelled(adj, labels) && u in adj
    requires forall a, b :: (a, b) in r <==> (a, b) in w || DoneTouch(adj, done, a, b)
    requires forall a, b :: DoneTouch(adj, done, a, b) ==> r[(a, b)] == labels[a] + labels[b]
    requires forall a, b :: (a, b) in w && !DoneTouch(adj, done, a, b) ==> r[(a, b)] == w[(a, b)]
    ensures forall a, b :: (a, b) in r' <==> (a, b) in w || DoneTouch(adj, done + {u}, a, b)
    ensures forall a, b :: DoneTouch(adj, done + {u}, a, b) ==> r'[(a, b)] == labels[a] + labels[b]
    ensures forall a, b :: (a, b) in w && !DoneTouch(adj, done + {u}, a, b) ==> r'[(a, b)] == w[(a, b)]
  {
    r' := r;
    var neighbors := adj[u];
    var i := 0;
    while i < |neighbors|
      invariant 0 <= i <= |neighbors| && neighbors == adj[u]
      invariant forall a, b :: (a, b) in r' <==> (a, b) in w || InnerDone(adj, done, u, neighbors[..i], a, b)
      invariant forall a, b :: InnerDone(adj, done, u, neighbors[..i], a, b) ==> r'[(a, b)] == labels[a] + labels[b]
      invariant forall a, b :: (a, b) in w && !InnerDone(adj, done, u, neighbors[..i], a, b) ==> r'[(a, b)] == w[(a, b)]
    {
      var v := neighbors[i];
      assert Adjacent(adj, u, v);
      var weight := labels[u] + labels[v];
      r' := r'[(u, v) := weight][(v, u) := weight];
      assert neighbors[..i + 1] == neighbors[..i] + [v];
      i := i + 1;
    }
    assert neighbors[..i] == neighbors;
  }

  /** When every entry of `w` is an adjacency pair, deriving overwrites all
      of `w`: the result is the same as deriving from an empty dictionary. */
  lemma DerivedOverwrites(w: WeightMap, adj: AdjList, labels: map<int, int>)
    requires Labelled(adj, labels)
    requires forall a, b :: (a, b) in w ==> Touched(adj, a, b)
    ensures Derived(w, adj, labels) == Derived(map[], adj, labels)
  {
    MatchesDerived(Derived(w, adj, labels), map[], adj, labels);
  }

  /** A dictionary that agrees with `Derived` entry by entry is `Derived`. */
  lemma MatchesDerived(r: WeightMap, w: WeightMap, adj: AdjList, labels: map<int, int>)
    requires Labelled(adj, labels)
    requires forall a, b :: (a, b) in r <==> (a, b) in w || Touched(adj, a, b)
    requires forall a, b :: Touched(adj, a, b) ==> (a, b) in r && r[(a, b)] == labels[a] + labels[b]
    requires forall a, b :: (a, b) in w && !Touched(adj, a, b) ==> r[(a, b)] == w[(a, b)]
    ensures r == Derived(w, adj, labels)
  {
    var d := Derived(w, adj, labels);
    forall p
      ensures p in r <==> p in d
      ensures p in r ==> r[p] == d[p]
    {
      var (a, b) := p;
      assert (a, b) in d <==> (a, b) in w || Touched(adj, a, b);
      if (a, b) in r {
        if Touched(adj, a, b) {
          assert d[(a, b)] == labels[a] + labels[b];
        } else {
          assert d[(a, b)] == w[(a, b)];
        }
      }
    }
  }

  // ---------------------------------------------------------------------------
  // Uniqueness of the weights.

  /** Every entry has its reverse entry, with the same weight. */
  ghost predicate Symmetric(w: WeightMap) {
    forall a, b :: (a, b) in w ==> (b, a) in w && w[(b, a)] == w[(a, b)]
  }

  /** No entry joins a vertex to itself. */
  ghost predicate Loopless(w: WeightMap) {
    forall a, b :: (a, b) in w ==> a != b
  }

  /** Edge-irregularity: two entries carry the same weight only when they are
      the two directions of the same edge. */
  ghost predicate EdgeIrregular(w: WeightMap) {
    forall p, q :: p in w && q in w && w[p] == w[q] ==> p == q || p == (q.1, q.0)
  }

  /** `len(edge_values) / 2 == len(set(edge_values))`, where `/` is true
      division, so an odd number of entries never passes. */
  function ReportsUnique(w: WeightMap): (r: bool)
    ensures r ==> |w| % 2 == 0 && |w.Values| == |w| / 2
  {
    |w| == 2 * |w.Values|
  }

  function Flip(p: Edge): Edge {
    (p.1, p.0)
  }

  /** Weights derived on an empty dictionary hold each adjacency pair in
      both directions with one weight, and no self-loop unless the lists
      have one. */
  lemma DerivedShape(adj: AdjList, labels: map<int, int>)
    requires Labelled(adj, labels)
    ensures Symmetric(Derived(map[], adj, labels))
    ensures (forall a :: !Adjacent(adj, a, a)) ==> Loopless(Derived(map[], adj, labels))
  {
  }

  /** The entries `(a, b)` with `a < b`: one direction of every edge. */
  function Lower(w: WeightMap): set<Edge> {
    set p | p in w.Keys && p.0 < p.1
  }

  /** The weight of an entry, as a total function. */
  function WeightOf(w: WeightMap): Edge -> int {
    (p: Edge) => if p in w then w[p] else 0
  }

  /** A symmetric dictionary without self-loops holds every edge twice. */
  lemma {:induction false} LowerHalf(w: WeightMap)
    requires Symmetric(w) && Loopless(w)
    ensures |w| == 2 * |Lower(w)|
  {
    var lower := Lower(w);
    var upper := set p | p in w.Keys && p.0 > p.1;
    forall p | p in w.Keys
      ensures p in lower || p in upper
    {
      assert p == (p.0, p.1);
    }
    assert w.Keys == lower + upper;
    assert lower !! upper;
    ImageSize(lower, Flip);
    forall q | q in upper
      ensures q in Image(lower, Flip)
    {
      assert q == (q.0, q.1);
      assert Flip((q.1, q.0)) == q;
    }
    assert upper == Image(lower, Flip);
    assert InjectiveOn(lower, Flip);
  }

  /** Every weight is the weight of an entry of `Lower(w)`. */
  lemma {:induction false} LowerValues(w: WeightMap)
    requires Symmetric(w) && Loopless(w)
    ensures w.Values == Image(Lower(w), WeightOf(w))
  {
    var lower := Lower(w);
    forall x | x in w.Values
      ensures x in Image(lower, WeightOf(w))
    {
      var p :| p in w && w[p] == x;
      assert p == (p.0, p.1);
      if p.0 < p.1 {
        assert p in lower;
      } else {
        assert (p.1, p.0) in lower;
      }
    }
  }

  /** Edge-irregular is the same as: distinct entries of `Lower(w)` carry
      distinct weights. */
  lemma {:induction false} IrregularIffInjective(w: WeightMap)
    requires Symmetric(w) && Loopless(w)
    ensures EdgeIrregular(w) <==> InjectiveOn(Lower(w), WeightOf(w))
  {
    var lower, weight := Lower(w), WeightOf(w);
    if InjectiveOn(lower, weight) {
      forall p, q | p in w && q in w && w[p] == w[q]
        ensures p == q || p == (q.1, q.0)
      {
        assert p == (p.0, p.1) && q == (q.0, q.1);
        var p' := if p.0 < p.1 then p else (p.1, p.0);
        var q' := if q.0 < q.1 then q else (q.1, q.0);
        assert p' in lower && q' in lower;
        assert weight(p') == weight(q');
      }
    }
    if EdgeIrregular(w) {
      forall p, q | p in lower && q in lower && weight(p) == weight(q)
        ensures p == q
      {
        assert p == (p.0, p.1) && q == (q.0, q.1);
      }
    }
  }

  /** On a symmetric dictionary without self-loops, the count comparison
      reports "unique" exactly when the weighting is edge-irregular. */
  lemma {:induction false} UniqueCheckCorrect(w: WeightMap)
    requires Symmetric(w) && Loopless(w)
    ensures ReportsUnique(w) <==> EdgeIrregular(w)
  {
    LowerHalf(w);
    LowerValues(w);
    ImageSize(Lower(w), WeightOf(w));
    IrregularIffInjective(w);
  }

  /** `UniqueCheckCorrect` as an implication, for the checks that take any
      dictionary. */
  lemma UniqueCheckWhenSimple(w: WeightMap)
    ensures Symmetric(w) && Loopless(w) ==> (ReportsUnique(w) <==> EdgeIrregular(w))
  {
    if Symmetric(w) && Loopless(w) {
      UniqueCheckCorrect(w);
    }
  }

  // ---------------------------------------------------------------------------
  // The report of `verify_unique_edge_values`.

  /** What the check prints: whether the weights are unique, and the largest
      weight. `NoEdges` stands for the error `max()` raises on an empty
      dictionary. */
  datatype Report = Report(allUnique: bool, maxWeight: int) | NoEdges

  /** `max` of a non-empty set. */
  function MaxOf(s: set<int>): (r: int)
    requires s != {}
    ensures IsMax(r, s)
  {
    MaxExists(s);
    var x :| IsMax(x, s);
    x
  }

  /** The report computed by `verify_unique_edge_values` with the count
      comparison `unique`. */
  function ReportWith(w: WeightMap, unique: bool): (r: Report)
    ensures r.NoEdges? <==> w == map[]
    ensures r.Report? ==> r.allUnique == unique && IsMax(r.maxWeight, w.Values)
  {
    if w == map[] then NoEdges
    else
      assert exists p :: p in w;
      var p :| p in w;
      assert w[p] in w.Values;
      Report(unique, MaxOf(w.Values))
  }

  /** The check as `problem1_Ashna.py` writes it. */
  function Verify(w: WeightMap): (r: Report)
    ensures r.NoEdges? <==> w == map[]
    ensures r.Report? ==> r.allUnique == ReportsUnique(w) && IsMax(r.maxWeight, w.Values)
  {
    ReportWith(w, ReportsUnique(w))
  }

  /** On the weights of a graph without self-loops, the check reports
      "unique" exactly when the weighting is edge-irregular. */
  lemma VerifyCorrect(w: WeightMap)
    requires Symmetric(w) && Loopless(w) && w != map[]
    ensures Verify(w).allUnique <==> EdgeIrregular(w)
  {
    UniqueCheckCorrect(w);
  }
}
