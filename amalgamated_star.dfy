/** The amalgamated star S(n, m) of `Problem2_Melisa.py` with its greedy
    labeling: center 0, branches 1..n and `m - 1` leaves per branch numbered
    on from `n + 1`. The branch labels are spread by a fixed step
    `d = k / (n - 1)`; each leaf then takes the smallest weight still in the
    pool `{2, ..., 2k}` and is labelled so that its edge has that weight. */
module AmalgamatedStar {
  import opened Sets
  import opened Adjacency
  import opened EdgeWeights

  datatype Option<T> = None | Some(value: T)

  // ---------------------------------------------------------------------------
  // The pool of unused weights.

  /** `find_min_weight`: the smallest weight left in the pool; `min` of an
      empty set raises, which is `None` here. */
  function FindMinWeight(pool: set<int>): (r: Option<int>)
    ensures r.None? <==> pool == {}
    ensures r.Some? ==> IsMin(r.value, pool)
  {
    if pool == {} then None else Some(MinOf(pool))
  }

  /** The pool after its smallest element has been taken out `t` times. */
  function Drain(s: set<int>, t: nat): (r: set<int>)
    requires t <= |s|
    ensures r <= s && |r| == |s| - t
  {
    if t == 0 then s
    else
      var p := Drain(s, t - 1);
      p - {MinOf(p)}
  }

  /** The weight handed out by pop number `t` (counting from 0): the least
      weight left after `t` pops, and one of the starting pool. */
  function Popped(s: set<int>, t: nat): (r: int)
    requires t < |s|
    ensures IsMin(r, Drain(s, t)) && r in s
  {
    MinOf(Drain(s, t))
  }

  /** The least element of the pool after `t` pops is pop number `t`, and
      taking it out leaves the pool after `t + 1` pops. */
  lemma PopStep(s: set<int>, t: nat, w: int)
    requires t < |s| && IsMin(w, Drain(s, t))
    ensures w == Popped(s, t) && Drain(s, t) - {w} == Drain(s, t + 1)
  {
    MinUnique(w, Popped(s, t), Drain(s, t));
  }

  /** What is still in the pool after `t` pops lies above every weight
      already handed out. */
  lemma {:induction false} DrainAbove(s: set<int>, t: nat, u: nat)
    requires u < t <= |s|
    ensures forall x :: x in Drain(s, t) ==> Popped(s, u) < x
    decreases t
  {
    if u < t - 1 {
      DrainAbove(s, t - 1, u);
    }
  }

  /** Pops come out strictly increasing, so no weight is handed out twice. */
  lemma PoppedIncreasing(s: set<int>, u: nat, t: nat)
    requires u < t < |s|
    ensures Popped(s, u) < Popped(s, t)
  {
    DrainAbove(s, t, u);
  }

  /** The pool after `t` pops is the starting pool less the popped weights:
      `x` is still there exactly when it was there at the start and none of
      the first `t` pops handed it out. */
  lemma {:induction false} DrainContents(s: set<int>, t: nat, x: int)
    requires t <= |s|
    ensures x in Drain(s, t) <==> x in s && forall u :: 0 <= u < t ==> Popped(s, u) != x
    decreases t
  {
    if t > 0 {
      DrainContents(s, t - 1, x);
      if x in s && forall u :: 0 <= u < t ==> Popped(s, u) != x {
        assert Popped(s, t - 1) != x;
      }
    }
  }

  // ---------------------------------------------------------------------------
  // The branch labels.

  /** `current_label` after `t` additions of `d` to 0: the product `t * d`. */
  function Accumulated(d: real, t: int): (r: real)
    ensures t <= 0 ==> r == 0.0
    ensures t >= 0 ==> r == t as real * d
    decreases t
  {
    if t <= 0 then 0.0
    else
      assert (t - 1) as real * d + d == t as real * d;
      Accumulated(d, t - 1) + d
  }

  /** The label of branch `b`: 1 for the first branch, and from the second
      on the floor of `current_label`, which has by then grown by `d` once per
      branch after the first. */
  function BranchLabel(d: real, b: int): int {
    if b == 1 then 1 else Accumulated(d, b - 1).Floor
  }

  /** Branch 1 is labelled 1, and branch `b >= 2` with the greatest integer
      not above `(b - 1) * d`. */
  lemma BranchLabelFloor(d: real, b: int)
    ensures b == 1 ==> BranchLabel(d, b) == 1
    ensures b >= 2 ==> BranchLabel(d, b) as real <= (b - 1) as real * d < BranchLabel(d, b) as real + 1.0
  {
  }

  /** The weights of the center edges of branches `1..n`, all taken out of
      the pool: the center's label 1 plus the branch's label. */
  function BranchWeights(n: int, d: real): set<int>
    decreases n
  {
    if n <= 0 then {} else BranchWeights(n - 1, d) + {1 + BranchLabel(d, n)}
  }

  /** Labelling branch `i` extends the labelled prefix. */
  lemma BranchLabelStep(d: real, labels0: map<int, int>, labels: map<int, int>, i: int, x: int)
    requires i >= 1 && BranchesLabelled(d, labels0, labels, i - 1) && x == BranchLabel(d, i)
    ensures BranchesLabelled(d, labels0, labels[i := x], i)
  {
  }

  /** Taking the weight of branch `i`'s center edge out of the pool, if it
      is there, extends the set of removed weights. */
  lemma PoolStep(d: real, pool0: set<int>, pool: set<int>, i: int, weight: int)
    requires i >= 1 && pool == pool0 - BranchWeights(i - 1, d) && weight == 1 + BranchLabel(d, i)
    ensures (if weight in pool then pool - {weight} else pool) == pool0 - BranchWeights(i, d)
  {
  }

  /** `u`–`v` joins the center to one of branches `1..i`. */
  predicate CenterEdge(i: int, u: int, v: int) {
    u == 0 && 1 <= v <= i
  }

  /** The branch loop has labelled the center and branches `1..i` and kept
      every other label of `labels0`. */
  ghost predicate BranchesLabelled(d: real, labels0: map<int, int>, labels: map<int, int>, i: int) {
    && (forall v :: v in labels <==> v in labels0 || 0 <= v <= i)
    && 0 in labels && labels[0] == 1
    && (forall b :: 1 <= b <= i ==> labels[b] == BranchLabel(d, b))
    && (forall v :: v in labels0 && !(0 <= v <= i) ==> labels[v] == labels0[v])
  }

  /** The branch loop has weighed the center edges of branches `1..i` in
      both directions and kept every other weight of `weights0`. */
  ghost predicate CenterEdgesWeighed(d: real, weights0: WeightMap, weights: WeightMap, i: int) {
    && (forall a, b :: (a, b) in weights <==> (a, b) in weights0 || CenterEdge(i, a, b) || CenterEdge(i, b, a))
    && (forall b :: 1 <= b <= i ==> weights[(0, b)] == 1 + BranchLabel(d, b) && weights[(b, 0)] == 1 + BranchLabel(d, b))
    && (forall a, b :: (a, b) in weights0 && !CenterEdge(i, a, b) && !CenterEdge(i, b, a) ==> weights[(a, b)] == weights0[(a, b)])
  }

  /** Weighing the center edge of branch `i` extends the weighed prefix. */
  lemma CenterEdgeStep(d: real, weights0: WeightMap, weights: WeightMap, i: int, u: int, v: int, x: int)
    requires i >= 1 && CenterEdgesWeighed(d, weights0, weights, i - 1)
    requires (u, v) == (0, i) || (u, v) == (i, 0)
    requires x == 1 + BranchLabel(d, i)
    ensures CenterEdgesWeighed(d, weights0, PutBoth(weights, u, v, x), i)
  {
    var r := PutBoth(weights, u, v, x);
    forall a, b
      ensures (a, b) in r <==> (a, b) in weights0 || CenterEdge(i, a, b) || CenterEdge(i, b, a)
      ensures (a, b) in weights0 && !CenterEdge(i, a, b) && !CenterEdge(i, b, a) ==> r[(a, b)] == weights0[(a, b)]
    {
      PutBothEntry(weights, u, v, x, a, b);
    }
    forall b | 1 <= b <= i
      ensures r[(0, b)] == 1 + BranchLabel(d, b) && r[(b, 0)] == 1 + BranchLabel(d, b)
    {
      PutBothEntry(weights, u, v, x, 0, b);
      PutBothEntry(weights, u, v, x, b, 0);
    }
  }

  /** Lines 76-104 of `vertex_k_labeling`: the center gets 1, branch `b`
      gets `BranchLabel(d, b)`, its center edge weighs one more in both
      directions, and that weight leaves the pool if it is there. */
  method LabelBranches(n: int, d: real, labels0: map<int, int>, weights0: WeightMap, pool0: set<int>)
    returns (labels: map<int, int>, weights: WeightMap, pool: set<int>)
    requires n >= 0
    ensures BranchesLabelled(d, labels0, labels, n)
    ensures CenterEdgesWeighed(d, weights0, weights, n)
    ensures pool == pool0 - BranchWeights(n, d)
  {
    labels, weights, pool := labels0[0 := 1], weights0, pool0;
    var current: real := 0.0;
    ghost var done := 0;
    for branch := 1 to n + 1
      invariant done == branch - 1
      invariant current == Accumulated(d, done - 1)
      invariant BranchesLabelled(d, labels0, labels, done)
      invariant CenterEdgesWeighed(d, weights0, weights, done)
      invariant pool == pool0 - BranchWeights(done, d)
    {
      current, labels, weights, pool := LabelBranch(d, labels0, weights0, pool0, branch, current, labels, weights, pool);
      done := branch;
    }
  }

  /** One pass of the branch loop: label branch `i`, weigh its center edge
      in both directions and take that weight out of the pool if it is
      there. */
  method LabelBranch(d: real, labels0: map<int, int>, weights0: WeightMap, pool0: set<int>, i: int,
                     current: real, labels: map<int, int>, weights: WeightMap, pool: set<int>)
    returns (current': real, labels': map<int, int>, weights': WeightMap, pool': set<int>)
    requires i >= 1 && current == Accumulated(d, i - 2)
    requires BranchesLabelled(d, labels0, labels, i - 1)
    requires CenterEdgesWeighed(d, weights0, weights, i - 1)
    requires pool == pool0 - BranchWeights(i - 1, d)
    ensures current' == Accumulated(d, i - 1)
    ensures BranchesLabelled(d, labels0, labels', i)
    ensures CenterEdgesWeighed(d, weights0, weights', i)
    ensures pool' == pool0 - BranchWeights(i, d)
  {
    current', labels', weights', pool' := current, labels, weights, pool;
    if i == 1 {
      BranchLabelStep(d, labels0, labels', i, 1);
      labels' := labels'[i := 1];
      var weight := labels'[0] + labels'[i];
      PoolStep(d, pool0, pool', i, weight);
      if weight in pool' {
        pool' := pool' - {weight};
      }
      CenterEdgeStep(d, weights0, weights', i, 0, i, weight);
      weights' := PutBoth(weights', 0, i, weight);
    } else {
      current' := current' + d;
      BranchLabelStep(d, labels0, labels', i, current'.Floor);
      labels' := labels'[i := current'.Floor];
      var weight := labels'[0] + labels'[i];
      CenterEdgeStep(d, weights0, weights', i, i, 0, weight);
      weights' := PutBoth(weights', i, 0, weight);
      PoolStep(d, pool0, pool', i, weight);
      if weight in pool' {
        pool' := pool' - {weight};
      }
    }
  }

  // ---------------------------------------------------------------------------
  // The leaf labels.

  /** The number of leaves before the first leaf of branch `b`, counted up
      branch by branch as the leaf loop's vertex counter does. */
  function LeavesBefore(L: int, b: int): (r: int)
    ensures L >= 0 ==> r >= 0
    decreases b
  {
    if b <= 1 then 0 else LeavesBefore(L, b - 1) + L
  }

  /** The count is `(b - 1) * L`. */
  lemma {:induction false} LeavesBeforeProduct(L: int, b: int)
    requires b >= 1
    ensures LeavesBefore(L, b) == (b - 1) * L
    decreases b
  {
    if b > 1 {
      LeavesBeforeProduct(L, b - 1);
    }
  }

  /** All `n` branches together have `n * L` leaves. */
  lemma LeafCount(n: int, L: int)
    requires n >= 0
    ensures LeavesBefore(L, n + 1) == n * L
  {
    LeavesBeforeProduct(L, n + 1);
  }

  /** A later branch starts after all the leaves of an earlier one. */
  lemma {:induction false} LeavesBeforeGrows(L: int, b: int, b': int)
    requires L >= 0 && 1 <= b < b'
    ensures LeavesBefore(L, b) + L <= LeavesBefore(L, b')
    decreases b'
  {
    if b < b' - 1 {
      LeavesBeforeGrows(L, b, b' - 1);
    }
  }

  /** `v` is one of the `L` leaves of branch `b`. */
  predicate IsLeafOf(n: int, L: int, b: int, v: int) {
    1 <= b <= n && n + LeavesBefore(L, b) < v <= n + LeavesBefore(L, b) + L
  }

  /** A leaf belongs to one branch only. */
  lemma LeafOfUnique(n: int, L: int, b: int, b': int, v: int)
    requires L >= 0 && IsLeafOf(n, L, b, v) && IsLeafOf(n, L, b', v)
    ensures b == b'
  {
    if b < b' {
      LeavesBeforeGrows(L, b, b');
    } else if b' < b {
      LeavesBeforeGrows(L, b', b);
    }
  }

  /** The leaves of branch `b` are the builder's `StarLeaf(n, L, b, 1..L)`. */
  lemma IsLeafOfStar(n: int, L: int, b: int, v: int)
    requires 1 <= b
    ensures IsLeafOf(n, L, b, v) <==> 1 <= b <= n && StarLeaf(n, L, b, 1) <= v <= StarLeaf(n, L, b, L)
  {
    LeavesBeforeProduct(L, b);
  }

  /** `v` is a leaf of branch `b` numbered at most `hi`. */
  predicate LeafEdgeUpTo(n: int, L: int, hi: int, b: int, v: int) {
    IsLeafOf(n, L, b, v) && v <= hi
  }

  /** The leaf loop has labelled the leaves `n + 1 .. hi`: leaf `v` of branch
      `b` is labelled so that its edge to `b` weighs pop number `v - n - 1`;
      every other label of `labels0` is kept. */
  ghost predicate LeavesLabelled(n: int, L: int, pool0: set<int>, labels0: map<int, int>, labels: map<int, int>, hi: int) {
    && (forall v :: v in labels <==> v in labels0 || n < v <= hi)
    && (forall b, v {:trigger LeafEdgeUpTo(n, L, hi, b, v)} :: LeafEdgeUpTo(n, L, hi, b, v) ==>
          b in labels0 && v in labels && 0 <= v - n - 1 < |pool0| &&
          labels[v] == Popped(pool0, v - n - 1) - labels0[b])
    && (forall v :: v in labels0 && !(n < v <= hi) ==> labels[v] == labels0[v])
  }

  /** The leaf loop has weighed the edges to leaves `n + 1 .. hi` in both
      directions with their pops and kept every other weight of `weights0`. */
  ghost predicate LeafEdgesWeighed(n: int, L: int, pool0: set<int>, weights0: WeightMap, weights: WeightMap, hi: int) {
    LeafWeightKeys(n, L, weights0, weights, hi) && LeafWeightValues(n, L, pool0, weights, hi)
  }

  /** The entries are those of `weights0` and both directions of the edges
      to leaves up to `hi`, and the entries of `weights0` off those edges are
      kept. */
  ghost predicate LeafWeightKeys(n: int, L: int, weights0: WeightMap, weights: WeightMap, hi: int) {
    && (forall a, b :: (a, b) in weights <==> (a, b) in weights0 || LeafEdgeUpTo(n, L, hi, a, b) || LeafEdgeUpTo(n, L, hi, b, a))
    && (forall a, b :: (a, b) in weights0 && !LeafEdgeUpTo(n, L, hi, a, b) && !LeafEdgeUpTo(n, L, hi, b, a) ==>
          weights[(a, b)] == weights0[(a, b)])
  }

  /** The edge to leaf `v` weighs pop number `v - n - 1` both ways. */
  ghost predicate LeafWeightValues(n: int, L: int, pool0: set<int>, weights: WeightMap, hi: int) {
    forall b, v {:trigger LeafEdgeUpTo(n, L, hi, b, v)} :: LeafEdgeUpTo(n, L, hi, b, v) ==>
      0 <= v - n - 1 < |pool0| && (b, v) in weights && (v, b) in weights &&
      weights[(b, v)] == Popped(pool0, v - n - 1) && weights[(v, b)] == Popped(pool0, v - n - 1)
  }

  /** Labelling leaf `hi + 1` of branch `i` extends the labelled prefix. */
  lemma LeafLabelStep(n: int, L: int, pool0: set<int>, labels0: map<int, int>, labels: map<int, int>, hi: int, i: int, x: int)
    requires L >= 0 && hi >= n && LeavesLabelled(n, L, pool0, labels0, labels, hi)
    requires IsLeafOf(n, L, i, hi + 1) && i in labels0 && hi - n < |pool0|
    requires x == Popped(pool0, hi - n) - labels0[i]
    ensures LeavesLabelled(n, L, pool0, labels0, labels[hi + 1 := x], hi + 1)
  {
    var r := labels[hi + 1 := x];
    forall v
      ensures v in r <==> v in labels0 || n < v <= hi + 1
    {
    }
    forall v | v in labels0 && !(n < v <= hi + 1)
      ensures r[v] == labels0[v]
    {
    }
    var top := hi + 1;
    forall b, v {:trigger LeafEdgeUpTo(n, L, top, b, v)} | LeafEdgeUpTo(n, L, top, b, v)
      ensures b in labels0 && v in r && 0 <= v - n - 1 < |pool0| && r[v] == Popped(pool0, v - n - 1) - labels0[b]
    {
      if v == hi + 1 {
        LeafOfUnique(n, L, b, i, v);
      } else {
        assert LeafEdgeUpTo(n, L, hi, b, v);
      }
    }
  }

  /** Weighing the edge to leaf `hi + 1` of branch `i` extends the weighed
      prefix. */
  lemma LeafWeightStep(n: int, L: int, pool0: set<int>, weights0: WeightMap, weights: WeightMap, hi: int, i: int, x: int)
    requires L >= 0 && hi >= n && LeafEdgesWeighed(n, L, pool0, weights0, weights, hi)
    requires IsLeafOf(n, L, i, hi + 1) && hi - n < |pool0| && x == Popped(pool0, hi - n)
    ensures LeafEdgesWeighed(n, L, pool0, weights0, PutBoth(weights, hi + 1, i, x), hi + 1)
  {
    LeafWeightKeysStep(n, L, pool0, weights0, weights, hi, i, x);
    LeafWeightValuesStep(n, L, pool0, weights0, weights, hi, i, x);
  }

  lemma LeafWeightKeysStep(n: int, L: int, pool0: set<int>, weights0: WeightMap, weights: WeightMap, hi: int, i: int, x: int)
    requires L >= 0 && hi >= n && LeafEdgesWeighed(n, L, pool0, weights0, weights, hi)
    requires IsLeafOf(n, L, i, hi + 1)
    ensures LeafWeightKeys(n, L, weights0, PutBoth(weights, hi + 1, i, x), hi + 1)
  {
    forall a, b
      ensures (a, b) in PutBoth(weights, hi + 1, i, x) <==>
        (a, b) in weights0 || LeafEdgeUpTo(n, L, hi + 1, a, b) || LeafEdgeUpTo(n, L, hi + 1, b, a)
      ensures (a, b) in weights0 && !LeafEdgeUpTo(n, L, hi + 1, a, b) && !LeafEdgeUpTo(n, L, hi + 1, b, a) ==>
        PutBoth(weights, hi + 1, i, x)[(a, b)] == weights0[(a, b)]
    {
      PutBothEntry(weights, hi + 1, i, x, a, b);
      if IsLeafOf(n, L, a, hi + 1) {
        LeafOfUnique(n, L, a, i, hi + 1);
      }
      if IsLeafOf(n, L, b, hi + 1) {
        LeafOfUnique(n, L, b, i, hi + 1);
      }
    }
  }

  lemma LeafWeightValuesStep(n: int, L: int, pool0: set<int>, weights0: WeightMap, weights: WeightMap, hi: int, i: int, x: int)
    requires L >= 0 && hi >= n && LeafEdgesWeighed(n, L, pool0, weights0, weights, hi)
    requires IsLeafOf(n, L, i, hi + 1) && hi - n < |pool0| && x == Popped(pool0, hi - n)
    ensures LeafWeightValues(n, L, pool0, PutBoth(weights, hi + 1, i, x), hi + 1)
  {
    var r := PutBoth(weights, hi + 1, i, x);
    var top := hi + 1;
    forall b, v {:trigger LeafEdgeUpTo(n, L, top, b, v)} | LeafEdgeUpTo(n, L, top, b, v)
      ensures 0 <= v - n - 1 < |pool0| && (b, v) in r && (v, b) in r
      ensures r[(b, v)] == Popped(pool0, v - n - 1) && r[(v, b)] == Popped(pool0, v - n - 1)
    {
      PutBothEntry(weights, hi + 1, i, x, b, v);
      PutBothEntry(weights, hi + 1, i, x, v, b);
      if v == hi + 1 {
        LeafOfUnique(n, L, b, i, v);
      } else {
        assert LeafEdgeUpTo(n, L, hi, b, v);
      }
    }
  }

  /** One pass of the inner leaf loop: take the least weight out of the
      pool, label leaf `hi + 1` of `branch` with that weight less the
      branch's label, and give the edge that weight in both directions. When
      the pool is empty nothing changes and `popped` is false. */
  method LabelLeaf(n: int, L: int, pool0: set<int>, labels0: map<int, int>, weights0: WeightMap,
                   labels: map<int, int>, weights: WeightMap, pool: set<int>, hi: int, branch: int)
    returns (popped: bool, labels': map<int, int>, weights': WeightMap, pool': set<int>, leafVerts: int)
    requires L >= 0 && hi >= n && hi - n <= |pool0| && IsLeafOf(n, L, branch, hi + 1) && branch in labels0
    requires LeavesLabelled(n, L, pool0, labels0, labels, hi) && LeafEdgesWeighed(n, L, pool0, weights0, weights, hi)
    requires pool == Drain(pool0, hi - n)
    ensures !popped ==> |pool0| == hi - n && labels' == labels && weights' == weights && pool' == pool
    ensures popped ==> leafVerts == hi + 1 && leafVerts - n <= |pool0| && pool' == Drain(pool0, leafVerts - n)
    ensures popped ==> LeavesLabelled(n, L, pool0, labels0, labels', leafVerts)
    ensures popped ==> LeafEdgesWeighed(n, L, pool0, weights0, weights', leafVerts)
  {
    var leafWeight := FindMinWeight(pool);
    if leafWeight.None? {
      return false, labels, weights, pool, hi;
    }
    PopStep(pool0, hi - n, leafWeight.value);
    leafVerts := hi + 1;
    var leafLabel := leafWeight.value - labels[branch];
    LeafLabelStep(n, L, pool0, labels0, labels, hi, branch, leafLabel);
    LeafWeightStep(n, L, pool0, weights0, weights, hi, branch, leafWeight.value);
    labels' := labels[leafVerts := leafLabel];
    weights' := PutBoth(weights, leafVerts, branch, leafWeight.value);
    pool' := pool - {leafWeight.value};
    popped := true;
  }

  /** The inner leaf loop for one branch: its `L` leaves in turn. `ok` is
      false when the pool runs out on the way. */
  method LabelBranchLeaves(n: int, L: int, pool0: set<int>, labels0: map<int, int>, weights0: WeightMap,
                           labels: map<int, int>, weights: WeightMap, pool: set<int>, hi: int, branch: int)
    returns (ok: bool, labels': map<int, int>, weights': WeightMap, pool': set<int>, leafVerts: int)
    requires L >= 0 && 1 <= branch <= n && branch in labels0
    requires hi == n + LeavesBefore(L, branch) && n <= hi && hi - n <= |pool0|
    requires LeavesLabelled(n, L, pool0, labels0, labels, hi) && LeafEdgesWeighed(n, L, pool0, weights0, weights, hi)
    requires pool == Drain(pool0, hi - n)
    ensures !ok ==> |pool0| < LeavesBefore(L, n + 1)
    ensures ok ==> leafVerts == n + LeavesBefore(L, branch + 1) && leafVerts - n <= |pool0|
    ensures ok ==> LeavesLabelled(n, L, pool0, labels0, labels', leafVerts)
    ensures ok ==> LeafEdgesWeighed(n, L, pool0, weights0, weights', leafVerts)
    ensures ok ==> pool' == Drain(pool0, leafVerts - n)
  {
    labels', weights', pool', leafVerts := labels, weights, pool, hi;
    for leaf := 0 to L
      invariant leafVerts == hi + leaf && leafVerts - n <= |pool0|
      invariant LeavesLabelled(n, L, pool0, labels0, labels', leafVerts)
      invariant LeafEdgesWeighed(n, L, pool0, weights0, weights', leafVerts)
      invariant pool' == Drain(pool0, leafVerts - n)
    {
      var popped;
      popped, labels', weights', pool', leafVerts := LabelLeaf(n, L, pool0, labels0, weights0, labels', weights', pool', leafVerts, branch);
      if !popped {
        LeavesBeforeGrows(L, branch, n + 1);
        return false, labels', weights', pool', leafVerts;
      }
    }
    ok := true;
  }

  /** Lines 108-115 of `vertex_k_labeling`: for each branch in turn and each
      of its `L` leaves, the smallest weight left in the pool is taken out,
      given to the edge in both directions, and the leaf is labelled with
      that weight less its branch's label. `ok` is false when the pool runs
      out first (where the source's `min` raises); the partial state is then
      what the source leaves behind. */
  method LabelLeaves(n: int, L: int, labels0: map<int, int>, weights0: WeightMap, pool0: set<int>)
    returns (ok: bool, labels: map<int, int>, weights: WeightMap, pool: set<int>, leafVerts: int)
    requires n >= 0 && L >= 0
    requires forall b :: 1 <= b <= n ==> b in labels0
    ensures ok <==> LeavesBefore(L, n + 1) <= |pool0|
    ensures ok ==> leafVerts == n + LeavesBefore(L, n + 1) && leafVerts - n <= |pool0|
    ensures ok ==> LeavesLabelled(n, L, pool0, labels0, labels, leafVerts)
    ensures ok ==> LeafEdgesWeighed(n, L, pool0, weights0, weights, leafVerts)
    ensures ok ==> pool == Drain(pool0, LeavesBefore(L, n + 1))
  {
    labels, weights, pool := labels0, weights0, pool0;
    leafVerts := n;
    for branch := 1 to n + 1
      invariant leafVerts == n + LeavesBefore(L, branch) && n <= leafVerts && leafVerts - n <= |pool0|
      invariant LeavesLabelled(n, L, pool0, labels0, labels, leafVerts)
      invariant LeafEdgesWeighed(n, L, pool0, weights0, weights, leafVerts)
      invariant pool == Drain(pool0, leafVerts - n)
    {
      ok, labels, weights, pool, leafVerts := LabelBranchLeaves(n, L, pool0, labels0, weights0, labels, weights, pool, leafVerts, branch);
      if !ok {
        return;
      }
    }
    ok := true;
    assert leafVerts - n == LeavesBefore(L, n + 1);
  }

  // ---------------------------------------------------------------------------
  // The whole labeling.

  /** An edge `vertex_k_labeling` weighs: center to branch, or branch to one
      of its own leaves. */
  predicate GreedyEdge(n: int, L: int, u: int, v: int) {
    CenterEdge(n, u, v) || IsLeafOf(n, L, u, v)
  }

  /** The labels after `vertex_k_labeling`, started from `labels0` and the
      pool `after` left once the center edges' weights were taken out:
      1 for the center, `BranchLabel` for the branches, and for leaf `v` of
      branch `b` pop number `v - n - 1` less the branch's label. */
  ghost predicate GreedyLabels(n: int, L: int, d: real, after: set<int>, labels0: map<int, int>, labels: map<int, int>) {
    && (forall v :: v in labels <==> v in labels0 || 0 <= v <= n + LeavesBefore(L, n + 1))
    && 0 in labels && labels[0] == 1
    && (forall b :: 1 <= b <= n ==> b in labels && labels[b] == BranchLabel(d, b))
    && (forall b, v {:trigger IsLeafOf(n, L, b, v)} :: IsLeafOf(n, L, b, v) ==>
          v in labels && 0 <= v - n - 1 < |after| && labels[v] == Popped(after, v - n - 1) - BranchLabel(d, b))
    && (forall v :: v in labels0 && !(0 <= v <= n + LeavesBefore(L, n + 1)) ==> labels[v] == labels0[v])
  }

  /** The weights after `vertex_k_labeling`: both directions of every center
      edge weigh one more than the branch label, both directions of the edge
      to leaf `v` weigh pop number `v - n - 1`, and other entries of
      `weights0` are kept. */
  ghost predicate GreedyWeights(n: int, L: int, d: real, after: set<int>, weights0: WeightMap, weights: WeightMap) {
    && (forall a, b :: (a, b) in weights <==> (a, b) in weights0 || GreedyEdge(n, L, a, b) || GreedyEdge(n, L, b, a))
    && (forall b :: 1 <= b <= n ==> weights[(0, b)] == 1 + BranchLabel(d, b) && weights[(b, 0)] == 1 + BranchLabel(d, b))
    && (forall b, v {:trigger IsLeafOf(n, L, b, v)} :: IsLeafOf(n, L, b, v) ==>
          0 <= v - n - 1 < |after| && (b, v) in weights && (v, b) in weights &&
          weights[(b, v)] == Popped(after, v - n - 1) && weights[(v, b)] == Popped(after, v - n - 1))
    && (forall a, b :: (a, b) in weights0 && !GreedyEdge(n, L, a, b) && !GreedyEdge(n, L, b, a) ==> weights[(a, b)] == weights0[(a, b)])
  }

  /** A leaf of branch `b` is numbered at most `n + n * L`. */
  lemma LeafWithinAll(n: int, L: int, b: int, v: int)
    requires L >= 0 && IsLeafOf(n, L, b, v)
    ensures n < v <= n + LeavesBefore(L, n + 1)
  {
    if b < n {
      LeavesBeforeGrows(L, b, n + 1);
    } else {
      assert LeavesBefore(L, n + 1) == LeavesBefore(L, n) + L;
    }
  }

  /** The branch phase followed by the leaf phase gives the whole labeling. */
  lemma ComposeLabels(n: int, L: int, d: real, after: set<int>, labels0: map<int, int>, l1: map<int, int>, labels: map<int, int>, hi: int)
    requires n >= 0 && L >= 0 && hi == n + LeavesBefore(L, n + 1)
    requires BranchesLabelled(d, labels0, l1, n)
    requires LeavesLabelled(n, L, after, l1, labels, hi)
    ensures GreedyLabels(n, L, d, after, labels0, labels)
  {
    forall b, v | IsLeafOf(n, L, b, v)
      ensures v in labels && 0 <= v - n - 1 < |after| && labels[v] == Popped(after, v - n - 1) - BranchLabel(d, b)
    {
      LeafWithinAll(n, L, b, v);
      assert LeafEdgeUpTo(n, L, hi, b, v);
    }
  }

  lemma ComposeWeights(n: int, L: int, d: real, after: set<int>, weights0: WeightMap, w1: WeightMap, weights: WeightMap, hi: int)
    requires n >= 0 && L >= 0 && hi == n + LeavesBefore(L, n + 1)
    requires CenterEdgesWeighed(d, weights0, w1, n)
    requires LeafEdgesWeighed(n, L, after, w1, weights, hi)
    ensures GreedyWeights(n, L, d, after, weights0, weights)
  {
    forall a, b
      ensures LeafEdgeUpTo(n, L, hi, a, b) <==> IsLeafOf(n, L, a, b)
    {
      if IsLeafOf(n, L, a, b) {
        LeafWithinAll(n, L, a, b);
      }
    }
    forall b, v | IsLeafOf(n, L, b, v)
      ensures 0 <= v - n - 1 < |after| && (b, v) in weights && (v, b) in weights
      ensures weights[(b, v)] == Popped(after, v - n - 1) && weights[(v, b)] == Popped(after, v - n - 1)
    {
      assert LeafEdgeUpTo(n, L, hi, b, v);
    }
  }

  /** The number of leaves on each branch: both loops over a branch's
      leaves run over `range(1, m)`. */
  function Leaves(m: int): (L: nat)
    requires m >= 1
    ensures L == m - 1
  {
    m - 1
  }

  /** `m * n + 1` vertices are the center, `n` branches and `m - 1` leaves
      on each. */
  lemma StarOrder(n: int, m: int, L: int)
    requires L == m - 1
    ensures m * n + 1 == n + n * L + 1
  {
  }

  /** Both phases of `vertex_k_labeling` on the state `labels0`, `weights0`,
      `pool0`. */
  method LabelAll(n: int, L: int, d: real, labels0: map<int, int>, weights0: WeightMap, pool0: set<int>)
    returns (ok: bool, labels: map<int, int>, weights: WeightMap, pool: set<int>)
    requires n >= 0 && L >= 0
    ensures ok <==> LeavesBefore(L, n + 1) <= |pool0 - BranchWeights(n, d)|
    ensures ok ==> GreedyLabels(n, L, d, pool0 - BranchWeights(n, d), labels0, labels)
    ensures ok ==> GreedyWeights(n, L, d, pool0 - BranchWeights(n, d), weights0, weights)
    ensures ok ==> pool == Drain(pool0 - BranchWeights(n, d), LeavesBefore(L, n + 1))
  {
    var l1, w1, after := LabelBranches(n, d, labels0, weights0, pool0);
    var leafVerts;
    ok, labels, weights, pool, leafVerts := LabelLeaves(n, L, l1, w1, after);
    if ok {
      ComposeLabels(n, L, d, after, labels0, l1, labels, leafVerts);
      ComposeWeights(n, L, d, after, weights0, w1, weights, leafVerts);
    }
  }

  /** The center and the branches are vertices of the built star. */
  lemma StarVertex(n: nat, L: nat, i: int)
    requires 0 <= i <= n
    ensures 0 <= i <= n + n * L
  {
  }

  class Graph {
    const n: int
    const m: int
    const k: int
    const order: int
    const d: real
    var adj: AdjList
    /** A vertex without a key has the label `None`. */
    var vertexLabels: map<int, int>
    /** The weights not yet handed out, `edge_weights_set`. */
    var pool: set<int>
    var edgeWeights: WeightMap

    /** The pool starts as `{2, ..., 2k}`. */
    constructor (n: int, m: int, k: int, order: int, d: real)
      ensures this.n == n && this.m == m && this.k == k && this.order == order && this.d == d
      ensures adj == EmptyAdj(order) && vertexLabels == map[] && edgeWeights == map[]
      ensures pool == Interval(2, 2 * k)
    {
      this.n := n;
      this.m := m;
      this.k := k;
      this.order := order;
      this.d := d;
      adj := EmptyAdj(order);
      vertexLabels := map[];
      pool := Interval(2, 2 * k);
      edgeWeights := map[];
    }

    /** Appends each end to the other's neighbour list and stores `weight`
        under both directions. */
    method AddEdge(u: int, v: int, weight: int)
      requires u in adj && v in adj
      modifies this
      ensures adj == Link(old(adj), u, v)
      ensures edgeWeights == PutBoth(old(edgeWeights), u, v, weight)
      ensures vertexLabels == old(vertexLabels) && pool == old(pool)
    {
      adj := Link(adj, u, v);
      edgeWeights := PutBoth(edgeWeights, u, v, weight);
    }

    /** `build_graph`: for each branch `i`, `add_edge(0, i, 0)` and then
        `add_edge(i, leaf, 0)` for its `m - 1` leaves, numbered on from `n`. */
    method BuildGraph()
      requires n >= 0 && m >= 1
      requires adj == EmptyAdj(m * n + 1) && edgeWeights == map[]
      modifies this
      ensures adj == StarAdj(n, Leaves(m), n) && edgeWeights == StarWeights(n, Leaves(m), n)
      ensures vertexLabels == old(vertexLabels) && pool == old(pool)
    {
      var leaves := Leaves(m);
      StarOrder(n, m, leaves);
      var outerVerts := n;
      for i := 1 to n + 1
        invariant adj == StarAdj(n, leaves, i - 1) && edgeWeights == StarWeights(n, leaves, i - 1)
        invariant outerVerts == StarLeaf(n, leaves, i, 0)
        invariant vertexLabels == old(vertexLabels) && pool == old(pool)
      {
        outerVerts := AddBranch(leaves, i, outerVerts);
      }
    }

    /** One pass of `build_graph`'s outer loop: the center edge of branch `i`
        and then the edges to its `leaves` leaves. */
    method AddBranch(leaves: nat, i: nat, start: int) returns (outerVerts: int)
      requires 1 <= i <= n && start == StarLeaf(n, leaves, i, 0)
      requires adj == StarAdj(n, leaves, i - 1) && edgeWeights == StarWeights(n, leaves, i - 1)
      modifies this
      ensures adj == StarAdj(n, leaves, i) && edgeWeights == StarWeights(n, leaves, i)
      ensures outerVerts == StarLeaf(n, leaves, i + 1, 0)
      ensures vertexLabels == old(vertexLabels) && pool == old(pool)
    {
      AddCenterEdge(leaves, i);
      outerVerts := AddLeaves(leaves, i, start);
      StarLeafNext(n, leaves, i);
    }

    /** The inner loop of `build_graph`: the edges from branch `i` to its
        `leaves` leaves, numbered on from `start`. */
    method AddLeaves(leaves: nat, i: nat, start: int) returns (outerVerts: int)
      requires 1 <= i <= n && start == StarLeaf(n, leaves, i, 0)
      requires adj == LeafAdj(n, leaves, i, 0) && edgeWeights == LeafWeights(n, leaves, i, 0)
      modifies this
      ensures adj == LeafAdj(n, leaves, i, leaves) && edgeWeights == LeafWeights(n, leaves, i, leaves)
      ensures outerVerts == StarLeaf(n, leaves, i, leaves)
      ensures vertexLabels == old(vertexLabels) && pool == old(pool)
    {
      outerVerts := start;
      for j := 0 to leaves
        invariant adj == LeafAdj(n, leaves, i, j) && edgeWeights == LeafWeights(n, leaves, i, j)
        invariant outerVerts == StarLeaf(n, leaves, i, j)
        invariant vertexLabels == old(vertexLabels) && pool == old(pool)
      {
        StarLeafSucc(n, leaves, i, j);
        outerVerts := outerVerts + 1;
        AddLeafEdge(leaves, i, j, outerVerts);
      }
    }

    /** `add_edge(0, i, 0)`, the center edge of branch `i`. */
    method AddCenterEdge(leaves: nat, i: nat)
      requires 1 <= i <= n
      requires adj == StarAdj(n, leaves, i - 1) && edgeWeights == StarWeights(n, leaves, i - 1)
      modifies this
      ensures adj == LeafAdj(n, leaves, i, 0) && edgeWeights == LeafWeights(n, leaves, i, 0)
      ensures vertexLabels == old(vertexLabels) && pool == old(pool)
    {
      StarVertex(n, leaves, i);
      AddEdge(0, i, 0);
    }

    /** `add_edge(i, leaf, 0)` for the leaf after the first `j` of branch `i`. */
    method AddLeafEdge(leaves: nat, i: nat, j: nat, leaf: int)
      requires 1 <= i <= n && j < leaves && leaf == StarLeaf(n, leaves, i, j + 1)
      requires adj == LeafAdj(n, leaves, i, j) && edgeWeights == LeafWeights(n, leaves, i, j)
      modifies this
      ensures adj == LeafAdj(n, leaves, i, j + 1) && edgeWeights == LeafWeights(n, leaves, i, j + 1)
      ensures vertexLabels == old(vertexLabels) && pool == old(pool)
    {
      StarLeafRange(n, leaves, i, j + 1);
      StarVertex(n, leaves, i);
      AddEdge(i, leaf, 0);
    }

    /** `compute_complexity`: `T(n * m * k)`. */
    function ComputeComplexity(): (s: string)
      ensures |s| >= 4 && s[..2] == "T(" && s[|s| - 1] == ')'
      ensures Canonical(s[2..|s| - 1])
      ensures IsSigned(s[2..|s| - 1]) && SignedValue(s[2..|s| - 1]) == n * m * k
    {
      Tagged(n * m * k)
    }

    /** `vertex_k_labeling`: the branch phase, then the leaf phase on the
        pool it leaves. `ok` is false when the pool runs out before the last
        leaf, where the source raises; the state is then what it had reached. */
    method VertexKLabeling() returns (ok: bool, labels: map<int, int>)
      requires n >= 0 && m >= 1
      modifies this
      ensures adj == old(adj) && labels == vertexLabels
      ensures ok <==> LeavesBefore(Leaves(m), n + 1) <= |old(pool) - BranchWeights(n, d)|
      ensures ok ==> GreedyLabels(n, Leaves(m), d, old(pool) - BranchWeights(n, d), old(vertexLabels), vertexLabels)
      ensures ok ==> GreedyWeights(n, Leaves(m), d, old(pool) - BranchWeights(n, d), old(edgeWeights), edgeWeights)
      ensures ok ==> pool == Drain(old(pool) - BranchWeights(n, d), LeavesBefore(Leaves(m), n + 1))
    {
      var weights, left;
      ok, labels, weights, left := LabelAll(n, Leaves(m), d, vertexLabels, edgeWeights, pool);
      vertexLabels, edgeWeights, pool := labels, weights, left;
    }
  }

  // ---------------------------------------------------------------------------
  // What the whole labeling amounts to.

  /** The edges `build_graph` adds are the edges `vertex_k_labeling` weighs. */
  lemma GreedyEdgeIsStar(n: nat, L: nat, a: int, b: int)
    ensures IsStarEdge(n, L, n, a, b) <==> GreedyEdge(n, L, a, b)
  {
    if 1 <= a {
      IsLeafOfStar(n, L, a, b);
    }
  }

  /** Every vertex of the built star is labelled, and every weight is the sum
      of its ends' labels: on the star `build_graph` builds, the weights left
      by `vertex_k_labeling` are the ones `Derived` computes from its labels. */
  lemma GreedyDerived(n: nat, L: nat, d: real, after: set<int>, labels: map<int, int>, weights: WeightMap)
    requires GreedyLabels(n, L, d, after, map[], labels)
    requires GreedyWeights(n, L, d, after, StarWeights(n, L, n), weights)
    ensures Labelled(StarAdj(n, L, n), labels)
    ensures weights == Derived(map[], StarAdj(n, L, n), labels)
  {
    var adj := StarAdj(n, L, n);
    StarAdjacent(n, L, n);
    StarWeightEntries(n, L, n);
    forall a, b
      ensures Touched(adj, a, b) <==> GreedyEdge(n, L, a, b) || GreedyEdge(n, L, b, a)
    {
      GreedyEdgeIsStar(n, L, a, b);
      GreedyEdgeIsStar(n, L, b, a);
    }
    forall a, b | GreedyEdge(n, L, a, b)
      ensures a in labels && b in labels
    {
      if IsLeafOf(n, L, a, b) {
        LeafWithinAll(n, L, a, b);
      }
    }
    forall a, b | Touched(adj, a, b)
      ensures (a, b) in weights && weights[(a, b)] == labels[a] + labels[b]
    {
      if IsLeafOf(n, L, a, b) {
        LeafWithinAll(n, L, a, b);
      }
      if IsLeafOf(n, L, b, a) {
        LeafWithinAll(n, L, b, a);
      }
    }
    MatchesDerived(weights, map[], adj, labels);
  }

  /** The branch labels `1..n` are pairwise different. */
  ghost predicate BranchLabelsDistinct(n: int, d: real) {
    forall a, b :: 1 <= a <= n && 1 <= b <= n && BranchLabel(d, a) == BranchLabel(d, b) ==> a == b
  }

  /** The center edge of every branch weighs one of `BranchWeights`. */
  lemma {:induction false} InBranchWeights(n: int, d: real, b: int)
    requires 1 <= b <= n
    ensures 1 + BranchLabel(d, b) in BranchWeights(n, d)
    decreases n
  {
    if b < n {
      InBranchWeights(n - 1, d, b);
    }
  }

  /** The branch of an edge key: the end that is not the center, or the end
      that is not a leaf. */
  function KeyBranch(n: int, p: Edge): int {
    if p.0 == 0 then p.1 else if p.1 == 0 then p.0 else if p.0 <= n then p.0 else p.1
  }

  /** The leaf of a branch–leaf edge key. */
  function KeyLeaf(n: int, p: Edge): int {
    if p.0 <= n then p.1 else p.0
  }

  /** Every key of the final weights is a center edge, weighing a branch
      weight, or a leaf edge, weighing a weight drawn from the pool. */
  lemma GreedyKey(n: nat, L: nat, d: real, after: set<int>, weights: WeightMap, p: Edge)
    requires GreedyWeights(n, L, d, after, StarWeights(n, L, n), weights)
    requires after !! BranchWeights(n, d)
    requires p in weights
    ensures p.0 == 0 || p.1 == 0 ==>
      && 1 <= KeyBranch(n, p) <= n && (p == (0, KeyBranch(n, p)) || p == (KeyBranch(n, p), 0))
      && weights[p] == 1 + BranchLabel(d, KeyBranch(n, p)) && weights[p] in BranchWeights(n, d)
    ensures p.0 != 0 && p.1 != 0 ==>
      && IsLeafOf(n, L, KeyBranch(n, p), KeyLeaf(n, p))
      && (p == (KeyBranch(n, p), KeyLeaf(n, p)) || p == (KeyLeaf(n, p), KeyBranch(n, p)))
      && 0 <= KeyLeaf(n, p) - n - 1 < |after|
      && weights[p] == Popped(after, KeyLeaf(n, p) - n - 1) && weights[p] in after
  {
    StarWeightEntries(n, L, n);
    GreedyEdgeIsStar(n, L, p.0, p.1);
    GreedyEdgeIsStar(n, L, p.1, p.0);
    if p.0 == 0 || p.1 == 0 {
      InBranchWeights(n, d, KeyBranch(n, p));
    }
  }

  /** Different pops give different weights. */
  lemma PoppedInjective(s: set<int>, u: nat, t: nat)
    requires u < |s| && t < |s| && Popped(s, u) == Popped(s, t)
    ensures u == t
  {
    if u < t {
      PoppedIncreasing(s, u, t);
    }
    if t < u {
      PoppedIncreasing(s, t, u);
    }
  }

  /** With distinct branch labels, two keys of the final weights that weigh
      the same are the two directions of one edge. */
  lemma GreedyPairs(n: nat, L: nat, d: real, after: set<int>, weights: WeightMap, p: Edge, q: Edge)
    requires GreedyWeights(n, L, d, after, StarWeights(n, L, n), weights)
    requires after !! BranchWeights(n, d) && BranchLabelsDistinct(n, d)
    requires p in weights && q in weights && weights[p] == weights[q]
    ensures p == q || p == (q.1, q.0)
  {
    GreedyKey(n, L, d, after, weights, p);
    GreedyKey(n, L, d, after, weights, q);
    if p.0 != 0 && p.1 != 0 && q.0 != 0 && q.1 != 0 {
      PoppedInjective(after, KeyLeaf(n, p) - n - 1, KeyLeaf(n, q) - n - 1);
      LeafOfUnique(n, L, KeyBranch(n, p), KeyBranch(n, q), KeyLeaf(n, p));
    }
  }

  /** The labeling is edge-irregular exactly when the branch labels are
      pairwise different: leaf edges take different weights from the pool,
      none of them a center edge's weight, so only two center edges can
      collide, and they do when two branches share a label. */
  lemma GreedyIrregular(n: nat, L: nat, d: real, after: set<int>, weights: WeightMap)
    requires GreedyWeights(n, L, d, after, StarWeights(n, L, n), weights)
    requires after !! BranchWeights(n, d)
    ensures EdgeIrregular(weights) <==> BranchLabelsDistinct(n, d)
  {
    if BranchLabelsDistinct(n, d) {
      forall p, q | p in weights && q in weights && weights[p] == weights[q]
        ensures p == q || p == (q.1, q.0)
      {
        GreedyPairs(n, L, d, after, weights, p, q);
      }
    } else {
      var a, b :| 1 <= a <= n && 1 <= b <= n && BranchLabel(d, a) == BranchLabel(d, b) && a != b;
      assert weights[(0, a)] == weights[(0, b)];
    }
  }

  /** Later leaves get larger weights: the pool is drained from the bottom. */
  lemma GreedyLeafOrder(n: int, L: int, d: real, after: set<int>, weights0: WeightMap, weights: WeightMap, b: int, v: int, b': int, v': int)
    requires GreedyWeights(n, L, d, after, weights0, weights)
    requires IsLeafOf(n, L, b, v) && IsLeafOf(n, L, b', v') && v < v'
    ensures weights[(b, v)] < weights[(b', v')]
    ensures weights[(b, v)] in after
    ensures after !! BranchWeights(n, d) ==> weights[(b, v)] !in BranchWeights(n, d)
  {
    PoppedIncreasing(after, v - n - 1, v' - n - 1);
  }

  // ---------------------------------------------------------------------------
  // When the branch labels differ.

  /** With `d >= 1` every step of `current_label` adds at least 1. */
  lemma {:induction false} AccumulatedGrows(d: real, s: int, t: int)
    requires d >= 1.0 && 0 <= s < t
    ensures Accumulated(d, s) + 1.0 <= Accumulated(d, t)
    decreases t
  {
    if s < t - 1 {
      AccumulatedGrows(d, s, t - 1);
    }
  }

  /** With `d >= 2` the branch labels strictly increase with the branch. */
  lemma BranchLabelsIncrease(d: real, a: int, b: int)
    requires d >= 2.0 && 1 <= a < b
    ensures BranchLabel(d, a) < BranchLabel(d, b)
  {
    if a == 1 {
      assert Accumulated(d, 1) == d;
      if 1 < b - 1 {
        AccumulatedGrows(d, 1, b - 1);
      }
    } else {
      AccumulatedGrows(d, a - 1, b - 1);
    }
  }

  lemma SpacedLabelsDistinct(n: int, d: real)
    requires d >= 2.0
    ensures BranchLabelsDistinct(n, d)
  {
    forall a, b | 1 <= a <= n && 1 <= b <= n && BranchLabel(d, a) == BranchLabel(d, b)
      ensures a == b
    {
      if a < b {
        BranchLabelsIncrease(d, a, b);
      }
      if b < a {
        BranchLabelsIncrease(d, b, a);
      }
    }
  }

  /** With three branches or more and `0 <= d < 2`, two branches share a
      label: branches 1 and 2 when `d >= 1`, and otherwise branch 3 with one
      of them. */
  lemma CloseLabelsCollide(n: int, d: real)
    requires n >= 3 && 0.0 <= d < 2.0
    ensures !BranchLabelsDistinct(n, d)
  {
    assert Accumulated(d, 1) == d;
    assert Accumulated(d, 2) == d + d;
    if d >= 1.0 {
      assert BranchLabel(d, 1) == BranchLabel(d, 2);
    } else if d + d < 1.0 {
      assert BranchLabel(d, 2) == BranchLabel(d, 3);
    } else {
      assert BranchLabel(d, 1) == BranchLabel(d, 3);
    }
  }

  /** The branch labels differ exactly when `d >= 2`. */
  lemma BranchLabelsDistinctIff(n: int, d: real)
    requires n >= 3 && d >= 0.0
    ensures BranchLabelsDistinct(n, d) <==> d >= 2.0
  {
    if d >= 2.0 {
      SpacedLabelsDistinct(n, d);
    } else {
      CloseLabelsCollide(n, d);
    }
  }

  // ---------------------------------------------------------------------------
  // The pool.

  /** No more center-edge weights than branches, and exactly as many when the
      branch labels differ. */
  lemma {:induction false} BranchWeightsSize(n: nat, d: real)
    ensures |BranchWeights(n, d)| <= n
    ensures |BranchWeights(n, d)| == n <==> BranchLabelsDistinct(n, d)
  {
    if n > 0 {
      BranchWeightsSize(n - 1, d);
      var w := 1 + BranchLabel(d, n);
      if BranchLabelsDistinct(n, d) {
        if w in BranchWeights(n - 1, d) {
          var b := BranchWeightsWitness(n - 1, d, w);
        }
      }
      if !BranchLabelsDistinct(n, d) && BranchLabelsDistinct(n - 1, d) {
        var a, b :| 1 <= a <= n && 1 <= b <= n && BranchLabel(d, a) == BranchLabel(d, b) && a != b;
        var c := if a == n then b else a;
        InBranchWeights(n - 1, d, c);
      }
    }
  }

  /** Every center-edge weight belongs to some branch. */
  lemma {:induction false} BranchWeightsWitness(n: int, d: real, w: int) returns (b: int)
    requires w in BranchWeights(n, d)
    ensures 1 <= b <= n && w == 1 + BranchLabel(d, b)
    decreases n
  {
    if w == 1 + BranchLabel(d, n) {
      b := n;
    } else {
      b := BranchWeightsWitness(n - 1, d, w);
    }
  }

  /** `math.ceil((m * n + 1) / 2)`: the least `k` with `m * n + 1 <= 2 * k`. */
  function MaxLabel(n: int, m: int): (k: int)
    ensures 2 * k - 2 < m * n + 1 <= 2 * k
  {
    (m * n + 2) / 2
  }

  /** The pool `{2, ..., 2k}` always holds enough weights for the leaves:
      it has `2k - 1 >= m * n` of them, at most `n` go to center edges, and
      there are `n * (m - 1)` leaves. */
  lemma PoolSuffices(n: nat, m: int, L: int, d: real)
    requires m >= 1 && L == m - 1
    ensures LeavesBefore(L, n + 1) <= |Interval(2, 2 * MaxLabel(n, m)) - BranchWeights(n, d)|
  {
    var k := MaxLabel(n, m);
    LeafCount(n, L);
    IntervalSize(2, 2 * k);
    BranchWeightsSize(n, d);
    DifferenceSize(Interval(2, 2 * k), BranchWeights(n, d));
    ProductMinusOne(n, m, L);
  }

  /** With `d = k / (n - 1) >= 2` every center edge weighs between 2 and
      `k + 1`: branch labels rise from 1 to `floor((n - 1) * d) = k`. */
  lemma BranchWeightsInRange(n: int, k: int, d: real)
    requires n >= 2 && d >= 2.0 && (n - 1) as real * d == k as real
    ensures BranchWeights(n, d) <= Interval(2, k + 1)
  {
    forall w | w in BranchWeights(n, d)
      ensures 2 <= w <= k + 1
    {
      var b := BranchWeightsWitness(n, d, w);
      if 1 < b {
        BranchLabelsIncrease(d, 1, b);
      }
      if b < n {
        BranchLabelsIncrease(d, b, n);
      }
    }
  }

  /** When the labeling is edge-irregular the pool ends with one weight left
      if `m * n` is even and none if it is odd. */
  lemma IrregularPoolLeft(n: int, m: int, L: int, d: real)
    requires n >= 2 && m >= 1 && L == m - 1 && (n - 1) as real * d == MaxLabel(n, m) as real && 2 * (n - 1) <= MaxLabel(n, m)
    ensures |Interval(2, 2 * MaxLabel(n, m)) - BranchWeights(n, d)| - n * L == if m * n % 2 == 0 then 1 else 0
  {
    PoolAfterBranches(n, MaxLabel(n, m), d);
    ProductMinusOne(n, m, L);
  }

  /** Once the `n` center edges have taken their distinct weights out of
      `{2, ..., 2k}`, `2k - 1 - n` weights are left. */
  lemma PoolAfterBranches(n: int, k: int, d: real)
    requires n >= 2 && (n - 1) as real * d == k as real && 2 * (n - 1) <= k
    ensures |Interval(2, 2 * k) - BranchWeights(n, d)| == 2 * k - 1 - n
  {
    SpacingAtLeastTwo(n, k, d);
    BranchWeightsInRange(n, k, d);
    SpacedLabelsDistinct(n, d);
    BranchWeightsSize(n, d);
    IntervalSize(2, 2 * k);
    SubsetDifferenceSize(Interval(2, 2 * k), BranchWeights(n, d));
  }

  lemma ProductMinusOne(n: int, m: int, L: int)
    requires L == m - 1
    ensures n * L == m * n - n
  {
  }

  /** With `(n - 1) * d = k`, `d >= 2` exactly when `2 * (n - 1) <= k`. */
  lemma SpacingAtLeastTwo(n: int, k: int, d: real)
    requires n >= 2 && (n - 1) as real * d == k as real
    ensures d >= 2.0 <==> 2 * (n - 1) <= k
  {
    var c := (n - 1) as real;
    if d >= 2.0 {
      assert c * d >= c * 2.0;
    } else {
      assert c * d < c * 2.0;
    }
  }

  /** With `d = k / (n - 1)`, the branch labels differ exactly when
      `2 * (n - 1) <= k`. */
  lemma SpacingDistinct(n: int, k: int, d: real)
    requires n >= 2 && k >= 2 && (n - 1) as real * d == k as real
    ensures BranchLabelsDistinct(n, d) <==> 2 * (n - 1) <= k
  {
    SpacingAtLeastTwo(n, k, d);
    assert d >= 0.0;
    if n == 2 {
      SpacedLabelsDistinct(n, d);
    } else {
      BranchLabelsDistinctIff(n, d);
    }
  }

  // ---------------------------------------------------------------------------
  // `compute_complexity`.

  function DigitChar(x: int): (c: char)
    requires 0 <= x < 10
    ensures '0' <= c <= '9' && (c - '0') as int == x
  {
    ('0' as int + x) as char
  }

  predicate IsDigits(s: string) {
    forall i :: 0 <= i < |s| ==> '0' <= s[i] <= '9'
  }

  /** The decimal digits of `x`, as `str` writes them: no leading zero. */
  function NatToDecimal(x: nat): (s: string)
    ensures |s| >= 1 && IsDigits(s)
    ensures s[0] == '0' <==> x == 0
    ensures x == 0 ==> s == "0"
    decreases x
  {
    if x < 10 then [DigitChar(x)] else NatToDecimal(x / 10) + [DigitChar(x % 10)]
  }

  /** The number a string of decimal digits stands for. */
  function DecimalValue(s: string): nat
    requires IsDigits(s)
  {
    if s == [] then 0 else 10 * DecimalValue(s[..|s| - 1]) + (s[|s| - 1] - '0') as int
  }

  /** Reading back the digits `NatToDecimal` writes gives the number. */
  lemma {:induction false} DecimalRoundTrip(x: nat)
    ensures DecimalValue(NatToDecimal(x)) == x
    decreases x
  {
    var s := NatToDecimal(x);
    if x >= 10 {
      DecimalRoundTrip(x / 10);
      assert s[..|s| - 1] == NatToDecimal(x / 10);
      assert s[|s| - 1] == DigitChar(x % 10);
    }
  }

  /** Written out as `str` writes an integer: nothing but "0" starts with a
      zero, and a minus sign stands only before a non-zero digit. */
  predicate Canonical(s: string) {
    && |s| >= 1
    && (s[0] == '0' ==> s == "0")
    && (s[0] == '-' ==> |s| >= 2 && '1' <= s[1] <= '9')
  }

  /** `str` of an integer: a minus sign before the digits when negative. */
  function IntToDecimal(x: int): (s: string)
    ensures Canonical(s)
    ensures x < 0 <==> s[0] == '-'
  {
    if x < 0 then "-" + NatToDecimal(-x) else NatToDecimal(x)
  }

  /** Digits, or a minus sign and digits. */
  predicate IsSigned(s: string) {
    IsDigits(s) || (|s| >= 2 && s[0] == '-' && IsDigits(s[1..]))
  }

  /** `int(s)`. */
  function SignedValue(s: string): int
    requires IsSigned(s)
  {
    if IsDigits(s) then DecimalValue(s) else -(DecimalValue(s[1..]) as int)
  }

  /** `int(str(x)) == x`. */
  lemma IntRoundTrip(x: int)
    ensures IsSigned(IntToDecimal(x)) && SignedValue(IntToDecimal(x)) == x
  {
    var s := IntToDecimal(x);
    if x < 0 {
      DecimalRoundTrip(-x);
      assert s[1..] == NatToDecimal(-x);
      assert !IsDigits(s) by {
        assert s[0] == '-';
      }
    } else {
      DecimalRoundTrip(x);
    }
  }

  /** `f"T({x})"`: the number between `T(` and `)` is written as `str`
      writes it and reads back as `x`. */
  function Tagged(x: int): (s: string)
    ensures |s| >= 4 && s[..2] == "T(" && s[|s| - 1] == ')'
    ensures Canonical(s[2..|s| - 1])
    ensures IsSigned(s[2..|s| - 1]) && SignedValue(s[2..|s| - 1]) == x
  {
    var digits := IntToDecimal(x);
    IntRoundTrip(x);
    var s := "T(" + digits + ")";
    assert s[2..|s| - 1] == digits;
    s
  }

  // ---------------------------------------------------------------------------
  // `build_and_visualize_graph`, less the drawing and the files.

  datatype Outcome =
    | DivisionByZero
    | Done(labels: map<int, int>, weights: WeightMap, pool: set<int>)

  lemma ProductAtLeast(n: nat, m: int)
    requires m >= 1
    ensures m * n >= n
  {
  }

  /** `d = k / (n - 1)`, the step between branch labels. */
  function Spacing(n: int, k: int): (d: real)
    requires n != 1
    ensures (n - 1) as real * d == k as real
  {
    k as real / (n - 1) as real
  }

  /** What the labeling of the whole star amounts to, from the state
      `vertex_k_labeling` leaves on the star `build_graph` built from a
      fresh pool `{2, ..., 2k}`. */
  lemma GreedyRun(n: nat, m: int, L: nat, k: int, d: real, pool0: set<int>, labels: map<int, int>, weights: WeightMap, pool: set<int>)
    requires n != 1 && L == m - 1 && k == MaxLabel(n, m) && (n - 1) as real * d == k as real
    requires pool0 == Interval(2, 2 * k)
    requires GreedyLabels(n, L, d, pool0 - BranchWeights(n, d), map[], labels)
    requires GreedyWeights(n, L, d, pool0 - BranchWeights(n, d), StarWeights(n, L, n), weights)
    requires LeavesBefore(L, n + 1) <= |pool0 - BranchWeights(n, d)|
    requires pool == Drain(pool0 - BranchWeights(n, d), LeavesBefore(L, n + 1))
    ensures Labelled(StarAdj(n, L, n), labels)
    ensures weights == Derived(map[], StarAdj(n, L, n), labels)
    ensures EdgeIrregular(weights) <==> 2 * (n - 1) <= k
    ensures EdgeIrregular(weights) ==> |pool| == if m * n % 2 == 0 then 1 else 0
  {
    GreedyDerived(n, L, d, pool0 - BranchWeights(n, d), labels, weights);
    GreedyIrregularIff(n, m, L, k, d, pool0 - BranchWeights(n, d), weights);
    if 2 * (n - 1) <= k {
      GreedyPoolLeft(n, m, L, k, d, pool0, pool);
    }
  }

  /** The labeling of the whole star is edge-irregular exactly when
      `2 * (n - 1) <= k`. */
  lemma GreedyIrregularIff(n: nat, m: int, L: nat, k: int, d: real, after: set<int>, weights: WeightMap)
    requires n != 1 && m >= 1 && k == MaxLabel(n, m) && (n - 1) as real * d == k as real
    requires GreedyWeights(n, L, d, after, StarWeights(n, L, n), weights)
    requires after !! BranchWeights(n, d)
    ensures EdgeIrregular(weights) <==> 2 * (n - 1) <= k
  {
    GreedyIrregular(n, L, d, after, weights);
    if n >= 2 {
      ProductAtLeast(n, m);
      SpacingDistinct(n, k, d);
    }
  }

  /** When `2 * (n - 1) <= k` the pool ends with one weight left if `m * n`
      is even and none if it is odd. */
  lemma GreedyPoolLeft(n: nat, m: int, L: nat, k: int, d: real, pool0: set<int>, pool: set<int>)
    requires n != 1 && L == m - 1 && k == MaxLabel(n, m) && (n - 1) as real * d == k as real && 2 * (n - 1) <= k
    requires pool0 == Interval(2, 2 * k)
    requires LeavesBefore(L, n + 1) <= |pool0 - BranchWeights(n, d)|
    requires pool == Drain(pool0 - BranchWeights(n, d), LeavesBefore(L, n + 1))
    ensures |pool| == if m * n % 2 == 0 then 1 else 0
  {
    LeafCount(n, L);
    var left := |pool0 - BranchWeights(n, d)| - n * L;
    assert |pool| == left;
    if n == 0 {
      EmptyStarPool(m, L, d);
    } else {
      IrregularPoolLeft(n, m, L, d);
    }
  }

  /** A star with no branches keeps the single weight 2 of `{2, ..., 2k}`. */
  lemma EmptyStarPool(m: int, L: int, d: real)
    ensures MaxLabel(0, m) == 1 && m * 0 % 2 == 0
    ensures |Interval(2, 2 * MaxLabel(0, m)) - BranchWeights(0, d)| - 0 * L == 1
  {
    IntervalSize(2, 2);
  }

  /** The pool the leaf phase starts from: `{2, ..., 2k}` with the program's
      `k`, less the weights of the center edges. */
  function SpacedPool(n: int, m: int, d: real): set<int> {
    Interval(2, 2 * MaxLabel(n, m)) - BranchWeights(n, d)
  }

  /** Computes `k` and `d`, builds the amalgamated star of `n` branches with
      `m - 1` leaves each and labels it. `d = k / (n - 1)` fails for `n = 1`.
      Otherwise the pool never runs out, every vertex is labelled, every
      edge weighs the sum of its ends' labels, the labeling is
      edge-irregular exactly when `2 * (n - 1) <= k`, and then one weight is
      left in the pool when `m * n` is even and none when it is odd. */
  method BuildAndLabel(n: int, m: int) returns (r: Outcome)
    requires n >= 0 && m >= 1
    ensures r.DivisionByZero? <==> n == 1
    ensures r.Done? ==> Labelled(StarAdj(n, Leaves(m), n), r.labels)
    ensures r.Done? ==> r.weights == Derived(map[], StarAdj(n, Leaves(m), n), r.labels)
    ensures r.Done? ==> (EdgeIrregular(r.weights) <==> 2 * (n - 1) <= MaxLabel(n, m))
    ensures r.Done? && EdgeIrregular(r.weights) ==> |r.pool| == if m * n % 2 == 0 then 1 else 0
    ensures r.Done? ==> GreedyLabels(n, Leaves(m), Spacing(n, MaxLabel(n, m)), SpacedPool(n, m, Spacing(n, MaxLabel(n, m))), map[], r.labels)
    ensures r.Done? ==> GreedyWeights(n, Leaves(m), Spacing(n, MaxLabel(n, m)), SpacedPool(n, m, Spacing(n, MaxLabel(n, m))), StarWeights(n, Leaves(m), n), r.weights)
    ensures r.Done? ==> LeavesBefore(Leaves(m), n + 1) <= |SpacedPool(n, m, Spacing(n, MaxLabel(n, m)))|
    ensures r.Done? ==> r.pool == Drain(SpacedPool(n, m, Spacing(n, MaxLabel(n, m))), LeavesBefore(Leaves(m), n + 1))
  {
    var k := MaxLabel(n, m);
    var order := m * n + 1;
    if n - 1 == 0 {
      return DivisionByZero;
    }
    var d := Spacing(n, k);
    assert (n - 1) as real * d == k as real;
    r := BuildAndLabelSpaced(n, m, k, order, d);
  }

  /** The part of `BuildAndLabel` after the spacing has been computed: build
      the star on a fresh graph, then label it greedily. */
  method BuildAndLabelSpaced(n: nat, m: int, k: int, order: int, d: real) returns (r: Outcome)
    requires n != 1 && m >= 1 && k == MaxLabel(n, m) && order == m * n + 1
    requires (n - 1) as real * d == k as real
    ensures r.Done?
    ensures Labelled(StarAdj(n, Leaves(m), n), r.labels)
    ensures r.weights == Derived(map[], StarAdj(n, Leaves(m), n), r.labels)
    ensures EdgeIrregular(r.weights) <==> 2 * (n - 1) <= k
    ensures EdgeIrregular(r.weights) ==> |r.pool| == if m * n % 2 == 0 then 1 else 0
    ensures GreedyLabels(n, Leaves(m), d, SpacedPool(n, m, d), map[], r.labels)
    ensures GreedyWeights(n, Leaves(m), d, SpacedPool(n, m, d), StarWeights(n, Leaves(m), n), r.weights)
    ensures LeavesBefore(Leaves(m), n + 1) <= |SpacedPool(n, m, d)|
    ensures r.pool == Drain(SpacedPool(n, m, d), LeavesBefore(Leaves(m), n + 1))
  {
    var g := new Graph(n, m, k, order, d);
    g.BuildGraph();
    var pool0 := g.pool;
    PoolSuffices(n, m, Leaves(m), d);
    var ok, labels := g.VertexKLabeling();
    GreedyRun(n, m, Leaves(m), k, d, pool0, labels, g.edgeWeights, g.pool);
    r := Done(labels, g.edgeWeights, g.pool);
  }
}
