# Edge-irregular labelings of star-like graphs

The repository builds three families of star-like graphs and labels their
vertices so that the edge weights (the sums of the two end labels) should
all differ. Each program keeps the graph as an adjacency dictionary
`{vertex: [neighbours]}` and a weight dictionary keyed by ordered pairs. It
stores every edge twice, once per direction. `problem1_Ashna.py` and
`Problem3_Alex.py` derive the weights from the labels in a loop of their
own and end with a check that compares the number of distinct weights with
half the number of entries. `Problem2_Melisa.py` has neither: it writes
each weight while it labels, inside `vertex_k_labeling`. This project
models the construction and the labeling of each program, and the weight
derivation and the check of the two programs that have them, and proves
what they compute.

- `sets.dfy` (`Sets`): least and greatest elements of finite integer sets
  (Python's `min`/`max`), the size of an integer range, and the size of the
  image of a set.
- `adjacency.dfy` (`Adjacency`): the two dictionaries, `add_edge` on each of
  them (`Link`, `PutBoth`), and the graph after each step of the
  amalgamated-star builder loop (`StarAdj`, `StarWeights`).
- `edge_weights.dfy` (`EdgeWeights`): the weight derivation loop shared by
  `calculate_edge_weights` and `assign_labels`, proved against the
  specification function `Derived`. It also holds the uniqueness check as
  `Verify`. The main theorem here is `UniqueCheckCorrect`: on a symmetric,
  loop-free weight dictionary, the count comparison says "unique" exactly
  when the weighting is edge-irregular.
- `homogeneous_star.dfy` (`HomogeneousStar`): `problem1_Ashna.py`. It covers
  the S(n, 3) builder loop of `main` and the residue-case closed form of
  `vertex_k_labeling`, written as a `Graph` class that updates its
  dictionaries in place. The weights under the closed form are proved
  pairwise distinct, in `2 .. 3n + 1`, with largest weight `3n + 1`.
  The labels are proved to lie within `k = ceil((3n + 1) / 2)` from two
  branches on; for one branch they do not.
- `snowflake.dfy` (`Snowflake`): `Problem3_Alex.py`. It covers the ring
  builder loop of `main`, the clamped labels of `assign_labels`, and the
  check as written (with its `+ 1`) next to a corrected check.
- `amalgamated_star.dfy` (`AmalgamatedStar`): `Problem2_Melisa.py`. It covers
  `build_graph` and the greedy `vertex_k_labeling` with its shrinking pool
  of weights. The main results:
  - Leaf weights are popped in strictly increasing order, and none of them
    is a center-edge weight.
  - With the program's `k` the pool never runs out.
  - The labeling is edge-irregular exactly when `2 * (n - 1) <= k`.
  - When it is, the pool ends with one weight if `m * n` is even and none
    if it is odd.

Two facts about `Problem2_Melisa.py` follow from the code and are not what
its comments promise:

- The greedy labeling is not always edge-irregular. For `n = 4, m = 2`,
  `k = 5` and `d = 5/3`, so branches 1 and 2 both get label 1 and their
  center edges both weigh 2 (`GreedyIrregularIff`, `CloseLabelsCollide`).
- The pool is not always empty at the end. For `n = 3, m = 2` the weight 8
  is left (`GreedyPoolLeft`).

The model follows the code in both cases.

## Model

| member | source | states |
|---|---|---|
| Sets.MinOf | Problem2_Melisa.py:56 | `min` of a non-empty set is an element of it, no larger than any other element |
| Sets.Interval | Problem2_Melisa.py:36 | `set(range(lo, hi + 1))` holds exactly the integers from `lo` to `hi` |
| Sets.IntervalSize | Problem2_Melisa.py:36 | the pool `{2, ..., 2k}` has `2k - 1` elements (none when `k < 1`) |
| Adjacency.EmptyAdj | problem1_Ashna.py:23 | `{i: [] for i in range(order)}` has keys `0 .. order - 1`, each with an empty list |
| Adjacency.Link | problem1_Ashna.py:35-37 | appending to two neighbour lists keeps the set of vertices |
| Adjacency.LinkLists | problem1_Ashna.py:35-37 | `add_edge` appends `v` to `u`'s list and `u` to `v`'s (`u` twice for a loop), and no other list changes |
| Adjacency.LinkAdjacent | problem1_Ashna.py:35-37 | after `add_edge(u, v)`, `a` lists `b` exactly when it did before or `{a, b} = {u, v}` |
| Adjacency.PutBoth | problem1_Ashna.py:39-40 | after `edge_weights[(u, v)] = x; edge_weights[(v, u)] = x` both directions of `u`–`v` have an entry weighing `x` |
| Adjacency.PutBothEntry | problem1_Ashna.py:38-40 | after `add_edge(u, v, x)`, both directions of `u`–`v` weigh `x`, and every other entry is kept |
| Adjacency.LinkPutBoth | problem1_Ashna.py:26-40 | if the lists and the weight dictionary record the same ordered pairs, they still do after `add_edge` |
| Adjacency.StarLeafRange | problem1_Ashna.py:136-143 | every leaf the builder numbers lies after the branches and within the order |
| Adjacency.StarLeafSucc | problem1_Ashna.py:142 | the leaf counter numbers a branch's leaves consecutively |
| Adjacency.StarLeafNext | problem1_Ashna.py:139-143 | the next branch's leaves continue where the last branch's leaves stopped |
| Adjacency.StarAdj | Problem2_Melisa.py:59-67 | during the builder loop the vertex set stays `0 .. n + nL` |
| Adjacency.LeafAdj | Problem2_Melisa.py:65-67 | during the inner builder loop the vertex set stays `0 .. n + nL` |
| Adjacency.StarAdjacent | Problem2_Melisa.py:59-67 | after the builder, two vertices are neighbours exactly when one is the center and the other a branch, or one is a branch and the other one of its own leaves |
| Adjacency.StarSameEdges | Problem2_Melisa.py:59-67 | the builder links `u` to `v` exactly when it stores a weight for `(u, v)` |
| Adjacency.LeafSameEdges | Problem2_Melisa.py:65-67 | the same as `StarSameEdges`, part way through a branch's leaves |
| Adjacency.StarWeightEntries | Problem2_Melisa.py:59-67 | the builder's weight dictionary holds both directions of every star edge and nothing else |
| Adjacency.StarWeightEntry | Problem2_Melisa.py:59-67 | the same as `StarWeightEntries`, for one pair |
| Adjacency.LeafWeightEntry | Problem2_Melisa.py:65-67 | part way through branch `i`, the entries are the earlier branches' edges, `0`–`i`, and `i`'s first `j` leaf edges |
| Adjacency.StarWeightsZero | Problem2_Melisa.py:64-67 | every weight the builder stores is 0 |
| Adjacency.LeafWeightsZero | Problem2_Melisa.py:64-67 | every weight is 0 part way through a branch too |
| Adjacency.LinkDegree | problem1_Ashna.py:35-37 | `add_edge` between two different vertices adds one entry to each end's list and none to any other |
| Adjacency.StarDegrees | Problem2_Melisa.py:59-67 | during the builder loop the center lists one entry per handled branch, a handled branch the center and its `L` leaves, a handled leaf its branch, and unhandled vertices nothing |
| Adjacency.LeafDegrees | Problem2_Melisa.py:65-67 | the same as `StarDegrees`, part way through a branch's leaves |
| Adjacency.BuiltStarDegrees | Problem2_Melisa.py:59-67 | after the builder the center's list has `n` entries, a branch's `1 + L` and a leaf's 1 |
| EdgeWeights.AdjPairs | problem1_Ashna.py:95-96 | the pairs the derivation loop visits are both directions of every adjacency entry |
| EdgeWeights.Derived | problem1_Ashna.py:95-103 | after the loop, every adjacency pair has the sum of its end labels in both directions; other entries are kept and nothing else is added |
| EdgeWeights.DeriveWeights | problem1_Ashna.py:95-103 | the nested loop over `adj_list.items()` produces exactly `Derived` |
| EdgeWeights.WeighNeighbours | problem1_Ashna.py:96-103 | one pass of the outer loop adds vertex `u` to the finished vertices: every pair with a finished end is weighed |
| EdgeWeights.DerivedIdempotent | problem1_Ashna.py:91-104 | running `calculate_edge_weights` a second time changes nothing |
| EdgeWeights.DerivedOverwrites | problem1_Ashna.py:102-103 | if every stored entry is an adjacency pair, deriving overwrites all of them, as if starting from an empty dictionary |
| EdgeWeights.MatchesDerived | problem1_Ashna.py:95-103 | a dictionary that agrees with the derivation entry by entry is the derivation |
| EdgeWeights.DerivedShape | problem1_Ashna.py:101-103 | derived weights are symmetric, and loop-free when no vertex lists itself |
| EdgeWeights.LowerHalf | problem1_Ashna.py:122 | a symmetric, loop-free dictionary has twice as many entries as edges |
| EdgeWeights.LowerValues | problem1_Ashna.py:121-122 | the weight values are the weights of one direction of each edge |
| EdgeWeights.IrregularIffInjective | problem1_Ashna.py:122 | edge-irregular means that distinct edges get distinct weights |
| EdgeWeights.UniqueCheckCorrect | problem1_Ashna.py:122 | `len(values) / 2 == len(set(values))` holds exactly when the weighting is edge-irregular (symmetric, loop-free weights) |
| EdgeWeights.UniqueCheckWhenSimple | problem1_Ashna.py:122 | the count comparison is right whenever the weights are symmetric and loop-free; used by the checks of both programs that have one |
| EdgeWeights.ReportsUnique | problem1_Ashna.py:122 | `len(edge_values) / 2 == len(set(edge_values))` with true division passes only with an even number of entries, half of which is the number of distinct values |
| EdgeWeights.MaxOf | problem1_Ashna.py:123 | `max` of a non-empty set is an element of it, no smaller than any other element |
| EdgeWeights.ReportWith | problem1_Ashna.py:121-125 | the report is an error exactly for an empty dictionary; otherwise it carries the given verdict and the largest weight |
| EdgeWeights.Verify | problem1_Ashna.py:111-125 | the check reports the count comparison and the largest weight, or fails on an empty dictionary |
| EdgeWeights.VerifyCorrect | problem1_Ashna.py:122 | on the weights of a loop-free graph the check says "unique" exactly when the weighting is edge-irregular |
| HomogeneousStar.Graph.constructor | problem1_Ashna.py:8-25 | a new graph has the given parameters, `order` vertices with empty lists, no weights and no labels |
| HomogeneousStar.Graph.AddEdge | problem1_Ashna.py:26-40 | the lists gain the edge both ways, both directions weigh `weight`, and the labels are untouched |
| HomogeneousStar.Graph.VertexKLabeling | problem1_Ashna.py:42-90 | vertices `0 .. 3n` get the closed-form `Label`, every other label is kept, and adjacency and weights do not change |
| HomogeneousStar.Graph.CalculateEdgeWeights | problem1_Ashna.py:91-104 | the new weights are `Derived` from the graph's lists and labels over the old weights; lists and labels are kept |
| HomogeneousStar.Graph.VerifyUniqueEdgeValues | problem1_Ashna.py:111-125 | the check runs on the graph's own weights (the argument is ignored); on loop-free symmetric weights it says "unique" exactly for an edge-irregular weighting and reports the largest weight |
| HomogeneousStar.AddStarEdges | problem1_Ashna.py:136-143 | the builder loop of `main` leaves the lists and weights of the star with `m` leaves per branch, numbered on from `n` |
| HomogeneousStar.AddBranch | problem1_Ashna.py:139-143 | one pass adds branch `i`'s center edge and its `m` leaf edges, and moves the leaf counter past them |
| HomogeneousStar.AddCenterEdge | problem1_Ashna.py:140 | `add_edge(0, i, 0)` extends the built star by the center edge of branch `i` |
| HomogeneousStar.AddLeafEdge | problem1_Ashna.py:141-143 | `add_edge(i, leaf, 0)` extends the built star by the next leaf edge |
| HomogeneousStar.LabelVertices | problem1_Ashna.py:42-90 | both residue cases label exactly the vertices `0 .. 3n` with `Label` and keep every other label |
| HomogeneousStar.LabelSplitAfterNext | problem1_Ashna.py:50-67 | for `n % 4` in {0, 2, 3} the branch loop and both leaf loops write `Label` on `1 .. 3n` |
| HomogeneousStar.LabelSplitAtQuarter | problem1_Ashna.py:69-89 | for `n % 4 == 1` the branch loop, the low leaves, the two leaves of branch `c` and the high leaves write `Label` on `1 .. 3n` |
| HomogeneousStar.LabelBranchesAtQuarter | problem1_Ashna.py:70-75 | for `n % 4 == 1` branches `1 .. c` get `3i - 2` and later branches `2c + i - 1` |
| HomogeneousStar.LabelQuarterLeaves | problem1_Ashna.py:82-85 | the two leaves of branch `c` get 2 and `n - c + 3`, and the cursor moves past them |
| HomogeneousStar.LabelLowLeaves | problem1_Ashna.py:59-63 | the leaves of the first `last` branches get 2 and 3, and the cursor ends after them |
| HomogeneousStar.LabelHighLeavesAfterNext | problem1_Ashna.py:64-67 | for `n % 4` in {0, 2, 3} the leaves of branches `c + 1 .. n` get `n + i + j - 1 - 2c`, ending at vertex `3n` |
| HomogeneousStar.LabelHighLeavesAtQuarter | problem1_Ashna.py:86-89 | for `n % 4 == 1` the leaves of branches `c + 1 .. n` get `n + i + j - 2c`, ending at vertex `3n` |
| HomogeneousStar.LeafVertexLabel | problem1_Ashna.py:59-67 | the cursor's vertex for leaf `j` of branch `b` carries that leaf's label |
| HomogeneousStar.Quarter | problem1_Ashna.py:54 | `math.ceil(n / 4)`: the `c` with `4(c - 1) < n <= 4c` |
| HomogeneousStar.BranchLabel | problem1_Ashna.py:50-75 | in both residue cases the first `ceil(n / 4)` branches get `3i - 2`; for `n >= 1` branch `i` gets a label between `i` and `n + 2 ceil(n / 4)` |
| HomogeneousStar.LeafLabel | problem1_Ashna.py:59-89 | from two branches on every leaf label lies in `2 .. k` with `k = ceil((3n + 1) / 2)` |
| HomogeneousStar.Label | problem1_Ashna.py:46-89 | the center gets 1, and from two branches on every label of `0 .. 3n` lies in `1 .. k` with `k = ceil((3n + 1) / 2)` |
| HomogeneousStar.WriteStep | problem1_Ashna.py:62-63 | writing the next vertex's label extends the labelled prefix by one |
| HomogeneousStar.SingleBranchExceedsBound | problem1_Ashna.py:84 | with one branch the last leaf gets 3 while `k = 2` |
| HomogeneousStar.EdgeWeightsInjective | problem1_Ashna.py:42-89 | the closed form gives the `3n` edges distinct weights, all in `2 .. 3n + 1` |
| HomogeneousStar.LastEdgeWeight | problem1_Ashna.py:86-89 | the edge to the last leaf weighs `3n + 1` |
| HomogeneousStar.StarEdgeWeight | problem1_Ashna.py:101 | every built edge is edge `j` of some branch `i` and weighs `EdgeWeight(n, i, j)` under the closed form |
| HomogeneousStar.StarEdgeEnds | problem1_Ashna.py:139-143 | a built edge joins two different vertices of `0 .. 3n`, smaller end first |
| HomogeneousStar.StarLabelled | problem1_Ashna.py:101 | labels on `0 .. 3n` cover every vertex of the built star, and the star has no self-loop |
| HomogeneousStar.DerivedEntry | problem1_Ashna.py:101-103 | each derived entry is a direction of some built edge and holds that edge's closed-form weight |
| HomogeneousStar.LabellingIrregular | problem1_Ashna.py:91-104 | the derived weights of the labelled star are symmetric, loop-free and edge-irregular |
| HomogeneousStar.LabellingMaxWeight | problem1_Ashna.py:123 | the largest derived weight is `3n + 1` |
| HomogeneousStar.MaxAt | problem1_Ashna.py:123 | a weight that is stored and bounds all weights is the maximum |
| HomogeneousStar.WeightsAtMost | problem1_Ashna.py:123 | no derived weight exceeds `3n + 1` |
| HomogeneousStar.LastEdgeWeighs | problem1_Ashna.py:101-103 | the entry for branch `n` and leaf `3n` is present and holds `3n + 1` |
| HomogeneousStar.LastEdgeLabelled | problem1_Ashna.py:88 | branch `n` and leaf `3n` are labelled, with labels summing to `3n + 1` |
| HomogeneousStar.LastEdgeLabels | problem1_Ashna.py:86-89 | the last leaf is vertex `3n`, and its label plus branch `n`'s is `3n + 1` |
| HomogeneousStar.LastEdgeAdjacent | problem1_Ashna.py:139-143 | branch `n` lists its second leaf `3n` |
| HomogeneousStar.BuiltWeightsOverwritten | problem1_Ashna.py:147 | `calculate_edge_weights` overwrites every zero the builder stored |
| HomogeneousStar.LabelsWithinBound | problem1_Ashna.py:132 | from two branches on, all of `vertex_k_labeling`'s labels lie in `1 .. k` |
| HomogeneousStar.LabellingReport | problem1_Ashna.py:111-125 | on the labelled star the check reports "unique" with largest weight `3n + 1` |
| HomogeneousStar.Run | problem1_Ashna.py:127-164 | `main` for `m = 2`: the labels follow the closed form (within `k` from two branches on), the weights are the built edges' end-label sums, the weighting is edge-irregular, and the report is ("unique", `3n + 1`) |
| Snowflake.Graph.constructor | Problem3_Alex.py:8-19 | a new graph has `3n + 1` vertices with empty lists and no labels |
| Snowflake.Graph.AddEdge | Problem3_Alex.py:21-33 | the lists gain the edge both ways and both directions carry `weight` |
| Snowflake.NextBranch | Problem3_Alex.py:119 | the ring neighbour of branch `i` is `i % n + 1`, again a branch |
| Snowflake.BranchEdgeStep | Problem3_Alex.py:112-120 | a branch's first `s` edges are its first `s - 1` and its `s`-th |
| Snowflake.SnowflakeEdgeStep | Problem3_Alex.py:112-120 | the edges for branches `1 .. i` are those for `1 .. i - 1` and the four of branch `i` |
| Snowflake.Built | Problem3_Alex.py:112-120 | during the builder loop the vertex set stays `0 .. 3n` |
| Snowflake.BuiltSteps | Problem3_Alex.py:113-120 | the vertex set stays `0 .. 3n` part way through a branch too |
| Snowflake.BuiltAdjacent | Problem3_Alex.py:112-120 | after the loop, two vertices are neighbours exactly when they are center and branch, branch and own leaf, or ring neighbours |
| Snowflake.BuiltAdjacentPair | Problem3_Alex.py:112-120 | the same as `BuiltAdjacent`, for one pair |
| Snowflake.BuiltSameEdges | Problem3_Alex.py:112-120 | the loop links `u` to `v` exactly when it stores a label for `(u, v)` |
| Snowflake.BuiltStepsSameEdges | Problem3_Alex.py:113-120 | the same as `BuiltSameEdges`, part way through a branch |
| Snowflake.BuiltLabelEntries | Problem3_Alex.py:112-120 | the stored edge labels are both directions of every snowflake edge and nothing else |
| Snowflake.BuiltLabelEntryPair | Problem3_Alex.py:112-120 | the same as `BuiltLabelEntries`, for one pair |
| Snowflake.BuiltLabelStepEntryPair | Problem3_Alex.py:113-120 | part way through branch `i`, the entries are the earlier branches' edges and branch `i`'s first `s` edges |
| Snowflake.BuiltLabelsZero | Problem3_Alex.py:113-120 | every label the builder stores is 0 |
| Snowflake.BuiltLabelStepsZero | Problem3_Alex.py:113-120 | every stored label is 0 part way through a branch too |
| Snowflake.BuiltStepsDegree | Problem3_Alex.py:112-120 | part way through the loop each list holds `StepDegree` entries: four from a branch's own pass, one from the ring edge before it, and one for branch 1 from the last ring edge |
| Snowflake.BuiltDegrees | Problem3_Alex.py:112-120 | after the loop the center's list has `n` entries, every branch's 5 (repeats included, as for `n = 2` and `n = 1`) and every leaf's 1 |
| Snowflake.Build | Problem3_Alex.py:109-120 | the graph built by `main` has `3n + 1` vertices, and its lists and labels are the loop's `Built` and `BuiltLabels` |
| Snowflake.AddBranchEdges | Problem3_Alex.py:113-120 | one pass adds the center edge, two leaf edges and the ring edge of branch `i` |
| Snowflake.AddBranchEdge | Problem3_Alex.py:113-120 | one `add_edge(u, v, 0)` extends the built graph by the branch's next edge |
| Snowflake.LeafLabels | Problem3_Alex.py:65-69 | the leaves of branch `i` carry its label plus 1 and plus 3, clamped to `k` |
| Snowflake.LabelsNonDecreasing | Problem3_Alex.py:60-69 | branch labels never decrease along the branches, and a branch's leaves are labelled no lower than the branch, the second no lower than the first |
| Snowflake.AssignLabels | Problem3_Alex.py:36-84 | vertices `0 .. 3n` get `VertexLabel` and nothing else is labelled; the edge labels are `Derived` from an empty dictionary |
| Snowflake.LabelCenterAndBranches | Problem3_Alex.py:57-63 | the center gets 1, branch `v` gets `min(k, 11 + 4(v - 1))`, and `vert` ends at `n` |
| Snowflake.LabelLeafPair | Problem3_Alex.py:65-69 | one pass labels the two leaves of branch `i` and moves `vert` past them |
| Snowflake.BranchLabel | Problem3_Alex.py:60-63 | branch `b` gets `min(k, 11 + 4(b - 1))`: no more than either and equal to one of them |
| Snowflake.VertexLabel | Problem3_Alex.py:57-69 | the center gets 1, and for `k >= 1` every label lies in `1 .. k` |
| Snowflake.VerifyUniqueEdgeValues | Problem3_Alex.py:86-100 | the check as written reports an error on no edges, the largest weight, and "unique" exactly when the number of entries is twice one more than the number of distinct values |
| Snowflake.AsWrittenRejectsIrregular | Problem3_Alex.py:97 | the check as written never says "unique" for an edge-irregular, loop-free, symmetric weighting |
| Snowflake.VerifyUniqueEdgeValuesCorrected | Problem3_Alex.py:96-100 | without the `+ 1`, the check says "unique" exactly for an edge-irregular weighting on a loop-free graph |
| Snowflake.NoSelfLoop | Problem3_Alex.py:119 | from two branches on no built edge joins a vertex to itself |
| Snowflake.BuiltWeights | Problem3_Alex.py:78-82 | the derived edge labels are symmetric, loop-free from two branches on, and empty exactly when `n = 0` |
| Snowflake.BuiltReports | Problem3_Alex.py:86-100 | on the built snowflake both checks report an error exactly for `n = 0`; from two branches on the check as written never says "unique" for an edge-irregular labeling and the corrected one says "unique" exactly for one |
| Snowflake.Run | Problem3_Alex.py:102-131 | `main` with `k` given: labels follow `VertexLabel` and edge labels are the built edges' end-label sums; `report` is the check as written on them, which reports an error exactly for `n = 0` and from two branches on never says "unique" for an edge-irregular labeling; `corrected` is the check without the `+ 1`, which says "unique" exactly for one |
| AmalgamatedStar.FindMinWeight | Problem2_Melisa.py:53-57 | the least weight of a non-empty pool; an empty pool is the error `min` raises |
| AmalgamatedStar.Drain | Problem2_Melisa.py:110-115 | after `t` pops the pool is a subset of the start with `t` fewer weights |
| AmalgamatedStar.PopStep | Problem2_Melisa.py:110-115 | the minimum found is the next pop, and removing it gives the pool after one more pop |
| AmalgamatedStar.DrainAbove | Problem2_Melisa.py:110-115 | every weight still in the pool is above every weight already popped |
| AmalgamatedStar.PoppedIncreasing | Problem2_Melisa.py:110-115 | successive leaf weights strictly increase |
| AmalgamatedStar.Popped | Problem2_Melisa.py:110-115 | pop `t` is the least weight left after `t` pops, and was in the pool at the start of the leaf phase |
| AmalgamatedStar.DrainContents | Problem2_Melisa.py:110-115 | a weight is still in the pool exactly when it was there at the start and has not been popped |
| AmalgamatedStar.Accumulated | Problem2_Melisa.py:80-97 | adding `d` to 0 `t` times gives `t * d` (exact arithmetic), and no additions give 0 |
| AmalgamatedStar.BranchLabelFloor | Problem2_Melisa.py:85-98 | branch 1 gets 1, and branch `b >= 2` the greatest integer not above `(b - 1) * d` |
| AmalgamatedStar.LeavesBefore | Problem2_Melisa.py:108-111 | the leaf counter's offset is never negative |
| AmalgamatedStar.BranchLabelStep | Problem2_Melisa.py:85-98 | labelling branch `i` extends the labelled branches by one |
| AmalgamatedStar.PoolStep | Problem2_Melisa.py:88-104 | removing a center-edge weight if present keeps the pool equal to the start less the weights used so far |
| AmalgamatedStar.CenterEdgeStep | Problem2_Melisa.py:92-101 | weighing branch `i`'s center edge both ways extends the weighed center edges by one |
| AmalgamatedStar.LabelBranches | Problem2_Melisa.py:76-104 | center label 1, branch labels `BranchLabel`, center edges weigh one more than the branch label both ways, other entries kept, pool = start less the center weights |
| AmalgamatedStar.LabelBranch | Problem2_Melisa.py:82-104 | one branch pass: `current_label` grows by `d` from branch 2 on, the branch is labelled, its edge weighed, its weight taken out of the pool |
| AmalgamatedStar.LeavesBeforeProduct | Problem2_Melisa.py:108-111 | the first leaf of branch `b` comes after `(b - 1) * L` leaves |
| AmalgamatedStar.LeafCount | Problem2_Melisa.py:108-111 | all branches together have `n * L` leaves |
| AmalgamatedStar.LeavesBeforeGrows | Problem2_Melisa.py:108-111 | a later branch's leaves come after all of an earlier branch's |
| AmalgamatedStar.LeafOfUnique | Problem2_Melisa.py:108-111 | each leaf belongs to one branch |
| AmalgamatedStar.IsLeafOfStar | Problem2_Melisa.py:61-67 | the leaves the labeling loop visits for a branch are the leaves `build_graph` gave it |
| AmalgamatedStar.LeafLabelStep | Problem2_Melisa.py:111-112 | labelling the next leaf with its pop less its branch's label extends the labelled leaves |
| AmalgamatedStar.LeafWeightStep | Problem2_Melisa.py:113-114 | weighing the next leaf edge with its pop, both ways, extends the weighed leaf edges |
| AmalgamatedStar.LeafWeightKeysStep | Problem2_Melisa.py:113-114 | the next leaf edge's two entries are the only new entries |
| AmalgamatedStar.LeafWeightValuesStep | Problem2_Melisa.py:113-114 | the next leaf edge weighs its pop in both directions, and earlier leaf edges keep theirs |
| AmalgamatedStar.LabelLeaf | Problem2_Melisa.py:109-115 | with the pool non-empty: pop its minimum, label the leaf, weigh its edge, remove the weight; with it empty: report failure, change nothing |
| AmalgamatedStar.LabelBranchLeaves | Problem2_Melisa.py:109-115 | one branch's `L` leaves in turn; failure only if the pool is smaller than the total number of leaves |
| AmalgamatedStar.LabelLeaves | Problem2_Melisa.py:108-115 | the leaf phase succeeds exactly when the pool holds at least `n * L` weights; leaf `v` then weighs pop `v - n - 1` and is labelled that less its branch's label |
| AmalgamatedStar.LeafWithinAll | Problem2_Melisa.py:108-111 | every leaf is numbered within `n + 1 .. n + n * L` |
| AmalgamatedStar.ComposeLabels | Problem2_Melisa.py:76-115 | the branch phase followed by the leaf phase gives the whole labeling |
| AmalgamatedStar.ComposeWeights | Problem2_Melisa.py:76-115 | the branch phase followed by the leaf phase gives the whole weighting |
| AmalgamatedStar.Leaves | Problem2_Melisa.py:65 | each branch has `m - 1` leaves |
| AmalgamatedStar.StarOrder | Problem2_Melisa.py:258 | `m * n + 1` vertices are the center, `n` branches and `n * (m - 1)` leaves |
| AmalgamatedStar.LabelAll | Problem2_Melisa.py:69-117 | both phases: succeed exactly when the pool left after the center edges has `n * L` weights, and leave `GreedyLabels`, `GreedyWeights` and the drained pool |
| AmalgamatedStar.Graph.constructor | Problem2_Melisa.py:11-37 | a new graph has the parameters, `order` vertices with empty lists, no labels, no weights and the pool `{2, ..., 2k}` |
| AmalgamatedStar.Graph.AddEdge | Problem2_Melisa.py:39-47 | the lists gain the edge both ways, both directions weigh `weight`, and labels and pool are untouched |
| AmalgamatedStar.Graph.BuildGraph | Problem2_Melisa.py:59-67 | on a fresh graph the lists and weights become those of the amalgamated star with `m - 1` leaves per branch |
| AmalgamatedStar.Graph.AddBranch | Problem2_Melisa.py:63-67 | one outer pass adds branch `i`'s center edge and leaf edges and moves the counter past its leaves |
| AmalgamatedStar.Graph.AddLeaves | Problem2_Melisa.py:65-67 | the inner loop adds the edges to branch `i`'s leaves, numbered on by the counter |
| AmalgamatedStar.Graph.AddCenterEdge | Problem2_Melisa.py:64 | `add_edge(0, i, 0)` extends the built star by branch `i`'s center edge |
| AmalgamatedStar.Graph.AddLeafEdge | Problem2_Melisa.py:66-67 | `add_edge(i, leaf, 0)` extends the built star by the next leaf edge |
| AmalgamatedStar.Graph.ComputeComplexity | Problem2_Melisa.py:170-178 | the string is `T(` and `)` around a number written as `str` writes it that reads back as `n * m * k` |
| AmalgamatedStar.Graph.VertexKLabeling | Problem2_Melisa.py:69-117 | succeeds exactly when the pool after the center edges holds enough weights; labels, weights and pool then are `GreedyLabels`, `GreedyWeights` and the drained pool; adjacency is untouched |
| AmalgamatedStar.GreedyEdgeIsStar | Problem2_Melisa.py:59-67 | the edges `build_graph` adds are exactly the edges `vertex_k_labeling` weighs |
| AmalgamatedStar.GreedyDerived | Problem2_Melisa.py:86-114 | on the built star every vertex is labelled and every stored weight is the sum of its ends' labels |
| AmalgamatedStar.InBranchWeights | Problem2_Melisa.py:86-99 | each center edge weighs one of the center-edge weights |
| AmalgamatedStar.GreedyKey | Problem2_Melisa.py:88-115 | every entry is a center edge with a center-edge weight, or a leaf edge with a weight popped from the pool |
| AmalgamatedStar.PoppedInjective | Problem2_Melisa.py:110-115 | different pops give different weights |
| AmalgamatedStar.GreedyPairs | Problem2_Melisa.py:88-115 | with distinct branch labels, two entries of equal weight are the two directions of one edge |
| AmalgamatedStar.GreedyIrregular | Problem2_Melisa.py:82-115 | the labeling is edge-irregular exactly when the branch labels are pairwise distinct |
| AmalgamatedStar.GreedyLeafOrder | Problem2_Melisa.py:108-115 | a later leaf's edge weighs more; leaf weights come from the pool and are never center-edge weights |
| AmalgamatedStar.AccumulatedGrows | Problem2_Melisa.py:97 | with `d >= 1` each step raises `current_label` by at least 1 |
| AmalgamatedStar.BranchLabelsIncrease | Problem2_Melisa.py:97-98 | with `d >= 2` branch labels strictly increase |
| AmalgamatedStar.SpacedLabelsDistinct | Problem2_Melisa.py:97-98 | with `d >= 2` branch labels are pairwise distinct |
| AmalgamatedStar.CloseLabelsCollide | Problem2_Melisa.py:85-98 | with three branches or more and `0 <= d < 2`, two branches share a label |
| AmalgamatedStar.BranchLabelsDistinctIff | Problem2_Melisa.py:85-98 | with three branches or more, branch labels are distinct exactly when `d >= 2` |
| AmalgamatedStar.BranchWeightsSize | Problem2_Melisa.py:86-104 | there are at most `n` center-edge weights, and exactly `n` exactly when branch labels are distinct |
| AmalgamatedStar.BranchWeightsWitness | Problem2_Melisa.py:86-99 | every center-edge weight belongs to some branch |
| AmalgamatedStar.MaxLabel | Problem2_Melisa.py:257 | `k = ceil((m * n + 1) / 2)` is the least `k` with `m * n + 1 <= 2k` |
| AmalgamatedStar.PoolSuffices | Problem2_Melisa.py:36-115 | the pool `{2, ..., 2k}` less the center-edge weights always holds enough weights for all leaves |
| AmalgamatedStar.BranchWeightsInRange | Problem2_Melisa.py:97-99 | with `d = k / (n - 1) >= 2` every center edge weighs between 2 and `k + 1` |
| AmalgamatedStar.IrregularPoolLeft | Problem2_Melisa.py:36-115 | when the branch labels are spaced, the pool less the center weights exceeds the leaf count by 1 (`m * n` even) or 0 (odd) |
| AmalgamatedStar.PoolAfterBranches | Problem2_Melisa.py:88-104 | spaced center edges remove `n` weights from `{2, ..., 2k}`, leaving `2k - 1 - n` |
| AmalgamatedStar.SpacingAtLeastTwo | Problem2_Melisa.py:259 | `d = k / (n - 1) >= 2` exactly when `2(n - 1) <= k` |
| AmalgamatedStar.SpacingDistinct | Problem2_Melisa.py:259 | with `d = k / (n - 1)`, branch labels are distinct exactly when `2(n - 1) <= k` |
| AmalgamatedStar.DigitChar | Problem2_Melisa.py:178 | a digit's character stands for that digit |
| AmalgamatedStar.NatToDecimal | Problem2_Melisa.py:178 | `str` of a natural number is a non-empty string of digits that starts with `0` exactly for 0, and is then `"0"` |
| AmalgamatedStar.DecimalRoundTrip | Problem2_Melisa.py:178 | reading back the decimal digits of `x` gives `x` |
| AmalgamatedStar.IntToDecimal | Problem2_Melisa.py:178 | `str(x)` is non-empty, only `"0"` starts with a zero, and it starts with a minus sign exactly for negative `x`, followed by a non-zero digit |
| AmalgamatedStar.IntRoundTrip | Problem2_Melisa.py:178 | `int(str(x)) == x` for every integer |
| AmalgamatedStar.Tagged | Problem2_Melisa.py:178 | `f"T({x})"` is `T(` and `)` around a number written as `str` writes it (no leading zero, no `-0`) that reads back as `x` |
| AmalgamatedStar.Spacing | Problem2_Melisa.py:259 | `d = k / (n - 1)` satisfies `(n - 1) * d == k` |
| AmalgamatedStar.GreedyRun | Problem2_Melisa.py:257-263 | after building and labelling with the program's `k` and `d`: weights are end-label sums, the labeling is edge-irregular exactly when `2(n - 1) <= k`, and then 1 or 0 weights are left as `m * n` is even or odd |
| AmalgamatedStar.GreedyIrregularIff | Problem2_Melisa.py:257-263 | with the program's `k` and `d`, the labeling is edge-irregular exactly when `2(n - 1) <= k` |
| AmalgamatedStar.GreedyPoolLeft | Problem2_Melisa.py:36-115 | when `2(n - 1) <= k` the pool ends with one weight if `m * n` is even and none if it is odd |
| AmalgamatedStar.EmptyStarPool | Problem2_Melisa.py:36 | with no branches `k = 1` and the pool keeps its single weight 2 |
| AmalgamatedStar.BuildAndLabel | Problem2_Melisa.py:246-263 | division by zero exactly for `n = 1`; otherwise the labels and weights are the greedy ones (`GreedyLabels`, `GreedyWeights`) over the pool `{2, ..., 2k}` less the center-edge weights, the pool left is that pool less its `n * (m - 1)` smallest weights, every vertex is labelled, weights are end-label sums, irregular exactly when `2(n - 1) <= k`, and then the pool ends with 1 weight (`m * n` even) or none |
| AmalgamatedStar.BuildAndLabelSpaced | Problem2_Melisa.py:257-263 | with `d` computed, building and labelling never runs out of weights and gives the greedy labels and weights, the drained pool, and the outcome of `BuildAndLabel` |

## Left out

- Drawing with `networkx`/`matplotlib`, and every `print`, `input()` and timing call: they are output only.
- The output files of `Problem2_Melisa.py` (`write_to_output_file`, `graph_output`, `start_output_files`, and the log line in `find_min_weight`): they are output only.
- `test_limits`, `timeout_handler` and `available_memory` of `Problem2_Melisa.py`: they probe memory and time through threads and `psutil`.
- `get_adj_list`: it only returns the field.
- A label dictionary seeded with `None` for every vertex is modelled as a map without those keys. A missing key stands for `None`.
- `HomogeneousStar.Graph.VertexKLabeling`: requires `n >= 1`. For smaller `n` the source reads the unbound cursor `vertex` and fails.
- `HomogeneousStar.Graph.CalculateEdgeWeights`: requires every listed vertex to be labelled. Otherwise the source fails adding `None`.
- `HomogeneousStar.Run`: takes `n` as a parameter; `main` fixes `n = 9` and `m = 2`.
- `AmalgamatedStar.BranchLabel`: `d` and `current_label` are exact rationals. The source uses floating point, whose rounding can change a floored label.
- `Snowflake.AssignLabels`: takes `k` as a parameter. The source computes `ceil(4n * log2(3n + 1))` in floating point.
- `AmalgamatedStar.Graph.BuildGraph`: requires a fresh graph, as `build_and_visualize_graph` calls it. A second call in the source would append a second copy of every edge.
- `AmalgamatedStar.Graph.VertexKLabeling`: when the pool runs out, the source raises. The labels and weights left behind at that point are not described. `PoolSuffices` shows that this cannot happen with the program's `k`.
- `AmalgamatedStar.BuildAndLabel`: requires `n >= 0` and `m >= 1`. With `m < 1` the source's `order` is too small for the edges it adds.
- `HomogeneousStar.Graph.VerifyUniqueEdgeValues`: returns a report instead of printing, as do `Snowflake.VerifyUniqueEdgeValues` and `EdgeWeights.Verify`. The source prints and returns nothing.
- The order in which `calculate_edge_weights` and `assign_labels` visit the adjacency dictionary is left open (the `:|` choice in `EdgeWeights.DeriveWeights`). The result does not depend on it.

## Findings

| source | as written | input that shows it | evidently intended | confidence | as-written member | corrected member |
|---|---|---|---|---|---|---|
| Problem3_Alex.py:97 | `len(edge_values)/2 == len(set(edge_values)) + 1` | any edge-irregular labeling, e.g. a graph with one edge `0–1` weighing 3: 2 entries, 1 distinct value, `1 == 2` is false | `len(edge_values)/2 == len(set(edge_values))`, as at problem1_Ashna.py:122 | not executed | Snowflake.AsWrittenRejectsIrregular | Snowflake.VerifyUniqueEdgeValuesCorrected |
