/** The bounding volume hierarchy of `src/accelerator/bvh.rs`: the recursive
    midpoint build that appends primitives to `ordered_primitives`, the
    depth-first flattening of the build tree into `linear_bvh_nodes`, and the
    stack traversal of `intersect`.

    Coordinates are reals. `Bounds3f::empty()` (infinite corners) is the
    separate constructor `EmptyBounds`; every operation gives it the value the
    IEEE arithmetic of the source gives the infinite box. */
module Bvh {
  import opened Wrappers

  const U8Max: nat := 255
  const U16Max: nat := 65535
  const U32Modulus: nat := 0x1_0000_0000

  /** `x as u32` for a `usize` value. */
  function AsU32(x: nat): (r: nat)
    ensures r < U32Modulus
    ensures x < U32Modulus ==> r == x
  {
    x % U32Modulus
  }

  // ---------------------------------------------------------------------
  // Geometry (src/euclidean_space/bounds.rs)

  datatype Vec3 = Vec3(x: real, y: real, z: real)
  {
    /** Component `axis` (0, 1, 2 for x, y, z). */
    function At(axis: nat): real
      requires axis < 3
    {
      if axis == 0 then x else if axis == 1 then y else z
    }
  }

  function Min(a: real, b: real): real
  {
    if a <= b then a else b
  }

  function Max(a: real, b: real): real
  {
    if a <= b then b else a
  }

  function MinVec(a: Vec3, b: Vec3): Vec3
  {
    Vec3(Min(a.x, b.x), Min(a.y, b.y), Min(a.z, b.z))
  }

  function MaxVec(a: Vec3, b: Vec3): Vec3
  {
    Vec3(Max(a.x, b.x), Max(a.y, b.y), Max(a.z, b.z))
  }

  /** Componentwise `a <= b`. */
  predicate AtMost(a: Vec3, b: Vec3)
  {
    a.x <= b.x && a.y <= b.y && a.z <= b.z
  }

  /** An axis-aligned box; `EmptyBounds` is `Bounds3f::empty()`. */
  datatype Bounds = EmptyBounds | Box(pMin: Vec3, pMax: Vec3)

  /** Every point of `inner` lies in `outer`. */
  predicate Encloses(outer: Bounds, inner: Bounds)
  {
    match inner
    case EmptyBounds => true
    case Box(lo, hi) => outer.Box? && AtMost(outer.pMin, lo) && AtMost(hi, outer.pMax)
  }

  lemma {:induction false} EnclosesTransitive(a: Bounds, b: Bounds, c: Bounds)
    requires Encloses(a, b) && Encloses(b, c)
    ensures Encloses(a, c)
  {
  }

  /** `Add for Bounds3f`: the componentwise minimum and maximum of the
      corners (the infinite corners of the empty box never win). */
  function Union(a: Bounds, b: Bounds): Bounds
  {
    match a
    case EmptyBounds => b
    case Box(aMin, aMax) =>
      match b
      case EmptyBounds => a
      case Box(bMin, bMax) => Box(MinVec(aMin, bMin), MaxVec(aMax, bMax))
  }

  /** The union encloses both arguments, and is empty only if both are. */
  lemma {:induction false} UnionEncloses(a: Bounds, b: Bounds)
    ensures Encloses(Union(a, b), a) && Encloses(Union(a, b), b)
    ensures Union(a, b).EmptyBounds? <==> a.EmptyBounds? && b.EmptyBounds?
  {
  }

  /** The union is the smallest box enclosing both arguments. */
  lemma {:induction false} UnionLeast(a: Bounds, b: Bounds, c: Bounds)
    requires Encloses(c, a) && Encloses(c, b)
    ensures Encloses(c, Union(a, b))
  {
  }

  /** `Bounds3f::union` with a point. */
  function UnionPoint(b: Bounds, p: Vec3): (r: Bounds)
    ensures r.Box?
  {
    Union(b, Box(p, p))
  }

  /** `p_max - p_min`. */
  function Diagonal(b: Bounds): Vec3
    requires b.Box?
  {
    Vec3(b.pMax.x - b.pMin.x, b.pMax.y - b.pMin.y, b.pMax.z - b.pMin.z)
  }

  /** `surface_area() == 0.0`. The empty box has infinite area. */
  predicate ZeroArea(b: Bounds)
  {
    match b
    case EmptyBounds => false
    case Box(_, _) =>
      var d := Diagonal(b);
      2.0 * (d.x * d.y + d.x * d.z + d.y * d.z) == 0.0
  }

  /** `max_dimension`: x if its extent beats both others strictly, else y
      if it beats z strictly, else z. All extents of the empty box are equal
      (negative infinity), which selects z. */
  function MaxDimension(b: Bounds): (axis: nat)
    ensures axis < 3
  {
    match b
    case EmptyBounds => 2
    case Box(_, _) =>
      var d := Diagonal(b);
      if d.x > d.y && d.x > d.z then 0 else if d.y > d.z then 1 else 2
  }

  /** The extent along `axis` is empty: `p_min[axis] == p_max[axis]`. The
      infinite corners of the empty box differ. */
  predicate Flat(b: Bounds, axis: nat)
    requires axis < 3
  {
    b.Box? && b.pMin.At(axis) == b.pMax.At(axis)
  }

  /** The midpoint along `axis`. For the empty box the source computes NaN,
      which no centroid is compared against since there are none. */
  function Midpoint(b: Bounds, axis: nat): real
    requires axis < 3
  {
    match b
    case EmptyBounds => 0.0
    case Box(lo, hi) => (lo.At(axis) + hi.At(axis)) / 2.0
  }

  // ---------------------------------------------------------------------
  // Build (src/accelerator/bvh.rs:69-92, 166-258)

  /** `BVHPrimitive`: the index of a primitive in the input, its bounds and
      the centroid of those bounds. */
  datatype BvhPrimitive = BvhPrimitive(index: nat, bounds: Bounds, centroid: Vec3)

  /** `BVHPrimitive::new`: the centroid is the midpoint of the corners. */
  function MakePrimitive(index: nat, pMin: Vec3, pMax: Vec3): (p: BvhPrimitive)
    ensures p.index == index && p.bounds == Box(pMin, pMax)
    ensures AtMost(pMin, pMax) ==> AtMost(pMin, p.centroid) && AtMost(p.centroid, pMax)
  {
    BvhPrimitive(index, Box(pMin, pMax),
      Vec3(0.5 * (pMin.x + pMax.x), 0.5 * (pMin.y + pMax.y), 0.5 * (pMin.z + pMax.z)))
  }

  /** The primitive indices of `prims`, in order. */
  function Indices(prims: seq<BvhPrimitive>): (r: seq<nat>)
    ensures |r| == |prims|
    ensures forall i :: 0 <= i < |prims| ==> r[i] == prims[i].index
  {
    seq(|prims|, i requires 0 <= i < |prims| => prims[i].index)
  }

  /** The iterator sum of the bounds of the first `n` primitives: a left
      fold with `+`, the empty box when there are none. */
  function FullBounds(prims: seq<BvhPrimitive>, n: nat): Bounds
    requires n <= |prims|
  {
    if n == 0 then EmptyBounds
    else Union(FullBounds(prims, n - 1), prims[n - 1].bounds)
  }

  /** The summed bounds enclose the bounds of every primitive summed. */
  lemma {:induction false} FullBoundsEncloses(prims: seq<BvhPrimitive>, n: nat)
    requires n <= |prims|
    ensures forall i :: 0 <= i < n ==> Encloses(FullBounds(prims, n), prims[i].bounds)
  {
    if n > 0 {
      FullBoundsEncloses(prims, n - 1);
      forall i | 0 <= i < n - 1 {
        EnclosesTransitive(FullBounds(prims, n), FullBounds(prims, n - 1), prims[i].bounds);
      }
    }
  }

  /** The bounds of the first `n` centroids: the empty box extended by each
      centroid in turn. */
  function CentroidBounds(prims: seq<BvhPrimitive>, n: nat): (r: Bounds)
    requires n <= |prims|
    ensures r.EmptyBounds? <==> n == 0
  {
    if n == 0 then EmptyBounds
    else UnionPoint(CentroidBounds(prims, n - 1), prims[n - 1].centroid)
  }

  /** Every centroid lies in the centroid bounds. */
  lemma {:induction false} CentroidBoundsEncloses(prims: seq<BvhPrimitive>, n: nat)
    requires n <= |prims|
    ensures forall i :: 0 <= i < n ==>
      Encloses(CentroidBounds(prims, n), Box(prims[i].centroid, prims[i].centroid))
  {
    if n > 0 {
      CentroidBoundsEncloses(prims, n - 1);
      forall i | 0 <= i < n - 1 {
        EnclosesTransitive(CentroidBounds(prims, n), CentroidBounds(prims, n - 1),
          Box(prims[i].centroid, prims[i].centroid));
      }
    }
  }

  /** The split test of `build_recursive`: a primitive goes left when its
      centroid along `axis` is at most `mid`. */
  predicate GoesLeft(p: BvhPrimitive, axis: nat, mid: real)
    requires axis < 3
  {
    p.centroid.At(axis) <= mid
  }

  /** Of the first `n` primitives, those sent left, in input order. */
  function Lefts(prims: seq<BvhPrimitive>, n: nat, axis: nat, mid: real): seq<BvhPrimitive>
    requires n <= |prims| && axis < 3
  {
    if n == 0 then []
    else if GoesLeft(prims[n - 1], axis, mid) then Lefts(prims, n - 1, axis, mid) + [prims[n - 1]]
    else Lefts(prims, n - 1, axis, mid)
  }

  /** Of the first `n` primitives, those sent right, in input order. */
  function Rights(prims: seq<BvhPrimitive>, n: nat, axis: nat, mid: real): seq<BvhPrimitive>
    requires n <= |prims| && axis < 3
  {
    if n == 0 then []
    else if GoesLeft(prims[n - 1], axis, mid) then Rights(prims, n - 1, axis, mid)
    else Rights(prims, n - 1, axis, mid) + [prims[n - 1]]
  }

  /** The left side holds exactly the primitives whose centroid is at most
      `mid`, the right side the others. */
  lemma {:induction false} PartitionSides(prims: seq<BvhPrimitive>, n: nat, axis: nat, mid: real)
    requires n <= |prims| && axis < 3
    ensures forall p :: p in Lefts(prims, n, axis, mid) ==> p in prims[..n] && GoesLeft(p, axis, mid)
    ensures forall p :: p in Rights(prims, n, axis, mid) ==> p in prims[..n] && !GoesLeft(p, axis, mid)
  {
    if n > 0 {
      PartitionSides(prims, n - 1, axis, mid);
      assert prims[..n] == prims[..n - 1] + [prims[n - 1]];
    }
  }

  /** Together the two sides are the input, with multiplicities. */
  lemma {:induction false} PartitionPermutation(prims: seq<BvhPrimitive>, n: nat, axis: nat, mid: real)
    requires n <= |prims| && axis < 3
    ensures multiset(Lefts(prims, n, axis, mid)) + multiset(Rights(prims, n, axis, mid))
      == multiset(prims[..n])
  {
    if n > 0 {
      PartitionPermutation(prims, n - 1, axis, mid);
      assert prims[..n] == prims[..n - 1] + [prims[n - 1]];
    }
  }

  /** Every primitive goes to exactly one side. */
  lemma {:induction false} PartitionLengths(prims: seq<BvhPrimitive>, n: nat, axis: nat, mid: real)
    requires n <= |prims| && axis < 3
    ensures |Lefts(prims, n, axis, mid)| + |Rights(prims, n, axis, mid)| == n
  {
    if n > 0 {
      PartitionLengths(prims, n - 1, axis, mid);
    }
  }

  /** The same holds of the primitive indices on each side. */
  lemma {:induction false} PartitionIndices(prims: seq<BvhPrimitive>, n: nat, axis: nat, mid: real)
    requires n <= |prims| && axis < 3
    ensures multiset(Indices(Lefts(prims, n, axis, mid))) + multiset(Indices(Rights(prims, n, axis, mid)))
      == multiset(Indices(prims[..n]))
  {
    if n > 0 {
      var p := prims[n - 1];
      PartitionIndices(prims, n - 1, axis, mid);
      assert prims[..n] == prims[..n - 1] + [p];
      IndicesSnoc(prims[..n - 1], p);
      if GoesLeft(p, axis, mid) {
        IndicesSnoc(Lefts(prims, n - 1, axis, mid), p);
      } else {
        IndicesSnoc(Rights(prims, n - 1, axis, mid), p);
      }
    }
  }

  lemma {:induction false} PartitionIndicesAll(prims: seq<BvhPrimitive>, axis: nat, mid: real)
    requires axis < 3
    ensures multiset(Indices(Lefts(prims, |prims|, axis, mid)))
      + multiset(Indices(Rights(prims, |prims|, axis, mid))) == multiset(Indices(prims))
  {
    PartitionIndices(prims, |prims|, axis, mid);
    assert prims[..|prims|] == prims;
  }

  lemma {:induction false} IndicesSnoc(prims: seq<BvhPrimitive>, p: BvhPrimitive)
    ensures Indices(prims + [p]) == Indices(prims) + [p.index]
  {
  }

  /** `BVHBuildNode`: a leaf covers `count` consecutive entries of the
      ordered primitives from `first`; an interior node has two children and
      the axis it was split on. */
  datatype BuildNode =
    | Leaf(bounds: Bounds, first: nat, count: nat)
    | Interior(bounds: Bounds, axis: nat, left: BuildNode, right: BuildNode)

  /** `build_leaf`. */
  function MakeLeaf(first: nat, count: nat, bounds: Bounds): (n: BuildNode)
    ensures n.Leaf? && n.first == first && n.count == count && n.bounds == bounds
  {
    Leaf(bounds, first, count)
  }

  /** `build_interior`: the bounds are the union of the children's. */
  function MakeInterior(axis: nat, left: BuildNode, right: BuildNode): (n: BuildNode)
    ensures n.Interior? && n.left == left && n.right == right && n.axis == axis
    ensures Encloses(n.bounds, left.bounds) && Encloses(n.bounds, right.bounds)
  {
    Interior(Union(left.bounds, right.bounds), axis, left, right)
  }

  /** The number of primitives under a node. */
  function PrimCount(n: BuildNode): nat
  {
    match n
    case Leaf(_, _, count) => count
    case Interior(_, _, l, r) => PrimCount(l) + PrimCount(r)
  }

  /** The number of nodes of a tree. */
  function Size(n: BuildNode): nat
  {
    match n
    case Leaf(_, _, _) => 1
    case Interior(_, _, l, r) => 1 + Size(l) + Size(r)
  }

  /** The leaves, left to right, cover consecutive ranges starting at `first`. */
  predicate Covers(n: BuildNode, first: nat)
  {
    match n
    case Leaf(_, f, _) => f == first
    case Interior(_, _, l, r) => Covers(l, first) && Covers(r, first + PrimCount(l))
  }

  /** Every leaf holds a primitive and every split axis is x, y or z. */
  predicate WellBuilt(n: BuildNode)
  {
    match n
    case Leaf(_, _, count) => count > 0
    case Interior(_, axis, l, r) => axis < 3 && WellBuilt(l) && WellBuilt(r)
  }

  /** Each node's bounds enclose its children's. */
  predicate Nested(n: BuildNode)
  {
    match n
    case Leaf(_, _, _) => true
    case Interior(b, _, l, r) =>
      Encloses(b, l.bounds) && Encloses(b, r.bounds) && Nested(l) && Nested(r)
  }

  /** A split decision for `prims` that the recursion can use: none, or an
      axis and a midpoint that leave primitives on both sides. */
  predicate SplitOk(prims: seq<BvhPrimitive>, split: Option<(nat, real)>)
  {
    split.Some? ==>
      split.value.0 < 3 &&
      0 < |Lefts(prims, |prims|, split.value.0, split.value.1)| < |prims| &&
      0 < |Rights(prims, |prims|, split.value.0, split.value.1)| < |prims|
  }

  /** A splitting rule (the midpoint rule below; the source marks a surface
      area heuristic as future work) whose every decision is usable. */
  ghost predicate SplitRule(split: seq<BvhPrimitive> -> Option<(nat, real)>)
  {
    forall prims :: SplitOk(prims, split(prims))
  }

  /** The split chosen by `build_recursive`: none (a leaf) when the summed
      bounds have zero area, there is one primitive, the centroids are flat
      along the widest axis of their bounds, or the midpoint sends every
      primitive to one side; otherwise that axis and midpoint. */
  function SplitOf(prims: seq<BvhPrimitive>): (r: Option<(nat, real)>)
    ensures SplitOk(prims, r)
  {
    if ZeroArea(FullBounds(prims, |prims|)) || |prims| == 1 then None
    else
      var centroids := CentroidBounds(prims, |prims|);
      var axis := MaxDimension(centroids);
      if Flat(centroids, axis) then None
      else
        var mid := Midpoint(centroids, axis);
        PartitionLengths(prims, |prims|, axis, mid);
        if |Lefts(prims, |prims|, axis, mid)| == 0 || |Rights(prims, |prims|, axis, mid)| == 0 then None
        else Some((axis, mid))
  }

  /** The recursion of `build_recursive` under a splitting rule, when
      `first` entries are already ordered: the node built and the primitive
      indices it appends. */
  function BuildWith(split: seq<BvhPrimitive> -> Option<(nat, real)>, prims: seq<BvhPrimitive>, first: nat)
    : (BuildNode, seq<nat>)
    requires SplitRule(split)
    decreases |prims|
  {
    match split(prims)
    case None => (MakeLeaf(first, |prims|, FullBounds(prims, |prims|)), Indices(prims))
    case Some((axis, mid)) =>
      var (l, lo) := BuildWith(split, Lefts(prims, |prims|, axis, mid), first);
      var (r, ro) := BuildWith(split, Rights(prims, |prims|, axis, mid), first + |lo|);
      (MakeInterior(axis, l, r), lo + ro)
  }

  /** `build_recursive`: the midpoint rule. */
  function Build(prims: seq<BvhPrimitive>, first: nat): (BuildNode, seq<nat>)
  {
    SplitOfRule();
    BuildWith(SplitOf, prims, first)
  }

  lemma {:induction false} SplitOfRule()
    ensures SplitRule(SplitOf)
  {
    forall prims
      ensures SplitOk(prims, SplitOf(prims))
    {
    }
  }

  /** The leaf step of `Build`, where the midpoint rule declines to split. */
  lemma {:induction false} BuildLeafCase(prims: seq<BvhPrimitive>, first: nat)
    requires SplitOf(prims).None?
    ensures Build(prims, first) == (MakeLeaf(first, |prims|, FullBounds(prims, |prims|)), Indices(prims))
  {
    SplitOfRule();
  }

  /** The interior step of `Build`: the left half is built first, the right
      half after the entries the left half appended. */
  lemma {:induction false} BuildInteriorCase(prims: seq<BvhPrimitive>, first: nat, axis: nat, mid: real,
                          left: seq<BvhPrimitive>, right: seq<BvhPrimitive>)
    requires SplitOf(prims) == Some((axis, mid))
    requires left == Lefts(prims, |prims|, axis, mid) && right == Rights(prims, |prims|, axis, mid)
    ensures Build(prims, first) ==
            (MakeInterior(axis, Build(left, first).0, Build(right, first + |Build(left, first).1|).0),
             Build(left, first).1 + Build(right, first + |Build(left, first).1|).1)
  {
    SplitOfRule();
    BuildWithInteriorCase(SplitOf, prims, first, axis, mid, left, right);
  }

  lemma {:induction false} BuildWithInteriorCase(split: seq<BvhPrimitive> -> Option<(nat, real)>, prims: seq<BvhPrimitive>,
                              first: nat, axis: nat, mid: real, left: seq<BvhPrimitive>, right: seq<BvhPrimitive>)
    requires SplitRule(split) && split(prims) == Some((axis, mid))
    requires left == Lefts(prims, |prims|, axis, mid) && right == Rights(prims, |prims|, axis, mid)
    ensures var l := BuildWith(split, left, first);
            var r := BuildWith(split, right, first + |l.1|);
            BuildWith(split, prims, first) == (MakeInterior(axis, l.0, r.0), l.1 + r.1)
  {
  }

  /** Under any rule, the build appends exactly one entry per primitive,
      and the leaves, left to right, cover the appended range. */
  lemma {:induction false} BuildWithCovers(split: seq<BvhPrimitive> -> Option<(nat, real)>,
                                           prims: seq<BvhPrimitive>, first: nat)
    requires SplitRule(split)
    ensures |BuildWith(split, prims, first).1| == |prims| == PrimCount(BuildWith(split, prims, first).0)
    ensures Covers(BuildWith(split, prims, first).0, first)
    decreases |prims|
  {
    match split(prims)
    case None =>
    case Some((axis, mid)) =>
      assert SplitOk(prims, split(prims));
      var left, right := Lefts(prims, |prims|, axis, mid), Rights(prims, |prims|, axis, mid);
      PartitionLengths(prims, |prims|, axis, mid);
      var (l, lo) := BuildWith(split, left, first);
      var (r, ro) := BuildWith(split, right, first + |lo|);
      assert BuildWith(split, prims, first) == (Interior(Union(l.bounds, r.bounds), axis, l, r), lo + ro);
      BuildWithCovers(split, left, first);
      BuildWithCovers(split, right, first + |lo|);
  }

  /** Under any rule, the appended entries are a permutation of the input's
      indices. */
  lemma {:induction false} BuildWithPermutation(split: seq<BvhPrimitive> -> Option<(nat, real)>,
                                                prims: seq<BvhPrimitive>, first: nat)
    requires SplitRule(split)
    ensures multiset(BuildWith(split, prims, first).1) == multiset(Indices(prims))
    decreases |prims|
  {
    match split(prims)
    case None =>
    case Some((axis, mid)) =>
      assert SplitOk(prims, split(prims));
      var left, right := Lefts(prims, |prims|, axis, mid), Rights(prims, |prims|, axis, mid);
      var lo := BuildWith(split, left, first).1;
      BuildWithPermutation(split, left, first);
      BuildWithPermutation(split, right, first + |lo|);
      PartitionIndicesAll(prims, axis, mid);
  }

  /** Under any rule, a nonempty input builds a tree whose leaves all hold
      primitives and whose node bounds enclose their children's. */
  lemma {:induction false} BuildWithWellBuilt(split: seq<BvhPrimitive> -> Option<(nat, real)>,
                                              prims: seq<BvhPrimitive>, first: nat)
    requires SplitRule(split) && |prims| > 0
    ensures WellBuilt(BuildWith(split, prims, first).0) && Nested(BuildWith(split, prims, first).0)
    decreases |prims|
  {
    match split(prims)
    case None =>
    case Some((axis, mid)) =>
      assert SplitOk(prims, split(prims));
      var left := Lefts(prims, |prims|, axis, mid);
      BuildWithWellBuilt(split, left, first);
      BuildWithWellBuilt(split, Rights(prims, |prims|, axis, mid), first + |BuildWith(split, left, first).1|);
  }

  /** The build appends exactly one entry per primitive, the entries are a
      permutation of the input's indices, and the leaves, left to right,
      cover the appended range. */
  lemma {:induction false} BuildPermutation(prims: seq<BvhPrimitive>, first: nat)
    ensures |Build(prims, first).1| == |prims| == PrimCount(Build(prims, first).0)
    ensures multiset(Build(prims, first).1) == multiset(Indices(prims))
    ensures Covers(Build(prims, first).0, first)
  {
    SplitOfRule();
    BuildWithCovers(SplitOf, prims, first);
    BuildWithPermutation(SplitOf, prims, first);
  }

  /** A nonempty input builds a tree whose leaves all hold primitives and
      whose node bounds enclose their children's. */
  lemma {:induction false} BuildWellBuilt(prims: seq<BvhPrimitive>, first: nat)
    requires |prims| > 0
    ensures WellBuilt(Build(prims, first).0) && Nested(Build(prims, first).0)
  {
    SplitOfRule();
    BuildWithWellBuilt(SplitOf, prims, first);
  }

  /** With no primitives every test falls through to a leaf holding none. */
  lemma {:induction false} BuildEmpty(first: nat)
    ensures Build([], first) == (Leaf(EmptyBounds, first, 0), [])
  {
  }

  /** A leaf's bounds enclose the bounds of every primitive it holds. */
  lemma {:induction false} BuildLeafBounds(prims: seq<BvhPrimitive>, first: nat)
    requires Build(prims, first).0.Leaf?
    ensures forall i :: 0 <= i < |prims| ==> Encloses(Build(prims, first).0.bounds, prims[i].bounds)
  {
    FullBoundsEncloses(prims, |prims|);
  }

  /** Every leaf's range of ordered primitives ends by `bound`. */
  predicate LeavesWithin(n: BuildNode, bound: nat)
  {
    match n
    case Leaf(_, first, count) => first + count <= bound
    case Interior(_, _, l, r) => LeavesWithin(l, bound) && LeavesWithin(r, bound)
  }

  /** Leaves covering consecutive ranges from `first` stay inside the
      range of all the primitives under the node. */
  lemma {:induction false} CoversWithin(n: BuildNode, first: nat, bound: nat)
    requires Covers(n, first) && first + PrimCount(n) <= bound
    ensures LeavesWithin(n, bound)
  {
    match n
    case Leaf(_, _, _) =>
    case Interior(_, _, l, r) =>
      CoversWithin(l, first, bound);
      CoversWithin(r, first + PrimCount(l), bound);
  }

  /** A tree whose leaves all hold primitives has fewer nodes than twice
      its primitives. */
  lemma {:induction false} SizeBound(n: BuildNode)
    requires WellBuilt(n)
    ensures Size(n) < 2 * PrimCount(n)
  {
    match n
    case Leaf(_, _, _) =>
    case Interior(_, _, l, r) =>
      SizeBound(l);
      SizeBound(r);
  }

  // ---------------------------------------------------------------------
  // Flattening (src/accelerator/bvh.rs:94-132)

  /** `LinearBVHNode`: for a leaf, `offset` is the first ordered primitive
      and `primitiveNum` (a `u16`) their number; for an interior node
      `primitiveNum` is 0, `offset` (a `u32`) is the index of the second
      child and `axis` (a `u8`) the split axis. */
  datatype LinearNode = LinearNode(bounds: Bounds, offset: nat, primitiveNum: nat, axis: nat)

  /** The panics of the construction. */
  datatype BvhError =
    | TooManyPrimitives(count: nat)  // a leaf holds more than `u16::MAX` primitives
    | MissingChild                   // a leaf holding nothing is taken for an interior node

  /** Leaves hold between 1 and `u16::MAX` primitives. */
  predicate LeavesFit(n: BuildNode)
  {
    match n
    case Leaf(_, _, count) => 0 < count <= U16Max
    case Interior(_, _, l, r) => LeavesFit(l) && LeavesFit(r)
  }

  /** The error `flatten_bvh` stops at: the first leaf, in depth-first
      order, holding no primitive (it is taken for an interior node whose
      missing first child is unwrapped) or more than `u16::MAX`. */
  function FlattenError(n: BuildNode): (e: BvhError)
    requires !LeavesFit(n)
  {
    match n
    case Leaf(_, _, count) => if count == 0 then MissingChild else TooManyPrimitives(count)
    case Interior(_, _, l, r) => if !LeavesFit(l) then FlattenError(l) else FlattenError(r)
  }

  /** Of a tree whose leaves all hold primitives, flattening fails only on
      a leaf holding more than `u16::MAX`. */
  lemma {:induction false} FlattenErrorTooMany(n: BuildNode)
    requires WellBuilt(n) && !LeavesFit(n)
    ensures FlattenError(n).TooManyPrimitives? && FlattenError(n).count > U16Max
  {
    match n
    case Leaf(_, _, _) =>
    case Interior(_, _, l, r) =>
      if !LeavesFit(l) {
        FlattenErrorTooMany(l);
      } else {
        FlattenErrorTooMany(r);
      }
  }

  /** `flatten_bvh` of a node pushed at index `at`, when it does not panic:
      the nodes it pushes, in depth-first order, each interior entry
      followed by its first child's subtree and then its second child's,
      whose index the entry records. */
  function Linear(n: BuildNode, at: nat): (ns: seq<LinearNode>)
    requires LeavesFit(n)
    ensures |ns| == Size(n)
  {
    match n
    case Leaf(b, first, count) => [LinearNode(b, AsU32(first), count, U8Max)]
    case Interior(b, axis, l, r) =>
      [LinearNode(b, AsU32(at + 1 + Size(l)), 0, axis % (U8Max + 1))]
        + Linear(l, at + 1) + Linear(r, at + 1 + Size(l))
  }

  /** `xs` sits in `all` from index `at` on. */
  predicate PlacedAt(all: seq<LinearNode>, at: nat, xs: seq<LinearNode>)
  {
    at + |xs| <= |all| && forall k :: 0 <= k < |xs| ==> all[at + k] == xs[k]
  }

  lemma {:induction false} PlacedParts(all: seq<LinearNode>, at: nat, x: LinearNode, ls: seq<LinearNode>, rs: seq<LinearNode>)
    requires PlacedAt(all, at, [x] + ls + rs)
    ensures all[at] == x && PlacedAt(all, at + 1, ls) && PlacedAt(all, at + 1 + |ls|, rs)
  {
    var xs := [x] + ls + rs;
    assert all[at + 0] == xs[0];
    forall k | 0 <= k < |ls|
      ensures all[at + 1 + k] == ls[k]
    {
      assert all[at + (1 + k)] == xs[1 + k];
    }
    forall k | 0 <= k < |rs|
      ensures all[at + 1 + |ls| + k] == rs[k]
    {
      assert all[at + (1 + |ls| + k)] == xs[1 + |ls| + k];
    }
  }

  /** The end of the subtree whose root entry is at index `i` of a flat
      array: a leaf entry is one long; an interior entry is followed by its
      first child's subtree, which must end where `offset` says the second
      child starts. None when the entries do not form such a layout. */
  function SubtreeEnd(ns: seq<LinearNode>, i: nat): (r: Option<nat>)
    ensures r.Some? ==> i < r.value <= |ns|
    decreases |ns| - i
  {
    if i >= |ns| then None
    else if ns[i].primitiveNum > 0 then Some(i + 1)
    else if ns[i].offset <= i + 1 || ns[i].offset >= |ns| then None
    else
      match SubtreeEnd(ns, i + 1)
      case None => None
      case Some(e) => if e != ns[i].offset then None else SubtreeEnd(ns, ns[i].offset)
  }

  /** The tree `n` is laid out in `all` from index `at` on: each entry
      before its first child's subtree, then its second child's, and an
      interior entry's `offset` pointing at the second child. */
  predicate LaidOut(all: seq<LinearNode>, n: BuildNode, at: nat)
  {
    at < |all| &&
    match n
    case Leaf(_, _, _) => all[at].primitiveNum > 0
    case Interior(_, _, l, r) =>
      all[at].primitiveNum == 0 && all[at].offset == at + 1 + Size(l) &&
      LaidOut(all, l, at + 1) && LaidOut(all, r, at + 1 + Size(l))
  }

  /** A laid-out tree's subtree ends where its nodes end. */
  lemma {:induction false} LaidOutEnd(all: seq<LinearNode>, n: BuildNode, at: nat)
    requires LaidOut(all, n, at) && at + Size(n) <= |all|
    ensures SubtreeEnd(all, at) == Some(at + Size(n))
  {
    match n
    case Leaf(_, _, _) =>
    case Interior(_, _, l, r) =>
      LaidOutEnd(all, l, at + 1);
      LaidOutEnd(all, r, at + 1 + Size(l));
      SubtreeEndInterior(all, at, at + Size(n));
  }

  lemma {:induction false} SubtreeEndInterior(all: seq<LinearNode>, at: nat, e: nat)
    requires at < |all| && all[at].primitiveNum == 0 && at + 1 < all[at].offset < |all|
    requires SubtreeEnd(all, at + 1) == Some(all[at].offset)
    requires SubtreeEnd(all, all[at].offset) == Some(e)
    ensures SubtreeEnd(all, at) == Some(e)
  {
  }

  /** The nodes `flatten_bvh` pushes lay the tree out wherever they are
      placed, as long as the indices fit in a `u32`. */
  lemma {:induction false} LinearLaidOut(n: BuildNode, at: nat, all: seq<LinearNode>)
    requires LeavesFit(n) && PlacedAt(all, at, Linear(n, at)) && |all| < U32Modulus
    ensures LaidOut(all, n, at)
  {
    match n
    case Leaf(_, _, _) =>
      assert all[at + 0] == Linear(n, at)[0];
    case Interior(b, axis, l, r) =>
      var ls, rs := Linear(l, at + 1), Linear(r, at + 1 + Size(l));
      PlacedParts(all, at, Linear(n, at)[0], ls, rs);
      LinearLaidOut(l, at + 1, all);
      LinearLaidOut(r, at + 1 + Size(l), all);
  }

  /** A layout entry fit for traversal: a leaf's range of ordered
      primitives ends by `bound`, and an interior entry's axis is x, y or z. */
  predicate EntryOk(x: LinearNode, bound: nat)
  {
    (x.primitiveNum > 0 ==> x.offset + x.primitiveNum <= bound) &&
    (x.primitiveNum == 0 ==> x.axis < 3)
  }

  /** Flattening a well-built tree whose leaf ranges end by `bound` gives
      entries fit for traversal. */
  lemma {:induction false} LinearEntries(n: BuildNode, at: nat, bound: nat)
    requires LeavesFit(n) && WellBuilt(n) && LeavesWithin(n, bound) && bound < U32Modulus
    ensures forall x :: x in Linear(n, at) ==> EntryOk(x, bound)
  {
    match n
    case Leaf(_, _, _) =>
    case Interior(b, axis, l, r) =>
      LinearEntries(l, at + 1, bound);
      LinearEntries(r, at + 1 + Size(l), bound);
  }

  /** The first `n` boxes as build primitives, in input order. */
  function Primitives(boxes: seq<(Vec3, Vec3)>): (prims: seq<BvhPrimitive>)
    ensures |prims| == |boxes|
    ensures forall i :: 0 <= i < |boxes| ==> prims[i] == MakePrimitive(i, boxes[i].0, boxes[i].1)
  {
    seq(|boxes|, i requires 0 <= i < |boxes| => MakePrimitive(i, boxes[i].0, boxes[i].1))
  }

  /** The primitive indices of the input are 0 to n-1. */
  lemma {:induction false} PrimitivesIndices(boxes: seq<(Vec3, Vec3)>)
    ensures Indices(Primitives(boxes)) == seq(|boxes|, i => i)
  {
  }

  /** The state `intersect` relies on: the nodes lay out a tree from
      index 0, leaf ranges stay inside the ordered primitives, interior axes
      index the ray's direction signs, and every index fits a `u32`. */
  predicate LayoutValid(ordered: seq<nat>, nodes: seq<LinearNode>)
  {
    |ordered| < U32Modulus &&
    SubtreeEnd(nodes, 0) == Some(|nodes|) &&
    forall i :: 0 <= i < |nodes| ==> EntryOk(nodes[i], |ordered|)
  }

  /** Flattening a well-built tree whose leaves cover the ordered
      primitives from 0, with fewer than 2^31 of them and no leaf holding
      more than `u16::MAX`, gives a layout fit for traversal. */
  lemma {:induction false} FlattenLayoutValid(n: BuildNode, ordered: seq<nat>)
    requires WellBuilt(n) && LeavesFit(n) && Covers(n, 0)
    requires PrimCount(n) == |ordered| < 0x8000_0000
    ensures LayoutValid(ordered, Linear(n, 0))
  {
    CoversWithin(n, 0, |ordered|);
    SizeBound(n);
    var all := Linear(n, 0);
    assert PlacedAt(all, 0, all) by {
      forall k | 0 <= k < |all|
        ensures all[0 + k] == all[k]
      {
      }
    }
    LinearLaidOut(n, 0, all);
    LaidOutEnd(all, n, 0);
    LinearEntries(n, 0, |ordered|);
    forall i | 0 <= i < |all|
      ensures EntryOk(all[i], |ordered|)
    {
      assert all[i] in all;
    }
  }

  /** Building and flattening fewer than 2^31 primitives, when no leaf
      holds more than `u16::MAX`, gives a layout fit for traversal whose
      ordered primitives are the input's indices, each once. */
  lemma {:induction false} BuildLayoutValid(boxes: seq<(Vec3, Vec3)>)
    requires 0 < |boxes| < 0x8000_0000
    requires LeavesFit(Build(Primitives(boxes), 0).0)
    ensures LayoutValid(Build(Primitives(boxes), 0).1, Linear(Build(Primitives(boxes), 0).0, 0))
    ensures multiset(Build(Primitives(boxes), 0).1) == multiset(seq(|boxes|, i => i))
  {
    var prims := Primitives(boxes);
    BuildPermutation(prims, 0);
    BuildWellBuilt(prims, 0);
    PrimitivesIndices(boxes);
    FlattenLayoutValid(Build(prims, 0).0, Build(prims, 0).1);
  }

  // ---------------------------------------------------------------------
  // Traversal (src/accelerator/bvh.rs:9-61)

  /** One step into a laid-out subtree at `i` ending at `e`: a leaf entry
      is the whole subtree; an interior entry is followed by its first
      child's subtree, which ends where its second child's begins. */
  lemma {:induction false} SubtreeEndStep(ns: seq<LinearNode>, i: nat)
    requires SubtreeEnd(ns, i).Some?
    ensures i < |ns|
    ensures ns[i].primitiveNum > 0 ==> SubtreeEnd(ns, i) == Some(i + 1)
    ensures ns[i].primitiveNum == 0 ==>
              i + 1 < ns[i].offset < SubtreeEnd(ns, i).value &&
              SubtreeEnd(ns, i + 1) == Some(ns[i].offset) &&
              SubtreeEnd(ns, ns[i].offset) == SubtreeEnd(ns, i)
  {
  }

  /** Index `v` lies outside the subtree at `s`. */
  predicate Outside(ns: seq<LinearNode>, v: nat, s: nat)
  {
    SubtreeEnd(ns, s).Some? && !(s <= v < SubtreeEnd(ns, s).value)
  }

  /** The subtrees at `s` and `t` do not overlap. */
  predicate Apart(ns: seq<LinearNode>, s: nat, t: nat)
  {
    SubtreeEnd(ns, s).Some? && SubtreeEnd(ns, t).Some? &&
    (SubtreeEnd(ns, s).value <= t || SubtreeEnd(ns, t).value <= s)
  }

  /** The traversal stack: each entry roots a subtree, the subtrees do
      not overlap, and no node popped so far lies inside one. */
  predicate StackOk(ns: seq<LinearNode>, stack: seq<nat>, visited: seq<nat>)
  {
    (forall k {:trigger Rooted(ns, stack, k)} :: 0 <= k < |stack| ==> Rooted(ns, stack, k)) &&
    (forall a, b {:trigger Apart(ns, stack[a], stack[b])} ::
       0 <= a < b < |stack| ==> Apart(ns, stack[a], stack[b])) &&
    (forall v, k {:trigger Outside(ns, visited[v], stack[k])} ::
       0 <= v < |visited| && 0 <= k < |stack| ==> Outside(ns, visited[v], stack[k]))
  }

  predicate Rooted(ns: seq<LinearNode>, stack: seq<nat>, k: nat)
  {
    k < |stack| && SubtreeEnd(ns, stack[k]).Some?
  }

  /** `i` is none of the nodes popped so far. */
  predicate Unvisited(visited: seq<nat>, i: int)
  {
    forall v {:trigger Other(visited, v, i)} :: 0 <= v < |visited| ==> Other(visited, v, i)
  }

  predicate Other(visited: seq<nat>, v: nat, i: int)
  {
    v < |visited| && visited[v] != i
  }

  /** Popping the top of the stack yields a node not popped before. */
  lemma {:induction false} StackPop(ns: seq<LinearNode>, rest: seq<nat>, i: nat, visited: seq<nat>)
    requires StackOk(ns, rest + [i], visited)
    ensures i < |ns| && Unvisited(visited, i)
    ensures StackOk(ns, rest, visited + [i])
  {
    var stack := rest + [i];
    assert stack[|rest|] == i && Rooted(ns, stack, |rest|);
    SubtreeEndStep(ns, i);
    forall v | 0 <= v < |visited|
      ensures Other(visited, v, i)
    {
      assert Outside(ns, visited[v], stack[|rest|]);
    }
    forall k | 0 <= k < |rest|
      ensures Rooted(ns, rest, k)
    {
      assert stack[k] == rest[k] && Rooted(ns, stack, k);
    }
    forall a, b | 0 <= a < b < |rest|
      ensures Apart(ns, rest[a], rest[b])
    {
      assert Apart(ns, stack[a], stack[b]);
    }
    forall v, k | 0 <= v < |visited| + 1 && 0 <= k < |rest|
      ensures Outside(ns, (visited + [i])[v], rest[k])
    {
      assert Apart(ns, stack[k], stack[|rest|]);
      if v < |visited| {
        assert Outside(ns, visited[v], stack[k]);
      }
    }
  }

  /** Pushing both children of a popped interior node, in either order,
      keeps the stack's subtrees apart and away from the popped nodes. */
  lemma {:induction false} StackPush(ns: seq<LinearNode>, rest: seq<nat>, i: nat, visited: seq<nat>, nearFirst: bool)
    requires StackOk(ns, rest + [i], visited) && i < |ns| && ns[i].primitiveNum == 0
    ensures var c := if nearFirst then [i + 1, ns[i].offset] else [ns[i].offset, i + 1];
            StackOk(ns, rest + c, visited + [i])
  {
    var stack := rest + [i];
    assert stack[|rest|] == i && Rooted(ns, stack, |rest|);
    SubtreeEndStep(ns, i);
    StackPop(ns, rest, i, visited);
    var e := SubtreeEnd(ns, i).value;
    var c := if nearFirst then [i + 1, ns[i].offset] else [ns[i].offset, i + 1];
    var pushed := rest + c;
    assert forall k :: 0 <= k < |c| ==> i < c[k] && SubtreeEnd(ns, c[k]).Some? && SubtreeEnd(ns, c[k]).value <= e;
    assert Apart(ns, c[0], c[1]);
    forall k | 0 <= k < |rest|
      ensures SubtreeEnd(ns, rest[k]).Some? && (SubtreeEnd(ns, rest[k]).value <= i || e <= rest[k])
    {
      assert Rooted(ns, rest, k);
      assert Apart(ns, stack[k], stack[|rest|]);
    }
    forall k | 0 <= k < |pushed|
      ensures Rooted(ns, pushed, k)
    {
      if k < |rest| {
        assert Rooted(ns, rest, k);
      }
    }
    forall a, b | 0 <= a < b < |pushed|
      ensures Apart(ns, pushed[a], pushed[b])
    {
      if b < |rest| {
        assert Apart(ns, stack[a], stack[b]);
      }
    }
    forall v, k | 0 <= v < |visited| + 1 && 0 <= k < |pushed|
      ensures Outside(ns, (visited + [i])[v], pushed[k])
    {
      if k >= |rest| && v < |visited| {
        assert Outside(ns, visited[v], stack[|rest|]);
      }
    }
  }

  /** The nodes popped so far, in order: distinct entries of `ns`, each
      descended-into one an interior entry followed by its near child. The
      quantifiers fire only on Differ and Descent terms, which the lemmas
      below name. */
  predicate Traced(ns: seq<LinearNode>, visited: seq<nat>, descended: seq<bool>, dirIsNeg: seq<bool>)
    requires |dirIsNeg| == 3
  {
    |descended| == |visited| &&
    (forall k {:trigger Within(ns, visited, k)} :: 0 <= k < |visited| ==> Within(ns, visited, k)) &&
    (forall a, b {:trigger Differ(visited, a, b)} :: 0 <= a < b < |visited| ==> Differ(visited, a, b)) &&
    (forall k {:trigger Descent(ns, visited, descended, dirIsNeg, k)} ::
       0 <= k < |visited| ==> Descent(ns, visited, descended, dirIsNeg, k))
  }

  predicate Within(ns: seq<LinearNode>, visited: seq<nat>, k: nat)
  {
    k < |visited| && visited[k] < |ns|
  }

  predicate Differ(visited: seq<nat>, a: nat, b: nat)
  {
    a < |visited| && b < |visited| && visited[a] != visited[b]
  }

  /** If the `k`-th popped node was descended into, it is an interior entry
      and the next node popped is its near child. */
  predicate Descent(ns: seq<LinearNode>, visited: seq<nat>, descended: seq<bool>, dirIsNeg: seq<bool>, k: nat)
    requires |dirIsNeg| == 3
  {
    k < |visited| && k < |descended| &&
    (descended[k] ==>
       visited[k] < |ns| && ns[visited[k]].primitiveNum == 0 && ns[visited[k]].axis < 3 &&
       (k + 1 < |visited| ==> visited[k + 1] == Near(ns[visited[k]], visited[k], dirIsNeg)))
  }

  /** The trace, quantifier by quantifier. */
  lemma {:induction false} TracedFacts(ns: seq<LinearNode>, visited: seq<nat>, descended: seq<bool>, dirIsNeg: seq<bool>)
    requires |dirIsNeg| == 3 && Traced(ns, visited, descended, dirIsNeg)
    ensures forall k :: 0 <= k < |visited| ==> visited[k] < |ns|
    ensures forall a, b :: 0 <= a < b < |visited| ==> visited[a] != visited[b]
    ensures forall k :: 0 <= k < |visited| && descended[k] ==>
              ns[visited[k]].primitiveNum == 0 && ns[visited[k]].axis < 3 &&
              (k + 1 < |visited| ==> visited[k + 1] == Near(ns[visited[k]], visited[k], dirIsNeg))
  {
    forall k | 0 <= k < |visited|
      ensures visited[k] < |ns|
    {
      assert Within(ns, visited, k);
    }
    forall a, b | 0 <= a < b < |visited|
      ensures visited[a] != visited[b]
    {
      assert Differ(visited, a, b);
    }
    forall k | 0 <= k < |visited| && descended[k]
      ensures ns[visited[k]].primitiveNum == 0 && ns[visited[k]].axis < 3 &&
              (k + 1 < |visited| ==> visited[k + 1] == Near(ns[visited[k]], visited[k], dirIsNeg))
    {
      assert Descent(ns, visited, descended, dirIsNeg, k);
    }
  }

  /** The node popped after a descent is the near child of the node
      descended into. */
  predicate NearNext(ns: seq<LinearNode>, visited: seq<nat>, descended: seq<bool>, dirIsNeg: seq<bool>, i: nat)
    requires |dirIsNeg| == 3
  {
    var last := |visited| - 1;
    0 <= last < |descended| && descended[last] && visited[last] < |ns| && ns[visited[last]].axis < 3 ==>
      i == Near(ns[visited[last]], visited[last], dirIsNeg)
  }

  /** Popping a node not popped before shrinks the set of unpopped ones. */
  lemma {:induction false} UnseenStep(unseen: set<nat>, visited: seq<nat>, n: nat, i: nat)
    requires forall j :: j in unseen <==> 0 <= j < n && Unvisited(visited, j)
    requires i < n && Unvisited(visited, i)
    ensures i in unseen
    ensures forall j :: j in unseen - {i} <==> 0 <= j < n && Unvisited(visited + [i], j)
  {
    forall j
      ensures Unvisited(visited + [i], j) <==> Unvisited(visited, j) && j != i
    {
      if Unvisited(visited, j) && j != i {
        forall v | 0 <= v < |visited| + 1
          ensures Other(visited + [i], v, j)
        {
          if v < |visited| {
            assert Other(visited, v, j);
          }
        }
      }
      if Unvisited(visited + [i], j) {
        assert Other(visited + [i], |visited|, j);
        forall v | 0 <= v < |visited|
          ensures Other(visited, v, j)
        {
          assert Other(visited + [i], v, j);
        }
      }
    }
  }

  /** Popping a node not popped before, as the near child when the last
      node was descended into, extends the trace. */
  lemma {:induction false} TraceStep(ns: seq<LinearNode>, visited: seq<nat>, descended: seq<bool>, dirIsNeg: seq<bool>,
                  i: nat, down: bool)
    requires |dirIsNeg| == 3 && Traced(ns, visited, descended, dirIsNeg)
    requires i < |ns| && Unvisited(visited, i) && NearNext(ns, visited, descended, dirIsNeg, i)
    requires down ==> ns[i].primitiveNum == 0 && ns[i].axis < 3
    ensures Traced(ns, visited + [i], descended + [down], dirIsNeg)
  {
    var vs, ds := visited + [i], descended + [down];
    forall a, b | 0 <= a < b < |vs|
      ensures Differ(vs, a, b)
    {
      if b == |visited| {
        assert Other(visited, a, i);
      } else {
        assert Differ(visited, a, b);
      }
    }
    forall k | 0 <= k < |vs|
      ensures Within(ns, vs, k) && Descent(ns, vs, ds, dirIsNeg, k)
    {
      if k < |visited| {
        assert Within(ns, visited, k);
        assert Descent(ns, visited, descended, dirIsNeg, k);
        assert vs[k] == visited[k] && ds[k] == descended[k];
      }
    }
  }

  /** The leaf loop of `intersect` over the ordered primitives `lo` to
      `hi`, from the best distance `tMax` and best hit `prior`: each hit
      replaces the best hit and its distance bounds the later tests. */
  function LeafScan(ordered: seq<nat>, lo: nat, hi: nat, tMax: real, prior: Option<(nat, real)>,
                    hitPrimitive: (nat, real) -> Option<real>): (real, Option<(nat, real)>)
    requires lo <= hi <= |ordered|
    decreases hi
  {
    if hi == lo then (tMax, prior)
    else
      var (t, best) := LeafScan(ordered, lo, hi - 1, tMax, prior, hitPrimitive);
      match hitPrimitive(ordered[hi - 1], t)
      case None => (t, best)
      case Some(t') => (t', Some((ordered[hi - 1], t')))
  }

  /** The leaf loop keeps the prior best, or ends with a hit on one of the
      leaf's primitives at the distance it returns. */
  lemma {:induction false} LeafScanResult(ordered: seq<nat>, lo: nat, hi: nat, tMax: real,
                                          prior: Option<(nat, real)>, hitPrimitive: (nat, real) -> Option<real>)
    requires lo <= hi <= |ordered|
    ensures var (t, best) := LeafScan(ordered, lo, hi, tMax, prior, hitPrimitive);
            (t == tMax && best == prior) ||
            (best.Some? && best.value.1 == t && exists j :: lo <= j < hi && best.value.0 == ordered[j])
    decreases hi
  {
    if hi > lo {
      LeafScanResult(ordered, lo, hi - 1, tMax, prior, hitPrimitive);
    }
  }

  /** The best hit after the leaf loop is among the ordered primitives
      when the prior one was. */
  lemma {:induction false} LeafScanFound(ordered: seq<nat>, lo: nat, hi: nat, tMax: real,
                      prior: Option<(nat, real)>, hitPrimitive: (nat, real) -> Option<real>)
    requires lo <= hi <= |ordered|
    requires prior.Some? ==> prior.value.0 in ordered
    ensures var best := LeafScan(ordered, lo, hi, tMax, prior, hitPrimitive).1;
            best.Some? ==> best.value.0 in ordered
  {
    LeafScanResult(ordered, lo, hi, tMax, prior, hitPrimitive);
  }

  /** When every hit lies within the distance it is tested against, the
      best distance never grows. */
  lemma {:induction false} LeafScanCloser(ordered: seq<nat>, lo: nat, hi: nat, tMax: real,
                                          prior: Option<(nat, real)>, hitPrimitive: (nat, real) -> Option<real>)
    requires lo <= hi <= |ordered|
    requires forall p, t :: hitPrimitive(p, t).Some? ==> hitPrimitive(p, t).value <= t
    ensures LeafScan(ordered, lo, hi, tMax, prior, hitPrimitive).0 <= tMax
    decreases hi
  {
    if hi > lo {
      LeafScanCloser(ordered, lo, hi - 1, tMax, prior, hitPrimitive);
    }
  }

  /** `Vec::pop` on a non-empty stack: all but the top. */
  function DropLast(stack: seq<nat>): (rest: seq<nat>)
    requires |stack| > 0
    ensures rest + [stack[|stack| - 1]] == stack
  {
    var rest := seq(|stack| - 1, k requires 0 <= k < |stack| - 1 => stack[k]);
    assert rest + [stack[|stack| - 1]] == stack;
    rest
  }

  /** The indices below `n`. */
  ghost function Below(n: nat): (r: set<nat>)
    ensures forall i :: i in r <==> 0 <= i < n
  {
    if n == 0 then {} else Below(n - 1) + {n - 1}
  }

  /** The child of the interior entry `x` at index `i` that the ray meets
      first: the second child when the ray runs backwards along the split
      axis, the first child otherwise. */
  function Near(x: LinearNode, i: nat, dirIsNeg: seq<bool>): nat
    requires x.axis < 3 && |dirIsNeg| == 3
  {
    if dirIsNeg[x.axis] then x.offset else i + 1
  }

  /** The two children of the interior entry `x` at index `i` in the
      order `intersect` pushes them: the far one first. */
  function Children(x: LinearNode, i: nat, dirIsNeg: seq<bool>): (c: seq<nat>)
    requires x.axis < 3 && |dirIsNeg| == 3
    ensures |c| == 2 && c[1] == Near(x, i, dirIsNeg) && {c[0], c[1]} == {i + 1, x.offset}
  {
    if dirIsNeg[x.axis] then [i + 1, x.offset] else [x.offset, i + 1]
  }

  /** The state of the traversal loop: the stack, the nodes popped so far
      (`visited`, with `descended` marking those whose children were
      pushed) and the nodes not yet popped (`unseen`). */
  ghost predicate Walk(ns: seq<LinearNode>, dirIsNeg: seq<bool>, stack: seq<nat>, visited: seq<nat>,
                 descended: seq<bool>, unseen: set<nat>)
    requires |dirIsNeg| == 3
  {
    StackOk(ns, stack, visited) &&
    Traced(ns, visited, descended, dirIsNeg) &&
    (forall j :: j in unseen <==> 0 <= j < |ns| && Unvisited(visited, j)) &&
    (|visited| == 0 ==> stack == [0]) &&
    (|visited| > 0 ==> visited[0] == 0) &&
    (|stack| > 0 ==> NearNext(ns, visited, descended, dirIsNeg, stack[|stack| - 1])) &&
    (|stack| == 0 ==> |visited| > 0 && !descended[|visited| - 1])
  }

  /** The traversal starts from the root alone. */
  lemma {:induction false} WalkStart(ns: seq<LinearNode>, dirIsNeg: seq<bool>)
    requires |dirIsNeg| == 3 && SubtreeEnd(ns, 0).Some?
    ensures Walk(ns, dirIsNeg, [0], [], [], Below(|ns|))
  {
  }

  /** The popped node is an entry not popped before. */
  lemma {:induction false} WalkPop(ns: seq<LinearNode>, dirIsNeg: seq<bool>, rest: seq<nat>, i: nat, visited: seq<nat>,
                descended: seq<bool>, unseen: set<nat>)
    requires |dirIsNeg| == 3 && Walk(ns, dirIsNeg, rest + [i], visited, descended, unseen)
    ensures i < |ns| && i in unseen
  {
    StackPop(ns, rest, i, visited);
  }

  /** One round of the loop: the popped node joins the visited ones and,
      when the traversal descends into it, its children are pushed. */
  lemma {:induction false} WalkStep(ns: seq<LinearNode>, dirIsNeg: seq<bool>, rest: seq<nat>, i: nat, visited: seq<nat>,
                 descended: seq<bool>, unseen: set<nat>, down: bool)
    requires |dirIsNeg| == 3 && Walk(ns, dirIsNeg, rest + [i], visited, descended, unseen)
    requires i < |ns| && (down ==> ns[i].primitiveNum == 0 && ns[i].axis < 3)
    ensures var stack := if down then rest + Children(ns[i], i, dirIsNeg) else rest;
            Walk(ns, dirIsNeg, stack, visited + [i], descended + [down], unseen - {i})
  {
    var stack := rest + [i];
    assert stack[|rest|] == i;
    StackPop(ns, rest, i, visited);
    UnseenStep(unseen, visited, |ns|, i);
    TraceStep(ns, visited, descended, dirIsNeg, i, down);
    if down {
      StackPush(ns, rest, i, visited, dirIsNeg[ns[i].axis]);
      var pushed := rest + Children(ns[i], i, dirIsNeg);
      assert pushed[|pushed| - 1] == Near(ns[i], i, dirIsNeg);
    }
  }

  /** When the stack runs empty, the trace has the promised shape. */
  lemma {:induction false} WalkDone(ns: seq<LinearNode>, dirIsNeg: seq<bool>, visited: seq<nat>, descended: seq<bool>, unseen: set<nat>)
    requires |dirIsNeg| == 3 && Walk(ns, dirIsNeg, [], visited, descended, unseen)
    ensures |descended| == |visited| > 0 && visited[0] == 0
    ensures forall k :: 0 <= k < |visited| ==> visited[k] < |ns|
    ensures forall a, b :: 0 <= a < b < |visited| ==> visited[a] != visited[b]
    ensures forall k :: 0 <= k < |visited| && descended[k] ==>
              ns[visited[k]].primitiveNum == 0 && ns[visited[k]].axis < 3 &&
              k + 1 < |visited| && visited[k + 1] == Near(ns[visited[k]], visited[k], dirIsNeg)
  {
    TracedFacts(ns, visited, descended, dirIsNeg);
  }

  /** What popping the entry `x` does to the best distance `t` and best
      hit `best`: nothing when the ray misses its box within `t` or when it
      is an interior entry (whose children are pushed instead), the leaf
      loop over its primitives otherwise. */
  function Visit(ordered: seq<nat>, x: LinearNode, t: real, best: Option<(nat, real)>,
                 hitsBounds: (Bounds, real) -> bool, hitPrimitive: (nat, real) -> Option<real>)
    : (real, Option<(nat, real)>)
    requires EntryOk(x, |ordered|)
  {
    if !hitsBounds(x.bounds, t) || x.primitiveNum == 0 then (t, best)
    else LeafScan(ordered, x.offset, x.offset + x.primitiveNum, t, best, hitPrimitive)
  }

  /** The best distance and best hit once the first `n` of the popped
      nodes `vs` have been handled, from `tMax` and no hit. */
  function Replay(ordered: seq<nat>, ns: seq<LinearNode>, vs: seq<nat>, n: nat, tMax: real,
                  hitsBounds: (Bounds, real) -> bool, hitPrimitive: (nat, real) -> Option<real>)
    : (real, Option<(nat, real)>)
    requires LayoutValid(ordered, ns) && n <= |vs|
    requires forall k :: 0 <= k < n ==> vs[k] < |ns|
    decreases n
  {
    if n == 0 then (tMax, None)
    else
      var (t, best) := Replay(ordered, ns, vs, n - 1, tMax, hitsBounds, hitPrimitive);
      Visit(ordered, ns[vs[n - 1]], t, best, hitsBounds, hitPrimitive)
  }

  /** Popping one more node leaves the replay of the earlier ones as it was. */
  lemma {:induction false} ReplayPrefix(ordered: seq<nat>, ns: seq<LinearNode>, vs: seq<nat>, i: nat, n: nat, tMax: real,
                                        hitsBounds: (Bounds, real) -> bool, hitPrimitive: (nat, real) -> Option<real>)
    requires LayoutValid(ordered, ns) && n <= |vs| && i < |ns|
    requires forall k :: 0 <= k < |vs| ==> vs[k] < |ns|
    ensures Replay(ordered, ns, vs + [i], n, tMax, hitsBounds, hitPrimitive) ==
            Replay(ordered, ns, vs, n, tMax, hitsBounds, hitPrimitive)
    decreases n
  {
    if n > 0 {
      ReplayPrefix(ordered, ns, vs, i, n - 1, tMax, hitsBounds, hitPrimitive);
      assert (vs + [i])[n - 1] == vs[n - 1];
    }
  }

  /** After the first `n` popped nodes there is either no hit, at the
      original distance, or a hit on a primitive of one of the popped
      leaves, at the best distance. */
  lemma {:induction false} ReplayResult(ordered: seq<nat>, ns: seq<LinearNode>, vs: seq<nat>, n: nat, tMax: real,
                                        hitsBounds: (Bounds, real) -> bool, hitPrimitive: (nat, real) -> Option<real>)
    requires LayoutValid(ordered, ns) && n <= |vs|
    requires forall k :: 0 <= k < n ==> vs[k] < |ns|
    ensures var (t, best) := Replay(ordered, ns, vs, n, tMax, hitsBounds, hitPrimitive);
            (t == tMax && best == None) ||
            (best.Some? && best.value.1 == t &&
             exists k, j :: 0 <= k < n && ns[vs[k]].primitiveNum > 0 &&
                            ns[vs[k]].offset <= j < ns[vs[k]].offset + ns[vs[k]].primitiveNum &&
                            best.value.0 == ordered[j])
    decreases n
  {
    if n > 0 {
      ReplayResult(ordered, ns, vs, n - 1, tMax, hitsBounds, hitPrimitive);
      var (t, best) := Replay(ordered, ns, vs, n - 1, tMax, hitsBounds, hitPrimitive);
      var x := ns[vs[n - 1]];
      assert EntryOk(x, |ordered|);
      if hitsBounds(x.bounds, t) && x.primitiveNum > 0 {
        var lo, hi := x.offset, x.offset + x.primitiveNum;
        LeafScanResult(ordered, lo, hi, t, best, hitPrimitive);
        var (t', best') := LeafScan(ordered, lo, hi, t, best, hitPrimitive);
        if !(t' == t && best' == best) {
          var j :| lo <= j < hi && best'.value.0 == ordered[j];
          assert ns[vs[n - 1]].offset <= j < ns[vs[n - 1]].offset + ns[vs[n - 1]].primitiveNum;
        }
      }
    }
  }

  /** When a primitive test never reports a hit beyond the distance it is
      given, the best distance only shrinks as nodes are popped: the box
      tests of later nodes are made against distances no larger than
      those of earlier ones, and none exceeds `tMax`. */
  lemma {:induction false} ReplayCloser(ordered: seq<nat>, ns: seq<LinearNode>, vs: seq<nat>, n: nat, tMax: real,
                                        hitsBounds: (Bounds, real) -> bool, hitPrimitive: (nat, real) -> Option<real>)
    requires LayoutValid(ordered, ns) && n <= |vs|
    requires forall k :: 0 <= k < n ==> vs[k] < |ns|
    requires forall p, t :: hitPrimitive(p, t).Some? ==> hitPrimitive(p, t).value <= t
    ensures forall k :: 0 <= k <= n ==>
              Replay(ordered, ns, vs, n, tMax, hitsBounds, hitPrimitive).0 <=
              Replay(ordered, ns, vs, k, tMax, hitsBounds, hitPrimitive).0 <= tMax
    decreases n
  {
    if n > 0 {
      ReplayCloser(ordered, ns, vs, n - 1, tMax, hitsBounds, hitPrimitive);
      var (t, best) := Replay(ordered, ns, vs, n - 1, tMax, hitsBounds, hitPrimitive);
      var x := ns[vs[n - 1]];
      assert EntryOk(x, |ordered|);
      if hitsBounds(x.bounds, t) && x.primitiveNum > 0 {
        LeafScanCloser(ordered, x.offset, x.offset + x.primitiveNum, t, best, hitPrimitive);
      }
    }
  }

  /** Each popped node was descended into exactly when it is an interior
      entry whose box the ray meets within the best distance at the time
      it was popped. */
  ghost predicate Pruned(ordered: seq<nat>, ns: seq<LinearNode>, visited: seq<nat>, descended: seq<bool>, tMax: real,
                         hitsBounds: (Bounds, real) -> bool, hitPrimitive: (nat, real) -> Option<real>)
    requires LayoutValid(ordered, ns)
  {
    |descended| == |visited| && (forall k :: 0 <= k < |visited| ==> visited[k] < |ns|) &&
    forall k {:trigger descended[k]} :: 0 <= k < |visited| ==>
      (descended[k] <==> ns[visited[k]].primitiveNum == 0 &&
                         hitsBounds(ns[visited[k]].bounds, Replay(ordered, ns, visited, k, tMax, hitsBounds, hitPrimitive).0))
  }

  /** Popping `i` with the best distance the replay gives keeps the
      pruning record. */
  lemma {:induction false} PrunedStep(ordered: seq<nat>, ns: seq<LinearNode>, visited: seq<nat>, descended: seq<bool>,
                                      i: nat, tMax: real, hitsBounds: (Bounds, real) -> bool,
                                      hitPrimitive: (nat, real) -> Option<real>)
    requires LayoutValid(ordered, ns) && i < |ns|
    requires Pruned(ordered, ns, visited, descended, tMax, hitsBounds, hitPrimitive)
    ensures var t := Replay(ordered, ns, visited, |visited|, tMax, hitsBounds, hitPrimitive).0;
            Pruned(ordered, ns, visited + [i], descended + [ns[i].primitiveNum == 0 && hitsBounds(ns[i].bounds, t)],
                   tMax, hitsBounds, hitPrimitive)
  {
    var vs := visited + [i];
    forall n | 0 <= n <= |visited|
      ensures Replay(ordered, ns, vs, n, tMax, hitsBounds, hitPrimitive) ==
              Replay(ordered, ns, visited, n, tMax, hitsBounds, hitPrimitive)
    {
      ReplayPrefix(ordered, ns, visited, i, n, tMax, hitsBounds, hitPrimitive);
    }
  }

  /** The entry `j` was popped already or still waits on the stack. */
  predicate Listed(j: nat, visited: seq<nat>, stack: seq<nat>)
  {
    j in visited || j in stack
  }

  /** Both children of the `k`-th popped node, if it was descended into,
      were popped already or wait on the stack. */
  predicate ChildrenListed(ns: seq<LinearNode>, visited: seq<nat>, descended: seq<bool>, stack: seq<nat>, k: nat)
  {
    k < |visited| && k < |descended| && visited[k] < |ns| &&
    (descended[k] ==> Listed(visited[k] + 1, visited, stack) && Listed(ns[visited[k]].offset, visited, stack))
  }

  /** No child of a node descended into is lost. */
  predicate Reached(ns: seq<LinearNode>, visited: seq<nat>, descended: seq<bool>, stack: seq<nat>)
  {
    forall k {:trigger ChildrenListed(ns, visited, descended, stack, k)} ::
      0 <= k < |visited| ==> ChildrenListed(ns, visited, descended, stack, k)
  }

  /** Popping `i` and, when descending, pushing its children keeps every
      child of a descended node listed. */
  lemma {:induction false} ReachedStep(ns: seq<LinearNode>, dirIsNeg: seq<bool>, rest: seq<nat>, i: nat,
                                       visited: seq<nat>, descended: seq<bool>, down: bool)
    requires |dirIsNeg| == 3 && |descended| == |visited| && i < |ns|
    requires Reached(ns, visited, descended, rest + [i])
    requires down ==> ns[i].primitiveNum == 0 && ns[i].axis < 3
    ensures var stack := if down then rest + Children(ns[i], i, dirIsNeg) else rest;
            Reached(ns, visited + [i], descended + [down], stack)
  {
    var stack := if down then rest + Children(ns[i], i, dirIsNeg) else rest;
    var vs, ds := visited + [i], descended + [down];
    forall j | Listed(j, visited, rest + [i])
      ensures Listed(j, vs, stack)
    {
      if j in visited {
        assert j in vs;
      } else if j == i {
        assert vs[|visited|] == i;
      } else {
        assert j in rest;
        assert j in stack by {
          var p :| 0 <= p < |rest| && rest[p] == j;
          assert stack[p] == j;
        }
      }
    }
    forall k | 0 <= k < |vs|
      ensures ChildrenListed(ns, vs, ds, stack, k)
    {
      if k < |visited| {
        assert ChildrenListed(ns, visited, descended, rest + [i], k);
        assert vs[k] == visited[k] && ds[k] == descended[k];
      } else if down {
        var c := Children(ns[i], i, dirIsNeg);
        assert stack[|rest|] == c[0] && stack[|rest| + 1] == c[1];
        assert i + 1 in stack && ns[i].offset in stack;
      }
    }
  }

  /** The traversal's record beside Walk: the pruning decisions, the best
      distance and hit as the replay of the popped nodes gives them, and
      every child of a descended node popped or waiting. */
  ghost predicate Progress(ordered: seq<nat>, ns: seq<LinearNode>, stack: seq<nat>, visited: seq<nat>,
                           descended: seq<bool>, bestT: real, best: Option<(nat, real)>, tMax: real,
                           hitsBounds: (Bounds, real) -> bool, hitPrimitive: (nat, real) -> Option<real>)
    requires LayoutValid(ordered, ns)
  {
    Pruned(ordered, ns, visited, descended, tMax, hitsBounds, hitPrimitive) &&
    (bestT, best) == Replay(ordered, ns, visited, |visited|, tMax, hitsBounds, hitPrimitive) &&
    Reached(ns, visited, descended, stack)
  }

  /** One round of the loop, whatever the popped entry `i` turns out to
      be: the new best distance and hit are what Visit gives. */
  lemma {:induction false} ProgressStep(ordered: seq<nat>, ns: seq<LinearNode>, dirIsNeg: seq<bool>, rest: seq<nat>, i: nat,
                                        visited: seq<nat>, descended: seq<bool>, bestT: real, best: Option<(nat, real)>,
                                        bestT': real, best': Option<(nat, real)>, tMax: real,
                                        hitsBounds: (Bounds, real) -> bool, hitPrimitive: (nat, real) -> Option<real>)
    requires LayoutValid(ordered, ns) && |dirIsNeg| == 3 && i < |ns|
    requires Progress(ordered, ns, rest + [i], visited, descended, bestT, best, tMax, hitsBounds, hitPrimitive)
    requires (bestT', best') == Visit(ordered, ns[i], bestT, best, hitsBounds, hitPrimitive)
    ensures var down := hitsBounds(ns[i].bounds, bestT) && ns[i].primitiveNum == 0;
            var stack := if down then rest + Children(ns[i], i, dirIsNeg) else rest;
            Progress(ordered, ns, stack, visited + [i], descended + [down], bestT', best', tMax, hitsBounds, hitPrimitive)
  {
    var down := hitsBounds(ns[i].bounds, bestT) && ns[i].primitiveNum == 0;
    PrunedStep(ordered, ns, visited, descended, i, tMax, hitsBounds, hitPrimitive);
    ReachedStep(ns, dirIsNeg, rest, i, visited, descended, down);
    ReplayPrefix(ordered, ns, visited, i, |visited|, tMax, hitsBounds, hitPrimitive);
  }

  /** The state of `intersect` between two rounds of its loop: the stack
      `nodes_to_visit`, the nodes popped so far (`visited`, with
      `descended` marking those whose children were pushed), `best_t` and
      the best hit. */
  datatype Round = Round(stack: seq<nat>, visited: seq<nat>, descended: seq<bool>, t: real, best: Option<(nat, real)>)

  /** One round of the loop: the top of the stack is popped; the best
      distance and hit become what Visit gives, and an interior node whose
      box the ray meets pushes its children, the far one first. On an empty
      stack the loop has ended and the state stays; so it does on an index
      past the nodes, which would panic and which a valid layout never
      stacks (Walk). */
  function PopRound(ordered: seq<nat>, ns: seq<LinearNode>, dirIsNeg: seq<bool>, s: Round,
                    hitsBounds: (Bounds, real) -> bool, hitPrimitive: (nat, real) -> Option<real>): Round
    requires LayoutValid(ordered, ns) && |dirIsNeg| == 3
  {
    if |s.stack| == 0 || s.stack[|s.stack| - 1] >= |ns| then s
    else
      var i := s.stack[|s.stack| - 1];
      var rest := DropLast(s.stack);
      var down := hitsBounds(ns[i].bounds, s.t) && ns[i].primitiveNum == 0;
      var (t, best) := Visit(ordered, ns[i], s.t, s.best, hitsBounds, hitPrimitive);
      Round(if down then rest + Children(ns[i], i, dirIsNeg) else rest, s.visited + [i], s.descended + [down], t, best)
  }

  /** The state after `n` rounds of the loop, from the root alone on the
      stack, `tMax` and no hit. */
  function Rounds(ordered: seq<nat>, ns: seq<LinearNode>, dirIsNeg: seq<bool>, n: nat, tMax: real,
                  hitsBounds: (Bounds, real) -> bool, hitPrimitive: (nat, real) -> Option<real>): Round
    requires LayoutValid(ordered, ns) && |dirIsNeg| == 3
    decreases n
  {
    if n == 0 then Round([0], [], [], tMax, None)
    else PopRound(ordered, ns, dirIsNeg, Rounds(ordered, ns, dirIsNeg, n - 1, tMax, hitsBounds, hitPrimitive),
                  hitsBounds, hitPrimitive)
  }

  /** Popping `i` from the stack and doing what the loop does with it is
      the next round. */
  lemma {:induction false} RoundsStep(ordered: seq<nat>, ns: seq<LinearNode>, dirIsNeg: seq<bool>, popped: seq<nat>,
                                      rest: seq<nat>, i: nat, visited: seq<nat>, descended: seq<bool>, t: real,
                                      best: Option<(nat, real)>, down: bool, stack: seq<nat>, t': real,
                                      best': Option<(nat, real)>, tMax: real,
                                      hitsBounds: (Bounds, real) -> bool, hitPrimitive: (nat, real) -> Option<real>)
    requires LayoutValid(ordered, ns) && |dirIsNeg| == 3 && i < |ns| && popped == rest + [i]
    requires Rounds(ordered, ns, dirIsNeg, |visited|, tMax, hitsBounds, hitPrimitive) ==
             Round(popped, visited, descended, t, best)
    requires down == (hitsBounds(ns[i].bounds, t) && ns[i].primitiveNum == 0)
    requires !down ==> stack == rest
    requires down ==> stack == rest + Children(ns[i], i, dirIsNeg)
    requires (t', best') == Visit(ordered, ns[i], t, best, hitsBounds, hitPrimitive)
    ensures Rounds(ordered, ns, dirIsNeg, |visited| + 1, tMax, hitsBounds, hitPrimitive) ==
            Round(stack, visited + [i], descended + [down], t', best')
  {
    assert popped[|popped| - 1] == i;
    assert DropLast(popped) == rest by {
      assert DropLast(popped) + [i] == rest + [i];
      assert DropLast(popped) == (DropLast(popped) + [i])[..|rest|];
    }
  }

  /** Once the stack is empty, later rounds change nothing. */
  lemma {:induction false} RoundsStay(ordered: seq<nat>, ns: seq<LinearNode>, dirIsNeg: seq<bool>, n: nat, m: nat,
                                      tMax: real, hitsBounds: (Bounds, real) -> bool,
                                      hitPrimitive: (nat, real) -> Option<real>)
    requires LayoutValid(ordered, ns) && |dirIsNeg| == 3 && n <= m
    requires Rounds(ordered, ns, dirIsNeg, n, tMax, hitsBounds, hitPrimitive).stack == []
    ensures Rounds(ordered, ns, dirIsNeg, m, tMax, hitsBounds, hitPrimitive) ==
            Rounds(ordered, ns, dirIsNeg, n, tMax, hitsBounds, hitPrimitive)
    decreases m
  {
    if m > n {
      RoundsStay(ordered, ns, dirIsNeg, n, m - 1, tMax, hitsBounds, hitPrimitive);
    }
  }

  /** The whole state of the traversal loop: Walk, Progress, and the best
      hit among the ordered primitives. */
  ghost predicate Loop(ordered: seq<nat>, ns: seq<LinearNode>, dirIsNeg: seq<bool>, stack: seq<nat>, visited: seq<nat>,
                       descended: seq<bool>, unseen: set<nat>, bestT: real, best: Option<(nat, real)>, tMax: real,
                       hitsBounds: (Bounds, real) -> bool, hitPrimitive: (nat, real) -> Option<real>)
    requires LayoutValid(ordered, ns) && |dirIsNeg| == 3
  {
    Walk(ns, dirIsNeg, stack, visited, descended, unseen) &&
    (best.Some? ==> best.value.0 in ordered) &&
    Progress(ordered, ns, stack, visited, descended, bestT, best, tMax, hitsBounds, hitPrimitive)
  }

  /** The loop starts from the root alone, with no hit and `tMax`. */
  lemma {:induction false} LoopStart(ordered: seq<nat>, ns: seq<LinearNode>, dirIsNeg: seq<bool>, tMax: real,
                                     hitsBounds: (Bounds, real) -> bool, hitPrimitive: (nat, real) -> Option<real>)
    requires LayoutValid(ordered, ns) && |dirIsNeg| == 3
    ensures Loop(ordered, ns, dirIsNeg, [0], [], [], Below(|ns|), tMax, None, tMax, hitsBounds, hitPrimitive)
  {
    WalkStart(ns, dirIsNeg);
  }

  /** The popped node is an entry not popped before. */
  lemma {:induction false} LoopPop(ordered: seq<nat>, ns: seq<LinearNode>, dirIsNeg: seq<bool>, popped: seq<nat>,
                                   rest: seq<nat>, i: nat,
                                   visited: seq<nat>, descended: seq<bool>, unseen: set<nat>, bestT: real,
                                   best: Option<(nat, real)>, tMax: real,
                                   hitsBounds: (Bounds, real) -> bool, hitPrimitive: (nat, real) -> Option<real>)
    requires LayoutValid(ordered, ns) && |dirIsNeg| == 3 && popped == rest + [i]
    requires Loop(ordered, ns, dirIsNeg, popped, visited, descended, unseen, bestT, best, tMax, hitsBounds, hitPrimitive)
    ensures i < |ns| && i in unseen && EntryOk(ns[i], |ordered|)
  {
    WalkPop(ns, dirIsNeg, rest, i, visited, descended, unseen);
  }

  /** One round of the loop: the popped entry `i` joins the visited ones,
      its children are pushed when the traversal descends into it, and the
      best distance and hit become what Visit gives. */
  lemma {:induction false} LoopStep(ordered: seq<nat>, ns: seq<LinearNode>, dirIsNeg: seq<bool>, popped: seq<nat>,
                                    rest: seq<nat>, i: nat,
                                    visited: seq<nat>, descended: seq<bool>, unseen: set<nat>, bestT: real,
                                    best: Option<(nat, real)>, down: bool, stack: seq<nat>, bestT': real,
                                    best': Option<(nat, real)>, tMax: real,
                                    hitsBounds: (Bounds, real) -> bool, hitPrimitive: (nat, real) -> Option<real>)
    requires LayoutValid(ordered, ns) && |dirIsNeg| == 3 && i < |ns| && popped == rest + [i]
    requires Loop(ordered, ns, dirIsNeg, popped, visited, descended, unseen, bestT, best, tMax, hitsBounds, hitPrimitive)
    requires down == (hitsBounds(ns[i].bounds, bestT) && ns[i].primitiveNum == 0)
    requires !down ==> stack == rest
    requires down ==> ns[i].axis < 3 && stack == rest + Children(ns[i], i, dirIsNeg)
    requires (bestT', best') == Visit(ordered, ns[i], bestT, best, hitsBounds, hitPrimitive)
    ensures Loop(ordered, ns, dirIsNeg, stack, visited + [i], descended + [down], unseen - {i}, bestT', best',
                 tMax, hitsBounds, hitPrimitive)
  {
    assert EntryOk(ns[i], |ordered|);
    WalkStep(ns, dirIsNeg, rest, i, visited, descended, unseen, down);
    ProgressStep(ordered, ns, dirIsNeg, rest, i, visited, descended, bestT, best, bestT', best',
                 tMax, hitsBounds, hitPrimitive);
    if hitsBounds(ns[i].bounds, bestT) && ns[i].primitiveNum > 0 {
      LeafScanFound(ordered, ns[i].offset, ns[i].offset + ns[i].primitiveNum, bestT, best, hitPrimitive);
    }
  }

  /** What `intersect` does with a ray, as the nodes it pops (`visited`,
      in order) and the best hit it returns: the loop's own trace (Ran),
      with the facts about it that the design promises (Explored). */
  ghost predicate Traversal(ordered: seq<nat>, ns: seq<LinearNode>, dirIsNeg: seq<bool>, visited: seq<nat>,
                            descended: seq<bool>, best: Option<(nat, real)>, tMax: real,
                            hitsBounds: (Bounds, real) -> bool, hitPrimitive: (nat, real) -> Option<real>)
    requires LayoutValid(ordered, ns) && |dirIsNeg| == 3
  {
    Ran(ordered, ns, dirIsNeg, visited, descended, best, tMax, hitsBounds, hitPrimitive) &&
    Explored(ordered, ns, dirIsNeg, visited, descended, best, tMax, hitsBounds, hitPrimitive)
  }

  /** The trace is the loop's: `|visited|` rounds (Rounds) pop exactly
      `visited`, decide `descended`, give `best` and leave the stack
      empty. So only the children of descended nodes are popped, in the
      stack's last-in first-out order, and nothing else is (TraversalUnique). */
  ghost predicate Ran(ordered: seq<nat>, ns: seq<LinearNode>, dirIsNeg: seq<bool>, visited: seq<nat>,
                      descended: seq<bool>, best: Option<(nat, real)>, tMax: real,
                      hitsBounds: (Bounds, real) -> bool, hitPrimitive: (nat, real) -> Option<real>)
    requires LayoutValid(ordered, ns) && |dirIsNeg| == 3
  {
    var end := Rounds(ordered, ns, dirIsNeg, |visited|, tMax, hitsBounds, hitPrimitive);
    end.stack == [] && end.visited == visited && end.descended == descended && end.best == best
  }

  /** The shape of a finished trace:
      - it starts at the root and pops each entry at most once;
      - it descends into a popped node exactly when that node is an
        interior entry whose box the ray meets within the best distance
        found before it, and then pops the near child next;
      - both children of every node it descends into are popped, so no
        subtree is skipped unless its box was missed;
      - the best hit is what testing the primitives of the popped leaves
        whose boxes the ray meets, in popping order, gives (Replay). */
  ghost predicate Explored(ordered: seq<nat>, ns: seq<LinearNode>, dirIsNeg: seq<bool>, visited: seq<nat>,
                           descended: seq<bool>, best: Option<(nat, real)>, tMax: real,
                           hitsBounds: (Bounds, real) -> bool, hitPrimitive: (nat, real) -> Option<real>)
    requires LayoutValid(ordered, ns) && |dirIsNeg| == 3
  {
    |descended| == |visited| > 0 && visited[0] == 0 &&
    (forall k :: 0 <= k < |visited| ==> visited[k] < |ns|) &&
    (forall a, b :: 0 <= a < b < |visited| ==> visited[a] != visited[b]) &&
    (forall k :: 0 <= k < |visited| && descended[k] ==>
       ns[visited[k]].primitiveNum == 0 && ns[visited[k]].axis < 3 &&
       k + 1 < |visited| && visited[k + 1] == Near(ns[visited[k]], visited[k], dirIsNeg)) &&
    (forall k :: 0 <= k < |visited| ==>
       (descended[k] <==>
          ns[visited[k]].primitiveNum == 0 &&
          hitsBounds(ns[visited[k]].bounds, Replay(ordered, ns, visited, k, tMax, hitsBounds, hitPrimitive).0))) &&
    (forall k :: 0 <= k < |visited| && descended[k] ==>
       visited[k] + 1 in visited && ns[visited[k]].offset in visited) &&
    (best.Some? ==> best.value.0 in ordered) &&
    best == Replay(ordered, ns, visited, |visited|, tMax, hitsBounds, hitPrimitive).1
  }

  /** When the stack runs empty, the trace has the promised shape, the best
      hit is the replay's, and every child of a descended node was popped. */
  lemma {:induction false} LoopDone(ordered: seq<nat>, ns: seq<LinearNode>, dirIsNeg: seq<bool>, visited: seq<nat>,
                                    descended: seq<bool>, unseen: set<nat>, bestT: real, best: Option<(nat, real)>,
                                    tMax: real, hitsBounds: (Bounds, real) -> bool, hitPrimitive: (nat, real) -> Option<real>)
    requires LayoutValid(ordered, ns) && |dirIsNeg| == 3
    requires Loop(ordered, ns, dirIsNeg, [], visited, descended, unseen, bestT, best, tMax, hitsBounds, hitPrimitive)
    ensures Explored(ordered, ns, dirIsNeg, visited, descended, best, tMax, hitsBounds, hitPrimitive)
  {
    WalkDone(ns, dirIsNeg, visited, descended, unseen);
    ReachedDone(ns, visited, descended);
  }

  /** Once the stack is empty, every child of a node descended into was
      popped. */
  lemma {:induction false} ReachedDone(ns: seq<LinearNode>, visited: seq<nat>, descended: seq<bool>)
    requires Reached(ns, visited, descended, [])
    ensures forall k :: 0 <= k < |visited| && k < |descended| && descended[k] ==>
              visited[k] < |ns| && visited[k] + 1 in visited && ns[visited[k]].offset in visited
  {
    forall k | 0 <= k < |visited| && k < |descended| && descended[k]
      ensures visited[k] < |ns| && visited[k] + 1 in visited && ns[visited[k]].offset in visited
    {
      assert ChildrenListed(ns, visited, descended, [], k);
    }
  }

  /** The entries not popped yet. */
  ghost function Unseen(ns: seq<LinearNode>, visited: seq<nat>): (r: set<nat>)
    ensures forall j :: j in r <==> 0 <= j < |ns| && Unvisited(visited, j)
  {
    set j | j in Below(|ns|) && Unvisited(visited, j)
  }

  /** Every round keeps the loop's invariant: after any number of rounds
      the state satisfies Loop, with the entries not yet popped as
      `unseen`. */
  lemma {:induction false} RoundsLoop(ordered: seq<nat>, ns: seq<LinearNode>, dirIsNeg: seq<bool>, n: nat, tMax: real,
                                      hitsBounds: (Bounds, real) -> bool, hitPrimitive: (nat, real) -> Option<real>)
    requires LayoutValid(ordered, ns) && |dirIsNeg| == 3
    ensures var s := Rounds(ordered, ns, dirIsNeg, n, tMax, hitsBounds, hitPrimitive);
            Loop(ordered, ns, dirIsNeg, s.stack, s.visited, s.descended, Unseen(ns, s.visited), s.t, s.best,
                 tMax, hitsBounds, hitPrimitive)
    decreases n
  {
    if n == 0 {
      LoopStart(ordered, ns, dirIsNeg, tMax, hitsBounds, hitPrimitive);
      assert Unseen(ns, []) == Below(|ns|);
    } else {
      RoundsLoop(ordered, ns, dirIsNeg, n - 1, tMax, hitsBounds, hitPrimitive);
      PopRoundLoop(ordered, ns, dirIsNeg, Rounds(ordered, ns, dirIsNeg, n - 1, tMax, hitsBounds, hitPrimitive),
                   tMax, hitsBounds, hitPrimitive);
    }
  }

  /** One round keeps the loop's invariant. */
  lemma {:induction false} PopRoundLoop(ordered: seq<nat>, ns: seq<LinearNode>, dirIsNeg: seq<bool>, s: Round, tMax: real,
                                        hitsBounds: (Bounds, real) -> bool, hitPrimitive: (nat, real) -> Option<real>)
    requires LayoutValid(ordered, ns) && |dirIsNeg| == 3
    requires Loop(ordered, ns, dirIsNeg, s.stack, s.visited, s.descended, Unseen(ns, s.visited), s.t, s.best,
                  tMax, hitsBounds, hitPrimitive)
    ensures var s' := PopRound(ordered, ns, dirIsNeg, s, hitsBounds, hitPrimitive);
            Loop(ordered, ns, dirIsNeg, s'.stack, s'.visited, s'.descended, Unseen(ns, s'.visited), s'.t, s'.best,
                 tMax, hitsBounds, hitPrimitive)
  {
    if |s.stack| > 0 {
      var i := s.stack[|s.stack| - 1];
      var rest := DropLast(s.stack);
      var unseen := Unseen(ns, s.visited);
      LoopPop(ordered, ns, dirIsNeg, s.stack, rest, i, s.visited, s.descended, unseen, s.t, s.best,
              tMax, hitsBounds, hitPrimitive);
      var down := hitsBounds(ns[i].bounds, s.t) && ns[i].primitiveNum == 0;
      var stack := if down then rest + Children(ns[i], i, dirIsNeg) else rest;
      var (t, best) := Visit(ordered, ns[i], s.t, s.best, hitsBounds, hitPrimitive);
      LoopStep(ordered, ns, dirIsNeg, s.stack, rest, i, s.visited, s.descended, unseen, s.t, s.best, down, stack,
               t, best, tMax, hitsBounds, hitPrimitive);
      UnseenStep(unseen, s.visited, |ns|, i);
      assert unseen - {i} == Unseen(ns, s.visited + [i]);
    }
  }

  /** A round with a non-empty stack pops an entry fit for traversal that
      was not popped before, so the entries not yet popped shrink. */
  lemma {:induction false} RoundsPop(ordered: seq<nat>, ns: seq<LinearNode>, dirIsNeg: seq<bool>, n: nat, tMax: real,
                                     hitsBounds: (Bounds, real) -> bool, hitPrimitive: (nat, real) -> Option<real>)
    requires LayoutValid(ordered, ns) && |dirIsNeg| == 3
    requires |Rounds(ordered, ns, dirIsNeg, n, tMax, hitsBounds, hitPrimitive).stack| > 0
    ensures var s := Rounds(ordered, ns, dirIsNeg, n, tMax, hitsBounds, hitPrimitive);
            var i := s.stack[|s.stack| - 1];
            i < |ns| && EntryOk(ns[i], |ordered|) && i in Unseen(ns, s.visited) &&
            Unseen(ns, s.visited + [i]) == Unseen(ns, s.visited) - {i}
  {
    RoundsLoop(ordered, ns, dirIsNeg, n, tMax, hitsBounds, hitPrimitive);
    var s := Rounds(ordered, ns, dirIsNeg, n, tMax, hitsBounds, hitPrimitive);
    var i := s.stack[|s.stack| - 1];
    var unseen := Unseen(ns, s.visited);
    LoopPop(ordered, ns, dirIsNeg, s.stack, DropLast(s.stack), i, s.visited, s.descended, unseen, s.t, s.best,
            tMax, hitsBounds, hitPrimitive);
    UnseenStep(unseen, s.visited, |ns|, i);
    assert unseen - {i} == Unseen(ns, s.visited + [i]);
  }

  /** When the rounds empty the stack, their trace is a Traversal. */
  lemma {:induction false} RoundsDone(ordered: seq<nat>, ns: seq<LinearNode>, dirIsNeg: seq<bool>, n: nat, tMax: real,
                                      hitsBounds: (Bounds, real) -> bool, hitPrimitive: (nat, real) -> Option<real>)
    requires LayoutValid(ordered, ns) && |dirIsNeg| == 3
    requires var s := Rounds(ordered, ns, dirIsNeg, n, tMax, hitsBounds, hitPrimitive);
             s.stack == [] && |s.visited| == n
    ensures var s := Rounds(ordered, ns, dirIsNeg, n, tMax, hitsBounds, hitPrimitive);
            Traversal(ordered, ns, dirIsNeg, s.visited, s.descended, s.best, tMax, hitsBounds, hitPrimitive)
  {
    RoundsLoop(ordered, ns, dirIsNeg, n, tMax, hitsBounds, hitPrimitive);
    var s := Rounds(ordered, ns, dirIsNeg, n, tMax, hitsBounds, hitPrimitive);
    LoopDone(ordered, ns, dirIsNeg, s.visited, s.descended, Unseen(ns, s.visited), s.t, s.best,
             tMax, hitsBounds, hitPrimitive);
  }

  /** Traversal leaves no choice: two traces of the same ray through the
      same layout that both meet it pop the same nodes, descend into the
      same ones and return the same hit. */
  lemma {:induction false} TraversalUnique(ordered: seq<nat>, ns: seq<LinearNode>, dirIsNeg: seq<bool>, tMax: real,
                                           hitsBounds: (Bounds, real) -> bool, hitPrimitive: (nat, real) -> Option<real>,
                                           visited: seq<nat>, descended: seq<bool>, best: Option<(nat, real)>,
                                           visited': seq<nat>, descended': seq<bool>, best': Option<(nat, real)>)
    requires LayoutValid(ordered, ns) && |dirIsNeg| == 3
    requires Traversal(ordered, ns, dirIsNeg, visited, descended, best, tMax, hitsBounds, hitPrimitive)
    requires Traversal(ordered, ns, dirIsNeg, visited', descended', best', tMax, hitsBounds, hitPrimitive)
    ensures visited == visited' && descended == descended' && best == best'
  {
    if |visited| < |visited'| {
      RoundsStay(ordered, ns, dirIsNeg, |visited|, |visited'|, tMax, hitsBounds, hitPrimitive);
    } else if |visited'| < |visited| {
      RoundsStay(ordered, ns, dirIsNeg, |visited'|, |visited|, tMax, hitsBounds, hitPrimitive);
    }
  }

  // ---------------------------------------------------------------------
  // The aggregate (src/accelerator/bvh.rs:3-62, 134-163)

  /** `BVHAggregate`: the primitives in leaf order (as indices into the
      input) and the flattened nodes. */
  class BvhAggregate {
    var ordered: seq<nat>
    var nodes: seq<LinearNode>

    /** The state `intersect` relies on (see LayoutValid). */
    predicate Valid()
      reads this
    {
      LayoutValid(ordered, nodes)
    }

    /** `BVHAggregate::new` over primitives with the given bounds (as
        `(p_min, p_max)` pairs): builds, then flattens; the panics of
        `flatten_bvh` become errors. */
    static method New(boxes: seq<(Vec3, Vec3)>) returns (r: Result<BvhAggregate, BvhError>)
      requires |boxes| < 0x8000_0000
      ensures r.Ok? <==> |boxes| > 0 && LeavesFit(Build(Primitives(boxes), 0).0)
      ensures |boxes| == 0 ==> r == Err(MissingChild)
      ensures |boxes| > 0 && r.Err? ==> r.error.TooManyPrimitives? && r.error.count > U16Max
      ensures r.Ok? ==> fresh(r.value) && r.value.Valid()
      ensures r.Ok? ==> r.value.ordered == Build(Primitives(boxes), 0).1 &&
                        r.value.nodes == Linear(Build(Primitives(boxes), 0).0, 0)
      ensures r.Ok? ==> multiset(r.value.ordered) == multiset(seq(|boxes|, i => i))
    {
      var prims := [];
      for idx := 0 to |boxes|
        invariant |prims| == idx
        invariant forall k :: 0 <= k < idx ==> prims[k] == MakePrimitive(k, boxes[k].0, boxes[k].1)
      {
        prims := prims + [MakePrimitive(idx, boxes[idx].0, boxes[idx].1)];
      }
      assert prims == Primitives(boxes);
      var agg := new BvhAggregate.Init();
      var root := agg.BuildRecursive(prims);
      assert agg.ordered == Build(prims, 0).1;
      var flat := agg.Flatten(root);
      if |boxes| == 0 {
        BuildEmpty(0);
        return Err(flat.error);
      }
      BuildWellBuilt(prims, 0);
      if flat.Err? {
        FlattenErrorTooMany(root);
        return Err(flat.error);
      }
      assert agg.nodes == Linear(root, 0);
      BuildLayoutValid(boxes);
      return Ok(agg);
    }

    /** `intersect`: depth-first traversal with an explicit stack from the
        root, pruning subtrees whose box the ray misses within the best hit
        so far and testing the primitives of each leaf it reaches. The ray
        enters as its direction's signs and two tests: `hitsBounds(b, t)`
        for `fast_intersect` of a box, `hitPrimitive(p, t)` for the hit
        distance of the input primitive `p`. The ghost results record the
        order in which nodes are popped and which of them were descended
        into; Traversal says what they and the best hit are. */
    method Intersect(dirIsNeg: seq<bool>, tMax: real, hitsBounds: (Bounds, real) -> bool,
                     hitPrimitive: (nat, real) -> Option<real>)
      returns (best: Option<(nat, real)>, ghost visited: seq<nat>, ghost descended: seq<bool>)
      requires Valid() && |dirIsNeg| == 3
      ensures Traversal(ordered, nodes, dirIsNeg, visited, descended, best, tMax, hitsBounds, hitPrimitive)
    {
      var stack: seq<nat> := [0];
      var bestT := tMax;
      best := None;
      visited, descended := [], [];
      while |stack| > 0
        invariant Rounds(ordered, nodes, dirIsNeg, |visited|, tMax, hitsBounds, hitPrimitive) ==
                  Round(stack, visited, descended, bestT, best)
        decreases |Unseen(nodes, visited)|
      {
        RoundsPop(ordered, nodes, dirIsNeg, |visited|, tMax, hitsBounds, hitPrimitive);
        ghost var popped := stack;
        var i := stack[|stack| - 1];
        stack := DropLast(stack);
        var x := nodes[i];
        ghost var down := hitsBounds(x.bounds, bestT) && x.primitiveNum == 0;
        ghost var rest, t0, b0 := stack, bestT, best;
        if !hitsBounds(x.bounds, bestT) {
        } else if x.primitiveNum > 0 {
          bestT, best := LeafHits(x.offset, x.offset + x.primitiveNum, bestT, best, hitPrimitive);
        } else {
          // the far child is pushed first, so the near one is popped next
          stack := stack + Children(x, i, dirIsNeg);
        }
        RoundsStep(ordered, nodes, dirIsNeg, popped, rest, i, visited, descended, t0, b0, down, stack, bestT, best,
                   tMax, hitsBounds, hitPrimitive);
        visited, descended := visited + [i], descended + [down];
      }
      RoundsDone(ordered, nodes, dirIsNeg, |visited|, tMax, hitsBounds, hitPrimitive);
    }

    /** The leaf case of `intersect`: tests the ordered primitives
        `lo` to `hi` in order, each against the best distance so far. */
    method LeafHits(lo: nat, hi: nat, tMax: real, prior: Option<(nat, real)>,
                    hitPrimitive: (nat, real) -> Option<real>)
      returns (bestT: real, best: Option<(nat, real)>)
      requires lo <= hi <= |ordered|
      ensures (bestT, best) == LeafScan(ordered, lo, hi, tMax, prior, hitPrimitive)
      ensures (prior.Some? ==> prior.value.0 in ordered) ==> (best.Some? ==> best.value.0 in ordered)
    {
      if prior.Some? ==> prior.value.0 in ordered {
        LeafScanFound(ordered, lo, hi, tMax, prior, hitPrimitive);
      }
      bestT, best := tMax, prior;
      for idx := lo to hi
        invariant (bestT, best) == LeafScan(ordered, lo, idx, tMax, prior, hitPrimitive)
      {
        match hitPrimitive(ordered[idx], bestT)
        case None =>
        case Some(t) =>
          bestT := t;
          best := Some((ordered[idx], t));
      }
    }

    constructor Init()
      ensures ordered == [] && nodes == []
    {
      ordered := [];
      nodes := [];
    }

    /** `closure_build_leaf`: appends the primitives' indices in order and
        returns a leaf over them. */
    method AppendLeaf(prims: seq<BvhPrimitive>) returns (node: BuildNode)
      modifies this
      ensures ordered == old(ordered) + Indices(prims)
      ensures node == MakeLeaf(old(|ordered|), |prims|, FullBounds(prims, |prims|))
      ensures nodes == old(nodes)
    {
      var first := |ordered|;
      for i := 0 to |prims|
        invariant |ordered| == first + i && ordered[..first] == old(ordered)
        invariant forall k :: 0 <= k < i ==> ordered[first + k] == prims[k].index
        invariant nodes == old(nodes)
      {
        ordered := ordered + [prims[i].index];
      }
      assert ordered == old(ordered) + Indices(prims) by {
        forall k | 0 <= k < |ordered|
          ensures ordered[k] == (old(ordered) + Indices(prims))[k]
        {
          if k >= first {
            assert ordered[first + (k - first)] == prims[k - first].index;
          } else {
            assert ordered[k] == ordered[..first][k];
          }
        }
      }
      node := MakeLeaf(first, |prims|, FullBounds(prims, |prims|));
    }

    /** `build_recursive`: builds the subtree over `prims`, appending their
        indices to `ordered` in leaf order. */
    method BuildRecursive(prims: seq<BvhPrimitive>) returns (node: BuildNode)
      modifies this
      ensures node == Build(prims, old(|ordered|)).0
      ensures ordered == old(ordered) + Build(prims, old(|ordered|)).1
      ensures nodes == old(nodes)
      decreases |prims|
    {
      var split, left, right := ChooseSplit(prims, |ordered|);
      match split
      case None =>
        node := AppendLeaf(prims);
      case Some((axis, mid)) =>
        ghost var before := ordered;
        var l := BuildRecursive(left);
        ghost var lo := Build(left, |before|).1;
        var r := BuildRecursive(right);
        ghost var ro := Build(right, |before| + |lo|).1;
        node := MakeInterior(axis, l, r);
        assert ordered == before + (lo + ro);
    }

    /** `flatten_bvh`: pushes the subtree's entries onto `nodes` and
        returns the index of its root entry; panics become errors. */
    method Flatten(n: BuildNode) returns (r: Result<nat, BvhError>)
      modifies this
      ensures ordered == old(ordered)
      ensures LeavesFit(n) ==> r == Ok(old(|nodes|)) && nodes == old(nodes) + Linear(n, old(|nodes|))
      ensures !LeavesFit(n) ==> r == Err(FlattenError(n))
      decreases n
    {
      var at := |nodes|;
      nodes := nodes + [LinearNode(n.bounds, 0, 0, U8Max)];
      match n
      case Leaf(_, first, count) =>
        if count == 0 {
          // taken for an interior node; unwrapping its first child panics
          nodes := nodes[at := nodes[at].(axis := U8Max, primitiveNum := 0)];
          return Err(MissingChild);
        } else if count > U16Max {
          return Err(TooManyPrimitives(count));
        }
        nodes := nodes[at := nodes[at].(offset := AsU32(first), primitiveNum := count)];
        UpdateLast(old(nodes), LinearNode(n.bounds, 0, 0, U8Max), nodes[at]);
        return Ok(at);
      case Interior(_, axis, left, right) =>
        nodes := nodes[at := nodes[at].(axis := axis % (U8Max + 1), primitiveNum := 0)];
        ghost var x := nodes[at];
        UpdateLast(old(nodes), LinearNode(n.bounds, 0, 0, U8Max), x);
        var firstChild := Flatten(left);
        if firstChild.Err? {
          return Err(firstChild.error);
        }
        var secondChild := Flatten(right);
        if secondChild.Err? {
          return Err(secondChild.error);
        }
        nodes := nodes[at := nodes[at].(offset := AsU32(secondChild.value))];
        FlattenInteriorStep(old(nodes), x, n, at);
        return Ok(at);
    }
  }

  /** The entries `flatten_bvh` leaves for an interior node: its own entry,
      patched with the offset of the second child, then both subtrees. */
  lemma {:induction false} FlattenInteriorStep(pre: seq<LinearNode>, x: LinearNode, n: BuildNode, at: nat)
    requires n.Interior? && LeavesFit(n) && |pre| == at
    requires x == LinearNode(n.bounds, 0, 0, n.axis % (U8Max + 1))
    ensures var ls := Linear(n.left, at + 1);
            var rs := Linear(n.right, at + 1 + |ls|);
            (pre + [x] + ls + rs)[at := x.(offset := AsU32(at + 1 + |ls|))] == pre + Linear(n, at)
  {
    var ls, rs := Linear(n.left, at + 1), Linear(n.right, at + 1 + Size(n.left));
    UpdateAfter(pre, x, x.(offset := AsU32(at + 1 + |ls|)), ls, rs);
  }

  /** Replacing the last entry. */
  lemma {:induction false} UpdateLast(pre: seq<LinearNode>, x: LinearNode, y: LinearNode)
    ensures (pre + [x])[|pre| := y] == pre + [y]
  {
  }

  /** Replacing the entry after a prefix leaves the rest in place. */
  lemma {:induction false} UpdateAfter(pre: seq<LinearNode>, x: LinearNode, y: LinearNode, ls: seq<LinearNode>, rs: seq<LinearNode>)
    ensures (pre + [x] + ls + rs)[|pre| := y] == pre + ([y] + ls + rs)
  {
  }

  /** The split decision of `build_recursive`: a leaf when the bounds have
      no area, there is a single primitive, the centroids are flat along the
      widest axis, or the midpoint leaves one side empty; otherwise the axis,
      the midpoint and the two sides of the partition. */
  method ChooseSplit(prims: seq<BvhPrimitive>, ghost first: nat)
    returns (split: Option<(nat, real)>, left: seq<BvhPrimitive>, right: seq<BvhPrimitive>)
    ensures split == SplitOf(prims)
    ensures split.Some? ==> split.value.0 < 3 &&
                            left == Lefts(prims, |prims|, split.value.0, split.value.1) &&
                            right == Rights(prims, |prims|, split.value.0, split.value.1)
    ensures split.None? ==> Build(prims, first) == (MakeLeaf(first, |prims|, FullBounds(prims, |prims|)), Indices(prims))
    ensures split.Some? ==>
              |left| < |prims| && |right| < |prims| &&
              Build(prims, first) ==
              (MakeInterior(split.value.0, Build(left, first).0, Build(right, first + |Build(left, first).1|).0),
               Build(left, first).1 + Build(right, first + |Build(left, first).1|).1)
  {
    left, right := [], [];
    var full := FullBounds(prims, |prims|);
    if ZeroArea(full) || |prims| == 1 {
      BuildLeafCase(prims, first);
      return None, left, right;
    }
    var centroids := CentroidBoundsOf(prims);
    var axis := MaxDimension(centroids);
    if Flat(centroids, axis) {
      BuildLeafCase(prims, first);
      return None, left, right;
    }
    var mid := Midpoint(centroids, axis);
    left, right := PartitionOf(prims, axis, mid);
    if |left| == 0 || |right| == 0 {
      BuildLeafCase(prims, first);
      return None, left, right;
    }
    PartitionLengths(prims, |prims|, axis, mid);
    BuildInteriorCase(prims, first, axis, mid, left, right);
    return Some((axis, mid)), left, right;
  }

  /** The centroid bounds loop of `build_recursive`. */
  method CentroidBoundsOf(prims: seq<BvhPrimitive>) returns (b: Bounds)
    ensures b == CentroidBounds(prims, |prims|)
  {
    b := EmptyBounds;
    for i := 0 to |prims|
      invariant b == CentroidBounds(prims, i)
    {
      b := UnionPoint(b, prims[i].centroid);
    }
  }

  /** The partition loop of `build_recursive`. */
  method PartitionOf(prims: seq<BvhPrimitive>, axis: nat, mid: real)
    returns (left: seq<BvhPrimitive>, right: seq<BvhPrimitive>)
    requires axis < 3
    ensures left == Lefts(prims, |prims|, axis, mid) && right == Rights(prims, |prims|, axis, mid)
  {
    left, right := [], [];
    for i := 0 to |prims|
      invariant left == Lefts(prims, i, axis, mid) && right == Rights(prims, i, axis, mid)
    {
      if prims[i].centroid.At(axis) <= mid {
        left := left + [prims[i]];
      } else {
        right := right + [prims[i]];
      }
    }
  }
}
