/** The stratified sampler (`src/samplers/stratified.rs`).

    `preprocess` prepares, for every round (one camera ray of a pixel) and
    each of the first `SamplesDimensions` dimensions, one 1D and one 2D
    sample; `update_round` moves to the next round, and the `Get*Sample`
    methods hand out the prepared samples of the current round one
    dimension at a time, falling back to the random generator once a round
    runs out.

    The random generator is modelled as a fixed stream of draws in [0, 1)
    with a counter of the draws taken: `entropy` stands for
    `StdRng::from_entropy()`. Floating-point numbers are modelled as reals. */
module Stratified {

  /** `SAMPLES_DIMENSIONS` (`src/core/sampler.rs`). */
  const SamplesDimensions: nat := 32

  /** `usize::MAX`, the counters' value before the first `preprocess`. */
  const UsizeMax: nat := 0xFFFF_FFFF_FFFF_FFFF

  /** Every draw lies in [0, 1), as `rng.gen::<f32>()` does. */
  ghost predicate UnitDraws(draws: nat -> real)
  {
    forall n :: 0.0 <= draws(n) < 1.0
  }

  /** A uniform index below `bound` from the draw `u`: the slot of [0, 1)
      split into `bound` equal parts that `u` falls into. */
  function Index(u: real, bound: nat): (j: nat)
    requires 0.0 <= u < 1.0 && bound > 0
    ensures j < bound
  {
    assert u * bound as real < bound as real by {
      assert (1.0 - u) * bound as real > 0.0;
    }
    (u * bound as real).Floor
  }

  /** The stream of random draws. */
  class Rng {
    const draws: nat -> real
    var drawn: nat

    constructor FromEntropy(entropy: nat -> real)
      ensures draws == entropy && drawn == 0
    {
      draws := entropy;
      drawn := 0;
    }

    /** `rng.gen::<f32>()`: the next draw. */
    method Gen() returns (u: real)
      modifies this
      ensures u == draws(old(drawn)) && drawn == old(drawn) + 1
    {
      u := draws(drawn);
      drawn := drawn + 1;
    }

    /** The index drawn by the slice shuffle: below `bound`. */
    method GenIndex(bound: nat) returns (j: nat)
      requires UnitDraws(draws) && bound > 0
      modifies this
      ensures j == Index(draws(old(drawn)), bound) && drawn == old(drawn) + 1
    {
      j := Index(draws(drawn), bound);
      drawn := drawn + 1;
    }
  }

  // ---------------------------------------------------------------------
  // Sample generation

  /** `1.0 / (size as f32)`; for `size == 0` the source's infinity is never
      used, since no sample is generated. */
  function Unit(size: nat): real
  {
    if size == 0 then 0.0 else 1.0 / size as real
  }

  /** `generate_stratified_1d_samples`: sample `i` is `(i + u) / size` for
      the `i`-th draw `u` from `start`. Each lies in its own stratum
      `[i / size, (i + 1) / size)`. */
  function Stratified1D(size: nat, draws: nat -> real, start: nat): (r: seq<real>)
    requires UnitDraws(draws)
    ensures |r| == size
    ensures forall i :: 0 <= i < size ==> i as real <= r[i] * size as real < i as real + 1.0
  {
    var r := seq(size, i requires 0 <= i < size => (i as real + draws(start + i)) * Unit(size));
    forall i | 0 <= i < size
      ensures i as real <= r[i] * size as real < i as real + 1.0
    {
      Stratum(i, draws(start + i), size);
    }
    r
  }

  /** `(i + u) · (1 / n) · n == i + u`, which lies in `[i, i + 1)`. */
  lemma {:induction false} Stratum(i: nat, u: real, n: nat)
    requires 0.0 <= u < 1.0 && i < n
    ensures i as real <= (i as real + u) * Unit(n) * n as real < i as real + 1.0
  {
    assert Unit(n) * n as real == 1.0;
    calc {
      (i as real + u) * Unit(n) * n as real;
      (i as real + u) * (Unit(n) * n as real);
      i as real + u;
    }
  }

  /** `(size as f32).sqrt() as usize`: the largest `s` with `s · s <= n`. */
  function FloorSqrt(n: nat): nat
  {
    SqrtFrom(n, 0)
  }

  /** The square grid of `FloorSqrt(n)` fits in `n`, and is not empty
      unless `n` is. */
  lemma {:induction false} FloorSqrtFits(n: nat)
    ensures FloorSqrt(n) * FloorSqrt(n) <= n
    ensures n > 0 ==> FloorSqrt(n) > 0
  {
    FloorSqrtBounds(n);
  }

  /** Counting up from `s`, the last root whose square still fits. */
  function SqrtFrom(n: nat, s: nat): nat
    requires s <= n
    decreases n - s
  {
    if (s + 1) * (s + 1) <= n then
      assert s + 1 <= n by {
        assert s + 1 <= (s + 1) * (s + 1);
      }
      SqrtFrom(n, s + 1)
    else s
  }

  lemma {:induction false} SqrtFromBounds(n: nat, s: nat)
    requires s * s <= n && s <= n
    ensures var r := SqrtFrom(n, s); r * r <= n < (r + 1) * (r + 1)
    decreases n - s
  {
    if (s + 1) * (s + 1) <= n {
      assert s + 1 <= (s + 1) * (s + 1);
      SqrtFromBounds(n, s + 1);
    }
  }

  /** `FloorSqrt(n)` is the integer square root: its square fits in `n`,
      the next square does not. */
  lemma {:induction false} FloorSqrtBounds(n: nat)
    ensures var s := FloorSqrt(n); s * s <= n < (s + 1) * (s + 1)
  {
    SqrtFromBounds(n, 0);
  }

  /** The cell `(ix, iy)` of an `s × s` grid: both coordinates jittered
      inside the cell by the two draws `ux`, `uy`. */
  function Cell(s: nat, ix: nat, iy: nat, ux: real, uy: real): (real, real)
  {
    ((ix as real + ux) * Unit(s), (iy as real + uy) * Unit(s))
  }

  /** The first `n` cells of row `ix`, the row's draws taken from `at`:
      cell `(ix, iy)` takes draws `at + 2 · iy` and the one after. */
  function Cells(s: nat, ix: nat, n: nat, draws: nat -> real, at: nat): (r: seq<(real, real)>)
    ensures |r| == n
  {
    if n == 0 then []
    else Cells(s, ix, n - 1, draws, at) + [Cell(s, ix, n - 1, draws(at + 2 * (n - 1)), draws(at + 2 * (n - 1) + 1))]
  }

  /** The first `rows` rows of the `s × s` grid, each row's draws after
      those of the rows before it. */
  function Grid(s: nat, rows: nat, draws: nat -> real, start: nat): (r: seq<(real, real)>)
  {
    if rows == 0 then []
    else
      var before := Grid(s, rows - 1, draws, start);
      before + Cells(s, rows - 1, s, draws, start + 2 * |before|)
  }

  /** The first `rows` rows hold `rows · s` samples. */
  lemma {:induction false} GridLength(s: nat, rows: nat, draws: nat -> real, start: nat)
    ensures |Grid(s, rows, draws, start)| == rows * s
  {
    if rows > 0 {
      GridLength(s, rows - 1, draws, start);
      assert rows * s == (rows - 1) * s + s;
    }
  }

  /** The inner `generate_samples` of `generate_stratified_2d_samples`:
      the largest square grid that fits, then the remaining samples
      generated the same way after it. It returns exactly `size`
      samples. */
  function Grid2D(size: nat, draws: nat -> real, start: nat): (r: seq<(real, real)>)
    ensures |r| == size
    decreases size
  {
    var s := FloorSqrt(size);
    var grid := Grid(s, s, draws, start);
    FloorSqrtFits(size);
    GridLength(s, s, draws, start);
    if size != s * s then
      grid + Grid2D(size - s * s, draws, start + 2 * |grid|)
    else grid
  }

  /** `Grid2D` split at its square grid of `s · s` samples. */
  lemma {:induction false} Grid2DSplit(size: nat, draws: nat -> real, start: nat)
    ensures var s := FloorSqrt(size);
            var grid := Grid(s, s, draws, start);
            |grid| == s * s <= size && (size != s * s ==> 0 < s * s) &&
            (size == s * s ==> Grid2D(size, draws, start) == grid) &&
            (size != s * s ==> Grid2D(size, draws, start) == grid + Grid2D(size - s * s, draws, start + 2 * |grid|))
  {
    FloorSqrtFits(size);
    GridLength(FloorSqrt(size), FloorSqrt(size), draws, start);
  }

  /** A 2D sample in the unit square. */
  predicate InUnitSquare(p: (real, real))
  {
    0.0 <= p.0 < 1.0 && 0.0 <= p.1 < 1.0
  }

  /** `(i + u) / n` lies in [0, 1) when `i < n`. */
  lemma {:induction false} Jitter(i: nat, u: real, n: nat)
    requires 0.0 <= u < 1.0 && i < n
    ensures 0.0 <= (i as real + u) * Unit(n) < 1.0
  {
    var a := i as real + u;
    var w := Unit(n);
    assert w * n as real == 1.0 && w > 0.0;
    assert a * w < n as real * w by {
      assert (n as real - a) * w > 0.0;
    }
  }

  lemma {:induction false} CellsInUnitSquare(s: nat, ix: nat, n: nat, draws: nat -> real, at: nat)
    requires UnitDraws(draws) && ix < s && n <= s
    ensures forall k :: 0 <= k < n ==> InUnitSquare(Cells(s, ix, n, draws, at)[k])
  {
    if n > 0 {
      CellsInUnitSquare(s, ix, n - 1, draws, at);
      Jitter(ix, draws(at + 2 * (n - 1)), s);
      Jitter(n - 1, draws(at + 2 * (n - 1) + 1), s);
    }
  }

  lemma {:induction false} GridInUnitSquare(s: nat, rows: nat, draws: nat -> real, start: nat)
    requires UnitDraws(draws) && rows <= s
    ensures forall k :: 0 <= k < |Grid(s, rows, draws, start)| ==> InUnitSquare(Grid(s, rows, draws, start)[k])
  {
    if rows > 0 {
      var before := Grid(s, rows - 1, draws, start);
      GridInUnitSquare(s, rows - 1, draws, start);
      CellsInUnitSquare(s, rows - 1, s, draws, start + 2 * |before|);
    }
  }

  /** Every sample of `generate_samples` lies in the unit square. */
  lemma {:induction false} Grid2DInUnitSquare(size: nat, draws: nat -> real, start: nat)
    requires UnitDraws(draws)
    ensures forall k :: 0 <= k < size ==> InUnitSquare(Grid2D(size, draws, start)[k])
    decreases size
  {
    var s := FloorSqrt(size);
    var grid := Grid(s, s, draws, start);
    GridInUnitSquare(s, s, draws, start);
    FloorSqrtFits(size);
    GridLength(s, s, draws, start);
    if size != s * s {
      Grid2DInUnitSquare(size - s * s, draws, start + 2 * |grid|);
    }
  }

  /** `slice.swap(i, j)`. */
  function Swap<T>(t: seq<T>, i: nat, j: nat): (r: seq<T>)
    requires i < |t| && j < |t|
    ensures |r| == |t|
  {
    t[i := t[j]][j := t[i]]
  }

  /** A swap only reorders. */
  lemma {:induction false} SwapPermutation<T>(t: seq<T>, i: nat, j: nat)
    requires i < |t| && j < |t|
    ensures multiset(Swap(t, i, j)) == multiset(t)
  {
    if i != j {
      var t1 := t[i := t[j]];
      assert multiset(t1) == multiset(t) - multiset{t[i]} + multiset{t[j]};
      assert t1[j] == t[j];
      assert multiset(t1[j := t[i]]) == multiset(t1) - multiset{t[j]} + multiset{t[i]};
    }
  }

  /** The slice shuffle from position `i` down to 1: position `i` is
      swapped with a position drawn from `0..=i`, then `i - 1`, and so on,
      one draw each from `at`. */
  function ShuffleDown<T>(t: seq<T>, i: nat, draws: nat -> real, at: nat): (r: seq<T>)
    requires UnitDraws(draws) && i < |t|
    ensures |r| == |t|
    decreases i
  {
    if i == 0 then t else ShuffleDown(Swap(t, i, Index(draws(at), i + 1)), i - 1, draws, at + 1)
  }

  /** One step of the shuffle: position `i` is swapped with the position
      the next draw picks, and the rest of the shuffle continues below it. */
  lemma {:induction false} ShuffleDownStep<T>(t: seq<T>, i: nat, draws: nat -> real, at: nat)
    requires UnitDraws(draws) && 0 < i < |t|
    ensures ShuffleDown(t, i, draws, at) == ShuffleDown(Swap(t, i, Index(draws(at), i + 1)), i - 1, draws, at + 1)
  {
  }

  /** `samples.shuffle(rng)`, its draws taken from `start`. */
  function Shuffled<T>(t: seq<T>, draws: nat -> real, start: nat): (r: seq<T>)
    requires UnitDraws(draws)
    ensures |r| == |t|
  {
    if |t| == 0 then t else ShuffleDown(t, |t| - 1, draws, start)
  }

  lemma {:induction false} ShuffleDownPermutation<T>(t: seq<T>, i: nat, draws: nat -> real, at: nat)
    requires UnitDraws(draws) && i < |t|
    ensures multiset(ShuffleDown(t, i, draws, at)) == multiset(t)
    decreases i
  {
    if i > 0 {
      var j := Index(draws(at), i + 1);
      SwapPermutation(t, i, j);
      ShuffleDownPermutation(Swap(t, i, j), i - 1, draws, at + 1);
    }
  }

  /** The shuffle only reorders. */
  lemma {:induction false} ShuffledPermutation<T>(t: seq<T>, draws: nat -> real, start: nat)
    requires UnitDraws(draws)
    ensures multiset(Shuffled(t, draws, start)) == multiset(t)
  {
    if |t| > 0 {
      ShuffleDownPermutation(t, |t| - 1, draws, start);
    }
  }

  /** The number of draws the shuffle takes. */
  function ShuffleDraws(n: nat): nat
  {
    if n == 0 then 0 else n - 1
  }

  /** `generate_stratified_2d_samples`: the grid samples, shuffled. */
  function Stratified2D(size: nat, draws: nat -> real, start: nat): (r: seq<(real, real)>)
    requires UnitDraws(draws)
    ensures |r| == size
  {
    Shuffled(Grid2D(size, draws, start), draws, start + 2 * size)
  }

  /** The 2D samples of a dimension are the stratified grid, reordered;
      each lies in the unit square. */
  lemma {:induction false} Stratified2DSamples(size: nat, draws: nat -> real, start: nat)
    requires UnitDraws(draws)
    ensures multiset(Stratified2D(size, draws, start)) == multiset(Grid2D(size, draws, start))
    ensures forall k :: 0 <= k < size ==> InUnitSquare(Stratified2D(size, draws, start)[k])
  {
    var grid := Grid2D(size, draws, start);
    var r := Stratified2D(size, draws, start);
    ShuffledPermutation(grid, draws, start + 2 * size);
    Grid2DInUnitSquare(size, draws, start);
    forall k | 0 <= k < size
      ensures InUnitSquare(r[k])
    {
      assert r[k] in multiset(grid);
    }
  }

  /** The draws one dimension of `preprocess` takes: the 1D samples, two
      per 2D sample, and the shuffle. */
  function PerDimension(size: nat): nat
  {
    size + 2 * size + ShuffleDraws(size)
  }

  /** The first draw of dimension `d` in `preprocess`: every dimension
      before it took `PerDimension(size)` draws. */
  function DimensionStart(size: nat, d: nat): nat
  {
    if d == 0 then 0 else DimensionStart(size, d - 1) + PerDimension(size)
  }

  /** Dimension `d` starts after `d` dimensions' worth of draws. */
  lemma {:induction false} DimensionStartIs(size: nat, d: nat)
    ensures DimensionStart(size, d) == d * PerDimension(size)
  {
    if d > 0 {
      DimensionStartIs(size, d - 1);
      assert d * PerDimension(size) == (d - 1) * PerDimension(size) + PerDimension(size);
    }
  }

  /** The 1D samples of dimension `d` prepared by `preprocess`. */
  function Column1D(size: nat, draws: nat -> real, d: nat): (r: seq<real>)
    requires UnitDraws(draws)
    ensures |r| == size
  {
    Stratified1D(size, draws, DimensionStart(size, d))
  }

  /** The 2D samples of dimension `d` prepared by `preprocess`. */
  function Column2D(size: nat, draws: nat -> real, d: nat): (r: seq<(real, real)>)
    requires UnitDraws(draws)
    ensures |r| == size
  {
    Stratified2D(size, draws, DimensionStart(size, d) + size)
  }

  // ---------------------------------------------------------------------
  // The generation loops

  /** `generate_stratified_1d_samples`. */
  method GenerateStratified1D(size: nat, rng: Rng) returns (samples: seq<real>)
    requires UnitDraws(rng.draws)
    modifies rng
    ensures samples == Stratified1D(size, rng.draws, old(rng.drawn))
    ensures rng.drawn == old(rng.drawn) + size
  {
    ghost var start := rng.drawn;
    samples := [];
    var unit := Unit(size);
    for idx := 0 to size
      invariant rng.drawn == start + idx && |samples| == idx
      invariant forall i :: 0 <= i < idx ==> samples[i] == (i as real + rng.draws(start + i)) * unit
    {
      var u := rng.Gen();
      samples := samples + [(idx as real + u) * unit];
    }
    ghost var spec := Stratified1D(size, rng.draws, start);
    assert forall i :: 0 <= i < size ==> samples[i] == spec[i];
  }

  /** The inner `generate_samples` of `generate_stratified_2d_samples`: the
      square grid, then the remainder by recursion. */
  method GenerateSamples(size: nat, rng: Rng) returns (samples: seq<(real, real)>)
    modifies rng
    ensures samples == Grid2D(size, rng.draws, old(rng.drawn))
    ensures rng.drawn == old(rng.drawn) + 2 * size
    decreases size
  {
    var sqrtSize := FloorSqrt(size);
    ghost var start := rng.drawn;
    Grid2DSplit(size, rng.draws, start);
    samples := GenerateGrid(sqrtSize, rng);
    ghost var grid := Grid(sqrtSize, sqrtSize, rng.draws, start);
    assert samples == grid;
    if size != sqrtSize * sqrtSize {
      ghost var mid := rng.drawn;
      assert mid == start + 2 * |grid|;
      var rest := GenerateSamples(size - sqrtSize * sqrtSize, rng);
      assert rest == Grid2D(size - sqrtSize * sqrtSize, rng.draws, mid);
      samples := samples + rest;
    }
  }

  /** The two loops of `generate_samples`: the `s × s` grid row by row,
      two draws per sample. */
  method GenerateGrid(s: nat, rng: Rng) returns (samples: seq<(real, real)>)
    modifies rng
    ensures samples == Grid(s, s, rng.draws, old(rng.drawn))
    ensures rng.drawn == old(rng.drawn) + 2 * |samples|
  {
    ghost var start := rng.drawn;
    samples := [];
    for ix := 0 to s
      invariant rng.drawn == start + 2 * |samples|
      invariant samples == Grid(s, ix, rng.draws, start)
    {
      var row := GenerateRow(s, ix, rng);
      samples := samples + row;
    }
  }

  /** The inner loop of `generate_samples`: row `ix` of the `s × s` grid,
      two draws per cell. */
  method GenerateRow(s: nat, ix: nat, rng: Rng) returns (row: seq<(real, real)>)
    modifies rng
    ensures row == Cells(s, ix, s, rng.draws, old(rng.drawn))
    ensures rng.drawn == old(rng.drawn) + 2 * s
  {
    ghost var at := rng.drawn;
    row := [];
    for iy := 0 to s
      invariant rng.drawn == at + 2 * iy
      invariant row == Cells(s, ix, iy, rng.draws, at)
    {
      var ux := rng.Gen();
      var uy := rng.Gen();
      var p := Cell(s, ix, iy, ux, uy);
      row := row + [p];
    }
  }

  /** `samples.shuffle(rng)`: from the last position down to position 1,
      each is swapped with one drawn from those up to it. */
  method Shuffle<T>(t: seq<T>, rng: Rng) returns (r: seq<T>)
    requires UnitDraws(rng.draws)
    modifies rng
    ensures r == Shuffled(t, rng.draws, old(rng.drawn))
    ensures rng.drawn == old(rng.drawn) + ShuffleDraws(|t|)
  {
    r := t;
    if |r| == 0 {
      return;
    }
    ghost var start := rng.drawn;
    var i: nat := |r| - 1;
    while i > 0
      invariant i < |r| && rng.drawn == start + (|t| - 1 - i)
      invariant ShuffleDown(r, i, rng.draws, rng.drawn) == Shuffled(t, rng.draws, start)
    {
      ShuffleDownStep(r, i, rng.draws, rng.drawn);
      var j := rng.GenIndex(i + 1);
      r := Swap(r, i, j);
      i := i - 1;
    }
  }

  /** `generate_stratified_2d_samples`. */
  method GenerateStratified2D(size: nat, rng: Rng) returns (samples: seq<(real, real)>)
    requires UnitDraws(rng.draws)
    modifies rng
    ensures samples == Stratified2D(size, rng.draws, old(rng.drawn))
    ensures rng.drawn == old(rng.drawn) + 2 * size + ShuffleDraws(size)
  {
    samples := GenerateSamples(size, rng);
    samples := Shuffle(samples, rng);
  }

  // ---------------------------------------------------------------------
  // The prepared tables

  /** The first `dims` dimensions of the table `t` of 1D samples hold what
      `preprocess` stores there: one row per round, and in round `r`,
      dimension `d` holds sample `r` of that dimension's stratified
      column. */
  ghost predicate Filled1D(t: seq<seq<real>>, spp: nat, draws: nat -> real, dims: nat)
    requires UnitDraws(draws) && dims <= SamplesDimensions
  {
    |t| == spp && (forall r :: 0 <= r < spp ==> |t[r]| == SamplesDimensions) &&
    forall r, d :: 0 <= r < spp && 0 <= d < dims ==> t[r][d] == Column1D(spp, draws, d)[r]
  }

  /** The same for the table of 2D samples. */
  ghost predicate Filled2D(t: seq<seq<(real, real)>>, spp: nat, draws: nat -> real, dims: nat)
    requires UnitDraws(draws) && dims <= SamplesDimensions
  {
    |t| == spp && (forall r :: 0 <= r < spp ==> |t[r]| == SamplesDimensions) &&
    forall r, d :: 0 <= r < spp && 0 <= d < dims ==> t[r][d] == Column2D(spp, draws, d)[r]
  }

  /** The table of 1D samples `preprocess` leaves: every dimension filled. */
  ghost predicate Prepared1D(t: seq<seq<real>>, spp: nat, draws: nat -> real)
    requires UnitDraws(draws)
  {
    Filled1D(t, spp, draws, SamplesDimensions)
  }

  /** The table of 2D samples `preprocess` leaves. */
  ghost predicate Prepared2D(t: seq<seq<(real, real)>>, spp: nat, draws: nat -> real)
    requires UnitDraws(draws)
  {
    Filled2D(t, spp, draws, SamplesDimensions)
  }

  /** Dimension `d` of a table of rounds: one entry per round. */
  function Column<T>(t: seq<seq<T>>, d: nat): (c: seq<T>)
    requires forall r :: 0 <= r < |t| ==> d < |t[r]|
    ensures |c| == |t|
  {
    seq(|t|, r requires 0 <= r < |t| => t[r][d])
  }

  /** What the prepared 1D samples are for: across the `spp` rounds, the
      samples of one dimension fall one into each stratum `[r/spp,
      (r+1)/spp)`. */
  lemma {:induction false} Prepared1DStratified(t: seq<seq<real>>, spp: nat, draws: nat -> real, d: nat)
    requires UnitDraws(draws) && Prepared1D(t, spp, draws) && d < SamplesDimensions
    ensures forall r :: 0 <= r < spp ==> r as real <= t[r][d] * spp as real < r as real + 1.0
  {
    var generated := Column1D(spp, draws, d);
    forall r | 0 <= r < spp
      ensures r as real <= t[r][d] * spp as real < r as real + 1.0
    {
      assert t[r][d] == generated[r];
    }
  }

  /** What the prepared 2D samples are for: across the `spp` rounds, the
      samples of one dimension are the jittered grid in some order, all
      inside the unit square. */
  lemma {:induction false} Prepared2DStratified(t: seq<seq<(real, real)>>, spp: nat, draws: nat -> real, d: nat)
    requires UnitDraws(draws) && Prepared2D(t, spp, draws) && d < SamplesDimensions
    ensures multiset(Column(t, d)) == multiset(Grid2D(spp, draws, DimensionStart(spp, d) + spp))
    ensures forall r :: 0 <= r < spp ==> InUnitSquare(t[r][d])
  {
    var column := Column(t, d);
    var generated := Column2D(spp, draws, d);
    assert column == generated by {
      assert forall r :: 0 <= r < spp ==> column[r] == generated[r];
    }
    Stratified2DSamples(spp, draws, DimensionStart(spp, d) + spp);
    forall r | 0 <= r < spp
      ensures InUnitSquare(t[r][d])
    {
      assert t[r][d] == generated[r];
    }
  }

  /** One pass of the outer loop of `preprocess`: dimension `d`'s 1D and
      2D samples are generated and stored in every round. */
  method PrepareDimension(spp: nat, d: nat, rng: Rng, table1d: seq<seq<real>>, table2d: seq<seq<(real, real)>>)
    returns (next1d: seq<seq<real>>, next2d: seq<seq<(real, real)>>)
    requires UnitDraws(rng.draws) && d < SamplesDimensions && rng.drawn == DimensionStart(spp, d)
    requires Filled1D(table1d, spp, rng.draws, d) && Filled2D(table2d, spp, rng.draws, d)
    modifies rng
    ensures rng.drawn == DimensionStart(spp, d + 1)
    ensures Filled1D(next1d, spp, rng.draws, d + 1) && Filled2D(next2d, spp, rng.draws, d + 1)
  {
    var column1d := GenerateStratified1D(spp, rng);
    var column2d := GenerateStratified2D(spp, rng);
    assert column1d == Column1D(spp, rng.draws, d);
    assert column2d == Column2D(spp, rng.draws, d);
    next1d := SetColumn(table1d, d, column1d);
    next2d := SetColumn(table2d, d, column2d);
    forall r, e | 0 <= r < spp && 0 <= e < d + 1
      ensures next1d[r][e] == Column1D(spp, rng.draws, e)[r]
      ensures next2d[r][e] == Column2D(spp, rng.draws, e)[r]
    {
      if e < d {
        assert next1d[r][e] == table1d[r][e] && next2d[r][e] == table2d[r][e];
      } else {
        assert next1d[r][e] == column1d[r] && next2d[r][e] == column2d[r];
      }
    }
  }

  /** The inner loop of `preprocess`: entry `d` of every round is set to
      that round's entry of `column`; every other entry is kept. */
  method SetColumn<T>(t: seq<seq<T>>, d: nat, column: seq<T>) returns (u: seq<seq<T>>)
    requires |column| == |t| && forall r :: 0 <= r < |t| ==> d < |t[r]|
    ensures |u| == |t| && forall r :: 0 <= r < |t| ==> |u[r]| == |t[r]|
    ensures forall r :: 0 <= r < |t| ==> u[r][d] == column[r]
    ensures forall r, e :: 0 <= r < |t| && 0 <= e < |t[r]| && e != d ==> u[r][e] == t[r][e]
  {
    u := t;
    for r := 0 to |t|
      invariant |u| == |t| && forall r' :: 0 <= r' < |t| ==> |u[r']| == |t[r']|
      invariant forall r' :: 0 <= r' < r ==> u[r'][d] == column[r']
      invariant forall r', e :: 0 <= r' < |t| && 0 <= e < |t[r']| && (e != d || r' >= r) ==> u[r'][e] == t[r'][e]
    {
      u := u[r := u[r][d := column[r]]];
    }
  }

  // ---------------------------------------------------------------------
  // The sampler

  /** Stands for the `f32::NAN` the tables of `preprocess` are created
      with; every entry is overwritten before it is read. */
  const Unset: real := 0.0

  /** `StratifiedSampler`. */
  class StratifiedSampler {
    var rng: Rng
    var round: nat
    var dimension1d: nat
    var dimension2d: nat
    var samples1d: seq<seq<real>>
    var samples2d: seq<seq<(real, real)>>

    /** `StratifiedSampler::default`: a fresh generator, all counters at
        `usize::MAX`, no 1D samples and one empty round of 2D samples. */
    constructor Default(entropy: nat -> real)
      ensures fresh(rng) && rng.draws == entropy && rng.drawn == 0
      ensures round == UsizeMax && dimension1d == UsizeMax && dimension2d == UsizeMax
      ensures samples1d == [] && samples2d == [[]]
    {
      rng := new Rng.FromEntropy(entropy);
      round := UsizeMax;
      dimension1d := UsizeMax;
      dimension2d := UsizeMax;
      samples1d := [];
      samples2d := [[]];
    }

    /** `fork`: a new sampler in its default state, sharing nothing. */
    method Fork(entropy: nat -> real) returns (s: StratifiedSampler)
      ensures fresh(s) && fresh(s.rng) && s.rng.draws == entropy && s.rng.drawn == 0
      ensures s.round == UsizeMax && s.dimension1d == UsizeMax && s.dimension2d == UsizeMax
      ensures s.samples1d == [] && s.samples2d == [[]]
    {
      s := new StratifiedSampler.Default(entropy);
    }

    /** `preprocess`: a fresh generator, the counters at zero, and for every
        round and dimension the sample of that dimension's stratified
        column; the generator has then served `SamplesDimensions`
        dimensions' draws. */
    method Preprocess(spp: nat, entropy: nat -> real)
      requires UnitDraws(entropy)
      modifies this
      ensures fresh(rng) && rng.draws == entropy
      ensures rng.drawn == SamplesDimensions * PerDimension(spp)
      ensures round == 0 && dimension1d == 0 && dimension2d == 0
      ensures Prepared1D(samples1d, spp, entropy) && Prepared2D(samples2d, spp, entropy)
    {
      var g := new Rng.FromEntropy(entropy);
      rng := g;
      round := 0;
      dimension1d := 0;
      dimension2d := 0;
      var table1d := seq(spp, _ => seq(SamplesDimensions, _ => Unset));
      var table2d := seq(spp, _ => seq(SamplesDimensions, _ => (Unset, Unset)));
      for d := 0 to SamplesDimensions
        invariant fresh(g) && g.draws == entropy && g.drawn == DimensionStart(spp, d)
        invariant rng == g && round == 0 && dimension1d == 0 && dimension2d == 0
        invariant Filled1D(table1d, spp, entropy, d) && Filled2D(table2d, spp, entropy, d)
      {
        table1d, table2d := PrepareDimension(spp, d, g, table1d, table2d);
      }
      samples1d := table1d;
      samples2d := table2d;
      DimensionStartIs(spp, SamplesDimensions);
    }

    /** `update_round`: the next round, both dimensions back to zero. The
        round counter is a `usize`, so it wraps around at `usize::MAX`. */
    method UpdateRound()
      modifies this
      ensures round == (old(round) + 1) % (UsizeMax + 1)
      ensures dimension1d == 0 && dimension2d == 0
      ensures rng == old(rng) && samples1d == old(samples1d) && samples2d == old(samples2d)
    {
      round := (round + 1) % (UsizeMax + 1);
      dimension1d := 0;
      dimension2d := 0;
    }

    /** `get_1d_sample`: the next prepared 1D sample of this round, or a
        fresh draw once the round has none left. */
    method Get1DSample() returns (u: real)
      modifies this, rng
      ensures rng == old(rng) && round == old(round) && dimension2d == old(dimension2d)
      ensures samples1d == old(samples1d) && samples2d == old(samples2d)
      ensures old(round < |samples1d| && dimension1d < |samples1d[round]|) ==>
                u == samples1d[round][old(dimension1d)] && dimension1d == old(dimension1d) + 1 &&
                rng.drawn == old(rng.drawn)
      ensures old(round >= |samples1d| || dimension1d >= |samples1d[round]|) ==>
                u == rng.draws(old(rng.drawn)) && rng.drawn == old(rng.drawn) + 1 &&
                dimension1d == old(dimension1d)
    {
      if round >= |samples1d| || dimension1d >= |samples1d[round]| {
        u := rng.Gen();
        return;
      }
      u := samples1d[round][dimension1d];
      dimension1d := dimension1d + 1;
    }

    /** `get_2d_sample`: the next prepared 2D sample of this round, or two
        fresh draws, `x` first, once the round has none left. */
    method Get2DSample() returns (p: (real, real))
      modifies this, rng
      ensures rng == old(rng) && round == old(round) && dimension1d == old(dimension1d)
      ensures samples1d == old(samples1d) && samples2d == old(samples2d)
      ensures old(round < |samples2d| && dimension2d < |samples2d[round]|) ==>
                p == samples2d[round][old(dimension2d)] && dimension2d == old(dimension2d) + 1 &&
                rng.drawn == old(rng.drawn)
      ensures old(round >= |samples2d| || dimension2d >= |samples2d[round]|) ==>
                p == (rng.draws(old(rng.drawn)), rng.draws(old(rng.drawn) + 1)) &&
                rng.drawn == old(rng.drawn) + 2 && dimension2d == old(dimension2d)
    {
      if round >= |samples2d| || dimension2d >= |samples2d[round]| {
        var x := rng.Gen();
        var y := rng.Gen();
        p := (x, y);
        return;
      }
      p := samples2d[round][dimension2d];
      dimension2d := dimension2d + 1;
    }
  }
}
