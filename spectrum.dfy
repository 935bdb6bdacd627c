/** Piecewise-linear spectra defined by constant tables
    (`src/spectra/const_piecewise_linear_spectrum.rs`).

    A spectrum is a list of wavelengths and a list of values of the same
    length; between two wavelengths it is the straight line through the two
    values, and outside the listed range it is zero. The interval search is
    a binary search, proved here against a linear scan (`Interval`).
    Floating-point numbers are modelled as reals: the model has no rounding,
    no NaN and no infinities. */
module ConstSpectrum {
  import opened Wrappers

  /** The visible range, in nanometres (`src/base/spectrum.rs`). */
  const LambdaMin: real := 360.0
  const LambdaMax: real := 830.0
  const LambdaMinNat: nat := 360
  const LambdaMaxNat: nat := 830

  /** The integral of the CIE Y matching curve (`src/base/spectrum.rs`). */
  const CieYIntegral: real := 106.856895

  /** The panics of the source, and the division by zero whose NaN or
      infinity the model cannot represent. */
  datatype SpectrumError =
    | LengthUnderflow
    | IndexOutOfRange(index: nat, length: nat)
    | AssertionFailed
    | DivisionByZero

  /** `ConstPieceWiseLinearSpectrum<N>`: both tables have the length `N`. */
  datatype Spectrum = Spectrum(lambdas: seq<real>, values: seq<real>)

  predicate WellShaped(sp: Spectrum)
  {
    |sp.lambdas| == |sp.values|
  }

  /** Non-decreasing: what the binary search relies on. */
  predicate Sorted(s: seq<real>)
  {
    forall i, j :: 0 <= i <= j < |s| ==> s[i] <= s[j]
  }

  /** Every adjacent pair strictly increasing: what `build_spectrum` asserts. */
  predicate StrictlyIncreasing(s: seq<real>)
  {
    forall i :: 0 <= i < |s| - 1 ==> s[i] < s[i + 1]
  }

  /** Strictly increasing adjacent pairs order the whole list strictly. */
  lemma {:induction false} StrictlyIncreasingOrdered(s: seq<real>, i: nat, j: nat)
    requires StrictlyIncreasing(s) && i < j < |s|
    ensures s[i] < s[j]
    decreases j - i
  {
    if i + 1 < j {
      StrictlyIncreasingOrdered(s, i + 1, j);
    }
  }

  lemma StrictlyIncreasingSorted(s: seq<real>)
    requires StrictlyIncreasing(s)
    ensures Sorted(s)
  {
    forall i, j | 0 <= i < j < |s|
      ensures s[i] < s[j]
    {
      StrictlyIncreasingOrdered(s, i, j);
    }
  }

  /** `clamp_usize`. */
  function Clamp(val: int, low: int, high: int): (r: int)
    requires low <= high
    ensures low <= r <= high
    ensures low <= val <= high ==> r == val
  {
    if val < low then low else if val > high then high else val
  }

  /** `lerp`: the point a fraction `t` of the way from `a` to `b`. */
  function Lerp(t: real, a: real, b: real): real
  {
    (1.0 - t) * a + t * b
  }

  // ---------------------------------------------------------------------
  // The interval search

  /** The reference for `find_lambda_interval`: scanning up from index 1,
      the index before the first of `1 .. N-2` whose wavelength exceeds
      `lam` (or `N-2` when none does). */
  function IntervalFrom(lambdas: seq<real>, lam: real, i: nat): (r: nat)
    requires 1 <= i <= |lambdas| - 1
    ensures i - 1 <= r <= |lambdas| - 2
    ensures forall k :: i <= k <= r ==> lambdas[k] <= lam
    ensures r + 1 <= |lambdas| - 2 ==> lam < lambdas[r + 1]
    decreases |lambdas| - i
  {
    if i <= |lambdas| - 2 && lambdas[i] <= lam then IntervalFrom(lambdas, lam, i + 1) else i - 1
  }

  function Interval(lambdas: seq<real>, lam: real): (r: nat)
    requires |lambdas| >= 2
    ensures r <= |lambdas| - 2
    ensures forall k :: 1 <= k <= r ==> lambdas[k] <= lam
    ensures r + 1 <= |lambdas| - 2 ==> lam < lambdas[r + 1]
  {
    IntervalFrom(lambdas, lam, 1)
  }

  /** The binary search of `find_lambda_interval` over the indices
      `first .. first + size`: the first index whose wavelength exceeds
      `lam`, when the table is sorted. */
  function Search(lambdas: seq<real>, lam: real, first: nat, size: nat): (r: nat)
    requires 1 <= first && first + size <= |lambdas| - 1
    ensures first <= r <= first + size
    decreases size
  {
    if size == 0 then first
    else
      var half := size / 2;
      var middle := first + half;
      if lambdas[middle] <= lam then Search(lambdas, lam, middle + 1, size - (half + 1))
      else Search(lambdas, lam, first, half)
  }

  /** `find_lambda_interval`: the search over `1 .. N-2`, less one, clamped
      to `0 .. N-2`. With fewer than two wavelengths `N - 2` underflows. */
  function LambdaInterval(lambdas: seq<real>, lam: real): (r: Result<nat, SpectrumError>)
    ensures r.Err? <==> |lambdas| < 2
    ensures r.Err? ==> r.error == LengthUnderflow
    ensures r.Ok? ==> r.value <= |lambdas| - 2
  {
    if |lambdas| < 2 then Err(LengthUnderflow)
    else Ok(Clamp(Search(lambdas, lam, 1, |lambdas| - 2) - 1, 0, |lambdas| - 2))
  }

  /** On a sorted table the binary search finds what the linear scan finds. */
  lemma {:induction false} SearchSorted(lambdas: seq<real>, lam: real, first: nat, size: nat)
    requires Sorted(lambdas) && 1 <= first && first + size <= |lambdas| - 1
    requires forall k :: 1 <= k < first ==> lambdas[k] <= lam
    requires forall k :: first + size <= k < |lambdas| - 1 ==> lam < lambdas[k]
    ensures Search(lambdas, lam, first, size) == Interval(lambdas, lam) + 1
    decreases size
  {
    if size == 0 {
      var o := Interval(lambdas, lam);
      assert o + 1 <= |lambdas| - 2 ==> lam < lambdas[o + 1];
      assert first < |lambdas| - 1 ==> lam < lambdas[first];
    } else {
      var half := size / 2;
      var middle := first + half;
      if lambdas[middle] <= lam {
        SearchSorted(lambdas, lam, middle + 1, size - (half + 1));
      } else {
        SearchSorted(lambdas, lam, first, half);
      }
    }
  }

  lemma LambdaIntervalSorted(lambdas: seq<real>, lam: real)
    requires |lambdas| >= 2 && Sorted(lambdas)
    ensures LambdaInterval(lambdas, lam) == Ok(Interval(lambdas, lam))
  {
    SearchSorted(lambdas, lam, 1, |lambdas| - 2);
  }

  /** `find_lambda_interval`, the loop halving the range. */
  method FindLambdaInterval(lam: real, lambdas: seq<real>) returns (r: Result<nat, SpectrumError>)
    ensures r == LambdaInterval(lambdas, lam)
  {
    if |lambdas| < 2 {
      return Err(LengthUnderflow);
    }
    var size: nat := |lambdas| - 2;
    var first: nat := 1;
    while size > 0
      invariant 1 <= first && first + size <= |lambdas| - 1
      invariant Search(lambdas, lam, first, size) == Search(lambdas, lam, 1, |lambdas| - 2)
    {
      var half := size / 2;
      var middle := first + half;
      if lambdas[middle] <= lam {
        first, size := middle + 1, size - (half + 1);
      } else {
        size := half;
      }
    }
    r := Ok(Clamp(first - 1, 0, |lambdas| - 2));
  }

  /** In range, the interval found brackets `lam`: the assertion of
      `const_eval` holds on every sorted table. */
  lemma IntervalBrackets(lambdas: seq<real>, lam: real)
    requires |lambdas| >= 2 && Sorted(lambdas)
    requires lambdas[0] <= lam <= lambdas[|lambdas| - 1]
    ensures lambdas[Interval(lambdas, lam)] <= lam <= lambdas[Interval(lambdas, lam) + 1]
  {
    var o := Interval(lambdas, lam);
    if o > 0 {
      assert lambdas[o] <= lam;
    }
  }

  /** On a strictly increasing table, each listed wavelength but the last
      starts its own interval. */
  lemma IntervalAtSample(lambdas: seq<real>, i: nat)
    requires |lambdas| >= 2 && StrictlyIncreasing(lambdas) && i <= |lambdas| - 2
    ensures Interval(lambdas, lambdas[i]) == i
  {
    var o := Interval(lambdas, lambdas[i]);
    if o < i {
      StrictlyIncreasingOrdered(lambdas, o + 1, i);
    } else if o > i {
      StrictlyIncreasingOrdered(lambdas, i, o);
    }
  }

  // ---------------------------------------------------------------------
  // Sortedness

  /** `strictly_sorted`: every adjacent pair increases. `len() - 1`
      underflows on an empty table. */
  method StrictlySorted(arrays: seq<real>) returns (r: Result<bool, SpectrumError>)
    ensures r.Err? <==> |arrays| == 0
    ensures r.Err? ==> r.error == LengthUnderflow
    ensures r.Ok? ==> (r.value <==> StrictlyIncreasing(arrays))
  {
    if |arrays| == 0 {
      return Err(LengthUnderflow);
    }
    var idx := 0;
    while idx < |arrays| - 1
      invariant idx <= |arrays| - 1
      invariant forall i :: 0 <= i < idx ==> arrays[i] < arrays[i + 1]
    {
      if arrays[idx] >= arrays[idx + 1] {
        return Ok(false);
      }
      idx := idx + 1;
    }
    r := Ok(true);
  }

  // ---------------------------------------------------------------------
  // Evaluation

  /** `const_eval`: zero outside `lambdas[0] ..= lambdas[N-1]`; inside, the
      line between the two samples around `lam`. Two equal neighbouring
      wavelengths would make the source divide by zero. */
  function Eval(sp: Spectrum, lam: real): (r: Result<real, SpectrumError>)
    requires WellShaped(sp)
    ensures |sp.lambdas| == 0 || lam < sp.lambdas[0] || lam > sp.lambdas[|sp.lambdas| - 1] ==> r == Ok(0.0)
  {
    var n := |sp.lambdas|;
    if n == 0 || lam < sp.lambdas[0] || lam > sp.lambdas[n - 1] then Ok(0.0)
    else if n < 2 then Err(LengthUnderflow)
    else
      var o := LambdaInterval(sp.lambdas, lam).value;
      if !(lam >= sp.lambdas[o] && lam <= sp.lambdas[o + 1]) then Err(AssertionFailed)
      else Interpolate(sp.lambdas[o], sp.lambdas[o + 1], sp.values[o], sp.values[o + 1], lam)
  }

  /** The point at `lam` on the line through `(l0, v0)` and `(l1, v1)`. */
  function Interpolate(l0: real, l1: real, v0: real, v1: real, lam: real): Result<real, SpectrumError>
  {
    if l1 == l0 then Err(DivisionByZero)
    else Ok(Lerp((lam - l0) / (l1 - l0), v0, v1))
  }

  /** `const_eval` as the source computes it, with the binary search. */
  method ConstEval(sp: Spectrum, lam: real) returns (r: Result<real, SpectrumError>)
    requires WellShaped(sp)
    ensures r == Eval(sp, lam)
  {
    var n := |sp.lambdas|;
    if n == 0 || lam < sp.lambdas[0] || lam > sp.lambdas[n - 1] {
      return Ok(0.0);
    }
    var o :- FindLambdaInterval(lam, sp.lambdas);
    EvalInside(sp, lam, o);
    if !(lam >= sp.lambdas[o] && lam <= sp.lambdas[o + 1]) {
      return Err(AssertionFailed);
    }
    if sp.lambdas[o + 1] == sp.lambdas[o] {
      return Err(DivisionByZero);
    }
    var t := (lam - sp.lambdas[o]) / (sp.lambdas[o + 1] - sp.lambdas[o]);
    r := Ok(Lerp(t, sp.values[o], sp.values[o + 1]));
  }

  /** Inside the sampled range, evaluation checks the interval the search
      found and interpolates over it. */
  lemma EvalInside(sp: Spectrum, lam: real, o: nat)
    requires WellShaped(sp) && 0 < |sp.lambdas| && sp.lambdas[0] <= lam <= sp.lambdas[|sp.lambdas| - 1]
    requires LambdaInterval(sp.lambdas, lam) == Ok(o)
    ensures o + 1 < |sp.lambdas|
    ensures !(lam >= sp.lambdas[o] && lam <= sp.lambdas[o + 1]) ==> Eval(sp, lam) == Err(AssertionFailed)
    ensures lam >= sp.lambdas[o] && lam <= sp.lambdas[o + 1] ==>
              Eval(sp, lam) == Interpolate(sp.lambdas[o], sp.lambdas[o + 1], sp.values[o], sp.values[o + 1], lam)
  {
  }

  /** The line passes through both of its end points. */
  lemma InterpolateEnds(l0: real, l1: real, v0: real, v1: real)
    requires l0 != l1
    ensures Interpolate(l0, l1, v0, v1, l0) == Ok(v0)
    ensures Interpolate(l0, l1, v0, v1, l1) == Ok(v1)
  {
    assert (l1 - l0) / (l1 - l0) == 1.0;
  }

  /** A valid spectrum never fails at its samples, and passes through every
      one of them. */
  lemma EvalAtSample(sp: Spectrum, i: nat)
    requires WellShaped(sp) && StrictlyIncreasing(sp.lambdas) && 2 <= |sp.lambdas| && i < |sp.lambdas|
    ensures Eval(sp, sp.lambdas[i]) == Ok(sp.values[i])
  {
    var n := |sp.lambdas|;
    var lam := sp.lambdas[i];
    if n >= 2 {
      StrictlyIncreasingSorted(sp.lambdas);
      IntervalBrackets(sp.lambdas, lam);
      LambdaIntervalSorted(sp.lambdas, lam);
      var o := Interval(sp.lambdas, lam);
      if i <= n - 2 {
        IntervalAtSample(sp.lambdas, i);
        InterpolateEnds(sp.lambdas[i], sp.lambdas[i + 1], sp.values[i], sp.values[i + 1]);
      } else {
        InterpolateEnds(sp.lambdas[o], sp.lambdas[o + 1], sp.values[o], sp.values[o + 1]);
      }
    }
  }

  /** Inside the range of a strictly increasing table, the value lies
      between the two samples around `lam`. */
  lemma EvalBetweenSamples(sp: Spectrum, lam: real)
    requires WellShaped(sp) && StrictlyIncreasing(sp.lambdas) && |sp.lambdas| >= 2
    requires sp.lambdas[0] <= lam <= sp.lambdas[|sp.lambdas| - 1]
    ensures var o := Interval(sp.lambdas, lam);
            var r := Eval(sp, lam);
            r.Ok? && ((sp.values[o] <= r.value <= sp.values[o + 1]) || (sp.values[o + 1] <= r.value <= sp.values[o]))
  {
    StrictlyIncreasingSorted(sp.lambdas);
    IntervalBrackets(sp.lambdas, lam);
    LambdaIntervalSorted(sp.lambdas, lam);
    var o := Interval(sp.lambdas, lam);
    FractionInUnit(lam - sp.lambdas[o], sp.lambdas[o + 1] - sp.lambdas[o]);
    var t := (lam - sp.lambdas[o]) / (sp.lambdas[o + 1] - sp.lambdas[o]);
    LerpBetween(t, sp.values[o], sp.values[o + 1]);
  }

  lemma LerpBetween(t: real, a: real, b: real)
    requires 0.0 <= t <= 1.0
    ensures (a <= Lerp(t, a, b) <= b) || (b <= Lerp(t, a, b) <= a)
  {
    assert Lerp(t, a, b) - a == t * (b - a);
    assert b - Lerp(t, a, b) == (1.0 - t) * (b - a);
    if a <= b {
      MulNonNegative(t, b - a);
      MulNonNegative(1.0 - t, b - a);
    } else {
      MulNonNegative(t, a - b);
      MulNonNegative(1.0 - t, a - b);
    }
  }

  lemma MulNonNegative(x: real, y: real)
    requires 0.0 <= x && 0.0 <= y
    ensures 0.0 <= x * y
  {
  }

  /** A part of a positive whole is a fraction between zero and one. */
  lemma FractionInUnit(x: real, d: real)
    requires 0.0 <= x <= d && 0.0 < d
    ensures 0.0 <= x / d <= 1.0
  {
    var t := x / d;
    assert t * d == x;
    if t < 0.0 {
      MulNonNegative(-t, d);
    }
    if t > 1.0 {
      MulNonNegative(t - 1.0, d);
    }
  }

  // ---------------------------------------------------------------------
  // Scaling

  /** Every value multiplied by `s`. */
  function Scaled(values: seq<real>, s: real): (r: seq<real>)
    ensures |r| == |values|
  {
    seq(|values|, i requires 0 <= i < |values| => values[i] * s)
  }

  /** `const_scale`: the wavelengths kept, each value multiplied by `s`. */
  method ConstScale(sp: Spectrum, s: real) returns (r: Spectrum)
    ensures r.lambdas == sp.lambdas && r.values == Scaled(sp.values, s)
  {
    var values := sp.values;
    var idx := 0;
    while idx < |values|
      invariant |values| == |sp.values| && idx <= |values|
      invariant forall i :: 0 <= i < idx ==> values[i] == sp.values[i] * s
      invariant forall i :: idx <= i < |values| ==> values[i] == sp.values[i]
    {
      values := values[idx := values[idx] * s];
      idx := idx + 1;
    }
    assert forall i :: 0 <= i < |values| ==> values[i] == Scaled(sp.values, s)[i];
    r := Spectrum(sp.lambdas, values);
  }

  /** Scaling twice is scaling by the product, and scaling by one changes
      nothing. */
  lemma ScaledTwice(values: seq<real>, a: real, b: real)
    ensures Scaled(Scaled(values, a), b) == Scaled(values, a * b)
    ensures Scaled(values, 1.0) == values
  {
    forall i | 0 <= i < |values|
      ensures Scaled(Scaled(values, a), b)[i] == Scaled(values, a * b)[i]
    {
      assert (values[i] * a) * b == values[i] * (a * b);
    }
    assert forall i :: 0 <= i < |values| ==> Scaled(values, 1.0)[i] == values[i];
  }

  /** Scaling the values scales the spectrum everywhere. */
  lemma EvalScaled(sp: Spectrum, s: real, lam: real)
    requires WellShaped(sp)
    ensures Scales(Eval(sp, lam), Eval(Spectrum(sp.lambdas, Scaled(sp.values, s)), lam), s)
  {
    var n := |sp.lambdas|;
    if !(n == 0 || lam < sp.lambdas[0] || lam > sp.lambdas[n - 1]) && n >= 2 {
      var o := LambdaInterval(sp.lambdas, lam).value;
      var l0, l1, a, b := sp.lambdas[o], sp.lambdas[o + 1], sp.values[o], sp.values[o + 1];
      assert Scaled(sp.values, s)[o] == a * s && Scaled(sp.values, s)[o + 1] == b * s;
      if l0 != l1 {
        var t := (lam - l0) / (l1 - l0);
        assert Lerp(t, a * s, b * s) == s * Lerp(t, a, b);
      }
    }
  }

  /** `non_zero`: some value is positive. */
  predicate HasPositive(values: seq<real>)
  {
    exists i :: 0 <= i < |values| && values[i] > 0.0
  }

  method NonZero(sp: Spectrum) returns (r: bool)
    ensures r <==> HasPositive(sp.values)
  {
    for i := 0 to |sp.values|
      invariant forall k :: 0 <= k < i ==> sp.values[k] <= 0.0
    {
      if sp.values[i] > 0.0 {
        return true;
      }
    }
    return false;
  }

  /** Scaling by a positive factor keeps a spectrum non-zero, and a zero one
      zero. */
  lemma HasPositiveScaled(values: seq<real>, s: real)
    requires s > 0.0
    ensures HasPositive(Scaled(values, s)) <==> HasPositive(values)
  {
    if HasPositive(values) {
      var i :| 0 <= i < |values| && values[i] > 0.0;
      assert Scaled(values, s)[i] > 0.0;
    }
    if HasPositive(Scaled(values, s)) {
      var i :| 0 <= i < |values| && Scaled(values, s)[i] > 0.0;
      assert values[i] > 0.0;
    }
  }

  // ---------------------------------------------------------------------
  // Normalisation

  /** The product of two evaluations, the first failure winning. */
  function Times(x: Result<real, SpectrumError>, y: Result<real, SpectrumError>): Result<real, SpectrumError>
  {
    match x
    case Err(e) => Err(e)
    case Ok(a) =>
      match y
      case Err(e) => Err(e)
      case Ok(b) => Ok(a * b)
  }

  /** The product of the two spectra at one wavelength, `self` evaluated
      first. */
  function Pointwise(sp: Spectrum, g: Spectrum, lam: real): Result<real, SpectrumError>
    requires WellShaped(sp) && WellShaped(g)
  {
    Times(Eval(sp, lam), Eval(g, lam))
  }

  /** The sum of the products at the whole wavelengths `lam ..= 830`, or the
      first failure. */
  function SumFrom(sp: Spectrum, g: Spectrum, lam: nat): Result<real, SpectrumError>
    requires WellShaped(sp) && WellShaped(g)
    decreases LambdaMaxNat + 1 - lam
  {
    if lam > LambdaMaxNat then Ok(0.0)
    else Plus(Pointwise(sp, g, lam as real), SumFrom(sp, g, lam + 1))
  }

  /** The sum of two results, the first failure winning. */
  function Plus(x: Result<real, SpectrumError>, y: Result<real, SpectrumError>): Result<real, SpectrumError>
  {
    match x
    case Err(e) => Err(e)
    case Ok(a) => AddTo(a, y)
  }

  /** `const_inner_product`: the sum over the visible range, one nanometre
      apart. */
  function InnerProduct(sp: Spectrum, g: Spectrum): Result<real, SpectrumError>
    requires WellShaped(sp) && WellShaped(g)
  {
    SumFrom(sp, g, LambdaMinNat)
  }

  /** `acc` added to a sum that may have failed. */
  function AddTo(acc: real, r: Result<real, SpectrumError>): Result<real, SpectrumError>
  {
    match r
    case Err(e) => Err(e)
    case Ok(x) => Ok(acc + x)
  }

  /** One step of the sum, from the two evaluations at its first
      wavelength: the first failure, or their product added on. */
  lemma SumStep(sp: Spectrum, g: Spectrum, lam: nat, acc: real, a: Result<real, SpectrumError>, b: Result<real, SpectrumError>)
    requires WellShaped(sp) && WellShaped(g) && lam <= LambdaMaxNat
    requires a == Eval(sp, lam as real) && b == Eval(g, lam as real)
    ensures a.Err? ==> AddTo(acc, SumFrom(sp, g, lam)) == Err(a.error)
    ensures a.Ok? && b.Err? ==> AddTo(acc, SumFrom(sp, g, lam)) == Err(b.error)
    ensures a.Ok? && b.Ok? ==> AddTo(acc, SumFrom(sp, g, lam)) == AddTo(acc + a.value * b.value, SumFrom(sp, g, lam + 1))
  {
    var p := Pointwise(sp, g, lam as real);
    assert p == Times(a, b);
    assert SumFrom(sp, g, lam) == Plus(p, SumFrom(sp, g, lam + 1));
    if p.Ok? {
      var rest := SumFrom(sp, g, lam + 1);
      if rest.Ok? {
        assert acc + (p.value + rest.value) == (acc + p.value) + rest.value;
      }
    }
  }

  /** `const_inner_product`: the loop accumulating the products. */
  method ConstInnerProduct(sp: Spectrum, g: Spectrum) returns (r: Result<real, SpectrumError>)
    requires WellShaped(sp) && WellShaped(g)
    ensures r == InnerProduct(sp, g)
  {
    var integral := 0.0;
    var lam := LambdaMinNat;
    SumFromBounds(sp, g, integral);
    while lam < LambdaMaxNat + 1
      invariant lam <= LambdaMaxNat + 1
      invariant InnerProduct(sp, g) == AddTo(integral, SumFrom(sp, g, lam))
    {
      var next := AddProduct(sp, g, lam, integral);
      if next.Err? {
        return next;
      }
      integral, lam := next.value, lam + 1;
    }
    SumFromBounds(sp, g, integral);
    r := Ok(integral);
  }

  /** The sum starts as the inner product, from nothing accumulated, and
      adds nothing once past the last wavelength. */
  lemma SumFromBounds(sp: Spectrum, g: Spectrum, acc: real)
    requires WellShaped(sp) && WellShaped(g)
    ensures InnerProduct(sp, g) == AddTo(0.0, SumFrom(sp, g, LambdaMinNat))
    ensures AddTo(acc, SumFrom(sp, g, LambdaMaxNat + 1)) == Ok(acc)
  {
  }

  /** One turn of that loop: the product at `lam` added to `integral`, or
      the failure of one of the two evaluations, which ends the sum. */
  method AddProduct(sp: Spectrum, g: Spectrum, lam: nat, integral: real) returns (r: Result<real, SpectrumError>)
    requires WellShaped(sp) && WellShaped(g) && lam <= LambdaMaxNat
    ensures r.Err? ==> AddTo(integral, SumFrom(sp, g, lam)) == r
    ensures r.Ok? ==> AddTo(integral, SumFrom(sp, g, lam)) == AddTo(r.value, SumFrom(sp, g, lam + 1))
  {
    var a := ConstEval(sp, lam as real);
    var b := ConstEval(g, lam as real);
    SumStep(sp, g, lam, integral, a, b);
    if a.Err? {
      return Err(a.error);
    }
    if b.Err? {
      return Err(b.error);
    }
    r := Ok(integral + a.value * b.value);
  }

  /** `build_spectrum` (with `finite`, which holds of every real): the
      wavelengths must increase strictly; with `normalize`, the values are
      scaled so that the inner product with the CIE Y curve `cieY` becomes
      `CIE_Y_INTEGRAL`. */
  function BuildSpec(lambdas: seq<real>, values: seq<real>, normalize: bool, cieY: Spectrum): Result<Spectrum, SpectrumError>
    requires |lambdas| == |values| && WellShaped(cieY)
  {
    if |lambdas| == 0 then Err(LengthUnderflow)
    else if !StrictlyIncreasing(lambdas) then Err(AssertionFailed)
    else if !normalize then Ok(Spectrum(lambdas, values))
    else
      match InnerProduct(Spectrum(lambdas, values), cieY)
      case Err(e) => Err(e)
      case Ok(ip) =>
        if ip == 0.0 then Err(DivisionByZero)
        else Ok(Spectrum(lambdas, Scaled(values, CieYIntegral / ip)))
  }

  method BuildSpectrum(lambdas: seq<real>, values: seq<real>, normalize: bool, cieY: Spectrum)
    returns (r: Result<Spectrum, SpectrumError>)
    requires |lambdas| == |values| && WellShaped(cieY)
    ensures r == BuildSpec(lambdas, values, normalize, cieY)
    ensures r.Ok? ==> r.value.lambdas == lambdas && StrictlyIncreasing(lambdas)
  {
    var sorted :- StrictlySorted(lambdas);
    if !sorted {
      return Err(AssertionFailed);
    }
    var spectrum := Spectrum(lambdas, values);
    if !normalize {
      return Ok(spectrum);
    }
    var ip :- ConstInnerProduct(spectrum, cieY);
    if ip == 0.0 {
      return Err(DivisionByZero);
    }
    var scaled := ConstScale(spectrum, CieYIntegral / ip);
    r := Ok(scaled);
  }

  /** A normalised spectrum has the inner product `CIE_Y_INTEGRAL` with the
      curve it was normalised against. */
  lemma NormalizedIntegral(lambdas: seq<real>, values: seq<real>, cieY: Spectrum)
    requires |lambdas| == |values| && WellShaped(cieY)
    requires BuildSpec(lambdas, values, true, cieY).Ok?
    ensures InnerProduct(BuildSpec(lambdas, values, true, cieY).value, cieY) == Ok(CieYIntegral)
  {
    var sp := Spectrum(lambdas, values);
    var ip := InnerProduct(sp, cieY).value;
    assert ip != 0.0;
    assert BuildSpec(lambdas, values, true, cieY).value == Spectrum(lambdas, Scaled(values, CieYIntegral / ip));
    var factor := CieYIntegral / ip;
    var scaled := Spectrum(lambdas, Scaled(values, factor));
    InnerProductScaled(sp, cieY, factor, LambdaMinNat);
    ScalesToTarget(InnerProduct(sp, cieY), InnerProduct(scaled, cieY), CieYIntegral);
  }

  /** Scaling a non-zero result `x` by `target / x` gives `target`. */
  lemma ScalesToTarget(x: Result<real, SpectrumError>, y: Result<real, SpectrumError>, target: real)
    requires x.Ok? && x.value != 0.0 && Scales(x, y, target / x.value)
    ensures y == Ok(target)
  {
    QuotientTimes(target, x.value, target / x.value);
  }

  lemma QuotientTimes(x: real, d: real, q: real)
    requires d != 0.0 && q == x / d
    ensures q * d == x
  {
  }

  /** `y` is `x` multiplied by `s`, failures included. */
  predicate Scales(x: Result<real, SpectrumError>, y: Result<real, SpectrumError>, s: real)
  {
    y.Ok? == x.Ok? && (y.Ok? ==> y.value == s * x.value)
  }

  lemma TimesScaled(x: Result<real, SpectrumError>, x': Result<real, SpectrumError>, y: Result<real, SpectrumError>, s: real)
    requires Scales(x, x', s)
    ensures Scales(Times(x, y), Times(x', y), s)
  {
    if x.Ok? && y.Ok? {
      assert (s * x.value) * y.value == s * (x.value * y.value);
    }
  }

  lemma PlusScaled(x: Result<real, SpectrumError>, x': Result<real, SpectrumError>, y: Result<real, SpectrumError>, y': Result<real, SpectrumError>, s: real)
    requires Scales(x, x', s) && Scales(y, y', s)
    ensures Scales(Plus(x, y), Plus(x', y'), s)
  {
    if x.Ok? && y.Ok? {
      assert s * x.value + s * y.value == s * (x.value + y.value);
    }
  }

  /** Scaling one spectrum scales the product at every wavelength. */
  lemma PointwiseScaled(sp: Spectrum, g: Spectrum, s: real, lam: real)
    requires WellShaped(sp) && WellShaped(g)
    ensures Scales(Pointwise(sp, g, lam), Pointwise(Spectrum(sp.lambdas, Scaled(sp.values, s)), g, lam), s)
  {
    var scaled := Spectrum(sp.lambdas, Scaled(sp.values, s));
    EvalScaled(sp, s, lam);
    TimesScaled(Eval(sp, lam), Eval(scaled, lam), Eval(g, lam), s);
  }

  /** Scaling one spectrum scales the inner product. */
  lemma {:induction false} InnerProductScaled(sp: Spectrum, g: Spectrum, s: real, lam: nat)
    requires WellShaped(sp) && WellShaped(g)
    ensures Scales(SumFrom(sp, g, lam), SumFrom(Spectrum(sp.lambdas, Scaled(sp.values, s)), g, lam), s)
    decreases LambdaMaxNat + 1 - lam
  {
    if lam <= LambdaMaxNat {
      var scaled := Spectrum(sp.lambdas, Scaled(sp.values, s));
      PointwiseScaled(sp, g, s, lam as real);
      InnerProductScaled(sp, g, s, lam + 1);
      PlusScaled(Pointwise(sp, g, lam as real), Pointwise(scaled, g, lam as real),
                 SumFrom(sp, g, lam + 1), SumFrom(scaled, g, lam + 1), s);
    } else {
      assert s * 0.0 == 0.0;
    }
  }

  // ---------------------------------------------------------------------
  // Interleaved tables

  /** The wavelengths and the values of an interleaved table
      `[lambda0, value0, lambda1, value1, ...]`. */
  function Evens(samples: seq<real>): (r: seq<real>)
    ensures |r| == |samples| / 2
  {
    seq(|samples| / 2, i requires 0 <= i < |samples| / 2 => samples[2 * i])
  }

  function Odds(samples: seq<real>): (r: seq<real>)
    ensures |r| == |samples| / 2
  {
    seq(|samples| / 2, i requires 0 <= i < |samples| / 2 => samples[2 * i + 1])
  }

  /** The table interleaved again. */
  function Interleave(lambdas: seq<real>, values: seq<real>): (r: seq<real>)
    requires |lambdas| == |values|
    ensures |r| == 2 * |lambdas|
  {
    seq(2 * |lambdas|, i requires 0 <= i < 2 * |lambdas| => if i % 2 == 0 then lambdas[i / 2] else values[i / 2])
  }

  /** Splitting an interleaved table and interleaving it again gives it back,
      and the other way round. */
  lemma InterleaveRoundTrip(samples: seq<real>, lambdas: seq<real>, values: seq<real>)
    requires |samples| % 2 == 0 && |lambdas| == |values|
    ensures Interleave(Evens(samples), Odds(samples)) == samples
    ensures Evens(Interleave(lambdas, values)) == lambdas && Odds(Interleave(lambdas, values)) == values
  {
    var r := Interleave(Evens(samples), Odds(samples));
    forall i | 0 <= i < |samples|
      ensures r[i] == samples[i]
    {
      if i % 2 == 0 {
        assert samples[2 * (i / 2)] == samples[i];
      } else {
        assert samples[2 * (i / 2) + 1] == samples[i];
      }
    }
    var s := Interleave(lambdas, values);
    assert forall i :: 0 <= i < |lambdas| ==> (2 * i) % 2 == 0 && (2 * i) / 2 == i;
    assert forall i :: 0 <= i < |lambdas| ==> (2 * i + 1) % 2 == 1 && (2 * i + 1) / 2 == i;
  }

  /** `from_interleaved_full_visible_wavelengths`: the table must reach
      past both ends of the visible range; the wavelengths are the even
      entries and the values the odd ones. */
  method FromInterleavedFull(samples: seq<real>, normalize: bool, cieY: Spectrum) returns (r: Result<Spectrum, SpectrumError>)
    requires |samples| % 2 == 0 && WellShaped(cieY)
    ensures |samples| == 0 ==> r.Err?
    ensures |samples| > 0 && !(samples[0] <= LambdaMin && samples[|samples| - 2] >= LambdaMax) ==> r == Err(AssertionFailed)
    ensures |samples| > 0 && samples[0] <= LambdaMin && samples[|samples| - 2] >= LambdaMax ==>
              r == BuildSpec(Evens(samples), Odds(samples), normalize, cieY)
  {
    var n := |samples| / 2;
    if n == 0 {
      return Err(IndexOutOfRange(0, 0));
    }
    var lambdaMin := samples[0];
    var lambdaMax := samples[2 * n - 2];
    if !(lambdaMin <= LambdaMin && lambdaMax >= LambdaMax) {
      return Err(AssertionFailed);
    }
    var lambdas := new real[n];
    var values := new real[n];
    var idx := 0;
    while idx < n
      invariant idx <= n
      invariant forall i :: 0 <= i < idx ==> lambdas[i] == samples[2 * i] && values[i] == samples[2 * i + 1]
    {
      lambdas[idx] := samples[2 * idx];
      values[idx] := samples[2 * idx + 1];
      idx := idx + 1;
    }
    assert lambdas[..] == Evens(samples) && values[..] == Odds(samples);
    r := BuildSpectrum(lambdas[..], values[..], normalize, cieY);
  }

  /** The table of a spectrum whose samples start above the visible range's
      lower end: a point just below the range carrying the first value, the
      samples, and a point just above the range carrying the last value. */
  function Padded(samples: seq<real>): (r: (seq<real>, seq<real>))
    requires |samples| % 2 == 0 && |samples| >= 2
    ensures |r.0| == |r.1| == |samples| / 2 + 2
  {
    var n := |samples| / 2 + 2;
    (seq(n, i requires 0 <= i < n =>
           if i == 0 then LambdaMin - 1.0 else if i == n - 1 then LambdaMax + 1.0 else samples[2 * (i - 1)]),
     seq(n, i requires 0 <= i < n =>
           if i == 0 then samples[1] else if i == n - 1 then samples[|samples| - 1] else samples[2 * (i - 1) + 1]))
  }

  /** The padded table is the interleaved one with a point added at each
      end. */
  lemma PaddedSplit(samples: seq<real>)
    requires |samples| % 2 == 0 && |samples| >= 2
    ensures Padded(samples).0 == [LambdaMin - 1.0] + Evens(samples) + [LambdaMax + 1.0]
    ensures Padded(samples).1 == [samples[1]] + Odds(samples) + [samples[|samples| - 1]]
  {
  }

  /** `from_interleaved_missing_short_and_long_wavelengths` as written: it
      reads `samples[N * 2 - 2]` of a table of `N * 2 - 4` entries, which is
      always past the end, so it never returns. */
  method FromInterleavedMissingAsWritten(samples: seq<real>, n: nat, normalize: bool, cieY: Spectrum)
    returns (r: Result<Spectrum, SpectrumError>)
    requires |samples| + 4 == 2 * n && WellShaped(cieY)
    ensures r.Err? && r.error.IndexOutOfRange?
  {
    if |samples| == 0 {
      return Err(IndexOutOfRange(0, 0));
    }
    var lambdaMin := samples[0];
    if n * 2 - 2 >= |samples| {
      return Err(IndexOutOfRange(n * 2 - 2, |samples|));
    }
    assert false;
  }

  /** The same constructor reading the last wavelength at `len() - 2`, as
      intended: the samples must start above `LAMBDA_MIN`, and the table is
      padded at both ends. */
  method FromInterleavedMissing(samples: seq<real>, n: nat, normalize: bool, cieY: Spectrum)
    returns (r: Result<Spectrum, SpectrumError>)
    requires |samples| + 4 == 2 * n && WellShaped(cieY)
    ensures |samples| == 0 ==> r.Err?
    ensures |samples| > 0 && !(samples[0] > LambdaMin) ==> r == Err(AssertionFailed)
    ensures |samples| > 0 && samples[0] > LambdaMin ==>
              r == BuildSpec(Padded(samples).0, Padded(samples).1, normalize, cieY)
  {
    if |samples| == 0 {
      return Err(IndexOutOfRange(0, 0));
    }
    var lambdaMin := samples[0];
    var lambdaMax := samples[|samples| - 2];
    if !(lambdaMin > LambdaMin) {
      return Err(AssertionFailed);
    }
    var lambdas := new real[n];
    var values := new real[n];
    lambdas[0] := LambdaMin - 1.0;
    values[0] := samples[1];
    lambdas[n - 1] := LambdaMax + 1.0;
    values[n - 1] := samples[|samples| - 1];
    var idx := 0;
    while idx < |samples| / 2
      invariant idx <= |samples| / 2
      invariant lambdas[0] == LambdaMin - 1.0 && values[0] == samples[1]
      invariant lambdas[n - 1] == LambdaMax + 1.0 && values[n - 1] == samples[|samples| - 1]
      invariant forall i :: 0 <= i < idx ==> lambdas[i + 1] == samples[2 * i] && values[i + 1] == samples[2 * i + 1]
    {
      lambdas[idx + 1] := samples[2 * idx];
      values[idx + 1] := samples[2 * idx + 1];
      idx := idx + 1;
    }
    assert forall i :: 0 <= i < n ==> lambdas[i] == Padded(samples).0[i] && values[i] == Padded(samples).1[i];
    assert lambdas[..] == Padded(samples).0;
    assert values[..] == Padded(samples).1;
    r := BuildSpectrum(lambdas[..], values[..], normalize, cieY);
  }
}
