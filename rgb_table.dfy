/** The RGB-to-spectrum coefficient table
    (`src/spectra/rgb_to_spectrum_table.rs`).

    The table is read from one flat list of coefficients: for each of the
    three choices of largest RGB component, each of the `Resolution` z
    nodes, each y and each x, three polynomial coefficients. `New` checks
    the length of the list and copies it, in that order, into a
    five-dimensional table. Floating-point numbers are modelled as reals. */
module RgbTable {
  import opened Wrappers

  /** `RGB_TO_SPECTRUM_RESOLUTION` (`src/spectra/rgb_to_spectrum_data.rs`). */
  const Resolution: nat := 64

  /** The length the flat coefficient list must have: 3 · R³ · 3. */
  const TableSize: nat := 3 * 64 * 64 * 64 * 3

  /** The two panics of the constructor. */
  datatype TableError = LengthMismatch(length: nat) | WrongIndex(index: nat)

  /** A position in the table: largest component, z, y, x, coefficient. */
  predicate InRange(m: int, z: int, y: int, x: int, c: int)
  {
    0 <= m < 3 && 0 <= z < 64 && 0 <= y < 64 && 0 <= x < 64 && 0 <= c < 3
  }

  /** The position in the flat list of the coefficient stored at
      `[m][z][y][x][c]`: the loops of `new` run `c` fastest and `m` slowest. */
  function Flat(m: nat, z: nat, y: nat, x: nat, c: nat): (i: nat)
    ensures InRange(m, z, y, x, c) ==> i < TableSize
  {
    (((m * 64 + z) * 64 + y) * 64 + x) * 3 + c
  }

  /** Division with remainder by a positive literal, for the cases used. */
  lemma {:induction false} DivModBy(q: nat, r: nat, d: nat)
    requires d == 3 || d == 64
    requires r < d
    ensures (q * d + r) / d == q && (q * d + r) % d == r
  {
    if d == 3 {
      assert q * 3 + r == q * d + r;
    } else {
      assert q * 64 + r == q * d + r;
    }
  }

  /** The table position of entry `i` of the flat list. */
  function Unflatten(i: nat): (p: (nat, nat, nat, nat, nat))
  {
    (i / 3 / 64 / 64 / 64, i / 3 / 64 / 64 % 64, i / 3 / 64 % 64, i / 3 % 64, i % 3)
  }

  /** Every table position has its own entry of the flat list, below
      `TableSize`. */
  lemma {:induction false} FlatUnflatten(m: nat, z: nat, y: nat, x: nat, c: nat)
    requires InRange(m, z, y, x, c)
    ensures Flat(m, z, y, x, c) < TableSize
    ensures Unflatten(Flat(m, z, y, x, c)) == (m, z, y, x, c)
  {
    var a := m * 64 + z;
    var b := a * 64 + y;
    var e := b * 64 + x;
    var i := e * 3 + c;
    assert i == Flat(m, z, y, x, c);
    DivModBy(e, c, 3);
    assert i / 3 == e && i % 3 == c;
    DivModBy(b, x, 64);
    assert e / 64 == b && e % 64 == x;
    DivModBy(a, y, 64);
    assert b / 64 == a && b % 64 == y;
    DivModBy(m, z, 64);
    assert a / 64 == m && a % 64 == z;
  }

  /** Every entry of the flat list is copied to exactly one position. */
  lemma {:induction false} UnflattenFlat(i: nat)
    requires i < TableSize
    ensures var (m, z, y, x, c) := Unflatten(i);
            InRange(m, z, y, x, c) && Flat(m, z, y, x, c) == i
  {
  }

  /** Two positions share an entry of the flat list only when they are the
      same position. */
  lemma {:induction false} FlatInjective(m: nat, z: nat, y: nat, x: nat, c: nat,
                                         m': nat, z': nat, y': nat, x': nat, c': nat)
    requires InRange(m, z, y, x, c) && InRange(m', z', y', x', c')
    requires Flat(m, z, y, x, c) == Flat(m', z', y', x', c')
    ensures m == m' && z == z' && y == y' && x == x' && c == c'
  {
    FlatUnflatten(m, z, y, x, c);
    FlatUnflatten(m', z', y', x', c');
  }

  /** `RGBtoSpectrumTable`: the z nodes and the coefficients, both stored
      as given. */
  class RgbToSpectrumTable {
    const zNodes: seq<real>
    const coefficients: array5<real>

    /** The shape `vec![...; 3]` of `new`: 3 × R × R × R × 3. */
    predicate Shaped()
      reads this
    {
      coefficients.Length0 == 3 && coefficients.Length1 == 64 && coefficients.Length2 == 64 &&
      coefficients.Length3 == 64 && coefficients.Length4 == 3
    }

    /** The coefficient at `[m][z][y][x][c]` came from the flat list `raw`. */
    ghost predicate CopiedFrom(raw: seq<real>)
      reads this, coefficients
    {
      Shaped() && |raw| == TableSize &&
      forall m, z, y, x, c | InRange(m, z, y, x, c) ::
        coefficients[m, z, y, x, c] == raw[Flat(m, z, y, x, c)]
    }

    constructor Init(zNodes: seq<real>, coefficients: array5<real>)
      ensures this.zNodes == zNodes && this.coefficients == coefficients
    {
      this.zNodes := zNodes;
      this.coefficients := coefficients;
    }

    /** `RGBtoSpectrumTable::new`: the flat list must hold 3 · R³ · 3
        coefficients; the table then holds entry `Flat(m, z, y, x, c)` at
        `[m][z][y][x][c]` and keeps `zNodes` unchanged. The final counter
        check never fails. */
    static method New(zNodes: seq<real>, raw: seq<real>) returns (r: Result<RgbToSpectrumTable, TableError>)
      requires |zNodes| == Resolution
      ensures r.Ok? <==> |raw| == TableSize
      ensures r.Err? ==> r.error == LengthMismatch(|raw|)
      ensures r.Ok? ==> fresh(r.value) && fresh(r.value.coefficients) &&
                        r.value.zNodes == zNodes && r.value.CopiedFrom(raw)
    {
      if |raw| != TableSize {
        return Err(LengthMismatch(|raw|));
      }
      var a := new real[3, 64, 64, 64, 3]((m, z, y, x, c) => 0.0);
      var idx := Fill(a, raw);
      if idx != TableSize {
        return Err(WrongIndex(idx));
      }
      var t := new RgbToSpectrumTable.Init(zNodes, a);
      return Ok(t);
    }
  }

  /** The first `n` entries of `raw` sit at their positions in `a`. */
  ghost predicate Filled(a: array5<real>, raw: seq<real>, n: nat)
    reads a
  {
    a.Length0 == 3 && a.Length1 == 64 && a.Length2 == 64 && a.Length3 == 64 && a.Length4 == 3 &&
    |raw| == TableSize &&
    forall m, z, y, x, c {:trigger a[m, z, y, x, c]} | InRange(m, z, y, x, c) && Flat(m, z, y, x, c) < n ::
      a[m, z, y, x, c] == raw[Flat(m, z, y, x, c)]
  }

  /** The five nested loops of `new` with their running counter `idx`,
      which ends at `TableSize`. */
  method Fill(a: array5<real>, raw: seq<real>) returns (idx: nat)
    requires a.Length0 == 3 && a.Length1 == 64 && a.Length2 == 64 && a.Length3 == 64 && a.Length4 == 3
    requires |raw| == TableSize
    modifies a
    ensures idx == TableSize
    ensures forall m, z, y, x, c | InRange(m, z, y, x, c) :: a[m, z, y, x, c] == raw[Flat(m, z, y, x, c)]
  {
    idx := 0;
    for m := 0 to 3
      invariant idx == m * 786432 && Filled(a, raw, idx)
    {
      for z := 0 to 64
        invariant idx == m * 786432 + z * 12288 && Filled(a, raw, idx)
      {
        for y := 0 to 64
          invariant idx == m * 786432 + z * 12288 + y * 192 && Filled(a, raw, idx)
        {
          for x := 0 to 64
            invariant idx == m * 786432 + z * 12288 + y * 192 + x * 3 && Filled(a, raw, idx)
          {
            for c := 0 to 3
              invariant idx == m * 786432 + z * 12288 + y * 192 + x * 3 + c && Filled(a, raw, idx)
            {
              Store(a, raw, idx, m, z, y, x, c);
              idx := idx + 1;
            }
          }
        }
      }
    }
  }

  /** The body of the innermost loop: `coefficients[m][z][y][x][c] =
      raw_data_coefficients[idx]`, which extends the filled prefix by one. */
  method Store(a: array5<real>, raw: seq<real>, idx: nat, m: nat, z: nat, y: nat, x: nat, c: nat)
    requires InRange(m, z, y, x, c) && idx == Flat(m, z, y, x, c) && Filled(a, raw, idx)
    modifies a
    ensures Filled(a, raw, idx + 1)
  {
    a[m, z, y, x, c] := raw[idx];
    forall m', z', y', x', c' | InRange(m', z', y', x', c') && Flat(m', z', y', x', c') < idx + 1
      ensures a[m', z', y', x', c'] == raw[Flat(m', z', y', x', c')]
    {
      if Flat(m', z', y', x', c') == idx {
        FlatInjective(m, z, y, x, c, m', z', y', x', c');
      } else {
        assert old(a[m', z', y', x', c']) == raw[Flat(m', z', y', x', c')];
      }
    }
  }
}
