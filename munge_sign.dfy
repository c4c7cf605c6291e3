/**
 * The signed-statistic steps of the newer converter
 * (src/ldsc/munge_sumstats/munge_sumstats.py): `p_to_z` with the rename of P
 * to Z, `check_median`, and the orientation of Z by the signed statistic.
 * `sqrt(chi2.isf(p, 1))` is the caller-supplied `zOf`.
 */
module MungeSign {
  import opened Wrappers
  import opened Schema

  /**
   * `check_median` on the median `m` of a column (`None` when it is NaN): it
   * raises exactly when the median lies farther than `tolerance` from
   * `expected`, so a median at the null value always passes.
   */
  function CheckMedian(m: Option<real>, expected: real, tolerance: real): (r: Result<(), Failure>)
    ensures r.Err? <==> m.Some? && (m.value > expected + tolerance || m.value < expected - tolerance)
    ensures r.Err? ==> r.error == MedianOffNull
  {
    if m.Some? && Abs(m.value - expected) > tolerance then Err(MedianOffNull) else Ok(())
  }

  function Abs(x: real): (y: real)
    ensures y >= 0.0 && (y == x || y == -x)
  {
    if x < 0.0 then -x else x
  }

  /** A NaN median compares false and never raises. */
  lemma MedianNaNPasses(expected: real, tolerance: real)
    ensures CheckMedian(None, expected, tolerance).Ok?
  {
  }

  /** `dat.P = p_to_z(dat.P, dat.N)` and the rename of P to Z, on one row. */
  function PToZRow(r: Row, zOf: real -> real): (s: Row)
    ensures P !in s && Z in s
    ensures NumAt(s, Z) == if NumAt(r, P).Some? then Some(zOf(NumAt(r, P).value)) else None
    ensures forall f :: f != P && f != Z ==> Get(s, f) == Get(r, f) && (f in s <==> f in r)
  {
    var z: Cell := if NumAt(r, P).Some? then Some(Num(zOf(NumAt(r, P).value))) else None;
    (r - {P})[Z := z]
  }

  /** `p_to_z` and the rename on every row. */
  function PToZ(rows: seq<Row>, zOf: real -> real): (out: seq<Row>)
    ensures |out| == |rows| && forall i :: 0 <= i < |rows| ==> out[i] == PToZRow(rows[i], zOf)
  {
    seq(|rows|, i requires 0 <= i < |rows| => PToZRow(rows[i], zOf))
  }

  /** `z * (-1) ** (stat < nullValue)`: the sign flips exactly when the statistic is below its null. */
  function Oriented(z: Option<real>, stat: Option<real>, nullValue: real): (o: Option<real>)
    ensures o.None? <==> z.None?
    ensures o.Some? && stat.Some? && stat.value < nullValue ==> o.value == -z.value
    ensures o.Some? && !(stat.Some? && stat.value < nullValue) ==> o.value == z.value
  {
    if z.Some? && stat.Some? && stat.value < nullValue then Some(-z.value) else z
  }

  /**
   * The direction of the oriented Z is the direction of the signed statistic
   * relative to its null, and its magnitude is the unsigned Z.
   */
  lemma OrientedSign(z: real, stat: real, nullValue: real)
    requires z > 0.0 && stat != nullValue
    ensures Oriented(Some(z), Some(stat), nullValue).value > 0.0 <==> stat > nullValue
    ensures Oriented(Some(z), Some(stat), nullValue).value < 0.0 <==> stat < nullValue
    ensures Abs(Oriented(Some(z), Some(stat), nullValue).value) == z
  {
  }

  /** A missing statistic never flips (NaN < nullValue is false). */
  lemma OrientedMissingStat(z: Option<real>, nullValue: real)
    ensures Oriented(z, None, nullValue) == z
  {
  }

  /** The flip and the drop of SIGNED_SUMSTAT on one row. */
  function FlipRow(r: Row, nullValue: real): (s: Row)
    ensures SignedSumstat !in s
    ensures NumAt(s, Z) == Oriented(NumAt(r, Z), NumAt(r, SignedSumstat), nullValue)
    ensures Z in r ==> Z in s
    ensures forall f :: f != Z && f != SignedSumstat ==> Get(s, f) == Get(r, f) && (f in s <==> f in r)
  {
    var z := Oriented(NumAt(r, Z), NumAt(r, SignedSumstat), nullValue);
    var r2 := if z.Some? then r[Z := Some(Num(z.value))] else r;
    r2 - {SignedSumstat}
  }

  /** The flip and the drop on every row. */
  function FlipSigns(rows: seq<Row>, nullValue: real): (out: seq<Row>)
    ensures |out| == |rows| && forall i :: 0 <= i < |rows| ==> out[i] == FlipRow(rows[i], nullValue)
  {
    seq(|rows|, i requires 0 <= i < |rows| => FlipRow(rows[i], nullValue))
  }

  /**
   * After `p_to_z` (whose values are square roots, so never negative) and the
   * flip, a row with a positive Z and a statistic off its null has Z of the
   * statistic's direction.
   */
  lemma ZDirection(r: Row, zOf: real -> real, nullValue: real)
    requires NumAt(r, P).Some? && zOf(NumAt(r, P).value) > 0.0
    requires NumAt(r, SignedSumstat).Some? && NumAt(r, SignedSumstat).value != nullValue
    ensures var s := FlipRow(PToZRow(r, zOf), nullValue);
      && NumAt(s, Z).Some?
      && (NumAt(s, Z).value > 0.0 <==> NumAt(r, SignedSumstat).value > nullValue)
      && Abs(NumAt(s, Z).value) == zOf(NumAt(r, P).value)
  {
    var t := PToZRow(r, zOf);
    assert NumAt(t, SignedSumstat) == NumAt(r, SignedSumstat);
    OrientedSign(zOf(NumAt(r, P).value), NumAt(r, SignedSumstat).value, nullValue);
  }
}
