/**
 * The inline helpers of openSAM.h: angle normalisation `RA`, `clampf`,
 * `BETWEEN` and `Scenery::in_bbox`.  Floats are modelled as reals; the C
 * remainder `fmodf` and the C float-to-int cast truncate toward zero, which
 * is written out here because Dafny's own `/` and `%` do not.
 */
module OpenSamH {

  /** C's conversion of a real to int: truncation toward zero. */
  function Trunc(x: real): (r: int)
    ensures 0.0 <= x ==> r as real <= x < r as real + 1.0
    ensures x < 0.0 ==> r as real - 1.0 < x <= r as real
  {
    if x >= 0.0 then x.Floor else -((-x).Floor)
  }

  lemma DivMul(a: real, m: real)
    requires m > 0.0
    ensures (a / m) * m == a
    ensures 0.0 <= a <==> 0.0 <= a / m
  {
  }

  lemma MulMono(x: real, y: real, m: real)
    requires x <= y && m > 0.0
    ensures x * m <= y * m
  {
  }

  lemma MulMonoStrict(x: real, y: real, m: real)
    requires x < y && m > 0.0
    ensures x * m < y * m
  {
  }

  /** Removing trunc(a / m) whole multiples of m from a leaves less than one m, with the sign of a. */
  lemma TruncBounds(a: real, m: real)
    requires m > 0.0
    ensures 0.0 <= a ==> Trunc(a / m) as real * m <= a < Trunc(a / m) as real * m + m
    ensures a < 0.0 ==> Trunc(a / m) as real * m - m < a <= Trunc(a / m) as real * m
  {
    DivMul(a, m);
    if a >= 0.0 {
      Below(a, a / m, Trunc(a / m) as real, m);
    } else {
      Above(a, a / m, Trunc(a / m) as real, m);
    }
  }

  lemma AddOne(k: real, k1: real, m: real)
    requires k1 == k + 1.0
    ensures k1 * m == k * m + m
  {
  }

  lemma NegMul(x: real, m: real)
    ensures (-x) * m == -(x * m)
  {
  }

  lemma BelowLo(a: real, q: real, k: real, m: real)
    requires m > 0.0 && q * m == a && k <= q
    ensures k * m <= a
  {
    MulMono(k, q, m);
  }

  lemma BelowHi(a: real, q: real, k: real, m: real)
    requires m > 0.0 && q * m == a && q < k + 1.0
    ensures a < k * m + m
  {
    var k1 := k + 1.0;
    MulMonoStrict(q, k1, m);
    AddOne(k, k1, m);
  }

  /** a = q·m with k <= q < k + 1 lies in [k·m, k·m + m). */
  lemma Below(a: real, q: real, k: real, m: real)
    requires m > 0.0 && q * m == a && k <= q < k + 1.0
    ensures k * m <= a < k * m + m
  {
    BelowLo(a, q, k, m);
    BelowHi(a, q, k, m);
  }

  /** a = q·m with k - 1 < q <= k lies in (k·m - m, k·m]: the mirror image of Below. */
  lemma Above(a: real, q: real, k: real, m: real)
    requires m > 0.0 && q * m == a && k - 1.0 < q <= k
    ensures k * m - m < a <= k * m
  {
    NegMul(q, m);
    NegMul(k, m);
    Below(-a, -q, -k, m);
  }

  /** C `fmodf(a, m)` for m > 0: what is left of a after removing whole multiples of m, with the sign of a. */
  function FMod(a: real, m: real): (r: real)
    requires m > 0.0
    ensures 0.0 <= a ==> 0.0 <= r < m
    ensures a < 0.0 ==> -m < r <= 0.0
    ensures a - r == Trunc(a / m) as real * m
  {
    TruncBounds(a, m);
    a - Trunc(a / m) as real * m
  }

  /** `RA`: an angle in degrees folded into (-180, 180]. */
  function RA(angle: real): (r: real)
    ensures -180.0 < r <= 180.0
  {
    var a := FMod(angle, 360.0);
    if a > 180.0 then a - 360.0
    else if a <= -180.0 then a + 360.0
    else a
  }

  /** The number of whole turns `RA` removes from an angle. */
  function Turns(angle: real): int
  {
    var a := FMod(angle, 360.0);
    Trunc(angle / 360.0) + (if a > 180.0 then 1 else if a <= -180.0 then -1 else 0)
  }

  /** `RA` changes its argument by a whole number of turns. */
  lemma RAWholeTurns(angle: real)
    ensures angle - RA(angle) == Turns(angle) as real * 360.0
  {
    var a := FMod(angle, 360.0);
    var k := Trunc(angle / 360.0);
    if a > 180.0 {
      assert angle - RA(angle) == (k + 1) as real * 360.0;
    } else if a <= -180.0 {
      assert angle - RA(angle) == (k - 1) as real * 360.0;
    } else {
      assert angle - RA(angle) == k as real * 360.0;
    }
  }

  /** An angle already in (-180, 180] is left alone. */
  lemma RAFixed(angle: real)
    requires -180.0 < angle <= 180.0
    ensures RA(angle) == angle
  {
    var q := angle / 360.0;
    assert -1.0 < q < 1.0;
    assert Trunc(q) == 0;
  }

  /** `RA` is idempotent. */
  lemma RAIdempotent(angle: real)
    ensures RA(RA(angle)) == RA(angle)
  {
    RAFixed(RA(angle));
  }

  /** `BETWEEN(x, a, b)`: inclusive at both ends. */
  predicate Between(x: real, a: real, b: real)
  {
    a <= x && x <= b
  }

  /** `clampf(x, lo, hi)`. */
  function Clamp(x: real, lo: real, hi: real): (r: real)
    ensures x < lo ==> r == lo
    ensures lo <= x && x > hi ==> r == hi
    ensures lo <= x <= hi ==> r == x
    ensures lo <= hi ==> lo <= r <= hi
  {
    if x < lo then lo else if x > hi then hi else x
  }

  /** A scenery's bounding box (degrees). */
  datatype BBox = BBox(latMin: real, latMax: real, lonMin: real, lonMax: real)

  /** `Scenery::in_bbox`: longitudes are compared modulo 360 through `RA`. */
  predicate InBbox(b: BBox, lat: real, lon: real)
  {
    b.latMin <= lat <= b.latMax && RA(lon - b.lonMin) >= 0.0 && RA(lon - b.lonMax) <= 0.0
  }

  /** A box narrower than 180 degrees that does not cross the antimeridian contains its interior points. */
  lemma InBboxPlain(b: BBox, lat: real, lon: real)
    requires b.latMin <= lat <= b.latMax
    requires b.lonMin <= lon <= b.lonMax < b.lonMin + 180.0
    ensures InBbox(b, lat, lon)
  {
    RAFixed(lon - b.lonMin);
    RAFixed(lon - b.lonMax);
  }

  /** A box straddling the antimeridian (lonMin near +180, lonMax near -180) contains longitudes on both sides. */
  lemma InBboxAcrossAntimeridian(b: BBox, lat: real, lon: real)
    requires b.latMin <= lat <= b.latMax
    requires 0.0 <= b.lonMin <= 180.0 && -180.0 < b.lonMax <= 0.0
    requires b.lonMin <= lon <= 180.0 || -180.0 < lon <= b.lonMax
    requires b.lonMax + 360.0 - b.lonMin < 180.0
    ensures InBbox(b, lat, lon)
  {
    if b.lonMin <= lon {
      RAFixed(lon - b.lonMin);
      assert -360.0 < lon - b.lonMax <= 360.0;
      var d := lon - b.lonMax;
      if d > 180.0 {
        var q := d / 360.0;
        assert 0.0 < q < 1.0;
        assert Trunc(q) == 0;
      } else {
        RAFixed(d);
      }
    } else {
      RAFixed(lon - b.lonMax);
      var d := lon - b.lonMin;
      if d <= -180.0 {
        var q := d / 360.0;
        assert -1.0 < q < 0.0;
        assert Trunc(q) == 0;
      } else {
        RAFixed(d);
      }
    }
  }

  /** `fabsf`. */
  function Abs(x: real): (r: real)
    ensures r >= 0.0 && (r == x || r == -x)
  {
    if x >= 0.0 then x else -x
  }

  /** `std::max` on floats. */
  function Max(a: real, b: real): (r: real)
    ensures r >= a && r >= b && (r == a || r == b)
  {
    if a < b then b else a
  }

  /** `std::min` on floats. */
  function Min(a: real, b: real): (r: real)
    ensures r <= a && r <= b && (r == a || r == b)
  {
    if b < a then b else a
  }
}
