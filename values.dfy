/**
 * Raw metric values, the score sentinel, and the numeric helpers shared by
 * every scoring stage: Python's `round(x, 1)`, `min`, `max` and clamping.
 */
module Values {

  datatype Option<+T> = None | Some(value: T)

  /**
   * A raw value as it appears in a result document: a JSON number, a JSON
   * string (such as "Unknown" or "Pass"), JSON null, or a key that is missing.
   */
  datatype Val = Num(x: real) | Str(s: string) | Null | Absent

  /** A score field: a number, or the explicit "Unknown" sentinel. */
  datatype Score = Known(value: real) | Unknown

  /**
   * `round(x, 1)`: the nearest multiple of 0.1. Ties are rounded upwards
   * (Python rounds them to even); only the strict lower bound of
   * `Round1Near` depends on how ties go.
   */
  function Round1(x: real): real
  {
    ((x * 10.0 + 0.5).Floor as real) / 10.0
  }

  lemma Round1Monotone(x: real, y: real)
    requires x <= y
    ensures Round1(x) <= Round1(y)
  {
    var fx, fy := (x * 10.0 + 0.5).Floor, (y * 10.0 + 0.5).Floor;
    assert fx as real <= x * 10.0 + 0.5 <= y * 10.0 + 0.5 < fy as real + 1.0;
    assert fx <= fy;
  }

  /** Rounding leaves a multiple of 0.1 as it is. */
  lemma Round1Tenths(k: int)
    ensures Round1(k as real / 10.0) == k as real / 10.0
  {
    var x := k as real / 10.0;
    assert x * 10.0 + 0.5 == k as real + 0.5;
    assert (x * 10.0 + 0.5).Floor == k;
  }

  /** Rounding leaves a whole number (0, 40, 100, ...) as it is. */
  lemma Round1Int(n: int)
    ensures Round1(n as real) == n as real
  {
    Round1Tenths(10 * n);
    assert (10 * n) as real / 10.0 == n as real;
  }

  /** The rounded value is within 0.05 of the exact one. */
  lemma Round1Near(x: real)
    ensures x - 0.05 < Round1(x) <= x + 0.05
  {
    var f := (x * 10.0 + 0.5).Floor;
    assert x * 10.0 - 0.5 < f as real <= x * 10.0 + 0.5;
  }

  /** Rounding a value between two whole numbers stays between them. */
  lemma Round1Between(x: real, lo: int, hi: int)
    requires lo as real <= x <= hi as real
    ensures lo as real <= Round1(x) <= hi as real
  {
    Round1Monotone(lo as real, x);
    Round1Monotone(x, hi as real);
    Round1Int(lo);
    Round1Int(hi);
  }

  lemma FloorIs(x: real, n: int)
    requires n as real <= x < n as real + 1.0
    ensures x.Floor == n
  {
  }

  function Min(a: real, b: real): (m: real)
    ensures m <= a && m <= b && (m == a || m == b)
  {
    if a <= b then a else b
  }

  function Max(a: real, b: real): (m: real)
    ensures m >= a && m >= b && (m == a || m == b)
  {
    if a >= b then a else b
  }

  /** `max(lo, min(hi, x))`. */
  function Clamp(lo: real, hi: real, x: real): (r: real)
    requires lo <= hi
    ensures lo <= r <= hi
    ensures lo <= x <= hi ==> r == x
  {
    Max(lo, Min(hi, x))
  }

  /** The smallest element of a non-empty list of numbers (Python's `min`). */
  function SeqMin(s: seq<real>): (m: real)
    requires |s| > 0
    ensures m in s
    ensures forall i :: 0 <= i < |s| ==> m <= s[i]
  {
    if |s| == 1 then s[0] else Min(s[0], SeqMin(s[1..]))
  }

  /** The largest element of a non-empty list of numbers (Python's `max`). */
  function SeqMax(s: seq<real>): (m: real)
    requires |s| > 0
    ensures m in s
    ensures forall i :: 0 <= i < |s| ==> s[i] <= m
  {
    if |s| == 1 then s[0] else Max(s[0], SeqMax(s[1..]))
  }

  function Sum(s: seq<real>): real
  {
    if |s| == 0 then 0.0 else s[0] + Sum(s[1..])
  }

  /** The numeric score fields of `fields`, in order. */
  function KnownValues(fields: seq<Score>): (r: seq<real>)
    ensures |r| <= |fields|
  {
    if |fields| == 0 then []
    else (if fields[0].Known? then [fields[0].value] else []) + KnownValues(fields[1..])
  }
}
