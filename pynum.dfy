/**
 * Python numeric semantics on mathematical reals: `int(x)` truncates toward
 * zero, `round(x)` rounds half to even, and float `%` by a positive divisor
 * lands in [0, divisor); `str.lower()` is given on ASCII letters.
 */
module PyNum {

  function MinR(a: real, b: real): (r: real)
    ensures r <= a && r <= b && (r == a || r == b)
  { if a <= b then a else b }

  function MaxR(a: real, b: real): (r: real)
    ensures r >= a && r >= b && (r == a || r == b)
  { if a >= b then a else b }

  function AbsR(a: real): (r: real)
    ensures r >= 0.0 && (r == a || r == -a)
  { if a < 0.0 then -a else a }

  function AbsI(a: int): (r: nat)
    ensures r == a || r == -a
  { if a < 0 then -a else a }

  function MinI(a: int, b: int): (r: int)
    ensures r <= a && r <= b && (r == a || r == b)
  { if a <= b then a else b }

  function MaxI(a: int, b: int): (r: int)
    ensures r >= a && r >= b && (r == a || r == b)
  { if a >= b then a else b }

  /** `max(lo, min(hi, v))` as Python writes a clamp. */
  function ClampR(v: real, lo: real, hi: real): (r: real)
    requires lo <= hi
    ensures lo <= r <= hi
    ensures lo <= v <= hi ==> r == v
  { MaxR(lo, MinR(hi, v)) }

  function ClampI(v: int, lo: int, hi: int): (r: int)
    requires lo <= hi
    ensures lo <= r <= hi
    ensures lo <= v <= hi ==> r == v
  { MaxI(lo, MinI(hi, v)) }

  /** Python `int(x)` on a float: truncation toward zero. */
  function Trunc(x: real): (r: int)
    ensures x >= 0.0 ==> r as real <= x < r as real + 1.0
    ensures x < 0.0 ==> r as real - 1.0 < x <= r as real
  {
    if x >= 0.0 then x.Floor else -((-x).Floor)
  }

  /** Python's one-argument `round(x)`: nearest integer, ties to even. */
  function RoundHalfEven(x: real): (r: int)
    ensures x - 0.5 <= r as real <= x + 0.5
    ensures (r as real - x == 0.5 || x - r as real == 0.5) ==> r % 2 == 0
  {
    var f := x.Floor;
    var d := x - f as real;
    if d < 0.5 then f
    else if d > 0.5 then f + 1
    else if f % 2 == 0 then f else f + 1
  }

  /** Python's `round(v, 2)` on the exact value: the nearest multiple of 0.01, ties to an even count of hundredths. */
  function Round2(v: real): (r: real)
    ensures AbsR(r - v) <= 0.005
  {
    RoundHalfEven(v * 100.0) as real / 100.0
  }

  /** Python `a % m` for a positive float divisor: a - r is a whole multiple of m. */
  function FMod(a: real, m: real): (r: real)
    requires m > 0.0
    ensures 0.0 <= r < m
    ensures ((a - r) / m).Floor as real == (a - r) / m
  {
    var k := (a / m).Floor;
    FloorDivBounds(a, m, k);
    a - m * k as real
  }

  lemma FloorDivBounds(a: real, m: real, k: int)
    requires m > 0.0 && k == (a / m).Floor
    ensures m * k as real <= a < m * k as real + m
    ensures (a - (a - m * k as real)) / m == k as real
  {
    var q := a / m;
    assert a == m * q;
    var d := q - k as real;
    assert 0.0 <= d < 1.0;
    assert a - m * k as real == m * d;
    MulBounds(m, d);
  }

  lemma MulBounds(m: real, d: real)
    requires m > 0.0 && 0.0 <= d < 1.0
    ensures 0.0 <= m * d < m
  {}

  /** `str.lower()` on the ASCII letters; other characters are kept. */
  function LowerAscii(s: string): (r: string)
    ensures |r| == |s|
    ensures forall i :: 0 <= i < |s| ==> r[i] == (if 'A' <= s[i] <= 'Z' then (s[i] as int + 32) as char else s[i])
  {
    seq(|s|, i requires 0 <= i < |s| => if 'A' <= s[i] <= 'Z' then (s[i] as int + 32) as char else s[i])
  }
}
