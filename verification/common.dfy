/** Small shared vocabulary for the rover model. */
module Common {

  datatype Option<T> = None | Some(value: T)

  /** A value written to the two wheel motors, in the order the drivers use: (right, left). */
  datatype WheelPair = WheelPair(right: real, left: real)

  /** An unsigned byte as returned by an I2C read. */
  newtype byte = x: int | 0 <= x < 256

  /** `math.pi` as the double the interpreter holds. */
  const Pi: real := 3.141592653589793

  function Abs(x: real): real { if x < 0.0 then -x else x }

  function MinReal(a: real, b: real): real { if a <= b then a else b }

  function MaxReal(a: real, b: real): real { if a >= b then a else b }

  /** Concatenation regroups freely. */
  lemma AppendAssoc<T>(a: seq<T>, b: seq<T>, c: seq<T>)
    ensures a + b + c == a + (b + c)
  {
  }

  // ---- Python `str.strip()` ----

  predicate IsSpace(c: char) {
    c == ' ' || c == '\t' || c == '\n' || c == '\r' || c == '\U{0B}' || c == '\U{0C}'
  }

  function TrimLeft(s: string): (t: string)
    ensures |t| <= |s|
  {
    if |s| > 0 && IsSpace(s[0]) then TrimLeft(s[1..]) else s
  }

  function TrimRight(s: string): (t: string)
    ensures |t| <= |s|
  {
    if |s| > 0 && IsSpace(s[|s| - 1]) then TrimRight(s[..|s| - 1]) else s
  }

  /** `s.strip()`: leading and trailing white space removed. */
  function Strip(s: string): string { TrimRight(TrimLeft(s)) }

  /** Python `int(x)` on a float: truncation toward zero. */
  function Trunc(x: real): int { if x >= 0.0 then x.Floor else -((-x).Floor) }

  /** The quotient and remainder of a division by a positive divisor are unique. */
  lemma DivModUnique(v: int, d: int, q: int, r: int)
    requires d > 0 && 0 <= r < d && v == q * d + r
    ensures v / d == q && v % d == r
  {
    var q0, r0 := v / d, v % d;
    assert (q - q0) * d == r0 - r;
    if q > q0 {
      MulAtLeast(d, q - q0);
    } else if q < q0 {
      MulAtLeast(d, q0 - q);
    }
  }

  lemma MulAtLeast(d: int, k: int)
    requires d > 0 && k >= 1
    ensures k * d >= d
  {
    assert k * d == (k - 1) * d + d;
  }
}
