/**
 * Value types shared by the plotting model: optional values, the result of a
 * formatting call, IEEE-754 special values without rounding, points, and the
 * UTF-8 byte length of a string.
 */
module Points {

  datatype Option<T> = None | Some(value: T)

  /** `fmt::Result<T>`: a value, or the unit error `fmt::Error`. */
  datatype Fmt<T> = Ok(value: T) | Error

  /**
   * A coordinate as the source's `f32` holds it: a finite number (kept exact,
   * as a real), not-a-number, or an infinity of either sign.
   */
  datatype Float = Num(v: real) | NaN | Inf(negative: bool)

  /** A point as supplied by the caller, possibly with non-finite coordinates. */
  datatype RawPoint = RawPoint(x: Float, y: Float) {
    /** The filter of lib.rs: neither coordinate is NaN nor infinite. */
    predicate IsFinite() {
      !(x.NaN? || y.NaN? || x.Inf? || y.Inf?)
    }

    function Value(): (p: Point)
      requires IsFinite()
      ensures Num(p.x) == x && Num(p.y) == y
    {
      Point(x.v, y.v)
    }
  }

  /** A finite point, in data space or in canvas space. */
  datatype Point = Point(x: real, y: real)

  /** Number of bytes the UTF-8 encoding of `c` takes. */
  function CharBytes(c: char): (n: nat)
    ensures 1 <= n <= 4
  {
    if c as int < 0x80 then 1
    else if c as int < 0x800 then 2
    else if c as int < 0x1_0000 then 3
    else 4
  }

  /** `str::len`: the UTF-8 byte length of a string. */
  function Utf8Len(s: string): (n: nat)
    ensures |s| <= n <= 4 * |s|
    ensures n == 0 <==> s == []
  {
    if s == [] then 0 else CharBytes(s[0]) + Utf8Len(s[1..])
  }

  /** The byte length of a concatenation is the sum of the byte lengths. */
  lemma {:induction false} Utf8LenConcat(a: string, b: string)
    ensures Utf8Len(a + b) == Utf8Len(a) + Utf8Len(b)
  {
    if a == [] {
      assert a + b == b;
    } else {
      assert (a + b)[0] == a[0];
      assert (a + b)[1..] == a[1..] + b;
      Utf8LenConcat(a[1..], b);
    }
  }
}
