/** Values shared by every part of the model: optional values, results of
    operations that may panic, integer points, and the integer operations of
    the source language written out where they differ from Dafny's. */
module Common {

  datatype Option<+T> = None | Some(value: T)

  /** The outcome of an operation that either returns a value or panics
      (a failed `assert!`, an out-of-bounds index, a failed `unwrap`). */
  datatype Result<+T> = Ok(value: T) | Panicked

  /** An absolute lattice coordinate in three dimensions. */
  datatype Point3 = Point3(x: int, y: int, z: int)

  /** A coordinate in two dimensions (the horizontal plane, or a screen). */
  datatype Point2 = Point2(x: int, y: int)

  function Min(a: int, b: int): int { if a <= b then a else b }
  function Max(a: int, b: int): int { if a <= b then b else a }

  /** Integer division that truncates toward zero, as `/` does on signed
      integers in the source language. */
  function TruncDiv(a: int, d: int): (q: int)
    requires d > 0
    ensures a >= 0 ==> q * d <= a < q * d + d
    ensures a < 0 ==> q * d - d < a <= q * d
    ensures (a >= 0 ==> q >= 0) && (a <= 0 ==> q <= 0)
  {
    if a >= 0 then a / d else -((-a) / d)
  }

  /** The remainder that goes with `TruncDiv`: it takes the sign of `a`,
      as `%` does on signed integers in the source language. */
  function TruncRem(a: int, d: int): (r: int)
    requires d > 0
    ensures a == TruncDiv(a, d) * d + r
    ensures -d < r < d
    ensures a >= 0 ==> r >= 0
    ensures a < 0 ==> r <= 0
  {
    a - TruncDiv(a, d) * d
  }

  /** Keeps at most the first `n` elements, as `Vec::truncate` does. */
  function Truncate<T>(s: seq<T>, n: nat): (r: seq<T>)
    ensures |r| == Min(|s|, n)
    ensures r == s[..|r|]
  {
    if |s| <= n then s else s[..n]
  }
}
