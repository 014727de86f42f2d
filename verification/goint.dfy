/** Go's fixed-width integers and the integer operations of the standard
    library the model relies on. Dafny's `int` is unbounded, so every place
    where the program stores into an `int32` or does arithmetic on `int`
    (64 bits on the supported platforms) goes through the wrap functions. */
module GoInt {

  const TwoTo32: int := 0x1_0000_0000
  const MinInt32: int := -0x8000_0000
  const MaxInt32: int := 0x7fff_ffff

  const TwoTo64: int := 0x1_0000_0000_0000_0000
  const MinInt64: int := -0x8000_0000_0000_0000
  const MaxInt64: int := 0x7fff_ffff_ffff_ffff

  /** One second as a `time.Duration` (nanoseconds). */
  const Second: int := 1_000_000_000

  predicate IsInt32(x: int) { MinInt32 <= x <= MaxInt32 }

  predicate IsInt64(x: int) { MinInt64 <= x <= MaxInt64 }

  /** Two's-complement conversion to `int32`: `int32(x)` in Go, and the
      result of any `int32` arithmetic whose exact value is `x`. */
  function Wrap32(x: int): (r: int)
    ensures IsInt32(r)
    ensures (x - r) % TwoTo32 == 0
    ensures IsInt32(x) ==> r == x
  {
    (x - MinInt32) % TwoTo32 + MinInt32
  }

  /** Two's-complement reduction to the 64-bit `int`. */
  function Wrap64(x: int): (r: int)
    ensures IsInt64(r)
    ensures (x - r) % TwoTo64 == 0
    ensures IsInt64(x) ==> r == x
  {
    (x - MinInt64) % TwoTo64 + MinInt64
  }

  /** Incrementing the largest `int32` yields the smallest one. */
  lemma Int32IncrementWraps()
    ensures Wrap32(MaxInt32 + 1) == MinInt32
  {
  }

  /** Go's `/` on integers: truncated toward zero (Dafny's `/` is Euclidean). */
  function GoQuot(a: int, b: int): int
    requires b > 0
  {
    if a >= 0 then a / b else -((-a) / b)
  }

  /** Go's `%` on integers: the remainder takes the sign of the dividend,
      and together with `GoQuot` it satisfies Go's division identity. */
  function GoRem(a: int, b: int): (r: int)
    requires b > 0
    ensures a >= 0 ==> 0 <= r < b
    ensures a < 0 ==> -b < r <= 0
    ensures a == GoQuot(a, b) * b + r
  {
    if a >= 0 then a % b else -((-a) % b)
  }

  /** `time.Duration.Truncate`: rounds `d` toward zero to a multiple of `m`;
      a non-positive `m` leaves `d` unchanged. */
  function Truncate(d: int, m: int): (r: int)
    ensures m <= 0 ==> r == d
    ensures m > 0 ==> r == GoQuot(d, m) * m
    ensures m > 0 && d >= 0 ==> 0 <= r <= d && d - r < m
    ensures m > 0 && d < 0 ==> d <= r <= 0 && r - d < m
  {
    if m <= 0 then d
    else
      QuotTimesDivisorSign(d, m);
      d - GoRem(d, m)
  }

  /** Truncated division keeps the sign of the dividend. */
  lemma QuotTimesDivisorSign(a: int, b: int)
    requires b > 0
    ensures a >= 0 ==> GoQuot(a, b) * b >= 0
    ensures a < 0 ==> GoQuot(a, b) * b <= 0
  {
    var q := GoQuot(a, b);
    if a >= 0 {
      assert q >= 0;
    } else {
      assert q <= 0;
    }
  }
}
