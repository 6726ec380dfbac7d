/** Go's `time.Duration` arithmetic as the configuration path uses it: a
    duration is a signed 64-bit count of nanoseconds, multiplication wraps
    around modulo 2^64 and integer division truncates toward zero. */
module GoTime {

  const MinInt64: int := -0x8000_0000_0000_0000
  const MaxInt64: int := 0x7FFF_FFFF_FFFF_FFFF
  const TwoTo64: int := 0x1_0000_0000_0000_0000

  type Int64 = x: int | MinInt64 <= x <= MaxInt64

  /** `time.Duration`: nanoseconds in an int64. */
  type Duration = Int64

  /** `time.Second` and `time.Minute`. */
  const Second: Duration := 1_000_000_000
  const Minute: Duration := 60_000_000_000

  /** The largest whole number of seconds an int64 Duration can hold. */
  const MaxSeconds: int := 9_223_372_036

  /** A whole number of seconds as the framework hands over a
      `TypeDurationSecond` field: the seconds of some Duration, truncated. */
  type Seconds = n: int | -MaxSeconds <= n <= MaxSeconds

  /** Two's-complement wrap-around of an unbounded integer into int64. */
  function Wrap64(x: int): (r: Int64)
    ensures MinInt64 <= x <= MaxInt64 ==> r == x
    ensures (x - r) % TwoTo64 == 0
  {
    (x - MinInt64) % TwoTo64 + MinInt64
  }

  /** Go's `a * b` on int64 operands. */
  function Mul64(a: Int64, b: Int64): (r: Int64)
    ensures MinInt64 <= a * b <= MaxInt64 ==> r == a * b
  {
    Wrap64(a * b)
  }

  /** Go's `a / b` for a positive divisor: the quotient truncated toward zero. */
  function Quo(a: int, b: int): (q: int)
    requires b > 0
    ensures 0 <= a ==> 0 <= q && q * b <= a < q * b + b
    ensures a < 0 ==> q <= 0 && q * b - b < a <= q * b
  {
    if a >= 0 then a / b else -((-a) / b)
  }

  /** `time.Duration(n) * time.Second`: never wraps for a framework-parsed
      number of seconds. */
  function FromSeconds(n: Seconds): (d: Duration)
    ensures d == n * 1_000_000_000
  {
    assert MinInt64 <= n * Second <= MaxInt64;
    Mul64(n, Second)
  }

  /** `n` is `d` in whole seconds, rounded toward zero. */
  ghost predicate IsWholeSeconds(d: int, n: int) {
    && (0 <= d ==> 0 <= n && n * 1_000_000_000 <= d < n * 1_000_000_000 + 1_000_000_000)
    && (d < 0 ==> n <= 0 && n * 1_000_000_000 - 1_000_000_000 < d <= n * 1_000_000_000)
  }

  /** `int64(d / time.Second)`. */
  function WholeSeconds(d: Duration): (n: Seconds)
    ensures IsWholeSeconds(d, n)
  {
    Quo(d, Second)
  }

  /** Writing `n` seconds and reading the duration back in seconds gives `n`. */
  lemma SecondsRoundTrip(n: Seconds)
    ensures WholeSeconds(FromSeconds(n)) == n
  {
  }
}
