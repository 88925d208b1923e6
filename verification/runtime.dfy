/**
 * Go runtime behaviour the rest of the model relies on: calls that either
 * return or panic, `strings.Repeat`, the float-to-int conversion, and the
 * two ways 64-bit integers leave their range (wrap-around for `*`,
 * saturation for `time.Time.Sub`).
 */
module Runtime {

  /** A Go call that either returns a value or panics (index out of range,
      negative repeat count, nil-pointer dereference). */
  datatype Outcome<+T> = Returned(value: T) | Panicked

  datatype Option<+T> = None | Some(value: T)

  /** Bytes the UTF-8 encoding of `c` takes. */
  function Utf8Length(c: char): (n: nat)
    ensures 1 <= n <= 4
    ensures c as int < 0x80 <==> n == 1
  {
    if c as int < 0x80 then 1
    else if c as int < 0x800 then 2
    else if c as int < 0x1_0000 then 3
    else 4
  }

  /** `strings.Repeat` of a one-character string: panics on a negative
      count, and on a result longer than the largest int64 in bytes. */
  function Repeat(c: char, count: int): (r: Outcome<string>)
    ensures r.Panicked? <==> count < 0 || Utf8Length(c) * count > MaxInt64
    ensures 0 <= count <= MaxInt64 / 4 ==> r.Returned?
    ensures r.Returned? ==> |r.value| == count
    ensures r.Returned? ==> forall i :: 0 <= i < |r.value| ==> r.value[i] == c
  {
    if count < 0 || Utf8Length(c) * count > MaxInt64 then Panicked else Returned(seq(count, _ => c))
  }

  /** For a character three bytes long, the length limit is a third of the
      largest int64. */
  lemma RepeatThreeBytes(c: char, count: int)
    requires Utf8Length(c) == 3
    ensures Repeat(c, count).Panicked? <==> count < 0 || count > MaxInt64 / 3
  {
  }

  /** Go's `int(x)` for a float: truncation toward zero. */
  function Trunc(x: real): (n: int)
    ensures 0.0 <= x ==> 0 <= n && n as real <= x < n as real + 1.0
    ensures x < 0.0 ==> n <= 0 && n as real - 1.0 < x <= n as real
  {
    if x >= 0.0 then x.Floor else -((-x).Floor)
  }

  const MinInt64: int := -0x8000_0000_0000_0000
  const MaxInt64: int := 0x7fff_ffff_ffff_ffff
  const TwoTo64: int := 0x1_0000_0000_0000_0000

  predicate InInt64(x: int) {
    MinInt64 <= x <= MaxInt64
  }

  /** Two's-complement wrap-around of an int64 arithmetic result. */
  function WrapInt64(x: int): (r: int)
    ensures InInt64(r)
    ensures (r - x) % TwoTo64 == 0
    ensures InInt64(x) ==> r == x
  {
    var r := (x - MinInt64) % TwoTo64 + MinInt64;
    assert r - x == -((x - MinInt64) / TwoTo64) * TwoTo64;
    r
  }

  /** Clamping of an out-of-range result to the nearest int64. */
  function SaturateInt64(x: int): (r: int)
    ensures InInt64(r)
    ensures InInt64(x) ==> r == x
    ensures x > MaxInt64 ==> r == MaxInt64
    ensures x < MinInt64 ==> r == MinInt64
  {
    if x > MaxInt64 then MaxInt64 else if x < MinInt64 then MinInt64 else x
  }
}
