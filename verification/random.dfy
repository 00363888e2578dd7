/** Bot.RandomInt: an integer drawn from `[min, max]` by shifting `rand.Intn`.
    Go's `int` is 64 bits wide here and its arithmetic wraps, so the width is explicit. */
module Random {

  const MinInt64 := -0x8000_0000_0000_0000
  const MaxInt64 := 0x7fff_ffff_ffff_ffff
  const Modulus64 := 0x1_0000_0000_0000_0000

  predicate IsInt64(x: int) {
    MinInt64 <= x <= MaxInt64
  }

  /** Two's-complement wrap-around of an exact result into 64 bits. */
  function Wrap64(x: int): (r: int)
    ensures IsInt64(r)
    ensures (r - x) % Modulus64 == 0
    ensures IsInt64(x) ==> r == x
  {
    (x - MinInt64) % Modulus64 + MinInt64
  }

  /** `rand.Intn(n)` panics when `n <= 0`; otherwise it yields some value in `[0, n)`. */
  datatype Draw = Panicked | Drew(value: int)

  /** The argument the source passes to `rand.Intn`: `max-min+1`, computed in 64 bits. */
  function IntnArgument(min: int, max: int): int {
    Wrap64(max - min + 1)
  }

  /** RandomInt as written: `rand.Intn(max-min+1) + min`, where `draw` is the value
      `rand.Intn` returns when its argument is positive. */
  function RandomInt(min: int, max: int, draw: int): (r: Draw)
    requires IsInt64(min) && IsInt64(max)
    requires IntnArgument(min, max) > 0 ==> 0 <= draw < IntnArgument(min, max)
    ensures r.Panicked? <==> IntnArgument(min, max) <= 0
    ensures r.Drew? ==> IsInt64(r.value)
    ensures min <= max && max - min + 1 <= MaxInt64 ==> r.Drew? && min <= r.value <= max
  {
    var n := IntnArgument(min, max);
    if n <= 0 then Panicked else Drew(Wrap64(draw + min))
  }

  /** The span `max-min+1` overflows when the range holds more than MaxInt64 values:
      `RandomInt(0, MaxInt64)` passes MinInt64 to `rand.Intn`, which panics, although
      the range is non-empty. */
  lemma RandomIntFullRangePanics(draw: int)
    ensures IntnArgument(0, MaxInt64) == MinInt64
    ensures RandomInt(0, MaxInt64, draw) == Panicked
  {
    RandomIntOverflowPanics(0, MaxInt64, draw);
  }

  /** For every non-empty range the code as written panics exactly when the range holds
      more than MaxInt64 values, that is, when the span `max-min+1` overflows. */
  lemma RandomIntOverflowPanics(min: int, max: int, draw: int)
    requires IsInt64(min) && IsInt64(max) && min <= max
    requires IntnArgument(min, max) > 0 ==> 0 <= draw < IntnArgument(min, max)
    ensures max - min + 1 > MaxInt64 ==> IntnArgument(min, max) == max - min + 1 - Modulus64
    ensures RandomInt(min, max, draw).Panicked? <==> max - min + 1 > MaxInt64
  {
  }

  /** With `min > max` the span can also wrap to a positive number, and a value outside
      the (empty) range comes back instead of a panic. */
  lemma RandomIntReversedRangeDraws()
    ensures IntnArgument(MaxInt64, MinInt64) == 2
    ensures RandomInt(MaxInt64, MinInt64, 1) == Drew(MinInt64)
  {
  }

  /** The intended behaviour: the span is computed exactly (it fits an unsigned 64-bit
      word whenever `min <= max`), an empty range panics, and otherwise the result lies
      in `[min, max]`. */
  function RandomIntInRange(min: int, max: int, draw: int): (r: Draw)
    requires IsInt64(min) && IsInt64(max)
    requires min <= max ==> 0 <= draw < max - min + 1
    ensures r.Drew? <==> min <= max
    ensures r.Drew? ==> min <= r.value <= max && IsInt64(r.value)
  {
    if max - min + 1 <= 0 then Panicked else Drew(draw + min)
  }

  /** Where the 64-bit span does not overflow, the source and the intended behaviour agree. */
  lemma RandomIntAgreesWithoutOverflow(min: int, max: int, draw: int)
    requires IsInt64(min) && IsInt64(max)
    requires IsInt64(max - min + 1)
    requires min <= max ==> 0 <= draw < max - min + 1
    ensures RandomInt(min, max, draw) == RandomIntInRange(min, max, draw)
  {
  }
}
