/**
 * The record the importer consumes (monitor/metric.go) and the 64-bit
 * integer arithmetic the importer applies to it.
 */
module Metric {

  const MinInt64: int := -0x8000_0000_0000_0000
  const MaxInt64: int := 0x7fff_ffff_ffff_ffff
  const TwoTo64: int := 0x1_0000_0000_0000_0000

  /** Go's `int64`. */
  type int64 = x: int | -0x8000_0000_0000_0000 <= x <= 0x7fff_ffff_ffff_ffff

  /**
   * The exported fields of `ConsumerFullOffset`. The unexported
   * `partitionMap` is not part of this model: nothing in the importer reads it.
   */
  datatype ConsumerFullOffset = ConsumerFullOffset(
    Cluster: string,
    Topic: string,
    Group: string,
    MaxOffset: int64,
    Offset: int64,
    Lag: int64,
    Timestamp: int64)

  /** Two's-complement wrap-around of an unbounded integer into `int64`. */
  function Wrap64(x: int): (r: int64)
    ensures (r - x) % TwoTo64 == 0
    ensures MinInt64 <= x <= MaxInt64 ==> r == x
  {
    var m := (x - MinInt64) % TwoTo64;
    m + MinInt64
  }

  /** Go's `a - b` on two `int64` operands: exact unless it overflows, then wrapped. */
  function Sub64(a: int64, b: int64): (r: int64)
    ensures MinInt64 <= a - b <= MaxInt64 ==> r == a - b
    ensures (r - (a - b)) % TwoTo64 == 0
  {
    Wrap64(a - b)
  }

  /**
   * Go's `ms / 1000` on an `int64`: the quotient truncated toward zero,
   * so that -1500 / 1000 is -1 (Dafny's own `/` would give -2).
   */
  function MillisToSeconds(ms: int64): (s: int64)
    ensures 0 <= ms ==> 0 <= s && s * 1000 <= ms < s * 1000 + 1000
    ensures ms < 0 ==> s <= 0 && s * 1000 - 1000 < ms <= s * 1000
  {
    if 0 <= ms then ms / 1000 else -((-(ms as int)) / 1000)
  }

  /** Two concrete cases of the truncating division, one on each side of zero. */
  lemma MillisToSecondsExamples()
    ensures MillisToSeconds(1_500) == 1
    ensures MillisToSeconds(-1_500) == -1
    ensures MillisToSeconds(999) == 0 && MillisToSeconds(-999) == 0
  {
  }
}
