/** Value types shared by the registration builder, the tickets and the callback
    surface: an optional value, Rust's fixed-width integers, and the two's-complement
    reinterpretation performed by Rust's `as` cast from `u64` to `i64`. */
module Primitives {

  datatype Option<+T> = None | Some(value: T) {
    /** The contained value, or `default` when there is none (Rust's `unwrap_or`). */
    function UnwrapOr(default: T): (r: T)
      ensures Some? ==> r == value
      ensures None? ==> r == default
    {
      match this
      case Some(v) => v
      case None => default
    }
  }

  /** The set of values a sequence holds, in any order and with repetitions merged. */
  function Elements<T>(s: seq<T>): set<T> {
    set x | x in s
  }

  const TWO_TO_THE_8: int := 0x100
  const TWO_TO_THE_16: int := 0x1_0000
  const TWO_TO_THE_63: int := 0x8000_0000_0000_0000
  const TWO_TO_THE_64: int := 0x1_0000_0000_0000_0000

  type uint8 = x: int | 0 <= x < TWO_TO_THE_8
  type uint16 = x: int | 0 <= x < TWO_TO_THE_16
  type uint64 = x: int | 0 <= x < TWO_TO_THE_64
  type int64 = x: int | -TWO_TO_THE_63 <= x < TWO_TO_THE_63

  /** Rust's `x as i64` for `x: u64`: the same 64 bits read as a two's-complement value. */
  function AsInt64(x: uint64): (r: int64)
    ensures (r - x) % TWO_TO_THE_64 == 0
  {
    if x < TWO_TO_THE_63 then x else x - TWO_TO_THE_64
  }

  /** Rust's `x as u64` for `x: i64`: the inverse reinterpretation. */
  function AsUint64(x: int64): (r: uint64)
    ensures (r - x) % TWO_TO_THE_64 == 0
  {
    if x >= 0 then x else x + TWO_TO_THE_64
  }

  /** The `u64 -> i64` cast loses nothing: reading the bits back gives the value that was cast. */
  lemma AsInt64RoundTrip(x: uint64)
    ensures AsUint64(AsInt64(x)) == x
  {
  }

  /** ...and every `i64` is the cast of exactly one `u64`. */
  lemma AsUint64RoundTrip(x: int64)
    ensures AsInt64(AsUint64(x)) == x
  {
  }

  /** Values below 2^63 are forwarded with their numeric value unchanged; larger ones turn negative. */
  lemma AsInt64KeepsSmallValues(x: uint64)
    ensures x < TWO_TO_THE_63 <==> AsInt64(x) == x
    ensures x >= TWO_TO_THE_63 <==> AsInt64(x) < 0
  {
  }
}
