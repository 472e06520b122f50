/** Scalar helpers shared by the synthesiser model: the `f32` comparison
    operators the engine uses (`max`, `min`, `clamp`), the `as usize`
    conversion, and the `u8` MIDI note type. Samples and levels are `real`. */
module Numeric {

  /** `u8`, the type of a MIDI note number. */
  newtype Byte = x: int | 0 <= x < 256

  /** The largest `usize` on the wasm32 target. */
  const UsizeMax: nat := 0xFFFF_FFFF

  /** `a.max(b)`. */
  function Max(a: real, b: real): (r: real)
    ensures r >= a && r >= b
    ensures r == a || r == b
  {
    if a >= b then a else b
  }

  /** `a.min(b)`. */
  function Min(a: real, b: real): (r: real)
    ensures r <= a && r <= b
    ensures r == a || r == b
  {
    if a <= b then a else b
  }

  /** `x.clamp(lo, hi)`; Rust panics when `lo > hi`, which no call site allows. */
  function Clamp(x: real, lo: real, hi: real): (r: real)
    requires lo <= hi
    ensures lo <= r <= hi
    ensures lo <= x <= hi ==> r == x
    ensures x < lo ==> r == lo
    ensures x > hi ==> r == hi
  {
    if x < lo then lo else if x > hi then hi else x
  }

  /** `x as usize` for a finite `f32`: truncation toward zero, saturating at
      0 below and at `UsizeMax` above. */
  function ToUsize(x: real): (n: nat)
    ensures n <= UsizeMax
    ensures 0.0 <= x < UsizeMax as real ==> n as real <= x < n as real + 1.0
    ensures x <= 0.0 ==> n == 0
  {
    if x <= 0.0 then 0 else if x >= UsizeMax as real then UsizeMax else x.Floor
  }
}
