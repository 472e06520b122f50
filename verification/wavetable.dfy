/** Wavetable resampling as `Synthesizer::set_wavetable` does it: an input
    of any non-zero length is read at 2048 evenly spaced positions, each
    sample interpolated linearly between the two neighbouring input samples,
    the second neighbour wrapping to the start at the end of the input. */
module Wavetables {

  /** `WAVETABLE_SIZE`: every table holds this many samples. */
  const WavetableSize: nat := 2048

  /** Where output sample `i` falls in an input of `len` samples:
      `i / 2048 * len`. */
  function Position(i: nat, len: nat): real
  {
    (i as real) / (WavetableSize as real) * (len as real)
  }

  /** `i0`: the input sample at or before the position (`floor % len`). */
  function Lower(i: nat, len: nat): int
    requires len > 0
  {
    Position(i, len).Floor % len
  }

  /** `i1`: the input sample after `i0`, wrapping round. */
  function Upper(i: nat, len: nat): int
    requires len > 0
  {
    (Lower(i, len) + 1) % len
  }

  /** `frac`: how far the position lies past `i0`. */
  function Frac(i: nat, len: nat): real
  {
    Position(i, len) - Position(i, len).Floor as real
  }

  /** Output sample `i` of the resampled table. */
  function ResampleAt(src: seq<real>, i: nat): real
    requires |src| > 0
  {
    var len := |src|;
    IndicesInRange(i, len);
    src[Lower(i, len)] * (1.0 - Frac(i, len)) + src[Upper(i, len)] * Frac(i, len)
  }

  /** The 2048-sample table `set_wavetable` builds from `src`. */
  function Resample(src: seq<real>): (t: seq<real>)
    requires |src| > 0
    ensures |t| == WavetableSize
  {
    seq(WavetableSize, i requires 0 <= i < WavetableSize => ResampleAt(src, i))
  }

  /** Both interpolation indices are valid input indices, and the fraction
      lies in [0,1). */
  lemma IndicesInRange(i: nat, len: nat)
    requires len > 0
    ensures 0 <= Lower(i, len) < len && 0 <= Upper(i, len) < len
    ensures 0.0 <= Frac(i, len) < 1.0
  {
  }

  /** For the 2048 output positions the `% len` on `i0` never wraps: the
      position stays below `len`, so `i0` is its floor, and `i1` wraps to 0
      exactly when `i0` is the last input sample. */
  lemma LowerIsFloor(i: nat, len: nat)
    requires len > 0 && i < WavetableSize
    ensures Lower(i, len) == Position(i, len).Floor
    ensures Upper(i, len) == 0 <==> Lower(i, len) == len - 1
  {
    PositionBelowLength(i, len);
    FloorBelow(Position(i, len), len);
  }

  /** The 2048 output positions all lie in [0, len). */
  lemma PositionBelowLength(i: nat, len: nat)
    requires len > 0 && i < WavetableSize
    ensures 0.0 <= Position(i, len) < len as real
  {
    var q := (i as real) / (WavetableSize as real);
    assert 0.0 <= q < 1.0;
    MulLessThanOne(q, len as real);
    MulNonNegative(q, len as real);
  }

  /** The floor of a value in [0, n) is a valid index below `n`,
      reducing it modulo `n` leaves it unchanged, and its successor wraps
      to 0 exactly at `n - 1`. */
  lemma FloorBelow(x: real, n: nat)
    requires 0.0 <= x < n as real
    ensures 0 <= x.Floor < n && x.Floor % n == x.Floor
    ensures (x.Floor % n + 1) % n == 0 <==> x.Floor % n == n - 1
  {
    if x.Floor + 1 < n {
      assert (x.Floor + 1) % n == x.Floor + 1;
    }
  }

  /** `q * y < y` for `0 <= q < 1` and positive `y`. */
  lemma MulLessThanOne(q: real, y: real)
    requires 0.0 <= q < 1.0 && y > 0.0
    ensures q * y < y
  {
    assert (1.0 - q) * y > 0.0;
  }

  /** Product of two non-negative numbers is non-negative. */
  lemma MulNonNegative(a: real, b: real)
    requires a >= 0.0 && b >= 0.0
    ensures a * b >= 0.0
  {
  }

  /** A linear interpolation between two values lies between any bounds
      that hold of both. */
  lemma InterpolationBetween(a: real, b: real, f: real, lo: real, hi: real)
    requires lo <= a <= hi && lo <= b <= hi && 0.0 <= f <= 1.0
    ensures lo <= a * (1.0 - f) + b * f <= hi
  {
    MulNonNegative(hi - a, 1.0 - f);
    MulNonNegative(hi - b, f);
    MulNonNegative(a - lo, 1.0 - f);
    MulNonNegative(b - lo, f);
    assert hi - (a * (1.0 - f) + b * f) == (hi - a) * (1.0 - f) + (hi - b) * f;
    assert (a * (1.0 - f) + b * f) - lo == (a - lo) * (1.0 - f) + (b - lo) * f;
  }

  /** Resampling never leaves the input's range: an input within [lo,hi]
      (for instance a normalised [-1,1] table) gives a table within [lo,hi];
      with `lo == hi` a constant input gives a constant table. */
  lemma ResampleBounded(src: seq<real>, lo: real, hi: real)
    requires |src| > 0
    requires forall j | 0 <= j < |src| :: lo <= src[j] <= hi
    ensures forall i | 0 <= i < WavetableSize :: lo <= Resample(src)[i] <= hi
  {
    forall i | 0 <= i < WavetableSize
      ensures lo <= Resample(src)[i] <= hi
    {
      IndicesInRange(i, |src|);
      InterpolationBetween(src[Lower(i, |src|)], src[Upper(i, |src|)], Frac(i, |src|), lo, hi);
    }
  }

  /** Resampling a table that already has 2048 samples gives it back
      unchanged: every position falls exactly on an input sample. */
  lemma ResampleFullSizeIsIdentity(src: seq<real>)
    requires |src| == WavetableSize
    ensures Resample(src) == src
  {
    forall i | 0 <= i < WavetableSize
      ensures Resample(src)[i] == src[i]
    {
      assert Position(i, |src|) == i as real;
      assert Position(i, |src|).Floor == i;
      assert Lower(i, |src|) == i;
      assert Frac(i, |src|) == 0.0;
    }
  }
}
