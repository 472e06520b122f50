/** The two effects after the filter: `SimpleDelay`, a feedback delay line,
    and `SimpleReverb`, a single feedback comb. Each owns a circular buffer
    that `process` updates one slot at a time while advancing its write
    position modulo the buffer length. */
module Effects {
  import opened Numeric

  /** Maximum delay time in seconds, and so the delay buffer's length in seconds. */
  const MaxDelaySeconds: real := 5.0

  /** Comb length of the reverb in seconds. */
  const CombSeconds: real := 0.05

  /** Feedback gain of the reverb comb. */
  const CombFeedback: real := 0.3

  /** `len.max(1)` for a buffer length. */
  function AtLeastOne(n: nat): (m: nat)
    ensures m >= 1 && (n >= 1 ==> m == n)
  {
    if n >= 1 then n else 1
  }

  /** The slot `d` places behind `w` in a ring of `n` slots. */
  function Behind(w: nat, n: nat, d: nat): (r: nat)
    requires w < n && d < n
    ensures r < n
    ensures (r + d) % n == w
    ensures d == 0 ==> r == w
  {
    BehindWraps(w, n, d);
    (w + n - d) % n
  }

  /** Stepping `d` slots back from `w` in a ring of `n` slots and then `d`
      slots forward returns to `w`. */
  lemma BehindWraps(w: nat, n: nat, d: nat)
    requires w < n && d < n
    ensures 0 <= (w + n - d) % n < n
    ensures ((w + n - d) % n + d) % n == w
    ensures d == 0 ==> (w + n - d) % n == w
  {
    if w >= d {
      ModWrap(w - d, n);
      ModSmall(w, n);
    } else {
      ModSmall(w + n - d, n);
      ModWrap(w, n);
    }
  }

  lemma ModSmall(b: int, n: int)
    requires 0 <= b < n
    ensures b % n == b
  {
  }

  lemma ModWrap(b: int, n: int)
    requires 0 <= b < n
    ensures (b + n) % n == b
  {
  }

  /** The dry/wet mix both effects output: `dry * (1 - wet) + processed * wet`. */
  function Mix(dry: real, processed: real, wet: real): (y: real)
    ensures wet == 0.0 ==> y == dry
    ensures wet == 1.0 ==> y == processed
    ensures dry == processed ==> y == dry
  {
    dry * (1.0 - wet) + processed * wet
  }

  /** What the delay writes back: the input plus the delayed sample scaled
      by the feedback gain. */
  function Feedback(x: real, delayed: real, gain: real): (w: real)
    ensures gain == 0.0 ==> w == x
  {
    x + delayed * gain
  }

  class SimpleDelay {
    const sampleRate: real
    const buffer: array<real>
    const length: nat
    var writePos: nat
    var timeSeconds: real
    var feedback: real
    var wet: real

    ghost predicate Valid()
      reads this
    {
      1 <= length && buffer.Length == length && writePos < length
    }

    /** `SimpleDelay::new`: a silent buffer of five seconds (at least one slot). */
    constructor (sr: real, time: real, fb: real)
      ensures Valid() && fresh(buffer)
      ensures sampleRate == sr && length == AtLeastOne(ToUsize(sr * MaxDelaySeconds))
      ensures writePos == 0 && timeSeconds == time && feedback == fb && wet == 0.35
      ensures forall i | 0 <= i < buffer.Length :: buffer[i] == 0.0
    {
      var n := AtLeastOne(ToUsize(sr * MaxDelaySeconds));
      sampleRate := sr;
      buffer := new real[n](_ => 0.0);
      length := n;
      writePos := 0;
      timeSeconds := time;
      feedback := fb;
      wet := 0.35;
    }

    /** `SimpleDelay::set_time`: the delay time is kept within [0,5] seconds. */
    method SetTime(t: real)
      modifies this
      ensures timeSeconds == Clamp(t, 0.0, MaxDelaySeconds)
      ensures writePos == old(writePos) && feedback == old(feedback) && wet == old(wet)
    {
      timeSeconds := Clamp(t, 0.0, MaxDelaySeconds);
    }

    /** The delay in samples, reduced modulo the buffer length. */
    function Offset(): (d: nat)
      reads this
      requires Valid()
      ensures d < length
    {
      ToUsize(timeSeconds * sampleRate) % length
    }

    /** The slot `process` reads: `Offset()` slots behind the write position,
        wrapping around the start of the buffer. */
    function ReadIndex(): (r: nat)
      reads this
      requires Valid()
      ensures r < length
      ensures (r + Offset()) % length == writePos
      ensures Offset() == 0 ==> r == writePos
    {
      Behind(writePos, length, Offset())
    }

    /** `SimpleDelay::process`: read the delayed sample, overwrite the slot
        at the write position with the input plus fed-back delayed sample,
        advance the write position, and mix dry and delayed signal. Only
        that one slot of the buffer changes. */
    method Process(x: real) returns (y: real)
      requires Valid()
      modifies this, buffer
      ensures Valid()
      ensures writePos == (old(writePos) + 1) % length
      ensures buffer[..] == old(buffer[..])[old(writePos) := Feedback(x, old(buffer[ReadIndex()]), feedback)]
      ensures y == Mix(x, old(buffer[ReadIndex()]), wet)
      ensures timeSeconds == old(timeSeconds) && feedback == old(feedback) && wet == old(wet)
    {
      var read := ReadIndex();
      var delayed := buffer[read];
      var stored := Feedback(x, delayed, feedback);
      ghost var before := buffer[..];
      buffer[writePos] := stored;
      assert buffer[..] == before[writePos := stored];
      writePos := (writePos + 1) % length;
      y := Mix(x, delayed, wet);
      assert read == old(ReadIndex());
      assert delayed == old(buffer[ReadIndex()]);
      assert stored == Feedback(x, old(buffer[ReadIndex()]), feedback);
    }
  }

  class SimpleReverb {
    const combBuf: array<real>
    const combLen: nat
    var combPos: nat
    var wet: real

    ghost predicate Valid()
      reads this
    {
      1 <= combLen && combBuf.Length == combLen && combPos < combLen
    }

    /** `SimpleReverb::new`: a silent comb of 50 ms (at least one slot). */
    constructor (sr: real)
      ensures Valid() && fresh(combBuf)
      ensures combLen == AtLeastOne(ToUsize(sr * CombSeconds)) && combPos == 0 && wet == 0.25
      ensures forall i | 0 <= i < combBuf.Length :: combBuf[i] == 0.0
    {
      var n := AtLeastOne(ToUsize(sr * CombSeconds));
      combBuf := new real[n](_ => 0.0);
      combLen := n;
      combPos := 0;
      wet := 0.25;
    }

    /** `SimpleReverb::process`: the comb output is the input plus the
        stored sample times 0.3; it replaces the stored sample, the position
        advances, and dry and comb signal are mixed. Only that one slot of
        the buffer changes. */
    method Process(x: real) returns (y: real)
      requires Valid()
      modifies this, combBuf
      ensures Valid()
      ensures combPos == (old(combPos) + 1) % combLen
      ensures combBuf[..] == old(combBuf[..])[old(combPos) := x + old(combBuf[combPos]) * CombFeedback]
      ensures y == Mix(x, x + old(combBuf[combPos]) * CombFeedback, wet)
      ensures wet == old(wet)
    {
      var c := combBuf[combPos];
      var out := x + c * CombFeedback;
      ghost var before := combBuf[..];
      combBuf[combPos] := out;
      assert combBuf[..] == before[combPos := out];
      combPos := (combPos + 1) % combLen;
      y := Mix(x, out, wet);
    }
  }
}
