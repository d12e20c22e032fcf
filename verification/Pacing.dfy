/** Fixed-point pacing: source frames per output frame in the resampler, and frames per millisecond
    packet towards the USB headphones. Neither drifts. */
module Pacing {
  import opened Wrappers
  import opened Audio
  import opened Words

  function Pow2(n: nat): (p: nat)
    ensures p > 0
  {
    if n == 0 then 1 else 2 * Pow2(n - 1)
  }

  lemma {:induction false} Pow2Add(a: nat, b: nat)
    ensures Pow2(a + b) == Pow2(a) * Pow2(b)
    decreases b
  {
    if b > 0 { Pow2Add(a, b - 1); }
  }

  lemma {:induction false} Pow2Grows(a: nat, b: nat)
    requires a <= b
    ensures Pow2(a) <= Pow2(b)
    decreases b
  {
    if a < b { Pow2Grows(a, b - 1); }
  }

  // ------------------------------------------------------------------ binary32

  /** A single-precision number by its fields. */
  datatype Float = Float(negative: bool, exponent: nat, fraction: nat)

  predicate IsFloat(f: Float) { f.exponent < 256 && f.fraction < 0x80_0000 }

  predicate IsFinite(f: Float) { f.exponent < 255 }

  /** The magnitude of a finite number, times 2^149: always whole. */
  function Magnitude(f: Float): nat {
    if f.exponent == 0 then f.fraction else (0x80_0000 + f.fraction) * Pow2(f.exponent - 1)
  }

  function Scaled(f: Float): int { if f.negative then 0 - Magnitude(f) else Magnitude(f) }

  const ONE := Float(false, 127, 0)
  /** 0.01 as a single-precision number, and 16. */
  const MIN_FACTOR := Float(false, 120, 0x23_D70A)
  const MAX_FACTOR := Float(false, 131, 0)

  function Sanitize(f: Float): Float {
    if !IsFinite(f) then ONE
    else if Scaled(f) < Scaled(MIN_FACTOR) then MIN_FACTOR
    else if Scaled(f) > Scaled(MAX_FACTOR) then MAX_FACTOR
    else f
  }

  lemma TooSmall(f: Float)
    requires IsFloat(f) && f.exponent < 120
    ensures Magnitude(f) < 0x80_0000 * Pow2(119)
  {
    if f.exponent > 0 {
      Pow2Grows(f.exponent - 1, 118);
      Pow2Twice(118);
      hide Pow2;
      MagnitudeBelow(0x80_0000 + f.fraction, Pow2(f.exponent - 1), Pow2(118));
    } else {
      hide Pow2;
    }
  }

  lemma TooLarge(f: Float)
    requires IsFloat(f) && f.exponent > 131
    ensures Magnitude(f) > 0x80_0000 * Pow2(130)
  {
    Pow2Grows(131, f.exponent - 1);
    Pow2Twice(130);
    hide Pow2;
    MagnitudeAbove(0x80_0000 + f.fraction, Pow2(f.exponent - 1), Pow2(131));
  }

  lemma Pow2Twice(n: nat)
    ensures Pow2(n + 1) == 2 * Pow2(n)
  {
  }

  /** What passes the sanitizer is positive with an exponent of -7 to 4, so the shift is 2 to 13. */
  lemma {:induction false} SanitizedRange(f: Float)
    requires IsFloat(f)
    ensures var s := Sanitize(f); IsFloat(s) && !s.negative && 120 <= s.exponent <= 131
  {
    hide Pow2;
    LimitMagnitudes();
    if IsFinite(f) && Scaled(MIN_FACTOR) <= Scaled(f) <= Scaled(MAX_FACTOR) {
      if f.exponent < 120 { TooSmall(f); }
      if f.exponent > 131 { TooLarge(f); }
      hide Magnitude;
    } else {
      hide Scaled;
    }
  }

  /** A finite pitch becomes the nearest one in the range: itself when it is inside. Any other
      becomes one, whose step is one source frame. */
  lemma {:induction false} SanitizedIsNearest(f: Float, g: Float)
    ensures IsFinite(f) && Scaled(MIN_FACTOR) <= Scaled(f) <= Scaled(MAX_FACTOR) ==> Sanitize(f) == f
    ensures IsFinite(f) && Scaled(MIN_FACTOR) <= Scaled(g) <= Scaled(MAX_FACTOR) ==>
              Away(Scaled(Sanitize(f)), Scaled(f)) <= Away(Scaled(g), Scaled(f))
    ensures Scaled(MIN_FACTOR) <= Scaled(Sanitize(f)) <= Scaled(MAX_FACTOR)
    ensures !IsFinite(f) ==> Scaled(Sanitize(f)) == Pow2(149) && Step(Sanitize(f)) == 0x1_0000_0000
  {
    LimitsAreOrdered();
    hide Magnitude, Pow2;
  }

  function Away(x: int, y: int): nat { if x <= y then y - x else x - y }

  lemma LimitsAreOrdered()
    ensures Scaled(MIN_FACTOR) <= Scaled(ONE) <= Scaled(MAX_FACTOR)
    ensures Scaled(ONE) == Pow2(149) && Step(ONE) == 0x1_0000_0000
  {
    hide Pow2, Magnitude, Step;
    LimitMagnitudes();
    OneIsWhole();
    ExponentsApart();
  }

  lemma ExponentsApart()
    ensures Pow2(126) == 128 * Pow2(119) && Pow2(130) == 16 * Pow2(126)
  {
    hide Pow2;
    SmallPowers();
    Pow2Above(119, 7, 128);
    Pow2Above(126, 4, 16);
  }

  lemma OneIsWhole()
    ensures Magnitude(ONE) == 0x80_0000 * Pow2(126) == Pow2(149) && Step(ONE) == 0x1_0000_0000
  {
    hide Pow2;
    SmallPowers();
    Pow2Above(126, 23, 0x80_0000);
  }

  lemma Pow2Above(n: nat, k: nat, p: nat)
    requires Pow2(k) == p
    ensures Pow2(n + k) == p * Pow2(n)
  {
    Pow2Add(n, k);
    hide Pow2;
  }

  lemma SmallPowers()
    ensures Pow2(4) == 16 && Pow2(7) == 128 && Pow2(9) == 512 && Pow2(23) == 0x80_0000
  {
    Pow2Above(16, 7, 128);
    Pow2Above(9, 7, 128);
  }

  lemma LimitMagnitudes()
    ensures Magnitude(MIN_FACTOR) == 0xA3_D70A * Pow2(119) > 0 && Magnitude(MAX_FACTOR) == 0x80_0000 * Pow2(130)
  {
    hide Pow2;
  }

  lemma MagnitudeBelow(mantissa: nat, p: nat, q: nat)
    requires mantissa < 0x100_0000 && 0 < p <= q
    ensures mantissa * p < 0x80_0000 * (2 * q)
  {
    assert mantissa * p <= mantissa * q;
    assert mantissa * q < 0x100_0000 * q;
  }

  lemma MagnitudeAbove(mantissa: nat, p: nat, q: nat)
    requires mantissa >= 0x80_0000 && 0 < q <= p
    ensures mantissa * p >= 0x80_0000 * q
  {
    assert mantissa * p >= 0x80_0000 * p;
  }

  /** The Q32 step taken from the fields: the mantissa shifted by exponent + 9. */
  function Step(f: Float): nat
    requires 120 <= f.exponent
  {
    (0x80_0000 + f.fraction) * Pow2(f.exponent - 118)
  }

  lemma ShiftSplits(mantissa: nat, k: nat)
    requires mantissa < 0x100_0000 && 2 <= k <= 13 && 0 < mantissa
    ensures (mantissa * Pow2(k)) * Pow2(117) == mantissa * Pow2(k + 117)
    ensures 0 < mantissa * Pow2(k) < 0x20_0000_0000
  {
    hide Pow2;
    Pow2Add(k, 117);
    Pow2Grows(k, 13);
    Pow2Of13();
    MulAssoc(mantissa, Pow2(k), Pow2(117));
    ProductBounds(mantissa, Pow2(k));
  }

  lemma Pow2Of13()
    ensures Pow2(13) == 8192
  {
  }

  lemma MulAssoc(a: nat, b: nat, c: nat)
    ensures (a * b) * c == a * (b * c)
  {
  }

  lemma ProductBounds(mantissa: nat, p: nat)
    requires 0 < mantissa < 0x100_0000 && 0 < p <= 8192
    ensures 0 < mantissa * p < 0x20_0000_0000
  {
    assert mantissa * p <= mantissa * 8192;
  }

  /** The step is the sanitized pitch times 2^32, exactly: both sides times 2^117. It fits 64 bits
      with room for the phase. */
  lemma {:induction false} StepIsExact(f: Float)
    requires IsFloat(f)
    ensures var s := Sanitize(f);
            && 120 <= s.exponent
            && Step(s) * Pow2(117) == Magnitude(s) && Scaled(s) == Magnitude(s)
            && 0 < Step(s) < 0x20_0000_0000
  {
    hide Pow2, Sanitize;
    SanitizedRange(f);
    ShiftSplits(0x80_0000 + Sanitize(f).fraction, Sanitize(f).exponent - 118);
  }

  // ------------------------------------------------------------------ the resampler

  /** Source frames to fetch for one output frame, and the phase after it. */
  function Advance(phase: u32, step: nat): (r: (nat, u32))
    ensures r.0 * 0x1_0000_0000 + r.1 == phase + step
  {
    ((phase + step) / 0x1_0000_0000, (phase + step) % 0x1_0000_0000)
  }

  /** Source frames fetched over n outputs at a constant pitch, and the phase after them. */
  function AdvanceBy(phase: u32, step: nat, n: nat): (nat, u32)
    decreases n
  {
    if n == 0 then (0, phase)
    else
      var (before, p) := AdvanceBy(phase, step, n - 1);
      var (frames, q) := Advance(p, step);
      (before + frames, q)
  }

  /** No drift: n outputs fetch exactly floor((phase + n * step) / 2^32) source frames. */
  lemma {:induction false} RequestsAreExact(phase: u32, step: nat, n: nat)
    ensures var (total, p) := AdvanceBy(phase, step, n);
            && total == (phase + n * step) / 0x1_0000_0000
            && p == (phase + n * step) % 0x1_0000_0000
    decreases n
  {
    if n > 0 {
      RequestsAreExact(phase, step, n - 1);
      var (before, p) := AdvanceBy(phase, step, n - 1);
      var (frames, q) := Advance(p, step);
      var earlier := phase + (n - 1) * step;
      assert n * step == (n - 1) * step + step;
      assert earlier == before * 0x1_0000_0000 + p;
      ModIs(phase + n * step, before + frames, q, 0x1_0000_0000);
    } else {
      ModIs(phase, 0, phase, 0x1_0000_0000);
    }
  }

  /** The two frames interpolated between, after a run of fetches of which some came back empty: an
      underrun holds the last frame. */
  function Fetched(previous: Frame, current: Frame, pops: seq<Option<Frame>>): (Frame, Frame)
    decreases pops
  {
    if pops == [] then (previous, current)
    else Fetched(current, if pops[0].Some? then pops[0].value else current, pops[1..])
  }

  lemma {:induction false} FetchedOneMore(previous: Frame, current: Frame, pops: seq<Option<Frame>>, x: Option<Frame>)
    ensures var (_, c) := Fetched(previous, current, pops);
            Fetched(previous, current, pops + [x]) == (c, if x.Some? then x.value else c)
    decreases pops
  {
    if pops == [] {
      assert pops + [x] == [x];
    } else {
      assert (pops + [x])[1..] == pops[1..] + [x];
      FetchedOneMore(current, if pops[0].Some? then pops[0].value else current, pops[1..], x);
    }
  }

  function Arrived(pops: seq<Option<Frame>>): nat {
    if pops == [] then 0 else (if pops[|pops| - 1].Some? then 1 else 0) + Arrived(pops[..|pops| - 1])
  }

  /** The last frame that came, or the one held before. */
  function Latest(held: Frame, pops: seq<Option<Frame>>): Frame {
    if pops == [] then held
    else if pops[|pops| - 1].Some? then pops[|pops| - 1].value
    else Latest(held, pops[..|pops| - 1])
  }

  /** After any fetches the current frame is the last that came, or still the one held when none did,
      and the previous one is what was current before the last fetch. */
  lemma {:induction false} UnderrunHolds(previous: Frame, current: Frame, pops: seq<Option<Frame>>)
    ensures var (p, c) := Fetched(previous, current, pops);
            && c == Latest(current, pops)
            && p == if pops == [] then previous else Latest(current, pops[..|pops| - 1])
    ensures Arrived(pops) == 0 ==> Latest(current, pops) == current
    decreases |pops|
  {
    if pops != [] {
      var before, x := pops[..|pops| - 1], pops[|pops| - 1];
      assert pops == before + [x];
      UnderrunHolds(previous, current, before);
      FetchedOneMore(previous, current, before, x);
      hide Fetched;
    }
  }

  class Resampler {
    var previous: Frame
    var current: Frame
    var phase: u32
    var factor: Option<Float>
    var step: nat

    /** The cached step belongs to the cached factor. */
    ghost predicate Valid()
      reads this
    {
      factor.Some? ==> IsFloat(factor.value) && 120 <= factor.value.exponent <= 131 && step == Step(factor.value)
    }

    constructor ()
      ensures Valid() && phase == 0 && previous == current == Frame(0, 0)
    {
      previous, current, phase, factor, step := Frame(0, 0), Frame(0, 0), 0, None, 0;
    }

    /** The source ring: it may be empty at any fetch. */
    method Pop() returns (x: Option<Frame>)
    {
      x := *;
    }

    /** One output frame: the phase advances by the sanitized pitch, and exactly the whole part is
        fetched, in order. */
    method NextFrame(pitch: Float) returns (consumed: nat, ghost pops: seq<Option<Frame>>)
      requires Valid() && IsFloat(pitch)
      modifies this
      ensures Valid() && 120 <= Sanitize(pitch).exponent
      ensures (|pops|, phase) == Advance(old(phase), Step(Sanitize(pitch)))
      ensures consumed == Arrived(pops)
      ensures (previous, current) == Fetched(old(previous), old(current), pops)
    {
      SanitizedRange(pitch);
      hide Sanitize, Step, Fetched, Arrived;
      var f := Sanitize(pitch);
      if factor != Some(f) {
        factor, step := Some(f), Step(f);
      }
      var sum := phase + step;
      var frames := sum / 0x1_0000_0000;
      assert (frames, sum % 0x1_0000_0000) == Advance(phase, step);
      hide Advance;
      phase := sum % 0x1_0000_0000;
      consumed, pops := FetchFrames(frames);
    }

    /** Fetches that many frames, some of which may not come. */
    method FetchFrames(count: nat) returns (consumed: nat, ghost pops: seq<Option<Frame>>)
      modifies `previous, `current
      ensures |pops| == count && consumed == Arrived(pops)
      ensures (previous, current) == Fetched(old(previous), old(current), pops)
    {
      hide Fetched, Arrived;
      consumed, pops := 0, [];
      NoneFetched(previous, current);
      var frames := count;
      while frames > 0
        invariant |pops| + frames == count && consumed == Arrived(pops)
        invariant (previous, current) == Fetched(old(previous), old(current), pops)
      {
        frames := frames - 1;
        var x := Pop();
        FetchedOneMore(old(previous), old(current), pops, x);
        ArrivedOneMore(pops, x);
        pops := pops + [x];
        previous := current;
        if x.Some? {
          current := x.value;
          consumed := consumed + 1;
        }
      }
    }
  }

  lemma NoneFetched(previous: Frame, current: Frame)
    ensures Fetched(previous, current, []) == (previous, current) && Arrived([]) == 0
  {
  }

  lemma ArrivedOneMore(pops: seq<Option<Frame>>, x: Option<Frame>)
    ensures Arrived(pops + [x]) == Arrived(pops) + if x.Some? then 1 else 0
  {
    assert (pops + [x])[..|pops|] == pops;
  }

  // ------------------------------------------------------------------ the packetizer

  /** Frames of the next packet, kept in 16 bits, and the new accumulator, in 32 bits. */
  function Packet(rate: u32, accum: u32): (r: (u16, u32)) {
    if rate == 0 then (0, accum)
    else
      var sum := Add32(accum, rate);
      var frames := sum / 1000 % 0x1_0000;
      (frames, sum - frames * 1000)
  }

  /** Frames in n packets from reset, and the accumulator after them. */
  function Packets(rate: u32, n: nat): (nat, u32)
    decreases n
  {
    if n == 0 then (0, 0)
    else
      var (before, accum) := Packets(rate, n - 1);
      var (frames, accum') := Packet(rate, accum);
      (before + frames, accum')
  }

  lemma PacketIsExact(rate: u32, accum: u32)
    requires rate <= 65_535_000 && accum < 1000
    ensures var (frames, accum') := Packet(rate, accum);
            && accum' < 1000 && frames * 1000 + accum' == accum + rate
            && rate - 1000 < frames * 1000 < rate + 1000
  {
  }

  lemma {:induction false} PacketsBalance(rate: u32, n: nat)
    requires rate <= 65_535_000
    ensures var (total, accum) := Packets(rate, n); accum < 1000 && total * 1000 + accum == n * rate
    decreases n
  {
    if n > 0 {
      PacketsBalance(rate, n - 1);
      PacketIsExact(rate, Packets(rate, n - 1).1);
      assert n * rate == (n - 1) * rate + rate;
    }
    hide Packet;
  }

  lemma {:induction false} PacketsAtMost(rate: u32, n: nat)
    ensures Packets(rate, n).0 <= 65_535 * n
    decreases n
  {
    if n > 0 { PacketsAtMost(rate, n - 1); }
  }

  lemma PacketsNext(rate: u32, n: nat)
    ensures var (before, accum) := Packets(rate, n);
            Packets(rate, n + 1) == (before + Packet(rate, accum).0, Packet(rate, accum).1)
  {
    hide Packet;
  }

  lemma PacketsExact(rate: u32, n: nat)
    ensures rate <= 65_535_000 ==> Packets(rate, n).0 == n * rate / 1000
  {
    hide Packets;
    if rate <= 65_535_000 {
      PacketsBalance(rate, n);
      var (total, accum) := Packets(rate, n);
      ModIs(n * rate, total, accum, 1000);
    }
  }

  /** n packets from reset carry exactly floor(n * rate / 1000) frames, for every n, exactly at the
      rates up to 65 535 000. Above them a packet's count no longer fits its 16 bits, and a second
      of packets falls short. */
  lemma {:induction false} NoDriftExactly(rate: u32)
    ensures (forall n: nat :: Packets(rate, n).0 == n * rate / 1000) <==> rate <= 65_535_000
  {
    hide Packets;
    if rate <= 65_535_000 {
      forall n: nat ensures Packets(rate, n).0 == n * rate / 1000 {
        PacketsExact(rate, n);
      }
    } else {
      PacketsAtMost(rate, 1000);
      assert Packets(rate, 1000).0 != 1000 * rate / 1000;
    }
  }

  /** Each packet lies within one frame of the mean. */
  lemma {:induction false} EachPacketNearTheMean(rate: u32, n: nat)
    requires rate <= 65_535_000
    ensures var (frames, _) := Packet(rate, Packets(rate, n).1);
            frames == rate / 1000 || frames == rate / 1000 + 1
  {
    PacketsBalance(rate, n);
    PacketIsExact(rate, Packets(rate, n).1);
    hide Packets;
  }

  class Packetizer {
    const rate: u32
    const channels: byte
    const bytesPerSample: byte
    var accum: u32
    ghost var sent: nat
    ghost var total: nat

    /** The accumulator and the frames sent are those of `sent` packets from reset. */
    ghost predicate Valid()
      reads this
    {
      Packets(rate, sent) == (total, accum)
    }

    constructor (rate: u32, channels: byte, bytesPerSample: byte)
      ensures Valid() && this.rate == rate && this.channels == channels && this.bytesPerSample == bytesPerSample
      ensures accum == 0 && sent == 0 && total == 0
    {
      this.rate, this.channels, this.bytesPerSample := rate, channels, bytesPerSample;
      accum, sent, total := 0, 0, 0;
    }

    method NextFrames() returns (frames: u16)
      requires Valid()
      modifies this
      ensures Valid() && sent == old(sent) + 1 && total == old(total) + frames
      ensures rate <= 65_535_000 ==> total == sent * rate / 1000
    {
      hide Packets;
      PacketsNext(rate, sent);
      PacketsExact(rate, sent + 1);
      sent := sent + 1;
      if rate == 0 { return 0; }
      accum := Add32(accum, rate);
      frames := accum / 1000 % 0x1_0000;
      accum := accum - frames * 1000;
      total := total + frames;
    }

    method NextBytes() returns (bytes: u32)
      requires Valid()
      modifies this
      ensures Valid() && sent == old(sent) + 1
      ensures bytes == (total - old(total)) * channels * bytesPerSample
    {
      var frames := NextFrames();
      ProductFits(frames, channels, bytesPerSample);
      bytes := frames * channels * bytesPerSample;
    }
  }

  lemma Monotone(a: nat, b: nat, c: nat, d: nat)
    requires a <= b && c <= d
    ensures 0 <= a * c <= b * d
  {
    assert (b - a) * c >= 0;
    assert b * (d - c) >= 0;
  }

  /** The byte count never overflows 32 bits. */
  lemma ProductFits(frames: u16, channels: byte, bytesPerSample: byte)
    ensures 0 <= frames * channels * bytesPerSample < 0x1_0000_0000
  {
    Monotone(frames, 65_535, channels, 255);
    Monotone(frames * channels, 65_535 * 255, bytesPerSample, 255);
  }
}
