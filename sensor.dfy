// The sensor's side of the wire: what a DHT11 puts on the line when it answers
// a start signal and sends a frame, stated as conditions on the line levels.
// The round trip: whenever the sensor keeps to the timing the driver
// tolerates, the driver's read yields the frame the sensor sent.

module Sensor {
  import opened DwtDelay
  import opened Dht11

  /** The line shows `level` on every tick of [from, from + len). */
  predicate Holds(line: nat -> bool, from: nat, len: nat, level: bool)
  {
    forall i :: from <= i < from + len ==> line(i) == level
  }

  /**
   * The response to the start signal, from the tick the pin is released:
   * the pull-up keeps the line high for `a` us, the sensor pulls it low for `b`
   * us, then high for `c` us, then low again to begin the first bit.
   */
  predicate AckSent(line: nat -> bool, start: nat, a: nat, b: nat, c: nat)
  {
    && a <= EdgeTimeoutUs && 1 <= b <= EdgeTimeoutUs && 1 <= c <= EdgeTimeoutUs
    && Holds(line, start, a, true)
    && Holds(line, start + a, b, false)
    && Holds(line, start + a + b, c, true)
    && !line(start + a + b + c)
  }

  /** One bit from tick `t`: low for `lowUs`, high for `highUs`, then low again. */
  predicate BitSent(line: nat -> bool, t: nat, lowUs: nat, highUs: nat)
  {
    && Holds(line, t, lowUs, false)
    && Holds(line, t + lowUs, highUs, true)
    && !line(t + lowUs + highUs)
  }

  /** Bit timing the driver tolerates: each edge within 100 us, the high pulse within the 200 us cap. */
  predicate Tolerated(lowUs: nat, highUs: nat)
  {
    1 <= lowUs <= EdgeTimeoutUs && 1 <= highUs <= HighCapUs
  }

  /** The tick where bit `k` starts, the bits before it taking `lows[j] + highs[j]` us each. */
  function BitStart(from: nat, lows: seq<nat>, highs: seq<nat>, k: nat): (t: nat)
    requires k <= |lows| && k <= |highs|
    ensures t >= from
  {
    if k == 0 then from else BitStart(from, lows, highs, k - 1) + lows[k - 1] + highs[k - 1]
  }

  /** Bit `k` sent with tolerated timing, at its place in the frame. */
  predicate KthBitSent(line: nat -> bool, from: nat, lows: seq<nat>, highs: seq<nat>, k: nat)
    requires k < |lows| && k < |highs|
  {
    Tolerated(lows[k], highs[k]) && BitSent(line, BitStart(from, lows, highs, k), lows[k], highs[k])
  }

  /** The 40 bits, bit `k` with low time `lows[k]` and high time `highs[k]`, back to back from tick `from`. */
  predicate FrameSent(line: nat -> bool, from: nat, lows: seq<nat>, highs: seq<nat>)
  {
    && |lows| == FrameBits && |highs| == FrameBits
    && forall k :: 0 <= k < FrameBits ==> KthBitSent(line, from, lows, highs, k)
  }

  /** Pulse `k` is longer than 20 us exactly when bit `k` of `frame`, most significant first, is 1. */
  predicate KthBitEncoded(highs: seq<nat>, frame: seq<u8>, k: nat)
    requires |frame| == FrameBytes && k < |highs| && k < FrameBits
  {
    IsOne(highs[k]) <==> FrameToBits(frame)[k]
  }

  /** The high times carry the frame, bit by bit. */
  predicate Encodes(highs: seq<nat>, frame: seq<u8>)
    requires |frame| == FrameBytes
  {
    |highs| == FrameBits && forall k :: 0 <= k < FrameBits ==> KthBitEncoded(highs, frame, k)
  }

  /** A bit sent with tolerated timing is read as one slot that records exactly its high time. */
  lemma SlotReadsBit(line: nat -> bool, t: nat, lowUs: nat, highUs: nat)
    requires Tolerated(lowUs, highUs) && BitSent(line, t, lowUs, highUs)
    ensures Slot(line, t) == Capture([highUs], t + lowUs + highUs, false)
  {
    RunIsLongestPrefix(line, t, EdgeTimeoutUs + 1, false, lowUs);
    assert WaitFor(line, t, EdgeTimeoutUs, true) == WaitEnd(t + lowUs, false);
    RunIsLongestPrefix(line, t + lowUs, HighCapUs, true, highUs);
    RunIsLongestPrefix(line, t + lowUs + highUs, EdgeTimeoutUs + 1, true, 0);
    SlotSteps(line, t);
  }

  /** A response with tolerated timing passes the three acknowledge waits, ending where the first bit starts. */
  lemma HandshakeReadsAck(line: nat -> bool, start: nat, a: nat, b: nat, c: nat)
    requires AckSent(line, start, a, b, c)
    ensures Handshake(line, start) == WaitEnd(start + a + b + c, false)
  {
    RunIsLongestPrefix(line, start, EdgeTimeoutUs + 1, true, a);
    assert WaitFor(line, start, EdgeTimeoutUs, false) == WaitEnd(start + a, false);
    RunIsLongestPrefix(line, start + a, EdgeTimeoutUs + 1, false, b);
    assert WaitFor(line, start + a, EdgeTimeoutUs, true) == WaitEnd(start + a + b, false);
    RunIsLongestPrefix(line, start + a + b, EdgeTimeoutUs + 1, true, c);
    assert WaitFor(line, start + a + b, EdgeTimeoutUs, false) == WaitEnd(start + a + b + c, false);
  }

  /** From bit `k` on, the bit slots read exactly the high times sent, and end where the last bit ends. */
  lemma {:induction false} FrameReadsBits(line: nat -> bool, from: nat, lows: seq<nat>, highs: seq<nat>, k: nat)
    requires FrameSent(line, from, lows, highs) && k <= FrameBits
    ensures Frame(line, Capture(highs[..k], BitStart(from, lows, highs, k), false))
            == Capture(highs, BitStart(from, lows, highs, FrameBits), false)
    decreases FrameBits - k
  {
    if k == FrameBits {
      assert highs[..k] == highs;
    } else {
      var t := BitStart(from, lows, highs, k);
      var c := Capture(highs[..k], t, false);
      assert KthBitSent(line, from, lows, highs, k);
      SlotReadsBit(line, t, lows[k], highs[k]);
      assert highs[..k] + [highs[k]] == highs[..k + 1];
      assert Next(line, c) == Capture(highs[..k + 1], BitStart(from, lows, highs, k + 1), false);
      NextSlot(line, c);
      FrameReadsBits(line, from, lows, highs, k + 1);
    }
  }

  /** High times that carry a frame decode and assemble to that frame. */
  lemma PackDecodes(highs: seq<nat>, frame: seq<u8>)
    requires |frame| == FrameBytes && Encodes(highs, frame)
    ensures Pack(Bits(highs)) == frame
  {
    forall k | 0 <= k < FrameBits
      ensures Bits(highs)[k] == FrameToBits(frame)[k]
    {
      assert KthBitEncoded(highs, frame, k);
    }
    assert Bits(highs) == FrameToBits(frame);
    PackFrameToBits(frame);
  }

  /** After a passed acknowledge, the 40 bit slots read exactly the high times sent, and end where the last bit ends. */
  lemma ReceiveReadsFrame(line: nat -> bool, start: nat, t: nat, lows: seq<nat>, highs: seq<nat>)
    requires Handshake(line, start) == WaitEnd(t, false)
    requires FrameSent(line, t, lows, highs)
    ensures Receive(line, start) == Capture(highs, BitStart(t, lows, highs, FrameBits), false)
  {
    ReceiveCases(line, start);
    FrameReadsBits(line, t, lows, highs, 0);
    assert highs[..0] == [];
  }

  /**
   * The round trip: a sensor that answers with tolerated timing and sends the
   * 40 bits of `frame` makes the read end where the last bit ends, with the
   * high times sent, and the read's result is the checksum test and parse of
   * `frame` itself.
   */
  lemma SensorRoundTrip(line: nat -> bool, start: nat, frame: seq<u8>, a: nat, b: nat, c: nat, lows: seq<nat>, highs: seq<nat>)
    requires |frame| == FrameBytes
    requires AckSent(line, start, a, b, c)
    requires FrameSent(line, start + a + b + c, lows, highs)
    requires Encodes(highs, frame)
    ensures Transaction(line, start)
            == Outcome(Validate(frame), BitStart(start + a + b + c, lows, highs, FrameBits), highs)
  {
    HandshakeReadsAck(line, start, a, b, c);
    ReceiveReadsFrame(line, start, start + a + b + c, lows, highs);
    PackDecodes(highs, frame);
  }

  // ---------------------------------------------------------------------------
  // A waveform that meets these conditions

  /**
   * The level at tick `t` inside the bits from bit `k` on: low for `lows[k]`,
   * high for `highs[k]`, then the next bit. After the last bit the sensor
   * holds the line low for `EndLowUs` and then releases it to the pull-up.
   */
  function BitLevel(t: nat, from: nat, lows: seq<nat>, highs: seq<nat>, k: nat): bool
    requires |lows| == |highs| && k <= |lows|
    decreases |lows| - k
  {
    var s := BitStart(from, lows, highs, k);
    if k == |lows| then t >= s + EndLowUs
    else if t < s + lows[k] then false
    else if t < s + lows[k] + highs[k] then true
    else BitLevel(t, from, lows, highs, k + 1)
  }

  /** Low after the last bit, before the release. */
  const EndLowUs: nat := 50

  /**
   * The line level at tick `t` for a sensor released at `start` that waits `a`
   * us, answers low for `b` and high for `c`, then sends the bits `lows`/`highs`.
   */
  function Level(start: nat, a: nat, b: nat, c: nat, lows: seq<nat>, highs: seq<nat>, t: nat): bool
    requires |lows| == |highs|
  {
    if t < start + a then true
    else if t < start + a + b then false
    else if t < start + a + b + c then true
    else BitLevel(t, start + a + b + c, lows, highs, 0)
  }

  function Waveform(start: nat, a: nat, b: nat, c: nat, lows: seq<nat>, highs: seq<nat>): nat -> bool
    requires |lows| == |highs|
  {
    (t: nat) => Level(start, a, b, c, lows, highs, t)
  }

  lemma {:induction false} BitStartMonotone(from: nat, lows: seq<nat>, highs: seq<nat>, j: nat, k: nat)
    requires j <= k <= |lows| && k <= |highs|
    ensures BitStart(from, lows, highs, j) <= BitStart(from, lows, highs, k)
    decreases k - j
  {
    if j < k {
      BitStartMonotone(from, lows, highs, j, k - 1);
    }
  }

  /** Inside bit `k`, the level seen from any earlier bit `j` is bit `k`'s: low, then high. */
  lemma {:induction false} BitLevelInBit(t: nat, from: nat, lows: seq<nat>, highs: seq<nat>, j: nat, k: nat)
    requires |lows| == |highs| && j <= k < |lows|
    requires BitStart(from, lows, highs, k) <= t < BitStart(from, lows, highs, k + 1)
    ensures BitLevel(t, from, lows, highs, j) == (BitStart(from, lows, highs, k) + lows[k] <= t)
    decreases k - j
  {
    if j < k {
      BitStartMonotone(from, lows, highs, j + 1, k);
      BitLevelInBit(t, from, lows, highs, j + 1, k);
    }
  }

  /** Where the last bit ends, the line is low as seen from any bit. */
  lemma {:induction false} BitLevelAtEnd(from: nat, lows: seq<nat>, highs: seq<nat>, j: nat)
    requires |lows| == |highs| && j <= |lows|
    ensures !BitLevel(BitStart(from, lows, highs, |lows|), from, lows, highs, j)
    decreases |lows| - j
  {
    if j < |lows| {
      BitStartMonotone(from, lows, highs, j + 1, |lows|);
      BitLevelAtEnd(from, lows, highs, j + 1);
    }
  }

  /** Bit `k` of the waveform: low, high, then low at the start of the next bit (or the end). */
  lemma WaveformBit(start: nat, a: nat, b: nat, c: nat, lows: seq<nat>, highs: seq<nat>, k: nat)
    requires |lows| == |highs| && k < |lows|
    requires k + 1 < |lows| ==> 1 <= lows[k + 1]
    ensures BitSent(Waveform(start, a, b, c, lows, highs), BitStart(start + a + b + c, lows, highs, k), lows[k], highs[k])
  {
    var from := start + a + b + c;
    var line := Waveform(start, a, b, c, lows, highs);
    var s := BitStart(from, lows, highs, k);
    forall i | s <= i < s + lows[k] + highs[k]
      ensures line(i) == (s + lows[k] <= i)
    {
      assert line(i) == BitLevel(i, from, lows, highs, 0);
      BitLevelInBit(i, from, lows, highs, 0, k);
    }
    var e := s + lows[k] + highs[k];
    assert e == BitStart(from, lows, highs, k + 1);
    assert line(e) == BitLevel(e, from, lows, highs, 0);
    if k + 1 < |lows| {
      BitLevelInBit(e, from, lows, highs, 0, k + 1);
    } else {
      BitLevelAtEnd(from, lows, highs, 0);
    }
  }

  /** The waveform answers the start signal and sends its bits as FrameSent describes. */
  lemma WaveformSends(start: nat, a: nat, b: nat, c: nat, lows: seq<nat>, highs: seq<nat>)
    requires a <= EdgeTimeoutUs && 1 <= b <= EdgeTimeoutUs && 1 <= c <= EdgeTimeoutUs
    requires |lows| == FrameBits && |highs| == FrameBits
    requires forall k :: 0 <= k < FrameBits ==> Tolerated(lows[k], highs[k])
    ensures AckSent(Waveform(start, a, b, c, lows, highs), start, a, b, c)
    ensures FrameSent(Waveform(start, a, b, c, lows, highs), start + a + b + c, lows, highs)
  {
    var from := start + a + b + c;
    BitLevelInBit(from, from, lows, highs, 0, 0);
    forall k | 0 <= k < FrameBits
      ensures KthBitSent(Waveform(start, a, b, c, lows, highs), from, lows, highs, k)
    {
      if k + 1 < FrameBits {
        assert Tolerated(lows[k + 1], highs[k + 1]);
      }
      WaveformBit(start, a, b, c, lows, highs, k);
    }
  }

  /**
   * A typical response, in polls of the line: the sensor answers after 30,
   * low for 80, high for 80; each bit is low for 50. The driver's loops take
   * longer than a microsecond per poll, so the high pulses are given as the
   * driver counts them: a 0 bit about 10 polls, a 1 bit about 32.
   */
  const AnswerDelayUs: nat := 30
  const AnswerLowUs: nat := 80
  const AnswerHighUs: nat := 80
  const BitLowUs: nat := 50
  const ZeroHighUs: nat := 10
  const OneHighUs: nat := 32

  function TypicalLows(): (lows: seq<nat>)
    ensures |lows| == FrameBits
  {
    seq(FrameBits, _ => BitLowUs)
  }

  function TypicalHighs(frame: seq<u8>): (highs: seq<nat>)
    requires |frame| == FrameBytes
    ensures |highs| == FrameBits
  {
    seq(FrameBits, k requires 0 <= k < FrameBits => if FrameToBits(frame)[k] then OneHighUs else ZeroHighUs)
  }

  /** The line of a sensor released at `start` that sends `frame` with the typical timing. */
  function TypicalLine(start: nat, frame: seq<u8>): nat -> bool
    requires |frame| == FrameBytes
  {
    Waveform(start, AnswerDelayUs, AnswerLowUs, AnswerHighUs, TypicalLows(), TypicalHighs(frame))
  }

  /**
   * Every frame a sensor sends with the typical timing is read back: the
   * read's result is the checksum test and parse of that frame.
   */
  lemma TypicalFrameRead(start: nat, frame: seq<u8>)
    requires |frame| == FrameBytes
    ensures Transaction(TypicalLine(start, frame), start).result == Validate(frame)
    ensures Transaction(TypicalLine(start, frame), start).highs == TypicalHighs(frame)
  {
    var lows, highs := TypicalLows(), TypicalHighs(frame);
    WaveformSends(start, AnswerDelayUs, AnswerLowUs, AnswerHighUs, lows, highs);
    forall k | 0 <= k < FrameBits
      ensures KthBitEncoded(highs, frame, k)
    {
      var bit := FrameToBits(frame)[k];
      assert highs[k] == if bit then OneHighUs else ZeroHighUs;
      assert IsOne(OneHighUs) && !IsOne(ZeroHighUs);
      assert IsOne(highs[k]) == bit;
    }
    SensorRoundTrip(TypicalLine(start, frame), start, frame, AnswerDelayUs, AnswerLowUs, AnswerHighUs, lows, highs);
  }
}
