// The DHT11 single-wire protocol driver.
//
// The data line is an injected function from microsecond tick to level; the
// driver owns a pin (mode and driven level) and a tick counter that its
// one-microsecond delay advances by one. The protocol is first written as pure
// functions over the line (WaitFor, Slot, Frame, Handshake, Transaction); the
// class Dht11 then runs the same protocol step by step, with loops and arrays,
// and each of its methods is proved to agree with those functions.

module Dht11 {
  import opened DwtDelay

  type u8 = x: int | 0 <= x < 256

  /** Budget of every edge wait: the three acknowledge edges and both edges of a bit. */
  const EdgeTimeoutUs: u32 := 100
  /** Safety ceiling on the measurement of one high pulse. */
  const HighCapUs: nat := 200
  /** A high pulse longer than this many microseconds is a 1 bit. */
  const OneThresholdUs: nat := 20
  /** Start signal: line held low this long (`Timer::after_millis(20)`). */
  const StartLowUs: nat := 20_000
  /** Then released high this long (`Timer::after_micros(40)`). */
  const ReleaseHighUs: nat := 40
  /** Bytes in a frame and bits in a byte. */
  const FrameBytes: nat := 5
  const FrameBits: nat := 40
  /** Longest one bit slot can take: wait for high, capped measurement, wait for low. */
  const SlotMaxUs: nat := 400
  /** Longest the busy-wait phases of one read can take: 3 * 100 + 40 * 400. */
  const MaxBusyUs: nat := 16_300

  datatype Mode = Output | InputPullUp

  datatype DhtError = Timeout | ChecksumError

  /** A reading in tenths: `humidity = byte0 + byte1 * 0.1` is `humidityTenths / 10`. */
  datatype Reading = Reading(temperatureTenths: nat, humidityTenths: nat)

  datatype ReadResult = Ok(reading: Reading) | Err(error: DhtError)

  /** `Result<(), DhtError>` of the two wait helpers. */
  datatype Status = Pass | Fail(error: DhtError)

  // ---------------------------------------------------------------------------
  // Levels on the line, and bounded waits

  /** The number of consecutive samples equal to `level` from tick `start`, at most `cap`. */
  function Run(line: nat -> bool, start: nat, cap: nat, level: bool): (n: nat)
    ensures n <= cap
    ensures n < cap ==> line(start + n) != level
  {
    RunBefore(line, start, start + cap, level)
  }

  /** The number of consecutive samples equal to `level` from tick `from`, stopping before tick `limit`. */
  function RunBefore(line: nat -> bool, from: nat, limit: nat, level: bool): (n: nat)
    requires from <= limit
    ensures n <= limit - from
    ensures from + n < limit ==> line(from + n) != level
    decreases limit - from
  {
    if from == limit || line(from) != level then 0
    else 1 + RunBefore(line, from + 1, limit, level)
  }

  lemma {:induction false} RunBeforeSample(line: nat -> bool, from: nat, limit: nat, level: bool, i: nat)
    requires from <= limit && from <= i < from + RunBefore(line, from, limit, level)
    ensures line(i) == level
    decreases limit - from
  {
    if i > from {
      RunBeforeSample(line, from + 1, limit, level, i);
    }
  }

  /** Every sample a run counts shows `level`. */
  lemma RunSamples(line: nat -> bool, start: nat, cap: nat, level: bool)
    ensures forall i :: start <= i < start + Run(line, start, cap, level) ==> line(i) == level
  {
    forall i | start <= i < start + Run(line, start, cap, level)
      ensures line(i) == level
    {
      RunBeforeSample(line, start, start + cap, level, i);
    }
  }

  /** A run is the longest prefix of samples showing `level`, up to `cap`: it is determined by that property. */
  lemma RunIsLongestPrefix(line: nat -> bool, start: nat, cap: nat, level: bool, n: nat)
    requires n <= cap
    requires forall i :: start <= i < start + n ==> line(i) == level
    requires n < cap ==> line(start + n) != level
    ensures Run(line, start, cap, level) == n
  {
    RunSamples(line, start, cap, level);
  }

  /** Where a wait ends (the tick), and whether it ran out of budget. */
  datatype WaitEnd = WaitEnd(tick: nat, timedOut: bool)

  /**
   * Polling from `start` for the line to show `level`, one sample per tick, with
   * a budget of `timeoutUs`. A timed-out wait ends after `timeoutUs` delays;
   * otherwise it ends on a sample showing `level` (WaitForSpec says more).
   */
  function WaitFor(line: nat -> bool, start: nat, timeoutUs: nat, level: bool): (w: WaitEnd)
    ensures w.timedOut ==> w.tick == start + timeoutUs
    ensures !w.timedOut ==> start <= w.tick <= start + timeoutUs && line(w.tick) == level
  {
    var n := Run(line, start, timeoutUs + 1, !level);
    if n == timeoutUs + 1 then WaitEnd(start + timeoutUs, true) else WaitEnd(start + n, false)
  }

  /**
   * A wait times out exactly when its first `timeoutUs + 1` samples all show the
   * other level; otherwise it stops at the first sample that shows `level`.
   */
  lemma WaitForSpec(line: nat -> bool, start: nat, timeoutUs: nat, level: bool)
    ensures var w := WaitFor(line, start, timeoutUs, level);
            && (w.timedOut <==> forall i :: start <= i <= start + timeoutUs ==> line(i) != level)
            && (!w.timedOut ==> forall i :: start <= i < w.tick ==> line(i) != level)
  {
    RunSamples(line, start, timeoutUs + 1, !level);
  }

  // ---------------------------------------------------------------------------
  // Bit slots

  /** The measured high times of the slots read so far, where the reading stopped, and whether a wait timed out. */
  datatype Capture = Capture(highs: seq<nat>, end: nat, timedOut: bool)

  /** A measured high time is in range: the slot starts on a high sample, and the measurement is capped. */
  predicate HighTimesInRange(highs: seq<nat>)
  {
    forall h <- highs :: 1 <= h <= HighCapUs
  }

  /**
   * One bit slot from tick `start`: wait for the line to go high, measure the
   * high pulse (capped), then wait for the line to go low. A timeout on the
   * first wait records nothing; a timeout on the second wait comes after the
   * high time was recorded.
   */
  function Slot(line: nat -> bool, start: nat): (c: Capture)
    ensures |c.highs| <= 1 && (!c.timedOut ==> |c.highs| == 1)
    ensures HighTimesInRange(c.highs)
    ensures start <= c.end <= start + SlotMaxUs
  {
    var up := WaitFor(line, start, EdgeTimeoutUs, true);
    if up.timedOut then Capture([], up.tick, true)
    else
      var h := Run(line, up.tick, HighCapUs, true);
      var down := WaitFor(line, up.tick + h, EdgeTimeoutUs, false);
      Capture([h], down.tick, down.timedOut)
  }

  /** Slot, wait by wait. */
  lemma SlotSteps(line: nat -> bool, start: nat)
    ensures var up := WaitFor(line, start, EdgeTimeoutUs, true);
            up.timedOut ==> Slot(line, start) == Capture([], up.tick, true)
    ensures var up := WaitFor(line, start, EdgeTimeoutUs, true);
            var h := Run(line, up.tick, HighCapUs, true);
            var down := WaitFor(line, up.tick + h, EdgeTimeoutUs, false);
            !up.timedOut ==> Slot(line, start) == Capture([h], down.tick, down.timedOut)
  {
  }

  /** The reading `c` followed by one more bit slot. */
  function Next(line: nat -> bool, c: Capture): (r: Capture)
    ensures |c.highs| <= |r.highs| <= |c.highs| + 1 && (!r.timedOut ==> |r.highs| == |c.highs| + 1)
    ensures c.end <= r.end <= c.end + SlotMaxUs
    ensures HighTimesInRange(c.highs) ==> HighTimesInRange(r.highs)
  {
    var d := Slot(line, c.end);
    Capture(c.highs + d.highs, d.end, d.timedOut)
  }

  /**
   * The rest of the 40-bit frame after the reading `c`: one bit slot after
   * another until 40 high times are recorded. The first timeout ends the
   * reading: a timed-out reading is returned unchanged, no further bit is read,
   * and the high times already recorded are kept.
   */
  function Frame(line: nat -> bool, c: Capture): (r: Capture)
    requires |c.highs| <= FrameBits
    ensures c.timedOut ==> r == c
    ensures |c.highs| <= |r.highs| <= FrameBits && (!r.timedOut ==> |r.highs| == FrameBits)
    ensures c.end <= r.end <= c.end + SlotMaxUs * (FrameBits - |c.highs|)
    ensures HighTimesInRange(c.highs) ==> HighTimesInRange(r.highs)
    decreases FrameBits - |c.highs|, if c.timedOut then 0 else 1
  {
    if c.timedOut || |c.highs| == FrameBits then c else Frame(line, Next(line, c))
  }

  /** A reading that has not timed out and is not complete goes on with one more slot. */
  lemma NextSlot(line: nat -> bool, c: Capture)
    requires !c.timedOut && |c.highs| < FrameBits
    ensures Frame(line, c) == Frame(line, Next(line, c))
  {
  }

  /** Nothing read yet; the first slot starts at `start`. */
  function NoBits(start: nat): Capture
  {
    Capture([], start, false)
  }

  // ---------------------------------------------------------------------------
  // Bits and bytes

  /** The bit a high time decodes to: 1 exactly when it exceeds the threshold. */
  predicate IsOne(highTime: nat)
  {
    highTime > OneThresholdUs
  }

  /** A high time of exactly 20 us is a 0 bit, and one of 21 us is a 1 bit. */
  lemma ThresholdBoundary(highTime: nat)
    ensures IsOne(highTime) <==> highTime >= 21
    ensures !IsOne(20) && IsOne(21)
  {
  }

  function Bits(highs: seq<nat>): (bits: seq<bool>)
    ensures |bits| == |highs|
  {
    seq(|highs|, j requires 0 <= j < |highs| => IsOne(highs[j]))
  }

  lemma BitsSnoc(highs: seq<nat>, h: nat)
    ensures Bits(highs + [h]) == Bits(highs) + [IsOne(h)]
  {
  }

  function Pow2(k: nat): (p: nat)
    ensures p >= 1
  {
    if k == 0 then 1 else 2 * Pow2(k - 1)
  }

  /** Bitwise OR of two naturals (the `|` of `*byte |= 1 << bit`), least significant bit first. */
  function BitOr(a: nat, b: nat): nat
    decreases a + b
  {
    if a == 0 && b == 0 then 0
    else 2 * BitOr(a / 2, b / 2) + (if a % 2 == 1 || b % 2 == 1 then 1 else 0)
  }

  lemma {:induction false} BitOrZero(a: nat)
    ensures BitOr(a, 0) == a
    decreases a
  {
    if a > 0 {
      BitOrZero(a / 2);
    }
  }

  /** `v << n`: `v` doubled `n` times. */
  function Shl(v: nat, n: nat): nat
  {
    if n == 0 then v else 2 * Shl(v, n - 1)
  }

  lemma {:induction false} ShlOne(n: nat)
    ensures Shl(1, n) == Pow2(n)
  {
    if n > 0 {
      ShlOne(n - 1);
    }
  }

  lemma {:induction false} ShlAdd(a: nat, b: nat, n: nat)
    ensures Shl(a + b, n) == Shl(a, n) + Shl(b, n)
  {
    if n > 0 {
      ShlAdd(a, b, n - 1);
    }
  }

  /** Doubling before the shift is one more place of shift. */
  lemma ShlDouble(v: nat, n: nat)
    ensures Shl(2 * v, n) == Shl(v, n + 1)
  {
    ShlAdd(v, v, n);
  }

  /** OR-ing in a bit that is still clear adds its weight. */
  lemma {:induction false} BitOrClearBit(c: nat, k: nat)
    ensures BitOr(Shl(c, k + 1), Pow2(k)) == Shl(c, k + 1) + Pow2(k)
  {
    BitOrHalves(Shl(c, k + 1), Pow2(k));
    if k == 0 {
      BitOrZero(c);
    } else {
      BitOrClearBit(c, k - 1);
    }
  }

  /** One step of `BitOr`: the two lowest bits OR-ed, above the OR of the rest. */
  lemma BitOrHalves(a: nat, b: nat)
    ensures BitOr(a, b) == 2 * BitOr(a / 2, b / 2) + (if a % 2 == 1 || b % 2 == 1 then 1 else 0)
  {
  }

  /** The value of a bit string read most significant bit first. */
  function Value(bits: seq<bool>): (v: nat)
    ensures v < Pow2(|bits|)
  {
    if bits == [] then 0
    else 2 * Value(bits[..|bits| - 1]) + (if bits[|bits| - 1] then 1 else 0)
  }

  lemma ValueSnoc(bits: seq<bool>, b: bool)
    ensures Value(bits + [b]) == 2 * Value(bits) + (if b then 1 else 0)
  {
    assert (bits + [b])[..|bits|] == bits;
  }

  /** The sum, over the set bits, of their weights: position `j` of `|bits|` weighs 2^(|bits| - 1 - j). */
  function BitSum(bits: seq<bool>): nat
  {
    if bits == [] then 0
    else (if bits[0] then Pow2(|bits| - 1) else 0) + BitSum(bits[1..])
  }

  lemma {:induction false} BitSumSnoc(bits: seq<bool>, b: bool)
    ensures BitSum(bits + [b]) == 2 * BitSum(bits) + (if b then 1 else 0)
    decreases |bits|
  {
    if bits != [] {
      assert (bits + [b])[1..] == bits[1..] + [b];
      BitSumSnoc(bits[1..], b);
      assert Pow2(|bits|) == 2 * Pow2(|bits| - 1);
    }
  }

  /** Reading bits most significant first gives the sum over set bits of their weights. */
  lemma {:induction false} ValueIsBitSum(bits: seq<bool>)
    ensures Value(bits) == BitSum(bits)
    decreases |bits|
  {
    if bits != [] {
      var init := bits[..|bits| - 1];
      assert bits == init + [bits[|bits| - 1]];
      ValueIsBitSum(init);
      BitSumSnoc(init, bits[|bits| - 1]);
    }
  }

  /** The `n` bits of `v`, most significant first. */
  function ToBits(v: nat, n: nat): (bits: seq<bool>)
    ensures |bits| == n
  {
    if n == 0 then [] else ToBits(v / 2, n - 1) + [v % 2 == 1]
  }

  lemma {:induction false} ValueOfToBits(v: nat, n: nat)
    requires v < Pow2(n)
    ensures Value(ToBits(v, n)) == v
    decreases n
  {
    if n > 0 {
      ValueOfToBits(v / 2, n - 1);
      ValueSnoc(ToBits(v / 2, n - 1), v % 2 == 1);
    }
  }

  lemma {:induction false} ToBitsOfValue(bits: seq<bool>)
    ensures ToBits(Value(bits), |bits|) == bits
    decreases |bits|
  {
    if bits != [] {
      var init := bits[..|bits| - 1];
      assert bits == init + [bits[|bits| - 1]];
      ToBitsOfValue(init);
    }
  }

  /** A byte's bits, most significant (bit 7) first. */
  function ByteToBits(b: u8): seq<bool>
  {
    ToBits(b, 8)
  }

  /**
   * The byte after its first `|bits|` slots: it starts at 0 and each 1 slot ORs
   * in the next bit from bit 7 down. It is the value of the slots so far,
   * shifted up to the top of the byte.
   */
  function ByteSoFar(bits: seq<bool>): (b: u8)
    requires |bits| <= 8
    ensures b == Shl(Value(bits), 8 - |bits|)
  {
    if bits == [] then 0
    else
      var init, k := bits[..|bits| - 1], 8 - |bits|;
      var v, w := Value(init), Value(bits);
      ValueShifted(bits, k);
      if bits[|bits| - 1] then
        ShiftInOne(v, w, k, 8 - |init|, ByteSoFar(init), Shl(w, k));
        BitOr(ByteSoFar(init), Pow2(k))
      else
        ShiftInZero(v, w, k, 8 - |init|, ByteSoFar(init), Shl(w, k));
        ByteSoFar(init)
  }

  lemma {:induction false} ValueShifted(bits: seq<bool>, k: nat)
    ensures Shl(Value(bits), k) < Pow2(|bits| + k)
  {
    if k > 0 {
      ValueShifted(bits, k - 1);
    }
  }

  function Min(a: nat, b: nat): nat
  {
    if a < b then a else b
  }

  /** The slots of byte `j` that have been read. */
  function ByteBits(bits: seq<bool>, j: nat): (s: seq<bool>)
    ensures |s| <= 8
  {
    bits[Min(8 * j, |bits|)..Min(8 * j + 8, |bits|)]
  }

  /** The 5-byte frame after the slots `bits`: byte `j` takes slots 8j to 8j+7. */
  function Pack(bits: seq<bool>): (frame: seq<u8>)
    ensures |frame| == FrameBytes
  {
    seq(FrameBytes, j requires 0 <= j < FrameBytes => ByteSoFar(ByteBits(bits, j)))
  }

  /**
   * One more slot, the slot for bit `bit` of byte `i` (bits counting down from
   * 7), ORs `1 << bit` into byte `i` when it is a 1; no other byte changes.
   */
  lemma PackSnoc(bits: seq<bool>, b: bool, i: nat, bit: nat)
    requires i < FrameBytes && bit < 8 && |bits| == 8 * i + (7 - bit)
    ensures BitOr(Pack(bits)[i], Pow2(bit)) < 256
    ensures Pack(bits + [b]) == Pack(bits)[i := if b then BitOr(Pack(bits)[i], Pow2(bit)) else Pack(bits)[i]]
  {
    var n := |bits|;
    var s := ByteBits(bits, i);
    assert s == bits[8 * i..n];
    assert ByteBits(bits + [b], i) == s + [b];
    ByteSoFarOne(s);
    if !b {
      ByteSoFarZero(s);
    }
    forall j | 0 <= j < FrameBytes && j != i
      ensures ByteBits(bits + [b], j) == ByteBits(bits, j)
    {
      ByteBitsOther(bits, b, i, j);
    }
  }

  /** A slot of byte `i` leaves the slots of every other byte as they were. */
  lemma ByteBitsOther(bits: seq<bool>, b: bool, i: nat, j: nat)
    requires |bits| < 8 * i + 8 <= 8 * FrameBytes && 8 * i <= |bits| && j != i
    ensures ByteBits(bits + [b], j) == ByteBits(bits, j)
  {
    var n := |bits|;
    if j < i {
      assert Min(8 * j, n + 1) == Min(8 * j, n) == 8 * j && Min(8 * j + 8, n + 1) == Min(8 * j + 8, n) == 8 * j + 8;
      assert (bits + [b])[8 * j..8 * j + 8] == bits[8 * j..8 * j + 8];
    } else {
      assert Min(8 * j, n + 1) == Min(8 * j + 8, n + 1) == n + 1;
      assert Min(8 * j, n) == Min(8 * j + 8, n) == n;
    }
  }

  /** Within one byte: a 1 slot ORs in the next bit down from 7, which keeps the byte below 256. */
  lemma ByteSoFarOne(s: seq<bool>)
    requires |s| < 8
    ensures ByteSoFar(s + [true]) == BitOr(ByteSoFar(s), Pow2(7 - |s|)) < 256
  {
    var t := s + [true];
    assert t[..|s|] == s && 8 - |t| == 7 - |s|;
  }

  /** Within one byte: a 0 slot leaves the byte alone. */
  lemma ByteSoFarZero(s: seq<bool>)
    requires |s| < 8
    ensures ByteSoFar(s + [false]) == ByteSoFar(s)
  {
    assert (s + [false])[..|s|] == s;
  }

  /** Shifting `v` with a 1 appended by `k` ORs the weight of bit `k` into `v` shifted by `k + 1`. */
  lemma ShiftInOne(v: nat, w: nat, k: nat, e: nat, before: nat, after: nat)
    requires w == 2 * v + 1 && e == k + 1 && before == Shl(v, e) && after == Shl(w, k)
    ensures after == BitOr(before, Pow2(k))
  {
    ShiftIn(v, w, k, true);
    BitOrClearBit(v, k);
  }

  /** Shifting `v` with a 0 appended by `k` is shifting `v` by `k + 1`. */
  lemma ShiftInZero(v: nat, w: nat, k: nat, e: nat, before: nat, after: nat)
    requires w == 2 * v && e == k + 1 && before == Shl(v, e) && after == Shl(w, k)
    ensures after == before
  {
    ShiftIn(v, w, k, false);
  }

  /** Appending bit `b` below `v` and shifting by `k` is `v` shifted by `k + 1`, plus `b`'s weight. */
  lemma ShiftIn(v: nat, w: nat, k: nat, b: bool)
    requires w == 2 * v + (if b then 1 else 0)
    ensures b ==> Shl(w, k) == Shl(v, k + 1) + Pow2(k)
    ensures !b ==> Shl(w, k) == Shl(v, k + 1)
  {
    ShlDouble(v, k);
    if b {
      ShlAdd(2 * v, 1, k);
      ShlOne(k);
    }
  }

  /**
   * Once its 8 slots are in, byte `j` is the value of slots 8j to 8j+7 read
   * most significant first: the sum of `2^i` over its set bits `i`.
   */
  lemma PackFull(bits: seq<bool>, j: nat)
    requires j < FrameBytes && 8 * j + 8 <= |bits| <= FrameBits
    ensures Pack(bits)[j] == Value(bits[8 * j..8 * j + 8])
    ensures Pack(bits)[j] == BitSum(bits[8 * j..8 * j + 8])
  {
    ValueIsBitSum(bits[8 * j..8 * j + 8]);
  }

  /** Later slots never change a byte whose 8 slots are complete. */
  lemma PackKeepsCompleteBytes(bits: seq<bool>, more: seq<bool>, j: nat)
    requires |bits + more| <= FrameBits && 8 * j + 8 <= |bits|
    ensures Pack(bits + more)[j] == Pack(bits)[j]
  {
    assert (bits + more)[8 * j..8 * j + 8] == bits[8 * j..8 * j + 8];
  }

  /** The 40 slots a sensor sends for a frame. */
  function FrameToBits(frame: seq<u8>): (bits: seq<bool>)
    requires |frame| == FrameBytes
    ensures |bits| == FrameBits
  {
    ByteToBits(frame[0]) + ByteToBits(frame[1]) + ByteToBits(frame[2]) + ByteToBits(frame[3]) + ByteToBits(frame[4])
  }

  /** Packing the 40 bits of a frame gives the frame back. */
  lemma PackFrameToBits(frame: seq<u8>)
    requires |frame| == FrameBytes
    ensures Pack(FrameToBits(frame)) == frame
  {
    var bits := FrameToBits(frame);
    forall j | 0 <= j < FrameBytes
      ensures Pack(bits)[j] == frame[j]
    {
      assert bits[8 * j..8 * j + 8] == ByteToBits(frame[j]);
      ValueOfToBits(frame[j], 8);
    }
  }

  /** And the bits of the packed frame are the bits read. */
  lemma FrameToBitsOfPack(bits: seq<bool>)
    requires |bits| == FrameBits
    ensures FrameToBits(Pack(bits)) == bits
  {
    var frame := Pack(bits);
    forall j | 0 <= j < FrameBytes
      ensures ByteToBits(frame[j]) == bits[8 * j..8 * j + 8]
    {
      ToBitsOfValue(bits[8 * j..8 * j + 8]);
    }
    assert bits == bits[0..8] + bits[8..16] + bits[16..24] + bits[24..32] + bits[32..40];
  }

  // ---------------------------------------------------------------------------
  // Checksum and parsing

  /** `u8::wrapping_add`. */
  function WrappingAdd(a: u8, b: u8): (r: u8)
    ensures a + b < 256 ==> r == a + b
    ensures a + b >= 256 ==> r == a + b - 256
  {
    (a + b) % 256
  }

  /** `data[0].wrapping_add(data[1]).wrapping_add(data[2]).wrapping_add(data[3])`. */
  function Checksum(frame: seq<u8>): (c: u8)
    requires |frame| == FrameBytes
    ensures c == (frame[0] as int + frame[1] + frame[2] + frame[3]) % 256
  {
    WrappingAdd(WrappingAdd(WrappingAdd(frame[0], frame[1]), frame[2]), frame[3])
  }

  /** Integer part and tenths byte combined into tenths (`int + frac * 0.1`, times ten). */
  function Tenths(integral: u8, fraction: u8): nat
  {
    10 * integral + fraction
  }

  /** The frame's integrity check: the last byte is the sum of the first four, modulo 256. */
  predicate ChecksumHolds(frame: seq<u8>)
    requires |frame| == FrameBytes
  {
    (frame[0] as int + frame[1] + frame[2] + frame[3]) % 256 == frame[4]
  }

  /** The checksum test and parse of a received frame. */
  function Validate(frame: seq<u8>): (r: ReadResult)
    requires |frame| == FrameBytes
    ensures r.Err? <==> !ChecksumHolds(frame)
    ensures r.Err? ==> r.error == ChecksumError
    ensures r.Ok? ==> r.reading == Reading(10 * frame[2] as int + frame[3], 10 * frame[0] as int + frame[1])
  {
    if Checksum(frame) != frame[4] then Err(ChecksumError)
    else Ok(Reading(Tenths(frame[2], frame[3]), Tenths(frame[0], frame[1])))
  }

  /** 0x32 0x00 0x18 0x00 with checksum 0x4A: 50.0 %RH and 24.0 degrees. */
  lemma ValidFrameParses()
    ensures Validate([0x32, 0x00, 0x18, 0x00, 0x4A]) == Ok(Reading(240, 500))
  {
  }

  /** The same frame with checksum byte 0x4B is rejected. */
  lemma CorruptFrameRejected()
    ensures Validate([0x32, 0x00, 0x18, 0x00, 0x4B]) == Err(ChecksumError)
  {
  }

  /** The pulse trace: the high times of the first 8 slots, in order; unused entries stay 0. */
  function PulseTrace(highs: seq<nat>): (trace: seq<nat>)
    ensures |trace| == 8
  {
    seq(8, j requires 0 <= j < 8 => if j < |highs| then highs[j] else 0)
  }

  // ---------------------------------------------------------------------------
  // A whole transaction, from the moment the pin becomes an input

  /** The three acknowledge waits: line low, then high, then low again (start of data). */
  function Handshake(line: nat -> bool, start: nat): (w: WaitEnd)
    ensures start <= w.tick <= start + 3 * EdgeTimeoutUs
    ensures !w.timedOut ==> !line(w.tick)
  {
    var ackLow := WaitFor(line, start, EdgeTimeoutUs, false);
    if ackLow.timedOut then ackLow
    else
      var ackHigh := WaitFor(line, ackLow.tick, EdgeTimeoutUs, true);
      if ackHigh.timedOut then ackHigh
      else WaitFor(line, ackHigh.tick, EdgeTimeoutUs, false)
  }

  /** What one read produces: its result, the tick where it ends, and the high times it measured. */
  datatype Outcome = Outcome(result: ReadResult, end: nat, highs: seq<nat>)

  /**
   * The line side of one read from tick `start` (just after the pin is
   * released): the acknowledge, then the 40 bit slots. A missed acknowledge
   * edge is a timed-out reading with no high times.
   */
  function Receive(line: nat -> bool, start: nat): (c: Capture)
    ensures start <= c.end <= start + MaxBusyUs
    ensures |c.highs| <= FrameBits && (!c.timedOut ==> |c.highs| == FrameBits)
  {
    var hs := Handshake(line, start);
    if hs.timedOut then Capture([], hs.tick, true) else Frame(line, NoBits(hs.tick))
  }

  /** Receive, case by case. */
  lemma ReceiveCases(line: nat -> bool, start: nat)
    ensures var hs := Handshake(line, start); hs.timedOut ==> Receive(line, start) == Capture([], hs.tick, true)
    ensures var hs := Handshake(line, start); !hs.timedOut ==> Receive(line, start) == Frame(line, NoBits(hs.tick))
  {
  }

  /** The result of a reading: a timeout, or the checksum test and parse of the frame. */
  function Result(c: Capture): ReadResult
  {
    if c.timedOut then Err(Timeout) else Validate(Pack(Bits(c.highs)))
  }

  /** The whole read from tick `start`. */
  function Transaction(line: nat -> bool, start: nat): (o: Outcome)
    ensures start <= o.end <= start + MaxBusyUs
    ensures |o.highs| <= FrameBits && HighTimesInRange(o.highs)
    ensures o.result != Err(Timeout) ==> |o.highs| == FrameBits
  {
    var c := Receive(line, start);
    Outcome(Result(c), c.end, c.highs)
  }

  /**
   * Once all 40 bits are in, the checksum decides: the read fails with
   * ChecksumError exactly when the received frame's checksum does not hold,
   * and otherwise succeeds with humidity from bytes 0 and 1 and temperature
   * from bytes 2 and 3.
   */
  lemma ChecksumDecides(line: nat -> bool, start: nat)
    ensures var o := Transaction(line, start);
            var f := Pack(Bits(o.highs));
            o.result != Err(Timeout) ==>
              && (o.result == Err(ChecksumError) <==> !ChecksumHolds(f))
              && (o.result.Ok? ==> o.result.reading == Reading(10 * f[2] as int + f[3], 10 * f[0] as int + f[1]))
  {
  }

  /** A read times out exactly when an acknowledge edge or a bit edge is missed. */
  lemma TimeoutIffEdgeMissed(line: nat -> bool, start: nat)
    ensures var hs := Handshake(line, start);
            Transaction(line, start).result == Err(Timeout) <==>
              hs.timedOut || Frame(line, NoBits(hs.tick)).timedOut
  {
  }

  /** No acknowledge: a line that stays high for the first 100 us times out at tick start + 100. */
  lemma NoAcknowledgeTimesOut(line: nat -> bool, start: nat)
    requires forall i :: start <= i <= start + EdgeTimeoutUs ==> line(i)
    ensures Transaction(line, start) == Outcome(Err(Timeout), start + EdgeTimeoutUs, [])
  {
  }

  /** `let mut data = [0u8; 5]; let mut pulse_widths = [0u32; 8];` */
  method NewBuffers() returns (data: array<u8>, pulseWidths: array<nat>)
    ensures fresh(data) && fresh(pulseWidths)
    ensures data.Length == FrameBytes && pulseWidths.Length == 8
    ensures data[..] == Pack([]) && pulseWidths[..] == PulseTrace([])
  {
    data := new u8[FrameBytes](_ => 0);
    pulseWidths := new nat[8](_ => 0);
    NothingPacked(data[..]);
    NothingTraced(pulseWidths[..]);
  }

  /** Five zero bytes are the frame before any slot. */
  lemma NothingPacked(frame: seq<u8>)
    requires |frame| == FrameBytes && forall j :: 0 <= j < FrameBytes ==> frame[j] == 0
    ensures frame == Pack([])
  {
  }

  /** Eight zeros are the pulse trace before any slot. */
  lemma NothingTraced(trace: seq<nat>)
    requires |trace| == 8 && forall j :: 0 <= j < 8 ==> trace[j] == 0
    ensures trace == PulseTrace([])
  {
  }

  /**
   * `if pulse_idx < 8 { pulse_widths[pulse_idx] = high_time; pulse_idx += 1; }`:
   * the first eight high times are kept.
   */
  method RecordPulse(pulseWidths: array<nat>, pulseIdx: nat, ghost highs: seq<nat>, highTime: nat) returns (next: nat)
    requires pulseWidths.Length == 8
    requires pulseWidths[..] == PulseTrace(highs) && pulseIdx == Min(|highs|, 8)
    modifies pulseWidths
    ensures pulseWidths[..] == PulseTrace(highs + [highTime]) && next == Min(|highs| + 1, 8)
  {
    next := pulseIdx;
    if next < 8 {
      pulseWidths[next] := highTime;
      next := next + 1;
    }
    assert pulseWidths[..] == PulseTrace(highs + [highTime]);
  }

  /** `if high_time > 20 { *byte |= 1 << bit; }`: bit `bit` of byte `i` is the next bit of the frame. */
  method RecordBit(data: array<u8>, i: nat, bit: nat, ghost highs: seq<nat>, highTime: nat)
    requires data.Length == FrameBytes
    requires i < FrameBytes && bit < 8 && |highs| == 8 * i + (7 - bit)
    requires data[..] == Pack(Bits(highs))
    modifies data
    ensures data[..] == Pack(Bits(highs + [highTime]))
  {
    PackSnoc(Bits(highs), IsOne(highTime), i, bit);
    BitsSnoc(highs, highTime);
    var cur := data[i];
    assert cur == Pack(Bits(highs))[i];
    if highTime > OneThresholdUs {
      data[i] := BitOr(cur, Pow2(bit));
    }
  }

  // ---------------------------------------------------------------------------
  // The driver

  class Dht11 {
    /** The pin: its mode and the level it drives in output mode. */
    var mode: Mode
    var driven: bool
    /** Microseconds since the driver was created. */
    var tick: nat
    /** The level the sensor and the pull-up put on the line at each tick. */
    const line: nat -> bool
    const delay: DwtDelay

    /** `Dht11::new`: the pin is left an output driven high. */
    constructor (line: nat -> bool, cpuFreqHz: u32)
      ensures mode == Output && driven
      ensures this.line == line && tick == 0
      ensures delay.cyclesPerUs == CyclesPerUs(cpuFreqHz)
    {
      this.line := line;
      mode := Output;
      driven := true;
      tick := 0;
      delay := new DwtDelay(cpuFreqHz);
    }

    /** The level `is_high` sees at each tick: the line in input mode, the driven level in output mode. */
    ghost function Wire(): nat -> bool
      reads this`mode, this`driven
    {
      if mode == InputPullUp then line else var d := driven; t => d
    }

    function IsHigh(): (high: bool)
      reads this
      ensures high == Wire()(tick)
    {
      if mode == InputPullUp then line(tick) else driven
    }

    method SetAsOutput()
      modifies this`mode
      ensures mode == Output
    {
      mode := Output;
    }

    method SetAsInput()
      modifies this`mode
      ensures mode == InputPullUp
    {
      mode := InputPullUp;
    }

    method SetHigh()
      modifies this`driven
      ensures driven
    {
      driven := true;
    }

    method SetLow()
      modifies this`driven
      ensures !driven
    {
      driven := false;
    }

    /** `delay.delay_1us()`: one microsecond passes. */
    method Delay1us()
      modifies this`tick
      ensures tick == old(tick) + 1
    {
      tick := tick + 1;
    }

    /** `Timer::after_millis` / `Timer::after_micros`: the async read is suspended for `us` microseconds. */
    method Sleep(us: nat)
      modifies this`tick
      ensures tick == old(tick) + us
    {
      tick := tick + us;
    }

    /** `wait_for_low(timeout_us)`. */
    method WaitForLow(timeoutUs: u32) returns (r: Status)
      modifies this`tick
      ensures var w := WaitFor(Wire(), old(tick), timeoutUs, false);
              tick == w.tick && (r == Pass || r == Fail(Timeout)) && (r.Fail? <==> w.timedOut)
    {
      var count: nat := 0;
      while IsHigh()
        invariant count <= timeoutUs && tick == old(tick) + count
        invariant forall i :: old(tick) <= i < tick ==> Wire()(i)
        decreases timeoutUs - count
      {
        count := count + 1;
        if count > timeoutUs {
          RunIsLongestPrefix(Wire(), old(tick), timeoutUs + 1, true, count);
          return Fail(Timeout);
        }
        Delay1us();
      }
      RunIsLongestPrefix(Wire(), old(tick), timeoutUs + 1, true, count);
      return Pass;
    }

    /** `wait_for_high(timeout_us)`: the mirror image of WaitForLow. */
    method WaitForHigh(timeoutUs: u32) returns (r: Status)
      modifies this`tick
      ensures var w := WaitFor(Wire(), old(tick), timeoutUs, true);
              tick == w.tick && (r == Pass || r == Fail(Timeout)) && (r.Fail? <==> w.timedOut)
    {
      var count: nat := 0;
      while !IsHigh()
        invariant count <= timeoutUs && tick == old(tick) + count
        invariant forall i :: old(tick) <= i < tick ==> !Wire()(i)
        decreases timeoutUs - count
      {
        count := count + 1;
        if count > timeoutUs {
          RunIsLongestPrefix(Wire(), old(tick), timeoutUs + 1, false, count);
          return Fail(Timeout);
        }
        Delay1us();
      }
      RunIsLongestPrefix(Wire(), old(tick), timeoutUs + 1, false, count);
      return Pass;
    }

    /** The high-pulse measurement of a bit slot: consecutive high samples, at most 200. */
    method MeasureHigh() returns (highTime: nat)
      modifies this`tick
      ensures highTime == Run(Wire(), old(tick), HighCapUs, true)
      ensures tick == old(tick) + highTime
    {
      highTime := 0;
      while IsHigh() && highTime < HighCapUs
        invariant highTime <= HighCapUs && tick == old(tick) + highTime
        invariant forall i :: old(tick) <= i < tick ==> Wire()(i)
        decreases HighCapUs - highTime
      {
        Delay1us();
        highTime := highTime + 1;
      }
      RunIsLongestPrefix(Wire(), old(tick), HighCapUs, true, highTime);
    }

    /**
     * The 40-bit loop of `read`: five bytes, bits 7 down to 0 of each, into the
     * zeroed arrays `data` and `pulseWidths`. Returns at the first timeout.
     */
    method ReadBits(data: array<u8>, pulseWidths: array<nat>) returns (r: Status, pulseIdx: nat, ghost highs: seq<nat>)
      requires mode == InputPullUp
      requires data.Length == FrameBytes && pulseWidths.Length == 8
      requires data[..] == Pack([]) && pulseWidths[..] == PulseTrace([])
      modifies this`tick, data, pulseWidths
      ensures var c := Frame(line, NoBits(old(tick)));
              highs == c.highs && tick == c.end && (r == Pass || r == Fail(Timeout)) && (r.Fail? <==> c.timedOut)
      ensures data[..] == Pack(Bits(highs))
      ensures pulseWidths[..] == PulseTrace(highs) && pulseIdx == Min(|highs|, 8)
    {
      ghost var goal := Frame(line, NoBits(tick));
      pulseIdx := 0;
      highs := [];
      for i := 0 to FrameBytes
        invariant |highs| == 8 * i
        invariant Frame(line, Capture(highs, tick, false)) == goal
        invariant data[..] == Pack(Bits(highs))
        invariant pulseWidths[..] == PulseTrace(highs) && pulseIdx == Min(|highs|, 8)
      {
        r, pulseIdx, highs := ReadByte(data, pulseWidths, i, pulseIdx, highs);
        if r.Fail? {
          return;
        }
      }
      r := Pass;
    }

    /**
     * The eight slots of byte `i`, bits 7 down to 0. The rest of the frame
     * read from the new state is the rest of the frame read from the old one;
     * on a timeout the new state is where the reading of the frame ends.
     */
    method ReadByte(data: array<u8>, pulseWidths: array<nat>, i: nat, pulseIdx: nat, ghost highs: seq<nat>)
      returns (r: Status, pulseIdx': nat, ghost highs': seq<nat>)
      requires mode == InputPullUp
      requires data.Length == FrameBytes && pulseWidths.Length == 8
      requires i < FrameBytes && |highs| == 8 * i
      requires data[..] == Pack(Bits(highs))
      requires pulseWidths[..] == PulseTrace(highs) && pulseIdx == Min(|highs|, 8)
      modifies this`tick, data, pulseWidths
      ensures r == Pass || r == Fail(Timeout)
      ensures r == Pass ==> |highs'| == |highs| + 8
      ensures r == Pass ==>
                Frame(line, Capture(highs', tick, false)) == Frame(line, Capture(highs, old(tick), false))
      ensures r.Fail? ==> Capture(highs', tick, true) == Frame(line, Capture(highs, old(tick), false))
      ensures data[..] == Pack(Bits(highs'))
      ensures pulseWidths[..] == PulseTrace(highs') && pulseIdx' == Min(|highs'|, 8)
    {
      ghost var goal := Frame(line, Capture(highs, tick, false));
      pulseIdx', highs' := pulseIdx, highs;
      r := Pass;
      for bit := 8 downto 0
        invariant r == Pass && |highs'| == 8 * i + (8 - bit)
        invariant Frame(line, Capture(highs', tick, false)) == goal
        invariant data[..] == Pack(Bits(highs'))
        invariant pulseWidths[..] == PulseTrace(highs') && pulseIdx' == Min(|highs'|, 8)
      {
        r, pulseIdx', highs' := ReadFrameSlot(data, pulseWidths, i, bit, pulseIdx', highs');
        if r.Fail? {
          return;
        }
      }
    }

    /** ReadSlot, as one step of the frame: the rest of the frame is read on from the new state. */
    method ReadFrameSlot(data: array<u8>, pulseWidths: array<nat>, i: nat, bit: nat, pulseIdx: nat, ghost highs: seq<nat>)
      returns (r: Status, pulseIdx': nat, ghost highs': seq<nat>)
      requires mode == InputPullUp
      requires data.Length == FrameBytes && pulseWidths.Length == 8
      requires i < FrameBytes && bit < 8 && |highs| == 8 * i + (7 - bit)
      requires data[..] == Pack(Bits(highs))
      requires pulseWidths[..] == PulseTrace(highs) && pulseIdx == Min(|highs|, 8)
      modifies this`tick, data, pulseWidths
      ensures r == Pass || r == Fail(Timeout)
      ensures r == Pass ==> |highs'| == |highs| + 1
      ensures r == Pass ==>
                Frame(line, Capture(highs', tick, false)) == Frame(line, Capture(highs, old(tick), false))
      ensures r.Fail? ==> Capture(highs', tick, true) == Frame(line, Capture(highs, old(tick), false))
      ensures data[..] == Pack(Bits(highs'))
      ensures pulseWidths[..] == PulseTrace(highs') && pulseIdx' == Min(|highs'|, 8)
    {
      ghost var c := Capture(highs, tick, false);
      NextSlot(line, c);
      r, pulseIdx', highs' := ReadSlot(data, pulseWidths, i, bit, pulseIdx, highs);
      assert Next(line, c) == Capture(highs', tick, r.Fail?);
    }

    /**
     * One bit slot of the 40-bit loop, for bit `bit` of byte `i`: wait for the
     * line to go high, measure the high pulse, record it, then wait for the
     * line to go low.
     */
    method ReadSlot(data: array<u8>, pulseWidths: array<nat>, i: nat, bit: nat, pulseIdx: nat, ghost highs: seq<nat>)
      returns (r: Status, pulseIdx': nat, ghost highs': seq<nat>)
      requires mode == InputPullUp
      requires data.Length == FrameBytes && pulseWidths.Length == 8
      requires i < FrameBytes && bit < 8 && |highs| == 8 * i + (7 - bit)
      requires data[..] == Pack(Bits(highs))
      requires pulseWidths[..] == PulseTrace(highs) && pulseIdx == Min(|highs|, 8)
      modifies this`tick, data, pulseWidths
      ensures var d := Slot(line, old(tick));
              highs' == highs + d.highs && tick == d.end && (r == Pass || r == Fail(Timeout)) && (r.Fail? <==> d.timedOut)
      ensures data[..] == Pack(Bits(highs'))
      ensures pulseWidths[..] == PulseTrace(highs') && pulseIdx' == Min(|highs'|, 8)
    {
      SlotSteps(line, tick);
      pulseIdx', highs' := pulseIdx, highs;
      var highTime;
      r, highTime := AwaitPulse();
      if r.Fail? {
        assert highs + [] == highs;
        return;
      }
      pulseIdx' := RecordPulse(pulseWidths, pulseIdx, highs, highTime);
      RecordBit(data, i, bit, highs, highTime);
      highs' := highs + [highTime];
      assert Wire() == line;
      r := WaitForLow(EdgeTimeoutUs);
    }

    /** The first half of a bit slot: wait for the line to go high, then measure the high pulse. */
    method AwaitPulse() returns (r: Status, highTime: nat)
      requires mode == InputPullUp
      modifies this`tick
      ensures var up := WaitFor(line, old(tick), EdgeTimeoutUs, true);
              (r == Pass || r == Fail(Timeout)) && (r.Fail? <==> up.timedOut)
      ensures var up := WaitFor(line, old(tick), EdgeTimeoutUs, true);
              r.Fail? ==> tick == up.tick
      ensures var up := WaitFor(line, old(tick), EdgeTimeoutUs, true);
              r == Pass ==> highTime == Run(line, up.tick, HighCapUs, true) && tick == up.tick + highTime
    {
      assert Wire() == line;
      highTime := 0;
      r := WaitForHigh(EdgeTimeoutUs);
      if r.Fail? {
        return;
      }
      highTime := MeasureHigh();
    }

    /**
     * `read`: the start signal, the three acknowledge waits, the 40 bit slots,
     * parking the pin, the checksum and the parse. `raw` and `pulses` are the
     * final contents of `data` and `pulse_widths`.
     */
    method Read() returns (r: ReadResult, ghost raw: seq<u8>, ghost pulses: seq<nat>)
      modifies this`mode, this`driven, this`tick
      ensures var o := Transaction(line, old(tick) + StartLowUs + ReleaseHighUs);
              r == o.result && tick == o.end && raw == Pack(Bits(o.highs)) && pulses == PulseTrace(o.highs)
      ensures driven
      ensures r == Err(Timeout) ==> mode == InputPullUp
      ensures r != Err(Timeout) ==> mode == Output
    {
      SendStart();
      r, raw, pulses := Acquire();
    }

    /** `read` after the start signal, from the moment the pin is an input. */
    method Acquire() returns (r: ReadResult, ghost raw: seq<u8>, ghost pulses: seq<nat>)
      requires mode == InputPullUp && driven
      modifies this`mode, this`driven, this`tick
      ensures var c := Receive(line, old(tick));
              r == Result(c) && tick == c.end && raw == Pack(Bits(c.highs)) && pulses == PulseTrace(c.highs)
      ensures driven
      ensures r == Err(Timeout) ==> mode == InputPullUp
      ensures r != Err(Timeout) ==> mode == Output
    {
      var status, data, pulseWidths, pulseIdx, highs := ReceiveFrame();
      raw, pulses := data[..], pulseWidths[..];
      if status.Fail? {
        return Err(status.error), raw, pulses;
      }
      SetAsOutput();
      SetHigh();
      r := Decode(data);
    }

    /**
     * The part of `read` in input mode: the three acknowledge waits, then the
     * 40 bit slots into fresh zeroed arrays `data` and `pulseWidths` (left
     * zeroed when the acknowledge fails).
     */
    method ReceiveFrame() returns (r: Status, data: array<u8>, pulseWidths: array<nat>, pulseIdx: nat, ghost highs: seq<nat>)
      requires mode == InputPullUp
      modifies this`tick
      ensures var c := Receive(line, old(tick));
              highs == c.highs && tick == c.end && (r == Pass || r == Fail(Timeout)) && (r.Fail? <==> c.timedOut)
      ensures data.Length == FrameBytes && pulseWidths.Length == 8
      ensures data[..] == Pack(Bits(highs)) && pulseWidths[..] == PulseTrace(highs) && pulseIdx == Min(|highs|, 8)
    {
      ReceiveCases(line, tick);
      data, pulseWidths := NewBuffers();
      pulseIdx, highs := 0, [];
      r := AwaitResponse();
      if r.Fail? {
        assert Bits([]) == [];
        return;
      }
      r, pulseIdx, highs := ReadBits(data, pulseWidths);
    }

    /** The start signal: drive the line low for 20 ms, high for 40 us, then release it to the pull-up. */
    method SendStart()
      modifies this`mode, this`driven, this`tick
      ensures mode == InputPullUp && driven
      ensures tick == old(tick) + StartLowUs + ReleaseHighUs
    {
      SetAsOutput();
      SetLow();
      Sleep(StartLowUs);
      SetHigh();
      Sleep(ReleaseHighUs);
      SetAsInput();
    }

    /** The sensor's response: low, high, then low again, each within 100 us. */
    method AwaitResponse() returns (r: Status)
      requires mode == InputPullUp
      modifies this`tick
      ensures var hs := Handshake(line, old(tick));
              tick == hs.tick && (r == Pass || r == Fail(Timeout)) && (r.Fail? <==> hs.timedOut)
    {
      assert Wire() == line;
      r := WaitForLow(EdgeTimeoutUs);
      if r.Fail? {
        return;
      }
      r := WaitForHigh(EdgeTimeoutUs);
      if r.Fail? {
        return;
      }
      r := WaitForLow(EdgeTimeoutUs);
    }
  }

  /** The checksum test and the parse of a complete frame. Nothing is changed. */
  method Decode(data: array<u8>) returns (r: ReadResult)
    requires data.Length == FrameBytes
    ensures r == Validate(data[..])
  {
    var checksum := WrappingAdd(WrappingAdd(WrappingAdd(data[0], data[1]), data[2]), data[3]);
    if checksum != data[4] {
      return Err(ChecksumError);
    }
    var humidity := Tenths(data[0], data[1]);
    var temperature := Tenths(data[2], data[3]);
    r := Ok(Reading(temperature, humidity));
  }
}
