// Cycle-counter based microsecond delay (the DWT delay provider).
//
// The hardware cycle counter is a free-running 32-bit register; here it is an
// injected sequence of readings, so that the modular arithmetic and the exit
// condition of the polling loop can be stated and proved.

module DwtDelay {

  /** The modulus of a 32-bit register. */
  const U32Modulus: int := 0x1_0000_0000

  /** Cycles in one microsecond of a 1 MHz clock. */
  const HzPerMhz: int := 1_000_000

  type u32 = x: int | 0 <= x < 0x1_0000_0000

  /** `cpu_freq_hz / 1_000_000`: unsigned integer division, rounding down. */
  function CyclesPerUs(cpuFreqHz: u32): (c: u32)
    ensures c * HzPerMhz <= cpuFreqHz < (c + 1) * HzPerMhz
  {
    cpuFreqHz / HzPerMhz
  }

  /** `a.wrapping_sub(b)` on `u32`: the difference modulo 2^32. */
  function WrappingSub(a: u32, b: u32): (r: u32)
    ensures b <= a ==> r == a - b
    ensures a < b ==> r == U32Modulus - (b - a)
  {
    (a - b) % U32Modulus
  }

  /** Cycles elapsed between a start reading and a later reading. */
  function Elapsed(start: u32, current: u32): u32
  {
    WrappingSub(current, start)
  }

  /**
   * Elapsed time is right even when the counter wrapped: if the counter stood
   * at `s` (unbounded cycle count) at the start reading and at `s + d` at the
   * later one, with fewer than 2^32 cycles in between, the wrapped difference
   * of the two 32-bit readings is exactly `d`.
   */
  lemma ElapsedAcrossWrap(s: nat, d: nat)
    requires d < U32Modulus
    ensures Elapsed(s % U32Modulus, (s + d) % U32Modulus) == d
  {
  }

  /** True when some loop reading (index 1 onwards) is far enough past `counter[0]`. */
  predicate ReachesThreshold(counter: seq<u32>, cycles: u32)
  {
    exists j :: 1 <= j < |counter| && Elapsed(counter[0], counter[j]) >= cycles
  }

  class DwtDelay {
    const cyclesPerUs: u32

    /** `DwtDelay::new`: derives the cycles per microsecond from the clock frequency. */
    constructor (cpuFreqHz: u32)
      ensures cyclesPerUs == CyclesPerUs(cpuFreqHz)
    {
      cyclesPerUs := CyclesPerUs(cpuFreqHz);
    }

    /**
     * `delay_1us`: `counter[0]` is the start reading and `counter[1..]` are the
     * readings taken by the polling loop. Returns the index of the reading at
     * which the loop breaks: the first whose wrapped elapsed value reaches
     * `cyclesPerUs`. The object is not changed (`cyclesPerUs` is a constant).
     */
    method Delay1us(counter: seq<u32>) returns (k: nat)
      requires ReachesThreshold(counter, cyclesPerUs)
      ensures 1 <= k < |counter|
      ensures Elapsed(counter[0], counter[k]) >= cyclesPerUs
      ensures forall j :: 1 <= j < k ==> Elapsed(counter[0], counter[j]) < cyclesPerUs
      ensures cyclesPerUs == 0 ==> k == 1
    {
      var start := counter[0];
      ghost var w :| 1 <= w < |counter| && Elapsed(start, counter[w]) >= cyclesPerUs;
      k := 1;
      while true
        invariant 1 <= k <= w
        invariant cyclesPerUs == 0 ==> k == 1
        invariant forall j :: 1 <= j < k ==> Elapsed(start, counter[j]) < cyclesPerUs
        decreases w - k
      {
        var current := counter[k];
        var elapsed := WrappingSub(current, start);
        if elapsed >= cyclesPerUs {
          break;
        }
        k := k + 1;
      }
    }
  }

  /** The driver's usual 168 MHz clock gives 168 cycles per microsecond. */
  lemma CyclesAt168Mhz()
    ensures CyclesPerUs(168_000_000) == 168
  {
  }

  /** Below 1 MHz the derived cycle count is zero, so every delay is a no-op. */
  lemma CyclesBelowOneMhz(cpuFreqHz: u32)
    requires cpuFreqHz < HzPerMhz
    ensures CyclesPerUs(cpuFreqHz) == 0
  {
  }
}
