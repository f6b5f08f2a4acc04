# DHT11 driver model

A Dafny model of a bit-banged DHT11 temperature/humidity sensor driver for an
STM32 board, and of the cycle-counter delay it polls with.

The driver (`Dht11::read`) works in six steps:
1. It sends the start signal: the pin is driven low for 20 ms, then high for 40 us, then released to an input with pull-up.
2. It waits for the sensor's three acknowledge edges: low, high, then low again. Each wait has a 100 us budget.
3. It reads 40 bit slots, most significant bit of each of the five bytes first. A slot is:
   - a wait of up to 100 us for the line to go high;
   - a measurement of the high pulse, capped at 200 us;
   - the classification: more than 20 us is a 1 bit;
   - a wait of up to 100 us for the line to go low.
4. It keeps the first eight high times in a pulse-width trace.
5. It parks the pin as an output driven high.
6. It checks the 8-bit wrapping checksum and parses humidity and temperature.

Any missed edge ends the read at once with `Timeout`.

## How the model is built

`dht11.dfy`, module `Dht11`:
- **Data line.** The line is an injected function from microsecond tick to level. The class `Dht11` holds:
  - the pin (`mode` and `driven`);
  - a `tick` counter, which the driver's one-microsecond delay advances by one;
  - the constant line.
- **Protocol as pure functions.** The protocol is first stated without loops:
  - `Run`: the capped count of equal samples;
  - `WaitFor`: a bounded edge wait;
  - `Slot` and `Next`: one bit slot;
  - `Frame`: the slots up to the first timeout;
  - `Handshake`, `Receive`, `Result` and `Transaction`: the whole read;
  - `Pack`: byte assembly;
  - `Validate`: the checksum and the parse.
- **Driver as loops and arrays.** The class runs the protocol step by step, with the source's `while` and `for` loops and the `data` and `pulse_widths` arrays updated in place. Each method's postcondition ties its final state to those functions.
- **Lemmas about the functions.** They cover:
  - the if-and-only-if form of each wait;
  - the 20 us boundary;
  - byte assembly: most significant bit first, the sum of set-bit weights, complete bytes never changed, and a round trip with the frame's bits;
  - the checksum decision;
  - when the read as a whole times out.

`dwt_delay.dfy`, module `DwtDelay`: the cycles-per-microsecond derivation and the `delay_1us` polling loop. The 32-bit cycle counter is an injected sequence of readings, and elapsed time is the wrapping difference.

`sensor.dfy`, module `Sensor`: the sensor's side of the wire, as conditions on the line levels:
- the response to the start signal;
- each bit as a low phase and then a high phase, with the timing the driver tolerates;
- the high pulses carrying a frame bit by bit.

Its round trip states that the read of such a line yields the checksum test and parse of the frame the sensor sent. A constructed waveform with typical timing meets those conditions for every frame.

Nothing is executed; all statements are proved by the Dafny verifier.

## Model

| member | source | states |
|---|---|---|
| DwtDelay.CyclesPerUs | src/dht11/dwt_delay.rs:10-14 | the cycle count is the frequency divided by 1 000 000 rounded down: `c * 1e6 <= f < (c + 1) * 1e6` |
| DwtDelay.WrappingSub | src/dht11/dwt_delay.rs:23 | `wrapping_sub` on u32: the plain difference when no wrap occurs, `2^32 - (b - a)` when it does |
| DwtDelay.ElapsedAcrossWrap | src/dht11/dwt_delay.rs:19-23 | the wrapped difference of two 32-bit readings is the true elapsed cycle count whenever under 2^32 cycles passed, even across a counter wrap |
| DwtDelay.DwtDelay.constructor | src/dht11/dwt_delay.rs:10-14 | `new(f)` stores `CyclesPerUs(f)` |
| DwtDelay.DwtDelay.Delay1us | src/dht11/dwt_delay.rs:18-28 | the loop returns at the first reading (after the start reading) whose wrapped elapsed value reaches `cycles_per_us`; no earlier reading does; with 0 cycles per us it returns on the first poll; the object is not modified |
| DwtDelay.CyclesAt168Mhz | src/dht11/dwt_delay.rs:12 | 168 MHz gives 168 cycles per microsecond |
| DwtDelay.CyclesBelowOneMhz | src/dht11/dwt_delay.rs:12 | below 1 MHz the cycle count is 0 (so `Delay1us` returns at its first poll) |
| Dht11.Run | src/dht11/dht11.rs:72-76 | the high-pulse count never exceeds its cap, and when it stops below the cap the next sample shows the other level |
| Dht11.RunSamples | src/dht11/dht11.rs:72-76 | every sample the count covers shows the measured level |
| Dht11.RunIsLongestPrefix | src/dht11/dht11.rs:72-76 | the count is determined by being the longest run of equal samples up to the cap |
| Dht11.WaitFor | src/dht11/dht11.rs:131-153 | a timed-out wait ends after exactly `timeout_us` delays; a successful one ends within `timeout_us` delays on a sample showing the awaited level |
| Dht11.WaitForSpec | src/dht11/dht11.rs:131-153 | a wait times out if and only if its first `timeout_us + 1` samples all show the other level; otherwise every sample before its end shows the other level |
| Dht11.Slot | src/dht11/dht11.rs:67-92 | one bit slot records at most one high time, exactly one unless it timed out; the high time is in 1..200; the slot takes at most 400 us |
| Dht11.SlotSteps | src/dht11/dht11.rs:67-92 | a timeout of the wait for high records nothing; otherwise the capped high time is recorded and the slot ends where the wait for low ends |
| Dht11.Next | src/dht11/dht11.rs:66-93 | one more slot adds at most one high time (exactly one unless it timed out), keeps high times in range and takes at most 400 us |
| Dht11.Frame | src/dht11/dht11.rs:65-94 | after a timeout nothing more is read and the reading is returned unchanged; otherwise the frame is complete with 40 high times; at most 400 us per remaining slot; high times stay in range |
| Dht11.NextSlot | src/dht11/dht11.rs:65-94 | an incomplete frame that has not timed out continues with one more slot |
| Dht11.ThresholdBoundary | src/dht11/dht11.rs:84-89 | a high time is a 1 bit if and only if it is at least 21 us: exactly 20 decodes to 0, 21 to 1 |
| Dht11.BitOrClearBit | src/dht11/dht11.rs:88 | OR-ing `1 << k` into a value whose bits 0..k are clear adds `2^k` |
| Dht11.ValueIsBitSum | src/dht11/dht11.rs:66-89 | a bit string read most significant first has the value of the sum of `2^i` over its set bits `i` |
| Dht11.ValueOfToBits | src/dht11/dht11.rs:66-89 | a byte's 8 bits, most significant first, are read back as the byte |
| Dht11.ToBitsOfValue | src/dht11/dht11.rs:66-89 | a bit string's value, split back into bits, is the bit string |
| Dht11.ByteSoFar | src/dht11/dht11.rs:61-89 | a byte that starts at 0 and ORs in `1 << bit` for each 1 slot, from bit 7 down, is the value of the slots so far shifted to the top of the byte |
| Dht11.ByteSoFarOne | src/dht11/dht11.rs:87-89 | a 1 slot ORs in the next bit down, and the byte stays below 256 |
| Dht11.ByteSoFarZero | src/dht11/dht11.rs:87-89 | a 0 slot leaves the byte unchanged |
| Dht11.PackSnoc | src/dht11/dht11.rs:65-89 | the slot for bit `bit` of byte `i` ORs `1 << bit` into byte `i` when it is a 1 and changes nothing otherwise; no other byte changes |
| Dht11.ByteBitsOther | src/dht11/dht11.rs:65-89 | a slot of byte `i` leaves the slots already read for every other byte unchanged |
| Dht11.PackFull | src/dht11/dht11.rs:65-89 | once its 8 slots are in, a byte is the value of those slots, most significant first, and so the sum of `2^i` over its set bits |
| Dht11.PackKeepsCompleteBytes | src/dht11/dht11.rs:65-89 | later slots never change a byte whose 8 slots are complete |
| Dht11.PackFrameToBits | src/dht11/dht11.rs:65-89 | assembling the 40 bits a sensor sends for a frame gives that frame |
| Dht11.FrameToBitsOfPack | src/dht11/dht11.rs:65-89 | the bits of an assembled frame are the 40 bits read |
| Dht11.WrappingAdd | src/dht11/dht11.rs:110-113 | `u8::wrapping_add`: the sum when below 256, otherwise the sum minus 256 |
| Dht11.Checksum | src/dht11/dht11.rs:110-113 | the chained wrapping additions equal `(d0 + d1 + d2 + d3) mod 256` |
| Dht11.Validate | src/dht11/dht11.rs:110-128 | the result is an error exactly when the checksum does not hold, namely `ChecksumError`; otherwise the reading is humidity `10*d0 + d1` and temperature `10*d2 + d3` tenths |
| Dht11.ValidFrameParses | src/dht11/dht11.rs:110-128 | frame 32 00 18 00 4A reads as 24.0 degrees and 50.0 %RH |
| Dht11.CorruptFrameRejected | src/dht11/dht11.rs:117-119 | frame 32 00 18 00 4B is a checksum error |
| Dht11.Handshake | src/dht11/dht11.rs:51-58 | the three acknowledge waits take at most 300 us and, when they succeed, end on a low sample |
| Dht11.Receive | src/dht11/dht11.rs:51-94 | the acknowledge and the bit slots end within 16.3 ms busy time of the release; a reading that did not time out has all 40 high times |
| Dht11.ReceiveCases | src/dht11/dht11.rs:51-94 | a missed acknowledge edge records no bits; otherwise the 40 slots start where the acknowledge ends |
| Dht11.Transaction | src/dht11/dht11.rs:38-129 | a read ends within 16.3 ms busy time of the release, with at most 40 high times, each in 1..200; a read that did not time out has all 40 |
| Dht11.ChecksumDecides | src/dht11/dht11.rs:110-128 | after all 40 bits, the read fails with `ChecksumError` if and only if the assembled frame's checksum does not hold, and otherwise yields humidity from bytes 0, 1 and temperature from bytes 2, 3 |
| Dht11.TimeoutIffEdgeMissed | src/dht11/dht11.rs:52-92 | a read times out if and only if an acknowledge edge or a bit edge is missed |
| Dht11.NoAcknowledgeTimesOut | src/dht11/dht11.rs:131-141 | a line that stays high for 100 us after the release gives `Timeout` after 100 us, with no bits read |
| Dht11.NewBuffers | src/dht11/dht11.rs:61-63 | fresh zeroed `data` (5 bytes) and `pulse_widths` (8 entries), which are the frame and the trace before any slot |
| Dht11.NothingPacked | src/dht11/dht11.rs:61 | five zero bytes are the frame before any slot |
| Dht11.NothingTraced | src/dht11/dht11.rs:62 | eight zeros are the trace before any slot |
| Dht11.RecordPulse | src/dht11/dht11.rs:79-82 | the trace keeps the first eight high times in order, the rest stay 0, and `pulse_idx` is `min(slots so far, 8)` |
| Dht11.RecordBit | src/dht11/dht11.rs:87-89 | after the slot the array is the assembled frame of one more bit |
| Dht11.Dht11.constructor | src/dht11/dht11.rs:28-36 | `new` leaves the pin an output driven high; the delay gets `CyclesPerUs(f)` |
| Dht11.Dht11.IsHigh | src/dht11/dht11.rs:133 | `is_high` reads the line in input mode and the driven level in output mode |
| Dht11.Dht11.SetAsOutput | src/dht11/dht11.rs:97 | the pin becomes an output |
| Dht11.Dht11.SetAsInput | src/dht11/dht11.rs:49 | the pin becomes an input with pull-up |
| Dht11.Dht11.SetHigh | src/dht11/dht11.rs:98 | the driven level becomes high |
| Dht11.Dht11.SetLow | src/dht11/dht11.rs:41 | the driven level becomes low |
| Dht11.Dht11.Delay1us | src/dht11/dht11.rs:74 | one microsecond passes |
| Dht11.Dht11.Sleep | src/dht11/dht11.rs:42-46 | the timer await lets the given number of microseconds pass |
| Dht11.Dht11.WaitForLow | src/dht11/dht11.rs:131-141 | the loop ends where `WaitFor(.., low)` ends and returns `Timeout` exactly when that wait timed out |
| Dht11.Dht11.WaitForHigh | src/dht11/dht11.rs:143-153 | the mirror image, against `WaitFor(.., high)` |
| Dht11.Dht11.MeasureHigh | src/dht11/dht11.rs:72-76 | `high_time` is the number of consecutive high samples from the slot start, capped at 200, and that much time passes |
| Dht11.Dht11.AwaitPulse | src/dht11/dht11.rs:67-76 | the wait for high, then, unless it timed out, the high time measured where it ended |
| Dht11.Dht11.ReadSlot | src/dht11/dht11.rs:67-92 | one loop iteration performs exactly `Slot`: its high time is appended, the tick is where the slot ends, it fails exactly when the slot timed out, and the arrays are the frame and trace of one more slot |
| Dht11.Dht11.ReadFrameSlot | src/dht11/dht11.rs:66-93 | after one slot the rest of the frame read from the new state is the rest read from the old one; on a timeout the new state is where the frame ends |
| Dht11.Dht11.ReadByte | src/dht11/dht11.rs:66-93 | the same for the eight slots of one byte, bits 7 down to 0 |
| Dht11.Dht11.ReadBits | src/dht11/dht11.rs:60-94 | the nested loops perform exactly `Frame`: the same high times, end tick and timeout; `data` is the assembled frame of those slots and `pulse_widths` their trace |
| Dht11.Dht11.SendStart | src/dht11/dht11.rs:39-49 | the start signal leaves the pin an input, 20 040 us later |
| Dht11.Dht11.AwaitResponse | src/dht11/dht11.rs:51-58 | the three waits perform exactly `Handshake` and fail exactly when it timed out |
| Dht11.Dht11.ReceiveFrame | src/dht11/dht11.rs:51-94 | acknowledge plus bit loops perform exactly `Receive`, with the arrays holding its assembled frame and trace |
| Dht11.Dht11.Acquire | src/dht11/dht11.rs:51-128 | the result is `Result` of the reading; the pin is parked as a high output exactly when the read did not time out |
| Dht11.Dht11.Read | src/dht11/dht11.rs:38-129 | `read` returns `Transaction(line, release tick).result` and ends at its end tick; `data` and `pulse_widths` end as its assembled frame and trace; after a checksum error or a reading the pin is an output driven high; after a timeout it is left an input |
| Sensor.SlotReadsBit | src/dht11/dht11.rs:67-92 | a bit sent low for 1..100 us and then high for 1..200 us is one slot that records exactly its high time and ends where the next low begins |
| Sensor.HandshakeReadsAck | src/dht11/dht11.rs:51-58 | a response that comes within 100 us, with low and high phases of 1..100 us, passes the three acknowledge waits and ends where the first bit starts |
| Sensor.FrameReadsBits | src/dht11/dht11.rs:65-94 | from any bit on, the slots of a frame sent with tolerated timing record exactly the high times sent, without a timeout, and end where the last bit ends |
| Sensor.ReceiveReadsFrame | src/dht11/dht11.rs:51-94 | after a passed acknowledge, the read records exactly the 40 high times sent |
| Sensor.PackDecodes | src/dht11/dht11.rs:84-89 | high times that exceed 20 us exactly at the frame's 1 bits assemble to that frame |
| Sensor.SensorRoundTrip | src/dht11/dht11.rs:38-128 | when the sensor answers and sends `frame` with tolerated timing, the read ends where the last bit ends, with the high times sent, and its result is `Validate(frame)` |
| Sensor.TypicalFrameRead | src/dht11/dht11.rs:84-86 | every frame sent with typical timing (answer 80/80, bits low 50, high pulses of 10 or 32 polls) is read back as `Validate(frame)` |
| Dht11.Decode | src/dht11/dht11.rs:109-128 | the checksum test and the parse on the array compute `Validate` of its contents |

## Left out

- The `f32` parse (src/dht11/dht11.rs:122-123) is replaced by exact integer tenths, `10 * integer + fraction`. Floating-point rounding is not modelled.
- `defmt::debug!` logging (src/dht11/dht11.rs:100-107, 115) is not modelled. `data` and `pulse_widths` are local to `read` and only reach the log, so `Read` exposes their final contents as ghost outputs.
- The `Timer::after_millis` / `after_micros` awaits are modelled as the tick advancing by 20 000 and 40. Concurrency and other tasks running during the awaits are not modelled.
- The hardware (the DWT cycle counter and the `Flex` GPIO pin with its `Speed` and `Pull` settings) is replaced by an injected line function and an injected counter sequence.
- Dht11.Dht11.Delay1us: the driver's one-microsecond delay advances the tick by exactly one.
  - So a tick is one poll of the line. In the source a poll takes longer than a microsecond.
  - The threshold of 20 is calibrated to measured counts: about 8-12 for a 0 and 30-34 for a 1 (src/dht11/dht11.rs:84-86).
  - The nominal pulses of 28 us and 70 us (src/dht11/dht11.rs:71) are therefore not the counts the model sees.
  - `Sensor.TypicalFrameRead` uses the measured counts.
  - The time a poll or loop step itself takes is not modelled.
  - `DwtDelay.DwtDelay.Delay1us` models the delay loop separately, over the counter readings.
- DwtDelay.DwtDelay.Delay1us: it requires that some reading reaches the threshold, standing in for a free-running counter that eventually does. Without that the source loops forever.
- Dht11.Dht11.WaitForLow: `count` is an unbounded natural. The source's u32 `count` would overflow at `timeout_us = u32::MAX`; the driver only passes 100.
- Dht11.Dht11.ReceiveFrame: the two arrays are allocated before the acknowledge waits rather than after them. Nothing observes the difference.
- On a timeout the pin is left an input, exactly as the source does. No post-error parking policy is added.
- `src/main.rs` (clock setup, LED, polling loop) is not part of this model.
