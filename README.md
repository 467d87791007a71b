# xmz_shift_register in Dafny

A model of the `ShiftRegister` driver of the Rust crate `xmz_shift_register`
(`src/lib.rs`), with proofs about it. The driver keeps a 64-bit output buffer,
`data`. `set(num)` turns on one bit of it. `shift_out` sends the buffer over
four GPIO pins into a chain of shift registers:

- OE is output enable, active low;
- DS is the serial data line;
- CLOCK is the shift clock;
- LATCH is the storage latch.

The project has three modules, one file each.

- `buffer.dfy`, module `Buffer`: the `u64` buffer and the bit operations the
  driver uses on it. These are `data | (1 << (num - 1))` (`WithBit`), and
  `(data >> i) & 1` (`Bit`). The module also has the order in which the bits
  are clocked (`DataBitsMsbFirst`) and its inverse, a big-endian read
  (`FromBitsMsbFirst`).
- `protocol.dfy`, module `Protocol`: the pin protocol of `shift_out`, written
  as sequences of events.
  - `Export` is an export attempt and `SetDirection` a direction attempt. Both
    carry whether they succeeded.
  - `Write` is an attempted `set_value`.
  - `ShiftOutTrace` is the whole event sequence of one `shift_out`.
  - `Writes(t, pin)` projects a trace onto the levels written to one pin.
  - The lemmas say what each pin sees.
- `driver.dfy`, module `Driver`: the class `ShiftRegister`.
  - Its fields: the four pin numbers (`const`), the buffer `data`, and a ghost
    `trace` of every pin action so far.
  - Its methods are those of the Rust `impl`. Each one appends its events to
    `trace` step by step.
  - `ShiftOut` has the counting-down loop of the source. One pass of the loop
    body is the helper method `ShiftBit`.
  - Each method's `ensures` ties the new `trace` to the `Protocol` functions,
    so the `Protocol` lemmas apply to what the methods do.

The GPIO library (`sysfs_gpio`) is not part of this model.

- What it answers during one shift-out is a parameter, `IoOutcomes`. It gives,
  per pin, whether the export succeeds and whether the direction change
  succeeds.
- It also gives the position of the first failing write, if any, among the
  194 writes whose result is unwrapped. Those are 3 per bit for 64 bits, then
  2 for the latch.
- Export and direction failures are only reported by the source, so the model
  carries on after them.
- A failing unwrapped write panics in the source. In the model, that write is
  the last event recorded and the method returns `false`.

The buffer is an integer in [0, 2^64), mirroring `u64`, and not a `bv64`.

- `>>`, `&` and `|` are defined bit by bit on naturals (`ShiftRight`, `Bit`,
  `Or`).
- Every fact about them is proved by induction over the bits. Solver
  reasoning over 64-bit vectors is not needed for these facts.

## Model

| member | source | states |
|---|---|---|
| Driver.ShiftRegister.constructor | src/lib.rs:17-25 | `new` binds the four pins to exactly the arguments and starts with an empty buffer and an empty trace |
| Driver.ShiftRegister.NewLed | src/lib.rs:28-30 | `new_led` is the register on pins 276, 38, 44, 40 (OE, DS, CLOCK, LATCH), with an empty buffer |
| Driver.ShiftRegister.NewRelais | src/lib.rs:33-35 | `new_relais` is the register on pins 277, 45, 39, 37, with an empty buffer |
| Driver.ShiftRegister.Set | src/lib.rs:118-120 | for 1 <= num <= 64 the buffer becomes `WithBit(data, num - 1)`; num = 0 ends in the subtraction overflow and num > 64 in the shift overflow, both leaving the buffer unchanged; no pin is touched |
| Buffer.WithBit | src/lib.rs:118-120 | `data` or-ed with `1 << index` has bit `index` set and every other bit as before; it equals `data` when that bit was already set and `data + 2^index` otherwise, and it stays a `u64` |
| Buffer.WithBitKeepsSetBits | src/lib.rs:105-106 | setting a bit never clears a bit that was set before |
| Buffer.WithBitIdempotent | src/lib.rs:118-120 | setting the same bit twice gives the buffer of setting it once |
| Buffer.WithBitCommutes | src/lib.rs:105-106 | setting two bits gives the same buffer in either order |
| Buffer.OrBit | src/lib.rs:119 | a bit of `a` or-ed with `b` is 1 exactly when it is 1 in `a` or in `b` |
| Buffer.OrBound | src/lib.rs:119 | `a` or-ed with `b` stays below 2^n when `a` and `b` do, so or-ing into the buffer stays within 64 bits |
| Buffer.Pow2Bit | src/lib.rs:119 | `1 << k` has exactly bit `k` set |
| Buffer.OrFreshBit | src/lib.rs:119 | or-ing in bit `k` changes nothing when bit `k` is set and adds 2^k when it is clear |
| Buffer.SetFifthBitExample | tests/lib.rs:6-11 | `set(5)` on an empty buffer gives 0b1_0000 |
| Buffer.SetSeveralBitsExample | tests/lib.rs:17-23 | `set(1)`, `set(5)`, `set(10)` on an empty buffer give 0b1, 0b1_0001, 0b10_0001_0001 |
| Buffer.SetDocExample | src/lib.rs:111-116 | `set(10)` on an empty buffer gives `1 << 9`; a following `set(5)` gives 0b10_0001_0000 |
| Buffer.SetLowTwoBitsExample | tests/lib.rs:29-32 | `set(1)` then `set(2)` on an empty buffer give 0b11 |
| Buffer.DataBitsMsbFirst | src/lib.rs:140-141 | the levels clocked out are 64, and the k-th of them is bit 63 - k of the buffer |
| Buffer.LowBitsAt | src/lib.rs:140-141 | position n - 1 - k of the n low bits, most significant first, is bit k |
| Buffer.LowBitsRoundTrip | src/lib.rs:140-146 | for x below 2^n, reading its n low bits back as a big-endian number gives x |
| Buffer.FromBitsRoundTrip | src/lib.rs:140-146 | a sequence of levels read as a big-endian number is below 2^length and splits back into the same levels |
| Buffer.DecodeDataBits | src/lib.rs:140-146 | reading the 64 clocked levels back as a big-endian number gives the buffer |
| Buffer.EncodeBits | src/lib.rs:140-146 | any 64 levels are the clocked levels of exactly one `u64`, the one they spell big-endian |
| Buffer.DataBitsInjective | src/lib.rs:140-146 | two different buffers never clock out the same levels |
| Buffer.ZeroBufferBits | src/lib.rs:154-157 | the empty buffer clocks out 64 zeros |
| Driver.ShiftRegister.ExportPins | src/lib.rs:38-55 | one export attempt per pin, OE, DS, CLOCK, LATCH, whatever each outcome; the buffer is unchanged |
| Driver.ShiftRegister.DirectPin | src/lib.rs:59-62 | a direction attempt on the pin, followed by one low write exactly when it succeeds |
| Driver.ShiftRegister.SetPinDirection | src/lib.rs:58-79 | the direction steps of OE, DS, CLOCK, LATCH in that order; the buffer is unchanged |
| Driver.ShiftRegister.WriteChecked | src/lib.rs:142-143 | records the write and reports whether it is the failing write at its position |
| Driver.ShiftRegister.ClockIn | src/lib.rs:123-126 | clock high then clock low, stopping after a failing write, and reports whether both succeeded |
| Driver.ShiftRegister.LatchOut | src/lib.rs:129-132 | latch high then latch low, stopping after a failing write, and reports whether both succeeded |
| Driver.ShiftRegister.ShiftBit | src/lib.rs:141-145 | bit i of the buffer on the data line, then a clock pulse, stopping after a failing write |
| Driver.ShiftRegister.ShiftOut | src/lib.rs:135-148 | the buffer is unchanged (tests/lib.rs:26-35); the call completes exactly when no unwrapped write fails; the trace grows by exactly `ShiftOutTrace` of the buffer: setup, then the checked writes up to and including a failing one |
| Driver.ShiftRegister.Init | src/lib.rs:154-157 | the buffer becomes 0, and the trace grows by the shift-out of the zero buffer |
| Protocol.ReachedSplit | src/lib.rs:123-132 | attempting a run of checked writes and then the next run attempts what the first run attempts when it has a failing write, and otherwise all of the first run followed by what the second attempts; the combined run fails exactly when one of the two does |
| Protocol.AttemptedFrom | src/lib.rs:140-147 | a run of checked writes with none failing before it decides whether the whole shift-out panics, and how many writes it attempts |
| Protocol.SetupOrder | src/lib.rs:38-79 | the first four events are the export attempts of OE, DS, CLOCK, LATCH with their outcomes; the exports and the direction attempts each come in that pin order |
| Protocol.SetupWrites | src/lib.rs:59-77 | with four distinct pins, setup drives a pin low exactly once when its direction change succeeds and never writes it otherwise |
| Protocol.SetupWritesFollowDirection | src/lib.rs:59-77 | every setup write drives a pin low and comes right after a successful direction change of that same pin |
| Protocol.ClockSectionPrefix | src/lib.rs:140-146 | the first k groups of the clock loop are the clock loop over the first k bits |
| Protocol.ClockGroup | src/lib.rs:140-146 | group k of the clock loop is exactly [data bit k, clock high, clock low] |
| Protocol.ClockSectionWrites | src/lib.rs:140-146 | the clock loop writes the bits in order to DS, one 1-then-0 pulse per bit to CLOCK, and nothing to any other pin |
| Protocol.CheckedGroupAt | src/lib.rs:140-146 | checked writes 3k, 3k+1 and 3k+2 are bit 63 - k on DS, clock high, clock low |
| Protocol.CheckedTraceAt | src/lib.rs:123-147 | the checked writes agree at every position with the description by position alone |
| Protocol.CheckedTraceWrites | src/lib.rs:123-147 | with four distinct pins, a complete shift-out writes the 64 bits MSB first to DS, which read back big-endian give the buffer; 64 pulses to CLOCK; one pulse to LATCH, none of it before the last clock pulse; nothing to OE |
| Protocol.AbortBeforeLatch | src/lib.rs:124-125 | with four distinct pins, a shift-out that stops inside the clock loop writes nothing to the latch pin after setup: its latch writes are exactly those of setup |
| Protocol.OutputEnableStaysLow | src/lib.rs:59-60 | over the whole shift-out OE is driven only low, once, and only when switching it to output succeeds |
| Protocol.ShiftOutEnd | src/lib.rs:135-148 | a shift-out that panics ends right after the failing write; one that does not ends with the clock loop and then the latch pulse |
| Protocol.ZeroShiftOutWrites | src/lib.rs:154-157 | shifting out the zero buffer writes 0 to the data line 64 times |

## Left out

- The `sysfs_gpio` calls (`Pin::new`, `export`, `set_direction`, `set_value`) are foreign library and sysfs I/O. They appear only as trace events, with their outcomes given by `IoOutcomes`.
- The `println!` diagnostics after a failed export or direction change are console I/O. The `ok` flag of the `Export` and `SetDirection` events stands in for them.
- The doc comment of `export_pins` says it panics when an export fails, but the code only prints. The model follows the code.
- `toggle`, `RegisterType` and a mock profile are used by `examples/relais_testlauf.rs`, but `src/lib.rs` does not define them, so they are not part of this model.
- The example program `examples/relais_testlauf.rs` is a timing demo with no logic of its own, so it is not part of this model.
- Electrical timing, concurrency, and the hardware state after a panic are not expressed in the code, so the model does not state them.
- How the hardware treats an unwrapped write that fails is not modelled: the failing write is recorded as attempted, and nothing after it.
- Set: follows a debug build, where `num - 1` underflowing at 0 and `1 << 64` or more panic. It does not model a release build, where both wrap silently.
- The buffer is a bounded integer with `|`, `>>` and `&` defined bit by bit on naturals, not a `bv64`, so that every fact about them is an induction over the bits. `WithBit` returns a `U64`, so `set` on 1..64 never needs a wrap-around.
- Idempotence and the other `set` laws are stated about `WithBit`, the function `Set` is specified by, not about a sequence of method calls.
