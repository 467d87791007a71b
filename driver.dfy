/** The `ShiftRegister` driver: four GPIO pins and the 64-bit buffer that a
    shift-out clocks into a chain of shift registers. */
module Driver {
  import opened Buffer
  import opened Protocol

  /** How a call of `set` ends. `num - 1` underflows for 0 and `1 << (num - 1)`
      overflows above 64; both stop the program before the buffer changes. */
  datatype SetOutcome = Updated | SubtractOverflow | ShiftOverflow

  class ShiftRegister {
    const oePin: U64
    const dsPin: U64
    const clockPin: U64
    const latchPin: U64
    /** The buffer: bit `i` is the output addressed as `set(i + 1)`. */
    var data: U64
    /** Every pin action so far, oldest first. */
    ghost var trace: seq<Event>

    function Pins(): Wiring
    {
      Wiring(oePin, dsPin, clockPin, latchPin)
    }

    /** `new`: the given pins and an empty buffer. */
    constructor (oe: U64, ds: U64, clock: U64, latch: U64)
      ensures Pins() == Wiring(oe, ds, clock, latch)
      ensures data == 0
      ensures trace == []
    {
      oePin, dsPin, clockPin, latchPin := oe, ds, clock, latch;
      data := 0;
      trace := [];
    }

    /** `new_led`: the register chain driving the LEDs. */
    static method NewLed() returns (r: ShiftRegister)
      ensures fresh(r)
      ensures r.Pins() == Wiring(276, 38, 44, 40)
      ensures r.data == 0 && r.trace == []
    {
      r := new ShiftRegister(276, 38, 44, 40);
    }

    /** `new_relais`: the register chain driving the relays. */
    static method NewRelais() returns (r: ShiftRegister)
      ensures fresh(r)
      ensures r.Pins() == Wiring(277, 45, 39, 37)
      ensures r.data == 0 && r.trace == []
    {
      r := new ShiftRegister(277, 45, 39, 37);
    }

    /** `set(num)`: turn on bit `num - 1` of the buffer (`num` counts from 1). */
    method Set(num: U64) returns (outcome: SetOutcome)
      modifies this
      ensures num == 0 ==> outcome == SubtractOverflow
      ensures num > WIDTH ==> outcome == ShiftOverflow
      ensures 1 <= num <= WIDTH ==> outcome == Updated && data == WithBit(old(data), num - 1)
      ensures outcome != Updated ==> data == old(data)
      ensures trace == old(trace)
    {
      if num == 0 {
        return SubtractOverflow;
      }
      var index := num - 1;
      if index >= WIDTH {
        return ShiftOverflow;
      }
      data := WithBit(data, index);
      outcome := Updated;
    }

    /** `export_pins`: one export attempt per pin, in order; a failure is
        only reported. */
    method ExportPins(f: PinFlags)
      modifies this
      ensures data == old(data)
      ensures trace == old(trace) + ExportTrace(Pins(), f)
    {
      trace := trace + [Export(oePin, f.oe)];
      trace := trace + [Export(dsPin, f.ds)];
      trace := trace + [Export(clockPin, f.clock)];
      trace := trace + [Export(latchPin, f.latch)];
    }

    /** One pin of `set_pin_direction`: make it an output and, if that
        succeeds, drive it low, ignoring whether that write succeeds. */
    method DirectPin(pin: U64, ok: bool)
      modifies this
      ensures data == old(data)
      ensures trace == old(trace) + DirectionStep(pin, ok)
    {
      trace := trace + [SetDirection(pin, ok)];
      if ok {
        trace := trace + [Write(pin, 0)];
      }
    }

    /** `set_pin_direction`: the four pins in order. */
    method SetPinDirection(f: PinFlags)
      modifies this
      ensures data == old(data)
      ensures trace == old(trace) + DirectionTrace(Pins(), f)
    {
      DirectPin(oePin, f.oe);
      DirectPin(dsPin, f.ds);
      DirectPin(clockPin, f.clock);
      DirectPin(latchPin, f.latch);
    }

    /** `pin.set_value(level).unwrap()`, the checked write at position `n`:
        `ok` is false when the write fails, which makes the caller panic. */
    method WriteChecked(pin: U64, level: Level, n: nat, io: IoOutcomes) returns (ok: bool)
      modifies this
      ensures data == old(data)
      ensures trace == old(trace) + [Write(pin, level)]
      ensures ok == !FailsWithin(io, n, 1)
    {
      trace := trace + [Write(pin, level)];
      ok := !FailsWithin(io, n, 1);
    }

    /** `clock_in`: clock high, then low, stopping at a failing write. */
    method ClockIn(n: nat, io: IoOutcomes) returns (ok: bool)
      modifies this
      ensures data == old(data)
      ensures trace == old(trace) + ClockPulse(Pins())[..Reached(io, n, 2)]
      ensures ok == !FailsWithin(io, n, 2)
    {
      ok := WriteChecked(clockPin, 1, n, io);
      if ok {
        ok := WriteChecked(clockPin, 0, n + 1, io);
      }
    }

    /** `latch_out`: latch high, then low, stopping at a failing write. */
    method LatchOut(n: nat, io: IoOutcomes) returns (ok: bool)
      modifies this
      ensures data == old(data)
      ensures trace == old(trace) + LatchPulse(Pins())[..Reached(io, n, 2)]
      ensures ok == !FailsWithin(io, n, 2)
    {
      ok := WriteChecked(latchPin, 1, n, io);
      if ok {
        ok := WriteChecked(latchPin, 0, n + 1, io);
      }
    }

    /** One pass of the clock loop of `shift_out`: put bit `i` of the buffer
        on the data line (high when `(data >> i) & 1` is 1, low otherwise),
        then `clock_in`. `n` is the position of the data write among the
        checked writes. */
    method ShiftBit(i: nat, n: nat, io: IoOutcomes) returns (ok: bool)
      requires i < WIDTH
      modifies this
      ensures data == old(data)
      ensures trace == old(trace) + BitGroup(Pins(), Bit(data, i))[..Reached(io, n, 3)]
      ensures ok == !FailsWithin(io, n, 3)
    {
      var level: Level := if Bit(data, i) == 1 then 1 else 0;
      ok := WriteChecked(dsPin, level, n, io);
      if ok {
        ok := ClockIn(n + 1, io);
        assert [Write(dsPin, level)] + ClockPulse(Pins())[..Reached(io, n + 1, 2)]
            == BitGroup(Pins(), level)[..Reached(io, n, 3)];
      }
    }

    /** `shift_out`: set the pins up, clock the 64 buffer bits out from bit 63
        down to bit 0, then latch them. `completed` is false when a checked
        write fails, where the driver panics; the buffer never changes. */
    method ShiftOut(io: IoOutcomes) returns (completed: bool)
      modifies this
      ensures data == old(data)
      ensures completed == !Panics(io)
      ensures trace == old(trace) + ShiftOutTrace(Pins(), data, io)
    {
      ExportPins(io.exported);
      SetPinDirection(io.directed);
      ghost var start := trace;
      assert start == old(trace) + SetupTrace(Pins(), io);
      for i := WIDTH downto 0
        invariant data == old(data)
        invariant trace == start + CheckedTrace(Pins(), data)[..3 * (WIDTH - i)]
        invariant !FailsWithin(io, 0, 3 * (WIDTH - i))
      {
        var n := 3 * (WIDTH - 1 - i);
        var ok := ShiftBit(i, n, io);
        BitGroupExtends(start, Pins(), data, i, Reached(io, n, 3));
        AttemptedFrom(io, n, 3);
        if !ok {
          ShiftOutStops(Pins(), data, io, old(trace), n + Reached(io, n, 3));
          return false;
        }
      }
      completed := LatchOut(3 * WIDTH, io);
      LatchPulseExtends(start, Pins(), data, Reached(io, 3 * WIDTH, 2));
      AttemptedFrom(io, 3 * WIDTH, 2);
      ShiftOutStops(Pins(), data, io, old(trace), 3 * WIDTH + Reached(io, 3 * WIDTH, 2));
    }

    /** `init`: clear the buffer, then shift it out, so that every output is 0. */
    method Init(io: IoOutcomes) returns (completed: bool)
      modifies this
      ensures data == 0
      ensures completed == !Panics(io)
      ensures trace == old(trace) + ShiftOutTrace(Pins(), 0, io)
    {
      data := 0;
      completed := ShiftOut(io);
    }
  }
}
