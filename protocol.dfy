/** The pin-level protocol of `shift_out`, as sequences of events.

    The pins are driven through a GPIO library whose calls are not part of
    this model; each call the driver makes is one `Event`, and what the
    library answers is given up front as `IoOutcomes`. */
module Protocol {
  import opened Buffer

  /** One action of the driver on a pin. `ok` records whether an export or a
      direction change succeeded (the driver only reports a failure and carries
      on). A `Write` is an attempt to drive the pin to `level`. */
  datatype Event =
    | Export(pin: U64, ok: bool)
    | SetDirection(pin: U64, ok: bool)
    | Write(pin: U64, level: Level)

  /** The four pins of a shift register: output enable (active low), serial
      data, shift clock and storage latch. */
  datatype Wiring = Wiring(oe: U64, ds: U64, clock: U64, latch: U64)
  {
    /** The pins in the order the driver sets them up. */
    function PinOrder(): seq<U64>
    {
      [oe, ds, clock, latch]
    }

    /** Four different pins. */
    predicate Distinct()
    {
      oe != ds && oe != clock && oe != latch && ds != clock && ds != latch && clock != latch
    }
  }

  /** One yes/no answer per pin, in the order OE, DS, CLOCK, LATCH. */
  datatype PinFlags = PinFlags(oe: bool, ds: bool, clock: bool, latch: bool)
  {
    function Flags(): seq<bool>
    {
      [oe, ds, clock, latch]
    }
  }

  datatype Option<T> = None | Some(value: T)

  /** What the GPIO library answers during one shift-out: which exports and
      which direction changes succeed, and the position (among the writes whose
      result is unwrapped, counted from 0) of the first write that fails. */
  datatype IoOutcomes = IoOutcomes(exported: PinFlags, directed: PinFlags, failingWrite: Option<nat>)

  /** Writes whose failure aborts a shift-out: data, clock high and clock low
      for each of the 64 bits, then latch high and latch low. */
  const CHECKED_WRITES: nat := 3 * WIDTH + 2

  /** Whether one of the `m` checked writes from position `n` on fails. */
  predicate FailsWithin(io: IoOutcomes, n: nat, m: nat)
  {
    io.failingWrite.Some? && n <= io.failingWrite.value < n + m
  }

  /** How many of the `m` checked writes from position `n` on are attempted:
      all of them, or those up to and including the one that fails. */
  function Reached(io: IoOutcomes, n: nat, m: nat): (r: nat)
    ensures r <= m
  {
    if FailsWithin(io, n, m) then io.failingWrite.value - n + 1 else m
  }

  /** Running `a` checked writes and then `b` more attempts what the first run
      attempts when it fails, and otherwise all of it and then what the
      second run attempts. */
  lemma ReachedSplit(io: IoOutcomes, n: nat, a: nat, b: nat)
    ensures Reached(io, n, a + b) == if FailsWithin(io, n, a) then Reached(io, n, a) else a + Reached(io, n + a, b)
    ensures FailsWithin(io, n, a + b) <==> FailsWithin(io, n, a) || FailsWithin(io, n + a, b)
  {
  }

  /** The shift-out aborts: one of its checked writes fails. */
  predicate Panics(io: IoOutcomes)
  {
    FailsWithin(io, 0, CHECKED_WRITES)
  }

  /** How many checked writes a shift-out attempts. */
  function Attempted(io: IoOutcomes): nat
  {
    Reached(io, 0, CHECKED_WRITES)
  }

  /** How a run of `m` checked writes from position `n` on, with none failing
      before `n`, decides the outcome of the shift-out. */
  lemma AttemptedFrom(io: IoOutcomes, n: nat, m: nat)
    requires !FailsWithin(io, 0, n) && n + m <= CHECKED_WRITES
    ensures FailsWithin(io, n, m) ==> Panics(io) && Attempted(io) == n + Reached(io, n, m)
    ensures !FailsWithin(io, n, m) ==> !FailsWithin(io, 0, n + m)
    ensures n + m == CHECKED_WRITES ==> Attempted(io) == n + Reached(io, n, m) && (Panics(io) <==> FailsWithin(io, n, m))
  {
  }

  // ---------------------------------------------------------------
  // The event sequences
  // ---------------------------------------------------------------

  /** `export_pins`: one export attempt per pin. */
  function ExportTrace(w: Wiring, f: PinFlags): seq<Event>
  {
    [Export(w.oe, f.oe)] + [Export(w.ds, f.ds)] + [Export(w.clock, f.clock)] + [Export(w.latch, f.latch)]
  }

  /** One pin of `set_pin_direction`: switch it to output and, only when that
      succeeds, drive it low (that write's own result is ignored). */
  function DirectionStep(pin: U64, ok: bool): seq<Event>
  {
    if ok then [SetDirection(pin, true), Write(pin, 0)] else [SetDirection(pin, false)]
  }

  /** `set_pin_direction`. */
  function DirectionTrace(w: Wiring, f: PinFlags): seq<Event>
  {
    DirectionStep(w.oe, f.oe) + DirectionStep(w.ds, f.ds)
      + DirectionStep(w.clock, f.clock) + DirectionStep(w.latch, f.latch)
  }

  /** Everything a shift-out does before it clocks the first bit. */
  function SetupTrace(w: Wiring, io: IoOutcomes): seq<Event>
  {
    ExportTrace(w, io.exported) + DirectionTrace(w, io.directed)
  }

  /** `clock_in`: the clock pin high, then low. */
  function ClockPulse(w: Wiring): seq<Event>
  {
    [Write(w.clock, 1), Write(w.clock, 0)]
  }

  /** One bit of the clock loop: the level on the data line, then a clock pulse. */
  function BitGroup(w: Wiring, b: Level): seq<Event>
  {
    [Write(w.ds, b)] + ClockPulse(w)
  }

  /** The clock loop over `bits`, in order. */
  function ClockSection(w: Wiring, bits: seq<Level>): (t: seq<Event>)
    ensures |t| == 3 * |bits|
  {
    if bits == [] then [] else ClockSection(w, bits[..|bits| - 1]) + BitGroup(w, bits[|bits| - 1])
  }

  /** `latch_out`: the latch pin high, then low. */
  function LatchPulse(w: Wiring): seq<Event>
  {
    [Write(w.latch, 1), Write(w.latch, 0)]
  }

  /** The checked writes of a shift-out of `data`, in order, when none fails. */
  function CheckedTrace(w: Wiring, data: U64): (t: seq<Event>)
    ensures |t| == CHECKED_WRITES
  {
    ClockSection(w, DataBitsMsbFirst(data)) + LatchPulse(w)
  }

  /** All events of one `shift_out` of `data`: the setup, then the checked
      writes up to the first failing one. */
  function ShiftOutTrace(w: Wiring, data: U64, io: IoOutcomes): seq<Event>
  {
    SetupTrace(w, io) + CheckedTrace(w, data)[..Attempted(io)]
  }

  // ---------------------------------------------------------------
  // Projections of a trace
  // ---------------------------------------------------------------

  /** The level an event writes to `pin`, if it writes to `pin`. */
  function EventWrites(e: Event, pin: U64): seq<Level>
  {
    if e.Write? && e.pin == pin then [e.level] else []
  }

  /** The levels written to `pin`, in order. */
  function Writes(t: seq<Event>, pin: U64): seq<Level>
  {
    if t == [] then [] else Writes(t[..|t| - 1], pin) + EventWrites(t[|t| - 1], pin)
  }

  /** The pins of the export attempts, in order. */
  function Exported(t: seq<Event>): seq<U64>
  {
    if t == [] then [] else Exported(t[..|t| - 1]) + (if t[|t| - 1].Export? then [t[|t| - 1].pin] else [])
  }

  /** The pins of the direction attempts, in order. */
  function Directed(t: seq<Event>): seq<U64>
  {
    if t == [] then [] else Directed(t[..|t| - 1]) + (if t[|t| - 1].SetDirection? then [t[|t| - 1].pin] else [])
  }

  /** `n` clock pulses: 1, 0, 1, 0, ... */
  function Pulses(n: nat): seq<Level>
  {
    if n == 0 then [] else Pulses(n - 1) + [1, 0]
  }

  lemma {:induction false} WritesAppend(a: seq<Event>, b: seq<Event>, pin: U64)
    ensures Writes(a + b, pin) == Writes(a, pin) + Writes(b, pin)
  {
    if b != [] {
      var b' := b[..|b| - 1];
      assert (a + b)[..|a + b| - 1] == a + b';
      WritesAppend(a, b', pin);
    } else {
      assert a + b == a;
    }
  }

  lemma {:induction false} ProjectAppend(a: seq<Event>, b: seq<Event>)
    ensures Exported(a + b) == Exported(a) + Exported(b)
    ensures Directed(a + b) == Directed(a) + Directed(b)
  {
    if b != [] {
      var b' := b[..|b| - 1];
      assert (a + b)[..|a + b| - 1] == a + b';
      ProjectAppend(a, b');
    } else {
      assert a + b == a;
    }
  }

  lemma ProjectSingle(e: Event, pin: U64)
    ensures Writes([e], pin) == EventWrites(e, pin)
    ensures Exported([e]) == if e.Export? then [e.pin] else []
    ensures Directed([e]) == if e.SetDirection? then [e.pin] else []
  {
    assert [e][..0] == [];
  }

  lemma ProjectPair(e: Event, f: Event, pin: U64)
    ensures Writes([e, f], pin) == EventWrites(e, pin) + EventWrites(f, pin)
    ensures Exported([e, f]) == (if e.Export? then [e.pin] else []) + (if f.Export? then [f.pin] else [])
    ensures Directed([e, f]) == (if e.SetDirection? then [e.pin] else []) + (if f.SetDirection? then [f.pin] else [])
  {
    ProjectSingle(e, pin);
    ProjectSingle(f, pin);
    WritesAppend([e], [f], pin);
    ProjectAppend([e], [f]);
    assert [e] + [f] == [e, f];
  }

  lemma ProjectFour(a: seq<Event>, b: seq<Event>, c: seq<Event>, d: seq<Event>, pin: U64)
    ensures Writes(a + b + c + d, pin) == Writes(a, pin) + Writes(b, pin) + Writes(c, pin) + Writes(d, pin)
    ensures Exported(a + b + c + d) == Exported(a) + Exported(b) + Exported(c) + Exported(d)
    ensures Directed(a + b + c + d) == Directed(a) + Directed(b) + Directed(c) + Directed(d)
  {
    WritesAppend(a + b + c, d, pin);
    WritesAppend(a + b, c, pin);
    WritesAppend(a, b, pin);
    ProjectAppend(a + b + c, d);
    ProjectAppend(a + b, c);
    ProjectAppend(a, b);
  }

  /** The writes to `pin` in a prefix of a trace that never writes `pin`: none. */
  lemma WritesPrefixNone(t: seq<Event>, n: nat, pin: U64)
    requires n <= |t| && Writes(t, pin) == []
    ensures Writes(t[..n], pin) == []
  {
    assert t[..n] + t[n..] == t;
    WritesAppend(t[..n], t[n..], pin);
    assert |Writes(t[..n], pin)| + |Writes(t[n..], pin)| == 0;
  }

  // ---------------------------------------------------------------
  // Setup
  // ---------------------------------------------------------------

  /** Whether setting up a pin with these direction outcomes drives `p` low. */
  function LowIf(ok: bool, pin: U64, p: U64): seq<Level>
  {
    if ok && p == pin then [0] else []
  }

  lemma DirectionStepProjections(pin: U64, ok: bool, p: U64)
    ensures Exported(DirectionStep(pin, ok)) == []
    ensures Directed(DirectionStep(pin, ok)) == [pin]
    ensures Writes(DirectionStep(pin, ok), p) == LowIf(ok, pin, p)
  {
    ProjectSingle(SetDirection(pin, false), p);
    ProjectPair(SetDirection(pin, true), Write(pin, 0), p);
  }

  lemma ExportTraceProjections(w: Wiring, f: PinFlags, p: U64)
    ensures Exported(ExportTrace(w, f)) == w.PinOrder()
    ensures Directed(ExportTrace(w, f)) == []
    ensures Writes(ExportTrace(w, f), p) == []
  {
    ProjectSingle(Export(w.oe, f.oe), p);
    ProjectSingle(Export(w.ds, f.ds), p);
    ProjectSingle(Export(w.clock, f.clock), p);
    ProjectSingle(Export(w.latch, f.latch), p);
    ProjectFour([Export(w.oe, f.oe)], [Export(w.ds, f.ds)], [Export(w.clock, f.clock)], [Export(w.latch, f.latch)], p);
  }

  lemma DirectionTraceProjections(w: Wiring, f: PinFlags, p: U64)
    ensures Exported(DirectionTrace(w, f)) == []
    ensures Directed(DirectionTrace(w, f)) == w.PinOrder()
    ensures Writes(DirectionTrace(w, f), p) ==
            LowIf(f.oe, w.oe, p) + LowIf(f.ds, w.ds, p) + LowIf(f.clock, w.clock, p) + LowIf(f.latch, w.latch, p)
  {
    DirectionStepProjections(w.oe, f.oe, p);
    DirectionStepProjections(w.ds, f.ds, p);
    DirectionStepProjections(w.clock, f.clock, p);
    DirectionStepProjections(w.latch, f.latch, p);
    ProjectFour(DirectionStep(w.oe, f.oe), DirectionStep(w.ds, f.ds), DirectionStep(w.clock, f.clock), DirectionStep(w.latch, f.latch), p);
  }

  lemma SetupProjections(w: Wiring, io: IoOutcomes, p: U64)
    ensures Exported(SetupTrace(w, io)) == w.PinOrder()
    ensures Directed(SetupTrace(w, io)) == w.PinOrder()
    ensures Writes(SetupTrace(w, io), p) == Writes(DirectionTrace(w, io.directed), p)
  {
    ExportTraceProjections(w, io.exported, p);
    DirectionTraceProjections(w, io.directed, p);
    ProjectAppend(ExportTrace(w, io.exported), DirectionTrace(w, io.directed));
    WritesAppend(ExportTrace(w, io.exported), DirectionTrace(w, io.directed), p);
  }

  /** The four export attempts come first, in the order OE, DS, CLOCK, LATCH,
      whatever their outcomes; the direction attempts follow, in the same
      order, whatever their outcomes. */
  lemma SetupOrder(w: Wiring, io: IoOutcomes)
    ensures forall j :: 0 <= j < 4 ==> SetupTrace(w, io)[j] == Export(w.PinOrder()[j], io.exported.Flags()[j])
    ensures Exported(SetupTrace(w, io)) == w.PinOrder()
    ensures Directed(SetupTrace(w, io)) == w.PinOrder()
  {
    SetupProjections(w, io, w.oe);
    var f := io.exported;
    assert ExportTrace(w, f) == [Export(w.oe, f.oe), Export(w.ds, f.ds), Export(w.clock, f.clock), Export(w.latch, f.latch)];
    forall j | 0 <= j < 4 ensures SetupTrace(w, io)[j] == ExportTrace(w, f)[j] {
    }
  }

  /** Every write in `t` drives a pin low right after that pin was switched
      to output successfully. */
  predicate WritesFollowDirection(t: seq<Event>)
  {
    forall j :: 0 <= j < |t| && t[j].Write? ==>
      j > 0 && t[j].level == 0 && t[j - 1] == SetDirection(t[j].pin, true)
  }

  lemma FollowAppend(a: seq<Event>, b: seq<Event>)
    requires WritesFollowDirection(a) && WritesFollowDirection(b)
    requires b != [] ==> !b[0].Write?
    ensures WritesFollowDirection(a + b)
  {
    forall j | 0 <= j < |a + b| && (a + b)[j].Write?
      ensures j > 0 && (a + b)[j].level == 0 && (a + b)[j - 1] == SetDirection((a + b)[j].pin, true)
    {
      if j >= |a| {
        assert (a + b)[j] == b[j - |a|];
        if j > |a| {
          assert (a + b)[j - 1] == b[j - 1 - |a|];
        }
      }
    }
  }

  /** Every write of the setup drives a pin low right after that pin was
      switched to output successfully. */
  lemma SetupWritesFollowDirection(w: Wiring, io: IoOutcomes)
    ensures WritesFollowDirection(SetupTrace(w, io))
  {
    var f := io.directed;
    var s1, s2, s3, s4 := DirectionStep(w.oe, f.oe), DirectionStep(w.ds, f.ds), DirectionStep(w.clock, f.clock), DirectionStep(w.latch, f.latch);
    DirectionStepFollows(w.oe, f.oe);
    DirectionStepFollows(w.ds, f.ds);
    DirectionStepFollows(w.clock, f.clock);
    DirectionStepFollows(w.latch, f.latch);
    FollowAppend(s1, s2);
    FollowAppend(s1 + s2, s3);
    FollowAppend(s1 + s2 + s3, s4);
    ExportTraceFollows(w, io.exported);
    FollowAppend(ExportTrace(w, io.exported), DirectionTrace(w, f));
  }

  lemma DirectionStepFollows(pin: U64, ok: bool)
    ensures WritesFollowDirection(DirectionStep(pin, ok))
    ensures DirectionStep(pin, ok)[0].SetDirection?
  {
  }

  lemma ExportTraceFollows(w: Wiring, f: PinFlags)
    ensures WritesFollowDirection(ExportTrace(w, f))
  {
    assert ExportTrace(w, f) == [Export(w.oe, f.oe), Export(w.ds, f.ds), Export(w.clock, f.clock), Export(w.latch, f.latch)];
  }

  /** With four different pins, a pin whose direction change succeeds is
      driven low exactly once during setup, and a pin whose direction change
      fails is not written at all. */
  lemma SetupWrites(w: Wiring, io: IoOutcomes)
    requires w.Distinct()
    ensures Writes(SetupTrace(w, io), w.oe) == if io.directed.oe then [0] else []
    ensures Writes(SetupTrace(w, io), w.ds) == if io.directed.ds then [0] else []
    ensures Writes(SetupTrace(w, io), w.clock) == if io.directed.clock then [0] else []
    ensures Writes(SetupTrace(w, io), w.latch) == if io.directed.latch then [0] else []
  {
    var f := io.directed;
    SetupProjections(w, io, w.oe);
    DirectionTraceProjections(w, f, w.oe);
    assert Writes(SetupTrace(w, io), w.oe) == LowIf(f.oe, w.oe, w.oe) + [] + [] + [];
    SetupProjections(w, io, w.ds);
    DirectionTraceProjections(w, f, w.ds);
    assert Writes(SetupTrace(w, io), w.ds) == [] + LowIf(f.ds, w.ds, w.ds) + [] + [];
    SetupProjections(w, io, w.clock);
    DirectionTraceProjections(w, f, w.clock);
    assert Writes(SetupTrace(w, io), w.clock) == [] + [] + LowIf(f.clock, w.clock, w.clock) + [];
    SetupProjections(w, io, w.latch);
    DirectionTraceProjections(w, f, w.latch);
    assert Writes(SetupTrace(w, io), w.latch) == [] + [] + [] + LowIf(f.latch, w.latch, w.latch);
  }

  // ---------------------------------------------------------------
  // Clock loop and latch
  // ---------------------------------------------------------------

  /** One more bit adds one group at the end of the clock loop. */
  lemma ClockSectionSnoc(w: Wiring, bits: seq<Level>, k: nat)
    requires k < |bits|
    ensures ClockSection(w, bits[..k + 1]) == ClockSection(w, bits[..k]) + BitGroup(w, bits[k])
  {
    assert bits[..k + 1][..k] == bits[..k];
  }

  /** The first `k` groups of the clock loop are the clock loop over the first `k` bits. */
  lemma {:induction false} ClockSectionPrefix(w: Wiring, bits: seq<Level>, k: nat)
    requires k <= |bits|
    ensures ClockSection(w, bits)[..3 * k] == ClockSection(w, bits[..k])
    decreases |bits|
  {
    if k < |bits| {
      var init := bits[..|bits| - 1];
      ClockSectionPrefix(w, init, k);
      assert init[..k] == bits[..k];
    } else {
      assert bits[..k] == bits;
    }
  }

  /** Group `k` of the clock loop writes bit `k` to the data line and then
      pulses the clock. */
  lemma ClockGroup(w: Wiring, bits: seq<Level>, k: nat)
    requires k < |bits|
    ensures ClockSection(w, bits)[3 * k..3 * k + 3] == [Write(w.ds, bits[k]), Write(w.clock, 1), Write(w.clock, 0)]
  {
    ClockSectionPrefix(w, bits, k + 1);
    ClockSectionSnoc(w, bits, k);
    var t := ClockSection(w, bits);
    assert t[3 * k..3 * k + 3] == t[..3 * (k + 1)][3 * k..];
  }

  /** What the clock loop writes to `p`: the bits, in order, when `p` is the
      data pin; one pulse per bit when `p` is the clock pin; nothing otherwise. */
  lemma {:induction false} ClockSectionWrites(w: Wiring, bits: seq<Level>, p: U64)
    requires w.ds != w.clock
    ensures Writes(ClockSection(w, bits), p) ==
            if p == w.ds then bits else if p == w.clock then Pulses(|bits|) else []
  {
    if bits != [] {
      var init, b := bits[..|bits| - 1], bits[|bits| - 1];
      ClockSectionWrites(w, init, p);
      BitGroupWrites(w, b, p);
      WritesAppend(ClockSection(w, init), BitGroup(w, b), p);
      if p == w.ds {
        assert init + [b] == bits;
      } else if p == w.clock {
        assert |init| + 1 == |bits|;
      }
    }
  }

  lemma BitGroupWrites(w: Wiring, b: Level, p: U64)
    requires w.ds != w.clock
    ensures Writes(BitGroup(w, b), p) == if p == w.ds then [b] else if p == w.clock then [1, 0] else []
  {
    ProjectSingle(Write(w.ds, b), p);
    ProjectPair(Write(w.clock, 1), Write(w.clock, 0), p);
    WritesAppend([Write(w.ds, b)], ClockPulse(w), p);
  }

  lemma LatchPulseWrites(w: Wiring, p: U64)
    ensures Writes(LatchPulse(w), p) == if p == w.latch then [1, 0] else []
  {
    ProjectPair(Write(w.latch, 1), Write(w.latch, 0), p);
  }

  /** The checked write at position `n`, worked out from `n` alone: for
      `n = 3k + j` below 192, the data write of bit `63 - k` (j = 0) or the
      clock going high (j = 1) or low (j = 2); then latch high and latch low. */
  function CheckedWriteAt(w: Wiring, data: U64, n: nat): Event
    requires n < CHECKED_WRITES
  {
    if n < 3 * WIDTH then
      if n % 3 == 0 then Write(w.ds, Bit(data, WIDTH - 1 - n / 3))
      else if n % 3 == 1 then Write(w.clock, 1)
      else Write(w.clock, 0)
    else if n == 3 * WIDTH then Write(w.latch, 1)
    else Write(w.latch, 0)
  }

  /** The checked writes of bit group `k`: data, clock high, clock low. */
  lemma CheckedGroupAt(w: Wiring, data: U64, k: nat)
    requires k < WIDTH
    ensures CheckedTrace(w, data)[3 * k] == Write(w.ds, Bit(data, WIDTH - 1 - k))
    ensures CheckedTrace(w, data)[3 * k + 1] == Write(w.clock, 1)
    ensures CheckedTrace(w, data)[3 * k + 2] == Write(w.clock, 0)
  {
    var c := ClockSection(w, DataBitsMsbFirst(data));
    ClockGroup(w, DataBitsMsbFirst(data), k);
    assert c[3 * k..3 * k + 3][0] == c[3 * k];
    assert c[3 * k..3 * k + 3][1] == c[3 * k + 1];
    assert c[3 * k..3 * k + 3][2] == c[3 * k + 2];
  }

  /** The checked writes, built group by group, agree with the positional
      description at every position. */
  lemma CheckedTraceAt(w: Wiring, data: U64, n: nat)
    requires n < CHECKED_WRITES
    ensures CheckedTrace(w, data)[n] == CheckedWriteAt(w, data, n)
  {
    if n < 3 * WIDTH {
      CheckedGroupAt(w, data, n / 3);
    }
  }

  /** A prefix of `t` followed by the events that come next in `t` is a
      longer prefix of `t`, whatever comes before it. */
  lemma PrefixExtend(before: seq<Event>, t: seq<Event>, n: nat, piece: seq<Event>)
    requires n + |piece| <= |t|
    requires forall j :: 0 <= j < |piece| ==> t[n + j] == piece[j]
    ensures before + t[..n] + piece == before + t[..n + |piece|]
  {
    assert t[..n] + piece == t[..n + |piece|];
  }

  /** The first `r` writes of the group of bit `i` extend the checked writes
      of the groups of bits 63 down to `i + 1` by `r`. */
  lemma BitGroupExtends(before: seq<Event>, w: Wiring, data: U64, i: nat, r: nat)
    requires i < WIDTH && r <= 3
    ensures before + CheckedTrace(w, data)[..3 * (WIDTH - 1 - i)] + BitGroup(w, Bit(data, i))[..r]
         == before + CheckedTrace(w, data)[..3 * (WIDTH - 1 - i) + r]
    ensures 3 * (WIDTH - 1 - i) + 3 == 3 * (WIDTH - i)
  {
    CheckedGroupAt(w, data, WIDTH - 1 - i);
    PrefixExtend(before, CheckedTrace(w, data), 3 * (WIDTH - 1 - i), BitGroup(w, Bit(data, i))[..r]);
  }

  /** The first `r` writes of the latch pulse extend the 192 writes of the
      clock loop by `r`. */
  lemma LatchPulseExtends(before: seq<Event>, w: Wiring, data: U64, r: nat)
    requires r <= 2
    ensures before + CheckedTrace(w, data)[..3 * WIDTH] + LatchPulse(w)[..r]
         == before + CheckedTrace(w, data)[..3 * WIDTH + r]
  {
    CheckedTraceAt(w, data, 3 * WIDTH);
    CheckedTraceAt(w, data, 3 * WIDTH + 1);
    PrefixExtend(before, CheckedTrace(w, data), 3 * WIDTH, LatchPulse(w)[..r]);
  }

  /** The trace of a shift-out that has attempted `n` checked writes, when
      that is all it attempts. */
  lemma ShiftOutStops(w: Wiring, data: U64, io: IoOutcomes, before: seq<Event>, n: nat)
    requires n == Attempted(io)
    ensures before + SetupTrace(w, io) + CheckedTrace(w, data)[..n] == before + ShiftOutTrace(w, data, io)
  {
  }

  // ---------------------------------------------------------------
  // What each pin sees
  // ---------------------------------------------------------------

  lemma CheckedTraceWritesTo(w: Wiring, data: U64, p: U64)
    requires w.ds != w.clock
    ensures Writes(CheckedTrace(w, data), p) ==
            Writes(ClockSection(w, DataBitsMsbFirst(data)), p) + (if p == w.latch then [1, 0] else [])
    ensures Writes(CheckedTrace(w, data)[..3 * WIDTH], p) == Writes(ClockSection(w, DataBitsMsbFirst(data)), p)
  {
    var c := ClockSection(w, DataBitsMsbFirst(data));
    LatchPulseWrites(w, p);
    WritesAppend(c, LatchPulse(w), p);
    assert CheckedTrace(w, data)[..3 * WIDTH] == c;
  }

  /** With four different pins, a complete shift-out puts the 64 buffer bits
      on the data line, most significant first, so that reading them back
      as a big-endian number gives `data`; pulses the clock 64 times; pulses
      the latch once, after the last clock pulse; and never drives output
      enable. */
  lemma CheckedTraceWrites(w: Wiring, data: U64)
    requires w.Distinct()
    ensures Writes(CheckedTrace(w, data), w.ds) == DataBitsMsbFirst(data)
    ensures FromBitsMsbFirst(Writes(CheckedTrace(w, data), w.ds)) == data
    ensures Writes(CheckedTrace(w, data), w.clock) == Pulses(WIDTH)
    ensures Writes(CheckedTrace(w, data), w.latch) == [1, 0]
    ensures Writes(CheckedTrace(w, data)[..3 * WIDTH], w.latch) == []
    ensures Writes(CheckedTrace(w, data), w.oe) == []
  {
    var bits := DataBitsMsbFirst(data);
    ClockSectionWrites(w, bits, w.ds);
    ClockSectionWrites(w, bits, w.clock);
    ClockSectionWrites(w, bits, w.latch);
    ClockSectionWrites(w, bits, w.oe);
    CheckedTraceWritesTo(w, data, w.ds);
    CheckedTraceWritesTo(w, data, w.clock);
    CheckedTraceWritesTo(w, data, w.latch);
    CheckedTraceWritesTo(w, data, w.oe);
    DecodeDataBits(data);
  }

  lemma ShiftOutWrites(w: Wiring, data: U64, io: IoOutcomes, p: U64)
    ensures Writes(ShiftOutTrace(w, data, io), p) ==
            Writes(SetupTrace(w, io), p) + Writes(CheckedTrace(w, data)[..Attempted(io)], p)
  {
    WritesAppend(SetupTrace(w, io), CheckedTrace(w, data)[..Attempted(io)], p);
  }

  /** A shift-out that stops inside the clock loop writes nothing to the
      latch pin after setup: the only latch writes are those of setup. */
  lemma AbortBeforeLatch(w: Wiring, data: U64, io: IoOutcomes)
    requires w.Distinct()
    requires Attempted(io) <= 3 * WIDTH
    ensures Writes(ShiftOutTrace(w, data, io), w.latch) == Writes(SetupTrace(w, io), w.latch)
  {
    var t := CheckedTrace(w, data);
    ClockSectionWrites(w, DataBitsMsbFirst(data), w.latch);
    CheckedTraceWritesTo(w, data, w.latch);
    WritesPrefixNone(t[..3 * WIDTH], Attempted(io), w.latch);
    assert t[..3 * WIDTH][..Attempted(io)] == t[..Attempted(io)];
    ShiftOutWrites(w, data, io, w.latch);
  }

  /** The whole shift-out, setup included, drives output enable only low, and
      only when switching it to output succeeds: the register's outputs stay
      enabled. */
  lemma OutputEnableStaysLow(w: Wiring, data: U64, io: IoOutcomes)
    requires w.Distinct()
    ensures Writes(ShiftOutTrace(w, data, io), w.oe) == if io.directed.oe then [0] else []
  {
    CheckedTraceWrites(w, data);
    WritesPrefixNone(CheckedTrace(w, data), Attempted(io), w.oe);
    ShiftOutWrites(w, data, io, w.oe);
    SetupWrites(w, io);
  }

  /** A shift-out that panics stops right after the failing write; one that
      does not ends with the latch pulse. */
  lemma ShiftOutEnd(w: Wiring, data: U64, io: IoOutcomes)
    ensures Panics(io) ==> |ShiftOutTrace(w, data, io)| == |SetupTrace(w, io)| + io.failingWrite.value + 1
    ensures Panics(io) ==> ShiftOutTrace(w, data, io)[|ShiftOutTrace(w, data, io)| - 1] == CheckedTrace(w, data)[io.failingWrite.value]
    ensures !Panics(io) ==> ShiftOutTrace(w, data, io) == SetupTrace(w, io) + ClockSection(w, DataBitsMsbFirst(data)) + LatchPulse(w)
  {
    if !Panics(io) {
      assert CheckedTrace(w, data)[..CHECKED_WRITES] == CheckedTrace(w, data);
    }
  }

  /** Shifting out the zero buffer (as `init` does) writes 0 to the data line
      for every one of the 64 bits. */
  lemma ZeroShiftOutWrites(w: Wiring)
    requires w.Distinct()
    ensures Writes(CheckedTrace(w, 0), w.ds) == seq(WIDTH, _ => 0)
  {
    CheckedTraceWrites(w, 0);
    ZeroBufferBits();
  }
}
