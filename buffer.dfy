/** The 64-bit output buffer of the shift-register driver: one bit per output
    cell, bit 0 being the cell addressed as `set(1)`.

    The buffer is a `u64`, modelled as an integer in [0, 2^64). The bit
    operations the driver uses on it, `x >> i`, `x & 1` and `a | b`, are defined
    here bit by bit on naturals, so that every fact about them is proved by
    induction over the bits. */
module Buffer {

  /** Rust's `u64`: pin identifiers, the bit number given to `set`, and the buffer. */
  type U64 = x: int | 0 <= x < 0x1_0000_0000_0000_0000

  /** A logic level written to a pin: 0 (low) or 1 (high). */
  type Level = v: nat | v <= 1

  /** Number of bits in the buffer, and so of clock pulses per shift-out. */
  const WIDTH: nat := 64

  /** `1 << n`. */
  function Pow2(n: nat): (p: nat)
    ensures p > 0
  {
    if n == 0 then 1 else 2 * Pow2(n - 1)
  }

  /** `x >> n`: `n` halvings, each rounding down. */
  function ShiftRight(x: nat, n: nat): nat
  {
    if n == 0 then x else ShiftRight(x / 2, n - 1)
  }

  /** `(x >> i) & 1`: bit `i` of `x`, counting from the least significant. */
  function Bit(x: nat, i: nat): Level
  {
    ShiftRight(x, i) % 2
  }

  /** `a | b`: a bit of the result is 1 when that bit is 1 in `a` or in `b`. */
  function Or(a: nat, b: nat): nat
    decreases a + b
  {
    if a == 0 && b == 0 then 0
    else 2 * Or(a / 2, b / 2) + (if a % 2 == 1 || b % 2 == 1 then 1 else 0)
  }

  /** The buffer after `set(index + 1)`, i.e. `data | (1 << index)`. */
  function WithBit(data: U64, index: nat): (r: U64)
    requires index < WIDTH
    ensures Bit(r, index) == 1
    ensures forall j :: 0 <= j < WIDTH && j != index ==> Bit(r, j) == Bit(data, j)
    ensures Bit(data, index) == 1 ==> r == data
    ensures Bit(data, index) == 0 ==> r == data + Pow2(index)
  {
    Pow2Bound(index, WIDTH);
    Pow2Width();
    OrBound(data, Pow2(index), WIDTH);
    forall j | 0 <= j < WIDTH ensures Bit(Or(data, Pow2(index)), j) == (if j == index then 1 else Bit(data, j)) {
      OrBit(data, Pow2(index), j);
      Pow2Bit(index, j);
    }
    OrFreshBit(data, index);
    Or(data, Pow2(index))
  }

  /** The `n` lowest bits of `x`, most significant first: bit n-1, ..., bit 0. */
  function LowBitsMsbFirst(x: nat, n: nat): (bits: seq<Level>)
    ensures |bits| == n
  {
    if n == 0 then [] else LowBitsMsbFirst(x / 2, n - 1) + [x % 2]
  }

  /** The data-line levels of one shift-out, in the order they are clocked:
      `(data >> 63) & 1` first, `(data >> 0) & 1` last. */
  function DataBitsMsbFirst(data: U64): (bits: seq<Level>)
    ensures |bits| == WIDTH
    ensures forall k :: 0 <= k < WIDTH ==> bits[k] == Bit(data, WIDTH - 1 - k)
  {
    var bits := LowBitsMsbFirst(data, WIDTH);
    forall k | 0 <= k < WIDTH ensures bits[k] == Bit(data, WIDTH - 1 - k) {
      LowBitsAt(data, WIDTH, WIDTH - 1 - k);
    }
    bits
  }

  /** Reads a sequence of levels back as a big-endian number: the first
      level ends up as the most significant bit. */
  function FromBitsMsbFirst(bits: seq<Level>): nat
  {
    if bits == [] then 0
    else 2 * FromBitsMsbFirst(bits[..|bits| - 1]) + bits[|bits| - 1]
  }

  // ---------------------------------------------------------------
  // Bit facts
  // ---------------------------------------------------------------

  lemma {:induction false} ShiftRightZero(n: nat)
    ensures ShiftRight(0, n) == 0
  {
    if n > 0 {
      ShiftRightZero(n - 1);
    }
  }

  lemma {:induction false} Pow2Bound(n: nat, m: nat)
    requires n < m
    ensures Pow2(n) < Pow2(m)
  {
    if n + 1 < m {
      Pow2Bound(n, m - 1);
    }
  }

  /** 2^64 is one past the largest `u64`, by evaluation eight bits at a time. */
  lemma Pow2Width()
    ensures Pow2(WIDTH) == 0x1_0000_0000_0000_0000
  {
    assert Pow2(8) == 0x100;
    assert Pow2(16) == 0x1_0000;
    assert Pow2(24) == 0x100_0000;
    assert Pow2(32) == 0x1_0000_0000;
    assert Pow2(40) == 0x100_0000_0000;
    assert Pow2(48) == 0x1_0000_0000_0000;
    assert Pow2(56) == 0x100_0000_0000_0000;
  }

  /** `1 << k` has exactly bit `k` set. */
  lemma {:induction false} Pow2Bit(k: nat, i: nat)
    ensures Bit(Pow2(k), i) == if i == k then 1 else 0
  {
    if i == 0 {
    } else if k == 0 {
      ShiftRightZero(i - 1);
    } else {
      Pow2Bit(k - 1, i - 1);
    }
  }

  /** The lowest bit and the remaining bits of `a | b`. */
  lemma OrHalves(a: nat, b: nat)
    ensures Or(a, b) % 2 == if a % 2 == 1 || b % 2 == 1 then 1 else 0
    ensures Or(a, b) / 2 == Or(a / 2, b / 2)
  {
  }

  /** A bit of `a | b` is set exactly when it is set in `a` or in `b`. */
  lemma {:induction false} OrBit(a: nat, b: nat, i: nat)
    ensures (Bit(Or(a, b), i) == 1) == (Bit(a, i) == 1 || Bit(b, i) == 1)
  {
    OrHalves(a, b);
    if i > 0 {
      OrBit(a / 2, b / 2, i - 1);
    }
  }

  /** `a | b` stays below 2^n when both operands do: no bit beyond the width appears. */
  lemma {:induction false} OrBound(a: nat, b: nat, n: nat)
    requires a < Pow2(n) && b < Pow2(n)
    ensures Or(a, b) < Pow2(n)
  {
    OrHalves(a, b);
    if n > 0 {
      OrBound(a / 2, b / 2, n - 1);
    }
  }

  /** `x | 0 == x`. */
  lemma {:induction false} OrZero(x: nat)
    ensures Or(x, 0) == x
    decreases x
  {
    if x > 0 {
      OrZero(x / 2);
    }
  }

  /** Or-ing in bit `k`: nothing changes when it is already set, and otherwise
      the value grows by exactly 2^k. */
  lemma {:induction false} OrFreshBit(x: nat, k: nat)
    ensures Bit(x, k) == 1 ==> Or(x, Pow2(k)) == x
    ensures Bit(x, k) == 0 ==> Or(x, Pow2(k)) == x + Pow2(k)
  {
    OrHalves(x, Pow2(k));
    if k == 0 {
      OrZero(x / 2);
    } else {
      OrFreshBit(x / 2, k - 1);
    }
  }

  /** `(a | b) | b == a | b`. */
  lemma {:induction false} OrAbsorb(a: nat, b: nat)
    ensures Or(Or(a, b), b) == Or(a, b)
    decreases a + b
  {
    OrHalves(a, b);
    OrHalves(Or(a, b), b);
    if a + b > 0 {
      OrAbsorb(a / 2, b / 2);
    }
  }

  // ---------------------------------------------------------------
  // The clocked bit order and its inverse
  // ---------------------------------------------------------------

  /** Position n-1-k of the low bits holds bit k. */
  lemma {:induction false} LowBitsAt(x: nat, n: nat, k: nat)
    requires k < n
    ensures LowBitsMsbFirst(x, n)[n - 1 - k] == Bit(x, k)
  {
    if k > 0 {
      LowBitsAt(x / 2, n - 1, k - 1);
    }
  }

  /** Appending one level doubles the number read so far and adds the level. */
  lemma HornerStep(bits: seq<Level>, b: Level)
    ensures FromBitsMsbFirst(bits + [b]) == 2 * FromBitsMsbFirst(bits) + b
  {
    assert (bits + [b])[..|bits|] == bits;
  }

  /** Reading the `n` low bits of a number below 2^n gives the number back. */
  lemma {:induction false} LowBitsRoundTrip(x: nat, n: nat)
    requires x < Pow2(n)
    ensures FromBitsMsbFirst(LowBitsMsbFirst(x, n)) == x
  {
    if n > 0 {
      LowBitsRoundTrip(x / 2, n - 1);
      HornerStep(LowBitsMsbFirst(x / 2, n - 1), x % 2);
    }
  }

  /** A sequence of levels, read as a number and split into bits again, is unchanged. */
  lemma {:induction false} FromBitsRoundTrip(bits: seq<Level>)
    ensures FromBitsMsbFirst(bits) < Pow2(|bits|)
    ensures LowBitsMsbFirst(FromBitsMsbFirst(bits), |bits|) == bits
  {
    if bits != [] {
      var prefix := bits[..|bits| - 1];
      FromBitsRoundTrip(prefix);
      assert prefix + [bits[|bits| - 1]] == bits;
    }
  }

  /** Reading the clocked-out levels back as a big-endian number gives the
      buffer again: no bit is lost, duplicated or reordered. */
  lemma DecodeDataBits(data: U64)
    ensures FromBitsMsbFirst(DataBitsMsbFirst(data)) == data
  {
    Pow2Width();
    LowBitsRoundTrip(data, WIDTH);
  }

  /** Every sequence of 64 levels is what exactly one buffer value clocks out. */
  lemma EncodeBits(bits: seq<Level>)
    requires |bits| == WIDTH
    ensures FromBitsMsbFirst(bits) < 0x1_0000_0000_0000_0000
    ensures DataBitsMsbFirst(FromBitsMsbFirst(bits)) == bits
  {
    Pow2Width();
    FromBitsRoundTrip(bits);
  }

  /** Two buffers that clock out the same levels are the same buffer. */
  lemma DataBitsInjective(a: U64, b: U64)
    requires DataBitsMsbFirst(a) == DataBitsMsbFirst(b)
    ensures a == b
  {
    DecodeDataBits(a);
    DecodeDataBits(b);
  }

  /** An all-zero buffer clocks out 64 zeros. */
  lemma ZeroBufferBits()
    ensures DataBitsMsbFirst(0) == seq(WIDTH, _ => 0)
  {
    var bits := DataBitsMsbFirst(0);
    forall k | 0 <= k < WIDTH ensures bits[k] == 0 {
      ShiftRightZero(WIDTH - 1 - k);
    }
  }

  // ---------------------------------------------------------------
  // set
  // ---------------------------------------------------------------

  /** Setting a bit never clears one: every bit set before is set after. */
  lemma WithBitKeepsSetBits(data: U64, index: nat, j: nat)
    requires index < WIDTH && j < WIDTH
    requires Bit(data, j) == 1
    ensures Bit(WithBit(data, index), j) == 1
  {
  }

  /** Setting the same bit twice leaves the buffer as setting it once. */
  lemma WithBitIdempotent(data: U64, index: nat)
    requires index < WIDTH
    ensures WithBit(WithBit(data, index), index) == WithBit(data, index)
  {
    OrAbsorb(data, Pow2(index));
  }

  /** Setting two bits gives the same buffer in either order. */
  lemma WithBitCommutes(data: U64, i: nat, j: nat)
    requires i < WIDTH && j < WIDTH
    ensures WithBit(WithBit(data, i), j) == WithBit(WithBit(data, j), i)
  {
    var a, b := WithBit(WithBit(data, i), j), WithBit(WithBit(data, j), i);
    forall k | 0 <= k < WIDTH ensures DataBitsMsbFirst(a)[k] == DataBitsMsbFirst(b)[k] {
    }
    DataBitsInjective(a, b);
  }

  /** `set(5)` on an empty buffer gives 0b1_0000. */
  lemma SetFifthBitExample()
    ensures WithBit(0, 4) == 0x10
  {
    ShiftRightZero(4);
  }

  /** `set(1)`, `set(5)`, `set(10)` on an empty buffer give 0b1, 0b1_0001 and
      0b10_0001_0001: each call keeps the bits set before it. */
  lemma SetSeveralBitsExample()
    ensures WithBit(0, 0) == 0x1
    ensures WithBit(0x1, 4) == 0x11
    ensures WithBit(0x11, 9) == 0x211
  {
    ShiftRightZero(0);
    assert Bit(1, 4) == 0;
    assert Bit(0x11, 9) == 0;
  }

  /** `set(10)` on an empty buffer gives bit 9 alone, and a following
      `set(5)` adds bit 4. */
  lemma SetDocExample()
    ensures WithBit(0, 9) == 0x200
    ensures WithBit(0x200, 4) == 0x210
  {
    ShiftRightZero(9);
    assert Bit(0x200, 4) == 0;
  }

  /** `set(1)` then `set(2)` on an empty buffer give 0b11. */
  lemma SetLowTwoBitsExample()
    ensures WithBit(WithBit(0, 0), 1) == 0x3
  {
    ShiftRightZero(0);
    assert Bit(1, 1) == 0;
  }
}
