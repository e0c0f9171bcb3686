/** Eight-bit cells of the console: as numbers, as bits, and as what is left of an unbounded tick. */
module Bytes {
  datatype Option<T> = None | Some(value: T)

  newtype byte = x: int | 0 <= x < 256

  // ---- numbers ----

  /** The eight bits a cell keeps of an unbounded tick. */
  function Low(t: int): byte {
    (t % 256) as byte
  }

  /** `ADC` with the carry dropped. */
  function Add(a: byte, b: byte): byte {
    var sum := a as int + b as int;
    if sum < 256 then sum as byte else (sum - 256) as byte
  }

  /** `SEC / SBC / BPL`: the sign of the eight-bit difference a - b. */
  predicate SignedAtLeast(a: byte, b: byte) {
    (a as int - b as int) % 256 < 128
  }

  function Max(a: int, b: int): int {
    if a < b then b else a
  }

  /** Within 127 ticks the eight-bit signed compare is the compare of the unbounded ticks. */
  lemma SignedCompareIsExact(a: int, b: int)
    requires -128 <= a - b <= 127
    ensures SignedAtLeast(Low(a), Low(b)) <==> a >= b
  {
    assert (Low(a) as int - Low(b) as int) % 256 == (a - b) % 256;
  }

  /** Two ticks less than a lap apart share a cell only if they are the same tick. */
  lemma LowIsInjectiveNearby(a: int, b: int)
    requires -256 < a - b < 256
    ensures Low(a) == Low(b) <==> a == b
  {}

  /** What a cell keeps determines the slot of an eight- or four-slot ring, and its neighbours' cells. */
  lemma LowKeeps(t: int, d: int)
    ensures Low(t) as int % 8 == t % 8 && Low(t) as int % 4 == t % 4
    ensures Low(Low(t) as int + d) == Low(t + d)
  {
    var laps, r := t / 256, t % 256;
    Laps(r + d, laps);
    Eights(r, 32 * laps);
    Fours(r, 64 * laps);
  }

  lemma Laps(x: int, q: int)
    ensures (x + 256 * q) % 256 == x % 256
  {}

  lemma Eights(x: int, q: int)
    ensures (x + 8 * q) % 8 == x % 8
  {}

  lemma Fours(x: int, q: int)
    ensures (x + 4 * q) % 4 == x % 4
  {}

  // ---- bits ----

  datatype Bits = Bits(b7: bool, b6: bool, b5: bool, b4: bool, b3: bool, b2: bool, b1: bool, b0: bool)

  const ZERO := Bits(false, false, false, false, false, false, false, false)
  const ONES := Bits(true, true, true, true, true, true, true, true)

  function And(a: Bits, b: Bits): Bits {
    Bits(a.b7 && b.b7, a.b6 && b.b6, a.b5 && b.b5, a.b4 && b.b4, a.b3 && b.b3, a.b2 && b.b2, a.b1 && b.b1, a.b0 && b.b0)
  }

  function Or(a: Bits, b: Bits): Bits {
    Bits(a.b7 || b.b7, a.b6 || b.b6, a.b5 || b.b5, a.b4 || b.b4, a.b3 || b.b3, a.b2 || b.b2, a.b1 || b.b1, a.b0 || b.b0)
  }

  /** `EOR`. */
  function Eor(a: Bits, b: Bits): Bits {
    Bits(a.b7 != b.b7, a.b6 != b.b6, a.b5 != b.b5, a.b4 != b.b4, a.b3 != b.b3, a.b2 != b.b2, a.b1 != b.b1, a.b0 != b.b0)
  }

  function Not(a: Bits): Bits {
    Eor(a, ONES)
  }

  /** `ASL A`. */
  function Asl(a: Bits): Bits {
    Bits(a.b6, a.b5, a.b4, a.b3, a.b2, a.b1, a.b0, false)
  }

  /** `LSR A`. */
  function Lsr(a: Bits): Bits {
    Bits(false, a.b7, a.b6, a.b5, a.b4, a.b3, a.b2, a.b1)
  }

  function Nibble(b3: bool, b2: bool, b1: bool, b0: bool): (n: int)
    ensures 0 <= n < 16
  {
    (if b3 then 8 else 0) + (if b2 then 4 else 0) + (if b1 then 2 else 0) + (if b0 then 1 else 0)
  }

  function Bit(n: int, k: int): bool
    requires 0 <= n < 16 && 0 <= k < 4
  {
    if k == 3 then n >= 8 else if k == 2 then n % 8 >= 4 else if k == 1 then n % 4 >= 2 else n % 2 == 1
  }

  function FromBits(b: Bits): byte {
    (16 * Nibble(b.b7, b.b6, b.b5, b.b4) + Nibble(b.b3, b.b2, b.b1, b.b0)) as byte
  }

  function ToBits(v: byte): Bits {
    var high, low := v as int / 16, v as int % 16;
    Bits(Bit(high, 3), Bit(high, 2), Bit(high, 1), Bit(high, 0), Bit(low, 3), Bit(low, 2), Bit(low, 1), Bit(low, 0))
  }

  lemma NibbleOfBits(n: int)
    requires 0 <= n < 16
    ensures Nibble(Bit(n, 3), Bit(n, 2), Bit(n, 1), Bit(n, 0)) == n
  {}

  lemma BitsOfNibble(b3: bool, b2: bool, b1: bool, b0: bool)
    ensures var n := Nibble(b3, b2, b1, b0); Bit(n, 3) == b3 && Bit(n, 2) == b2 && Bit(n, 1) == b1 && Bit(n, 0) == b0
  {}

  lemma HighAndLow(h: int, l: int)
    requires 0 <= h < 16 && 0 <= l < 16
    ensures (16 * h + l) / 16 == h && (16 * h + l) % 16 == l
  {}

  /** A byte is its bits: no value is lost either way. */
  lemma BitsRoundTrip(v: byte)
    ensures FromBits(ToBits(v)) == v
  {
    hide Nibble, Bit;
    NibbleOfBits(v as int / 16);
    NibbleOfBits(v as int % 16);
  }

  lemma ByteRoundTrip(b: Bits)
    ensures ToBits(FromBits(b)) == b
  {
    hide Nibble, Bit;
    BitsOfNibble(b.b7, b.b6, b.b5, b.b4);
    BitsOfNibble(b.b3, b.b2, b.b1, b.b0);
    HighAndLow(Nibble(b.b7, b.b6, b.b5, b.b4), Nibble(b.b3, b.b2, b.b1, b.b0));
  }

  /** Adding $40 steps the two-bit counter at the top of a byte and disturbs nothing below it. */
  lemma TopTwoBitsCount(b: Bits)
    ensures ToBits(Add(FromBits(b), 0x40)) == b.(b6 := !b.b6, b7 := b.b7 != b.b6)
  {
    var c := b.(b6 := !b.b6, b7 := b.b7 != b.b6);
    assert Add(FromBits(b), 0x40) == FromBits(c);
    hide *;
    ByteRoundTrip(c);
  }

  lemma EorCommutes(a: Bits, b: Bits)
    ensures Eor(a, b) == Eor(b, a)
  {}

  lemma EorAssociates(a: Bits, b: Bits, c: Bits)
    ensures Eor(Eor(a, b), c) == Eor(a, Eor(b, c))
  {}

  lemma EorCancels(a: Bits, b: Bits, c: Bits)
    ensures Eor(a, c) == Eor(b, c) <==> a == b
  {}

  lemma EorZero(a: Bits)
    ensures Eor(a, ZERO) == a && Eor(ZERO, a) == a
  {}
}
