/** The sixteen-byte frames the two consoles exchange through the relay. */
module Wire {
  import opened Bytes

  const FRAME_LENGTH := 16
  const TYPE_INPUT: byte := 0x06
  const TYPE_LEFT: byte := 0x0B
  const WINDOW := 3
  const DELAY := 2

  /** The salt of the check byte, $A5. */
  const CHECK_SEED := Bits(true, false, true, false, false, true, false, true)

  /** One console's input for one tick: paddle A, and the switch and trigger byte. */
  datatype Capture = Capture(paddle: byte, switches: Bits)

  const IDLE := Capture(0x00, ONES)

  /** An INPUT record: the tick its window ends at, three captures newest first, and a checksum. */
  datatype Record = Record(tick: byte, newest: Capture, middle: Capture, oldest: Capture, crc: byte)

  type Frame = f: seq<byte> | |f| == FRAME_LENGTH witness [15, 6, 0, 0, 0, 0, 0, 0, 0, 0, 0, 0, 0, 0, 0, 0]

  /** The eleven bytes of a record the check byte covers: tick, window, checksum. */
  function Body(r: Record): (b: seq<byte>)
    ensures |b| == 11
  {
    [r.tick,
     r.newest.paddle, 0, FromBits(r.newest.switches),
     r.middle.paddle, 0, FromBits(r.middle.switches),
     r.oldest.paddle, 0, FromBits(r.oldest.switches),
     r.crc]
  }

  /** Exclusive-or accumulated over a run of bytes, as both ends do it. */
  function Xor(seed: Bits, s: seq<byte>): Bits {
    if s == [] then seed else Eor(Xor(seed, s[..|s| - 1]), ToBits(s[|s| - 1]))
  }

  /** The frame a console sends: length, type, body, check byte, two bytes of padding. */
  function Encode(r: Record): Frame {
    [15, TYPE_INPUT] + Body(r) + [FromBits(Xor(CHECK_SEED, Body(r))), 0, 0]
  }

  /** The frame the relay sends to the survivor of a match. */
  const PEER_LEFT: Frame := [15, TYPE_LEFT, 0, 0, 0, 0, 0, 0, 0, 0, 0, 0, 0, 0, 0, 0]

  datatype Arrival = Input(record: Record) | Departure | Ignored

  /** The fields of a record, read where they lie. */
  function Fields(f: Frame): Record {
    Record(f[2], Capture(f[3], ToBits(f[5])), Capture(f[6], ToBits(f[8])), Capture(f[9], ToBits(f[11])), f[12])
  }

  predicate CheckHolds(f: Frame) {
    Xor(CHECK_SEED, f[2..13]) == ToBits(f[13])
  }

  /** What the receiver makes of sixteen bytes of its reply window. */
  function Decode(f: Frame): Arrival {
    if f[1] == TYPE_LEFT then Departure
    else if f[1] != TYPE_INPUT || !CheckHolds(f) then Ignored
    else Input(Fields(f))
  }

  /** A record that was not damaged decodes to exactly what its sender put in it. */
  lemma DecodeInvertsEncode(r: Record)
    ensures Decode(Encode(r)) == Input(r)
  {
    hide FromBits, ToBits, Xor;
    var f := Encode(r);
    assert f[2..13] == Body(r);
    ByteRoundTrip(r.newest.switches);
    ByteRoundTrip(r.middle.switches);
    ByteRoundTrip(r.oldest.switches);
    ByteRoundTrip(Xor(CHECK_SEED, Body(r)));
  }

  /** Two runs that differ in one byte have different exclusive-ors. */
  lemma {:induction false} XorNotices(seed: Bits, s: seq<byte>, i: nat, v: byte)
    requires i < |s| && s[i] != v
    ensures Xor(seed, s[i := v]) != Xor(seed, s)
  {
    hide ToBits, FromBits, Eor;
    var t := s[i := v];
    var n := |s| - 1;
    var before := Xor(seed, s[..n]);
    if i == n {
      assert t[..n] == s[..n];
      BitsRoundTrip(v);
      BitsRoundTrip(s[i]);
      EorCommutes(before, ToBits(v));
      EorCommutes(before, ToBits(s[i]));
      EorCancels(ToBits(v), ToBits(s[i]), before);
    } else {
      XorNotices(seed, s[..n], i, v);
      assert t[..n] == s[..n][i := v];
      EorCancels(Xor(seed, t[..n]), before, ToBits(s[n]));
    }
  }

  /** Where the accumulation starts does not matter: the receiver adds the seed last. */
  lemma {:induction false} XorSeedLast(seed: Bits, s: seq<byte>)
    ensures Xor(seed, s) == Eor(Xor(ZERO, s), seed)
  {
    hide ToBits, Eor;
    if s == [] {
      EorZero(seed);
    } else {
      var (before, last) := (Xor(ZERO, s[..|s| - 1]), ToBits(s[|s| - 1]));
      XorSeedLast(seed, s[..|s| - 1]);
      EorAssociates(before, seed, last);
      EorCommutes(seed, last);
      EorAssociates(before, last, seed);
    }
  }

  /**
   * One damaged byte anywhere: the record survives unchanged exactly when the byte is the length
   * byte or padding; anywhere between the tick and the check byte it is dropped, and a damaged type
   * byte can only make it a departure or nothing.
   */
  lemma OneDamagedByte(r: Record, i: nat, v: byte)
    requires i < FRAME_LENGTH && Encode(r)[i] != v
    ensures var f: Frame := Encode(r)[i := v];
            Decode(f) == (if i == 0 || i >= 14 then Input(r)
                          else if i == 1 && v == TYPE_LEFT then Departure
                          else Ignored)
  {
    DecodeInvertsEncode(r);
    hide ToBits, FromBits, Xor, Encode;
    var e: Frame := Encode(r);
    var f: Frame := e[i := v];
    if i == 1 {
      DecodedAsInput(e);
    } else if 2 <= i <= 12 {
      DecodedAsInput(e);
      XorNotices(CHECK_SEED, e[2..13], i - 2, v);
      assert f[2..13] == e[2..13][i - 2 := v];
    } else {
      DecodedAsInput(e);
      assert f[2..13] == e[2..13];
      BitsRoundTrip(v);
      BitsRoundTrip(e[13]);
    }
  }

  lemma DecodedAsInput(f: Frame)
    requires Decode(f).Input?
    ensures f[1] == TYPE_INPUT && CheckHolds(f)
  {}

  /** The byte stream that carries a sequence of frames. */
  function Flat(fs: seq<Frame>): (bytes: seq<byte>)
    ensures |bytes| == FRAME_LENGTH * |fs|
  {
    if fs == [] then [] else fs[0] + Flat(fs[1..])
  }

  lemma {:induction false} FlatAppend(a: seq<Frame>, b: seq<Frame>)
    ensures Flat(a + b) == Flat(a) + Flat(b)
  {
    if a == [] {
      assert a + b == b;
    } else {
      var rest := a[1..];
      FlatAppend(rest, b);
      assert (a + b)[1..] == rest + b && (a + b)[0] == a[0];
      assert a[0] + (Flat(rest) + Flat(b)) == (a[0] + Flat(rest)) + Flat(b);
    }
  }

  /** Reading a whole number of frames' worth of bytes reads whole frames and leaves whole frames. */
  lemma {:induction false} FlatCut(fs: seq<Frame>, n: nat)
    requires n <= |fs|
    ensures Flat(fs)[..FRAME_LENGTH * n] == Flat(fs[..n])
    ensures Flat(fs)[FRAME_LENGTH * n..] == Flat(fs[n..])
  {
    assert fs == fs[..n] + fs[n..];
    FlatAppend(fs[..n], fs[n..]);
  }

  /** Frame k of a stream sits at byte 16k. */
  lemma {:induction false} FlatAt(fs: seq<Frame>, k: nat)
    requires k < |fs|
    ensures FRAME_LENGTH * k + FRAME_LENGTH <= |Flat(fs)|
    ensures Flat(fs)[FRAME_LENGTH * k..FRAME_LENGTH * k + FRAME_LENGTH] == fs[k]
  {
    if k > 0 {
      FlatAt(fs[1..], k - 1);
      var s := Flat(fs);
      assert s == fs[0] + Flat(fs[1..]);
      assert s[FRAME_LENGTH..] == Flat(fs[1..]);
      assert s[FRAME_LENGTH * k..FRAME_LENGTH * k + FRAME_LENGTH]
          == s[FRAME_LENGTH..][FRAME_LENGTH * (k - 1)..FRAME_LENGTH * (k - 1) + FRAME_LENGTH];
    }
  }
}
