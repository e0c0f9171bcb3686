/** From a console's ports to what the game reads, and the bytes in between. */
module Controls {
  import opened Bytes
  import opened Wire
  import opened Netcode
  import opened Console
  import Checksum

  // ---- bits and bytes ----

  function Digit(b: bool): nat {
    if b then 1 else 0
  }

  /** A byte is the sum of its bits' weights. */
  lemma BytesAreBinary(b: Bits)
    ensures FromBits(b) as int == 128 * Digit(b.b7) + 64 * Digit(b.b6) + 32 * Digit(b.b5) + 16 * Digit(b.b4)
                                  + 8 * Digit(b.b3) + 4 * Digit(b.b2) + 2 * Digit(b.b1) + Digit(b.b0)
  {}

  /** And its bits are its binary digits. */
  lemma BitsAreBinary(v: byte)
    ensures var b := ToBits(v);
            v as int == 128 * Digit(b.b7) + 64 * Digit(b.b6) + 32 * Digit(b.b5) + 16 * Digit(b.b4)
                        + 8 * Digit(b.b3) + 4 * Digit(b.b2) + 2 * Digit(b.b1) + Digit(b.b0)
  {
    BitsRoundTrip(v);
    BytesAreBinary(ToBits(v));
    hide ToBits, FromBits;
  }

  /** A sum keeps its low eight bits. */
  lemma AddIsLow(a: byte, b: byte)
    ensures Add(a, b) == Low(a as int + b as int)
  {}

  // ---- the controls ----

  /** Any two consoles' ports, through the wire and the mixer: each control where the game looks for it. */
  lemma ControlsArrive(p: Ports, q: Ports, s: Bits)
    ensures var m := MixOf(CaptureOf(p), CaptureOf(q), s);
            && m.left == p.paddle && m.right == q.paddle
            // the triggers, each pair on its own port
            && m.triggers.b7 == p.swcha.b7 && m.triggers.b6 == p.swcha.b6
            && m.triggers.b3 == q.swcha.b7 && m.triggers.b2 == q.swcha.b6
            && m.triggers.b5 && m.triggers.b4 && m.triggers.b1 && m.triggers.b0
            // each console's own difficulty
            && m.switches.b6 == p.swchb.b6 && m.switches.b7 == q.swchb.b6
            // SELECT and RESET, low exactly when either is
            && (!m.switches.b1 <==> !p.swchb.b1 || !q.swchb.b1)
            && (!m.switches.b0 <==> !p.swchb.b0 || !q.swchb.b0)
            // the colour switch local, the rest high
            && m.switches.b3 == s.b3 && m.switches.b5 && m.switches.b4 && m.switches.b2
  {}

  /** A repair presses RESET for both, and nothing else. */
  lemma RepairArrives(p: Ports, q: Ports, s: Bits)
    ensures var (m, n) := (MixOf(CaptureOf(p), CaptureOf(q), s), MixOf(Press(CaptureOf(p)), CaptureOf(q), s));
            !n.switches.b0 && n == m.(switches := m.switches.(b0 := false))
    ensures var (m, n) := (MixOf(CaptureOf(p), CaptureOf(q), s), MixOf(CaptureOf(p), Press(CaptureOf(q)), s));
            !n.switches.b0 && n == m.(switches := m.switches.(b0 := false))
  {}

  /** The wire byte, as a number: the triggers, SELECT, RESET and the difficulty at their weights, and seven to spare. */
  lemma WireByte(p: Ports)
    ensures FromBits(CaptureOf(p).switches) as int ==
            128 * Digit(p.swcha.b7) + 64 * Digit(p.swcha.b6) + 32 * Digit(p.swchb.b1) + 16 * Digit(p.swchb.b0)
            + 8 * Digit(p.swchb.b6) + 7
    ensures CaptureOf(p).paddle == p.paddle
  {
    BytesAreBinary(CaptureOf(p).switches);
    hide FromBits;
  }

  /** A capture nobody makes is a console at rest: paddle at 0, nothing pressed. */
  lemma IdleIsAtRest()
    ensures IDLE.paddle == 0 && FromBits(IDLE.switches) == 255
  {}

  /** What the game reads apart from the colour switch is all kept: two readings agree exactly when only it differs. */
  lemma OnlyColourIsLocal(a: Shadows, b: Shadows)
    ensures Agreed(a) == Agreed(b) <==>
            a.left == b.left && a.right == b.right && a.triggers == b.triggers
            && a.switches.(b3 := true) == b.switches.(b3 := true)
  {}

  // ---- the entry byte ----

  /** The entry byte as a number: the phase in the top two bits and the flags below, the least bit unused. */
  lemma EntryIsBinary(e: Bits)
    ensures var x := Unpack(e);
            FromBits(e) as int == 64 * x.phase + 32 * Digit(x.resync) + 16 * Digit(x.left) + 8 * Digit(x.ran)
                                  + 4 * Digit(x.guest) + 2 * Digit(x.net) + Digit(e.b0)
  {
    BytesAreBinary(e);
    hide FromBits;
  }

  // ---- the frame on the wire ----

  /** A record's sixteen bytes, one by one. */
  lemma RecordBytes(r: Record)
    ensures var f := Encode(r);
            && |f| == 16 && f[0] == 15 && f[1] == 6 && f[2] == r.tick
            && f[3] == r.newest.paddle && f[4] == 0 && f[5] == FromBits(r.newest.switches)
            && f[6] == r.middle.paddle && f[7] == 0 && f[8] == FromBits(r.middle.switches)
            && f[9] == r.oldest.paddle && f[10] == 0 && f[11] == FromBits(r.oldest.switches)
            && f[12] == r.crc && f[14] == 0 && f[15] == 0
  {
    hide Xor, FromBits, ToBits;
  }

  /** Whether an odd number of a run of bytes have a bit set. */
  function Odd(s: seq<byte>, bit: Bits -> bool): bool {
    if s == [] then false else Odd(s[1..], bit) != bit(ToBits(s[0]))
  }

  lemma {:induction false} OddOneMore(s: seq<byte>, v: byte, bit: Bits -> bool)
    ensures Odd(s + [v], bit) == (Odd(s, bit) != bit(ToBits(v)))
  {
    if s == [] {
      assert [v][1..] == [] && s + [v] == [v];
      assert Odd([v], bit) == (Odd([], bit) != bit(ToBits(v)));
    } else {
      assert (s + [v])[1..] == s[1..] + [v] && (s + [v])[0] == s[0];
      OddOneMore(s[1..], v, bit);
    }
    hide ToBits;
  }

  /** One bit of a byte, by its place. */
  function Place(k: nat): Bits -> bool
    requires k < 8
  {
    (b: Bits) =>
      if k == 7 then b.b7 else if k == 6 then b.b6 else if k == 5 then b.b5 else if k == 4 then b.b4
      else if k == 3 then b.b3 else if k == 2 then b.b2 else if k == 1 then b.b1 else b.b0
  }

  /** Accumulated exclusive-or is parity, bit by bit. */
  lemma {:induction false} XorIsParity(seed: Bits, s: seq<byte>, k: nat)
    requires k < 8
    ensures Place(k)(Xor(seed, s)) == (Place(k)(seed) != Odd(s, Place(k)))
  {
    hide ToBits;
    if s != [] {
      var (front, v) := (s[..|s| - 1], s[|s| - 1]);
      XorIsParity(seed, front, k);
      OddOneMore(front, v, Place(k));
      assert s == front + [v];
    }
  }

  /**
   * The check byte: over the eleven bytes it covers and itself, each bit is set an odd number of times exactly where
   * $A5 has it.
   */
  lemma CheckIsParity(r: Record, k: nat)
    requires k < 8
    ensures Odd(Encode(r)[2..14], Place(k)) == Place(k)(ToBits(0xA5))
  {
    var (f, b) := (Encode(r), Body(r));
    var check := FromBits(Xor(CHECK_SEED, b));
    assert f[2..14] == b + [check];
    hide Encode, Body;
    OddOneMore(b, check, Place(k));
    XorIsParity(CHECK_SEED, b, k);
    ByteRoundTrip(Xor(CHECK_SEED, b));
    assert CHECK_SEED == ToBits(0xA5);
    hide ToBits, FromBits, Xor;
  }

  // ---- the mailbox ----

  /** Sequence numbers run through 1 to 255 and begin again. */
  lemma SequenceCycles(a: byte)
    ensures NextSequence(a) as int == a as int % 255 + 1
  {}

  /** STATUS: of a healthy stream as many whole frames as there are, at most fifteen; of a broken one none. */
  lemma SizeReads(c: Cells, reply: seq<byte>)
    requires |reply| >= 4
    ensures var (d, frames) := (Size(c, reply), (reply[0] as int + 256 * reply[1] as int) / 16);
            if reply[3] != 1 then d == c.(error := 2, state := WriteIssue)
            else if frames == 0 then d == c.(state := WriteIssue)
            else d == c.(count := d.count, state := ReadIssue) && d.count as int == 16 * (if frames < 15 then frames else 15)
  {}

  /** A transaction that fails, whichever it is, leaves error 2 and nothing else behind, and the next step writes again. */
  lemma FailedStepRetries(c: Cells, m: Mailbox, n: Mailbox)
    requires Shaped(c) && WindowCovers(c, m) && c.state in {WriteAck, StatusAck, ReadAck}
    requires m.acknowledged == c.sequence && m.failed
    ensures var d := NetStep(c, m);
            && d == c.(error := 2, state := WriteIssue) && Shaped(d) && WindowCovers(d, n)
            && NetStep(d, n).state == WriteAck && NetStep(d, n).sequence != n.acknowledged && NetStep(d, n).error == 2
  {}

  /** And one not yet answered leaves everything as it is. */
  lemma UnansweredWaits(c: Cells, m: Mailbox)
    requires Shaped(c) && WindowCovers(c, m) && c.state in {WriteAck, StatusAck, ReadAck} && m.acknowledged != c.sequence
    ensures NetStep(c, m) == c
  {}

  /** A departure saturates the stall count, records error 3, and touches nothing else. */
  lemma DepartureIs(c: Cells)
    requires Shaped(c)
    ensures Receive(c, PEER_LEFT) == c.(stalls := 15, error := 3)
  {
    hide Xor;
  }

  // ---- the start of a match ----

  /** The first frame of a match: tick 0, a capture for tick 2, both rings otherwise idle, and a stall; nothing runs. */
  lemma FirstBoundary(guest: bool, p: Ports, q: Ports, acknowledged: byte)
    ensures var d := Shim(Start(guest, p, acknowledged), q);
            && d.tick == 0 && d.sample == 0 && d.watermark == 254 && !d.advance && d.stalls == 1 && d.error == 0
            && d.entry == Entry(0, false, false, false, guest, true)
            && d.local == [IDLE, IDLE, CaptureOf(q), IDLE] && (forall i | 0 <= i < 8 :: d.remote[i] == IDLE)
            && d.state == WriteIssue && d.sequence == acknowledged && d.count == 0
            && d.shadows.left == 0 && d.shadows.right == 0 && d.shadows.triggers == p.swcha && d.shadows.switches == p.swchb
  {
    hide CaptureOf;
  }

  // ---- the cells the checksum sees ----

  /** The simulation's cells, by their places in the page that begins at $80. */
  predicate Covers(i: nat) {
    i in {0x16, 0x08, 0x0D, 0x0E, 0x32, 0x33, 0x34, 0x35, 0x36}
  }

  /** Where in the sum a cell comes, counted from the last: so many times is it rotated. */
  function Turns(i: nat): nat
    requires Covers(i)
  {
    match i
    case 0x16 => 8
    case 0x08 => 7
    case 0x0E => 6
    case 0x0D => 5
    case _ => i - 0x32
  }

  /**
   * Of all the cells of the page, changing one changes the checksum if and only if it is the variation, the frame
   * counter, one of the scores or one of the five Y positions.
   */
  lemma ChecksumSeesExactly(page: seq<byte>, i: nat, v: byte)
    requires |page| == 128 && i < 128 && page[i] != v
    ensures Checksum.OfPage(page[i := v]) != Checksum.OfPage(page) <==> Covers(i)
  {
    var (old', new') := (Checksum.Covered(page), Checksum.Covered(page[i := v]));
    if Covers(i) {
      var k := 8 - Turns(i);
      assert new' == old'[k := v];
      Checksum.OneCellChanges(old', k, v);
    } else {
      assert new' == old';
    }
  }

  /** Two to the power k, around the 255 that rotation leaves. */
  function Power(k: nat): (p: byte)
    requires k <= 8
    ensures p != 0
  {
    if k == 0 || k == 8 then 1 else if k == 1 then 2 else if k == 2 then 4 else if k == 3 then 8
    else if k == 4 then 16 else if k == 5 then 32 else if k == 6 then 64 else 128
  }

  /** The order of the sum: a page of zeros but for one 1 has the checksum of a 1 rotated as often as cells follow it. */
  lemma CellsAreInOrder(page: seq<byte>, i: nat)
    requires |page| == 128 && Covers(i) && page[i] == 1 && forall j | 0 <= j < 128 && j != i :: page[j] == 0
    ensures Checksum.OfPage(page) == Power(Turns(i))
  {
    var cells := Checksum.Covered(page);
    NineCells(cells);
    hide Checksum.Crc;
  }

  lemma NineCells(c: seq<byte>)
    requires |c| == 9
    ensures Checksum.Crc(c) ==
            Checksum.Step(Checksum.Step(Checksum.Step(Checksum.Step(Checksum.Step(Checksum.Step(Checksum.Step(
              Checksum.Step(c[0], c[1]), c[2]), c[3]), c[4]), c[5]), c[6]), c[7]), c[8])
  {
    Prefix(c, 1);
    Prefix(c, 2);
    Prefix(c, 3);
    Prefix(c, 4);
    Prefix(c, 5);
    Prefix(c, 6);
    Prefix(c, 7);
    Prefix(c, 8);
    Prefix(c, 9);
    assert c[..9] == c && c[..0] == [];
    FirstCell(c[0]);
    hide Checksum.Step, Checksum.Crc;
  }

  lemma FirstCell(a: byte)
    ensures Checksum.Step(Checksum.Crc([]), a) == a
  {}

  lemma Prefix(c: seq<byte>, n: nat)
    requires 0 < n <= |c|
    ensures Checksum.Crc(c[..n]) == Checksum.Step(Checksum.Crc(c[..n - 1]), c[n - 1])
  {
    assert c[..n][..n - 1] == c[..n - 1] && c[..n][n - 1] == c[n - 1];
  }

  /** The variation is the first cell and the last Y position the last: only so does this page sum to nothing. */
  lemma VariationIsFirst(page: seq<byte>)
    requires |page| == 128 && page[0x16] == 255 && page[0x08] == 1
    requires forall j | 0 <= j < 128 && j != 0x16 && j != 0x08 :: page[j] == 0
    ensures Checksum.OfPage(page) == 0
  {
    NineCells(Checksum.Covered(page));
    hide Checksum.Crc;
  }

  /** The rotation: doubling, with the bit that falls off the top coming in at the bottom. */
  lemma RotateIsCyclic(a: byte)
    ensures Checksum.Rotate(a) as int == (if a < 128 then 2 * a as int else 2 * (a as int - 128) + 1)
  {}
}
