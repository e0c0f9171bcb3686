/** The console's zero-page cells and the routines that update them in place. */
module Console {
  import opened Bytes
  import opened Wire
  import opened Netcode
  import Checksum

  const PHASE := ZERO.(b7 := true, b6 := true)
  const RESYNC := ZERO.(b5 := true)
  const LEFT := ZERO.(b4 := true)
  const RAN := ZERO.(b3 := true)
  const GUEST := ZERO.(b2 := true)
  const NET := ZERO.(b1 := true)
  const LEFT_PORT := ZERO.(b7 := true, b6 := true)
  const RESET := ZERO.(b4 := true)
  const DIFFICULTY := ZERO.(b3 := true)
  const START_LENGTH := 15
  const TYPE_START: byte := 0x05

  /** The entry byte, taken apart. */
  function Unpack(e: Bits): (entry: Entry)
    ensures entry.phase < FRAMES_PER_TICK
  {
    Entry((if e.b7 then 2 else 0) + (if e.b6 then 1 else 0), e.b5, e.b4, e.b3, e.b2, e.b1)
  }

  /** The dispatch index of the network machine: even numbers, as the jump table wants them. */
  function Index(s: NetState): byte {
    match s
    case Idle => 0
    case WriteIssue => 2
    case WriteAck => 4
    case StatusIssue => 6
    case StatusAck => 8
    case ReadIssue => 10
    case ReadAck => 12
    case Consume => 14
    case Failed => 16
  }

  function StateOf(index: byte): NetState {
    if index == 0 then Idle else if index == 2 then WriteIssue else if index == 4 then WriteAck
    else if index == 6 then StatusIssue else if index == 8 then StatusAck else if index == 10 then ReadIssue
    else if index == 12 then ReadAck else if index == 14 then Consume else Failed
  }

  class Ram {
    var advance: byte
    var entry: Bits
    var error: byte         // high nibble: the run of stalls; low nibble: the last error
    var tick: byte
    var sample: byte
    var watermark: byte
    var checksum: byte
    var state: byte
    var sequence: byte
    var count: byte
    var scratch: Bits
    var hostSwitches: Bits
    var guestSwitches: Bits
    var hostPaddle: byte
    var guestPaddle: byte
    var triggers: Bits
    var switches: Bits
    const slots: array<Capture>   // the remote ring's eight two-byte slots, then the local ring's four
    const paddles: array<byte>

    ghost predicate Valid()
    {
      slots.Length == RING_SLOTS + LOCAL_SLOTS && paddles.Length == 4
    }

    /** The cells as the specification sees them. */
    function Snapshot(): (c: Cells)
      requires Valid()
      reads this, slots, paddles
      ensures Shaped(c)
    {
      Cells(advance != 0, Unpack(entry), error as int / 16, error as int % 16,
            tick, sample, watermark, checksum,
            slots[..RING_SLOTS], slots[RING_SLOTS..], Shadows(paddles[0], paddles[2], triggers, switches),
            StateOf(state), sequence, count)
    }

    constructor ()
      ensures Valid() && fresh(slots) && fresh(paddles)
    {
      advance, error, tick, sample, watermark, checksum, state, sequence, count := 0, 0, 0, 0, 0, 0, 0, 0, 0;
      entry, scratch, hostSwitches, guestSwitches, triggers, switches := ZERO, ZERO, ZERO, ZERO, ZERO, ZERO;
      hostPaddle, guestPaddle := 0, 0;
      slots := new Capture[RING_SLOTS + LOCAL_SLOTS](_ => IDLE);
      paddles := new byte[4](_ => 0);
    }

    /**
     * START has arrived: take the role, check the delay, and set every cell a match begins with; refuse
     * anything that is not a START for this delay.
     */
    method Begin(reply: seq<byte>, p: Ports, acknowledged: byte) returns (playing: bool)
      requires Valid() && |reply| == START_LENGTH
      modifies this, slots, paddles
      ensures playing <==> reply[1] == TYPE_START && reply[5] as int == DELAY
      ensures playing ==> Snapshot() == Start(reply[2] % 2 == 1, p, acknowledged)
      ensures !playing ==> !Snapshot().entry.net
    {
      if reply[1] != TYPE_START {
        entry := ZERO;
        return false;
      }
      entry := if reply[2] % 2 == 1 then GUEST else ZERO;
      if reply[5] as int != DELAY {
        entry := ZERO;
        return false;
      }
      SeedCells(p, acknowledged);
      entry := Or(entry, Or(NET, RAN));
      playing := true;
    }

    /** Every slot of both rings holds idle: the ticks nobody ever sends are agreed beforehand. */
    method SeedRings()
      requires Valid()
      modifies slots
      ensures slots[..RING_SLOTS] == seq(RING_SLOTS, _ => IDLE)
      ensures slots[RING_SLOTS..] == seq(LOCAL_SLOTS, _ => IDLE)
    {
      var x := slots.Length;
      while x > 0
        invariant 0 <= x <= slots.Length
        invariant forall i | x <= i < slots.Length :: slots[i] == IDLE
      {
        x := x - 1;
        slots[x] := Capture(0x00, ONES);
      }
    }

    /** Everything a match begins with except the entry byte: both rings idle, the tick before tick 0. */
    method SeedCells(p: Ports, acknowledged: byte)
      requires Valid()
      modifies this, slots, paddles
      ensures entry == old(entry)
      ensures Snapshot() == Start(false, p, acknowledged).(entry := old(Unpack(entry)))
    {
      advance, triggers, switches := 0xFF, p.swcha, p.swchb;
      paddles[0], paddles[1], paddles[2], paddles[3] := 0, 0, 0, 0;
      SeedRings();
      SeedCounters(acknowledged);
    }

    method SeedCounters(acknowledged: byte)
      requires Valid()
      modifies this
      ensures entry == old(entry)
      ensures Snapshot() == old(Snapshot()).(
        stalls := 0, error := 0, tick := 255, sample := 0, watermark := 254, checksum := 0,
        state := WriteIssue, sequence := acknowledged, count := 0)
    {
      hide Unpack;
      tick, error, watermark, sample, checksum, count := 255, 0, 254, 0, 0, 0;
      state := Index(WriteIssue);
      sequence := acknowledged;
    }

    /** This console's own input: the paddle is returned, the switch byte is left in scratch. */
    method CapturePorts(p: Ports) returns (paddle: byte)
      requires Valid()
      modifies this
      ensures Snapshot() == old(Snapshot()).(entry := old(Unpack(entry)).(resync := false))
      ensures Capture(paddle, scratch) ==
              if old(Unpack(entry)).resync then Press(CaptureOf(p)) else CaptureOf(p)
    {
      scratch := PackSwitches(p);
      if And(entry, RESYNC) != ZERO {
        entry := Eor(And(entry, RESYNC), entry);
        scratch := And(scratch, Not(RESET));
      }
      paddle := p.paddle;
    }

    /** Two consoles' wire bytes into the cells the game reads, and the tick marked as run. */
    method Mix(swchb: Bits)
      requires Valid()
      modifies this, paddles
      ensures Snapshot() == old(Snapshot()).(
        shadows := MixOf(old(Capture(hostPaddle, hostSwitches)), old(Capture(guestPaddle, guestSwitches)), swchb),
        entry := NextPhase(old(Unpack(entry)).(ran := true)))
    {
      paddles[0], paddles[2] := hostPaddle, guestPaddle;
      triggers := MixTriggers(hostSwitches, guestSwitches);
      switches := MixSwitches(hostSwitches, guestSwitches, swchb);
      MixedParts(hostPaddle, guestPaddle, hostSwitches, guestSwitches, swchb);
      RanSet(entry);
      hide MixOf, Unpack, Or;
      entry := Or(entry, RAN);
      BumpPhase();
    }

    /** The frame-in-tick phase: one `ADC` on the entry byte, the carry thrown away. */
    method BumpPhase()
      requires Valid()
      modifies this
      ensures Snapshot() == old(Snapshot()).(entry := NextPhase(old(Unpack(entry))))
    {
      TopTwoBitsCount(entry);
      hide ToBits, FromBits, Add;
      entry := ToBits(Add(FromBits(entry), 0x40));
    }

    /** The peer's input has not arrived. */
    method HoldTick()
      requires Valid()
      modifies this
      ensures Snapshot() == Netcode.Stall(old(Snapshot()))
    {
      advance := 0;
      if error < 0xF0 {
        error := error + 0x10;
      } else {
        entry := Or(entry, LEFT);
      }
    }

    /** The shim, once a frame: on a tick boundary commit, test the gate, and run or hold the tick. */
    method ShimFrame(p: Ports)
      requires Valid()
      modifies this, slots, paddles
      ensures Snapshot() == Shim(old(Snapshot()), p)
    {
      hide MixOf, CaptureOf, Press;
      advance := 0xFF;
      if And(entry, PHASE) != ZERO {
        BumpPhase();
        return;
      }
      CommitBoundary(p);
      if SignedAtLeast(watermark, tick) {
        PassGate(p);
      } else {
        HoldTick();
      }
    }

    /** Only after a tick that ran: advance the tick, sample the checksum and capture, all or none. */
    method CommitBoundary(p: Ports)
      requires Valid()
      modifies this, slots
      ensures Snapshot() == Commit(old(Snapshot()), p)
    {
      hide CaptureOf, Press;
      RanTested(entry);
      hide And, Unpack;
      if And(entry, RAN) == ZERO {
        return;
      }
      ghost var before := Snapshot();
      tick := Low(tick as int + 1);
      entry := And(entry, Not(RAN));
      sample := checksum;
      var paddle := CapturePorts(p);
      var slot := (tick as int + DELAY) % LOCAL_SLOTS;
      slots[RING_SLOTS + slot] := Capture(paddle, scratch);
      assert slots[RING_SLOTS..] == before.local[slot := Capture(paddle, scratch)];
      assert slots[..RING_SLOTS] == before.remote;
    }

    /** The tick runs: both consoles' bytes for it, mixed. */
    method PassGate(p: Ports)
      requires Valid()
      modifies this, paddles
      ensures Snapshot() == RunTick(old(Snapshot()), p)
    {
      hide MixOf, Unpack;
      error := error % 16;
      LoadCaptures();
      Mix(p.swchb);
    }

    /** Our bytes and the peer's for this tick, put in host and guest order. */
    method LoadCaptures()
      requires Valid()
      modifies this
      ensures Snapshot() == old(Snapshot())
      ensures var c := old(Snapshot());
              var ours, theirs := c.local[c.tick as int % LOCAL_SLOTS], c.remote[c.tick as int % RING_SLOTS];
              && Capture(hostPaddle, hostSwitches) == (if c.entry.guest then theirs else ours)
              && Capture(guestPaddle, guestSwitches) == (if c.entry.guest then ours else theirs)
      ensures entry == old(entry)
    {
      GuestTested(entry);
      hide And, Unpack;
      var ours, theirs := slots[RING_SLOTS + tick as int % LOCAL_SLOTS], slots[tick as int % RING_SLOTS];
      hostPaddle, hostSwitches, guestPaddle, guestSwitches := ours.paddle, ours.switches, theirs.paddle, theirs.switches;
      if And(entry, GUEST) != ZERO {
        hostSwitches, guestSwitches := guestSwitches, hostSwitches;
        hostPaddle, guestPaddle := guestPaddle, hostPaddle;
      }
    }

    /** The checksum of the game's cells, computed at the end of a frame. */
    method SampleChecksum(page: array<byte>)
      requires Valid() && page.Length == 128
      modifies this
      ensures Snapshot() == old(Snapshot()).(checksum := Checksum.OfPage(page[..]))
    {
      checksum := ChecksumOf(page);
    }

    // ---- the transport ----

    /** Commit a transaction under the next sequence number and go to the state that waits for it. */
    method LaunchAs(next: NetState, m: Mailbox)
      requires Valid()
      modifies this
      ensures Snapshot() == Launch(old(Snapshot()), m, next)
    {
      state := Index(next);
      sequence := Add(m.acknowledged, 1);
      if sequence == 0 {
        sequence := 1;
      }
    }

    /** Stream this console's record to the cartridge and launch the WRITE. */
    method IssueWrite(m: Mailbox) returns (frame: seq<byte>)
      requires Valid()
      modifies this
      ensures frame == Encode(Outgoing(old(Snapshot())))
      ensures Snapshot() == Launch(old(Snapshot()), m, WriteAck)
    {
      hide Encode;
      frame := StreamRecord(slots[RING_SLOTS..], tick, sample);
      LaunchAs(WriteAck, m);
    }

    /** A transport step failed: remember it and start the cycle again. */
    method FailStep()
      requires Valid()
      modifies this
      ensures Snapshot() == Fail(old(Snapshot()))
    {
      error := (error / 16) * 16 + 2;
      state := Index(WriteIssue);
    }

    /** STATUS answered: how many whole frames to read. */
    method SizeRead(reply: seq<byte>)
      requires Valid() && |reply| >= 4
      modifies this
      ensures Snapshot() == Size(old(Snapshot()), reply)
    {
      if reply[3] != 1 {
        FailStep();
      } else if reply[1] != 0 {
        count := 240;
        state := Index(ReadIssue);
      } else if reply[0] < 16 {
        state := Index(WriteIssue);
      } else {
        count := (reply[0] / 16) * 16;
        state := Index(ReadIssue);
      }
    }

    /** One record, or the end of the batch. */
    method ConsumeOne(m: Mailbox)
      requires Valid() && StateOf(state) == Consume && WindowCovers(Snapshot(), m)
      modifies this, slots
      ensures Snapshot() == NetStep(old(Snapshot()), m)
    {
      hide Decode, Accept;
      if count == 0 {
        state := Index(WriteIssue);
        return;
      }
      count := count - 1;
      var y := FRAME_LENGTH * count as int;
      var f: Frame := m.reply[y..y + FRAME_LENGTH];
      DecodedByType(f);
      if f[1] == TYPE_INPUT {
        var whole := CheckFrame(f);
        if whole {
          AcceptRecord(Fields(f));
        }
      } else if f[1] == TYPE_LEFT {
        error := 0xF0 + 3;
      }
    }

    /** Store the window, compare checksums, raise the watermark. */
    method AcceptRecord(r: Record)
      requires Valid()
      modifies this, slots
      ensures Snapshot() == Accept(old(Snapshot()), r)
    {
      hide Store;
      StoreWindow(r);
      // only a record of the very tick this console is on is compared, and only once per repair
      if Low(r.tick as int - DELAY) == tick && And(entry, RESYNC) == ZERO && r.crc != sample {
        entry := Or(entry, RESYNC);
      }
      if SignedAtLeast(r.tick, watermark) {
        watermark := r.tick;
      }
    }

    /** The whole window of a checked record, each tick into its own slot. */
    method StoreWindow(r: Record)
      requires Valid()
      modifies slots
      ensures Snapshot() == old(Snapshot()).(remote := Store(old(Snapshot()).remote, r))
    {
      ghost var remote := slots[..RING_SLOTS];
      ghost var local := slots[RING_SLOTS..];
      var y := r.tick as int % RING_SLOTS;
      slots[y] := r.newest;
      assert slots[..RING_SLOTS] == remote[y := r.newest];
      var y1 := (r.tick as int + 7) % RING_SLOTS;
      slots[y1] := r.middle;
      assert slots[..RING_SLOTS] == remote[y := r.newest][y1 := r.middle];
      var y2 := (r.tick as int + 6) % RING_SLOTS;
      slots[y2] := r.oldest;
      assert slots[..RING_SLOTS] == remote[y := r.newest][y1 := r.middle][y2 := r.oldest];
      assert slots[RING_SLOTS..] == local;
    }

    /** One bounded step, dispatched on the state; only the WRITE step puts bytes on the wire. */
    method Step(m: Mailbox) returns (frame: seq<byte>)
      requires Valid() && WindowCovers(Snapshot(), m)
      modifies this, slots
      ensures Snapshot() == NetStep(old(Snapshot()), m)
      ensures frame == if old(Snapshot()).state == WriteIssue then Encode(Outgoing(old(Snapshot()))) else []
    {
      hide Receive, Encode;
      frame := [];
      var answered := m.acknowledged == sequence;
      match StateOf(state)
      case Idle =>
      case WriteIssue => frame := IssueWrite(m);
      case WriteAck =>
        if answered && m.failed { FailStep(); } else if answered { state := Index(StatusIssue); }
      case StatusIssue => LaunchAs(StatusAck, m);
      case StatusAck =>
        if answered && m.failed { FailStep(); } else if answered { SizeRead(m.reply); }
      case ReadIssue => LaunchAs(ReadAck, m);
      case ReadAck =>
        if answered && m.failed {
          FailStep();
        } else if answered {
          count := m.length / 16;
          state := Index(Consume);
        }
      case Consume => ConsumeOne(m);
      case Failed => FailStep();
    }
  }

  /** The switch byte: this console's triggers, RESET and SELECT shifted up, the difficulty shifted down. */
  method PackSwitches(p: Ports) returns (b: Bits)
    ensures b == CaptureOf(p).switches
  {
    b := And(p.swcha, LEFT_PORT);
    var a := And(p.swchb, ZERO.(b1 := true, b0 := true));
    b := Or(b, Asl(Asl(Asl(Asl(a)))));
    a := And(p.swchb, ZERO.(b6 := true));
    b := Or(b, Lsr(Lsr(Lsr(a))));
    b := Or(b, ZERO.(b2 := true, b1 := true, b0 := true));
  }

  method MixTriggers(h: Bits, g: Bits) returns (b: Bits)
    ensures b == Bits(h.b7, h.b6, true, true, g.b7, g.b6, true, true)
  {
    b := And(h, LEFT_PORT);
    var a := And(g, LEFT_PORT);
    b := Or(Lsr(Lsr(Lsr(Lsr(a)))), b);
    b := Or(b, ZERO.(b5 := true, b4 := true, b1 := true, b0 := true));
  }

  method MixSwitches(h: Bits, g: Bits, swchb: Bits) returns (b: Bits)
    ensures b == Bits(g.b3, h.b3, true, true, swchb.b3, true, h.b5 && g.b5, h.b4 && g.b4)
  {
    var a := And(h, g);
    b := And(Lsr(Lsr(Lsr(Lsr(a)))), ZERO.(b1 := true, b0 := true));
    b := Or(And(swchb, ZERO.(b3 := true)), b);
    b := Or(b, ZERO.(b5 := true, b4 := true, b2 := true));
    a := And(h, DIFFICULTY);
    b := Or(Asl(Asl(Asl(a))), b);
    a := And(g, DIFFICULTY);
    b := Or(Asl(Asl(Asl(Asl(a)))), b);
  }

  lemma RanSet(e: Bits)
    ensures Unpack(Or(e, RAN)) == Unpack(e).(ran := true)
  {}

  lemma MixedParts(hp: byte, gp: byte, h: Bits, g: Bits, swchb: Bits)
    ensures MixOf(Capture(hp, h), Capture(gp, g), swchb)
         == Shadows(hp, gp, Bits(h.b7, h.b6, true, true, g.b7, g.b6, true, true),
                    Bits(g.b3, h.b3, true, true, swchb.b3, true, h.b5 && g.b5, h.b4 && g.b4))
  {}

  /** A window's slot, from the eight bits of its tick. */
  lemma WindowSlot(t: nat, x: int)
    requires 0 < x <= WINDOW
    ensures Low(t + x - 1) as int % LOCAL_SLOTS == (t + x - 1) % LOCAL_SLOTS
  {
    Fours((t + x - 1) % 256, 64 * ((t + x - 1) / 256));
  }

  /** The capture a window puts x-th from its end. */
  function WindowAt(r: Record, x: int): Capture {
    if x == 3 then r.newest else if x == 2 then r.middle else r.oldest
  }

  lemma WindowGrows(r: Record, x: int)
    requires 0 < x <= WINDOW
    ensures var c := WindowAt(r, x);
            Body(r)[..13 - 3 * x] == Body(r)[..10 - 3 * x] + [c.paddle, 0, FromBits(c.switches)]
  {
    hide FromBits;
  }

  /** The record's bytes, newest tick first, with the check byte accumulated as they go. */
  method StreamRecord(local: seq<Capture>, tick: byte, sample: byte) returns (frame: seq<byte>)
    requires |local| == LOCAL_SLOTS
    ensures var t := tick as int;
            frame == Encode(Record(Low(t + 2), local[(t + 2) % LOCAL_SLOTS], local[(t + 1) % LOCAL_SLOTS],
                                   local[t % LOCAL_SLOTS], sample))
  {
    hide Xor, ToBits, FromBits;
    var t := tick as int;
    ghost var r := Record(Low(t + 2), local[(t + 2) % LOCAL_SLOTS], local[(t + 1) % LOCAL_SLOTS],
                          local[t % LOCAL_SLOTS], sample);
    ghost var body := Body(r);
    var stamp := Low(t + DELAY);
    var bytes, check := [stamp], Eor(CHECK_SEED, ToBits(stamp));
    XorNone(CHECK_SEED);
    XorOne(CHECK_SEED, [], stamp);
    assert [] + bytes == bytes == body[..1];
    var x := WINDOW;
    while x > 0
      invariant 0 <= x <= WINDOW
      invariant stamp == Low(t + x - 1)
      invariant bytes == body[..10 - 3 * x]
      invariant check == Xor(CHECK_SEED, bytes)
    {
      LowKeeps(t + x - 1, -1);
      var c := local[stamp as int % LOCAL_SLOTS];
      assert c == WindowAt(r, x) by { WindowSlot(t, x); }
      WindowGrows(r, x);
      hide Body, WindowAt, Low;
      var three := [c.paddle, 0, FromBits(c.switches)];
      XorThree(CHECK_SEED, bytes, three[0], three[1], three[2]);
      bytes, check := bytes + three, Eor(Eor(Eor(check, ToBits(three[0])), ToBits(0)), ToBits(three[2]));
      stamp := Low(stamp as int - 1);
      x := x - 1;
    }
    XorOne(CHECK_SEED, bytes, sample);
    assert body == bytes + [sample];
    frame := [15, TYPE_INPUT] + (bytes + [sample]) + [FromBits(Eor(check, ToBits(sample))), 0, 0];
  }

  /** The check byte over every byte of the frame that carries anything, unrolled. */
  method CheckFrame(f: Frame) returns (whole: bool)
    ensures whole <==> CheckHolds(f)
  {
    hide ToBits, Eor, Xor;
    var check := ToBits(f[2]);
    XorNone(ZERO);
    XorOne(ZERO, [], f[2]);
    EorZero(ToBits(f[2]));
    assert [] + [f[2]] == f[2..3];
    check := Eor(Eor(Eor(check, ToBits(f[3])), ToBits(f[4])), ToBits(f[5]));
    XorThree(ZERO, f[2..3], f[3], f[4], f[5]);
    assert f[2..3] + [f[3], f[4], f[5]] == f[2..6];
    check := Eor(Eor(Eor(check, ToBits(f[6])), ToBits(f[7])), ToBits(f[8]));
    XorThree(ZERO, f[2..6], f[6], f[7], f[8]);
    assert f[2..6] + [f[6], f[7], f[8]] == f[2..9];
    check := Eor(Eor(Eor(check, ToBits(f[9])), ToBits(f[10])), ToBits(f[11]));
    XorThree(ZERO, f[2..9], f[9], f[10], f[11]);
    assert f[2..9] + [f[9], f[10], f[11]] == f[2..12];
    check := Eor(check, ToBits(f[12]));
    XorOne(ZERO, f[2..12], f[12]);
    assert f[2..12] + [f[12]] == f[2..13];
    check := Eor(check, CHECK_SEED);
    XorSeedLast(CHECK_SEED, f[2..13]);
    whole := check == ToBits(f[13]);
  }

  /** Two rotating loops over the covered cells, after the first two. */
  method ChecksumOf(page: array<byte>) returns (a: byte)
    requires page.Length == 128
    ensures a == Checksum.OfPage(page[..])
  {
    hide Checksum.Rotate, Add;
    ghost var cells := Checksum.Covered(page[..]);
    a := page[0x16];
    ChecksumStarts(a);
    assert cells[..1] == [a];
    a := Add(Checksum.Rotate(a), page[0x08]);
    assert cells[..2][..1] == cells[..1];
    var x := 2;
    while x > 0
      invariant 0 <= x <= 2 && a == Checksum.Crc(cells[..4 - x])
    {
      x := x - 1;
      a := Add(Checksum.Rotate(a), page[0x0D + x]);
      assert cells[..4 - x][..3 - x] == cells[..3 - x] && cells[3 - x] == page[0x0D + x];
    }
    x := 5;
    while x > 0
      invariant 0 <= x <= 5 && a == Checksum.Crc(cells[..9 - x])
    {
      x := x - 1;
      a := Add(Checksum.Rotate(a), page[0x32 + x]);
      assert cells[..9 - x][..8 - x] == cells[..8 - x] && cells[8 - x] == page[0x32 + x];
    }
    assert cells[..9] == cells;
  }

  lemma ChecksumStarts(a: byte)
    ensures Checksum.Crc([a]) == a
  {
    assert [a][..0] == [];
  }

  lemma RanTested(e: Bits)
    ensures And(e, RAN) != ZERO <==> Unpack(e).ran
    ensures Unpack(And(e, Not(RAN))) == Unpack(e).(ran := false)
  {}

  lemma GuestTested(e: Bits)
    ensures And(e, GUEST) != ZERO <==> Unpack(e).guest
  {}

  lemma DecodedByType(f: Frame)
    ensures f[1] == TYPE_LEFT ==> Decode(f) == Departure
    ensures f[1] != TYPE_LEFT && f[1] != TYPE_INPUT ==> Decode(f) == Ignored
    ensures f[1] == TYPE_INPUT ==> Decode(f) == if CheckHolds(f) then Input(Fields(f)) else Ignored
  {}

  lemma XorNone(seed: Bits)
    ensures Xor(seed, []) == seed
  {}

  lemma XorOne(seed: Bits, s: seq<byte>, a: byte)
    ensures Xor(seed, s + [a]) == Eor(Xor(seed, s), ToBits(a))
  {
    assert (s + [a])[..|s|] == s;
  }

  lemma XorThree(seed: Bits, s: seq<byte>, a: byte, b: byte, c: byte)
    ensures Xor(seed, s + [a, b, c]) == Eor(Eor(Eor(Xor(seed, s), ToBits(a)), ToBits(b)), ToBits(c))
  {
    hide ToBits, Eor, Xor;
    XorOne(seed, s, a);
    XorOne(seed, s + [a], b);
    XorOne(seed, s + [a] + [b], c);
    assert s + [a] + [b] + [c] == s + [a, b, c];
  }
}
