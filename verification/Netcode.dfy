/** What one console's netcode does to its cells, as functions from cells to cells. */
module Netcode {
  import opened Bytes
  import opened Wire

  const FRAMES_PER_TICK := 4
  const RING_SLOTS := 8
  const LOCAL_SLOTS := 4
  const ERROR_TRANSPORT: nat := 2
  const ERROR_PEER: nat := 3

  /** The entry byte: the frame-in-tick phase and the flags below it. */
  datatype Entry = Entry(phase: nat, resync: bool, left: bool, ran: bool, guest: bool, net: bool)

  datatype NetState =
    | Idle | WriteIssue | WriteAck | StatusIssue | StatusAck | ReadIssue | ReadAck | Consume | Failed

  /** The cells the patched game reads instead of its own ports. */
  datatype Shadows = Shadows(left: byte, right: byte, triggers: Bits, switches: Bits)

  /** One console's cells, with the entry byte and the error byte taken apart. */
  datatype Cells = Cells(
    advance: bool, entry: Entry, stalls: nat, error: nat,
    tick: byte, sample: byte, watermark: byte, checksum: byte,
    remote: seq<Capture>, local: seq<Capture>, shadows: Shadows,
    state: NetState, sequence: byte, count: byte)

  /** The ports of this console at one frame: the filtered paddle, the triggers, the switches. */
  datatype Ports = Ports(paddle: byte, swcha: Bits, swchb: Bits)

  /** What the mailbox shows at one step of the transport. */
  datatype Mailbox = Mailbox(acknowledged: byte, failed: bool, reply: seq<byte>, length: byte)

  predicate Shaped(c: Cells) {
    |c.remote| == RING_SLOTS && |c.local| == LOCAL_SLOTS && c.entry.phase < FRAMES_PER_TICK
    && c.stalls < 16 && c.error < 16
  }

  // ---- capture and mix ----

  // Bits of the switch byte on the wire, all in the hardware's active-low sense: 7 and 6 the left
  // port's triggers, 5 SELECT, 4 RESET, 3 this console's difficulty, the rest spare.

  /** The synthetic RESET: the bit is active low, so pressing it clears it. */
  function Press(c: Capture): Capture {
    c.(switches := c.switches.(b4 := false))
  }

  predicate ResetPressed(c: Capture) {
    !c.switches.b4
  }

  /** This console's input as the wire carries it. */
  function CaptureOf(p: Ports): Capture {
    Capture(p.paddle, Bits(p.swcha.b7, p.swcha.b6, p.swchb.b1, p.swchb.b0, p.swchb.b6, true, true, true))
  }

  /**
   * Two consoles' input for one tick, as the game reads it: each pair of triggers on its own port,
   * SELECT and RESET pressed if either presses, each difficulty its own, the colour switch local.
   */
  function MixOf(host: Capture, guest: Capture, swchb: Bits): Shadows {
    var h, g := host.switches, guest.switches;
    Shadows(host.paddle, guest.paddle,
            Bits(h.b7, h.b6, true, true, g.b7, g.b6, true, true),
            Bits(g.b3, h.b3, true, true, swchb.b3, true, h.b5 && g.b5, h.b4 && g.b4))
  }

  /** The shadows without the colour switch, which stays local and reaches no physics. */
  function Agreed(s: Shadows): Shadows {
    s.(switches := s.switches.(b3 := false))
  }

  /** What both consoles must read at a tick, from the two captures alone. */
  function Mixed(host: Capture, guest: Capture): Shadows {
    Agreed(MixOf(host, guest, ZERO))
  }

  // ---- one frame ----

  /** A boundary that follows a tick that ran: advance, sample the checksum, capture. */
  function Commit(c: Cells, p: Ports): (d: Cells)
    requires Shaped(c)
    ensures Shaped(d)
  {
    if !c.entry.ran then c
    else
      var tick := Low(c.tick as int + 1);
      var slot := (tick as int + DELAY) % LOCAL_SLOTS;
      var capture := if c.entry.resync then Press(CaptureOf(p)) else CaptureOf(p);
      c.(tick := tick, sample := c.checksum, local := c.local[slot := capture],
         entry := c.entry.(ran := false, resync := false))
  }

  function NextPhase(e: Entry): Entry {
    e.(phase := if e.phase == FRAMES_PER_TICK - 1 then 0 else e.phase + 1)
  }

  /** The gate passed: mix the two consoles' bytes for this tick and let the frame run. */
  function RunTick(c: Cells, p: Ports): (d: Cells)
    requires Shaped(c)
    ensures Shaped(d)
  {
    var ours := c.local[c.tick as int % LOCAL_SLOTS];
    var theirs := c.remote[c.tick as int % RING_SLOTS];
    var mixed := if c.entry.guest then MixOf(theirs, ours, p.swchb) else MixOf(ours, theirs, p.swchb);
    c.(stalls := 0, shadows := mixed, entry := NextPhase(c.entry.(ran := true)))
  }

  /** The gate held: count the stall, or hand over to the peer-left screen. */
  function Stall(c: Cells): (d: Cells)
    requires Shaped(c)
    ensures Shaped(d)
  {
    if c.stalls >= 15 then c.(advance := false, entry := c.entry.(left := true))
    else c.(advance := false, stalls := c.stalls + 1)
  }

  /** The shim, once a frame of a match. */
  function Shim(c: Cells, p: Ports): (d: Cells)
    requires Shaped(c)
    ensures Shaped(d)
  {
    if c.entry.phase != 0 then c.(advance := true, entry := NextPhase(c.entry))
    else
      var d := Commit(c.(advance := true), p);
      if SignedAtLeast(d.watermark, d.tick) then RunTick(d, p) else Stall(d)
  }

  // ---- one step of the transport ----

  /** The next sequence number: never zero, and never the one already acknowledged. */
  function NextSequence(acknowledged: byte): byte {
    if acknowledged == 255 then 1 else acknowledged + 1
  }

  function Launch(c: Cells, m: Mailbox, next: NetState): Cells {
    c.(state := next, sequence := NextSequence(m.acknowledged))
  }

  /** The record this console sends now: a window of three ticks ending DELAY ticks ahead. */
  function Outgoing(c: Cells): Record
    requires Shaped(c)
  {
    var t := c.tick as int;
    Record(Low(t + 2), c.local[(t + 2) % LOCAL_SLOTS], c.local[(t + 1) % LOCAL_SLOTS], c.local[t % LOCAL_SLOTS], c.sample)
  }

  function Fail(c: Cells): Cells {
    c.(error := ERROR_TRANSPORT, state := WriteIssue)
  }

  /** STATUS answered: read whole frames only, a capped bite at a time. */
  function Size(c: Cells, reply: seq<byte>): Cells
    requires |reply| >= 4
  {
    if reply[3] != 1 then Fail(c)
    else if reply[1] != 0 then c.(count := 240, state := ReadIssue)
    else
      var whole := (reply[0] as int / FRAME_LENGTH) * FRAME_LENGTH;
      if whole == 0 then c.(state := WriteIssue)
      else c.(count := whole as byte, state := ReadIssue)
  }

  /** The whole window of a record goes into the remote ring, each tick into its own slot. */
  function Store(remote: seq<Capture>, r: Record): (stored: seq<Capture>)
    requires |remote| == RING_SLOTS
    ensures |stored| == RING_SLOTS
  {
    var y := r.tick as int;
    remote[y % RING_SLOTS := r.newest][(y + 7) % RING_SLOTS := r.middle][(y + 6) % RING_SLOTS := r.oldest]
  }

  /** The record's checksum is of the tick this console is on, and it is not this console's. */
  predicate Alarm(c: Cells, r: Record) {
    Low(r.tick as int - DELAY) == c.tick && !c.entry.resync && r.crc != c.sample
  }

  function Accept(c: Cells, r: Record): (d: Cells)
    requires Shaped(c)
    ensures Shaped(d)
  {
    c.(remote := Store(c.remote, r),
       entry := if Alarm(c, r) then c.entry.(resync := true) else c.entry,
       watermark := if SignedAtLeast(r.tick, c.watermark) then r.tick else c.watermark)
  }

  /** One sixteen-byte frame out of the reply window. */
  function Receive(c: Cells, f: Frame): (d: Cells)
    requires Shaped(c)
    ensures Shaped(d)
  {
    match Decode(f)
    case Departure => c.(stalls := 15, error := ERROR_PEER)
    case Ignored => c
    case Input(r) => Accept(c, r)
  }

  /** The reply window covers every frame still to be consumed. */
  predicate WindowCovers(c: Cells, m: Mailbox) {
    && (c.state == StatusAck && m.acknowledged == c.sequence ==> |m.reply| >= 4)
    && (c.state == Consume ==> FRAME_LENGTH * c.count as int <= |m.reply|)
  }

  /** One bounded step, dispatched on the machine's state. */
  function NetStep(c: Cells, m: Mailbox): (d: Cells)
    requires Shaped(c) && WindowCovers(c, m)
    ensures Shaped(d)
  {
    var answered := m.acknowledged == c.sequence;
    match c.state
    case Idle => c
    case WriteIssue => Launch(c, m, WriteAck)
    case WriteAck => if !answered then c else if m.failed then Fail(c) else c.(state := StatusIssue)
    case StatusIssue => Launch(c, m, StatusAck)
    case StatusAck => if !answered then c else if m.failed then Fail(c) else Size(c, m.reply)
    case ReadIssue => Launch(c, m, ReadAck)
    case ReadAck =>
      if !answered then c else if m.failed then Fail(c)
      else c.(count := m.length / 16, state := Consume)
    case Consume =>
      if c.count == 0 then c.(state := WriteIssue)
      else
        var d := c.(count := c.count - 1);
        Receive(d, m.reply[FRAME_LENGTH * d.count as int..FRAME_LENGTH * d.count as int + FRAME_LENGTH])
    case Failed => Fail(c)
  }

  /** The cells a match starts from, on the console with this role. */
  function Start(guest: bool, p: Ports, acknowledged: byte): Cells {
    Cells(true, Entry(0, false, false, true, guest, true), 0, 0,
          255, 0, 254, 0,
          seq(RING_SLOTS, _ => IDLE), seq(LOCAL_SLOTS, _ => IDLE), Shadows(0, 0, p.swcha, p.swchb),
          WriteIssue, acknowledged, 0)
  }
}
