/**
 * Two consoles, joined by two byte streams through the relay, as one step system.
 *
 * Beside the cells each node carries what actually happened to it: unbounded ticks, every capture it
 * made, every state it entered a tick with. Nothing a console does depends on that record; the cells are
 * moved by the functions of Netcode alone.
 */
module Lockstep {
  import opened Bytes
  import opened Wire
  import opened Netcode
  import Checksum

  /** What selects the game's behaviour: the cells the checksum covers, and everything it cannot see. */
  datatype Sim = Sim(covered: seq<byte>, hidden: seq<byte>)

  /** The 1977 game: one frame of logic, and the state its own clear leaves. */
  datatype Game = Game(step: (Sim, Shadows) -> Sim, start: Sim)

  /** A frame on the wire: a record with the unbounded tick it is stamped with, or the peer's departure. */
  datatype Message = Stamped(y: int, record: Record) | Gone

  function FrameOf(m: Message): Frame {
    match m
    case Stamped(_, r) => Encode(r)
    case Gone => PEER_LEFT
  }

  function FramesOf(ms: seq<Message>): seq<Frame> {
    seq(|ms|, i requires 0 <= i < |ms| => FrameOf(ms[i]))
  }

  /** Bytes on their way to one console, and the messages they are the bytes of. */
  datatype Link = Link(bytes: seq<byte>, messages: seq<Message>)

  datatype Node = Node(
    cells: Cells, sim: Sim, acknowledged: byte, window: seq<byte>,
    // the record of what happened
    reported: nat, fault: bool,
    t: int, w: int, floor: int,
    captures: seq<Capture>, pressed: seq<Capture>, used: seq<Shadows>, log: seq<Sim>,
    glitches: set<int>, alarms: set<int>, sent: seq<Message>, batch: seq<Message>,
    frames: nat, simFrames: nat, stallRun: nat, leaveSeen: bool)

  datatype Side = Host | Guest

  function Other(s: Side): Side {
    if s == Host then Guest else Host
  }

  datatype System = System(host: Node, guest: Node, toHost: Link, toGuest: Link) {
    function At(s: Side): Node {
      if s == Host then host else guest
    }

    function Inbox(s: Side): Link {
      if s == Host then toHost else toGuest
    }

    function With(s: Side, n: Node, inbox: Link, outbox: Link): System {
      if s == Host then System(n, guest, inbox, outbox) else System(host, n, outbox, inbox)
    }
  }

  /**
   * What the mailbox and the network do during one step of the transport: whether the cartridge has
   * answered by now, with what verdict, how much of the stream has been delivered, and whether a record
   * written now is lost on the way.
   */
  datatype Outcome = Outcome(answered: bool, failed: bool, healthy: bool, delivered: nat, lost: bool)

  /**
   * One thing that happens: a console draws a frame (and something may corrupt its simulation), a
   * console's transport takes one step, or the relay tells a console that its peer is gone.
   */
  datatype Label =
    | Draw(side: Side, ports: Ports, glitch: Option<Sim>)
    | Transport(side: Side, outcome: Outcome)
    | Depart(side: Side)

  // ---- one frame ----

  predicate Boundary(n: Node) {
    n.cells.entry.phase == 0
  }

  predicate Advances(n: Node) {
    Boundary(n) && n.cells.entry.ran
  }

  /** Shim, game logic if the shim lets it run, then the checksum of the state it leaves. */
  function DrawFrame(g: Game, n: Node, p: Ports, glitch: Option<Sim>): (n': Node)
    requires Shaped(n.cells)
    ensures Shaped(n'.cells)
  {
    var c := Shim(n.cells, p);
    var logic := if c.advance then g.step(n.sim, Agreed(c.shadows)) else n.sim;
    var sim := if glitch.Some? then glitch.value else logic;
    var t := if Advances(n) then n.t + 1 else n.t;
    var passed := Boundary(n) && c.advance;
    n.(cells := c.(checksum := Checksum.Crc(sim.covered)),
       sim := sim,
       t := t,
       captures := if !Advances(n) then n.captures
                   else n.captures + [if n.cells.entry.resync then Press(CaptureOf(p)) else CaptureOf(p)],
       pressed := if Advances(n) then n.pressed + [CaptureOf(p)] else n.pressed,
       log := if Advances(n) then n.log + [n.sim] else n.log,
       used := if passed then n.used + [Agreed(c.shadows)] else n.used,
       glitches := if glitch.Some? then n.glitches + {t} else n.glitches,
       frames := n.frames + 1,
       simFrames := if c.advance then n.simFrames + 1 else n.simFrames,
       stallRun := if passed then 0 else if Boundary(n) then n.stallRun + 1 else n.stallRun,
       leaveSeen := if passed then false else n.leaveSeen)
  }

  // ---- one step of the transport ----

  /** STATUS, READ and the end of a batch stay inside what the mailbox holds. */
  predicate InBounds(n: Node, inbox: Link) {
    && (n.cells.state == ReadAck ==> n.cells.count as int <= n.reported && n.cells.count as int <= |inbox.bytes|)
    && (n.cells.state == Consume ==> FRAME_LENGTH * n.cells.count as int <= |n.window|)
  }

  function Least(a: nat, b: nat): nat {
    if a < b then a else b
  }

  /** The four bytes of a STATUS reply. */
  function StatusReply(available: nat, healthy: bool): (r: seq<byte>)
    requires available < 65536
    ensures |r| == 4
  {
    [(available % 256) as byte, (available / 256) as byte, 1, if healthy then 1 else 0]
  }

  /** The mailbox answers: STATUS and READ fill the reply window, and READ takes bytes off the stream. */
  function Answer(n: Node, inbox: Link, o: Outcome): (r: (Node, Link))
    ensures r.0.cells == n.cells
  {
    var d := n.(acknowledged := n.cells.sequence);
    if !o.answered then (n, inbox)
    else if n.cells.state == StatusAck then
      var available := Least(Least(o.delivered, |inbox.bytes|), 65535);
      (d.(window := StatusReply(available, o.healthy), reported := available), inbox)
    else if n.cells.state == ReadAck && !o.failed && n.cells.count as int <= |inbox.bytes| then
      var k := n.cells.count as int / FRAME_LENGTH;
      if k <= |inbox.messages| then
        (d.(window := inbox.bytes[..n.cells.count], batch := inbox.messages[..k], floor := n.w),
         Link(inbox.bytes[n.cells.count..], inbox.messages[k..]))
      else (d.(fault := true), inbox)
    else (d, inbox)
  }

  function Shown(n: Node, o: Outcome): Mailbox {
    Mailbox(n.acknowledged, o.failed, n.window, n.cells.count)
  }

  /** The record this node writes now, with its unbounded stamp. */
  function Fresh(n: Node): Message
    requires Shaped(n.cells)
  {
    Stamped(n.t + DELAY, Outgoing(n.cells))
  }

  function StepTransport(n: Node, inbox: Link, outbox: Link, o: Outcome): (r: (Node, Link, Link))
    requires Shaped(n.cells)
    ensures Shaped(r.0.cells)
  {
    var (d, inbox') := Answer(n, inbox, o);
    var m := Shown(d, o);
    if !InBounds(n, inbox) || !WindowCovers(n.cells, m) then (n.(fault := true), inbox, outbox)
    else
      var c := NetStep(n.cells, m);
      var writing := n.cells.state == WriteIssue;
      var e := Recorded(d, c);
      if !writing then (e, inbox', outbox)
      else
        (e.(sent := n.sent + [Fresh(n)]), inbox',
         if o.lost then outbox else Link(outbox.bytes + FrameOf(Fresh(n)), outbox.messages + [Fresh(n)]))
  }

  /** The record of a consumed frame: the watermark it raises, the alarm it rings, the departure it tells. */
  function Recorded(n: Node, c: Cells): Node {
    var k := n.cells.count as int - 1;
    var consumed := n.cells.state == Consume && 0 <= k < |n.batch|;
    n.(cells := c,
       w := if consumed && n.batch[k].Stamped? then Max(n.w, n.batch[k].y) else n.w,
       alarms := if c.entry.resync && !n.cells.entry.resync then n.alarms + {n.t} else n.alarms,
       leaveSeen := n.leaveSeen || (consumed && n.batch[k].Gone?))
  }

  // ---- runs ----

  /** A console that has handed over to the peer-left screen takes no more steps. */
  function Next(g: Game, s: System, l: Label): (s': System)
    requires Shaped(s.host.cells) && Shaped(s.guest.cells)
    ensures Shaped(s'.host.cells) && Shaped(s'.guest.cells)
  {
    var side := l.side;
    var (n, inbox, outbox) := (s.At(side), s.Inbox(side), s.Inbox(Other(side)));
    match l
    case Depart(_) => s.With(side, n, Link(inbox.bytes + PEER_LEFT, inbox.messages + [Gone]), outbox)
    case Draw(_, p, glitch) =>
      if n.cells.entry.left then s else s.With(side, DrawFrame(g, n, p, glitch), inbox, outbox)
    case Transport(_, o) =>
      // the transport runs at the end of a frame, so a frame has been drawn before its first step
      if n.cells.entry.left || n.frames == 0 then s
      else var (n', inbox', outbox') := StepTransport(n, inbox, outbox, o); s.With(side, n', inbox', outbox')
  }

  datatype Opening = Opening(hostPorts: Ports, guestPorts: Ports, hostSequence: byte, guestSequence: byte)

  function FirstNode(g: Game, guest: bool, p: Ports, sequence: byte): (n: Node)
    ensures Shaped(n.cells)
  {
    Node(Start(guest, p, sequence), g.start, sequence, [],
         0, false, -1, -2, -2, [IDLE, IDLE], [IDLE, IDLE], [], [], {}, {}, [], [], 0, 0, 0, false)
  }

  function First(g: Game, o: Opening): (s: System)
    ensures Shaped(s.host.cells) && Shaped(s.guest.cells)
  {
    System(FirstNode(g, false, o.hostPorts, o.hostSequence), FirstNode(g, true, o.guestPorts, o.guestSequence),
           Link([], []), Link([], []))
  }

  /** The state after any finite interleaving. */
  function Run(g: Game, o: Opening, ls: seq<Label>): (s: System)
    ensures Shaped(s.host.cells) && Shaped(s.guest.cells)
  {
    if ls == [] then First(g, o) else Next(g, Run(g, o, ls[..|ls| - 1]), ls[|ls| - 1])
  }

  /** The record this label consumes, if it consumes one that raises the watermark. */
  predicate Raises(s: System, l: Label) {
    var n := s.At(l.side);
    var k := n.cells.count as int - 1;
    && l.Transport? && !n.cells.entry.left && n.frames > 0
    && n.cells.state == Consume && 0 <= k < |n.batch| && n.batch[k].Stamped? && n.batch[k].y > n.w
  }

  /**
   * The delivery hypothesis on one step: a record that raises the watermark raises it by no more than
   * the ticks its window carries, ticks 0 and 1 being known from the start.
   */
  predicate Within(s: System, l: Label) {
    var n := s.At(l.side);
    Raises(s, l) ==> n.batch[n.cells.count as int - 1].y <= Max(n.w, 1) + WINDOW
  }

  /** A run that keeps the delivery hypothesis at every step. */
  predicate Delivered(g: Game, o: Opening, ls: seq<Label>) {
    ls != [] ==>
      Delivered(g, o, ls[..|ls| - 1]) && Within(Run(g, o, ls[..|ls| - 1]), ls[|ls| - 1])
  }
}
