/** A run that breaks the delivery hypothesis, and what the console then reads. */
module Witness {
  import opened Bytes
  import opened Wire
  import opened Netcode
  import opened Lockstep
  import opened Control
  import opened Links
  import opened Runs
  import opened Rings
  import opened Progress
  import opened Liveness
  import opened Drive
  import opened Theorems

  /** Nothing lost, nobody gone, nothing corrupted. */
  predicate Plain(ls: seq<Label>) {
    forall i | 0 <= i < |ls| :: !ls[i].Depart? && Lossless(ls[i]) && (ls[i].Draw? ==> ls[i].glitch.None?)
  }

  /** A plain continuation. */
  ghost predicate Plainly(g: Game, s: System, more: seq<Label>, s': System) {
    Leads(g, s, more, s') && Plain(more) && Live(s')
  }

  lemma PlainlyOn(g: Game, s: System, a: seq<Label>, t: System, b: seq<Label>, u: System)
    requires Plainly(g, s, a, t) && Plainly(g, t, b, u)
    ensures Plainly(g, s, a + b, u)
  {
    hide Leads, Live, Lossless;
    LeadsOn(g, s, a, t, b, u);
  }

  // ---- a frame ----

  /** What one uncorrupted frame does to the parts of a node this run is about. */
  predicate Drew(n: Node, d: Node) {
    var e := n.cells.entry;
    && d.w == n.w && d.cells.remote == n.cells.remote && d.cells.state == n.cells.state && n.captures <= d.captures
    && d.frames > 0 && d.cells.entry.guest == e.guest && d.cells.entry.net == e.net
    && (e.phase != 0 ==> d.cells.entry == NextPhase(e) && d.t == n.t && d.used == n.used && d.cells.stalls == n.cells.stalls)
    && (e.phase == 0 ==> d.t == Wanted(n))
    && (e.phase == 0 && Waits(n) && n.cells.stalls < 15 ==>
          !d.cells.entry.ran && d.cells.entry.phase == 0 && !d.cells.entry.left && d.used == n.used)
    && (e.phase == 0 && !Waits(n) ==>
          d.cells.entry.ran && d.cells.entry.phase == 1 && !d.cells.entry.left && d.cells.stalls == 0
          && |d.used| == |n.used| + 1)
  }

  lemma DrawDrew(g: Game, n: Node, p: Ports)
    requires Shaped(n.cells) && Clock(n) && !n.cells.entry.left && -2 <= n.w - n.t <= 5 && n.cells.watermark == Low(n.w)
    ensures Drew(n, DrawFrame(g, n, p, None))
  {
    hide DrawFrame;
    DrawCounts(g, n, p, None);
    DrawLeavesLinks(g, n, p, None);
    DrawOnlyAppends(g, n, p, None);
    DrawUses(g, n, p, None);
    DrawKeepsSeat(g, n, p, None);
    hide Clock, Shaped, Low;
  }

  lemma DrawOne(g: Game, s: System, side: Side, p: Ports)
    requires SystemInv(g, s) && !s.At(side).cells.entry.left
    ensures var s' := Next(g, s, Draw(side, p, None));
            && Leads(g, s, [Draw(side, p, None)], s') && Plain([Draw(side, p, None)])
            && s'.At(Other(side)) == s.At(Other(side))
            && s'.Inbox(side) == s.Inbox(side) && s'.Inbox(Other(side)) == s.Inbox(Other(side))
            && Drew(s.At(side), s'.At(side))
  {
    var (n, l) := (s.At(side), Draw(side, p, None));
    hide NodeInv, LinkInv, Next, DrawFrame, Leads, Drew;
    LeadsOne(g, s, l);
    SideOf(g, s, side);
    NextSides(g, s, l);
    hide SystemInv, SideInv, Reading;
    SideParts(g, n, s.At(Other(side)), s.Inbox(side), s.Inbox(Other(side)));
    DrawDrew(g, n, p);
    hide Clock, Counted, Spoken, Watched, Shaped, Low, Flat, FramesOf;
  }

  /** A tick the watermark allows takes four frames, and changes nothing of the ring or the streams. */
  predicate RanTick(n: Node, d: Node) {
    && d.w == n.w && d.cells.remote == n.cells.remote && d.cells.state == n.cells.state && n.captures <= d.captures
    && d.frames > 0 && d.cells.entry.guest == n.cells.entry.guest && d.cells.entry.net == n.cells.entry.net
    && d.t == Wanted(n) && |d.used| == |n.used| + 1
    && d.cells.entry.ran && d.cells.entry.phase == 0 && !d.cells.entry.left && d.cells.stalls == 0
  }

  lemma FourFrames(a: Node, b: Node, c: Node, d: Node, e: Node)
    requires Drew(a, b) && Drew(b, c) && Drew(c, d) && Drew(d, e) && Boundary(a) && !Waits(a)
    ensures RanTick(a, e)
  {}

  /** A console and its streams, as another step of the other console leaves them. */
  predicate Untouched(s: System, s': System, side: Side) {
    s'.At(side) == s.At(side) && s'.toHost == s.toHost && s'.toGuest == s.toGuest
  }

  lemma RunTickWhole(g: Game, s: System, side: Side, p: Ports) returns (more: seq<Label>, s': System)
    requires SystemInv(g, s) && Live(s) && Boundary(s.At(side)) && !Waits(s.At(side))
    ensures Plainly(g, s, more, s') && Untouched(s, s', Other(side)) && RanTick(s.At(side), s'.At(side))
  {
    var l := Draw(side, p, None);
    hide NodeInv, LinkInv, Next, Then, Waits, Wanted;
    DrawOne(g, s, side, p);
    var a := Next(g, s, l);
    assert Plainly(g, s, [l], a);
    DrawOne(g, a, side, p);
    var b := Next(g, a, l);
    assert Plainly(g, a, [l], b);
    DrawOne(g, b, side, p);
    var c := Next(g, b, l);
    assert Plainly(g, b, [l], c);
    DrawOne(g, c, side, p);
    s' := Next(g, c, l);
    FourFrames(s.At(side), a.At(side), b.At(side), c.At(side), s'.At(side));
    assert Plainly(g, c, [l], s');
    PlainlyOn(g, s, [l], a, [l], b);
    PlainlyOn(g, s, [l] + [l], b, [l], c);
    PlainlyOn(g, s, [l] + [l] + [l], c, [l], s');
    more := [l] + [l] + [l] + [l];
  }

  // ---- a reply ----

  /** What a healthy step away from CONSUME does to the parts of a node this run is about. */
  predicate Quiet(n: Node, d: Node) {
    && d.w == n.w && d.cells.remote == n.cells.remote && d.captures == n.captures && d.used == n.used && d.t == n.t
    && d.frames == n.frames && d.cells.entry == n.cells.entry.(resync := d.cells.entry.resync)
  }

  lemma StepIsQuiet(n: Node, inbox: Link, outbox: Link, o: Outcome)
    requires Shaped(n.cells) && n.cells.state != Consume
    ensures Quiet(n, StepTransport(n, inbox, outbox, o).0)
  {
    hide StepTransport;
    TransportFrame(n, inbox, outbox, o);
    WatermarkStays(n, inbox, outbox, o);
  }

  /** The facts about the machine's own step that a push needs. */
  lemma PushOpens(g: Game, s: System, side: Side)
    requires SystemInv(g, s) && Live(s)
    ensures var (n, s') := (s.At(side), Next(g, s, Push(s, side)));
            && Shaped(n.cells) && Reading(n, s.Inbox(side)) && s.Inbox(side).bytes == Flat(FramesOf(s.Inbox(side).messages))
            && Leads(g, s, [Push(s, side)], s') && Plain([Push(s, side)]) && Live(s') && s'.At(Other(side)) == s.At(Other(side))
            && (s'.At(side), s'.Inbox(side), s'.Inbox(Other(side)))
               == StepTransport(n, s.Inbox(side), s.Inbox(Other(side)), Healthy(s.Inbox(side)))
  {
    var n := s.At(side);
    hide NodeInv, LinkInv, Next, StepTransport, Leads, Driven;
    Pushed(g, s, side);
    DrivenKeeps(s, Next(g, s, Push(s, side)), side);
    SideOf(g, s, side);
    NextSides(g, s, Push(s, side));
    hide SystemInv, SideInv, Reading;
    SideParts(g, n, s.At(Other(side)), s.Inbox(side), s.Inbox(Other(side)));
    hide Clock, Counted, Spoken, Watched, Shaped, Low, Flat, FramesOf;
  }

  /** A healthy step between WRITE and READ, with something to read. */
  lemma HandshakePush(g: Game, s: System, side: Side) returns (s': System)
    requires SystemInv(g, s) && Live(s) && s.At(side).cells.state in {WriteAck, StatusIssue, ReadIssue}
    ensures Plainly(g, s, [Push(s, side)], s') && Untouched(s, s', Other(side)) && Quiet(s.At(side), s'.At(side))
    ensures s'.At(side).cells.state ==
            if s.At(side).cells.state == WriteAck then StatusIssue
            else if s.At(side).cells.state == StatusIssue then StatusAck else ReadAck
    ensures s'.At(side).cells.count == s.At(side).cells.count
  {
    var (n, inbox, outbox) := (s.At(side), s.Inbox(side), s.Inbox(Other(side)));
    hide NodeInv, LinkInv, Next, StepTransport, Leads, Reading, Healthy, SystemInv, Flat, FramesOf;
    PushOpens(g, s, side);
    s' := Next(g, s, Push(s, side));
    HealthyHandshake(n, inbox, outbox);
    HandshakeKeepsCount(n, inbox, outbox);
    StepIsQuiet(n, inbox, outbox, Healthy(inbox));
    OutboxAfterStep(n, inbox, outbox, Healthy(inbox));
    hide Quiet, Shaped;
  }

  lemma HandshakeKeepsCount(n: Node, inbox: Link, outbox: Link)
    requires Shaped(n.cells) && Handshake(n.cells.state)
    ensures StepTransport(n, inbox, outbox, Healthy(inbox)).0.cells.count == n.cells.count
  {
    hide Fresh, FrameOf;
  }

  lemma StatusCounts(n: Node, inbox: Link, outbox: Link)
    requires Shaped(n.cells) && n.cells.state == StatusAck && inbox.bytes == Flat(FramesOf(inbox.messages))
    requires 0 < |inbox.messages| <= 15
    ensures StepTransport(n, inbox, outbox, Healthy(inbox)).0.cells.count as int == FRAME_LENGTH * |inbox.messages|
  {
    assert |inbox.bytes| == FRAME_LENGTH * |inbox.messages|;
    SizeOfFew(n.cells, |inbox.messages|);
    hide Fresh, FrameOf, Size, StatusReply, Flat, FramesOf;
  }

  lemma SizeOfFew(c: Cells, frames: nat)
    requires 0 < frames <= 15
    ensures Size(c, StatusReply(FRAME_LENGTH * frames, true)).count as int == FRAME_LENGTH * frames
  {}

  lemma StatusPush(g: Game, s: System, side: Side) returns (s': System)
    requires SystemInv(g, s) && Live(s) && s.At(side).cells.state == StatusAck && 0 < |s.Inbox(side).messages| <= 15
    ensures Plainly(g, s, [Push(s, side)], s') && Untouched(s, s', Other(side)) && Quiet(s.At(side), s'.At(side))
    ensures s'.At(side).cells.state == ReadIssue
    ensures s'.At(side).cells.count as int == FRAME_LENGTH * |s.Inbox(side).messages|
  {
    var (n, inbox, outbox) := (s.At(side), s.Inbox(side), s.Inbox(Other(side)));
    hide NodeInv, LinkInv, Next, StepTransport, Leads, Reading, Healthy, SystemInv, Flat, FramesOf;
    PushOpens(g, s, side);
    s' := Next(g, s, Push(s, side));
    HealthyStatus(n, inbox, outbox);
    StatusCounts(n, inbox, outbox);
    StepIsQuiet(n, inbox, outbox, Healthy(inbox));
    OutboxAfterStep(n, inbox, outbox, Healthy(inbox));
    hide Quiet, Shaped;
  }

  lemma ReadPush(g: Game, s: System, side: Side) returns (s': System)
    requires SystemInv(g, s) && Live(s) && s.At(side).cells.state == ReadAck
    requires s.At(side).cells.count as int == FRAME_LENGTH * |s.Inbox(side).messages|
    ensures Plainly(g, s, [Push(s, side)], s') && s'.At(Other(side)) == s.At(Other(side)) && Quiet(s.At(side), s'.At(side))
    ensures s'.At(side).cells.state == Consume && s'.At(side).batch == s.Inbox(side).messages
    ensures s'.At(side).cells.count as int == |s.Inbox(side).messages|
    ensures s'.Inbox(Other(side)) == s.Inbox(Other(side))
  {
    var (n, inbox, outbox) := (s.At(side), s.Inbox(side), s.Inbox(Other(side)));
    hide NodeInv, LinkInv, Next, StepTransport, Leads, Reading, SystemInv, Flat, FramesOf;
    PushOpens(g, s, side);
    s' := Next(g, s, Push(s, side));
    ReadTakesWholeFrames(n, inbox, outbox, Healthy(inbox));
    StepIsQuiet(n, inbox, outbox, Healthy(inbox));
    hide Quiet, Shaped;
  }

  /** What consuming the newest record does to the parts of a node this run is about. */
  predicate Took(n: Node, d: Node, m: Message)
    requires m.Stamped? && |n.cells.remote| == RING_SLOTS
  {
    && d.w == Max(n.w, m.y) && d.cells.remote == Store(n.cells.remote, m.record)
    && d.captures == n.captures && d.used == n.used && d.t == n.t && d.frames == n.frames
    && d.cells.entry == n.cells.entry.(resync := d.cells.entry.resync)
  }

  lemma ConsumeTook(n: Node, inbox: Link, outbox: Link, o: Outcome)
    requires Shaped(n.cells) && Reading(n, inbox) && 0 < Left(n) <= |n.batch| && Due(n).Stamped?
    ensures Took(n, StepTransport(n, inbox, outbox, o).0, Due(n))
    ensures Left(StepTransport(n, inbox, outbox, o).0) == Left(n) - 1
    ensures StepTransport(n, inbox, outbox, o).0.cells.state == Consume
  {
    ConsumeEffect(n, inbox, outbox, o);
    AcceptFrame(n.cells.(count := n.cells.count - 1), Due(n).record);
    TransportFrame(n, inbox, outbox, o);
    hide StepTransport, Accept, Store, Flat, FramesOf, Reading;
  }

  lemma ConsumePush(g: Game, s: System, side: Side) returns (s': System)
    requires SystemInv(g, s) && Live(s) && 0 < Left(s.At(side)) <= |s.At(side).batch| && Due(s.At(side)).Stamped?
    requires Shaped(s.At(side).cells)
    ensures Plainly(g, s, [Push(s, side)], s') && s'.At(Other(side)) == s.At(Other(side))
    ensures Took(s.At(side), s'.At(side), Due(s.At(side))) && s'.At(side).cells.state == Consume
    ensures Left(s'.At(side)) == Left(s.At(side)) - 1
    ensures s'.Inbox(Other(side)) == s.Inbox(Other(side))
  {
    var (n, inbox, outbox) := (s.At(side), s.Inbox(side), s.Inbox(Other(side)));
    hide NodeInv, LinkInv, Next, StepTransport, Leads, Reading, Healthy, SystemInv, Flat, FramesOf, Took, Due;
    PushOpens(g, s, side);
    s' := Next(g, s, Push(s, side));
    ConsumeTook(n, inbox, outbox, Healthy(inbox));
    OutboxAfterStep(n, inbox, outbox, Healthy(inbox));
    hide Shaped;
  }

  /** From the answer to a WRITE to a READ of everything on the stream. */
  lemma AskToRead(g: Game, s: System, side: Side) returns (more: seq<Label>, s': System)
    requires SystemInv(g, s) && Live(s) && s.At(side).cells.state == WriteAck && 0 < |s.Inbox(side).messages| <= 15
    ensures Plainly(g, s, more, s') && Untouched(s, s', Other(side)) && Quiet(s.At(side), s'.At(side))
    ensures s'.At(side).cells.state == ReadAck
    ensures s'.At(side).cells.count as int == FRAME_LENGTH * |s.Inbox(side).messages|
  {
    hide NodeInv, LinkInv, SystemInv, Then, Push, Live, Lossless, Store, Plain;
    var a := HandshakePush(g, s, side);
    var b := HandshakePush(g, a, side);
    var c := StatusPush(g, b, side);
    s' := HandshakePush(g, c, side);
    PlainlyOn(g, s, [Push(s, side)], a, [Push(a, side)], b);
    PlainlyOn(g, s, [Push(s, side)] + [Push(a, side)], b, [Push(b, side)], c);
    PlainlyOn(g, s, [Push(s, side)] + [Push(a, side)] + [Push(b, side)], c, [Push(c, side)], s');
    more := [Push(s, side)] + [Push(a, side)] + [Push(b, side)] + [Push(c, side)];
  }

  /** From the answer to a WRITE to the first record consumed: the newest of everything on the stream. */
  lemma ReplyCycle(g: Game, s: System, side: Side) returns (more: seq<Label>, s': System)
    requires SystemInv(g, s) && Live(s) && s.At(side).cells.state == WriteAck
    requires 0 < |s.Inbox(side).messages| <= 15 && s.Inbox(side).messages[|s.Inbox(side).messages| - 1].Stamped?
    requires |s.At(side).cells.remote| == RING_SLOTS
    ensures Plainly(g, s, more, s') && s'.At(Other(side)) == s.At(Other(side))
    ensures Took(s.At(side), s'.At(side), s.Inbox(side).messages[|s.Inbox(side).messages| - 1])
    ensures s'.At(side).cells.state == Consume && Left(s'.At(side)) == |s.Inbox(side).messages| - 1
    ensures s'.Inbox(Other(side)) == s.Inbox(Other(side))
  {
    hide NodeInv, LinkInv, Then, Push, Live, Lossless, Store, Plain;
    var front, d := AskToRead(g, s, side);
    var e := ReadPush(g, d, side);
    assert Shaped(e.At(side).cells);
    hide SystemInv;
    s' := ConsumePush(g, e, side);
    PlainlyOn(g, s, front, d, [Push(d, side)], e);
    PlainlyOn(g, s, front + [Push(d, side)], e, [Push(e, side)], s');
    more := front + [Push(d, side)] + [Push(e, side)];
  }

  /** A WRITE puts one record, two ticks ahead of the writer, on the end of the other's stream. */
  lemma WritePush(g: Game, s: System, side: Side) returns (s': System, m: Message)
    requires SystemInv(g, s) && Live(s) && s.At(side).cells.state == WriteIssue
    ensures Plainly(g, s, [Push(s, side)], s') && s'.At(Other(side)) == s.At(Other(side))
    ensures Quiet(s.At(side), s'.At(side)) && s'.At(side).cells.state == WriteAck
    ensures s'.Inbox(side) == s.Inbox(side) && s'.Inbox(Other(side)).messages == s.Inbox(Other(side)).messages + [m]
    ensures m.Stamped? && m.y == s.At(side).t + DELAY
  {
    var (n, inbox, outbox) := (s.At(side), s.Inbox(side), s.Inbox(Other(side)));
    hide NodeInv, LinkInv, Next, StepTransport, Leads, Reading, SystemInv, Flat, FramesOf;
    PushOpens(g, s, side);
    s' := Next(g, s, Push(s, side));
    HealthyHandshake(n, inbox, outbox);
    StepIsQuiet(n, inbox, outbox, Healthy(inbox));
    OutboxAfterStep(n, inbox, outbox, Healthy(inbox));
    FreshStamp(n);
    m := Fresh(n);
    hide Quiet, Shaped, Fresh, FrameOf;
  }

  /** The step that finds nothing left to consume. */
  lemma EndPush(g: Game, s: System, side: Side) returns (s': System)
    requires SystemInv(g, s) && Live(s) && s.At(side).cells.state == Consume && Left(s.At(side)) == 0
    ensures Plainly(g, s, [Push(s, side)], s') && Untouched(s, s', Other(side)) && Quiet(s.At(side), s'.At(side))
    ensures s'.At(side).cells.state == WriteIssue
  {
    var (n, inbox, outbox) := (s.At(side), s.Inbox(side), s.Inbox(Other(side)));
    hide NodeInv, LinkInv, Next, StepTransport, Leads, Reading, Healthy, SystemInv, Flat, FramesOf;
    PushOpens(g, s, side);
    s' := Next(g, s, Push(s, side));
    BatchEnds(n, inbox, outbox, Healthy(inbox));
    hide Shaped;
  }

  // ---- the run ----

  /** Paddle at 7: a capture the seeded rings do not hold. */
  const TURNED := Ports(7, ZERO, ZERO)

  /** Waiting at tick 0, where nothing has come yet. */
  predicate AtZero(n: Node) {
    && n.t == 0 && n.w == -2 && !n.cells.entry.ran && n.cells.entry.phase == 0 && n.used == []
    && n.cells.remote == seq(RING_SLOTS, _ => IDLE)
  }

  predicate Turned(n: Node) {
    2 < |n.captures| && n.captures[2].paddle == 7
  }

  lemma FirstFrame(g: Game, guest: bool, p: Ports, sequence: byte)
    ensures var d := DrawFrame(g, FirstNode(g, guest, p, sequence), TURNED, None);
            AtZero(d) && Turned(d) && !d.cells.entry.left && d.frames == 1 && d.cells.state == WriteIssue
  {}

  /** Both have drawn a frame, with both paddles turned. */
  lemma Opened(g: Game, o: Opening) returns (more: seq<Label>, s': System)
    ensures Plainly(g, First(g, o), more, s') && AtZero(s'.host) && AtZero(s'.guest) && Turned(s'.guest)
    ensures s'.host.cells.state == WriteIssue && s'.guest.cells.state == WriteIssue
    ensures s'.toHost.messages == [] && s'.toGuest.messages == [] && OnlyDraws(more)
  {
    var s := First(g, o);
    FirstInv(g, o);
    FirstFrame(g, false, o.hostPorts, o.hostSequence);
    FirstFrame(g, true, o.guestPorts, o.guestSequence);
    hide NodeInv, LinkInv, Next, Then, DrawFrame, Drew, FirstNode, AtZero, Turned, SystemInv;
    assert !s.host.cells.entry.left && !s.guest.cells.entry.left by { FirstStays(g, o); }
    var (l, m) := (Draw(Host, TURNED, None), Draw(Guest, TURNED, None));
    DrawOne(g, s, Host, TURNED);
    var a := Next(g, s, l);
    NextNode(g, s, l, Host);
    DrawOne(g, a, Guest, TURNED);
    s' := Next(g, a, m);
    NextNode(g, a, m, Guest);
    LeadsOn(g, s, [l], a, [m], s');
    more := [l] + [m];
  }

  lemma FirstStays(g: Game, o: Opening)
    ensures var s := First(g, o); !s.host.cells.entry.left && !s.guest.cells.entry.left
  {}

  /** The guest hears the host's first record, runs three ticks on it, and has told of tick 5. */
  predicate GuestAhead(s: System) {
    && AtZero(s.host) && s.host.cells.state == WriteAck
    && Turned(s.guest) && s.guest.t == 3
    && |s.toHost.messages| == 2 && s.toHost.messages[1].Stamped? && s.toHost.messages[1].y == 5
  }

  lemma RunThree(g: Game, s: System, side: Side, p: Ports) returns (more: seq<Label>, s': System)
    requires SystemInv(g, s) && Live(s) && Boundary(s.At(side))
    requires s.At(side).t == 0 && !s.At(side).cells.entry.ran && s.At(side).w == 2
    ensures Plainly(g, s, more, s') && Untouched(s, s', Other(side))
    ensures var (n, d) := (s.At(side), s'.At(side));
            && d.w == n.w && d.cells.state == n.cells.state && n.captures <= d.captures
            && d.t == 3 && !d.cells.entry.left
  {
    hide NodeInv, LinkInv, SystemInv, Next, Then, Plain, Lossless;
    var a, sa := RunTickWhole(g, s, side, p);
    var b, sb := RunTickWhole(g, sa, side, p);
    var c, sc := RunTickWhole(g, sb, side, p);
    var l := Draw(side, p, None);
    DrawOne(g, sc, side, p);
    s' := Next(g, sc, l);
    assert Plainly(g, sc, [l], s');
    PlainlyOn(g, s, a, sa, b, sb);
    PlainlyOn(g, s, a + b, sb, c, sc);
    PlainlyOn(g, s, a + b + c, sc, [l], s');
    more := a + b + c + [l];
  }

  lemma GuestRunsAhead(g: Game, s: System) returns (more: seq<Label>, s': System)
    requires SystemInv(g, s) && Live(s) && AtZero(s.host) && AtZero(s.guest) && Turned(s.guest)
    requires s.host.cells.state == WriteIssue && s.guest.cells.state == WriteIssue
    requires s.toHost.messages == [] && s.toGuest.messages == []
    ensures Plainly(g, s, more, s') && GuestAhead(s')
  {
    hide NodeInv, LinkInv, SystemInv, Next, Then, Plain, Live, Push, Store;
    var a, ma := WritePush(g, s, Host);
    var b, mb := WritePush(g, a, Guest);
    var lc, c := ReplyCycle(g, b, Guest);
    var d := EndPush(g, c, Guest);
    var le, e := RunThree(g, d, Guest, TURNED);
    var f, mf := WritePush(g, e, Guest);
    hide Leads, Plainly;
    PlainlyOn(g, s, [Push(s, Host)], a, [Push(a, Guest)], b);
    more := [Push(s, Host)] + [Push(a, Guest)];
    PlainlyOn(g, s, more, b, lc, c);
    more := more + lc;
    PlainlyOn(g, s, more, c, [Push(c, Guest)], d);
    more := more + [Push(c, Guest)];
    PlainlyOn(g, s, more, d, le, e);
    more := more + le;
    PlainlyOn(g, s, more, e, [Push(e, Guest)], f);
    more := more + [Push(e, Guest)];
    s' := f;
  }

  lemma TrueOnStream(g: Game, s: System, side: Side, i: nat)
    requires SystemInv(g, s) && i < |s.Inbox(side).messages|
    ensures var m := s.Inbox(side).messages[i]; m.Stamped? ==> m.record.tick == Low(m.y)
  {
    hide NodeInv, Queued, Reading, Watched, Alarmed, Low, Flat, FramesOf;
    assert s.Inbox(side).messages[i] in s.Inbox(side).messages;
  }

  /** The host holds a watermark of 5 over a slot for tick 2 that no record has filled. */
  predicate Hollow(s: System) {
    && s.host.w == 5 && s.host.t == 0 && !s.host.cells.entry.ran && s.host.cells.entry.phase == 0 && s.host.used == []
    && |s.host.cells.remote| == RING_SLOTS && s.host.cells.remote[2] == IDLE
    && Turned(s.guest)
  }

  lemma HostTakesNewest(g: Game, s: System) returns (more: seq<Label>, s': System)
    requires SystemInv(g, s) && Live(s) && GuestAhead(s)
    ensures Plainly(g, s, more, s') && Hollow(s')
  {
    hide NodeInv, LinkInv, SystemInv, Next, Then, Plain, Live, Low, Store;
    TrueOnStream(g, s, Host, 1);
    var m := s.toHost.messages[1];
    hide AtZero, Turned, Took;
    ZeroSlots(s.host);
    more, s' := ReplyCycle(g, s, Host);
    TookHollow(s.host, s'.host, m);
  }

  lemma ZeroSlots(n: Node)
    requires AtZero(n)
    ensures |n.cells.remote| == RING_SLOTS
  {}

  lemma TookHollow(n: Node, d: Node, m: Message)
    requires AtZero(n) && m.Stamped? && m.y == 5 && m.record.tick == Low(5) && Took(n, d, m)
    ensures d.w == 5 && d.t == 0 && !d.cells.entry.ran && d.cells.entry.phase == 0 && d.used == []
    ensures |d.cells.remote| == RING_SLOTS && d.cells.remote[2] == IDLE
  {
    hide Low, Store;
    StoredAt(n.cells.remote, m.record, 5, 2);
  }

  /** A boundary of the host that runs tick 2 reads whatever slot 2 holds. */
  lemma ReadsSlotTwo(g: Game, n: Node)
    requires Shaped(n.cells) && Clock(n) && Captured(n) && Seated(n, Host) && -2 <= n.w - n.t <= 5
    requires n.cells.watermark == Low(n.w)
    requires Boundary(n) && !Waits(n) && Wanted(n) == 2 && !n.cells.entry.left && |n.used| == 2
    ensures var d := DrawFrame(g, n, TURNED, None);
            2 < |d.captures| && d.used == n.used + [Mixed(d.captures[2], n.cells.remote[2])]
  {
    hide DrawFrame, Mixed, Low;
    PassReadsRings(g, n, Host, TURNED, None);
    DrawCounts(g, n, TURNED, None);
    CaptureCount(g, n, TURNED);
    hide Captured;
  }

  lemma CaptureCount(g: Game, n: Node, p: Ports)
    requires Shaped(n.cells) && Clock(n) && Captured(n) && !n.cells.entry.left
    ensures var d := DrawFrame(g, n, p, None); |d.captures| == d.t + 3
  {
    DrawKeepsCaptured(g, n, p, None);
    hide DrawFrame;
  }

  lemma NodeOf(g: Game, s: System, side: Side)
    requires SystemInv(g, s)
    ensures var n := s.At(side);
            && Shaped(n.cells) && Clock(n) && Captured(n) && -2 <= n.w - n.t <= 5 && n.cells.watermark == Low(n.w)
            && |n.used| == n.t + (if n.cells.entry.ran then 1 else 0)
  {
    hide NodeInv, LinkInv;
    SideOf(g, s, side);
    NodeParts(g, s.At(side));
    hide SystemInv, SideInv, Captured, Logged, Simulated, Counted, Spoken, Reading, Watched;
    SideParts(g, s.At(side), s.At(Other(side)), s.Inbox(side), s.Inbox(Other(side)));
  }

  lemma HostReadsHollow(g: Game, s: System) returns (more: seq<Label>, s': System)
    requires SystemInv(g, s) && Live(s) && Hollow(s) && Seated(s.host, Host)
    ensures Plainly(g, s, more, s') && Misled(s')
  {
    hide NodeInv, LinkInv, SystemInv, Next, Then, Plain, Lossless;
    var a, sa := RunTickWhole(g, s, Host, TURNED);
    var b, sb := RunTickWhole(g, sa, Host, TURNED);
    var l := Draw(Host, TURNED, None);
    assert Seated(sb.host, Host);
    NodeOf(g, sb, Host);
    NextNode(g, sb, l, Host);
    hide Clock, Captured, Shaped, Low, Drew, RanTick, DrawFrame;
    ReadsSlotTwo(g, sb.host);
    assert sb.host.cells.remote[2] == IDLE;
    DrawOne(g, sb, Host, TURNED);
    s' := Next(g, sb, l);
    assert Plainly(g, sb, [l], s');
    PlainlyOn(g, s, a, sa, b, sb);
    PlainlyOn(g, s, a + b, sb, [l], s');
    more := a + b + [l];
    hide Leads, Plainly;
  }

  /** The host has run tick 2 on something other than the two captures for it. */
  predicate Misled(s: System) {
    && |s.host.used| == 3 && 2 < |s.host.captures| && 2 < |s.guest.captures|
    && s.host.used[2] != Mixed(s.host.captures[2], s.guest.captures[2])
  }

  lemma PlainRun(g: Game, o: Opening, ls: seq<Label>, s: System)
    requires Plainly(g, First(g, o), ls, s)
    ensures s == Run(g, o, ls) && Seated(s.host, Host)
  {
    RunThen(g, o, [], ls);
    assert [] + ls == ls;
    EverySeat(g, o, ls, Host);
    hide SystemInv, Next, First;
  }

  /**
   * The delivery hypothesis is needed: in every game there is a run that loses, corrupts and reorders nothing,
   * in which the guest's newer record raises the host's watermark before the older one fills its slot, and the
   * host runs tick 2 on a capture the guest never made.
   */
  lemma DeliveryIsNeeded(g: Game, o: Opening)
    ensures exists ls: seq<Label> :: Plain(ls) && !Delivered(g, o, ls) && Misled(Run(g, o, ls))
  {
    hide NodeInv, LinkInv, SystemInv, Next, Then, Plain, Live, First, AtZero, Turned, GuestAhead, Hollow, Misled, Run;
    var a, sa := Opened(g, o);
    var b, sb := GuestRunsAhead(g, sa);
    var c, sc := HostTakesNewest(g, sb);
    PlainlyOn(g, First(g, o), a, sa, b, sb);
    PlainlyOn(g, First(g, o), a + b, sb, c, sc);
    PlainRun(g, o, a + b + c, sc);
    var d, sd := HostReadsHollow(g, sc);
    PlainlyOn(g, First(g, o), a + b + c, sc, d, sd);
    PlainRun(g, o, a + b + c + d, sd);
    NotDelivered(g, o, a + b + c + d);
  }

  lemma NotDelivered(g: Game, o: Opening, ls: seq<Label>)
    requires Misled(Run(g, o, ls))
    ensures !Delivered(g, o, ls)
  {
    if Delivered(g, o, ls) {
      RingsAreRight(g, o, ls, 2);
    }
    hide Run, Delivered, Mixed;
  }

  // ---- the skew bound is met ----

  /** The bound on the skew is exact: in every game a lossless run puts one console delay + 1 ticks ahead. */
  lemma SkewIsReached(g: Game, o: Opening)
    ensures exists ls: seq<Label> :: Plain(ls) && Run(g, o, ls).guest.t == Run(g, o, ls).host.t + DELAY + 1
  {
    hide NodeInv, LinkInv, SystemInv, Next, Then, Plain, Live, First, Turned, Run;
    var a, sa := Opened(g, o);
    var b, sb := GuestRunsAhead(g, sa);
    PlainlyOn(g, First(g, o), a, sa, b, sb);
    PlainRun(g, o, a + b, sb);
  }
}
