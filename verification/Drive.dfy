/** From every reachable state of a match the match can go on: a way to drive it. */
module Drive {
  import opened Bytes
  import opened Wire
  import opened Netcode
  import opened Lockstep
  import opened Control
  import opened Links
  import opened Runs
  import opened Progress
  import opened Liveness

  // ---- one healthy step ----

  /** The mailbox answers at once, reports everything, and loses nothing. */
  function Healthy(inbox: Link): Outcome {
    Outcome(true, false, true, |inbox.bytes|, false)
  }

  lemma HealthyHandshake(n: Node, inbox: Link, outbox: Link)
    requires Shaped(n.cells) && Handshake(n.cells.state)
    ensures var (d, inbox', _) := StepTransport(n, inbox, outbox, Healthy(inbox));
            && inbox' == inbox
            && d.cells.state == match n.cells.state
                                case WriteIssue => WriteAck
                                case WriteAck => StatusIssue
                                case StatusIssue => StatusAck
                                case _ => ReadAck
  {
    hide Fresh, FrameOf;
  }

  /** A healthy STATUS reads if there is anything to read. */
  lemma SizeOfSome(c: Cells, frames: nat, available: nat)
    requires available == Least(FRAME_LENGTH * frames, 65535)
    ensures Size(c, StatusReply(available, true)).state == if frames == 0 then WriteIssue else ReadIssue
  {
    var reply := StatusReply(available, true);
    if frames > 0 && reply[1] == 0 {
      assert reply[0] as int == available && available >= FRAME_LENGTH;
    }
  }

  lemma HealthyStatus(n: Node, inbox: Link, outbox: Link)
    requires Shaped(n.cells) && n.cells.state == StatusAck && inbox.bytes == Flat(FramesOf(inbox.messages))
    ensures var (d, inbox', _) := StepTransport(n, inbox, outbox, Healthy(inbox));
            && inbox' == inbox
            && d.cells.state == if inbox.messages == [] then WriteIssue else ReadIssue
  {
    assert |inbox.bytes| == FRAME_LENGTH * |inbox.messages|;
    SizeOfSome(n.cells, |inbox.messages|, Least(|inbox.bytes|, 65535));
    hide Fresh, FrameOf, Size, StatusReply, Flat, FramesOf;
  }

  lemma HealthyConsume(n: Node, inbox: Link, outbox: Link)
    requires Shaped(n.cells) && n.cells.state == Consume && Reading(n, inbox)
    ensures var (d, inbox', _) := StepTransport(n, inbox, outbox, Healthy(inbox));
            && inbox' == inbox
            && (if n.cells.count == 0 then d.cells.state == WriteIssue
                else d.cells.state == Consume && d.cells.count == n.cells.count - 1)
  {
    if n.cells.count == 0 {
      BatchEnds(n, inbox, outbox, Healthy(inbox));
    } else {
      ConsumeEffect(n, inbox, outbox, Healthy(inbox));
      if Due(n).Stamped? {
        AcceptFrame(n.cells.(count := n.cells.count - 1), Due(n).record);
      }
    }
    hide StepTransport, Accept, Store, Flat, FramesOf;
  }

  /** Steps to the next WRITE, and steps to an empty stream, along the machine's cycle. */
  function ToWrite(n: Node): nat {
    match n.cells.state
    case WriteIssue => 0
    case Consume => 1 + n.cells.count as nat
    case ReadAck => 18
    case ReadIssue => 19
    case StatusAck => 20
    case StatusIssue => 21
    case _ => 22
  }

  function ToRead(n: Node): nat {
    match n.cells.state
    case ReadAck => 0
    case ReadIssue => 1
    case StatusAck => 2
    case StatusIssue => 3
    case WriteAck => 4
    case Consume => 6 + n.cells.count as nat
    case _ => 5
  }

  predicate Drained(n: Node, inbox: Link) {
    inbox.messages == [] && Left(n) == 0
  }

  lemma HealthyStep(n: Node, inbox: Link, outbox: Link)
    requires Shaped(n.cells) && Reading(n, inbox) && inbox.bytes == Flat(FramesOf(inbox.messages))
    ensures var (d, inbox', _) := StepTransport(n, inbox, outbox, Healthy(inbox));
            && (n.cells.state != WriteIssue ==> ToWrite(d) < ToWrite(n))
            && |inbox'.messages| <= |inbox.messages|
            && (Drained(n, inbox) || |inbox'.messages| < |inbox.messages| || ToRead(d) < ToRead(n))
  {
    hide StepTransport, Flat, FramesOf;
    if n.cells.state == Consume {
      HealthyConsume(n, inbox, outbox);
    } else if n.cells.state == ReadAck {
      ReadTakesWholeFrames(n, inbox, outbox, Healthy(inbox));
    } else if n.cells.state == StatusAck {
      HealthyStatus(n, inbox, outbox);
    } else {
      assert Handshake(n.cells.state);
      HealthyHandshake(n, inbox, outbox);
    }
    hide Reading;
  }

  // ---- what driving the transports leaves alone ----

  predicate Same(n: Node, d: Node) {
    && d.t == n.t && d.frames == n.frames && d.used == n.used && n.w <= d.w
    && d.cells.entry == n.cells.entry.(resync := d.cells.entry.resync)
    && (Latest(d) == Latest(n) || Latest(d) == n.t + 2) && (n.sent != [] ==> d.sent != [])
  }

  predicate Paused(s: System, s': System) {
    Same(s.host, s'.host) && Same(s.guest, s'.guest)
  }

  lemma PausedTwice(a: System, b: System, c: System)
    requires Paused(a, b) && Paused(b, c)
    ensures Paused(a, c)
  {
    hide Latest;
  }

  lemma TransportKeepsSame(n: Node, inbox: Link, outbox: Link, o: Outcome)
    requires Shaped(n.cells)
    ensures Same(n, StepTransport(n, inbox, outbox, o).0)
  {
    TransportFrame(n, inbox, outbox, o);
    WatermarkRises(n, inbox, outbox, o);
    FreshStamp(n);
    hide StepTransport, Fresh;
  }

  /** Both consoles are in the match and have drawn their first frame. */
  predicate Live(s: System) {
    && s.host.frames > 0 && !s.host.cells.entry.left
    && s.guest.frames > 0 && !s.guest.cells.entry.left
  }

  lemma TransportPauses(g: Game, s: System, side: Side, o: Outcome)
    requires Shaped(s.host.cells) && Shaped(s.guest.cells)
    ensures Paused(s, Next(g, s, Transport(side, o)))
  {
    var l := Transport(side, o);
    hide Shaped, Next, StepTransport, Same;
    NextNode(g, s, l, Host);
    NextNode(g, s, l, Guest);
    TransportKeepsSame(s.At(side), s.Inbox(side), s.Inbox(Other(side)), o);
    assert Same(s.host, s.host) && Same(s.guest, s.guest) by { SameSelf(s.host); SameSelf(s.guest); }
  }

  lemma SameSelf(n: Node)
    ensures Same(n, n)
  {}

  // ---- driving ----

  /** The state a continuation leads to. */
  function Then(g: Game, s: System, ls: seq<Label>): (s': System)
    requires Shaped(s.host.cells) && Shaped(s.guest.cells)
    ensures Shaped(s'.host.cells) && Shaped(s'.guest.cells)
  {
    if ls == [] then s else Next(g, Then(g, s, ls[..|ls| - 1]), ls[|ls| - 1])
  }

  lemma {:induction false} ThenJoin(g: Game, s: System, a: seq<Label>, b: seq<Label>)
    requires Shaped(s.host.cells) && Shaped(s.guest.cells)
    ensures Then(g, s, a + b) == Then(g, Then(g, s, a), b)
  {
    if b == [] {
      assert a + b == a;
    } else {
      assert (a + b)[..|a + b| - 1] == a + b[..|b| - 1];
      ThenJoin(g, s, a, b[..|b| - 1]);
    }
    hide Next, Shaped;
  }

  lemma {:induction false} RunThen(g: Game, o: Opening, ls: seq<Label>, more: seq<Label>)
    ensures Run(g, o, ls + more) == Then(g, Run(g, o, ls), more)
  {
    if more == [] {
      assert ls + more == ls;
    } else {
      assert (ls + more)[..|ls + more| - 1] == ls + more[..|more| - 1];
      RunThen(g, o, ls, more[..|more| - 1]);
    }
    hide Next, Shaped, First;
  }

  /** A continuation of a reachable state, to a state that satisfies the invariant too. */
  ghost predicate Leads(g: Game, s: System, more: seq<Label>, s': System) {
    SystemInv(g, s) && SystemInv(g, s') && s' == Then(g, s, more)
  }

  lemma LeadsNowhere(g: Game, s: System)
    requires SystemInv(g, s)
    ensures Leads(g, s, [], s)
  {
    hide NodeInv, LinkInv;
  }

  lemma LeadsOne(g: Game, s: System, l: Label)
    requires SystemInv(g, s)
    ensures Leads(g, s, [l], Next(g, s, l))
  {
    NextKeepsInv(g, s, l);
    assert [l][..0] == [];
    hide NodeInv, LinkInv, Next;
    assert Then(g, s, []) == s;
  }

  lemma LeadsOn(g: Game, s: System, a: seq<Label>, t: System, b: seq<Label>, u: System)
    requires Leads(g, s, a, t) && Leads(g, t, b, u)
    ensures Leads(g, s, a + b, u)
  {
    ThenJoin(g, s, a, b);
    hide NodeInv, LinkInv, Then;
  }

  /** What driving keeps: nothing but the transports moves, and no newest record is lost. */
  ghost predicate Driven(s: System, s': System) {
    Paused(s, s') && Live(s') && forall side :: Owed(s, side) ==> Owed(s', side)
  }

  lemma DrivenTwice(a: System, b: System, c: System)
    requires Driven(a, b) && Driven(b, c)
    ensures Driven(a, c)
  {
    PausedTwice(a, b, c);
    hide Paused, Live, Owed;
  }

  predicate OnlyTransports(ls: seq<Label>) {
    forall l | l in ls :: l.Transport?
  }

  predicate OnlyDraws(ls: seq<Label>) {
    forall l | l in ls :: l.Draw?
  }

  /** A healthy transport step of one side. */
  function Push(s: System, side: Side): Label {
    Transport(side, Healthy(s.Inbox(side)))
  }

  lemma PushIsTransport(s: System, side: Side)
    ensures OnlyTransports([Push(s, side)])
  {}

  lemma TransportsOn(a: seq<Label>, b: seq<Label>)
    requires OnlyTransports(a) && OnlyTransports(b)
    ensures OnlyTransports(a + b)
  {}

  lemma DrawsOn(l: Label, b: seq<Label>)
    requires l.Draw? && OnlyDraws(b)
    ensures OnlyDraws([l] + b)
  {}

  lemma OneDraw(l: Label)
    requires l.Draw?
    ensures OnlyDraws([l])
  {}

  lemma NoLabels()
    ensures OnlyTransports([])
  {}

  lemma Pushed(g: Game, s: System, side: Side)
    requires SystemInv(g, s) && Live(s)
    ensures var s' := Next(g, s, Push(s, side));
            && Driven(s, s') && Leads(g, s, [Push(s, side)], s')
            && (s.At(side).cells.state != WriteIssue ==> ToWrite(s'.At(side)) < ToWrite(s.At(side)))
            && |s'.Inbox(side).messages| <= |s.Inbox(side).messages|
            && (Drained(s.At(side), s.Inbox(side)) || |s'.Inbox(side).messages| < |s.Inbox(side).messages|
                || ToRead(s'.At(side)) < ToRead(s.At(side)))
  {
    hide NodeInv, LinkInv, Next, Leads, Owed, Same, Drained, ToWrite, ToRead;
    var (s', o) := (Next(g, s, Push(s, side)), Push(s, side).outcome);
    LeadsOne(g, s, Push(s, side));
    PushStep(g, s, side);
    TransportPauses(g, s, side, o);
    PausedLives(s, s');
    forall other | Owed(s, other)
      ensures Owed(s', other)
    {
      NextKeepsOwed(g, s, Push(s, side), other);
    }
    hide SystemInv, Push, Live, Paused;
  }

  lemma PausedLives(s: System, s': System)
    requires Live(s) && Paused(s, s')
    ensures Live(s')
  {
    hide Latest;
  }

  lemma PushStep(g: Game, s: System, side: Side)
    requires SystemInv(g, s) && Live(s)
    ensures var s' := Next(g, s, Transport(side, Healthy(s.Inbox(side))));
            && (s.At(side).cells.state != WriteIssue ==> ToWrite(s'.At(side)) < ToWrite(s.At(side)))
            && |s'.Inbox(side).messages| <= |s.Inbox(side).messages|
            && (Drained(s.At(side), s.Inbox(side)) || |s'.Inbox(side).messages| < |s.Inbox(side).messages|
                || ToRead(s'.At(side)) < ToRead(s.At(side)))
  {
    var (n, peer) := (s.At(side), s.At(Other(side)));
    hide NodeInv, LinkInv, Next, StepTransport, DrawFrame;
    SideOf(g, s, side);
    NextSides(g, s, Transport(side, Healthy(s.Inbox(side))));
    hide SystemInv, SideInv, Reading;
    SideParts(g, n, peer, s.Inbox(side), s.Inbox(Other(side)));
    hide Clock, Counted, Spoken, Watched, Shaped, Healthy, ToWrite, ToRead, Drained, Flat, FramesOf;
    HealthyStep(n, s.Inbox(side), s.Inbox(Other(side)));
  }

  lemma {:induction false} DriveToWrite(g: Game, s: System, side: Side) returns (more: seq<Label>, s': System)
    requires SystemInv(g, s) && Live(s)
    ensures Leads(g, s, more, s') && Driven(s, s') && s'.At(side).cells.state == WriteIssue && OnlyTransports(more)
    decreases ToWrite(s.At(side))
  {
    if s.At(side).cells.state == WriteIssue {
      more, s' := [], s;
      LeadsNowhere(g, s);
      StandsStill(s);
      NoLabels();
    } else {
      Pushed(g, s, side);
      PushIsTransport(s, side);
      var next := Next(g, s, Push(s, side));
      hide Next, ToWrite, NodeInv, LinkInv, Then, Owed, Paused, OnlyTransports;
      more, s' := DriveToWrite(g, next, side);
      LeadsOn(g, s, [Push(s, side)], next, more, s');
      DrivenTwice(s, next, s');
      TransportsOn([Push(s, side)], more);
      more := [Push(s, side)] + more;
    }
  }

  lemma StandsStill(s: System)
    requires Live(s)
    ensures Driven(s, s)
  {
    SameSelf(s.host);
    SameSelf(s.guest);
    hide Same, Owed;
  }

  lemma {:induction false} DriveDry(g: Game, s: System, side: Side) returns (more: seq<Label>, s': System)
    requires SystemInv(g, s) && Live(s)
    ensures Leads(g, s, more, s') && Driven(s, s') && Drained(s'.At(side), s'.Inbox(side)) && OnlyTransports(more)
    decreases |s.Inbox(side).messages|, ToRead(s.At(side))
  {
    if Drained(s.At(side), s.Inbox(side)) {
      more, s' := [], s;
      LeadsNowhere(g, s);
      StandsStill(s);
      NoLabels();
    } else {
      Pushed(g, s, side);
      PushIsTransport(s, side);
      var next := Next(g, s, Push(s, side));
      hide Next, ToRead, NodeInv, LinkInv, Then, Owed, Paused, Drained, OnlyTransports;
      more, s' := DriveDry(g, next, side);
      LeadsOn(g, s, [Push(s, side)], next, more, s');
      DrivenTwice(s, next, s');
      TransportsOn([Push(s, side)], more);
      more := [Push(s, side)] + more;
    }
  }

  // ---- both consoles hold each other's current record ----

  predicate Spoke(n: Node) {
    n.sent != [] && Latest(n) == n.t + DELAY
  }

  lemma WriteSpeaks(g: Game, s: System, side: Side)
    requires SystemInv(g, s) && Live(s) && s.At(side).cells.state == WriteIssue
    ensures var s' := Next(g, s, Push(s, side)); Spoke(s'.At(side)) && Owed(s', Other(side))
  {
    var n := s.At(side);
    var l := Push(s, side);
    hide NodeInv, LinkInv, Next, StepTransport, DrawFrame;
    SideOf(g, s, side);
    NextSides(g, s, l);
    hide SystemInv, SideInv, Reading;
    OutboxAfterStep(n, s.Inbox(side), s.Inbox(Other(side)), l.outcome);
    TransportFrame(n, s.Inbox(side), s.Inbox(Other(side)), l.outcome);
    FreshStamp(n);
    var s' := Next(g, s, l);
    hide Fresh, FrameOf, Shaped;
    assert Fresh(n) in s'.Inbox(Other(side)).messages && Latest(s'.At(side)) == Fresh(n).y;
  }

  lemma Speak(g: Game, s: System, side: Side) returns (more: seq<Label>, s': System)
    requires SystemInv(g, s) && Live(s)
    ensures Leads(g, s, more, s') && Driven(s, s') && Spoke(s'.At(side)) && Owed(s', Other(side)) && OnlyTransports(more)
  {
    hide NodeInv, LinkInv, Next, Then, Owed, Paused, Spoke, Drained, ToWrite, ToRead, Push, OnlyTransports;
    var head, ready := DriveToWrite(g, s, side);
    Pushed(g, ready, side);
    WriteSpeaks(g, ready, side);
    s' := Next(g, ready, Push(ready, side));
    more := head + [Push(ready, side)];
    PushIsTransport(ready, side);
    TransportsOn(head, [Push(ready, side)]);
    LeadsOn(g, s, head, ready, [Push(ready, side)], s');
    DrivenTwice(s, ready, s');
  }

  /** Both consoles have told their current tick, and nothing told is lost. */
  ghost predicate Told(s: System) {
    Spoke(s.host) && Spoke(s.guest) && Owed(s, Host) && Owed(s, Guest)
  }

  lemma DrivenKeeps(s: System, s': System, side: Side)
    requires Driven(s, s')
    ensures Live(s') && (Owed(s, side) ==> Owed(s', side)) && (Spoke(s.At(side)) ==> Spoke(s'.At(side)))
  {
    hide Owed, Latest;
  }

  lemma SpeakBoth(g: Game, s: System) returns (more: seq<Label>, s': System)
    requires SystemInv(g, s) && Live(s)
    ensures Leads(g, s, more, s') && Driven(s, s') && Told(s') && OnlyTransports(more)
  {
    hide NodeInv, LinkInv, Next, Then, Owed, Spoke, Driven, Live, OnlyTransports;
    var a, sa := Speak(g, s, Host);
    DrivenKeeps(s, sa, Host);
    var b, sb := Speak(g, sa, Guest);
    DrivenKeeps(sa, sb, Host);
    DrivenKeeps(sa, sb, Guest);
    DrivenTwice(s, sa, sb);
    TransportsOn(a, b);
    LeadsOn(g, s, a, sa, b, sb);
    more, s' := a + b, sb;
  }

  lemma DryCatches(g: Game, s: System, side: Side) returns (more: seq<Label>, s': System)
    requires SystemInv(g, s) && Live(s) && Told(s)
    ensures Leads(g, s, more, s') && Driven(s, s') && Told(s') && Caught(s'.At(side), s'.At(Other(side))) && OnlyTransports(more)
  {
    hide NodeInv, LinkInv, Next, Then, Owed, Driven, Live, Latest, OnlyTransports;
    more, s' := DriveDry(g, s, side);
    DrivenKeeps(s, s', Host);
    DrivenKeeps(s, s', Guest);
    Catches(g, s', side);
  }

  lemma CaughtStays(g: Game, s: System, s': System, side: Side)
    requires SystemInv(g, s') && Driven(s, s') && Caught(s.At(side), s.At(Other(side)))
    ensures Caught(s'.At(side), s'.At(Other(side)))
  {
    var (n, peer) := (s'.At(side), s'.At(Other(side)));
    SideOf(g, s', side);
    hide SystemInv, SideInv, Reading, Counted, Spoken, Watched, Clock, Shaped, Latest, Owed;
    SideParts(g, n, peer, s'.Inbox(side), s'.Inbox(Other(side)));
  }

  /** Any live state can be driven, moving nothing but the transports, to one where each holds the other's record. */
  lemma Meet(g: Game, s: System) returns (more: seq<Label>, s': System)
    requires SystemInv(g, s) && Live(s)
    ensures Leads(g, s, more, s') && Driven(s, s') && Caught(s'.host, s'.guest) && Caught(s'.guest, s'.host)
    ensures OnlyTransports(more)
  {
    hide NodeInv, LinkInv, Next, Then, Driven, Live, Told, Caught, OnlyTransports;
    var a, sa := SpeakBoth(g, s);
    DrivenKeeps(s, sa, Host);
    var b, sb := DryCatches(g, sa, Host);
    DrivenKeeps(sa, sb, Host);
    var c, sc := DryCatches(g, sb, Guest);
    CaughtStays(g, sb, sc, Host);
    DrivenTwice(s, sa, sb);
    DrivenTwice(s, sb, sc);
    TransportsOn(a, b);
    TransportsOn(a + b, c);
    LeadsOn(g, s, a, sa, b, sb);
    LeadsOn(g, s, a + b, sb, c, sc);
    more, s' := a + b + c, sc;
  }

  // ---- and there a tick can run ----

  lemma DrawRuns(g: Game, s: System, side: Side, p: Ports)
    requires SystemInv(g, s) && Live(s) && !Waits(s.At(side))
    ensures var s' := Next(g, s, Draw(side, p, None));
            && Live(s') && s'.At(Other(side)) == s.At(Other(side)) && s'.At(side).w == s.At(side).w
            && s'.At(side).t <= s.At(side).t + (if Boundary(s.At(side)) then 1 else 0)
            && (if Boundary(s.At(side)) then |s'.At(side).used| == |s.At(side).used| + 1
                else s'.At(side).used == s.At(side).used && !Waits(s'.At(side))
                     && Owing(s'.At(side)) < Owing(s.At(side)))
  {
    var (n, l) := (s.At(side), Draw(side, p, None));
    hide NodeInv, LinkInv, Next, DrawFrame;
    SideOf(g, s, side);
    hide SideInv, Reading;
    SideParts(g, n, s.At(Other(side)), s.Inbox(side), s.Inbox(Other(side)));
    NextNode(g, s, l, Host);
    NextNode(g, s, l, Guest);
    DrawCounts(g, n, p, None);
    DrawLeavesLinks(g, n, p, None);
    DrawUses(g, n, p, None);
    hide SystemInv, Clock, Counted, Spoken, Watched, Shaped, Low, Flat, FramesOf;
  }

  lemma DrawUses(g: Game, n: Node, p: Ports, glitch: Option<Sim>)
    requires Shaped(n.cells)
    ensures var d := DrawFrame(g, n, p, glitch);
            && |d.used| == |n.used| + (if Boundary(n) && d.cells.advance then 1 else 0)
            && (!(Boundary(n) && d.cells.advance) ==> d.used == n.used)
            && d.frames == n.frames + 1
  {
    hide Shim;
  }

  /** Frames the current tick still owes. */
  function Owing(n: Node): int {
    if n.cells.entry.phase == 0 then 0 else FRAMES_PER_TICK - n.cells.entry.phase
  }

  lemma {:induction false} RunATick(g: Game, s: System, side: Side, p: Ports) returns (more: seq<Label>, s': System)
    requires SystemInv(g, s) && Live(s) && !Waits(s.At(side))
    ensures Leads(g, s, more, s') && Live(s') && |s'.At(side).used| == |s.At(side).used| + 1
    ensures s'.At(Other(side)) == s.At(Other(side)) && OnlyDraws(more)
    ensures s'.At(side).w == s.At(side).w && s'.At(side).t <= s.At(side).t + 1
    decreases Owing(s.At(side))
  {
    var l := Draw(side, p, None);
    var next := Next(g, s, l);
    assert Shaped(s.At(side).cells);
    hide NodeInv, LinkInv, Next, Then, Waits, Live, OnlyDraws;
    DrawRuns(g, s, side, p);
    LeadsOne(g, s, l);
    OneDraw(l);
    more, s' := [l], next;
    if !Boundary(s.At(side)) {
      more, s' := RunATick(g, next, side, p);
      LeadsOn(g, s, [l], next, more, s');
      DrawsOn(l, more);
      more := [l] + more;
    }
  }

  /** Ticks run on the two consoles together. */
  function Ticks(s: System): nat {
    |s.host.used| + |s.guest.used|
  }

  lemma OneMoreTick(g: Game, s: System) returns (more: seq<Label>, s': System)
    requires SystemInv(g, s) && Live(s)
    ensures Leads(g, s, more, s') && Live(s') && Ticks(s') == Ticks(s) + 1
  {
    hide NodeInv, LinkInv, Next, Then, Waits, Wanted, Live, Owed, Latest;
    var a, met := Meet(g, s);
    DrivenKeeps(s, met, Host);
    WaitsExactly(g, met, Host);
    var side := if Waits(met.host) then Guest else Host;
    var b;
    b, s' := RunATick(g, met, side, Ports(0, ZERO, ZERO));
    LeadsOn(g, s, a, met, b, s');
    more := a + b;
  }

  /** The two consoles have run nearly the same number of ticks. */
  lemma TicksAreClose(g: Game, s: System)
    requires SystemInv(g, s)
    ensures |s.host.used| <= |s.guest.used| + DELAY + 2 && |s.guest.used| <= |s.host.used| + DELAY + 2
  {
    hide NodeInv, LinkInv;
    SideOf(g, s, Host);
    SideOf(g, s, Guest);
    hide SideInv, SystemInv, Counted, Spoken, Reading, Watched, Flat, FramesOf, Low, Shaped;
    SideParts(g, s.host, s.guest, s.toHost, s.toGuest);
    SideParts(g, s.guest, s.host, s.toGuest, s.toHost);
  }

  lemma {:induction false} ManyTicks(g: Game, s: System, k: nat) returns (more: seq<Label>, s': System)
    requires SystemInv(g, s) && Live(s)
    ensures Leads(g, s, more, s') && Live(s') && Ticks(s') >= k
    decreases k - Ticks(s)
  {
    hide NodeInv, LinkInv, Next, Then, Live;
    if Ticks(s) >= k {
      more, s' := [], s;
      LeadsNowhere(g, s);
    } else {
      var a, next := OneMoreTick(g, s);
      var b;
      b, s' := ManyTicks(g, next, k);
      LeadsOn(g, s, a, next, b, s');
      more := a + b;
    }
  }

  /**
   * No state of any run is a dead end, whatever was lost, delayed or corrupted on the way to it: while both
   * consoles are in the match, some continuation takes both past any tick, with neither leaving.
   */
  lemma NoDeadEnd(g: Game, o: Opening, ls: seq<Label>, k: nat)
    requires Live(Run(g, o, ls))
    ensures exists more: seq<Label> ::
              var s := Run(g, o, ls + more); Live(s) && |s.host.used| >= k && |s.guest.used| >= k
  {
    EveryRun(g, o, ls);
    var s := Run(g, o, ls);
    hide NodeInv, LinkInv, Run, Live, Then;
    var more, s' := ManyTicks(g, s, 2 * k + DELAY + 2);
    TicksAreClose(g, s');
    RunThen(g, o, ls, more);
    assert Run(g, o, ls + more) == s';
  }
}
