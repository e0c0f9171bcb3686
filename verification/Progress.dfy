/** Framing, tick counts, stalls and progress, on every run. */
module Progress {
  import opened Bytes
  import opened Wire
  import opened Netcode
  import opened Lockstep
  import opened Control
  import opened Links
  import opened Runs
  import opened Rings
  import opened Theorems

  // ---- framing ----

  /**
   * Whatever the split of the stream: a READ never asks for more than STATUS last reported, always starts on
   * a frame boundary, and every record taken out of the reply window is a whole frame inside it.
   */
  lemma {:induction false} NeverMisframes(g: Game, o: Opening, ls: seq<Label>, side: Side)
    ensures var s := Run(g, o, ls);
            var (n, inbox) := (s.At(side), s.Inbox(side));
            && !n.fault
            && inbox.bytes == Flat(FramesOf(inbox.messages))
            && (n.cells.state == ReadIssue || n.cells.state == ReadAck ==>
                  0 < n.cells.count && n.cells.count as int % FRAME_LENGTH == 0
                  && n.cells.count as int <= n.reported <= |inbox.bytes|)
            && (n.cells.state == Consume && n.cells.count > 0 ==>
                  var k := n.cells.count as int - 1;
                  && 0 <= k < |n.batch| && FRAME_LENGTH * (k + 1) <= |n.window|
                  && Decode(n.window[FRAME_LENGTH * k..FRAME_LENGTH * k + FRAME_LENGTH])
                     == if n.batch[k].Stamped? then Input(n.batch[k].record) else Departure)
  {
    hide *;
    var s := Run(g, o, ls);
    Reached(g, o, ls, side);
    FramedLink(s.At(side), s.At(Other(side)), s.Inbox(side));
  }

  lemma FramedLink(n: Node, peer: Node, inbox: Link)
    requires LinkInv(n, peer, inbox)
    ensures && !n.fault
            && inbox.bytes == Flat(FramesOf(inbox.messages))
            && (n.cells.state == ReadIssue || n.cells.state == ReadAck ==>
                  0 < n.cells.count && n.cells.count as int % FRAME_LENGTH == 0
                  && n.cells.count as int <= n.reported <= |inbox.bytes|)
            && (n.cells.state == Consume && n.cells.count > 0 ==>
                  var k := n.cells.count as int - 1;
                  && 0 <= k < |n.batch| && FRAME_LENGTH * (k + 1) <= |n.window|
                  && Decode(n.window[FRAME_LENGTH * k..FRAME_LENGTH * k + FRAME_LENGTH])
                     == if n.batch[k].Stamped? then Input(n.batch[k].record) else Departure)
  {
    CarriesBytes(inbox, peer);
    assert Reading(n, inbox);
    hide LinkInv, Carries, Decode, FrameOf, FramesOf, Flat;
    if n.cells.state == Consume && n.cells.count > 0 {
      FramedDue(n);
    }
  }

  /**
   * In any run a transaction that is answered and has failed takes nothing off the stream and puts nothing on it; it
   * leaves the console error 2 and a WRITE to come.
   */
  lemma FailureIsClean(g: Game, o: Opening, ls: seq<Label>, side: Side, outcome: Outcome)
    requires outcome.answered && outcome.failed && Run(g, o, ls).At(side).cells.state in {WriteAck, StatusAck, ReadAck}
    ensures var (s, t) := (Run(g, o, ls), Run(g, o, ls + [Transport(side, outcome)]));
            && t.toHost == s.toHost && t.toGuest == s.toGuest && t.At(Other(side)) == s.At(Other(side))
            && (!s.At(side).cells.entry.left && s.At(side).frames > 0 ==>
                  t.At(side).cells == s.At(side).cells.(error := 2, state := WriteIssue))
  {
    hide Run, NodeInv, Next, StepTransport, Flat, FramesOf, Carries, Queued, Watched, Alarmed;
    var (s, l) := (Run(g, o, ls), Transport(side, outcome));
    Reached(g, o, ls, side);
    OwnCounters(g, o, ls, side);
    RunSnoc(g, o, ls, l);
    EveryRun(g, o, ls);
    FailureOf(s.At(side), s.Inbox(side), s.Inbox(Other(side)), outcome);
    NextIs(g, s, side, outcome);
  }

  lemma FailureOf(n: Node, inbox: Link, outbox: Link, o: Outcome)
    requires Shaped(n.cells) && Reading(n, inbox) && o.answered && o.failed && n.cells.state in {WriteAck, StatusAck, ReadAck}
    ensures var (d, inbox', outbox') := StepTransport(n, inbox, outbox, o);
            inbox' == inbox && outbox' == outbox && d.cells == n.cells.(error := 2, state := WriteIssue)
  {
    hide Encode, Fresh, Low, Flat, FramesOf, Receive, Size;
  }

  lemma NextIs(g: Game, s: System, side: Side, o: Outcome)
    requires SystemInv(g, s)
    ensures Shaped(s.host.cells) && Shaped(s.guest.cells)
    ensures var (n, t) := (s.At(side), Next(g, s, Transport(side, o)));
            if n.cells.entry.left || n.frames == 0 then t == s
            else var (d, inbox', outbox') := StepTransport(n, s.Inbox(side), s.Inbox(Other(side)), o); t == s.With(side, d, inbox', outbox')
  {
    hide NodeInv, LinkInv, StepTransport;
  }

  lemma FramedDue(n: Node)
    requires n.cells.state == Consume && n.cells.count > 0
    requires n.cells.count as int <= |n.batch| && n.window == Flat(FramesOf(n.batch))
    ensures var k := n.cells.count as int - 1;
            && FRAME_LENGTH * (k + 1) <= |n.window|
            && Decode(n.window[FRAME_LENGTH * k..FRAME_LENGTH * k + FRAME_LENGTH])
               == if n.batch[k].Stamped? then Input(n.batch[k].record) else Departure
  {
    DueInWindow(n);
    FrameArrives(Due(n));
    hide Decode, FrameOf, FramesOf, Flat;
  }

  lemma CarriesBytes(inbox: Link, peer: Node)
    requires Carries(inbox, peer)
    ensures inbox.bytes == Flat(FramesOf(inbox.messages))
  {
    hide Flat, FramesOf, True;
  }

  // ---- seats and counts ----

  lemma StepKeepsSeat(g: Game, s: System, l: Label, side: Side)
    requires Shaped(s.host.cells) && Shaped(s.guest.cells) && Seated(s.At(side), side)
    ensures Seated(Next(g, s, l).At(side), side)
  {
    var n := s.At(side);
    NextNode(g, s, l, side);
    if l.Draw? {
      DrawKeepsSeat(g, n, l.ports, l.glitch);
    } else if l.Transport? {
      TransportFrame(n, s.Inbox(side), s.Inbox(Other(side)), l.outcome);
    }
    hide DrawFrame, StepTransport, Next;
  }

  lemma DrawKeepsSeat(g: Game, n: Node, p: Ports, glitch: Option<Sim>)
    requires Shaped(n.cells)
    ensures var d := DrawFrame(g, n, p, glitch);
            d.cells.entry.guest == n.cells.entry.guest && d.cells.entry.net == n.cells.entry.net
  {
    hide MixOf, CaptureOf, Press, SignedAtLeast;
  }

  /** Roles are dealt once: on every run the match bit stands and the guest bit tells the seat. */
  lemma {:induction false} EverySeat(g: Game, o: Opening, ls: seq<Label>, side: Side)
    ensures Seated(Run(g, o, ls).At(side), side)
  {
    if ls != [] {
      EverySeat(g, o, ls[..|ls| - 1], side);
      StepKeepsSeat(g, Run(g, o, ls[..|ls| - 1]), ls[|ls| - 1], side);
      hide First;
    }
    hide Next;
  }

  /**
   * Tick accounting: the ticks run are the tick counter and the one it is on, if it ran; the frames on which
   * the game advanced are four for each of them, less what the current one still owes.
   */
  lemma {:induction false} TicksAreCounted(g: Game, o: Opening, ls: seq<Label>, side: Side)
    ensures var n := Run(g, o, ls).At(side);
            var e := n.cells.entry;
            && |n.used| == n.t + (if e.ran then 1 else 0)
            && |n.log| == n.t + 1 && |n.captures| == n.t + 3
            && (e.phase != 0 ==> e.ran)
            && n.simFrames == FRAMES_PER_TICK * |n.used| - (if e.phase == 0 then 0 else FRAMES_PER_TICK - e.phase)
  {
    Reached(g, o, ls, side);
    hide Run, LinkInv;
  }

  // ---- stalls ----

  /** The tick a console's next boundary is for. */
  function Wanted(n: Node): int {
    if n.cells.entry.ran then n.t + 1 else n.t
  }

  /** The next boundary will stall unless the watermark rises. */
  predicate Waits(n: Node) {
    n.w < Wanted(n)
  }

  /** What a frame does to the counters of a console whose state is reachable. */
  lemma DrawCounts(g: Game, n: Node, p: Ports, glitch: Option<Sim>)
    requires Shaped(n.cells) && Clock(n) && !n.cells.entry.left && -2 <= n.w - n.t <= 5 && n.cells.watermark == Low(n.w)
    ensures var (d, e) := (DrawFrame(g, n, p, glitch), n.cells.entry);
            if !Boundary(n) then
              d.cells.entry == NextPhase(e) && d.cells.stalls == n.cells.stalls && d.t == n.t && d.cells.advance
            else if Waits(n) then
              && d.t == Wanted(n) && !d.cells.entry.ran && d.cells.entry.phase == 0 && !d.cells.advance
              && (if n.cells.stalls >= 15 then d.cells.entry.left && d.cells.stalls == n.cells.stalls
                  else !d.cells.entry.left && d.cells.stalls == n.cells.stalls + 1)
            else
              && d.t == Wanted(n) && d.cells.entry.ran && d.cells.entry.phase == 1 && d.cells.stalls == 0
              && !d.cells.entry.left && d.cells.advance
  {
    ShimEffect(n.cells, p, n.t, n.w);
    hide SignedAtLeast, MixOf, CaptureOf, Press, Low;
  }

  /**
   * Frames a console still draws, at most, if no newer record reaches it: the ticks the watermark lets it
   * run, four frames each, and then the stalls it has left.
   */
  function Patience(n: Node): int {
    if n.cells.entry.left then 0
    else
      (if n.cells.entry.phase == 0 then 0 else FRAMES_PER_TICK - n.cells.entry.phase)
      + (if Waits(n) then 16 - n.cells.stalls else FRAMES_PER_TICK * (n.w + 1 - Wanted(n)) + 16)
  }

  lemma PatienceIsBounded(n: Node)
    requires Shaped(n.cells) && Clock(n) && -2 <= n.w - n.t <= 5
    ensures 0 <= Patience(n) <= 3 + FRAMES_PER_TICK * 6 + 16
    ensures !n.cells.entry.left ==> Patience(n) > 0
  {}

  lemma DrawSpendsPatience(g: Game, n: Node, p: Ports, glitch: Option<Sim>)
    requires Shaped(n.cells) && Clock(n) && !n.cells.entry.left && -2 <= n.w - n.t <= 5 && n.cells.watermark == Low(n.w)
    ensures Patience(DrawFrame(g, n, p, glitch)) < Patience(n)
  {
    DrawCounts(g, n, p, glitch);
    DrawLeavesLinks(g, n, p, glitch);
    hide DrawFrame, Low, Shim;
  }

  function Draws(ls: seq<Label>, side: Side): nat {
    if ls == [] then 0
    else Draws(ls[..|ls| - 1], side) + (if ls[|ls| - 1].Draw? && ls[|ls| - 1].side == side then 1 else 0)
  }

  lemma TransportKeepsPatience(g: Game, n: Node, peer: Node, inbox: Link, outbox: Link, o: Outcome)
    requires Shaped(n.cells) && Clock(n) && Counted(n) && Reading(n, inbox) && !n.cells.entry.left
    ensures var d := StepTransport(n, inbox, outbox, o).0;
            n.w <= d.w && (d.w == n.w ==> Patience(d) <= Patience(n))
  {
    TransportFrame(n, inbox, outbox, o);
    WatermarkRises(n, inbox, outbox, o);
    StallsRise(n, inbox, outbox, o);
    hide StepTransport, Reading;
  }

  lemma WatermarkRises(n: Node, inbox: Link, outbox: Link, o: Outcome)
    requires Shaped(n.cells)
    ensures n.w <= StepTransport(n, inbox, outbox, o).0.w
  {
    AnswerFrame(n, inbox, o);
    hide Answer, NetStep, Fresh, Encode, FrameOf;
  }

  lemma StallsRise(n: Node, inbox: Link, outbox: Link, o: Outcome)
    requires Shaped(n.cells) && Reading(n, inbox)
    ensures n.cells.stalls <= StepTransport(n, inbox, outbox, o).0.cells.stalls
  {
    if n.cells.state == Consume {
      if n.cells.count == 0 {
        BatchEnds(n, inbox, outbox, o);
      } else {
        ConsumeEffect(n, inbox, outbox, o);
        if Due(n).Stamped? {
          AcceptFrame(n.cells.(count := n.cells.count - 1), Due(n).record);
        }
      }
    } else {
      TransportLeavesStalls(n, inbox, outbox, o);
    }
    hide StepTransport, Reading, Accept, Flat, FramesOf, Store;
  }

  lemma StepSpendsPatience(g: Game, s: System, l: Label, side: Side)
    requires SystemInv(g, s)
    ensures var (n, d) := (s.At(side), Next(g, s, l).At(side));
            && n.w <= d.w
            && (d.w == n.w ==> d.cells.entry.left || Patience(d) + Draws([l], side) <= Patience(n))
            && (n.cells.entry.left ==> d.cells.entry.left)
  {
    var (n, peer) := (s.At(side), s.At(Other(side)));
    hide NodeInv, LinkInv, DrawFrame, StepTransport, Next, Patience;
    SideOf(g, s, side);
    NextNode(g, s, l, side);
    hide SystemInv, SideInv, Reading, Watched, Spoken;
    SideParts(g, n, peer, s.Inbox(side), s.Inbox(Other(side)));
    OneLabel(l, side);
    if !n.cells.entry.left && l.side == side {
      if l.Draw? {
        DrawSpendsPatience(g, n, l.ports, l.glitch);
        DrawLeavesLinks(g, n, l.ports, l.glitch);
      } else if l.Transport? {
        TransportKeepsPatience(g, n, peer, s.Inbox(side), s.Inbox(Other(side)), l.outcome);
      }
    }
    hide Clock, Counted, Shaped, Draws;
  }

  lemma {:induction false} PatienceRuns(g: Game, o: Opening, ls: seq<Label>, more: seq<Label>, side: Side)
    ensures var (n, d) := (Run(g, o, ls).At(side), Run(g, o, ls + more).At(side));
            && n.w <= d.w
            && (d.w == n.w ==> d.cells.entry.left || Patience(d) + Draws(more, side) <= Patience(n))
  {
    if more == [] {
      assert ls + more == ls;
    } else {
      var (most, l) := (more[..|more| - 1], more[|more| - 1]);
      assert ls + more == (ls + most) + [l];
      assert Draws(more, side) == Draws(most, side) + Draws([l], side) by { OneLabel(l, side); }
      hide Run, Next, SystemInv, Patience, Draws;
      PatienceRuns(g, o, ls, most, side);
      EveryRun(g, o, ls + most);
      RunSnoc(g, o, ls + most, l);
      StepSpendsPatience(g, Run(g, o, ls + most), l, side);
    }
  }

  lemma OneLabel(l: Label, side: Side)
    ensures Draws([l], side) == if l.Draw? && l.side == side then 1 else 0
  {
    assert [l][..0] == [];
    assert Draws([], side) == 0;
  }

  /**
   * The way out of a silent match, from any state of any run. While no newer record is consumed a console runs
   * no tick past its watermark, and it has left for the peer-left screen after at most Patience frames, which
   * never exceeds 43.
   */
  lemma {:induction false} SilenceEnds(g: Game, o: Opening, ls: seq<Label>, more: seq<Label>, side: Side)
    requires Run(g, o, ls + more).At(side).w == Run(g, o, ls).At(side).w
    ensures var (n, d) := (Run(g, o, ls).At(side), Run(g, o, ls + more).At(side));
            && |d.used| <= Max(n.w + 1, 0)
            && Patience(n) <= 43
            && (Draws(more, side) >= Patience(n) ==> d.cells.entry.left)
  {
    hide Run, Patience, Shaped, Clock, Draws;
    var (n, d) := (Run(g, o, ls).At(side), Run(g, o, ls + more).At(side));
    PatienceRuns(g, o, ls, more, side);
    OwnCounters(g, o, ls, side);
    OwnCounters(g, o, ls + more, side);
    PatienceIsBounded(n);
    PatienceIsBounded(d);
  }

  lemma OwnCounters(g: Game, o: Opening, ls: seq<Label>, side: Side)
    ensures var n := Run(g, o, ls).At(side);
            && Shaped(n.cells) && Clock(n) && -2 <= n.w - n.t <= 5 && |n.used| <= Max(n.w + 1, 0)
  {
    hide *;
    var s := Run(g, o, ls);
    EveryRun(g, o, ls);
    SideOf(g, s, side);
    SideParts(g, s.At(side), s.At(Other(side)), s.Inbox(side), s.Inbox(Other(side)));
  }

  /** And the only ways out are sixteen stalled boundaries in a row, or being told that the peer has left. */
  lemma {:induction false} LeavesOnlyIf(g: Game, o: Opening, ls: seq<Label>, side: Side)
    ensures var n := Run(g, o, ls).At(side);
            && (n.cells.entry.left ==> n.stallRun >= 16 || n.leaveSeen)
            && (n.stallRun >= 16 ==> n.cells.entry.left)
  {
    Reached(g, o, ls, side);
    hide Run, LinkInv, Clock, Captured, Logged, Simulated, Spoken;
  }
}
