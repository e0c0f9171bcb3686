/** When a consumed departure is the end at once, and when it is forgotten. */
module Departures {
  import opened Bytes
  import opened Wire
  import opened Netcode
  import opened Lockstep
  import opened Control
  import opened Links
  import opened Runs
  import opened Progress
  import opened Drive
  import opened Theorems
  import Witness

  /** The stall count stands where a departure puts it. */
  predicate Warned(n: Node) {
    n.cells.stalls >= 15 && !n.cells.entry.left
  }

  /** The frame about to be consumed is the word that the peer has left. */
  predicate Parting(n: Node) {
    !n.cells.entry.left && n.frames > 0 && n.cells.state == Consume && 0 < Left(n) <= |n.batch| && Due(n).Gone?
  }

  /** Consuming a departure saturates the stall count, in any run. */
  lemma DepartureWarns(g: Game, o: Opening, ls: seq<Label>, side: Side, outcome: Outcome)
    requires Parting(Run(g, o, ls).At(side))
    ensures var (n, d) := (Run(g, o, ls).At(side), Run(g, o, ls + [Transport(side, outcome)]).At(side));
            Warned(d) && Wanted(d) == Wanted(n) && d.w == n.w
  {
    hide Run, NodeInv, Next, StepTransport, Flat, FramesOf, Carries, Queued, Watched, Alarmed;
    var (s, l) := (Run(g, o, ls), Transport(side, outcome));
    Reached(g, o, ls, side);
    OwnCounters(g, o, ls, side);
    RunSnoc(g, o, ls, l);
    EveryRun(g, o, ls);
    BothShaped(g, s);
    hide SystemInv, Shaped;
    NextNode(g, s, l, side);
    ConsumeEffect(s.At(side), s.Inbox(side), s.Inbox(Other(side)), outcome);
    TransportFrame(s.At(side), s.Inbox(side), s.Inbox(Other(side)), outcome);
  }

  lemma BothShaped(g: Game, s: System)
    requires SystemInv(g, s)
    ensures Shaped(s.host.cells) && Shaped(s.guest.cells)
  {
    hide NodeInv, LinkInv;
  }

  /** One label that is not a boundary frame of this console. */
  predicate Between(s: System, l: Label, side: Side) {
    !(l.Draw? && l.side == side && Boundary(s.At(side)))
  }

  predicate AllBetween(g: Game, s: System, more: seq<Label>, side: Side)
    requires Shaped(s.host.cells) && Shaped(s.guest.cells)
  {
    more != [] ==>
      AllBetween(g, s, more[..|more| - 1], side) && Between(Then(g, s, more[..|more| - 1]), more[|more| - 1], side)
  }

  lemma WarnedStep(g: Game, s: System, l: Label, side: Side)
    requires SystemInv(g, s) && Warned(s.At(side)) && Between(s, l, side)
    ensures var (n, d) := (s.At(side), Next(g, s, l).At(side)); Warned(d) && Wanted(d) == Wanted(n) && n.w <= d.w
  {
    var (n, peer) := (s.At(side), s.At(Other(side)));
    hide NodeInv, LinkInv, DrawFrame, StepTransport, Next;
    SideOf(g, s, side);
    NextNode(g, s, l, side);
    hide SystemInv, SideInv, Reading, Watched, Spoken;
    SideParts(g, n, peer, s.Inbox(side), s.Inbox(Other(side)));
    if l.side == side {
      if l.Draw? {
        DrawCounts(g, n, l.ports, l.glitch);
        DrawLeavesLinks(g, n, l.ports, l.glitch);
      } else if l.Transport? && n.frames > 0 {
        TransportFrame(n, s.Inbox(side), s.Inbox(Other(side)), l.outcome);
        WatermarkRises(n, s.Inbox(side), s.Inbox(Other(side)), l.outcome);
        StallsRise(n, s.Inbox(side), s.Inbox(Other(side)), l.outcome);
      }
    }
    hide Clock, Counted, Shaped;
  }

  lemma {:induction false} WarnedThrough(g: Game, s: System, more: seq<Label>, side: Side)
    requires SystemInv(g, s) && Warned(s.At(side)) && Shaped(s.host.cells) && Shaped(s.guest.cells) && AllBetween(g, s, more, side)
    ensures SystemInv(g, Then(g, s, more))
    ensures var (n, d) := (s.At(side), Then(g, s, more).At(side)); Warned(d) && Wanted(d) == Wanted(n) && n.w <= d.w
  {
    hide NodeInv, LinkInv, Next, SystemInv, Shaped, Warned, Wanted, Between;
    if more != [] {
      var (front, l) := (more[..|more| - 1], more[|more| - 1]);
      WarnedThrough(g, s, front, side);
      WarnedStep(g, Then(g, s, front), l, side);
      NextKeepsInv(g, Then(g, s, front), l);
    }
  }

  /**
   * A departure is the end at once if and only if no record consumed before the next boundary brings the watermark
   * to the tick this console wants. If one does, the departure is forgotten: the tick runs and the count is cleared.
   */
  lemma {:induction false} DepartureIsImmediateIff(g: Game, o: Opening, ls: seq<Label>, more: seq<Label>, side: Side,
                                                   p: Ports, glitch: Option<Sim>)
    requires Warned(Run(g, o, ls).At(side))
    requires AllBetween(g, Run(g, o, ls), more, side) && Boundary(Run(g, o, ls + more).At(side))
    ensures var (n, m) := (Run(g, o, ls).At(side), Run(g, o, ls + more).At(side));
            var d := Run(g, o, ls + more + [Draw(side, p, glitch)]).At(side);
            && (d.cells.entry.left <==> m.w < Wanted(n))
            && (!d.cells.entry.left ==> d.cells.stalls == 0 && d.cells.entry.ran && d.t == Wanted(n))
  {
    hide Run, NodeInv, LinkInv, Next, Then, AllBetween, DrawFrame;
    var (s, l) := (Run(g, o, ls), Draw(side, p, glitch));
    EveryRun(g, o, ls);
    BothShaped(g, s);
    WarnedThrough(g, s, more, side);
    RunThen(g, o, ls, more);
    RunSnoc(g, o, ls + more, l);
    var t := Then(g, s, more);
    BothShaped(g, t);
    NextNode(g, t, l, side);
    SideOf(g, t, side);
    hide SystemInv, SideInv, Reading, Watched, Spoken, Counted;
    SideParts(g, t.At(side), t.At(Other(side)), t.Inbox(side), t.Inbox(Other(side)));
    DrawCounts(g, t.At(side), p, glitch);
    hide Clock, Shaped;
  }

  // ---- a departure forgotten ----

  /** The peer's record for tick 2 and its departure behind it are on this console's stream; it is about to read. */
  lemma RecordThenGone(g: Game, o: Opening) returns (ls: seq<Label>, s: System)
    ensures Leads(g, First(g, o), ls, s) && Live(s) && s.guest.cells.state == WriteAck
    ensures Witness.AtZero(s.guest) && |s.toGuest.messages| == 2
    ensures s.toGuest.messages[0].Stamped? && s.toGuest.messages[0].y == 2 && s.toGuest.messages[1].Gone?
  {
    hide NodeInv, LinkInv, SystemInv, Next, Then, Live, Witness.Plain, Witness.Turned, Push, First;
    var a, sa := Witness.Opened(g, o);
    var sb, m := Witness.WritePush(g, sa, Host);
    var l := Depart(Guest);
    LeadsOne(g, sb, l);
    DepartIs(g, sb);
    var sc := Next(g, sb, l);
    var sd, m' := Witness.WritePush(g, sc, Guest);
    LeadsOn(g, First(g, o), a, sa, [Push(sa, Host)], sb);
    LeadsOn(g, First(g, o), a + [Push(sa, Host)], sb, [l], sc);
    LeadsOn(g, First(g, o), a + [Push(sa, Host)] + [l], sc, [Push(sc, Guest)], sd);
    ls, s := a + [Push(sa, Host)] + [l] + [Push(sc, Guest)], sd;
  }

  lemma DepartIs(g: Game, s: System)
    requires SystemInv(g, s) && Live(s)
    ensures Shaped(s.host.cells) && Shaped(s.guest.cells)
    ensures var t := Next(g, s, Depart(Guest));
            && t.host == s.host && t.guest == s.guest && t.toHost == s.toHost && Live(t)
            && t.toGuest.messages == s.toGuest.messages + [Gone]
  {
    BothShaped(g, s);
    hide SystemInv;
  }

  /** The departure consumed, and then the record it came behind. */
  lemma GonePush(g: Game, s: System) returns (s': System)
    requires SystemInv(g, s) && Live(s) && Parting(s.guest)
    ensures Leads(g, s, [Push(s, Guest)], s') && Live(s') && Warned(s'.guest) && Witness.Quiet(s.guest, s'.guest)
    ensures s'.guest.cells.state == Consume && Left(s'.guest) == Left(s.guest) - 1 && s'.guest.batch == s.guest.batch
    ensures Shaped(s'.guest.cells)
  {
    var (n, inbox, outbox) := (s.guest, s.toGuest, s.toHost);
    hide NodeInv, LinkInv, Next, StepTransport, Leads, Reading, Healthy, SystemInv, Flat, FramesOf;
    Witness.PushOpens(g, s, Guest);
    s' := Next(g, s, Push(s, Guest));
    ConsumeEffect(n, inbox, outbox, Healthy(inbox));
    TransportFrame(n, inbox, outbox, Healthy(inbox));
    SystemShaped(g, s, s', Push(s, Guest));
  }

  lemma SystemShaped(g: Game, s: System, s': System, l: Label)
    requires Leads(g, s, [l], s')
    ensures Shaped(s'.guest.cells)
  {
    BothShaped(g, s');
    hide SystemInv, Then;
  }

  /**
   * There is such a run in every game: the record and the departure are read together, the departure, the newer, is
   * consumed first, and the record then lets the next tick run, which clears the count.
   */
  lemma DepartureForgotten(g: Game, o: Opening) returns (ls: seq<Label>, more: seq<Label>)
    ensures |more| == 3 && Parting(Run(g, o, ls).guest) && Warned(Run(g, o, ls + more[..1]).guest)
    ensures var d := Run(g, o, ls + more).guest; !d.cells.entry.left && d.cells.stalls == 0 && d.cells.entry.ran
  {
    hide NodeInv, LinkInv, SystemInv, Next, Then, Live, First, Run, Push;
    var a, sa := RecordThenGone(g, o);
    var b, sb := Witness.AskToRead(g, sa, Guest);
    var sc := Witness.ReadPush(g, sb, Guest);
    LeadsOn(g, First(g, o), a, sa, b, sb);
    LeadsOn(g, First(g, o), a + b, sb, [Push(sb, Guest)], sc);
    ls := a + b + [Push(sb, Guest)];
    ReadBoth(sa, sb, sc);
    LiveIs(sc);
    var sd := GonePush(g, sc);
    var se := Witness.ConsumePush(g, sd, Guest);
    var p := Ports(0, ZERO, ZERO);
    LiveIs(se);
    Witness.DrawOne(g, se, Guest, p);
    var sf := Next(g, se, Draw(Guest, p, None));
    more := [Push(sc, Guest), Push(sd, Guest), Draw(Guest, p, None)];
    RanOnRecord(sc, sd, se, sf);
    LeadsOn(g, First(g, o), ls, sc, [Push(sc, Guest)], sd);
    LeadsOn(g, First(g, o), ls + [Push(sc, Guest)], sd, [Push(sd, Guest)], se);
    LeadsOn(g, First(g, o), ls + [Push(sc, Guest)] + [Push(sd, Guest)], se, [Draw(Guest, p, None)], sf);
    assert more[..1] == [Push(sc, Guest)];
    assert ls + more == ls + [Push(sc, Guest)] + [Push(sd, Guest)] + [Draw(Guest, p, None)];
    LedTo(g, o, ls, sc);
    LedTo(g, o, ls + more[..1], sd);
    LedTo(g, o, ls + more, sf);
  }

  lemma LedTo(g: Game, o: Opening, ls: seq<Label>, s: System)
    requires Leads(g, First(g, o), ls, s)
    ensures s == Run(g, o, ls)
  {
    RunThen(g, o, [], ls);
    assert [] + ls == ls;
    assert Run(g, o, []) == First(g, o);
    hide SystemInv, Next, First;
  }

  lemma LiveIs(s: System)
    requires Live(s)
    ensures s.guest.frames > 0 && !s.guest.cells.entry.left
  {}

  lemma ReadBoth(a: System, b: System, c: System)
    requires Witness.AtZero(a.guest) && |a.toGuest.messages| == 2 && b.toGuest == a.toGuest
    requires a.toGuest.messages[0].Stamped? && a.toGuest.messages[0].y == 2 && a.toGuest.messages[1].Gone?
    requires Witness.Quiet(a.guest, b.guest) && Witness.Quiet(b.guest, c.guest) && Live(c)
    requires c.guest.cells.state == Consume && c.guest.batch == b.toGuest.messages && c.guest.cells.count as int == |b.toGuest.messages|
    ensures Parting(c.guest) && Left(c.guest) == 2 && c.guest.batch[0].Stamped? && c.guest.batch[0].y == 2
    ensures c.guest.w == -2 && c.guest.t == 0 && !c.guest.cells.entry.ran && c.guest.cells.entry.phase == 0
  {
    LiveIs(c);
  }

  lemma RanOnRecord(c: System, d: System, e: System, f: System)
    requires c.guest.w == -2 && c.guest.t == 0 && !c.guest.cells.entry.ran && c.guest.cells.entry.phase == 0
    requires Witness.Quiet(c.guest, d.guest) && d.guest.batch == c.guest.batch && Left(d.guest) == 1 && |d.guest.batch| > 0
    requires d.guest.batch[0].Stamped? && d.guest.batch[0].y == 2 && |d.guest.cells.remote| == RING_SLOTS
    requires Witness.Took(d.guest, e.guest, d.guest.batch[0]) && Witness.Drew(e.guest, f.guest)
    ensures !f.guest.cells.entry.left && f.guest.cells.stalls == 0 && f.guest.cells.entry.ran
  {
    hide Store;
  }
}
