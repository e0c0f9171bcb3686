/** What the two rings hold, in every run that keeps the delivery hypothesis. */
module Rings {
  import opened Bytes
  import opened Wire
  import opened Netcode
  import opened Lockstep
  import opened Control
  import opened Links
  import opened Runs

  /** The role and the match bit never change. */
  predicate Seated(n: Node, side: Side) {
    n.cells.entry.guest == (side == Guest) && n.cells.entry.net
  }

  /** What both consoles must read at tick k, from the two captures alone. */
  function Agreement(n: Node, peer: Node, side: Side, k: int): Shadows
    requires 0 <= k < |n.captures| && k < |peer.captures|
  {
    if side == Host then Mixed(n.captures[k], peer.captures[k]) else Mixed(peer.captures[k], n.captures[k])
  }

  /** A tick's slot holds its capture. */
  predicate HoldsAt(remote: seq<Capture>, captures: seq<Capture>, k: int) {
    |remote| == RING_SLOTS && 0 <= k < |captures| && remote[k % RING_SLOTS] == captures[k]
  }

  /** Every tick from t to the watermark is in its slot: ticks 0 and 1 from the start. */
  predicate Holds(remote: seq<Capture>, captures: seq<Capture>, t: int, w: int) {
    |remote| == RING_SLOTS && forall k | 0 <= k && t <= k <= Max(w, 1) :: HoldsAt(remote, captures, k)
  }

  predicate Held(n: Node, peer: Node) {
    Holds(n.cells.remote, peer.captures, n.t, n.w)
  }

  lemma HeldAt(n: Node, peer: Node, k: int)
    requires Held(n, peer) && 0 <= k && n.t <= k <= Max(n.w, 1)
    ensures |n.cells.remote| == RING_SLOTS && k < |peer.captures| && n.cells.remote[k % RING_SLOTS] == peer.captures[k]
  {
    assert HoldsAt(n.cells.remote, peer.captures, k);
  }

  predicate Steady(n: Node) {
    n.w <= Max(n.floor, 1) + WINDOW
  }

  /** Every tick that ran, ran on the two consoles' own captures for it. */
  predicate Faithful(n: Node, peer: Node, side: Side) {
    && |n.used| <= |n.captures| && |n.used| <= |peer.captures|
    && forall k | 0 <= k < |n.used| :: n.used[k] == Agreement(n, peer, side, k)
  }

  ghost predicate RingInv(n: Node, peer: Node, side: Side) {
    Seated(n, side) && Held(n, peer) && Steady(n) && Faithful(n, peer, side)
  }

  // ---- a frame ----

  /** A gate that passes reads this console's own capture and what the remote ring holds for the tick. */
  lemma PassReadsRings(g: Game, n: Node, side: Side, p: Ports, glitch: Option<Sim>)
    requires Shaped(n.cells) && Clock(n) && Captured(n) && Seated(n, side) && !n.cells.entry.left
    ensures var d := DrawFrame(g, n, p, glitch);
            && Seated(d, side)
            && (Boundary(n) && d.cells.advance && d.t >= 0 ==>
                  && d.t < |d.captures| && |n.cells.remote| == RING_SLOTS
                  && var ours, theirs := d.captures[d.t], n.cells.remote[d.t % RING_SLOTS];
                     d.used == n.used + [if side == Host then Mixed(ours, theirs) else Mixed(theirs, ours)])
            && (!(Boundary(n) && d.cells.advance) ==> d.used == n.used)
  {
    var d := DrawFrame(g, n, p, glitch);
    PassUses(g, n, p, glitch);
    DrawKeepsCaptured(g, n, p, glitch);
    DrawKeepsClock(g, n, p, glitch);
    DrawnCells(g, n, p, glitch);
    hide DrawFrame, Shim, Low, MixOf, Mixed;
    if Boundary(n) && d.cells.advance && d.t >= 0 {
      PassCells(n.cells, p);
      SlotsOf(d.t);
      assert d.cells.local[d.t % LOCAL_SLOTS] == d.captures[d.t];
      MixedIsAgreed(d.captures[d.t], n.cells.remote[d.t % RING_SLOTS], p.swchb);
      MixedIsAgreed(n.cells.remote[d.t % RING_SLOTS], d.captures[d.t], p.swchb);
    }
  }

  /** A tick's slots, from the eight bits its cell keeps of it. */
  lemma SlotsOf(t: int)
    requires t >= 0
    ensures Low(t) as int % RING_SLOTS == t % RING_SLOTS && Low(t) as int % LOCAL_SLOTS == t % LOCAL_SLOTS
  {
    Eights(t % 256, 32 * (t / 256));
    Fours(t % 256, 64 * (t / 256));
  }

  lemma MixedIsAgreed(h: Capture, g: Capture, swchb: Bits)
    ensures Agreed(MixOf(h, g, swchb)) == Mixed(h, g)
  {}

  lemma PassUses(g: Game, n: Node, p: Ports, glitch: Option<Sim>)
    requires Shaped(n.cells)
    ensures var d := DrawFrame(g, n, p, glitch);
            && d.used == (if Boundary(n) && d.cells.advance then n.used + [Agreed(Shim(n.cells, p).shadows)] else n.used)
            && d.cells.advance == Shim(n.cells, p).advance
  {
    hide Shim, Agreed;
  }

  /** The cells of a drawn frame, the checksum apart, are the shim's. */
  lemma DrawnCells(g: Game, n: Node, p: Ports, glitch: Option<Sim>)
    requires Shaped(n.cells)
    ensures var (d, c) := (DrawFrame(g, n, p, glitch).cells, Shim(n.cells, p));
            d.local == c.local && d.tick == c.tick && d.entry == c.entry && d.advance == c.advance
    ensures Shim(n.cells, p).entry.guest == n.cells.entry.guest && Shim(n.cells, p).entry.net == n.cells.entry.net
  {
    hide MixOf, CaptureOf, Press, SignedAtLeast, Low;
  }

  lemma PassCells(c: Cells, p: Ports)
    requires Shaped(c) && c.entry.phase == 0 && Shim(c, p).advance
    ensures var b := Commit(c.(advance := true), p);
            var ours, theirs := b.local[b.tick as int % LOCAL_SLOTS], c.remote[b.tick as int % RING_SLOTS];
            var d := Shim(c, p);
            && d.shadows == (if c.entry.guest then MixOf(theirs, ours, p.swchb) else MixOf(ours, theirs, p.swchb))
            && d.local == b.local && d.tick == b.tick && d.entry.guest == c.entry.guest && d.entry.net == c.entry.net
  {
    hide MixOf, CaptureOf, Press, SignedAtLeast, Low;
  }

  lemma DrawKeepsRings(g: Game, n: Node, peer: Node, side: Side, p: Ports, glitch: Option<Sim>)
    requires Shaped(n.cells) && NodeInv(g, n) && NodeInv(g, peer) && !n.cells.entry.left
    requires Watched(n, peer) && Watched(peer, n) && RingInv(n, peer, side)
    ensures RingInv(DrawFrame(g, n, p, glitch), peer, side)
  {
    var d := DrawFrame(g, n, p, glitch);
    DrawOnlyAppends(g, n, p, glitch);
    DrawLeavesLinks(g, n, p, glitch);
    PassReadsRings(g, n, side, p, glitch);
    FirstBoundary(g, n, p, glitch);
    GateIsOpen(g, n, peer, p, glitch);
    FaithfulGrows(n, d, peer, side);
    hide DrawFrame, Faithful, NodeInv, Watched;
  }

  /** A gate that passes has the peer's capture for the tick in the ring. */
  lemma GateIsOpen(g: Game, n: Node, peer: Node, p: Ports, glitch: Option<Sim>)
    requires Shaped(n.cells) && NodeInv(g, n) && NodeInv(g, peer) && Watched(n, peer) && Watched(peer, n) && Held(n, peer)
    ensures var d := DrawFrame(g, n, p, glitch);
            Boundary(n) && d.cells.advance ==>
              0 <= d.t <= d.w && d.t < |peer.captures| && n.cells.remote[d.t % RING_SLOTS] == peer.captures[d.t]
  {
    Skew(n, peer);
    ShimEffect(n.cells, p, n.t, n.w);
    DrawnShim(g, n, p, glitch);
    FirstBoundary(g, n, p, glitch);
    DrawLeavesLinks(g, n, p, glitch);
    hide DrawFrame, Shim, Captured, Logged, Simulated, Counted, Held;
    var d := DrawFrame(g, n, p, glitch);
    if Boundary(n) && d.cells.advance {
      HeldAt(n, peer, d.t);
    }
  }

  lemma FaithfulGrows(n: Node, d: Node, peer: Node, side: Side)
    requires Faithful(n, peer, side) && n.captures <= d.captures
    requires d.used == n.used || (|n.used| < |d.captures| && |n.used| < |peer.captures|
                                  && d.used == n.used + [Agreement(d, peer, side, |n.used|)])
    ensures Faithful(d, peer, side)
  {
    hide Mixed;
  }

  lemma DrawnShim(g: Game, n: Node, p: Ports, glitch: Option<Sim>)
    requires Shaped(n.cells)
    ensures DrawFrame(g, n, p, glitch).cells.advance == Shim(n.cells, p).advance
  {
    hide Shim;
  }

  /** The first boundary of a match always advances to tick 0. */
  lemma FirstBoundary(g: Game, n: Node, p: Ports, glitch: Option<Sim>)
    requires Shaped(n.cells) && Clock(n)
    ensures var d := DrawFrame(g, n, p, glitch);
            && (Boundary(n) ==> d.t == |n.used|)
            && d.t == (if Advances(n) then n.t + 1 else n.t)
  {
    hide Shim;
  }

  lemma PeerDrawKeepsRings(n: Node, peer: Node, later: Node, side: Side)
    requires RingInv(n, peer, side) && peer.captures <= later.captures
    ensures RingInv(n, later, side)
  {
    HoldsOn(n.cells.remote, peer.captures, later.captures, n.t, n.w);
    hide Mixed, Holds;
  }

  /** More captures leave what is held held. */
  lemma HoldsOn(remote: seq<Capture>, captures: seq<Capture>, more: seq<Capture>, t: int, w: int)
    requires Holds(remote, captures, t, w) && captures <= more
    ensures Holds(remote, more, t, w)
  {
    forall k | 0 <= k && t <= k <= Max(w, 1)
      ensures HoldsAt(remote, more, k)
    {
      assert HoldsAt(remote, captures, k);
    }
  }

  // ---- a record ----

  /**
   * A record within the hypothesis fills every tick it raises the watermark over, and clobbers none that
   * is still held.
   */
  lemma StoreKeepsHeld(remote: seq<Capture>, captures: seq<Capture>, r: Record, t: int, w: int, y: int)
    requires Holds(remote, captures, t, w) && 2 <= y < |captures|
    requires r.tick == Low(y) && r.newest == captures[y] && r.middle == captures[y - 1] && r.oldest == captures[y - 2]
    requires y <= Max(w, 1) + WINDOW && y <= t + 5 && Max(w, 1) <= y + 5
    ensures Holds(Store(remote, r), captures, t, Max(w, y))
  {
    hide Store, Low, HoldsAt;
    forall k | 0 <= k && t <= k <= Max(Max(w, y), 1)
      ensures HoldsAt(Store(remote, r), captures, k)
    {
      StoredHolds(remote, captures, r, w, y, k);
    }
  }

  /** Near a true record, a tick it covers is held after it, and a tick held before still is. */
  lemma StoredHolds(remote: seq<Capture>, captures: seq<Capture>, r: Record, w: int, y: int, k: int)
    requires |remote| == RING_SLOTS && 2 <= y < |captures| && r.tick == Low(y)
    requires r.newest == captures[y] && r.middle == captures[y - 1] && r.oldest == captures[y - 2]
    requires 0 <= k && y - 5 <= k <= y + 5 && (k <= Max(w, 1) ==> HoldsAt(remote, captures, k))
    requires k > Max(w, 1) ==> y - WINDOW < k <= y
    ensures HoldsAt(Store(remote, r), captures, k)
  {
    hide Store, Low;
    StoredAt(remote, r, y, k);
  }

  /** Where a record's three captures go. */
  lemma StoredSlots(remote: seq<Capture>, r: Record, y: int)
    requires |remote| == RING_SLOTS && r.tick == Low(y)
    ensures var s := Store(remote, r);
            && s[y % RING_SLOTS] == r.newest && s[(y - 1) % RING_SLOTS] == r.middle && s[(y - 2) % RING_SLOTS] == r.oldest
            && forall i | 0 <= i < RING_SLOTS && i != y % RING_SLOTS && i != (y - 1) % RING_SLOTS && i != (y - 2) % RING_SLOTS ::
                 s[i] == remote[i]
  {
    LowKeeps(y, 0);
    var low := Low(y) as int;
    Eights(low - 1, 1);
    Eights(low - 2, 1);
    Eights(low - 1, 32 * ((y - low) / 256));
    Eights(low - 2, 32 * ((y - low) / 256));
    assert y == low + 8 * (32 * ((y - low) / 256));
  }

  lemma ApartSlots(k: int, y: int)
    requires (y < k <= y + 5) || (y - 5 <= k < y - 2)
    ensures k % RING_SLOTS != y % RING_SLOTS && k % RING_SLOTS != (y - 1) % RING_SLOTS && k % RING_SLOTS != (y - 2) % RING_SLOTS
  {}

  /** Near the record, a slot holds the record's capture for its tick, or what it held. */
  lemma StoredAt(remote: seq<Capture>, r: Record, y: int, k: int)
    requires |remote| == RING_SLOTS && r.tick == Low(y) && y - 5 <= k <= y + 5
    ensures Store(remote, r)[k % RING_SLOTS] ==
            if k == y then r.newest else if k == y - 1 then r.middle else if k == y - 2 then r.oldest
            else remote[k % RING_SLOTS]
  {
    StoredSlots(remote, r, y);
    if k < y - 2 || y < k {
      ApartSlots(k, y);
    }
    hide Store, Low;
  }

  /** The delivery hypothesis, said of the record that is due. */
  predicate Bounded(n: Node) {
    (0 < Left(n) <= |n.batch| && Due(n).Stamped? && Due(n).y > n.w) ==> Due(n).y <= Max(n.w, 1) + WINDOW
  }

  /** The ring after a record, from the ring before it. */
  lemma RecordKeepsHeld(n: Node, d: Node, peer: Node)
    requires 0 < Left(n) <= |n.batch| && AfterRecord(n, d) && Held(n, peer) && True(Due(n), peer.captures, peer.log)
    requires Due(n).y <= Max(n.w, 1) + WINDOW && Due(n).y <= n.t + 5 && Max(n.w, 1) <= Due(n).y + 5
    ensures Held(d, peer)
  {
    StoreKeepsHeld(n.cells.remote, peer.captures, Due(n).record, n.t, n.w, Due(n).y);
    hide Store, Low, Holds;
  }

  /** How far from the watermark, and from the receiver's tick, a record of the batch can be. */
  lemma DueIsNear(n: Node, peer: Node, inbox: Link)
    requires Queued(n, peer, inbox) && n.t <= n.w + 2 && peer.t <= n.t + 3 && Latest(peer) <= peer.t + 2
    requires 0 < Left(n) <= |n.batch| && Due(n).Stamped? && Steady(n)
    ensures True(Due(n), peer.captures, peer.log)
    ensures Due(n).y <= n.t + 5 && Max(n.w, 1) <= Due(n).y + 5
    ensures Due(n).y <= n.w || n.w == n.floor
  {
    assert Due(n) in n.batch;
    assert n.floor <= Due(n).y;
    hide Ordered;
    assert Due(n).y >= 2;
    hide True;
  }

  lemma RecordKeepsRings(g: Game, n: Node, peer: Node, side: Side, inbox: Link, outbox: Link, o: Outcome)
    requires Shaped(n.cells) && NodeInv(g, n) && LinkInv(n, peer, inbox) && n.t >= 0 && n.cells.state == Consume
    requires -2 <= n.w - n.t <= 5 && peer.t <= n.t + 3 && Latest(peer) <= peer.t + 2 && RingInv(n, peer, side)
    requires n.cells.count > 0 && Due(n).Stamped? && Bounded(n)
    ensures RingInv(StepTransport(n, inbox, outbox, o).0, peer, side)
  {
    RecordKeepsLink(g, n, peer, inbox, outbox, o);
    var d := StepTransport(n, inbox, outbox, o).0;
    DueIsNear(n, peer, inbox);
    hide StepTransport, Store, Holds, Held, True, Flat, FramesOf, Ordered, Carries, Queued, Watched, Alarmed, NodeInv, Faithful;
    RecordKeepsHeld(n, d, peer);
    RecordKeepsFaithful(n, d, peer, side);
    hide *;
    hide Reading;
  }

  lemma RecordKeepsFaithful(n: Node, d: Node, peer: Node, side: Side)
    requires 0 < Left(n) <= |n.batch| && AfterRecord(n, d) && Faithful(n, peer, side) && Seated(n, side) && Steady(n)
    requires Due(n).y <= n.w || n.w == n.floor
    requires Due(n).y > n.w ==> Due(n).y <= Max(n.w, 1) + WINDOW
    ensures Faithful(d, peer, side) && Seated(d, side) && Steady(d)
  {
    hide Mixed, Store, Low;
  }

  // ---- every other transport step ----

  predicate SameRings(n: Node, d: Node) {
    && d.cells.remote == n.cells.remote && d.t == n.t && d.w == n.w && d.captures == n.captures && d.used == n.used
    && d.cells.entry.guest == n.cells.entry.guest && d.cells.entry.net == n.cells.entry.net
    && (d.floor == n.floor || d.floor == n.w)
  }

  lemma SameRingsKeepRings(n: Node, d: Node, peer: Node, side: Side)
    requires RingInv(n, peer, side) && SameRings(n, d)
    ensures RingInv(d, peer, side)
  {
    hide Mixed;
  }

  /** Only consuming a record touches the remote ring or the watermark. */
  lemma OtherStepsLeaveRings(n: Node, inbox: Link, outbox: Link, o: Outcome)
    requires Shaped(n.cells) && Reading(n, inbox) && inbox.bytes == Flat(FramesOf(inbox.messages))
    requires n.cells.state == Consume && n.cells.count > 0 ==> Due(n).Gone?
    ensures SameRings(n, StepTransport(n, inbox, outbox, o).0)
  {
    TransportFrame(n, inbox, outbox, o);
    if n.cells.state == Consume {
      if n.cells.count == 0 {
        BatchEnds(n, inbox, outbox, o);
      } else {
        ConsumeEffect(n, inbox, outbox, o);
      }
      hide StepTransport, Reading, Flat, FramesOf;
    } else {
      WatermarkStays(n, inbox, outbox, o);
      hide StepTransport, Reading, Flat, FramesOf;
    }
  }

  lemma AnswerFloor(n: Node, inbox: Link, o: Outcome)
    ensures var d := Answer(n, inbox, o).0; d.floor == n.floor || d.floor == n.w
  {
    hide StatusReply;
  }

  lemma WatermarkStays(n: Node, inbox: Link, outbox: Link, o: Outcome)
    requires Shaped(n.cells) && n.cells.state != Consume
    ensures var d := StepTransport(n, inbox, outbox, o).0;
            d.w == n.w && d.cells.remote == n.cells.remote && (d.floor == n.floor || d.floor == n.w)
  {
    hide Answer, Fresh, NetStep, FrameOf;
    var e := Answer(n, inbox, o).0;
    AnswerFrame(n, inbox, o);
    AnswerFloor(n, inbox, o);
    if WindowCovers(n.cells, Shown(e, o)) {
      NetStepFrame(n.cells, Shown(e, o));
    }
  }

  lemma TransportKeepsRings(g: Game, n: Node, peer: Node, side: Side, inbox: Link, outbox: Link, o: Outcome)
    requires Shaped(n.cells) && NodeInv(g, n) && NodeInv(g, peer) && n.frames > 0
    requires LinkInv(n, peer, inbox) && Watched(peer, n) && RingInv(n, peer, side)
    requires Bounded(n)
    ensures RingInv(StepTransport(n, inbox, outbox, o).0, peer, side)
  {
    Skew(n, peer);
    Skew(peer, n);
    if n.cells.state == Consume && n.cells.count > 0 && Due(n).Stamped? {
      RecordKeepsRings(g, n, peer, side, inbox, outbox, o);
    } else {
      OtherStepsLeaveRings(n, inbox, outbox, o);
      SameRingsKeepRings(n, StepTransport(n, inbox, outbox, o).0, peer, side);
    }
    hide *;
  }

  // ---- the system ----

  ghost predicate RingsInv(s: System) {
    RingInv(s.host, s.guest, Host) && RingInv(s.guest, s.host, Guest)
  }

  lemma FirstRings(g: Game, o: Opening)
    ensures RingsInv(First(g, o))
  {}

  /** One side's step keeps both sides' rings. */
  lemma DrawKeepsBothRings(g: Game, n: Node, peer: Node, side: Side, inbox: Link, outbox: Link, p: Ports, glitch: Option<Sim>)
    requires SideInv(g, n, peer, inbox, outbox) && RingInv(n, peer, side) && RingInv(peer, n, Other(side))
    requires !n.cells.entry.left
    ensures var d := DrawFrame(g, n, p, glitch); RingInv(d, peer, side) && RingInv(peer, d, Other(side))
  {
    DrawKeepsRings(g, n, peer, side, p, glitch);
    DrawOnlyAppends(g, n, p, glitch);
    PeerDrawKeepsRings(peer, n, DrawFrame(g, n, p, glitch), Other(side));
    hide *;
  }

  lemma TransportKeepsBothRings(g: Game, n: Node, peer: Node, side: Side, inbox: Link, outbox: Link, o: Outcome)
    requires SideInv(g, n, peer, inbox, outbox) && RingInv(n, peer, side) && RingInv(peer, n, Other(side))
    requires n.frames > 0
    requires Bounded(n)
    ensures var d := StepTransport(n, inbox, outbox, o).0; RingInv(d, peer, side) && RingInv(peer, d, Other(side))
  {
    TransportKeepsRings(g, n, peer, side, inbox, outbox, o);
    TransportFrame(n, inbox, outbox, o);
    PeerDrawKeepsRings(peer, n, StepTransport(n, inbox, outbox, o).0, Other(side));
    hide *;
  }

  lemma WithinDue(s: System, l: Label)
    requires Within(s, l) && l.Transport? && !s.At(l.side).cells.entry.left && s.At(l.side).frames > 0
    ensures Bounded(s.At(l.side))
  {}

  lemma NextKeepsRings(g: Game, s: System, l: Label)
    requires SystemInv(g, s) && RingsInv(s) && Within(s, l)
    ensures RingsInv(Next(g, s, l))
  {
    var (n, peer) := (s.At(l.side), s.At(Other(l.side)));
    var (inbox, outbox) := (s.Inbox(l.side), s.Inbox(Other(l.side)));
    SideOf(g, s, l.side);
    NextSides(g, s, l);
    if l.Transport? && !n.cells.entry.left && n.frames > 0 {
      WithinDue(s, l);
    }
    hide NodeInv, LinkInv, RingInv, SideInv, DrawFrame, StepTransport, Reading, Within, Next, SystemInv, Due, Bounded;
    if !n.cells.entry.left {
      match l
      case Depart(_) =>
      case Draw(_, p, glitch) => DrawKeepsBothRings(g, n, peer, l.side, inbox, outbox, p, glitch);
      case Transport(_, o) =>
        if n.frames > 0 {
          TransportKeepsBothRings(g, n, peer, l.side, inbox, outbox, o);
        }
    }
  }

  /** In every run that keeps the delivery hypothesis, the rings hold what they must. */
  lemma {:induction false} EveryDeliveredRun(g: Game, o: Opening, ls: seq<Label>)
    requires Delivered(g, o, ls)
    ensures RingsInv(Run(g, o, ls))
  {
    if ls == [] {
      FirstRings(g, o);
    } else {
      EveryDeliveredRun(g, o, ls[..|ls| - 1]);
      EveryRun(g, o, ls[..|ls| - 1]);
      NextKeepsRings(g, Run(g, o, ls[..|ls| - 1]), ls[|ls| - 1]);
    }
    hide SystemInv, RingsInv, Next, First, Within;
  }
}
