/** What the gate reads, and exactly when a record keeps the ring right. */
module Gate {
  import opened Bytes
  import opened Wire
  import opened Netcode
  import opened Lockstep
  import opened Control
  import opened Links
  import opened Runs
  import opened Rings
  import opened Theorems
  import opened Progress

  /** At a boundary the eight-bit gate lets the tick run exactly when its record has come, for runs of any length. */
  lemma {:induction false} GateTells(g: Game, o: Opening, ls: seq<Label>, side: Side, p: Ports, glitch: Option<Sim>)
    requires !Run(g, o, ls).At(side).cells.entry.left && Boundary(Run(g, o, ls).At(side))
    ensures var (n, d) := (Run(g, o, ls).At(side), Run(g, o, ls + [Draw(side, p, glitch)]).At(side));
            && d.t == Wanted(n)
            && (d.cells.advance <==> Wanted(n) <= n.w)
            && (d.cells.advance <==> |d.used| == |n.used| + 1)
  {
    var (s, l) := (Run(g, o, ls), Draw(side, p, glitch));
    RunSnoc(g, o, ls, l);
    EveryRun(g, o, ls);
    hide NodeInv, LinkInv, Next, DrawFrame, Run;
    SideOf(g, s, side);
    NextNode(g, s, l, side);
    hide SystemInv, SideInv, Reading;
    SideParts(g, s.At(side), s.At(Other(side)), s.Inbox(side), s.Inbox(Other(side)));
    DrawCounts(g, s.At(side), p, glitch);
    UsesOnPass(g, s.At(side), p, glitch);
    hide Clock, Counted, Spoken, Watched, Shaped, Low;
  }

  lemma UsesOnPass(g: Game, n: Node, p: Ports, glitch: Option<Sim>)
    requires Shaped(n.cells) && Boundary(n)
    ensures var d := DrawFrame(g, n, p, glitch); |d.used| == |n.used| + (if d.cells.advance then 1 else 0)
  {
    hide Shim;
  }

  /**
   * Ring correctness at the gate: when it passes for a tick, the slot it reads of the remote ring holds exactly
   * the peer's capture for that tick and the slot of the local ring exactly this console's own.
   */
  lemma {:induction false} GateIsRight(g: Game, o: Opening, ls: seq<Label>, side: Side, p: Ports, glitch: Option<Sim>)
    requires Delivered(g, o, ls) && !Run(g, o, ls).At(side).cells.entry.left && Boundary(Run(g, o, ls).At(side))
    ensures var s := Run(g, o, ls);
            var (n, peer) := (s.At(side), s.At(Other(side)));
            var d := Run(g, o, ls + [Draw(side, p, glitch)]).At(side);
            d.cells.advance ==>
              && 0 <= d.t < |peer.captures| && d.t < |d.captures|
              && |d.cells.local| == LOCAL_SLOTS && |n.cells.remote| == RING_SLOTS
              && n.cells.remote[d.cells.tick as int % RING_SLOTS] == peer.captures[d.t]
              && d.cells.local[d.cells.tick as int % LOCAL_SLOTS] == d.captures[d.t]
  {
    var (s, l) := (Run(g, o, ls), Draw(side, p, glitch));
    var (n, peer) := (s.At(side), s.At(Other(side)));
    RunSnoc(g, o, ls, l);
    Reached(g, o, ls, side);
    Reached(g, o, ls + [l], side);
    ReachedRings(g, o, ls, side);
    hide NodeInv, LinkInv, RingInv, Next, DrawFrame, Run, Delivered;
    NextNode(g, s, l, side);
    RingGate(g, n, peer, s.Inbox(side), s.Inbox(Other(side)), side, p, glitch);
  }

  lemma RingGate(g: Game, n: Node, peer: Node, inbox: Link, outbox: Link, side: Side, p: Ports, glitch: Option<Sim>)
    requires Shaped(n.cells) && NodeInv(g, n) && NodeInv(g, peer) && LinkInv(n, peer, inbox) && LinkInv(peer, n, outbox)
    requires RingInv(n, peer, side) && Boundary(n) && NodeInv(g, DrawFrame(g, n, p, glitch))
    ensures var d := DrawFrame(g, n, p, glitch);
            d.cells.advance ==>
              && 0 <= d.t < |peer.captures| && d.t < |d.captures|
              && |d.cells.local| == LOCAL_SLOTS && |n.cells.remote| == RING_SLOTS
              && n.cells.remote[d.cells.tick as int % RING_SLOTS] == peer.captures[d.t]
              && d.cells.local[d.cells.tick as int % LOCAL_SLOTS] == d.captures[d.t]
  {
    var d := DrawFrame(g, n, p, glitch);
    LinkParts(n, peer, inbox);
    LinkParts(peer, n, outbox);
    RingParts(n, peer, side);
    NodeParts(g, d);
    hide NodeInv, LinkInv, RingInv, DrawFrame, Held, Logged, Simulated, Counted, Spoken, Watched;
    GateIsOpen(g, n, peer, p, glitch);
    if d.cells.advance {
      SlotsOf(d.t);
      assert d.cells.local[d.t % LOCAL_SLOTS] == d.captures[d.t];
    }
    hide Low;
  }

  lemma LinkParts(n: Node, peer: Node, inbox: Link)
    requires LinkInv(n, peer, inbox)
    ensures Watched(n, peer)
  {}

  lemma RingParts(n: Node, peer: Node, side: Side)
    requires RingInv(n, peer, side)
    ensures Held(n, peer) && |n.cells.remote| == RING_SLOTS
  {}

  /** Nothing a re-sent window writes ever clobbers a slot still to be read: every tick held is in its slot. */
  lemma {:induction false} RingsStayRight(g: Game, o: Opening, ls: seq<Label>, side: Side, k: nat)
    requires Delivered(g, o, ls)
    requires Run(g, o, ls).At(side).t <= k <= Max(Run(g, o, ls).At(side).w, 1)
    ensures var s := Run(g, o, ls);
            var (n, peer) := (s.At(side), s.At(Other(side)));
            k < |peer.captures| && |n.cells.remote| == RING_SLOTS && n.cells.remote[k % RING_SLOTS] == peer.captures[k]
  {
    hide Run, Delivered, RingInv, Held;
    var s := Run(g, o, ls);
    ReachedRings(g, o, ls, side);
    RingParts(s.At(side), s.At(Other(side)), side);
    HeldAt(s.At(side), s.At(Other(side)), k);
  }

  // ---- how much a window is worth ----

  /** A ring that is right up to w, and a true record stamped y about to be stored in it. */
  predicate Arriving(remote: seq<Capture>, captures: seq<Capture>, r: Record, t: int, w: int, y: int) {
    && Holds(remote, captures, t, w) && 2 <= y < |captures| && r.tick == Low(y)
    && r.newest == captures[y] && r.middle == captures[y - 1] && r.oldest == captures[y - 2]
  }

  /** Storing the record and raising the watermark to it leaves the ring right, whatever was captured. */
  ghost predicate Suffices(t: int, w: int, y: int) {
    forall remote: seq<Capture>, captures: seq<Capture>, r: Record ::
      Arriving(remote, captures, r, t, w, y) ==> Holds(Store(remote, r), captures, t, Max(w, y))
  }

  /**
   * Three ticks a window are enough exactly when the watermark rises by at most three, counting the two ticks
   * known from the start. The bounds on t and y are those of every reachable state.
   */
  lemma WindowSuffices(t: int, w: int, y: int)
    requires 0 <= t <= Max(w, 1) + 1 && 2 <= y <= t + 5 && Max(w, 1) <= y + 5
    ensures Suffices(t, w, y) <==> y <= Max(w, 1) + WINDOW
  {
    if y <= Max(w, 1) + WINDOW {
      forall remote: seq<Capture>, captures: seq<Capture>, r: Record | Arriving(remote, captures, r, t, w, y)
        ensures Holds(Store(remote, r), captures, t, Max(w, y))
      {
        StoreKeepsHeld(remote, captures, r, t, w, y);
      }
    } else {
      WindowTooShort(t, w, y);
    }
  }

  /** The tick after the old watermark is in no window the ring has seen: its slot keeps what it had. */
  lemma WindowTooShort(t: int, w: int, y: int)
    requires 0 <= t <= Max(w, 1) + 1 && 2 <= y <= t + 5 && y > Max(w, 1) + WINDOW
    ensures !Suffices(t, w, y)
  {
    var k := Max(w, 1) + 1;
    var remote := seq(RING_SLOTS, _ => IDLE);
    var odd := Capture(7, IDLE.switches);
    var captures := seq(y + 1, i => if i == k then odd else IDLE);
    var r := Record(Low(y), IDLE, IDLE, IDLE, 0);
    assert Holds(remote, captures, t, w);
    assert Arriving(remote, captures, r, t, w, y);
    hide Low;
    StoredAt(remote, r, y, k);
    assert captures[k] == odd;
    assert !HoldsAt(Store(remote, r), captures, k);
  }

  /**
   * Only the newest record of a batch can raise the watermark: when the due record would, the watermark is
   * still the one the batch was read with, and nothing left in the batch is newer.
   */
  lemma {:induction false} OnlyTheNewestRaises(g: Game, o: Opening, ls: seq<Label>, side: Side)
    ensures var n := Run(g, o, ls).At(side);
            0 < Left(n) <= |n.batch| && Due(n).Stamped? && Due(n).y > n.w ==>
              && n.w == n.floor
              && forall i | 0 <= i < |n.batch| && i < Left(n) && n.batch[i].Stamped? :: n.batch[i].y <= Due(n).y
  {
    var s := Run(g, o, ls);
    var n := s.At(side);
    Reached(g, o, ls, side);
    hide Run, NodeInv, True, Carries, Reading, Watched, Alarmed, Ordered;
    if 0 < Left(n) <= |n.batch| && Due(n).Stamped? && Due(n).y > n.w {
      RestIsOlder(n, s.Inbox(side));
    }
  }
}
