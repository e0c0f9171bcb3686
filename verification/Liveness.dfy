/** No reachable state of a match is a dead end. */
module Liveness {
  import opened Bytes
  import opened Wire
  import opened Netcode
  import opened Lockstep
  import opened Control
  import opened Links
  import opened Runs
  import opened Theorems
  import opened Progress

  // ---- the newest record is never forgotten ----

  /** The newest record the peer has sent has been consumed, or is in the batch, or is on its way. */
  ghost predicate Awaited(n: Node, peer: Node, inbox: Link) {
    || Latest(peer) <= Max(n.w, 1)
    || (exists i | 0 <= i < |n.batch| && i < Left(n) :: n.batch[i].Stamped? && n.batch[i].y == Latest(peer))
    || (exists m | m in inbox.messages :: m.Stamped? && m.y == Latest(peer))
  }

  /** The three things a transport step can do to what a node has still to consume. */
  predicate Moves(n: Node, d: Node, inbox: Link, inbox': Link) {
    || (d.w == n.w && d.batch == n.batch && inbox' == inbox && Left(d) == Left(n))
    || (Left(n) == 0 && d.w == n.w && inbox.messages == d.batch + inbox'.messages && Left(d) == |d.batch|)
    || (0 < Left(n) <= |n.batch| && Left(d) == Left(n) - 1 && d.batch == n.batch && inbox' == inbox
        && d.w == if Due(n).Stamped? then Max(n.w, Due(n).y) else n.w)
  }

  lemma TransportMoves(n: Node, inbox: Link, outbox: Link, o: Outcome)
    requires Shaped(n.cells) && Reading(n, inbox) && inbox.bytes == Flat(FramesOf(inbox.messages))
    ensures var (d, inbox', _) := StepTransport(n, inbox, outbox, o); Moves(n, d, inbox, inbox')
  {
    if n.cells.state == Consume {
      ConsumeMoves(n, inbox, outbox, o);
    } else if n.cells.state == ReadAck {
      ReadMoves(n, inbox, outbox, o);
    } else {
      assert Handshake(n.cells.state) || n.cells.state == StatusAck;
      ElsewhereSameWatch(n, inbox, outbox, o);
    }
    hide StepTransport, Reading, Flat, FramesOf, Due;
  }

  lemma ReadMoves(n: Node, inbox: Link, outbox: Link, o: Outcome)
    requires Shaped(n.cells) && Reading(n, inbox) && n.cells.state == ReadAck
    requires inbox.bytes == Flat(FramesOf(inbox.messages))
    ensures var (d, inbox', _) := StepTransport(n, inbox, outbox, o); Moves(n, d, inbox, inbox')
  {
    if o.answered && !o.failed {
      ReadTakesWholeFrames(n, inbox, outbox, o);
    } else {
      WaitMoves(n, inbox, outbox, o);
    }
    hide StepTransport, Reading, Flat, FramesOf, Due;
  }

  lemma WaitMoves(n: Node, inbox: Link, outbox: Link, o: Outcome)
    requires Shaped(n.cells) && Reading(n, inbox) && n.cells.state == ReadAck && !(o.answered && !o.failed)
    ensures var (d, inbox', _) := StepTransport(n, inbox, outbox, o);
            d.w == n.w && d.batch == n.batch && inbox' == inbox && Left(d) == 0
  {
    hide Flat, FramesOf, Encode, Fresh;
  }

  lemma ConsumeMoves(n: Node, inbox: Link, outbox: Link, o: Outcome)
    requires Shaped(n.cells) && Reading(n, inbox) && n.cells.state == Consume
    ensures var (d, inbox', _) := StepTransport(n, inbox, outbox, o); Moves(n, d, inbox, inbox')
  {
    if n.cells.count == 0 {
      BatchEnds(n, inbox, outbox, o);
    } else {
      ConsumeEffect(n, inbox, outbox, o);
      if Due(n).Stamped? {
        AcceptFrame(n.cells.(count := n.cells.count - 1), Due(n).record);
      }
    }
    hide StepTransport, Flat, FramesOf, Accept, Store;
  }

  lemma MovesKeepAwaited(n: Node, d: Node, peer: Node, inbox: Link, inbox': Link)
    requires Awaited(n, peer, inbox) && Moves(n, d, inbox, inbox') && (n.cells.state == Consume ==> Left(n) <= |n.batch|)
    ensures Awaited(d, peer, inbox')
  {
    hide Latest;
    if exists m | m in inbox.messages :: m.Stamped? && m.y == Latest(peer) {
      var m :| m in inbox.messages && m.Stamped? && m.y == Latest(peer);
      if m !in inbox'.messages {
        assert m in d.batch;
      }
    } else if exists i | 0 <= i < |n.batch| && i < Left(n) :: n.batch[i].Stamped? && n.batch[i].y == Latest(peer) {
      var i :| 0 <= i < |n.batch| && i < Left(n) && n.batch[i].Stamped? && n.batch[i].y == Latest(peer);
      if i == Left(n) - 1 {
        assert n.batch[i] == Due(n);
      }
    }
  }

  /** A sender's own step keeps it as long as what is written is not lost. */
  lemma SpeakerKeepsAwaited(n: Node, peer: Node, inbox: Link, outbox: Link, o: Outcome)
    requires Shaped(n.cells) && Reading(n, inbox) && Awaited(peer, n, outbox) && !o.lost
    ensures var (d, _, outbox') := StepTransport(n, inbox, outbox, o); Awaited(peer, d, outbox')
  {
    OutboxAfterStep(n, inbox, outbox, o);
    FreshStamp(n);
    var (d, _, outbox') := StepTransport(n, inbox, outbox, o);
    hide StepTransport, Fresh, FrameOf;
    if n.cells.state == WriteIssue {
      assert Fresh(n) in outbox'.messages && Latest(d) == Fresh(n).y;
    } else {
      assert Latest(d) == Latest(n);
    }
  }

  /** One console's newest record is consumed by the other or still on its way to it. */
  ghost predicate Owed(s: System, side: Side) {
    Awaited(s.At(side), s.At(Other(side)), s.Inbox(side))
  }

  predicate Lossless(l: Label) {
    l.Transport? ==> !l.outcome.lost
  }

  lemma DrawKeepsAwaited(g: Game, n: Node, peer: Node, inbox: Link, outbox: Link, p: Ports, glitch: Option<Sim>)
    requires Shaped(n.cells)
    ensures var d := DrawFrame(g, n, p, glitch);
            && (Awaited(n, peer, inbox) ==> Awaited(d, peer, inbox))
            && (Awaited(peer, n, outbox) ==> Awaited(peer, d, outbox))
  {
    DrawLeavesLinks(g, n, p, glitch);
    hide DrawFrame;
  }

  lemma TransportKeepsAwaited(g: Game, n: Node, peer: Node, inbox: Link, outbox: Link, o: Outcome)
    requires SideInv(g, n, peer, inbox, outbox) && !o.lost
    ensures var (d, inbox', outbox') := StepTransport(n, inbox, outbox, o);
            && (Awaited(n, peer, inbox) ==> Awaited(d, peer, inbox'))
            && (Awaited(peer, n, outbox) ==> Awaited(peer, d, outbox'))
  {
    var (d, inbox', outbox') := StepTransport(n, inbox, outbox, o);
    SideParts(g, n, peer, inbox, outbox);
    hide SideInv, StepTransport, Awaited, Moves, Clock, Counted, Spoken, Watched;
    TransportMoves(n, inbox, outbox, o);
    if Awaited(n, peer, inbox) {
      MovesKeepAwaited(n, d, peer, inbox, inbox');
    }
    if Awaited(peer, n, outbox) {
      SpeakerKeepsAwaited(n, peer, inbox, outbox, o);
    }
  }

  lemma NextKeepsOwed(g: Game, s: System, l: Label, side: Side)
    requires SystemInv(g, s) && Owed(s, side) && Lossless(l)
    ensures Owed(Next(g, s, l), side)
  {
    var (n, peer) := (s.At(l.side), s.At(Other(l.side)));
    var (inbox, outbox) := (s.Inbox(l.side), s.Inbox(Other(l.side)));
    hide NodeInv, LinkInv, Next, DrawFrame, StepTransport, Shaped, Awaited;
    SideOf(g, s, l.side);
    NextSides(g, s, l);
    match l {
      case Depart(_) =>
        if side == l.side {
          DepartKeepsAwaited(n, peer, inbox);
        }
      case Draw(_, p, glitch) =>
        if !n.cells.entry.left {
          DrawKeepsAwaited(g, n, peer, inbox, outbox, p, glitch);
        }
      case Transport(_, o) =>
        if !n.cells.entry.left && n.frames > 0 {
          TransportKeepsAwaited(g, n, peer, inbox, outbox, o);
        }
    }
  }

  lemma DepartKeepsAwaited(n: Node, peer: Node, inbox: Link)
    requires Awaited(n, peer, inbox)
    ensures Awaited(n, peer, Link(inbox.bytes + PEER_LEFT, inbox.messages + [Gone]))
  {
    hide Latest;
  }

  /** On a run that loses nothing, every console's newest record is consumed or still on its way. */
  lemma {:induction false} EveryLosslessRun(g: Game, o: Opening, ls: seq<Label>, side: Side)
    requires forall i | 0 <= i < |ls| :: Lossless(ls[i])
    ensures Owed(Run(g, o, ls), side)
  {
    if ls != [] {
      EveryLosslessRun(g, o, ls[..|ls| - 1], side);
      EveryRun(g, o, ls[..|ls| - 1]);
      assert Lossless(ls[|ls| - 1]);
      NextKeepsOwed(g, Run(g, o, ls[..|ls| - 1]), ls[|ls| - 1], side);
      hide First;
    }
    hide SystemInv, Next, Lossless;
  }

  // ---- deadlock freedom ----

  /** A console that has sent a record for its current tick, and has nothing left to consume. */
  predicate Settled(n: Node, inbox: Link) {
    n.sent != [] && Latest(n) == n.t + DELAY && Left(n) == 0 && inbox.messages == []
  }

  /** A console that holds the other's current record. */
  predicate Caught(n: Node, peer: Node) {
    n.w == peer.t + DELAY
  }

  /**
   * Deadlock freedom, on every run whatever was lost before: once each console holds the other's current record, a
   * console waits exactly when it is the full skew ahead; so at most one of them waits, and the gate of the other
   * passes.
   */
  lemma NoDeadlock(g: Game, o: Opening, ls: seq<Label>, side: Side)
    requires Caught(Run(g, o, ls).host, Run(g, o, ls).guest) && Caught(Run(g, o, ls).guest, Run(g, o, ls).host)
    ensures var s := Run(g, o, ls);
            var (n, peer) := (s.At(side), s.At(Other(side)));
            && (Waits(n) <==> Wanted(n) == peer.t + DELAY + 1)
            && !(Waits(n) && Waits(peer))
  {
    EveryRun(g, o, ls);
    hide Run, SystemInv, Waits, Wanted;
    WaitsExactly(g, Run(g, o, ls), side);
  }

  /** On a run that loses nothing, consoles that have spoken and consumed everything hold each other's current record. */
  lemma SettledIsCaught(g: Game, o: Opening, ls: seq<Label>, side: Side)
    requires forall i | 0 <= i < |ls| :: Lossless(ls[i])
    requires Settled(Run(g, o, ls).host, Run(g, o, ls).toHost) && Settled(Run(g, o, ls).guest, Run(g, o, ls).toGuest)
    ensures Caught(Run(g, o, ls).At(side), Run(g, o, ls).At(Other(side)))
  {
    EveryLosslessRun(g, o, ls, side);
    EveryRun(g, o, ls);
    hide Run, SystemInv, Owed, Latest, Left;
    Catches(g, Run(g, o, ls), side);
  }

  lemma Catches(g: Game, s: System, side: Side)
    requires SystemInv(g, s) && Owed(s, side) && Left(s.At(side)) == 0 && s.Inbox(side).messages == []
    requires s.At(Other(side)).sent != [] && Latest(s.At(Other(side))) == s.At(Other(side)).t + DELAY
    ensures Caught(s.At(side), s.At(Other(side)))
  {
    var (n, peer) := (s.At(side), s.At(Other(side)));
    hide SystemInv;
    SideOf(g, s, side);
    SideOf(g, s, Other(side));
    hide SideInv;
    SideParts(g, n, peer, s.Inbox(side), s.Inbox(Other(side)));
    SideParts(g, peer, n, s.Inbox(Other(side)), s.Inbox(side));
    hide Reading, Clock, Counted, Watched, Shaped, Low, Flat, FramesOf, True;
    assert Latest(peer) >= 2 by { SpokenSince(peer); }
    hide Latest, Spoken;
  }

  lemma SpokenSince(n: Node)
    requires Spoken(n) && n.sent != []
    ensures Latest(n) >= 2
  {}

  lemma WaitsExactly(g: Game, s: System, side: Side)
    requires SystemInv(g, s) && Caught(s.host, s.guest) && Caught(s.guest, s.host)
    ensures var (n, peer) := (s.At(side), s.At(Other(side)));
            (Waits(n) <==> Wanted(n) == peer.t + DELAY + 1) && !(Waits(n) && Waits(peer))
  {
    var (n, peer) := (s.At(side), s.At(Other(side)));
    hide SystemInv;
    SideOf(g, s, side);
    SideOf(g, s, Other(side));
    hide SideInv, Reading, Counted, Spoken, Watched, Shaped, Low, Flat, FramesOf;
    SideParts(g, n, peer, s.Inbox(side), s.Inbox(Other(side)));
    SideParts(g, peer, n, s.Inbox(Other(side)), s.Inbox(side));
  }
}
