/** The invariant of the whole system, kept by every step of every interleaving. */
module Runs {
  import opened Bytes
  import opened Wire
  import opened Netcode
  import opened Lockstep
  import opened Control
  import opened Links

  // ---- what a transport step does to the peer's stream ----

  /** A written record is the newest thing on its stream; a lost one still counts as sent. */
  lemma OutboxAfterStep(n: Node, inbox: Link, outbox: Link, o: Outcome)
    requires Shaped(n.cells) && Reading(n, inbox)
    ensures var (d, _, outbox') := StepTransport(n, inbox, outbox, o);
            if n.cells.state == WriteIssue then
              d.sent == n.sent + [Fresh(n)]
              && outbox' == (if o.lost then outbox
                             else Link(outbox.bytes + FrameOf(Fresh(n)), outbox.messages + [Fresh(n)]))
            else d.sent == n.sent && outbox' == outbox
  {
    hide NetStep, Encode, Flat, FramesOf, Fresh, FrameOf;
    assert n.cells.state == WriteIssue ==> WindowCovers(n.cells, Shown(Answer(n, inbox, o).0, o));
  }

  lemma FramesAppend(ms: seq<Message>, m: Message)
    ensures Flat(FramesOf(ms + [m])) == Flat(FramesOf(ms)) + FrameOf(m)
  {
    assert FramesOf(ms + [m]) == FramesOf(ms) + [FrameOf(m)];
    FlatAppend(FramesOf(ms), [FrameOf(m)]);
    assert [FrameOf(m)][1..] == [];
    assert Flat([FrameOf(m)]) == FrameOf(m) + [];
  }

  /** A message no older than anything before it can join a stream. */
  lemma Appended(n: Node, sender: Node, inbox: Link, m: Message)
    requires LinkInv(n, sender, inbox) && True(m, sender.captures, sender.log)
    requires m.Stamped? ==> m.y == Latest(sender)
    ensures LinkInv(n, sender, Link(inbox.bytes + FrameOf(m), inbox.messages + [m]))
  {
    FramesAppend(inbox.messages, m);
    NewestIsLast(n, sender, inbox, m);
    hide True, Flat, FrameOf, FramesOf, Ordered;
  }

  lemma NewestIsLast(n: Node, sender: Node, inbox: Link, m: Message)
    requires Carries(inbox, sender) && Queued(n, sender, inbox) && (m.Stamped? ==> m.y == Latest(sender))
    ensures Ordered(n.batch + (inbox.messages + [m]))
  {
    var all := n.batch + inbox.messages;
    assert n.batch + (inbox.messages + [m]) == all + [m];
    forall i | 0 <= i < |all| && all[i].Stamped? && m.Stamped?
      ensures all[i].y <= m.y
    {
      assert all[i] in n.batch || all[i] in inbox.messages;
    }
    hide True, Flat, FramesOf;
  }

  lemma TransportKeepsPeerLink(g: Game, n: Node, peer: Node, inbox: Link, outbox: Link, o: Outcome)
    requires Shaped(n.cells) && NodeInv(g, n) && n.frames > 0 && Reading(n, inbox) && LinkInv(peer, n, outbox)
    ensures var (d, _, outbox') := StepTransport(n, inbox, outbox, o); LinkInv(peer, d, outbox')
  {
    var (d, _, outbox') := StepTransport(n, inbox, outbox, o);
    TransportFrame(n, inbox, outbox, o);
    OutboxAfterStep(n, inbox, outbox, o);
    FreshIsTrue(g, n);
    FreshStamp(n);
    NodeParts(g, n);
    hide StepTransport, Fresh, True, FrameOf, NodeInv, LinkInv, Reading, Clock, Captured, Logged, Simulated, Counted;
    PeerSpeaks(n, d, peer, outbox, outbox');
  }

  lemma PeerSpeaks(n: Node, d: Node, peer: Node, outbox: Link, outbox': Link)
    requires Shaped(n.cells) && LinkInv(peer, n, outbox) && d.captures == n.captures && d.log == n.log
    requires Fresh(n).Stamped? && Fresh(n).y >= Latest(n) && True(Fresh(n), n.captures, n.log)
    requires (d.sent == n.sent && outbox' == outbox)
             || (d.sent == n.sent + [Fresh(n)]
                 && (outbox' == outbox || outbox' == Link(outbox.bytes + FrameOf(Fresh(n)), outbox.messages + [Fresh(n)])))
    ensures LinkInv(peer, d, outbox')
  {
    hide Fresh, True, FrameOf;
    assert Latest(d) >= Latest(n) && (d.sent != n.sent ==> Latest(d) == Fresh(n).y);
    hide LinkInv, Latest;
    PeerAppends(peer, n, d, outbox);
    if outbox' != outbox {
      Appended(peer, d, outbox, Fresh(n));
    }
  }

  // ---- what it does to the node itself ----

  /** Away from CONSUME the run of stalls is not touched. */
  lemma TransportLeavesStalls(n: Node, inbox: Link, outbox: Link, o: Outcome)
    requires Shaped(n.cells) && n.cells.state != Consume
    ensures var d := StepTransport(n, inbox, outbox, o).0;
            d.cells.stalls == n.cells.stalls && d.leaveSeen == n.leaveSeen
  {
    hide Encode, Fresh, Decode, Flat;
  }

  lemma TransportKeepsCounted(n: Node, inbox: Link, outbox: Link, o: Outcome)
    requires Shaped(n.cells) && Counted(n) && Reading(n, inbox) && !n.cells.entry.left
    ensures Counted(StepTransport(n, inbox, outbox, o).0)
  {
    TransportFrame(n, inbox, outbox, o);
    if n.cells.state != Consume {
      TransportLeavesStalls(n, inbox, outbox, o);
    } else if n.cells.count == 0 {
      BatchEnds(n, inbox, outbox, o);
    } else {
      ConsumeEffect(n, inbox, outbox, o);
      if Due(n).Stamped? {
        AcceptFrame(n.cells.(count := n.cells.count - 1), Due(n).record);
      }
    }
    hide StepTransport, Accept, Flat, FramesOf, Store;
  }

  lemma TransportKeepsNode(g: Game, n: Node, inbox: Link, outbox: Link, o: Outcome)
    requires Shaped(n.cells) && NodeInv(g, n) && Reading(n, inbox) && n.frames > 0 && !n.cells.entry.left
    ensures NodeInv(g, StepTransport(n, inbox, outbox, o).0)
  {
    TransportKeepsQuiet(g, n, inbox, outbox, o);
    TransportKeepsCounted(n, inbox, outbox, o);
    TransportKeepsSpoken(g, n, inbox, outbox, o);
    hide StepTransport, Clock, Captured, Logged, Simulated, Counted, Spoken;
  }

  lemma TransportKeepsOwnLink(g: Game, n: Node, peer: Node, inbox: Link, outbox: Link, o: Outcome)
    requires Shaped(n.cells) && NodeInv(g, n) && NodeInv(g, peer) && LinkInv(n, peer, inbox) && Watched(peer, n)
    requires n.frames > 0
    ensures var (d, inbox', _) := StepTransport(n, inbox, outbox, o); LinkInv(d, peer, inbox')
  {
    Skew(n, peer);
    if n.cells.state == ReadAck {
      if o.answered && !o.failed {
        ReadKeepsLink(n, peer, inbox, outbox, o);
      } else {
        WaitKeepsLink(n, peer, inbox, outbox, o);
      }
    } else if n.cells.state == Consume {
      ConsumeKeepsLink(g, n, peer, inbox, outbox, o);
    } else {
      ElsewhereKeepsLink(n, peer, inbox, outbox, o);
    }
    hide *;
  }

  // ---- the system ----

  ghost predicate SystemInv(g: Game, s: System) {
    && Shaped(s.host.cells) && Shaped(s.guest.cells)
    && NodeInv(g, s.host) && NodeInv(g, s.guest)
    && LinkInv(s.host, s.guest, s.toHost) && LinkInv(s.guest, s.host, s.toGuest)
  }

  lemma FirstInv(g: Game, o: Opening)
    ensures SystemInv(g, First(g, o))
  {
    FirstNodeInv(g, false, o.hostPorts, o.hostSequence);
    FirstNodeInv(g, true, o.guestPorts, o.guestSequence);
    FirstLinkInv(g, o, Host);
    FirstLinkInv(g, o, Guest);
    hide NodeInv, LinkInv;
  }

  lemma FirstLinkInv(g: Game, o: Opening, side: Side)
    ensures var s := First(g, o); LinkInv(s.At(side), s.At(Other(side)), s.Inbox(side))
  {
    assert Flat(FramesOf([])) == [];
  }

  /** One side's step, seen from that side. */
  ghost predicate SideInv(g: Game, n: Node, peer: Node, inbox: Link, outbox: Link) {
    && Shaped(n.cells) && Shaped(peer.cells) && NodeInv(g, n) && NodeInv(g, peer)
    && LinkInv(n, peer, inbox) && LinkInv(peer, n, outbox)
  }

  lemma DrawKeepsSide(g: Game, n: Node, peer: Node, inbox: Link, outbox: Link, p: Ports, glitch: Option<Sim>)
    requires SideInv(g, n, peer, inbox, outbox) && !n.cells.entry.left
    ensures SideInv(g, DrawFrame(g, n, p, glitch), peer, inbox, outbox)
  {
    DrawKeepsNode(g, n, p, glitch);
    DrawKeepsOwnLink(g, n, peer, inbox, p, glitch);
    DrawKeepsPeerLink(g, n, peer, outbox, p, glitch);
    hide *;
  }

  lemma TransportKeepsSide(g: Game, n: Node, peer: Node, inbox: Link, outbox: Link, o: Outcome)
    requires SideInv(g, n, peer, inbox, outbox) && !n.cells.entry.left && n.frames > 0
    ensures var (d, inbox', outbox') := StepTransport(n, inbox, outbox, o); SideInv(g, d, peer, inbox', outbox')
  {
    TransportKeepsNode(g, n, inbox, outbox, o);
    TransportKeepsOwnLink(g, n, peer, inbox, outbox, o);
    TransportKeepsPeerLink(g, n, peer, inbox, outbox, o);
    hide *;
  }

  lemma DepartKeepsSide(g: Game, n: Node, peer: Node, inbox: Link, outbox: Link)
    requires SideInv(g, n, peer, inbox, outbox)
    ensures SideInv(g, n, peer, Link(inbox.bytes + PEER_LEFT, inbox.messages + [Gone]), outbox)
  {
    Appended(n, peer, inbox, Gone);
    hide NodeInv, LinkInv;
  }

  lemma SideOf(g: Game, s: System, side: Side)
    requires SystemInv(g, s)
    ensures var (n, peer) := (s.At(side), s.At(Other(side)));
            && SideInv(g, n, peer, s.Inbox(side), s.Inbox(Other(side))) && Reading(n, s.Inbox(side))
            && (n.cells.state == Consume ==> n.cells.count as int <= |n.batch|)
  {
    hide NodeInv, Carries, Queued, Watched, Alarmed;
  }

  /** What a step leaves on the stepping side and on the other. */
  lemma NextSides(g: Game, s: System, l: Label)
    requires Shaped(s.host.cells) && Shaped(s.guest.cells)
    ensures var (n, s') := (s.At(l.side), Next(g, s, l));
            && s'.At(Other(l.side)) == s.At(Other(l.side))
            && match l
               case Depart(_) =>
                 s'.At(l.side) == n && s'.Inbox(Other(l.side)) == s.Inbox(Other(l.side))
                 && s'.Inbox(l.side) == Link(s.Inbox(l.side).bytes + PEER_LEFT, s.Inbox(l.side).messages + [Gone])
               case Draw(_, p, glitch) =>
                 s'.At(l.side) == (if n.cells.entry.left then n else DrawFrame(g, n, p, glitch))
                 && s'.Inbox(l.side) == s.Inbox(l.side) && s'.Inbox(Other(l.side)) == s.Inbox(Other(l.side))
               case Transport(_, o) =>
                 (s'.At(l.side), s'.Inbox(l.side), s'.Inbox(Other(l.side)))
                 == if n.cells.entry.left || n.frames == 0 then (n, s.Inbox(l.side), s.Inbox(Other(l.side)))
                    else StepTransport(n, s.Inbox(l.side), s.Inbox(Other(l.side)), o)
  {
    hide DrawFrame, StepTransport;
  }

  /** What a step leaves of one node. */
  lemma NextNode(g: Game, s: System, l: Label, side: Side)
    requires Shaped(s.host.cells) && Shaped(s.guest.cells)
    ensures var (n, d) := (s.At(side), Next(g, s, l).At(side));
            d == if l.side != side || n.cells.entry.left then n
                 else if l.Draw? then DrawFrame(g, n, l.ports, l.glitch)
                 else if l.Transport? && n.frames > 0 then
                   StepTransport(n, s.Inbox(side), s.Inbox(Other(side)), l.outcome).0
                 else n
  {
    hide DrawFrame, StepTransport;
  }

  /** What a side's invariant says of the node's own counters. */
  lemma SideParts(g: Game, n: Node, peer: Node, inbox: Link, outbox: Link)
    requires SideInv(g, n, peer, inbox, outbox)
    ensures Shaped(n.cells) && Clock(n) && Counted(n) && Spoken(n) && Reading(n, inbox) && Watched(n, peer)
    ensures inbox.bytes == Flat(FramesOf(inbox.messages))
    ensures n.t <= peer.t + 3 && -2 <= n.w - n.t <= 5 && n.cells.watermark == Low(n.w)
    ensures n.w <= Latest(peer) <= peer.t + 2 && |n.used| <= Max(n.w + 1, 0)
  {
    Skew(n, peer);
    hide Flat, FramesOf, Counted, Captured, Logged, Simulated, Reading, Queued, Alarmed;
  }

  lemma SystemFrom(g: Game, s: System, side: Side)
    requires SideInv(g, s.At(side), s.At(Other(side)), s.Inbox(side), s.Inbox(Other(side)))
    ensures SystemInv(g, s)
  {
    hide NodeInv, LinkInv;
  }

  lemma NextKeepsInv(g: Game, s: System, l: Label)
    requires SystemInv(g, s)
    ensures SystemInv(g, Next(g, s, l))
  {
    var (n, peer) := (s.At(l.side), s.At(Other(l.side)));
    var (inbox, outbox) := (s.Inbox(l.side), s.Inbox(Other(l.side)));
    hide NodeInv, LinkInv, Next, DrawFrame, StepTransport, Shaped;
    SideOf(g, s, l.side);
    NextSides(g, s, l);
    hide *;
    match l {
      case Depart(_) => DepartKeepsSide(g, n, peer, inbox, outbox);
      case Draw(_, p, glitch) =>
        if !n.cells.entry.left {
          DrawKeepsSide(g, n, peer, inbox, outbox, p, glitch);
        }
      case Transport(_, o) =>
        if !n.cells.entry.left && n.frames > 0 {
          TransportKeepsSide(g, n, peer, inbox, outbox, o);
        }
    }
    SystemFrom(g, Next(g, s, l), l.side);
  }

  /** Every state of every run satisfies the invariant. */
  lemma {:induction false} EveryRun(g: Game, o: Opening, ls: seq<Label>)
    ensures SystemInv(g, Run(g, o, ls))
  {
    if ls == [] {
      FirstInv(g, o);
    } else {
      EveryRun(g, o, ls[..|ls| - 1]);
      NextKeepsInv(g, Run(g, o, ls[..|ls| - 1]), ls[|ls| - 1]);
    }
    hide SystemInv, Next, First;
  }

  /** One more label is one more step. */
  lemma RunSnoc(g: Game, o: Opening, ls: seq<Label>, l: Label)
    ensures Run(g, o, ls + [l]) == Next(g, Run(g, o, ls), l)
  {
    assert (ls + [l])[..|ls + [l]| - 1] == ls;
    hide Next;
  }
}
