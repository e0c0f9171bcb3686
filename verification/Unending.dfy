/** Runs that keep the delivery hypothesis go on past any tick. */
module Unending {
  import opened Bytes
  import opened Wire
  import opened Netcode
  import opened Lockstep
  import opened Control
  import opened Links
  import opened Runs
  import opened Progress
  import opened Liveness
  import opened Drive
  import Witness

  /** The delivery hypothesis at every step of a continuation. */
  predicate Clean(g: Game, s: System, more: seq<Label>)
    requires Shaped(s.host.cells) && Shaped(s.guest.cells)
  {
    more != [] ==>
      Clean(g, s, more[..|more| - 1]) && Within(Then(g, s, more[..|more| - 1]), more[|more| - 1])
  }

  lemma {:induction false} CleanOn(g: Game, s: System, a: seq<Label>, b: seq<Label>)
    requires Shaped(s.host.cells) && Shaped(s.guest.cells) && Clean(g, s, a) && Clean(g, Then(g, s, a), b)
    ensures Clean(g, s, a + b)
  {
    hide Next, Shaped, Within, Then;
    if b == [] {
      assert a + b == a;
    } else {
      assert (a + b)[..|a + b| - 1] == a + b[..|b| - 1];
      CleanOn(g, s, a, b[..|b| - 1]);
      ThenJoin(g, s, a, b[..|b| - 1]);
    }
  }

  lemma {:induction false} DeliveredOn(g: Game, o: Opening, ls: seq<Label>, more: seq<Label>)
    requires Delivered(g, o, ls) && Clean(g, Run(g, o, ls), more)
    ensures Delivered(g, o, ls + more)
  {
    hide Next, Shaped, Within, Then, Run;
    if more == [] {
      assert ls + more == ls;
    } else {
      assert (ls + more)[..|ls + more| - 1] == ls + more[..|more| - 1];
      DeliveredOn(g, o, ls, more[..|more| - 1]);
      RunThen(g, o, ls, more[..|more| - 1]);
    }
  }

  /** The newest record either could be sent now is within a window of what it holds. */
  predicate NearTo(n: Node, peer: Node) {
    peer.t + DELAY <= Max(n.w, 1) + WINDOW
  }

  predicate Near(s: System) {
    NearTo(s.host, s.guest) && NearTo(s.guest, s.host)
  }

  /** From such a state no step can break the hypothesis. */
  lemma NearIsWithin(g: Game, s: System, l: Label)
    requires SystemInv(g, s) && Near(s)
    ensures Within(s, l)
  {
    var (n, peer) := (s.At(l.side), s.At(Other(l.side)));
    hide NodeInv, Flat, FramesOf, Low, Carries, Reading, Watched, Alarmed, Ordered, True, Shaped;
    SideOf(g, s, l.side);
    hide SystemInv;
    SideParts(g, n, peer, s.Inbox(l.side), s.Inbox(Other(l.side)));
    var k := n.cells.count as int - 1;
    if Raises(s, l) {
      assert n.batch[k] in n.batch;
    }
  }

  lemma PausedStaysNear(s: System, s': System)
    requires Near(s) && Paused(s, s')
    ensures Near(s')
  {
    hide Latest;
  }

  lemma {:induction false} TransportsAreClean(g: Game, s: System, more: seq<Label>)
    requires SystemInv(g, s) && Near(s) && OnlyTransports(more)
    ensures Clean(g, s, more) && SystemInv(g, Then(g, s, more)) && Near(Then(g, s, more))
  {
    hide Next, Shaped, Within, NodeInv, LinkInv, Near, Paused;
    if more != [] {
      var (front, l) := (more[..|more| - 1], more[|more| - 1]);
      assert l in more && forall m | m in front :: m in more;
      TransportsAreClean(g, s, front);
      NearIsWithin(g, Then(g, s, front), l);
      NextKeepsInv(g, Then(g, s, front), l);
      TransportPauses(g, Then(g, s, front), l.side, l.outcome);
      assert l == Transport(l.side, l.outcome);
      PausedStaysNear(Then(g, s, front), Then(g, s, more));
    }
  }

  lemma {:induction false} DrawsAreClean(g: Game, s: System, more: seq<Label>)
    requires Shaped(s.host.cells) && Shaped(s.guest.cells) && OnlyDraws(more)
    ensures Clean(g, s, more)
  {
    hide Next, Shaped, Then;
    if more != [] {
      var (front, l) := (more[..|more| - 1], more[|more| - 1]);
      assert l in more && forall m | m in front :: m in more;
      DrawsAreClean(g, s, front);
    }
  }

  /** A continuation that keeps the hypothesis and ends near again. */
  ghost predicate Goes(g: Game, s: System, more: seq<Label>, s': System) {
    Leads(g, s, more, s') && Live(s') && Near(s') && Clean(g, s, more)
  }

  lemma GoesOn(g: Game, s: System, a: seq<Label>, t: System, b: seq<Label>, u: System)
    requires Goes(g, s, a, t) && Goes(g, t, b, u)
    ensures Goes(g, s, a + b, u)
  {
    hide NodeInv, LinkInv, Then, Clean, Near, Live;
    LeadsOn(g, s, a, t, b, u);
    CleanOn(g, s, a, b);
  }

  /** After meeting, one tick more leaves both still near. */
  lemma TickStaysNear(met: System, s': System, side: Side)
    requires Caught(met.host, met.guest) && Caught(met.guest, met.host)
    requires s'.At(Other(side)) == met.At(Other(side)) && s'.At(side).w == met.At(side).w
    requires s'.At(side).t <= met.At(side).t + 1
    ensures Near(s')
  {}

  lemma OneGoodTick(g: Game, s: System) returns (more: seq<Label>, s': System)
    requires SystemInv(g, s) && Live(s) && Near(s)
    ensures Goes(g, s, more, s') && Ticks(s') == Ticks(s) + 1
  {
    hide NodeInv, LinkInv, Next, Then, Waits, Wanted, Live, Owed, Latest, Clean, Near;
    var a, met := Meet(g, s);
    TransportsAreClean(g, s, a);
    DrivenKeeps(s, met, Host);
    WaitsExactly(g, met, Host);
    var side := if Waits(met.host) then Guest else Host;
    var b;
    b, s' := RunATick(g, met, side, Ports(0, ZERO, ZERO));
    DrawsAreClean(g, met, b);
    TickStaysNear(met, s', side);
    LeadsOn(g, s, a, met, b, s');
    CleanOn(g, s, a, b);
    more := a + b;
  }

  lemma {:induction false} ManyGoodTicks(g: Game, s: System, k: nat) returns (more: seq<Label>, s': System)
    requires SystemInv(g, s) && Live(s) && Near(s)
    ensures Goes(g, s, more, s') && Ticks(s') >= k
    decreases k - Ticks(s)
  {
    if Ticks(s) >= k {
      more, s' := [], s;
      hide NodeInv, LinkInv, Live;
      LeadsNowhere(g, s);
    } else {
      hide NodeInv, LinkInv, Next, Then, Clean, Near, Live;
      var a, next := OneGoodTick(g, s);
      var b;
      b, s' := ManyGoodTicks(g, next, k);
      GoesOn(g, s, a, next, b, s');
      more := a + b;
    }
  }

  /**
   * The hypothesis of the lockstep theorems does not run out: a run that has kept it, and whose consoles are
   * near, goes on keeping it past any tick.
   */
  lemma DeliveryGoesOn(g: Game, o: Opening, ls: seq<Label>, k: nat)
    requires Delivered(g, o, ls) && Live(Run(g, o, ls)) && Near(Run(g, o, ls))
    ensures exists more: seq<Label> ::
              var s := Run(g, o, ls + more);
              Delivered(g, o, ls + more) && Live(s) && |s.host.used| >= k && |s.guest.used| >= k
  {
    EveryRun(g, o, ls);
    var s := Run(g, o, ls);
    hide NodeInv, LinkInv, Run, Live, Then, Near, Clean, Delivered;
    var more, s' := ManyGoodTicks(g, s, 2 * k + DELAY + 2);
    TicksAreClose(g, s');
    RunThen(g, o, ls, more);
    DeliveredOn(g, o, ls, more);
    assert Run(g, o, ls + more) == s';
  }

  /** And in every game there is such a run from the very start, past any tick. */
  lemma DeliveredPast(g: Game, o: Opening, k: nat)
    ensures exists ls: seq<Label> ::
              var s := Run(g, o, ls); Delivered(g, o, ls) && Live(s) && |s.host.used| >= k && |s.guest.used| >= k
  {
    hide NodeInv, LinkInv, Run, Live, Then, Clean, Delivered, SystemInv, First, Witness.Turned;
    var a, s := Witness.Opened(g, o);
    Witness.PlainRun(g, o, a, s);
    StartIsClean(g, o);
    DrawsAreClean(g, First(g, o), a);
    DeliveredOn(g, o, [], a);
    assert [] + a == a;
    DeliveryGoesOn(g, o, a, k);
  }

  lemma StartIsClean(g: Game, o: Opening)
    ensures Delivered(g, o, []) && Run(g, o, []) == First(g, o)
  {}
}
