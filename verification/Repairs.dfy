/** What is sent, what an alarm means, and what one does, on every run. */
module Repairs {
  import opened Bytes
  import opened Wire
  import opened Netcode
  import opened Lockstep
  import opened Control
  import opened Links
  import opened Runs
  import opened Rings
  import opened Theorems
  import Checksum

  // ---- history ----

  /** Nothing a node has captured, entered, sent or been alarmed by is ever taken back. */
  predicate Continues(n: Node, later: Node) {
    && n.captures <= later.captures && n.pressed <= later.pressed && n.log <= later.log && n.sent <= later.sent
    && n.alarms <= later.alarms && n.glitches <= later.glitches && n.used <= later.used
  }

  lemma StepContinues(g: Game, s: System, l: Label, side: Side)
    requires Shaped(s.host.cells) && Shaped(s.guest.cells)
    ensures Continues(s.At(side), Next(g, s, l).At(side))
  {
    var n := s.At(side);
    NextNode(g, s, l, side);
    if l.Draw? {
      DrawContinues(g, n, l.ports, l.glitch);
    } else if l.Transport? {
      TransportContinues(n, s.Inbox(side), s.Inbox(Other(side)), l.outcome);
    }
    hide DrawFrame, StepTransport, Next, Shaped;
  }

  lemma TransportContinues(n: Node, inbox: Link, outbox: Link, o: Outcome)
    requires Shaped(n.cells)
    ensures Continues(n, StepTransport(n, inbox, outbox, o).0)
  {
    TransportFrame(n, inbox, outbox, o);
    hide StepTransport, Fresh, Shaped;
  }

  lemma DrawContinues(g: Game, n: Node, p: Ports, glitch: Option<Sim>)
    requires Shaped(n.cells)
    ensures Continues(n, DrawFrame(g, n, p, glitch))
  {
    hide Shim, CaptureOf, Press, Advances, Boundary;
  }

  lemma ContinuesOn(a: Node, b: Node, c: Node)
    requires Continues(a, b) && Continues(b, c)
    ensures Continues(a, c)
  {}

  lemma {:induction false} HistoryStands(g: Game, o: Opening, ls: seq<Label>, more: seq<Label>, side: Side)
    ensures Continues(Run(g, o, ls).At(side), Run(g, o, ls + more).At(side))
  {
    if more == [] {
      assert ls + more == ls;
    } else {
      var most := more[..|more| - 1];
      assert (ls + more)[..|ls + more| - 1] == ls + most && (ls + more)[|ls + more| - 1] == more[|more| - 1];
      HistoryStands(g, o, ls, most, side);
      StepContinues(g, Run(g, o, ls + most), more[|more| - 1], side);
      ContinuesOn(Run(g, o, ls).At(side), Run(g, o, ls + most).At(side), Run(g, o, ls + more).At(side));
    }
    hide Next, First, Continues;
  }

  // ---- what is sent ----

  /** The capture a record carries for the tick `back` before its stamp. */
  function Carried(r: Record, back: nat): Capture
    requires back < WINDOW
  {
    if back == 0 then r.newest else if back == 1 then r.middle else r.oldest
  }

  /**
   * A sent record never changes its story: two records a console sends at any two moments of a run, lost or
   * not, carry the same capture for any tick both cover, and it is the one capture made for that tick.
   */
  lemma {:induction false} SentIsImmutable(g: Game, o: Opening, ls: seq<Label>, more: seq<Label>, side: Side, i: nat, j: nat, a: nat, b: nat)
    requires i < |Run(g, o, ls).At(side).sent| && j < |Run(g, o, ls + more).At(side).sent| && a < WINDOW && b < WINDOW
    ensures var (first, later) := (Run(g, o, ls).At(side), Run(g, o, ls + more).At(side));
            var (m, m') := (first.sent[i], later.sent[j]);
            && m.Stamped? && m'.Stamped? && 0 <= m.y - a < |first.captures|
            && Carried(m.record, a) == first.captures[m.y - a]
            && (m.y - a == m'.y - b ==> Carried(m.record, a) == Carried(m'.record, b))
  {
    hide *;
    HistoryStands(g, o, ls, more, side);
    SentIsTrue(g, o, ls, side, i, a);
    SentIsTrue(g, o, ls + more, side, j, b);
    Prefixed(Run(g, o, ls).At(side), Run(g, o, ls + more).At(side));
  }

  lemma Prefixed(n: Node, later: Node)
    requires Continues(n, later)
    ensures n.captures <= later.captures && n.log <= later.log
  {}

  lemma TrueRecord(n: Node, i: nat, a: nat)
    requires Spoken(n) && i < |n.sent| && a < WINDOW
    ensures var m := n.sent[i];
            && m.Stamped? && 2 <= m.y && m.y - 2 < |n.log| && 0 <= m.y - a < |n.captures| && Carried(m.record, a) == n.captures[m.y - a]
            && m.record.crc == SampleOf(n.log, m.y - 2)
  {}

  lemma SentIsTrue(g: Game, o: Opening, ls: seq<Label>, side: Side, i: nat, a: nat)
    requires i < |Run(g, o, ls).At(side).sent| && a < WINDOW
    ensures var n := Run(g, o, ls).At(side);
            var m := n.sent[i];
            && m.Stamped? && 2 <= m.y && m.y - 2 < |n.log| && 0 <= m.y - a < |n.captures| && Carried(m.record, a) == n.captures[m.y - a]
            && m.record.crc == SampleOf(n.log, m.y - 2)
  {
    hide *;
    Reached(g, o, ls, side);
    NodeParts(g, Run(g, o, ls).At(side));
    TrueRecord(Run(g, o, ls).At(side), i, a);
  }

  /** A capture is made exactly on the boundaries that advance the tick, once for each tick. */
  lemma {:induction false} CapturedOnAdvance(g: Game, o: Opening, ls: seq<Label>, side: Side, p: Ports, glitch: Option<Sim>)
    ensures var (n, d) := (Run(g, o, ls).At(side), Run(g, o, ls + [Draw(side, p, glitch)]).At(side));
            if Advances(n) && !n.cells.entry.left then
              && d.t == n.t + 1 && |n.captures| == d.t + 2
              && d.captures == n.captures + [if n.t in n.alarms then Press(CaptureOf(p)) else CaptureOf(p)]
              && d.log == n.log + [n.sim]
            else d.t == n.t && d.captures == n.captures && d.log == n.log
  {
    var (s, l) := (Run(g, o, ls), Draw(side, p, glitch));
    RunSnoc(g, o, ls, l);
    Reached(g, o, ls, side);
    NextSides(g, s, l);
    CaptureStep(g, s.At(side), p, glitch);
    hide DrawFrame, Next, NodeInv, LinkInv, Press, CaptureOf, Run, Advances;
  }

  lemma CaptureStep(g: Game, n: Node, p: Ports, glitch: Option<Sim>)
    requires Shaped(n.cells) && NodeInv(g, n)
    ensures var d := DrawFrame(g, n, p, glitch);
            if Advances(n) then
              && d.t == n.t + 1 && |n.captures| == d.t + 2
              && d.captures == n.captures + [if n.t in n.alarms then Press(CaptureOf(p)) else CaptureOf(p)]
              && d.log == n.log + [n.sim]
            else d.t == n.t && d.captures == n.captures && d.log == n.log
  {
    DrawCells(g, n, p, glitch);
    LogOnAdvance(g, n, p, glitch);
    hide DrawFrame, Press, CaptureOf, Logged, Simulated, Counted, Spoken;
  }

  lemma LogOnAdvance(g: Game, n: Node, p: Ports, glitch: Option<Sim>)
    requires Shaped(n.cells)
    ensures DrawFrame(g, n, p, glitch).log == if Advances(n) then n.log + [n.sim] else n.log
  {
    hide Shim;
  }

  // ---- alarms ----

  /** An alarm is always real: both consoles entered that very tick, and in different states. */
  lemma {:induction false} AlarmIsReal(g: Game, o: Opening, ls: seq<Label>, side: Side, a: int)
    requires a in Run(g, o, ls).At(side).alarms
    ensures var s := Run(g, o, ls);
            && 1 <= a < |s.host.log| && a < |s.guest.log|
            && Checksum.Crc(s.host.log[a].covered) != Checksum.Crc(s.guest.log[a].covered)
            && s.host.log[a] != s.guest.log[a]
  {
    Reached(g, o, ls, side);
    hide Run, NodeInv, Carries, Queued, Reading, Watched;
  }

  /** So a delivered run that nothing has corrupted rings none. */
  lemma {:induction false} NoFalseAlarm(g: Game, o: Opening, ls: seq<Label>, side: Side, a: int)
    requires Delivered(g, o, ls) && NoGlitch(Run(g, o, ls), 0, a)
    ensures a !in Run(g, o, ls).At(side).alarms
  {
    if a in Run(g, o, ls).At(side).alarms {
      AlarmIsReal(g, o, ls, side, a);
      LockstepAgreement(g, o, ls, Host, a);
      LockstepAgreement(g, o, ls, Guest, a);
    }
    hide Run, Delivered;
  }

  /** A record of the receiver's own tick rings the alarm exactly when the two samples differ. */
  lemma {:induction false} AlarmRings(g: Game, o: Opening, ls: seq<Label>, side: Side, outcome: Outcome)
    ensures var s := Run(g, o, ls);
            var (n, peer) := (s.At(side), s.At(Other(side)));
            var d := Run(g, o, ls + [Transport(side, outcome)]).At(side);
            0 < Left(n) <= |n.batch| && Due(n).Stamped? && !n.cells.entry.left ==>
              d.alarms == n.alarms +
                if Due(n).y - DELAY == n.t && n.t < |peer.log| && n.t < |n.log| && 0 <= n.t
                   && SampleOf(peer.log, n.t) != SampleOf(n.log, n.t) then {n.t} else {}
  {
    var (s, l) := (Run(g, o, ls), Transport(side, outcome));
    RunSnoc(g, o, ls, l);
    var (n, peer) := (s.At(side), s.At(Other(side)));
    Reached(g, o, ls, side);
    NextSides(g, s, l);
    if 0 < Left(n) <= |n.batch| && Due(n).Stamped? && !n.cells.entry.left {
      SkewOf(g, n, peer, s.Inbox(side), s.Inbox(Other(side)));
      AlarmStep(g, n, peer, s.Inbox(side), s.Inbox(Other(side)), outcome);
    }
    hide StepTransport, Next, NodeInv, LinkInv, Run, SampleOf;
  }

  lemma AlarmStep(g: Game, n: Node, peer: Node, inbox: Link, outbox: Link, o: Outcome)
    requires Shaped(n.cells) && NodeInv(g, n) && LinkInv(n, peer, inbox)
    requires -2 <= n.w - n.t <= 5 && 0 < Left(n) <= |n.batch| && Due(n).Stamped?
    ensures n.frames > 0
    ensures StepTransport(n, inbox, outbox, o).0.alarms == n.alarms +
            if Due(n).y - DELAY == n.t && n.t < |peer.log| && n.t < |n.log| && 0 <= n.t
               && SampleOf(peer.log, n.t) != SampleOf(n.log, n.t) then {n.t} else {}
  {
    assert Due(n) in n.batch;
    assert True(Due(n), peer.captures, peer.log);
    assert n.t >= 0 && n.t < |n.log| && (n.cells.entry.resync <==> n.t in n.alarms);
    TransportFrame(n, inbox, outbox, o);
    RecordKeepsLink(g, n, peer, inbox, outbox, o);
    hide StepTransport, NodeInv, LinkInv, SampleOf;
  }

  // ---- repair ----

  /** A console's capture has RESET pressed exactly for its own switch and for its alarm three ticks before. */
  lemma {:induction false} ResetInCapture(g: Game, o: Opening, ls: seq<Label>, side: Side, k: nat)
    requires 2 <= k < |Run(g, o, ls).At(side).captures|
    ensures var n := Run(g, o, ls).At(side);
            && k < |n.pressed|
            && (ResetPressed(n.captures[k]) <==> ResetPressed(n.pressed[k]) || k - (DELAY + 1) in n.alarms)
  {
    Reached(g, o, ls, side);
    hide Run, LinkInv, Clock, Logged, Simulated, Counted, Spoken;
  }

  /** RESET, as either console's game reads it at a tick, is low exactly when one of the two captures presses it. */
  lemma {:induction false} ResetReachesBoth(g: Game, o: Opening, ls: seq<Label>, side: Side, k: nat)
    requires Delivered(g, o, ls) && k < |Run(g, o, ls).At(side).used|
    ensures var s := Run(g, o, ls);
            && k < |s.host.captures| && k < |s.guest.captures|
            && (!s.At(side).used[k].switches.b0 <==> ResetPressed(s.host.captures[k]) || ResetPressed(s.guest.captures[k]))
  {
    RingsAreRight(g, o, ls, k);
    hide Run, Delivered;
  }

  /** The repair lands on both consoles at the same tick: three ticks after the alarm that asked for it. */
  lemma {:induction false} RepairLandsTogether(g: Game, o: Opening, ls: seq<Label>, alarmed: Side, side: Side, a: nat)
    requires Delivered(g, o, ls) && a in Run(g, o, ls).At(alarmed).alarms
    requires a + DELAY + 1 < |Run(g, o, ls).At(side).used|
    ensures !Run(g, o, ls).At(side).used[a + DELAY + 1].switches.b0
  {
    var k := a + DELAY + 1;
    ResetReachesBoth(g, o, ls, side, k);
    ResetInCapture(g, o, ls, alarmed, k);
    hide Run, Delivered, ResetPressed;
  }

  /** A tick that leads to the same state from everywhere. */
  ghost predicate Forgets(g: Game, m: Shadows) {
    forall a: Sim, b: Sim :: Tick(g, a, m) == Tick(g, b, m)
  }

  /** A repair tick that forgets leaves both consoles in the same state. */
  lemma RepairMeets(g: Game, o: Opening, ls: seq<Label>, alarmed: Side, a: nat)
    requires Delivered(g, o, ls) && a in Run(g, o, ls).At(alarmed).alarms
    requires forall m: Shadows | !m.switches.b0 :: Forgets(g, m)
    requires a + DELAY + 2 < |Run(g, o, ls).host.log| && a + DELAY + 2 < |Run(g, o, ls).guest.log|
    requires NoGlitch(Run(g, o, ls), a + DELAY + 1, a + DELAY + 2)
    ensures Run(g, o, ls).host.log[a + DELAY + 2] == Run(g, o, ls).guest.log[a + DELAY + 2]
  {
    hide Run, Delivered, Tick, Mixed;
    var r := a + DELAY + 1;
    OneTick(g, o, ls, Host, r);
    OneTick(g, o, ls, Guest, r);
    RingsAreRight(g, o, ls, r);
    RepairLandsTogether(g, o, ls, alarmed, Host, a);
    assert Forgets(g, Run(g, o, ls).host.used[r]);
  }

  /** A tick entered in the same state rings no alarm. */
  lemma AgreementIsQuiet(g: Game, o: Opening, ls: seq<Label>, side: Side, k: nat)
    requires k < |Run(g, o, ls).host.log| && k < |Run(g, o, ls).guest.log|
    requires Run(g, o, ls).host.log[k] == Run(g, o, ls).guest.log[k]
    ensures k !in Run(g, o, ls).At(side).alarms
  {
    hide Run;
    if k in Run(g, o, ls).At(side).alarms {
      AlarmIsReal(g, o, ls, side, k);
    }
  }

  /**
   * Desync and recovery: whatever was corrupted before, if the game forgets its state on a RESET tick and
   * nothing is corrupted from the repair tick on, the consoles agree on every later tick and ring no alarm.
   */
  lemma {:induction false} RepairHeals(g: Game, o: Opening, ls: seq<Label>, alarmed: Side, a: nat, k: nat)
    requires Delivered(g, o, ls) && a in Run(g, o, ls).At(alarmed).alarms
    requires forall m: Shadows | !m.switches.b0 :: Forgets(g, m)
    requires a + DELAY + 2 <= k < |Run(g, o, ls).host.log| && k < |Run(g, o, ls).guest.log|
    requires NoGlitch(Run(g, o, ls), a + DELAY + 1, k)
    ensures Run(g, o, ls).host.log[k] == Run(g, o, ls).guest.log[k]
    ensures k !in Run(g, o, ls).host.alarms && k !in Run(g, o, ls).guest.alarms
  {
    hide Run, Delivered, Forgets;
    RepairMeets(g, o, ls, alarmed, a);
    AgreementLasts(g, o, ls, a + DELAY + 2, k);
    AgreementIsQuiet(g, o, ls, Host, k);
    AgreementIsQuiet(g, o, ls, Guest, k);
  }
}
