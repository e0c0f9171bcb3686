/** What every run of two consoles guarantees. */
module Theorems {
  import opened Bytes
  import opened Wire
  import opened Netcode
  import opened Lockstep
  import opened Control
  import opened Links
  import opened Runs
  import opened Rings
  import Checksum

  /** The invariant of a run, taken apart for one side. */
  lemma Reached(g: Game, o: Opening, ls: seq<Label>, side: Side)
    ensures var s := Run(g, o, ls);
            var (n, peer) := (s.At(side), s.At(Other(side)));
            && NodeInv(g, n) && NodeInv(g, peer)
            && LinkInv(n, peer, s.Inbox(side)) && LinkInv(peer, n, s.Inbox(Other(side)))
  {
    EveryRun(g, o, ls);
    hide Run, NodeInv, LinkInv;
  }

  lemma ReachedRings(g: Game, o: Opening, ls: seq<Label>, side: Side)
    requires Delivered(g, o, ls)
    ensures var s := Run(g, o, ls); RingInv(s.At(side), s.At(Other(side)), side)
  {
    EveryDeliveredRun(g, o, ls);
    hide Run, RingInv, Delivered;
  }

  // ---- skew and wrap ----

  /**
   * Runs of any length: neither tick is ever more than DELAY + 1 above the other, the watermark stays near
   * the tick, and the three eight-bit comparisons the netcode makes are comparisons of the unbounded ticks.
   */
  lemma {:induction false} NoWrap(g: Game, o: Opening, ls: seq<Label>, side: Side)
    ensures var s := Run(g, o, ls);
            var (n, peer) := (s.At(side), s.At(Other(side)));
            && n.t <= peer.t + DELAY + 1
            && -2 <= n.w - n.t <= 2 * DELAY + 1
            && (SignedAtLeast(n.cells.watermark, n.cells.tick) <==> n.w >= n.t)
            && (SignedAtLeast(n.cells.watermark, Low(n.cells.tick as int + 1)) <==> n.w >= n.t + 1)
            && (0 < Left(n) <= |n.batch| && Due(n).Stamped? ==>
                  (SignedAtLeast(Due(n).record.tick, n.cells.watermark) <==> Due(n).y >= n.w))
  {
    var s := Run(g, o, ls);
    var (n, peer) := (s.At(side), s.At(Other(side)));
    hide *;
    Reached(g, o, ls, side);
    SkewOf(g, n, peer, s.Inbox(side), s.Inbox(Other(side)));
    NearbyComparisons(g, n, peer, s.Inbox(side));
  }

  lemma SkewOf(g: Game, n: Node, peer: Node, inbox: Link, outbox: Link)
    requires NodeInv(g, n) && NodeInv(g, peer) && LinkInv(n, peer, inbox) && LinkInv(peer, n, outbox)
    ensures n.t <= peer.t + DELAY + 1
    ensures -2 <= n.w - n.t <= 2 * DELAY + 1
  {
    Skew(n, peer);
  }

  lemma NearbyComparisons(g: Game, n: Node, peer: Node, inbox: Link)
    requires NodeInv(g, n) && LinkInv(n, peer, inbox) && -2 <= n.w - n.t <= 2 * DELAY + 1
    ensures SignedAtLeast(n.cells.watermark, n.cells.tick) <==> n.w >= n.t
    ensures SignedAtLeast(n.cells.watermark, Low(n.cells.tick as int + 1)) <==> n.w >= n.t + 1
    ensures 0 < Left(n) <= |n.batch| && Due(n).Stamped? ==>
              (SignedAtLeast(Due(n).record.tick, n.cells.watermark) <==> Due(n).y >= n.w)
  {
    LowKeeps(n.t, 1);
    SignedCompareIsExact(n.w, n.t);
    SignedCompareIsExact(n.w, n.t + 1);
    if 0 < Left(n) <= |n.batch| && Due(n).Stamped? {
      assert Due(n) in n.batch;
      SignedCompareIsExact(Due(n).y, n.w);
    }
    hide SignedAtLeast, Low, Captured, Logged, Simulated, Counted, Spoken, Carries, Ordered, Alarmed;
  }

  // ---- lockstep ----

  /** The game played on two capture histories: its state entering tick k. */
  function Played(g: Game, host: seq<Capture>, guest: seq<Capture>, k: nat): Sim
    requires k <= |host| && k <= |guest|
  {
    if k == 0 then g.start else Tick(g, Played(g, host, guest, k - 1), Mixed(host[k - 1], guest[k - 1]))
  }

  predicate NoGlitch(s: System, from: int, to: int) {
    forall k | from <= k < to :: k !in s.host.glitches && k !in s.guest.glitches
  }

  /** Every tick that ran, ran on both consoles with the same shadows, made of the two captures for it. */
  lemma {:induction false} RingsAreRight(g: Game, o: Opening, ls: seq<Label>, k: nat)
    requires Delivered(g, o, ls)
    ensures var s := Run(g, o, ls);
            var (h, u) := (s.host, s.guest);
            (k < |h.used| || k < |u.used| ==> k < |h.captures| && k < |u.captures|)
            && (k < |h.used| ==> h.used[k] == Mixed(h.captures[k], u.captures[k]))
            && (k < |u.used| ==> u.used[k] == Mixed(h.captures[k], u.captures[k]))
  {
    ReachedRings(g, o, ls, Host);
    ReachedRings(g, o, ls, Guest);
    hide Run, Delivered, Mixed;
  }

  lemma FirstState(g: Game, o: Opening, ls: seq<Label>, side: Side)
    ensures var n := Run(g, o, ls).At(side); n.log != [] ==> n.log[0] == g.start
  {
    Reached(g, o, ls, side);
    hide Run, Tick;
  }

  /** A state entered by one uncorrupted tick is that tick's game logic on the state before it. */
  lemma OneTick(g: Game, o: Opening, ls: seq<Label>, side: Side, k: nat)
    requires k + 1 < |Run(g, o, ls).At(side).log| && k !in Run(g, o, ls).At(side).glitches
    ensures var n := Run(g, o, ls).At(side); k < |n.used| && n.log[k + 1] == Tick(g, n.log[k], n.used[k])
  {
    Reached(g, o, ls, side);
    hide Run, Tick;
  }

  /** From two equal states, ticks neither side corrupts lead to equal states. */
  lemma {:induction false} AgreementLasts(g: Game, o: Opening, ls: seq<Label>, a: nat, k: nat)
    requires Delivered(g, o, ls) && a <= k
    requires k < |Run(g, o, ls).host.log| && k < |Run(g, o, ls).guest.log|
    requires Run(g, o, ls).host.log[a] == Run(g, o, ls).guest.log[a] && NoGlitch(Run(g, o, ls), a, k)
    ensures Run(g, o, ls).host.log[k] == Run(g, o, ls).guest.log[k]
  {
    if a < k {
      AgreementLasts(g, o, ls, a, k - 1);
      OneTick(g, o, ls, Host, k - 1);
      OneTick(g, o, ls, Guest, k - 1);
      RingsAreRight(g, o, ls, k - 1);
    }
    hide Run, Delivered, Tick, Mixed;
  }

  /**
   * Lockstep agreement: on every interleaving that keeps the delivery hypothesis, the states in which the two
   * consoles enter any tick both reach are equal, and are the game played on the two capture histories.
   */
  lemma {:induction false} LockstepAgreement(g: Game, o: Opening, ls: seq<Label>, side: Side, k: nat)
    requires Delivered(g, o, ls) && k < |Run(g, o, ls).At(side).log| && NoGlitch(Run(g, o, ls), 0, k)
    ensures var s := Run(g, o, ls);
            && k <= |s.host.captures| && k <= |s.guest.captures|
            && s.At(side).log[k] == Played(g, s.host.captures, s.guest.captures, k)
  {
    if k == 0 {
      FirstState(g, o, ls, side);
    } else {
      LockstepAgreement(g, o, ls, side, k - 1);
      OneTick(g, o, ls, side, k - 1);
      RingsAreRight(g, o, ls, k - 1);
    }
    hide Run, Delivered, Tick, Mixed;
  }
}
