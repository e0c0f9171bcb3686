/** What holds in every state of every interleaving, whatever is lost, delayed or corrupted. */
module Control {
  import opened Bytes
  import opened Wire
  import opened Netcode
  import opened Lockstep
  import Checksum

  // ---- what one node knows about itself ----

  /** k frames of game logic on one tick's shadows. */
  function Frames(g: Game, s: Sim, m: Shadows, k: nat): Sim {
    if k == 0 then s else g.step(Frames(g, s, m, k - 1), m)
  }

  /** One whole tick. */
  function Tick(g: Game, s: Sim, m: Shadows): Sim {
    Frames(g, s, m, FRAMES_PER_TICK)
  }

  /** The checksum a console sampled entering tick k; the very first boundary precedes any checksum. */
  function SampleOf(log: seq<Sim>, k: int): byte
    requires 0 <= k < |log|
  {
    if k == 0 then 0 else Checksum.Crc(log[k].covered)
  }

  /** Frames of the current tick already run. */
  function Done(e: Entry): nat {
    if !e.ran then 0 else if e.phase == 0 then FRAMES_PER_TICK else e.phase
  }

  predicate Clock(n: Node) {
    var c := n.cells;
    && n.t >= -1 && c.tick == Low(n.t)
    && (!c.entry.ran ==> c.entry.phase == 0)
    && (c.entry.left ==> !c.entry.ran)
    && (n.frames == 0 ==> n.t == -1 && c.entry.ran && c.entry.phase == 0 && c.state == WriteIssue)
    && (n.frames > 0 ==> n.t >= 0)
    && |n.used| == n.t + (if c.entry.ran then 1 else 0)
  }

  predicate Captured(n: Node) {
    && |n.cells.local| == LOCAL_SLOTS
    && |n.captures| == |n.pressed| == n.t + 3 && n.t >= -1
    && n.captures[0] == n.captures[1] == IDLE
    && (forall k | 0 <= k <= n.t + 2 && n.t - 1 <= k :: n.cells.local[k % LOCAL_SLOTS] == n.captures[k])
    && (forall a | a in n.alarms :: 0 <= a <= n.t)
    && (n.cells.entry.resync <==> n.t in n.alarms)
    && (forall k | 2 <= k < |n.captures| ::
          n.captures[k] == if k - 3 in n.alarms then Press(n.pressed[k]) else n.pressed[k])
  }

  predicate Logged(g: Game, n: Node) {
    && |n.log| == n.t + 1 <= |n.used| + 1
    && (n.t >= 0 ==> n.log[0] == g.start)
    && (forall k | 0 <= k < n.t && k !in n.glitches :: n.log[k + 1] == Tick(g, n.log[k], n.used[k]))
    && (forall k | k in n.glitches :: 0 <= k <= n.t)
  }

  predicate Simulated(g: Game, n: Node) {
    var c := n.cells;
    && |n.log| == n.t + 1
    && (n.t == -1 ==> n.sim == g.start && c.checksum == 0)
    && (n.t >= 0 ==> c.checksum == Checksum.Crc(n.sim.covered) && c.sample == SampleOf(n.log, n.t))
    && (n.t >= 0 && c.entry.ran ==> |n.used| == n.t + 1 && Agreed(c.shadows) == n.used[n.t])
    && (n.t >= 0 && n.t !in n.glitches ==> n.sim == Frames(g, n.log[n.t], Agreed(c.shadows), Done(c.entry)))
  }

  predicate Counted(n: Node) {
    var c := n.cells;
    && n.simFrames + (if c.entry.phase == 0 then 0 else FRAMES_PER_TICK - c.entry.phase) == FRAMES_PER_TICK * |n.used|
    && c.stalls == (if n.leaveSeen then 15 else Least(n.stallRun, 15))
    && (c.entry.left <==> n.stallRun > 15 || (n.leaveSeen && c.entry.left))
    && (c.entry.left ==> c.stalls == 15)
  }

  /** A record says what its sender captured and sampled, at the ticks it is stamped with. */
  predicate True(m: Message, captures: seq<Capture>, log: seq<Sim>) {
    m.Stamped? ==>
      && 2 <= m.y < |captures| && m.y - 2 < |log|
      && m.record == Record(Low(m.y), captures[m.y], captures[m.y - 1], captures[m.y - 2], SampleOf(log, m.y - 2))
  }

  /** Captures and states are only ever appended, so what was true of them stays true. */
  lemma TrueStays(m: Message, captures: seq<Capture>, log: seq<Sim>, more: seq<Capture>, later: seq<Sim>)
    requires True(m, captures, log) && captures <= more && log <= later
    ensures True(m, more, later)
  {}

  /** The stamp of the last record sent; 1 stands for the ticks known from the start. */
  function Latest(n: Node): int {
    if n.sent == [] || n.sent[|n.sent| - 1].Gone? then 1 else n.sent[|n.sent| - 1].y
  }

  predicate Spoken(n: Node) {
    && (forall i | 0 <= i < |n.sent| :: n.sent[i].Stamped? && True(n.sent[i], n.captures, n.log))
    && Latest(n) <= n.t + 2
  }

  ghost predicate NodeInv(g: Game, n: Node) {
    Clock(n) && Captured(n) && Logged(g, n) && Simulated(g, n) && Counted(n) && Spoken(n)
  }

  lemma NodeParts(g: Game, n: Node)
    requires NodeInv(g, n)
    ensures Clock(n) && Captured(n) && Logged(g, n) && Simulated(g, n) && Counted(n) && Spoken(n)
  {}

  lemma FirstNodeInv(g: Game, guest: bool, p: Ports, sequence: byte)
    ensures NodeInv(g, FirstNode(g, guest, p, sequence))
  {}

  // ---- a frame keeps it ----

  lemma DrawKeepsClock(g: Game, n: Node, p: Ports, glitch: Option<Sim>)
    requires Shaped(n.cells) && Clock(n) && !n.cells.entry.left
    ensures Clock(DrawFrame(g, n, p, glitch))
  {
    LowKeeps(n.t, 1);
  }

  lemma DrawKeepsCaptured(g: Game, n: Node, p: Ports, glitch: Option<Sim>)
    requires Shaped(n.cells) && Clock(n) && Captured(n) && !n.cells.entry.left
    ensures Captured(DrawFrame(g, n, p, glitch))
  {
    var d := DrawFrame(g, n, p, glitch);
    DrawCells(g, n, p, glitch);
    ClockTells(n);
    hide DrawFrame, CaptureOf, Press, Shim, Captured, Clock, Shaped;
    if Advances(n) {
      CapturedGrows(n, d, CaptureOf(p));
    } else {
      CapturedStays(n, d);
    }
  }

  lemma ClockTells(n: Node)
    requires Clock(n)
    ensures n.t >= -1 && (Advances(n) <==> n.cells.entry.phase == 0 && n.cells.entry.ran)
  {}

  lemma CapturedStays(n: Node, d: Node)
    requires Captured(n) && d.t == n.t && d.captures == n.captures && d.pressed == n.pressed
    requires d.cells.local == n.cells.local && d.cells.entry.resync == n.cells.entry.resync && d.alarms == n.alarms
    ensures Captured(d)
  {
    hide Press;
  }

  lemma CapturedGrows(n: Node, d: Node, c: Capture)
    requires Captured(n) && d.t == n.t + 1 && d.pressed == n.pressed + [c] && d.alarms == n.alarms
    requires var latest := if n.cells.entry.resync then Press(c) else c;
             d.captures == n.captures + [latest] && d.cells.local == n.cells.local[(n.t + 3) % LOCAL_SLOTS := latest]
    requires !d.cells.entry.resync
    ensures Captured(d)
  {
    var latest := if n.cells.entry.resync then Press(c) else c;
    LocalSlots(n, latest);
    hide Press;
    assert n.t + 1 !in n.alarms;
    forall k | 2 <= k < |d.captures|
      ensures d.captures[k] == if k - 3 in d.alarms then Press(d.pressed[k]) else d.pressed[k]
    {
      if k < |n.captures| {
        assert d.captures[k] == n.captures[k] && d.pressed[k] == n.pressed[k];
      }
    }
  }

  /** What the shim does to the local ring and the repair flag. */
  lemma DrawCells(g: Game, n: Node, p: Ports, glitch: Option<Sim>)
    requires Shaped(n.cells) && Clock(n)
    ensures var d := DrawFrame(g, n, p, glitch);
            if Advances(n) then
              var latest := if n.cells.entry.resync then Press(CaptureOf(p)) else CaptureOf(p);
              && d.t == n.t + 1 && d.captures == n.captures + [latest] && d.pressed == n.pressed + [CaptureOf(p)]
              && d.cells.local == n.cells.local[(n.t + 3) % LOCAL_SLOTS := latest]
              && !d.cells.entry.resync && d.alarms == n.alarms
            else
              && d.t == n.t && d.captures == n.captures && d.pressed == n.pressed && d.cells.local == n.cells.local
              && d.cells.entry.resync == n.cells.entry.resync && d.alarms == n.alarms
  {
    LowKeeps(n.t, 1);
    SlotAhead(n.t + 1);
    hide CaptureOf, Press, MixOf, SignedAtLeast;
  }

  /** A new capture takes the slot of the oldest one that is no longer needed. */
  lemma LocalSlots(n: Node, latest: Capture)
    requires Captured(n)
    ensures var local := n.cells.local[(n.t + 3) % LOCAL_SLOTS := latest];
            forall k | 0 <= k <= n.t + 3 && n.t <= k :: local[k % LOCAL_SLOTS] == (n.captures + [latest])[k]
  {}

  lemma SlotAhead(t: int)
    ensures (Low(t) as int + DELAY) % LOCAL_SLOTS == (t + DELAY) % LOCAL_SLOTS
  {
    Fours(t % 256 + 2, 64 * (t / 256));
  }

  lemma DrawKeepsLogged(g: Game, n: Node, p: Ports, glitch: Option<Sim>)
    requires Shaped(n.cells) && Clock(n) && Logged(g, n) && Simulated(g, n) && !n.cells.entry.left
    ensures Logged(g, DrawFrame(g, n, p, glitch))
  {
    hide MixOf, CaptureOf, Press;
  }

  /** Mid-tick: one more frame of the same tick. */
  lemma MidTickSimulated(g: Game, n: Node, p: Ports, glitch: Option<Sim>)
    requires Shaped(n.cells) && Clock(n) && Logged(g, n) && Simulated(g, n) && !n.cells.entry.left && !Boundary(n)
    ensures Simulated(g, DrawFrame(g, n, p, glitch))
  {
    hide MixOf, CaptureOf, Press, Logged;
    var m := Agreed(n.cells.shadows);
    var k := n.cells.entry.phase;
    if n.t !in n.glitches {
      assert Frames(g, n.log[n.t], m, k + 1) == g.step(Frames(g, n.log[n.t], m, k), m);
    }
  }

  /** A boundary that passes: the first frame of a tick. */
  lemma PassSimulated(g: Game, n: Node, p: Ports, glitch: Option<Sim>)
    requires Shaped(n.cells) && Clock(n) && Logged(g, n) && Simulated(g, n) && !n.cells.entry.left
    requires Boundary(n) && Shim(n.cells, p).advance
    ensures Simulated(g, DrawFrame(g, n, p, glitch))
  {
    hide MixOf, CaptureOf, Press, Logged;
    var d := DrawFrame(g, n, p, glitch);
    var m := Agreed(d.cells.shadows);
    assert Frames(g, d.log[d.t], m, 0) == d.log[d.t];
    assert Frames(g, d.log[d.t], m, 1) == g.step(Frames(g, d.log[d.t], m, 0), m);
    if !Advances(n) && d.t !in d.glitches {
      assert Done(n.cells.entry) == 0 && d.t !in n.glitches;
    }
  }

  /** A boundary that holds: nothing runs. */
  lemma StallSimulated(g: Game, n: Node, p: Ports, glitch: Option<Sim>)
    requires Shaped(n.cells) && Clock(n) && Logged(g, n) && Simulated(g, n) && !n.cells.entry.left
    requires Boundary(n) && !Shim(n.cells, p).advance
    ensures Simulated(g, DrawFrame(g, n, p, glitch))
  {
    hide MixOf, CaptureOf, Press, Logged;
  }

  lemma DrawKeepsSimulated(g: Game, n: Node, p: Ports, glitch: Option<Sim>)
    requires Shaped(n.cells) && Clock(n) && Logged(g, n) && Simulated(g, n) && !n.cells.entry.left
    ensures Simulated(g, DrawFrame(g, n, p, glitch))
  {
    hide DrawFrame, Shim, Simulated, Logged, Clock;
    if !Boundary(n) {
      MidTickSimulated(g, n, p, glitch);
    } else if Shim(n.cells, p).advance {
      PassSimulated(g, n, p, glitch);
    } else {
      StallSimulated(g, n, p, glitch);
    }
  }

  lemma DrawKeepsCounted(g: Game, n: Node, p: Ports, glitch: Option<Sim>)
    requires Shaped(n.cells) && Clock(n) && Counted(n) && !n.cells.entry.left
    ensures Counted(DrawFrame(g, n, p, glitch))
  {
    hide MixOf, CaptureOf, Press;
  }

  lemma DrawOnlyAppends(g: Game, n: Node, p: Ports, glitch: Option<Sim>)
    requires Shaped(n.cells)
    ensures var d := DrawFrame(g, n, p, glitch);
            n.captures <= d.captures && n.log <= d.log && d.sent == n.sent && n.t <= d.t <= n.t + 1
  {
    hide Shim;
  }

  lemma DrawKeepsSpoken(g: Game, n: Node, p: Ports, glitch: Option<Sim>)
    requires Shaped(n.cells) && Spoken(n)
    ensures Spoken(DrawFrame(g, n, p, glitch))
  {
    DrawOnlyAppends(g, n, p, glitch);
    hide DrawFrame, True;
    var d := DrawFrame(g, n, p, glitch);
    forall i | 0 <= i < |d.sent|
      ensures d.sent[i].Stamped? && True(d.sent[i], d.captures, d.log)
    {
      TrueStays(n.sent[i], n.captures, n.log, d.captures, d.log);
    }
  }

  lemma DrawKeepsNode(g: Game, n: Node, p: Ports, glitch: Option<Sim>)
    requires Shaped(n.cells) && NodeInv(g, n) && !n.cells.entry.left
    ensures NodeInv(g, DrawFrame(g, n, p, glitch))
  {
    hide Clock, Captured, Logged, Simulated, Counted, Spoken, DrawFrame;
    DrawKeepsClock(g, n, p, glitch);
    DrawKeepsCaptured(g, n, p, glitch);
    DrawKeepsLogged(g, n, p, glitch);
    DrawKeepsSimulated(g, n, p, glitch);
    DrawKeepsCounted(g, n, p, glitch);
    DrawKeepsSpoken(g, n, p, glitch);
  }

  // ---- a transport step keeps it ----

  /** The cells a transport step can touch. */
  lemma NetStepFrame(c: Cells, m: Mailbox)
    requires Shaped(c) && WindowCovers(c, m)
    ensures var d := NetStep(c, m);
            && d.tick == c.tick && d.sample == c.sample && d.checksum == c.checksum && d.local == c.local
            && d.shadows == c.shadows && d.advance == c.advance
            && d.entry == c.entry.(resync := d.entry.resync) && (c.entry.resync ==> d.entry.resync)
            && (c.state != Consume ==> d.entry == c.entry && d.stalls == c.stalls && d.watermark == c.watermark && d.remote == c.remote)
  {
    hide Decode, Store;
  }

  /** What of a node a transport step can touch. */
  lemma TransportFrame(n: Node, inbox: Link, outbox: Link, o: Outcome)
    requires Shaped(n.cells)
    ensures var d := StepTransport(n, inbox, outbox, o).0;
            && d.t == n.t && d.captures == n.captures && d.pressed == n.pressed && d.used == n.used && d.log == n.log
            && d.sim == n.sim && d.glitches == n.glitches && d.frames == n.frames && d.simFrames == n.simFrames
            && d.stallRun == n.stallRun
            && d.cells.tick == n.cells.tick && d.cells.sample == n.cells.sample && d.cells.checksum == n.cells.checksum
            && d.cells.local == n.cells.local && d.cells.shadows == n.cells.shadows
            && d.cells.entry == n.cells.entry.(resync := d.cells.entry.resync)
            && (n.cells.entry.resync ==> d.cells.entry.resync)
            && d.alarms == (if d.cells.entry.resync && !n.cells.entry.resync then n.alarms + {n.t} else n.alarms)
            && (d.sent == n.sent || d.sent == n.sent + [Fresh(n)])
  {
    hide Answer, Fresh, NetStep, FrameOf, Shaped;
    var (e, _) := Answer(n, inbox, o);
    AnswerFrame(n, inbox, o);
    var m := Shown(e, o);
    if WindowCovers(n.cells, m) {
      NetStepFrame(n.cells, m);
    }
  }

  lemma AnswerFrame(n: Node, inbox: Link, o: Outcome)
    ensures var d := Answer(n, inbox, o).0;
            d == n.(acknowledged := d.acknowledged, window := d.window, reported := d.reported,
                    fault := d.fault, floor := d.floor, batch := d.batch)
  {}

  lemma TransportKeepsQuiet(g: Game, n: Node, inbox: Link, outbox: Link, o: Outcome)
    requires Shaped(n.cells) && Clock(n) && Captured(n) && Logged(g, n) && Simulated(g, n) && n.frames > 0
    ensures var d := StepTransport(n, inbox, outbox, o).0; Clock(d) && Captured(d) && Logged(g, d) && Simulated(g, d)
  {
    TransportFrame(n, inbox, outbox, o);
    hide StepTransport;
  }

  /** The record a node writes now is true. */
  lemma FreshIsTrue(g: Game, n: Node)
    requires Shaped(n.cells) && Clock(n) && Captured(n) && Simulated(g, n) && n.t >= 0
    ensures True(Fresh(n), n.captures, n.log)
  {
    LowKeeps(n.t, 2);
    Fours(n.t % 256 + 1, 64 * (n.t / 256));
    Fours(n.t % 256 + 2, 64 * (n.t / 256));
    Fours(n.t % 256, 64 * (n.t / 256));
    assert n.cells.local[(n.t + 2) % LOCAL_SLOTS] == n.captures[n.t + 2];
    assert n.cells.local[(n.t + 1) % LOCAL_SLOTS] == n.captures[n.t + 1];
    assert n.cells.local[n.t % LOCAL_SLOTS] == n.captures[n.t];
  }

  lemma FreshStamp(n: Node)
    requires Shaped(n.cells)
    ensures Fresh(n).Stamped? && Fresh(n).y == n.t + 2
  {}

  lemma TransportKeepsSpoken(g: Game, n: Node, inbox: Link, outbox: Link, o: Outcome)
    requires Shaped(n.cells) && NodeInv(g, n) && n.frames > 0
    ensures Spoken(StepTransport(n, inbox, outbox, o).0)
  {
    FreshIsTrue(g, n);
    FreshStamp(n);
    TransportFrame(n, inbox, outbox, o);
    var d := StepTransport(n, inbox, outbox, o).0;
    SpokenGrows(n, d);
    hide *;
  }

  lemma SpokenGrows(n: Node, d: Node)
    requires Shaped(n.cells) && Spoken(n) && d.t == n.t && d.captures == n.captures && d.log == n.log
    requires d.sent == n.sent || d.sent == n.sent + [Fresh(n)]
    requires Fresh(n).Stamped? && Fresh(n).y == n.t + 2 && True(Fresh(n), n.captures, n.log)
    ensures Spoken(d)
  {
    hide True, Fresh;
  }
}
