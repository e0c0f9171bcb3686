/** What one node knows about the other: streams, batches, watermarks, and the skew between the ticks. */
module Links {
  import opened Bytes
  import opened Wire
  import opened Netcode
  import opened Lockstep
  import opened Control

  /** The stream is a whole number of true frames, none stamped after the sender's latest. */
  predicate Carries(inbox: Link, peer: Node) {
    && inbox.bytes == Flat(FramesOf(inbox.messages))
    && (forall m | m in inbox.messages :: True(m, peer.captures, peer.log) && (m.Stamped? ==> m.y <= Latest(peer)))
  }

  /** Stamps never go back. */
  predicate Ordered(ms: seq<Message>) {
    forall i, j | 0 <= i < j < |ms| && ms[i].Stamped? && ms[j].Stamped? :: ms[i].y <= ms[j].y
  }

  /** Frames of the batch not consumed yet. */
  function Left(n: Node): nat {
    if n.cells.state == Consume then n.cells.count as int else 0
  }

  predicate Queued(n: Node, peer: Node, inbox: Link) {
    && Ordered(n.batch + inbox.messages)
    && (forall m | m in inbox.messages && m.Stamped? :: n.w <= m.y)
    && (forall m | m in n.batch :: True(m, peer.captures, peer.log)
          && (m.Stamped? ==> n.floor <= m.y <= n.floor + 7 && m.y <= Latest(peer)))
    && (n.w == n.floor || forall i | 0 <= i < |n.batch| && i < Left(n) && n.batch[i].Stamped? :: n.batch[i].y <= n.w)
  }

  /** The transport machine, its reply window and its place in the stream. */
  predicate Reading(n: Node, inbox: Link) {
    var c := n.cells;
    && !n.fault
    && c.state != Idle && c.state != Failed
    && (c.state == ReadIssue || c.state == ReadAck ==>
          c.count as int % FRAME_LENGTH == 0 && 0 < c.count <= 240 && c.count as int <= n.reported <= |inbox.bytes|)
    && (c.state == Consume ==> c.count as int <= |n.batch| <= 15 && n.window == Flat(FramesOf(n.batch)))
    && (c.state == WriteAck || c.state == StatusAck || c.state == ReadAck ==> n.acknowledged != c.sequence)
  }

  predicate Watched(n: Node, peer: Node) {
    && n.cells.watermark == Low(n.w)
    && (n.w == -2 || n.w >= 2) && (n.floor == -2 || n.floor >= 2)
    && n.floor <= n.w <= n.floor + 7 && n.w <= Latest(peer)
    && (n.t <= n.w || n.t == -1 || (!n.cells.entry.ran && (n.t == n.w + 1 || (n.t == 0 && n.w == -2))))
  }

  /** An alarm is a tick both consoles have sampled, differently. */
  predicate Alarmed(n: Node, peer: Node) {
    forall a | a in n.alarms :: 0 <= a < |n.log| && a < |peer.log| && SampleOf(n.log, a) != SampleOf(peer.log, a)
  }

  ghost predicate LinkInv(n: Node, peer: Node, inbox: Link) {
    Carries(inbox, peer) && Queued(n, peer, inbox) && Reading(n, inbox) && Watched(n, peer) && Alarmed(n, peer)
  }

  /** How far apart two ticks, or a tick and a watermark, can be. */
  lemma Skew(n: Node, peer: Node)
    requires Watched(n, peer) && Watched(peer, n) && n.t >= -1 && peer.t >= -1
    requires Latest(n) <= n.t + 2 && Latest(peer) <= peer.t + 2
    ensures n.t <= peer.t + DELAY + 1
    ensures -2 <= n.w - n.t <= 2 * DELAY + 1
  {}

  // ---- a frame ----

  /** The shim with the eight-bit arithmetic taken away: the gate passes exactly when the watermark has come. */
  lemma ShimEffect(c: Cells, p: Ports, t: int, w: int)
    requires Shaped(c) && c.tick == Low(t) && c.watermark == Low(w) && -127 <= w - t <= 127
    ensures var d := Shim(c, p);
            var boundary := c.entry.phase == 0;
            var t' := if boundary && c.entry.ran then t + 1 else t;
            && d.tick == Low(t') && d.watermark == c.watermark
            && d.advance == (!boundary || w >= t')
            && d.entry.ran == (if boundary then w >= t' else c.entry.ran)
  {
    LowKeeps(t, 1);
    SignedCompareIsExact(w, t);
    SignedCompareIsExact(w, t + 1);
    hide SignedAtLeast, MixOf, CaptureOf, Press, Low;
  }

  lemma DrawKeepsWatched(g: Game, n: Node, peer: Node, p: Ports, glitch: Option<Sim>)
    requires Shaped(n.cells) && Clock(n) && !n.cells.entry.left
    requires Watched(n, peer) && Watched(peer, n) && peer.t >= -1
    requires Latest(n) <= n.t + 2 && Latest(peer) <= peer.t + 2
    ensures Watched(DrawFrame(g, n, p, glitch), peer)
  {
    Skew(n, peer);
    ShimEffect(n.cells, p, n.t, n.w);
    hide Shim, Low, CaptureOf, Press;
  }

  /** The cells and the record that the stream and the batch are about do not change with a frame. */
  lemma DrawLeavesLinks(g: Game, n: Node, p: Ports, glitch: Option<Sim>)
    requires Shaped(n.cells)
    ensures var d := DrawFrame(g, n, p, glitch);
            && d.w == n.w && d.floor == n.floor && d.batch == n.batch && d.sent == n.sent && d.window == n.window
            && d.alarms == n.alarms && d.acknowledged == n.acknowledged && d.reported == n.reported && d.fault == n.fault
            && d.cells.state == n.cells.state && d.cells.count == n.cells.count && d.cells.sequence == n.cells.sequence
            && d.cells.watermark == n.cells.watermark && d.cells.remote == n.cells.remote
  {
    hide MixOf, CaptureOf, Press, SignedAtLeast;
  }

  lemma DrawKeepsOwnLink(g: Game, n: Node, peer: Node, inbox: Link, p: Ports, glitch: Option<Sim>)
    requires Shaped(n.cells) && Clock(n) && !n.cells.entry.left
    requires LinkInv(n, peer, inbox) && Watched(peer, n) && peer.t >= -1
    requires Latest(n) <= n.t + 2 && Latest(peer) <= peer.t + 2
    ensures LinkInv(DrawFrame(g, n, p, glitch), peer, inbox)
  {
    DrawLeavesLinks(g, n, p, glitch);
    DrawOnlyAppends(g, n, p, glitch);
    DrawKeepsWatched(g, n, peer, p, glitch);
    hide DrawFrame, True, Flat, Ordered, Watched, Clock;
  }

  lemma DrawKeepsPeerLink(g: Game, n: Node, peer: Node, outbox: Link, p: Ports, glitch: Option<Sim>)
    requires Shaped(n.cells) && LinkInv(peer, n, outbox)
    ensures LinkInv(peer, DrawFrame(g, n, p, glitch), outbox)
  {
    DrawLeavesLinks(g, n, p, glitch);
    DrawOnlyAppends(g, n, p, glitch);
    hide DrawFrame, True, Flat, Ordered;
    PeerAppends(peer, n, DrawFrame(g, n, p, glitch), outbox);
  }

  /** A node's link survives its peer capturing more, logging more and sending nothing. */
  lemma PeerAppends(n: Node, peer: Node, later: Node, inbox: Link)
    requires LinkInv(n, peer, inbox)
    requires peer.captures <= later.captures && peer.log <= later.log && Latest(peer) <= Latest(later)
    ensures LinkInv(n, later, inbox)
  {
    hide True, Flat, Ordered;
    forall m | m in inbox.messages || m in n.batch
      ensures True(m, later.captures, later.log)
    {
      TrueStays(m, peer.captures, peer.log, later.captures, later.log);
    }
  }

  // ---- a transport step, by state ----

  /** The parts of a node its link is about, apart from the transport machine itself. */
  predicate SameWatch(n: Node, d: Node) {
    && d.w == n.w && d.floor == n.floor && d.batch == n.batch && d.t == n.t && d.alarms == n.alarms && d.log == n.log
    && d.cells.watermark == n.cells.watermark && d.cells.entry.ran == n.cells.entry.ran && Left(d) <= Left(n)
  }

  lemma SameWatchKeepsLink(n: Node, d: Node, peer: Node, inbox: Link)
    requires LinkInv(n, peer, inbox) && SameWatch(n, d) && Reading(d, inbox)
    ensures LinkInv(d, peer, inbox)
  {
    hide True, Flat, Ordered;
  }

  predicate Handshake(s: NetState) {
    s == WriteIssue || s == WriteAck || s == StatusIssue || s == ReadIssue
  }

  /** Away from READ and CONSUME a step touches only the transport machine. */
  lemma ElsewhereSameWatch(n: Node, inbox: Link, outbox: Link, o: Outcome)
    requires Shaped(n.cells) && (Handshake(n.cells.state) || n.cells.state == StatusAck)
    ensures var (d, inbox', _) := StepTransport(n, inbox, outbox, o);
            inbox' == inbox && SameWatch(n, d)
  {
    TransportFrame(n, inbox, outbox, o);
    var e := Answer(n, inbox, o).0;
    if WindowCovers(n.cells, Shown(e, o)) {
      NetStepFrame(n.cells, Shown(e, o));
      NotConsuming(n.cells, Shown(e, o));
    }
    hide Encode, Fresh, Low, NetStep, Shaped;
  }

  lemma NotConsuming(c: Cells, m: Mailbox)
    requires Shaped(c) && WindowCovers(c, m) && (Handshake(c.state) || c.state == StatusAck)
    ensures NetStep(c, m).state != Consume
  {}

  lemma HandshakeKeepsReading(n: Node, inbox: Link, outbox: Link, o: Outcome)
    requires Shaped(n.cells) && Reading(n, inbox) && Handshake(n.cells.state)
    ensures Reading(StepTransport(n, inbox, outbox, o).0, inbox)
  {
    hide Encode, Fresh, Low;
  }

  /** STATUS: only whole frames, and no more than was reported. */
  lemma SizeIsWhole(c: Cells, available: nat, healthy: bool)
    requires available < 65536
    ensures var d := Size(c, StatusReply(available, healthy));
            && (d.state == WriteIssue || d.state == ReadIssue)
            && (d.state == ReadIssue ==>
                  d.count as int % FRAME_LENGTH == 0 && 0 < d.count <= 240 && d.count as int <= available)
  {
    var low := StatusReply(available, healthy)[0] as int;
    var k := low / FRAME_LENGTH;
    assert k <= 15 && FRAME_LENGTH * k <= low <= available;
    assert (k * FRAME_LENGTH) % FRAME_LENGTH == 0;
  }

  lemma StatusKeepsReading(n: Node, inbox: Link, outbox: Link, o: Outcome)
    requires Shaped(n.cells) && Reading(n, inbox) && n.cells.state == StatusAck
    ensures Reading(StepTransport(n, inbox, outbox, o).0, inbox)
  {
    SizeIsWhole(n.cells, Least(Least(o.delivered, |inbox.bytes|), 65535), o.healthy);
    hide Encode, Fresh, Low, Size, StatusReply;
  }

  /** Every state but READ and CONSUME. */
  lemma ElsewhereKeepsLink(n: Node, peer: Node, inbox: Link, outbox: Link, o: Outcome)
    requires Shaped(n.cells) && LinkInv(n, peer, inbox) && (Handshake(n.cells.state) || n.cells.state == StatusAck)
    ensures var (d, inbox', _) := StepTransport(n, inbox, outbox, o); inbox' == inbox && LinkInv(d, peer, inbox)
  {
    ElsewhereSameWatch(n, inbox, outbox, o);
    if n.cells.state == StatusAck {
      StatusKeepsReading(n, inbox, outbox, o);
    } else {
      HandshakeKeepsReading(n, inbox, outbox, o);
    }
    SameWatchKeepsLink(n, StepTransport(n, inbox, outbox, o).0, peer, inbox);
    hide *;
  }

  // ---- READ ----

  /** Reading whole frames off a whole number of frames leaves a whole number of frames. */
  lemma CutMessages(ms: seq<Message>, k: nat)
    requires k <= |ms|
    ensures Flat(FramesOf(ms))[..FRAME_LENGTH * k] == Flat(FramesOf(ms[..k]))
    ensures Flat(FramesOf(ms))[FRAME_LENGTH * k..] == Flat(FramesOf(ms[k..]))
  {
    FlatCut(FramesOf(ms), k);
    assert FramesOf(ms)[..k] == FramesOf(ms[..k]);
    assert FramesOf(ms)[k..] == FramesOf(ms[k..]);
  }

  /** What an answered READ leaves. */
  lemma ReadTakesWholeFrames(n: Node, inbox: Link, outbox: Link, o: Outcome)
    requires Shaped(n.cells) && n.cells.state == ReadAck && o.answered && !o.failed
    requires Reading(n, inbox) && inbox.bytes == Flat(FramesOf(inbox.messages))
    ensures var (d, inbox', outbox') := StepTransport(n, inbox, outbox, o);
            var k := n.cells.count as int / FRAME_LENGTH;
            && 0 < k <= 15 && k <= |inbox.messages|
            && d == n.(acknowledged := n.cells.sequence, window := Flat(FramesOf(inbox.messages[..k])),
                       batch := inbox.messages[..k], floor := n.w,
                       cells := n.cells.(count := k as byte, state := Consume))
            && inbox'.messages == inbox.messages[k..] && inbox'.bytes == Flat(FramesOf(inbox'.messages))
            && outbox' == outbox
  {
    hide Flat, Encode, Fresh, Low;
    var k := n.cells.count as int / FRAME_LENGTH;
    assert n.cells.count as int == FRAME_LENGTH * k;
    assert |inbox.bytes| == FRAME_LENGTH * |inbox.messages|;
    CutMessages(inbox.messages, k);
  }

  /** The part of the stream a READ takes becomes the batch; the rest stays the stream. */
  lemma ReadKeepsQueued(n: Node, d: Node, peer: Node, inbox: Link, rest: Link)
    requires Carries(inbox, peer) && Queued(n, peer, inbox)
    requires inbox.messages == d.batch + rest.messages && d.floor == d.w == n.w && Latest(peer) <= n.w + 7
    ensures Queued(d, peer, rest)
    ensures forall m | m in rest.messages :: True(m, peer.captures, peer.log) && (m.Stamped? ==> m.y <= Latest(peer))
  {
    OrderedTail(n.batch, inbox.messages);
    hide True, Flat, FramesOf, Ordered;
    forall m | m in d.batch || m in rest.messages
      ensures m in inbox.messages
    {}
  }

  lemma ReadKeepsLink(n: Node, peer: Node, inbox: Link, outbox: Link, o: Outcome)
    requires Shaped(n.cells) && LinkInv(n, peer, inbox) && n.cells.state == ReadAck && o.answered && !o.failed
    requires Watched(peer, n) && n.t >= -1 && peer.t >= -1 && Latest(n) <= n.t + 2 && Latest(peer) <= peer.t + 2
    ensures var (d, inbox', _) := StepTransport(n, inbox, outbox, o); LinkInv(d, peer, inbox')
  {
    Skew(n, peer);
    Skew(peer, n);
    ReadTakesWholeFrames(n, inbox, outbox, o);
    var (d, inbox', _) := StepTransport(n, inbox, outbox, o);
    hide StepTransport, Flat, True, Ordered, FramesOf;
    assert inbox.messages == d.batch + inbox'.messages;
    ReadKeepsQueued(n, d, peer, inbox, inbox');
    hide Queued;
  }

  lemma OrderedTail(a: seq<Message>, b: seq<Message>)
    requires Ordered(a + b)
    ensures Ordered(b)
  {
    forall i, j | 0 <= i < j < |b| && b[i].Stamped? && b[j].Stamped?
      ensures b[i].y <= b[j].y
    {
      assert (a + b)[|a| + i] == b[i] && (a + b)[|a| + j] == b[j];
    }
  }

  /** A READ that has not answered, or has failed, takes nothing. */
  lemma WaitKeepsLink(n: Node, peer: Node, inbox: Link, outbox: Link, o: Outcome)
    requires Shaped(n.cells) && LinkInv(n, peer, inbox) && n.cells.state == ReadAck && !(o.answered && !o.failed)
    ensures var (d, inbox', _) := StepTransport(n, inbox, outbox, o); inbox' == inbox && LinkInv(d, peer, inbox)
  {
    TransportFrame(n, inbox, outbox, o);
    var (d, inbox', _) := StepTransport(n, inbox, outbox, o);
    assert inbox' == inbox && SameWatch(n, d) && Reading(d, inbox) by {
      hide Encode, Fresh, Low, Flat, True, Ordered, Queued, Carries, Watched, Alarmed;
    }
    SameWatchKeepsLink(n, d, peer, inbox);
    hide *;
  }

  // ---- CONSUME ----

  /** The record a console is about to consume. */
  function Due(n: Node): Message
    requires 0 < Left(n) <= |n.batch|
  {
    n.batch[Left(n) - 1]
  }

  /** What the receiver makes of a message's bytes. */
  lemma FrameArrives(m: Message)
    ensures Decode(FrameOf(m)) == if m.Stamped? then Input(m.record) else Departure
  {
    hide Encode, Xor;
    if m.Stamped? {
      DecodeInvertsEncode(m.record);
    }
  }

  /** The frame the cursor points at, in the window, is the due message's. */
  lemma DueInWindow(n: Node)
    requires n.cells.state == Consume && n.cells.count > 0
    requires n.cells.count as int <= |n.batch| && n.window == Flat(FramesOf(n.batch))
    ensures var k := n.cells.count as int - 1;
            && |n.window| == FRAME_LENGTH * |n.batch|
            && n.window[FRAME_LENGTH * k..FRAME_LENGTH * k + FRAME_LENGTH] == FrameOf(Due(n))
  {
    var fs := FramesOf(n.batch);
    FlatAt(fs, n.cells.count as int - 1);
    hide Flat, FrameOf;
  }

  /** The machine takes the frame the cursor points at. */
  lemma ReceivesDue(n: Node, m: Mailbox)
    requires Shaped(n.cells) && n.cells.state == Consume && n.cells.count > 0
    requires n.cells.count as int <= |n.batch| && n.window == Flat(FramesOf(n.batch)) && m.reply == n.window
    ensures WindowCovers(n.cells, m) && |n.window| == FRAME_LENGTH * |n.batch|
    ensures NetStep(n.cells, m) ==
            var c := n.cells.(count := n.cells.count - 1);
            if Due(n).Stamped? then Accept(c, Due(n).record) else c.(stalls := 15, error := ERROR_PEER)
  {
    DueInWindow(n);
    FrameArrives(Due(n));
    hide Accept, Decode, FrameOf, FramesOf, Flat;
  }

  /** Consuming a frame does to the node exactly what the message in it says. */
  lemma ConsumeEffect(n: Node, inbox: Link, outbox: Link, o: Outcome)
    requires Shaped(n.cells) && Reading(n, inbox) && n.cells.state == Consume && n.cells.count > 0
    ensures var m := Due(n);
            var c := n.cells.(count := n.cells.count - 1);
            var (d, inbox', outbox') := StepTransport(n, inbox, outbox, o);
            && inbox' == inbox && outbox' == outbox
            && d.cells == (if m.Stamped? then Accept(c, m.record) else c.(stalls := 15, error := ERROR_PEER))
            && d == n.(cells := d.cells, acknowledged := d.acknowledged,
                       w := if m.Stamped? then Max(n.w, m.y) else n.w,
                       alarms := if d.cells.entry.resync && !n.cells.entry.resync then n.alarms + {n.t} else n.alarms,
                       leaveSeen := n.leaveSeen || m.Gone?)
  {
    hide Accept, Decode, Encode, FrameOf, Fresh, FramesOf, Flat, NetStep, Answer, Low;
    AnswerKeeps(n, inbox, o);
    ReceivesDue(n, Shown(Answer(n, inbox, o).0, o));
  }

  /** Answered or not, a console about to consume has nothing new to read. */
  lemma AnswerKeeps(n: Node, inbox: Link, o: Outcome)
    requires n.cells.state == Consume
    ensures var (e, inbox') := Answer(n, inbox, o); inbox' == inbox && e == n.(acknowledged := e.acknowledged)
  {}

  /** The watermark and the alarm, with the eight-bit arithmetic taken away. */
  lemma AcceptArithmetic(c: Cells, r: Record, y: int, w: int, t: int)
    requires Shaped(c) && r.tick == Low(y) && c.watermark == Low(w) && c.tick == Low(t)
    requires -7 <= y - w <= 7 && -2 <= w - t <= 5
    ensures Accept(c, r).watermark == Low(Max(w, y))
    ensures Alarm(c, r) <==> y - 2 == t && !c.entry.resync && r.crc != c.sample
  {
    SignedCompareIsExact(y, w);
    LowKeeps(y, -2);
    LowIsInjectiveNearby(y - 2, t);
    hide SignedAtLeast, Low, Store;
  }

  lemma AcceptEffect(g: Game, n: Node, peer: Node, inbox: Link)
    requires Shaped(n.cells) && NodeInv(g, n) && LinkInv(n, peer, inbox) && n.t >= 0
    requires 0 < Left(n) <= |n.batch| && Due(n).Stamped? && -2 <= n.w - n.t <= 5
    ensures var m := Due(n);
            var c := n.cells.(count := n.cells.count - 1);
            && Accept(c, m.record).watermark == Low(Max(n.w, m.y))
            && (Alarm(c, m.record) <==>
                  m.y - 2 == n.t && !n.cells.entry.resync && SampleOf(peer.log, n.t) != SampleOf(n.log, n.t))
  {
    var m := Due(n);
    assert m in n.batch;
    AcceptArithmetic(n.cells.(count := n.cells.count - 1), m.record, m.y, n.w, n.t);
    hide Accept, Alarm, Low, Ordered, Carries, Spoken, Counted, Captured, Logged;
  }

  /** The node after a record, as the two effects above describe it. */
  predicate AfterRecord(n: Node, d: Node)
    requires 0 < Left(n) <= |n.batch|
  {
    var m := Due(n);
    && m.Stamped? && |n.cells.remote| == RING_SLOTS
    && d == n.(cells := d.cells, acknowledged := d.acknowledged, w := Max(n.w, m.y), alarms := d.alarms)
    && d.cells == n.cells.(count := n.cells.count - 1, remote := Store(n.cells.remote, m.record),
                           entry := n.cells.entry.(resync := d.cells.entry.resync), watermark := Low(d.w))
  }

  lemma RecordKeepsQueued(n: Node, d: Node, peer: Node, inbox: Link)
    requires Queued(n, peer, inbox) && 0 < Left(n) <= |n.batch| && AfterRecord(n, d)
    ensures Queued(d, peer, inbox)
  {
    assert Due(n) in n.batch;
    RestIsOlder(n, inbox);
    hide True, Ordered, Low, Store;
  }

  lemma RecordKeepsWatched(n: Node, d: Node, peer: Node, inbox: Link)
    requires Queued(n, peer, inbox) && Watched(n, peer) && 0 < Left(n) <= |n.batch| && AfterRecord(n, d)
    ensures Watched(d, peer)
  {
    assert Due(n) in n.batch;
    hide Ordered, Low, Store;
  }

  lemma RecordKeepsLink(g: Game, n: Node, peer: Node, inbox: Link, outbox: Link, o: Outcome)
    requires Shaped(n.cells) && NodeInv(g, n) && LinkInv(n, peer, inbox) && n.t >= 0 && n.cells.state == Consume
    requires -2 <= n.w - n.t <= 5 && n.cells.count > 0 && Due(n).Stamped?
    ensures var (d, inbox', outbox') := StepTransport(n, inbox, outbox, o);
            && inbox' == inbox && outbox' == outbox && LinkInv(d, peer, inbox) && AfterRecord(n, d)
            && (d.cells.entry.resync && !n.cells.entry.resync <==>
                Due(n).y - 2 == n.t && !n.cells.entry.resync && SampleOf(peer.log, n.t) != SampleOf(n.log, n.t))
  {
    hide StepTransport, Flat, Ordered, Accept, Alarm, Low, Store, FramesOf, NodeInv, Carries, Queued, Watched, Alarmed;
    DueIsThere(n, inbox);
    ConsumeEffect(n, inbox, outbox, o);
    AcceptEffect(g, n, peer, inbox);
    AcceptFrame(n.cells.(count := n.cells.count - 1), Due(n).record);
    var d := StepTransport(n, inbox, outbox, o).0;
    RecordKeepsQueued(n, d, peer, inbox);
    RecordKeepsWatched(n, d, peer, inbox);
    RecordKeepsAlarmed(g, n, d, peer, inbox);
    assert Reading(d, inbox);
  }

  lemma DueIsThere(n: Node, inbox: Link)
    requires Reading(n, inbox) && n.cells.state == Consume && n.cells.count > 0
    ensures 0 < Left(n) <= |n.batch|
  {
    hide Flat, FramesOf;
  }

  lemma RecordKeepsAlarmed(g: Game, n: Node, d: Node, peer: Node, inbox: Link)
    requires NodeInv(g, n)
    requires Queued(n, peer, inbox) && Alarmed(n, peer) && 0 < Left(n) <= |n.batch| && Due(n).Stamped?
    requires d.log == n.log && n.t >= 0
    requires d.alarms == n.alarms || (d.alarms == n.alarms + {n.t} && Due(n).y - 2 == n.t
                                      && SampleOf(peer.log, n.t) != SampleOf(n.log, n.t))
    ensures Alarmed(d, peer)
  {
    assert Due(n) in n.batch;
    hide Ordered, Captured, Simulated, Counted, Spoken;
  }

  /** The end of a batch and a departure move the cursor and the error byte only. */
  lemma QuietConsumeKeepsLink(n: Node, peer: Node, inbox: Link, outbox: Link, o: Outcome)
    requires Shaped(n.cells) && LinkInv(n, peer, inbox) && n.cells.state == Consume
    requires n.cells.count > 0 ==> Due(n).Gone?
    ensures var (d, inbox', outbox') := StepTransport(n, inbox, outbox, o);
            inbox' == inbox && outbox' == outbox && LinkInv(d, peer, inbox)
  {
    if n.cells.count == 0 {
      BatchEnds(n, inbox, outbox, o);
    } else {
      ConsumeEffect(n, inbox, outbox, o);
    }
    var d := StepTransport(n, inbox, outbox, o).0;
    hide StepTransport, True, Flat, Ordered, FramesOf, Carries, Queued, Watched, Alarmed;
    assert SameWatch(n, d) && Reading(d, inbox);
    SameWatchKeepsLink(n, d, peer, inbox);
  }

  lemma ConsumeKeepsLink(g: Game, n: Node, peer: Node, inbox: Link, outbox: Link, o: Outcome)
    requires Shaped(n.cells) && NodeInv(g, n) && LinkInv(n, peer, inbox) && n.t >= 0 && n.cells.state == Consume
    requires -2 <= n.w - n.t <= 5
    ensures var (d, inbox', outbox') := StepTransport(n, inbox, outbox, o);
            inbox' == inbox && outbox' == outbox && LinkInv(d, peer, inbox)
  {
    if n.cells.count > 0 && Due(n).Stamped? {
      RecordKeepsLink(g, n, peer, inbox, outbox, o);
    } else {
      QuietConsumeKeepsLink(n, peer, inbox, outbox, o);
    }
    hide *;
  }

  lemma BatchEnds(n: Node, inbox: Link, outbox: Link, o: Outcome)
    requires Shaped(n.cells) && Reading(n, inbox) && n.cells.state == Consume && n.cells.count == 0
    ensures var (d, inbox', outbox') := StepTransport(n, inbox, outbox, o);
            && inbox' == inbox && outbox' == outbox
            && d == n.(cells := n.cells.(state := WriteIssue), acknowledged := d.acknowledged)
  {
    hide Flat, FramesOf, Encode, Receive;
  }

  lemma AcceptFrame(c: Cells, r: Record)
    requires Shaped(c)
    ensures var d := Accept(c, r);
            d == c.(remote := Store(c.remote, r), entry := c.entry.(resync := c.entry.resync || Alarm(c, r)),
                    watermark := d.watermark)
  {}

  /** Everything before the due record in its batch is no newer; everything behind it no older. */
  lemma RestIsOlder(n: Node, inbox: Link)
    requires Ordered(n.batch + inbox.messages) && 0 < Left(n) <= |n.batch| && Due(n).Stamped?
    ensures forall i | 0 <= i < Left(n) - 1 && n.batch[i].Stamped? :: n.batch[i].y <= Due(n).y
    ensures forall m | m in inbox.messages && m.Stamped? :: Due(n).y <= m.y
  {
    var all := n.batch + inbox.messages;
    forall i | 0 <= i < Left(n) - 1 && n.batch[i].Stamped?
      ensures n.batch[i].y <= Due(n).y
    {
      assert all[i] == n.batch[i] && all[Left(n) - 1] == Due(n);
    }
    forall m | m in inbox.messages && m.Stamped?
      ensures Due(n).y <= m.y
    {
      var j :| 0 <= j < |inbox.messages| && inbox.messages[j] == m;
      assert all[|n.batch| + j] == m && all[Left(n) - 1] == Due(n);
    }
  }
}
