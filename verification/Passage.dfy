/** What passes through the relay, and how much of it. */
module Passage {
  import opened Bytes
  import opened Ordered
  import opened Framing
  import opened Verdict
  import opened Relay
  import opened Pairing
  import Wire

  // ---- a console's frames pass through unchanged ----

  /** A record as the relay cuts it out of a console's stream. */
  function PacketOf(f: Wire.Frame): Packet {
    Packet(f[1], f[2..])
  }

  function PacketsOf(fs: seq<Wire.Frame>): seq<Packet> {
    if fs == [] then [] else [PacketOf(fs[0])] + PacketsOf(fs[1..])
  }

  /** A stream of whole sixteen-byte frames is cut into exactly those frames. */
  lemma {:induction false} GameFramesAreCut(fs: seq<Wire.Frame>)
    requires forall i | 0 <= i < |fs| :: fs[i][0] == 15
    ensures Cut(Wire.Flat(fs)) == Cutting(PacketsOf(fs), [], false)
  {
    if fs != [] {
      var (f, more) := (fs[0], Wire.Flat(fs[1..]));
      GameFramesAreCut(fs[1..]);
      FrameIsPacket(f);
      FrontFrame(PacketOf(f), more);
      hide FrameBytes, Front, Behind, PacketOf;
    }
  }

  lemma FrameIsPacket(f: Wire.Frame)
    requires f[0] == 15
    ensures |PacketOf(f).payload| == GAME_PAYLOAD && FrameBytes(PacketOf(f)) == f
  {}

  lemma RecordIsPacket(r: Wire.Record)
    ensures var f := Wire.Encode(r);
            && |PacketOf(f).payload| == GAME_PAYLOAD && PacketOf(f).kind == INPUT && FrameBytes(PacketOf(f)) == f
            && PacketOf(f).payload[0] == r.tick && PacketOf(f).payload[CRC_AT] == r.crc
  {
    hide Wire.Xor, FromBits;
  }

  /** A record goes to the partner byte for byte, and the relay listens to exactly its tick and checksum. */
  lemma RecordPasses(r: Relay, c: Id, record: Wire.Record, luck: Luck, rules: Settings)
    requires Known(r) && c in r.conns && r.conns[c].partner.Some? && Digits(luck.digits)
    ensures var (s, p) := (Handle(r, c, PacketOf(Wire.Encode(record)), luck, rules), r.conns[c].partner.value);
            && s.conns.Keys == r.conns.Keys && s.conns[p].tx == r.conns[p].tx + Wire.Encode(record)
            && (forall o | o in r.conns && o != p :: s.conns[o].tx == r.conns[o].tx)
            && s.conns[c].ledger == Ruled(r.conns[c].ledger, Some(r.conns[p].ledger), record.tick, record.crc).0
            && Some(s.conns[p].ledger) == Ruled(r.conns[c].ledger, Some(r.conns[p].ledger), record.tick, record.crc).1
  {
    RecordIsPacket(record);
    RuledMovesClock(r.conns[c].ledger, r.conns[r.conns[c].partner.value].ledger, record.tick, record.crc);
    hide Wire.Encode, Ruled, FrameBytes;
  }

  /** The survivor's frame is the one its console knows. */
  lemma SurvivorIsTold()
    ensures PeerLeft() == Wire.PEER_LEFT
  {}

  // ---- how much is said ----

  /** All that is waiting to be sent to a set of connections. */
  ghost function Total(r: Relay, ids: set<Id>): nat
    requires ids <= r.conns.Keys
  {
    if ids == {} then 0
    else
      var o :| o in ids;
      |r.conns[o].tx| + Total(r, ids - {o})
  }

  lemma {:induction false} TotalWithout(r: Relay, ids: set<Id>, q: Id)
    requires ids <= r.conns.Keys && q in ids
    ensures Total(r, ids) == |r.conns[q].tx| + Total(r, ids - {q})
    decreases |ids|
  {
    var o :| o in ids && Total(r, ids) == |r.conns[o].tx| + Total(r, ids - {o});
    if o != q {
      TotalWithout(r, ids - {o}, q);
      TotalWithout(r, ids - {q}, o);
      assert ids - {o} - {q} == ids - {q} - {o};
    }
  }

  lemma {:induction false} TotalSame(r: Relay, s: Relay, ids: set<Id>)
    requires ids <= r.conns.Keys && ids <= s.conns.Keys && forall o | o in ids :: |s.conns[o].tx| == |r.conns[o].tx|
    ensures Total(s, ids) == Total(r, ids)
    decreases |ids|
  {
    if ids != {} {
      var o :| o in ids;
      TotalWithout(r, ids, o);
      TotalWithout(s, ids, o);
      TotalSame(r, s, ids - {o});
    }
  }

  /** If one of them alone is told more, all of them together are told no more than that. */
  lemma TotalGrows(r: Relay, s: Relay, ids: set<Id>, q: Id, n: nat)
    requires ids <= r.conns.Keys && ids <= s.conns.Keys
    requires forall o | o in ids && o != q :: |s.conns[o].tx| == |r.conns[o].tx|
    requires q in ids ==> |s.conns[q].tx| <= |r.conns[q].tx| + n
    ensures Total(s, ids) <= Total(r, ids) + n
  {
    if q in ids {
      TotalWithout(r, ids, q);
      TotalWithout(s, ids, q);
      TotalSame(r, s, ids - {q});
    } else {
      TotalSame(r, s, ids);
    }
  }

  /** What one frame makes the relay say: this much to its sender, and this much to all the others together. */
  ghost predicate Told(r: Relay, s: Relay, c: Id, own: nat, others: nat) {
    && c in r.conns && s.conns.Keys == r.conns.Keys
    && (forall o | o in r.conns :: r.conns[o].tx <= s.conns[o].tx && s.conns[o].rx == r.conns[o].rx)
    && |s.conns[c].tx| <= |r.conns[c].tx| + own
    && Total(s, r.conns.Keys - {c}) <= Total(r, r.conns.Keys - {c}) + others
  }

  /** A step that speaks to the sender and to one other. */
  lemma ToldOne(r: Relay, s: Relay, c: Id, q: Id, own: nat, others: nat)
    requires c in r.conns && s.conns.Keys == r.conns.Keys
    requires forall o | o in r.conns :: r.conns[o].tx <= s.conns[o].tx && s.conns[o].rx == r.conns[o].rx
    requires forall o | o in r.conns && o != c && o != q :: s.conns[o].tx == r.conns[o].tx
    requires |s.conns[c].tx| <= |r.conns[c].tx| + own
    requires q in r.conns && q != c ==> |s.conns[q].tx| <= |r.conns[q].tx| + others
    ensures Told(r, s, c, own, others)
  {
    TotalGrows(r, s, r.conns.Keys - {c}, q, others);
  }

  lemma ToldMore(a: Relay, b: Relay, d: Relay, c: Id, m: nat, n: nat, i: nat, j: nat)
    requires Told(a, b, c, m, n) && Told(b, d, c, i, j)
    ensures Told(a, d, c, m + i, n + j)
  {}

  lemma SayTold(r: Relay, c: Id, o: Id, bytes: seq<byte>, own: nat, others: nat)
    requires c in r.conns && o in r.conns && |bytes| <= if o == c then own else others
    ensures Told(r, Send(r, o, bytes), c, own, others)
  {
    ToldOne(r, Send(r, o, bytes), c, o, own, others);
  }

  lemma LogTold(r: Relay, c: Id, tick: byte, crc: byte)
    requires Known(r) && c in r.conns
    ensures Told(r, LogCrc(r, c, tick, crc), c, 0, 0)
  {
    hide Ruled, Told;
    ToldOne(r, LogCrc(r, c, tick, crc), c, c, 0, 0);
  }

  lemma TryPairTold(r: Relay, c: Id, seed: nat, rules: Settings)
    requires Known(r) && c in r.conns
    ensures Told(r, TryPair(r, c, seed, rules), c, 15, 15)
  {
    if Oldest(r, r.live, c).Some? {
      PairingTells(r, c, seed, rules);
      assert forall role, them: Name | |them| <= 8 :: |StartFrame(role, seed, rules, them)| == 15;
      hide Told, Pair, Oldest, StartFrame;
      ToldOne(r, TryPair(r, c, seed, rules), c, Oldest(r, r.live, c).value, 15, 15);
    } else {
      hide Told;
      ToldOne(r, r, c, c, 15, 15);
    }
  }

  lemma DropTold(r: Relay, c: Id)
    requires Known(r) && c in r.conns
    ensures Told(r, Drop(r, c), c, 0, 16)
  {
    assert |PeerLeft()| == 16;
    hide PeerLeft, IndexOf, Without, Told;
    ToldOne(r, Drop(r, c), c, if r.conns[c].partner.Some? then r.conns[c].partner.value else c, 0, 16);
  }

  lemma ToldLess(a: Relay, b: Relay, c: Id, m: nat, n: nat, i: nat, j: nat)
    requires Told(a, b, c, m, n) && m <= i && n <= j
    ensures Told(a, b, c, i, j)
  {}

  lemma GreetTold(r: Relay, c: Id, name: Name)
    requires Known(r) && c in r.conns && NameOk(name)
    ensures Told(r, Greet(r, c, name), c, 0, 0)
    ensures Known(Greet(r, c, name)) && c in Greet(r, c, name).conns
  {
    hide Told, Put;
    ToldOne(r, Greet(r, c, name), c, c, 0, 0);
  }

  lemma HelloTold(r: Relay, c: Id, payload: seq<byte>, luck: Luck, rules: Settings)
    requires Known(r) && c in r.conns && Digits(luck.digits)
    ensures Told(r, OnHello(r, c, payload, luck, rules), c, 15, 16) && Known(OnHello(r, c, payload, luck, rules))
  {
    hide Known, Drop, TryPair, FreeName, Greet, Asked, NameOk, Told;
    DropTold(r, c);
    ToldLess(r, Drop(r, c), c, 0, 16, 15, 16);
    var asked := Asked(payload);
    if asked.Some? {
      AskedIsOk(payload);
      FreeNameIsOk(r.names, asked.value, luck.digits);
      var free := FreeName(r.names, asked.value, luck.digits);
      if free.Some? {
        var named := Greet(r, c, free.value);
        GreetTold(r, c, free.value);
        TryPairTold(named, c, luck.seed, rules);
        TryPairKeeps(named, c, luck.seed, rules);
        ToldMore(r, named, TryPair(named, c, luck.seed, rules), c, 0, 0, 15, 15);
        ToldLess(r, TryPair(named, c, luck.seed, rules), c, 15, 15, 15, 16);
      }
    }
    DropKeepsKnown(r, c);
    hide SameNames;
  }

  lemma AskedIsOk(payload: seq<byte>)
    ensures Asked(payload).Some? ==> NameOk(Asked(payload).value)
  {}

  /** One frame of n bytes: at most 75 bytes back to its sender, and at most 8n to all the others together. */
  lemma HandleTold(r: Relay, c: Id, p: Packet, luck: Luck, rules: Settings)
    requires Known(r) && c in r.conns && |p.payload| < LONGEST && Digits(luck.digits)
    ensures Told(r, Handle(r, c, p, luck, rules), c, 75, 8 * (|p.payload| + 2))
    ensures Known(Handle(r, c, p, luck, rules))
  {
    hide Known, Forward, OnHello, TryPair, Drop, Send, SameNames, Told, LobbyFrame;
    ToldSelf(r, c);
    if Relayed(p.kind) {
      ForwardTold(r, c, p);
      ToldLess(r, Forward(r, c, p), c, 0, 8 * (|p.payload| + 2), 75, 8 * (|p.payload| + 2));
    } else if p.kind == HELLO {
      HelloTold(r, c, p.payload, luck, rules);
      ToldLess(r, OnHello(r, c, p.payload, luck, rules), c, 15, 16, 75, 8 * (|p.payload| + 2));
    } else if p.kind == LIST {
      LobbyFits(r);
      SayTold(r, c, c, LobbyFrame(r), 75, 8 * (|p.payload| + 2));
      SendKeeps(r, c, LobbyFrame(r));
    } else if p.kind == JOIN {
      TryPairTold(r, c, luck.seed, rules);
      ToldLess(r, TryPair(r, c, luck.seed, rules), c, 15, 15, 75, 8 * (|p.payload| + 2));
      TryPairKeeps(r, c, luck.seed, rules);
    } else if p.kind == PING {
      SayTold(r, c, c, FrameBytes(Packet(PONG, [])), 75, 8 * (|p.payload| + 2));
      SendKeeps(r, c, FrameBytes(Packet(PONG, [])));
    } else if p.kind == BYE {
      DropTold(r, c);
      ToldLess(r, Drop(r, c), c, 0, 16, 75, 8 * (|p.payload| + 2));
      DropKeepsKnown(r, c);
    } else {
      ToldLess(r, r, c, 0, 0, 75, 8 * (|p.payload| + 2));
    }
  }

  lemma ToldSelf(r: Relay, c: Id)
    requires c in r.conns
    ensures Told(r, r, c, 0, 0)
  {}

  /** A lobby answer is at most 75 bytes: the header and eight rows of nine. */
  lemma LobbyFits(r: Relay)
    requires Known(r)
    ensures |LobbyFrame(r)| <= 75
  {}

  lemma ForwardTold(r: Relay, c: Id, p: Packet)
    requires Known(r) && c in r.conns && |p.payload| < LONGEST
    ensures Told(r, Forward(r, c, p), c, 0, 8 * (|p.payload| + 2)) && Known(Forward(r, c, p))
  {
    assert r.conns[c].partner.Some? ==> r.conns[c].partner.value in r.conns;
    hide LogCrc, Send, Known, SameNames, FrameBytes, Padded, Told;
    ForwardKeeps(r, c, p);
    var most := 8 * (|p.payload| + 2);
    if r.conns[c].partner.Some? {
      var (q, bytes) := (r.conns[c].partner.value, FrameBytes(Packet(p.kind, Padded(p.payload, GAME_PAYLOAD))));
      SendKeeps(r, q, bytes);
      FrameIsShort(p);
      SayTold(r, c, q, bytes, 0, most);
      ListenTold(r, Send(r, q, bytes), c, p, most);
    } else {
      ToldSelf(r, c);
      ToldLess(r, r, c, 0, 0, 0, most);
      ListenTold(r, r, c, p, most);
    }
  }

  /** Listening to what was passed on tells nobody anything more. */
  lemma ListenTold(r: Relay, sent: Relay, c: Id, p: Packet, most: nat)
    requires Told(r, sent, c, 0, most) && Known(sent)
    ensures c in sent.conns
    ensures Told(r, if p.kind == INPUT && |p.payload| > CRC_AT then LogCrc(sent, c, p.payload[0], p.payload[CRC_AT]) else sent,
                 c, 0, most)
  {
    ToldHas(r, sent, c, 0, most);
    hide LogCrc, Known, Told;
    if p.kind == INPUT && |p.payload| > CRC_AT {
      LogTold(sent, c, p.payload[0], p.payload[CRC_AT]);
      ToldMore(r, sent, LogCrc(sent, c, p.payload[0], p.payload[CRC_AT]), c, 0, most, 0, 0);
    }
  }

  lemma FrameIsShort(p: Packet)
    requires |p.payload| < LONGEST
    ensures |FrameBytes(Packet(p.kind, Padded(p.payload, GAME_PAYLOAD)))| <= 8 * (|p.payload| + 2)
  {}

  lemma ToldHas(r: Relay, s: Relay, c: Id, own: nat, others: nat)
    requires Told(r, s, c, own, others)
    ensures c in s.conns
  {}

  // ---- one chunk ----

  function Heard(r: Relay, c: Id, rx: seq<byte>): Relay
    requires c in r.conns
  {
    r.(conns := r.conns[c := r.conns[c].(rx := rx)])
  }

  lemma HeardKeeps(r: Relay, c: Id, rx: seq<byte>)
    requires Known(r) && c in r.conns
    ensures Known(Heard(r, c, rx)) && c in Heard(r, c, rx).conns && Heard(r, c, rx).conns[c].rx == rx
  {}

  function Blamed(r: Relay): Relay {
    r.(stats := r.stats.(badFrames := r.stats.badFrames + 1))
  }

  /** The relay's frame loop: it goes on through what is buffered even when a frame has dropped its sender. */
  function Serve(r: Relay, c: Id, luck: nat -> Luck, k: nat, rules: Settings): (s: Relay)
    requires Known(r) && c in r.conns && forall i: nat :: Digits(luck(i).digits)
    ensures Known(s) && s.conns.Keys == r.conns.Keys
    decreases |r.conns[c].rx|
  {
    var rx := r.conns[c].rx;
    if Ready(rx) then
      HeardKeeps(r, c, Behind(rx));
      HandleTold(Heard(r, c, Behind(rx)), c, Front(rx), luck(k), rules);
      Serve(Handle(Heard(r, c, Behind(rx)), c, Front(rx), luck(k), rules), c, luck, k + 1, rules)
    else if Malformed(rx) then
      DropKeepsKnown(Blamed(r), c);
      Drop(Blamed(r), c)
    else r
  }

  lemma ServeStep(r: Relay, c: Id, luck: nat -> Luck, k: nat, rules: Settings)
    requires Known(r) && c in r.conns && Ready(r.conns[c].rx) && forall i: nat :: Digits(luck(i).digits)
    ensures var h := Heard(r, c, Behind(r.conns[c].rx));
            && Known(h) && c in h.conns && |Front(r.conns[c].rx).payload| < LONGEST
            && var s := Handle(h, c, Front(r.conns[c].rx), luck(k), rules);
               Known(s) && c in s.conns && Serve(r, c, luck, k, rules) == Serve(s, c, luck, k + 1, rules)
  {
    hide Known, Heard, Handle, Told;
    HeardKeeps(r, c, Behind(r.conns[c].rx));
    HandleTold(Heard(r, c, Behind(r.conns[c].rx)), c, Front(r.conns[c].rx), luck(k), rules);
    HandleKeepsEars(Heard(r, c, Behind(r.conns[c].rx)), c, Front(r.conns[c].rx), luck(k), rules);
  }

  /** What n buffered bytes can make the relay say: 75 bytes for every two to their sender, */
  function OwnMost(n: nat): nat {
    75 * (n / 2)
  }

  /** and eight for each, and sixteen more, to all the others together. */
  function OthersMost(n: nat): nat {
    8 * n + 16
  }

  /** What a chunk can make the relay say: this much to its sender, and this much to all the others together. */
  ghost predicate Grew(r: Relay, s: Relay, c: Id, own: nat, others: nat) {
    && c in r.conns && s.conns.Keys == r.conns.Keys
    && (forall o | o in r.conns :: r.conns[o].tx <= s.conns[o].tx)
    && |s.conns[c].tx| <= |r.conns[c].tx| + own
    && Total(s, r.conns.Keys - {c}) <= Total(r, r.conns.Keys - {c}) + others
  }

  lemma GrewMore(r: Relay, h: Relay, a: Relay, s: Relay, c: Id, rx: seq<byte>, m: nat, n: nat, i: nat, j: nat)
    requires c in r.conns && h == Heard(r, c, rx) && Told(h, a, c, m, n) && Grew(a, s, c, i, j)
    ensures Grew(r, s, c, m + i, n + j)
  {
    assert forall o | o in r.conns :: h.conns[o].tx == r.conns[o].tx;
    assert h.conns.Keys == r.conns.Keys;
    TotalSame(r, h, r.conns.Keys - {c});
  }

  /**
   * Buffer arithmetic: handling what is buffered says at most 75 bytes for every two of it to its sender, and at
   * most eight for each and sixteen more to all the others together.
   */
  lemma {:induction false} ServeGrows(r: Relay, c: Id, luck: nat -> Luck, k: nat, rules: Settings)
    requires Known(r) && c in r.conns && forall i: nat :: Digits(luck(i).digits)
    ensures Grew(r, Serve(r, c, luck, k, rules), c, OwnMost(|r.conns[c].rx|), OthersMost(|r.conns[c].rx|))
    decreases |r.conns[c].rx|
  {
    hide Known, Handle, Told, Grew, Heard, Drop, Blamed, Cut, OwnMost;
    var rx := r.conns[c].rx;
    if Ready(rx) {
      FrontLength(rx);
      var (h, p, n) := (Heard(r, c, Behind(rx)), Front(rx), |Behind(rx)|);
      HeardKeeps(r, c, Behind(rx));
      HandleTold(h, c, p, luck(k), rules);
      HandleKeepsEars(h, c, p, luck(k), rules);
      var a := Handle(h, c, p, luck(k), rules);
      ServeGrows(a, c, luck, k + 1, rules);
      var s := Serve(a, c, luck, k + 1, rules);
      hide Serve, Front, Behind;
      var m := 8 * (|p.payload| + 2);
      GrewMore(r, h, a, s, c, Behind(rx), 75, m, OwnMost(n), OthersMost(n));
      MostGrows(n, |p.payload| + 2, |rx|);
      GrewLess(r, s, c, 75 + OwnMost(n), m + OthersMost(n), OwnMost(|rx|), OthersMost(|rx|));
    } else {
      if Malformed(rx) {
        BlamedIsKnown(r);
        DropTold(Blamed(r), c);
        GrewFrom(r, Drop(Blamed(r), c), c, OwnMost(|rx|), OthersMost(|rx|));
      } else {
        GrewSelf(r, c, OwnMost(|rx|), OthersMost(|rx|));
      }
    }
  }

  lemma FrontLength(rx: seq<byte>)
    requires Ready(rx)
    ensures |rx| == |Behind(rx)| + |Front(rx).payload| + 2 && |Front(rx).payload| < LONGEST
  {}

  lemma BlamedIsKnown(r: Relay)
    requires Known(r)
    ensures Known(Blamed(r)) && Blamed(r).conns == r.conns && Blamed(r).live == r.live
  {}

  lemma GrewSelf(r: Relay, c: Id, own: nat, others: nat)
    requires c in r.conns
    ensures Grew(r, r, c, own, others)
  {}

  lemma MostGrows(n: nat, length: nat, m: nat)
    requires length >= 2 && m == n + length
    ensures 75 + OwnMost(n) <= OwnMost(m) && 8 * length + OthersMost(n) <= OthersMost(m)
  {
    assert n / 2 + 1 <= m / 2;
  }

  lemma GrewFrom(r: Relay, s: Relay, c: Id, own: nat, others: nat)
    requires Told(Blamed(r), s, c, 0, 16) && others >= 16
    ensures Grew(r, s, c, own, others)
  {
    TotalSame(r, Blamed(r), r.conns.Keys - {c});
  }

  lemma HandleKeepsEars(r: Relay, c: Id, p: Packet, luck: Luck, rules: Settings)
    requires Known(r) && c in r.conns && |p.payload| < LONGEST && Digits(luck.digits)
    ensures Handle(r, c, p, luck, rules).conns.Keys == r.conns.Keys
    ensures Handle(r, c, p, luck, rules).conns[c].rx == r.conns[c].rx
  {
    HandleTold(r, c, p, luck, rules);
    hide Handle, Known;
  }

  /** It leaves what the stream's cutting leaves: a partial frame of at most 200 bytes, or a dropped connection. */
  lemma {:induction false} ServeLeaves(r: Relay, c: Id, luck: nat -> Luck, k: nat, rules: Settings)
    requires Known(r) && c in r.conns && forall i: nat :: Digits(luck(i).digits)
    ensures var (s, rx) := (Serve(r, c, luck, k, rules), r.conns[c].rx);
            && s.conns[c].rx == Cut(rx).rest
            && (if Cut(rx).bad then c !in s.live else |s.conns[c].rx| <= LONGEST)
    decreases |r.conns[c].rx|
  {
    hide Known, Handle, Heard, Told, Drop, Blamed;
    var rx := r.conns[c].rx;
    RestIsShort(rx);
    if Ready(rx) {
      FrontLength(rx);
      var (h, p) := (Heard(r, c, Behind(rx)), Front(rx));
      HeardKeeps(r, c, Behind(rx));
      HandleTold(h, c, p, luck(k), rules);
      HandleKeepsEars(h, c, p, luck(k), rules);
      ServeLeaves(Handle(h, c, p, luck(k), rules), c, luck, k + 1, rules);
    } else if Malformed(rx) {
      BlamedIsKnown(r);
      DropLeaves(Blamed(r), c);
    }
  }

  lemma DropLeaves(r: Relay, c: Id)
    requires Known(r) && c in r.conns
    ensures var d := Drop(r, c); c !in d.live && c in d.conns && d.conns[c].rx == r.conns[c].rx
  {
    hide Known, Drop, Told;
    DropTold(r, c);
    DropKeepsKnown(r, c);
    ToldEars(r, Drop(r, c), c, 0, 16);
  }

  lemma ToldEars(r: Relay, s: Relay, c: Id, own: nat, others: nat)
    requires Told(r, s, c, own, others)
    ensures c in s.conns && s.conns[c].rx == r.conns[c].rx
  {}

  lemma GrewLess(a: Relay, b: Relay, c: Id, m: nat, n: nat, i: nat, j: nat)
    requires Grew(a, b, c, m, n) && m <= i && n <= j
    ensures Grew(a, b, c, i, j)
  {}

  const CHUNK := 4096
  const RX_CAPACITY := 4352
  const TX_CAPACITY := 262144

  /** So a chunk always fits the receive buffer, and what it provokes the sender's own transmit buffer. */
  lemma BuffersSuffice(r: Relay, c: Id, data: seq<byte>, luck: nat -> Luck, rules: Settings)
    requires Known(r) && c in r.conns && forall i: nat :: Digits(luck(i).digits)
    requires |data| <= CHUNK && |r.conns[c].rx| <= LONGEST && |r.conns[c].tx| <= TX_BACKLOG
    ensures |r.conns[c].rx + data| <= RX_CAPACITY
    ensures var h := Heard(r, c, r.conns[c].rx + data);
            Known(h) && c in h.conns && |Serve(h, c, luck, 0, rules).conns[c].tx| <= TX_CAPACITY
  {
    HeardKeeps(r, c, r.conns[c].rx + data);
    var h := Heard(r, c, r.conns[c].rx + data);
    ServeGrows(h, c, luck, 0, rules);
    hide Serve, Known;
  }

  // ---- what the port's buffers can hold ----

  /** Nobody has more waiting than a transmit buffer holds. */
  ghost predicate Contained(r: Relay) {
    forall c | c in r.conns :: |r.conns[c].tx| <= TX_CAPACITY
  }

  lemma DropTells(r: Relay, c: Id)
    requires Known(r) && c in r.live && c in r.conns && r.conns[c].partner.Some?
    ensures var p := r.conns[c].partner.value;
            p in r.conns && p in Drop(r, c).conns && |Drop(r, c).conns[p].tx| == |r.conns[p].tx| + 16
  {
    assert |PeerLeft()| == 16;
    hide PeerLeft, IndexOf, Without;
  }

  lemma ForwardTells(r: Relay, c: Id, p: Packet)
    requires Known(r) && c in r.conns && |p.payload| < LONGEST && r.conns[c].partner.Some?
    ensures var (q, bytes) := (r.conns[c].partner.value, FrameBytes(Packet(p.kind, Padded(p.payload, GAME_PAYLOAD))));
            && q in r.conns && q in Forward(r, c, p).conns
            && |Forward(r, c, p).conns[q].tx| == |r.conns[q].tx| + |bytes|
  {
    var (q, bytes) := (r.conns[c].partner.value, FrameBytes(Packet(p.kind, Padded(p.payload, GAME_PAYLOAD))));
    SendKeeps(r, q, bytes);
    hide Known, FrameBytes, Padded, SameNames, LogCrc;
    if p.kind == INPUT && |p.payload| > CRC_AT {
      LogTellsNobody(Send(r, q, bytes), c, p.payload[0], p.payload[CRC_AT]);
    }
  }

  lemma LogTellsNobody(r: Relay, c: Id, tick: byte, crc: byte)
    requires Known(r) && c in r.conns
    ensures LogCrc(r, c, tick, crc).conns.Keys == r.conns.Keys
    ensures forall o | o in r.conns :: LogCrc(r, c, tick, crc).conns[o].tx == r.conns[o].tx
  {
    hide Ruled;
  }
}
