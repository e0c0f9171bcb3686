/** The relay as a server object: its clients, their buffers and its dictionaries, updated call by call. */
module Server {
  import opened Bytes
  import opened Ordered
  import opened Framing
  import opened Verdict
  import opened Relay
  import Spec = Relay
  import opened Pairing
  import opened Passage

  lemma LiveIsKnown(r: Relay, k: nat)
    requires Known(r) && k < |r.live|
    ensures r.live[k] in r.conns && |r.conns[r.live[k]].name| <= 8
  {}

  lemma AllShown(r: Relay, n: nat, rows: seq<byte>)
    requires Shows(r, |r.live|, n, rows) && n <= LOBBY_MOST
    ensures Known(r) && |rows| == 9 * n && FrameBytes(Packet(LOBBY, [n as byte] + rows)) == LobbyFrame(r)
  {
    assert r.live[..|r.live|] == r.live;
    hide Named, Rows;
  }

  lemma NotYetLive(r: Relay, c: Id)
    requires Known(r) && c !in r.conns
    ensures c !in r.live
  {}

  lemma ArriveKeepsKnown(r: Relay, c: Id, addr: nat, born: int)
    requires Known(r) && c !in r.conns
    ensures Known(Accept(r, c, addr, born))
  {
    hide FromAddress;
  }

  class RelayServer {
    var conns: map<Id, Conn>
    var live: seq<Id>
    var names: seq<Entry<Name, Id>>
    var stats: Stats
    const rules: Settings

    /** The relay this object is. */
    function Snapshot(): Relay
      reads this
    {
      Relay(conns, live, names, stats)
    }

    ghost predicate Valid()
      reads this
    {
      Known(Snapshot())
    }

    constructor (delay: byte, variation: byte)
      ensures Valid() && Snapshot() == EMPTY
    {
      conns, live, names, stats := map[], [], [], Stats(0, 0, 0, 0, 0, 0);
      rules := Settings(delay, variation);
    }

    /** A new connection, unless there are sixty-four already or eight from its address. */
    method AcceptClient(c: Id, addr: nat, born: int) returns (taken: bool)
      requires Valid() && c !in conns
      modifies this
      ensures Valid() && Snapshot() == Accept(old(Snapshot()), c, addr, born)
      ensures taken <==> c in live
    {
      ghost var r := Snapshot();
      NotYetLive(r, c);
      ArriveKeepsKnown(r, c, addr, born);
      if |live| >= MOST_CLIENTS {
        return false;
      }
      var same, k := 0, 0;
      while k < |live|
        invariant k <= |live|
        invariant forall i | 0 <= i < k :: live[..k][i] in conns
        invariant same == FromAddress(r, live[..k], addr)
        modifies {}
      {
        assert live[..k + 1][..k] == live[..k] && live[..k + 1][k] == live[k];
        if conns[live[k]].addr == addr {
          same := same + 1;
        }
        k := k + 1;
      }
      assert live[..k] == live;
      if same >= MOST_PER_ADDRESS {
        stats := stats.(ipRejects := stats.ipRejects + 1);
        return false;
      }
      conns := conns[c := Conn(addr, [], [], [], None, -1, born, FRESH)];
      live := live + [c];
      taken := true;
      assert live[|live| - 1] == c;
      hide Known, FromAddress;
    }

    /** One send, and the backlog checked on what is left. */
    method FlushClient(c: Id, sent: nat)
      requires Valid() && c in conns && sent <= |conns[c].tx|
      modifies this
      ensures Valid() && Snapshot() == Flush(old(Snapshot()), c, sent)
    {
      DrainedIsKnown(Snapshot(), c, sent);
      hide Known, Spec.Drop;
      conns := conns[c := conns[c].(tx := conns[c].tx[sent..])];
      if |conns[c].tx| > TX_BACKLOG {
        stats := stats.(txDrops := stats.txDrops + 1);
        Drop(c);
      }
    }

    method Say(c: Id, bytes: seq<byte>)
      requires Valid() && c in conns
      modifies this
      ensures Valid() && Snapshot() == Send(old(Snapshot()), c, bytes)
    {
      conns := conns[c := conns[c].(tx := conns[c].tx + bytes)];
    }

    /** What has arrived, then frame by frame until what is left is partial or malformed. */
    method Service(c: Id, data: seq<byte>, luck: nat -> Luck)
      requires Valid() && c in conns && forall n: nat :: Digits(luck(n).digits)
      modifies this
      ensures Valid() && c in old(conns)
      ensures Known(Heard(old(Snapshot()), c, old(conns)[c].rx + data))
      ensures Snapshot() == Serve(Heard(old(Snapshot()), c, old(conns)[c].rx + data), c, luck, 0, rules)
    {
      HeardKeeps(Snapshot(), c, conns[c].rx + data);
      hide Known, Serve;
      Buffer(c, conns[c].rx + data);
      ServeBuffered(c, luck);
    }

    method Buffer(c: Id, rx: seq<byte>)
      requires Valid() && c in conns
      modifies this
      ensures Valid() && Snapshot() == Heard(old(Snapshot()), c, rx) && c in conns && conns[c].rx == rx
    {
      HeardKeeps(Snapshot(), c, rx);
      hide Known;
      conns := conns[c := conns[c].(rx := rx)];
    }

    method ServeBuffered(c: Id, luck: nat -> Luck)
      requires Valid() && c in conns && forall n: nat :: Digits(luck(n).digits)
      modifies this
      ensures Valid() && Snapshot() == Serve(old(Snapshot()), c, luck, 0, rules)
    {
      ghost var r := Snapshot();
      var k := 0;
      while Ready(conns[c].rx)
        invariant Valid() && c in conns
        invariant Serve(Snapshot(), c, luck, k, rules) == Serve(r, c, luck, 0, rules)
        decreases |conns[c].rx|
      {
        var rx := conns[c].rx;
        ServeStep(Snapshot(), c, luck, k, rules);
        hide Known, Serve, Spec.Handle, Heard;
        Buffer(c, Behind(rx));
        Handle(c, Front(rx), luck(k));
        k := k + 1;
      }
      hide Known;
      ServeRest(c, luck, k);
    }

    /** A malformed length ends the connection; a partial frame waits. */
    method ServeRest(c: Id, luck: nat -> Luck, ghost k: nat)
      requires Valid() && c in conns && !Ready(conns[c].rx) && forall n: nat :: Digits(luck(n).digits)
      modifies this
      ensures Valid() && Snapshot() == Serve(old(Snapshot()), c, luck, k, rules)
    {
      BlamedIsKnown(Snapshot());
      hide Known, Spec.Drop, Heard, Spec.Handle;
      if Malformed(conns[c].rx) {
        stats := stats.(badFrames := stats.badFrames + 1);
        Drop(c);
      }
    }

    method Handle(c: Id, p: Packet, luck: Luck)
      requires Valid() && c in conns && |p.payload| < LONGEST && Digits(luck.digits)
      modifies this
      ensures Valid() && Snapshot() == Spec.Handle(old(Snapshot()), c, p, luck, rules)
      ensures c in conns && conns[c].rx == old(conns)[c].rx
    {
      HandleTold(Snapshot(), c, p, luck, rules);
      HandleKeepsEars(Snapshot(), c, p, luck, rules);
      hide Known, Told;
      if Relayed(p.kind) {
        Pass(c, p);
      } else if p.kind == HELLO {
        OnHello(c, p.payload, luck);
      } else if p.kind == LIST {
        SendLobby(c);
      } else if p.kind == JOIN {
        TryPair(c, luck.seed);
      } else if p.kind == PING {
        Say(c, FrameBytes(Packet(PONG, [])));
      } else if p.kind == BYE {
        Drop(c);
      }
    }

    method Pass(c: Id, p: Packet)
      requires Valid() && c in conns && |p.payload| < LONGEST
      modifies this
      ensures Valid() && Snapshot() == Forward(old(Snapshot()), c, p)
    {
      if conns[c].partner.Some? {
        Say(conns[c].partner.value, FrameBytes(Packet(p.kind, Padded(p.payload, GAME_PAYLOAD))));
      }
      if p.kind == INPUT && |p.payload| > CRC_AT {
        LogCrc(c, p.payload[0], p.payload[CRC_AT]);
      }
    }

    method OnHello(c: Id, payload: seq<byte>, luck: Luck)
      requires Valid() && c in conns && Digits(luck.digits)
      modifies this
      ensures Valid() && Snapshot() == Spec.OnHello(old(Snapshot()), c, payload, luck, rules)
    {
      var asked := Asked(payload);
      if asked.None? {
        Drop(c);
        return;
      }
      AskedIsOk(payload);
      FreeNameIsOk(names, asked.value, luck.digits);
      var name, k := asked.value, 0;
      while Has(names, name) && k < |luck.digits|
        invariant k <= |luck.digits| && Digits(luck.digits[k..])
        invariant FreeName(names, name, luck.digits[k..]) == FreeName(names, asked.value, luck.digits)
        modifies {}
      {
        assert luck.digits[k..][0] == luck.digits[k] && luck.digits[k..][1..] == luck.digits[k + 1..];
        name := Renamed(name, luck.digits[k]);
        k := k + 1;
      }
      if Has(names, name) {
        Drop(c);
        return;
      }
      GreetTold(Snapshot(), c, name);
      conns := conns[c := conns[c].(name := name)];
      names := Put(names, name, c);
      TryPair(c, luck.seed);
    }

    /** The oldest of those waiting becomes the host, and the newcomer the guest. */
    method TryPair(c: Id, seed: nat)
      requires Valid() && c in conns
      modifies this
      ensures Valid() && Snapshot() == Spec.TryPair(old(Snapshot()), c, seed, rules)
    {
      TryPairKeeps(Snapshot(), c, seed, rules);
      var other: Option<Id> := None;
      var k := 0;
      while k < |live|
        invariant k <= |live| && Known(Snapshot())
        invariant forall i | 0 <= i < k :: live[..k][i] in conns
        invariant other == Oldest(Snapshot(), live[..k], c)
        modifies {}
      {
        var o := live[k];
        assert live[..k + 1][..k] == live[..k] && live[..k + 1][k] == o;
        if o != c && conns[o].name != [] && conns[o].partner.None?
           && (other.None? || conns[o].born < conns[other.value].born) {
          other := Some(o);
        }
        k := k + 1;
      }
      assert live[..k] == live;
      hide Oldest, Waiting, Known;
      if other.Some? {
        Match(other.value, c, seed);
      }
    }

    /** Each is told its role, the seed, and the other's name. */
    method Match(host: Id, c: Id, seed: nat)
      requires host in conns && c in conns && host != c && |conns[host].name| <= 8 && |conns[c].name| <= 8
      modifies this
      ensures Snapshot() == Pair(old(Snapshot()), host, c, seed, rules)
    {
      var (h, g) := (conns[host], conns[c]);
      conns := conns[host := h.(partner := Some(c), role := 0, ledger := h.ledger.(crc := []),
                                tx := h.tx + StartFrame(0, seed, rules, g.name))];
      conns := conns[c := g.(partner := Some(host), role := 1, ledger := g.ledger.(crc := []),
                             tx := g.tx + StartFrame(1, seed, rules, h.name))];
      stats := stats.(matches := stats.matches + 1);
      hide StartFrame;
    }

    /** The oldest go first, until eight are left. */
    method Evict(all: seq<Entry<nat, byte>>) returns (sums: seq<Entry<nat, byte>>)
      ensures sums == Newest(all, KEPT)
    {
      sums := all;
      while |sums| > KEPT
        invariant |sums| <= |all| && (if |all| > KEPT then |sums| >= KEPT else sums == all)
        invariant sums == all[|all| - |sums|..]
      {
        sums := sums[1..];
      }
    }

    /** Pairs the two consoles' checksums, and forgets the oldest that have not paired. */
    method LogCrc(c: Id, tick: byte, crc: byte)
      requires Valid() && c in conns
      modifies this
      ensures Valid() && Snapshot() == Spec.LogCrc(old(Snapshot()), c, tick, crc)
    {
      LogKeeps(Snapshot(), c, tick, crc);
      LogSteps(Snapshot(), c, tick, crc);
      var (me, p) := (conns[c].ledger, conns[c].partner);
      hide Known, Clocked, Put, Pop, IndexOf, Newest, SameNames, Spec.LogCrc, Ledgered;
      var clocked := Clocked(me, tick);
      var key := KeyOf(clocked);
      var noted := clocked.(crc := Put(clocked.crc, key, crc));
      if p.None? || !Has(conns[p.value].ledger.crc, key) {
        var kept := Evict(noted.crc);
        Keep(c, noted.(crc := kept));
        return;
      }
      var theirs := conns[p.value].ledger;
      Keep(c, noted);
      Keep(p.value, theirs.(crc := Pop(theirs.crc, key)));
      if Get(theirs.crc, key) != crc {
        stats := stats.(crcBad := stats.crcBad + 1);
      } else {
        stats := stats.(crcOk := stats.crcOk + 1);
      }
    }

    method Keep(c: Id, l: Ledger)
      requires c in conns
      modifies this
      ensures Snapshot() == Ledgered(old(Snapshot()), c, l) && conns.Keys == old(conns).Keys && stats == old(stats)
    {
      conns := conns[c := conns[c].(ledger := l)];
    }

    method SendLobby(c: Id)
      requires Valid() && c in conns
      modifies this
      ensures Valid() && Snapshot() == Send(old(Snapshot()), c, LobbyFrame(old(Snapshot())))
    {
      var n, rows := LobbyRows();
      AllShown(Snapshot(), n, rows);
      hide Known, Shows;
      Say(c, FrameBytes(Packet(LOBBY, [n as byte] + rows)));
    }

    method LobbyRows() returns (n: nat, rows: seq<byte>)
      requires Valid()
      ensures n <= LOBBY_MOST && Shows(Snapshot(), |live|, n, rows)
    {
      var k := 0;
      n, rows := 0, [];
      NoRows(Snapshot());
      while k < |live|
        invariant k <= |live| && n <= LOBBY_MOST && Shows(Snapshot(), k, n, rows)
        modifies {}
      {
        LiveIsKnown(Snapshot(), k);
        hide Known, Shows, Row;
        var o := conns[live[k]];
        ShowsOneMore(Snapshot(), k, k + 1, n, rows);
        if o.name != [] && n < LOBBY_MOST {
          n, rows := n + 1, rows + Row(o.name, o.partner.Some?);
        }
        k := k + 1;
      }
    }

    /** The survivor is told; the dropped client's own link is left standing. */
    method Drop(c: Id)
      requires Valid() && c in conns
      modifies this
      ensures Valid() && Snapshot() == Spec.Drop(old(Snapshot()), c)
    {
      DropKeepsKnown(Snapshot(), c);
      if c !in live {
        return;
      }
      var me := conns[c];
      if me.name != [] && Has(names, me.name) && Get(names, me.name) == c {
        names := Pop(names, me.name);
      }
      if me.partner.Some? {
        var p := me.partner.value;
        conns := conns[p := conns[p].(partner := None)];
        conns := conns[p := conns[p].(tx := conns[p].tx + PeerLeft())];
      }
      live := Without(live, c);
      hide Known, PeerLeft, Without, IndexOf;
    }
  }
}
