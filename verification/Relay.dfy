/** The relay: who is connected, who plays whom, and what is said to each. */
module Relay {
  import opened Bytes
  import opened Ordered
  import opened Framing
  import opened Verdict

  const HELLO: byte := 0x01
  const LIST: byte := 0x02
  const LOBBY: byte := 0x03
  const JOIN: byte := 0x04
  const START: byte := 0x05
  const INPUT: byte := 0x06
  const CRC: byte := 0x07
  const STATE: byte := 0x08
  const RESYNC: byte := 0x09
  const BYE: byte := 0x0A
  const LEFT: byte := 0x0B
  const PING: byte := 0x0C
  const PONG: byte := 0x0D

  const PROTOCOL: byte := 3
  const GAME_PAYLOAD: nat := 14
  const CRC_AT: nat := 10
  const LOBBY_MOST: nat := 8
  const MOST_CLIENTS: nat := 64
  const MOST_PER_ADDRESS: nat := 8
  const TX_BACKLOG := 65536

  /** A connection, for as long as anything can still speak of it. */
  type Id = nat

  /** A name as its bytes; empty until HELLO. */
  type Name = seq<byte>

  datatype Conn = Conn(
    addr: nat, rx: seq<byte>, tx: seq<byte>, name: Name, partner: Option<Id>, role: int, born: int, ledger: Ledger)

  datatype Stats = Stats(matches: nat, crcOk: nat, crcBad: nat, badFrames: nat, txDrops: nat, ipRejects: nat)

  /** Connections by id, the live ones in the order they were accepted, and the names taken. */
  datatype Relay = Relay(conns: map<Id, Conn>, live: seq<Id>, names: seq<Entry<Name, Id>>, stats: Stats)

  /** What is drawn at random, and what the operator chose. */
  datatype Luck = Luck(seed: nat, digits: seq<byte>)
  datatype Settings = Settings(delay: byte, variation: byte)

  predicate NoRepeats(ids: seq<Id>) {
    forall i, j | 0 <= i < j < |ids| :: ids[i] != ids[j]
  }

  /** Everything spoken of is known. */
  ghost predicate Known(r: Relay) {
    && (forall i | 0 <= i < |r.live| :: r.live[i] in r.conns)
    && NoRepeats(r.live)
    && (forall c | c in r.conns && r.conns[c].partner.Some? ::
          r.conns[c].partner.value in r.conns && r.conns[c].partner.value != c)
    && (forall c | c in r.conns :: |r.conns[c].name| <= 8)
  }

  // ---- saying ----

  function Send(r: Relay, c: Id, bytes: seq<byte>): Relay
    requires c in r.conns
  {
    r.(conns := r.conns[c := r.conns[c].(tx := r.conns[c].tx + bytes)])
  }

  /** Zeros up to a length: padded, never cut. */
  function Padded(s: seq<byte>, n: nat): (p: seq<byte>)
    ensures |p| == if |s| < n then n else |s|
    ensures s <= p
  {
    if |s| < n then s + seq(n - |s|, _ => 0 as byte) else s
  }

  function PeerLeft(): seq<byte> {
    FrameBytes(Packet(LEFT, Padded([], GAME_PAYLOAD)))
  }

  /** The relay loses a connection; a dropped console keeps its own link, only the survivor's is cut. */
  function Drop(r: Relay, c: Id): Relay
    requires Known(r) && c in r.conns
  {
    if c !in r.live then r
    else
      var me := r.conns[c];
      var names := if me.name != [] && Has(r.names, me.name) && Get(r.names, me.name) == c then Pop(r.names, me.name) else r.names;
      var told :=
        if me.partner.None? then r
        else
          var p := me.partner.value;
          Send(r.(conns := r.conns[p := r.conns[p].(partner := None)]), p, PeerLeft());
      told.(names := names, live := Without(r.live, c))
  }

  function Without(live: seq<Id>, c: Id): seq<Id> {
    if live == [] then []
    else if live[|live| - 1] == c then live[..|live| - 1]
    else Without(live[..|live| - 1], c) + [live[|live| - 1]]
  }

  // ---- pairing ----

  predicate Waiting(r: Relay, o: Id)
    requires o in r.conns
  {
    r.conns[o].name != [] && r.conns[o].partner.None?
  }

  /** The oldest waiting console but this one; of equally old ones the first accepted. */
  function Oldest(r: Relay, ids: seq<Id>, c: Id): (o: Option<Id>)
    requires forall i | 0 <= i < |ids| :: ids[i] in r.conns
    ensures o.Some? ==> o.value in ids && o.value != c && Waiting(r, o.value)
  {
    if ids == [] then None
    else
      var best := Oldest(r, ids[..|ids| - 1], c);
      var o := ids[|ids| - 1];
      if o == c || !Waiting(r, o) then best
      else if best.None? || r.conns[o].born < r.conns[best.value].born then Some(o)
      else best
  }

  function StartFrame(role: byte, seed: nat, rules: Settings, them: Name): seq<byte>
    requires |them| <= 8
  {
    FrameBytes(Packet(START, [role, Low(seed), Low(seed / 256), rules.delay, rules.variation] + Padded(them, 8)))
  }

  function Pair(r: Relay, host: Id, guest: Id, seed: nat, rules: Settings): Relay
    requires host in r.conns && guest in r.conns && host != guest
    requires |r.conns[host].name| <= 8 && |r.conns[guest].name| <= 8
  {
    var (h, g) := (r.conns[host], r.conns[guest]);
    var h' := h.(partner := Some(guest), role := 0, ledger := h.ledger.(crc := []),
                 tx := h.tx + StartFrame(0, seed, rules, g.name));
    var g' := g.(partner := Some(host), role := 1, ledger := g.ledger.(crc := []),
                 tx := g.tx + StartFrame(1, seed, rules, h.name));
    r.(conns := r.conns[host := h'][guest := g'], stats := r.stats.(matches := r.stats.matches + 1))
  }

  function TryPair(r: Relay, c: Id, seed: nat, rules: Settings): Relay
    requires Known(r) && c in r.conns
  {
    match Oldest(r, r.live, c)
    case None => r
    case Some(other) => Pair(r, other, c, seed, rules)
  }

  // ---- hello ----

  function Stripped(s: seq<byte>): seq<byte> {
    if s != [] && (s[0] == 0 || s[0] == 32) then Stripped(s[1..])
    else if s != [] && (s[|s| - 1] == 0 || s[|s| - 1] == 32) then Stripped(s[..|s| - 1])
    else s
  }

  function Upper(b: byte): byte {
    if 97 <= b <= 122 then b - 32 else b
  }

  function Uppercase(s: seq<byte>): (u: seq<byte>)
    ensures |u| == |s|
  {
    seq(|s|, i requires 0 <= i < |s| => Upper(s[i]))
  }

  predicate NameChar(b: byte) {
    65 <= b <= 90 || 48 <= b <= 57
  }

  predicate NameOk(s: Name) {
    2 <= |s| <= 8 && forall i | 0 <= i < |s| :: NameChar(s[i])
  }

  function Renamed(name: Name, digit: byte): Name
    requires digit < 10
  {
    (if |name| > 7 then name[..7] else name) + [48 + digit]
  }

  predicate Digits(s: seq<byte>) {
    forall i | 0 <= i < |s| :: s[i] < 10
  }

  /** A taken name is tried again with a digit at its end, as long as there are digits. */
  function FreeName(names: seq<Entry<Name, Id>>, name: Name, digits: seq<byte>): Option<Name>
    requires Digits(digits)
    decreases |digits|
  {
    if !Has(names, name) then Some(name)
    else if digits == [] then None
    else FreeName(names, Renamed(name, digits[0]), digits[1..])
  }

  function Greet(r: Relay, c: Id, name: Name): Relay
    requires c in r.conns
  {
    r.(conns := r.conns[c := r.conns[c].(name := name)], names := Put(r.names, name, c))
  }

  /** The name a HELLO asks for, if it is one this relay can serve. */
  function Asked(payload: seq<byte>): Option<Name> {
    if |payload| < 3 || payload[0] != PROTOCOL || payload[1] > 1 then None
    else
      var name := Uppercase(Stripped(payload[2..]));
      if NameOk(name) then Some(name) else None
  }

  function OnHello(r: Relay, c: Id, payload: seq<byte>, luck: Luck, rules: Settings): Relay
    requires Known(r) && c in r.conns && Digits(luck.digits)
  {
    match Asked(payload)
    case None => Drop(r, c)
    case Some(asked) =>
      match FreeName(r.names, asked, luck.digits)
      case None => Drop(r, c)
      case Some(name) =>
        FreeNameIsOk(r.names, asked, luck.digits);
        TryPair(Greet(r, c, name), c, luck.seed, rules)
  }

  /** A name found free is a good name that nobody has. */
  lemma {:induction false} FreeNameIsOk(names: seq<Entry<Name, Id>>, name: Name, digits: seq<byte>)
    requires Digits(digits) && NameOk(name)
    ensures var free := FreeName(names, name, digits); free.Some? ==> NameOk(free.value) && !Has(names, free.value)
    decreases |digits|
  {
    if Has(names, name) && digits != [] {
      assert Digits(digits[1..]);
      FreeNameIsOk(names, Renamed(name, digits[0]), digits[1..]);
    }
  }

  /** A name of seven or eight characters has only ten others to become, however often it is tried. */
  lemma RenamedAgain(name: Name, d: byte, e: byte)
    requires |name| >= 7 && d < 10 && e < 10
    ensures Renamed(Renamed(name, d), e) == Renamed(name, e)
  {
    assert Renamed(name, d)[..7] == name[..7];
  }

  lemma {:induction false} RetryNeverEnds(names: seq<Entry<Name, Id>>, name: Name, digits: seq<byte>)
    requires |name| >= 7 && Digits(digits) && Has(names, name) && forall d: byte | d < 10 :: Has(names, Renamed(name, d))
    ensures FreeName(names, name, digits) == None
    decreases |digits|
  {
    if digits != [] {
      forall d: byte | d < 10
        ensures Has(names, Renamed(Renamed(name, digits[0]), d))
      {
        RenamedAgain(name, digits[0], d);
      }
      assert Digits(digits[1..]);
      hide Renamed;
      RenamedLength(name, digits[0]);
      RetryNeverEnds(names, Renamed(name, digits[0]), digits[1..]);
    }
    hide IndexOf;
  }

  lemma RenamedLength(name: Name, d: byte)
    requires |name| >= 7 && d < 10
    ensures |Renamed(name, d)| == 8
  {}

  /** The retry for such a name can end if and only if it, or one of those ten, is free. */
  lemma RetryEndsIff(names: seq<Entry<Name, Id>>, name: Name)
    requires |name| >= 7
    ensures (exists digits :: Digits(digits) && FreeName(names, name, digits).Some?)
            <==> !Has(names, name) || exists d: byte :: d < 10 && !Has(names, Renamed(name, d))
  {
    hide IndexOf, Renamed;
    if !Has(names, name) {
      assert Digits([]) && FreeName(names, name, []).Some?;
    } else if d: byte :| d < 10 && !Has(names, Renamed(name, d)) {
      assert Digits([d]) && FreeName(names, name, [d]) == FreeName(names, Renamed(name, d), [d][1..]);
    } else {
      forall digits | Digits(digits)
        ensures FreeName(names, name, digits) == None
      {
        RetryNeverEnds(names, name, digits);
      }
    }
  }

  // ---- the lobby ----

  function Named(r: Relay, ids: seq<Id>): (named: seq<Id>)
    requires forall i | 0 <= i < |ids| :: ids[i] in r.conns
    ensures |named| <= |ids| && forall i | 0 <= i < |named| :: named[i] in ids
  {
    if ids == [] then []
    else
      var before := Named(r, ids[..|ids| - 1]);
      var o := ids[|ids| - 1];
      if r.conns[o].name != [] then before + [o] else before
  }

  /** A console in the lobby: its name in eight bytes, and whether it is playing. */
  function Row(name: Name, busy: bool): (row: seq<byte>)
    requires |name| <= 8
    ensures |row| == 9
  {
    Padded(name, 8) + [if busy then 1 else 0]
  }

  function Rows(r: Relay, ids: seq<Id>): (rows: seq<byte>)
    requires forall i | 0 <= i < |ids| :: ids[i] in r.conns && |r.conns[ids[i]].name| <= 8
    ensures |rows| == 9 * |ids|
  {
    if ids == [] then []
    else
      var o := r.conns[ids[|ids| - 1]];
      Rows(r, ids[..|ids| - 1]) + Row(o.name, o.partner.Some?)
  }

  /** The first eight named consoles, in the order they were accepted. */
  function LobbyFrame(r: Relay): seq<byte>
    requires Known(r)
  {
    var named := Named(r, r.live);
    var shown := if |named| > LOBBY_MOST then named[..LOBBY_MOST] else named;
    FrameBytes(Packet(LOBBY, [|shown| as byte] + Rows(r, shown)))
  }

  /** The first k of a list, or all of it. */
  function Firsts(ids: seq<Id>, k: nat): seq<Id> {
    if |ids| > k then ids[..k] else ids
  }

  lemma NamedStep(r: Relay, n: nat, m: nat)
    requires Known(r) && n < |r.live| && m == n + 1
    ensures forall i | 0 <= i < n :: r.live[..n][i] in r.conns
    ensures forall i | 0 <= i < m :: r.live[..m][i] in r.conns
    ensures r.live[n] in r.conns
    ensures var before := Named(r, r.live[..n]);
            Named(r, r.live[..m]) == if r.conns[r.live[n]].name != [] then before + [r.live[n]] else before
  {
    var ids := r.live[..m];
    assert ids[..n] == r.live[..n] && ids[n] == r.live[n];
    assert forall i | 0 <= i < n :: r.live[..n][i] == r.live[i];
  }

  lemma RowsStep(r: Relay, ids: seq<Id>, o: Id)
    requires Known(r) && (forall i | 0 <= i < |ids| :: ids[i] in r.conns) && o in r.conns
    ensures Rows(r, ids + [o]) == Rows(r, ids) + Row(r.conns[o].name, r.conns[o].partner.Some?)
  {
    assert (ids + [o])[..|ids|] == ids;
  }

  /** The rows of one more connection, if it has a name and there is a row left. */
  lemma RowsOfNext(r: Relay, before: seq<Id>, o: Id)
    requires Known(r) && (forall i | 0 <= i < |before| :: before[i] in r.conns) && o in r.conns
    ensures var shown := Firsts(before, LOBBY_MOST);
            var next := Firsts(if r.conns[o].name != [] then before + [o] else before, LOBBY_MOST);
            && (forall i | 0 <= i < |shown| :: shown[i] in r.conns) && (forall i | 0 <= i < |next| :: next[i] in r.conns)
            && if r.conns[o].name == [] || |shown| >= LOBBY_MOST then next == shown
               else
                 && |next| == |shown| + 1
                 && Rows(r, next) == Rows(r, shown) + Row(r.conns[o].name, r.conns[o].partner.Some?)
  {
    if |before| < LOBBY_MOST {
      RowsStep(r, before, o);
    }
    hide Rows, Row, Known;
  }

  /** These rows show the first eight named of the first n live. */
  ghost predicate Shows(r: Relay, n: nat, k: nat, bytes: seq<byte>) {
    && Known(r) && n <= |r.live| && (forall i | 0 <= i < n :: r.live[..n][i] in r.conns)
    && var shown := Firsts(Named(r, r.live[..n]), LOBBY_MOST);
       (forall i | 0 <= i < |shown| :: shown[i] in r.conns) && k == |shown| && bytes == Rows(r, shown)
  }

  lemma ShowsOneMore(r: Relay, n: nat, m: nat, k: nat, bytes: seq<byte>)
    requires Shows(r, n, k, bytes) && n < |r.live| && m == n + 1 && r.live[n] in r.conns && |r.conns[r.live[n]].name| <= 8
    ensures var c := r.conns[r.live[n]];
            if c.name == [] || k >= LOBBY_MOST then Shows(r, m, k, bytes)
            else Shows(r, m, k + 1, bytes + Row(c.name, c.partner.Some?))
  {
    hide Rows, Row, Known, Named, Firsts;
    NamedStep(r, n, m);
    RowsOfNext(r, Named(r, r.live[..n]), r.live[n]);
  }

  lemma NoRows(r: Relay)
    requires Known(r)
    ensures Shows(r, 0, 0, [])
  {}

  // ---- a frame ----

  predicate Relayed(kind: byte) {
    kind == INPUT || kind == CRC || kind == STATE || kind == RESYNC
  }

  function LogCrc(r: Relay, c: Id, tick: byte, crc: byte): Relay
    requires Known(r) && c in r.conns
  {
    var me := r.conns[c];
    var theirs := if me.partner.None? then None else Some(r.conns[me.partner.value].ledger);
    var (ledger, after, ruling) := Ruled(me.ledger, theirs, tick, crc);
    var mine := r.conns[c := me.(ledger := ledger)];
    var both := if me.partner.None? || after.None? then mine
                else mine[me.partner.value := r.conns[me.partner.value].(ledger := after.value)];
    r.(conns := both,
       stats := r.stats.(crcOk := if ruling == Agree then r.stats.crcOk + 1 else r.stats.crcOk,
                         crcBad := if ruling == Differ then r.stats.crcBad + 1 else r.stats.crcBad))
  }

  /** One ledger written. */
  function Ledgered(r: Relay, c: Id, l: Ledger): Relay
    requires c in r.conns
  {
    r.(conns := r.conns[c := r.conns[c].(ledger := l)])
  }

  /** The relay's log, as one or two ledgers written. */
  lemma LogSteps(r: Relay, c: Id, tick: byte, crc: byte)
    requires Known(r) && c in r.conns
    ensures var clocked := Clocked(r.conns[c].ledger, tick);
            var key := KeyOf(clocked);
            var noted := clocked.(crc := Put(clocked.crc, key, crc));
            var p := r.conns[c].partner;
            && (p.Some? ==> p.value in r.conns && p.value != c)
            && LogCrc(r, c, tick, crc) ==
               if p.None? || !Has(r.conns[p.value].ledger.crc, key) then
                 Ledgered(r, c, noted.(crc := Newest(noted.crc, KEPT)))
               else
                 var theirs := r.conns[p.value].ledger;
                 var same := Get(theirs.crc, key) == crc;
                 var both := Ledgered(Ledgered(r, c, noted), p.value, theirs.(crc := Pop(theirs.crc, key)));
                 both.(stats := r.stats.(crcOk := if same then r.stats.crcOk + 1 else r.stats.crcOk,
                                         crcBad := if same then r.stats.crcBad else r.stats.crcBad + 1))
  {
    hide IndexOf, Low;
    var p := r.conns[c].partner;
    if p.Some? {
      var m := r.conns[c := r.conns[c].(ledger := Ruled(r.conns[c].ledger, Some(r.conns[p.value].ledger), tick, crc).0)];
      SameMap(m, m[p.value := m[p.value]]);
    }
  }

  /** A game frame goes to the partner, padded on the way out; an INPUT record is also listened to. */
  function Forward(r: Relay, c: Id, p: Packet): Relay
    requires Known(r) && c in r.conns && |p.payload| < LONGEST
  {
    var sent :=
      if r.conns[c].partner.None? then r
      else Send(r, r.conns[c].partner.value, FrameBytes(Packet(p.kind, Padded(p.payload, GAME_PAYLOAD))));
    if p.kind == INPUT && |p.payload| > CRC_AT then LogCrc(sent, c, p.payload[0], p.payload[CRC_AT]) else sent
  }

  function Handle(r: Relay, c: Id, p: Packet, luck: Luck, rules: Settings): Relay
    requires Known(r) && c in r.conns && |p.payload| < LONGEST && Digits(luck.digits)
  {
    if Relayed(p.kind) then Forward(r, c, p)
    else if p.kind == HELLO then OnHello(r, c, p.payload, luck, rules)
    else if p.kind == LIST then Send(r, c, LobbyFrame(r))
    else if p.kind == JOIN then TryPair(r, c, luck.seed, rules)
    else if p.kind == PING then Send(r, c, FrameBytes(Packet(PONG, [])))
    else if p.kind == BYE then Drop(r, c)
    else r
  }

  // ---- arrivals, and what leaves ----

  /** Live connections from one address. */
  function FromAddress(r: Relay, ids: seq<Id>, addr: nat): nat
    requires forall i | 0 <= i < |ids| :: ids[i] in r.conns
  {
    if ids == [] then 0
    else FromAddress(r, ids[..|ids| - 1], addr) + (if r.conns[ids[|ids| - 1]].addr == addr then 1 else 0)
  }

  /** A new connection: turned away silently when the relay is full, and counted when its address has enough. */
  function Accept(r: Relay, c: Id, addr: nat, born: int): Relay
    requires Known(r)
  {
    if |r.live| >= MOST_CLIENTS then r
    else if FromAddress(r, r.live, addr) >= MOST_PER_ADDRESS then
      r.(stats := r.stats.(ipRejects := r.stats.ipRejects + 1))
    else Admitted(r, c, addr, born)
  }

  function Admitted(r: Relay, c: Id, addr: nat, born: int): Relay {
    r.(conns := r.conns[c := Conn(addr, [], [], [], None, -1, born, FRESH)], live := r.live + [c])
  }

  /** The network has taken this much of what is waiting for a connection. */
  function Drained(r: Relay, c: Id, k: nat): Relay
    requires c in r.conns && k <= |r.conns[c].tx|
  {
    r.(conns := r.conns[c := r.conns[c].(tx := r.conns[c].tx[k..])])
  }

  function Overrun(r: Relay): Relay {
    r.(stats := r.stats.(txDrops := r.stats.txDrops + 1))
  }

  lemma DrainedIsKnown(r: Relay, c: Id, k: nat)
    requires Known(r) && c in r.conns && k <= |r.conns[c].tx|
    ensures Known(Drained(r, c, k)) && c in Drained(r, c, k).conns && Known(Overrun(Drained(r, c, k)))
  {}

  /** One send to a connection, and the backlog checked on what is left. */
  function Flush(r: Relay, c: Id, k: nat): Relay
    requires Known(r) && c in r.conns && k <= |r.conns[c].tx|
  {
    DrainedIsKnown(r, c, k);
    var s := Drained(r, c, k);
    if |s.conns[c].tx| > TX_BACKLOG then Drop(Overrun(s), c) else s
  }

  /** Dropped connections that nothing live speaks of any more are gone. */
  function Forgotten(r: Relay): Relay {
    r.(conns := map c | c in r.conns && c in r.live :: r.conns[c])
  }
}
