/** The slot relay itself, which changes its tables in place. */
module SlotRelay {
  import opened Bytes
  import opened Ordered
  import opened Framing
  import opened Verdict
  import opened Relay
  import opened Passage
  import opened SlotTable
  import opened SlotSteps
  import opened SlotRuns

  /** What was at `at` is gone, and everything behind it up to n has closed up. */
  method CloseUp<T>(a: array<T>, at: nat, n: nat)
    requires at < n <= a.Length
    modifies a
    ensures a[..n - 1] == RemoveAt(old(a[..n]), at)
  {
    var k := at;
    while k < n - 1
      invariant at <= k <= n - 1
      invariant forall j | 0 <= j < at :: a[j] == old(a[j])
      invariant forall j | at <= j < k :: a[j] == old(a[j + 1])
      invariant forall j | k <= j < n :: a[j] == old(a[j])
    {
      a[k] := a[k + 1];
      k := k + 1;
    }
  }

  // ---- the checksum table of a slot ----

  method CrcFind(d: seq<Entry<nat, byte>>, key: nat) returns (at: int)
    ensures at == IndexOf(d, key)
  {
    var i := 0;
    while i < |d|
      invariant i <= |d|
      invariant forall j | 0 <= j < i :: d[j].key != key
    {
      if d[i].key == key {
        return i;
      }
      i := i + 1;
    }
    return -1;
  }

  method CrcSet(d: seq<Entry<nat, byte>>, key: nat, val: byte) returns (e: seq<Entry<nat, byte>>)
    requires |d| <= CRC_SLOTS
    ensures e == SumsSet(d, key, val)
  {
    var i := CrcFind(d, key);
    if i >= 0 {
      return d[i := Entry(key, val)];
    }
    var n := if |d| >= CRC_SLOTS then CRC_SLOTS - 1 else |d|;
    return d[..n] + [Entry(key, val)];
  }

  /** Forgets the oldest, one at a time, down to eight. */
  method CrcTrim(d: seq<Entry<nat, byte>>) returns (e: seq<Entry<nat, byte>>)
    ensures e == Newest(d, KEPT)
  {
    e := d;
    while |e| > KEPT
      invariant |e| <= |d| && (if |d| > KEPT then |e| >= KEPT else e == d)
      invariant e == d[|d| - |e|..]
    {
      e := RemoveAt(e, 0);
    }
  }

  /** The record entered in its sender's table, under its true tick. */
  method Note(s: Slot, tick: byte, crc: byte) returns (c: Slot, key: nat)
    requires |s.crc| <= CRC_SLOTS
    ensures c == WithLedger(s, Noted(LedgerOf(s), tick, crc)) && key == KeyOf(Noted(LedgerOf(s), tick, crc))
  {
    var wrapped := s.last.Some? && 0 < Low(tick as int - s.last.value as int) < 128 && tick < s.last.value;
    c := s.(lap := if wrapped then s.lap + 1 else s.lap, last := Some(tick));
    key := c.lap * 256 + tick as nat;
    var sums := CrcSet(c.crc, key, crc);
    c := c.(crc := sums);
    hide SumsSet, Low;
  }

  /** The name a HELLO asks for: stripped, in capitals, and refused if it is not one this relay can serve. */
  method NameIn(payload: seq<byte>) returns (name: Option<Name>)
    ensures name == Asked(payload)
  {
    if |payload| < 3 || payload[0] != PROTOCOL || payload[1] > 1 {
      return None;
    }
    var nm := payload[2..];
    while nm != [] && (nm[0] == 0 || nm[0] == 32)
      invariant Stripped(nm) == Stripped(payload[2..])
      decreases |nm|
    {
      nm := nm[1..];
    }
    while nm != [] && (nm[|nm| - 1] == 0 || nm[|nm| - 1] == 32)
      invariant Stripped(nm) == Stripped(payload[2..])
      invariant nm != [] ==> nm[0] != 0 && nm[0] != 32
      decreases |nm|
    {
      nm := nm[..|nm| - 1];
    }
    var up := [];
    var i := 0;
    while i < |nm|
      invariant i <= |nm| && up == Uppercase(nm[..i])
    {
      up := up + [Upper(nm[i])];
      i := i + 1;
      assert up == Uppercase(nm[..i]);
    }
    assert nm[..i] == nm;
    if !(2 <= |up| <= 8) {
      return None;
    }
    i := 0;
    while i < |up|
      invariant i <= |up| && forall j | 0 <= j < i :: NameChar(up[j])
    {
      if !NameChar(up[i]) {
        return None;
      }
      i := i + 1;
    }
    return Some(up);
  }

  /** The bytes from k to n moved to the front of the buffer, in ascending order. */
  method MoveDown(buf: seq<byte>, k: nat, n: nat) returns (tx: seq<byte>)
    requires k <= n <= |buf|
    ensures tx == buf[k..n] + buf[n - k..]
  {
    tx := buf;
    var j := 0;
    while j < n - k
      invariant j <= n - k && |tx| == |buf|
      invariant forall m | 0 <= m < j :: tx[m] == buf[m + k]
      invariant forall m | j <= m < |buf| :: tx[m] == buf[m]
    {
      tx := tx[j := tx[j + k]];
      j := j + 1;
    }
  }

  lemma MovedIs(s: Slot, k: nat, d: Slot)
    requires Fit(s) && k <= s.txLen
    requires d == s.(txbuf := s.txbuf[k..s.txLen] + s.txbuf[s.txLen - k..], txLen := s.txLen - k)
    ensures d == Moved(s, k)
  {}

  class SlotServer {
    const slots: array<Slot>
    const order: array<nat>
    const claims: array<Claim>
    const rules: Settings
    var nOrder: nat
    var nClaims: nat
    var stats: Stats

    ghost predicate Shape()
      reads this
    {
      && slots.Length == SLOTS && order.Length == SLOTS && claims.Length == NAME_SLOTS
      && nOrder <= SLOTS && nClaims <= NAME_SLOTS
    }

    /** The tables as they stand. */
    ghost function Snapshot(): Tables
      reads this, slots, order, claims
      requires Shape()
    {
      Tables(slots[..], order[..nOrder], claims[..nClaims], stats)
    }

    ghost predicate Valid()
      reads this, slots, order, claims
    {
      Shape() && Sound(Snapshot())
    }

    /** Every buffer empty, every slot free. */
    constructor (delay: byte, variation: byte)
      ensures Shape() && fresh(slots) && fresh(order) && fresh(claims) && Blank(Snapshot())
    {
      var bare := Slot(false, false, 0, 0, [], -1, -1, 0, [], seq(TX_CAPACITY, _ => 0 as byte), 0, [], None, 0);
      slots := new Slot[SLOTS](_ => bare);
      order := new nat[SLOTS](_ => 0);
      claims := new Claim[NAME_SLOTS](_ => Claim([], 0, 0));
      rules := Settings(delay, variation);
      nOrder, nClaims := 0, 0;
      stats := Stats(0, 0, 0, 0, 0, 0);
    }

    // ---- sending ----

    method ClientSend(i: nat, data: seq<byte>)
      requires Valid() && Used(Snapshot(), i)
      modifies slots
      ensures Shape() && Snapshot() == SendTo(old(Snapshot()), i, data)
    {
      var s := slots[i];
      var n := s.txLen + |data|;
      assert s == Snapshot().slots[i];
      if n > TX_CAPACITY {
        s := s.(txLen := TX_CAPACITY);
      } else {
        s := s.(txbuf := s.txbuf[..s.txLen] + data + s.txbuf[n..], txLen := n);
      }
      assert s == Appended(slots[i], data);
      hide Appended, Sound;
      slots[i] := s;
    }

    // ---- the name table ----

    method FindClaim(name: Name) returns (i: nat)
      requires Shape()
      ensures i == ClaimOf(claims[..nClaims], name, 0)
    {
      i := 0;
      while i < nClaims && claims[i].name != name
        invariant i <= nClaims
        invariant ClaimOf(claims[..nClaims], name, 0) == ClaimOf(claims[..nClaims], name, i)
      {
        i := i + 1;
      }
    }

    method NameSet(name: Name, i: nat)
      requires Shape() && i < SLOTS
      modifies this, claims
      ensures Shape()
      ensures Snapshot() == old(Snapshot()).(claims := NameGiven(old(Snapshot()).claims, Claim(name, i, slots[i].gen)))
    {
      var claim := Claim(name, i, slots[i].gen);
      ghost var cs := claims[..nClaims];
      var at := FindClaim(name);
      hide ClaimOf;
      if at < nClaims {
        claims[at] := claim;
        assert claims[..nClaims] == cs[at := claim];
        return;
      }
      if nClaims >= NAME_SLOTS {
        CloseUp(claims, 0, nClaims);
        nClaims := nClaims - 1;
        assert claims[..nClaims] == cs[1..];
      }
      ClaimAdd(claim);
    }

    method ClaimAdd(claim: Claim)
      requires Shape() && nClaims < NAME_SLOTS
      modifies this, claims
      ensures Shape() && Snapshot() == old(Snapshot()).(claims := old(Snapshot()).claims + [claim])
    {
      claims[nClaims] := claim;
      nClaims := nClaims + 1;
    }

    method NameDelIfIs(name: Name, i: nat)
      requires Shape() && i < SLOTS
      modifies this, claims
      ensures Shape()
      ensures Snapshot() == old(Snapshot()).(claims := NameTaken(old(Snapshot()).claims, name, i, slots[i].gen))
    {
      ghost var cs := claims[..nClaims];
      var at := FindClaim(name);
      hide ClaimOf;
      if at == nClaims || claims[at].ci != i || claims[at].gen != slots[i].gen {
        return;
      }
      CloseUp(claims, at, nClaims);
      nClaims := nClaims - 1;
      assert claims[..nClaims] == RemoveAt(cs, at);
    }

    // ---- the order ----

    method OrderAdd(i: nat)
      requires Shape() && nOrder < SLOTS
      modifies this, order
      ensures Shape() && Snapshot() == old(Snapshot()).(order := old(Snapshot()).order + [i])
    {
      order[nOrder] := i;
      nOrder := nOrder + 1;
    }

    method OrderDel(i: nat)
      requires Shape()
      modifies this, order
      ensures Shape() && Snapshot() == old(Snapshot()).(order := Delisted(old(Snapshot()).order, i))
    {
      ghost var os := order[..nOrder];
      var k := 0;
      while k < nOrder && order[k] != i
        invariant k <= nOrder
        invariant PlaceOf(os, i, 0) == PlaceOf(os, i, k)
        modifies {}
      {
        k := k + 1;
      }
      hide PlaceOf;
      if k < nOrder {
        CloseUp(order, k, nOrder);
        nOrder := nOrder - 1;
        assert order[..nOrder] == RemoveAt(os, k);
      }
    }

    // ---- dropping ----

    method Store(i: nat, s: Slot)
      requires Shape() && i < SLOTS
      modifies slots
      ensures Shape() && Snapshot() == Written(old(Snapshot()), i, s)
    {
      slots[i] := s;
    }

    method Abandon(i: nat)
      requires Valid() && Used(Snapshot(), i)
      modifies slots
      ensures Shape() && Snapshot() == Abandoned(old(Snapshot()), i)
    {
      ghost var t := Snapshot();
      var p := slots[i].partner;
      PartnerIn(t, i);
      if p >= 0 {
        CutIsUnlink(t, p);
        hide Sound, View, SendTo;
        Store(p, slots[p].(partner := -1));
        ClientSend(p, PeerLeft());
      }
    }

    /** The slot's own link is left standing, so that what it still has queued can be forwarded. */
    method Drop(i: nat)
      requires Valid() && Used(Snapshot(), i)
      modifies this, slots, order, claims
      ensures Shape() && Snapshot() == Dropped(old(Snapshot()), i)
    {
      ghost var t := Snapshot();
      var s := slots[i];
      if s.dead {
        return;
      }
      BuryIsUnseen(t, i);
      RenounceIsUnname(Buried(t, i), i);
      hide Sound, View, NameTaken, Delisted, Abandoned;
      Store(i, s.(dead := true));
      if s.name != [] {
        NameDelIfIs(s.name, i);
      }
      Abandon(i);
      OrderDel(i);
    }
  
    // ---- pairing ----

    /** The oldest waiting slot but this one; of equally old ones the first accepted. */
    method FindOldest(i: nat) returns (other: int)
      requires Valid()
      ensures other == Chosen(Snapshot(), nOrder, i)
    {
      other := -1;
      var k := 0;
      while k < nOrder
        invariant k <= nOrder
        invariant other == Chosen(Snapshot(), k, i)
      {
        var o := order[k];
        assert o == Snapshot().order[k];
        if o == i || slots[o].name == [] || slots[o].partner >= 0 {
        } else if other < 0 || slots[o].born < slots[other].born {
          other := o;
        }
        k := k + 1;
      }
    }

    method Enter(me: nat, them: nat, role: int, data: seq<byte>)
      requires Shape() && me < SLOTS && Fit(slots[me])
      modifies slots
      ensures Shape() && Snapshot() == Written(old(Snapshot()), me, Entered(old(slots[me]), them, role, data))
    {
      var s := slots[me].(partner := them, role := role, crc := []);
      var n := s.txLen + |data|;
      if n > TX_CAPACITY {
        s := s.(txLen := TX_CAPACITY);
      } else {
        s := s.(txbuf := s.txbuf[..s.txLen] + data + s.txbuf[n..], txLen := n);
      }
      assert s == Entered(slots[me], them, role, data);
      hide Entered;
      Store(me, s);
    }

    method TryPair(i: nat, seed: nat)
      requires Valid() && Used(Snapshot(), i)
      modifies this, slots
      ensures Shape() && Snapshot() == Paired(old(Snapshot()), i, seed, rules)
    {
      ghost var t := Snapshot();
      var host := FindOldest(i);
      if host < 0 {
        return;
      }
      SlotsFit(t, host);
      SlotsFit(t, i);
      var toHost := StartFrame(0, seed, rules, slots[i].name);
      var toGuest := StartFrame(1, seed, rules, slots[host].name);
      hide Sound, StartFrame, Entered, Chosen, Fit;
      Enter(host, i, 0, toHost);
      assert slots[i] == t.slots[i];
      Enter(i, host, 1, toGuest);
      stats := stats.(matches := stats.matches + 1);
    }

    // ---- the lobby ----

    method SendLobby(i: nat)
      requires Valid() && Used(Snapshot(), i)
      modifies slots
      ensures Shape() && Snapshot() == SendTo(old(Snapshot()), i, LobbyBytes(old(Snapshot())))
    {
      var n, rows := 0, [];
      var k := 0;
      while k < nOrder
        invariant k <= nOrder && n <= LOBBY_MOST
        invariant (n, rows) == LobbyRows(Snapshot(), k)
        modifies {}
      {
        var s := slots[order[k]];
        assert s == Snapshot().slots[Snapshot().order[k]];
        if s.name != [] && n < LOBBY_MOST {
          n, rows := n + 1, rows + Row(s.name, s.partner >= 0);
        }
        k := k + 1;
      }
      assert order[..nOrder] == Snapshot().order;
      hide LobbyRows, Sound, SendTo;
      ClientSend(i, FrameBytes(Packet(LOBBY, [n as byte] + rows)));
    }

    // ---- the checksums ----

    method LogCrc(i: nat, tick: byte, crc: byte)
      requires Valid() && Used(Snapshot(), i)
      modifies this, slots
      ensures Shape() && Snapshot() == Logged(old(Snapshot()), i, tick, crc)
    {
      ghost var t := Snapshot();
      SlotsFit(t, i);
      PartnerIn(t, i);
      var c, key := Note(slots[i], tick, crc);
      var p := c.partner;
      var at := -1;
      if p >= 0 {
        at := CrcFind(slots[p].crc, key);
      }
      hide Noted, IndexOf, Sound, Fit;
      if at < 0 {
        var sums := CrcTrim(c.crc);
        Store(i, c.(crc := sums));
        return;
      }
      var q := slots[p];
      var same := q.crc[at].value == crc;
      Store(i, c);
      Store(p, q.(crc := RemoveAt(q.crc, at)));
      stats := stats.(crcOk := if same then stats.crcOk + 1 else stats.crcOk,
                      crcBad := if same then stats.crcBad else stats.crcBad + 1);
    }
  
    // ---- a frame ----

    /** A free name at or near the one asked for, as long as there are digits to try. */
    method PickName(asked: Name, digits: seq<byte>) returns (name: Option<Name>)
      requires Shape() && Digits(digits)
      ensures name == FreeName(NamesOf(claims[..nClaims]), asked, digits)
    {
      var now := asked;
      var k := 0;
      while true
        invariant k <= |digits| && Digits(digits[k..])
        invariant FreeName(NamesOf(claims[..nClaims]), now, digits[k..])
               == FreeName(NamesOf(claims[..nClaims]), asked, digits)
        decreases |digits| - k
      {
        var at := FindClaim(now);
        ClaimIsIndex(claims[..nClaims], now);
        if at == nClaims {
          return Some(now);
        }
        if k == |digits| {
          return None;
        }
        assert digits[k..][0] == digits[k] && digits[k..][1..] == digits[k + 1..];
        now := Renamed(now, digits[k]);
        k := k + 1;
      }
    }

    method OnHello(i: nat, payload: seq<byte>, luck: Luck)
      requires Valid() && Used(Snapshot(), i) && Digits(luck.digits)
      modifies this, slots, order, claims
      ensures Shape() && Snapshot() == Helloed(old(Snapshot()), i, payload, luck, rules)
    {
      ghost var t := Snapshot();
      hide Sound, Asked, FreeName, NameGiven, Dropped, Paired;
      var asked := NameIn(payload);
      if asked.None? {
        Drop(i);
        return;
      }
      var name := PickName(asked.value, luck.digits);
      if name.None? {
        Drop(i);
        return;
      }
      AskedIsOk(payload);
      FreeNameIsOk(NamesOf(t.claims), asked.value, luck.digits);
      GreetedSound(t, i, name.value);
      Store(i, slots[i].(name := name.value));
      NameSet(name.value, i);
      assert Snapshot() == Greeted(t, i, name.value);
      TryPair(i, luck.seed);
    }

    method SendFrame(i: nat, p: Packet)
      requires Valid() && Used(Snapshot(), i) && |p.payload| < LONGEST
      modifies slots
      ensures Shape() && Snapshot() == SendTo(old(Snapshot()), i, FrameBytes(p))
    {
      ClientSend(i, FrameBytes(p));
    }

    method Forward(i: nat, p: Packet)
      requires Valid() && Used(Snapshot(), i) && |p.payload| < LONGEST
      modifies this, slots
      ensures Shape() && Snapshot() == Forwarded(old(Snapshot()), i, p)
    {
      ghost var t := Snapshot();
      PassedSound(t, i, p);
      PartnerIn(t, i);
      hide Sound, SendTo, Logged, FrameBytes;
      var q := slots[i].partner;
      if q >= 0 {
        SendFrame(q, Packet(p.kind, Padded(p.payload, GAME_PAYLOAD)));
      }
      assert Snapshot() == Passed(t, i, p);
      if p.kind == INPUT && |p.payload| > CRC_AT {
        LogCrc(i, p.payload[0], p.payload[CRC_AT]);
      }
    }

    method Handle(i: nat, p: Packet, luck: Luck)
      requires Valid() && Used(Snapshot(), i) && |p.payload| < LONGEST && Digits(luck.digits)
      modifies this, slots, order, claims
      ensures Valid() && Snapshot() == Stepped(old(Snapshot()), i, p, luck, rules)
      ensures StillIn(old(Snapshot()), Snapshot(), i)
    {
      SteppedStays(Snapshot(), i, p, luck, rules);
      hide Sound, StillIn, Forwarded, Helloed, SendTo, LobbyBytes, Paired, Dropped;
      if Relayed(p.kind) {
        Forward(i, p);
      } else if p.kind == HELLO {
        OnHello(i, p.payload, luck);
      } else if p.kind == LIST {
        SendLobby(i);
      } else if p.kind == JOIN {
        TryPair(i, luck.seed);
      } else if p.kind == PING {
        SendFrame(i, Packet(PONG, []));
      } else if p.kind == BYE {
        Drop(i);
      }
    }

    method Hear(i: nat, rx: seq<byte>)
      requires Valid() && Used(Snapshot(), i)
      modifies slots
      ensures Valid() && Snapshot() == Buffered(old(Snapshot()), i, rx)
      ensures Used(Snapshot(), i) && Snapshot().slots[i].rx == rx
    {
      BufferIsHear(Snapshot(), i, rx);
      BufferedStays(Snapshot(), i, rx);
      hide Sound;
      Store(i, slots[i].(rx := rx));
    }

    /** The frame at the front taken out of the buffer, and handled. */
    method ServeFront(i: nat, luck: Luck)
      requires Valid() && Used(Snapshot(), i) && Ready(slots[i].rx) && Digits(luck.digits)
      modifies this, slots, order, claims
      ensures Valid() && Used(Snapshot(), i) && |Snapshot().slots[i].rx| < |old(slots[i].rx)|
      ensures Sound(Buffered(old(Snapshot()), i, Behind(old(slots[i].rx))))
      ensures Snapshot() == Stepped(Buffered(old(Snapshot()), i, Behind(old(slots[i].rx))), i, Front(old(slots[i].rx)), luck, rules)
    {
      var rx := slots[i].rx;
      hide Sound, Buffered, Stepped;
      Hear(i, Behind(rx));
      Handle(i, Front(rx), luck);
    }

    /** The frame loop: it goes on through what is buffered even when a frame has dropped its sender. */
    method ServeAll(i: nat, luck: nat -> Luck)
      requires Valid() && Used(Snapshot(), i) && forall n: nat :: Digits(luck(n).digits)
      modifies this, slots, order, claims
      ensures Shape() && Snapshot() == Served(old(Snapshot()), i, luck, 0, rules)
    {
      ghost var t := Snapshot();
      var k := 0;
      while Ready(slots[i].rx)
        invariant Valid() && Used(Snapshot(), i)
        invariant Served(Snapshot(), i, luck, k, rules) == Served(t, i, luck, 0, rules)
        decreases |slots[i].rx|
      {
        ServedStep(Snapshot(), i, luck, k, rules);
        hide Sound, Buffered, Stepped, Served;
        ServeFront(i, luck(k));
        k := k + 1;
      }
      hide Sound, Dropped;
      ServeRest(i, luck, k);
    }

    /** A malformed length ends the connection; a partial frame waits. */
    method ServeRest(i: nat, luck: nat -> Luck, ghost k: nat)
      requires Valid() && Used(Snapshot(), i) && !Ready(slots[i].rx) && forall n: nat :: Digits(luck(n).digits)
      modifies this, slots, order, claims
      ensures Shape() && Snapshot() == Served(old(Snapshot()), i, luck, k, rules)
    {
      hide Sound, Dropped, Buffered, Stepped, Known, View, Blamed;
      if Malformed(slots[i].rx) {
        BadIsBlamed(Snapshot(), i);
        stats := stats.(badFrames := stats.badFrames + 1);
        Drop(i);
      }
    }

    /** One chunk: buffered, then cut into frames and handled until what is left is partial or malformed. */
    method Service(i: nat, data: seq<byte>, luck: nat -> Luck)
      requires Valid() && Used(Snapshot(), i) && forall n: nat :: Digits(luck(n).digits)
      modifies this, slots, order, claims
      ensures Shape() && Snapshot() == Chunked(old(Snapshot()), i, data, luck, rules)
    {
      BufferedSound(Snapshot(), i, slots[i].rx + data);
      hide Sound, Served, Dropped, Buffered;
      if |slots[i].rx| + |data| > RX_CAPACITY {
        Drop(i);
        return;
      }
      Hear(i, slots[i].rx + data);
      ServeAll(i, luck);
    }

    // ---- arrivals and reaping ----

    /** How many of the connections in the order come from an address. */
    method CountAddress(addr: nat) returns (n: nat)
      requires Valid()
      ensures forall k | 0 <= k < nOrder :: order[k] < SLOTS
      ensures n == PerAddress(Snapshot(), nOrder, addr)
    {
      ghost var t := Snapshot();
      OrderInTable(t);
      n := 0;
      var k := 0;
      while k < nOrder
        invariant k <= nOrder && n == PerAddress(t, k, addr)
      {
        assert order[k] == t.order[k];
        if slots[order[k]].addr == addr {
          n := n + 1;
        }
        k := k + 1;
      }
    }

    /** The first slot not in use: a dropped slot is in use until it is reaped. */
    method FindFree() returns (i: nat)
      requires Shape()
      ensures i == FreeSlot(slots[..], 0)
    {
      i := 0;
      while i < SLOTS && slots[i].inUse
        invariant i <= SLOTS && FreeSlot(slots[..], 0) == FreeSlot(slots[..], i)
      {
        i := i + 1;
      }
    }

    /** A connection at the door: refused if the order is full, its address has its share, or no slot is free. */
    method Accept(addr: nat, born: int) returns (i: int)
      requires Valid()
      modifies this, slots, order
      ensures Shape()
      ensures forall k | 0 <= k < |old(Snapshot()).order| :: old(Snapshot()).order[k] < SLOTS
      ensures Snapshot() == Arrived(old(Snapshot()), addr, born)
      ensures i < 0 <==> TurnedAway(old(Snapshot()), addr) || FreeSlot(old(Snapshot()).slots, 0) == SLOTS
      ensures i >= 0 ==> i == FreeSlot(old(Snapshot()).slots, 0)
    {
      OrderInTable(Snapshot());
      hide Sound, FreeSlot, PerAddress;
      if nOrder >= SLOTS {
        return -1;
      }
      var n := CountAddress(addr);
      if n >= MOST_PER_ADDRESS {
        stats := stats.(ipRejects := stats.ipRejects + 1);
        return -1;
      }
      i := FindFree();
      if i == SLOTS {
        return -1;
      }
      Store(i, Slot(true, false, slots[i].gen, addr, [], -1, -1, born, [], slots[i].txbuf, 0, [], None, 0));
      OrderAdd(i);
    }

    // ---- flushing ----

    /** What one send took leaves the front of the transmit buffer; a client still too far behind is dropped. */
    method Flush(i: nat, sent: nat)
      requires Valid() && Used(Snapshot(), i) && sent <= slots[i].txLen
      modifies this, slots, order, claims
      ensures Shape() && Snapshot() == Flushed(old(Snapshot()), i, sent)
    {
      hide Sound, Moved, Dropped, Flushed;
      FlushedStays(Snapshot(), i, sent);
      var s := slots[i];
      var tx := MoveDown(s.txbuf, sent, s.txLen);
      s := s.(txbuf := tx, txLen := s.txLen - sent);
      MovedIs(slots[i], sent, s);
      Store(i, s);
      if s.txLen > TX_BACKLOG {
        stats := stats.(txDrops := stats.txDrops + 1);
        Drop(i);
      }
    }

    /** Every slot a drop retired is freed, its generation moved on. */
    method ReapAll()
      requires Valid()
      modifies slots
      ensures Shape() && Snapshot() == Reaped(old(Snapshot()))
    {
      var i := 0;
      while i < SLOTS
        invariant i <= SLOTS
        invariant forall j | 0 <= j < i :: slots[j] == Freed(old(slots[j]))
        invariant forall j | i <= j < SLOTS :: slots[j] == old(slots[j])
      {
        if slots[i].inUse && slots[i].dead {
          slots[i] := slots[i].(inUse := false, gen := slots[i].gen + 1);
        }
        i := i + 1;
      }
      assert slots[..] == Reaped(old(Snapshot())).slots;
    }
  }
}
