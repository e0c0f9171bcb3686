/** What the relay says does not depend on the checksums it has heard. */
module Bytewise {
  import opened Bytes
  import opened Ordered
  import opened Framing
  import opened Verdict
  import opened Relay
  import opened Pairing
  import opened Passage

  /** The same relay, except for the checksum ledgers and the two counts of its verdict. */
  predicate Alike(a: Relay, b: Relay) {
    && a.live == b.live && a.names == b.names && a.conns.Keys == b.conns.Keys
    && a.stats == b.stats.(crcOk := a.stats.crcOk, crcBad := a.stats.crcBad)
    && forall c | c in a.conns :: a.conns[c] == b.conns[c].(ledger := a.conns[c].ledger)
  }

  lemma AlikeSelf(a: Relay)
    ensures Alike(a, a)
  {}

  lemma AlikeTwice(a: Relay, b: Relay, c: Relay)
    requires Alike(a, b) && Alike(b, c)
    ensures Alike(a, c)
  {}

  lemma AlikeBack(a: Relay, b: Relay)
    requires Alike(a, b)
    ensures Alike(b, a)
  {}

  lemma AlikeKnown(a: Relay, b: Relay)
    requires Alike(a, b) && Known(a)
    ensures Known(b)
  {}

  lemma SendAlike(a: Relay, b: Relay, c: Id, bytes: seq<byte>)
    requires Alike(a, b) && c in a.conns
    ensures Alike(Send(a, c, bytes), Send(b, c, bytes))
  {}

  lemma HeardAlike(a: Relay, b: Relay, c: Id, rx: seq<byte>)
    requires Alike(a, b) && c in a.conns
    ensures Alike(Heard(a, c, rx), Heard(b, c, rx))
  {}

  lemma DropAlike(a: Relay, b: Relay, c: Id)
    requires Alike(a, b) && Known(a) && Known(b) && c in a.conns
    ensures Alike(Drop(a, c), Drop(b, c))
  {
    hide PeerLeft, IndexOf, Without;
  }

  // ---- pairing ----

  lemma {:induction false} OldestAlike(a: Relay, b: Relay, ids: seq<Id>, c: Id)
    requires Alike(a, b) && forall i | 0 <= i < |ids| :: ids[i] in a.conns
    ensures Oldest(a, ids, c) == Oldest(b, ids, c)
  {
    if ids != [] {
      OldestAlike(a, b, ids[..|ids| - 1], c);
    }
  }

  lemma TryPairAlike(a: Relay, b: Relay, c: Id, seed: nat, rules: Settings)
    requires Alike(a, b) && Known(a) && Known(b) && c in a.conns
    ensures Alike(TryPair(a, c, seed, rules), TryPair(b, c, seed, rules))
  {
    OldestAlike(a, b, a.live, c);
    hide Oldest, StartFrame;
  }

  lemma GreetAlike(a: Relay, b: Relay, c: Id, name: Name)
    requires Alike(a, b) && c in a.conns
    ensures Alike(Greet(a, c, name), Greet(b, c, name))
  {}

  lemma HelloAlike(a: Relay, b: Relay, c: Id, payload: seq<byte>, luck: Luck, rules: Settings)
    requires Alike(a, b) && Known(a) && Known(b) && c in a.conns && Digits(luck.digits)
    ensures Alike(OnHello(a, c, payload, luck, rules), OnHello(b, c, payload, luck, rules))
  {
    AlikeNames(a, b);
    hide Alike, Known, Drop, TryPair, Greet, Asked, FreeName, NameOk;
    DropAlike(a, b, c);
    var asked := Asked(payload);
    if asked.Some? {
      AskedIsOk(payload);
      FreeNameIsOk(a.names, asked.value, luck.digits);
      var free := FreeName(a.names, asked.value, luck.digits);
      if free.Some? {
        GreetAlike(a, b, c, free.value);
        GreetTold(a, c, free.value);
        GreetTold(b, c, free.value);
        TryPairAlike(Greet(a, c, free.value), Greet(b, c, free.value), c, luck.seed, rules);
      }
    }
  }

  lemma AlikeNames(a: Relay, b: Relay)
    requires Alike(a, b)
    ensures a.names == b.names && a.live == b.live && a.conns.Keys == b.conns.Keys
  {}

  // ---- the lobby ----

  lemma {:induction false} NamedAlike(a: Relay, b: Relay, ids: seq<Id>)
    requires Alike(a, b) && forall i | 0 <= i < |ids| :: ids[i] in a.conns
    ensures Named(a, ids) == Named(b, ids)
  {
    if ids != [] {
      NamedAlike(a, b, ids[..|ids| - 1]);
    }
  }

  lemma {:induction false} RowsAlike(a: Relay, b: Relay, ids: seq<Id>)
    requires Alike(a, b) && forall i | 0 <= i < |ids| :: ids[i] in a.conns && |a.conns[ids[i]].name| <= 8
    ensures forall i | 0 <= i < |ids| :: ids[i] in b.conns && |b.conns[ids[i]].name| <= 8
    ensures Rows(a, ids) == Rows(b, ids)
  {
    if ids != [] {
      RowsAlike(a, b, ids[..|ids| - 1]);
    }
  }

  lemma LobbyAlike(a: Relay, b: Relay)
    requires Alike(a, b) && Known(a) && Known(b)
    ensures LobbyFrame(a) == LobbyFrame(b)
  {
    NamedAlike(a, b, a.live);
    var named := Named(a, a.live);
    RowsAlike(a, b, if |named| > LOBBY_MOST then named[..LOBBY_MOST] else named);
    hide Rows, Named, Alike;
  }

  // ---- a frame ----

  /** Listening to a record changes nothing anybody is told. */
  lemma LogAlike(r: Relay, c: Id, tick: byte, crc: byte)
    requires Known(r) && c in r.conns
    ensures Alike(LogCrc(r, c, tick, crc), r)
  {
    hide Ruled;
  }

  lemma ForwardAlike(a: Relay, b: Relay, c: Id, p: Packet)
    requires Alike(a, b) && Known(a) && Known(b) && c in a.conns && |p.payload| < LONGEST
    ensures Alike(Forward(a, c, p), Forward(b, c, p))
  {
    AlikePartner(a, b, c);
    hide Alike, Known, Send, LogCrc, FrameBytes, Padded, SameNames;
    ForwardHeard(a, c, p);
    ForwardHeard(b, c, p);
    AlikeBack(Forward(b, c, p), ForwardOnly(b, c, p));
    if a.conns[c].partner.Some? {
      SendAlike(a, b, a.conns[c].partner.value, FrameBytes(Packet(p.kind, Padded(p.payload, GAME_PAYLOAD))));
    }
    AlikeTwice(Forward(a, c, p), ForwardOnly(a, c, p), ForwardOnly(b, c, p));
    AlikeTwice(Forward(a, c, p), ForwardOnly(b, c, p), Forward(b, c, p));
  }

  lemma AlikePartner(a: Relay, b: Relay, c: Id)
    requires Alike(a, b) && Known(a) && c in a.conns
    ensures c in b.conns && a.conns[c].partner == b.conns[c].partner && a.conns[c].rx == b.conns[c].rx
    ensures |a.conns[c].tx| == |b.conns[c].tx|
    ensures a.conns[c].partner.Some? ==> a.conns[c].partner.value in a.conns
  {}

  /** The forwarding without the listening. */
  function ForwardOnly(r: Relay, c: Id, p: Packet): Relay
    requires Known(r) && c in r.conns && |p.payload| < LONGEST
  {
    if r.conns[c].partner.None? then r
    else Send(r, r.conns[c].partner.value, FrameBytes(Packet(p.kind, Padded(p.payload, GAME_PAYLOAD))))
  }

  lemma ForwardHeard(r: Relay, c: Id, p: Packet)
    requires Known(r) && c in r.conns && |p.payload| < LONGEST
    ensures Alike(Forward(r, c, p), ForwardOnly(r, c, p))
  {
    var sent := ForwardOnly(r, c, p);
    if r.conns[c].partner.Some? {
      SendKeeps(r, r.conns[c].partner.value, FrameBytes(Packet(p.kind, Padded(p.payload, GAME_PAYLOAD))));
    }
    AlikeSelf(sent);
    if p.kind == INPUT && |p.payload| > CRC_AT {
      LogAlike(sent, c, p.payload[0], p.payload[CRC_AT]);
    }
    hide LogCrc, Alike, FrameBytes, Padded;
  }

  /** One frame, to relays that differ only in what they have heard: they go on differing only in that. */
  lemma HandleAlike(a: Relay, b: Relay, c: Id, p: Packet, luck: Luck, rules: Settings)
    requires Alike(a, b) && Known(a) && Known(b) && c in a.conns && |p.payload| < LONGEST && Digits(luck.digits)
    ensures c in b.conns && Alike(Handle(a, c, p, luck, rules), Handle(b, c, p, luck, rules))
  {
    AlikeNames(a, b);
    hide Alike, Known, Forward, OnHello, LobbyFrame, Send, TryPair, Drop;
    if Relayed(p.kind) {
      ForwardAlike(a, b, c, p);
    } else if p.kind == HELLO {
      HelloAlike(a, b, c, p.payload, luck, rules);
    } else if p.kind == LIST {
      LobbyAlike(a, b);
      SendAlike(a, b, c, LobbyFrame(a));
    } else if p.kind == JOIN {
      TryPairAlike(a, b, c, luck.seed, rules);
    } else if p.kind == PING {
      SendAlike(a, b, c, FrameBytes(Packet(PONG, [])));
    } else if p.kind == BYE {
      DropAlike(a, b, c);
    }
  }

  /** And one chunk. */
  lemma {:induction false} ServeAlike(a: Relay, b: Relay, c: Id, luck: nat -> Luck, k: nat, rules: Settings)
    requires Alike(a, b) && Known(a) && Known(b) && c in a.conns && forall i: nat :: Digits(luck(i).digits)
    ensures c in b.conns && Alike(Serve(a, c, luck, k, rules), Serve(b, c, luck, k, rules))
    decreases |a.conns[c].rx|
  {
    hide Alike, Known, Handle, Heard, Drop, Blamed;
    AlikePartner(a, b, c);
    var rx := a.conns[c].rx;
    if Ready(rx) {
      ServeStep(a, c, luck, k, rules);
      ServeStep(b, c, luck, k, rules);
      hide Serve, Ready, Front, Behind;
      var (g, h, p) := (Heard(a, c, Behind(rx)), Heard(b, c, Behind(rx)), Front(rx));
      HeardKeeps(a, c, Behind(rx));
      HeardAlike(a, b, c, Behind(rx));
      HandleAlike(g, h, c, p, luck(k), rules);
      HandleKeepsEars(g, c, p, luck(k), rules);
      ServeAlike(Handle(g, c, p, luck(k), rules), Handle(h, c, p, luck(k), rules), c, luck, k + 1, rules);
    } else if Malformed(rx) {
      BlamedAlike(a, b);
      DropAlike(Blamed(a), Blamed(b), c);
    }
  }

  lemma BlamedAlike(a: Relay, b: Relay)
    requires Alike(a, b) && Known(a) && Known(b)
    ensures Alike(Blamed(a), Blamed(b)) && Known(Blamed(a)) && Known(Blamed(b)) && Blamed(a).conns == a.conns
  {}

  // ---- everything else that happens ----

  lemma {:induction false} FromAddressAlike(a: Relay, b: Relay, ids: seq<Id>, addr: nat)
    requires Alike(a, b) && forall i | 0 <= i < |ids| :: ids[i] in a.conns
    ensures FromAddress(a, ids, addr) == FromAddress(b, ids, addr)
  {
    if ids != [] {
      FromAddressAlike(a, b, ids[..|ids| - 1], addr);
    }
  }

  lemma AcceptAlike(a: Relay, b: Relay, c: Id, addr: nat, born: int)
    requires Alike(a, b) && Known(a) && Known(b)
    ensures Alike(Accept(a, c, addr, born), Accept(b, c, addr, born))
  {
    FromAddressAlike(a, b, a.live, addr);
    hide FromAddress;
  }

  lemma FlushAlike(a: Relay, b: Relay, c: Id, k: nat)
    requires Alike(a, b) && Known(a) && Known(b) && c in a.conns && k <= |a.conns[c].tx|
    ensures c in b.conns && k <= |b.conns[c].tx| && Alike(Flush(a, c, k), Flush(b, c, k))
  {
    hide Alike, Known, Drop, Drained, Overrun;
    AlikePartner(a, b, c);
    DrainedIsKnown(a, c, k);
    DrainedIsKnown(b, c, k);
    DrainedAlike(a, b, c, k);
    OverrunStays(Drained(a, c, k));
    OverrunStays(Drained(b, c, k));
    DropAlike(Overrun(Drained(a, c, k)), Overrun(Drained(b, c, k)), c);
  }

  lemma DrainedAlike(a: Relay, b: Relay, c: Id, k: nat)
    requires Alike(a, b) && c in a.conns && k <= |a.conns[c].tx|
    ensures c in b.conns && k <= |b.conns[c].tx| && Alike(Drained(a, c, k), Drained(b, c, k))
    ensures Alike(Overrun(Drained(a, c, k)), Overrun(Drained(b, c, k)))
    ensures Drained(a, c, k).conns[c].tx == Drained(b, c, k).conns[c].tx
  {}

  lemma OverrunStays(r: Relay)
    ensures Overrun(r).conns == r.conns
  {}

  lemma ForgetAlike(a: Relay, b: Relay)
    requires Alike(a, b)
    ensures Alike(Forgotten(a), Forgotten(b))
  {}

  lemma MarriedAlike(a: Relay, b: Relay)
    requires Alike(a, b) && Married(a)
    ensures Married(b)
  {}

  lemma PossibleAlike(a: Relay, b: Relay, e: Event)
    requires Alike(a, b) && Known(a) && Known(b) && Possible(a, e)
    ensures Possible(b, e) && (Conforms(a, e) <==> Conforms(b, e))
  {
    if e.Forget? {
      ForgetAlike(a, b);
      AlikeKnown(Forgotten(a), Forgotten(b));
    }
    hide Known, Forgotten;
  }

  /** Any event, to relays that differ only in what they have heard: they go on differing only in that. */
  lemma StepAlike(a: Relay, b: Relay, e: Event, rules: Settings)
    requires Alike(a, b) && Known(a) && Known(b) && Possible(a, e)
    ensures Possible(b, e) && Alike(Step(a, e, rules), Step(b, e, rules))
  {
    PossibleAlike(a, b, e);
    hide Alike, Known, Handle, Drop, Flush, Forgotten, Accept;
    match e
    case Arrive(c, addr, born) => AcceptAlike(a, b, c, addr, born);
    case Speak(c, p, luck) => HandleAlike(a, b, c, p, luck, rules);
    case Hangup(c) => DropAlike(a, b, c);
    case Take(c, k) => FlushAlike(a, b, c, k);
    case Forget => ForgetAlike(a, b);
  }
}
