/** The turns of the event loop, and what they can put into a transmit buffer before it is flushed. */
module Schedule {
  import opened Bytes
  import opened Ordered
  import opened Framing
  import opened Verdict
  import opened Relay
  import opened Pairing
  import opened Passage
  import opened Conduct

  // ---- whoever's link changes is told ----

  /** Nobody is told less, and of all but the speaker, whoever is told nothing keeps its link. */
  ghost predicate Spoken(r: Relay, s: Relay, c: Id) {
    && c in r.conns && s.conns.Keys == r.conns.Keys
    && forall o | o in r.conns ::
         && |r.conns[o].tx| <= |s.conns[o].tx|
         && (o != c && |s.conns[o].tx| == |r.conns[o].tx| ==> s.conns[o].partner == r.conns[o].partner)
  }

  lemma SpokenTwice(a: Relay, b: Relay, d: Relay, c: Id)
    requires Spoken(a, b, c) && Spoken(b, d, c)
    ensures Spoken(a, d, c)
  {}

  lemma SpokenSelf(r: Relay, c: Id)
    requires c in r.conns
    ensures Spoken(r, r, c)
  {}

  lemma SendIsSpoken(r: Relay, c: Id, o: Id, bytes: seq<byte>)
    requires c in r.conns && o in r.conns
    ensures Spoken(r, Send(r, o, bytes), c)
  {}

  lemma DropIsSpoken(r: Relay, c: Id)
    requires Known(r) && c in r.conns
    ensures Spoken(r, Drop(r, c), c)
  {
    assert |PeerLeft()| == 16;
    hide PeerLeft, IndexOf, Without;
  }

  lemma LogIsSpoken(r: Relay, c: Id, tick: byte, crc: byte)
    requires Known(r) && c in r.conns
    ensures Spoken(r, LogCrc(r, c, tick, crc), c)
  {
    hide Ruled;
  }

  lemma ForwardIsSpoken(r: Relay, c: Id, p: Packet)
    requires Known(r) && c in r.conns && |p.payload| < LONGEST
    ensures Spoken(r, Forward(r, c, p), c)
  {
    hide FrameBytes, Padded, LogCrc, Spoken, Send, SameNames;
    SpokenSelf(r, c);
    var sent := r;
    if r.conns[c].partner.Some? {
      var bytes := FrameBytes(Packet(p.kind, Padded(p.payload, GAME_PAYLOAD)));
      SendKeeps(r, r.conns[c].partner.value, bytes);
      SendIsSpoken(r, c, r.conns[c].partner.value, bytes);
      sent := Send(r, r.conns[c].partner.value, bytes);
      SendKeepsConns(r, r.conns[c].partner.value, bytes);
    }
    hide Known;
    if p.kind == INPUT && |p.payload| > CRC_AT {
      LogIsSpoken(sent, c, p.payload[0], p.payload[CRC_AT]);
      SpokenTwice(r, sent, LogCrc(sent, c, p.payload[0], p.payload[CRC_AT]), c);
    }
  }

  lemma SendKeepsConns(r: Relay, o: Id, bytes: seq<byte>)
    requires o in r.conns
    ensures Send(r, o, bytes).conns.Keys == r.conns.Keys
  {}

  lemma TryPairIsSpoken(r: Relay, c: Id, seed: nat, rules: Settings)
    requires Known(r) && c in r.conns
    ensures Spoken(r, TryPair(r, c, seed, rules), c)
  {
    if Oldest(r, r.live, c).Some? {
      PairingTells(r, c, seed, rules);
      assert forall role, them: Name | |them| <= 8 :: |StartFrame(role, seed, rules, them)| == 15;
    }
    hide Pair, Oldest, StartFrame;
  }

  lemma GreetIsSpoken(r: Relay, c: Id, name: Name)
    requires c in r.conns
    ensures Spoken(r, Greet(r, c, name), c)
  {}

  lemma HelloIsSpoken(r: Relay, c: Id, payload: seq<byte>, luck: Luck, rules: Settings)
    requires Known(r) && c in r.conns && Digits(luck.digits)
    ensures Spoken(r, OnHello(r, c, payload, luck, rules), c)
  {
    hide Drop, TryPair, FreeName, IndexOf, Put, Asked, NameOk, Known, Told, Spoken, Greet;
    DropIsSpoken(r, c);
    var asked := Asked(payload);
    if asked.Some? {
      AskedIsOk(payload);
      FreeNameIsOk(r.names, asked.value, luck.digits);
      var free := FreeName(r.names, asked.value, luck.digits);
      if free.Some? {
        var named := Greet(r, c, free.value);
        GreetTold(r, c, free.value);
        GreetIsSpoken(r, c, free.value);
        TryPairIsSpoken(named, c, luck.seed, rules);
        SpokenTwice(r, named, TryPair(named, c, luck.seed, rules), c);
      }
    }
  }

  lemma HandleIsSpoken(r: Relay, c: Id, p: Packet, luck: Luck, rules: Settings)
    requires Known(r) && c in r.conns && |p.payload| < LONGEST && Digits(luck.digits)
    ensures Spoken(r, Handle(r, c, p, luck, rules), c)
  {
    hide Known, Forward, OnHello, TryPair, Drop, Send, LobbyFrame, Spoken;
    SpokenSelf(r, c);
    if Relayed(p.kind) {
      ForwardIsSpoken(r, c, p);
    } else if p.kind == HELLO {
      HelloIsSpoken(r, c, p.payload, luck, rules);
    } else if p.kind == LIST {
      SendIsSpoken(r, c, c, LobbyFrame(r));
    } else if p.kind == JOIN {
      TryPairIsSpoken(r, c, luck.seed, rules);
    } else if p.kind == PING {
      SendIsSpoken(r, c, c, FrameBytes(Packet(PONG, [])));
    } else if p.kind == BYE {
      DropIsSpoken(r, c);
    }
  }

  lemma HeardIsSpoken(r: Relay, c: Id, rx: seq<byte>)
    requires c in r.conns
    ensures Spoken(r, Heard(r, c, rx), c)
  {}

  lemma {:induction false} ServeIsSpoken(r: Relay, c: Id, luck: nat -> Luck, k: nat, rules: Settings)
    requires Known(r) && c in r.conns && forall i: nat :: Digits(luck(i).digits)
    ensures Spoken(r, Serve(r, c, luck, k, rules), c)
    decreases |r.conns[c].rx|
  {
    hide Known, Handle, Heard, Drop, Blamed, Told, Spoken;
    var rx := r.conns[c].rx;
    SpokenSelf(r, c);
    if Ready(rx) {
      var h := Heard(r, c, Behind(rx));
      HeardKeeps(r, c, Behind(rx));
      HandleTold(h, c, Front(rx), luck(k), rules);
      HandleKeepsEars(h, c, Front(rx), luck(k), rules);
      ServeStep(r, c, luck, k, rules);
      var a := Handle(h, c, Front(rx), luck(k), rules);
      ServeIsSpoken(a, c, luck, k + 1, rules);
      var s := Serve(a, c, luck, k + 1, rules);
      hide Serve;
      HeardIsSpoken(r, c, Behind(rx));
      HandleIsSpoken(h, c, Front(rx), luck(k), rules);
      SpokenTwice(r, h, a, c);
      SpokenTwice(r, a, s, c);
    } else if Malformed(rx) {
      BlamedIsKnown(r);
      DropIsSpoken(Blamed(r), c);
      BlamedIsSpoken(r, Drop(Blamed(r), c), c);
    }
  }

  lemma BlamedIsSpoken(r: Relay, s: Relay, c: Id)
    requires Spoken(Blamed(r), s, c)
    ensures Spoken(r, s, c)
  {}

  // ---- one turn of the loop ----

  /** A partial frame and a chunk: all that one turn parses of a connection's stream. */
  const PARSED: nat := 4296

  /** Where a turn starts: everything flushed, but for word of partners that the flushing itself lost. */
  ghost predicate Rested(r: Relay) {
    Lawful(r) && forall o | o in r.conns :: |r.conns[o].tx| <= TX_BACKLOG + if r.conns[o].partner.None? then 16 else 0
  }

  /** Who was told something by this, other than the speaker. */
  function ToldBy(r: Relay, s: Relay, c: Id): set<Id>
    requires r.conns.Keys <= s.conns.Keys
  {
    set o | o in r.conns && o != c && |s.conns[o].tx| != |r.conns[o].tx|
  }

  /**
   * One turn of the loop, or the beginning of one: at most one chunk from each connection, nobody told anything by
   * the chunks of two others, and any arrivals, losses and sends in between. `turns` are those whose chunk has
   * come, `told` those another's chunk has told something.
   */
  ghost predicate Turn(ds: seq<Doing>, rules: Settings, first: Relay, turns: set<Id>, told: set<Id>, r: Relay)
    decreases |ds|, 0
  {
    if ds == [] then r == first && Rested(first) && turns == told == {}
    else AfterDoing(ds[..|ds| - 1], ds[|ds| - 1], rules, first, turns, told, r)
  }

  ghost predicate AfterDoing(ds: seq<Doing>, d: Doing, rules: Settings, first: Relay, turns: set<Id>, told: set<Id>, r: Relay)
    decreases |ds|, 1
  {
    exists was: Relay, came: set<Id>, heard: set<Id> ::
      Turn(ds, rules, first, came, heard, was) && Done(was, d, rules, came, heard, turns, told, r)
  }

  ghost predicate Done(was: Relay, d: Doing, rules: Settings, came: set<Id>, heard: set<Id>, turns: set<Id>, told: set<Id>, r: Relay) {
    && Known(was) && Can(was, d) && Decent(was, d, rules) && r == Does(was, d, rules)
    && match d
       case One(e) => !e.Speak? && turns == came && told == heard
       case Chunk(c, data, luck) =>
         && c !in came && turns == came + {c}
         && was.conns.Keys <= r.conns.Keys && ToldBy(was, r, c) !! heard && told == heard + ToldBy(was, r, c)
  }

  /** A turn goes on with anything that may happen to it. */
  lemma TurnGoesOn(ds: seq<Doing>, d: Doing, rules: Settings, first: Relay, came: set<Id>, heard: set<Id>, was: Relay,
                   turns: set<Id>, told: set<Id>, r: Relay)
    requires Turn(ds, rules, first, came, heard, was) && Done(was, d, rules, came, heard, turns, told, r)
    ensures Turn(ds + [d], rules, first, turns, told, r)
  {
    hide Done, Rested;
    assert AfterDoing(ds, d, rules, first, turns, told, r);
    assert (ds + [d])[..|ds + [d]| - 1] == ds;
  }

  /** A backlog; its own chunk's replies; one other's chunk; and word of a partner lost, at most once a link. */
  function Most(o: Id, alone: bool, turns: set<Id>, told: set<Id>): nat {
    TX_BACKLOG + (if alone then 16 else 0)
    + (if o in turns then OwnMost(PARSED) + 16 else 0) + (if o in told then OthersMost(PARSED) + 16 else 0)
  }

  ghost predicate Bounded(r: Relay, turns: set<Id>, told: set<Id>) {
    forall o | o in r.conns :: |r.conns[o].tx| <= Most(o, r.conns[o].partner.None?, turns, told)
  }

  lemma BoundedIsContained(r: Relay, turns: set<Id>, told: set<Id>)
    requires Bounded(r, turns, told)
    ensures Contained(r)
  {
    forall o | o in r.conns
      ensures |r.conns[o].tx| <= TX_CAPACITY
    {
      assert |r.conns[o].tx| <= Most(o, r.conns[o].partner.None?, turns, told);
    }
  }

  /** Losing a connection tells its partner, and cuts its link. */
  lemma DropIsBounded(r: Relay, c: Id, turns: set<Id>, told: set<Id>)
    requires Married(r) && Known(r) && c in r.conns && Bounded(r, turns, told)
    ensures Bounded(Drop(r, c), turns, told)
  {
    assert |PeerLeft()| == 16;
    hide PeerLeft, IndexOf, Without;
    var d := Drop(r, c);
    if c in r.live {
      DropCutsOnlyPartner(r, c);
      forall o | o in d.conns
        ensures |d.conns[o].tx| <= Most(o, d.conns[o].partner.None?, turns, told)
      {
        assert |r.conns[o].tx| <= Most(o, r.conns[o].partner.None?, turns, told);
      }
    }
  }

  lemma ArriveIsBounded(r: Relay, c: Id, addr: nat, born: int, turns: set<Id>, told: set<Id>)
    requires Known(r) && c !in r.conns && Bounded(r, turns, told)
    ensures Bounded(Accept(r, c, addr, born), turns, told)
  {
    hide FromAddress, Known;
    var s := Accept(r, c, addr, born);
    forall o | o in s.conns
      ensures |s.conns[o].tx| <= Most(o, s.conns[o].partner.None?, turns, told)
    {
      if o in r.conns {
        assert |r.conns[o].tx| <= Most(o, r.conns[o].partner.None?, turns, told);
      }
    }
  }

  lemma FlushIsBounded(r: Relay, c: Id, k: nat, turns: set<Id>, told: set<Id>)
    requires Married(r) && Known(r) && c in r.conns && k <= |r.conns[c].tx| && Bounded(r, turns, told)
    ensures Bounded(Flush(r, c, k), turns, told)
  {
    DrainedIsKnown(r, c, k);
    var s := Drained(r, c, k);
    assert SameMatches(r, Overrun(s));
    SameMatchesKeepMarried(r, Overrun(s));
    DrainedIsBounded(r, c, k, turns, told);
    hide Married, Known, Bounded, Drop, SameMatches;
    DropIsBounded(Overrun(s), c, turns, told);
  }

  lemma DrainedIsBounded(r: Relay, c: Id, k: nat, turns: set<Id>, told: set<Id>)
    requires c in r.conns && k <= |r.conns[c].tx| && Bounded(r, turns, told)
    ensures Bounded(Drained(r, c, k), turns, told) && Bounded(Overrun(Drained(r, c, k)), turns, told)
  {
    var s := Drained(r, c, k);
    forall o | o in s.conns
      ensures |s.conns[o].tx| <= Most(o, s.conns[o].partner.None?, turns, told)
    {
      assert |r.conns[o].tx| <= Most(o, r.conns[o].partner.None?, turns, told);
    }
  }

  lemma ForgetIsBounded(r: Relay, turns: set<Id>, told: set<Id>)
    requires Bounded(r, turns, told)
    ensures Bounded(Forgotten(r), turns, told)
  {
    var s := Forgotten(r);
    forall o | o in s.conns
      ensures |s.conns[o].tx| <= Most(o, s.conns[o].partner.None?, turns, told)
    {
      assert |r.conns[o].tx| <= Most(o, r.conns[o].partner.None?, turns, told);
    }
  }

  lemma {:induction false} TotalRises(r: Relay, s: Relay, ids: set<Id>)
    requires ids <= r.conns.Keys && ids <= s.conns.Keys && forall o | o in ids :: |r.conns[o].tx| <= |s.conns[o].tx|
    ensures Total(r, ids) <= Total(s, ids)
    decreases |ids|
  {
    if ids != {} {
      var o :| o in ids;
      TotalWithout(r, ids, o);
      TotalWithout(s, ids, o);
      TotalRises(r, s, ids - {o});
    }
  }

  /** If all others were told no more than this together, none of them was told more. */
  lemma AllToOne(r: Relay, s: Relay, c: Id, o: Id, own: nat, others: nat)
    requires Grew(r, s, c, own, others) && o in r.conns && o != c
    ensures |s.conns[o].tx| <= |r.conns[o].tx| + others
  {
    var ids := r.conns.Keys - {c};
    TotalWithout(r, ids, o);
    TotalWithout(s, ids, o);
    forall q | q in ids - {o}
      ensures |r.conns[q].tx| <= |s.conns[q].tx|
    {
      assert r.conns[q].tx <= s.conns[q].tx;
    }
    TotalRises(r, s, ids - {o});
  }

  lemma OneIsBounded(r: Relay, s: Relay, c: Id, o: Id, turns: set<Id>, told: set<Id>)
    requires Bounded(r, turns, told) && c !in turns && o in s.conns && Spoken(r, s, c)
    requires Grew(r, s, c, OwnMost(PARSED), OthersMost(PARSED)) && ToldBy(r, s, c) !! told
    ensures |s.conns[o].tx| <= Most(o, s.conns[o].partner.None?, turns + {c}, told + ToldBy(r, s, c))
  {
    assert |r.conns[o].tx| <= Most(o, r.conns[o].partner.None?, turns, told);
    hide Total, OwnMost, OthersMost;
    if o != c {
      AllToOne(r, s, c, o, OwnMost(PARSED), OthersMost(PARSED));
      assert o in ToldBy(r, s, c) <==> |s.conns[o].tx| != |r.conns[o].tx|;
    }
  }

  /** A chunk that tells nobody another's chunk has told keeps the bound. */
  lemma ChunkIsBounded(r: Relay, c: Id, data: seq<byte>, luck: nat -> Luck, rules: Settings, turns: set<Id>, told: set<Id>)
    requires Lawful(r) && Known(r) && c in r.live && c in r.conns && |data| <= CHUNK && c !in turns && Bounded(r, turns, told)
    requires forall i: nat :: Digits(luck(i).digits)
    requires r.conns.Keys <= Serviced(r, c, data, luck, rules).conns.Keys
    requires ToldBy(r, Serviced(r, c, data, luck, rules), c) !! told
    ensures var s := Serviced(r, c, data, luck, rules); Bounded(s, turns + {c}, told + ToldBy(r, s, c))
  {
    var rx := r.conns[c].rx + data;
    var (h, s) := (Heard(r, c, rx), Serviced(r, c, data, luck, rules));
    LawfulRx(r, c);
    HeardKeeps(r, c, rx);
    HeardIsSpoken(r, c, rx);
    MostIsMost(|rx|);
    hide Known, Serve, Lawful, Spoken, OwnMost, OthersMost, Grew, ToldBy;
    ServeGrows(h, c, luck, 0, rules);
    ServeIsSpoken(h, c, luck, 0, rules);
    SpokenTwice(r, h, s, c);
    GrewLess(h, s, c, OwnMost(|rx|), OthersMost(|rx|), OwnMost(PARSED), OthersMost(PARSED));
    HeardGrew(r, h, s, c, rx, OwnMost(PARSED), OthersMost(PARSED));
    forall o | o in s.conns
      ensures |s.conns[o].tx| <= Most(o, s.conns[o].partner.None?, turns + {c}, told + ToldBy(r, s, c))
    {
      OneIsBounded(r, s, c, o, turns, told);
    }
  }

  lemma MostIsMost(n: nat)
    requires n <= PARSED
    ensures OwnMost(n) <= OwnMost(PARSED) && OthersMost(n) <= OthersMost(PARSED)
  {
    assert n / 2 <= PARSED / 2;
  }

  lemma HeardGrew(r: Relay, h: Relay, s: Relay, c: Id, rx: seq<byte>, own: nat, others: nat)
    requires c in r.conns && h == Heard(r, c, rx) && Grew(h, s, c, own, others)
    ensures Grew(r, s, c, own, others)
  {
    assert forall o | o in r.conns :: h.conns[o].tx == r.conns[o].tx;
    assert h.conns.Keys == r.conns.Keys;
    TotalSame(r, h, r.conns.Keys - {c});
  }

  lemma EventIsBounded(r: Relay, e: Event, rules: Settings, turns: set<Id>, told: set<Id>)
    requires Lawful(r) && Known(r) && Possible(r, e) && !e.Speak? && Bounded(r, turns, told)
    ensures Bounded(Step(r, e, rules), turns, told)
  {
    hide Bounded, Known, Registered, Married, Drop, Flush, Accept, Forgotten;
    match e
    case Arrive(c, addr, born) => ArriveIsBounded(r, c, addr, born, turns, told);
    case Hangup(c) => DropIsBounded(r, c, turns, told);
    case Take(c, k) => FlushIsBounded(r, c, k, turns, told);
    case Forget => ForgetIsBounded(r, turns, told);
  }

  /**
   * A turn in which nobody is told anything by the chunks of two others never outgrows a transmit buffer, at any
   * moment of it: a backlog, the replies to a connection's own chunk, one other's chunk, and word of lost partners.
   */
  lemma {:induction false} TurnKeepsRoom(ds: seq<Doing>, rules: Settings, first: Relay, turns: set<Id>, told: set<Id>, r: Relay)
    requires Turn(ds, rules, first, turns, told, r)
    ensures Lawful(r) && Bounded(r, turns, told) && Contained(r)
  {
    hide Lawful, Known, Bounded, Contained, Can, Decent, Does, Done, Rested;
    if ds == [] {
      FirstIsBounded(r);
    } else {
      var (front, d) := (ds[..|ds| - 1], ds[|ds| - 1]);
      var was: Relay, came: set<Id>, heard: set<Id> :|
        Turn(front, rules, first, came, heard, was) && Done(was, d, rules, came, heard, turns, told, r);
      TurnKeepsRoom(front, rules, first, came, heard, was);
      DoingIsBounded(was, d, rules, came, heard, turns, told, r);
    }
    BoundedIsContained(r, turns, told);
  }

  lemma FirstIsBounded(r: Relay)
    requires Rested(r)
    ensures Lawful(r) && Bounded(r, {}, {})
  {
    hide Lawful;
  }

  lemma DoingIsBounded(was: Relay, d: Doing, rules: Settings, came: set<Id>, heard: set<Id>, turns: set<Id>, told: set<Id>, r: Relay)
    requires Lawful(was) && Bounded(was, came, heard) && Done(was, d, rules, came, heard, turns, told, r)
    ensures Lawful(r) && Bounded(r, turns, told)
  {
    hide Lawful, Known, Possible, Conforms, Step, Serviced, Bounded, ConformsThroughout, ToldBy;
    DoesKeepsLaw(was, d, rules);
    match d
    case One(e) => EventIsBounded(was, e, rules, came, heard);
    case Chunk(c, data, luck) => ChunkIsBounded(was, c, data, luck, rules, came, heard);
  }

  // ---- the end of a turn ----

  /** Every listed connection that is still live flushed, in order, each of what its socket takes. */
  ghost function FlushAll(r: Relay, ids: seq<Id>, takes: Id -> nat): Relay {
    if ids == [] then r
    else
      var before := FlushAll(r, ids[..|ids| - 1], takes);
      var c := ids[|ids| - 1];
      if Known(before) && c in before.conns && c in before.live && takes(c) <= |before.conns[c].tx| then Flush(before, c, takes(c))
      else before
  }

  /** Those flushed so far have no more than a backlog left, or are gone. */
  ghost predicate Eased(r: Relay, ids: seq<Id>) {
    forall o | o in ids && o in r.live && o in r.conns ::
      |r.conns[o].tx| <= TX_BACKLOG + if r.conns[o].partner.None? then 16 else 0
  }

  lemma FlushEases(r: Relay, front: seq<Id>, c: Id, k: nat)
    requires Lawful(r) && Known(r) && Eased(r, front) && c in r.conns && c in r.live && k <= |r.conns[c].tx|
    ensures var s := Flush(r, c, k); Lawful(s) && Eased(s, front + [c]) && (forall o | o in s.live :: o in r.live)
  {
    hide Lawful, Known, Drop, Eased;
    StepKeepsLaw(r, Take(c, k), EASY);
    DrainedIsKnown(r, c, k);
    MarriedPartner(r, c);
    var s := Drained(r, c, k);
    DrainedIsEased(r, front, c, k);
    if |s.conns[c].tx| > TX_BACKLOG {
      LoseIsEased(Overrun(s), front, c);
    }
  }

  lemma DrainedIsEased(r: Relay, front: seq<Id>, c: Id, k: nat)
    requires Eased(r, front) && c in r.conns && k <= |r.conns[c].tx|
    ensures var s := Drained(r, c, k); Eased(s, front) && Eased(Overrun(s), front) && (|s.conns[c].tx| <= TX_BACKLOG ==> Eased(s, front + [c]))
  {}

  lemma LoseIsEased(r: Relay, front: seq<Id>, c: Id)
    requires Known(r) && Eased(r, front) && c in r.conns && c in r.live
    requires r.conns[c].partner.Some? ==> r.conns[c].partner.value in r.conns && r.conns[r.conns[c].partner.value].partner == Some(c)
    ensures Eased(Drop(r, c), front + [c]) && (forall o | o in Drop(r, c).live :: o in r.live)
  {
    DropKeepsKnown(r, c);
    DropCutsOnlyPartner(r, c);
    DropTellsOnly(r, c);
    hide Known, Drop;
  }

  const EASY := Settings(0, 0)

  lemma MarriedPartner(r: Relay, c: Id)
    requires Lawful(r) && c in r.live && c in r.conns
    ensures r.conns[c].partner.Some? ==> r.conns[c].partner.value in r.conns && r.conns[r.conns[c].partner.value].partner == Some(c)
  {}

  lemma DropTellsOnly(r: Relay, c: Id)
    requires Known(r) && c in r.conns
    ensures Drop(r, c).conns.Keys == r.conns.Keys
    ensures forall o | o in r.conns ::
              |Drop(r, c).conns[o].tx| <= |r.conns[o].tx| + if r.conns[c].partner == Some(o) then 16 else 0
  {
    assert |PeerLeft()| == 16;
    hide PeerLeft, IndexOf, Without;
  }

  lemma {:induction false} FlushAllEases(r: Relay, ids: seq<Id>, takes: Id -> nat)
    requires Lawful(r)
    requires forall n, c | 0 <= n < |ids| && c == ids[n] ::
               var before := FlushAll(r, ids[..n], takes); c in before.conns ==> takes(c) <= |before.conns[c].tx|
    ensures var s := FlushAll(r, ids, takes); Lawful(s) && Eased(s, ids) && forall o | o in s.live :: o in r.live
  {
    hide Lawful, Eased, Flush;
    if ids == [] {
      NobodyEased(r);
    } else {
      var (front, c) := (ids[..|ids| - 1], ids[|ids| - 1]);
      forall n, d | 0 <= n < |front| && d == front[n]
        ensures var before := FlushAll(r, front[..n], takes); d in before.conns ==> takes(d) <= |before.conns[d].tx|
      {
        assert front[..n] == ids[..n] && ids[n] == d;
      }
      FlushAllEases(r, front, takes);
      var before := FlushAll(r, front, takes);
      LawfulParts(before);
      assert ids[..|ids| - 1] == front && ids == front + [c];
      if c in before.live {
        LiveIsKnown(before, c);
        FlushEases(before, front, c, takes(c));
      } else {
        GoneIsEased(before, front, c);
      }
    }
  }

  lemma NobodyEased(r: Relay)
    ensures Eased(r, [])
  {}

  lemma LiveIsKnown(r: Relay, c: Id)
    requires Known(r) && c in r.live
    ensures c in r.conns
  {}

  lemma GoneIsEased(r: Relay, front: seq<Id>, c: Id)
    requires Eased(r, front) && c !in r.live
    ensures Eased(r, front + [c])
  {}

  /**
   * So the loop can go on for ever: once everything live has been flushed and the dropped forgotten, the next turn
   * starts where this one did.
   */
  lemma TurnEndsRested(r: Relay, takes: Id -> nat)
    requires Lawful(r)
    requires forall n, c | 0 <= n < |r.live| && c == r.live[n] ::
               var before := FlushAll(r, r.live[..n], takes); c in before.conns ==> takes(c) <= |before.conns[c].tx|
    ensures Rested(Forgotten(FlushAll(r, r.live, takes)))
  {
    FlushAllEases(r, r.live, takes);
    var s := FlushAll(r, r.live, takes);
    hide FlushAll;
    LawfulParts(s);
    ForgetLawful(s);
    hide Lawful, Known;
    var f := Forgotten(s);
    forall o | o in f.conns
      ensures |f.conns[o].tx| <= TX_BACKLOG + if f.conns[o].partner.None? then 16 else 0
    {
      assert o in s.live && o in r.live;
    }
  }

  lemma ForgetLawful(r: Relay)
    requires Lawful(r) && Known(r)
    ensures Lawful(Forgotten(r))
  {
    hide Lawful, Known;
    LawfulParts(r);
    ForgetKeepsMarried(r);
    StepKeepsLaw(r, Forget, EASY);
  }
}
