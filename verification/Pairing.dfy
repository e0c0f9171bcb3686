/** What the relay keeps, for any clients and for ones that follow the protocol. */
module Pairing {
  import opened Bytes
  import opened Ordered
  import opened Framing
  import opened Verdict
  import opened Relay
  import Wire

  datatype Event =
    | Arrive(c: Id, addr: nat, born: int)
    | Speak(c: Id, packet: Packet, luck: Luck)
    | Hangup(c: Id)
    | Take(c: Id, k: nat)
    | Forget

  /**
   * A connection arrives once; what has never arrived cannot speak; the network takes no more than is there;
   * and nothing is forgotten while something live speaks of it.
   */
  ghost predicate Possible(r: Relay, e: Event) {
    match e
    case Arrive(c, _, _) => c !in r.conns
    case Speak(c, p, luck) => c in r.conns && |p.payload| < LONGEST && Digits(luck.digits)
    case Hangup(c) => c in r.conns
    case Take(c, k) => c in r.conns && k <= |r.conns[c].tx|
    case Forget => Known(Forgotten(r))
  }

  ghost function Step(r: Relay, e: Event, rules: Settings): Relay
    requires Known(r) && Possible(r, e)
  {
    match e
    case Arrive(c, addr, born) => Accept(r, c, addr, born)
    case Speak(c, p, luck) => Handle(r, c, p, luck, rules)
    case Hangup(c) => Drop(r, c)
    case Take(c, k) => Flush(r, c, k)
    case Forget => Forgotten(r)
  }

  const EMPTY := Relay(map[], [], [], Stats(0, 0, 0, 0, 0, 0))

  // ---- any clients whatever ----

  /** Every live console owns the name it goes by, and it is a good one. */
  ghost predicate Owned(r: Relay) {
    && Known(r) && Distinct(r.names)
    && forall c | c in r.live && r.conns[c].name != [] ::
         NameOk(r.conns[c].name) && Has(r.names, r.conns[c].name) && Get(r.names, r.conns[c].name) == c
  }

  /** Only what a connection is heard and told changes. */
  predicate SameNames(r: Relay, s: Relay) {
    && s.names == r.names && s.live == r.live && r.conns.Keys == s.conns.Keys
    && forall c | c in r.conns :: s.conns[c].name == r.conns[c].name
  }

  lemma SameNamesKeepOwned(r: Relay, s: Relay)
    requires Owned(r) && SameNames(r, s) && Known(s)
    ensures Owned(s)
  {
    hide IndexOf;
  }

  lemma SendKeeps(r: Relay, c: Id, bytes: seq<byte>)
    requires Known(r) && c in r.conns
    ensures Known(Send(r, c, bytes)) && SameNames(r, Send(r, c, bytes))
  {}

  lemma LogKeeps(r: Relay, c: Id, tick: byte, crc: byte)
    requires Known(r) && c in r.conns
    ensures Known(LogCrc(r, c, tick, crc)) && SameNames(r, LogCrc(r, c, tick, crc))
  {
    hide Ruled;
  }

  lemma ForwardKeeps(r: Relay, c: Id, p: Packet)
    requires Known(r) && c in r.conns && |p.payload| < LONGEST
    ensures Known(Forward(r, c, p)) && SameNames(r, Forward(r, c, p))
  {
    var sent := if r.conns[c].partner.None? then r
                else Send(r, r.conns[c].partner.value, FrameBytes(Packet(p.kind, Padded(p.payload, GAME_PAYLOAD))));
    assert Known(sent) && SameNames(r, sent);
    if p.kind == INPUT && |p.payload| > CRC_AT {
      LogKeeps(sent, c, p.payload[0], p.payload[CRC_AT]);
    }
    hide LogCrc, Send, FrameBytes, Padded;
  }

  lemma TryPairKeeps(r: Relay, c: Id, seed: nat, rules: Settings)
    requires Known(r) && c in r.conns
    ensures Known(TryPair(r, c, seed, rules)) && SameNames(r, TryPair(r, c, seed, rules))
  {
    hide Oldest, StartFrame;
  }

  lemma {:induction false} WithoutIs(live: seq<Id>, c: Id)
    requires NoRepeats(live)
    ensures NoRepeats(Without(live, c))
    ensures forall o :: o in Without(live, c) <==> o in live && o != c
  {
    if live != [] {
      var (front, last) := (live[..|live| - 1], live[|live| - 1]);
      WithoutIs(front, c);
      assert live == front + [last];
      assert forall o :: o in live <==> o in front || o == last;
      assert last !in front;
      if last != c {
        assert forall o :: o in Without(live, c) <==> o in Without(front, c) || o == last;
      }
    }
  }

  lemma DropKeepsKnown(r: Relay, c: Id)
    requires Known(r) && c in r.conns
    ensures var d := Drop(r, c);
            && Known(d) && d.conns.Keys == r.conns.Keys
            && (forall o :: o in d.live <==> o in r.live && o != c)
            && (forall o | o in r.conns :: d.conns[o].name == r.conns[o].name)
  {
    WithoutIs(r.live, c);
    hide Without, FrameBytes, Padded, IndexOf;
    var d := Drop(r, c);
    assert d.live == if c in r.live then Without(r.live, c) else r.live;
    assert d.conns.Keys == r.conns.Keys;
    forall i | 0 <= i < |d.live|
      ensures d.live[i] in d.conns
    {
      assert d.live[i] in d.live;
      assert d.live[i] in r.live;
    }
  }

  lemma DropKeepsOwned(r: Relay, c: Id)
    requires Owned(r) && c in r.conns
    ensures Owned(Drop(r, c))
  {
    DropKeepsKnown(r, c);
    var d := Drop(r, c);
    var mine := r.conns[c].name;
    forall o | o in d.live && d.conns[o].name != []
      ensures NameOk(d.conns[o].name) && Has(d.names, d.conns[o].name) && Get(d.names, d.conns[o].name) == o
    {
      PopGet(r.names, mine, d.conns[o].name);
    }
    PopGet(r.names, mine, mine);
    hide PeerLeft, Without, IndexOf;
  }

  lemma GreetKeepsOwned(r: Relay, c: Id, name: Name)
    requires Owned(r) && c in r.conns && NameOk(name) && !Has(r.names, name)
    ensures Owned(Greet(r, c, name))
  {
    hide IndexOf, Put, NameChar;
    var d := Greet(r, c, name);
    PutGet(r.names, name, c, name);
    assert Known(d);
    forall o | o in d.live && d.conns[o].name != []
      ensures NameOk(d.conns[o].name) && Has(d.names, d.conns[o].name) && Get(d.names, d.conns[o].name) == o
    {
      if o != c {
        assert d.conns[o] == r.conns[o];
        PutGet(r.names, name, c, d.conns[o].name);
      }
    }
    hide NameOk, Known;
  }

  lemma HandleKeepsOwned(r: Relay, c: Id, p: Packet, luck: Luck, rules: Settings)
    requires Owned(r) && c in r.conns && |p.payload| < LONGEST && Digits(luck.digits)
    ensures Owned(Handle(r, c, p, luck, rules))
  {
    var d := Handle(r, c, p, luck, rules);
    if Relayed(p.kind) {
      ForwardKeeps(r, c, p);
      SameNamesKeepOwned(r, d);
    } else if p.kind == HELLO {
      HelloKeepsOwned(r, c, p.payload, luck, rules);
    } else if p.kind == LIST {
      SendKeeps(r, c, LobbyFrame(r));
      SameNamesKeepOwned(r, d);
    } else if p.kind == JOIN {
      TryPairKeeps(r, c, luck.seed, rules);
      SameNamesKeepOwned(r, d);
    } else if p.kind == PING {
      SendKeeps(r, c, FrameBytes(Packet(PONG, [])));
      SameNamesKeepOwned(r, d);
    } else if p.kind == BYE {
      DropKeepsOwned(r, c);
    }
    hide Owned, Forward, OnHello, LobbyFrame, TryPair, Send, Drop;
  }

  lemma HelloKeepsOwned(r: Relay, c: Id, payload: seq<byte>, luck: Luck, rules: Settings)
    requires Owned(r) && c in r.conns && Digits(luck.digits)
    ensures Owned(OnHello(r, c, payload, luck, rules))
  {
    DropKeepsOwned(r, c);
    var asked := Asked(payload);
    if asked.Some? {
      FreeNameIsOk(r.names, asked.value, luck.digits);
      var free := FreeName(r.names, asked.value, luck.digits);
      if free.Some? {
        GreetKeepsOwned(r, c, free.value);
        var named := Greet(r, c, free.value);
        TryPairKeeps(named, c, luck.seed, rules);
        SameNamesKeepOwned(named, TryPair(named, c, luck.seed, rules));
      }
    }
    hide Drop, TryPair, Greet, FreeName, SameNames, IndexOf;
  }

  /** Every state a run of possible events can reach. */
  ghost predicate Reached(events: seq<Event>, rules: Settings, r: Relay) {
    if events == [] then r == EMPTY
    else
      exists before: Relay ::
        && Known(before) && Reached(events[..|events| - 1], rules, before) && Possible(before, events[|events| - 1])
        && r == Step(before, events[|events| - 1], rules)
  }

  lemma StepKeepsOwned(r: Relay, e: Event, rules: Settings)
    requires Owned(r) && Possible(r, e)
    ensures Owned(Step(r, e, rules))
  {
    hide Handle, Drop, IndexOf, Owned, Flush, Known, Forgotten, Accept;
    OwnedIsKnown(r);
    match e
    case Arrive(c, addr, born) => ArriveKeepsOwned(r, c, addr, born);
    case Speak(c, p, luck) => HandleKeepsOwned(r, c, p, luck, rules);
    case Hangup(c) => DropKeepsOwned(r, c);
    case Take(c, k) => FlushKeepsOwned(r, c, k);
    case Forget => ForgetKeepsOwned(r);
  }

  lemma OwnedIsKnown(r: Relay)
    requires Owned(r)
    ensures Known(r)
  {}

  lemma ArriveKeepsOwned(r: Relay, c: Id, addr: nat, born: int)
    requires Owned(r) && c !in r.conns
    ensures Owned(Accept(r, c, addr, born))
  {
    hide IndexOf, FromAddress, NameOk;
  }

  lemma FlushKeepsOwned(r: Relay, c: Id, k: nat)
    requires Owned(r) && c in r.conns && k <= |r.conns[c].tx|
    ensures Owned(Flush(r, c, k))
  {
    DrainedIsKnown(r, c, k);
    var s := Drained(r, c, k);
    assert SameNames(r, s) && SameNames(r, Overrun(s));
    SameNamesKeepOwned(r, s);
    SameNamesKeepOwned(r, Overrun(s));
    DropKeepsOwned(Overrun(s), c);
    hide Owned, Drop, Known, SameNames;
  }

  lemma ForgetKeepsOwned(r: Relay)
    requires Owned(r) && Known(Forgotten(r))
    ensures Owned(Forgotten(r))
  {
    hide IndexOf, NameOk;
  }

  /**
   * For any clients, however they behave: live consoles have names of two to eight capitals and digits, each
   * its own, and no two the same.
   */
  lemma {:induction false} NamesAreOwned(events: seq<Event>, rules: Settings, r: Relay)
    requires Reached(events, rules, r)
    ensures Owned(r)
    ensures forall a, b | a in r.live && b in r.live && a != b && r.conns[a].name != [] :: r.conns[a].name != r.conns[b].name
  {
    if events != [] {
      var before: Relay :|
        && Known(before) && Reached(events[..|events| - 1], rules, before) && Possible(before, events[|events| - 1])
        && r == Step(before, events[|events| - 1], rules);
      NamesAreOwned(events[..|events| - 1], rules, before);
      StepKeepsOwned(before, events[|events| - 1], rules);
    }
    hide Step, IndexOf, Possible;
  }

  // ---- clients that follow the protocol ----

  /** HELLO once, JOIN only while waiting, and nothing after being dropped. */
  ghost predicate Conforms(r: Relay, e: Event)
    requires Possible(r, e)
  {
    e.Speak? ==>
      && e.c in r.live
      && (e.packet.kind == HELLO ==> r.conns[e.c].name == [])
      && (e.packet.kind == JOIN ==> Waiting(r, e.c))
  }

  /** Partners of live consoles are live, mutual, and play the two different roles. */
  ghost predicate Married(r: Relay) {
    && Known(r)
    && forall c | c in r.live && r.conns[c].partner.Some? ::
         var p := r.conns[c].partner.value;
         && p in r.live && p != c && r.conns[p].partner == Some(c)
         && {r.conns[c].role, r.conns[p].role} == {0, 1} && r.conns[c].name != []
  }

  /** Nobody's partner, role or place changes, and nobody loses a name. */
  predicate SameMatches(r: Relay, s: Relay) {
    && s.live == r.live && r.conns.Keys == s.conns.Keys
    && forall c | c in r.conns ::
         && s.conns[c].partner == r.conns[c].partner && s.conns[c].role == r.conns[c].role
         && (r.conns[c].name != [] ==> s.conns[c].name != [])
  }

  lemma SameMatchesKeepMarried(r: Relay, s: Relay)
    requires Married(r) && SameMatches(r, s) && Known(s)
    ensures Married(s)
  {}

  lemma ForwardKeepsMatches(r: Relay, c: Id, p: Packet)
    requires Known(r) && c in r.conns && |p.payload| < LONGEST
    ensures SameMatches(r, Forward(r, c, p))
  {
    var sent := if r.conns[c].partner.None? then r
                else Send(r, r.conns[c].partner.value, FrameBytes(Packet(p.kind, Padded(p.payload, GAME_PAYLOAD))));
    assert Known(sent) && SameMatches(r, sent);
    if p.kind == INPUT && |p.payload| > CRC_AT {
      LogKeepsMatches(sent, c, p.payload[0], p.payload[CRC_AT]);
    }
    hide LogCrc, Send, FrameBytes, Padded;
  }

  lemma LogKeepsMatches(r: Relay, c: Id, tick: byte, crc: byte)
    requires Known(r) && c in r.conns
    ensures SameMatches(r, LogCrc(r, c, tick, crc))
  {
    hide Ruled;
  }

  lemma PairMarries(r: Relay, host: Id, guest: Id, seed: nat, rules: Settings)
    requires Married(r) && host in r.live && guest in r.live && host != guest && Waiting(r, host) && Waiting(r, guest)
    ensures Married(Pair(r, host, guest, seed, rules))
  {
    hide StartFrame;
    var s := Pair(r, host, guest, seed, rules);
    assert Known(s);
    forall c | c in s.live && s.conns[c].partner.Some?
      ensures var p := s.conns[c].partner.value;
              && p in s.live && p != c && s.conns[p].partner == Some(c)
              && {s.conns[c].role, s.conns[p].role} == {0, 1} && s.conns[c].name != []
    {
      if c != host && c != guest {
        assert s.conns[c] == r.conns[c];
      }
    }
  }

  lemma TryPairMarries(r: Relay, c: Id, seed: nat, rules: Settings)
    requires Married(r) && c in r.live && Waiting(r, c)
    ensures Married(TryPair(r, c, seed, rules))
  {
    var o := Oldest(r, r.live, c);
    hide Pair, Oldest;
    if o.Some? {
      PairMarries(r, o.value, c, seed, rules);
    }
  }

  lemma DropKeepsMarried(r: Relay, c: Id)
    requires Married(r) && c in r.live
    ensures Married(Drop(r, c))
  {
    DropKeepsKnown(r, c);
    var d := Drop(r, c);
    DropCutsOnlyPartner(r, c);
    hide Drop;
  }

  lemma DropCutsOnlyPartner(r: Relay, c: Id)
    requires Known(r) && c in r.live
    ensures var d := Drop(r, c);
            d.conns.Keys == r.conns.Keys
            && forall o | o in r.conns ::
                 && d.conns[o].role == r.conns[o].role
                 && d.conns[o].partner == (if r.conns[c].partner == Some(o) then None else r.conns[o].partner)
  {
    hide PeerLeft, IndexOf, Without;
  }

  lemma HelloKeepsMarried(r: Relay, c: Id, payload: seq<byte>, luck: Luck, rules: Settings)
    requires Married(r) && c in r.live && r.conns[c].name == [] && Digits(luck.digits)
    ensures Married(OnHello(r, c, payload, luck, rules))
  {
    DropKeepsMarried(r, c);
    var asked := Asked(payload);
    if asked.Some? {
      FreeNameIsOk(r.names, asked.value, luck.digits);
      var free := FreeName(r.names, asked.value, luck.digits);
      if free.Some? {
        var named := Greet(r, c, free.value);
        assert SameMatches(r, named) && Waiting(named, c);
        SameMatchesKeepMarried(r, named);
        TryPairMarries(named, c, luck.seed, rules);
      }
    }
    hide Drop, TryPair, FreeName, IndexOf, Put;
  }

  lemma StepKeepsMarried(r: Relay, e: Event, rules: Settings)
    requires Married(r) && Possible(r, e) && Conforms(r, e)
    ensures Married(Step(r, e, rules))
  {
    hide Married, Forward, OnHello, TryPair, Drop, LobbyFrame, SameNames, SameMatches, Send, Known, Waiting;
    hide Accept, Flush, Forgotten;
    MarriedIsKnown(r);
    match e
    case Arrive(c, addr, born) => ArriveKeepsMarried(r, c, addr, born);
    case Hangup(c) => LoseKeepsMarried(r, c);
    case Take(c, k) => FlushKeepsMarried(r, c, k);
    case Forget => ForgetKeepsMarried(r);
    case Speak(c, p, luck) =>
      if Relayed(p.kind) {
        ForwardKeeps(r, c, p);
        ForwardKeepsMatches(r, c, p);
        SameMatchesKeepMarried(r, Forward(r, c, p));
      } else if p.kind == HELLO {
        HelloKeepsMarried(r, c, p.payload, luck, rules);
      } else if p.kind == JOIN {
        TryPairMarries(r, c, luck.seed, rules);
      } else if p.kind == BYE {
        DropKeepsMarried(r, c);
      } else if p.kind == LIST {
        SayKeepsMarried(r, c, LobbyFrame(r));
      } else if p.kind == PING {
        SayKeepsMarried(r, c, FrameBytes(Packet(PONG, [])));
      }
  }

  lemma MarriedIsKnown(r: Relay)
    requires Married(r)
    ensures Known(r)
  {}

  lemma DropOfDead(r: Relay, c: Id)
    requires Known(r) && c in r.conns && c !in r.live
    ensures Drop(r, c) == r
  {}

  lemma SayKeepsMarried(r: Relay, c: Id, bytes: seq<byte>)
    requires Married(r) && c in r.conns
    ensures Married(Send(r, c, bytes))
  {
    SendKeeps(r, c, bytes);
    assert SameMatches(r, Send(r, c, bytes));
    hide Send, Known, SameNames;
    SameMatchesKeepMarried(r, Send(r, c, bytes));
  }

  lemma ArriveKeepsMarried(r: Relay, c: Id, addr: nat, born: int)
    requires Married(r) && c !in r.conns
    ensures Married(Accept(r, c, addr, born))
  {
    hide FromAddress;
  }

  lemma LoseKeepsMarried(r: Relay, c: Id)
    requires Married(r) && c in r.conns
    ensures Married(Drop(r, c))
  {
    hide Married, Drop;
    MarriedIsKnown(r);
    if c in r.live {
      DropKeepsMarried(r, c);
    } else {
      DropOfDead(r, c);
    }
  }

  lemma FlushKeepsMarried(r: Relay, c: Id, k: nat)
    requires Married(r) && c in r.conns && k <= |r.conns[c].tx|
    ensures Married(Flush(r, c, k))
  {
    DrainedIsKnown(r, c, k);
    var s := Drained(r, c, k);
    assert SameMatches(r, s) && SameMatches(r, Overrun(s));
    SameMatchesKeepMarried(r, s);
    SameMatchesKeepMarried(r, Overrun(s));
    LoseKeepsMarried(Overrun(s), c);
    hide Married, Drop, Known, SameMatches;
  }

  /** With mutual matches nothing live speaks of anything dropped, so what is dropped can be forgotten. */
  lemma ForgetKeepsMarried(r: Relay)
    requires Married(r)
    ensures Married(Forgotten(r)) && Known(Forgotten(r))
  {}

  /** Every state conforming clients can reach. */
  ghost predicate Behaved(events: seq<Event>, rules: Settings, r: Relay) {
    if events == [] then r == EMPTY
    else
      exists before: Relay ::
        && Known(before) && Behaved(events[..|events| - 1], rules, before) && Possible(before, events[|events| - 1])
        && Conforms(before, events[|events| - 1]) && r == Step(before, events[|events| - 1], rules)
  }

  /** With conforming clients the matches of live consoles are always symmetric, of two, and of two roles. */
  lemma {:induction false} MatchesAreMutual(events: seq<Event>, rules: Settings, r: Relay)
    requires Behaved(events, rules, r)
    ensures Married(r)
  {
    if events != [] {
      var before: Relay :|
        && Known(before) && Behaved(events[..|events| - 1], rules, before) && Possible(before, events[|events| - 1])
        && Conforms(before, events[|events| - 1]) && r == Step(before, events[|events| - 1], rules);
      MatchesAreMutual(events[..|events| - 1], rules, before);
      StepKeepsMarried(before, events[|events| - 1], rules);
    }
    hide Step, IndexOf, Possible, Conforms;
  }

  // ---- what a pairing tells the two ----

  /** Nobody waiting is older than the one chosen, and nobody as old was accepted before. */
  lemma {:induction false} OldestIsOldest(r: Relay, ids: seq<Id>, c: Id, i: nat)
    requires (forall j | 0 <= j < |ids| :: ids[j] in r.conns) && i < |ids| && ids[i] != c && Waiting(r, ids[i])
    ensures var o := Oldest(r, ids, c);
            && o.Some? && r.conns[o.value].born <= r.conns[ids[i]].born
            && (r.conns[o.value].born == r.conns[ids[i]].born ==> exists j | 0 <= j <= i :: ids[j] == o.value)
  {
    var (before, n) := (ids[..|ids| - 1], |ids| - 1);
    if i < n {
      OldestIsOldest(r, before, c, i);
    } else {
      var best := Oldest(r, before, c);
      if best.Some? && !(r.conns[ids[n]].born < r.conns[best.value].born) {
        var j :| 0 <= j < |before| && before[j] == best.value;
        assert ids[j] == best.value;
      }
    }
  }

  /** The seed a START carries, as its console would put the two bytes together. */
  function SeedOf(start: seq<byte>): int
    requires |start| >= 5
  {
    start[3] as int + 256 * start[4] as int
  }

  /**
   * A pairing: the console that has waited longest is the host and plays role 0, the newcomer role 1; both are
   * told the same seed, delay and variation, and each the other's name; the relay says nothing else to anyone.
   */
  lemma PairingTells(r: Relay, c: Id, seed: nat, rules: Settings)
    requires Known(r) && c in r.conns && Oldest(r, r.live, c).Some?
    ensures var (s, host) := (TryPair(r, c, seed, rules), Oldest(r, r.live, c).value);
            && host in r.live && host != c && Waiting(r, host)
            && (forall o | o in r.live && o != c && Waiting(r, o) :: r.conns[host].born <= r.conns[o].born)
            && s.conns.Keys == r.conns.Keys
            && s.conns[host].partner == Some(c) && s.conns[c].partner == Some(host)
            && s.conns[host].role == 0 && s.conns[c].role == 1
            && s.conns[host].ledger.crc == [] && s.conns[c].ledger.crc == []
            && s.conns[host].tx == r.conns[host].tx + StartFrame(0, seed, rules, r.conns[c].name)
            && s.conns[c].tx == r.conns[c].tx + StartFrame(1, seed, rules, r.conns[host].name)
            && (forall o | o in r.conns && o != host && o != c :: s.conns[o] == r.conns[o])
    ensures forall role, them: Name | |them| <= 8 && seed < 65536 ::
              |StartFrame(role, seed, rules, them)| == 15 && SeedOf(StartFrame(role, seed, rules, them)) == seed
  {
    forall o | o in r.live && o != c && Waiting(r, o)
      ensures r.conns[Oldest(r, r.live, c).value].born <= r.conns[o].born
    {
      var i :| 0 <= i < |r.live| && r.live[i] == o;
      OldestIsOldest(r, r.live, c, i);
    }
    hide Oldest, StartFrame;
  }
}
