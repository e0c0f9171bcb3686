/** A turn of the loop that does outgrow a transmit buffer: nine partners, one after the other, for one console. */
module Saturation {
  import opened Bytes
  import opened Ordered
  import opened Framing
  import opened Verdict
  import opened Relay
  import opened Pairing
  import opened Passage
  import opened Conduct
  import opened Schedule
  import opened Overflow

  /** Nothing drawn: no name asked for here is ever taken. */
  function Always(i: nat): Luck {
    PLAIN
  }

  // ---- the chunk: HELLO, as many frames as fit, BYE ----

  const EMPTY_INPUT := Packet(INPUT, [])
  const GOODBYE := Packet(BYE, [])
  const MANY: nat := 2040

  /** So many of the shortest frames there are, and a BYE. */
  function Frames(n: nat): seq<byte> {
    if n == 0 then FrameBytes(GOODBYE) else FrameBytes(EMPTY_INPUT) + Frames(n - 1)
  }

  function Visit(): seq<byte> {
    FrameBytes(HelloAs(66)) + Frames(MANY)
  }

  lemma {:induction false} FramesLength(n: nat)
    ensures |Frames(n)| == 2 * n + 2
  {
    if n > 0 {
      FramesLength(n - 1);
    }
  }

  lemma VisitIsChunk()
    ensures |Visit()| <= CHUNK
  {
    FramesLength(MANY);
    hide Frames;
  }

  // ---- the console visited, and its visitor ----

  const US: Name := [65, 65]
  const THEM: Name := [66, 66]

  /** Console 0 waits, with m bytes or more for it; everyone else live has said nothing. */
  ghost predicate Waits(r: Relay, m: nat) {
    && Lawful(r) && Known(r) && 0 in r.live && 0 in r.conns && r.conns[0].name == US && r.conns[0].partner == None
    && r.names == [Entry(US, 0)] && |r.conns[0].tx| >= m
    && forall o | o in r.live && o != 0 :: o in r.conns && r.conns[o].name == [] && r.conns[o].partner == None && r.conns[o].rx == []
  }

  /** Console 0 plays its visitor c; everyone else live has said nothing. */
  ghost predicate Plays(r: Relay, c: Id, m: nat) {
    && Known(r) && 0 in r.live && c in r.live && c != 0 && 0 in r.conns && c in r.conns
    && r.conns[0].name == US && r.conns[c].name == THEM
    && r.conns[0].partner == Some(c) && r.conns[c].partner == Some(0)
    && r.names == [Entry(US, 0), Entry(THEM, c)] && |r.conns[0].tx| >= m
    && forall o | o in r.live && o != 0 && o != c ::
         o in r.conns && r.conns[o].name == [] && r.conns[o].partner == None && r.conns[o].rx == []
  }

  /** As Waits, before the law is known to hold. */
  ghost predicate WaitsAgain(r: Relay, c: Id, m: nat) {
    && Known(r) && 0 in r.live && 0 in r.conns && c !in r.live && r.conns[0].name == US && r.conns[0].partner == None
    && r.names == [Entry(US, 0)] && |r.conns[0].tx| >= m
    && forall o | o in r.live && o != 0 :: o in r.conns && r.conns[o].name == [] && r.conns[o].partner == None && r.conns[o].rx == []
  }

  /** Nobody live but the visitor is lost. */
  ghost predicate Stays(r: Relay, s: Relay, c: Id) {
    forall o | o in r.live && o != c :: o in s.live
  }

  lemma HeardPlays(r: Relay, c: Id, m: nat, rx: seq<byte>)
    requires Plays(r, c, m)
    ensures Known(Heard(r, c, rx)) && c in Heard(r, c, rx).conns && Plays(Heard(r, c, rx), c, m)
    ensures Heard(r, c, rx).conns[c].rx == rx && Heard(r, c, rx).live == r.live
  {}

  lemma InputPlays(r: Relay, c: Id, m: nat, rules: Settings)
    requires Plays(r, c, m) && Digits(PLAIN.digits)
    ensures var s := Handle(r, c, EMPTY_INPUT, PLAIN, rules);
            Plays(s, c, m + 16) && s.live == r.live && s.conns[c].rx == r.conns[c].rx
  {
    assert |FrameBytes(Packet(INPUT, Padded([], GAME_PAYLOAD)))| == 16;
    hide FrameBytes, Padded;
  }

  lemma GoodbyeLeaves(r: Relay, c: Id, m: nat, rules: Settings)
    requires Plays(r, c, m) && Digits(PLAIN.digits)
    ensures var s := Handle(r, c, GOODBYE, PLAIN, rules);
            WaitsAgain(s, c, m) && Stays(r, s, c) && c in s.conns && s.conns[c].rx == r.conns[c].rx
  {
    DropKeepsKnown(r, c);
    DropCutsOnlyPartner(r, c);
    DropTold(r, c);
    NamesLeft(c);
    hide Known, Without, PeerLeft, IndexOf, Told, Total;
    DropOthers(r, c);
  }

  lemma NamesLeft(c: Id)
    ensures var names := [Entry(US, 0), Entry(THEM, c)];
            Has(names, THEM) && Get(names, THEM) == c && Pop(names, THEM) == [Entry(US, 0)]
  {
    OnePlace([Entry(US, 0), Entry(THEM, c)], THEM, 1);
  }

  lemma DropOthers(r: Relay, c: Id)
    requires Known(r) && c in r.live && c in r.conns
    ensures forall o | o in r.conns && r.conns[c].partner != Some(o) :: o in Drop(r, c).conns && Drop(r, c).conns[o] == r.conns[o]
    ensures var p := r.conns[c].partner;
            p.Some? ==> p.value in Drop(r, c).conns && |Drop(r, c).conns[p.value].tx| >= |r.conns[p.value].tx|
  {
    hide PeerLeft, Without, IndexOf;
  }

  lemma FrontOf(p: Packet, more: seq<byte>)
    requires 0 < |p.payload| + 1 <= LONGEST
    ensures var rx := FrameBytes(p) + more; Ready(rx) && Front(rx) == p && Behind(rx) == more
  {
    var rx := FrameBytes(p) + more;
    assert rx[2..|p.payload| + 2] == p.payload && rx[|p.payload| + 2..] == more;
  }

  /** The visitor's frames, from any one of them on. */
  lemma {:induction false} FramesAreServed(r: Relay, c: Id, n: nat, m: nat, k: nat, rules: Settings)
    requires Plays(r, c, m) && r.conns[c].rx == Frames(n) && forall i: nat :: Digits(Always(i).digits)
    ensures ConformsThroughout(r, c, Always, k, rules)
    ensures var s := Serve(r, c, Always, k, rules);
            WaitsAgain(s, c, m + 16 * n) && Stays(r, s, c) && c in s.conns
    decreases n
  {
    hide Known, Handle, Heard, Told, Possible, Conforms, Plays, WaitsAgain, Stays, Drop;
    PlaysIsLive(r, c, m);
    var (p, rest) := if n == 0 then (GOODBYE, []) else (EMPTY_INPUT, Frames(n - 1));
    assert r.conns[c].rx == FrameBytes(p) + rest by { LastFrame(n); }
    FrontOf(p, rest);
    HeardPlays(r, c, m, rest);
    var h := Heard(r, c, rest);
    MayStill(h, c, p, m);
    HandleTold(h, c, p, PLAIN, rules);
    ServeStep(r, c, Always, k, rules);
    var a := Handle(h, c, p, PLAIN, rules);
    if n == 0 {
      GoodbyeLeaves(h, c, m, rules);
      StaysOn(r, h, a, c);
      NothingMore(a, c, k + 1, rules);
    } else {
      InputPlays(h, c, m, rules);
      FramesAreServed(a, c, n - 1, m + 16, k + 1, rules);
      StaysOn(r, a, Serve(a, c, Always, k + 1, rules), c);
    }
    hide Serve;
  }

  lemma LastFrame(n: nat)
    ensures Frames(n) == if n == 0 then FrameBytes(GOODBYE) + [] else FrameBytes(EMPTY_INPUT) + Frames(n - 1)
  {}

  lemma PlaysIsLive(r: Relay, c: Id, m: nat)
    requires Plays(r, c, m)
    ensures Known(r) && c in r.conns && c in r.live
  {}

  lemma MayStill(r: Relay, c: Id, p: Packet, m: nat)
    requires Plays(r, c, m) && (p == GOODBYE || p == EMPTY_INPUT)
    ensures Possible(r, Speak(c, p, PLAIN)) && Conforms(r, Speak(c, p, PLAIN)) && |p.payload| < LONGEST && Digits(PLAIN.digits)
  {}

  lemma StaysOn(r: Relay, h: Relay, s: Relay, c: Id)
    requires h.live == r.live && Stays(h, s, c)
    ensures Stays(r, s, c)
  {}

  lemma NothingMore(r: Relay, c: Id, k: nat, rules: Settings)
    requires Known(r) && c in r.conns && r.conns[c].rx == [] && forall i: nat :: Digits(Always(i).digits)
    ensures Serve(r, c, Always, k, rules) == r && ConformsThroughout(r, c, Always, k, rules)
  {}

  /** The visitor has said who it is. */
  ghost predicate Names(g: Relay, c: Id, m: nat) {
    && Known(g) && 0 in g.live && c in g.live && c != 0 && 0 in g.conns && c in g.conns
    && g.conns[0].name == US && g.conns[c].name == THEM && g.conns[0].partner == None
    && g.names == [Entry(US, 0), Entry(THEM, c)] && |g.conns[0].tx| >= m
    && forall o | o in g.live && o != 0 && o != c ::
         o in g.conns && g.conns[o].name == [] && g.conns[o].partner == None && g.conns[o].rx == []
  }

  lemma GreetNames(r: Relay, c: Id, m: nat, rx: seq<byte>)
    requires Waits(r, m) && c in r.live && c != 0 && c in r.conns
    ensures var g := Greet(Heard(r, c, rx), c, THEM);
            Names(g, c, m) && g.live == r.live && g.conns[c].rx == rx && !Has(r.names, THEM)
  {
    GreetTold(Heard(r, c, rx), c, THEM);
    hide Lawful, Told;
    assert !Has([Entry(US, 0)], THEM);
    assert Put([Entry(US, 0)], THEM, c) == [Entry(US, 0), Entry(THEM, c)];
    hide IndexOf, Put;
  }

  lemma HelloIs(r: Relay, c: Id, m: nat, rx: seq<byte>, rules: Settings)
    requires Waits(r, m) && c in r.live && c != 0 && Digits(PLAIN.digits)
    ensures var h := Heard(r, c, rx);
            && Known(h) && c in h.conns && Possible(h, Speak(c, HelloAs(66), PLAIN)) && Conforms(h, Speak(c, HelloAs(66), PLAIN))
            && |HelloAs(66).payload| < LONGEST
            && var g := Greet(h, c, THEM);
               Names(g, c, m) && g.live == r.live && g.conns[c].rx == rx && Handle(h, c, HelloAs(66), PLAIN, rules) == TryPair(g, c, 0, rules)
  {
    AskedLetters(66);
    HeardKeeps(r, c, rx);
    GreetNames(r, c, m, rx);
    hide Asked, IndexOf, Lawful, Known, Names, TryPair;
  }

  /** The visitor's HELLO pairs it with console 0, the only one waiting. */
  lemma HelloPlays(r: Relay, c: Id, m: nat, rx: seq<byte>, rules: Settings)
    requires Waits(r, m) && c in r.live && c != 0 && Digits(PLAIN.digits)
    ensures var h := Heard(r, c, rx);
            && Known(h) && c in h.conns && Possible(h, Speak(c, HelloAs(66), PLAIN)) && Conforms(h, Speak(c, HelloAs(66), PLAIN))
            && |HelloAs(66).payload| < LONGEST
            && var s := Handle(h, c, HelloAs(66), PLAIN, rules);
               Plays(s, c, m) && s.live == r.live && s.conns[c].rx == rx
  {
    hide Known, Waits, Heard, Greet, Handle, Possible, Conforms, Names, Plays, TryPair, HelloAs;
    VisitorIsQuiet(r, c, m);
    HelloIs(r, c, m, rx, rules);
    NamesPlays(Greet(Heard(r, c, rx), c, THEM), c, m, rules);
  }

  lemma NamesPlays(g: Relay, c: Id, m: nat, rules: Settings)
    requires Names(g, c, m)
    ensures var s := TryPair(g, c, 0, rules); Plays(s, c, m) && s.live == g.live && s.conns[c].rx == g.conns[c].rx
  {
    OnlyOneWaits(g, c);
    PairingTells(g, c, 0, rules);
    PairKeepsRest(g, c, rules);
    hide TryPair, Oldest, StartFrame, Known;
  }

  lemma OnlyOneWaits(g: Relay, c: Id)
    requires Known(g) && c in g.conns && 0 in g.live && c != 0 && 0 in g.conns && Waiting(g, 0)
    requires forall o | o in g.live && o != 0 && o != c :: o in g.conns && g.conns[o].name == []
    ensures Oldest(g, g.live, c) == Some(0)
  {
    var i :| 0 <= i < |g.live| && g.live[i] == 0;
    OldestIsOldest(g, g.live, c, i);
    hide Oldest;
  }

  lemma PairKeepsRest(g: Relay, c: Id, rules: Settings)
    requires Known(g) && c in g.conns && Oldest(g, g.live, c) == Some(0)
    ensures var s := TryPair(g, c, 0, rules);
            && Known(s) && s.live == g.live && s.names == g.names && s.conns.Keys == g.conns.Keys && 0 in g.conns
            && (forall o | o in g.conns :: s.conns[o].name == g.conns[o].name && s.conns[o].rx == g.conns[o].rx)
            && |s.conns[0].tx| >= |g.conns[0].tx|
  {
    TryPairKeeps(g, c, 0, rules);
    TryPairTold(g, c, 0, rules);
    hide TryPair, Known, Oldest, Total;
  }

  /** The visit's frames, served from the first. */
  lemma VisitServes(r: Relay, c: Id, m: nat, rx: seq<byte>, rules: Settings)
    requires Waits(r, m) && c in r.live && c != 0 && c in r.conns && rx == Visit()
    requires forall i: nat :: Digits(Always(i).digits)
    ensures var h := Heard(r, c, rx);
            && Known(h) && c in h.conns && ConformsThroughout(h, c, Always, 0, rules)
            && var s := Serve(h, c, Always, 0, rules); WaitsAgain(s, c, m + 16 * MANY) && Stays(r, s, c)
  {
    hide Plays, WaitsAgain, Stays, Known, Handle, Possible, Conforms, Waits, Told, HelloAs;
    var rest := Frames(MANY);
    hide Frames;
    WaitsIsLawful(r, m);
    NoDigits();
    AskedLetters(66);
    FrontOf(HelloAs(66), rest);
    HeardKeeps(r, c, rx);
    HeardTwice(r, c, rx, rest);
    HelloPlays(r, c, m, rest, rules);
    var h := Heard(r, c, rx);
    HandleTold(Heard(r, c, rest), c, HelloAs(66), PLAIN, rules);
    ServeStep(h, c, Always, 0, rules);
    var a := Handle(Heard(r, c, rest), c, HelloAs(66), PLAIN, rules);
    PlaysIsLive(a, c, m);
    FramesAreServed(a, c, MANY, m, 1, rules);
    hide Heard, Serve;
    StaysOn(r, a, Serve(a, c, Always, 1, rules), c);
  }

  /** A whole visit, in one chunk: 32640 bytes more for console 0, and it waits again. */
  lemma VisitIsServed(r: Relay, c: Id, m: nat, rules: Settings)
    requires Waits(r, m) && c in r.live && c != 0
    ensures Known(r) && Can(r, Chunk(c, Visit(), Always)) && Decent(r, Chunk(c, Visit(), Always), rules)
    ensures var s := Does(r, Chunk(c, Visit(), Always), rules); Waits(s, m + 16 * MANY) && Stays(r, s, c)
  {
    hide Visit, WaitsAgain, Stays, Known, Lawful, Waits, Serve, ConformsThroughout, Heard, Digits;
    VisitIsChunk();
    VisitorIsQuiet(r, c, m);
    NobodyDrawn();
    assert r.conns[c].rx + Visit() == Visit();
    VisitServes(r, c, m, Visit(), rules);
    DoesKeepsLaw(r, Chunk(c, Visit(), Always), rules);
    WaitsOn(Does(r, Chunk(c, Visit(), Always), rules), c, m + 16 * MANY);
  }

  lemma NobodyDrawn()
    ensures forall i: nat :: Digits(Always(i).digits)
  {}

  lemma VisitorIsQuiet(r: Relay, c: Id, m: nat)
    requires Waits(r, m) && c in r.live && c != 0
    ensures Lawful(r) && Known(r) && c in r.conns && r.conns[c].rx == []
  {}

  lemma WaitsIsLawful(r: Relay, m: nat)
    requires Waits(r, m)
    ensures Lawful(r) && Known(r)
  {}

  lemma HeardTwice(r: Relay, c: Id, rx: seq<byte>, rest: seq<byte>)
    requires c in r.conns
    ensures c in Heard(r, c, rx).conns && Heard(Heard(r, c, rx), c, rest) == Heard(r, c, rest)
  {}

  lemma WaitsOn(r: Relay, c: Id, m: nat)
    requires Lawful(r) && WaitsAgain(r, c, m)
    ensures Waits(r, m)
  {}

  // ---- ten connections ----

  /** What conforming clients do, from one state to another. */
  ghost predicate Ran(ds: seq<Doing>, rules: Settings, first: Relay, r: Relay)
    decreases |ds|, 0
  {
    if ds == [] then r == first else RanOne(ds[..|ds| - 1], ds[|ds| - 1], rules, first, r)
  }

  ghost predicate RanOne(ds: seq<Doing>, d: Doing, rules: Settings, first: Relay, r: Relay)
    decreases |ds|, 1
  {
    exists was: Relay :: Ran(ds, rules, first, was) && Known(was) && Can(was, d) && Decent(was, d, rules) && r == Does(was, d, rules)
  }

  lemma RanOn(ds: seq<Doing>, rules: Settings, first: Relay, r: Relay, d: Doing)
    requires Ran(ds, rules, first, r) && Lawful(r) && Known(r) && Can(r, d) && Decent(r, d, rules)
    ensures Ran(ds + [d], rules, first, Does(r, d, rules)) && Lawful(Does(r, d, rules))
  {
    DoesKeepsLaw(r, d, rules);
    hide Known, Lawful, Can, Decent, Does;
    assert RanOne(ds, d, rules, first, Does(r, d, rules));
    assert (ds + [d])[..|ds + [d]| - 1] == ds;
  }

  /** The first n connections, each from its own address. */
  function Crowd(n: nat): Relay {
    Relay(map i: Id | 0 <= i < n :: Conn(i, [], [], [], None, -1, i, FRESH), seq(n, i => i), [], BARE)
  }

  lemma {:induction false} NobodyThere(n: nat, k: nat)
    requires k <= n
    ensures (forall i | 0 <= i < k :: Crowd(n).live[..k][i] in Crowd(n).conns) && FromAddress(Crowd(n), Crowd(n).live[..k], n) == 0
  {
    if k > 0 {
      NobodyThere(n, k - 1);
      var ids := Crowd(n).live[..k];
      assert ids[..k - 1] == Crowd(n).live[..k - 1] && ids[k - 1] == k - 1;
    }
  }

  lemma OneMore(n: nat)
    requires n < MOST_CLIENTS && Known(Crowd(n))
    ensures Accept(Crowd(n), n, n, n) == Crowd(n + 1) && n !in Crowd(n).conns
  {
    NobodyThere(n, n);
    assert Crowd(n).live[..n] == Crowd(n).live;
    hide Known, FromAddress;
    assert seq(n, i => i) + [n] == seq(n + 1, i => i);
    SameMap(Admitted(Crowd(n), n, n, n).conns, Crowd(n + 1).conns);
  }

  lemma NobodyIsCrowd()
    ensures Crowd(0) == EMPTY
  {
    assert Crowd(0).conns == map[] && Crowd(0).live == [];
  }

  lemma {:induction false} Gather(n: nat, rules: Settings) returns (ds: seq<Doing>)
    requires n <= 10
    ensures Ran(ds, rules, EMPTY, Crowd(n)) && Lawful(Crowd(n)) && Known(Crowd(n))
  {
    hide Lawful, Known, Crowd, Accept;
    if n == 0 {
      ds := [];
      NobodyIsCrowd();
      EmptyIsLawful();
      LawfulParts(EMPTY);
    } else {
      ds := Gather(n - 1, rules);
      OneMore(n - 1);
      var e := Arrive(n - 1, n - 1, n - 1);
      OneIs(Crowd(n - 1), e, rules);
      RanOn(ds, rules, EMPTY, Crowd(n - 1), One(e));
      LawfulParts(Crowd(n));
      ds := ds + [One(e)];
    }
  }

  /** Console 0 says who it is, and waits. */
  lemma FirstWaits(rules: Settings) returns (ds: seq<Doing>, r: Relay)
    ensures Ran(ds, rules, EMPTY, r) && Waits(r, 0) && Rested(r) && forall c | 0 <= c < 10 :: c in r.live
  {
    ds := Gather(10, rules);
    var e := Speak(0, HelloAs(65), PLAIN);
    hide Lawful, Known, Ran;
    MayGreet();
    OneIs(Crowd(10), e, rules);
    RanOn(ds, rules, EMPTY, Crowd(10), One(e));
    ds, r := ds + [One(e)], Does(Crowd(10), One(e), rules);
    LawfulParts(r);
    Greets(rules);
  }

  lemma MayGreet()
    requires Known(Crowd(10))
    ensures Possible(Crowd(10), Speak(0, HelloAs(65), PLAIN)) && Conforms(Crowd(10), Speak(0, HelloAs(65), PLAIN))
  {
    assert Crowd(10).live[0] == 0;
    hide Known;
  }

  lemma Greets(rules: Settings)
    requires Known(Crowd(10)) && Possible(Crowd(10), Speak(0, HelloAs(65), PLAIN))
    requires Lawful(Pairing.Step(Crowd(10), Speak(0, HelloAs(65), PLAIN), rules))
    ensures var r := Pairing.Step(Crowd(10), Speak(0, HelloAs(65), PLAIN), rules);
            Waits(r, 0) && Rested(r) && forall c | 0 <= c < 10 :: c in r.live
  {
    hide Asked, IndexOf, Lawful, Known, Told, Oldest, Put, Has;
    AskedLetters(65);
    var r := Pairing.Step(Crowd(10), Speak(0, HelloAs(65), PLAIN), rules);
    LawfulParts(r);
    GreetTold(Crowd(10), 0, US);
    NobodyElse(Greet(Crowd(10), 0, US));
    FirstName();
    assert r == Greet(Crowd(10), 0, US);
    forall c | 0 <= c < 10
      ensures c in r.live
    {
      assert r.live[c] == c;
    }
  }

  lemma FirstName()
    ensures !Has<Name, Id>([], US) && Put<Name, Id>([], US, 0) == [Entry(US, 0)]
  {}

  lemma NobodyElse(g: Relay)
    requires Known(g) && forall o | o in g.live && o != 0 :: o in g.conns && g.conns[o].name == []
    ensures Oldest(g, g.live, 0) == None
  {
    hide Known;
  }

  // ---- nine visits in one turn ----

  /** One chunk from each connection, at most. */
  predicate OneEach(ds: seq<Doing>) {
    && (forall i | 0 <= i < |ds| :: ds[i].Chunk?)
    && (forall i, j | 0 <= i < j < |ds| :: ds[i].c != ds[j].c)
  }

  lemma {:induction false} Visits(first: Relay, n: nat, rules: Settings) returns (ds: seq<Doing>, r: Relay)
    requires Waits(first, 0) && n <= 9 && forall c | 0 <= c < 10 :: c in first.live
    ensures Ran(ds, rules, first, r) && Waits(r, n * (16 * MANY)) && OneEach(ds)
    ensures (forall i | 0 <= i < |ds| :: ds[i].c <= n) && forall c | n < c < 10 :: c in r.live
  {
    hide Waits, Ran, Visit, Can, Decent, Does, Lawful, Known;
    if n == 0 {
      ds, r := [], first;
      assert Ran([], rules, first, first) by { Nothing(rules, first); }
    } else {
      ds, r := Visits(first, n - 1, rules);
      var d := Chunk(n, Visit(), Always);
      VisitIsServed(r, n, (n - 1) * (16 * MANY), rules);
      WaitsIsLawful(r, (n - 1) * (16 * MANY));
      RanOn(ds, rules, first, r, d);
      var was := r;
      ds, r := ds + [d], Does(r, d, rules);
      assert (n - 1) * (16 * MANY) + 16 * MANY == n * (16 * MANY);
    }
  }

  lemma Nothing(rules: Settings, first: Relay)
    ensures Ran([], rules, first, first)
  {}

  /**
   * There is a turn of the loop, of one chunk from each of nine conforming clients, after which the relay has more
   * for one connection than the port's transmit buffer holds.
   */
  lemma TurnOutgrowsBuffer(rules: Settings) returns (before: seq<Doing>, first: Relay, turn: seq<Doing>, r: Relay)
    ensures Ran(before, rules, EMPTY, first) && Rested(first)
    ensures Ran(turn, rules, first, r) && OneEach(turn) && !Contained(r)
  {
    hide Waits, Ran, Rested, Lawful, Known, OneEach;
    before, first := FirstWaits(rules);
    turn, r := Visits(first, 9, rules);
    TooMuch(r);
  }

  lemma TooMuch(r: Relay)
    requires Waits(r, 9 * (16 * MANY))
    ensures !Contained(r)
  {
    hide Lawful, Known;
    assert |r.conns[0].tx| > TX_CAPACITY;
  }
}
