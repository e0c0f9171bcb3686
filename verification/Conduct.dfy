/** What conforming clients keep while whole chunks of theirs are served. */
module Conduct {
  import opened Bytes
  import opened Ordered
  import opened Framing
  import opened Verdict
  import opened Relay
  import opened Pairing
  import opened Passage
  import opened Bytewise

  // ---- every name is a live console's ----

  /** No more connections than are let in, and every name taken is the name of the live console that took it. */
  ghost predicate Registered(r: Relay) {
    && Known(r) && Distinct(r.names) && |r.live| <= MOST_CLIENTS
    && forall k | 0 <= k < |r.names| ::
         && r.names[k].key != [] && r.names[k].value in r.live && r.names[k].value in r.conns
         && r.conns[r.names[k].value].name == r.names[k].key
  }

  function Owners(names: seq<Entry<Name, Id>>, n: nat): set<Id>
    requires n <= |names|
  {
    set k | 0 <= k < n :: names[k].value
  }

  lemma {:induction false} OwnersAreMany(r: Relay, n: nat)
    requires Registered(r) && n <= |r.names|
    ensures |Owners(r.names, n)| == n
  {
    if n == 0 {
      assert Owners(r.names, 0) == {};
    } else {
      OwnersAreMany(r, n - 1);
      var o := r.names[n - 1].value;
      assert Owners(r.names, n) == Owners(r.names, n - 1) + {o};
      forall k | 0 <= k < n - 1
        ensures r.names[k].value != o
      {
        assert r.names[k].key != r.names[n - 1].key;
      }
      assert o !in Owners(r.names, n - 1);
    }
    hide Known;
  }

  function IdsIn(ids: seq<Id>): set<Id> {
    set o | o in ids
  }

  lemma {:induction false} SetOfIds(ids: seq<Id>)
    ensures |IdsIn(ids)| <= |ids|
  {
    if ids == [] {
      assert IdsIn(ids) == {};
    } else {
      var (front, last) := (ids[..|ids| - 1], ids[|ids| - 1]);
      SetOfIds(front);
      assert ids == front + [last];
      assert IdsIn(ids) == IdsIn(front) + {last};
      assert |IdsIn(front) + {last}| <= |IdsIn(front)| + 1;
    }
  }

  lemma SmallerSet(a: set<Id>, b: set<Id>)
    requires a <= b
    ensures |a| <= |b|
  {
    assert b == a + (b - a);
  }

  /** So there are no more names than connections. */
  lemma NamesAreFew(r: Relay)
    requires Registered(r)
    ensures |r.names| <= |r.live| <= MOST_CLIENTS
  {
    OwnersAreMany(r, |r.names|);
    SetOfIds(r.live);
    SmallerSet(Owners(r.names, |r.names|), IdsIn(r.live));
    hide Known;
  }

  lemma RegisteredIsKnown(r: Relay)
    requires Registered(r)
    ensures Known(r)
  {}

  lemma SameNamesKeepRegistered(r: Relay, s: Relay)
    requires Registered(r) && SameNames(r, s) && Known(s)
    ensures Registered(s)
  {
    hide Known;
  }

  lemma WithoutShorter(live: seq<Id>, c: Id)
    ensures |Without(live, c)| <= |live|
  {}

  lemma DropKeepsRegistered(r: Relay, c: Id)
    requires Registered(r) && c in r.conns
    ensures Registered(Drop(r, c))
  {
    DropKeepsKnown(r, c);
    WithoutShorter(r.live, c);
    var d := Drop(r, c);
    var mine := r.conns[c].name;
    PopGet(r.names, mine, mine);
    DropNames(r, c);
    assert |d.live| <= |r.live| by { hide Known; }
    hide Known, Without;
    forall k | 0 <= k < |d.names|
      ensures d.names[k].key != [] && d.names[k].value in d.live && d.names[k].value in d.conns
      ensures d.conns[d.names[k].value].name == d.names[k].key
    {
      var j :| 0 <= j < |r.names| && r.names[j] == d.names[k];
    }
    hide Drop;
  }

  /** Dropping forgets the names of the dropped, and no others. */
  lemma DropNames(r: Relay, c: Id)
    requires Registered(r) && c in r.conns
    ensures var d := Drop(r, c);
            && Distinct(d.names)
            && forall k | 0 <= k < |d.names| :: d.names[k] in r.names && (c in r.live ==> d.names[k].value != c)
  {
    hide Known, Drop, IndexOf, Pop, Without, Get, Has;
    DropNamesAre(r, c);
    if c in r.live {
      OwnNames(r, c);
      NamesWithout(r.names, r.conns[c].name, c);
    } else {
      assert Drop(r, c).names == r.names;
    }
  }

  lemma DropNamesAre(r: Relay, c: Id)
    requires Known(r) && c in r.conns
    ensures var mine := r.conns[c].name;
            Drop(r, c).names == if c in r.live && mine != [] && Has(r.names, mine) && Get(r.names, mine) == c then Pop(r.names, mine)
                                else r.names
  {
    hide IndexOf, Without, PeerLeft;
  }

  /** What a connection is down for is its own name. */
  lemma OwnNames(r: Relay, c: Id)
    requires Registered(r) && c in r.conns
    ensures forall k | 0 <= k < |r.names| && r.names[k].value == c :: r.names[k].key == r.conns[c].name != []
  {
    hide Known;
  }

  lemma NamesWithout(names: seq<Entry<Name, Id>>, mine: Name, c: Id)
    requires Distinct(names) && forall k | 0 <= k < |names| && names[k].value == c :: names[k].key == mine != []
    ensures var left := if mine != [] && Has(names, mine) && Get(names, mine) == c then Pop(names, mine) else names;
            && Distinct(left)
            && forall k | 0 <= k < |left| :: left[k] in names && left[k].value != c
  {
    var i := IndexOf(names, mine);
    forall k | 0 <= k < |names| && names[k].value == c
      ensures k == i && mine != []
    {
      OnePlace(names, mine, k);
    }
    PopGet(names, mine, mine);
    var popped := mine != [] && Has(names, mine) && Get(names, mine) == c;
    var left := if popped then Pop(names, mine) else names;
    hide IndexOf;
    forall k | 0 <= k < |left|
      ensures left[k] in names && left[k].value != c
    {
      var j := if popped && k >= i then k + 1 else k;
      assert names[j] == left[k];
    }
  }

  lemma GreetKeepsRegistered(r: Relay, c: Id, name: Name)
    requires Registered(r) && c in r.live && c in r.conns && r.conns[c].name == [] && NameOk(name) && !Has(r.names, name)
    ensures Registered(Greet(r, c, name))
  {
    hide IndexOf, NameChar;
    var d := Greet(r, c, name);
    PutGet(r.names, name, c, name);
    assert Known(d);
    assert d.names == r.names + [Entry(name, c)];
    hide Known, Put;
  }

  lemma HandleKeepsRegistered(r: Relay, c: Id, p: Packet, luck: Luck, rules: Settings)
    requires Registered(r) && Possible(r, Speak(c, p, luck)) && Conforms(r, Speak(c, p, luck))
    ensures Known(r) && Registered(Handle(r, c, p, luck, rules))
  {
    hide Registered, Forward, OnHello, LobbyFrame, TryPair, Send, Drop, SameNames, Known, Waiting;
    RegisteredIsKnown(r);
    if Relayed(p.kind) {
      ForwardKeeps(r, c, p);
      SameNamesKeepRegistered(r, Forward(r, c, p));
    } else if p.kind == HELLO {
      HelloKeepsRegistered(r, c, p.payload, luck, rules);
    } else if p.kind == LIST {
      SendKeeps(r, c, LobbyFrame(r));
      SameNamesKeepRegistered(r, Send(r, c, LobbyFrame(r)));
    } else if p.kind == JOIN {
      TryPairKeeps(r, c, luck.seed, rules);
      SameNamesKeepRegistered(r, TryPair(r, c, luck.seed, rules));
    } else if p.kind == PING {
      SendKeeps(r, c, FrameBytes(Packet(PONG, [])));
      SameNamesKeepRegistered(r, Send(r, c, FrameBytes(Packet(PONG, []))));
    } else if p.kind == BYE {
      DropKeepsRegistered(r, c);
    }
  }

  lemma HelloKeepsRegistered(r: Relay, c: Id, payload: seq<byte>, luck: Luck, rules: Settings)
    requires Registered(r) && Known(r) && c in r.live && c in r.conns && r.conns[c].name == [] && Digits(luck.digits)
    ensures Registered(OnHello(r, c, payload, luck, rules))
  {
    hide Registered, Drop, TryPair, FreeName, SameNames, IndexOf, Put, Asked, NameOk, Known, Greet;
    DropKeepsRegistered(r, c);
    var asked := Asked(payload);
    if asked.Some? {
      AskedIsOk(payload);
      FreeNameIsOk(r.names, asked.value, luck.digits);
      var free := FreeName(r.names, asked.value, luck.digits);
      if free.Some? {
        GreetKeepsRegistered(r, c, free.value);
        var named := Greet(r, c, free.value);
        RegisteredIsKnown(named);
        GreetTold(r, c, free.value);
        TryPairKeeps(named, c, luck.seed, rules);
        SameNamesKeepRegistered(named, TryPair(named, c, luck.seed, rules));
      }
    }
    hide Told;
  }

  // ---- nobody new, and nobody's stream touched ----

  /** Who is live was live, and its receive buffer is what it was. */
  ghost predicate Quieter(r: Relay, s: Relay) {
    forall o | o in s.live :: o in r.live && o in r.conns && o in s.conns && s.conns[o].rx == r.conns[o].rx
  }

  lemma QuieterTwice(a: Relay, b: Relay, c: Relay)
    requires Quieter(a, b) && Quieter(b, c)
    ensures Quieter(a, c)
  {}

  lemma DropIsQuieter(r: Relay, c: Id)
    requires Known(r) && c in r.conns
    ensures Quieter(r, Drop(r, c))
  {
    DropKeepsKnown(r, c);
    DropTold(r, c);
    hide Drop;
  }

  lemma SameNamesQuieter(r: Relay, s: Relay, c: Id, own: nat, others: nat)
    requires Known(r) && SameNames(r, s) && Told(r, s, c, own, others)
    ensures Quieter(r, s)
  {}

  lemma HandleIsQuieter(r: Relay, c: Id, p: Packet, luck: Luck, rules: Settings)
    requires Known(r) && c in r.conns && |p.payload| < LONGEST && Digits(luck.digits)
    ensures Quieter(r, Handle(r, c, p, luck, rules))
  {
    var n := 8 * (|p.payload| + 2);
    hide Forward, OnHello, LobbyFrame, TryPair, Send, Drop, SameNames, Known, Told, Quieter;
    HandleTold(r, c, p, luck, rules);
    if Relayed(p.kind) {
      ForwardKeeps(r, c, p);
      SameNamesQuieter(r, Forward(r, c, p), c, 75, n);
    } else if p.kind == HELLO {
      HelloIsQuieter(r, c, p.payload, luck, rules);
    } else if p.kind == LIST {
      SendKeeps(r, c, LobbyFrame(r));
      SameNamesQuieter(r, Send(r, c, LobbyFrame(r)), c, 75, n);
    } else if p.kind == JOIN {
      TryPairKeeps(r, c, luck.seed, rules);
      SameNamesQuieter(r, TryPair(r, c, luck.seed, rules), c, 75, n);
    } else if p.kind == PING {
      SendKeeps(r, c, FrameBytes(Packet(PONG, [])));
      SameNamesQuieter(r, Send(r, c, FrameBytes(Packet(PONG, []))), c, 75, n);
    } else if p.kind == BYE {
      DropIsQuieter(r, c);
    } else {
      SelfIsQuieter(r);
    }
  }

  lemma SelfIsQuieter(r: Relay)
    requires Known(r)
    ensures Quieter(r, r)
  {}

  lemma HelloIsQuieter(r: Relay, c: Id, payload: seq<byte>, luck: Luck, rules: Settings)
    requires Known(r) && c in r.conns && Digits(luck.digits)
    ensures Quieter(r, OnHello(r, c, payload, luck, rules))
  {
    hide Drop, TryPair, FreeName, SameNames, IndexOf, Put, Asked, NameOk, Known, Told, Quieter, Greet;
    DropIsQuieter(r, c);
    var asked := Asked(payload);
    if asked.Some? {
      AskedIsOk(payload);
      FreeNameIsOk(r.names, asked.value, luck.digits);
      var free := FreeName(r.names, asked.value, luck.digits);
      if free.Some? {
        var named := Greet(r, c, free.value);
        GreetTold(r, c, free.value);
        GreetIsQuieter(r, c, free.value);
        TryPairKeeps(named, c, luck.seed, rules);
        TryPairTold(named, c, luck.seed, rules);
        SameNamesQuieter(named, TryPair(named, c, luck.seed, rules), c, 15, 15);
        QuieterTwice(r, named, TryPair(named, c, luck.seed, rules));
      }
    }
  }

  lemma GreetIsQuieter(r: Relay, c: Id, name: Name)
    requires Known(r) && c in r.conns
    ensures Quieter(r, Greet(r, c, name))
  {}

  // ---- a whole chunk ----

  /** Every frame of what is buffered follows the protocol. */
  ghost predicate ConformsThroughout(r: Relay, c: Id, luck: nat -> Luck, k: nat, rules: Settings)
    requires Known(r) && c in r.conns && forall i: nat :: Digits(luck(i).digits)
    decreases |r.conns[c].rx|
  {
    var rx := r.conns[c].rx;
    Ready(rx) ==>
      var h := Heard(r, c, Behind(rx));
      HeardKeeps(r, c, Behind(rx));
      HandleTold(h, c, Front(rx), luck(k), rules);
      && Possible(h, Speak(c, Front(rx), luck(k))) && Conforms(h, Speak(c, Front(rx), luck(k)))
      && ConformsThroughout(Handle(h, c, Front(rx), luck(k), rules), c, luck, k + 1, rules)
  }

  /** Live, married and registered; what any but the one served has buffered is a partial frame. */
  ghost predicate Lawful(r: Relay) {
    Married(r) && Registered(r) && forall o | o in r.live && o in r.conns :: |r.conns[o].rx| <= LONGEST
  }

  lemma HeardKeepsMarried(r: Relay, c: Id, rx: seq<byte>)
    requires Married(r) && Registered(r) && c in r.conns
    ensures Married(Heard(r, c, rx)) && Registered(Heard(r, c, rx))
  {
    HeardKeeps(r, c, rx);
    assert SameMatches(r, Heard(r, c, rx)) && SameNames(r, Heard(r, c, rx));
    hide Known, SameMatches, SameNames;
    SameMatchesKeepMarried(r, Heard(r, c, rx));
    SameNamesKeepRegistered(r, Heard(r, c, rx));
  }

  /** Who is live was live, and its receive buffer is what it was, but for one. */
  ghost predicate QuieterBut(r: Relay, s: Relay, c: Id) {
    forall o | o in s.live :: o in r.live && o in r.conns && o in s.conns && (o != c ==> s.conns[o].rx == r.conns[o].rx)
  }

  lemma HeardIsQuieterBut(r: Relay, c: Id, rx: seq<byte>, a: Relay, s: Relay)
    requires c in r.conns && Known(r) && Quieter(Heard(r, c, rx), a) && QuieterBut(a, s, c)
    ensures QuieterBut(r, s, c)
  {}

  lemma {:induction false} ServeKeepsLaw(r: Relay, c: Id, luck: nat -> Luck, k: nat, rules: Settings)
    requires Married(r) && Registered(r) && Known(r) && c in r.conns && forall i: nat :: Digits(luck(i).digits)
    requires ConformsThroughout(r, c, luck, k, rules)
    ensures var s := Serve(r, c, luck, k, rules); Married(s) && Registered(s) && QuieterBut(r, s, c)
    decreases |r.conns[c].rx|
  {
    hide Known, Married, Registered, Handle, Heard, Drop, Blamed, Told, Possible, Conforms, Quieter, QuieterBut;
    var rx := r.conns[c].rx;
    if Ready(rx) {
      var (h, e) := (Heard(r, c, Behind(rx)), Speak(c, Front(rx), luck(k)));
      HeardKeeps(r, c, Behind(rx));
      HeardKeepsMarried(r, c, Behind(rx));
      HandleTold(h, c, Front(rx), luck(k), rules);
      HandleKeepsEars(h, c, Front(rx), luck(k), rules);
      ServeStep(r, c, luck, k, rules);
      StepKeepsMarried(h, e, rules);
      HandleKeepsRegistered(h, c, Front(rx), luck(k), rules);
      HandleIsQuieter(h, c, Front(rx), luck(k), rules);
      var a := Handle(h, c, Front(rx), luck(k), rules);
      ServeKeepsLaw(a, c, luck, k + 1, rules);
      hide Serve;
      HeardIsQuieterBut(r, c, Behind(rx), a, Serve(a, c, luck, k + 1, rules));
    } else if Malformed(rx) {
      BlamedKeepsLaw(r);
      LoseKeepsMarried(Blamed(r), c);
      DropKeepsRegistered(Blamed(r), c);
      DropIsQuieter(Blamed(r), c);
      BlamedIsQuieterBut(r, Drop(Blamed(r), c), c);
    } else {
      SelfIsQuieter(r);
      SelfIsQuieterBut(r, c);
    }
  }

  lemma BlamedKeepsLaw(r: Relay)
    requires Married(r) && Registered(r)
    ensures Married(Blamed(r)) && Registered(Blamed(r)) && Known(Blamed(r)) && Blamed(r).conns == r.conns
  {}

  lemma BlamedIsQuieterBut(r: Relay, s: Relay, c: Id)
    requires Quieter(Blamed(r), s)
    ensures QuieterBut(r, s, c)
  {}

  lemma SelfIsQuieterBut(r: Relay, c: Id)
    requires Known(r)
    ensures QuieterBut(r, r, c)
  {}

  /** A chunk received: buffered, cut into frames and handled until what is left is partial or malformed. */
  function Serviced(r: Relay, c: Id, data: seq<byte>, luck: nat -> Luck, rules: Settings): Relay
    requires Known(r) && c in r.conns && forall i: nat :: Digits(luck(i).digits)
  {
    HeardKeeps(r, c, r.conns[c].rx + data);
    Serve(Heard(r, c, r.conns[c].rx + data), c, luck, 0, rules)
  }

  /** A chunk of a conforming client keeps the law, and leaves a partial frame or nobody. */
  lemma ServicedKeepsLaw(r: Relay, c: Id, data: seq<byte>, luck: nat -> Luck, rules: Settings)
    requires Lawful(r) && Known(r) && c in r.conns && forall i: nat :: Digits(luck(i).digits)
    requires Known(Heard(r, c, r.conns[c].rx + data)) && c in Heard(r, c, r.conns[c].rx + data).conns
    requires ConformsThroughout(Heard(r, c, r.conns[c].rx + data), c, luck, 0, rules)
    ensures Lawful(Serviced(r, c, data, luck, rules))
  {
    var rx := r.conns[c].rx + data;
    var h := Heard(r, c, rx);
    var s := Serve(h, c, luck, 0, rules);
    hide Known, Married, Registered, Serve, ConformsThroughout;
    HeardKeepsMarried(r, c, rx);
    ServeKeepsLaw(h, c, luck, 0, rules);
    ServeLeaves(h, c, luck, 0, rules);
  }

  // ---- one event more ----

  lemma ArriveKeepsRegistered(r: Relay, c: Id, addr: nat, born: int)
    requires Registered(r) && Known(r) && c !in r.conns
    ensures Registered(Accept(r, c, addr, born))
  {
    hide FromAddress;
  }

  lemma FlushKeepsRegistered(r: Relay, c: Id, k: nat)
    requires Registered(r) && Known(r) && c in r.conns && k <= |r.conns[c].tx|
    ensures Registered(Flush(r, c, k))
  {
    DrainedIsKnown(r, c, k);
    var s := Drained(r, c, k);
    assert SameNames(r, s) && SameNames(r, Overrun(s));
    hide Registered, Drop, Known, SameNames;
    SameNamesKeepRegistered(r, s);
    SameNamesKeepRegistered(r, Overrun(s));
    DropKeepsRegistered(Overrun(s), c);
  }

  lemma ForgetKeepsRegistered(r: Relay)
    requires Registered(r) && Known(Forgotten(r))
    ensures Registered(Forgotten(r))
  {}

  lemma StepKeepsRegistered(r: Relay, e: Event, rules: Settings)
    requires Registered(r) && Known(r) && Possible(r, e) && Conforms(r, e)
    ensures Registered(Step(r, e, rules))
  {
    hide Registered, Handle, Drop, Accept, Flush, Forgotten, Known;
    match e
    case Arrive(c, addr, born) => ArriveKeepsRegistered(r, c, addr, born);
    case Speak(c, p, luck) => HandleKeepsRegistered(r, c, p, luck, rules);
    case Hangup(c) => DropKeepsRegistered(r, c);
    case Take(c, k) => FlushKeepsRegistered(r, c, k);
    case Forget => ForgetKeepsRegistered(r);
  }

  /** Nobody's stream touched, and whoever is new has said nothing. */
  ghost predicate Shorter(r: Relay, s: Relay) {
    forall o | o in s.live && o in s.conns :: s.conns[o].rx == [] || (o in r.live && o in r.conns && s.conns[o].rx == r.conns[o].rx)
  }

  lemma QuieterIsShorter(r: Relay, s: Relay)
    requires Quieter(r, s)
    ensures Shorter(r, s)
  {}

  lemma ArriveIsShorter(r: Relay, c: Id, addr: nat, born: int)
    requires Known(r)
    ensures Shorter(r, Accept(r, c, addr, born))
  {
    hide FromAddress;
  }

  lemma FlushIsShorter(r: Relay, c: Id, k: nat)
    requires Known(r) && c in r.conns && k <= |r.conns[c].tx|
    ensures Shorter(r, Flush(r, c, k))
  {
    DrainedIsKnown(r, c, k);
    var s := Drained(r, c, k);
    assert Quieter(r, s) && Quieter(r, Overrun(s));
    hide Known, Drop, Quieter, Shorter, Overrun;
    QuieterIsShorter(r, s);
    DropIsQuieter(Overrun(s), c);
    QuieterTwice(r, Overrun(s), Drop(Overrun(s), c));
    QuieterIsShorter(r, Drop(Overrun(s), c));
  }

  lemma StepIsShorter(r: Relay, e: Event, rules: Settings)
    requires Known(r) && Possible(r, e)
    ensures Shorter(r, Step(r, e, rules))
  {
    hide Handle, Drop, Accept, Flush, Known, Quieter, Shorter;
    match e
    case Arrive(c, addr, born) => ArriveIsShorter(r, c, addr, born);
    case Speak(c, p, luck) =>
      HandleIsQuieter(r, c, p, luck, rules);
      QuieterIsShorter(r, Handle(r, c, p, luck, rules));
    case Hangup(c) =>
      DropIsQuieter(r, c);
      QuieterIsShorter(r, Drop(r, c));
    case Take(c, k) => FlushIsShorter(r, c, k);
    case Forget => ForgetIsShorter(r);
  }

  lemma ForgetIsShorter(r: Relay)
    requires Known(r)
    ensures Shorter(r, Forgotten(r))
  {}

  lemma StepKeepsLaw(r: Relay, e: Event, rules: Settings)
    requires Lawful(r) && Known(r) && Possible(r, e) && Conforms(r, e)
    ensures Lawful(Step(r, e, rules))
  {
    hide Married, Registered, Known, Step, Possible, Conforms;
    StepKeepsMarried(r, e, rules);
    StepKeepsRegistered(r, e, rules);
    StepIsShorter(r, e, rules);
  }

  // ---- what happens to the relay, a chunk at a time ----

  /** An event as before, or a chunk of up to 4096 bytes from a connection. */
  datatype Doing = One(event: Event) | Chunk(c: Id, data: seq<byte>, luck: nat -> Luck)

  ghost predicate Can(r: Relay, d: Doing) {
    match d
    case One(e) => Possible(r, e)
    case Chunk(c, data, luck) => c in r.conns && |data| <= CHUNK && forall i: nat :: Digits(luck(i).digits)
  }

  ghost predicate Decent(r: Relay, d: Doing, rules: Settings)
    requires Known(r) && Can(r, d)
  {
    match d
    case One(e) => Conforms(r, e)
    case Chunk(c, data, luck) =>
      HeardKeeps(r, c, r.conns[c].rx + data);
      c in r.live && ConformsThroughout(Heard(r, c, r.conns[c].rx + data), c, luck, 0, rules)
  }

  ghost function Does(r: Relay, d: Doing, rules: Settings): Relay
    requires Known(r) && Can(r, d)
  {
    match d
    case One(e) => Step(r, e, rules)
    case Chunk(c, data, luck) => Serviced(r, c, data, luck, rules)
  }

  lemma LawfulParts(r: Relay)
    requires Lawful(r)
    ensures Married(r) && Registered(r) && Known(r)
  {}

  lemma LawfulRx(r: Relay, c: Id)
    requires Lawful(r) && c in r.live && c in r.conns
    ensures |r.conns[c].rx| <= LONGEST
  {}

  /** Conforming clients keep the law, whatever happens. */
  lemma DoesKeepsLaw(r: Relay, d: Doing, rules: Settings)
    requires Lawful(r) && Known(r) && Can(r, d) && Decent(r, d, rules)
    ensures Lawful(Does(r, d, rules))
  {
    hide Lawful, Known, Step, Possible, Conforms, Serviced;
    match d
    case One(e) => StepKeepsLaw(r, e, rules);
    case Chunk(c, data, luck) =>
      HeardKeeps(r, c, r.conns[c].rx + data);
      ServicedKeepsLaw(r, c, data, luck, rules);
  }

  lemma EmptyIsLawful()
    ensures Lawful(EMPTY)
  {}

  /** Alike relays take the same doings, and stay alike. */
  lemma DoesAlike(a: Relay, b: Relay, d: Doing, rules: Settings)
    requires Alike(a, b) && Known(a) && Known(b) && Can(a, d)
    ensures Can(b, d) && Alike(Does(a, d, rules), Does(b, d, rules))
  {
    match d
    case One(e) =>
      hide Alike, Known, Step, Possible;
      StepAlike(a, b, e, rules);
    case Chunk(c, data, luck) =>
      assert b.conns[c].rx == a.conns[c].rx;
      var rx := a.conns[c].rx + data;
      HeardKeeps(a, c, rx);
      HeardKeeps(b, c, rx);
      HeardAlike(a, b, c, rx);
      hide Alike, Known, Serve, Heard;
      ServeAlike(Heard(a, c, rx), Heard(b, c, rx), c, luck, 0, rules);
  }
}
