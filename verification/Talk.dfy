/** What two consoles in a match are told, from START to the end: each other's frames, whole and in order. */
module Talk {
  import opened Bytes
  import opened Ordered
  import opened Framing
  import opened Verdict
  import opened Relay
  import opened Pairing
  import opened Passage
  import opened Hearing
  import Wire

  /** A frame of console c's. */
  predicate Speaks(e: Event, c: Id) {
    e.Speak? && e.c == c
  }

  /** A game frame no longer than a record's, as consoles send them. */
  predicate InGame(e: Event) {
    e.Speak? && Relayed(e.packet.kind) && |e.packet.payload| <= GAME_PAYLOAD
  }

  /** It goes out padded to sixteen bytes. */
  function OutFrame(e: Event): (f: Wire.Frame)
    requires InGame(e)
  {
    FrameBytes(Packet(e.packet.kind, Padded(e.packet.payload, GAME_PAYLOAD)))
  }

  // ---- one event ----

  /** Unless one of the two has gone, neither has been told anything. */
  ghost predicate Untold(r: Relay, s: Relay, h: Id, g: Id) {
    h in s.live && g in s.live ==>
      && h in r.conns && g in r.conns && h in s.conns && g in s.conns
      && s.conns[h].tx == r.conns[h].tx && s.conns[g].tx == r.conns[g].tx
  }

  lemma SayToOther(r: Relay, o: Id, bytes: seq<byte>, h: Id, g: Id)
    requires o in r.conns && h in r.conns && g in r.conns && o != h && o != g
    ensures Untold(r, Send(r, o, bytes), h, g)
  {}

  lemma DropTellsNeither(r: Relay, o: Id, h: Id, g: Id)
    requires Married(r) && Wed(r, h, g) && o in r.conns
    ensures Untold(r, Drop(r, o), h, g)
  {
    hide Married, PeerLeft, IndexOf;
    MarriedIsKnown(r);
    DropKeepsKnown(r, o);
    if o in r.live && o != h && o != g {
      OutsidersStayOut(r, h, g, o);
    }
    hide Known, Without;
  }

  lemma PairTellsNeither(r: Relay, o: Id, seed: nat, rules: Settings, h: Id, g: Id)
    requires Known(r) && Wed(r, h, g) && o in r.conns && o != h && o != g
    ensures Untold(r, TryPair(r, o, seed, rules), h, g)
  {
    hide Oldest, StartFrame;
  }

  lemma HelloTellsNeither(r: Relay, o: Id, payload: seq<byte>, luck: Luck, rules: Settings, h: Id, g: Id)
    requires Married(r) && Wed(r, h, g) && o in r.live && r.conns[o].name == [] && Digits(luck.digits)
    ensures Untold(r, OnHello(r, o, payload, luck, rules), h, g)
  {
    assert o != h && o != g;
    assert Known(r);
    DropTellsNeither(r, o, h, g);
    var asked := Asked(payload);
    if asked.Some? {
      FreeNameIsOk(r.names, asked.value, luck.digits);
      var free := FreeName(r.names, asked.value, luck.digits);
      if free.Some? {
        var named := Greet(r, o, free.value);
        assert Known(named) && Wed(named, h, g);
        hide Known;
        PairTellsNeither(named, o, luck.seed, rules, h, g);
      }
    }
    hide Married, Drop, TryPair, FreeName, IndexOf, Put, Asked;
  }

  lemma LogTellsNeither(r: Relay, o: Id, tick: byte, crc: byte, h: Id, g: Id)
    requires Known(r) && h in r.conns && g in r.conns && o in r.conns
    ensures Untold(r, LogCrc(r, o, tick, crc), h, g)
  {
    hide Ruled, Known;
  }

  lemma ForwardTellsNeither(r: Relay, o: Id, p: Packet, h: Id, g: Id)
    requires Married(r) && Wed(r, h, g) && o in r.live && |p.payload| < LONGEST && o != h && o != g
    ensures o in r.conns && Known(r) && Untold(r, Forward(r, o, p), h, g)
  {
    MarriedIsKnown(r);
    assert o in r.conns;
    OutsidersStayOut(r, h, g, o);
    hide Married, LogCrc, FrameBytes, Padded, SameNames;
    var sent := r;
    if r.conns[o].partner.Some? {
      var bytes := FrameBytes(Packet(p.kind, Padded(p.payload, GAME_PAYLOAD)));
      SendKeeps(r, r.conns[o].partner.value, bytes);
      SayToOther(r, r.conns[o].partner.value, bytes, h, g);
      sent := Send(r, r.conns[o].partner.value, bytes);
    }
    if p.kind == INPUT && |p.payload| > CRC_AT {
      LogTellsNeither(sent, o, p.payload[0], p.payload[CRC_AT], h, g);
      LogKeeps(sent, o, p.payload[0], p.payload[CRC_AT]);
    }
    hide Known;
  }

  lemma OtherTellsNeither(r: Relay, o: Id, p: Packet, luck: Luck, rules: Settings, h: Id, g: Id)
    requires Married(r) && Wed(r, h, g) && Possible(r, Speak(o, p, luck)) && Conforms(r, Speak(o, p, luck)) && o != h && o != g
    ensures Known(r) && Untold(r, Handle(r, o, p, luck, rules), h, g)
  {
    hide Married, Forward, OnHello, TryPair, Drop, LobbyFrame, Send, Known, Untold;
    MarriedIsKnown(r);
    if Relayed(p.kind) {
      ForwardTellsNeither(r, o, p, h, g);
    } else if p.kind == HELLO {
      HelloTellsNeither(r, o, p.payload, luck, rules, h, g);
    } else if p.kind == LIST {
      SayToOther(r, o, LobbyFrame(r), h, g);
    } else if p.kind == JOIN {
      PairTellsNeither(r, o, luck.seed, rules, h, g);
    } else if p.kind == PING {
      SayToOther(r, o, FrameBytes(Packet(PONG, [])), h, g);
    } else if p.kind == BYE {
      DropTellsNeither(r, o, h, g);
    } else {
      NobodyTold(r, h, g);
    }
  }

  lemma NobodyTold(r: Relay, h: Id, g: Id)
    requires h in r.conns && g in r.conns
    ensures Untold(r, r, h, g)
  {}

  lemma ArriveTellsNeither(r: Relay, o: Id, addr: nat, born: int, h: Id, g: Id)
    requires Known(r) && h in r.conns && g in r.conns && o !in r.conns
    ensures Untold(r, Accept(r, o, addr, born), h, g)
  {
    hide FromAddress, Known;
  }

  lemma ForgetTellsNeither(r: Relay, h: Id, g: Id)
    requires h in r.conns && g in r.conns
    ensures Untold(r, Forgotten(r), h, g)
  {}

  /** A console of the match takes what it takes, or it goes. */
  lemma TakeMovesOn(r: Relay, c: Id, k: nat, h: Id, g: Id)
    requires Married(r) && Wed(r, h, g) && c in r.conns && k <= |r.conns[c].tx|
    ensures Known(r)
    ensures var s := Flush(r, c, k);
            h in s.live && g in s.live ==>
              && h in s.conns && g in s.conns
              && s.conns[h].tx == (if c == h then r.conns[h].tx[k..] else r.conns[h].tx)
              && s.conns[g].tx == (if c == g then r.conns[g].tx[k..] else r.conns[g].tx)
  {
    MarriedIsKnown(r);
    DrainedIsKnown(r, c, k);
    var s := Drained(r, c, k);
    assert SameMatches(r, Overrun(s));
    SameMatchesKeepMarried(r, Overrun(s));
    assert Wed(Overrun(s), h, g);
    DropTellsNeither(Overrun(s), c, h, g);
    hide Married, Drop, Known, SameMatches;
  }

  /** A game frame of one goes to the other, whole; nobody else hears it. */
  lemma FramePasses(r: Relay, e: Event, rules: Settings, h: Id, g: Id)
    requires Married(r) && Wed(r, h, g) && Possible(r, e) && InGame(e) && (e.c == h || e.c == g)
    ensures Known(r)
    ensures var s := Step(r, e, rules);
            && h in s.conns && g in s.conns
            && s.conns[h].tx == r.conns[h].tx + (if e.c == g then OutFrame(e) else [])
            && s.conns[g].tx == r.conns[g].tx + (if e.c == h then OutFrame(e) else [])
  {
    MarriedIsKnown(r);
    var q := if e.c == h then g else h;
    SendKeeps(r, q, OutFrame(e));
    hide Married, Known, SameNames, LogCrc, OutFrame;
    var p := e.packet;
    if p.kind == INPUT && |p.payload| > CRC_AT {
      LogTellsNobody(Send(r, q, FrameBytes(Packet(p.kind, Padded(p.payload, GAME_PAYLOAD)))), e.c, p.payload[0], p.payload[CRC_AT]);
    }
    OutFrameIs(e);
    hide FrameBytes, Padded;
  }

  lemma OutFrameIs(e: Event)
    requires InGame(e)
    ensures OutFrame(e) == FrameBytes(Packet(e.packet.kind, Padded(e.packet.payload, GAME_PAYLOAD)))
  {}

  // ---- whole matches ----

  /** What one console has been told since the match began: the bytes it has taken, and the frames behind them. */
  datatype Ear = Ear(taken: seq<byte>, frames: seq<Wire.Frame>)

  /** What an event adds to what console c, partner of d, has been told and has taken. */
  function Hears(ear: Ear, r: Relay, e: Event, c: Id, d: Id): Ear
    requires c in r.conns && (e.Take? && e.c == c ==> e.k <= |r.conns[c].tx|) && (Speaks(e, d) ==> InGame(e))
  {
    Ear(if e.Take? && e.c == c then ear.taken + r.conns[c].tx[..e.k] else ear.taken,
        if Speaks(e, d) then ear.frames + [OutFrame(e)] else ear.frames)
  }

  /** The two say nothing but game frames. */
  predicate OnlyPlay(e: Event, h: Id, g: Id) {
    Speaks(e, h) || Speaks(e, g) ==> InGame(e)
  }

  /** A match from its pairing on, whatever else happens to the relay, with what each of the two is told. */
  ghost predicate Played(events: seq<Event>, rules: Settings, first: Relay, h: Id, g: Id, atH: Ear, atG: Ear, r: Relay)
    decreases |events|, 0
  {
    if events == [] then r == first && atH == atG == Ear([], [])
    else PlayedOn(events[..|events| - 1], events[|events| - 1], rules, first, h, g, atH, atG, r)
  }

  ghost predicate PlayedOn(events: seq<Event>, e: Event, rules: Settings, first: Relay, h: Id, g: Id, atH: Ear, atG: Ear, r: Relay)
    decreases |events|, 1
  {
    exists was: Relay, wasH: Ear, wasG: Ear ::
      Played(events, rules, first, h, g, wasH, wasG, was) && Plays(was, e, rules, h, g, wasH, wasG, atH, atG, r)
  }

  ghost predicate Plays(was: Relay, e: Event, rules: Settings, h: Id, g: Id, wasH: Ear, wasG: Ear, atH: Ear, atG: Ear, r: Relay) {
    && Known(was) && Possible(was, e) && Conforms(was, e) && OnlyPlay(e, h, g) && h in was.conns && g in was.conns
    && r == Step(was, e, rules) && h in r.live && g in r.live
    && atH == Hears(wasH, was, e, h, g) && atG == Hears(wasG, was, e, g, h)
  }

  /** A match goes on with anything that may happen, as long as the two stay and say only game frames. */
  lemma MatchGoesOn(events: seq<Event>, e: Event, rules: Settings, first: Relay, h: Id, g: Id, wasH: Ear, wasG: Ear, was: Relay)
      returns (atH: Ear, atG: Ear)
    requires Played(events, rules, first, h, g, wasH, wasG, was) && Known(was) && Possible(was, e) && Conforms(was, e)
    requires OnlyPlay(e, h, g) && h in was.conns && g in was.conns
    requires var s := Step(was, e, rules); h in s.live && g in s.live
    ensures Played(events + [e], rules, first, h, g, atH, atG, Step(was, e, rules))
  {
    atH, atG := Hears(wasH, was, e, h, g), Hears(wasG, was, e, g, h);
    assert Plays(was, e, rules, h, g, wasH, wasG, atH, atG, Step(was, e, rules));
    hide Plays, Known, Possible, Conforms, Step, Hears, OnlyPlay;
    assert PlayedOn(events, e, rules, first, h, g, atH, atG, Step(was, e, rules));
    assert (events + [e])[..|events + [e]| - 1] == events;
  }

  /** Everything told so far: what was waiting at the start, and then the other's frames, whole and in order. */
  ghost predicate Whole(first: Relay, r: Relay, c: Id, ear: Ear) {
    && c in first.conns && c in r.conns
    && ear.taken + r.conns[c].tx == first.conns[c].tx + Wire.Flat(ear.frames)
  }

  lemma {:induction false} FlatMore(fs: seq<Wire.Frame>, f: Wire.Frame)
    ensures Wire.Flat(fs + [f]) == Wire.Flat(fs) + f
  {
    if fs == [] {
      assert fs + [f] == [f];
      assert Wire.Flat([f]) == f + Wire.Flat([]);
    } else {
      FlatMore(fs[1..], f);
      assert (fs + [f])[1..] == fs[1..] + [f];
    }
  }

  /** One ear, one event. */
  lemma EarStaysWhole(first: Relay, was: Relay, r: Relay, e: Event, c: Id, d: Id, ear: Ear)
    requires Whole(first, was, c, ear) && c in r.conns && (e.Take? && e.c == c ==> e.k <= |was.conns[c].tx|)
    requires Speaks(e, d) ==> InGame(e)
    requires r.conns[c].tx == if e.Take? && e.c == c then was.conns[c].tx[e.k..]
                              else if Speaks(e, d) then was.conns[c].tx + OutFrame(e) else was.conns[c].tx
    ensures Whole(first, r, c, Hears(ear, was, e, c, d))
  {
    hide Wire.Flat, OutFrame;
    if Speaks(e, d) {
      FlatMore(ear.frames, OutFrame(e));
      var (tx, f) := (was.conns[c].tx, OutFrame(e));
      assert ear.taken + (tx + f) == (ear.taken + tx) + f;
      assert first.conns[c].tx + (Wire.Flat(ear.frames) + f) == (first.conns[c].tx + Wire.Flat(ear.frames)) + f;
    } else if e.Take? && e.c == c {
      assert was.conns[c].tx[..e.k] + was.conns[c].tx[e.k..] == was.conns[c].tx;
      assert ear.taken + was.conns[c].tx == (ear.taken + was.conns[c].tx[..e.k]) + was.conns[c].tx[e.k..];
    }
  }

  lemma EventPlays(was: Relay, e: Event, rules: Settings, h: Id, g: Id)
    requires Married(was) && Known(was) && Wed(was, h, g) && Possible(was, e) && Conforms(was, e) && OnlyPlay(e, h, g)
    requires var s := Step(was, e, rules); h in s.live && g in s.live
    ensures var s := Step(was, e, rules);
            && h in s.conns && g in s.conns
            && s.conns[h].tx == (if e.Take? && e.c == h then was.conns[h].tx[e.k..]
                                 else if Speaks(e, g) then was.conns[h].tx + OutFrame(e) else was.conns[h].tx)
            && s.conns[g].tx == (if e.Take? && e.c == g then was.conns[g].tx[e.k..]
                                 else if Speaks(e, h) then was.conns[g].tx + OutFrame(e) else was.conns[g].tx)
  {
    hide Married, Handle, Drop, Accept, Flush, Forgotten, Known, OutFrame;
    if Speaks(e, h) || Speaks(e, g) {
      FramePasses(was, e, rules, h, g);
    } else {
      match e
      case Arrive(c, addr, born) => ArriveTellsNeither(was, c, addr, born, h, g);
      case Speak(c, p, luck) => OtherTellsNeither(was, c, p, luck, rules, h, g);
      case Hangup(c) => DropTellsNeither(was, c, h, g);
      case Take(c, k) => TakeMovesOn(was, c, k, h, g);
      case Forget => ForgetTellsNeither(was, h, g);
    }
  }

  /** They stay each other's partners while both are live. */
  lemma EventWeds(was: Relay, e: Event, rules: Settings, h: Id, g: Id)
    requires Married(was) && Known(was) && Wed(was, h, g) && Possible(was, e) && Conforms(was, e) && OnlyPlay(e, h, g)
    requires var s := Step(was, e, rules); h in s.live && g in s.live && h in s.conns && g in s.conns
    ensures Wed(Step(was, e, rules), h, g)
  {
    hide Married, Known, Step, Conforms;
    if FromMatch(e, h, g) {
      RecordStaysWed(was, e, rules, h, g);
    } else {
      OthersAreNotHeard(was, e, rules, h, g);
    }
  }

  lemma RecordStaysWed(was: Relay, e: Event, rules: Settings, h: Id, g: Id)
    requires Known(was) && Wed(was, h, g) && Possible(was, e) && FromMatch(e, h, g)
    ensures Wed(Step(was, e, rules), h, g)
  {
    ForwardKeeps(was, e.c, e.packet);
    ForwardKeepsMatches(was, e.c, e.packet);
    hide Known, Forward;
  }

  /**
   * No misframing from START on: through a whole match, whatever else happens to the relay, each of two consoles
   * that send only game frames has been told exactly what was waiting for it when the match began, which ends in
   * START, and then the other's frames, each of sixteen bytes, all of them, in the order they were sent.
   */
  lemma {:induction false} MatchIsWhole(events: seq<Event>, rules: Settings, first: Relay, h: Id, g: Id, atH: Ear, atG: Ear, r: Relay)
    requires Married(first) && Wed(first, h, g) && Played(events, rules, first, h, g, atH, atG, r)
    ensures Married(r) && Wed(r, h, g) && Whole(first, r, h, atH) && Whole(first, r, g, atG)
  {
    hide Married, Known, Possible, Conforms, Step, Wed, Whole, Hears;
    if events == [] {
      NothingYet(first, h, g);
    } else {
      var e := events[|events| - 1];
      var was: Relay, wasH: Ear, wasG: Ear :|
        Played(events[..|events| - 1], rules, first, h, g, wasH, wasG, was) && Plays(was, e, rules, h, g, wasH, wasG, atH, atG, r);
      MatchIsWhole(events[..|events| - 1], rules, first, h, g, wasH, wasG, was);
      StepKeepsMarried(was, e, rules);
      MayTake(was, e);
      EventPlays(was, e, rules, h, g);
      EventWeds(was, e, rules, h, g);
      EarStaysWhole(first, was, r, e, h, g, wasH);
      EarStaysWhole(first, was, r, e, g, h, wasG);
    }
  }

  lemma MayTake(r: Relay, e: Event)
    requires Possible(r, e)
    ensures e.Take? ==> e.c in r.conns && e.k <= |r.conns[e.c].tx|
  {
    hide Known;
  }

  lemma NothingYet(r: Relay, h: Id, g: Id)
    requires Wed(r, h, g)
    ensures Whole(r, r, h, Ear([], [])) && Whole(r, r, g, Ear([], []))
  {
    assert Wire.Flat([]) == [];
  }

  // ---- and the end ----

  /** When one of the two goes, however it goes, the other is told the sixteen bytes of a departure, and nothing else. */
  lemma SurvivorGetsLeft(r: Relay, e: Event, rules: Settings, h: Id, g: Id)
    requires Married(r) && Known(r) && Wed(r, h, g) && Possible(r, e) && Conforms(r, e)
    requires var s := Step(r, e, rules); g !in s.live && h in s.live
    ensures var s := Step(r, e, rules);
            h in s.conns && s.conns[h].tx == r.conns[h].tx + Wire.PEER_LEFT && s.conns[h].partner == None
  {
    SurvivorIsTold();
    NamedInMatch(r, h, g);
    hide Married, Known, Drop, PeerLeft, Wed, Drained, Overrun;
    if e.Hangup? {
      GoneIsTold(r, e.c, h, g);
    } else if e.Take? {
      DrainedIsKnown(r, e.c, e.k);
      var s := Drained(r, e.c, e.k);
      DrainedWed(r, e.c, e.k, h, g);
      GoneIsTold(Overrun(s), e.c, h, g);
    } else if e.Speak? {
      SpeakerGoes(r, e, rules, h, g);
    } else {
      NobodyGoes(r, e, rules, g);
    }
  }

  /** If dropping c loses g and leaves h, then c is g, and h is told. */
  lemma GoneIsTold(r: Relay, c: Id, h: Id, g: Id)
    requires Known(r) && Wed(r, h, g) && c in r.conns && g !in Drop(r, c).live && h in Drop(r, c).live
    ensures c == g != h
    ensures var s := Drop(r, c); h in s.conns && s.conns[h].tx == r.conns[h].tx + PeerLeft() && s.conns[h].partner == None
  {
    DropKeepsKnown(r, c);
    hide Known, PeerLeft, IndexOf, Without;
  }

  lemma DrainedWed(r: Relay, c: Id, k: nat, h: Id, g: Id)
    requires Wed(r, h, g) && c in r.conns && k <= |r.conns[c].tx|
    ensures Wed(Drained(r, c, k), h, g) && Wed(Overrun(Drained(r, c, k)), h, g) && Drained(r, c, k).live == r.live
    ensures h in r.conns && h in Overrun(Drained(r, c, k)).conns
    ensures c != h ==> Overrun(Drained(r, c, k)).conns[h].tx == r.conns[h].tx
    ensures Overrun(Drained(r, c, k)).conns == Drained(r, c, k).conns
  {}

  /** Of the frames only a BYE, or a HELLO refused, loses anybody; a console in a match does not say HELLO. */
  lemma SpeakerGoes(r: Relay, e: Event, rules: Settings, h: Id, g: Id)
    requires Married(r) && Known(r) && Wed(r, h, g) && Possible(r, e) && Conforms(r, e) && e.Speak?
    requires var s := Step(r, e, rules); g !in s.live && h in s.live
    ensures var s := Step(r, e, rules);
            h in s.conns && s.conns[h].tx == r.conns[h].tx + PeerLeft() && s.conns[h].partner == None
  {
    NamedInMatch(r, h, g);
    hide Married, Known, Handle, Drop, PeerLeft, Wed;
    if e.packet.kind != BYE {
      OnlyByeLoses(r, e.c, e.packet, e.luck, rules, g);
    } else {
      ByeIsDrop(r, e.c, e.packet, e.luck, rules);
      GoneIsTold(r, e.c, h, g);
    }
  }

  lemma ByeIsDrop(r: Relay, c: Id, p: Packet, luck: Luck, rules: Settings)
    requires Known(r) && c in r.conns && p.kind == BYE && |p.payload| < LONGEST && Digits(luck.digits)
    ensures Handle(r, c, p, luck, rules) == Drop(r, c)
  {
    hide Known, Drop;
  }

  lemma OnlyByeLoses(r: Relay, c: Id, p: Packet, luck: Luck, rules: Settings, g: Id)
    requires Known(r) && c in r.conns && p.kind != BYE && |p.payload| < LONGEST && Digits(luck.digits)
    requires g in r.live && (p.kind == HELLO ==> g != c)
    ensures g in Handle(r, c, p, luck, rules).live
  {
    hide Known, Forward, OnHello, TryPair, Drop, Send, LobbyFrame, SameNames, PeerLeft;
    if Relayed(p.kind) {
      ForwardKeeps(r, c, p);
      SameLive(r, Forward(r, c, p));
    } else if p.kind == HELLO {
      HelloLosesItself(r, c, p.payload, luck, rules, g);
    } else if p.kind == JOIN {
      TryPairKeeps(r, c, luck.seed, rules);
      SameLive(r, TryPair(r, c, luck.seed, rules));
    } else if p.kind == LIST {
      SendKeeps(r, c, LobbyFrame(r));
      SameLive(r, Send(r, c, LobbyFrame(r)));
    } else if p.kind == PING {
      SendKeeps(r, c, FrameBytes(Packet(PONG, [])));
      SameLive(r, Send(r, c, FrameBytes(Packet(PONG, []))));
    }
  }

  lemma NamedInMatch(r: Relay, h: Id, g: Id)
    requires Married(r) && Wed(r, h, g)
    ensures r.conns[h].name != [] && r.conns[g].name != [] && g in r.live
  {}

  lemma SameLive(r: Relay, s: Relay)
    requires SameNames(r, s)
    ensures s.live == r.live
  {}

  lemma HelloLosesItself(r: Relay, c: Id, payload: seq<byte>, luck: Luck, rules: Settings, g: Id)
    requires Known(r) && c in r.conns && Digits(luck.digits) && g in r.live && g != c
    ensures g in OnHello(r, c, payload, luck, rules).live
  {
    DropKeepsKnown(r, c);
    var asked := Asked(payload);
    if asked.Some? {
      AskedIsOk(payload);
      FreeNameIsOk(r.names, asked.value, luck.digits);
      var free := FreeName(r.names, asked.value, luck.digits);
      if free.Some? {
        var named := Greet(r, c, free.value);
        GreetTold(r, c, free.value);
        TryPairKeeps(named, c, luck.seed, rules);
      }
    }
    hide Drop, TryPair, FreeName, IndexOf, Put, Asked, Known, Told, NameOk;
  }

  lemma NobodyGoes(r: Relay, e: Event, rules: Settings, g: Id)
    requires Known(r) && Possible(r, e) && (e.Arrive? || e.Forget?) && g in r.live
    ensures g in Step(r, e, rules).live
  {
    hide FromAddress, Known;
  }

  /** A console's record goes out as the very bytes the console wrote. */
  lemma RecordGoesOut(c: Id, record: Wire.Record, luck: Luck)
    ensures InGame(Speak(c, PacketOf(Wire.Encode(record)), luck))
    ensures OutFrame(Speak(c, PacketOf(Wire.Encode(record)), luck)) == Wire.Encode(record)
  {
    RecordIsPacket(record);
    hide Wire.Encode, FrameBytes, PacketOf;
  }
}
