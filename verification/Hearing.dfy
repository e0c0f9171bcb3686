/** The verdict, as the relay itself comes to it: its ledgers and counters over the runs of conforming clients. */
module Hearing {
  import opened Bytes
  import opened Ordered
  import opened Framing
  import opened Lockstep
  import opened Verdict
  import opened Rematch
  import opened Relay
  import opened Pairing

  /** Each other's partner, and both live. */
  ghost predicate Wed(r: Relay, h: Id, g: Id) {
    && h in r.conns && g in r.conns && h != g && h in r.live && g in r.live
    && r.conns[h].partner == Some(g) && r.conns[g].partner == Some(h)
  }

  /** The two ledgers are what the court makes of the records so far. */
  ghost predicate Sitting(r: Relay, h: Id, g: Id, c: Court) {
    Wed(r, h, g) && r.conns[h].ledger == c.host && r.conns[g].ledger == c.guest
  }

  /** A frame the relay listens to. */
  predicate IsRecord(e: Event) {
    e.Speak? && e.packet.kind == INPUT && |e.packet.payload| > CRC_AT
  }

  /** A record of the host h or the guest g. */
  predicate FromMatch(e: Event, h: Id, g: Id) {
    IsRecord(e) && (e.c == h || e.c == g)
  }

  /** The record as its sender meant it: its stamp is some number with the tick for its low byte. */
  predicate Means(e: Event, h: Id, g: Id, s: Sample) {
    && FromMatch(e, h, g)
    && s.side == (if e.c == h then Host else Guest) && Low(s.y) == e.packet.payload[0] && s.crc == e.packet.payload[CRC_AT]
  }

  // ---- a record of the match ----

  lemma SendKeepsSitting(r: Relay, h: Id, g: Id, c: Court, o: Id, bytes: seq<byte>)
    requires Sitting(r, h, g, c) && o in r.conns
    ensures Sitting(Send(r, o, bytes), h, g, c) && Send(r, o, bytes).stats == r.stats
  {}

  /** What one hearing adds to the relay's counters is what it adds to the court's. */
  predicate Counted(r: Relay, s: Relay, c: Court, d: Court) {
    && s.stats.crcOk == r.stats.crcOk + (d.ok - c.ok) && s.stats.crcBad == r.stats.crcBad + (d.bad - c.bad)
  }

  lemma LogIsHear(r: Relay, h: Id, g: Id, c: Court, side: Side, s: Sample)
    requires Known(r) && Sitting(r, h, g, c) && s.side == side
    ensures var (d, q) := (Hear(c, s), LogCrc(r, if side == Host then h else g, Low(s.y), s.crc));
            Sitting(q, h, g, d) && Counted(r, q, c, d)
  {
    RuledMovesClock(c.Of(side), c.Of(Other(side)), Low(s.y), s.crc);
    hide Ruled, Low;
  }

  /** A record from either console of a match goes to the court, and the counters move as the court's do. */
  lemma RecordIsHeard(r: Relay, e: Event, rules: Settings, h: Id, g: Id, c: Court, s: Sample)
    requires Known(r) && Sitting(r, h, g, c) && Possible(r, e) && Means(e, h, g, s)
    ensures var q := Pairing.Step(r, e, rules); Sitting(q, h, g, Hear(c, s)) && Counted(r, q, c, Hear(c, s))
  {
    var (me, them) := if e.c == h then (h, g) else (g, h);
    var bytes := FrameBytes(Packet(INPUT, Padded(e.packet.payload, GAME_PAYLOAD)));
    SendKeepsSitting(r, h, g, c, them, bytes);
    SendKeeps(r, them, bytes);
    hide Known, Hear, LogCrc, FrameBytes, Padded, Send, Low, SameNames, Sitting;
    LogIsHear(Send(r, them, bytes), h, g, c, s.side, s);
    WedPartners(r, h, g, c);
  }

  lemma WedPartners(r: Relay, h: Id, g: Id, c: Court)
    requires Sitting(r, h, g, c)
    ensures Wed(r, h, g)
  {}

  // ---- anything else ----

  /** The consoles of a match are as they were, unless one of them has gone. */
  ghost predicate Undisturbed(r: Relay, s: Relay, h: Id, g: Id) {
    && h in r.conns && g in r.conns
    && (h in s.live && g in s.live ==>
          && h in s.conns && g in s.conns
          && s.conns[h].ledger == r.conns[h].ledger && s.conns[g].ledger == r.conns[g].ledger
          && s.conns[h].partner == r.conns[h].partner && s.conns[g].partner == r.conns[g].partner)
  }

  lemma SitsOn(r: Relay, s: Relay, h: Id, g: Id, c: Court)
    requires Sitting(r, h, g, c) && Undisturbed(r, s, h, g) && h in s.live && g in s.live
    ensures Sitting(s, h, g, c)
  {}

  /** A conforming run's matches are closed: whoever is neither console of a match is partner to neither. */
  lemma OutsidersStayOut(r: Relay, h: Id, g: Id, o: Id)
    requires Married(r) && Wed(r, h, g) && o in r.live && o != h && o != g
    ensures o in r.conns && r.conns[o].partner != Some(h) && r.conns[o].partner != Some(g)
  {}

  lemma SayDisturbsNobody(r: Relay, o: Id, bytes: seq<byte>, h: Id, g: Id)
    requires o in r.conns && h in r.conns && g in r.conns
    ensures Undisturbed(r, Send(r, o, bytes), h, g)
  {}

  /** A drop takes a console of the match away, or leaves both as they were. */
  lemma DropDisturbsNobody(r: Relay, o: Id, h: Id, g: Id)
    requires Married(r) && Wed(r, h, g) && o in r.conns
    ensures Undisturbed(r, Drop(r, o), h, g)
  {
    hide Married, PeerLeft, IndexOf;
    MarriedIsKnown(r);
    DropKeepsKnown(r, o);
    if o in r.live && o != h && o != g {
      OutsidersStayOut(r, h, g, o);
    }
    hide Known, Without;
  }

  lemma PairDisturbsNobody(r: Relay, o: Id, seed: nat, rules: Settings, h: Id, g: Id)
    requires Known(r) && Wed(r, h, g) && o in r.conns && o != h && o != g
    ensures Undisturbed(r, TryPair(r, o, seed, rules), h, g)
  {
    hide Oldest, StartFrame;
  }

  lemma HelloDisturbsNobody(r: Relay, o: Id, payload: seq<byte>, luck: Luck, rules: Settings, h: Id, g: Id)
    requires Married(r) && Wed(r, h, g) && o in r.live && r.conns[o].name == [] && Digits(luck.digits)
    ensures Undisturbed(r, OnHello(r, o, payload, luck, rules), h, g)
  {
    assert o != h && o != g;
    assert Known(r);
    DropDisturbsNobody(r, o, h, g);
    var asked := Asked(payload);
    if asked.Some? {
      FreeNameIsOk(r.names, asked.value, luck.digits);
      var free := FreeName(r.names, asked.value, luck.digits);
      if free.Some? {
        var named := Greet(r, o, free.value);
        assert Known(named) && Wed(named, h, g);
        hide Known;
        PairDisturbsNobody(named, o, luck.seed, rules, h, g);
      }
    }
    hide Married, Drop, TryPair, FreeName, IndexOf, Put, Asked;
  }

  lemma LogDisturbsNobody(r: Relay, o: Id, tick: byte, crc: byte, h: Id, g: Id)
    requires Known(r) && h in r.conns && g in r.conns && o in r.conns && o != h && o != g
    requires r.conns[o].partner != Some(h) && r.conns[o].partner != Some(g)
    ensures Undisturbed(r, LogCrc(r, o, tick, crc), h, g)
  {
    hide Ruled, Known;
  }

  lemma ForwardDisturbsNobody(r: Relay, o: Id, p: Packet, h: Id, g: Id)
    requires Married(r) && Wed(r, h, g) && o in r.live && |p.payload| < LONGEST
    requires p.kind == INPUT && |p.payload| > CRC_AT ==> o != h && o != g
    ensures o in r.conns && Known(r) && Undisturbed(r, Forward(r, o, p), h, g)
  {
    MarriedIsKnown(r);
    assert o in r.conns;
    if o != h && o != g {
      OutsidersStayOut(r, h, g, o);
    }
    hide Married, LogCrc, FrameBytes, Padded, SameNames;
    if r.conns[o].partner.Some? {
      var bytes := FrameBytes(Packet(p.kind, Padded(p.payload, GAME_PAYLOAD)));
      SendKeeps(r, r.conns[o].partner.value, bytes);
      SayDisturbsNobody(r, r.conns[o].partner.value, bytes, h, g);
    }
    if p.kind == INPUT && |p.payload| > CRC_AT {
      var sent := if r.conns[o].partner.None? then r
                  else Send(r, r.conns[o].partner.value, FrameBytes(Packet(p.kind, Padded(p.payload, GAME_PAYLOAD))));
      LogDisturbsNobody(sent, o, p.payload[0], p.payload[CRC_AT], h, g);
    }
    hide Known;
  }

  lemma SpeakDisturbsNobody(r: Relay, o: Id, p: Packet, luck: Luck, rules: Settings, h: Id, g: Id)
    requires Married(r) && Wed(r, h, g) && Possible(r, Speak(o, p, luck)) && Conforms(r, Speak(o, p, luck))
    requires !FromMatch(Speak(o, p, luck), h, g)
    ensures Known(r) && Undisturbed(r, Handle(r, o, p, luck, rules), h, g)
  {
    hide Married, Forward, OnHello, TryPair, Drop, LobbyFrame, Send, Known, Undisturbed;
    MarriedIsKnown(r);
    if Relayed(p.kind) {
      ForwardDisturbsNobody(r, o, p, h, g);
    } else if p.kind == HELLO {
      HelloDisturbsNobody(r, o, p.payload, luck, rules, h, g);
    } else if p.kind == LIST {
      SayDisturbsNobody(r, o, LobbyFrame(r), h, g);
    } else if p.kind == JOIN {
      PairDisturbsNobody(r, o, luck.seed, rules, h, g);
    } else if p.kind == PING {
      SayDisturbsNobody(r, o, FrameBytes(Packet(PONG, [])), h, g);
    } else if p.kind == BYE {
      DropDisturbsNobody(r, o, h, g);
    } else {
      NothingDisturbs(r, h, g);
    }
  }

  lemma NothingDisturbs(r: Relay, h: Id, g: Id)
    requires h in r.conns && g in r.conns
    ensures Undisturbed(r, r, h, g)
  {}

  lemma FlushDisturbsNobody(r: Relay, o: Id, k: nat, h: Id, g: Id)
    requires Married(r) && Wed(r, h, g) && o in r.conns && k <= |r.conns[o].tx|
    ensures Known(r) && Undisturbed(r, Flush(r, o, k), h, g)
  {
    MarriedIsKnown(r);
    DrainedIsKnown(r, o, k);
    var s := Drained(r, o, k);
    assert SameMatches(r, Overrun(s));
    SameMatchesKeepMarried(r, Overrun(s));
    assert Wed(Overrun(s), h, g);
    DropDisturbsNobody(Overrun(s), o, h, g);
    hide Married, Drop, Known, SameMatches;
  }

  lemma ArriveDisturbsNobody(r: Relay, o: Id, addr: nat, born: int, h: Id, g: Id)
    requires Known(r) && h in r.conns && g in r.conns && o !in r.conns
    ensures Undisturbed(r, Accept(r, o, addr, born), h, g)
  {
    hide FromAddress, Known;
  }

  lemma ForgetDisturbsNobody(r: Relay, h: Id, g: Id)
    requires h in r.conns && g in r.conns
    ensures Undisturbed(r, Forgotten(r), h, g)
  {}

  /** Nothing but a record of theirs moves the ledgers of a match while it lasts. */
  lemma OthersAreNotHeard(r: Relay, e: Event, rules: Settings, h: Id, g: Id)
    requires Married(r) && Wed(r, h, g) && Possible(r, e) && Conforms(r, e) && !FromMatch(e, h, g)
    ensures Known(r) && Undisturbed(r, Pairing.Step(r, e, rules), h, g)
  {
    hide Married, Handle, Drop, Accept, Flush, Forgotten, Known, Undisturbed;
    MarriedIsKnown(r);
    match e
    case Arrive(c, addr, born) => ArriveDisturbsNobody(r, c, addr, born, h, g);
    case Speak(c, p, luck) => SpeakDisturbsNobody(r, c, p, luck, rules, h, g);
    case Hangup(c) => DropDisturbsNobody(r, c, h, g);
    case Take(c, k) => FlushDisturbsNobody(r, c, k, h, g);
    case Forget => ForgetDisturbsNobody(r, h, g);
  }

  // ---- whole matches ----

  /** The court that opens when two connections are paired: their clocks as they are, no checksums. */
  function CourtOf(r: Relay, h: Id, g: Id): Court
    requires h in r.conns && g in r.conns
  {
    Court(r.conns[h].ledger, r.conns[g].ledger, 0, 0)
  }

  /** Every pairing opens one: of the clocks the two connections had, and of nothing else. */
  lemma PairingOpens(r: Relay, c: Id, seed: nat, rules: Settings)
    requires Known(r) && c in r.live && Oldest(r, r.live, c).Some?
    ensures var (s, host) := (TryPair(r, c, seed, rules), Oldest(r, r.live, c).value);
            && Wed(s, host, c) && Unheard(CourtOf(s, host, c)) && Sitting(s, host, c, CourtOf(s, host, c))
            && CourtOf(s, host, c) == Cleared(CourtOf(r, host, c))
  {
    hide Oldest, StartFrame, Known;
  }

  /**
   * A match from its pairing on: what conforming clients do, with the records of its two consoles, as they were
   * meant, in the order the relay hears them.
   */
  ghost predicate Match(events: seq<Event>, rules: Settings, first: Relay, h: Id, g: Id, samples: seq<Sample>, r: Relay) {
    if events == [] then r == first && samples == []
    else
      var e := events[|events| - 1];
      exists before: Relay ::
        && (FromMatch(e, h, g) ==> samples != [])
        && Match(events[..|events| - 1], rules, first, h, g, Earlier(e, h, g, samples), before)
        && Known(before) && Possible(before, e) && Conforms(before, e)
        && r == Pairing.Step(before, e, rules) && h in r.live && g in r.live
        && (FromMatch(e, h, g) ==> Means(e, h, g, samples[|samples| - 1]))
  }

  /** The records heard before this event. */
  function Earlier(e: Event, h: Id, g: Id, samples: seq<Sample>): seq<Sample>
    requires FromMatch(e, h, g) ==> samples != []
  {
    if FromMatch(e, h, g) then samples[..|samples| - 1] else samples
  }

  /** All through a match the relay's two ledgers are the court's, for the records in the order heard. */
  lemma {:induction false} MatchIsTrial(events: seq<Event>, rules: Settings, first: Relay, h: Id, g: Id,
                                        samples: seq<Sample>, r: Relay)
    requires Married(first) && Wed(first, h, g) && Match(events, rules, first, h, g, samples, r)
    ensures Married(r) && Sitting(r, h, g, TrialFrom(CourtOf(first, h, g), samples))
  {
    hide Married, Known, Possible, Conforms, Pairing.Step, Sitting, Hear, Means;
    var start := CourtOf(first, h, g);
    if events == [] {
      MatchBegins(first, h, g);
    } else {
      var e := events[|events| - 1];
      var before: Relay :|
        && (FromMatch(e, h, g) ==> samples != [])
        && Match(events[..|events| - 1], rules, first, h, g, Earlier(e, h, g, samples), before)
        && Known(before) && Possible(before, e) && Conforms(before, e)
        && r == Pairing.Step(before, e, rules) && h in r.live && g in r.live
        && (FromMatch(e, h, g) ==> Means(e, h, g, samples[|samples| - 1]));
      var heard := Earlier(e, h, g, samples);
      MatchIsTrial(events[..|events| - 1], rules, first, h, g, heard, before);
      StepKeepsMarried(before, e, rules);
      WedPartners(before, h, g, TrialFrom(start, heard));
      hide Wed;
      if FromMatch(e, h, g) {
        RecordIsHeard(before, e, rules, h, g, TrialFrom(start, heard), samples[|samples| - 1]);
      } else {
        OthersAreNotHeard(before, e, rules, h, g);
        SitsOn(before, r, h, g, TrialFrom(start, heard));
      }
    }
  }

  lemma MatchBegins(r: Relay, h: Id, g: Id)
    requires Wed(r, h, g)
    ensures Sitting(r, h, g, CourtOf(r, h, g))
  {}

  /**
   * The relay's own verdict. When a record of a match is heard, `crc_bad` rises only if the two consoles really
   * sent different checksums for one and the same tick, provided that both clocks count from the same lap: as
   * they do in the first match of two connections.
   */
  lemma {:induction false} CounterIsSound(events: seq<Event>, rules: Settings, first: Relay, h: Id, g: Id,
                                          samples: seq<Sample>, r: Relay, e: Event, s: Sample, base: nat)
    requires Married(first) && Wed(first, h, g) && Unheard(CourtOf(first, h, g))
    requires Match(events, rules, first, h, g, samples, r) && Known(r) && Possible(r, e) && Means(e, h, g, s)
    requires Orderly(samples + [s])
    requires Based(CourtOf(first, h, g), samples + [s], Host, base) && Based(CourtOf(first, h, g), samples + [s], Guest, base)
    ensures var q := Pairing.Step(r, e, rules);
            && q.stats.crcBad == r.stats.crcBad + (Trial(samples + [s]).bad - Trial(samples).bad)
            && q.stats.crcOk == r.stats.crcOk + (Trial(samples + [s]).ok - Trial(samples).ok)
            && (q.stats.crcBad > r.stats.crcBad ==> Disagree(samples + [s]))
  {
    var start := CourtOf(first, h, g);
    hide Married, Known, Possible, Pairing.Step, Sitting, Hear, Means, Match, Trial, Orderly, Based, Disagree, Unheard, Wed;
    MatchIsTrial(events, rules, first, h, g, samples, r);
    RecordIsHeard(r, e, rules, h, g, TrialFrom(start, samples), s);
    var all := samples + [s];
    assert all[..|all| - 1] == samples && all[|all| - 1] == s;
    BasedFront(start, all, Host, base);
    BasedFront(start, all, Guest, base);
    OrderlyBefore(samples, s);
    SameBaseSameVerdict(start, samples, base);
    SameBaseSameVerdict(start, all, base);
    if Trial(all).bad > 0 {
      VerdictIsSound(all);
    }
  }

  /** And if the clocks count from different laps, as they may in a rematch, neither counter moves for this match. */
  lemma {:induction false} CounterIsDeaf(events: seq<Event>, rules: Settings, first: Relay, h: Id, g: Id,
                                         samples: seq<Sample>, r: Relay, e: Event, s: Sample, host: nat, guest: nat)
    requires Married(first) && Wed(first, h, g) && Unheard(CourtOf(first, h, g))
    requires Match(events, rules, first, h, g, samples, r) && Known(r) && Possible(r, e) && Means(e, h, g, s)
    requires Orderly(samples + [s]) && Abreast(samples + [s]) && host != guest
    requires Based(CourtOf(first, h, g), samples + [s], Host, host)
    requires Based(CourtOf(first, h, g), samples + [s], Guest, guest)
    ensures var q := Pairing.Step(r, e, rules); q.stats.crcBad == r.stats.crcBad && q.stats.crcOk == r.stats.crcOk
  {
    var start := CourtOf(first, h, g);
    hide Married, Known, Possible, Pairing.Step, Sitting, Hear, Means, Match, Trial, Orderly, Based, Unheard, Wed;
    MatchIsTrial(events, rules, first, h, g, samples, r);
    RecordIsHeard(r, e, rules, h, g, TrialFrom(start, samples), s);
    var all := samples + [s];
    assert all[..|all| - 1] == samples && all[|all| - 1] == s;
    BasedFront(start, all, Host, host);
    BasedFront(start, all, Guest, guest);
    OrderlyBefore(samples, s);
    AbreastBefore(samples, s);
    hide Abreast, TrialFrom;
    OtherBaseNoVerdict(start, samples, host, guest);
    OtherBaseNoVerdict(start, all, host, guest);
  }

  /** Clocks that have never run count from the same lap, the first. */
  lemma FreshClocksAgree(start: Court, samples: seq<Sample>, side: Side)
    requires start.Of(side).lap == 0 && start.Of(side).last == None
    ensures Based(start, samples, side, 0)
  {}

  /** So in the first match of two connections a counted mismatch is a real disagreement, whatever was evicted. */
  lemma FirstMatchIsJudged(events: seq<Event>, rules: Settings, first: Relay, h: Id, g: Id,
                           samples: seq<Sample>, r: Relay, e: Event, s: Sample)
    requires Married(first) && Wed(first, h, g) && first.conns[h].ledger == FRESH == first.conns[g].ledger
    requires Match(events, rules, first, h, g, samples, r) && Known(r) && Possible(r, e) && Means(e, h, g, s)
    requires Orderly(samples + [s])
    ensures var q := Pairing.Step(r, e, rules); q.stats.crcBad > r.stats.crcBad ==> Disagree(samples + [s])
  {
    var start := CourtOf(first, h, g);
    hide Married, Known, Possible, Pairing.Step, Means, Match, Trial, Orderly, Disagree, Wed, Based;
    FreshClocksAgree(start, samples + [s], Host);
    FreshClocksAgree(start, samples + [s], Guest);
    CounterIsSound(events, rules, first, h, g, samples, r, e, s, 0);
  }
}
