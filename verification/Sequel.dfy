/** A second match on a clock that has run: the relay's own run in which a disagreement is not counted. */
module Sequel {
  import opened Bytes
  import opened Ordered
  import opened Framing
  import opened Lockstep
  import opened Verdict
  import opened Rematch
  import opened Relay
  import opened Pairing
  import opened Hearing
  import opened Overflow

  lemma BehavedOn(events: seq<Event>, rules: Settings, r: Relay, e: Event)
    requires Behaved(events, rules, r) && Known(r) && Possible(r, e) && Conforms(r, e)
    ensures Behaved(events + [e], rules, Pairing.Step(r, e, rules))
    ensures Known(Pairing.Step(r, e, rules))
  {
    hide Known, Possible, Conforms, Pairing.Step, Married;
    assert (events + [e])[..|events + [e]| - 1] == events;
    MatchesAreMutual(events + [e], rules, Pairing.Step(r, e, rules));
    MarriedIsKnown(Pairing.Step(r, e, rules));
  }

  /** Two consoles, 0 and 1, in a match. */
  lemma TwoPlay(rules: Settings) returns (events: seq<Event>, r: Relay)
    ensures Behaved(events, rules, r) && Sitting(r, 0, 1, Trial([])) && Playing(r) && r.stats.crcBad == 0
  {
    hide Known, Accept, Handle, Sitting, Behaved, Trial, Light;
    Beginning(rules);
    EmptyIsKnown();
    FirstArrives(0);
    BehavedOn([], rules, EMPTY, Arrive(0, 0, 0));
    SecondArrives(0, 1);
    BehavedOn([Arrive(0, 0, 0)], rules, OneIn(0), Arrive(1, 0, 1));
    events := [Arrive(0, 0, 0)] + [Arrive(1, 0, 1)];
    FirstHello(0, 1, rules);
    BehavedOn(events, rules, TwoIn(0, 1), Speak(0, HelloAs(65), PLAIN));
    events := events + [Speak(0, HelloAs(65), PLAIN)];
    SecondHello(0, 1, rules);
    BehavedOn(events, rules, OneNamed(0, 1), Speak(1, HelloAs(66), PLAIN));
    events := events + [Speak(1, HelloAs(66), PLAIN)];
    r := Handle(OneNamed(0, 1), 1, HelloAs(66), PLAIN, rules);
  }

  lemma Beginning(rules: Settings)
    ensures [] + [Arrive(0, 0, 0)] == [Arrive(0, 0, 0)] && Behaved([], rules, EMPTY)
  {}

  const GOODBYE := Packet(BYE, [])

  /** The host has spoken of tick 131, and the guest has gone: the host waits, its clock where it was. */
  ghost predicate Left(r: Relay) {
    && Known(r) && r.live == [0] && 0 in r.conns && 2 !in r.conns && Waiting(r, 0) && !Has(r.names, [67, 67])
    && Stands(r.conns[0].ledger, Some(131)) && r.stats.crcBad == 0
  }

  lemma HostHeard(c: Court)
    requires c == Trial([])
    ensures var d := Hear(c, Sample(Host, 131, 0)); Stands(d.host, Some(131)) && d.bad == 0 == c.bad
  {
    NothingHeard();
    hide IndexOf;
    assert !Has(FRESH.crc, 131);
  }

  /** As two consoles in a match stand, with the guest still there. */
  ghost predicate Playing(r: Relay) {
    && Known(r) && r.live == [0, 1] && r.names == [Entry([65, 65], 0), Entry([66, 66], 1)]
    && r.conns.Keys == {0, 1} && r.conns[0].name == [65, 65] && r.conns[1].name == [66, 66]
  }

  lemma HostSpeaks(rules: Settings, events: seq<Event>, r: Relay) returns (events': seq<Event>, r': Relay, c: Court)
    requires Behaved(events, rules, r) && Sitting(r, 0, 1, Trial([])) && Playing(r) && r.stats.crcBad == 0
    ensures Behaved(events', rules, r') && Sitting(r', 0, 1, c) && Playing(r') && r'.stats.crcBad == 0
    ensures Stands(c.host, Some(131))
  {
    var s := Sample(Host, 131, 0);
    var e := Speak(0, RecordFrame(s), PLAIN);
    hide Known, Sitting, Behaved, Trial, Hear, Stands, RecordFrame, Handle, Means, SameNames, Playing, Low, IndexOf;
    PlayingHas(r);
    HostHeard(Trial([]));
    RecordMeans(s, 0, 1);
    NoDigits();
    MeansRecord(e, s);
    BehavedOn(events, rules, r, e);
    RecordIsHeard(r, e, rules, 0, 1, Trial([]), s);
    NamesStayAll(r, 0, RecordFrame(s), rules);
    PlayingStill(r, Pairing.Step(r, e, rules));
    events', r', c := events + [e], Pairing.Step(r, e, rules), Hear(Trial([]), s);
  }

  lemma PlayingHas(r: Relay)
    requires Playing(r)
    ensures Known(r) && 0 in r.live && 1 in r.live && 0 in r.conns && 1 in r.conns
  {
    hide Known;
    assert r.live[0] == 0 && r.live[1] == 1;
  }

  lemma PlayingStill(r: Relay, s: Relay)
    requires Playing(r) && SameNames(r, s) && Known(s)
    ensures Playing(s)
  {
    hide Known;
  }

  lemma PlaysOn(rules: Settings, events: seq<Event>, r: Relay) returns (events': seq<Event>, r': Relay)
    requires Behaved(events, rules, r) && Sitting(r, 0, 1, Trial([])) && Playing(r) && r.stats.crcBad == 0
    ensures Behaved(events', rules, r') && Left(r')
  {
    hide Known, Sitting, Behaved, Trial, Stands, Handle, Left, Playing, IndexOf;
    var c;
    events', r', c := HostSpeaks(rules, events, r);
    PlayingHas(r');
    NoDigits();
    var e := Speak(1, GOODBYE, PLAIN);
    BehavedOn(events', rules, r', e);
    GuestLeaves(r', c, rules);
    events', r' := events' + [e], Pairing.Step(r', e, rules);
  }

  lemma MeansRecord(e: Event, s: Sample)
    requires Means(e, 0, 1, s)
    ensures e.Speak? && e.packet.kind == INPUT
  {}

  lemma NamesStayAll(r: Relay, c: Id, p: Packet, rules: Settings)
    requires Known(r) && c in r.conns && |p.payload| == GAME_PAYLOAD && p.kind == INPUT && Digits(PLAIN.digits)
    ensures SameNames(r, Handle(r, c, p, PLAIN, rules))
  {
    ForwardKeeps(r, c, p);
    hide Known, Forward, SameNames;
  }

  lemma GuestLeaves(r: Relay, c: Court, rules: Settings)
    requires Playing(r) && Sitting(r, 0, 1, c) && Stands(c.host, Some(131)) && r.stats.crcBad == 0
    requires Digits(PLAIN.digits)
    ensures Known(r) && Left(Handle(r, 1, GOODBYE, PLAIN, rules))
  {
    DropKeepsKnown(r, 1);
    PopGet(r.names, [66, 66], [67, 67]);
    assert !Has(r.names, [67, 67]);
    assert [0 as Id, 1][..1] == [0];
    hide Known, Stands, PeerLeft, IndexOf;
  }

  /** A newcomer is paired with the console that waits. */
  lemma NewcomerJoins(rules: Settings, events: seq<Event>, r: Relay) returns (events': seq<Event>, r': Relay)
    requires Behaved(events, rules, r) && Left(r)
    ensures Behaved(events', rules, r') && Wed(r', 0, 2) && r'.stats.crcBad == 0
    ensures Stands(r'.conns[0].ledger, Some(131)) && r'.conns[0].ledger.crc == [] && r'.conns[2].ledger == FRESH
  {
    hide Behaved, Stands, IndexOf, Handle, Accept, Known;
    var a := Arrive(2, 0, 2);
    NewcomerArrives(r);
    BehavedOn(events, rules, r, a);
    var q := Admitted(r, 2, 0, 2);
    var b := Speak(2, HelloAs(67), PLAIN);
    AskedLetters(67);
    NoDigits();
    BehavedOn(events + [a], rules, q, b);
    NewcomerIsPaired(r, rules);
    events', r' := events + [a] + [b], Handle(q, 2, HelloAs(67), PLAIN, rules);
  }

  lemma NewcomerArrives(r: Relay)
    requires Left(r)
    ensures Known(r) && Accept(r, 2, 0, 2) == Admitted(r, 2, 0, 2)
  {
    assert r.live[..0] == [];
    assert FromAddress(r, r.live, 0) <= 1;
    hide Known;
  }

  lemma NewcomerIsPaired(r: Relay, rules: Settings)
    requires Left(r) && Known(Admitted(r, 2, 0, 2)) && Digits(PLAIN.digits)
    ensures var s := Handle(Admitted(r, 2, 0, 2), 2, HelloAs(67), PLAIN, rules);
            && Wed(s, 0, 2) && s.stats.crcBad == 0
            && Stands(s.conns[0].ledger, Some(131)) && s.conns[0].ledger.crc == [] && s.conns[2].ledger == FRESH
  {
    var q := Greet(Admitted(r, 2, 0, 2), 2, [67, 67]);
    NewcomerIsGreeted(r, rules);
    hide Left, Known, StartFrame, Oldest, Greet, Handle, Stands, Admitted;
    PairingOpens(q, 2, 0, rules);
  }

  lemma NewcomerIsGreeted(r: Relay, rules: Settings)
    requires Left(r) && Known(Admitted(r, 2, 0, 2)) && Digits(PLAIN.digits)
    ensures var q := Greet(Admitted(r, 2, 0, 2), 2, [67, 67]);
            && Known(q) && 2 in q.live && 0 in q.conns && 2 in q.conns && Oldest(q, q.live, 2) == Some(0)
            && Handle(Admitted(r, 2, 0, 2), 2, HelloAs(67), PLAIN, rules) == TryPair(q, 2, 0, rules)
            && q.stats == r.stats && q.conns[0].ledger == r.conns[0].ledger && q.conns[2].ledger == FRESH
            && Stands(q.conns[0].ledger, Some(131))
  {
    AskedLetters(67);
    hide Asked, IndexOf, Stands, TryPair;
    var q := Greet(Admitted(r, 2, 0, 2), 2, [67, 67]);
    assert Known(q);
    assert q.live == [0, 2] && q.live[1] == 2;
    hide Known;
    OldestOfTwo(q);
  }

  lemma OldestOfTwo(q: Relay)
    requires q.live == [0, 2] && 0 in q.conns && 2 in q.conns && Waiting(q, 0)
    ensures Oldest(q, q.live, 2) == Some(0)
  {
    assert [0 as Id, 2][..1] == [0] && [0 as Id][..0] == [];
    assert Oldest(q, [0], 2) == Some(0);
  }

  /** The clock that has run and the one that has not count from different laps. */
  lemma BasesDiffer(c: Court, samples: seq<Sample>)
    requires Stands(c.host, Some(131)) && c.host.crc == [] && c.guest == FRESH
    requires samples == [Sample(Host, 2, 0)] || samples == [Sample(Host, 2, 0), Sample(Guest, 2, 1)]
    ensures Based(c, samples, Host, 1) && Based(c, samples, Guest, 0) && Orderly(samples) && Abreast(samples)
  {
    hide BaseOf, Orderly, FirstOf, Stands, Low;
    var (a, b) := (Sample(Host, 2, 0), Sample(Guest, 2, 1));
    RunningClock(c.host);
    FreshBase();
    TwoSamples(a, b);
    FirstOneMore([], a);
    OrderlyBefore([a], b);
    assert [a] + [b] == [a, b] && [] + [a] == [a];
  }

  lemma RunningClock(l: Ledger)
    requires Stands(l, Some(131))
    ensures BaseOf(l, 2) == 1
  {}

  /**
   * There is a run of conforming clients, a dozen events long, in which the two consoles of a match send different
   * checksums for its first tick, and the relay does not count it.
   */
  lemma DisagreementNotCounted(rules: Settings) returns (events: seq<Event>, r: Relay, q: Relay, last: Relay)
    ensures var (a, b) := (Sample(Host, 2, 0), Sample(Guest, 2, 1));
            var (one, two) := (Speak(0, RecordFrame(a), PLAIN), Speak(2, RecordFrame(b), PLAIN));
            && Behaved(events, rules, r) && Wed(r, 0, 2) && Means(one, 0, 2, a) && Means(two, 0, 2, b)
            && Behaved(events + [one], rules, q) && Behaved(events + [one] + [two], rules, last)
            && last.stats.crcBad == 0
  {
    hide Behaved, Sitting, Left, Stands, Known, Trial;
    events, r := TwoPlay(rules);
    events, r := PlaysOn(rules, events, r);
    events, r := NewcomerJoins(rules, events, r);
    q, last := TwoMore(rules, events, r);
  }

  lemma TwoMore(rules: Settings, events: seq<Event>, r: Relay) returns (q: Relay, last: Relay)
    requires Behaved(events, rules, r) && Wed(r, 0, 2) && r.stats.crcBad == 0
    requires Stands(r.conns[0].ledger, Some(131)) && r.conns[0].ledger.crc == [] && r.conns[2].ledger == FRESH
    ensures var (a, b) := (Sample(Host, 2, 0), Sample(Guest, 2, 1));
            var (one, two) := (Speak(0, RecordFrame(a), PLAIN), Speak(2, RecordFrame(b), PLAIN));
            && Means(one, 0, 2, a) && Means(two, 0, 2, b)
            && Behaved(events + [one], rules, q) && Behaved(events + [one] + [two], rules, last)
            && last.stats.crcBad == 0
  {
    var (a, b) := (Sample(Host, 2, 0), Sample(Guest, 2, 1));
    var (one, two) := (Speak(0, RecordFrame(a), PLAIN), Speak(2, RecordFrame(b), PLAIN));
    var start := CourtOf(r, 0, 2);
    hide Behaved, Stands, Known, RecordFrame, Means, Match, Married, Pairing.Step, Sitting, TrialFrom, Hear, Based, Orderly, Abreast;
    MatchesAreMutual(events, rules, r);
    MarriedIsKnown(r);
    RecordMeans(a, 0, 2);
    RecordMeans(b, 0, 2);
    NoDigits();
    MatchBegins(r, 0, 2);
    NoMatchYet(rules, r);
    BasesDiffer(start, [a]);
    BasesDiffer(start, [a, b]);
    assert [] + [a] == [a] && [a] + [b] == [a, b];
    CounterIsDeaf([], rules, r, 0, 2, [], r, one, a, 1, 0);
    BehavedOn(events, rules, r, one);
    q := Pairing.Step(r, one, rules);
    RecordIsHeard(r, one, rules, 0, 2, start, a);
    WedPartners(q, 0, 2, Hear(start, a));
    FirstRecord(rules, r, one, a);
    CounterIsDeaf([one], rules, r, 0, 2, [a], q, two, b, 1, 0);
    BehavedOn(events + [one], rules, q, two);
    last := Pairing.Step(q, two, rules);
  }

  lemma NoMatchYet(rules: Settings, r: Relay)
    ensures Match([], rules, r, 0, 2, [], r)
  {}

  lemma FirstRecord(rules: Settings, r: Relay, e: Event, s: Sample)
    requires Known(r) && Possible(r, e) && Conforms(r, e) && Means(e, 0, 2, s)
    requires Wed(Pairing.Step(r, e, rules), 0, 2)
    ensures Match([e], rules, r, 0, 2, [s], Pairing.Step(r, e, rules))
  {
    hide Known, Possible, Conforms, Pairing.Step;
    NoMatchYet(rules, r);
    assert [e][..0] == [] && [s][..0] == [];
  }
}
