/** The seventeenth checksum: how two consoles in step fill a table, and where the port's log then parts from the relay's. */
module Overflow {
  import opened Bytes
  import opened Ordered
  import opened Framing
  import opened Lockstep
  import opened Verdict
  import opened Relay
  import opened Pairing
  import opened Passage
  import opened Bytewise
  import opened Conduct
  import opened Hearing
  import opened SlotTable
  import opened SlotSteps
  import opened SlotRuns
  import Wire

  // ---- one happening more ----

  lemma GoesOn(hs: seq<Happening>, rules: Settings, fitting: bool, t: Tables, r: Relay, h: Happening)
    requires Together(hs, rules, fitting, t, r) && Fair(t, h) && (fitting ==> Fitting(t, h, rules))
    requires Known(r) && Can(r, DoingOf(t, h)) && Decent(r, DoingOf(t, h), rules)
    requires Contained(Does(r, DoingOf(t, h), rules))
    ensures Together(hs + [h], rules, fitting, Happened(t, h, rules), Does(r, DoingOf(t, h), rules))
  {
    FollowedIs(r, DoingOf(t, h), rules);
    assert Onward(t, r, h, rules, fitting, Happened(t, h, rules), Followed(r, DoingOf(t, h), rules));
    hide Onward, Fair, Fitting, Happened, Followed, DoingOf, Can, Decent, Does, Blank, Contained;
    assert AfterOne(hs, h, rules, fitting, Happened(t, h, rules), Followed(r, DoingOf(t, h), rules));
    assert (hs + [h])[..|hs + [h]| - 1] == hs;
  }

  lemma FollowedIs(r: Relay, d: Doing, rules: Settings)
    requires Known(r) && Can(r, d)
    ensures Followed(r, d, rules) == Does(r, d, rules)
  {
    hide Does, Known, Can;
  }

  /** A single event, as a doing. */
  lemma OneIs(r: Relay, e: Event, rules: Settings)
    requires Known(r) && Possible(r, e) && Conforms(r, e)
    ensures Can(r, One(e)) && Decent(r, One(e), rules) && Does(r, One(e), rules) == Pairing.Step(r, e, rules)
  {
    hide Pairing.Step, Known, Possible, Conforms;
  }

  lemma {:induction false} FittingOrNot(hs: seq<Happening>, rules: Settings, t: Tables, r: Relay)
    requires Together(hs, rules, true, t, r)
    ensures Together(hs, rules, false, t, r)
  {
    hide Fair, Fitting, Happened, Followed, DoingOf, Can, Decent, Blank, Contained;
    if hs != [] {
      var before: Tables, was: Relay :|
        Together(hs[..|hs| - 1], rules, true, before, was) && Onward(before, was, hs[|hs| - 1], rules, true, t, r);
      assert Onward(before, was, hs[|hs| - 1], rules, false, t, r);
      FittingOrNot(hs[..|hs| - 1], rules, before, was);
    }
  }

  // ---- slots by their connections ----

  lemma SlotFor(t: Tables, id: Id) returns (i: nat)
    requires Sound(t) && id in View(t).conns
    ensures Used(t, i) && TagAt(t, i) == id == Who(t, i)
    ensures LedgerOf(t.slots[i]) == View(t).conns[id].ledger && t.slots[i].txLen == |View(t).conns[id].tx|
  {
    i := SlotOf(t.slots, id);
    SlotsFit(t, i);
    hide Conns, Listed, Tag;
  }

  /** Nobody has more than this waiting. */
  ghost predicate Light(r: Relay, m: nat) {
    forall c | c in r.conns :: |r.conns[c].tx| <= m
  }

  lemma LightIsContained(r: Relay, m: nat)
    requires Light(r, m) && m <= TX_CAPACITY
    ensures Contained(r)
  {}

  // ---- a record of a match under way ----

  /** A match in a fair run in which every checksum has fitted so far. */
  ghost predicate Underway(hs: seq<Happening>, rules: Settings, t: Tables, r: Relay, h: Id, g: Id, c: Court, m: nat) {
    Together(hs, rules, true, t, r) && Sitting(r, h, g, c) && Light(r, m)
  }

  /** A console's record as the relay gets it. */
  function RecordFrame(s: Sample): Packet {
    PacketOf(Wire.Encode(Wire.Record(Low(s.y), Wire.IDLE, Wire.IDLE, Wire.IDLE, s.crc)))
  }

  function SpeakerOf(s: Sample, h: Id, g: Id): Id {
    if s.side == Host then h else g
  }

  const PLAIN := Luck(0, [])

  lemma RecordMeans(s: Sample, h: Id, g: Id)
    requires h != g
    ensures var p := RecordFrame(s);
            && |p.payload| == GAME_PAYLOAD && p.kind == INPUT && p.payload[0] == Low(s.y)
            && Means(Speak(SpeakerOf(s, h, g), p, PLAIN), h, g, s)
  {
    RecordIsPacket(Wire.Record(Low(s.y), Wire.IDLE, Wire.IDLE, Wire.IDLE, s.crc));
    hide Wire.Encode, PacketOf, Low;
  }

  /** The record can be heard: there is room for it and its sender is live. */
  lemma RecordIsFair(t: Tables, r: Relay, h: Id, g: Id, c: Court, s: Sample) returns (i: nat)
    requires Sound(t) && View(t) == r && Married(r) && Sitting(r, h, g, c)
    ensures Used(t, i) && TagAt(t, i) == SpeakerOf(s, h, g) && LedgerOf(t.slots[i]) == c.Of(s.side)
    ensures var e := Speak(SpeakerOf(s, h, g), RecordFrame(s), PLAIN);
            && Fair(t, Frame(i, RecordFrame(s), PLAIN)) && DoingOf(t, Frame(i, RecordFrame(s), PLAIN)) == One(e)
            && Known(r) && Possible(r, e) && Conforms(r, e)
  {
    hide View, Sound, Married, Known, RecordFrame, Tag;
    i := SlotFor(t, SpeakerOf(s, h, g));
    RecordMeans(s, h, g);
    MarriedIsKnown(r);
  }

  /** What the record leaves of the relay: sixteen bytes more for the partner, and the court's hearing. */
  lemma RecordLeaves(r: Relay, h: Id, g: Id, c: Court, m: nat, s: Sample, rules: Settings)
    requires Known(r) && Sitting(r, h, g, c) && Light(r, m)
    requires Possible(r, Speak(SpeakerOf(s, h, g), RecordFrame(s), PLAIN))
    ensures var q := Pairing.Step(r, Speak(SpeakerOf(s, h, g), RecordFrame(s), PLAIN), rules);
            Sitting(q, h, g, Hear(c, s)) && Light(q, m + 16)
  {
    var me := SpeakerOf(s, h, g);
    hide Known, Hear, Handle, Possible, Means, Forward, Sitting, SameNames, Digits;
    WedPartners(r, h, g, c);
    RecordMeans(s, h, g);
    RecordIsHeard(r, Speak(me, RecordFrame(s), PLAIN), rules, h, g, c, s);
    NoDigits();
    RecordPasses(r, me, Wire.Record(Low(s.y), Wire.IDLE, Wire.IDLE, Wire.IDLE, s.crc), PLAIN, rules);
    hide Ruled, Wire.Encode;
  }

  lemma NoDigits()
    ensures Digits(PLAIN.digits)
  {}

  /** One more record of a match under way, for which there is still a place. */
  lemma RecordFits(hs: seq<Happening>, rules: Settings, t: Tables, r: Relay, h: Id, g: Id, c: Court, m: nat, s: Sample)
      returns (hs': seq<Happening>, t': Tables, r': Relay)
    requires Underway(hs, rules, t, r, h, g, c, m) && m + 16 <= TX_CAPACITY
    requires |c.Of(s.side).crc| < CRC_SLOTS
    ensures Underway(hs', rules, t', r', h, g, Hear(c, s), m + 16)
  {
    hide Blank, Sound, View, Happened, Followed, Fair, Tidy, Lawful, Alike, Possible, Conforms, DoingOf, Together, Does, Can, Decent;
    hide Sitting, Light, Known, Hear, RecordFrame, Used, Pairing.Step, Contained, Married, Registered;
    SlotsSimulate(hs, rules, true, t, r);
    LawfulParts(r);
    var i := RecordIsFair(t, r, h, g, c, s);
    var e := Frame(i, RecordFrame(s), PLAIN);
    RecordLeaves(r, h, g, c, m, s, rules);
    RoomForSum(t, i, RecordFrame(s), rules);
    OneIs(r, DoingOf(t, e).event, rules);
    LightIsContained(Does(r, DoingOf(t, e), rules), m + 16);
    GoesOn(hs, rules, true, t, r, e);
    hs', t', r' := hs + [e], Happened(t, e, rules), Does(r, DoingOf(t, e), rules);
  }

  lemma RoomForSum(t: Tables, i: nat, p: Packet, rules: Settings)
    requires Used(t, i) && |t.slots[i].crc| < CRC_SLOTS
    ensures Fitting(t, Frame(i, p, PLAIN), rules)
  {}

  // ---- sixteen ticks in step ----

  /** The court after n ticks in step, as the court's own theory has it. */
  lemma InStepCourt(n: nat)
    ensures var (c, h, g) := (Trial(InStep(n)), Sample(Host, n, 0), Sample(Guest, n, 0));
            && Trial(InStep(n + 1)) == Hear(Hear(c, h), g)
            && |c.host.crc| == 0 && c.guest.crc == FirstSums(n) && |Hear(c, h).guest.crc| == n
            && Hear(c, h).guest.crc == c.guest.crc
            && KeyOf(Clocked(Hear(c, h).guest, Low(n))) == n
  {
    hide Trial, Hear, Orderly, FirstSums, Clocked, Stands, Low, LatestOf;
    PairedNeverEvicts(n);
    InStepIsOrderly(n + 1);
    var (a, h, g) := (InStep(n), Sample(Host, n, 0), Sample(Guest, n, 0));
    OneMore(a + [h], g);
    OneMore(a, h);
    HostWaits(Trial(a), n);
    StandsAt(Clocked(Hear(Trial(a), h).guest, Low(n)), n);
  }

  lemma StandsAt(l: Ledger, y: nat)
    requires Stands(l, Some(y))
    ensures l.last.Some? && KeyOf(l) == y
  {}

  /** A fair run takes a match from its start through n ticks in step, as long as the guest's table has places. */
  lemma {:induction false} TicksInStep(hs: seq<Happening>, rules: Settings, t: Tables, r: Relay, h: Id, g: Id, n: nat)
      returns (hs': seq<Happening>, t': Tables, r': Relay)
    requires Underway(hs, rules, t, r, h, g, Trial([]), 100) && n <= CRC_SLOTS
    ensures Underway(hs', rules, t', r', h, g, Trial(InStep(n)), 100 + 32 * n)
  {
    hide Underway, Trial, Hear, Clocked, FirstSums;
    if n == 0 {
      hs', t', r' := hs, t, r;
    } else {
      hs', t', r' := TicksInStep(hs, rules, t, r, h, g, n - 1);
      InStepCourt(n - 1);
      var (c, mine, theirs) := (Trial(InStep(n - 1)), Sample(Host, n - 1, 0), Sample(Guest, n - 1, 0));
      hide InStep, Low;
      hs', t', r' := RecordFits(hs', rules, t', r', h, g, c, 100 + 32 * (n - 1), mine);
      hs', t', r' := RecordFits(hs', rules, t', r', h, g, Hear(c, mine), 100 + 32 * (n - 1) + 16, theirs);
    }
  }

  /** Of two consoles in step, the one that is always second has a full table after sixteen ticks. */
  lemma SixteenTicksFill(hs: seq<Happening>, rules: Settings, t: Tables, r: Relay, h: Id, g: Id, m: nat) returns (i: nat)
    requires Underway(hs, rules, t, r, h, g, Trial(InStep(16)), m)
    ensures Used(t, i) && TagAt(t, i) == g && |t.slots[i].crc| == CRC_SLOTS && t.slots[i].crc == FirstSums(16)
  {
    hide Blank, Sound, View, Together, Lawful, Alike, Trial, Light, InStep, Tag, FirstSums;
    SlotsSimulate(hs, rules, true, t, r);
    PairedNeverEvicts(16);
    i := SlotFor(t, g);
  }

  /** The record that finds the table full: the port's tables stand for another relay from here on. */
  lemma Seventeenth(t: Tables, r: Relay, h: Id, g: Id, c: Court, m: nat, s: Sample, i: nat, rules: Settings)
    requires Sound(t) && Tidy(t) && View(t) == r && Known(r) && Sitting(r, h, g, c)
    requires Used(t, i) && TagAt(t, i) == SpeakerOf(s, h, g) && LedgerOf(t.slots[i]) == c.Of(s.side)
    requires Fair(t, Frame(i, RecordFrame(s), PLAIN)) && Possible(r, Speak(SpeakerOf(s, h, g), RecordFrame(s), PLAIN))
    requires Held(Pairing.Step(r, Speak(SpeakerOf(s, h, g), RecordFrame(s), PLAIN), rules))
    requires |c.Of(s.side).crc| == CRC_SLOTS && Distinct(c.Of(s.side).crc)
    requires !Has(c.Of(s.side).crc, KeyOf(Clocked(c.Of(s.side), Low(s.y))))
    ensures var t' := Happened(t, Frame(i, RecordFrame(s), PLAIN), rules);
            Sound(t') && View(t') != Pairing.Step(r, Speak(SpeakerOf(s, h, g), RecordFrame(s), PLAIN), rules)
  {
    hide View, Sound, Tidy, Known, Handle, Stepped, Held, Alike, RecordFrame, Clocked, KeyOf, IndexOf, Low, Distinct, Tag;
    assert !FrameFits(t, i, RecordFrame(s)) by {
      SittingApart(r, h, g, c);
      RecordMeans(s, h, g);
    }
    hide FrameFits, Sitting;
    HandleIsHandle(t, i, RecordFrame(s), PLAIN, rules);
  }

  lemma SittingApart(r: Relay, h: Id, g: Id, c: Court)
    requires Sitting(r, h, g, c)
    ensures h != g
  {}

  lemma FirstSumsAre(n: nat)
    ensures Distinct(FirstSums(n)) && !Has(FirstSums(n), n) && |FirstSums(n)| == n
  {
    hide IndexOf;
  }

  /** A seventeenth tick: the host's record still fits, the guest's does not. */
  lemma SeventeenthTick(hs: seq<Happening>, rules: Settings, t: Tables, r: Relay, h: Id, g: Id)
      returns (hs': seq<Happening>, t': Tables, r': Relay)
    requires Underway(hs, rules, t, r, h, g, Trial(InStep(16)), 612)
    ensures Together(hs', rules, false, t', r') && Sound(t') && View(t') != r'
  {
    hide Blank, Sound, View, Happened, Followed, Fair, Tidy, Lawful, Alike, Possible, Conforms, DoingOf, Together, Does, Can, Decent;
    hide Sitting, Light, Known, Hear, RecordFrame, Used, Pairing.Step, InStep, Trial, Clocked, KeyOf, FirstSums, Low;
    hide Distinct, IndexOf, Contained, Married, Registered;
    InStepCourt(16);
    FirstSumsAre(16);
    var (c, mine, theirs) := (Trial(InStep(16)), Sample(Host, 16, 0), Sample(Guest, 16, 0));
    hs', t', r' := RecordFits(hs, rules, t, r, h, g, c, 612, mine);
    SlotsSimulate(hs', rules, true, t', r');
    LawfulParts(r');
    var i := RecordIsFair(t', r', h, g, Hear(c, mine), theirs);
    var e := Frame(i, RecordFrame(theirs), PLAIN);
    RecordLeaves(r', h, g, Hear(c, mine), 628, theirs, rules);
    OneIs(r', DoingOf(t', e).event, rules);
    var q := Does(r', DoingOf(t', e), rules);
    LightIsContained(q, 644);
    HeldNow(r', DoingOf(t', e), rules);
    Seventeenth(t', r', h, g, Hear(c, mine), 628, theirs, i, rules);
    FittingOrNot(hs', rules, t', r');
    GoesOn(hs', rules, false, t', r', e);
    hs', t', r' := hs' + [e], Happened(t', e, rules), q;
  }

  lemma HeldNow(r: Relay, d: Doing, rules: Settings)
    requires Lawful(r) && Known(r) && Can(r, d) && Decent(r, d, rules) && Contained(Does(r, d, rules))
    ensures Held(Does(r, d, rules))
  {
    hide Lawful, Known, Can, Decent, Does, Contained;
    DoesKeepsLaw(r, d, rules);
    LawfulParts(Does(r, d, rules));
    NamesAreFew(Does(r, d, rules));
  }

  // ---- a match from nothing ----

  const BARE := Stats(0, 0, 0, 0, 0, 0)

  function Fresh(born: int): Conn {
    Conn(0, [], [], [], None, -1, born, FRESH)
  }

  function OneIn(h: Id): Relay {
    Relay(map[h := Fresh(0)], [h], [], BARE)
  }

  function TwoIn(h: Id, g: Id): Relay {
    Relay(map[h := Fresh(0), g := Fresh(1)], [h, g], [], BARE)
  }

  function OneNamed(h: Id, g: Id): Relay {
    Relay(map[h := Fresh(0).(name := [65, 65]), g := Fresh(1)], [h, g], [Entry([65, 65], h)], BARE)
  }

  function HelloAs(letter: byte): Packet {
    Packet(HELLO, [PROTOCOL, 0, letter, letter])
  }

  lemma FirstArrives(h: Id)
    ensures Known(EMPTY) && Accept(EMPTY, h, 0, 0) == OneIn(h)
  {
    hide Known;
    EmptyIsKnown();
  }

  lemma EmptyIsKnown()
    ensures Known(EMPTY)
  {}

  lemma SecondArrives(h: Id, g: Id)
    requires g != h
    ensures Known(OneIn(h)) && Accept(OneIn(h), g, 0, 1) == TwoIn(h, g)
  {
    assert [h][..0] == [] && OneIn(h).live[0] == h;
    assert FromAddress(OneIn(h), [h], 0) == 1;
    assert Admitted(OneIn(h), g, 0, 1) == TwoIn(h, g) by {
      SameMap(OneIn(h).conns[g := Fresh(1)], TwoIn(h, g).conns);
    }
  }

  lemma AskedLetters(letter: byte)
    requires 65 <= letter <= 90
    ensures Asked(HelloAs(letter).payload) == Some([letter, letter]) && |HelloAs(letter).payload| == 4
  {
    var name := HelloAs(letter).payload[2..];
    assert name == [letter, letter] && Stripped(name) == name;
    assert Uppercase(name) == name && NameOk(name);
    assert HelloAs(letter).payload[0] == PROTOCOL && HelloAs(letter).payload[1] == 0;
  }

  lemma FirstHello(h: Id, g: Id, rules: Settings)
    requires h != g
    ensures Known(TwoIn(h, g)) && Digits(PLAIN.digits)
    ensures Handle(TwoIn(h, g), h, HelloAs(65), PLAIN, rules) == OneNamed(h, g)
  {
    AskedLetters(65);
    hide Asked, Stripped, Uppercase;
    var r := Greet(TwoIn(h, g), h, [65, 65]);
    assert r == OneNamed(h, g);
    assert [h, g][..1] == [h] && [h][..0] == [];
    assert Oldest(r, [h], h) == None && Oldest(r, [h, g], h) == None;
  }

  /** Two consoles under their names, and nobody else. */
  ghost predicate Couple(r: Relay, h: Id, g: Id) {
    && r.live == [h, g] && r.names == [Entry([65, 65], h), Entry([66, 66], g)]
    && r.conns.Keys == {h, g} && r.conns[h].name == [65, 65] && r.conns[g].name == [66, 66]
  }

  lemma SecondHello(h: Id, g: Id, rules: Settings)
    requires h != g
    ensures Known(OneNamed(h, g)) && Digits(PLAIN.digits)
    ensures var r := Handle(OneNamed(h, g), g, HelloAs(66), PLAIN, rules);
            && Sitting(r, h, g, Trial([])) && Light(r, 100) && r.stats.crcBad == 0
            && Couple(r, h, g)
  {
    hide Asked, Stripped, Uppercase, StartFrame, IndexOf, Couple, Oldest, Light;
    AskedLetters(66);
    NewNameIsFree(h);
    GreetedCouple(h, g);
    CouplePairs(Greet(OneNamed(h, g), g, [66, 66]), h, g, rules);
    assert Known(OneNamed(h, g));
  }

  lemma NewNameIsFree(h: Id)
    ensures !Has([Entry([65, 65], h)], [66, 66])
  {}

  lemma GreetedCouple(h: Id, g: Id)
    requires h != g
    ensures var r := Greet(OneNamed(h, g), g, [66, 66]);
            && Known(r) && Couple(r, h, g) && Light(r, 0) && r.stats == BARE && h in r.conns && g in r.conns
            && r.conns[h] == Fresh(0).(name := [65, 65]) && r.conns[g] == Fresh(1).(name := [66, 66])
  {
    NewNameIsFree(h);
    hide IndexOf;
  }

  lemma CouplePairs(r: Relay, h: Id, g: Id, rules: Settings)
    requires Known(r) && Couple(r, h, g) && h != g && Light(r, 0) && r.stats == BARE && h in r.conns && g in r.conns
    requires r.conns[h] == Fresh(0).(name := [65, 65]) && r.conns[g] == Fresh(1).(name := [66, 66])
    ensures var s := TryPair(r, g, 0, rules); Sitting(s, h, g, Trial([])) && Light(s, 100) && s.stats.crcBad == 0 && Couple(s, h, g)
  {
    assert [h, g][..1] == [h] && [h][..0] == [];
    assert Oldest(r, [h], g) == Some(h) && Oldest(r, [h, g], g) == Some(h);
    hide Oldest, Known, StartFrame;
    StartIsShort(0, 0, rules, [66, 66]);
    StartIsShort(1, 0, rules, [65, 65]);
  }

  /** An event that the relay takes for what it is. */
  lemma Takes(hs: seq<Happening>, rules: Settings, t: Tables, r: Relay, h: Happening, e: Event) returns (t': Tables, r': Relay)
    requires Together(hs, rules, true, t, r) && Fair(t, h) && Fitting(t, h, rules) && DoingOf(t, h) == One(e)
    requires Known(r) && Possible(r, e) && Conforms(r, e) && Contained(Pairing.Step(r, e, rules))
    ensures t' == Happened(t, h, rules) && r' == Pairing.Step(r, e, rules)
    ensures Together(hs + [h], rules, true, t', r') && Sound(t') && View(t') == r' && Known(r')
  {
    hide Fair, Fitting, Possible, Conforms, DoingOf, Known, Pairing.Step, Happened, Together, Sound, View, Lawful, Alike, Tidy;
    hide Can, Decent, Does, Contained;
    OneIs(r, e, rules);
    GoesOn(hs, rules, true, t, r, h);
    t', r' := Happened(t, h, rules), Pairing.Step(r, e, rules);
    SlotsSimulate(hs + [h], rules, true, t', r');
    ViewIsKnown(t');
  }

  /** The blank tables take their first connection into the first slot, and have another for the next. */
  lemma FirstSeat(t: Tables, rules: Settings)
    requires Blank(t)
    ensures Sound(t) && Fair(t, Admit(0, 0)) && |t.slots| == SLOTS
    ensures var s := Happened(t, Admit(0, 0), rules); Sound(s) ==> Fair(s, Admit(0, 1))
  {
    BlankIsEmpty(t);
    assert !t.slots[0].inUse && !t.slots[1].inUse;
    hide Linked, Listed;
    assert FreeSlot(t.slots, 0) == 0;
    var s := Happened(t, Admit(0, 0), rules);
    assert s == Arrived(t, 0, 0) == Seated(t, 0, 0, 0);
    assert s.slots[1] == t.slots[1] && |s.slots| == SLOTS;
    if Sound(s) {
      OrderInTable(s);
      assert FreeSlot(s.slots, 0) <= 1;
    }
  }

  /** The first of two comes in, to the first slot; the next is free. */
  lemma FirstIsIn(rules: Settings) returns (t: Tables, r: Relay, h: Id)
    ensures Together([Admit(0, 0)], rules, true, t, r) && Sound(t) && View(t) == r == OneIn(h) && Fair(t, Admit(0, 1))
  {
    var was := SomeBlank();
    BlankIsEmpty(was);
    FirstSeat(was, rules);
    assert Together([], rules, true, was, EMPTY);
    hide Blank, Sound, View, Fair, Tidy, Lawful, Known, Together, NewId, Accept, Happened, DoingOf, Fitting, Contained;
    h := NewId(was);
    FirstArrives(h);
    AdmitIs(was, 0, 0, rules);
    LightIsContained(OneIn(h), 0);
    t, r := Takes([], rules, was, EMPTY, Admit(0, 0), Arrive(h, 0, 0));
    assert [] + [Admit(0, 0)] == [Admit(0, 0)];
  }

  /** Four happenings, from the empty tables to two consoles in a match. */
  lemma MatchStarts(rules: Settings)
      returns (hs: seq<Happening>, t: Tables, r: Relay, h: Id, g: Id)
    ensures Underway(hs, rules, t, r, h, g, Trial([]), 100) && Couple(r, h, g)
  {
    hide Blank, Sound, View, Fair, Tidy, Lawful, Known, Together, Handle, NewId, Accept, Happened, DoingOf, Fitting, Contained;
    t, r, h := FirstIsIn(rules);
    SoundSize(t);
    NewIdIsNew(t);
    g := NewId(t);
    SecondArrives(h, g);
    AdmitIs(t, 0, 1, rules);
    LightIsContained(TwoIn(h, g), 0);
    t, r := Takes([Admit(0, 0)], rules, t, r, Admit(0, 1), Arrive(g, 0, 1));
    hs := [Admit(0, 0)] + [Admit(0, 1)];
    hs, t, r := NamesThem(hs, rules, t, r, h, g);
  }

  lemma AdmitIs(t: Tables, addr: nat, born: int, rules: Settings)
    requires |t.slots| == SLOTS
    ensures DoingOf(t, Admit(addr, born)) == One(Arrive(NewId(t), addr, born)) && Fitting(t, Admit(addr, born), rules)
  {}

  lemma SomeBlank() returns (t: Tables)
    ensures Blank(t)
  {
    var bare := Slot(false, false, 0, 0, [], -1, -1, 0, [], seq(TX_CAPACITY, _ => 0 as byte), 0, [], None, 0);
    t := Tables(seq(SLOTS, _ => bare), [], [], BARE);
  }

  /** Both say HELLO; the first has waited longest. */
  lemma NamesThem(hs: seq<Happening>, rules: Settings, t: Tables, r: Relay, h: Id, g: Id)
      returns (hs': seq<Happening>, t': Tables, r': Relay)
    requires Together(hs, rules, true, t, r) && Sound(t) && View(t) == r == TwoIn(h, g) && h != g
    ensures Underway(hs', rules, t', r', h, g, Trial([]), 100) && Couple(r', h, g)
  {
    hide Sound, View, Fair, Tidy, Lawful, Known, Together, Handle, Happened, TagAt, Contained, DoingOf, Fitting;
    FirstHello(h, g, rules);
    SecondHello(h, g, rules);
    var e := HelloIsFair(t, h, 65, rules);
    LightIsContained(OneNamed(h, g), 0);
    t', r' := Takes(hs, rules, t, r, e, Speak(h, HelloAs(65), PLAIN));
    var f := HelloIsFair(t', g, 66, rules);
    LightIsContained(Handle(OneNamed(h, g), g, HelloAs(66), PLAIN, rules), 100);
    t', r' := Takes(hs + [e], rules, t', r', f, Speak(g, HelloAs(66), PLAIN));
    hs' := hs + [e] + [f];
  }

  lemma HelloIsFair(t: Tables, c: Id, letter: byte, rules: Settings) returns (e: Happening)
    requires Sound(t) && c in View(t).conns
    ensures e.Frame? && e.packet == HelloAs(letter) && e.luck == PLAIN && TagAt(t, e.i) == c
    ensures Fair(t, e) && Fitting(t, e, rules) && DoingOf(t, e) == One(Speak(c, HelloAs(letter), PLAIN))
  {
    hide Sound, View;
    var i := SlotFor(t, c);
    e := Frame(i, HelloAs(letter), PLAIN);
  }

  /**
   * There is a run, of four frames to start a match and two for each of seventeen ticks, after which the port's
   * checksum tables are not the relay's: and only they differ.
   */
  lemma FullTableDiffers(rules: Settings) returns (hs: seq<Happening>, t: Tables, r: Relay)
    ensures Together(hs, rules, false, t, r) && Sound(t) && View(t) != r && Alike(View(t), r)
  {
    hide Underway, Together, View, Sound, Alike, Lawful, Tidy;
    var h, g;
    hs, t, r, h, g := MatchStarts(rules);
    hs, t, r := TicksInStep(hs, rules, t, r, h, g, 16);
    hs, t, r := SeventeenthTick(hs, rules, t, r, h, g);
    SlotsSimulate(hs, rules, false, t, r);
  }
}
