/** Where the port's own exceptional branches are taken: an arrival with every slot in use, a reap with a link left. */
module Corners {
  import opened Bytes
  import opened Ordered
  import opened Framing
  import opened Verdict
  import opened Relay
  import opened Pairing
  import opened Passage
  import opened Bytewise
  import opened Conduct
  import opened Hearing
  import opened SlotTable
  import opened SlotSteps
  import opened SlotRuns
  import opened Overflow

  // ---- the tables' limits ----

  /** A transmit buffer holds 262144 bytes; told more, it holds what it held and looks full. */
  lemma SendSaturates(t: Tables, i: nat, data: seq<byte>)
    requires Sound(t) && Used(t, i)
    ensures var (s, a, n) := (t.slots[i], SendTo(t, i, data).slots[i], t.slots[i].txLen + |data|);
            && |s.txbuf| == 262144 && a.txLen == (if n <= 262144 then n else 262144)
            && (n > 262144 ==> a == s.(txLen := 262144))
            && (n <= 262144 ==> a.txbuf[..n] == s.txbuf[..s.txLen] + data && a.txbuf[n..] == s.txbuf[n..])
  {
    SlotsFit(t, i);
    hide Sound;
  }

  /** A name table of 256 that is given another forgets the one it was given first. */
  lemma FullTableForgets(cs: seq<Claim>, c: Claim)
    requires |cs| == 256 && forall k | 0 <= k < |cs| :: cs[k].name != c.name
    ensures NameGiven(cs, c) == cs[1..] + [c]
  {
    hide ClaimOf;
  }

  /** One with room keeps them all. */
  lemma RoomKeepsAll(cs: seq<Claim>, c: Claim)
    requires |cs| < 256 && forall k | 0 <= k < |cs| :: cs[k].name != c.name
    ensures NameGiven(cs, c) == cs + [c]
  {
    hide ClaimOf;
  }

  /** A checksum table of sixteen that is given another forgets the one it was given last. */
  lemma FullSumsForget(d: seq<Entry<nat, byte>>, key: nat, val: byte)
    requires |d| == 16 && !Has(d, key)
    ensures SumsSet(d, key, val) == d[..15] + [Entry(key, val)]
  {
    hide IndexOf;
  }

  /** A chunk that would leave more than 4352 bytes buffered ends the connection unread. */
  lemma LongChunkDrops(t: Tables, i: nat, data: seq<byte>, luck: nat -> Luck, rules: Settings)
    requires Sound(t) && Used(t, i) && forall n: nat :: Digits(luck(n).digits)
    ensures |t.slots[i].rx| + |data| > 4352 ==> Chunked(t, i, data, luck, rules) == Dropped(t, i)
  {
    hide Sound, Served, Dropped, Buffered;
  }

  // ---- sixty-four arrivals, and one gone but not reaped ----

  /** Slots 0 to n - 1 taken in order, eight from each address, and nothing else. */
  predicate Filled(t: Tables, n: nat) {
    && |t.slots| == SLOTS && n <= SLOTS && t.order == seq(n, k => k)
    && (forall j | 0 <= j < n :: t.slots[j].inUse && !t.slots[j].dead && t.slots[j].addr == j / 8 && t.slots[j].partner < 0)
    && (forall j | n <= j < SLOTS :: !t.slots[j].inUse)
  }

  /** How many of the numbers below n an address has its share of. */
  function Share(n: nat, addr: nat): nat {
    if n <= 8 * addr then 0 else if n >= 8 * addr + 8 then 8 else n - 8 * addr
  }

  lemma {:induction false} SharesAreCounted(t: Tables, n: nat, k: nat, addr: nat)
    requires Filled(t, n) && k <= n
    ensures forall j | 0 <= j < |t.order| :: t.order[j] < |t.slots|
    ensures PerAddress(t, k, addr) == Share(k, addr)
  {
    if k > 0 {
      SharesAreCounted(t, n, k - 1, addr);
      assert t.order[k - 1] == k - 1 && t.slots[k - 1].addr == (k - 1) / 8;
    }
  }

  lemma FirstUnused(t: Tables, n: nat)
    requires Filled(t, n)
    ensures FreeSlot(t.slots, 0) == n
  {
    var i := FreeSlot(t.slots, 0);
    assert i < SLOTS ==> !t.slots[i].inUse;
    assert n < SLOTS ==> !t.slots[n].inUse;
  }

  lemma OneMoreIn(t: Tables, n: nat, rules: Settings)
    requires Sound(t) && Filled(t, n) && n < SLOTS
    ensures Fair(t, Admit(n / 8, n)) && Filled(Happened(t, Admit(n / 8, n), rules), n + 1)
  {
    hide Sound, FreeSlot, PerAddress;
    OrderInTable(t);
    SharesAreCounted(t, n, n, n / 8);
    FirstUnused(t, n);
    assert Happened(t, Admit(n / 8, n), rules) == Seated(t, n, n / 8, n);
    assert seq(n, k => k) + [n] == seq(n + 1, k => k);
  }

  lemma {:induction false} Fills(rules: Settings, n: nat) returns (hs: seq<Happening>, t: Tables, r: Relay)
    requires n <= SLOTS
    ensures Together(hs, rules, true, t, r) && Sound(t) && View(t) == r && Known(r) && Filled(t, n) && Light(r, 0)
  {
    hide Blank, Sound, View, Fair, Tidy, Lawful, Known, Together, NewId, Happened, Filled, Light, Contained, DoingOf, Fitting, Accept;
    if n == 0 {
      t := SomeBlank();
      BlankIsEmpty(t);
      ViewIsKnown(t);
      NobodyIn(t);
      hs, r := [], EMPTY;
      Nowhere(rules, t);
    } else {
      hs, t, r := Fills(rules, n - 1);
      OneMoreIn(t, n - 1, rules);
      SoundSize(t);
      NewIdIsNew(t);
      var h := Admit((n - 1) / 8, n - 1);
      AdmitIs(t, (n - 1) / 8, n - 1, rules);
      StillLight(r, NewId(t), (n - 1) / 8, n - 1);
      LightIsContained(Accept(r, NewId(t), (n - 1) / 8, n - 1), 0);
      var was := hs;
      t, r := Takes(hs, rules, t, r, h, Arrive(NewId(t), (n - 1) / 8, n - 1));
      hs := was + [h];
    }
  }

  lemma StillLight(r: Relay, c: Id, addr: nat, born: int)
    requires Known(r) && Light(r, 0)
    ensures Light(Accept(r, c, addr, born), 0)
  {
    hide FromAddress, Known;
  }

  lemma NobodyIn(t: Tables)
    requires Blank(t)
    ensures Filled(t, 0)
  {}

  lemma Nowhere(rules: Settings, t: Tables)
    requires Blank(t)
    ensures Together([], rules, true, t, EMPTY) && Light(EMPTY, 0)
  {}

  /** Losing the last of them frees its place in the order, but not yet its slot. */
  lemma LoseLast(t: Tables, rules: Settings)
    requires Sound(t) && Filled(t, SLOTS)
    ensures Fair(t, Lose(63))
    ensures var s := Happened(t, Lose(63), rules);
            && s.order == seq(63, k => k) && |s.slots| == SLOTS
            && (forall j | 0 <= j < SLOTS :: s.slots[j].inUse && s.slots[j].addr == j / 8)
  {
    hide Sound, Linked, NameTaken;
    assert t.order[63] == 63;
    PlaceOfLast(t.order);
  }

  lemma PlaceOfLast(os: seq<nat>)
    requires os == seq(64, k => k)
    ensures Delisted(os, 63) == seq(63, k => k)
  {
    var p := PlaceOf(os, 63, 0);
    assert forall k | 0 <= k < 64 :: os[k] == k;
    assert p <= 63 ==> os[p] == p;
    assert os[63] == 63;
    assert p == 63;
    assert RemoveAt(os, 63) == seq(63, k => k);
    hide PlaceOf;
  }

  /**
   * The last branch of an accept can be taken: after sixty-four arrivals and one loss, before a reap, the order
   * has room and no address its share, and yet the port refuses a connection the relay takes.
   */
  lemma RefusedWithRoom(rules: Settings, born: int) returns (hs: seq<Happening>, t: Tables, r: Relay)
    ensures Together(hs, rules, true, t, r) && Sound(t) && View(t) == r && |t.order| == 63
    ensures forall k | 0 <= k < |t.order| :: t.order[k] < |t.slots|
    ensures !TurnedAway(t, 8) && Arrived(t, 8, born) == t
    ensures Known(r) && |t.slots| == SLOTS && |Accept(r, NewId(t), 8, born).live| == 64
  {
    hide Blank, Sound, View, Fair, Tidy, Lawful, Known, Together, NewId, Happened, Filled, FreeSlot, PerAddress;
    hide Light, Contained, DoingOf, Fitting, Drop, Registered, Married;
    hs, t, r := Fills(rules, SLOTS);
    LoseLast(t, rules);
    SlotsSimulate(hs, rules, true, t, r);
    LoseLastIs(t, r, rules);
    LightIsContained(Drop(r, TagAt(t, 63)), 16);
    var was := hs;
    t, r := Takes(hs, rules, t, r, Lose(63), Hangup(TagAt(t, 63)));
    hs := was + [Lose(63)];
    NobodyFrom(t, 63);
    SlotsSimulate(hs, rules, true, t, r);
    AllInUse(t);
    WouldTake(t, born);
  }

  lemma LoseLastIs(t: Tables, r: Relay, rules: Settings)
    requires Sound(t) && View(t) == r && Known(r) && Filled(t, SLOTS) && Light(r, 0)
    ensures TagAt(t, 63) in r.conns && Fitting(t, Lose(63), rules) && DoingOf(t, Lose(63)) == One(Hangup(TagAt(t, 63)))
    ensures Light(Drop(r, TagAt(t, 63)), 16)
  {
    assert Used(t, 63);
    TxIs(t, 63);
    TagIsWho(t, 63);
    DropIsLight(r, TagAt(t, 63));
    hide View, Sound, Tag, Known, Drop, Light;
  }

  lemma DropIsLight(r: Relay, c: Id)
    requires Known(r) && c in r.conns && Light(r, 0)
    ensures Light(Drop(r, c), 16)
  {
    assert |PeerLeft()| == 16;
    hide PeerLeft, Without, IndexOf;
  }

  lemma {:induction false} NobodyFrom(t: Tables, k: nat)
    requires |t.slots| == SLOTS && t.order == seq(63, n => n) && k <= 63
    requires forall j | 0 <= j < SLOTS :: t.slots[j].addr == j / 8
    ensures (forall j | 0 <= j < |t.order| :: t.order[j] < |t.slots|) && PerAddress(t, k, 8) == 0
  {
    if k > 0 {
      NobodyFrom(t, k - 1);
      assert t.order[k - 1] == k - 1;
    }
  }

  lemma AllInUse(t: Tables)
    requires |t.slots| == SLOTS && forall j | 0 <= j < SLOTS :: t.slots[j].inUse
    ensures FreeSlot(t.slots, 0) == SLOTS
  {}

  lemma WouldTake(t: Tables, born: int)
    requires Sound(t) && Tidy(t) && |t.slots| == SLOTS && FreeSlot(t.slots, 0) == SLOTS && |t.order| == 63
    requires (forall k | 0 <= k < |t.order| :: t.order[k] < |t.slots|) && PerAddress(t, 63, 8) == 0
    ensures !TurnedAway(t, 8) && Arrived(t, 8, born) == t
    ensures Known(View(t)) && |Accept(View(t), NewId(t), 8, born).live| == 64
  {
    hide View, Sound, Known, FromAddress, PerAddress, Counts, FreeSlot, NewId;
    ViewIsKnown(t);
    WholeLive(t);
    AddressesAreCounted(t, 63, 8);
    WholeCount(View(t), 8, 0);
  }

  // ---- a link left to a dropped slot ----

  /**
   * A console that says JOIN while it plays is paired again, and the one it played keeps its link. When it then
   * says BYE, that link is left to a dropped slot, and after the reap it leads to whoever takes the slot next.
   */
  lemma JoinWhilePaired(t: Tables, a: nat, b: nat, seed: nat, rules: Settings)
    requires Sound(t) && Tidy(t) && Used(t, a) && Used(t, b) && !t.slots[a].dead && !t.slots[b].dead
    requires a != b && t.slots[a].partner == b && t.slots[b].partner == a
    requires Chosen(t, |t.order|, a) >= 0 && Room(t.slots[a], 15) && Room(t.slots[Chosen(t, |t.order|, a)], 31)
    ensures Sound(Paired(t, a, seed, rules)) && Used(Paired(t, a, seed, rules), a)
    ensures var s := Dropped(Paired(t, a, seed, rules), a);
            && Sound(s) && Tidy(s) && s.slots[b].inUse && !s.slots[b].dead && s.slots[b].partner == a && s.slots[a].dead
            && !Parted(s) && !Sound(Reaped(s))
  {
    var p := Paired(t, a, seed, rules);
    var c := Chosen(t, |t.order|, a);
    assert c != b;
    PairedStays(t, a, seed, rules);
    PairedTidy(t, a, seed, rules);
    RoomToLeave(t, a, c, seed, rules);
    hide Sound, Tidy, StartFrame, Chosen, Room, Appended;
    assert p.slots[a].partner == c && p.slots[b] == t.slots[b] && !p.slots[a].dead;
    DropIsDrop(p, a);
    LeftBehind(p, a, b, c);
    ReapIsSoundIff(Dropped(p, a));
  }

  lemma RoomToLeave(t: Tables, a: nat, c: nat, seed: nat, rules: Settings)
    requires Sound(t) && Used(t, a) && c == Chosen(t, |t.order|, a) && c < |t.slots| && Room(t.slots[c], 31)
    ensures var p := Paired(t, a, seed, rules); |p.slots| == |t.slots| && RoomAt(p, c, 16)
  {
    StartIsShort(0, seed, rules, t.slots[a].name);
    hide StartFrame, Listed, Chosen;
  }

  /** A drop marks the slot and cuts its partner's link; no other slot's. */
  lemma LeftBehind(t: Tables, a: nat, b: nat, c: nat)
    requires Sound(t) && Used(t, a) && Used(t, b) && !t.slots[a].dead && a != b && b != c && t.slots[a].partner == c
    requires Sound(Dropped(t, a)) && t.slots[b].partner == a && !t.slots[b].dead
    ensures var s := Dropped(t, a);
            |s.slots| == SLOTS && s.slots[b].inUse && !s.slots[b].dead && s.slots[b].partner == a && s.slots[a].dead
            && !Parted(s)
  {
    hide Listed, NameTaken, Delisted, PeerLeft, Appended;
  }

  // ---- a run that leaves such a link ----

  /** The used slots of the first n. */
  function InUse(ss: seq<Slot>, n: nat): set<Id>
    requires n <= |ss|
  {
    set i | 0 <= i < n && ss[i].inUse :: IdOf(ss, i)
  }

  lemma {:induction false} AllUsedAreMany(ss: seq<Slot>, n: nat)
    requires |ss| == SLOTS && n <= SLOTS && forall i | 0 <= i < n :: ss[i].inUse
    ensures |InUse(ss, n)| == n
  {
    hide Tag;
    if n == 0 {
      assert InUse(ss, 0) == {};
    } else {
      AllUsedAreMany(ss, n - 1);
      OneMoreUsed(ss, n - 1);
      hide InUse;
      assert |InUse(ss, n - 1) + {IdOf(ss, n - 1)}| == n;
    }
  }

  lemma OneMoreUsed(ss: seq<Slot>, n: nat)
    requires |ss| == SLOTS && n < SLOTS && ss[n].inUse
    ensures InUse(ss, n + 1) == InUse(ss, n) + {IdOf(ss, n)} && IdOf(ss, n) !in InUse(ss, n)
  {
    hide Tag;
    forall i | 0 <= i < n
      ensures IdOf(ss, i) != IdOf(ss, n)
    {
      OtherTag(ss, i, n);
    }
  }

  /** With few connections known there is a free slot. */
  lemma FewLeaveRoom(t: Tables)
    requires Sound(t) && |View(t).conns.Keys| < SLOTS
    ensures |t.slots| == SLOTS && FreeSlot(t.slots, 0) < SLOTS
  {
    SoundSize(t);
    if FreeSlot(t.slots, 0) == SLOTS {
      AllUsedAreMany(t.slots, SLOTS);
      forall id | id in InUse(t.slots, SLOTS)
        ensures id in View(t).conns
      {
        var i :| 0 <= i < SLOTS && t.slots[i].inUse && id == IdOf(t.slots, i);
        ConnAt(t.slots, i);
      }
      SmallerSet(InUse(t.slots, SLOTS), View(t).conns.Keys);
    }
    hide Linked, Listed, Tag, ConnOf;
  }

  lemma {:induction false} FromAddressAtMost(r: Relay, ids: seq<Id>, addr: nat)
    requires forall i | 0 <= i < |ids| :: ids[i] in r.conns
    ensures FromAddress(r, ids, addr) <= |ids|
  {
    if ids != [] {
      FromAddressAtMost(r, ids[..|ids| - 1], addr);
    }
  }

  /** A couple at play, and a third come in. */
  lemma ThirdArrives(r: Relay, h: Id, g: Id, k: Id, m: nat)
    requires Couple(r, h, g) && Known(r) && Wed(r, h, g) && k !in r.conns && Light(r, m)
    ensures Accept(r, k, 1, 2) == Admitted(r, k, 1, 2) && Light(Accept(r, k, 1, 2), m)
  {
    FromAddressAtMost(r, r.live, 1);
    hide FromAddress, Known;
  }

  /** A couple, and a third that waits. */
  ghost predicate Trio(r: Relay, h: Id, g: Id, k: Id) {
    && Known(r) && Wed(r, h, g) && k != h && k != g && k in r.live && k in r.conns && Waiting(r, k)
    && forall o | o in r.live && o != h && o != g :: o == k
  }

  lemma ThirdHello(r: Relay, h: Id, g: Id, k: Id, m: nat, rules: Settings)
    requires Couple(r, h, g) && Known(r) && Wed(r, h, g) && k !in r.conns && Light(r, m) && Known(Admitted(r, k, 1, 2))
    requires Digits(PLAIN.digits)
    ensures var q := Admitted(r, k, 1, 2);
            && k in q.conns && Conforms(q, Speak(k, HelloAs(67), PLAIN)) && Possible(q, Speak(k, HelloAs(67), PLAIN))
            && var s := Handle(q, k, HelloAs(67), PLAIN, rules); Trio(s, h, g, k) && Light(s, m)
  {
    hide Asked, Known, Told, Oldest, Trio, IndexOf;
    AskedLetters(67);
    var q := Admitted(r, k, 1, 2);
    assert q.live == [h, g, k] && q.live[2] == k;
    var e := Greet(q, k, [67, 67]);
    GreetTold(q, k, [67, 67]);
    NewName(h, g);
    NobodyElseWaits(e, h, g, k);
    TrioNow(e, h, g, k);
  }

  lemma NewName(h: Id, g: Id)
    ensures !Has([Entry([65, 65], h), Entry([66, 66], g)], [67, 67])
  {}

  lemma TrioNow(e: Relay, h: Id, g: Id, k: Id)
    requires Known(e) && Wed(e, h, g) && k != h && k != g && e.live == [h, g, k] && k in e.conns && Waiting(e, k)
    ensures Trio(e, h, g, k)
  {
    assert e.live[2] == k;
    hide Known;
  }

  lemma NobodyElseWaits(r: Relay, h: Id, g: Id, k: Id)
    requires Known(r) && r.live == [h, g, k] && h in r.conns && g in r.conns && k in r.conns && !Waiting(r, h) && !Waiting(r, g)
    ensures Oldest(r, r.live, k) == None
  {}

  /** A fair run of conforming clients to a couple at play and a third that waits. */
  lemma ThirdWaits(rules: Settings) returns (hs: seq<Happening>, t: Tables, r: Relay, h: Id, g: Id, k: Id)
    ensures Together(hs, rules, true, t, r) && Sound(t) && View(t) == r && Trio(r, h, g, k) && Light(r, 100)
  {
    hide Blank, Sound, View, Fair, Tidy, Lawful, Known, Together, Handle, NewId, Accept, Happened, DoingOf, Fitting, Contained;
    hide Trio, Light, Couple, Sitting, Wed, FreeSlot, Conforms, Possible, Trial;
    hs, t, r, h, g := MatchStarts(rules);
    SlotsSimulate(hs, rules, true, t, r);
    ViewIsKnown(t);
    WedPartners(r, h, g, Trial([]));
    TwoKnown(r, h, g);
    FewLeaveRoom(t);
    OrderInTable(t);
    NewIdIsNew(t);
    k := NewId(t);
    ThirdArrives(r, h, g, k, 100);
    AdmitIs(t, 1, 2, rules);
    AdmitFair(t, 1, 2);
    LightIsContained(Accept(r, k, 1, 2), 100);
    ArriveMay(r, k, 1, 2);
    var was, couple := hs, r;
    t, r := Takes(hs, rules, t, r, Admit(1, 2), Arrive(k, 1, 2));
    NoDigits();
    ThirdHello(couple, h, g, k, 100, rules);
    var e := HelloIsFair(t, k, 67, rules);
    LightIsContained(Handle(r, k, HelloAs(67), PLAIN, rules), 100);
    hs := was + [Admit(1, 2)];
    t, r := Takes(hs, rules, t, r, e, Speak(k, HelloAs(67), PLAIN));
    hs := hs + [e];
  }

  lemma TwoKnown(r: Relay, h: Id, g: Id)
    requires Couple(r, h, g)
    ensures |r.conns.Keys| <= 2
  {}

  lemma AdmitFair(t: Tables, addr: nat, born: int)
    requires |t.slots| == SLOTS && FreeSlot(t.slots, 0) < SLOTS && forall k | 0 <= k < |t.order| :: t.order[k] < |t.slots|
    ensures Fair(t, Admit(addr, born))
  {}

  lemma ArriveMay(r: Relay, k: Id, addr: nat, born: int)
    requires k !in r.conns
    ensures Possible(r, Arrive(k, addr, born)) && Conforms(r, Arrive(k, addr, born))
  {}

  lemma PartnerSlot(t: Tables, i: nat, j: nat)
    requires Sound(t) && Used(t, i) && Used(t, j) && Who(t, i) in View(t).conns
    requires View(t).conns[Who(t, i)].partner == Some(Who(t, j))
    ensures t.slots[i].partner == j
  {
    LedgersOf(t, i);
    var p := t.slots[i].partner;
    hide View, Tag, Linked, Listed;
    if p >= 0 && p != j {
      OtherTag(t.slots, p, j);
    }
  }

  /** Such a table is reached: a couple in slots a and b, and a third for a to be paired with if it says JOIN. */
  lemma LinkCanBeLeft(rules: Settings) returns (hs: seq<Happening>, t: Tables, r: Relay, a: nat, b: nat)
    ensures Together(hs, rules, true, t, r) && Sound(t) && Tidy(t) && View(t) == r
    ensures Used(t, a) && Used(t, b) && !t.slots[a].dead && !t.slots[b].dead
    ensures a != b && t.slots[a].partner == b && t.slots[b].partner == a
    ensures var o := Chosen(t, |t.order|, a); o >= 0 && Room(t.slots[a], 15) && Room(t.slots[o], 31)
  {
    hide Blank, View, Lawful, Known, Together, Light, Trio, Sound, Tidy, Chosen, Oldest, Tag;
    var h, g, k;
    hs, t, r, h, g, k := ThirdWaits(rules);
    SlotsSimulate(hs, rules, true, t, r);
    TrioParts(r, h, g, k);
    a := SlotFor(t, h);
    b := SlotFor(t, g);
    PartnerSlot(t, a, b);
    PartnerSlot(t, b, a);
    LiveIff(t, a);
    LiveIff(t, b);
    ChosenIsWhole(t, a);
    var o := Chosen(t, |t.order|, a);
    LightSlot(t, a, 100);
    if o >= 0 {
      LightSlot(t, o, 100);
    }
  }

  lemma TrioParts(r: Relay, h: Id, g: Id, k: Id)
    requires Trio(r, h, g, k)
    ensures Known(r) && Wed(r, h, g) && h in r.live && g in r.live && Oldest(r, r.live, h).Some?
  {
    var i :| 0 <= i < |r.live| && r.live[i] == k;
    OldestIsOldest(r, r.live, h, i);
    hide Oldest;
  }

  lemma LightSlot(t: Tables, i: nat, m: nat)
    requires Sound(t) && Used(t, i) && Light(View(t), m)
    ensures t.slots[i].txLen <= m
  {
    TxIs(t, i);
    hide View, Sound, Tag;
  }

  // ---- what such a link does ----

  /** The tables once the console has said JOIN and BYE, been reaped, and somebody new has its slot. */
  function SlotRetaken(t: Tables, a: nat, seed: nat, rules: Settings, addr: nat, born: int): Tables
    requires Sound(t) && Used(t, a) && Sound(Paired(t, a, seed, rules)) && Used(Paired(t, a, seed, rules), a)
    requires a < |Dropped(Paired(t, a, seed, rules), a).slots|
  {
    Seated(Reaped(Dropped(Paired(t, a, seed, rules), a)), a, addr, born)
  }

  /** What the two steps before the reap leave of the flags and links. */
  lemma AfterJoinAndBye(t: Tables, a: nat, b: nat, seed: nat, rules: Settings)
    requires Sound(t) && Tidy(t) && Parted(t) && Used(t, a) && Used(t, b) && !t.slots[a].dead && !t.slots[b].dead
    requires a != b && t.slots[a].partner == b && t.slots[b].partner == a
    requires Chosen(t, |t.order|, a) >= 0 && Room(t.slots[a], 15) && Room(t.slots[Chosen(t, |t.order|, a)], 31)
    ensures Sound(Paired(t, a, seed, rules)) && Used(Paired(t, a, seed, rules), a)
    ensures var s := Dropped(Paired(t, a, seed, rules), a);
            && Sound(s) && Tidy(s) && |s.slots| == SLOTS && s.slots[a].inUse && s.slots[a].dead && s.slots[a].gen == t.slots[a].gen
            && s.slots[b].inUse && !s.slots[b].dead && s.slots[b].partner == a
            && forall j | 0 <= j < SLOTS && s.slots[j].inUse && !s.slots[j].dead && 0 <= s.slots[j].partner < SLOTS
                 && s.slots[j].partner != a :: !s.slots[s.slots[j].partner].dead
  {
    hide Sound, Tidy, Paired, Dropped, Chosen, Room, Parted;
    JoinWhilePaired(t, a, b, seed, rules);
    var p := Paired(t, a, seed, rules);
    var c := Chosen(t, |t.order|, a);
    PairedFlags(t, a, c, seed, rules);
    DroppedFlags(p, a, c);
    LinksLeft(t, p, Dropped(p, a), a, c);
  }

  lemma LinksLeft(t: Tables, p: Tables, s: Tables, a: nat, c: nat)
    requires |t.slots| == |p.slots| == |s.slots| == SLOTS && a < SLOTS && c < SLOTS && Parted(t) && SameFlags(t.slots, p.slots)
    requires forall j | 0 <= j < SLOTS && j != a && j != c :: p.slots[j].partner == t.slots[j].partner
    requires s.slots[c].partner < 0 && s.slots[a].dead
    requires forall j | 0 <= j < SLOTS :: s.slots[j].gen == p.slots[j].gen && s.slots[j].inUse == p.slots[j].inUse
    requires forall j | 0 <= j < SLOTS && j != a :: s.slots[j].dead == p.slots[j].dead
    requires forall j | 0 <= j < SLOTS && j != c :: s.slots[j].partner == p.slots[j].partner
    ensures s.slots[a].gen == t.slots[a].gen
    ensures forall j | 0 <= j < SLOTS && s.slots[j].inUse && !s.slots[j].dead && 0 <= s.slots[j].partner < SLOTS
              && s.slots[j].partner != a :: !s.slots[s.slots[j].partner].dead
  {
    forall j | 0 <= j < SLOTS && s.slots[j].inUse && !s.slots[j].dead && 0 <= s.slots[j].partner < SLOTS && s.slots[j].partner != a
      ensures !s.slots[s.slots[j].partner].dead
    {
      assert j != a && j != c;
      assert s.slots[j].partner == t.slots[j].partner;
      assert t.slots[j].inUse && !t.slots[j].dead;
    }
  }

  lemma PairedFlags(t: Tables, a: nat, c: nat, seed: nat, rules: Settings)
    requires Sound(t) && Used(t, a) && c == Chosen(t, |t.order|, a) && Sound(Paired(t, a, seed, rules))
    ensures var p := Paired(t, a, seed, rules);
            && SameFlags(t.slots, p.slots) && |p.slots| == SLOTS && p.slots[a].partner == c && c < SLOTS && p.slots[c].partner == a
            && forall j | 0 <= j < SLOTS && j != a && j != c :: p.slots[j].partner == t.slots[j].partner
  {
    hide StartFrame, Listed, Chosen;
  }

  lemma DroppedFlags(t: Tables, a: nat, c: nat)
    requires Sound(t) && Used(t, a) && !t.slots[a].dead && t.slots[a].partner == c && Sound(Dropped(t, a))
    ensures var s := Dropped(t, a);
            && |s.slots| == SLOTS && c < SLOTS && s.slots[c].partner < 0 && s.slots[a].dead
            && (forall j | 0 <= j < SLOTS :: s.slots[j].gen == t.slots[j].gen && s.slots[j].inUse == t.slots[j].inUse)
            && (forall j | 0 <= j < SLOTS && j != a :: s.slots[j].dead == t.slots[j].dead)
            && (forall j | 0 <= j < SLOTS && j != c :: s.slots[j].partner == t.slots[j].partner)
  {
    hide Listed, NameTaken, Delisted, PeerLeft, Appended;
  }

  /**
   * The consequence: once the slot has been taken again, the frames of the console left behind go to whoever has
   * it now, a stranger in the match it has not joined.
   */
  lemma StrangerIsTold(t: Tables, a: nat, b: nat, seed: nat, rules: Settings, addr: nat, born: int, p: Packet)
    requires Sound(t) && Tidy(t) && Parted(t) && Used(t, a) && Used(t, b) && !t.slots[a].dead && !t.slots[b].dead
    requires a != b && t.slots[a].partner == b && t.slots[b].partner == a && |p.payload| < LONGEST
    requires Chosen(t, |t.order|, a) >= 0 && Room(t.slots[a], 15) && Room(t.slots[Chosen(t, |t.order|, a)], 31)
    ensures Sound(Paired(t, a, seed, rules)) && Used(Paired(t, a, seed, rules), a)
    ensures a < |Dropped(Paired(t, a, seed, rules), a).slots|
    ensures var v := SlotRetaken(t, a, seed, rules, addr, born);
            && Sound(v) && Used(v, a) && Used(v, b) && v.slots[a].gen == t.slots[a].gen + 1 && v.slots[a].txLen == 0
            && var w := Passed(v, b, p);
               |w.slots| == SLOTS && |w.slots[a].txbuf| >= w.slots[a].txLen && w.slots[a].txbuf[..w.slots[a].txLen] == GameFrame(p)
  {
    AfterJoinAndBye(t, a, b, seed, rules);
    var s := Dropped(Paired(t, a, seed, rules), a);
    hide Chosen, Room, Tidy, Parted, Paired, Dropped, GameFrame;
    RetakenIsSound(s, a, b, addr, born);
    var v := Seated(Reaped(s), a, addr, born);
    TellsSlot(v, a, b, p);
  }

  lemma RetakenIsSound(s: Tables, a: nat, b: nat, addr: nat, born: int)
    requires Sound(s) && Tidy(s) && |s.slots| == SLOTS && a < SLOTS && b < SLOTS && a != b
    requires s.slots[a].inUse && s.slots[a].dead && s.slots[b].inUse && !s.slots[b].dead && s.slots[b].partner == a
    requires forall j | 0 <= j < SLOTS && s.slots[j].inUse && !s.slots[j].dead && 0 <= s.slots[j].partner < SLOTS
               && s.slots[j].partner != a :: !s.slots[s.slots[j].partner].dead
    ensures var v := Seated(Reaped(s), a, addr, born);
            && Sound(v) && Used(v, a) && Used(v, b) && v.slots[a].gen == s.slots[a].gen + 1
            && v.slots[a].txLen == 0 && v.slots[b].partner == a && Fit(v.slots[a])
  {
    var u := Reaped(s);
    var v := Seated(u, a, addr, born);
    assert forall j | 0 <= j < SLOTS :: u.slots[j] == Freed(s.slots[j]);
    assert forall j | 0 <= j < SLOTS && j != a :: v.slots[j] == Freed(s.slots[j]);
    RetakenLinked(s, v, a);
    RetakenListed(s, v, a);
    hide Linked, Listed;
  }

  lemma RetakenLinked(s: Tables, v: Tables, a: nat)
    requires Linked(s.slots) && |v.slots| == SLOTS && a < SLOTS && v.slots[a].inUse && v.slots[a].partner == -1 && Fit(v.slots[a])
    requires forall j | 0 <= j < SLOTS && j != a :: v.slots[j] == Freed(s.slots[j])
    requires forall j | 0 <= j < SLOTS && s.slots[j].inUse && !s.slots[j].dead && 0 <= s.slots[j].partner < SLOTS
               && s.slots[j].partner != a :: !s.slots[s.slots[j].partner].dead
    ensures Linked(v.slots)
  {
    hide Fit;
    assert forall j | 0 <= j < SLOTS :: Fit(Freed(s.slots[j])) == Fit(s.slots[j]) by { FreedFits(s.slots); }
  }

  lemma FreedFits(ss: seq<Slot>)
    requires |ss| == SLOTS
    ensures forall j | 0 <= j < SLOTS :: Fit(Freed(ss[j])) == Fit(ss[j])
  {}

  lemma RetakenListed(s: Tables, v: Tables, a: nat)
    requires |s.slots| == SLOTS == |v.slots| && Listed(s.slots, s.order) && Tidy(s) && a < SLOTS && s.slots[a].dead
    requires v.slots[a].inUse && !v.slots[a].dead && v.order == s.order + [a]
    requires forall j | 0 <= j < SLOTS && j != a :: v.slots[j] == Freed(s.slots[j])
    ensures Listed(v.slots, v.order)
  {
    forall i: nat | i < SLOTS && v.slots[i].inUse && !v.slots[i].dead
      ensures i in v.order
    {
      if i != a {
        assert i in s.order;
      } else {
        assert v.order[|s.order|] == a;
      }
    }
  }

  lemma TellsSlot(v: Tables, a: nat, b: nat, p: Packet)
    requires Sound(v) && Used(v, a) && Used(v, b) && v.slots[b].partner == a && v.slots[a].txLen == 0 && |p.payload| < LONGEST
    ensures var w := Passed(v, b, p);
            |w.slots| == SLOTS && |w.slots[a].txbuf| >= w.slots[a].txLen && w.slots[a].txbuf[..w.slots[a].txLen] == GameFrame(p)
  {
    SlotsFit(v, a);
    FrameIsShort(p);
    AppendedTx(v.slots[a], GameFrame(p));
    hide GameFrame, Sound;
  }

  lemma FrameIsShort(p: Packet)
    requires |p.payload| < LONGEST
    ensures |GameFrame(p)| <= 255
  {}

  /** The relay tells no stranger: it still speaks of the connection that has gone. */
  lemma RelayTellsNoStranger(r: Relay, a: Id, b: Id, d: Id, seed: nat, rules: Settings, addr: nat, born: int, p: Packet, luck: Luck)
    requires Known(r) && Wed(r, a, b) && Known(TryPair(r, a, seed, rules)) && a in TryPair(r, a, seed, rules).conns
    requires var s := Drop(TryPair(r, a, seed, rules), a);
             d !in s.conns && Known(Admitted(s, d, addr, born)) && b in Admitted(s, d, addr, born).conns
    requires Relayed(p.kind) && |p.payload| < LONGEST && Digits(luck.digits)
    ensures var v := Admitted(Drop(TryPair(r, a, seed, rules), a), d, addr, born);
            && d in v.conns && d in Handle(v, b, p, luck, rules).conns && Handle(v, b, p, luck, rules).conns[d].tx == []
  {
    var q := TryPair(r, a, seed, rules);
    LinkStays(r, a, b, seed, rules);
    var s := Drop(q, a);
    LinkStaysOnDrop(q, a, b);
    var v := Admitted(s, d, addr, born);
    hide Known, Drop, TryPair;
    ForwardLeavesOthers(v, b, p, d);
    hide Forward;
  }

  lemma LinkStays(r: Relay, a: Id, b: Id, seed: nat, rules: Settings)
    requires Known(r) && Wed(r, a, b)
    ensures var q := TryPair(r, a, seed, rules); a in q.conns && b in q.conns && q.conns[b].partner == Some(a) && q.conns[a].partner != Some(a)
  {
    hide Oldest, StartFrame, Known;
  }

  lemma LinkStaysOnDrop(q: Relay, a: Id, b: Id)
    requires Known(q) && a in q.conns && b in q.conns && b != a && q.conns[b].partner == Some(a)
    ensures var s := Drop(q, a);
            a in s.conns && b in s.conns && (q.conns[a].partner != Some(b) ==> s.conns[b].partner == Some(a))
            && (q.conns[a].partner == Some(b) ==> s.conns[b].partner == None || s.conns[b].partner == Some(a))
  {
    hide PeerLeft, Without, IndexOf, Known;
  }

  lemma ForwardLeavesOthers(v: Relay, b: Id, p: Packet, d: Id)
    requires Known(v) && b in v.conns && d in v.conns && |p.payload| < LONGEST && v.conns[b].partner != Some(d)
    ensures d in Forward(v, b, p).conns && Forward(v, b, p).conns[d].tx == v.conns[d].tx
  {
    var bytes := FrameBytes(Packet(p.kind, Padded(p.payload, GAME_PAYLOAD)));
    var sent := if v.conns[b].partner.None? then v else Send(v, v.conns[b].partner.value, bytes);
    if v.conns[b].partner.Some? {
      SendKeeps(v, v.conns[b].partner.value, bytes);
    }
    assert Known(sent) && sent.conns[d].tx == v.conns[d].tx;
    if p.kind == INPUT && |p.payload| > CRC_AT {
      LogTellsNobody(sent, b, p.payload[0], p.payload[CRC_AT]);
    }
    hide Known, LogCrc, FrameBytes, Padded, SameNames;
  }
}
