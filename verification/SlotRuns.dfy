/** Chunks, arrivals and reaping: the slot relay from one event to the next. */
module SlotRuns {
  import opened Bytes
  import opened Ordered
  import opened Framing
  import opened Verdict
  import opened Relay
  import Spec = Relay
  import opened Pairing
  import opened Passage
  import opened Bytewise
  import opened Conduct
  import opened SlotTable
  import opened SlotSteps

  // ---- a chunk ----

  function Buffered(t: Tables, i: nat, rx: seq<byte>): Tables
    requires Used(t, i)
  {
    Written(t, i, t.slots[i].(rx := rx))
  }

  lemma BufferIsHear(t: Tables, i: nat, rx: seq<byte>)
    requires Sound(t) && Used(t, i)
    ensures Sound(Buffered(t, i, rx)) && Who(Buffered(t, i, rx), i) == Who(t, i)
    ensures Who(t, i) in View(t).conns && View(Buffered(t, i, rx)) == Heard(View(t), Who(t, i), rx)
    ensures View(t).conns[Who(t, i)].rx == t.slots[i].rx
  {
    WriteView(t, i, t.slots[i].(rx := rx));
    SlotView(t, i);
    hide View, Conns, Listed, Tag;
  }

  lemma BufferedStays(t: Tables, i: nat, rx: seq<byte>)
    requires Used(t, i)
    ensures var s := Buffered(t, i, rx); Used(s, i) && s.slots[i].rx == rx && (Tidy(t) ==> Tidy(s))
  {}

  function CountedBad(t: Tables): Tables {
    t.(stats := t.stats.(badFrames := t.stats.badFrames + 1))
  }

  /** What a frame cannot change: who is in a slot, and what is left in its receive buffer. */
  predicate StillIn(t: Tables, s: Tables, i: nat) {
    Used(t, i) && Used(s, i) && s.slots[i].gen == t.slots[i].gen && s.slots[i].rx == t.slots[i].rx
  }

  lemma StillWho(t: Tables, s: Tables, i: nat)
    requires Sound(t) && Sound(s) && StillIn(t, s, i)
    ensures Who(s, i) == Who(t, i)
  {}

  lemma DroppedStays(t: Tables, i: nat)
    requires Sound(t) && Used(t, i)
    ensures Sound(Dropped(t, i)) && StillIn(t, Dropped(t, i), i)
  {
    if !t.slots[i].dead {
      BuryIsUnseen(t, i);
      RenounceIsUnname(Buried(t, i), i);
      AbandonedStays(Renounced(Buried(t, i), i), i);
      var a := Abandoned(Renounced(Buried(t, i), i), i);
      DelistView(a, i);
    }
    hide Abandoned, Delisted, View, Linked, Listed, NameTaken, Tag;
  }

  lemma AbandonedStays(t: Tables, i: nat)
    requires Sound(t) && Used(t, i)
    ensures Sound(Abandoned(t, i)) && StillIn(t, Abandoned(t, i), i) && Abandoned(t, i).slots[i].dead == t.slots[i].dead
  {
    var p := t.slots[i].partner;
    if p >= 0 {
      PartnerIn(t, i);
      hide Sound, View, SendTo, PeerLeft;
      CutIsUnlink(t, p);
      SayStays(CutLink(t, p), p, PeerLeft(), i);
    }
  }

  lemma EnteredStays(t: Tables, h: nat, g: nat, role: int, start: seq<byte>, i: nat)
    requires Sound(t) && Used(t, h) && Used(t, g) && h != g && Used(t, i)
    ensures var a := Written(t, h, Entered(t.slots[h], g, role, start));
            Sound(a) && Used(a, h) && Used(a, g) && StillIn(t, a, i)
  {
    WriteView(t, h, Entered(t.slots[h], g, role, start));
    hide View, Listed, Appended, Tag;
  }

  lemma MatchedStays(t: Tables, h: nat, g: nat, seed: nat, rules: Settings, i: nat)
    requires Sound(t) && Used(t, h) && Used(t, g) && h != g && Used(t, i)
    ensures Sound(Matched(t, h, g, seed, rules)) && StillIn(t, Matched(t, h, g, seed, rules), i)
  {
    var (toHost, toGuest) := (StartFrame(0, seed, rules, t.slots[g].name), StartFrame(1, seed, rules, t.slots[h].name));
    EnteredStays(t, h, g, 0, toHost, i);
    var a := Written(t, h, Entered(t.slots[h], g, 0, toHost));
    EnteredStays(a, g, h, 1, toGuest, i);
    var b := Written(a, g, Entered(a.slots[g], h, 1, toGuest));
    CountView(b, b.stats.(matches := b.stats.matches + 1));
    hide StartFrame, View, Sound, Entered;
  }

  lemma PairedStays(t: Tables, c: nat, seed: nat, rules: Settings)
    requires Sound(t) && Used(t, c)
    ensures Sound(Paired(t, c, seed, rules)) && StillIn(t, Paired(t, c, seed, rules), c)
  {
    var o := Chosen(t, |t.order|, c);
    if o >= 0 {
      MatchedStays(t, o, c, seed, rules, c);
    }
    hide Matched, Linked, Listed, Chosen;
  }

  lemma LoggedStays(t: Tables, i: nat, tick: byte, crc: byte)
    requires Sound(t) && Used(t, i)
    ensures Sound(Logged(t, i, tick, crc)) && StillIn(t, Logged(t, i, tick, crc), i)
  {
    var s := t.slots[i];
    var noted := Noted(LedgerOf(s), tick, crc);
    var (p, key) := (s.partner, KeyOf(noted));
    PartnerIn(t, i);
    SlotsFit(t, i);
    NotedShort(LedgerOf(s), tick, crc);
    hide Noted, View, Sound, IndexOf, Newest, Who;
    if p < 0 || !Has(t.slots[p].crc, key) {
      LedgerStays(t, i, noted.(crc := Newest(noted.crc, KEPT)), i);
    } else {
      SlotsFit(t, p);
      var q := t.slots[p];
      LedgerStays(t, i, noted, i);
      var a := Written(t, i, WithLedger(s, noted));
      LedgerStays(a, p, LedgerOf(q).(crc := Pop(q.crc, key)), i);
      CountView(Written(a, p, q.(crc := Pop(q.crc, key))), Logged(t, i, tick, crc).stats);
    }
  }

  lemma NotedShort(l: Ledger, tick: byte, crc: byte)
    requires |l.crc| <= CRC_SLOTS
    ensures |Noted(l, tick, crc).crc| <= CRC_SLOTS && |Newest(Noted(l, tick, crc).crc, KEPT)| <= CRC_SLOTS
  {
    hide SumsSet, Clocked;
  }

  lemma LedgerStays(t: Tables, q: nat, l: Ledger, i: nat)
    requires Sound(t) && Used(t, q) && Used(t, i) && |l.crc| <= CRC_SLOTS
    ensures var s := Written(t, q, WithLedger(t.slots[q], l)); Sound(s) && Used(s, q) && StillIn(t, s, i)
  {
    LedgerView(t, q, l);
    hide Sound, View, Who;
  }

  lemma SteppedStays(t: Tables, i: nat, p: Packet, luck: Luck, rules: Settings)
    requires Sound(t) && Used(t, i) && |p.payload| < LONGEST && Digits(luck.digits)
    ensures Sound(Stepped(t, i, p, luck, rules)) && StillIn(t, Stepped(t, i, p, luck, rules), i)
  {
    hide View, Listed, Appended, Paired, Dropped, Logged, LobbyBytes, Linked;
    DroppedStays(t, i);
    PairedStays(t, i, luck.seed, rules);
    SayStays(t, i, LobbyBytes(t), i);
    SayStays(t, i, FrameBytes(Packet(PONG, [])), i);
    if Relayed(p.kind) {
      ForwardedStays(t, i, p);
    } else if p.kind == HELLO {
      HelloedStays(t, i, p.payload, luck, rules);
    }
    hide SendTo, Forwarded, Helloed, Sound;
  }

  lemma SayStays(t: Tables, q: nat, data: seq<byte>, i: nat)
    requires Sound(t) && Used(t, q) && Used(t, i)
    ensures Sound(SendTo(t, q, data)) && StillIn(t, SendTo(t, q, data), i)
    ensures SendTo(t, q, data).slots[i].dead == t.slots[i].dead
  {
    SendIsSend(t, q, data);
    hide View, Listed, Tag;
  }

  lemma ForwardedStays(t: Tables, i: nat, p: Packet)
    requires Sound(t) && Used(t, i) && |p.payload| < LONGEST
    ensures Sound(Forwarded(t, i, p)) && StillIn(t, Forwarded(t, i, p), i)
  {
    PassedSound(t, i, p);
    var q := t.slots[i].partner;
    if q >= 0 {
      SayStays(t, q, GameFrame(p), i);
    }
    if p.kind == INPUT && |p.payload| > CRC_AT {
      LoggedStays(Passed(t, i, p), i, p.payload[0], p.payload[CRC_AT]);
    }
    hide View, Listed, Logged, SendTo, GameFrame;
  }

  lemma HelloedStays(t: Tables, i: nat, payload: seq<byte>, luck: Luck, rules: Settings)
    requires Sound(t) && Used(t, i) && Digits(luck.digits)
    ensures Sound(Helloed(t, i, payload, luck, rules)) && StillIn(t, Helloed(t, i, payload, luck, rules), i)
  {
    hide View, Listed, Linked, Paired, Dropped;
    DroppedStays(t, i);
    var asked := Asked(payload);
    if asked.Some? {
      AskedIsOk(payload);
      FreeNameIsOk(NamesOf(t.claims), asked.value, luck.digits);
      var free := FreeName(NamesOf(t.claims), asked.value, luck.digits);
      if free.Some? {
        GreetedSound(t, i, free.value);
        PairedStays(Greeted(t, i, free.value), i, luck.seed, rules);
      }
    }
    hide Sound, Asked, FreeName, NamesOf, NameGiven, NameOk;
  }

  /**
   * And the bound is exact: the port says what the relay says on a frame if and only if its buffers and its name
   * table can hold what the relay then has. Beyond it a buffer is only made to look full, or a name is displaced.
   */
  lemma HandleIsHandleIff(t: Tables, i: nat, p: Packet, luck: Luck, rules: Settings)
    requires Sound(t) && Tidy(t) && Used(t, i) && |p.payload| < LONGEST && Digits(luck.digits)
    requires |t.claims| <= NAME_SLOTS
    ensures var s := Stepped(t, i, p, luck, rules);
            Sound(s) && (Alike(View(s), Reference(t, i, p, luck, rules)) <==> Held(Reference(t, i, p, luck, rules)))
  {
    hide View, Sound, Tidy, Held, Alike, Stepped, Who, Known, Handle, StillIn;
    SteppedStays(t, i, p, luck, rules);
    SteppedClaims(t, i, p, luck, rules);
    ViewIsHeld(Stepped(t, i, p, luck, rules));
    if Held(Reference(t, i, p, luck, rules)) {
      HandleIsHandle(t, i, p, luck, rules);
    }
    if Alike(View(Stepped(t, i, p, luck, rules)), Reference(t, i, p, luck, rules)) {
      HeldAlike(View(Stepped(t, i, p, luck, rules)), Reference(t, i, p, luck, rules));
    }
  }

  /** The frame loop over the tables. */
  function Served(t: Tables, i: nat, luck: nat -> Luck, k: nat, rules: Settings): (s: Tables)
    requires Sound(t) && Used(t, i) && forall n: nat :: Digits(luck(n).digits)
    ensures Sound(s)
    decreases |t.slots[i].rx|
  {
    var rx := t.slots[i].rx;
    if Ready(rx) then
      var b := Buffered(t, i, Behind(rx));
      BufferIsHear(t, i, Behind(rx));
      BufferedStays(t, i, Behind(rx));
      SteppedStays(b, i, Front(rx), luck(k), rules);
      Served(Stepped(b, i, Front(rx), luck(k), rules), i, luck, k + 1, rules)
    else if Malformed(rx) then
      DroppedStays(CountedBad(t), i);
      Dropped(CountedBad(t), i)
    else t
  }

  lemma ServedStep(t: Tables, i: nat, luck: nat -> Luck, k: nat, rules: Settings)
    requires Sound(t) && Used(t, i) && Ready(t.slots[i].rx) && forall n: nat :: Digits(luck(n).digits)
    ensures var b := Buffered(t, i, Behind(t.slots[i].rx));
            && Sound(b) && Used(b, i)
            && var s := Stepped(b, i, Front(t.slots[i].rx), luck(k), rules);
               Sound(s) && Used(s, i) && Served(t, i, luck, k, rules) == Served(s, i, luck, k + 1, rules)
  {
    BufferIsHear(t, i, Behind(t.slots[i].rx));
    BufferedStays(t, i, Behind(t.slots[i].rx));
    SteppedStays(Buffered(t, i, Behind(t.slots[i].rx)), i, Front(t.slots[i].rx), luck(k), rules);
    hide View, Sound, Buffered, Stepped;
  }

  /** The tables can hold what the relay has after every frame of the chunk. */
  ghost predicate HeldThroughout(r: Relay, c: Id, luck: nat -> Luck, k: nat, rules: Settings)
    requires Known(r) && c in r.conns && forall n: nat :: Digits(luck(n).digits)
    decreases |r.conns[c].rx|
  {
    var rx := r.conns[c].rx;
    if Ready(rx) then
      var h := Heard(r, c, Behind(rx));
      HeardKeeps(r, c, Behind(rx));
      HandleTold(h, c, Front(rx), luck(k), rules);
      var next := Handle(h, c, Front(rx), luck(k), rules);
      Held(next) && HeldThroughout(next, c, luck, k + 1, rules)
    else if Malformed(rx) then
      BlamedIsKnown(r);
      Held(Drop(Blamed(r), c))
    else true
  }

  /** The relay after the frame at the front of a connection's buffer. */
  ghost function AfterFront(r: Relay, c: Id, luck: Luck, rules: Settings): (s: Relay)
    requires Known(r) && c in r.conns && Ready(r.conns[c].rx) && Digits(luck.digits)
    ensures Known(s) && c in s.conns && |s.conns[c].rx| < |r.conns[c].rx|
  {
    var rx := r.conns[c].rx;
    var h := Heard(r, c, Behind(rx));
    HeardKeeps(r, c, Behind(rx));
    FrontLength(rx);
    HandleTold(h, c, Front(rx), luck, rules);
    HandleKeepsEars(h, c, Front(rx), luck, rules);
    Handle(h, c, Front(rx), luck, rules)
  }

  lemma HeldStep(r: Relay, c: Id, luck: nat -> Luck, k: nat, rules: Settings)
    requires Known(r) && c in r.conns && Ready(r.conns[c].rx) && forall n: nat :: Digits(luck(n).digits)
    ensures var (h, p) := (Heard(r, c, Behind(r.conns[c].rx)), Front(r.conns[c].rx));
            && Known(h) && c in h.conns && |p.payload| < LONGEST && AfterFront(r, c, luck(k), rules) == Handle(h, c, p, luck(k), rules)
    ensures var next := AfterFront(r, c, luck(k), rules);
            HeldThroughout(r, c, luck, k, rules) <==> Held(next) && HeldThroughout(next, c, luck, k + 1, rules)
  {
    hide Known, Handle, Heard, Held, Told;
    HeardKeeps(r, c, Behind(r.conns[c].rx));
    HandleTold(Heard(r, c, Behind(r.conns[c].rx)), c, Front(r.conns[c].rx), luck(k), rules);
  }

  lemma HeldEnd(r: Relay, c: Id, luck: nat -> Luck, k: nat, rules: Settings)
    requires Known(r) && c in r.conns && !Ready(r.conns[c].rx) && forall n: nat :: Digits(luck(n).digits)
    ensures Known(Blamed(r)) && c in Blamed(r).conns
    ensures HeldThroughout(r, c, luck, k, rules) <==> (Malformed(r.conns[c].rx) ==> Held(Drop(Blamed(r), c)))
  {
    hide Known, Drop, Held;
    BlamedIsKnown(r);
  }

  lemma {:induction false} HeldThroughoutAlike(a: Relay, b: Relay, c: Id, luck: nat -> Luck, k: nat, rules: Settings)
    requires Alike(a, b) && Known(a) && Known(b) && c in a.conns && c in b.conns
    requires (forall n: nat :: Digits(luck(n).digits)) && HeldThroughout(b, c, luck, k, rules)
    ensures HeldThroughout(a, c, luck, k, rules)
    decreases |a.conns[c].rx|
  {
    hide Alike, Known, Held, HeldThroughout, Malformed, Ready, AfterFront, Digits;
    SameRx(a, b, c);
    if Ready(a.conns[c].rx) {
      HeldStep(a, c, luck, k, rules);
      HeldStep(b, c, luck, k, rules);
      AfterFrontAlike(a, b, c, luck(k), rules);
      HeldThroughoutAlike(AfterFront(a, c, luck(k), rules), AfterFront(b, c, luck(k), rules), c, luck, k + 1, rules);
    } else {
      HeldEndAlike(a, b, c, luck, k, rules);
    }
  }

  lemma HeldEndAlike(a: Relay, b: Relay, c: Id, luck: nat -> Luck, k: nat, rules: Settings)
    requires Alike(a, b) && Known(a) && Known(b) && c in a.conns && c in b.conns && a.conns[c].rx == b.conns[c].rx
    requires !Ready(a.conns[c].rx) && (forall n: nat :: Digits(luck(n).digits)) && HeldThroughout(b, c, luck, k, rules)
    ensures HeldThroughout(a, c, luck, k, rules)
  {
    hide Alike, Known, Drop, Blamed, Held, HeldThroughout, Malformed, Ready;
    HeldEnd(a, c, luck, k, rules);
    HeldEnd(b, c, luck, k, rules);
    BlamedAlike(a, b);
    DropAlike(Blamed(a), Blamed(b), c);
    HeldAlike(Drop(Blamed(a), c), Drop(Blamed(b), c));
  }

  lemma AfterFrontAlike(a: Relay, b: Relay, c: Id, luck: Luck, rules: Settings)
    requires Alike(a, b) && Known(a) && Known(b) && c in a.conns && c in b.conns && a.conns[c].rx == b.conns[c].rx
    requires Ready(a.conns[c].rx) && Digits(luck.digits)
    ensures var (x, y) := (AfterFront(a, c, luck, rules), AfterFront(b, c, luck, rules)); Alike(x, y) && (Held(x) <==> Held(y))
  {
    hide Alike, Known, Handle, Heard, Held, Told;
    var rx := a.conns[c].rx;
    HeardKeeps(a, c, Behind(rx));
    HeardKeeps(b, c, Behind(rx));
    HeardAlike(a, b, c, Behind(rx));
    FrontLength(rx);
    HandleAlike(Heard(a, c, Behind(rx)), Heard(b, c, Behind(rx)), c, Front(rx), luck, rules);
    HeldAlike(AfterFront(a, c, luck, rules), AfterFront(b, c, luck, rules));
  }

  lemma SameRx(a: Relay, b: Relay, c: Id)
    requires Alike(a, b) && c in a.conns && c in b.conns
    ensures a.conns[c].rx == b.conns[c].rx
  {}

  /** Of a conforming client it is enough that the buffers can hold what the relay has in the end. */
  lemma {:induction false} HeldFromEnd(r: Relay, c: Id, luck: nat -> Luck, k: nat, rules: Settings)
    requires Married(r) && Registered(r) && Known(r) && c in r.conns && forall n: nat :: Digits(luck(n).digits)
    requires ConformsThroughout(r, c, luck, k, rules) && Contained(Serve(r, c, luck, k, rules))
    ensures HeldThroughout(r, c, luck, k, rules)
    decreases |r.conns[c].rx|
  {
    hide Known, Married, Registered, Handle, Heard, Drop, Blamed, Told, Possible, Conforms, Contained;
    var rx := r.conns[c].rx;
    if Ready(rx) {
      var (h, e) := (Heard(r, c, Behind(rx)), Speak(c, Front(rx), luck(k)));
      HeardKeeps(r, c, Behind(rx));
      HeardKeepsMarried(r, c, Behind(rx));
      HandleTold(h, c, Front(rx), luck(k), rules);
      HandleKeepsEars(h, c, Front(rx), luck(k), rules);
      ServeStep(r, c, luck, k, rules);
      StepKeepsMarried(h, e, rules);
      HandleKeepsRegistered(h, c, Front(rx), luck(k), rules);
      var a := Handle(h, c, Front(rx), luck(k), rules);
      ServeGrows(a, c, luck, k + 1, rules);
      GrewContained(a, Serve(a, c, luck, k + 1, rules), c, OwnMost(|a.conns[c].rx|), OthersMost(|a.conns[c].rx|));
      NamesAreFew(a);
      HeldFromEnd(a, c, luck, k + 1, rules);
    } else if Malformed(rx) {
      BlamedKeepsLaw(r);
      DropKeepsRegistered(Blamed(r), c);
      NamesAreFew(Drop(Blamed(r), c));
    }
  }

  lemma GrewContained(r: Relay, s: Relay, c: Id, own: nat, others: nat)
    requires Grew(r, s, c, own, others) && Contained(s)
    ensures Contained(r)
  {
    forall o | o in r.conns
      ensures |r.conns[o].tx| <= TX_CAPACITY
    {
      assert r.conns[o].tx <= s.conns[o].tx;
    }
    hide Total;
  }

  /** Every record of the chunk fits its sender's checksum table. */
  predicate FitsThroughout(t: Tables, i: nat, luck: nat -> Luck, k: nat, rules: Settings)
    requires Sound(t) && Used(t, i) && forall n: nat :: Digits(luck(n).digits)
    decreases |t.slots[i].rx|
  {
    var rx := t.slots[i].rx;
    Ready(rx) ==>
      var b := Buffered(t, i, Behind(rx));
      BufferIsHear(t, i, Behind(rx));
      BufferedStays(t, i, Behind(rx));
      SteppedStays(b, i, Front(rx), luck(k), rules);
      FrameFits(b, i, Front(rx)) && FitsThroughout(Stepped(b, i, Front(rx), luck(k), rules), i, luck, k + 1, rules)
  }

  lemma FitsStep(t: Tables, i: nat, luck: nat -> Luck, k: nat, rules: Settings)
    requires Sound(t) && Used(t, i) && Ready(t.slots[i].rx) && forall n: nat :: Digits(luck(n).digits)
    ensures var (b, p) := (Buffered(t, i, Behind(t.slots[i].rx)), Front(t.slots[i].rx));
            && Sound(b) && Used(b, i)
            && var s := Stepped(b, i, p, luck(k), rules);
               && Sound(s) && Used(s, i)
               && (FitsThroughout(t, i, luck, k, rules) <==> FrameFits(b, i, p) && FitsThroughout(s, i, luck, k + 1, rules))
  {
    hide View, Sound, Buffered, Stepped, FrameFits;
    BufferIsHear(t, i, Behind(t.slots[i].rx));
    BufferedStays(t, i, Behind(t.slots[i].rx));
    SteppedStays(Buffered(t, i, Behind(t.slots[i].rx)), i, Front(t.slots[i].rx), luck(k), rules);
  }

  /** A chunk served over the tables says exactly what the relay says, and is its state if the checksums fit. */
  lemma {:induction false} ServeIsServe(t: Tables, i: nat, luck: nat -> Luck, k: nat, rules: Settings)
    requires Sound(t) && Tidy(t) && Used(t, i) && (forall n: nat :: Digits(luck(n).digits))
    requires Known(View(t)) && Who(t, i) in View(t).conns && HeldThroughout(View(t), Who(t, i), luck, k, rules)
    ensures var s := Served(t, i, luck, k, rules);
            && Tidy(s)
            && Alike(View(s), Serve(View(t), Who(t, i), luck, k, rules))
            && (FitsThroughout(t, i, luck, k, rules) ==> View(s) == Serve(View(t), Who(t, i), luck, k, rules))
    decreases |t.slots[i].rx|
  {
    hide View, Sound, Known, Tidy, Who, Stepped, Handle, Held, Buffered, Heard, Dropped, Drop, Alike, FrameFits, Blamed;
    var rx := t.slots[i].rx;
    BufferIsHear(t, i, rx);
    if Ready(rx) {
      var b := Buffered(t, i, Behind(rx));
      BufferIsHear(t, i, Behind(rx));
      BufferedStays(t, i, Behind(rx));
      SteppedStays(b, i, Front(rx), luck(k), rules);
      HeldStep(View(t), Who(t, i), luck, k, rules);
      ServedStep(t, i, luck, k, rules);
      FitsStep(t, i, luck, k, rules);
      hide HeldThroughout, Served, FitsThroughout;
      HandleIsHandle(b, i, Front(rx), luck(k), rules);
      var s := Stepped(b, i, Front(rx), luck(k), rules);
      StillWho(b, s, i);
      ServeStep(View(t), Who(t, i), luck, k, rules);
      hide Serve, Ready, Front, Behind;
      ViewIsKnown(s);
      BufferIsHear(s, i, rx);
      var next := Handle(View(b), Who(t, i), Front(rx), luck(k), rules);
      HeldThroughoutAlike(View(s), next, Who(t, i), luck, k + 1, rules);
      ServeIsServe(s, i, luck, k + 1, rules);
      ServeAlike(View(s), next, Who(t, i), luck, k + 1, rules);
      AlikeTwice(View(Served(s, i, luck, k + 1, rules)), Serve(View(s), Who(t, i), luck, k + 1, rules),
                 Serve(next, Who(t, i), luck, k + 1, rules));
    } else {
      if Malformed(rx) {
        BadIsBlamed(t, i);
        BlamedIsKnown(View(t));
        HeldIsContained(Drop(Blamed(View(t)), Who(t, i)));
        DropWhole(CountedBad(t), i);
      }
      AlikeSelf(Serve(View(t), Who(t, i), luck, k, rules));
    }
  }

  lemma HeldIsContained(r: Relay)
    requires Held(r)
    ensures Contained(r)
  {}

  lemma BadIsBlamed(t: Tables, i: nat)
    requires Sound(t) && Used(t, i)
    ensures var b := CountedBad(t);
            Sound(b) && View(b) == Blamed(View(t)) && Used(b, i) && Who(b, i) == Who(t, i) && (Tidy(t) ==> Tidy(b))
            && b.slots == t.slots
  {
    CountView(t, CountedBad(t).stats);
    hide Conns, Linked, Listed, NamesOf, LiveOf;
  }

  // ---- arrivals ----

  /** A slot as a new connection finds it; its generation, and the bytes of its transmit buffer, are what they were. */
  function Opened(s: Slot, addr: nat, born: int): Slot {
    Slot(true, false, s.gen, addr, [], -1, -1, born, [], s.txbuf, 0, [], None, 0)
  }

  function Seated(t: Tables, i: nat, addr: nat, born: int): Tables
    requires i < |t.slots|
  {
    t.(slots := t.slots[i := Opened(t.slots[i], addr, born)], order := t.order + [i])
  }

  lemma AdmitSlots(t: Tables, i: nat, addr: nat, born: int)
    requires Sound(t) && i < SLOTS && !t.slots[i].inUse
    ensures var ts := t.slots[i := Opened(t.slots[i], addr, born)];
            && Linked(ts) && Listed(ts, t.order + [i])
            && LiveOf(ts, t.order + [i]) == LiveOf(t.slots, t.order) + [IdOf(t.slots, i)]
    ensures var ts := t.slots[i := Opened(t.slots[i], addr, born)];
            forall j | 0 <= j < SLOTS :: IdOf(ts, j) == IdOf(t.slots, j)
              && (j != i ==> ts[j].inUse == t.slots[j].inUse && (ts[j].inUse ==> ConnOf(ts, j) == ConnOf(t.slots, j)))
  {
    hide Tag;
    var (ts, os) := (t.slots[i := Opened(t.slots[i], addr, born)], t.order + [i]);
    forall j: nat | j < SLOTS && ts[j].inUse && !ts[j].dead
      ensures j in os
    {
      if j != i {
        assert j in t.order;
      } else {
        assert os[|t.order|] == i;
      }
    }
  }

  lemma NewConn(ss: seq<Slot>, i: nat, addr: nat, born: int, id: Id)
    requires Linked(ss) && i < SLOTS && !ss[i].inUse && Linked(ss[i := Opened(ss[i], addr, born)])
    requires var ts := ss[i := Opened(ss[i], addr, born)];
             forall j | 0 <= j < SLOTS :: IdOf(ts, j) == IdOf(ss, j)
               && (j != i ==> ts[j].inUse == ss[j].inUse && (ts[j].inUse ==> ConnOf(ts, j) == ConnOf(ss, j)))
    requires id in Conns(ss) || id in Conns(ss[i := Opened(ss[i], addr, born)])
    ensures var ts := ss[i := Opened(ss[i], addr, born)];
            if id == IdOf(ss, i) then id !in Conns(ss) && id in Conns(ts) && Conns(ts)[id] == Conn(addr, [], [], [], None, -1, born, FRESH)
            else id in Conns(ss) && id in Conns(ts) && Conns(ts)[id] == Conns(ss)[id]
  {
    var ts := ss[i := Opened(ss[i], addr, born)];
    hide Conns, Linked, Fit, Tag;
    if id == IdOf(ss, i) {
      ConnAt(ts, i);
      if id in Conns(ss) {
        var j := SlotOf(ss, id);
        TagIsUnique(j, ss[j].gen, i, ss[i].gen);
      }
    } else {
      var j: nat;
      if id in Conns(ss) {
        j := SlotOf(ss, id);
      } else {
        j := SlotOf(ts, id);
      }
      hide ConnOf;
      ConnAt(ss, j);
      ConnAt(ts, j);
    }
  }

  /** Taking a free slot is admitting a connection nobody has heard of. */
  lemma SeatIsAdmit(t: Tables, i: nat, addr: nat, born: int)
    requires Sound(t) && Tidy(t) && i < SLOTS && !t.slots[i].inUse
    ensures Sound(Seated(t, i, addr, born)) && Tidy(Seated(t, i, addr, born)) && Who(t, i) !in View(t).conns
    ensures View(Seated(t, i, addr, born)) == Spec.Admitted(View(t), Who(t, i), addr, born)
  {
    AdmitSlots(t, i, addr, born);
    var ts := t.slots[i := Opened(t.slots[i], addr, born)];
    AdmitConns(t.slots, i, addr, born);
    AdmitTidy(t, i, addr, born);
    hide Conns, Linked, Listed, LiveOf, ConnOf, Tag;
  }

  lemma AdmitConns(ss: seq<Slot>, i: nat, addr: nat, born: int)
    requires Linked(ss) && i < SLOTS && !ss[i].inUse && Linked(ss[i := Opened(ss[i], addr, born)])
    requires var ts := ss[i := Opened(ss[i], addr, born)];
             forall j | 0 <= j < SLOTS :: IdOf(ts, j) == IdOf(ss, j)
               && (j != i ==> ts[j].inUse == ss[j].inUse && (ts[j].inUse ==> ConnOf(ts, j) == ConnOf(ss, j)))
    ensures IdOf(ss, i) !in Conns(ss)
    ensures Conns(ss[i := Opened(ss[i], addr, born)]) == Conns(ss)[IdOf(ss, i) := Conn(addr, [], [], [], None, -1, born, FRESH)]
  {
    var ts := ss[i := Opened(ss[i], addr, born)];
    hide Linked, ConnOf, Tag;
    ConnAt(ts, i);
    NewConn(ss, i, addr, born, IdOf(ss, i));
    hide Conns;
    var (a, b) := (Conns(ts), Conns(ss)[IdOf(ss, i) := Conn(addr, [], [], [], None, -1, born, FRESH)]);
    forall id | id in a || id in b
      ensures id in a && id in b && a[id] == b[id]
    {
      NewConn(ss, i, addr, born, id);
    }
    SameMap(a, b);
  }

  lemma AdmitTidy(t: Tables, i: nat, addr: nat, born: int)
    requires Tidy(t) && i < |t.slots|
    ensures Tidy(Seated(t, i, addr, born))
  {}

  /** The first slot not in use, or the end of the table. */
  function FreeSlot(ss: seq<Slot>, from: nat): (i: nat)
    requires from <= |ss|
    ensures from <= i <= |ss| && (i < |ss| ==> !ss[i].inUse) && forall j | from <= j < i :: ss[j].inUse
    decreases |ss| - from
  {
    if from == |ss| || !ss[from].inUse then from else FreeSlot(ss, from + 1)
  }

  /** How many of the first n listed come from an address. */
  function PerAddress(t: Tables, n: nat, addr: nat): nat
    requires n <= |t.order| && forall k | 0 <= k < |t.order| :: t.order[k] < |t.slots|
  {
    if n == 0 then 0 else PerAddress(t, n - 1, addr) + (if t.slots[t.order[n - 1]].addr == addr then 1 else 0)
  }

  predicate TurnedAway(t: Tables, addr: nat)
    requires forall k | 0 <= k < |t.order| :: t.order[k] < |t.slots|
  {
    |t.order| >= SLOTS || PerAddress(t, |t.order|, addr) >= MOST_PER_ADDRESS
  }

  /** A connection at the door: turned away, or seated in the first free slot, or refused for want of one. */
  function Arrived(t: Tables, addr: nat, born: int): Tables
    requires forall k | 0 <= k < |t.order| :: t.order[k] < |t.slots|
  {
    if |t.order| >= SLOTS then t
    else if PerAddress(t, |t.order|, addr) >= MOST_PER_ADDRESS then
      t.(stats := t.stats.(ipRejects := t.stats.ipRejects + 1))
    else
      var i := FreeSlot(t.slots, 0);
      if i == |t.slots| then t else Seated(t, i, addr, born)
  }

  /** The connection the next arrival would be: the first free slot under its generation, or one never used. */
  function NewId(t: Tables): Id
    requires |t.slots| == SLOTS
  {
    var i := FreeSlot(t.slots, 0);
    if i < SLOTS then Tag(i, t.slots[i].gen) else Tag(0, t.slots[0].gen + 1)
  }

  lemma NewIdIsNew(t: Tables)
    requires Sound(t)
    ensures |t.slots| == SLOTS && NewId(t) !in View(t).conns
  {
    hide Linked, Listed, Tag, ConnOf, FreeSlot;
    assert |t.slots| == SLOTS by { SoundSize(t); }
    if NewId(t) in View(t).conns {
      var j := SlotOf(t.slots, NewId(t));
      var i := FreeSlot(t.slots, 0);
      TagIsUnique(if i < SLOTS then i else 0, if i < SLOTS then t.slots[i].gen else t.slots[0].gen + 1, j, t.slots[j].gen);
    }
  }

  /** Counting slots is counting connections. */
  ghost predicate Counts(r: Relay, n: nat, addr: nat, k: nat) {
    && Known(r) && n <= |r.live| && (forall i | 0 <= i < n :: r.live[..n][i] in r.conns)
    && k == FromAddress(r, r.live[..n], addr)
  }

  lemma CountsOneMore(r: Relay, n: nat, m: nat, addr: nat, k: nat)
    requires Counts(r, n, addr, k) && n < |r.live| && m == n + 1
    ensures r.live[n] in r.conns && Counts(r, m, addr, k + if r.conns[r.live[n]].addr == addr then 1 else 0)
  {
    var ids := r.live[..m];
    assert ids[..n] == r.live[..n] && ids[n] == r.live[n];
    assert forall i | 0 <= i < n :: r.live[..n][i] == r.live[i];
  }

  lemma NoneCounted(r: Relay, addr: nat)
    requires Known(r)
    ensures Counts(r, 0, addr, 0)
  {}

  lemma AddressAt(t: Tables, n: nat)
    requires Sound(t) && n < |t.order|
    ensures |View(t).live| == |t.order| && View(t).live[n] in View(t).conns && t.order[n] < |t.slots|
    ensures View(t).conns[View(t).live[n]].addr == t.slots[t.order[n]].addr
  {
    LiveAt(t, n);
    SlotView(t, t.order[n]);
    hide View, Linked, Tag;
  }

  lemma OrderInTable(t: Tables)
    requires Sound(t)
    ensures forall k | 0 <= k < |t.order| :: t.order[k] < |t.slots|
  {
    hide Linked;
    SoundSize(t);
  }

  lemma {:induction false} AddressesAreCounted(t: Tables, n: nat, addr: nat)
    requires Sound(t) && n <= |t.order| && Known(View(t))
    ensures forall k | 0 <= k < |t.order| :: t.order[k] < |t.slots|
    ensures Counts(View(t), n, addr, PerAddress(t, n, addr))
  {
    hide View, Sound, Known, Counts;
    OrderInTable(t);
    if n == 0 {
      NoneCounted(View(t), addr);
    } else {
      AddressesAreCounted(t, n - 1, addr);
      AddressAt(t, n - 1);
      CountsOneMore(View(t), n - 1, n, addr, PerAddress(t, n - 1, addr));
    }
  }

  lemma WholeCount(r: Relay, addr: nat, k: nat)
    requires Counts(r, |r.live|, addr, k)
    ensures FromAddress(r, r.live, addr) == k
  {
    assert r.live[..|r.live|] == r.live;
    hide FromAddress;
  }

  /**
   * An arrival over the tables is the relay's exactly when it is turned away or a slot is free: with every slot
   * in use and room in the order, the port refuses a connection the relay takes.
   */
  lemma ArrivalIsAcceptIff(t: Tables, addr: nat, born: int)
    requires Sound(t) && Tidy(t)
    ensures Known(View(t)) && |t.slots| == SLOTS && forall k | 0 <= k < |t.order| :: t.order[k] < |t.slots|
    ensures Sound(Arrived(t, addr, born)) && Tidy(Arrived(t, addr, born))
    ensures View(Arrived(t, addr, born)) == Accept(View(t), NewId(t), addr, born)
            <==> TurnedAway(t, addr) || FreeSlot(t.slots, 0) < SLOTS
  {
    hide View, Sound, Tidy, Known, FromAddress, PerAddress, Seated, Spec.Admitted, Counts, FreeSlot, Who, NewId;
    OrderInTable(t);
    SoundSize(t);
    ViewIsKnown(t);
    WholeLive(t);
    AddressesAreCounted(t, |t.order|, addr);
    WholeCount(View(t), addr, PerAddress(t, |t.order|, addr));
    var rejected := t.stats.(ipRejects := t.stats.ipRejects + 1);
    CountView(t, rejected);
    ViewStats(t);
    TidyStats(t, rejected);
    var i := FreeSlot(t.slots, 0);
    if i < SLOTS {
      NewIdIs(t, i);
      SeatIsAdmit(t, i, addr, born);
    }
    AdmittedIsMore(View(t), NewId(t), addr, born);
  }

  lemma NewIdIs(t: Tables, i: nat)
    requires Sound(t) && |t.slots| == SLOTS && i == FreeSlot(t.slots, 0) && i < SLOTS
    ensures NewId(t) == Who(t, i)
  {}

  lemma TidyStats(t: Tables, stats: Stats)
    requires Tidy(t)
    ensures Tidy(t.(stats := stats))
  {}

  lemma ViewStats(t: Tables)
    requires Sound(t)
    ensures View(t).stats == t.stats
  {
    hide Conns, LiveOf, NamesOf;
  }

  lemma AdmittedIsMore(r: Relay, c: Id, addr: nat, born: int)
    ensures Spec.Admitted(r, c, addr, born) != r
  {
    assert |Spec.Admitted(r, c, addr, born).live| == |r.live| + 1;
  }

  // ---- flushing ----

  /** The transmit buffer after so many bytes were sent: what is left has moved to the front. */
  function Moved(s: Slot, k: nat): (d: Slot)
    requires Fit(s) && k <= s.txLen
    ensures Fit(d) && d == s.(txbuf := d.txbuf, txLen := d.txLen) && d.txLen == s.txLen - k
  {
    s.(txbuf := s.txbuf[k..s.txLen] + s.txbuf[s.txLen - k..], txLen := s.txLen - k)
  }

  function Flushed(t: Tables, i: nat, k: nat): Tables
    requires Sound(t) && Used(t, i) && k <= t.slots[i].txLen
  {
    var d := Written(t, i, Moved(t.slots[i], k));
    MoveIsDrain(t, i, k);
    if t.slots[i].txLen - k > TX_BACKLOG then Dropped(d.(stats := d.stats.(txDrops := d.stats.txDrops + 1)), i) else d
  }

  lemma MoveIsDrain(t: Tables, i: nat, k: nat)
    requires Sound(t) && Used(t, i) && k <= t.slots[i].txLen
    ensures var d := Written(t, i, Moved(t.slots[i], k));
            var e := d.(stats := d.stats.(txDrops := d.stats.txDrops + 1));
            && Sound(d) && Sound(e) && Used(d, i) && Used(e, i) && Who(e, i) == Who(d, i) == Who(t, i)
            && Known(View(t)) && Who(t, i) in View(t).conns && |View(t).conns[Who(t, i)].tx| == t.slots[i].txLen
            && View(d) == Drained(View(t), Who(t, i), k) && View(e) == Overrun(View(d))
  {
    var s := Moved(t.slots[i], k);
    SlotsFit(t, i);
    MovedReplaces(t, i, k);
    hide Sound, Tag, Moved, View, Replaces, Linked;
    ViewIsKnown(t);
    WriteView(t, i, s);
    SlotView(t, i);
    MovedConn(t, i, k);
    var d := Written(t, i, s);
    CountView(d, d.stats.(txDrops := d.stats.txDrops + 1));
    ViewStats(d);
    ViewStats(t);
  }

  /** What a flush does, step by step, over sound tables. */
  lemma FlushedStays(t: Tables, i: nat, k: nat)
    requires Sound(t) && Used(t, i) && k <= t.slots[i].txLen
    ensures Fit(t.slots[i]) && Moved(t.slots[i], k).txLen == t.slots[i].txLen - k
    ensures var d := Written(t, i, Moved(t.slots[i], k));
            var e := d.(stats := d.stats.(txDrops := d.stats.txDrops + 1));
            && Sound(d) && Sound(e) && Used(d, i) && Used(e, i)
            && Flushed(t, i, k) == if t.slots[i].txLen - k > TX_BACKLOG then Dropped(e, i) else d
  {
    hide View, Sound, Known, Moved, Dropped, Drained, Overrun, Who, Fit;
    MoveIsDrain(t, i, k);
    SlotsFit(t, i);
  }

  lemma MovedConn(t: Tables, i: nat, k: nat)
    requires Sound(t) && Used(t, i) && k <= t.slots[i].txLen && Fit(t.slots[i])
    requires Linked(Written(t, i, Moved(t.slots[i], k)).slots)
    ensures Linked(t.slots) && k <= |ConnOf(t.slots, i).tx| == t.slots[i].txLen
    ensures var c := ConnOf(t.slots, i);
            ConnOf(Written(t, i, Moved(t.slots[i], k)).slots, i) == c.(tx := c.tx[k..])
  {
    MovedTx(t.slots[i], k);
    hide Moved, Tag, Listed;
  }

  lemma MovedTx(s: Slot, k: nat)
    requires Fit(s) && k <= s.txLen
    ensures Moved(s, k).txbuf[..s.txLen - k] == s.txbuf[..s.txLen][k..]
  {}

  lemma MovedReplaces(t: Tables, i: nat, k: nat)
    requires Sound(t) && Used(t, i) && k <= t.slots[i].txLen
    ensures Fit(t.slots[i]) && Replaces(t.slots, i, Moved(t.slots[i], k))
  {
    hide Moved, Listed;
  }

  lemma MovedTidy(t: Tables, i: nat, k: nat)
    requires Tidy(t) && Used(t, i) && Fit(t.slots[i]) && k <= t.slots[i].txLen
    ensures var d := Written(t, i, Moved(t.slots[i], k)); Tidy(d) && Tidy(d.(stats := d.stats.(txDrops := d.stats.txDrops + 1)))
  {}

  /** A flush over the tables is the relay's, backlog and all, if the buffers can hold what the relay then has. */
  lemma FlushIsFlush(t: Tables, i: nat, k: nat)
    requires Sound(t) && Tidy(t) && Used(t, i) && k <= t.slots[i].txLen
    requires Known(View(t)) && Who(t, i) in View(t).conns && k <= |View(t).conns[Who(t, i)].tx|
    requires Contained(Flush(View(t), Who(t, i), k))
    ensures Sound(Flushed(t, i, k)) && Tidy(Flushed(t, i, k)) && View(Flushed(t, i, k)) == Flush(View(t), Who(t, i), k)
  {
    hide View, Sound, Tidy, Known, Moved, Dropped, Drop, Drained, Overrun, Who, Fit, Room, Contained;
    MoveIsDrain(t, i, k);
    SlotsFit(t, i);
    MovedTidy(t, i, k);
    DrainedIsKnown(View(t), Who(t, i), k);
    DrainedLength(View(t), Who(t, i), k);
    OverrunStays(Drained(View(t), Who(t, i), k));
    if t.slots[i].txLen - k > TX_BACKLOG {
      var d := Written(t, i, Moved(t.slots[i], k));
      DropWhole(d.(stats := d.stats.(txDrops := d.stats.txDrops + 1)), i);
    }
  }

  lemma DrainedLength(r: Relay, c: Id, k: nat)
    requires c in r.conns && k <= |r.conns[c].tx|
    ensures c in Drained(r, c, k).conns && |Drained(r, c, k).conns[c].tx| == |r.conns[c].tx| - k
  {}

  // ---- reaping ----

  /** A dropped slot freed, its next generation begun. */
  function Freed(s: Slot): Slot {
    if s.inUse && s.dead then s.(inUse := false, gen := s.gen + 1) else s
  }

  function Reaped(t: Tables): Tables {
    t.(slots := seq(|t.slots|, i requires 0 <= i < |t.slots| => Freed(t.slots[i])))
  }

  /** No live slot still names a dropped one. */
  predicate Parted(t: Tables)
    requires |t.slots| == SLOTS
  {
    forall i | 0 <= i < SLOTS && t.slots[i].inUse && !t.slots[i].dead && 0 <= t.slots[i].partner < SLOTS ::
      !t.slots[t.slots[i].partner].dead
  }

  /** Reaping leaves sound tables exactly when no live console is still linked to a dropped one. */
  lemma ReapIsSoundIff(t: Tables)
    requires Sound(t) && Tidy(t)
    ensures Sound(Reaped(t)) <==> Parted(t)
    ensures Tidy(Reaped(t))
  {
    var (ss, ts) := (t.slots, Reaped(t).slots);
    assert forall i | 0 <= i < SLOTS :: ts[i] == Freed(ss[i]);
    assert forall i | 0 <= i < SLOTS :: Fit(ts[i]) == Fit(ss[i]);
    hide Fit;
    if !Parted(t) {
      var i :| 0 <= i < SLOTS && ss[i].inUse && !ss[i].dead && 0 <= ss[i].partner < SLOTS && ss[ss[i].partner].dead;
      assert ts[i].inUse && !ts[ss[i].partner].inUse;
    }
  }

  lemma ReapedConn(t: Tables, i: nat)
    requires Sound(t) && Tidy(t) && Parted(t) && Sound(Reaped(t)) && i < SLOTS
    ensures Reaped(t).slots[i].inUse <==> t.slots[i].inUse && !t.slots[i].dead
    ensures Reaped(t).slots[i].inUse ==>
              IdOf(Reaped(t).slots, i) == IdOf(t.slots, i) && ConnOf(Reaped(t).slots, i) == ConnOf(t.slots, i)
  {
    hide Tag, Fit, Listed;
    assert Reaped(t).slots[i] == Freed(t.slots[i]);
    var p := t.slots[i].partner;
    if 0 <= p < SLOTS {
      assert Reaped(t).slots[p] == Freed(t.slots[p]);
    }
  }

  lemma ReapedAt(t: Tables, id: Id)
    requires Sound(t) && Tidy(t) && Parted(t) && Sound(Reaped(t))
    ensures id in View(Reaped(t)).conns <==> id in View(t).conns && id in View(t).live
    ensures id in View(Reaped(t)).conns ==> View(Reaped(t)).conns[id] == View(t).conns[id]
  {
    hide Conns, Linked, Listed, Tag, ConnOf, Reaped, Fit, LiveOf;
    if id in View(Reaped(t)).conns {
      var i := SlotOf(Reaped(t).slots, id);
      ReapedConn(t, i);
      ConnAt(t.slots, i);
      LiveIff(t, i);
    }
    if id in View(t).conns && id in View(t).live {
      var i := SlotOf(t.slots, id);
      LiveIff(t, i);
      ReapedConn(t, i);
      ConnAt(Reaped(t).slots, i);
    }
  }

  /** Reaping forgets the dropped connections, and nothing else; slots may be reused under new generations. */
  lemma ReapIsForget(t: Tables)
    requires Sound(t) && Tidy(t) && Parted(t)
    ensures Sound(Reaped(t)) && Tidy(Reaped(t)) && View(Reaped(t)) == Forgotten(View(t))
  {
    ReapIsSoundIff(t);
    var (a, b) := (View(Reaped(t)), Forgotten(View(t)));
    forall id | id in a.conns || id in b.conns
      ensures id in a.conns && id in b.conns && a.conns[id] == b.conns[id]
    {
      ReapedAt(t, id);
    }
    SameMap(a.conns, b.conns);
    ReapedLists(t);
    hide Conns, Linked, Listed, LiveOf;
  }

  lemma ReapedLists(t: Tables)
    requires Sound(t) && Tidy(t) && Sound(Reaped(t))
    ensures View(Reaped(t)).live == View(t).live && View(Reaped(t)).names == View(t).names
    ensures View(Reaped(t)).stats == t.stats == View(t).stats
  {
    hide Conns, Linked, Tag;
    forall k | 0 <= k < |t.order|
      ensures LiveOf(Reaped(t).slots, t.order)[k] == LiveOf(t.slots, t.order)[k]
    {
      assert Reaped(t).slots[t.order[k]] == Freed(t.slots[t.order[k]]);
    }
  }

  /** Conforming clients can always be reaped after: their matches are mutual. */
  lemma MarriedIsParted(t: Tables)
    requires Sound(t) && Tidy(t) && Married(View(t))
    ensures Parted(t)
  {
    forall i | 0 <= i < SLOTS && t.slots[i].inUse && !t.slots[i].dead && 0 <= t.slots[i].partner < SLOTS
      ensures !t.slots[t.slots[i].partner].dead
    {
      SlotView(t, i);
      LiveIff(t, i);
      LiveIff(t, t.slots[i].partner);
    }
    hide Conns, Linked, Listed, LiveOf, Tag;
  }

  // ---- a chunk received ----

  lemma BufferedSound(t: Tables, i: nat, rx: seq<byte>)
    requires Sound(t) && Used(t, i)
    ensures Sound(Buffered(t, i, rx)) && Used(Buffered(t, i, rx), i)
  {
    BufferIsHear(t, i, rx);
    BufferedStays(t, i, rx);
    hide Sound, View, Buffered, Known;
  }

  /** A chunk received into a slot's buffer: the connection dropped if it would overflow, else what is there served. */
  function Chunked(t: Tables, i: nat, data: seq<byte>, luck: nat -> Luck, rules: Settings): Tables
    requires Sound(t) && Used(t, i) && forall n: nat :: Digits(luck(n).digits)
  {
    BufferedSound(t, i, t.slots[i].rx + data);
    if |t.slots[i].rx| + |data| > RX_CAPACITY then Dropped(t, i)
    else Served(Buffered(t, i, t.slots[i].rx + data), i, luck, 0, rules)
  }

  /**
   * A chunk of a conforming client is the relay's chunk: the overflow branch is never taken, and it is enough that
   * the buffers can hold what the relay has once the chunk is served.
   */
  lemma ChunkIsServiced(t: Tables, i: nat, data: seq<byte>, luck: nat -> Luck, rules: Settings)
    requires Sound(t) && Tidy(t) && Used(t, i) && (forall n: nat :: Digits(luck(n).digits)) && |data| <= CHUNK
    requires Known(View(t)) && Who(t, i) in View(t).conns && |View(t).conns[Who(t, i)].rx| <= LONGEST
    requires var h := Heard(View(t), Who(t, i), View(t).conns[Who(t, i)].rx + data);
             Known(h) && Who(t, i) in h.conns && HeldThroughout(h, Who(t, i), luck, 0, rules)
    ensures var s := Chunked(t, i, data, luck, rules);
            && Sound(s) && Tidy(s) && Alike(View(s), Serviced(View(t), Who(t, i), data, luck, rules))
            && (ChunkFits(t, i, data, luck, rules) ==> View(s) == Serviced(View(t), Who(t, i), data, luck, rules))
  {
    hide View, Sound, Tidy, Known, Buffered, Served, Serve, Heard, Who, Alike, HeldThroughout, FitsThroughout, Dropped;
    var rx := t.slots[i].rx + data;
    BufferIsHear(t, i, rx);
    BufferedStays(t, i, rx);
    ServeIsServe(Buffered(t, i, rx), i, luck, 0, rules);
  }

  predicate ChunkFits(t: Tables, i: nat, data: seq<byte>, luck: nat -> Luck, rules: Settings)
    requires Sound(t) && Used(t, i) && forall n: nat :: Digits(luck(n).digits)
  {
    BufferedSound(t, i, t.slots[i].rx + data);
    FitsThroughout(Buffered(t, i, t.slots[i].rx + data), i, luck, 0, rules)
  }

  // ---- whole runs ----

  /** What happens to the slot relay. */
  datatype Happening =
    | Admit(addr: nat, born: int)
    | Frame(i: nat, packet: Packet, luck: Luck)
    | Receive(i: nat, data: seq<byte>, lucks: nat -> Luck)
    | Lose(i: nat)
    | Sent(i: nat, k: nat)
    | Reap

  /** It can happen, and no arrival is refused for want of a slot. */
  ghost predicate Fair(t: Tables, h: Happening) {
    match h
    case Admit(addr, _) =>
      && (forall k | 0 <= k < |t.order| :: t.order[k] < |t.slots|)
      && (TurnedAway(t, addr) || FreeSlot(t.slots, 0) < |t.slots|)
    case Frame(i, p, luck) => Used(t, i) && |p.payload| < LONGEST && Digits(luck.digits)
    case Receive(i, data, lucks) => Used(t, i) && |data| <= CHUNK && forall n: nat :: Digits(lucks(n).digits)
    case Lose(i) => Used(t, i)
    case Sent(i, k) => Used(t, i) && k <= t.slots[i].txLen
    case Reap => true
  }

  ghost function Happened(t: Tables, h: Happening, rules: Settings): Tables {
    if !Sound(t) || !Fair(t, h) then t
    else
      match h
      case Admit(addr, born) => Arrived(t, addr, born)
      case Frame(i, p, luck) => Stepped(t, i, p, luck, rules)
      case Receive(i, data, lucks) => Chunked(t, i, data, lucks, rules)
      case Lose(i) => Dropped(t, i)
      case Sent(i, k) => Flushed(t, i, k)
      case Reap => Reaped(t)
  }

  /** The same happening, as the relay's clients and network have it: a slot and its generation are one connection. */
  function DoingOf(t: Tables, h: Happening): Doing {
    match h
    case Admit(addr, born) => One(Arrive(if |t.slots| == SLOTS then NewId(t) else 0, addr, born))
    case Frame(i, p, luck) => One(Speak(TagAt(t, i), p, luck))
    case Receive(i, data, lucks) => Chunk(TagAt(t, i), data, lucks)
    case Lose(i) => One(Hangup(TagAt(t, i)))
    case Sent(i, k) => One(Take(TagAt(t, i), k))
    case Reap => One(Forget)
  }

  function TagAt(t: Tables, i: nat): Id {
    if i < |t.slots| then IdOf(t.slots, i) else 0
  }

  /** The relay's own step, from what happens alone. */
  ghost function Followed(r: Relay, d: Doing, rules: Settings): Relay {
    if Known(r) && Can(r, d) then Does(r, d, rules) else r
  }

  /** Client frames whose checksums have a place in their tables. */
  ghost predicate Fitting(t: Tables, h: Happening, rules: Settings) {
    && (h.Frame? && h.i < |t.slots| ==> FrameFits(t, h.i, h.packet))
    && (h.Receive? && Sound(t) && Fair(t, h) ==> ChunkFits(t, h.i, h.data, h.lucks, rules))
  }

  /** The empty tables, with whatever the buffers held. */
  ghost predicate Blank(t: Tables) {
    && |t.slots| == SLOTS && t.order == [] && t.claims == [] && t.stats == Stats(0, 0, 0, 0, 0, 0)
    && forall i | 0 <= i < SLOTS :: !t.slots[i].inUse && Fit(t.slots[i])
  }

  lemma BlankIsEmpty(t: Tables)
    requires Blank(t)
    ensures Sound(t) && Tidy(t) && View(t) == EMPTY && Lawful(EMPTY)
  {
    assert Conns(t.slots).Keys == {};
    assert LiveOf(t.slots, []) == [] && NamesOf([]) == [];
    EmptyIsLawful();
    hide Lawful;
  }

  /** One event over the tables, against the relay they stand for. */
  lemma HappeningIsStep(t: Tables, h: Happening, rules: Settings)
    requires Sound(t) && Tidy(t) && Married(View(t)) && Fair(t, h) && !h.Receive?
    requires Known(View(t)) && Possible(View(t), DoingOf(t, h).event) && Held(Pairing.Step(View(t), DoingOf(t, h).event, rules))
    ensures var (s, e) := (Happened(t, h, rules), DoingOf(t, h).event);
            && Sound(s) && Tidy(s)
            && Alike(View(s), Pairing.Step(View(t), e, rules))
            && (Fitting(t, h, rules) ==> View(s) == Pairing.Step(View(t), e, rules))
  {
    hide View, Sound, Tidy, Married, Stepped, Dropped, Reaped, Arrived, Flushed, Who;
    hide Handle, Drop, Accept, Forgotten, Known, Flush, Alike, FrameFits, TurnedAway, NewId, Tag, FreeSlot, Held;
    SoundSize(t);
    var q := Pairing.Step(View(t), DoingOf(t, h).event, rules);
    HeldIsContained(q);
    hide Contained;
    match h {
      case Admit(addr, born) => ArrivalIsAcceptIff(t, addr, born);
      case Frame(i, p, luck) =>
        TagIsWho(t, i);
        HandleIsHandle(t, i, p, luck, rules);
      case Lose(i) =>
        TagIsWho(t, i);
        DropWhole(t, i);
      case Sent(i, k) =>
        TagIsWho(t, i);
        FlushIsFlush(t, i, k);
      case Reap =>
        MarriedIsParted(t);
        ReapIsForget(t);
    }
    AlikeSelf(q);
  }

  lemma TagIsWho(t: Tables, i: nat)
    requires Sound(t) && Used(t, i)
    ensures TagAt(t, i) == Who(t, i)
  {}

  /** What can happen to the tables can happen to the relay they stand for. */
  lemma FairIsPossible(t: Tables, h: Happening)
    requires Sound(t) && Fair(t, h) && Married(View(t))
    ensures Known(View(t)) && Can(View(t), DoingOf(t, h))
  {
    hide View, Sound, Married, Known, TurnedAway, NewId, Tag, FreeSlot, Who, Forgotten;
    SoundSize(t);
    ViewIsKnown(t);
    match h {
      case Admit(addr, born) => NewIdIsNew(t);
      case Frame(i, p, luck) => TxIs(t, i);
      case Receive(i, data, lucks) => TxIs(t, i);
      case Lose(i) => TxIs(t, i);
      case Sent(i, k) => TxIs(t, i);
      case Reap => ForgetKeepsMarried(View(t));
    }
    if !h.Admit? && !h.Reap? {
      TagIsWho(t, h.i);
    }
  }

  /** One happening, tables against a relay that has gone its own way from the same doings. */
  lemma HappeningIsFollowed(t: Tables, r: Relay, h: Happening, rules: Settings)
    requires Sound(t) && Tidy(t) && Alike(View(t), r) && Lawful(r) && Fair(t, h)
    requires Known(r) && Can(r, DoingOf(t, h)) ==> Decent(r, DoingOf(t, h), rules)
    requires Contained(Followed(r, DoingOf(t, h), rules))
    ensures var (s, q) := (Happened(t, h, rules), Followed(r, DoingOf(t, h), rules));
            && Sound(s) && Tidy(s) && Alike(View(s), q) && Lawful(q)
            && (View(t) == r && Fitting(t, h, rules) ==> View(s) == q)
  {
    var d := DoingOf(t, h);
    hide View, Sound, Tidy, Married, Registered, Lawful, Alike, Known, Can, Decent, Happened, DoingOf, Does, Fair, Fitting, Contained;
    AlikeBack(View(t), r);
    LawfulParts(r);
    MarriedAlike(r, View(t));
    FairIsPossible(t, h);
    DoesAlike(View(t), r, d, rules);
    DoesKeepsLaw(r, d, rules);
    var q := Does(r, d, rules);
    LawfulParts(q);
    NamesAreFew(q);
    if h.Receive? {
      ReceiveIsFollowed(t, r, h, rules);
    } else {
      assert Held(q);
      hide Held;
      HeldAlike(Does(View(t), d, rules), q);
      OneIsDone(t, h, rules);
      AlikeTwice(View(Happened(t, h, rules)), Does(View(t), d, rules), q);
    }
  }

  lemma OneIsDone(t: Tables, h: Happening, rules: Settings)
    requires Sound(t) && Tidy(t) && Married(View(t)) && Fair(t, h) && !h.Receive?
    requires Known(View(t)) && Can(View(t), DoingOf(t, h)) && Held(Does(View(t), DoingOf(t, h), rules))
    ensures var (s, q) := (Happened(t, h, rules), Does(View(t), DoingOf(t, h), rules));
            Sound(s) && Tidy(s) && Alike(View(s), q) && (Fitting(t, h, rules) ==> View(s) == q)
  {
    hide View, Sound, Tidy, Married, Alike, Known, Possible, Happened, Pairing.Step, Fair, Fitting, Held, NewId, TagAt;
    assert DoingOf(t, h).One?;
    HappeningIsStep(t, h, rules);
  }

  /** A received chunk, tables against a relay that has gone its own way. */
  lemma ReceiveIsFollowed(t: Tables, r: Relay, h: Happening, rules: Settings)
    requires Sound(t) && Tidy(t) && Alike(View(t), r) && Lawful(r) && Fair(t, h) && h.Receive?
    requires Known(View(t)) && Can(View(t), DoingOf(t, h)) && Known(r) && Can(r, DoingOf(t, h))
    requires Decent(r, DoingOf(t, h), rules) && Contained(Does(r, DoingOf(t, h), rules))
    ensures var (s, q) := (Happened(t, h, rules), Does(r, DoingOf(t, h), rules));
            Sound(s) && Tidy(s) && Alike(View(s), q) && (View(t) == r && Fitting(t, h, rules) ==> View(s) == q)
  {
    var (i, data, lucks) := (h.i, h.data, h.lucks);
    var c := Who(t, i);
    TagIsWho(t, i);
    assert r.conns[c].rx == View(t).conns[c].rx;
    var rx := r.conns[c].rx + data;
    LawfulParts(r);
    LawfulRx(r, c);
    hide View, Sound, Tidy, Married, Registered, Lawful, Alike, Known, Contained, Chunked, Heard, Serve, Who, Tag;
    hide ConformsThroughout, ChunkFits, HeldThroughout;
    HeardKeeps(r, c, rx);
    HeardKeeps(View(t), c, rx);
    HeardKeepsMarried(r, c, rx);
    HeardAlike(View(t), r, c, rx);
    HeldFromEnd(Heard(r, c, rx), c, lucks, 0, rules);
    HeldThroughoutAlike(Heard(View(t), c, rx), Heard(r, c, rx), c, lucks, 0, rules);
    ChunkIsServiced(t, i, data, lucks, rules);
    ServeAlike(Heard(View(t), c, rx), Heard(r, c, rx), c, lucks, 0, rules);
    AlikeTwice(View(Chunked(t, i, data, lucks, rules)), Serviced(View(t), c, data, lucks, rules), Serviced(r, c, data, lucks, rules));
  }

  /**
   * One happening to the port, and to the relay: its clients, in the relay's own eyes, follow the protocol, and its
   * own buffers have not outgrown the port's. `fitting` says that checksums found a place in their tables.
   */
  ghost predicate Onward(before: Tables, was: Relay, h: Happening, rules: Settings, fitting: bool, t: Tables, r: Relay) {
    && Fair(before, h)
    && (Known(was) && Can(was, DoingOf(before, h)) ==> Decent(was, DoingOf(before, h), rules))
    && (fitting ==> Fitting(before, h, rules))
    && t == Happened(before, h, rules) && r == Followed(was, DoingOf(before, h), rules) && Contained(r)
  }

  /** A fair run of the port, and the relay's own run on the same doings. */
  ghost predicate Together(hs: seq<Happening>, rules: Settings, fitting: bool, t: Tables, r: Relay)
    decreases |hs|, 0
  {
    if hs == [] then Blank(t) && r == EMPTY
    else AfterOne(hs[..|hs| - 1], hs[|hs| - 1], rules, fitting, t, r)
  }

  ghost predicate AfterOne(hs: seq<Happening>, h: Happening, rules: Settings, fitting: bool, t: Tables, r: Relay)
    decreases |hs|, 1
  {
    exists before: Tables, was: Relay ::
      Together(hs, rules, fitting, before, was) && Onward(before, was, h, rules, fitting, t, r)
  }

  /**
   * The slot relay simulates the relay: after any fair run of conforming clients, however long, whatever slots
   * were reused and however full the checksum tables, as long as the relay's own transmit buffers have not outgrown
   * the port's, it says the same bytes to every connection and stands in every other way where the relay stands;
   * and where every checksum fitted, in every way whatever.
   */
  lemma {:induction false} SlotsSimulate(hs: seq<Happening>, rules: Settings, fitting: bool, t: Tables, r: Relay)
    requires Together(hs, rules, fitting, t, r)
    ensures Sound(t) && Tidy(t) && Alike(View(t), r) && Lawful(r)
    ensures fitting ==> View(t) == r
  {
    hide Blank, Sound, View, Happened, Followed, Fair, Tidy, Lawful, Alike, Can, Decent, DoingOf, Fitting, Contained;
    if hs == [] {
      BlankIsEmpty(t);
      AlikeSelf(EMPTY);
    } else {
      var before: Tables, was: Relay :|
        Together(hs[..|hs| - 1], rules, fitting, before, was) && Onward(before, was, hs[|hs| - 1], rules, fitting, t, r);
      SlotsSimulate(hs[..|hs| - 1], rules, fitting, before, was);
      HappeningIsFollowed(before, was, hs[|hs| - 1], rules);
    }
  }

  /** So what any connection has been told and not yet taken is, byte for byte, what the relay has for it. */
  lemma SameBytes(hs: seq<Happening>, rules: Settings, fitting: bool, t: Tables, r: Relay, i: nat)
    requires Together(hs, rules, fitting, t, r) && Used(t, i)
    ensures |t.slots[i].txbuf| >= t.slots[i].txLen && TagAt(t, i) in r.conns
    ensures r.conns[TagAt(t, i)].tx == t.slots[i].txbuf[..t.slots[i].txLen]
  {
    SlotsSimulate(hs, rules, fitting, t, r);
    SlotsFit(t, i);
    SlotView(t, i);
    hide Together, Conns, Linked, Listed, Tag, Lawful;
  }
}
