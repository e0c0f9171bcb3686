/** What each operation of the slot relay does to its tables, and that it is what the relay does. */
module SlotSteps {
  import opened Bytes
  import opened Ordered
  import opened Framing
  import opened Verdict
  import opened Relay
  import opened Passage
  import opened Bytewise
  import opened SlotTable
  import Pairing

  // ---- sending ----

  /** Bytes at the end of the transmit buffer; past its end it is only made to look full. */
  function Appended(s: Slot, data: seq<byte>): (a: Slot)
    requires Fit(s)
    ensures Fit(a) && a == s.(txbuf := a.txbuf, txLen := a.txLen)
  {
    var n := s.txLen + |data|;
    if n > TX_CAPACITY then s.(txLen := TX_CAPACITY)
    else s.(txbuf := s.txbuf[..s.txLen] + data + s.txbuf[n..], txLen := n)
  }

  predicate Room(s: Slot, n: nat) {
    s.txLen + n <= TX_CAPACITY
  }

  lemma AppendedTx(s: Slot, data: seq<byte>)
    requires Fit(s) && Room(s, |data|)
    ensures var a := Appended(s, data); a.txbuf[..a.txLen] == s.txbuf[..s.txLen] + data
  {}

  function SendTo(t: Tables, i: nat, data: seq<byte>): Tables
    requires Sound(t) && Used(t, i)
  {
    Written(t, i, Appended(t.slots[i], data))
  }

  /** The same slots, as far as who is in them goes. */
  predicate SameFlags(ss: seq<Slot>, ts: seq<Slot>) {
    && |ts| == |ss|
    && forall j | 0 <= j < |ss| :: ts[j].dead == ss[j].dead && ts[j].gen == ss[j].gen && ts[j].inUse == ss[j].inUse
  }

  lemma SendIsSend(t: Tables, i: nat, data: seq<byte>)
    requires Sound(t) && Used(t, i)
    ensures Sound(SendTo(t, i, data)) && Who(t, i) in View(t).conns
    ensures Room(t.slots[i], |data|) ==> View(SendTo(t, i, data)) == Send(View(t), Who(t, i), data)
  {
    WriteView(t, i, Appended(t.slots[i], data));
    SlotView(t, i);
    if Room(t.slots[i], |data|) {
      AppendedTx(t.slots[i], data);
    }
    hide Appended, View, Tag, Listed;
  }

  // ---- dropping ----

  function Buried(t: Tables, i: nat): Tables
    requires Used(t, i)
  {
    Written(t, i, t.slots[i].(dead := true))
  }

  /** Marking a slot as dropped changes nothing anybody can see. */
  lemma BuryIsUnseen(t: Tables, i: nat)
    requires Sound(t) && Used(t, i)
    ensures Sound(Buried(t, i)) && View(Buried(t, i)) == View(t) && Who(Buried(t, i), i) == Who(t, i)
  {
    WriteView(t, i, t.slots[i].(dead := true));
    SlotView(t, i);
    var conns := View(t).conns;
    hide View, Tag, Listed;
    SameMap(conns, conns[Who(t, i) := conns[Who(t, i)]]);
  }

  /** A connection with its link cut. */
  function Unlinked(r: Relay, p: Id): Relay
    requires p in r.conns
  {
    r.(conns := r.conns[p := r.conns[p].(partner := None)])
  }

  function CutLink(t: Tables, p: nat): Tables
    requires Used(t, p)
  {
    Written(t, p, t.slots[p].(partner := -1))
  }

  lemma CutIsUnlink(t: Tables, p: nat)
    requires Sound(t) && Used(t, p)
    ensures Sound(CutLink(t, p)) && Who(CutLink(t, p), p) == Who(t, p) && Who(t, p) in View(t).conns
    ensures View(CutLink(t, p)) == Unlinked(View(t), Who(t, p))
  {
    WriteView(t, p, t.slots[p].(partner := -1));
    SlotView(t, p);
    hide View, Tag, Listed;
  }

  /** The partner is told, and its link is cut; the slot's own link is left standing. */
  function Abandoned(t: Tables, i: nat): Tables
    requires Sound(t) && Used(t, i)
  {
    var p := t.slots[i].partner;
    if p < 0 then t
    else
      CutIsUnlink(t, p);
      SendTo(CutLink(t, p), p, PeerLeft())
  }

  lemma PartnerIn(t: Tables, i: nat)
    requires Sound(t) && Used(t, i)
    ensures t.slots[i].partner >= 0 ==> Used(t, t.slots[i].partner) && t.slots[i].partner != i
  {}

  lemma SlotsFit(t: Tables, i: nat)
    requires Sound(t) && i < SLOTS
    ensures |t.slots| == SLOTS && Fit(t.slots[i])
  {}

  function Bereaved(r: Relay, c: Id): Relay
    requires Known(r) && c in r.conns
  {
    match r.conns[c].partner
    case None => r
    case Some(p) => Send(Unlinked(r, p), p, PeerLeft())
  }

  predicate RoomAt(t: Tables, p: int, n: nat) {
    Used(t, p) ==> Room(t.slots[p], n)
  }

  lemma AbandonIsBereave(t: Tables, i: nat)
    requires Sound(t) && Used(t, i) && RoomAt(t, t.slots[i].partner, 16)
    ensures Sound(Abandoned(t, i)) && Known(View(t)) && Who(t, i) in View(t).conns
    ensures View(Abandoned(t, i)) == Bereaved(View(t), Who(t, i))
  {
    assert |PeerLeft()| == 16;
    var p := t.slots[i].partner;
    PartnerIn(t, i);
    hide Sound, View, Who, Known, PeerLeft, Send, Unlinked, SendTo;
    LedgersOf(t, i);
    if p >= 0 {
      CutIsUnlink(t, p);
      SendIsSend(CutLink(t, p), p, PeerLeft());
    }
  }

  lemma AbandonKeepsFlags(t: Tables, i: nat)
    requires Sound(t) && Used(t, i)
    ensures var a := Abandoned(t, i); a.order == t.order && a.claims == t.claims && SameFlags(t.slots, a.slots)
  {
    hide Appended, PeerLeft, Tag, Listed;
  }

  // ---- the name table ----

  /** Where a name stands in the table, or its end. */
  function ClaimOf(cs: seq<Claim>, name: Name, from: nat): (i: nat)
    requires from <= |cs|
    ensures from <= i <= |cs| && (i < |cs| ==> cs[i].name == name) && forall j | from <= j < i :: cs[j].name != name
    decreases |cs| - from
  {
    if from == |cs| || cs[from].name == name then from else ClaimOf(cs, name, from + 1)
  }

  lemma ClaimIsIndex(cs: seq<Claim>, name: Name)
    ensures var i := ClaimOf(cs, name, 0);
            if i < |cs| then IndexOf(NamesOf(cs), name) == i else !Has(NamesOf(cs), name)
  {
    var i := ClaimOf(cs, name, 0);
    var d := NamesOf(cs);
    var k := IndexOf(d, name);
    assert forall j | 0 <= j < |cs| :: d[j].key == cs[j].name;
    if i < |cs| {
      assert d[i].key == name;
    }
    hide Tag, IndexOf, ClaimOf, NamesOf;
  }

  /** A name is claimed over an old claim to it, or at the end; on a full table the oldest claim makes room. */
  function NameGiven(cs: seq<Claim>, c: Claim): seq<Claim> {
    var i := ClaimOf(cs, c.name, 0);
    if i < |cs| then cs[i := c]
    else if |cs| >= NAME_SLOTS then cs[1..] + [c]
    else cs + [c]
  }

  /** A name is given up, but only by the connection that holds it. */
  function NameTaken(cs: seq<Claim>, name: Name, ci: nat, gen: nat): seq<Claim> {
    var i := ClaimOf(cs, name, 0);
    if i < |cs| && cs[i].ci == ci && cs[i].gen == gen then RemoveAt(cs, i) else cs
  }

  lemma GiveIsPut(cs: seq<Claim>, c: Claim)
    requires |cs| < NAME_SLOTS
    ensures NamesOf(NameGiven(cs, c)) == Put(NamesOf(cs), c.name, Tag(c.ci, c.gen))
  {
    ClaimIsIndex(cs, c.name);
    var i := ClaimOf(cs, c.name, 0);
    hide Tag, IndexOf, ClaimOf;
    if i < |cs| {
      assert NamesOf(cs[i := c]) == NamesOf(cs)[i := Entry(c.name, Tag(c.ci, c.gen))];
    } else {
      assert NamesOf(cs + [c]) == NamesOf(cs) + [Entry(c.name, Tag(c.ci, c.gen))];
    }
  }

  lemma TakeIsPop(cs: seq<Claim>, name: Name, ci: nat, gen: nat)
    requires ci < SLOTS && forall k | 0 <= k < |cs| :: cs[k].ci < SLOTS
    ensures var d := NamesOf(cs);
            NamesOf(NameTaken(cs, name, ci, gen)) ==
            if Has(d, name) && Get(d, name) == Tag(ci, gen) then Pop(d, name) else d
    ensures var left := NameTaken(cs, name, ci, gen); forall k | 0 <= k < |left| :: left[k].ci < SLOTS
  {
    hide IndexOf, ClaimOf;
    ClaimIsIndex(cs, name);
    var i := ClaimOf(cs, name, 0);
    if i < |cs| {
      if Tag(cs[i].ci, cs[i].gen) == Tag(ci, gen) {
        TagIsUnique(cs[i].ci, cs[i].gen, ci, gen);
        assert NamesOf(RemoveAt(cs, i)) == RemoveAt(NamesOf(cs), i);
      }
    }
    hide Tag;
  }

  // ---- the order ----

  function PlaceOf(os: seq<nat>, i: nat, from: nat): (k: nat)
    requires from <= |os|
    ensures from <= k <= |os| && (k < |os| ==> os[k] == i) && forall j | from <= j < k :: os[j] != i
    decreases |os| - from
  {
    if from == |os| || os[from] == i then from else PlaceOf(os, i, from + 1)
  }

  function Delisted(os: seq<nat>, i: nat): seq<nat> {
    var k := PlaceOf(os, i, 0);
    if k < |os| then RemoveAt(os, k) else os
  }

  /** Taking a slot out of the order takes its connection out of the live ones. */
  lemma {:induction false} RemoveIsWithout(ss: seq<Slot>, os: seq<nat>, k: nat)
    requires |ss| == SLOTS && (forall j | 0 <= j < |os| :: os[j] < SLOTS)
    requires k < |os| && forall j | 0 <= j < |os| && j != k :: os[j] != os[k]
    ensures forall j | 0 <= j < |RemoveAt(os, k)| :: RemoveAt(os, k)[j] < SLOTS
    ensures Without(LiveOf(ss, os), IdOf(ss, os[k])) == LiveOf(ss, RemoveAt(os, k))
    decreases |os|
  {
    var (n, live) := (|os| - 1, LiveOf(ss, os));
    hide Tag;
    assert live[..n] == LiveOf(ss, os[..n]);
    if k == n {
      assert RemoveAt(os, k) == os[..n];
      hide LiveOf, RemoveAt;
    } else {
      assert live[n] != live[k] by { OtherTag(ss, os[n], os[k]); }
      assert os[..n][k] == os[k];
      RemoveIsWithout(ss, os[..n], k);
      assert RemoveAt(os, k) == RemoveAt(os[..n], k) + [os[n]];
      LiveOfMore(ss, RemoveAt(os[..n], k), os[n]);
      hide LiveOf, RemoveAt;
    }
  }

  lemma OtherTag(ss: seq<Slot>, i: nat, j: nat)
    requires |ss| == SLOTS && i < SLOTS && j < SLOTS && i != j
    ensures IdOf(ss, i) != IdOf(ss, j)
  {
    if IdOf(ss, i) == IdOf(ss, j) {
      TagIsUnique(i, ss[i].gen, j, ss[j].gen);
    }
  }

  lemma LiveOfMore(ss: seq<Slot>, os: seq<nat>, i: nat)
    requires (forall k | 0 <= k < |os| :: os[k] < |ss|) && i < |ss|
    ensures LiveOf(ss, os + [i]) == LiveOf(ss, os) + [IdOf(ss, i)]
  {
    hide Tag;
  }

  lemma {:induction false} WithoutNobody(ss: seq<Slot>, os: seq<nat>, i: nat)
    requires |ss| == SLOTS && i < SLOTS && (forall j | 0 <= j < |os| :: os[j] < SLOTS && os[j] != i)
    ensures Without(LiveOf(ss, os), IdOf(ss, i)) == LiveOf(ss, os)
  {
    if os != [] {
      var n := |os| - 1;
      assert LiveOf(ss, os)[..n] == LiveOf(ss, os[..n]);
      WithoutNobody(ss, os[..n], i);
      if IdOf(ss, os[n]) == IdOf(ss, i) {
        TagIsUnique(os[n], ss[os[n]].gen, i, ss[i].gen);
      }
    }
  }

  /** Taking one of a list without repeats takes exactly it. */
  lemma RemovedIn(os: seq<nat>, k: nat)
    requires k < |os| && forall i, j | 0 <= i < j < |os| :: os[i] != os[j]
    ensures forall i :: i in RemoveAt(os, k) <==> i in os && i != os[k]
    ensures var left := RemoveAt(os, k); forall i, j | 0 <= i < j < |left| :: left[i] != left[j]
  {
    var left := RemoveAt(os, k);
    forall i | i in os && i != os[k]
      ensures i in left
    {
      var j :| 0 <= j < |os| && os[j] == i;
      assert left[if j < k then j else j - 1] == i;
    }
    forall i | i in left
      ensures i in os && i != os[k]
    {
      var j :| 0 <= j < |left| && left[j] == i;
      assert os[if j < k then j else j + 1] == i;
    }
  }

  lemma DelistIsWithout(ss: seq<Slot>, os: seq<nat>, i: nat)
    requires |ss| == SLOTS && Listed(ss, os) && i < SLOTS && ss[i].inUse && ss[i].dead
    ensures var left := Delisted(os, i);
            && Listed(ss, left) && i !in left && (forall j :: j in left ==> j in os)
            && LiveOf(ss, left) == Without(LiveOf(ss, os), IdOf(ss, i))
  {
    var k := PlaceOf(os, i, 0);
    hide PlaceOf, LiveOf, Without, Tag;
    if k < |os| {
      RemovedIn(os, k);
      RemoveIsWithout(ss, os, k);
      hide RemoveAt;
      var left := RemoveAt(os, k);
      forall j | 0 <= j < |left|
        ensures left[j] < SLOTS && ss[left[j]].inUse
      {
        assert left[j] in left;
      }
    } else {
      WithoutNobody(ss, os, i);
    }
  }

  // ---- the whole of a drop ----

  function Renounced(t: Tables, i: nat): Tables
    requires Used(t, i)
  {
    if t.slots[i].name == [] then t
    else t.(claims := NameTaken(t.claims, t.slots[i].name, i, t.slots[i].gen))
  }

  function Unnamed(r: Relay, c: Id): Relay
    requires c in r.conns
  {
    var name := r.conns[c].name;
    if name != [] && Has(r.names, name) && Get(r.names, name) == c then r.(names := Pop(r.names, name)) else r
  }

  lemma RenounceIsUnname(t: Tables, i: nat)
    requires Sound(t) && Used(t, i)
    ensures Sound(Renounced(t, i)) && Who(t, i) in View(t).conns && View(Renounced(t, i)) == Unnamed(View(t), Who(t, i))
  {
    SlotView(t, i);
    TakeIsPop(t.claims, t.slots[i].name, i, t.slots[i].gen);
    hide Conns, Linked, Listed, LiveOf, NamesOf, IndexOf, Tag, RemoveAt, NameTaken;
  }

  function Dropped(t: Tables, i: nat): Tables
    requires Sound(t) && Used(t, i)
  {
    if t.slots[i].dead then t
    else
      BuryIsUnseen(t, i);
      RenounceIsUnname(Buried(t, i), i);
      var a := Abandoned(Renounced(Buried(t, i), i), i);
      a.(order := Delisted(a.order, i))
  }

  lemma DelistView(t: Tables, i: nat)
    requires Sound(t) && Used(t, i) && t.slots[i].dead
    ensures var d := t.(order := Delisted(t.order, i));
            Sound(d) && View(d) == View(t).(live := Without(View(t).live, Who(t, i)))
  {
    DelistIsWithout(t.slots, t.order, i);
    hide Conns, Linked, Listed, LiveOf, Without, Delisted, Tag;
  }

  lemma DelistTidies(t: Tables, a: Tables, i: nat)
    requires Sound(t) && Tidy(t) && Used(t, i) && Sound(a) && a.order == t.order && SameFlags(Buried(t, i).slots, a.slots)
    ensures Tidy(a.(order := Delisted(a.order, i)))
  {
    DelistIsWithout(a.slots, a.order, i);
    var left := Delisted(a.order, i);
    hide Delisted, Linked, Tag;
    forall k | 0 <= k < |left|
      ensures left[k] < |a.slots| && !a.slots[left[k]].dead
    {
      assert left[k] in left;
    }
  }

  /** The relay's drop, a step at a time. */
  lemma DropSteps(r: Relay, c: Id)
    requires Known(r) && c in r.conns && c in r.live
    ensures Known(Unnamed(r, c))
    ensures var b := Bereaved(Unnamed(r, c), c); Drop(r, c) == b.(live := Without(b.live, c))
  {
    hide PeerLeft, IndexOf, Without;
  }

  /** The slot marked and its name given back. */
  lemma QuitIsUnname(t: Tables, i: nat)
    requires Sound(t) && Used(t, i) && RoomAt(t, t.slots[i].partner, 16)
    ensures var n := Renounced(Buried(t, i), i);
            && Sound(n) && Used(n, i) && n.slots == Buried(t, i).slots && n.order == t.order && n.slots[i].dead
            && RoomAt(n, n.slots[i].partner, 16) && Who(n, i) == Who(t, i)
            && Who(t, i) in View(t).conns && View(n) == Unnamed(View(t), Who(t, i))
  {
    hide View, Linked, Listed, Tag, Unnamed, NameTaken, Conns;
    BuryIsUnseen(t, i);
    RenounceIsUnname(Buried(t, i), i);
  }

  lemma QuitThenLeave(t: Tables, n: Tables, i: nat)
    requires Sound(t) && Tidy(t) && Used(t, i) && Sound(n) && Used(n, i) && n.slots == Buried(t, i).slots
    requires n.order == t.order && n.slots[i].dead && RoomAt(n, n.slots[i].partner, 16)
    ensures Known(View(n)) && Who(n, i) in View(n).conns
    ensures var a := Abandoned(n, i);
            var d := a.(order := Delisted(a.order, i));
            && Sound(d) && Tidy(d)
            && View(d) == var r := Bereaved(View(n), Who(n, i)); r.(live := Without(r.live, Who(n, i)))
  {
    AbandonKeepsFlags(n, i);
    AbandonIsBereave(n, i);
    var a := Abandoned(n, i);
    assert Used(a, i) && a.slots[i].dead && Who(a, i) == Who(n, i);
    hide View, Sound, Known, Linked, Listed, Tag, Room, Bereaved, Without, Delisted, Abandoned, SameFlags;
    DelistTidies(t, a, i);
    DelistView(a, i);
  }

  /** Dropping a slot is dropping its connection. */
  lemma DropIsDrop(t: Tables, i: nat)
    requires Sound(t) && Tidy(t) && Used(t, i) && (t.slots[i].dead || RoomAt(t, t.slots[i].partner, 16))
    ensures Sound(Dropped(t, i)) && Tidy(Dropped(t, i)) && Known(View(t)) && Who(t, i) in View(t).conns
    ensures View(Dropped(t, i)) == Drop(View(t), Who(t, i))
  {
    ViewIsKnown(t);
    SlotView(t, i);
    LiveIff(t, i);
    hide View, Sound, Known, Linked, Tidy, Tag, RoomAt, Unnamed, Bereaved, Without, Delisted, Abandoned, Renounced, Buried;
    if !t.slots[i].dead {
      QuitIsUnname(t, i);
      QuitThenLeave(t, Renounced(Buried(t, i), i), i);
      DropSteps(View(t), Who(t, i));
    }
    hide Drop;
  }

  lemma TxIs(t: Tables, i: nat)
    requires Sound(t) && Used(t, i)
    ensures Who(t, i) in View(t).conns && |View(t).conns[Who(t, i)].tx| == t.slots[i].txLen
  {
    SlotView(t, i);
    SlotsFit(t, i);
    hide Conns, Linked, Listed, Tag;
  }

  /** A drop the relay's buffers can hold is one the partner's slot has room for. */
  lemma DropRoom(t: Tables, i: nat)
    requires Sound(t) && Tidy(t) && Used(t, i) && Known(View(t)) && Who(t, i) in View(t).conns
    requires Contained(Drop(View(t), Who(t, i)))
    ensures t.slots[i].dead || RoomAt(t, t.slots[i].partner, 16)
  {
    LiveIff(t, i);
    LedgersOf(t, i);
    PartnerIn(t, i);
    hide View, Sound, Known, Drop, Who, Tidy;
    if !t.slots[i].dead && t.slots[i].partner >= 0 {
      DropTells(View(t), Who(t, i));
      TxIs(t, t.slots[i].partner);
    }
  }

  // ---- pairing ----

  predicate Idle(t: Tables, o: nat)
    requires o < |t.slots|
  {
    t.slots[o].name != [] && t.slots[o].partner < 0
  }

  /** The better of the best slot so far and one more. */
  function BetterOf(t: Tables, best: int, o: nat, c: nat): int
    requires o < |t.slots| && best < |t.slots|
  {
    if o == c || !Idle(t, o) then best
    else if best < 0 || t.slots[o].born < t.slots[best].born then o
    else best
  }

  /** The oldest waiting slot of the first n listed, other than c; -1 if there is none. */
  function Chosen(t: Tables, n: nat, c: nat): (o: int)
    requires Sound(t) && n <= |t.order|
    ensures -1 <= o < SLOTS && (o >= 0 ==> t.slots[o].inUse && o != c && Idle(t, o))
  {
    if n == 0 then -1 else BetterOf(t, Chosen(t, n - 1, c), t.order[n - 1], c)
  }

  lemma IdleIsWaiting(t: Tables, o: nat)
    requires Sound(t) && Used(t, o)
    ensures Who(t, o) in View(t).conns && View(t).conns[Who(t, o)].born == t.slots[o].born
    ensures Idle(t, o) <==> Waiting(View(t), Who(t, o))
  {
    SlotView(t, o);
    hide Conns, Listed, Tag;
  }

  /** The better of the best so far and one more. */
  function Better(r: Relay, best: Option<Id>, o: Id, c: Id): Option<Id>
    requires o in r.conns && (best.Some? ==> best.value in r.conns)
  {
    if o == c || !Waiting(r, o) then best
    else if best.None? || r.conns[o].born < r.conns[best.value].born then Some(o)
    else best
  }

  /** The oldest waiting of the first n live, other than c. */
  ghost predicate IsOldest(r: Relay, n: nat, c: Id, o: Option<Id>) {
    && Known(r) && n <= |r.live| && (forall i | 0 <= i < n :: r.live[..n][i] in r.conns)
    && o == Oldest(r, r.live[..n], c)
  }

  lemma OldestStep(r: Relay, n: nat, m: nat, c: Id, best: Option<Id>)
    requires IsOldest(r, n, c, best) && n < |r.live| && m == n + 1
    ensures r.live[n] in r.conns && (best.Some? ==> best.value in r.conns)
    ensures IsOldest(r, m, c, Better(r, best, r.live[n], c))
  {
    var ids := r.live[..m];
    assert ids[..n] == r.live[..n] && ids[n] == r.live[n];
    assert forall i | 0 <= i < n :: r.live[..n][i] == r.live[i];
    hide Waiting;
  }

  /** A slot number, or -1, as a connection or none. */
  function Ref(t: Tables, o: int): Option<Id>
    requires Sound(t) && o < SLOTS
  {
    if o < 0 then None else Some(Who(t, o))
  }

  lemma BetterSlot(t: Tables, best: int, n: nat, c: nat)
    requires Sound(t) && best < SLOTS && n < |t.order| && Used(t, c) && (best >= 0 ==> Used(t, best))
    ensures |View(t).live| == |t.order| && View(t).live[n] in View(t).conns
    ensures best >= 0 ==> Who(t, best) in View(t).conns
    ensures BetterOf(t, best, t.order[n], c) < SLOTS
    ensures Better(View(t), Ref(t, best), View(t).live[n], Who(t, c)) == Ref(t, BetterOf(t, best, t.order[n], c))
  {
    var o := t.order[n];
    LiveAt(t, n);
    hide View, Sound, Who, Waiting, Idle;
    IdleIsWaiting(t, o);
    if best >= 0 {
      IdleIsWaiting(t, best);
    }
    if o != c {
      TagsDiffer(t, o, c);
    }
  }

  lemma LiveAt(t: Tables, n: nat)
    requires Sound(t) && n < |t.order|
    ensures |View(t).live| == |t.order| && Used(t, t.order[n]) && View(t).live[n] == Who(t, t.order[n])
  {
    hide Conns, Linked, Tag;
    assert |t.slots| == SLOTS by { SoundSize(t); }
  }

  lemma SoundSize(t: Tables)
    requires Sound(t)
    ensures |t.slots| == SLOTS
  {}

  lemma ChosenStep(t: Tables, best: int, n: nat, m: nat, c: nat)
    requires Sound(t) && best < SLOTS && n < |t.order| && m == n + 1 && Used(t, c) && (best >= 0 ==> Used(t, best))
    requires IsOldest(View(t), n, Who(t, c), Ref(t, best))
    ensures BetterOf(t, best, t.order[n], c) < SLOTS
    ensures IsOldest(View(t), m, Who(t, c), Ref(t, BetterOf(t, best, t.order[n], c)))
  {
    hide View, Sound, Who, Better, BetterOf, IsOldest, Ref;
    BetterSlot(t, best, n, c);
    OldestStep(View(t), n, m, Who(t, c), Ref(t, best));
  }

  lemma NoneOldest(t: Tables, c: nat)
    requires Sound(t) && c < SLOTS && Known(View(t))
    ensures IsOldest(View(t), 0, Who(t, c), Ref(t, -1))
  {
    hide Sound, View, Known, Who;
  }

  lemma {:induction false} ChosenIsOldest(t: Tables, n: nat, c: nat)
    requires Sound(t) && n <= |t.order| && Used(t, c) && Known(View(t))
    ensures IsOldest(View(t), n, Who(t, c), Ref(t, Chosen(t, n, c)))
  {
    hide View, Sound, Who, BetterOf, IsOldest, Known, Ref, Idle;
    if n == 0 {
      NoneOldest(t, c);
    } else {
      ChosenIsOldest(t, n - 1, c);
      ChosenStep(t, Chosen(t, n - 1, c), n - 1, n, c);
    }
  }

  /** A slot entering a match. */
  function Entered(s: Slot, partner: int, role: int, start: seq<byte>): Slot
    requires Fit(s)
  {
    Appended(s.(partner := partner, role := role, crc := []), start)
  }

  function Matched(t: Tables, h: nat, g: nat, seed: nat, rules: Settings): Tables
    requires Sound(t) && Used(t, h) && Used(t, g)
  {
    var toHost := StartFrame(0, seed, rules, t.slots[g].name);
    var toGuest := StartFrame(1, seed, rules, t.slots[h].name);
    t.(slots := t.slots[h := Entered(t.slots[h], g, 0, toHost)][g := Entered(t.slots[g], h, 1, toGuest)],
       stats := t.stats.(matches := t.stats.matches + 1))
  }

  lemma EnteredConn(ss: seq<Slot>, i: nat, partner: nat, role: int, start: seq<byte>)
    requires Linked(ss) && i < SLOTS && partner < SLOTS && ss[i].inUse && ss[partner].inUse && partner != i
    requires Room(ss[i], |start|)
    ensures Replaces(ss, i, Entered(ss[i], partner, role, start)) && Linked(ss[i := Entered(ss[i], partner, role, start)])
    ensures ConnOf(ss[i := Entered(ss[i], partner, role, start)], i)
         == var c := ConnOf(ss, i);
            c.(partner := Some(IdOf(ss, partner)), role := role, ledger := c.ledger.(crc := []), tx := c.tx + start)
  {
    var s := ss[i].(partner := partner, role := role, crc := []);
    AppendedTx(s, start);
    hide Tag, Appended;
    WriteLeaves(ss, i, Entered(ss[i], partner, role, start));
  }

  /** A connection entering a match. */
  function Joined(r: Relay, c: Id, p: Id, role: int, start: seq<byte>): Relay
    requires c in r.conns
  {
    var conn := r.conns[c];
    r.(conns := r.conns[c := conn.(partner := Some(p), role := role, ledger := conn.ledger.(crc := []), tx := conn.tx + start)])
  }

  lemma PairSteps(r: Relay, h: Id, g: Id, seed: nat, rules: Settings)
    requires Known(r) && h in r.conns && g in r.conns && h != g
    ensures var a := Joined(r, h, g, 0, StartFrame(0, seed, rules, r.conns[g].name));
            var b := Joined(a, g, h, 1, StartFrame(1, seed, rules, r.conns[h].name));
            Pair(r, h, g, seed, rules) == b.(stats := b.stats.(matches := b.stats.matches + 1))
  {
    hide StartFrame;
  }

  lemma EnterIsJoin(t: Tables, i: nat, partner: nat, role: int, start: seq<byte>)
    requires Sound(t) && Used(t, i) && Used(t, partner) && partner != i && Room(t.slots[i], |start|)
    ensures var s := Written(t, i, Entered(t.slots[i], partner, role, start));
            && Sound(s) && (forall j: nat | j < SLOTS :: Who(s, j) == Who(t, j)) && Who(t, i) in View(t).conns
            && View(s) == Joined(View(t), Who(t, i), Who(t, partner), role, start)
  {
    EnteredConn(t.slots, i, partner, role, start);
    WriteView(t, i, Entered(t.slots[i], partner, role, start));
    SlotView(t, i);
    hide View, Conns, Linked, Listed, Tag, ConnOf, Entered, Replaces;
  }

  lemma StartIsShort(role: byte, seed: nat, rules: Settings, them: Name)
    requires |them| <= 8
    ensures |StartFrame(role, seed, rules, them)| == 15
  {}

  lemma NameOf(t: Tables, i: nat)
    requires Sound(t) && Used(t, i)
    ensures Who(t, i) in View(t).conns && View(t).conns[Who(t, i)].name == t.slots[i].name && |t.slots[i].name| <= 8
  {
    SlotView(t, i);
    hide Conns, Listed, Tag;
  }

  lemma MatchIsPair(t: Tables, h: nat, g: nat, seed: nat, rules: Settings)
    requires Sound(t) && Used(t, h) && Used(t, g) && h != g && Room(t.slots[h], 15) && Room(t.slots[g], 15)
    ensures Sound(Matched(t, h, g, seed, rules)) && Known(View(t)) && Who(t, h) != Who(t, g)
    ensures Who(t, h) in View(t).conns && Who(t, g) in View(t).conns
    ensures View(Matched(t, h, g, seed, rules)) == Pair(View(t), Who(t, h), Who(t, g), seed, rules)
  {
    ViewIsKnown(t);
    NameOf(t, h);
    NameOf(t, g);
    TagsDiffer(t, h, g);
    var (toHost, toGuest) := (StartFrame(0, seed, rules, t.slots[g].name), StartFrame(1, seed, rules, t.slots[h].name));
    StartIsShort(0, seed, rules, t.slots[g].name);
    StartIsShort(1, seed, rules, t.slots[h].name);
    PairSteps(View(t), Who(t, h), Who(t, g), seed, rules);
    EnterIsJoin(t, h, g, 0, toHost);
    var a := Written(t, h, Entered(t.slots[h], g, 0, toHost));
    EnteredStays(t, h, g, toHost);
    EnterIsJoin(a, g, h, 1, toGuest);
    var b := Written(a, g, Entered(a.slots[g], h, 1, toGuest));
    CountView(b, b.stats.(matches := b.stats.matches + 1));
    hide Sound, View, Who, Known, Joined, Pair, Entered, StartFrame, Room;
  }

  lemma TagsDiffer(t: Tables, h: nat, g: nat)
    requires Sound(t) && Used(t, h) && Used(t, g) && h != g
    ensures Who(t, h) != Who(t, g)
  {
    if Who(t, h) == Who(t, g) {
      TagIsUnique(h, t.slots[h].gen, g, t.slots[g].gen);
    }
  }

  lemma EnteredStays(t: Tables, h: nat, g: nat, start: seq<byte>)
    requires Sound(t) && Used(t, h) && Used(t, g) && h != g
    ensures var a := Written(t, h, Entered(t.slots[h], g, 0, start));
            Used(a, h) && Used(a, g) && a.slots[g] == t.slots[g]
  {}

  function Paired(t: Tables, c: nat, seed: nat, rules: Settings): Tables
    requires Sound(t) && Used(t, c)
  {
    var o := Chosen(t, |t.order|, c);
    if o < 0 then t else Matched(t, o, c, seed, rules)
  }

  /** Room for the START of each of the two this pairs, if it pairs any. */
  predicate PairRoom(t: Tables, c: nat)
    requires Sound(t) && Used(t, c)
  {
    var o := Chosen(t, |t.order|, c);
    o >= 0 ==> Room(t.slots[c], 15) && Room(t.slots[o], 15)
  }

  lemma ChosenIsWhole(t: Tables, c: nat)
    requires Sound(t) && Used(t, c)
    ensures Known(View(t)) && Who(t, c) in View(t).conns
    ensures Oldest(View(t), View(t).live, Who(t, c)) == Ref(t, Chosen(t, |t.order|, c))
  {
    var n := |t.order|;
    WholeLive(t);
    IdleIsWaiting(t, c);
    ViewIsKnown(t);
    hide View, Sound, Who, Known, Waiting, Oldest, Chosen;
    ChosenIsOldest(t, n, c);
    WholeOldest(View(t), Who(t, c), Ref(t, Chosen(t, n, c)), n);
  }

  lemma PairIsTryPair(t: Tables, c: nat, seed: nat, rules: Settings)
    requires Sound(t) && Used(t, c) && PairRoom(t, c)
    ensures Sound(Paired(t, c, seed, rules)) && Known(View(t)) && Who(t, c) in View(t).conns
    ensures View(Paired(t, c, seed, rules)) == TryPair(View(t), Who(t, c), seed, rules)
  {
    hide View, Sound, Who, Known, Waiting, Matched, Pair, Oldest, Chosen;
    ChosenIsWhole(t, c);
    var o := Chosen(t, |t.order|, c);
    if o >= 0 {
      MatchIsPair(t, o, c, seed, rules);
    }
  }

  /** A pairing the relay's buffers can hold is one both slots have room for. */
  lemma PairRoomFrom(t: Tables, c: nat, seed: nat, rules: Settings)
    requires Sound(t) && Used(t, c) && Known(View(t)) && Who(t, c) in View(t).conns
    requires Contained(TryPair(View(t), Who(t, c), seed, rules))
    ensures PairRoom(t, c)
  {
    hide View, Sound, Who, Known, Waiting, Oldest, Chosen, TryPair;
    ChosenIsWhole(t, c);
    var o := Chosen(t, |t.order|, c);
    if o >= 0 {
      PairTells(View(t), Who(t, c), seed, rules);
      TxIs(t, c);
      TxIs(t, o);
    }
  }

  lemma PairTells(r: Relay, c: Id, seed: nat, rules: Settings)
    requires Known(r) && c in r.conns && Oldest(r, r.live, c).Some?
    ensures var (s, host) := (TryPair(r, c, seed, rules), Oldest(r, r.live, c).value);
            && host in r.conns && s.conns.Keys == r.conns.Keys
            && |s.conns[host].tx| == |r.conns[host].tx| + 15 && |s.conns[c].tx| == |r.conns[c].tx| + 15
  {
    Pairing.PairingTells(r, c, seed, rules);
    var host := Oldest(r, r.live, c).value;
    StartIsShort(0, seed, rules, r.conns[c].name);
    StartIsShort(1, seed, rules, r.conns[host].name);
    hide TryPair, Oldest, StartFrame;
  }

  lemma WholeLive(t: Tables)
    requires Sound(t)
    ensures |View(t).live| == |t.order|
  {
    hide Conns, Linked, Tag;
  }

  lemma WholeOldest(r: Relay, c: Id, o: Option<Id>, n: nat)
    requires IsOldest(r, n, c, o) && n == |r.live|
    ensures Oldest(r, r.live, c) == o
  {
    assert r.live[..n] == r.live;
    hide Oldest;
  }

  // ---- the lobby ----

  /** The rows of the first n listed slots, at most eight of them. */
  function LobbyRows(t: Tables, n: nat): (rows: (nat, seq<byte>))
    requires Sound(t) && n <= |t.order|
    ensures rows.0 <= LOBBY_MOST && |rows.1| == 9 * rows.0
  {
    if n == 0 then (0, [])
    else
      var (k, bytes) := LobbyRows(t, n - 1);
      var s := t.slots[t.order[n - 1]];
      if s.name == [] || k >= LOBBY_MOST then (k, bytes)
      else (k + 1, bytes + Row(s.name, s.partner >= 0))
  }

  lemma {:induction false} RowsAreLobby(t: Tables, n: nat)
    requires Sound(t) && n <= |t.order| && Known(View(t)) && |View(t).live| == |t.order|
    ensures Shows(View(t), n, LobbyRows(t, n).0, LobbyRows(t, n).1)
  {
    hide View, Sound, Known, Shows, Row;
    if n == 0 {
      NoRows(View(t));
    } else {
      ListedIs(t, n - 1);
      RowsAreLobby(t, n - 1);
      ShowsOneMore(View(t), n - 1, n, LobbyRows(t, n - 1).0, LobbyRows(t, n - 1).1);
    }
  }

  lemma ListedIs(t: Tables, n: nat)
    requires Sound(t) && n < |t.order|
    ensures |View(t).live| == |t.order| && View(t).live[n] in View(t).conns
    ensures var (c, s) := (View(t).conns[View(t).live[n]], t.slots[t.order[n]]);
            c.name == s.name && |c.name| <= 8 && (c.partner.Some? <==> s.partner >= 0)
  {
    SlotView(t, t.order[n]);
    assert View(t).live[n] == Who(t, t.order[n]);
    hide Conns, Linked, Tag;
  }

  function LobbyBytes(t: Tables): seq<byte>
    requires Sound(t)
  {
    var (n, rows) := LobbyRows(t, |t.order|);
    FrameBytes(Packet(LOBBY, [n as byte] + rows))
  }

  lemma LobbyIsLobby(t: Tables)
    requires Sound(t)
    ensures Known(View(t)) && LobbyBytes(t) == LobbyFrame(View(t))
  {
    ViewIsKnown(t);
    assert View(t).live[..|t.order|] == View(t).live;
    RowsAreLobby(t, |t.order|);
    hide View, Sound, Named, Rows, LobbyRows;
  }

  // ---- the checksums ----

  /** An old key keeps its place; a new one is appended, or, on a full table, takes the last place. */
  function SumsSet(d: seq<Entry<nat, byte>>, key: nat, val: byte): (e: seq<Entry<nat, byte>>)
    requires |d| <= CRC_SLOTS
    ensures |e| <= CRC_SLOTS
  {
    if Has(d, key) || |d| < CRC_SLOTS then Put(d, key, val) else d[..CRC_SLOTS - 1] + [Entry(key, val)]
  }

  function LedgerOf(s: Slot): Ledger {
    Ledger(s.crc, s.lap, s.last)
  }

  function WithLedger(s: Slot, l: Ledger): Slot {
    s.(crc := l.crc, lap := l.lap, last := l.last)
  }

  /** The sender's record entered under its true tick. */
  function Noted(l: Ledger, tick: byte, crc: byte): Ledger
    requires |l.crc| <= CRC_SLOTS
  {
    var c := Clocked(l, tick);
    c.(crc := SumsSet(c.crc, KeyOf(c), crc))
  }

  function Logged(t: Tables, i: nat, tick: byte, crc: byte): Tables
    requires Sound(t) && Used(t, i)
  {
    var s := t.slots[i];
    var noted := Noted(LedgerOf(s), tick, crc);
    var key := KeyOf(noted);
    var p := s.partner;
    if p < 0 || !Has(t.slots[p].crc, key) then
      Written(t, i, WithLedger(s, noted.(crc := Newest(noted.crc, KEPT))))
    else
      var q := t.slots[p];
      var same := Get(q.crc, key) == crc;
      var both := Written(Written(t, i, WithLedger(s, noted)), p, q.(crc := Pop(q.crc, key)));
      both.(stats := t.stats.(crcOk := if same then t.stats.crcOk + 1 else t.stats.crcOk,
                              crcBad := if same then t.stats.crcBad else t.stats.crcBad + 1))
  }

  lemma LedgerView(t: Tables, i: nat, l: Ledger)
    requires Sound(t) && Used(t, i) && |l.crc| <= CRC_SLOTS
    ensures var s := Written(t, i, WithLedger(t.slots[i], l));
            && Sound(s) && (forall j: nat | j < SLOTS :: Who(s, j) == Who(t, j)) && Who(t, i) in View(t).conns
            && View(t).conns[Who(t, i)].ledger == LedgerOf(t.slots[i])
            && View(s) == Ledgered(View(t), Who(t, i), l)
  {
    WriteView(t, i, WithLedger(t.slots[i], l));
    SlotView(t, i);
    hide View, Conns, Listed, Tag;
  }

  /** What the log needs of the two slots concerned. */
  lemma LedgersOf(t: Tables, i: nat)
    requires Sound(t) && Used(t, i)
    ensures Known(View(t)) && Who(t, i) in View(t).conns && View(t).conns[Who(t, i)].ledger == LedgerOf(t.slots[i])
    ensures View(t).stats == t.stats
    ensures var p := t.slots[i].partner;
            && View(t).conns[Who(t, i)].partner == (if p < 0 then None else Some(Who(t, p)))
            && (p >= 0 ==> Used(t, p) && p != i && Who(t, p) in View(t).conns
                           && View(t).conns[Who(t, p)].ledger == LedgerOf(t.slots[p]))
  {
    ViewIsKnown(t);
    SlotView(t, i);
    if t.slots[i].partner >= 0 {
      SlotView(t, t.slots[i].partner);
    }
    hide Conns, Listed, Tag;
  }

  /** The key a record of this slot is entered under. */
  function KeyAt(t: Tables, i: nat, tick: byte): nat
    requires i < |t.slots|
  {
    KeyOf(Clocked(LedgerOf(t.slots[i]), tick))
  }

  /** The table has a place for the record, or has it already. */
  predicate SumFits(t: Tables, i: nat, tick: byte)
    requires i < |t.slots|
  {
    |t.slots[i].crc| < CRC_SLOTS || Has(t.slots[i].crc, KeyAt(t, i, tick))
  }

  /** What the port's log does to the relay its tables stand for, full or not. */
  lemma LoggedView(t: Tables, i: nat, tick: byte, crc: byte)
    requires Sound(t) && Used(t, i)
    ensures Sound(Logged(t, i, tick, crc)) && Known(View(t)) && Who(t, i) in View(t).conns
    ensures var (r, c, noted) := (View(t), Who(t, i), Noted(LedgerOf(t.slots[i]), tick, crc));
            var (key, p) := (KeyAt(t, i, tick), View(t).conns[Who(t, i)].partner);
            && (p.Some? ==> p.value in r.conns && p.value != c)
            && View(Logged(t, i, tick, crc)) ==
               if p.None? || !Has(r.conns[p.value].ledger.crc, key) then Ledgered(r, c, noted.(crc := Newest(noted.crc, KEPT)))
               else
                 var theirs := r.conns[p.value].ledger;
                 var same := Get(theirs.crc, key) == crc;
                 Ledgered(Ledgered(r, c, noted), p.value, theirs.(crc := Pop(theirs.crc, key))).(
                   stats := r.stats.(crcOk := if same then r.stats.crcOk + 1 else r.stats.crcOk,
                                     crcBad := if same then r.stats.crcBad else r.stats.crcBad + 1))
  {
    hide View, Sound, Who, Known, Noted, Clocked, Put, IndexOf, Ledgered, Low, Pop, Newest, SumsSet;
    SlotsFit(t, i);
    NotedKey(LedgerOf(t.slots[i]), tick, crc);
    LedgersOf(t, i);
    var noted := Noted(LedgerOf(t.slots[i]), tick, crc);
    var p := t.slots[i].partner;
    hide Fit;
    TagsDifferIf(t, i, p);
    if p < 0 || !Has(t.slots[p].crc, KeyOf(noted)) {
      LedgerView(t, i, noted.(crc := Newest(noted.crc, KEPT)));
    } else {
      LogBoth(t, i, p, noted, KeyOf(noted), Get(t.slots[p].crc, KeyOf(noted)) == crc);
    }
  }

  lemma TagsDifferIf(t: Tables, i: nat, p: int)
    requires Sound(t) && Used(t, i) && p != i && (p >= 0 ==> Used(t, p))
    ensures p >= 0 ==> Who(t, p) != Who(t, i)
  {
    if p >= 0 {
      TagsDiffer(t, p, i);
    }
  }

  lemma NotedKey(l: Ledger, tick: byte, crc: byte)
    requires |l.crc| <= CRC_SLOTS
    ensures var (c, n) := (Clocked(l, tick), Noted(l, tick, crc));
            KeyOf(n) == KeyOf(c) && n == c.(crc := SumsSet(l.crc, KeyOf(c), crc))
            && |n.crc| <= CRC_SLOTS && |Newest(n.crc, KEPT)| <= CRC_SLOTS
  {
    hide SumsSet, Low;
  }

  /** A full table and a dictionary part exactly when a new key comes. */
  lemma SumsPart(d: seq<Entry<nat, byte>>, key: nat, val: byte)
    requires Distinct(d) && |d| <= CRC_SLOTS
    ensures var fits := |d| < CRC_SLOTS || Has(d, key);
            && (fits ==> SumsSet(d, key, val) == Put(d, key, val))
            && (!fits ==> |SumsSet(d, key, val)| < |Put(d, key, val)|
                          && Newest(SumsSet(d, key, val), KEPT) != Newest(Put(d, key, val), KEPT))
  {
    if |d| == CRC_SLOTS && !Has(d, key) {
      var (e, f) := (Newest(SumsSet(d, key, val), KEPT), Newest(Put(d, key, val), KEPT));
      assert e[0] == d[8] && f[0] == d[9];
    }
    hide IndexOf;
  }

  /**
   * The port's log is the dictionary's exactly when the sender's table is not full or has the key already:
   * on a seventeenth checksum the port forgets one the dictionary keeps.
   */
  lemma LogIsLogIff(t: Tables, i: nat, tick: byte, crc: byte)
    requires Sound(t) && Used(t, i) && Distinct(t.slots[i].crc)
    ensures Sound(Logged(t, i, tick, crc)) && Known(View(t)) && Who(t, i) in View(t).conns
    ensures View(Logged(t, i, tick, crc)) == LogCrc(View(t), Who(t, i), tick, crc) <==> SumFits(t, i, tick)
  {
    hide View, Sound, Who, Known, LogCrc, Noted, Clocked, Put, IndexOf, Low, Pop, Newest, SumsSet, Ledgered, Distinct;
    SlotsFit(t, i);
    var l := LedgerOf(t.slots[i]);
    var (r, c, key) := (View(t), Who(t, i), KeyAt(t, i, tick));
    NotedKey(l, tick, crc);
    SumsPart(l.crc, key, crc);
    hide Fit;
    LedgersOf(t, i);
    LoggedView(t, i, tick, crc);
    LogSteps(r, c, tick, crc);
    hide Logged;
    if !SumFits(t, i, tick) {
      var port := Noted(l, tick, crc);
      var clocked := Clocked(l, tick);
      var dict := clocked.(crc := Put(clocked.crc, key, crc));
      var p := r.conns[c].partner;
      if p.None? || !Has(r.conns[p.value].ledger.crc, key) {
        LedgeredAt(r, c, port.(crc := Newest(port.crc, KEPT)), dict.(crc := Newest(dict.crc, KEPT)));
      } else {
        LedgeredBeneath(r, c, p.value, port, dict, r.conns[p.value].ledger.(crc := Pop(r.conns[p.value].ledger.crc, key)));
      }
    }
  }

  lemma LedgeredAt(r: Relay, c: Id, l: Ledger, m: Ledger)
    requires c in r.conns && l != m
    ensures Ledgered(r, c, l) != Ledgered(r, c, m)
  {
    assert Ledgered(r, c, l).conns[c].ledger != Ledgered(r, c, m).conns[c].ledger;
  }

  lemma LedgeredBeneath(r: Relay, c: Id, p: Id, l: Ledger, m: Ledger, n: Ledger)
    requires c in r.conns && p in r.conns && p != c && l != m
    ensures Ledgered(Ledgered(r, c, l), p, n).conns != Ledgered(Ledgered(r, c, m), p, n).conns
  {
    assert Ledgered(Ledgered(r, c, l), p, n).conns[c].ledger != Ledgered(Ledgered(r, c, m), p, n).conns[c].ledger;
  }

  lemma LogIsLog(t: Tables, i: nat, tick: byte, crc: byte)
    requires Sound(t) && Used(t, i) && SumFits(t, i, tick)
    ensures Sound(Logged(t, i, tick, crc)) && Known(View(t)) && Who(t, i) in View(t).conns
    ensures View(Logged(t, i, tick, crc)) == LogCrc(View(t), Who(t, i), tick, crc)
  {
    hide View, Sound, Who, Known, LogCrc, Noted, Clocked, Put, IndexOf, Low, Pop, Newest, Ledgered, Logged, KeyOf;
    SlotsFit(t, i);
    NotedKey(LedgerOf(t.slots[i]), tick, crc);
    LedgersOf(t, i);
    hide Fit;
    LoggedView(t, i, tick, crc);
    LogSteps(View(t), Who(t, i), tick, crc);
  }

  /** Full or not, the log changes nothing anybody is told. */
  lemma LoggedAlike(t: Tables, i: nat, tick: byte, crc: byte)
    requires Sound(t) && Used(t, i)
    ensures Sound(Logged(t, i, tick, crc)) && Alike(View(Logged(t, i, tick, crc)), View(t))
  {
    hide View, Sound, Who, Known, Noted, Clocked, IndexOf, Low, Pop, Newest;
    LoggedView(t, i, tick, crc);
  }

  /** Both ledgers written, and the verdict counted. */
  lemma LogBoth(t: Tables, i: nat, p: nat, noted: Ledger, key: nat, same: bool)
    requires Sound(t) && Used(t, i) && Used(t, p) && p != i && |noted.crc| <= CRC_SLOTS && Has(t.slots[p].crc, key)
    ensures var q := t.slots[p];
            var both := Written(Written(t, i, WithLedger(t.slots[i], noted)), p, q.(crc := Pop(q.crc, key)));
            var counted := t.stats.(crcOk := if same then t.stats.crcOk + 1 else t.stats.crcOk,
                                    crcBad := if same then t.stats.crcBad else t.stats.crcBad + 1);
            var s := both.(stats := counted);
            && Sound(s) && Who(t, i) in View(t).conns && Who(t, p) in View(t).conns
            && View(s) == Ledgered(Ledgered(View(t), Who(t, i), noted), Who(t, p),
                                   LedgerOf(q).(crc := Pop(q.crc, key))).(stats := counted)
  {
    var a := Written(t, i, WithLedger(t.slots[i], noted));
    LedgerView(t, i, noted);
    assert Used(a, p) && a.slots[p] == t.slots[p];
    assert |Pop(t.slots[p].crc, key)| <= CRC_SLOTS;
    LedgerView(a, p, LedgerOf(t.slots[p]).(crc := Pop(t.slots[p].crc, key)));
    var both := Written(a, p, t.slots[p].(crc := Pop(t.slots[p].crc, key)));
    assert both == Written(a, p, WithLedger(a.slots[p], LedgerOf(t.slots[p]).(crc := Pop(t.slots[p].crc, key))));
    CountView(both, t.stats.(crcOk := if same then t.stats.crcOk + 1 else t.stats.crcOk,
                             crcBad := if same then t.stats.crcBad else t.stats.crcBad + 1));
    LedgersOf(t, p);
    hide Conns, Linked, Listed, Tag, View, Pop, IndexOf;
  }

  lemma CountView(t: Tables, stats: Stats)
    requires Sound(t)
    ensures Sound(t.(stats := stats)) && View(t.(stats := stats)) == View(t).(stats := stats)
  {
    hide Conns, Linked, Listed, LiveOf, NamesOf;
  }

  // ---- a frame ----

  function Greeted(t: Tables, i: nat, name: Name): Tables
    requires Used(t, i)
  {
    Written(t, i, t.slots[i].(name := name)).(claims := NameGiven(t.claims, Claim(name, i, t.slots[i].gen)))
  }

  lemma GreetIsGreet(t: Tables, i: nat, name: Name)
    requires Sound(t) && Used(t, i) && NameOk(name) && |t.claims| < NAME_SLOTS
    ensures Sound(Greeted(t, i, name)) && Who(t, i) in View(t).conns && Who(Greeted(t, i, name), i) == Who(t, i)
    ensures View(Greeted(t, i, name)) == Greet(View(t), Who(t, i), name)
  {
    WriteView(t, i, t.slots[i].(name := name));
    SlotView(t, i);
    var c := Claim(name, i, t.slots[i].gen);
    GiveIsPut(t.claims, c);
    GiveKeepsSlots(t.claims, c);
    ClaimsView(Written(t, i, t.slots[i].(name := name)), NameGiven(t.claims, c));
    hide Conns, Linked, Listed, NamesOf, NameGiven, Put, Tag, LiveOf;
  }

  lemma GiveKeepsSlots(cs: seq<Claim>, c: Claim)
    requires c.ci < SLOTS && forall k | 0 <= k < |cs| :: cs[k].ci < SLOTS
    ensures var ds := NameGiven(cs, c); forall k | 0 <= k < |ds| :: ds[k].ci < SLOTS
  {}

  lemma ClaimsView(t: Tables, cs: seq<Claim>)
    requires Sound(t) && forall k | 0 <= k < |cs| :: cs[k].ci < SLOTS
    ensures Sound(t.(claims := cs)) && View(t.(claims := cs)) == View(t).(names := NamesOf(cs))
  {
    hide Conns, Linked, Listed, LiveOf, NamesOf;
  }

  function Helloed(t: Tables, i: nat, payload: seq<byte>, luck: Luck, rules: Settings): Tables
    requires Sound(t) && Used(t, i) && Digits(luck.digits)
  {
    match Asked(payload)
    case None => Dropped(t, i)
    case Some(asked) =>
      match FreeName(NamesOf(t.claims), asked, luck.digits)
      case None => Dropped(t, i)
      case Some(name) =>
        FreeNameIsOk(NamesOf(t.claims), asked, luck.digits);
        GreetedSound(t, i, name);
        Paired(Greeted(t, i, name), i, luck.seed, rules)
  }

  lemma GreetedSound(t: Tables, i: nat, name: Name)
    requires Sound(t) && Used(t, i) && NameOk(name)
    ensures Sound(Greeted(t, i, name)) && Used(Greeted(t, i, name), i)
  {
    WriteView(t, i, t.slots[i].(name := name));
    GiveKeepsSlots(t.claims, Claim(name, i, t.slots[i].gen));
    ClaimsView(Written(t, i, t.slots[i].(name := name)), NameGiven(t.claims, Claim(name, i, t.slots[i].gen)));
    hide Linked, Listed, NameGiven, View;
  }

  /** A state the port's tables can hold. */
  ghost predicate Held(r: Relay) {
    Contained(r) && |r.names| <= NAME_SLOTS
  }

  lemma PairedTidy(t: Tables, i: nat, seed: nat, rules: Settings)
    requires Sound(t) && Tidy(t) && Used(t, i)
    ensures Tidy(Paired(t, i, seed, rules))
  {
    hide Appended, StartFrame, Chosen;
  }

  lemma HelloIsHello(t: Tables, i: nat, payload: seq<byte>, luck: Luck, rules: Settings)
    requires Sound(t) && Tidy(t) && Used(t, i) && Digits(luck.digits)
    requires Known(View(t)) && Who(t, i) in View(t).conns && Held(OnHello(View(t), Who(t, i), payload, luck, rules))
    ensures Sound(Helloed(t, i, payload, luck, rules)) && Tidy(Helloed(t, i, payload, luck, rules))
    ensures View(Helloed(t, i, payload, luck, rules)) == OnHello(View(t), Who(t, i), payload, luck, rules)
  {
    hide View, Sound, Tidy, Dropped, Drop, Who, NamesOf, Known, Paired, TryPair, Greet, Greeted, NameOk, Asked, FreeName, Contained, Told;
    ClaimsAreNames(t);
    var asked := Asked(payload);
    if asked.Some? {
      AskedIsOk(payload);
      FreeNameIsOk(NamesOf(t.claims), asked.value, luck.digits);
      var free := FreeName(NamesOf(t.claims), asked.value, luck.digits);
      if free.Some? {
        GreetTold(View(t), Who(t, i), free.value);
        GreetThenPair(t, i, free.value, luck.seed, rules);
      } else {
        DropWhole(t, i);
      }
    } else {
      DropWhole(t, i);
    }
  }

  /** A drop the relay's buffers can hold is the relay's drop. */
  lemma DropWhole(t: Tables, i: nat)
    requires Sound(t) && Tidy(t) && Used(t, i) && Known(View(t)) && Who(t, i) in View(t).conns
    requires Contained(Drop(View(t), Who(t, i)))
    ensures Sound(Dropped(t, i)) && Tidy(Dropped(t, i)) && View(Dropped(t, i)) == Drop(View(t), Who(t, i))
  {
    hide *;
    DropRoom(t, i);
    DropIsDrop(t, i);
  }

  lemma GreetThenPair(t: Tables, i: nat, name: Name, seed: nat, rules: Settings)
    requires Sound(t) && Tidy(t) && Used(t, i) && NameOk(name)
    requires Known(View(t)) && Who(t, i) in View(t).conns && !Has(View(t).names, name)
    requires Known(Greet(View(t), Who(t, i), name)) && Held(TryPair(Greet(View(t), Who(t, i), name), Who(t, i), seed, rules))
    ensures var g := Greeted(t, i, name);
            && Sound(g) && Used(g, i) && Known(View(g))
            && Who(t, i) in View(g).conns && View(g) == Greet(View(t), Who(t, i), name)
            && Sound(Paired(g, i, seed, rules)) && Tidy(Paired(g, i, seed, rules))
            && View(Paired(g, i, seed, rules)) == TryPair(View(g), Who(t, i), seed, rules)
  {
    var g := Greeted(t, i, name);
    hide View, Sound, Linked, Tidy, Who, NameOk, Greeted, Greet, Paired, TryPair, Known, PairRoom, Contained;
    NamesAreCounted(View(t), Who(t, i), name, seed, rules);
    ClaimsAreNames(t);
    GreetIsGreet(t, i, name);
    GreetedReady(t, i, name);
    PairRoomFrom(g, i, seed, rules);
    PairIsTryPair(g, i, seed, rules);
    PairedTidy(g, i, seed, rules);
  }

  lemma NamesAreCounted(r: Relay, c: Id, name: Name, seed: nat, rules: Settings)
    requires c in r.conns && Known(Greet(r, c, name)) && !Has(r.names, name)
    ensures |TryPair(Greet(r, c, name), c, seed, rules).names| == |r.names| + 1
  {
    Pairing.TryPairKeeps(Greet(r, c, name), c, seed, rules);
    hide TryPair, Known, IndexOf;
  }

  lemma ClaimsAreNames(t: Tables)
    requires Sound(t)
    ensures View(t).names == NamesOf(t.claims)
  {
    hide Conns, Linked, Listed, LiveOf, NamesOf;
  }

  lemma GreetedReady(t: Tables, i: nat, name: Name)
    requires Sound(t) && Tidy(t) && Used(t, i) && NameOk(name)
    ensures var g := Greeted(t, i, name); Used(g, i) && Tidy(g)
  {
    hide Linked, Listed, NameGiven;
  }

  /** A game frame as it goes out. */
  function GameFrame(p: Packet): seq<byte>
    requires |p.payload| < LONGEST
  {
    FrameBytes(Packet(p.kind, Padded(p.payload, GAME_PAYLOAD)))
  }

  function Passed(t: Tables, i: nat, p: Packet): Tables
    requires Sound(t) && Used(t, i) && |p.payload| < LONGEST
  {
    if t.slots[i].partner < 0 then t else SendTo(t, t.slots[i].partner, GameFrame(p))
  }

  lemma PassIsSend(t: Tables, i: nat, p: Packet)
    requires Sound(t) && Tidy(t) && Used(t, i) && |p.payload| < LONGEST && RoomAt(t, t.slots[i].partner, |GameFrame(p)|)
    ensures var s := Passed(t, i, p);
            Sound(s) && Tidy(s) && Used(s, i) && LedgerOf(s.slots[i]) == LedgerOf(t.slots[i]) && Who(s, i) == Who(t, i)
    ensures Known(View(t)) && Who(t, i) in View(t).conns
    ensures var (r, c) := (View(t), Who(t, i));
            View(Passed(t, i, p)) == if r.conns[c].partner.None? then r else Send(r, r.conns[c].partner.value, GameFrame(p))
  {
    LedgersOf(t, i);
    var q := t.slots[i].partner;
    if q >= 0 {
      SendIsSend(t, q, GameFrame(p));
      SendKeepsRest(t, q, GameFrame(p), i);
    }
    hide View, Linked, Listed, GameFrame, Tidy, SendTo, Send;
  }

  lemma SendKeepsRest(t: Tables, q: nat, data: seq<byte>, i: nat)
    requires Sound(t) && Tidy(t) && Used(t, q) && Used(t, i) && Sound(SendTo(t, q, data))
    ensures var s := SendTo(t, q, data);
            Tidy(s) && Used(s, i) && LedgerOf(s.slots[i]) == LedgerOf(t.slots[i]) && Who(s, i) == Who(t, i)
  {
    hide Linked, Listed;
  }

  function Forwarded(t: Tables, i: nat, p: Packet): Tables
    requires Sound(t) && Used(t, i) && |p.payload| < LONGEST
  {
    PassedSound(t, i, p);
    var sent := Passed(t, i, p);
    if p.kind == INPUT && |p.payload| > CRC_AT then Logged(sent, i, p.payload[0], p.payload[CRC_AT]) else sent
  }

  lemma PassedSound(t: Tables, i: nat, p: Packet)
    requires Sound(t) && Used(t, i) && |p.payload| < LONGEST
    ensures Sound(Passed(t, i, p)) && Used(Passed(t, i, p), i)
  {
    if t.slots[i].partner >= 0 {
      SendIsSend(t, t.slots[i].partner, GameFrame(p));
    }
    hide Listed, View, GameFrame;
  }

  /** The record in a frame, if it holds one, fits its sender's table. */
  predicate FrameFits(t: Tables, i: nat, p: Packet)
    requires i < |t.slots|
  {
    p.kind == INPUT && |p.payload| > CRC_AT ==> SumFits(t, i, p.payload[0])
  }

  lemma PassRoom(t: Tables, i: nat, p: Packet)
    requires Sound(t) && Used(t, i) && |p.payload| < LONGEST
    requires Known(View(t)) && Who(t, i) in View(t).conns && Contained(Forward(View(t), Who(t, i), p))
    ensures RoomAt(t, t.slots[i].partner, |GameFrame(p)|)
  {
    LedgersOf(t, i);
    PartnerIn(t, i);
    OutgoingIs(p);
    hide View, Sound, Known, Forward, Who, GameFrame;
    if t.slots[i].partner >= 0 {
      ForwardTells(View(t), Who(t, i), p);
      TxIs(t, t.slots[i].partner);
    }
  }

  lemma ForwardIsForward(t: Tables, i: nat, p: Packet)
    requires Sound(t) && Tidy(t) && Used(t, i) && |p.payload| < LONGEST
    requires Known(View(t)) && Who(t, i) in View(t).conns && Contained(Forward(View(t), Who(t, i), p))
    ensures Sound(Forwarded(t, i, p)) && Tidy(Forwarded(t, i, p))
    ensures Alike(View(Forwarded(t, i, p)), Forward(View(t), Who(t, i), p))
    ensures FrameFits(t, i, p) ==> View(Forwarded(t, i, p)) == Forward(View(t), Who(t, i), p)
    ensures Distinct(t.slots[i].crc) && View(Forwarded(t, i, p)) == Forward(View(t), Who(t, i), p) ==> FrameFits(t, i, p)
  {
    hide View, Linked, Listed, Who, Known, Logged, LogCrc, Passed, GameFrame, Tidy, Send, Alike, Clocked, KeyOf, IndexOf, Contained;
    PassRoom(t, i, p);
    hide RoomAt;
    PassIsSend(t, i, p);
    var s := Passed(t, i, p);
    OutgoingIs(p);
    ViewIsKnown(s);
    AlikeSelf(View(s));
    if p.kind == INPUT && |p.payload| > CRC_AT {
      var (tick, crc) := (p.payload[0], p.payload[CRC_AT]);
      LoggedTidy(s, i, tick, crc);
      ListenedAlike(s, i, tick, crc);
      if SumFits(s, i, tick) {
        LogIsLog(s, i, tick, crc);
      }
      if Distinct(s.slots[i].crc) {
        LogIsLogIff(s, i, tick, crc);
      }
    }
  }

  /** Listening, by the port and by the relay, leaves both telling the same. */
  lemma ListenedAlike(t: Tables, i: nat, tick: byte, crc: byte)
    requires Sound(t) && Used(t, i)
    ensures Sound(Logged(t, i, tick, crc)) && Known(View(t)) && Who(t, i) in View(t).conns
    ensures Alike(View(Logged(t, i, tick, crc)), LogCrc(View(t), Who(t, i), tick, crc))
  {
    hide View, Sound, Who, Known, Logged, LogCrc, Alike;
    LedgersOf(t, i);
    LoggedAlike(t, i, tick, crc);
    LogAlike(View(t), Who(t, i), tick, crc);
    AlikeBack(LogCrc(View(t), Who(t, i), tick, crc), View(t));
    AlikeTwice(View(Logged(t, i, tick, crc)), View(t), LogCrc(View(t), Who(t, i), tick, crc));
  }

  lemma OutgoingIs(p: Packet)
    requires |p.payload| < LONGEST
    ensures GameFrame(p) == FrameBytes(Packet(p.kind, Padded(p.payload, GAME_PAYLOAD)))
  {}

  lemma LoggedTidy(t: Tables, i: nat, tick: byte, crc: byte)
    requires Sound(t) && Tidy(t) && Used(t, i)
    ensures Tidy(Logged(t, i, tick, crc))
  {
    hide Noted, Pop, IndexOf, Newest;
  }

  function Stepped(t: Tables, i: nat, p: Packet, luck: Luck, rules: Settings): Tables
    requires Sound(t) && Used(t, i) && |p.payload| < LONGEST && Digits(luck.digits)
  {
    if Relayed(p.kind) then Forwarded(t, i, p)
    else if p.kind == HELLO then Helloed(t, i, p.payload, luck, rules)
    else if p.kind == LIST then SendTo(t, i, LobbyBytes(t))
    else if p.kind == JOIN then Paired(t, i, luck.seed, rules)
    else if p.kind == PING then SendTo(t, i, FrameBytes(Packet(PONG, [])))
    else if p.kind == BYE then Dropped(t, i)
    else t
  }

  lemma SayIsSay(t: Tables, i: nat, data: seq<byte>)
    requires Sound(t) && Tidy(t) && Used(t, i)
    requires Who(t, i) in View(t).conns && Contained(Send(View(t), Who(t, i), data))
    ensures Sound(SendTo(t, i, data)) && Tidy(SendTo(t, i, data))
    ensures View(SendTo(t, i, data)) == Send(View(t), Who(t, i), data)
  {
    TxIs(t, i);
    assert Room(t.slots[i], |data|) by { hide View, Sound, Who; SendGrows(View(t), Who(t, i), data); }
    SendIsSend(t, i, data);
    SendKeepsRest(t, i, data, i);
    hide View, Linked, Listed, Tidy, SendTo, Send;
  }

  lemma SendGrows(r: Relay, c: Id, data: seq<byte>)
    requires c in r.conns
    ensures c in Send(r, c, data).conns && |Send(r, c, data).conns[c].tx| == |r.conns[c].tx| + |data|
  {}

  /** Sound tables can only stand for a state they can hold. */
  lemma ViewIsHeld(t: Tables)
    requires Sound(t) && |t.claims| <= NAME_SLOTS
    ensures Held(View(t))
  {
    ClaimsAreNames(t);
    forall id | id in View(t).conns
      ensures |View(t).conns[id].tx| <= TX_CAPACITY
    {
      var i := SlotOf(t.slots, id);
      SlotsFit(t, i);
      TxIs(t, i);
    }
    hide Conns, Linked, Listed, Tag, NamesOf;
  }

  lemma HeldAlike(a: Relay, b: Relay)
    requires Alike(a, b)
    ensures Held(a) <==> Held(b)
  {
    if Held(b) {
      forall c | c in a.conns
        ensures |a.conns[c].tx| <= TX_CAPACITY
      {
        assert a.conns[c].tx == b.conns[c].tx;
      }
    }
    if Held(a) {
      forall c | c in b.conns
        ensures |b.conns[c].tx| <= TX_CAPACITY
      {
        assert a.conns[c].tx == b.conns[c].tx;
      }
    }
  }

  lemma SteppedClaims(t: Tables, i: nat, p: Packet, luck: Luck, rules: Settings)
    requires Sound(t) && Used(t, i) && |p.payload| < LONGEST && Digits(luck.digits) && |t.claims| <= NAME_SLOTS
    ensures |Stepped(t, i, p, luck, rules).claims| <= NAME_SLOTS
  {
    DroppedClaims(t, i);
    hide Logged, Dropped, LobbyBytes, Paired, Linked, Listed, Asked, FreeName, Passed, NameOk;
    if p.kind == HELLO {
      HelloedClaims(t, i, p.payload, luck, rules);
    }
    PairedClaims(t, i, luck.seed, rules);
    if Relayed(p.kind) {
      ForwardedClaims(t, i, p);
    }
    hide Helloed, Forwarded;
  }

  lemma DroppedClaims(t: Tables, i: nat)
    requires Sound(t) && Used(t, i)
    ensures |Dropped(t, i).claims| <= |t.claims|
  {
    hide Abandoned, Sound, View, SameFlags, ClaimOf, Linked, Listed, Tag, Conns, Delisted;
    if !t.slots[i].dead {
      BuryIsUnseen(t, i);
      RenounceIsUnname(Buried(t, i), i);
      AbandonKeepsFlags(Renounced(Buried(t, i), i), i);
    }
  }

  lemma PairedClaims(t: Tables, i: nat, seed: nat, rules: Settings)
    requires Sound(t) && Used(t, i)
    ensures Paired(t, i, seed, rules).claims == t.claims
  {
    hide Chosen, Sound, Entered, StartFrame;
  }

  lemma ForwardedClaims(t: Tables, i: nat, p: Packet)
    requires Sound(t) && Used(t, i) && |p.payload| < LONGEST
    ensures Forwarded(t, i, p).claims == t.claims
  {
    PassedSound(t, i, p);
    hide Sound, Noted, GameFrame, Appended, IndexOf, Pop;
  }

  lemma HelloedClaims(t: Tables, i: nat, payload: seq<byte>, luck: Luck, rules: Settings)
    requires Sound(t) && Used(t, i) && Digits(luck.digits) && |t.claims| <= NAME_SLOTS
    ensures |Helloed(t, i, payload, luck, rules).claims| <= NAME_SLOTS
  {
    DroppedClaims(t, i);
    var asked := Asked(payload);
    if asked.Some? {
      AskedIsOk(payload);
      FreeNameIsOk(NamesOf(t.claims), asked.value, luck.digits);
      var free := FreeName(NamesOf(t.claims), asked.value, luck.digits);
      if free.Some? {
        GreetedSound(t, i, free.value);
        PairedClaims(Greeted(t, i, free.value), i, luck.seed, rules);
      }
    }
    hide Asked, FreeName, Dropped, Paired, Sound, NameOk, NamesOf, ClaimOf;
  }

  /** What the relay makes of a frame from a slot's connection. */
  ghost function Reference(t: Tables, i: nat, p: Packet, luck: Luck, rules: Settings): (r: Relay)
    requires Sound(t) && Used(t, i) && |p.payload| < LONGEST && Digits(luck.digits)
    ensures Known(View(t)) && Who(t, i) in View(t).conns && r == Handle(View(t), Who(t, i), p, luck, rules)
  {
    ViewIsKnown(t);
    SlotView(t, i);
    Handle(View(t), Who(t, i), p, luck, rules)
  }

  /**
   * Every frame a slot's stream delivers does to the tables what the relay does to the connections: slots,
   * order, generations and linear tables say exactly the bytes the ordered dictionaries say, full checksum table
   * or not, as long as the buffers and the name table can hold what the relay then has; and they stand for exactly
   * the relay's state if and only if the frame's checksum fits its table.
   */
  lemma {:induction false} HandleIsHandle(t: Tables, i: nat, p: Packet, luck: Luck, rules: Settings)
    requires Sound(t) && Tidy(t) && Used(t, i) && |p.payload| < LONGEST && Digits(luck.digits)
    requires Held(Reference(t, i, p, luck, rules))
    ensures var s := Stepped(t, i, p, luck, rules);
            && Sound(s) && Tidy(s) && Known(View(t)) && Who(t, i) in View(t).conns
            && Alike(View(s), Handle(View(t), Who(t, i), p, luck, rules))
            && (FrameFits(t, i, p) ==> View(s) == Handle(View(t), Who(t, i), p, luck, rules))
            && (Distinct(t.slots[i].crc) && View(s) == Handle(View(t), Who(t, i), p, luck, rules) ==> FrameFits(t, i, p))
  {
    ViewIsKnown(t);
    SlotView(t, i);
    hide View, Sound, Who, Known, Tidy, Forwarded, Helloed, SendTo, Paired, Dropped, Contained;
    hide Forward, OnHello, Send, TryPair, Drop, LobbyFrame, LobbyBytes, RoomAt, PairRoom, Alike, SumFits;
    if Relayed(p.kind) {
      ForwardIsForward(t, i, p);
    } else if p.kind == HELLO {
      HelloIsHello(t, i, p.payload, luck, rules);
    } else if p.kind == LIST {
      LobbyIsLobby(t);
      SayIsSay(t, i, LobbyBytes(t));
    } else if p.kind == JOIN {
      PairRoomFrom(t, i, luck.seed, rules);
      PairIsTryPair(t, i, luck.seed, rules);
      PairedTidy(t, i, luck.seed, rules);
    } else if p.kind == PING {
      SayIsSay(t, i, FrameBytes(Packet(PONG, [])));
    } else if p.kind == BYE {
      DropWhole(t, i);
    }
    AlikeSelf(Handle(View(t), Who(t, i), p, luck, rules));
  }
}
