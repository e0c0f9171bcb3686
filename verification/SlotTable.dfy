/** The relay's fixed tables: sixty-four slots reused under generations, and the relay they stand for. */
module SlotTable {
  import opened Bytes
  import opened Ordered
  import opened Verdict
  import opened Relay
  import opened Passage

  const SLOTS: nat := 64
  const CRC_SLOTS: nat := 16
  const NAME_SLOTS: nat := 256

  /** One client slot: its flags, its links by slot number, its buffers and its checksum table. */
  datatype Slot = Slot(
    inUse: bool, dead: bool, gen: nat, addr: nat, name: Name, partner: int, role: int, born: int,
    rx: seq<byte>, txbuf: seq<byte>, txLen: nat,
    crc: seq<Entry<nat, byte>>, last: Option<byte>, lap: nat)

  /** A name, and the slot and generation that claimed it. */
  datatype Claim = Claim(name: Name, ci: nat, gen: nat)

  /** All of the relay's globals. */
  datatype Tables = Tables(slots: seq<Slot>, order: seq<nat>, claims: seq<Claim>, stats: Stats)

  predicate Fit(s: Slot) {
    |s.txbuf| == TX_CAPACITY && s.txLen <= TX_CAPACITY && |s.crc| <= CRC_SLOTS && |s.name| <= 8
  }

  /** Slots whose links lead to other slots in use. */
  predicate Linked(ss: seq<Slot>) {
    && |ss| == SLOTS
    && (forall i | 0 <= i < SLOTS :: Fit(ss[i]))
    && (forall i | 0 <= i < SLOTS && ss[i].inUse ::
          -1 <= ss[i].partner < SLOTS && ss[i].partner != i && (ss[i].partner >= 0 ==> ss[ss[i].partner].inUse))
  }

  /** The order lists slots in use, each once, and all that are not dropped. */
  predicate Listed(ss: seq<Slot>, os: seq<nat>)
    requires |ss| == SLOTS
  {
    && (forall k | 0 <= k < |os| :: os[k] < SLOTS && ss[os[k]].inUse)
    && (forall j, k | 0 <= j < k < |os| :: os[j] != os[k])
    && (forall i: nat | i < SLOTS && ss[i].inUse && !ss[i].dead :: i in os)
  }

  predicate Sound(t: Tables) {
    Linked(t.slots) && Listed(t.slots, t.order) && forall k | 0 <= k < |t.claims| :: t.claims[k].ci < SLOTS
  }

  /** No dropped slot is listed; so it is, except while one is being dropped. */
  predicate Tidy(t: Tables) {
    forall k | 0 <= k < |t.order| :: t.order[k] < |t.slots| && !t.slots[t.order[k]].dead
  }

  predicate Used(t: Tables, i: int) {
    0 <= i < |t.slots| == SLOTS && t.slots[i].inUse
  }

  // ---- the relay the tables stand for ----

  /** A slot and its generation make one connection, for ever. */
  function Tag(i: nat, gen: nat): Id {
    gen * 64 + i
  }

  /** The slot a connection is in. */
  function Home(id: Id): (i: nat)
    ensures i < SLOTS
  {
    id % 64
  }

  lemma HomeOfTag(i: nat, gen: nat)
    requires i < SLOTS
    ensures Home(Tag(i, gen)) == i
  {}

  lemma TagIsUnique(i: nat, gen: nat, j: nat, gen': nat)
    requires i < SLOTS && j < SLOTS && Tag(i, gen) == Tag(j, gen')
    ensures i == j && gen == gen'
  {}

  function IdOf(ss: seq<Slot>, i: nat): Id
    requires i < |ss|
  {
    Tag(i, ss[i].gen)
  }

  function ConnOf(ss: seq<Slot>, i: nat): Conn
    requires Linked(ss) && i < SLOTS && ss[i].inUse
  {
    var s := ss[i];
    Conn(s.addr, s.rx, s.txbuf[..s.txLen], s.name, if s.partner < 0 then None else Some(IdOf(ss, s.partner)), s.role, s.born,
         Ledger(s.crc, s.lap, s.last))
  }

  function Ids(ss: seq<Slot>): (ids: set<Id>)
    requires |ss| == SLOTS
    ensures forall i | 0 <= i < SLOTS && ss[i].inUse :: IdOf(ss, i) in ids
    ensures forall id | id in ids :: ss[Home(id)].inUse && IdOf(ss, Home(id)) == id
  {
    assert forall i | 0 <= i < SLOTS :: Home(IdOf(ss, i)) == i by {
      forall i | 0 <= i < SLOTS
        ensures Home(IdOf(ss, i)) == i
      {
        HomeOfTag(i, ss[i].gen);
      }
    }
    set i | 0 <= i < SLOTS && ss[i].inUse :: IdOf(ss, i)
  }

  function Conns(ss: seq<Slot>): map<Id, Conn>
    requires Linked(ss)
  {
    map id | id in Ids(ss) :: ConnOf(ss, Home(id))
  }

  function LiveOf(ss: seq<Slot>, os: seq<nat>): (live: seq<Id>)
    requires forall k | 0 <= k < |os| :: os[k] < |ss|
    ensures |live| == |os|
  {
    seq(|os|, k requires 0 <= k < |os| => IdOf(ss, os[k]))
  }

  function NamesOf(cs: seq<Claim>): (names: seq<Entry<Name, Id>>)
    ensures |names| == |cs|
  {
    seq(|cs|, k requires 0 <= k < |cs| => Entry(cs[k].name, Tag(cs[k].ci, cs[k].gen)))
  }

  function View(t: Tables): Relay
    requires Sound(t)
  {
    Relay(Conns(t.slots), LiveOf(t.slots, t.order), NamesOf(t.claims), t.stats)
  }

  function Who(t: Tables, i: nat): Id
    requires Sound(t) && i < SLOTS
  {
    IdOf(t.slots, i)
  }

  lemma ConnAt(ss: seq<Slot>, i: nat)
    requires Linked(ss) && i < SLOTS && ss[i].inUse
    ensures IdOf(ss, i) in Conns(ss) && Conns(ss)[IdOf(ss, i)] == ConnOf(ss, i)
  {
    HomeOfTag(i, ss[i].gen);
    hide ConnOf, Fit, Tag, Home;
  }

  /** Every connection is the one some slot stands for. */
  lemma SlotOf(ss: seq<Slot>, id: Id) returns (i: nat)
    requires Linked(ss) && id in Conns(ss)
    ensures i < SLOTS && ss[i].inUse && id == IdOf(ss, i) && Conns(ss)[id] == ConnOf(ss, i)
  {
    i := Home(id);
    hide ConnOf, Fit, Tag;
  }

  // ---- writing one slot ----

  /** A slot that may take the place of another in use. */
  predicate Replaces(ss: seq<Slot>, i: nat, s: Slot)
    requires |ss| == SLOTS && i < SLOTS
  {
    && ss[i].inUse && s.inUse && s.gen == ss[i].gen && Fit(s) && (ss[i].dead ==> s.dead)
    && -1 <= s.partner < SLOTS && s.partner != i && (s.partner >= 0 ==> ss[s.partner].inUse)
  }

  lemma WriteLeaves(ss: seq<Slot>, i: nat, s: Slot)
    requires Linked(ss) && i < SLOTS && Replaces(ss, i, s)
    ensures Linked(ss[i := s])
    ensures forall j | 0 <= j < SLOTS ::
              ss[i := s][j].inUse == ss[j].inUse && IdOf(ss[i := s], j) == IdOf(ss, j)
              && (j != i && ss[j].inUse ==> ConnOf(ss[i := s], j) == ConnOf(ss, j))
  {
    hide Tag, Fit;
  }

  lemma WriteListed(ss: seq<Slot>, os: seq<nat>, i: nat, s: Slot)
    requires |ss| == SLOTS && Listed(ss, os) && i < SLOTS && Replaces(ss, i, s)
    ensures Listed(ss[i := s], os) && LiveOf(ss[i := s], os) == LiveOf(ss, os)
  {
    hide Fit, Tag;
  }

  lemma SameConn(ss: seq<Slot>, i: nat, s: Slot, id: Id)
    requires Linked(ss) && i < SLOTS && Replaces(ss, i, s) && Linked(ss[i := s])
    requires id in Conns(ss) || id in Conns(ss[i := s])
    ensures id in Conns(ss) && id in Conns(ss[i := s])
    ensures Conns(ss[i := s])[id] == if id == IdOf(ss, i) then ConnOf(ss[i := s], i) else Conns(ss)[id]
  {
    var ts := ss[i := s];
    WriteLeaves(ss, i, s);
    hide Conns, ConnOf, Linked, Fit, Tag;
    var j: nat;
    if id in Conns(ss) {
      j := SlotOf(ss, id);
    } else {
      j := SlotOf(ts, id);
    }
    ConnAt(ss, j);
    ConnAt(ts, j);
    if id == IdOf(ss, i) {
      TagIsUnique(i, ss[i].gen, j, ss[j].gen);
    }
  }

  lemma WriteConns(ss: seq<Slot>, i: nat, s: Slot)
    requires Linked(ss) && i < SLOTS && Replaces(ss, i, s)
    ensures Linked(ss[i := s]) && IdOf(ss[i := s], i) == IdOf(ss, i)
    ensures IdOf(ss, i) in Conns(ss)
    ensures Conns(ss[i := s]) == Conns(ss)[IdOf(ss, i) := ConnOf(ss[i := s], i)]
  {
    var ts := ss[i := s];
    WriteLeaves(ss, i, s);
    ConnAt(ss, i);
    ConnAt(ts, i);
    hide Conns, ConnOf, Linked, Fit, Tag;
    var (a, b) := (Conns(ts), Conns(ss)[IdOf(ss, i) := ConnOf(ts, i)]);
    forall id | id in a || id in b
      ensures id in a && id in b && a[id] == b[id]
    {
      SameConn(ss, i, s, id);
    }
    SameMap(a, b);
    hide *;
  }

  function Written(t: Tables, i: nat, s: Slot): Tables
    requires i < |t.slots|
  {
    t.(slots := t.slots[i := s])
  }

  /** Writing a slot that stays in use changes one connection of the relay, and nobody's identity. */
  lemma WriteView(t: Tables, i: nat, s: Slot)
    requires Sound(t) && i < SLOTS && Replaces(t.slots, i, s)
    ensures Sound(Written(t, i, s)) && forall j: nat | j < SLOTS :: Who(Written(t, i, s), j) == Who(t, j)
    ensures Who(t, i) in View(t).conns
    ensures View(Written(t, i, s)) == View(t).(conns := View(t).conns[Who(t, i) := ConnOf(Written(t, i, s).slots, i)])
  {
    WriteConns(t.slots, i, s);
    WriteListed(t.slots, t.order, i, s);
    WriteLeaves(t.slots, i, s);
    hide Conns, ConnOf, Linked, Tag, Listed, LiveOf, Replaces;
  }

  // ---- everything spoken of is known ----

  /** The partner a slot names is another slot in use, and the one its connection names. */
  lemma SlotView(t: Tables, i: nat)
    requires Sound(t) && i < SLOTS && t.slots[i].inUse
    ensures Who(t, i) in View(t).conns && View(t).conns[Who(t, i)] == ConnOf(t.slots, i)
    ensures var p := t.slots[i].partner; p < SLOTS && p != i && (p >= 0 ==> t.slots[p].inUse && Who(t, p) != Who(t, i))
  {
    ConnAt(t.slots, i);
    var p := t.slots[i].partner;
    if p >= 0 && Who(t, p) == Who(t, i) {
      TagIsUnique(p, t.slots[p].gen, i, t.slots[i].gen);
    }
    hide Conns, Tag, Listed, Fit;
  }

  lemma ViewIsKnown(t: Tables)
    requires Sound(t)
    ensures Known(View(t))
  {
    var r := View(t);
    forall k | 0 <= k < |r.live|
      ensures r.live[k] in r.conns
    {
      ConnAt(t.slots, t.order[k]);
    }
    forall j, k | 0 <= j < k < |r.live|
      ensures r.live[j] != r.live[k]
    {
      if r.live[j] == r.live[k] {
        TagIsUnique(t.order[j], t.slots[t.order[j]].gen, t.order[k], t.slots[t.order[k]].gen);
      }
    }
    forall id | id in r.conns
      ensures |r.conns[id].name| <= 8
      ensures r.conns[id].partner.Some? ==> r.conns[id].partner.value in r.conns && r.conns[id].partner.value != id
    {
      var i := SlotOf(t.slots, id);
      SlotView(t, i);
      if t.slots[i].partner >= 0 {
        ConnAt(t.slots, t.slots[i].partner);
      }
    }
    hide Conns, Tag;
  }

  /** A slot in use is among the live exactly when it has not been dropped. */
  lemma LiveIff(t: Tables, i: nat)
    requires Sound(t) && Tidy(t) && i < SLOTS && t.slots[i].inUse
    ensures Who(t, i) in View(t).live <==> !t.slots[i].dead
  {
    if !t.slots[i].dead {
      assert i in t.order;
      var k :| 0 <= k < |t.order| && t.order[k] == i;
      assert LiveOf(t.slots, t.order)[k] == Who(t, i);
    } else if Who(t, i) in View(t).live {
      var k :| 0 <= k < |t.order| && LiveOf(t.slots, t.order)[k] == Who(t, i);
      TagIsUnique(t.order[k], t.slots[t.order[k]].gen, i, t.slots[i].gen);
    }
    hide Tag, Linked, Conns;
  }
}
