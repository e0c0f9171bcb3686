/** The relay's side of the wire, byte by byte: what it makes of a HELLO, and what START, LOBBY and PONG say. */
module Protocol {
  import opened Bytes
  import opened Ordered
  import opened Framing
  import opened Verdict
  import opened Relay
  import opened Pairing
  import opened Passage
  import opened Conduct

  // ---- HELLO ----

  /** Bytes that are stripped from a name. */
  predicate Padding(s: seq<byte>) {
    forall i | 0 <= i < |s| :: s[i] == 0 || s[i] == 32
  }

  /** Two to eight ASCII letters and digits. */
  predicate Plain(s: seq<byte>) {
    2 <= |s| <= 8 && forall i | 0 <= i < |s| :: 48 <= s[i] <= 57 || 65 <= s[i] <= 90 || 97 <= s[i] <= 122
  }

  /** Version 3, a television this relay serves, and letters and digits between padding. */
  predicate Introduces(payload: seq<byte>, front: seq<byte>, core: seq<byte>, back: seq<byte>) {
    && |payload| >= 2 && payload[0] == 3 && payload[1] <= 1 && payload[2..] == front + core + back
    && Padding(front) && Plain(core) && Padding(back)
  }

  /** Letter for letter the same, small letters made capital. */
  predicate Capitals(name: Name, core: seq<byte>) {
    |name| == |core| && forall i | 0 <= i < |core| :: name[i] as int == if core[i] >= 97 then core[i] as int - 32 else core[i] as int
  }

  lemma {:induction false} StripsFront(front: seq<byte>, rest: seq<byte>)
    requires Padding(front)
    ensures Stripped(front + rest) == Stripped(rest)
    decreases |front|
  {
    if front == [] {
      assert front + rest == rest;
    } else {
      assert (front + rest)[1..] == front[1..] + rest && (front + rest)[0] == front[0];
      StripsFront(front[1..], rest);
    }
  }

  lemma {:induction false} StripsBack(core: seq<byte>, back: seq<byte>)
    requires Plain(core) && Padding(back)
    ensures Stripped(core + back) == core
    decreases |back|
  {
    var s := core + back;
    if back == [] {
      assert s == core;
    } else {
      assert s[..|s| - 1] == core + back[..|back| - 1] && s[|s| - 1] == back[|back| - 1] && s[0] == core[0];
      StripsBack(core, back[..|back| - 1]);
    }
  }

  /** What is stripped is padding, at both ends. */
  lemma {:induction false} StrippedIs(s: seq<byte>) returns (front: seq<byte>, back: seq<byte>)
    ensures s == front + Stripped(s) + back && Padding(front) && Padding(back)
    decreases |s|
  {
    if s != [] && (s[0] == 0 || s[0] == 32) {
      front, back := StrippedIs(s[1..]);
      assert s == [s[0]] + front + Stripped(s) + back;
      front := [s[0]] + front;
    } else if s != [] && (s[|s| - 1] == 0 || s[|s| - 1] == 32) {
      front, back := StrippedIs(s[..|s| - 1]);
      assert s == front + Stripped(s) + (back + [s[|s| - 1]]);
      back := back + [s[|s| - 1]];
    } else {
      front, back := [], [];
      assert s == [] + Stripped(s) + [];
    }
  }

  /** A letter or digit comes out as itself or its capital; nothing else becomes a letter or digit. */
  lemma UpperIs(b: byte)
    ensures 97 <= b <= 122 ==> Upper(b) as int == b as int - 32
    ensures !(97 <= b <= 122) ==> Upper(b) == b
    ensures NameChar(Upper(b)) <==> 48 <= b <= 57 || 65 <= b <= 90 || 97 <= b <= 122
  {}

  /** The name a HELLO asks for is the letters and digits between its padding, in capitals. */
  lemma AsksFor(payload: seq<byte>, front: seq<byte>, core: seq<byte>, back: seq<byte>)
    requires Introduces(payload, front, core, back)
    ensures Asked(payload).Some? && Capitals(Asked(payload).value, core)
  {
    assert payload[2..] == front + (core + back);
    StripsFront(front, core + back);
    StripsBack(core, back);
    forall i | 0 <= i < |core|
      ensures NameChar(Uppercase(core)[i])
    {
      UpperIs(core[i]);
    }
    hide Stripped;
  }

  /** And a HELLO that asks for one is such a HELLO. */
  lemma AskedOnlySo(payload: seq<byte>) returns (front: seq<byte>, core: seq<byte>, back: seq<byte>)
    requires Asked(payload).Some?
    ensures Introduces(payload, front, core, back)
  {
    front, back := StrippedIs(payload[2..]);
    core := Stripped(payload[2..]);
    forall i | 0 <= i < |core|
      ensures 48 <= core[i] <= 57 || 65 <= core[i] <= 90 || 97 <= core[i] <= 122
    {
      UpperIs(core[i]);
      assert NameChar(Uppercase(core)[i]);
    }
    hide Stripped;
  }

  /**
   * HELLO: letters and digits between padding, of version 3 and a served television, are granted as they stand, in
   * capitals, if nobody has that name.
   */
  lemma HelloIsGranted(r: Relay, c: Id, payload: seq<byte>, front: seq<byte>, core: seq<byte>, back: seq<byte>, name: Name,
                       luck: Luck, rules: Settings)
    requires Known(r) && c in r.conns && Digits(luck.digits) && Introduces(payload, front, core, back) && |payload| < LONGEST
    requires Capitals(name, core) && !Has(r.names, name)
    ensures var s := Handle(r, c, Packet(0x01, payload), luck, rules);
            && c in s.conns && s.conns[c].name == name && Has(s.names, name) && s.live == r.live
            && s.names == r.names + [Entry(name, c)]
  {
    HelloGreets(r, c, payload, front, core, back, name, luck, rules);
    var g := Greet(r, c, name);
    TryPairKeeps(g, c, luck.seed, rules);
    hide TryPair, Introduces, Capitals, Known, Handle;
    EndHas(r.names, name, c);
    hide IndexOf;
  }

  lemma HelloGreets(r: Relay, c: Id, payload: seq<byte>, front: seq<byte>, core: seq<byte>, back: seq<byte>, name: Name,
                    luck: Luck, rules: Settings)
    requires Known(r) && c in r.conns && Digits(luck.digits) && Introduces(payload, front, core, back) && |payload| < LONGEST
    requires Capitals(name, core) && !Has(r.names, name)
    ensures Known(Greet(r, c, name))
    ensures Handle(r, c, Packet(0x01, payload), luck, rules) == TryPair(Greet(r, c, name), c, luck.seed, rules)
  {
    AsksFor(payload, front, core, back);
    assert Asked(payload).value == name;
    FreeNameIsOk(r.names, name, luck.digits);
    GreetTold(r, c, name);
    hide TryPair, Asked, Introduces, Capitals, Known, Told, NameOk, Greet;
  }

  lemma EndHas(names: seq<Entry<Name, Id>>, name: Name, c: Id)
    requires !Has(names, name)
    ensures Put(names, name, c) == names + [Entry(name, c)] && Has(Put(names, name, c), name)
  {
    assert (names + [Entry(name, c)])[|names|].key == name;
  }

  /** A taken name loses what is behind its seventh character and gets a digit for its last, and is asked for again. */
  lemma TakenIsRetried(names: seq<Entry<Name, Id>>, name: Name, digits: seq<byte>) returns (next: Name)
    requires Digits(digits) && digits != [] && Has(names, name)
    ensures |next| == (if |name| < 8 then |name| + 1 else 8) && next[|next| - 1] as int == 48 + digits[0] as int
    ensures forall i | 0 <= i < |next| - 1 :: next[i] == name[i]
    ensures Digits(digits[1..]) && FreeName(names, name, digits) == FreeName(names, next, digits[1..])
  {
    next := Renamed(name, digits[0]);
    hide IndexOf;
  }

  /** Every other HELLO is refused, and its connection dropped. */
  lemma HelloIsRefused(r: Relay, c: Id, payload: seq<byte>, luck: Luck, rules: Settings)
    requires Known(r) && c in r.conns && Digits(luck.digits) && |payload| < LONGEST
    requires forall front, core, back :: !Introduces(payload, front, core, back)
    ensures Handle(r, c, Packet(0x01, payload), luck, rules) == Drop(r, c)
  {
    if Asked(payload).Some? {
      var front, core, back := AskedOnlySo(payload);
    }
    hide Drop, Asked, Known, Introduces;
  }

  // ---- START ----

  /** A START, as a console reads it: its type, role, seed, delay and variation, and the other's name. */
  predicate Starts(f: seq<byte>, role: byte, seed: nat, delay: byte, variation: byte, them: Name) {
    && |f| == 15 && f[0] == 14 && f[1] == 0x05 && f[2] == role && f[3] as int + 256 * f[4] as int == seed
    && f[5] == delay && f[6] == variation
    && forall i | 0 <= i < 8 :: f[7 + i] == if i < |them| then them[i] else 0
  }

  lemma StartBytes(role: byte, seed: nat, rules: Settings, them: Name)
    requires |them| <= 8 && seed < 65536
    ensures Starts(StartFrame(role, seed, rules, them), role, seed, rules.delay, rules.variation, them)
  {
    var p := Padded(them, 8);
    assert forall i | 0 <= i < 8 :: p[i] == if i < |them| then them[i] else 0;
  }

  /** A pairing tells the older console that it is role 0 and the newcomer that it is role 1, and both the rest alike. */
  lemma PairingStarts(r: Relay, c: Id, seed: nat, rules: Settings) returns (host: Id, toHost: seq<byte>, toGuest: seq<byte>)
    requires Known(r) && c in r.conns && Oldest(r, r.live, c).Some? && seed < 65536
    ensures var s := TryPair(r, c, seed, rules);
            && Oldest(r, r.live, c) == Some(host) && s.live == r.live && s.names == r.names
            && s.stats == r.stats.(matches := r.stats.matches + 1)
            && host in r.live && host in r.conns && host != c && Waiting(r, host) && s.conns.Keys == r.conns.Keys
            && (forall o | o in r.live && o != c && o in r.conns && Waiting(r, o) :: r.conns[host].born <= r.conns[o].born)
            && s.conns[host].tx == r.conns[host].tx + toHost && s.conns[c].tx == r.conns[c].tx + toGuest
            && Starts(toHost, 0, seed, rules.delay, rules.variation, r.conns[c].name)
            && Starts(toGuest, 1, seed, rules.delay, rules.variation, r.conns[host].name)
  {
    PairingTells(r, c, seed, rules);
    host := Oldest(r, r.live, c).value;
    StartBytes(0, seed, rules, r.conns[c].name);
    StartBytes(1, seed, rules, r.conns[host].name);
    toHost, toGuest := StartFrame(0, seed, rules, r.conns[c].name), StartFrame(1, seed, rules, r.conns[host].name);
    PairingCounts(r, c, seed, rules);
    hide TryPair, Oldest, StartFrame, Starts;
  }

  lemma PairingCounts(r: Relay, c: Id, seed: nat, rules: Settings)
    requires Known(r) && c in r.conns && Oldest(r, r.live, c).Some?
    ensures var s := TryPair(r, c, seed, rules);
            s.live == r.live && s.names == r.names && s.stats == r.stats.(matches := r.stats.matches + 1)
  {
    hide Oldest, StartFrame, Known;
  }

  /** A console with a name and no partner. */
  predicate Free(r: Relay, o: Id) {
    o in r.conns && r.conns[o].name != [] && r.conns[o].partner == None
  }

  /** What a newcomer by this name and the free console that waited longest are told, and nobody else anything. */
  ghost predicate Couples(r: Relay, s: Relay, c: Id, name: Name, host: Id, seed: nat, rules: Settings) {
    && c in r.conns && s.conns.Keys == r.conns.Keys && host in r.live && host != c && Free(r, host)
    && (forall o | o in r.live && o != c && Free(r, o) :: r.conns[host].born <= r.conns[o].born)
    && s.conns[host].partner == Some(c) && s.conns[c].partner == Some(host)
    && r.conns[host].tx <= s.conns[host].tx && r.conns[c].tx <= s.conns[c].tx
    && Starts(s.conns[host].tx[|r.conns[host].tx|..], 0, seed, rules.delay, rules.variation, name)
    && Starts(s.conns[c].tx[|r.conns[c].tx|..], 1, seed, rules.delay, rules.variation, r.conns[host].name)
    && forall o | o in r.conns && o != c && o != host :: s.conns[o] == r.conns[o]
  }

  /** Nobody is told anything, and nobody paired. */
  ghost predicate Quiet(r: Relay, s: Relay) {
    s.conns.Keys == r.conns.Keys && forall o | o in r.conns :: s.conns[o].tx == r.conns[o].tx && s.conns[o].partner == r.conns[o].partner
  }

  lemma PairingCouples(r: Relay, c: Id, seed: nat, rules: Settings) returns (host: Id)
    requires Known(r) && c in r.conns && Oldest(r, r.live, c).Some? && seed < 65536
    ensures Couples(r, TryPair(r, c, seed, rules), c, r.conns[c].name, host, seed, rules)
  {
    var toHost, toGuest;
    host, toHost, toGuest := PairingStarts(r, c, seed, rules);
    PairingTells(r, c, seed, rules);
    PairingLeaves(r, c, seed, rules);
    hide TryPair, Oldest, StartFrame, Starts, Known;
  }

  lemma PairingLeaves(r: Relay, c: Id, seed: nat, rules: Settings)
    requires Known(r) && c in r.conns && Oldest(r, r.live, c).Some?
    ensures var (s, host) := (TryPair(r, c, seed, rules), Oldest(r, r.live, c).value);
            forall o | o in r.conns && o != c && o != host :: o in s.conns && s.conns[o] == r.conns[o]
  {
    hide Oldest, StartFrame, Known;
  }

  lemma OldestIff(r: Relay, c: Id)
    requires Known(r) && c in r.conns
    ensures Oldest(r, r.live, c).Some? <==> exists o :: o in r.live && o != c && Free(r, o)
  {
    if o :| o in r.live && o != c && Free(r, o) {
      var i :| 0 <= i < |r.live| && r.live[i] == o;
      OldestIsOldest(r, r.live, c, i);
    }
    hide Oldest;
  }

  /** JOIN pairs its sender if and only if another live console is free; otherwise it says nothing. */
  lemma JoinPairs(r: Relay, c: Id, payload: seq<byte>, luck: Luck, rules: Settings) returns (host: Id)
    requires Known(r) && c in r.conns && |payload| < LONGEST && Digits(luck.digits) && luck.seed < 65536
    ensures var s := Handle(r, c, Packet(0x04, payload), luck, rules);
            if exists o :: o in r.live && o != c && Free(r, o) then Couples(r, s, c, r.conns[c].name, host, luck.seed, rules)
            else Quiet(r, s)
  {
    OldestIff(r, c);
    host := c;
    hide Oldest, Known, Couples, Free, Pair;
    if Oldest(r, r.live, c).Some? {
      host := PairingCouples(r, c, luck.seed, rules);
    }
  }

  /** A HELLO that is granted a name pairs its sender under that name, if and only if another live console is free. */
  lemma HelloPairs(r: Relay, c: Id, payload: seq<byte>, front: seq<byte>, core: seq<byte>, back: seq<byte>, name: Name,
                   luck: Luck, rules: Settings) returns (host: Id)
    requires Known(r) && c in r.conns && Digits(luck.digits) && Introduces(payload, front, core, back) && |payload| < LONGEST
    requires Capitals(name, core) && !Has(r.names, name) && luck.seed < 65536
    ensures var s := Handle(r, c, Packet(0x01, payload), luck, rules);
            if exists o :: o in r.live && o != c && Free(r, o) then Couples(r, s, c, name, host, luck.seed, rules)
            else Quiet(r, s)
  {
    HelloGreets(r, c, payload, front, core, back, name, luck, rules);
    var g := Greet(r, c, name);
    GreetIs(r, c, name);
    OldestIff(g, c);
    host := c;
    hide Oldest, Introduces, Capitals, Known, Couples, Free, Pair, Greet, Handle, Has;
    if Oldest(g, g.live, c).Some? {
      host := PairingCouples(g, c, luck.seed, rules);
      CouplesBefore(r, g, TryPair(g, c, luck.seed, rules), c, name, host, luck.seed, rules);
    }
  }

  lemma GreetIs(r: Relay, c: Id, name: Name)
    requires c in r.conns
    ensures var g := Greet(r, c, name);
            && g.live == r.live && g.conns.Keys == r.conns.Keys && g.conns[c] == r.conns[c].(name := name)
            && (forall o | o in r.conns && o != c :: g.conns[o] == r.conns[o])
            && forall o | o != c :: Free(g, o) <==> Free(r, o)
  {}

  lemma CouplesBefore(r: Relay, g: Relay, s: Relay, c: Id, name: Name, host: Id, seed: nat, rules: Settings)
    requires c in r.conns && g.conns.Keys == r.conns.Keys && g.live == r.live && g.conns[c] == r.conns[c].(name := name)
    requires forall o | o in r.conns && o != c :: g.conns[o] == r.conns[o]
    requires Couples(g, s, c, name, host, seed, rules)
    ensures Couples(r, s, c, name, host, seed, rules)
  {
    hide Starts;
  }

  // ---- LIST ----

  /** The places in the order of those with names, in order. */
  predicate NamedAt(r: Relay, ids: seq<Id>, at: seq<nat>)
    requires forall i | 0 <= i < |ids| :: ids[i] in r.conns
  {
    && (forall k | 0 <= k < |at| :: at[k] < |ids| && r.conns[ids[at[k]]].name != [])
    && (forall j, k | 0 <= j < k < |at| :: at[j] < at[k])
    && EveryName(r, ids, at)
  }

  predicate EveryName(r: Relay, ids: seq<Id>, at: seq<nat>)
    requires forall i | 0 <= i < |ids| :: ids[i] in r.conns
  {
    forall i | 0 <= i < |ids| && r.conns[ids[i]].name != [] :: i in at
  }

  lemma EveryNameMore(r: Relay, ids: seq<Id>, at: seq<nat>)
    requires ids != [] && (forall i | 0 <= i < |ids| :: ids[i] in r.conns) && EveryName(r, ids[..|ids| - 1], at)
    ensures EveryName(r, ids, if r.conns[ids[|ids| - 1]].name != [] then at + [|ids| - 1] else at)
  {
    var (front, last) := (ids[..|ids| - 1], |ids| - 1);
    forall i | 0 <= i < |ids| && r.conns[ids[i]].name != []
      ensures i in at || i == last
    {
      assert i < last ==> front[i] == ids[i];
    }
  }

  /** One more of the list, at its end. */
  lemma NamedAtMore(r: Relay, ids: seq<Id>, at: seq<nat>)
    requires ids != [] && (forall i | 0 <= i < |ids| :: ids[i] in r.conns) && NamedAt(r, ids[..|ids| - 1], at)
    ensures NamedAt(r, ids, if r.conns[ids[|ids| - 1]].name != [] then at + [|ids| - 1] else at)
  {
    EveryNameMore(r, ids, at);
    hide EveryName;
  }

  /** Those at the places. */
  predicate Picks(named: seq<Id>, ids: seq<Id>, at: seq<nat>) {
    |named| == |at| && forall k | 0 <= k < |at| :: at[k] < |ids| && named[k] == ids[at[k]]
  }

  lemma PicksMore(named: seq<Id>, ids: seq<Id>, at: seq<nat>)
    requires ids != [] && Picks(named, ids[..|ids| - 1], at)
    ensures Picks(named, ids, at) && Picks(named + [ids[|ids| - 1]], ids, at + [|ids| - 1])
  {}

  /** One more, named or not. */
  lemma NamedGrows(r: Relay, ids: seq<Id>, at: seq<nat>)
    requires ids != [] && forall i | 0 <= i < |ids| :: ids[i] in r.conns
    requires NamedAt(r, ids[..|ids| - 1], at) && Picks(Named(r, ids[..|ids| - 1]), ids[..|ids| - 1], at)
    ensures var more := if r.conns[ids[|ids| - 1]].name != [] then at + [|ids| - 1] else at;
            NamedAt(r, ids, more) && Picks(Named(r, ids), ids, more)
  {
    NamedAtMore(r, ids, at);
    PicksMore(Named(r, ids[..|ids| - 1]), ids, at);
    hide NamedAt, Picks;
  }

  lemma NoneNamed(r: Relay)
    ensures NamedAt(r, [], []) && Picks(Named(r, []), [], [])
  {}

  /** Those with names are picked out in order. */
  lemma {:induction false} NamedIsAt(r: Relay, ids: seq<Id>) returns (at: seq<nat>)
    requires forall i | 0 <= i < |ids| :: ids[i] in r.conns
    ensures NamedAt(r, ids, at) && Picks(Named(r, ids), ids, at)
  {
    hide NamedAt, Picks, Named;
    at := [];
    if ids == [] {
      NoneNamed(r);
    } else {
      at := NamedIsAt(r, ids[..|ids| - 1]);
      NamedGrows(r, ids, at);
      at := if r.conns[ids[|ids| - 1]].name != [] then at + [|ids| - 1] else at;
    }
  }

  /** A lobby row, from some byte on: a name in eight bytes, and whether its console is playing. */
  predicate RowAt(f: seq<byte>, at: nat, name: Name, playing: bool) {
    && at + 9 <= |f|
    && (forall j | 0 <= j < 8 :: f[at + j] == if j < |name| then name[j] else 0)
    && f[at + 8] == if playing then 1 else 0
  }

  lemma RowMoves(head: seq<byte>, rows: seq<byte>, at: nat, name: Name, playing: bool)
    requires RowAt(rows, at, name, playing)
    ensures RowAt(head + rows, |head| + at, name, playing)
  {
    var f := head + rows;
    assert forall i | 0 <= i < |rows| :: f[|head| + i] == rows[i];
    forall j | 0 <= j < 8
      ensures f[(|head| + at) + j] == if j < |name| then name[j] else 0
    {
      assert f[|head| + (at + j)] == rows[at + j];
    }
    assert f[|head| + (at + 8)] == rows[at + 8];
  }

  lemma RowStays(rows: seq<byte>, more: seq<byte>, at: nat, name: Name, playing: bool)
    requires RowAt(rows, at, name, playing)
    ensures RowAt(rows + more, at, name, playing)
  {}

  lemma RowSays(name: Name, playing: bool)
    requires |name| <= 8
    ensures RowAt(Row(name, playing), 0, name, playing)
  {
    var p := Padded(name, 8);
    assert forall j | 0 <= j < 8 :: p[j] == if j < |name| then name[j] else 0;
  }

  lemma {:induction false} RowsSay(r: Relay, ids: seq<Id>, k: nat)
    requires (forall i | 0 <= i < |ids| :: ids[i] in r.conns && |r.conns[ids[i]].name| <= 8) && k < |ids|
    ensures RowAt(Rows(r, ids), 9 * k, r.conns[ids[k]].name, r.conns[ids[k]].partner.Some?)
  {
    var (front, o) := (ids[..|ids| - 1], r.conns[ids[|ids| - 1]]);
    hide RowAt, Row;
    if k < |ids| - 1 {
      RowsSay(r, front, k);
      assert front[k] == ids[k];
      RowStays(Rows(r, front), Row(o.name, o.partner.Some?), 9 * k, r.conns[ids[k]].name, r.conns[ids[k]].partner.Some?);
    } else {
      RowSays(o.name, o.partner.Some?);
      RowMoves(Rows(r, front), Row(o.name, o.partner.Some?), 0, o.name, o.partner.Some?);
    }
  }

  lemma ShownRows(r: Relay, shown: seq<Id>, f: seq<byte>)
    requires (forall i | 0 <= i < |shown| :: shown[i] in r.conns && |r.conns[shown[i]].name| <= 8) && |shown| <= 8
    requires f == [(2 + 9 * |shown|) as byte, 0x03, |shown| as byte] + Rows(r, shown)
    ensures forall k | 0 <= k < |shown| :: RowAt(f, 3 + 9 * k, r.conns[shown[k]].name, r.conns[shown[k]].partner.Some?)
  {
    hide Rows, RowAt;
    forall k | 0 <= k < |shown|
      ensures RowAt(f, 3 + 9 * k, r.conns[shown[k]].name, r.conns[shown[k]].partner.Some?)
    {
      RowsSay(r, shown, k);
      RowMoves([(2 + 9 * |shown|) as byte, 0x03, |shown| as byte], Rows(r, shown), 9 * k,
               r.conns[shown[k]].name, r.conns[shown[k]].partner.Some?);
    }
  }

  /** The lobby's bytes: how many are shown, and a row for each. */
  lemma LobbyIs(r: Relay) returns (shown: seq<Id>)
    requires Known(r)
    ensures (forall i | 0 <= i < |r.live| :: r.live[i] in r.conns) && (forall i | 0 <= i < |shown| :: shown[i] in r.conns)
    ensures shown == Firsts(Named(r, r.live), 8)
    ensures var f := LobbyFrame(r);
            && |f| == 3 + 9 * |shown| && f[0] as int == 2 + 9 * |shown| && f[1] == 0x03 && f[2] as int == |shown|
            && forall k | 0 <= k < |shown| :: RowAt(f, 3 + 9 * k, r.conns[shown[k]].name, r.conns[shown[k]].partner.Some?)
  {
    shown := Firsts(Named(r, r.live), 8);
    var f := LobbyFrame(r);
    assert f == [(2 + 9 * |shown|) as byte, 0x03, |shown| as byte] + Rows(r, shown);
    ShownRows(r, shown, f);
    hide Named, Rows, RowAt;
  }

  /**
   * LIST is answered with the named live consoles in accept order, eight of them at most: how many, and of each its
   * name in eight bytes, then 1 if it has a partner and 0 if it waits.
   */
  lemma ListIsAnswered(r: Relay, c: Id, luck: Luck, rules: Settings) returns (f: seq<byte>, at: seq<nat>)
    requires Known(r) && c in r.conns && Digits(luck.digits)
    ensures var s := Handle(r, c, Packet(0x02, []), luck, rules);
            && s.conns.Keys == r.conns.Keys && s.conns[c].tx == r.conns[c].tx + f
            && (forall o | o in r.conns && o != c :: s.conns[o] == r.conns[o])
    ensures (forall i | 0 <= i < |r.live| :: r.live[i] in r.conns) && NamedAt(r, r.live, at)
    ensures var n := if |at| < 8 then |at| else 8;
            && |f| == 3 + 9 * n && f[0] as int == 2 + 9 * n && f[1] == 0x03 && f[2] as int == n
            && forall k | 0 <= k < n :: var o := r.conns[r.live[at[k]]]; RowAt(f, 3 + 9 * k, o.name, o.partner.Some?)
  {
    assert forall i | 0 <= i < |r.live| :: r.live[i] in r.conns;
    hide Named, Rows, Known, RowAt, LobbyFrame, NamedAt, Picks, Firsts;
    at := NamedIsAt(r, r.live);
    f := LobbyFrame(r);
    var shown := LobbyIs(r);
    FirstsPick(Named(r, r.live), r.live, at);
  }

  lemma FirstsPick(named: seq<Id>, ids: seq<Id>, at: seq<nat>)
    requires Picks(named, ids, at)
    ensures |Firsts(named, 8)| == if |at| < 8 then |at| else 8
    ensures forall k | 0 <= k < |at| && k < 8 :: at[k] < |ids| && Firsts(named, 8)[k] == ids[at[k]]
  {}

  // ---- the other frames ----

  /** PING is answered with PONG, to its sender alone. */
  lemma PingIsAnswered(r: Relay, c: Id, payload: seq<byte>, luck: Luck, rules: Settings)
    requires Known(r) && c in r.conns && |payload| < LONGEST && Digits(luck.digits)
    ensures Handle(r, c, Packet(0x0C, payload), luck, rules)
         == r.(conns := r.conns[c := r.conns[c].(tx := r.conns[c].tx + [1, 0x0D])])
  {
    assert FrameBytes(Packet(PONG, [])) == [1, 0x0D];
    hide FrameBytes, Known;
  }

  /** BYE drops its sender, JOIN looks for a partner, and what is none of the relay's types does nothing at all. */
  lemma OtherFrames(r: Relay, c: Id, kind: byte, payload: seq<byte>, luck: Luck, rules: Settings)
    requires Known(r) && c in r.conns && |payload| < LONGEST && Digits(luck.digits)
    ensures kind == 0x0A ==> c !in Handle(r, c, Packet(kind, payload), luck, rules).live
    ensures kind == 0x04 && Oldest(r, r.live, c).Some? ==>
              var s := Handle(r, c, Packet(kind, payload), luck, rules); c in s.conns && s.conns[c].partner == Oldest(r, r.live, c)
    ensures kind in {0x00, 0x03, 0x05, 0x0B, 0x0D} || kind > 0x0D ==> Handle(r, c, Packet(kind, payload), luck, rules) == r
  {
    if kind == 0x0A {
      DropKeepsKnown(r, c);
    }
    if kind == 0x04 && Oldest(r, r.live, c).Some? {
      PairingTells(r, c, luck.seed, rules);
    }
    hide Drop, TryPair, Known, Oldest, StartFrame;
  }

  /** A game frame, padded with zeros. */
  predicate GameBytes(f: seq<byte>, kind: byte, payload: seq<byte>) {
    |f| == 16 && f[0] == 15 && f[1] == kind && forall j | 0 <= j < 14 :: f[2 + j] == if j < |payload| then payload[j] else 0
  }

  /** The four types that are passed on are passed on under their own type, to the partner alone, padded to sixteen bytes. */
  lemma GameFramesPass(r: Relay, c: Id, kind: byte, payload: seq<byte>, luck: Luck, rules: Settings)
    requires Known(r) && c in r.conns && |payload| <= 14 && Digits(luck.digits) && kind in {0x06, 0x07, 0x08, 0x09}
    requires r.conns[c].partner.Some?
    ensures var (s, p) := (Handle(r, c, Packet(kind, payload), luck, rules), r.conns[c].partner.value);
            && p in r.conns && s.conns.Keys == r.conns.Keys
            && r.conns[p].tx <= s.conns[p].tx
            && (forall o | o in r.conns && o != p :: s.conns[o].tx == r.conns[o].tx)
            && GameBytes(s.conns[p].tx[|r.conns[p].tx|..], kind, payload)
  {
    var p := r.conns[c].partner.value;
    var bytes := FrameBytes(Packet(kind, Padded(payload, 14)));
    GameFrameIs(kind, payload);
    SendKeeps(r, p, bytes);
    SentIs(r, p, bytes);
    hide Known, LogCrc, FrameBytes, Padded, SameNames, GameBytes, Send;
    if kind == 0x06 && |payload| > 10 {
      LogTellsNobody(Send(r, p, bytes), c, payload[0], payload[10]);
    }
  }

  lemma GameFrameIs(kind: byte, payload: seq<byte>)
    requires |payload| <= 14
    ensures GameBytes(FrameBytes(Packet(kind, Padded(payload, 14))), kind, payload)
  {
    var out := Padded(payload, 14);
    assert forall j | 0 <= j < 14 :: out[j] == if j < |payload| then payload[j] else 0;
    assert FrameBytes(Packet(kind, out)) == [15, kind] + out;
  }

  lemma SentIs(r: Relay, p: Id, bytes: seq<byte>)
    requires p in r.conns
    ensures var s := Send(r, p, bytes);
            && s.conns.Keys == r.conns.Keys && r.conns[p].tx <= s.conns[p].tx && s.conns[p].tx[|r.conns[p].tx|..] == bytes
            && forall o | o in r.conns && o != p :: s.conns[o].tx == r.conns[o].tx
  {}

  /** A record from a console with no partner is kept all the same, for its own clock's sake. */
  lemma LoneRecordIsKept(r: Relay, c: Id, payload: seq<byte>, luck: Luck, rules: Settings)
    requires Known(r) && c in r.conns && |payload| < LONGEST && |payload| > 10 && Digits(luck.digits)
    requires r.conns[c].partner == None
    ensures Handle(r, c, Packet(0x06, payload), luck, rules)
         == Ledgered(r, c, Ruled(r.conns[c].ledger, None, payload[0], payload[10]).0)
    ensures KeyOf(Clocked(r.conns[c].ledger, payload[0])) == KeyOf(Ruled(r.conns[c].ledger, None, payload[0], payload[10]).0)
  {
    LogSteps(r, c, payload[0], payload[10]);
    hide Known, Clocked, IndexOf, Put;
  }

  // ---- limits ----

  /** The door of the reassembler: a length byte of 1 to 200 is a frame; anything else ends the connection. */
  lemma LengthsAtTheDoor(rx: seq<byte>)
    ensures Malformed(rx) <==> rx != [] && (rx[0] == 0 || rx[0] > 200)
    ensures Ready(rx) <==> rx != [] && 1 <= rx[0] <= 200 && |rx| >= rx[0] as int + 1
  {}

  /** A send leaves what it did not take; more than 65536 bytes left drop a live connection, and it is counted. */
  lemma FlushDropsIff(r: Relay, c: Id, k: nat)
    requires Known(r) && c in r.conns && c in r.live && k <= |r.conns[c].tx|
    ensures var s := Flush(r, c, k);
            && (c !in s.live <==> |r.conns[c].tx| - k > 65536)
            && c in s.conns && s.conns[c].tx == r.conns[c].tx[k..]
            && s.stats == r.stats.(txDrops := r.stats.txDrops + if |r.conns[c].tx| - k > 65536 then 1 else 0)
  {
    DrainedIsKnown(r, c, k);
    var d := Overrun(Drained(r, c, k));
    DropKeepsKnown(d, c);
    DropTold(d, c);
    DropLeavesOwn(d, c);
    hide Drop, Known, Told;
  }

  /** A malformed length is counted, and drops its sender. */
  lemma MalformedIsBlamed(r: Relay, c: Id, luck: nat -> Luck, k: nat, rules: Settings)
    requires Known(r) && c in r.conns && forall i: nat :: Digits(luck(i).digits)
    requires var rx := r.conns[c].rx; rx != [] && (rx[0] == 0 || rx[0] > 200)
    ensures var s := Serve(r, c, luck, k, rules);
            c !in s.live && s.stats == r.stats.(badFrames := r.stats.badFrames + 1)
  {
    BlamedIsKnown(r);
    DropKeepsKnown(Blamed(r), c);
    DropLeavesOwn(Blamed(r), c);
    hide Drop, Known;
  }

  lemma DropLeavesOwn(r: Relay, c: Id)
    requires Known(r) && c in r.conns
    ensures c in Drop(r, c).conns && Drop(r, c).conns[c].tx == r.conns[c].tx && Drop(r, c).stats == r.stats
  {
    hide PeerLeft, Without, IndexOf;
  }

  /** A record that finds nothing to pair with leaves its sender the eight newest of its checksums. */
  lemma UnpairedKeepsEight(c: Ledger, p: Ledger, tick: byte, crc: byte)
    requires Ruled(c, Some(p), tick, crc).2 == Unpaired
    ensures var (d, e) := (Ruled(c, Some(p), tick, crc).0.crc, Put(c.crc, KeyOf(Clocked(c, tick)), crc));
            |d| == (if |e| < 8 then |e| else 8) && d == e[|e| - |d|..]
    ensures Ruled(c, Some(p), tick, crc).1 == Some(p)
  {
    var noted := Clocked(c, tick).(crc := Put(c.crc, KeyOf(Clocked(c, tick)), crc));
    NewestIs(noted.crc);
    hide Clocked, Has, Put, Pop, Newest, KeyOf;
  }

  lemma NewestIs(e: seq<Entry<nat, byte>>)
    ensures var d := Newest(e, KEPT); |d| == (if |e| < 8 then |e| else 8) && d == e[|e| - |d|..]
  {}

  // ---- no address has more than its share ----

  /** Those of a list that come from an address. */
  function FromIn(r: Relay, ids: seq<Id>, addr: nat): set<Id> {
    set c | c in ids && c in r.conns && r.conns[c].addr == addr
  }

  /** Live connections from one address. */
  function FromOne(r: Relay, addr: nat): set<Id> {
    FromIn(r, r.live, addr)
  }

  lemma FromOneMore(r: Relay, front: seq<Id>, o: Id, addr: nat)
    requires o !in front && o in r.conns
    ensures FromIn(r, front + [o], addr) == if r.conns[o].addr == addr then FromIn(r, front, addr) + {o} else FromIn(r, front, addr)
    ensures o !in FromIn(r, front, addr)
  {}

  lemma {:induction false} SharesAre(r: Relay, ids: seq<Id>, addr: nat)
    requires NoRepeats(ids) && forall i | 0 <= i < |ids| :: ids[i] in r.conns
    ensures |FromIn(r, ids, addr)| == FromAddress(r, ids, addr)
  {
    if ids == [] {
      assert FromIn(r, ids, addr) == {};
    } else {
      var (front, o) := (ids[..|ids| - 1], ids[|ids| - 1]);
      SharesAre(r, front, addr);
      assert ids == front + [o] && o !in front;
      FromOneMore(r, front, o, addr);
      hide FromIn;
    }
  }

  /** Never more than sixty-four live, and never more than eight from an address. */
  ghost predicate Shared(r: Relay) {
    Known(r) && |r.live| <= 64 && forall addr :: |FromOne(r, addr)| <= 8
  }

  /** Nobody new is live, and nobody's address changes. */
  ghost predicate NoneNew(r: Relay, s: Relay) {
    && Known(s) && |s.live| <= |r.live|
    && forall c | c in s.live && c in s.conns :: c in r.live && c in r.conns && s.conns[c].addr == r.conns[c].addr
  }

  lemma NoneNewKeepsShared(r: Relay, s: Relay)
    requires Shared(r) && NoneNew(r, s)
    ensures Shared(s)
  {
    forall addr
      ensures |FromOne(s, addr)| <= 8
    {
      assert FromOne(s, addr) <= FromOne(r, addr);
      SmallerSet(FromOne(s, addr), FromOne(r, addr));
    }
    hide Known;
  }

  lemma AcceptKeepsShared(r: Relay, c: Id, addr: nat, born: int)
    requires Shared(r) && c !in r.conns
    ensures Shared(Accept(r, c, addr, born))
  {
    var s := Accept(r, c, addr, born);
    SharesAre(r, r.live, addr);
    assert Known(s);
    forall a
      ensures |FromOne(s, a)| <= 8
    {
      assert |FromOne(r, a)| <= 8;
      if s.live != r.live {
        assert FromOne(s, a) == if a == addr then FromOne(r, a) + {c} else FromOne(r, a) by { AdmittedFrom(r, c, addr, born, a); }
      } else {
        assert FromOne(s, a) == FromOne(r, a);
      }
    }
    hide Known, FromAddress;
  }

  /**
   * An arrival is let in exactly while fewer than sixty-four are live and fewer than eight from its address; it is
   * last in the order, has said nothing and been told nothing; and only a refusal for its address is counted.
   */
  lemma ArrivalIff(r: Relay, c: Id, addr: nat, born: int)
    requires Known(r) && c !in r.conns
    ensures var (s, full, enough) := (Accept(r, c, addr, born), |r.live| >= 64, |FromOne(r, addr)| >= 8);
            && (c in s.conns <==> !full && !enough)
            && s.live == (if full || enough then r.live else r.live + [c]) && s.names == r.names
            && s.stats == r.stats.(ipRejects := r.stats.ipRejects + if !full && enough then 1 else 0)
            && (forall o | o in r.conns :: o in s.conns && s.conns[o] == r.conns[o])
            && (c in s.conns ==>
                  var n := s.conns[c];
                  n.addr == addr && n.rx == n.tx == n.name == [] && n.partner == None && n.born == born && n.ledger == FRESH)
  {
    SharesAre(r, r.live, addr);
    hide FromAddress, FromIn, Known;
  }

  lemma AdmittedFrom(r: Relay, c: Id, addr: nat, born: int, a: nat)
    requires Known(r) && c !in r.conns
    ensures FromOne(Admitted(r, c, addr, born), a) == if a == addr then FromOne(r, a) + {c} else FromOne(r, a)
  {}

  lemma NoneNewTwice(a: Relay, b: Relay, d: Relay)
    requires NoneNew(a, b) && NoneNew(b, d)
    ensures NoneNew(a, d)
  {
    forall c | c in d.live && c in d.conns
      ensures c in a.live && c in a.conns && d.conns[c].addr == a.conns[c].addr
    {
      assert c in b.live;
    }
  }

  lemma SendNoneNew(r: Relay, o: Id, bytes: seq<byte>)
    requires Known(r) && o in r.conns
    ensures NoneNew(r, Send(r, o, bytes))
  {
    SendKeeps(r, o, bytes);
  }

  lemma DropNoneNew(r: Relay, c: Id)
    requires Known(r) && c in r.conns
    ensures NoneNew(r, Drop(r, c))
  {
    DropKeepsKnown(r, c);
    WithoutShorter(r.live, c);
    hide PeerLeft, IndexOf, Without;
  }

  lemma LogNoneNew(r: Relay, c: Id, tick: byte, crc: byte)
    requires Known(r) && c in r.conns
    ensures NoneNew(r, LogCrc(r, c, tick, crc))
  {
    LogKeeps(r, c, tick, crc);
    hide Ruled;
  }

  lemma ForwardNoneNew(r: Relay, c: Id, p: Packet)
    requires Known(r) && c in r.conns && |p.payload| < LONGEST
    ensures NoneNew(r, Forward(r, c, p))
  {
    var bytes := FrameBytes(Packet(p.kind, Padded(p.payload, GAME_PAYLOAD)));
    var sent := if r.conns[c].partner.None? then r else Send(r, r.conns[c].partner.value, bytes);
    if r.conns[c].partner.Some? {
      SendKeeps(r, r.conns[c].partner.value, bytes);
      SendNoneNew(r, r.conns[c].partner.value, bytes);
    }
    assert Known(sent) && c in sent.conns && NoneNew(r, sent);
    hide Known, NoneNew, LogCrc, FrameBytes, Padded, SameNames;
    if p.kind == INPUT && |p.payload| > CRC_AT {
      LogNoneNew(sent, c, p.payload[0], p.payload[CRC_AT]);
      NoneNewTwice(r, sent, LogCrc(sent, c, p.payload[0], p.payload[CRC_AT]));
    }
  }

  lemma TryPairNoneNew(r: Relay, c: Id, seed: nat, rules: Settings)
    requires Known(r) && c in r.conns
    ensures NoneNew(r, TryPair(r, c, seed, rules))
  {
    TryPairKeeps(r, c, seed, rules);
    hide Oldest, StartFrame;
  }

  lemma GreetNoneNew(r: Relay, c: Id, name: Name)
    requires Known(r) && c in r.conns && NameOk(name)
    ensures NoneNew(r, Greet(r, c, name))
  {}

  lemma HelloNoneNew(r: Relay, c: Id, payload: seq<byte>, luck: Luck, rules: Settings)
    requires Known(r) && c in r.conns && Digits(luck.digits)
    ensures NoneNew(r, OnHello(r, c, payload, luck, rules))
  {
    hide Drop, TryPair, FreeName, IndexOf, Put, Asked, NameOk, Known, Told, NoneNew, Greet;
    DropNoneNew(r, c);
    var asked := Asked(payload);
    if asked.Some? {
      AskedIsOk(payload);
      FreeNameIsOk(r.names, asked.value, luck.digits);
      var free := FreeName(r.names, asked.value, luck.digits);
      if free.Some? {
        var named := Greet(r, c, free.value);
        GreetTold(r, c, free.value);
        GreetNoneNew(r, c, free.value);
        TryPairNoneNew(named, c, luck.seed, rules);
        NoneNewTwice(r, named, TryPair(named, c, luck.seed, rules));
      }
    }
  }

  lemma HandleNoneNew(r: Relay, c: Id, p: Packet, luck: Luck, rules: Settings)
    requires Known(r) && c in r.conns && |p.payload| < LONGEST && Digits(luck.digits)
    ensures NoneNew(r, Handle(r, c, p, luck, rules))
  {
    NoneNewSelf(r);
    hide Known, Forward, OnHello, TryPair, Drop, Send, LobbyFrame, NoneNew;
    if Relayed(p.kind) {
      ForwardNoneNew(r, c, p);
    } else if p.kind == HELLO {
      HelloNoneNew(r, c, p.payload, luck, rules);
    } else if p.kind == LIST {
      SendNoneNew(r, c, LobbyFrame(r));
    } else if p.kind == JOIN {
      TryPairNoneNew(r, c, luck.seed, rules);
    } else if p.kind == PING {
      SendNoneNew(r, c, FrameBytes(Packet(PONG, [])));
    } else if p.kind == BYE {
      DropNoneNew(r, c);
    }
  }

  lemma NoneNewSelf(r: Relay)
    requires Known(r)
    ensures NoneNew(r, r)
  {}

  lemma FlushNoneNew(r: Relay, c: Id, k: nat)
    requires Known(r) && c in r.conns && k <= |r.conns[c].tx|
    ensures NoneNew(r, Flush(r, c, k))
  {
    DrainedIsKnown(r, c, k);
    var s := Drained(r, c, k);
    assert NoneNew(r, s) && NoneNew(r, Overrun(s));
    hide Known, Drop, NoneNew;
    DropNoneNew(Overrun(s), c);
    NoneNewTwice(r, Overrun(s), Drop(Overrun(s), c));
  }

  lemma ForgetNoneNew(r: Relay)
    requires Known(r) && Known(Forgotten(r))
    ensures NoneNew(r, Forgotten(r))
  {}

  lemma StepKeepsShared(r: Relay, e: Event, rules: Settings)
    requires Shared(r) && Known(r) && Possible(r, e)
    ensures Shared(Step(r, e, rules))
  {
    hide Shared, Known, NoneNew, Handle, Drop, Accept, Flush, Forgotten;
    match e
    case Arrive(c, addr, born) => AcceptKeepsShared(r, c, addr, born);
    case Speak(c, p, luck) =>
      HandleNoneNew(r, c, p, luck, rules);
      NoneNewKeepsShared(r, Handle(r, c, p, luck, rules));
    case Hangup(c) =>
      DropNoneNew(r, c);
      NoneNewKeepsShared(r, Drop(r, c));
    case Take(c, k) =>
      FlushNoneNew(r, c, k);
      NoneNewKeepsShared(r, Flush(r, c, k));
    case Forget =>
      ForgetNoneNew(r);
      NoneNewKeepsShared(r, Forgotten(r));
  }

  lemma EmptyIsShared()
    ensures Shared(EMPTY)
  {
    forall addr
      ensures |FromOne(EMPTY, addr)| <= 8
    {
      assert FromOne(EMPTY, addr) == {};
    }
  }

  /** For any clients, however they behave: at most sixty-four are live, and at most eight from any one address. */
  lemma {:induction false} NoAddressHasMore(events: seq<Event>, rules: Settings, r: Relay)
    requires Reached(events, rules, r)
    ensures Shared(r)
  {
    hide Shared, Step, Possible, Known;
    if events == [] {
      EmptyIsShared();
    } else {
      var before: Relay :|
        && Known(before) && Reached(events[..|events| - 1], rules, before) && Possible(before, events[|events| - 1])
        && r == Step(before, events[|events| - 1], rules);
      NoAddressHasMore(events[..|events| - 1], rules, before);
      StepKeepsShared(before, events[|events| - 1], rules);
    }
  }
}
