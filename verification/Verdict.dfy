/** How the relay pairs the two consoles' checksums, and what its verdict is worth. */
module Verdict {
  import opened Bytes
  import opened Ordered
  import opened Lockstep

  /** One client's checksums by tick, and the clock that tells one lap of the wire tick from the next. */
  datatype Ledger = Ledger(crc: seq<Entry<nat, byte>>, lap: nat, last: Option<byte>)

  const KEPT: nat := 8

  /** A tick that has gone backwards within half the range has wrapped. */
  function Clocked(l: Ledger, tick: byte): (c: Ledger)
    ensures c.last == Some(tick) && c.crc == l.crc
  {
    var wrapped := l.last.Some? && 0 < Low(tick as int - l.last.value as int) < 128 && tick < l.last.value;
    l.(lap := if wrapped then l.lap + 1 else l.lap, last := Some(tick))
  }

  function KeyOf(l: Ledger): nat
    requires l.last.Some?
  {
    l.lap * 256 + l.last.value as nat
  }

  datatype Ruling = Unpaired | Agree | Differ

  /** A client's record: its ledger, its partner's, and what the pairing shows. */
  function Ruled(c: Ledger, p: Option<Ledger>, tick: byte, crc: byte): (Ledger, Option<Ledger>, Ruling) {
    var clocked := Clocked(c, tick);
    var key := KeyOf(clocked);
    var noted := clocked.(crc := Put(clocked.crc, key, crc));
    if p.None? || !Has(p.value.crc, key) then (noted.(crc := Newest(noted.crc, KEPT)), p, Unpaired)
    else
      (noted, Some(p.value.(crc := Pop(p.value.crc, key))), if Get(p.value.crc, key) == crc then Agree else Differ)
  }

  // ---- a match ----

  /** A record as its sender meant it: the unbounded stamp and the checksum. */
  datatype Sample = Sample(side: Side, y: nat, crc: byte)

  datatype Court = Court(host: Ledger, guest: Ledger, ok: nat, bad: nat) {
    function Of(s: Side): Ledger {
      if s == Host then host else guest
    }
  }

  const FRESH := Ledger([], 0, None)

  function Hear(c: Court, s: Sample): Court {
    var (mine, theirs, ruling) := Ruled(c.Of(s.side), Some(c.Of(Other(s.side))), Low(s.y), s.crc);
    Court(if s.side == Host then mine else theirs.value, if s.side == Host then theirs.value else mine,
          if ruling == Agree then c.ok + 1 else c.ok, if ruling == Differ then c.bad + 1 else c.bad)
  }

  /** The first match of two fresh connections. */
  function Trial(samples: seq<Sample>): Court {
    if samples == [] then Court(FRESH, FRESH, 0, 0)
    else Hear(Trial(samples[..|samples| - 1]), samples[|samples| - 1])
  }

  /** The stamp of a console's latest record. */
  function LatestOf(samples: seq<Sample>, side: Side): Option<nat> {
    if samples == [] then None
    else if samples[|samples| - 1].side == side then Some(samples[|samples| - 1].y)
    else LatestOf(samples[..|samples| - 1], side)
  }

  /** Each console's stamps start in the first lap, never go back, and never jump half a lap. */
  predicate Orderly(samples: seq<Sample>) {
    samples != [] ==>
      var (before, s) := (samples[..|samples| - 1], samples[|samples| - 1]);
      && Orderly(before)
      && match LatestOf(before, s.side)
         case None => s.y < 256
         case Some(z) => z <= s.y < z + 128
  }

  // ---- the lap is the true lap ----

  /** The clock of a ledger stands at the unbounded stamp. */
  predicate Stands(l: Ledger, y: Option<nat>) {
    && l.last.Some? == y.Some?
    && (y.Some? ==> KeyOf(l) == y.value && l.last.value == Low(y.value))
    && (y.None? ==> l.lap == 0)
  }

  lemma ClockFollows(l: Ledger, z: Option<nat>, y: nat)
    requires Stands(l, z) && (if z.None? then y < 256 else z.value <= y < z.value + 128)
    ensures Stands(Clocked(l, Low(y)), Some(y))
  {
    if z.Some? {
      WrapShows(z.value, y);
    }
  }

  /** The low bytes of two stamps less than half a lap apart say whether a lap ended between them. */
  lemma WrapShows(z: nat, y: nat)
    requires z <= y < z + 128
    ensures var (a, b) := (Low(z), Low(y));
            && Low(b as int - a as int) as int == y - z
            && y / 256 == z / 256 + (if b < a then 1 else 0)
  {
    var (a, b) := (z % 256, y % 256);
    if y / 256 == z / 256 {
      assert b - a == y - z;
    } else {
      assert y / 256 == z / 256 + 1;
      assert b - a == y - z - 256;
    }
  }

  /** Only its own records move a ledger's clock. */
  lemma HearMovesClock(c: Court, s: Sample, side: Side, y: Option<nat>)
    requires Stands(if s.side == side then Clocked(c.Of(side), Low(s.y)) else c.Of(side), y)
    ensures Stands(Hear(c, s).Of(side), y)
  {
    RuledMovesClock(c.Of(s.side), c.Of(Other(s.side)), Low(s.y), s.crc);
    hide Low, Ruled, Clocked;
  }

  lemma RuledMovesClock(c: Ledger, p: Ledger, tick: byte, crc: byte)
    ensures var (c', p', _) := Ruled(c, Some(p), tick, crc);
            && c'.lap == Clocked(c, tick).lap && c'.last == Clocked(c, tick).last
            && p'.Some? && p'.value.lap == p.lap && p'.value.last == p.last
  {
    hide Clocked, Low, IndexOf;
  }

  /** On any orderly run, over any number of wraps, the key of a record is its true stamp. */
  lemma {:induction false} LapIsTrue(samples: seq<Sample>, side: Side)
    requires Orderly(samples)
    ensures Stands(Trial(samples).Of(side), LatestOf(samples, side))
  {
    if samples != [] {
      var (before, s) := (samples[..|samples| - 1], samples[|samples| - 1]);
      LapIsTrue(before, side);
      var c := Trial(before);
      if s.side == side {
        ClockFollows(c.Of(side), LatestOf(before, side), s.y);
        HearMovesClock(c, s, side, Some(s.y));
      } else {
        HearMovesClock(c, s, side, LatestOf(before, side));
      }
      hide Hear, Clocked, Stands, Low;
    }
  }

  /** One more record is one more hearing, with the clock at its true stamp. */
  lemma OneMore(before: seq<Sample>, s: Sample)
    requires Orderly(before + [s])
    ensures Orderly(before) && Trial(before + [s]) == Hear(Trial(before), s)
    ensures Stands(Clocked(Trial(before).Of(s.side), Low(s.y)), Some(s.y))
  {
    assert (before + [s])[..|before + [s]| - 1] == before;
    LapIsTrue(before, s.side);
    ClockFollows(Trial(before).Of(s.side), LatestOf(before, s.side), s.y);
    hide Hear, Stands, Clocked;
  }

  // ---- what is in a ledger was sent ----

  /** Every checksum a ledger holds is one its console sent for that very stamp. */
  ghost predicate Truthful(l: Ledger, samples: seq<Sample>, side: Side) {
    && Distinct(l.crc)
    && forall i | 0 <= i < |l.crc| :: Sample(side, l.crc[i].key, l.crc[i].value) in samples
  }

  lemma RuledTruthful(c: Ledger, p: Ledger, s: Sample, samples: seq<Sample>)
    requires Truthful(c, samples, s.side) && Truthful(p, samples, Other(s.side))
    requires Stands(Clocked(c, Low(s.y)), Some(s.y))
    ensures var (c', p', ruling) := Ruled(c, Some(p), Low(s.y), s.crc);
            && Truthful(c', samples + [s], s.side) && Truthful(p'.value, samples + [s], Other(s.side))
            && (ruling == Differ ==> exists v :: v != s.crc && Sample(Other(s.side), s.y, v) in samples)
            && (ruling == Agree ==> Sample(Other(s.side), s.y, s.crc) in samples)
  {
    PutGet(c.crc, s.y, s.crc, s.y);
    PopGet(p.crc, s.y, s.y);
    var put := Put(c.crc, s.y, s.crc);
    forall i | 0 <= i < |put|
      ensures Sample(s.side, put[i].key, put[i].value) in samples + [s]
    {
      if put[i] != Entry(s.y, s.crc) {
        assert put[i] == c.crc[i];
      }
    }
    if Has(p.crc, s.y) {
      assert Sample(Other(s.side), s.y, Get(p.crc, s.y)) in samples;
    }
    hide IndexOf, Low;
  }

  /** Two records that show a real disagreement: one from each console, for one stamp, with different checksums. */
  ghost predicate Disagree(samples: seq<Sample>) {
    exists a, b :: a in samples && b in samples && a.side == Host && b.side == Guest && a.y == b.y && a.crc != b.crc
  }

  lemma {:induction false} HeldOnTruth(samples: seq<Sample>)
    requires Orderly(samples)
    ensures Truthful(Trial(samples).host, samples, Host) && Truthful(Trial(samples).guest, samples, Guest)
    ensures Trial(samples).bad > 0 ==> Disagree(samples)
  {
    if samples != [] {
      var (before, s) := (samples[..|samples| - 1], samples[|samples| - 1]);
      HeldOnTruth(before);
      assert samples == before + [s];
      OneMore(before, s);
      var c := Trial(before);
      RuledTruthful(c.Of(s.side), c.Of(Other(s.side)), s, before);
      hide Ruled, Truthful, Orderly, LatestOf, Low, Clocked, Stands;
      if Disagree(before) {
        var a, b :| a in before && b in before && a.side == Host && b.side == Guest && a.y == b.y && a.crc != b.crc;
        assert a in samples && b in samples;
      }
    }
  }

  /**
   * The verdict is sound: a mismatch is counted only when the two consoles really sent different checksums for
   * one and the same tick, however many laps have gone by and whatever has been evicted.
   */
  lemma VerdictIsSound(samples: seq<Sample>)
    requires Orderly(samples) && Trial(samples).bad > 0
    ensures Disagree(samples)
  {
    HeldOnTruth(samples);
  }

  // ---- what a ledger cannot have forgotten ----

  /** The ledger holds this checksum for this stamp, among its n newest entries. */
  predicate Recent(l: Ledger, y: nat, v: byte, n: nat) {
    exists i | 0 <= i < |l.crc| :: l.crc[i] == Entry(y, v) && |l.crc| - i <= n
  }

  lemma PutKeepsRecent(d: seq<Entry<nat, byte>>, k: nat, w: byte, y: nat, v: byte, i: nat, n: nat)
    requires i < |d| && d[i] == Entry(y, v) && |d| - i <= n && k != y && n < KEPT
    ensures exists j | 0 <= j < |Newest(Put(d, k, w), KEPT)| ::
              Newest(Put(d, k, w), KEPT)[j] == Entry(y, v) && |Newest(Put(d, k, w), KEPT)| - j <= n + 1
    ensures exists j | 0 <= j < |Put(d, k, w)| :: Put(d, k, w)[j] == Entry(y, v) && |Put(d, k, w)| - j <= n + 1
  {
    var e := Put(d, k, w);
    assert e[i] == Entry(y, v);
    var f := Newest(e, KEPT);
    var j := if |e| > KEPT then i - (|e| - KEPT) else i;
    assert f[j] == Entry(y, v) && |f| - j <= n + 1;
  }

  lemma PopKeepsRecent(d: seq<Entry<nat, byte>>, k: nat, y: nat, v: byte, i: nat, n: nat)
    requires i < |d| && d[i] == Entry(y, v) && |d| - i <= n && k != y
    ensures exists j | 0 <= j < |Pop(d, k)| :: Pop(d, k)[j] == Entry(y, v) && |Pop(d, k)| - j <= n
  {
    var e := Pop(d, k);
    var j := if Has(d, k) && IndexOf(d, k) < i then i - 1 else i;
    assert e[j] == Entry(y, v) && |e| - j <= n;
  }

  function CountOf(samples: seq<Sample>, side: Side): nat {
    if samples == [] then 0 else (if samples[0].side == side then 1 else 0) + CountOf(samples[1..], side)
  }

  /** A record for another tick costs at most one place, and only when it is the same console's. */
  lemma HearKeepsRecent(c: Court, m: Sample, side: Side, y: nat, v: byte, n: nat)
    requires Recent(c.Of(side), y, v, n) && m.y != y && (m.side == side ==> n < KEPT)
    requires Stands(Clocked(c.Of(m.side), Low(m.y)), Some(m.y))
    ensures Recent(Hear(c, m).Of(side), y, v, if m.side == side then n + 1 else n)
  {
    hide IndexOf, Low, Clocked, Put, Pop, Newest;
    var d := c.Of(side).crc;
    var i :| 0 <= i < |d| && d[i] == Entry(y, v) && |d| - i <= n;
    if m.side == side {
      PutKeepsRecent(d, m.y, m.crc, y, v, i, n);
    } else {
      PopKeepsRecent(d, m.y, y, v, i, n);
    }
  }

  lemma {:induction false} StaysRecent(head: seq<Sample>, mid: seq<Sample>, side: Side, y: nat, v: byte, n: nat)
    requires Orderly(head + mid) && Recent(Trial(head).Of(side), y, v, n)
    requires (forall i | 0 <= i < |mid| :: mid[i].y != y) && n + CountOf(mid, side) <= KEPT
    ensures Recent(Trial(head + mid).Of(side), y, v, n + CountOf(mid, side))
    decreases |mid|
  {
    hide Orderly, Recent, Trial;
    if mid == [] {
      assert head + mid == head;
    } else {
      var (m, rest) := (mid[0], mid[1..]);
      assert head + mid == head + [m] + rest;
      OrderlyFront(head + [m], rest);
      StepStaysRecent(head, m, side, y, v, n);
      StaysRecent(head + [m], rest, side, y, v, if m.side == side then n + 1 else n);
    }
  }

  lemma StepStaysRecent(now: seq<Sample>, m: Sample, side: Side, y: nat, v: byte, n: nat)
    requires Orderly(now + [m]) && Recent(Trial(now).Of(side), y, v, n) && m.y != y && (m.side == side ==> n < KEPT)
    ensures Recent(Trial(now + [m]).Of(side), y, v, if m.side == side then n + 1 else n)
  {
    hide Orderly, Hear, Recent, Low, Stands, Clocked, Trial;
    OneMore(now, m);
    HearKeepsRecent(Trial(now), m, side, y, v, n);
  }

  /** No console has sent a stamp above its latest. */
  lemma {:induction false} LatestIsNewest(samples: seq<Sample>, s: Sample)
    requires Orderly(samples) && s in samples
    ensures LatestOf(samples, s.side).Some? && s.y <= LatestOf(samples, s.side).value
  {
    var (before, last) := (samples[..|samples| - 1], samples[|samples| - 1]);
    if s in before {
      LatestIsNewest(before, s);
    } else {
      assert s == last;
    }
  }

  /** A record for a new tick is the newest thing in its console's ledger. */
  lemma NewTickIsRecent(before: seq<Sample>, s: Sample)
    requires Orderly(before + [s]) && (LatestOf(before, s.side).Some? ==> LatestOf(before, s.side).value < s.y)
    ensures Recent(Trial(before + [s]).Of(s.side), s.y, s.crc, 1)
  {
    hide Orderly, Trial, Low, Clocked, Stands, Hear, Truthful;
    OneMore(before, s);
    HeldOnTruth(before);
    NewTickIsNew(Trial(before).Of(s.side), before, s);
    hide LatestOf;
    HeardLast(Trial(before), s);
  }

  /** A tick above all a console has sent is not in its ledger. */
  lemma NewTickIsNew(l: Ledger, before: seq<Sample>, s: Sample)
    requires Orderly(before) && Truthful(l, before, s.side)
    requires LatestOf(before, s.side).Some? ==> LatestOf(before, s.side).value < s.y
    ensures !Has(l.crc, s.y)
  {
    hide Orderly, LatestOf, IndexOf;
    if Has(l.crc, s.y) {
      LatestIsNewest(before, Sample(s.side, s.y, Get(l.crc, s.y)));
    }
  }

  /** A record whose tick is not in the ledger goes to its end. */
  lemma HeardLast(c: Court, s: Sample)
    requires Stands(Clocked(c.Of(s.side), Low(s.y)), Some(s.y)) && !Has(c.Of(s.side).crc, s.y)
    ensures Recent(Hear(c, s).Of(s.side), s.y, s.crc, 1)
  {
    hide IndexOf, Low, Clocked;
    var d := c.Of(s.side).crc;
    var e := d + [Entry(s.y, s.crc)];
    assert Put(d, s.y, s.crc) == e;
    assert Newest(e, KEPT)[|Newest(e, KEPT)| - 1] == Entry(s.y, s.crc) && e[|e| - 1] == Entry(s.y, s.crc);
    hide Put, Newest;
  }

  /**
   * And it misses nothing recent: a tick whose two records come with fewer than eight of the first sender's
   * between them is ruled on, and rightly.
   */
  lemma NothingRecentIsMissed(before: seq<Sample>, s: Sample, mid: seq<Sample>, t: Sample)
    requires Orderly(before + [s] + mid + [t]) && t.side == Other(s.side) && t.y == s.y
    requires LatestOf(before, s.side).Some? ==> LatestOf(before, s.side).value < s.y
    requires (forall i | 0 <= i < |mid| :: mid[i].y != s.y) && CountOf(mid, s.side) < KEPT
    ensures var (was, now) := (Trial(before + [s] + mid), Trial(before + [s] + mid + [t]));
            if t.crc == s.crc then now.ok == was.ok + 1 && now.bad == was.bad
            else now.ok == was.ok && now.bad == was.bad + 1
  {
    var head := before + [s];
    OneMore(head + mid, t);
    OrderlyFront(head, mid);
    hide Orderly, Hear, Recent, Low, Stands, Clocked, Trial, LatestOf;
    NewTickIsRecent(before, s);
    StaysRecent(head, mid, s.side, s.y, s.crc, 1);
    HeldOnTruth(head + mid);
    RuledOnRecent(Trial(head + mid), s, t, head + mid);
  }

  lemma RuledOnRecent(c: Court, s: Sample, t: Sample, samples: seq<Sample>)
    requires exists n :: Recent(c.Of(s.side), s.y, s.crc, n)
    requires Truthful(c.Of(s.side), samples, s.side) && t.side == Other(s.side) && t.y == s.y
    requires Stands(Clocked(c.Of(t.side), Low(t.y)), Some(t.y))
    ensures var d := Hear(c, t);
            if t.crc == s.crc then d.ok == c.ok + 1 && d.bad == c.bad else d.ok == c.ok && d.bad == c.bad + 1
  {
    var d := c.Of(s.side).crc;
    var i :| 0 <= i < |d| && d[i] == Entry(s.y, s.crc);
    OnePlace(d, s.y, i);
    hide IndexOf, Low, Clocked, Put, Newest;
  }

  lemma {:induction false} OrderlyFront(a: seq<Sample>, b: seq<Sample>)
    requires Orderly(a + b)
    ensures Orderly(a)
  {
    if b == [] {
      assert a + b == a;
    } else {
      assert (a + b)[..|a + b| - 1] == a + b[..|b| - 1];
      OrderlyFront(a, b[..|b| - 1]);
    }
    hide LatestOf;
  }

  // ---- a ledger has no bound ----

  /** Two consoles in step, the host's record always first. */
  function InStep(n: nat): seq<Sample> {
    if n == 0 then [] else InStep(n - 1) + [Sample(Host, n - 1, 0)] + [Sample(Guest, n - 1, 0)]
  }

  lemma {:induction false} InStepIsOrderly(n: nat)
    ensures Orderly(InStep(n))
    ensures LatestOf(InStep(n), Host) == (if n == 0 then None else Some(n - 1))
    ensures LatestOf(InStep(n), Guest) == (if n == 0 then None else Some(n - 1))
  {
    hide Orderly, LatestOf;
    if n == 0 {
      NothingSent(Host);
      NothingSent(Guest);
    } else {
      InStepIsOrderly(n - 1);
      var (a, h, g) := (InStep(n - 1), Sample(Host, n - 1, 0), Sample(Guest, n - 1, 0));
      OrderlyOneMore(a, h);
      OrderlyOneMore(a + [h], g);
    }
  }

  lemma NothingSent(side: Side)
    ensures Orderly([]) && LatestOf([], side) == None
  {}

  lemma OrderlyOneMore(a: seq<Sample>, s: Sample)
    ensures LatestOf(a + [s], s.side) == Some(s.y)
    ensures LatestOf(a + [s], Other(s.side)) == LatestOf(a, Other(s.side))
    ensures Orderly(a + [s]) <==>
              Orderly(a) && (match LatestOf(a, s.side) case None => s.y < 256 case Some(z) => z <= s.y < z + 128)
  {
    assert (a + [s])[..|a + [s]| - 1] == a;
  }

  /** The entries of the first n ticks. */
  function FirstSums(n: nat): (d: seq<Entry<nat, byte>>)
    ensures |d| == n
  {
    seq(n, i => Entry(i, 0))
  }

  /** The host's record finds nothing to pair with, and waits. */
  lemma HostWaits(c: Court, n: nat)
    requires c.host.crc == [] && c.guest.crc == FirstSums(n) && Stands(Clocked(c.host, Low(n)), Some(n))
    ensures var h := Hear(c, Sample(Host, n, 0));
            h.host.crc == [Entry(n, 0 as byte)] && h.guest == c.guest && h.ok == c.ok
  {
    assert !Has(FirstSums(n), n);
    assert Put([], n, 0 as byte) == [Entry(n, 0 as byte)];
    hide Low, Clocked, IndexOf, FirstSums, Put;
  }

  /** The guest's record pairs with it, and is kept. */
  lemma GuestPairs(c: Court, n: nat)
    requires c.host.crc == [Entry(n, 0 as byte)] && c.guest.crc == FirstSums(n)
    requires Stands(Clocked(c.guest, Low(n)), Some(n))
    ensures var g := Hear(c, Sample(Guest, n, 0));
            g.host.crc == [] && g.guest.crc == FirstSums(n + 1) && g.ok == c.ok + 1
  {
    var e := Entry(n, 0 as byte);
    assert Has([e], n) && Get([e], n) == 0 && Pop([e], n) == [];
    assert !Has(FirstSums(n), n);
    assert Put(FirstSums(n), n, 0) == FirstSums(n + 1);
    hide Low, Clocked, IndexOf, FirstSums, Put, Pop, Get, Has;
  }

  lemma PairingStep(c: Court, n: nat)
    requires c.host.crc == [] && c.guest.crc == FirstSums(n)
    requires Stands(Clocked(c.host, Low(n)), Some(n)) && Stands(Clocked(c.guest, Low(n)), Some(n))
    ensures var d := Hear(Hear(c, Sample(Host, n, 0)), Sample(Guest, n, 0));
            d.host.crc == [] && d.guest.crc == FirstSums(n + 1) && d.ok == c.ok + 1
  {
    hide Low, Clocked, Hear, FirstSums, Stands;
    HostWaits(c, n);
    GuestPairs(Hear(c, Sample(Host, n, 0)), n);
  }

  /**
   * Eviction happens only when a record finds no partner: of two consoles in step, the one that is always
   * second keeps every checksum it ever sent.
   */
  lemma {:induction false} PairedNeverEvicts(n: nat)
    ensures Trial(InStep(n)).host.crc == [] && |Trial(InStep(n)).guest.crc| == n && Trial(InStep(n)).ok == n
    ensures Trial(InStep(n)).guest.crc == FirstSums(n)
  {
    hide Orderly, Trial, Hear, Stands, Clocked, FirstSums, Low;
    if n == 0 {
      NothingHeard();
    } else {
      PairedNeverEvicts(n - 1);
      InStepIsOrderly(n);
      var (a, h, g) := (InStep(n - 1), Sample(Host, n - 1, 0), Sample(Guest, n - 1, 0));
      OneMore(a + [h], g);
      OneMore(a, h);
      GuestClockWaits(Trial(a), h, n - 1);
      PairingStep(Trial(a), n - 1);
    }
  }

  lemma NothingHeard()
    ensures Trial([]) == Court(FRESH, FRESH, 0, 0) && FirstSums(0) == []
  {}

  /** The host's record leaves the guest's clock where it was. */
  lemma GuestClockWaits(c: Court, h: Sample, y: nat)
    requires h.side == Host && Stands(Clocked(Hear(c, h).guest, Low(y)), Some(y))
    ensures Stands(Clocked(c.guest, Low(y)), Some(y))
  {
    RuledMovesClock(c.host, c.guest, Low(h.y), h.crc);
    hide Ruled, Low;
  }
}
