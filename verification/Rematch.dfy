/** The checksum verdict in later matches: two connections keep their clocks when they are paired again. */
module Rematch {
  import opened Bytes
  import opened Ordered
  import opened Lockstep
  import opened Verdict

  /** A match between two connections whose ledgers start as these. */
  function TrialFrom(start: Court, samples: seq<Sample>): Court {
    if samples == [] then start else Hear(TrialFrom(start, samples[..|samples| - 1]), samples[|samples| - 1])
  }

  lemma {:induction false} TrialIsFromFresh(samples: seq<Sample>)
    ensures Trial(samples) == TrialFrom(Court(FRESH, FRESH, 0, 0), samples)
  {
    hide Hear;
    if samples != [] {
      TrialIsFromFresh(samples[..|samples| - 1]);
    }
  }

  /** What a new pairing leaves of a court: the clocks, no checksums, and nothing counted yet. */
  function Cleared(c: Court): Court {
    Court(c.host.(crc := []), c.guest.(crc := []), 0, 0)
  }

  /** Nothing in the ledgers, nothing counted. */
  predicate Unheard(c: Court) {
    c.host.crc == [] && c.guest.crc == [] && c.ok == 0 && c.bad == 0
  }

  /** The stamp of a console's first record. */
  function FirstOf(samples: seq<Sample>, side: Side): Option<nat> {
    if samples == [] then None
    else if FirstOf(samples[..|samples| - 1], side).Some? then FirstOf(samples[..|samples| - 1], side)
    else if samples[|samples| - 1].side == side then Some(samples[|samples| - 1].y)
    else None
  }

  /** The lap a console's clock is in once its first record of the match has come: where it counts its stamps from. */
  function BaseOf(l: Ledger, first: nat): nat {
    Clocked(l, Low(first)).lap
  }

  /** This console's records, if there are any yet, are keyed from this lap on. */
  predicate Based(start: Court, samples: seq<Sample>, side: Side, base: nat) {
    FirstOf(samples, side).Some? ==> BaseOf(start.Of(side), FirstOf(samples, side).value) == base
  }

  // ---- keys are stamps from a base ----

  /** The clock of a ledger that counts from a base. */
  predicate StandsFrom(start: Ledger, l: Ledger, y: Option<nat>, base: nat) {
    if y.None? then l.lap == start.lap && l.last == start.last
    else l.last == Some(Low(y.value)) && l.lap == y.value / 256 + base
  }

  lemma ClockFrom(start: Ledger, l: Ledger, z: Option<nat>, y: nat, base: nat)
    requires StandsFrom(start, l, z, base)
    requires if z.None? then y < 256 && BaseOf(start, y) == base else z.value <= y < z.value + 128
    ensures StandsFrom(start, Clocked(l, Low(y)), Some(y), base) && KeyOf(Clocked(l, Low(y))) == y + 256 * base
  {
    if z.Some? {
      WrapShows(z.value, y);
    } else {
      assert Clocked(l, Low(y)).lap == base;
    }
    assert y == 256 * (y / 256) + Low(y) as nat;
  }

  lemma BasedFront(start: Court, samples: seq<Sample>, side: Side, base: nat)
    requires samples != [] && Orderly(samples) && Based(start, samples, side, base)
    ensures var (before, s) := (samples[..|samples| - 1], samples[|samples| - 1]);
            && Based(start, before, side, base)
            && (LatestOf(before, side).None? <==> FirstOf(before, side).None?)
            && (s.side == side && LatestOf(before, side).None? ==> s.y < 256 && BaseOf(start.Of(side), s.y) == base)
  {
    FirstIffLatest(samples[..|samples| - 1], side);
    hide Clocked, Low;
  }

  lemma {:induction false} FirstIffLatest(samples: seq<Sample>, side: Side)
    ensures FirstOf(samples, side).None? <==> LatestOf(samples, side).None?
  {
    if samples != [] {
      FirstIffLatest(samples[..|samples| - 1], side);
    }
  }

  /** In any match, a record's key is its stamp counted from its console's base. */
  lemma {:induction false} KeyIsFromBase(start: Court, samples: seq<Sample>, side: Side, base: nat)
    requires Orderly(samples) && Based(start, samples, side, base)
    ensures StandsFrom(start.Of(side), TrialFrom(start, samples).Of(side), LatestOf(samples, side), base)
  {
    hide Hear, Clocked, Low, StandsFrom, BaseOf;
    if samples == [] {
      NothingYet(start.Of(side), base);
    } else {
      var (before, s) := (samples[..|samples| - 1], samples[|samples| - 1]);
      BasedFront(start, samples, side, base);
      KeyIsFromBase(start, before, side, base);
      var c := TrialFrom(start, before);
      if s.side == side {
        ClockFrom(start.Of(side), c.Of(side), LatestOf(before, side), s.y, base);
      }
      HearClock(start.Of(side), c, s, side, LatestOf(samples, side), base);
    }
  }

  lemma NothingYet(l: Ledger, base: nat)
    ensures StandsFrom(l, l, None, base)
  {}

  lemma HearClock(start: Ledger, c: Court, s: Sample, side: Side, y: Option<nat>, base: nat)
    requires StandsFrom(start, if s.side == side then Clocked(c.Of(side), Low(s.y)) else c.Of(side), y, base)
    ensures StandsFrom(start, Hear(c, s).Of(side), y, base)
  {
    RuledMovesClock(c.Of(s.side), c.Of(Other(s.side)), Low(s.y), s.crc);
    hide Low, Ruled, Clocked;
  }

  // ---- with the same base, a later match is judged as the first is ----

  function Lifted(d: seq<Entry<nat, byte>>, shift: nat): (e: seq<Entry<nat, byte>>)
    ensures |e| == |d|
  {
    seq(|d|, i requires 0 <= i < |d| => Entry(d[i].key + shift, d[i].value))
  }

  lemma LiftedIndex(d: seq<Entry<nat, byte>>, shift: nat, key: nat)
    ensures IndexOf(Lifted(d, shift), key + shift) == IndexOf(d, key)
  {
    assert forall i | 0 <= i < |d| :: Lifted(d, shift)[i].key == d[i].key + shift;
  }

  lemma LiftedPut(d: seq<Entry<nat, byte>>, shift: nat, key: nat, v: byte)
    ensures Put(Lifted(d, shift), key + shift, v) == Lifted(Put(d, key, v), shift)
    ensures Newest(Put(Lifted(d, shift), key + shift, v), KEPT) == Lifted(Newest(Put(d, key, v), KEPT), shift)
  {
    LiftedIndex(d, shift, key);
    hide IndexOf;
    assert Put(Lifted(d, shift), key + shift, v) == Lifted(Put(d, key, v), shift);
  }

  lemma LiftedPop(d: seq<Entry<nat, byte>>, shift: nat, key: nat)
    ensures Pop(Lifted(d, shift), key + shift) == Lifted(Pop(d, key), shift)
    ensures Has(Lifted(d, shift), key + shift) <==> Has(d, key)
    ensures Has(d, key) ==> Get(Lifted(d, shift), key + shift) == Get(d, key)
  {
    LiftedIndex(d, shift, key);
    hide IndexOf;
  }

  /** The same record, judged with every key moved by as much. */
  lemma RuledLifted(c: Ledger, p: Ledger, c0: Ledger, p0: Ledger, tick: byte, crc: byte, shift: nat)
    requires c0.crc == Lifted(c.crc, shift) && p0.crc == Lifted(p.crc, shift)
    requires KeyOf(Clocked(c0, tick)) == KeyOf(Clocked(c, tick)) + shift
    ensures var ((m, t, v), (m0, t0, v0)) := (Ruled(c, Some(p), tick, crc), Ruled(c0, Some(p0), tick, crc));
            && t.Some? && t0.Some? && v0 == v
            && m0.crc == Lifted(m.crc, shift) && t0.value.crc == Lifted(t.value.crc, shift)
  {
    hide Clocked, IndexOf, Put, Pop, Newest, Lifted, Get, Has;
    var key := KeyOf(Clocked(c, tick));
    LiftedPut(c.crc, shift, key, crc);
    LiftedPop(p.crc, shift, key);
  }

  /** The court of a later match holds the court of a first one, its keys moved. */
  predicate SameVerdict(c0: Court, c: Court, shift: nat) {
    c0.host.crc == Lifted(c.host.crc, shift) && c0.guest.crc == Lifted(c.guest.crc, shift) && c0.ok == c.ok && c0.bad == c.bad
  }

  lemma HearLifted(c0: Court, c: Court, s: Sample, shift: nat)
    requires SameVerdict(c0, c, shift)
    requires KeyOf(Clocked(c0.Of(s.side), Low(s.y))) == KeyOf(Clocked(c.Of(s.side), Low(s.y))) + shift
    ensures SameVerdict(Hear(c0, s), Hear(c, s), shift)
  {
    hide Clocked, Low, Ruled, Lifted;
    RuledLifted(c.Of(s.side), c.Of(Other(s.side)), c0.Of(s.side), c0.Of(Other(s.side)), Low(s.y), s.crc, shift);
  }

  /** If both consoles count from the same lap, a later match is judged exactly as a first match is. */
  lemma {:induction false} SameBaseSameVerdict(start: Court, samples: seq<Sample>, base: nat)
    requires Unheard(start) && Orderly(samples) && Based(start, samples, Host, base) && Based(start, samples, Guest, base)
    ensures SameVerdict(TrialFrom(start, samples), Trial(samples), 256 * base)
  {
    hide Hear, Clocked, Low, BaseOf, Lifted, StandsFrom, Stands, Based, LatestOf;
    if samples == [] {
      NothingLifted(256 * base);
    } else {
      var (before, s) := (samples[..|samples| - 1], samples[|samples| - 1]);
      BasedFront(start, samples, Host, base);
      BasedFront(start, samples, Guest, base);
      SameBaseSameVerdict(start, before, base);
      assert samples == before + [s];
      KeyFrom(start, before, s, base);
      OneMore(before, s);
      hide Orderly;
      KeyStands(Clocked(Trial(before).Of(s.side), Low(s.y)), s.y);
      HearLifted(TrialFrom(start, before), Trial(before), s, 256 * base);
    }
  }

  lemma KeyStands(l: Ledger, y: nat)
    requires Stands(l, Some(y))
    ensures l.last.Some? && KeyOf(l) == y
  {}

  lemma NothingLifted(shift: nat)
    ensures Lifted([], shift) == []
  {}

  /** The next record's key, whoever sends it. */
  lemma KeyFrom(start: Court, before: seq<Sample>, s: Sample, base: nat)
    requires Orderly(before + [s]) && Based(start, before + [s], s.side, base)
    ensures KeyOf(Clocked(TrialFrom(start, before).Of(s.side), Low(s.y))) == s.y + 256 * base
    ensures Orderly(before)
  {
    hide Hear, Clocked, Low, BaseOf, StandsFrom;
    var samples := before + [s];
    assert samples[..|samples| - 1] == before;
    BasedFront(start, samples, s.side, base);
    KeyIsFromBase(start, before, s.side, base);
    ClockFrom(start.Of(s.side), TrialFrom(start, before).Of(s.side), LatestOf(before, s.side), s.y, base);
  }

  // ---- with different bases, it is not judged at all ----

  /** The eight newest of a console's records, as a ledger keeps them when nothing pairs. */
  function Newer(samples: seq<Sample>, side: Side): seq<Entry<nat, byte>> {
    if samples == [] then []
    else
      var (before, s) := (samples[..|samples| - 1], samples[|samples| - 1]);
      if s.side == side then Newest(Put(Newer(before, side), s.y, s.crc), KEPT) else Newer(before, side)
  }

  /** Less than a lap from every one of these. */
  predicate InLap(d: seq<Entry<nat, byte>>, y: nat) {
    forall i | 0 <= i < |d| :: d[i].key < y + 256 && y < d[i].key + 256
  }

  /** Every record comes less than a lap from the eight newest of the other console's. */
  predicate Abreast(samples: seq<Sample>) {
    samples != [] ==>
      var (before, s) := (samples[..|samples| - 1], samples[|samples| - 1]);
      Abreast(before) && InLap(Newer(before, Other(s.side)), s.y)
  }

  lemma AbreastBefore(before: seq<Sample>, s: Sample)
    ensures Abreast(before + [s]) <==> Abreast(before) && InLap(Newer(before, Other(s.side)), s.y)
    ensures Newer(before + [s], s.side) == Newest(Put(Newer(before, s.side), s.y, s.crc), KEPT)
    ensures Newer(before + [s], Other(s.side)) == Newer(before, Other(s.side))
  {
    assert (before + [s])[..|before + [s]| - 1] == before;
    hide Put, Newest, InLap;
  }

  lemma NotPaired(d: seq<Entry<nat, byte>>, y: nat, mine: nat, theirs: nat)
    requires InLap(d, y) && mine != theirs
    ensures !Has(Lifted(d, 256 * theirs), y + 256 * mine)
  {
    var e := Lifted(d, 256 * theirs);
    forall i | 0 <= i < |e|
      ensures e[i].key != y + 256 * mine
    {
      LapsApart(d[i].key, y, theirs, mine);
    }
    hide IndexOf;
  }

  lemma LapsApart(a: nat, b: nat, m: nat, n: nat)
    requires a < b + 256 && b < a + 256 && m != n
    ensures a + 256 * m != b + 256 * n
  {}

  /** A record that finds nothing to pair with is only kept. */
  lemma KeptAlone(c: Court, s: Sample, d: seq<Entry<nat, byte>>, shift: nat)
    requires c.Of(s.side).crc == Lifted(d, shift) && KeyOf(Clocked(c.Of(s.side), Low(s.y))) == s.y + shift
    requires !Has(c.Of(Other(s.side)).crc, s.y + shift)
    ensures var e := Hear(c, s);
            && e.ok == c.ok && e.bad == c.bad && e.Of(Other(s.side)) == c.Of(Other(s.side))
            && e.Of(s.side).crc == Lifted(Newest(Put(d, s.y, s.crc), KEPT), shift)
  {
    LiftedPut(d, shift, s.y, s.crc);
    hide Clocked, Low, IndexOf, Put, Lifted, Newest;
  }

  function BaseFor(side: Side, host: nat, guest: nat): nat {
    if side == Host then host else guest
  }

  /** If the consoles count from different laps, nothing they send is ever compared: no verdict either way. */
  lemma {:induction false} OtherBaseNoVerdict(start: Court, samples: seq<Sample>, host: nat, guest: nat)
    requires Unheard(start) && Orderly(samples) && Abreast(samples) && host != guest
    requires Based(start, samples, Host, host) && Based(start, samples, Guest, guest)
    ensures var c := TrialFrom(start, samples);
            && c.ok == 0 && c.bad == 0
            && c.host.crc == Lifted(Newer(samples, Host), 256 * host)
            && c.guest.crc == Lifted(Newer(samples, Guest), 256 * guest)
  {
    hide Hear, Clocked, Low, BaseOf, Based, LatestOf, Has, Orderly, Lifted, Put, Newest, InLap;
    if samples == [] {
      NothingLifted(256 * host);
      NothingLifted(256 * guest);
    } else {
      var (before, s) := (samples[..|samples| - 1], samples[|samples| - 1]);
      assert samples == before + [s];
      OrderlyBefore(before, s);
      BasedFront(start, samples, Host, host);
      BasedFront(start, samples, Guest, guest);
      OtherBaseNoVerdict(start, before, host, guest);
      var c := TrialFrom(start, before);
      var (mine, theirs) := (BaseFor(s.side, host, guest), BaseFor(Other(s.side), host, guest));
      KeyFrom(start, before, s, mine);
      NotPaired(Newer(before, Other(s.side)), s.y, mine, theirs);
      KeptAlone(c, s, Newer(before, s.side), 256 * mine);
    }
  }

  lemma OrderlyBefore(before: seq<Sample>, s: Sample)
    requires Orderly(before + [s])
    ensures Orderly(before)
  {
    assert (before + [s])[..|before + [s]| - 1] == before;
  }

  // ---- which matches keep abreast ----

  /** A console never jumps more than thirty-one ticks, nor is heard more than seven from the other's latest. */
  predicate Paced(samples: seq<Sample>) {
    samples != [] ==>
      var (before, s) := (samples[..|samples| - 1], samples[|samples| - 1]);
      var (mine, theirs) := (LatestOf(before, s.side), LatestOf(before, Other(s.side)));
      && Paced(before)
      && (mine.Some? ==> mine.value <= s.y <= mine.value + 31)
      && (theirs.Some? ==> s.y <= theirs.value + 7 && theirs.value <= s.y + 7)
  }

  lemma PacedMore(before: seq<Sample>, s: Sample)
    ensures Paced(before + [s]) <==>
              && Paced(before)
              && (LatestOf(before, s.side).Some? ==> LatestOf(before, s.side).value <= s.y <= LatestOf(before, s.side).value + 31)
              && (LatestOf(before, Other(s.side)).Some? ==>
                    s.y <= LatestOf(before, Other(s.side)).value + 7 && LatestOf(before, Other(s.side)).value <= s.y + 7)
  {
    assert (before + [s])[..|before + [s]| - 1] == before;
    hide LatestOf;
  }

  /** Kept checksums in order, no two neighbours more than thirty-one ticks apart, up to the latest stamp. */
  predicate Stepwise(d: seq<Entry<nat, byte>>, latest: Option<nat>) {
    && |d| <= KEPT && (latest.None? ==> d == [])
    && (latest.Some? ==> d != [] && d[|d| - 1].key == latest.value)
    && Gaps(d)
  }

  predicate Gaps(d: seq<Entry<nat, byte>>) {
    forall i, j | 0 <= i < |d| && i < j < |d| && j == i + 1 :: d[i].key < d[j].key <= d[i].key + 31
  }

  lemma {:induction false} StepwiseSpan(d: seq<Entry<nat, byte>>, latest: Option<nat>, i: nat)
    requires Stepwise(d, latest) && i < |d|
    ensures latest.Some? && d[i].key <= latest.value <= d[i].key + 31 * (|d| - 1 - i)
    decreases |d| - i
  {
    if i + 1 < |d| {
      StepwiseSpan(d, latest, i + 1);
      assert d[i].key < d[i + 1].key <= d[i].key + 31;
    }
  }

  /** A stamp no older than the latest goes to the end, or is there already. */
  lemma PutAtEnd(d: seq<Entry<nat, byte>>, latest: Option<nat>, y: nat, v: byte)
    requires Stepwise(d, latest) && (latest.Some? ==> latest.value <= y)
    ensures Put(d, y, v) == if latest == Some(y) then d[|d| - 1 := Entry(y, v)] else d + [Entry(y, v)]
  {
    forall i | 0 <= i < |d|
      ensures d[i].key <= latest.value && (d[i].key == y ==> i == |d| - 1)
    {
      StepwiseSpan(d, latest, i);
      if i + 1 < |d| {
        StepwiseSpan(d, latest, i + 1);
        assert d[i].key < d[i + 1].key;
      }
    }
    hide IndexOf, Gaps;
  }

  lemma GapsOn(d: seq<Entry<nat, byte>>, y: nat, v: byte)
    requires Gaps(d)
    ensures d != [] && d[|d| - 1].key == y ==> Gaps(d[|d| - 1 := Entry(y, v)])
    ensures d == [] || d[|d| - 1].key < y <= d[|d| - 1].key + 31 ==> Gaps(d + [Entry(y, v)])
  {}

  lemma NewestGaps(d: seq<Entry<nat, byte>>)
    requires Gaps(d) && d != []
    ensures var e := Newest(d, KEPT); Gaps(e) && e != [] && |e| <= KEPT && e[|e| - 1] == d[|d| - 1]
  {}

  lemma StepwiseOn(d: seq<Entry<nat, byte>>, latest: Option<nat>, y: nat, v: byte)
    requires Stepwise(d, latest) && (latest.Some? ==> latest.value <= y <= latest.value + 31)
    ensures Stepwise(Newest(Put(d, y, v), KEPT), Some(y))
  {
    PutAtEnd(d, latest, y, v);
    GapsOn(d, y, v);
    hide Put, Gaps, Newest;
    NewestGaps(Put(d, y, v));
  }

  /** A paced match, of any length and over any number of laps, keeps abreast. */
  lemma {:induction false} PacedIsAbreast(samples: seq<Sample>)
    requires Paced(samples)
    ensures Abreast(samples)
    ensures Stepwise(Newer(samples, Host), LatestOf(samples, Host)) && Stepwise(Newer(samples, Guest), LatestOf(samples, Guest))
  {
    if samples != [] {
      var (before, s) := (samples[..|samples| - 1], samples[|samples| - 1]);
      PacedIsAbreast(before);
      var (d, theirs) := (Newer(before, Other(s.side)), LatestOf(before, Other(s.side)));
      hide Put, Newest;
      StepwiseOn(Newer(before, s.side), LatestOf(before, s.side), s.y, s.crc);
      forall i | 0 <= i < |d|
        ensures d[i].key < s.y + 256 && s.y < d[i].key + 256
      {
        StepwiseSpan(d, theirs, i);
      }
      hide Stepwise;
    }
  }

  /** Two consoles in step keep abreast for as long as they play. */
  lemma {:induction false} InStepIsAbreast(n: nat)
    ensures Paced(InStep(n)) && Abreast(InStep(n))
  {
    hide Paced, LatestOf, Abreast;
    if n == 0 {
      NothingPaced();
    } else {
      InStepIsAbreast(n - 1);
      InStepIsOrderly(n - 1);
      var (a, h, g) := (InStep(n - 1), Sample(Host, n - 1, 0), Sample(Guest, n - 1, 0));
      PacedMore(a, h);
      OrderlyOneMore(a, h);
      PacedMore(a + [h], g);
      hide Orderly;
    }
    PacedIsAbreast(InStep(n));
  }

  lemma NothingPaced()
    ensures Paced([])
  {}

  // ---- the verdict of a later match ----

  /**
   * The verdict of a later match is the first match's if and only if the two clocks start in the same lap;
   * whether they do is decided by what each console last sent in the match before, and its first tick now.
   */
  lemma LaterVerdictIff(start: Court, samples: seq<Sample>, h: nat, g: nat)
    requires Unheard(start) && Orderly(samples) && Abreast(samples)
    requires FirstOf(samples, Host) == Some(h) && FirstOf(samples, Guest) == Some(g)
    requires Trial(samples).ok + Trial(samples).bad > 0
    ensures var (c, d) := (TrialFrom(start, samples), Trial(samples));
            c.ok == d.ok && c.bad == d.bad <==> BaseOf(start.host, h) == BaseOf(start.guest, g)
  {
    hide Trial, TrialFrom, Orderly, BaseOf, Lifted, Abreast;
    if BaseOf(start.host, h) == BaseOf(start.guest, g) {
      SameBaseSameVerdict(start, samples, BaseOf(start.host, h));
    } else {
      OtherBaseNoVerdict(start, samples, BaseOf(start.host, h), BaseOf(start.guest, g));
    }
  }

  /** A console that has played before, and one that has not; no checksums of either. */
  function Survivor(was: Ledger, side: Side): Court {
    if side == Host then Court(was.(crc := []), FRESH, 0, 0) else Court(FRESH, was.(crc := []), 0, 0)
  }

  /**
   * The case that matters: a console whose partner has gone is paired with a newcomer, and both start at tick 2.
   * The new match gets the verdict of a first one exactly when the survivor's last stamp was at most 130, and none
   * whatever if it was more.
   */
  lemma SurvivorVerdictIff(first: seq<Sample>, side: Side, y: nat, second: seq<Sample>)
    requires Orderly(first) && LatestOf(first, side) == Some(y)
    requires Orderly(second) && Abreast(second) && FirstOf(second, Host) == Some(2) && FirstOf(second, Guest) == Some(2)
    ensures var (c, d) := (TrialFrom(Survivor(Trial(first).Of(side), side), second), Trial(second));
            if y <= 130 then c.ok == d.ok && c.bad == d.bad else c.ok == 0 && c.bad == 0
  {
    hide Trial, TrialFrom, BaseOf, Orderly, LatestOf, FirstOf, Stands, Abreast, Lifted;
    LapIsTrue(first, side);
    var start := Survivor(Trial(first).Of(side), side);
    SurvivorBase(Trial(first).Of(side), y);
    FreshBase();
    BasedAt(start, second, Host, 2);
    BasedAt(start, second, Guest, 2);
    if y <= 130 {
      SameBaseSameVerdict(start, second, 0);
    } else {
      OtherBaseNoVerdict(start, second, BaseOf(start.host, 2), BaseOf(start.guest, 2));
    }
  }

  /** The survivor takes the new start for the first lap exactly when its clock is in it, and no more than half way. */
  lemma SurvivorBase(l: Ledger, y: nat)
    requires Stands(l, Some(y))
    ensures BaseOf(l.(crc := []), 2) == 0 <==> y <= 130
  {}

  lemma FreshBase()
    ensures BaseOf(FRESH, 2) == 0
  {}

  lemma BasedAt(start: Court, samples: seq<Sample>, side: Side, first: nat)
    requires FirstOf(samples, side) == Some(first)
    ensures Based(start, samples, side, BaseOf(start.Of(side), first))
  {
    hide BaseOf;
  }

  lemma TwoSamples(a: Sample, b: Sample)
    requires a == Sample(Host, 2, 0) && b == Sample(Guest, 2, 1)
    ensures Orderly([a] + [b]) && Abreast([a] + [b]) && Abreast([a])
    ensures FirstOf([a] + [b], Host) == Some(2) && FirstOf([a] + [b], Guest) == Some(2)
  {
    NothingSent(Host);
    NothingSent(Guest);
    OrderlyOneMore([], a);
    assert [] + [a] == [a];
    OrderlyOneMore([a], b);
    FirstOneMore([], a);
    FirstOneMore([a], b);
    AbreastBefore([], a);
    AbreastBefore([a], b);
    assert Newer([a], Host) == [Entry(2, 0 as byte)];
  }

  lemma FirstOneMore(before: seq<Sample>, s: Sample)
    ensures FirstOf(before + [s], Other(s.side)) == FirstOf(before, Other(s.side))
    ensures FirstOf(before + [s], s.side) == if FirstOf(before, s.side).Some? then FirstOf(before, s.side) else Some(s.y)
    ensures FirstOf([], Host) == None == FirstOf([], Guest)
  {
    assert (before + [s])[..|before + [s]| - 1] == before;
  }
}
