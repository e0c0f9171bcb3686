/** From the relay's START to two consoles in one match. */
module Handover {
  import opened Bytes
  import opened Framing
  import opened Wire
  import opened Netcode
  import opened Console
  import opened Relay
  import opened Pairing
  import opened Protocol

  /** What a console reads off its stream: the fifteen bytes behind what it had been told before. */
  function Reply(before: Relay, after: Relay, c: Id): seq<byte>
    requires c in before.conns && c in after.conns && |before.conns[c].tx| <= |after.conns[c].tx|
  {
    after.conns[c].tx[|before.conns[c].tx|..]
  }

  lemma ReplyIs(before: Relay, after: Relay, c: Id, f: seq<byte>)
    requires c in before.conns && c in after.conns && after.conns[c].tx == before.conns[c].tx + f
    ensures |before.conns[c].tx| <= |after.conns[c].tx| && Reply(before, after, c) == f
  {}

  /**
   * Two consoles paired by the relay take what each is told for a START: with the relay's delay their own, both
   * play, the one that waited as host and the newcomer as guest; with any other, neither does.
   */
  method HandOver(before: Relay, c: Id, seed: nat, rules: Settings, older: Ram, newer: Ram, p: Ports, q: Ports, a: byte, b: byte)
      returns (first: bool, second: bool)
    requires Known(before) && c in before.conns && Oldest(before, before.live, c).Some? && seed < 65536
    requires older.Valid() && newer.Valid() && older != newer
    requires older.slots != newer.slots && older.paddles != newer.paddles
    modifies older, older.slots, older.paddles, newer, newer.slots, newer.paddles
    ensures first <==> rules.delay == 2
    ensures second <==> rules.delay == 2
    ensures first ==> older.Snapshot() == Start(false, p, a) && older.Snapshot().entry.net
    ensures second ==> newer.Snapshot() == Start(true, q, b) && newer.Snapshot().entry.net
  {
    var after := TryPair(before, c, seed, rules);
    var host := Oldest(before, before.live, c).value;
    ghost var o, toHost, toGuest := PairingStarts(before, c, seed, rules);
    ReplyIs(before, after, host, toHost);
    ReplyIs(before, after, c, toGuest);
    hide TryPair, Oldest, Known;
    var mine, theirs := Reply(before, after, host), Reply(before, after, c);
    first := older.Begin(mine, p, a);
    second := newer.Begin(theirs, q, b);
  }
}
