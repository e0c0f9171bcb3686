/** The relay's stream reassembler. */
module Framing {
  import opened Bytes

  const LONGEST: int := 200

  /** A frame on a client's stream: its type and its payload. */
  datatype Packet = Packet(kind: byte, payload: seq<byte>)

  /** The bytes of a frame. */
  function FrameBytes(p: Packet): seq<byte>
    requires |p.payload| < 255
  {
    [(|p.payload| + 1) as byte, p.kind] + p.payload
  }

  /** What a stream is cut into: its whole frames, what is left, and whether it is malformed there. */
  datatype Cutting = Cutting(packets: seq<Packet>, rest: seq<byte>, bad: bool)

  predicate Malformed(rx: seq<byte>) {
    rx != [] && !(1 <= rx[0] as int <= LONGEST)
  }

  /** A whole frame is at the front. */
  predicate Ready(rx: seq<byte>) {
    rx != [] && !Malformed(rx) && |rx| > rx[0] as int
  }

  function Front(rx: seq<byte>): Packet
    requires Ready(rx)
  {
    Packet(rx[1], rx[2..rx[0] as int + 1])
  }

  function Behind(rx: seq<byte>): seq<byte>
    requires Ready(rx)
  {
    rx[rx[0] as int + 1..]
  }

  function Cut(rx: seq<byte>): Cutting
    decreases |rx|
  {
    if Ready(rx) then
      var c := Cut(Behind(rx));
      c.(packets := [Front(rx)] + c.packets)
    else Cutting([], rx, Malformed(rx))
  }

  /** A partial frame is short, so there is always room to receive the rest of it. */
  lemma {:induction false} RestIsShort(rx: seq<byte>)
    ensures !Cut(rx).bad ==> |Cut(rx).rest| <= LONGEST
  {
    if Ready(rx) {
      RestIsShort(Behind(rx));
    }
  }

  lemma ReadyLasts(a: seq<byte>, b: seq<byte>)
    requires Ready(a)
    ensures Ready(a + b) && Front(a + b) == Front(a) && Behind(a + b) == Behind(a) + b
  {
    var n := a[0] as int + 1;
    assert (a + b)[0] == a[0];
    assert (a + b)[2..n] == a[2..n];
    assert (a + b)[n..] == a[n..] + b;
  }

  /** More bytes only add to what was cut: nothing already handled is read differently. */
  lemma {:induction false} CutMore(a: seq<byte>, b: seq<byte>)
    ensures if Cut(a).bad then Cut(a + b).packets == Cut(a).packets && Cut(a + b).bad
            else Cut(a + b) == var c := Cut(Cut(a).rest + b); c.(packets := Cut(a).packets + c.packets)
    decreases |a|
  {
    if Ready(a) {
      ReadyLasts(a, b);
      CutMore(Behind(a), b);
    } else if Malformed(a) {
      assert (a + b)[0] == a[0];
    }
  }

  // ---- whatever the chunks ----

  function Joined(chunks: seq<seq<byte>>): seq<byte> {
    if chunks == [] then [] else Joined(chunks[..|chunks| - 1]) + chunks[|chunks| - 1]
  }

  /** One chunk after another, until the stream is found malformed and the connection dropped. */
  function Fed(chunks: seq<seq<byte>>): Cutting {
    if chunks == [] then Cutting([], [], false)
    else
      var before := Fed(chunks[..|chunks| - 1]);
      if before.bad then before
      else
        var c := Cut(before.rest + chunks[|chunks| - 1]);
        c.(packets := before.packets + c.packets)
  }

  /**
   * Reassembly does not depend on how the stream was split: the same frames are handled, the same verdict is
   * reached, and while the stream is well formed the same bytes are left over.
   */
  lemma {:induction false} ChunksDoNotMatter(chunks: seq<seq<byte>>)
    ensures Fed(chunks).packets == Cut(Joined(chunks)).packets && Fed(chunks).bad == Cut(Joined(chunks)).bad
    ensures !Fed(chunks).bad ==> Fed(chunks).rest == Cut(Joined(chunks)).rest
  {
    if chunks != [] {
      var (before, last) := (chunks[..|chunks| - 1], chunks[|chunks| - 1]);
      ChunksDoNotMatter(before);
      CutMore(Joined(before), last);
    }
  }

  // ---- and inverts framing ----

  function Stream(ps: seq<Packet>): seq<byte>
    requires forall p | p in ps :: |p.payload| < LONGEST
  {
    if ps == [] then [] else FrameBytes(ps[0]) + Stream(ps[1..])
  }

  /** Frames whose body is 1 to 200 bytes come out as they went in, with nothing left over. */
  lemma {:induction false} CutInvertsFraming(ps: seq<Packet>)
    requires forall p | p in ps :: |p.payload| < LONGEST
    ensures Cut(Stream(ps)) == Cutting(ps, [], false)
  {
    if ps != [] {
      var (p, more) := (ps[0], Stream(ps[1..]));
      CutInvertsFraming(ps[1..]);
      FrontFrame(p, more);
      assert [p] + ps[1..] == ps;
    }
  }

  lemma FrontFrame(p: Packet, more: seq<byte>)
    requires |p.payload| < LONGEST
    ensures var rx := FrameBytes(p) + more; Ready(rx) && Front(rx) == p && Behind(rx) == more
  {
    var rx := FrameBytes(p) + more;
    var n := |p.payload| + 1;
    assert rx[0] as int == n && rx[1] == p.kind;
    assert rx[2..n + 1] == p.payload;
    assert rx[n + 1..] == more;
  }

  // ---- up to the first drop ----

  /** The frames handled up to and including the first that makes the relay drop its sender. */
  function UpTo(ps: seq<Packet>, drops: seq<Packet> -> bool): seq<Packet> {
    if ps == [] then []
    else
      var before := UpTo(ps[..|ps| - 1], drops);
      if drops(before) then before else before + [ps[|ps| - 1]]
  }

  /**
   * Chunks as the relay takes them: the connection is read until a chunk in which it was dropped, and the
   * frames behind the drop in that chunk are still handled. Whether a frame drops its sender may depend on
   * everything handled before it.
   */
  function Handled(chunks: seq<seq<byte>>, drops: seq<Packet> -> bool): Cutting {
    if chunks == [] then Cutting([], [], false)
    else
      var before := Handled(chunks[..|chunks| - 1], drops);
      if before.bad || drops(UpTo(before.packets, drops)) then before
      else
        var c := Cut(before.rest + chunks[|chunks| - 1]);
        c.(packets := before.packets + c.packets)
  }

  lemma {:induction false} UpToMore(a: seq<Packet>, b: seq<Packet>, drops: seq<Packet> -> bool)
    ensures drops(UpTo(a, drops)) ==> UpTo(a + b, drops) == UpTo(a, drops)
  {
    if b == [] {
      assert a + b == a;
    } else {
      assert (a + b)[..|a + b| - 1] == a + b[..|b| - 1];
      UpToMore(a, b[..|b| - 1], drops);
    }
  }

  lemma {:induction false} HandledIsFed(chunks: seq<seq<byte>>, drops: seq<Packet> -> bool)
    ensures Handled(chunks, drops).packets <= Fed(chunks).packets
    ensures !drops(UpTo(Handled(chunks, drops).packets, drops)) ==> Handled(chunks, drops) == Fed(chunks)
  {
    if chunks != [] {
      var before := chunks[..|chunks| - 1];
      HandledIsFed(before, drops);
      var h := Handled(before, drops);
      if !drops(UpTo(h.packets, drops)) && !h.bad {
        var c := Cut(h.rest + chunks[|chunks| - 1]);
        assert Handled(chunks, drops) == c.(packets := h.packets + c.packets);
      } else if drops(UpTo(h.packets, drops)) {
        assert Handled(chunks, drops) == h;
      }
    }
  }

  /**
   * Up to the first drop the relay handles the same frames whatever the chunks: the two splits of one stream
   * that drop their sender or end without a drop agree on everything handled so far.
   */
  lemma SameUpToDrop(chunks: seq<seq<byte>>, drops: seq<Packet> -> bool)
    ensures UpTo(Handled(chunks, drops).packets, drops) == UpTo(Cut(Joined(chunks)).packets, drops)
  {
    ChunksDoNotMatter(chunks);
    HandledIsFed(chunks, drops);
    var h := Handled(chunks, drops).packets;
    var all := Fed(chunks).packets;
    if drops(UpTo(h, drops)) {
      assert all == h + all[|h|..];
      UpToMore(h, all[|h|..], drops);
    }
  }
}
