/** The one-byte rotate-and-add checksum over the simulation's cells. */
module Checksum {
  import opened Bytes

  /** `ASL A`, with the carry it leaves added back in by the `ADC` that follows. */
  function Rotate(acc: byte): byte {
    if acc < 128 then 2 * acc else (2 * acc as int - 255) as byte
  }

  function Step(acc: byte, cell: byte): byte {
    Add(Rotate(acc), cell)
  }

  /** The checksum of a list of cells, in the order they are added. */
  function Crc(cells: seq<byte>): byte {
    if cells == [] then 0 else Step(Crc(cells[..|cells| - 1]), cells[|cells| - 1])
  }

  /** The zero-page cells covered: the variation, the frame counter, the scores, the Y positions. */
  function Covered(page: seq<byte>): (cells: seq<byte>)
    requires |page| == 128
    ensures |cells| == 9
  {
    [page[0x16], page[0x08], page[0x0E], page[0x0D], page[0x36], page[0x35], page[0x34], page[0x33], page[0x32]]
  }

  /** The checksum of the game's page. */
  function OfPage(page: seq<byte>): byte
    requires |page| == 128
  {
    Crc(Covered(page))
  }

  /** Each step is a bijection of the accumulator and of the cell. */
  lemma StepIsInjective(a: byte, b: byte, cell: byte, other: byte)
    ensures Step(a, cell) == Step(b, cell) <==> a == b
    ensures Step(a, cell) == Step(a, other) <==> cell == other
  {}

  /** A list whose cells from k on are the same keeps whatever difference there was before k. */
  lemma {:induction false} DifferenceSurvives(x: seq<byte>, y: seq<byte>, k: nat)
    requires |x| == |y| && k <= |x| && x[k..] == y[k..]
    ensures Crc(x) == Crc(y) <==> Crc(x[..k]) == Crc(y[..k])
  {
    var n := |x|;
    if k == n {
      assert x[..k] == x && y[..k] == y;
    } else {
      var x', y' := x[..n - 1], y[..n - 1];
      assert x'[k..] == x[k..][..n - 1 - k] && y'[k..] == y[k..][..n - 1 - k];
      assert x[n - 1] == x[k..][n - 1 - k] == y[k..][n - 1 - k] == y[n - 1];
      DifferenceSurvives(x', y', k);
      assert x'[..k] == x[..k] && y'[..k] == y[..k];
      StepIsInjective(Crc(x'), Crc(y'), x[n - 1], x[n - 1]);
    }
  }

  /** Changing exactly one cell, in a list of any length, always changes the checksum. */
  lemma OneCellChanges(cells: seq<byte>, i: nat, v: byte)
    requires i < |cells| && cells[i] != v
    ensures Crc(cells[i := v]) != Crc(cells)
  {
    var other := cells[i := v];
    assert other[i + 1..] == cells[i + 1..];
    DifferenceSurvives(other, cells, i + 1);
    assert other[..i + 1][..i] == cells[..i] == cells[..i + 1][..i];
    StepIsInjective(Crc(cells[..i]), Crc(cells[..i]), v, cells[i]);
  }

  /** The next byte value, modulo 256. */
  function Successor(b: byte): byte {
    Add(b, 1)
  }

  /**
   * Swapping two neighbouring cells is what a plain sum cannot see. The rotation sees it except in
   * exactly one family: the values are consecutive (modulo 256), and the smaller one takes the rotated
   * accumulator to 255.
   */
  lemma SwapIsSeenUnless(cells: seq<byte>, i: nat)
    requires i + 1 < |cells|
    ensures var (x, y, before) := (cells[i], cells[i + 1], Crc(cells[..i]));
            Crc(cells[i := y][i + 1 := x]) == Crc(cells)
            <==> x == y || (y == Successor(x) && Step(before, x) == 255) || (x == Successor(y) && Step(before, y) == 255)
  {
    var x, y := cells[i], cells[i + 1];
    var other := cells[i := y][i + 1 := x];
    assert other[i + 2..] == cells[i + 2..];
    DifferenceSurvives(other, cells, i + 2);
    assert other[..i + 2][..i + 1] == cells[..i] + [y];
    assert cells[..i + 2][..i + 1] == cells[..i] + [x];
    assert (cells[..i] + [y])[..i] == cells[..i] == (cells[..i] + [x])[..i];
    SwapOfTwo(Crc(cells[..i]), x, y);
  }

  lemma SwapOfTwo(c: byte, x: byte, y: byte)
    ensures Step(Step(c, y), x) == Step(Step(c, x), y)
      <==> x == y || (y == Successor(x) && Step(c, x) == 255) || (x == Successor(y) && Step(c, y) == 255)
  {}

  /** Wherever two neighbouring cells stand, there are two different values whose swap goes unseen there. */
  lemma SwapUnseen(before: seq<byte>, after: seq<byte>) returns (x: byte, y: byte)
    ensures x != y && Crc(before + [x, y] + after) == Crc(before + [y, x] + after)
  {
    x := (255 - Rotate(Crc(before)) as int) as byte;
    y := Successor(x);
    var (i, cells) := (|before|, before + [x, y] + after);
    assert cells[..i] == before && cells[i] == x && cells[i + 1] == y;
    assert cells[i := y][i + 1 := x] == before + [y, x] + after;
    SwapIsSeenUnless(cells, i);
  }

  /** The least example: 255 and 0, first of all. */
  lemma SwapUnseenAtFirst()
    ensures Crc([255, 0]) == Crc([0, 255])
  {
    assert [255 as byte, 0][..1] == [255] && [0 as byte, 255][..1] == [0];
    assert [255 as byte][..0] == [] && [0 as byte][..0] == [];
  }
}
