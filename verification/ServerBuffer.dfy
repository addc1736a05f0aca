/** The server ring buffer of src/buffer_server.cpp: a ring of bytes with one gap cell, contiguous
    blocks and a floating end mark, as a queue of blocks. */
module ServerBuffer {

  import opened Buffers

  /** A live block: its position and length. */
  datatype Block = Block(start: nat, len: nat)

  /** The blocks lie one after the other from lo to hi. */
  predicate Tiles(bs: seq<Block>, lo: nat, hi: nat) {
    if bs == [] then lo == hi
    else bs[0].start == lo && bs[0].len > 0 && Tiles(bs[1..], lo + bs[0].len, hi)
  }

  /** isBufferFree. */
  predicate Accepts(first: nat, current: nat, size: nat, count: nat) {
    count == 0
    || if current > first then
         current + count < size || (if current + count == size then first > 0 else count < first)
       else current + count < first
  }

  /** The number of bytes that can be freed at once at the front, and popped at once at the back. */
  function FrontRun(first: nat, current: nat, end: nat, used: int): int {
    if current < first < end - 1 then end - first - 1 else used
  }

  function BackRun(first: nat, current: nat, used: int): int {
    if 0 < current < first then current else used
  }

  /** Where the newest byte ends. */
  function Top(current: nat, end: nat): nat {
    if current == 0 then end else current
  }

  /** The subtraction of size_t. */
  function Minus(a: int, b: nat): (r: nat)
    requires 0 <= a && b < WORD
    ensures b <= a ==> r == a - b
  {
    if b <= a then a - b else a + WORD - b
  }

  /** Removing n bytes from the front, or the back, of a queue of blocks. */
  function DropFront<T>(c: seq<seq<T>>, n: nat): seq<seq<T>> {
    if n == 0 || c == [] then c
    else if n < |c[0]| then [c[0][n..]] + c[1..]
    else DropFront(c[1..], n - |c[0]|)
  }

  function DropBack<T>(c: seq<seq<T>>, n: nat): seq<seq<T>> {
    if n == 0 || c == [] then c
    else
      var i := |c| - 1;
      if n < |c[i]| then c[..i] + [c[i][..|c[i]| - n]]
      else DropBack(c[..i], n - |c[i]|)
  }

  function CutFront(bs: seq<Block>, n: nat): seq<Block> {
    if n == 0 || bs == [] then bs
    else if n < bs[0].len then [Block(bs[0].start + n, bs[0].len - n)] + bs[1..]
    else CutFront(bs[1..], n - bs[0].len)
  }

  function CutBack(bs: seq<Block>, n: nat): seq<Block> {
    if n == 0 || bs == [] then bs
    else
      var i := |bs| - 1;
      if n < bs[i].len then bs[..i] + [Block(bs[i].start, bs[i].len - n)]
      else CutBack(bs[..i], n - bs[i].len)
  }

  /** The bytes of the blocks. */
  function Bytes(data: seq<byte>, bs: seq<Block>): seq<seq<byte>>
    requires forall b | b in bs :: b.start + b.len <= |data|
  {
    seq(|bs|, i requires 0 <= i < |bs| => data[bs[i].start..bs[i].start + bs[i].len])
  }

  // ---------------------------------------------------------------- tiles

  lemma {:induction false} TilesBounds(bs: seq<Block>, lo: nat, hi: nat)
    requires Tiles(bs, lo, hi)
    ensures lo <= hi && (bs != [] ==> lo < hi)
    ensures forall b | b in bs :: lo <= b.start && b.start + b.len <= hi && b.len > 0
    ensures forall i, j | 0 <= i < j < |bs| :: bs[i].start + bs[i].len <= bs[j].start
  {
    if bs != [] {
      TilesBounds(bs[1..], lo + bs[0].len, hi);
      assert bs == [bs[0]] + bs[1..];
    }
  }

  lemma {:induction false} TilesAppend(bs: seq<Block>, cs: seq<Block>, lo: nat, mid: nat, hi: nat)
    requires Tiles(bs, lo, mid) && Tiles(cs, mid, hi)
    ensures Tiles(bs + cs, lo, hi)
  {
    if bs == [] {
      assert bs + cs == cs;
    } else {
      TilesAppend(bs[1..], cs, lo + bs[0].len, mid, hi);
      assert (bs + cs)[1..] == bs[1..] + cs;
    }
  }

  /** The last block of a tiling, and the tiling without it. */
  lemma {:induction false} TilesLast(bs: seq<Block>, lo: nat, hi: nat)
    requires Tiles(bs, lo, hi) && bs != []
    ensures var b := bs[|bs| - 1]; b.len > 0 && b.start + b.len == hi && Tiles(bs[..|bs| - 1], lo, b.start)
  {
    if |bs| > 1 {
      TilesLast(bs[1..], lo + bs[0].len, hi);
      assert bs[1..][..|bs| - 2] == bs[..|bs| - 1][1..];
    }
  }

  lemma {:induction false} CutFrontTiles(bs: seq<Block>, lo: nat, hi: nat, n: nat)
    requires Tiles(bs, lo, hi) && n <= hi - lo
    ensures Tiles(CutFront(bs, n), lo + n, hi)
  {
    if bs != [] {
      TilesBounds(bs, lo, hi);
      if n >= bs[0].len { CutFrontTiles(bs[1..], lo + bs[0].len, hi, n - bs[0].len); }
    }
  }

  lemma {:induction false} CutBackTiles(bs: seq<Block>, lo: nat, hi: nat, n: nat)
    requires Tiles(bs, lo, hi) && n <= hi - lo
    ensures Tiles(CutBack(bs, n), lo, hi - n)
    decreases |bs|
  {
    if bs == [] || n == 0 {
      hide Tiles;
    } else {
      TilesLast(bs, lo, hi);
      hide Tiles;
      var i := |bs| - 1;
      if n >= bs[i].len {
        TilesBounds(bs[..i], lo, bs[i].start);
        CutBackTiles(bs[..i], lo, bs[i].start, n - bs[i].len);
      } else {
        TilesAppend(bs[..i], [Block(bs[i].start, bs[i].len - n)], lo, bs[i].start, hi - n);
      }
    }
  }

  /** Cutting the first of two groups of blocks, when it has the bytes. */
  lemma {:induction false} CutFrontLeft(bs: seq<Block>, cs: seq<Block>, lo: nat, hi: nat, n: nat)
    requires Tiles(bs, lo, hi) && n <= hi - lo
    ensures CutFront(bs + cs, n) == CutFront(bs, n) + cs
  {
    if bs != [] && n > 0 {
      TilesBounds(bs, lo, hi);
      assert (bs + cs)[1..] == bs[1..] + cs;
      if n >= bs[0].len { CutFrontLeft(bs[1..], cs, lo + bs[0].len, hi, n - bs[0].len); }
    }
  }

  lemma {:induction false} CutBackRight(bs: seq<Block>, cs: seq<Block>, lo: nat, hi: nat, n: nat)
    requires Tiles(cs, lo, hi) && n <= hi - lo
    ensures CutBack(bs + cs, n) == bs + CutBack(cs, n)
    decreases |cs|
  {
    if cs != [] && n > 0 {
      TilesLast(cs, lo, hi);
      var i := |cs| - 1;
      assert (bs + cs)[..|bs + cs| - 1] == bs + cs[..i];
      if n >= cs[i].len {
        TilesBounds(cs[..i], lo, cs[i].start);
        CutBackRight(bs, cs[..i], lo, cs[i].start, n - cs[i].len);
      } else {
        assert (bs + cs[..i]) + [Block(cs[i].start, cs[i].len - n)] == bs + (cs[..i] + [Block(cs[i].start, cs[i].len - n)]);
      }
    } else {
      assert bs + cs == bs + CutBack(cs, n);
    }
  }

  predicate Inside(bs: seq<Block>, n: nat) {
    forall b | b in bs :: b.len > 0 && b.start + b.len <= n
  }

  lemma BytesConcat(data: seq<byte>, bs: seq<Block>, cs: seq<Block>)
    requires Inside(bs, |data|) && Inside(cs, |data|)
    ensures Inside(bs + cs, |data|) && Bytes(data, bs + cs) == Bytes(data, bs) + Bytes(data, cs)
  {}

  lemma BytesNone(data: seq<byte>)
    ensures Bytes(data, []) == []
  { }

  lemma BytesFirst(data: seq<byte>, bs: seq<Block>)
    requires Inside(bs, |data|) && bs != []
    ensures Inside(bs[1..], |data|)
    ensures Bytes(data, bs) == [data[bs[0].start..bs[0].start + bs[0].len]] + Bytes(data, bs[1..])
    ensures Bytes(data, bs)[1..] == Bytes(data, bs[1..])
  { }

  lemma BytesLast(data: seq<byte>, bs: seq<Block>)
    requires Inside(bs, |data|) && bs != []
    ensures var i := |bs| - 1; Inside(bs[..i], |data|) && bs[i].start + bs[i].len <= |data|
    ensures var i := |bs| - 1;
      && Bytes(data, bs) == Bytes(data, bs[..i]) + [data[bs[i].start..bs[i].start + bs[i].len]]
      && |Bytes(data, bs[..i])| == i
  { }

  /** The first block becomes shorter. */
  lemma CutFirst(data: seq<byte>, bs: seq<Block>, n: nat)
    requires Inside(bs, |data|) && bs != [] && n < bs[0].len
    ensures var cut := [Block(bs[0].start + n, bs[0].len - n)] + bs[1..];
      && Inside(cut, |data|) && bs[0].start + bs[0].len <= |data| && Inside(bs[1..], |data|)
      && Bytes(data, cut) == [data[bs[0].start..bs[0].start + bs[0].len][n..]] + Bytes(data, bs[1..])
  {
    var cut := [Block(bs[0].start + n, bs[0].len - n)] + bs[1..];
    assert cut[1..] == bs[1..];
    BytesFirst(data, cut);
    assert data[cut[0].start..cut[0].start + cut[0].len] == data[bs[0].start..bs[0].start + bs[0].len][n..];
  }

  lemma {:induction false} CutFrontBytes(data: seq<byte>, bs: seq<Block>, n: nat)
    requires Inside(bs, |data|)
    ensures Inside(CutFront(bs, n), |data|)
    ensures Bytes(data, CutFront(bs, n)) == DropFront(Bytes(data, bs), n)
  {
    hide Bytes;
    BytesNone(data);
    if bs != [] && n > 0 {
      BytesFirst(data, bs);
      if n >= bs[0].len {
        CutFrontBytes(data, bs[1..], n - bs[0].len);
      } else {
        CutFirst(data, bs, n);
      }
    }
  }

  lemma {:induction false} CutBackBytes(data: seq<byte>, bs: seq<Block>, n: nat)
    requires Inside(bs, |data|)
    ensures Inside(CutBack(bs, n), |data|)
    ensures Bytes(data, CutBack(bs, n)) == DropBack(Bytes(data, bs), n)
    decreases |bs|
  {
    hide Bytes;
    BytesNone(data);
    if bs != [] && n > 0 {
      var i := |bs| - 1;
      BytesLast(data, bs);
      LastOf(Bytes(data, bs), Bytes(data, bs[..i]), data[bs[i].start..bs[i].start + bs[i].len]);
      if n >= bs[i].len {
        CutBackBytes(data, bs[..i], n - bs[i].len);
      } else {
        CutLast(data, bs, n);
      }
    }
  }

  lemma LastOf<T>(c: seq<T>, d: seq<T>, x: T)
    requires c == d + [x]
    ensures |c| == |d| + 1 && c[|c| - 1] == x && c[..|c| - 1] == d
  { }

  /** The last block becomes shorter. */
  lemma CutLast(data: seq<byte>, bs: seq<Block>, n: nat)
    requires Inside(bs, |data|) && bs != [] && n < bs[|bs| - 1].len
    ensures var i := |bs| - 1; var cut := bs[..i] + [Block(bs[i].start, bs[i].len - n)];
      && Inside(cut, |data|) && bs[i].start + bs[i].len <= |data|
      && Bytes(data, cut) == Bytes(data, bs[..i]) + [data[bs[i].start..bs[i].start + bs[i].len][..bs[i].len - n]]
  {
    var i := |bs| - 1;
    var b := Block(bs[i].start, bs[i].len - n);
    assert bs[i] in bs;
    BytesConcat(data, bs[..i], [b]);
    assert data[b.start..b.start + b.len] == data[bs[i].start..bs[i].start + bs[i].len][..b.len];
  }

  // ---------------------------------------------------------------- layout

  /** The invariant of the fields, with `k` the number of blocks above `first`. */
  predicate Layout(first: nat, current: nat, end: nat, size: nat, used: int, bs: seq<Block>, k: nat) {
    && k <= |bs|
    && if first < current then
         current < size && end == size && used == current - first - 1 && k == |bs| && Tiles(bs, first + 1, current)
       else
         current < first < end <= size && used == end - first - 1 + current
         && Tiles(bs[..k], first + 1, end) && Tiles(bs[k..], 0, current)
  }

  /** The numbers alone. */
  lemma LayoutNumbers(first: nat, current: nat, end: nat, size: nat, used: int, bs: seq<Block>, k: nat)
    requires Layout(first, current, end, size, used, bs, k)
    ensures k <= |bs|
    ensures if first < current then current < size && end == size && used == current - first - 1
            else current < first < end <= size && used == end - first - 1 + current
  {}

  /** The invariant of a buffer of 3 * buffSize bytes; `tame`: no request so far was above buffSize. */
  predicate Sound(first: nat, current: nat, end: nat, size: nat, used: int, bs: seq<Block>, k: nat, tame: bool, buffSize: nat) {
    && size == 3 * buffSize && buffSize >= 1 && used >= 0
    && Layout(first, current, end, size, used, bs, k)
    && (tame && current < first ==> end > 2 * buffSize)
  }

  /** Live blocks are inside the buffer and disjoint, avoid the gap cell, and are `used` bytes in all. */
  lemma LayoutBounds(first: nat, current: nat, end: nat, size: nat, used: int, bs: seq<Block>, k: nat)
    requires Layout(first, current, end, size, used, bs, k)
    ensures Inside(bs, size)
    ensures forall b | b in bs :: !(b.start <= first < b.start + b.len)
    ensures forall i, j | 0 <= i < j < |bs| ::
      bs[i].start + bs[i].len <= bs[j].start || bs[j].start + bs[j].len <= bs[i].start
    ensures used < size
  {
    if first < current {
      TilesBounds(bs, first + 1, current);
    } else {
      TilesBounds(bs[..k], first + 1, end);
      TilesBounds(bs[k..], 0, current);
      TwoParts(bs, k, first, current);
    }
  }

  lemma TwoParts(bs: seq<Block>, k: nat, first: nat, current: nat)
    requires k <= |bs| && current <= first
    requires forall b | b in bs[..k] :: first < b.start
    requires forall b | b in bs[k..] :: b.start + b.len <= current
    requires forall i, j | 0 <= i < j < k :: bs[..k][i].start + bs[..k][i].len <= bs[..k][j].start
    requires forall i, j | 0 <= i < j < |bs| - k :: bs[k..][i].start + bs[k..][i].len <= bs[k..][j].start
    ensures forall i, j | 0 <= i < j < |bs| ::
      bs[i].start + bs[i].len <= bs[j].start || bs[j].start + bs[j].len <= bs[i].start
    ensures forall b | b in bs :: b in bs[..k] || b in bs[k..]
  {
    assert bs == bs[..k] + bs[k..];
    forall i, j | 0 <= i < j < |bs|
      ensures bs[i].start + bs[i].len <= bs[j].start || bs[j].start + bs[j].len <= bs[i].start
    {
      if j < k {
        assert bs[..k][i] == bs[i] && bs[..k][j] == bs[j];
      } else if i < k {
        assert bs[i] in bs[..k] && bs[j] in bs[k..];
      } else {
        assert bs[k..][i - k] == bs[i] && bs[k..][j - k] == bs[j];
      }
    }
  }

  /** Never refuses early: with requests of at most buffSize, a wrapped buffer has its end mark above
      2 * buffSize, and then every request with used + count < 2 * buffSize is accepted. */
  lemma NeverRefusesEarly(first: nat, current: nat, end: nat, used: int, bs: seq<Block>, k: nat, buffSize: nat, count: nat)
    requires Layout(first, current, end, 3 * buffSize, used, bs, k)
    requires current < first ==> end > 2 * buffSize
    requires count <= buffSize && used + count < 2 * buffSize
    ensures Accepts(first, current, 3 * buffSize, count)
  {}

  /** A block of count cells at `at` would be on free cells: in the buffer, over no live block and not over the gap cell,
      which the first cell behind it is not either. */
  predicate Place(bs: seq<Block>, first: nat, size: nat, at: nat, count: nat) {
    && at + count <= size
    && (forall b | b in bs :: b.start + b.len <= at || at + count <= b.start)
    && !(at <= first < at + count)
    && first != if at + count == size then 0 else at + count
  }

  /** There is a place behind the newest block, or at the start of the buffer. */
  predicate HasPlace(bs: seq<Block>, first: nat, current: nat, size: nat, count: nat) {
    count == 0 || Place(bs, first, size, current, count) || Place(bs, first, size, 0, count)
  }

  /** A request is refused only if there is no place for it. */
  lemma AcceptsIs(first: nat, current: nat, end: nat, size: nat, used: int, bs: seq<Block>, k: nat, count: nat)
    requires Layout(first, current, end, size, used, bs, k)
    ensures Accepts(first, current, size, count) <==> HasPlace(bs, first, current, size, count)
  {
    hide Tiles;
    if count > 0 {
      if first < current {
        TilesBounds(bs, first + 1, current);
      } else {
        WrappedBounds(first, current, end, bs, k);
        if current > 0 { CellZero(bs, k, current); }
      }
    }
  }

  lemma WrappedBounds(first: nat, current: nat, end: nat, bs: seq<Block>, k: nat)
    requires k <= |bs| && current < first < end && Tiles(bs[..k], first + 1, end) && Tiles(bs[k..], 0, current)
    ensures forall b | b in bs :: first < b.start || b.start + b.len <= current
  {
    TilesBounds(bs[..k], first + 1, end);
    TilesBounds(bs[k..], 0, current);
    assert bs == bs[..k] + bs[k..];
  }

  lemma CellZero(bs: seq<Block>, k: nat, current: nat)
    requires k <= |bs| && current > 0 && Tiles(bs[k..], 0, current)
    ensures exists b :: b in bs && b.start == 0 && b.len > 0
  {
    assert bs[k] == bs[k..][0];
  }

  /** Where an accepted request goes: behind the newest block if there is a place, else to the start. */
  lemma PlacedIs(first: nat, current: nat, end: nat, size: nat, used: int, bs: seq<Block>, k: nat, count: nat)
    requires Layout(first, current, end, size, used, bs, k) && count > 0 && Accepts(first, current, size, count)
    ensures Place(bs, first, size, Placed(first, current, end, size, count).2, count)
    ensures Placed(first, current, end, size, count).2 == if Place(bs, first, size, current, count) then current else 0
  {
    hide Tiles;
    if first < current {
      TilesBounds(bs, first + 1, current);
    } else {
      WrappedBounds(first, current, end, bs, k);
    }
  }

  /** The bytes of the blocks that lie in one piece at the front, and at the back. */
  function FrontPiece(bs: seq<Block>): nat {
    if bs == [] then 0
    else bs[0].len + if |bs| > 1 && bs[1].start == bs[0].start + bs[0].len then FrontPiece(bs[1..]) else 0
  }

  function BackPiece(bs: seq<Block>): nat {
    if bs == [] then 0
    else
      var i := |bs| - 1;
      bs[i].len + if i > 0 && bs[i].start == bs[i - 1].start + bs[i - 1].len then BackPiece(bs[..i]) else 0
  }

  lemma {:induction false} TilesPiece(bs: seq<Block>, cs: seq<Block>, lo: nat, hi: nat)
    requires Tiles(bs, lo, hi) && bs != [] && (cs != [] ==> cs[0].start != hi)
    ensures FrontPiece(bs + cs) == hi - lo
  {
    assert (bs + cs)[1..] == bs[1..] + cs;
    if |bs| > 1 {
      TilesPiece(bs[1..], cs, lo + bs[0].len, hi);
    } else {
      assert bs[1..] + cs == cs;
    }
  }

  lemma {:induction false} TilesBackPiece(bs: seq<Block>, cs: seq<Block>, lo: nat, hi: nat)
    requires Tiles(cs, lo, hi) && cs != [] && (bs != [] ==> bs[|bs| - 1].start + bs[|bs| - 1].len != lo)
    ensures BackPiece(bs + cs) == hi - lo
    decreases |cs|
  {
    var i := |cs| - 1;
    TilesLast(cs, lo, hi);
    assert (bs + cs)[..|bs + cs| - 1] == bs + cs[..i];
    if i > 0 {
      TilesLast(cs[..i], lo, cs[i].start);
      TilesBackPiece(bs, cs[..i], lo, cs[i].start);
    } else {
      assert bs + cs[..i] == bs;
    }
  }

  /** FrontRun and BackRun are these pieces. */
  lemma RunsAre(first: nat, current: nat, end: nat, size: nat, used: int, bs: seq<Block>, k: nat)
    requires Layout(first, current, end, size, used, bs, k)
    ensures FrontRun(first, current, end, used) == FrontPiece(bs) && BackRun(first, current, used) == BackPiece(bs)
  {
    hide FrontPiece, BackPiece;
    NoPieces();
    if first < current {
      TilesEmpty(bs, first + 1, current);
      if bs != [] {
        TilesPiece(bs, [], first + 1, current);
        TilesBackPiece([], bs, first + 1, current);
      }
      assert bs + [] == bs && [] + bs == bs;
    } else {
      assert bs == bs[..k] + bs[k..];
      TilesEmpty(bs[..k], first + 1, end);
      TilesEmpty(bs[k..], 0, current);
      hide Tiles;
      if bs[..k] != [] {
        TilesPiece(bs[..k], bs[k..], first + 1, end);
        TilesLast(bs[..k], first + 1, end);
      } else if bs != [] {
        TilesPiece(bs[k..], [], 0, current);
        assert bs[k..] + [] == bs;
      }
      if bs[k..] != [] {
        TilesBackPiece(bs[..k], bs[k..], 0, current);
      } else if bs != [] {
        TilesBackPiece([], bs[..k], first + 1, end);
        assert [] + bs[..k] == bs;
      }
    }
  }

  lemma TilesEmpty(bs: seq<Block>, lo: nat, hi: nat)
    requires Tiles(bs, lo, hi)
    ensures lo <= hi && (bs == [] <==> lo == hi) && (bs != [] ==> bs[0].start == lo)
  {
    TilesBounds(bs, lo, hi);
  }

  lemma NoPieces()
    ensures FrontPiece([]) == 0 && BackPiece([]) == 0
  { }

  /** The bytes in a queue of blocks. */
  function Total<T>(c: seq<seq<T>>): nat {
    if c == [] then 0 else |c[0]| + Total(c[1..])
  }

  lemma {:induction false} TilesTotal(data: seq<byte>, bs: seq<Block>, lo: nat, hi: nat)
    requires Tiles(bs, lo, hi) && Inside(bs, |data|)
    ensures Total(Bytes(data, bs)) == hi - lo
  {
    if bs != [] {
      TilesTotal(data, bs[1..], lo + bs[0].len, hi);
      assert Bytes(data, bs)[1..] == Bytes(data, bs[1..]);
    }
  }

  lemma {:induction false} TotalAppend<T>(c: seq<seq<T>>, d: seq<seq<T>>)
    ensures Total(c + d) == Total(c) + Total(d)
  {
    if c == [] {
      assert c + d == d;
    } else {
      TotalAppend(c[1..], d);
      assert (c + d)[1..] == c[1..] + d;
    }
  }

  /** `used` is the total length of the live blocks. */
  lemma UsedIsTotal(data: seq<byte>, first: nat, current: nat, end: nat, used: int, bs: seq<Block>, k: nat)
    requires Layout(first, current, end, |data|, used, bs, k)
    ensures Inside(bs, |data|) && used == Total(Bytes(data, bs))
  {
    hide Tiles, Total, Bytes, Inside;
    LayoutInside(first, current, end, |data|, used, bs, k);
    if first < current {
      TilesTotal(data, bs, first + 1, current);
    } else {
      TwoTotals(data, bs, k, first + 1, end, current);
    }
  }

  lemma LayoutInside(first: nat, current: nat, end: nat, size: nat, used: int, bs: seq<Block>, k: nat)
    requires Layout(first, current, end, size, used, bs, k)
    ensures Inside(bs, size)
  {
    LayoutBounds(first, current, end, size, used, bs, k);
  }

  /** The bytes of two groups of blocks. */
  lemma TwoTotals(data: seq<byte>, bs: seq<Block>, k: nat, lo: nat, hi: nat, top: nat)
    requires Inside(bs, |data|) && k <= |bs| && Tiles(bs[..k], lo, hi) && Tiles(bs[k..], 0, top)
    ensures Total(Bytes(data, bs)) == hi - lo + top
  {
    hide Tiles, Total, Bytes, Inside;
    InsideParts(bs, k, |data|);
    TilesTotal(data, bs[..k], lo, hi);
    TilesTotal(data, bs[k..], 0, top);
    BytesConcat(data, bs[..k], bs[k..]);
    TotalAppend(Bytes(data, bs[..k]), Bytes(data, bs[k..]));
  }

  lemma InsideParts(bs: seq<Block>, k: nat, n: nat)
    requires Inside(bs, n) && k <= |bs|
    ensures Inside(bs[..k], n) && Inside(bs[k..], n) && bs == bs[..k] + bs[k..]
  { }

  // ---------------------------------------------------------------- the class

  class CServerBuffer {
    ghost const buffSize: nat
    const size: nat
    var buffer: array<byte>
    var first: nat    // the gap cell, just before the first occupied one
    var current: nat  // the first free cell
    var end: nat
    var used: int

    ghost var blocks: seq<Block>  // the live blocks, oldest first
    ghost var upper: nat          // how many of them lie above first
    ghost var tame: bool          // no request so far was larger than buffSize

    ghost predicate Valid()
      reads this
    {
      buffer.Length == size && Sound(first, current, end, size, used, blocks, upper, tame, buffSize)
    }

    /** The bytes of the live blocks, oldest first. */
    ghost function Contents(): seq<seq<byte>>
      requires Valid()
      reads this, buffer
    {
      LayoutBounds(first, current, end, size, used, blocks, upper);
      Bytes(buffer[..], blocks)
    }

    constructor (buffSize: nat)
      requires buffSize >= 1
      ensures Valid() && tame && Contents() == [] && fresh(buffer) && this.buffSize == buffSize && size == 3 * buffSize
    {
      this.buffSize := buffSize;
      size := 3 * buffSize;
      buffer := new byte[3 * buffSize];
      first, current, end, used := 0, 1, 3 * buffSize, 0;
      blocks, upper, tame := [], 0, true;
    }

    method IsBufferFree(count: nat) returns (ret: bool)
      requires Valid()
      ensures ret <==> HasPlace(blocks, first, current, size, count)
      ensures ret == Accepts(first, current, size, count)
      ensures tame && count <= buffSize && used + count < 2 * buffSize ==> ret
      ensures used == 0 && tame && count <= buffSize ==> ret
    {
      if tame && count <= buffSize && used + count < 2 * buffSize {
        NeverRefusesEarly(first, current, end, used, blocks, upper, buffSize, count);
      }
      AcceptsIs(first, current, end, size, used, blocks, upper, count);
      hide HasPlace;
      if count == 0 { return true; }
      if current > first {
        if current + count < size {
          ret := true;
        } else if current + count == size {
          if first > 0 { ret := true; } else { ret := false; }
        } else {
          if count < first { ret := true; } else { ret := false; }
        }
      } else {
        if current + count < first { ret := true; } else { ret := false; }
      }
    }

    method IsBufferEmpty() returns (ret: bool)
      requires Valid()
      ensures ret <==> Contents() == []
    {
      UsedIsTotal(buffer[..], first, current, end, used, blocks, upper);
      TotalZero(Contents());
      ret := used == 0;
    }

    lemma TotalZero(c: seq<seq<byte>>)
      requires forall i | 0 <= i < |c| :: c[i] != []
      ensures Total(c) == 0 <==> c == []
    {
      if c != [] { assert c[0] != []; }
    }

    /** Allocates a block, on free cells: behind the newest block, or, if there is no place, at the start.  It takes no
        error branch exactly when there is a place, as isBufferFree says.  No byte of the buffer changes. */
    method GetBuffer(count: nat) returns (ok: bool, ret: nat)
      requires Valid()
      modifies this
      ensures buffer == old(buffer)
      ensures ok <==> HasPlace(old(blocks), old(first), old(current), size, count)
      ensures ok <==> Accepts(old(first), old(current), size, count)
      ensures ok && count > 0 ==> Place(old(blocks), first, size, ret, count)
      ensures ok && count > 0 ==> ret == if Place(old(blocks), first, size, old(current), count) then old(current) else 0
      ensures ok ==> first == old(first) && used == old(used) + count
      ensures ok ==> Valid() && tame == (old(tame) && count <= buffSize)
      ensures ok ==> blocks == if count == 0 then old(blocks) else old(blocks) + [Block(ret, count)]
      ensures !ok ==> first == old(first) && current == old(current) && used == old(used) && blocks == old(blocks)
    {
      LayoutNumbers(first, current, end, size, used, blocks, upper);
      AcceptsIs(first, current, end, size, used, blocks, upper, count);
      if count > 0 && Accepts(first, current, size, count) { PlacedIs(first, current, end, size, used, blocks, upper, count); }
      hide *;
      ghost var current0, end0, used0 := current, end, used;
      ok, ret := Allocate(count);
      if ok && count > 0 {
        Grown(first, current0, end0, size, used0, blocks, upper, tame, buffSize, count);
        upper := NewUpper(first, current0, size, upper, count);
        blocks := blocks + [Block(ret, count)];
        tame := tame && count <= buffSize;
      }
    }

    /** The body of getBuffer. */
    method Allocate(count: nat) returns (ok: bool, ret: nat)
      modifies `current, `end, `used
      ensures ok == Accepts(first, old(current), size, count)
      ensures !ok || count == 0 ==> current == old(current) && used == old(used)
      ensures count == 0 ==> end == old(end)
      ensures ok && count > 0 ==> used == old(used) + count
      ensures ok && count > 0 ==> (current, end, ret) == Placed(first, old(current), old(end), size, count)
    {
      if count == 0 { return true, current; }
      if current > first {
        if current + count < size {
          ret := current;
          current := current + count;
        } else if current + count == size {
          if first > 0 {
            ret := current;
            current := 0;
          } else {
            return false, 0;
          }
        } else {
          end := current;
          if count < first {
            ret := 0;
            current := count;
          } else {
            return false, 0;
          }
        }
      } else {
        if current + count < first {
          ret := current;
          current := current + count;
        } else {
          return false, 0;
        }
      }
      used := used + count;
      ok := true;
    }

    /** Frees count bytes at the front.  It takes no error branch exactly when they lie in one run, in
        particular when they are part of the oldest block (FrontBlockFrees). */
    method FreeBuffer(count: nat) returns (ok: bool)
      requires Valid()
      modifies this
      ensures buffer == old(buffer)
      ensures ok <==> count <= FrontPiece(old(blocks))
      ensures ok <==> count <= FrontRun(old(first), old(current), old(end), old(used))
      ensures ok ==> Valid() && tame == old(tame) && used == old(used) - count
      ensures ok ==> blocks == CutFront(old(blocks), count) && Contents() == DropFront(old(Contents()), count)
    {
      hide FrontPiece, BackPiece;
      LayoutNumbers(first, current, end, size, used, blocks, upper);
      LayoutBounds(first, current, end, size, used, blocks, upper);
      CutFrontBytes(buffer[..], blocks, count);
      RunsAre(first, current, end, size, used, blocks, upper);
      hide *;
      ghost var first0, end0, used0 := first, end, used;
      ok := Release(count);
      if ok && count > 0 {
        Shrunk(first0, current, end0, size, used0, blocks, upper, tame, buffSize, count);
        ghost var cut := CutFront(blocks, count);
        upper := FreedUpper(first0, current, end0, upper, |blocks|, |cut|);
        blocks := cut;
      }
    }

    /** The body of freeBuffer. */
    method Release(count: nat) returns (ok: bool)
      requires if first < current then current < size && end == size && used == current - first - 1
               else current < first < end <= size && used == end - first - 1 + current
      modifies `first, `end, `used
      ensures ok <==> count <= FrontRun(old(first), current, old(end), old(used))
      ensures ok ==> used == old(used) - count
      ensures count == 0 ==> first == old(first) && end == old(end)
      ensures ok && count > 0 ==> (first, end) == Freed(old(first), current, old(end), size, count)
    {
      if count == 0 { return true; }
      var n := count;
      if first == end - 1 {
        first := 0;
        n := n - 1;
        used := used - 1;
        end := size;
      }
      if first <= current {
        if first + n < current { first := first + n; } else { return false; }
      } else {
        if first + n < end { first := first + n; } else { return false; }
      }
      used := used - n;
      ok := true;
    }

    /** Pops count bytes at the back.  It is right exactly when they lie in one run, in particular when they are part
        of the newest block (FrontBlockFrees).  Beyond that it takes an error branch, unless count is also beyond
        the end of the run: the comparisons of unsigned numbers then see nothing wrong, and the numbers wrap around. */
    method PopBuffer(count: nat) returns (ok: bool)
      requires Valid() && size < WORD && count < WORD
      modifies this
      ensures buffer == old(buffer) && first == old(first)
      ensures BackRun(old(first), old(current), old(used)) == BackPiece(old(blocks))
      ensures ok <==> count <= BackRun(old(first), old(current), old(used)) || count > Top(old(current), old(end))
      ensures count <= BackRun(old(first), old(current), old(used)) ==>
        && Valid() && tame == old(tame) && used == old(used) - count
        && blocks == CutBack(old(blocks), count) && Contents() == DropBack(old(Contents()), count)
      ensures ok && count > BackRun(old(first), old(current), old(used)) ==>
        current == Top(old(current), old(end)) + WORD - count && used == Minus(old(used), count)
    {
      hide FrontPiece, BackPiece;
      LayoutNumbers(first, current, end, size, used, blocks, upper);
      assert Inside(blocks, size) by { LayoutBounds(first, current, end, size, used, blocks, upper); }
      CutBackBytes(buffer[..], blocks, count);
      RunsAre(first, current, end, size, used, blocks, upper);
      hide *;
      ghost var current0, end0, used0 := current, end, used;
      ghost var legal := count <= BackRun(first, current, used);
      ok := Pop(count);
      if legal && count > 0 {
        PoppedSound(first, current0, end0, size, used0, blocks, upper, tame, buffSize, count);
        ghost var cut := CutBack(blocks, count);
        upper := if 0 < current0 < first then upper else |cut|;
        blocks := cut;
      }
    }

    /** The body of popBuffer. */
    method Pop(count: nat) returns (ok: bool)
      requires size < WORD && count < WORD && used >= 0
      requires if first < current then current < size && end == size && used == current - first - 1
               else current < first < end <= size && used == end - first - 1 + current
      modifies `current, `end, `used
      ensures ok <==> count <= BackRun(first, old(current), old(used)) || count > Top(old(current), old(end))
      ensures ok ==> used == Minus(old(used), count)
      ensures count == 0 ==> current == old(current) && end == old(end)
      ensures 0 < count <= BackRun(first, old(current), old(used)) ==>
        count <= old(used) && (current, end) == Popped(old(current), old(end), size, count)
      ensures ok && count > BackRun(first, old(current), old(used)) ==> current == Top(old(current), old(end)) + WORD - count
    {
      if count == 0 { return true; }
      if current == 0 {
        current := end;
        end := size;
      }
      if first <= current {
        if Minus(current, count) > first { current := Minus(current, count); } else { return false; }
      } else {
        current := Minus(current, count);  // an unsigned number is never below 0
      }
      used := Minus(used, count);
      ok := true;
    }

    /** What the callers do with a block: allocate it and receive the message in it.  The queue gets the
        message behind all others, and the bytes of the other live blocks stay. */
    method Receive(data: seq<byte>) returns (ok: bool)
      requires Valid() && data != []
      modifies this, buffer
      ensures buffer == old(buffer)
      ensures ok <==> HasPlace(old(blocks), old(first), old(current), size, |data|)
      ensures ok ==> Valid() && Contents() == old(Contents()) + [data] && tame == (old(tame) && |data| <= buffSize)
    {
      hide HasPlace, Place, Accepts, Layout, Written, Apart;
      var at;
      ghost var before, blocks0 := buffer[..], blocks;
      ok, at := GetBuffer(|data|);
      if ok {
        FitsLast(first, current, end, size, used, blocks, upper);
        WroteOne(before, blocks, at, data);
        hide Layout, Bytes, Inside, Written;
        assert blocks[..|blocks| - 1] == blocks0;
        Store(at, data);
      }
    }

    method Store(at: nat, data: seq<byte>)
      requires at + |data| <= buffer.Length
      modifies buffer
      ensures buffer[..] == Written(old(buffer[..]), at, data)
    {
      forall i | 0 <= i < |data| { buffer[at + i] := data[i]; }
    }
  }

  function Written(before: seq<byte>, at: nat, data: seq<byte>): seq<byte>
    requires at + |data| <= |before|
  {
    before[..at] + data + before[at + |data|..]
  }

  lemma FitsLast(first: nat, current: nat, end: nat, size: nat, used: int, bs: seq<Block>, k: nat)
    requires Layout(first, current, end, size, used, bs, k) && bs != []
    ensures bs[|bs| - 1].start + bs[|bs| - 1].len <= size && Inside(bs, size) && Apart(bs)
  {
    LayoutBounds(first, current, end, size, used, bs, k);
    assert bs[|bs| - 1] in bs;
  }

  predicate Apart(bs: seq<Block>) {
    forall i, j | 0 <= i < j < |bs| ::
      bs[i].start + bs[i].len <= bs[j].start || bs[j].start + bs[j].len <= bs[i].start
  }

  /** Writing into the last block only. */
  lemma WroteOne(before: seq<byte>, bs: seq<Block>, at: nat, data: seq<byte>)
    requires Inside(bs, |before|) && Apart(bs) && bs != [] && bs[|bs| - 1] == Block(at, |data|)
    requires at + |data| <= |before|
    ensures Inside(bs[..|bs| - 1], |before|)
    ensures Bytes(Written(before, at, data), bs) == Bytes(before, bs[..|bs| - 1]) + [data]
  {
    var k, after := |bs| - 1, Written(before, at, data);
    forall i | 0 <= i < k ensures Bytes(after, bs)[i] == Bytes(before, bs[..k])[i] {
      var b := bs[i];
      assert b in bs;
      assert forall j | b.start <= j < b.start + b.len :: after[j] == before[j];
      assert after[b.start..b.start + b.len] == before[b.start..b.start + b.len];
    }
    assert after[at..at + |data|] == data;
  }

  /** Whole or part of the oldest block can be freed, and of the newest popped. */
  lemma FrontBlockFrees(first: nat, current: nat, end: nat, size: nat, used: int, bs: seq<Block>, k: nat)
    requires Layout(first, current, end, size, used, bs, k) && bs != []
    ensures bs[0].len <= FrontRun(first, current, end, used)
    ensures bs[|bs| - 1].len <= BackRun(first, current, used)
  {
    var last := |bs| - 1;
    if first < current {
      TilesBounds(bs, first + 1, current);
      assert bs[0] in bs && bs[last] in bs;
    } else {
      TilesBounds(bs[..k], first + 1, end);
      TilesBounds(bs[k..], 0, current);
      if k > 0 { assert bs[0] in bs[..k]; } else { assert bs[0] in bs[k..]; }
      if k < |bs| { assert bs[last] in bs[k..]; } else { assert bs[last] in bs[..k]; }
    }
  }

  lemma Grown(first: nat, current: nat, end: nat, size: nat, used: int, bs: seq<Block>, k: nat, tame: bool, buffSize: nat, count: nat)
    requires Sound(first, current, end, size, used, bs, k, tame, buffSize)
    requires count > 0 && Accepts(first, current, size, count)
    ensures var (cur, e, at) := Placed(first, current, end, size, count);
      Sound(first, cur, e, size, used + count, bs + [Block(at, count)], NewUpper(first, current, size, k, count),
            tame && count <= buffSize, buffSize)
  {
    hide Tiles;
    GrowLayout(first, current, end, size, used, bs, k, count);
  }

  /** The new first and end after a legal free, and how many blocks then lie above first. */
  function Freed(first: nat, current: nat, end: nat, size: nat, count: nat): (nat, nat)
    requires count > 0
  {
    if current < first == end - 1 then (count - 1, size) else (first + count, end)
  }

  function FreedUpper(first: nat, current: nat, end: nat, k: nat, before: nat, after: nat): int {
    if current < first < end - 1 then k + after - before else after
  }

  lemma Shrunk(first: nat, current: nat, end: nat, size: nat, used: int, bs: seq<Block>, k: nat, tame: bool, buffSize: nat, count: nat)
    requires Sound(first, current, end, size, used, bs, k, tame, buffSize)
    requires 0 < count <= FrontRun(first, current, end, used)
    ensures var (f, e) := Freed(first, current, end, size, count); var cut := CutFront(bs, count);
      var k' := FreedUpper(first, current, end, k, |bs|, |cut|);
      k' >= 0 && Sound(f, current, e, size, used - count, cut, k', tame, buffSize)
  {
    hide Tiles;
    FreeLayout(first, current, end, size, used, bs, k, count);
  }

  /** The new current and end after a legal pop. */
  function Popped(current: nat, end: nat, size: nat, count: nat): (int, nat) {
    if current == 0 then (end - count, size) else (current - count, end)
  }

  lemma PoppedSound(first: nat, current: nat, end: nat, size: nat, used: int, bs: seq<Block>, k: nat, tame: bool, buffSize: nat, count: nat)
    requires Sound(first, current, end, size, used, bs, k, tame, buffSize)
    requires 0 < count <= BackRun(first, current, used)
    ensures var (cur, e) := Popped(current, end, size, count); var cut := CutBack(bs, count);
      cur >= 0 && Sound(first, cur, e, size, used - count, cut, if 0 < current < first then k else |cut|, tame, buffSize)
  {
    hide Tiles;
    PopLayout(first, current, end, size, used, bs, k, count);
  }

  /** The new current and end, and the position of the block, after an accepted request. */
  function Placed(first: nat, current: nat, end: nat, size: nat, count: nat): (nat, nat, nat) {
    if current <= first || current + count < size then (current + count, end, current)
    else if current + count == size then (0, end, current)
    else (count, current, 0)
  }

  /** How many blocks lie above first after a request. */
  function NewUpper(first: nat, current: nat, size: nat, k: nat, count: nat): nat {
    if first < current && current + count <= size then k + 1 else k
  }

  /** The block of an accepted request extends the layout. */
  lemma GrowLayout(first: nat, current: nat, end: nat, size: nat, used: int, bs: seq<Block>, k: nat, count: nat)
    requires Layout(first, current, end, size, used, bs, k) && count > 0 && Accepts(first, current, size, count)
    ensures var (cur, e, at) := Placed(first, current, end, size, count);
      Layout(first, cur, e, size, used + count, bs + [Block(at, count)], NewUpper(first, current, size, k, count))
  {
    if first < current {
      if current + count < size {
        TilesAppend(bs, [Block(current, count)], first + 1, current, current + count);
      } else if current + count == size {
        TilesAppend(bs, [Block(current, count)], first + 1, current, current + count);
        assert (bs + [Block(current, count)])[..k + 1] == bs + [Block(current, count)];
      } else {
        assert (bs + [Block(0, count)])[..k] == bs && (bs + [Block(0, count)])[k..] == [Block(0, count)];
      }
    } else {
      TilesAppend(bs[k..], [Block(current, count)], 0, current, current + count);
      assert (bs + [Block(current, count)])[..k] == bs[..k];
      assert (bs + [Block(current, count)])[k..] == bs[k..] + [Block(current, count)];
    }
  }

  lemma {:induction false} CutFrontLess(bs: seq<Block>, n: nat)
    ensures |CutFront(bs, n)| <= |bs|
  {
    if n > 0 && bs != [] && n >= bs[0].len { CutFrontLess(bs[1..], n - bs[0].len); }
  }

  /** Freeing n bytes that lie in one run at the front. */
  lemma FreeLayout(first: nat, current: nat, end: nat, size: nat, used: int, bs: seq<Block>, k: nat, n: nat)
    requires Layout(first, current, end, size, used, bs, k) && n <= FrontRun(first, current, end, used)
    ensures var cut := CutFront(bs, n);
      if first < current then Layout(first + n, current, end, size, used - n, cut, |cut|)
      else if first < end - 1 then
        k + |cut| >= |bs| && Layout(first + n, current, end, size, used - n, cut, k + |cut| - |bs|)
      else n > 0 ==> Layout(n - 1, current, size, size, used - n, cut, |cut|)
  {
    hide Tiles, CutFront;
    if first < current {
      CutFrontTiles(bs, first + 1, current, n);
    } else if first < end - 1 {
      var cut := CutFront(bs[..k], n);
      CutFrontTiles(bs[..k], first + 1, end, n);
      CutFrontLeft(bs[..k], bs[k..], first + 1, end, n);
      CutFrontLess(bs[..k], n);
      assert bs == bs[..k] + bs[k..];
      assert (cut + bs[k..])[..|cut|] == cut && (cut + bs[k..])[|cut|..] == bs[k..];
    } else {
      TilesBounds(bs[..k], first + 1, end);
      assert bs[..k] == [] && bs[k..] == bs;
      CutFrontTiles(bs, 0, current, n);
    }
  }

  /** Popping n bytes that lie in one run at the back. */
  lemma PopLayout(first: nat, current: nat, end: nat, size: nat, used: int, bs: seq<Block>, k: nat, n: nat)
    requires Layout(first, current, end, size, used, bs, k) && n <= BackRun(first, current, used)
    ensures var cut := CutBack(bs, n);
      if first < current then Layout(first, current - n, end, size, used - n, cut, |cut|)
      else if current > 0 then Layout(first, current - n, end, size, used - n, cut, k)
      else n > 0 ==> Layout(first, end - n, size, size, used - n, cut, |cut|)
  {
    if first < current {
      CutBackTiles(bs, first + 1, current, n);
    } else if current > 0 {
      var cut := CutBack(bs[k..], n);
      CutBackTiles(bs[k..], 0, current, n);
      CutBackRight(bs[..k], bs[k..], 0, current, n);
      assert bs == bs[..k] + bs[k..];
      assert (bs[..k] + cut)[..k] == bs[..k] && (bs[..k] + cut)[k..] == cut;
    } else {
      TilesBounds(bs[k..], 0, current);
      assert bs[k..] == [] && bs[..k] == bs;
      CutBackTiles(bs, first + 1, end, n);
    }
  }
}
