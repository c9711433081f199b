/** Where a weight lies in the cube the convolution engine reads, and that the placement loses
    and repeats nothing. Channels and kernel positions count from one, as the callers do. */
module WeightCube {
  import opened Arith

  const K_GROUP: nat := 32
  const FP16_GROUP: nat := 16
  const INT8_GROUP: nat := 32

  /** The input-channel groups of a cube; the last one may be padding in part. */
  function Groups(IC: nat): nat { (IC + 31) / 32 }

  /** Output groups outermost, then input groups, kernel rows and columns, and within a group
      output channels over input channels. G output channels make a group. */
  function WeightConv(G: nat, IC: nat, KH: nat, KW: nat, oc: int, ic: int, kh: int, kw: int): int
    requires 0 < G
  {
    var oc1, oc2 := (oc - 1) / G, (oc - 1) % G;
    var ic1, ic2 := (ic - 1) / 32, (ic - 1) % 32;
    ((((oc1 * Groups(IC) + ic1) * KH + (kh - 1)) * KW + (kw - 1)) * G + oc2) * 32 + ic2
  }

  function WeightConvFp16(IC: nat, KH: nat, KW: nat, oc: int, ic: int, kh: int, kw: int): int {
    WeightConv(FP16_GROUP, IC, KH, KW, oc, ic, kh, kw)
  }

  function WeightConvInt8(IC: nat, KH: nat, KW: nat, oc: int, ic: int, kh: int, kw: int): int {
    WeightConv(INT8_GROUP, IC, KH, KW, oc, ic, kh, kw)
  }

  /** Depthwise: one filter a channel, so no output-channel dimension. */
  function WeightConvDw(KH: nat, KW: nat, G: nat, c: int, kh: int, kw: int): int
    requires 0 < G
  {
    var ic1, ic2 := (c - 1) / G, (c - 1) % G;
    ((ic1 * KH + (kh - 1)) * KW + (kw - 1)) * G + ic2
  }

  /** The matmul's weight index: G rows and 32 columns to a tile. */
  function WeightMatmul(G: nat, C: nat, k: int, c: int): int
    requires 0 < G
  {
    var kpg, cpg := (k - 1) / G, (c - 1) / 32;
    cpg * 32 * G + kpg * G * C + (c - 1) % 32 + (k - 1) % G * 32
  }

  // ---- one weight, one place -----------------------------------------------------------

  /** One weight's coordinates. */
  datatype Coord = Coord(oc: int, ic: int, kh: int, kw: int)

  /** A coordinate of the cube, padding channels of both last groups included. */
  predicate InCube(IC: nat, KH: nat, KW: nat, c: Coord) {
    1 <= c.oc && 1 <= c.ic <= Groups(IC) * 32 && 1 <= c.kh <= KH && 1 <= c.kw <= KW
  }

  function IndexOf(G: nat, IC: nat, KH: nat, KW: nat, c: Coord): int
    requires 0 < G
  {
    WeightConv(G, IC, KH, KW, c.oc, c.ic, c.kh, c.kw)
  }

  /** The coordinates a cube position holds. */
  function CoordAt(G: nat, IC: nat, KH: nat, KW: nat, pos: int): Coord
    requires 0 < G && 0 < IC && 0 < KH && 0 < KW
  {
    var ic2, p := pos % 32, pos / 32;
    var oc2, q := p % G, p / G;
    var kw, r := q % KW, q / KW;
    var kh, t := r % KH, r / KH;
    var ic1, oc1 := t % Groups(IC), t / Groups(IC);
    Coord(oc1 * G + oc2 + 1, ic1 * 32 + ic2 + 1, kh + 1, kw + 1)
  }

  /** The cube's groups of coordinates, outermost first. */
  lemma GroupOf(IC: nat, ic: int)
    requires 1 <= ic <= Groups(IC) * 32
    ensures 0 <= (ic - 1) / 32 < Groups(IC)
  {
    DivBelow(ic - 1, Groups(IC), 32);
  }

  /** Reading the position of a weight back gives that weight: no two share one. */
  lemma CoordOfIndex(G: nat, IC: nat, KH: nat, KW: nat, c: Coord)
    requires 0 < G && 0 < IC && 0 < KH && 0 < KW && InCube(IC, KH, KW, c)
    ensures CoordAt(G, IC, KH, KW, IndexOf(G, IC, KH, KW, c)) == c
  {
    var n := Groups(IC);
    var oc1, oc2, ic1, ic2 := (c.oc - 1) / G, (c.oc - 1) % G, (c.ic - 1) / 32, (c.ic - 1) % 32;
    GroupOf(IC, c.ic);
    var t := oc1 * n + ic1;
    var r := t * KH + (c.kh - 1);
    var q := r * KW + (c.kw - 1);
    var p := q * G + oc2;
    var pos := p * 32 + ic2;
    assert IndexOf(G, IC, KH, KW, c) == pos;
    Digits(p, ic2, 32);
    Digits(q, oc2, G);
    Digits(r, c.kw - 1, KW);
    Digits(t, c.kh - 1, KH);
    Digits(oc1, ic1, n);
    assert pos % 32 == ic2 && pos / 32 == p && p % G == oc2 && p / G == q;
    Recompose(c.oc - 1, G);
  }

  lemma NoTwoShare(G: nat, IC: nat, KH: nat, KW: nat, a: Coord, b: Coord)
    requires 0 < G && 0 < IC && 0 < KH && 0 < KW && InCube(IC, KH, KW, a) && InCube(IC, KH, KW, b)
    requires IndexOf(G, IC, KH, KW, a) == IndexOf(G, IC, KH, KW, b)
    ensures a == b
  {
    CoordOfIndex(G, IC, KH, KW, a);
    CoordOfIndex(G, IC, KH, KW, b);
  }

  /** How many places a cube of `groups` output groups has. */
  function Places(G: nat, IC: nat, KH: nat, KW: nat, groups: nat): nat {
    groups * Groups(IC) * KH * KW * G * 32
  }

  /** The kernel positions of a cube's input groups, row by row: N output groups of n. */
  lemma PositionInside(N: nat, n: nat, KH: nat, KW: nat, oc1: int, ic1: int, kh: int, kw: int)
    requires 0 <= oc1 < N && 0 <= ic1 < n && 0 <= kh < KH && 0 <= kw < KW
    ensures 0 <= ((oc1 * n + ic1) * KH + kh) * KW + kw < N * n * KH * KW
  {
    var t := oc1 * n + ic1;
    DigitsInside(oc1, ic1, N, n);
    DigitsInside(t, kh, N * n, KH);
    DigitsInside(t * KH + kh, kw, N * n * KH, KW);
  }

  /** Within a position, G output channels of 32 input channels. */
  lemma TileInside(N: nat, G: nat, q: int, oc2: int, ic2: int)
    requires 0 <= q < N && 0 <= oc2 < G && 0 <= ic2 < 32
    ensures 0 <= (q * G + oc2) * 32 + ic2 < N * G * 32
  {
    DigitsInside(q, oc2, N, G);
    DigitsInside(q * G + oc2, ic2, N * G, 32);
  }

  /** Every weight lies inside a cube with room for its output group. */
  lemma IndexInside(G: nat, IC: nat, KH: nat, KW: nat, groups: nat, c: Coord)
    requires 0 < G && 0 < IC && InCube(IC, KH, KW, c) && c.oc <= groups * G
    ensures 0 <= IndexOf(G, IC, KH, KW, c) < Places(G, IC, KH, KW, groups)
  {
    var n := Groups(IC);
    var oc1, ic1 := (c.oc - 1) / G, (c.ic - 1) / 32;
    GroupOf(IC, c.ic);
    DivBelow(c.oc - 1, groups, G);
    PositionInside(groups, n, KH, KW, oc1, ic1, c.kh - 1, c.kw - 1);
    var q := ((oc1 * n + ic1) * KH + (c.kh - 1)) * KW + (c.kw - 1);
    TileInside(groups * n * KH * KW, G, q, (c.oc - 1) % G, (c.ic - 1) % 32);
  }

  /** The position a place is at, taken apart and put together. */
  lemma PositionApart(N: nat, n: nat, KH: nat, KW: nat, q: nat)
    requires 0 < n && 0 < KH && 0 < KW && q < N * n * KH * KW
    ensures var t := q / KW / KH;
      && 0 <= t / n < N && 0 <= t % n < n && 0 <= q / KW % KH < KH && 0 <= q % KW < KW
      && ((t / n * n + t % n) * KH + q / KW % KH) * KW + q % KW == q
  {
    var r := q / KW;
    var t := r / KH;
    DivBelow(q, N * n * KH, KW);
    DivBelow(r, N * n, KH);
    DivBelow(t, N, n);
    Recompose(q, KW);
    Recompose(r, KH);
    Recompose(t, n);
  }

  lemma TileApart(N: nat, G: nat, pos: nat)
    requires 0 < G && pos < N * G * 32
    ensures var p := pos / 32;
      && 0 <= p / G < N && 0 <= p % G < G && (p / G * G + p % G) * 32 + pos % 32 == pos
  {
    DivBelow(pos, N * G, 32);
    DivBelow(pos / 32, N, G);
    Recompose(pos, 32);
    Recompose(pos / 32, G);
  }

  /** Every place of the cube holds a weight of it. */
  lemma IndexOfCoord(G: nat, IC: nat, KH: nat, KW: nat, groups: nat, pos: nat)
    requires 0 < G && 0 < IC && 0 < KH && 0 < KW && pos < Places(G, IC, KH, KW, groups)
    ensures var c := CoordAt(G, IC, KH, KW, pos);
      InCube(IC, KH, KW, c) && c.oc <= groups * G && IndexOf(G, IC, KH, KW, c) == pos
  {
    var n, q := Groups(IC), pos / 32 / G;
    TileApart(groups * n * KH * KW, G, pos);
    PositionApart(groups, n, KH, KW, q);
    var t := q / KW / KH;
    Digits(t / n, pos / 32 % G, G);
    Digits(t % n, pos % 32, 32);
    RowsApart(t % n, n, 32);
    RowsApart(t / n, groups, G);
  }

  /** With whole groups, one place each way: the weights fill [0, OC * IC * KH * KW) exactly. */
  lemma AlignedPlaces(G: nat, OC: nat, IC: nat, KH: nat, KW: nat)
    requires 0 < G && OC % G == 0 && IC % 32 == 0
    ensures Places(G, IC, KH, KW, OC / G) == OC * IC * KH * KW && Groups(IC) * 32 == IC
  {
    var groups, n := OC / G, Groups(IC);
    Recompose(OC, G);
    assert groups * G == OC && n * 32 == IC;
    var a := KH * KW;
    assert groups * n * KH * KW == groups * n * a;
    assert groups * n * a * G * 32 == (groups * G) * (n * 32) * a;
    assert OC * IC * a == OC * IC * KH * KW;
  }

  lemma AlignedIsBijection(G: nat, OC: nat, IC: nat, KH: nat, KW: nat)
    requires 0 < G && 0 < OC && 0 < IC && 0 < KH && 0 < KW && OC % G == 0 && IC % 32 == 0
    ensures forall c: Coord ::
      1 <= c.oc <= OC && 1 <= c.ic <= IC && 1 <= c.kh <= KH && 1 <= c.kw <= KW ==>
        && 0 <= IndexOf(G, IC, KH, KW, c) < OC * IC * KH * KW
        && CoordAt(G, IC, KH, KW, IndexOf(G, IC, KH, KW, c)) == c
    ensures forall pos: nat :: pos < OC * IC * KH * KW ==>
      var c := CoordAt(G, IC, KH, KW, pos);
      && 1 <= c.oc <= OC && 1 <= c.ic <= IC && 1 <= c.kh <= KH && 1 <= c.kw <= KW
      && IndexOf(G, IC, KH, KW, c) == pos
  {
    AlignedPlaces(G, OC, IC, KH, KW);
    Recompose(OC, G);
    forall c: Coord | 1 <= c.oc <= OC && 1 <= c.ic <= IC && 1 <= c.kh <= KH && 1 <= c.kw <= KW
      ensures 0 <= IndexOf(G, IC, KH, KW, c) < OC * IC * KH * KW
      ensures CoordAt(G, IC, KH, KW, IndexOf(G, IC, KH, KW, c)) == c
    {
      IndexInside(G, IC, KH, KW, OC / G, c);
      CoordOfIndex(G, IC, KH, KW, c);
    }
    forall pos: nat | pos < OC * IC * KH * KW
      ensures var c := CoordAt(G, IC, KH, KW, pos);
        && 1 <= c.oc <= OC && 1 <= c.ic <= IC && 1 <= c.kh <= KH && 1 <= c.kw <= KW
        && IndexOf(G, IC, KH, KW, c) == pos
    {
      IndexOfCoord(G, IC, KH, KW, OC / G, pos);
    }
  }

  /** From one kernel column to the next the fp16 and the int8 cube both go on by 1024 bytes. */
  lemma TilesAreEqual(IC: nat, KH: nat, KW: nat, oc: int, ic: int, kh: int, kw: int)
    ensures 2 * (WeightConvFp16(IC, KH, KW, oc, ic, kh, kw + 1) - WeightConvFp16(IC, KH, KW, oc, ic, kh, kw))
            == 1024
    ensures WeightConvInt8(IC, KH, KW, oc, ic, kh, kw + 1) - WeightConvInt8(IC, KH, KW, oc, ic, kh, kw)
            == 1024
  {
    TileStep(FP16_GROUP, IC, KH, KW, oc, ic, kh, kw);
    TileStep(INT8_GROUP, IC, KH, KW, oc, ic, kh, kw);
  }

  lemma TileStep(G: nat, IC: nat, KH: nat, KW: nat, oc: int, ic: int, kh: int, kw: int)
    requires 0 < G
    ensures WeightConv(G, IC, KH, KW, oc, ic, kh, kw + 1) - WeightConv(G, IC, KH, KW, oc, ic, kh, kw)
            == 32 * G
  {
    var row := (((oc - 1) / G * Groups(IC) + (ic - 1) / 32) * KH + (kh - 1)) * KW;
    assert (row + kw) * G == (row + (kw - 1)) * G + G;
  }

  /** How far apart neighbours lie: input channels of a group side by side, output channels of
      one 32 apart, kernel columns a tile, kernel rows a row of tiles. */
  lemma NeighboursAre(G: nat, IC: nat, KH: nat, KW: nat, oc: int, ic: int, kh: int, kw: int)
    requires 0 < G && 1 <= oc && 1 <= ic
    ensures WeightConv(G, IC, KH, KW, 1, 1, 1, 1) == 0
    ensures ic % 32 != 0 ==>
      WeightConv(G, IC, KH, KW, oc, ic + 1, kh, kw) - WeightConv(G, IC, KH, KW, oc, ic, kh, kw) == 1
    ensures oc % G != 0 ==>
      WeightConv(G, IC, KH, KW, oc + 1, ic, kh, kw) - WeightConv(G, IC, KH, KW, oc, ic, kh, kw) == 32
    ensures WeightConv(G, IC, KH, KW, oc, ic, kh, kw + 1) - WeightConv(G, IC, KH, KW, oc, ic, kh, kw) == 32 * G
    ensures WeightConv(G, IC, KH, KW, oc, ic, kh + 1, kw) - WeightConv(G, IC, KH, KW, oc, ic, kh, kw)
            == KW * (32 * G)
  {
    TileStep(G, IC, KH, KW, oc, ic, kh, kw);
    RowStep(G, IC, KH, KW, oc, ic, kh, kw);
    ChannelStep(G, IC, KH, KW, oc, ic, kh, kw);
    FirstPlace(G, IC, KH, KW);
  }

  lemma FirstPlace(G: nat, IC: nat, KH: nat, KW: nat)
    requires 0 < G
    ensures WeightConv(G, IC, KH, KW, 1, 1, 1, 1) == 0
  {
    Digits(0, 0, G);
    assert 0 * Groups(IC) == 0 && 0 * KH == 0 && 0 * KW == 0 && 0 * G == 0;
  }

  lemma ChannelStep(G: nat, IC: nat, KH: nat, KW: nat, oc: int, ic: int, kh: int, kw: int)
    requires 0 < G && 1 <= oc && 1 <= ic
    ensures ic % 32 != 0 ==>
      WeightConv(G, IC, KH, KW, oc, ic + 1, kh, kw) - WeightConv(G, IC, KH, KW, oc, ic, kh, kw) == 1
    ensures oc % G != 0 ==>
      WeightConv(G, IC, KH, KW, oc + 1, ic, kh, kw) - WeightConv(G, IC, KH, KW, oc, ic, kh, kw) == 32
  {
    if oc % G != 0 {
      Recompose(oc - 1, G);
      NextInGroup((oc - 1) / G, (oc - 1) % G, G, oc);
    }
    if ic % 32 != 0 { NextInGroup((ic - 1) / 32, (ic - 1) % 32, 32, ic); }
  }

  lemma RowStep(G: nat, IC: nat, KH: nat, KW: nat, oc: int, ic: int, kh: int, kw: int)
    requires 0 < G
    ensures WeightConv(G, IC, KH, KW, oc, ic, kh + 1, kw) - WeightConv(G, IC, KH, KW, oc, ic, kh, kw)
            == KW * (32 * G)
  {
    var m := ((oc - 1) / G * Groups(IC) + (ic - 1) / 32) * KH + (kh - 1);
    assert (m + 1) * KW == m * KW + KW;
    RowOfTiles(m * KW + (kw - 1), KW, G);
  }

  lemma NextInGroup(g: int, r: int, G: nat, oc: int)
    requires 0 <= r < G && oc - 1 == g * G + r && oc % G != 0
    ensures oc / G == g && oc % G == r + 1
  {
    if r + 1 == G { assert oc == (g + 1) * G + 0; Digits(g + 1, 0, G); } else { Digits(g, r + 1, G); }
  }

  lemma RowOfTiles(q: int, KW: nat, G: nat)
    ensures ((q + KW) * G) * 32 == (q * G) * 32 + KW * (32 * G)
  {
    assert (q + KW) * G == q * G + KW * G;
    assert KW * (32 * G) == 32 * (KW * G);
  }

  // ---- depthwise -----------------------------------------------------------------------

  function DwCoordAt(KH: nat, KW: nat, G: nat, pos: int): (int, int, int)
    requires 0 < G && 0 < KH && 0 < KW
  {
    var ic2, p := pos % G, pos / G;
    var kw, q := p % KW, p / KW;
    (q / KH * G + ic2 + 1, q % KH + 1, kw + 1)
  }

  lemma DwCoordOfIndex(KH: nat, KW: nat, G: nat, c: int, kh: int, kw: int)
    requires 0 < G && 1 <= c && 1 <= kh <= KH && 1 <= kw <= KW
    ensures DwCoordAt(KH, KW, G, WeightConvDw(KH, KW, G, c, kh, kw)) == (c, kh, kw)
  {
    var ic1, ic2 := (c - 1) / G, (c - 1) % G;
    var q := ic1 * KH + (kh - 1);
    var p := q * KW + (kw - 1);
    Digits(ic1, kh - 1, KH);
    Digits(q, kw - 1, KW);
    Digits(p, ic2, G);
    Recompose(c - 1, G);
  }

  lemma DwIndexOfCoord(KH: nat, KW: nat, G: nat, groups: nat, pos: nat)
    requires 0 < G && 0 < KH && 0 < KW && pos < groups * KH * KW * G
    ensures var (c, kh, kw) := DwCoordAt(KH, KW, G, pos);
      && 1 <= c <= groups * G && 1 <= kh <= KH && 1 <= kw <= KW
      && WeightConvDw(KH, KW, G, c, kh, kw) == pos
  {
    var p := pos / G;
    var q := p / KW;
    DivBelow(pos, groups * KH * KW, G);
    DivBelow(p, groups * KH, KW);
    DivBelow(q, groups, KH);
    Recompose(pos, G);
    Recompose(p, KW);
    Recompose(q, KH);
    Digits(q / KH, pos % G, G);
    RowsApart(q / KH, groups, G);
  }

  /** Depthwise neighbours: a group's channels side by side, then kernel columns and rows. */
  lemma DwNeighboursAre(KH: nat, KW: nat, G: nat, c: int, kh: int, kw: int)
    requires 0 < G && 1 <= c
    ensures WeightConvDw(KH, KW, G, 1, 1, 1) == 0
    ensures c % G != 0 ==> WeightConvDw(KH, KW, G, c + 1, kh, kw) - WeightConvDw(KH, KW, G, c, kh, kw) == 1
    ensures WeightConvDw(KH, KW, G, c, kh, kw + 1) - WeightConvDw(KH, KW, G, c, kh, kw) == G
    ensures WeightConvDw(KH, KW, G, c, kh + 1, kw) - WeightConvDw(KH, KW, G, c, kh, kw) == KW * G
  {
    var m := (c - 1) / G * KH + (kh - 1);
    if c % G != 0 {
      Recompose(c - 1, G);
      NextInGroup((c - 1) / G, (c - 1) % G, G, c);
    }
    assert (m + 1) * KW == m * KW + KW;
    assert (m * KW + kw) * G == (m * KW + (kw - 1)) * G + G;
    assert (m * KW + KW + (kw - 1)) * G == (m * KW + (kw - 1)) * G + KW * G;
  }

  // ---- a 1x1 convolution is a matmul ---------------------------------------------------

  /** The 1x1 convolution index with its output group's stride in front. */
  lemma OneByOneSpread(G: int, n: int, g: int, ic1: int, oc2: int, ic2: int)
    ensures ((g * n + ic1) * G + oc2) * 32 + ic2 == (g * G) * (n * 32) + ic1 * 32 * G + oc2 * 32 + ic2
  {
    var gG := g * G;
    assert (g * n) * G == gG * n;
    assert (g * n + ic1) * G == gG * n + ic1 * G;
    assert gG * n * 32 == gG * (n * 32);
  }

  lemma SameStride(a: nat, x: nat, y: nat)
    ensures a * x == a * y <==> a == 0 || x == y
  {
    if a * x == a * y && a != 0 {
      if x < y { MulMono(1, a, y - x); }
      if y < x { MulMono(1, a, x - y); }
    }
  }

  /** At a 1x1 kernel the convolution cube is the matmul's, except past the first output group
      when the input channels do not fill their last group. */
  lemma OneByOneIsMatmul(G: nat, IC: nat, oc: int, ic: int)
    requires 0 < G && 1 <= oc && 1 <= ic
    ensures WeightConv(G, IC, 1, 1, oc, ic, 1, 1) == WeightMatmul(G, IC, oc, ic)
            <==> oc <= G || IC % 32 == 0
  {
    var n, g := Groups(IC), (oc - 1) / G;
    Recompose(oc - 1, G);
    FirstGroup(g, (oc - 1) % G, G, oc);
    OneByOneSpread(G, n, g, (ic - 1) / 32, (oc - 1) % G, (ic - 1) % 32);
    SameStride(g * G, n * 32, IC);
  }

  /** So with whole input groups both matmul indices are their convolution's at a 1x1 kernel. */
  lemma MatmulsAreOneByOne(IC: nat, oc: int, ic: int)
    requires IC % 32 == 0 && 1 <= oc && 1 <= ic
    ensures WeightConvFp16(IC, 1, 1, oc, ic, 1, 1) == WeightMatmul(FP16_GROUP, IC, oc, ic)
    ensures WeightConvInt8(IC, 1, 1, oc, ic, 1, 1) == WeightMatmul(INT8_GROUP, IC, oc, ic)
  {
    OneByOneIsMatmul(FP16_GROUP, IC, oc, ic);
    OneByOneIsMatmul(INT8_GROUP, IC, oc, ic);
  }

  lemma FirstGroup(g: int, r: nat, G: nat, oc: int)
    requires r < G && oc - 1 == g * G + r && 1 <= oc
    ensures 0 <= g && (g * G == 0 <==> oc <= G)
  {
    if g < 0 { MulMono(1, -g, G); }
    if 0 < g { MulMono(1, g, G); }
  }

  /** The int4 nibble index counts its input groups itself, in tiles of 64 rows. */
  function WeightInt4(C: nat, k: int, c: int): int {
    (k - 1) / 64 * Groups(C) * 64 * 32 + (c - 1) / 32 * 64 * 32 + (k - 1) % 64 * 32 + (c - 1) % 32
  }

  /** So it is the 1x1 convolution cube of groups of 64 at every channel count. */
  lemma Int4IsOneByOne(C: nat, k: int, c: int)
    requires 1 <= k && 1 <= c
    ensures WeightInt4(C, k, c) == WeightConv(64, C, 1, 1, k, c, 1, 1)
  {
  }

  /** With one input group the int4 and int8 layouts coincide; with more they part at the
      33rd output channel. */
  lemma Int4MeetsInt8(C: nat, k: int, c: int)
    requires 1 <= k && 1 <= c
    ensures C == 32 && c <= 32 ==> WeightInt4(C, k, c) == WeightMatmul(INT8_GROUP, C, k, c)
    ensures C > 32 ==> WeightInt4(C, 33, 1) != WeightMatmul(INT8_GROUP, C, 33, 1)
  {
  }
}
