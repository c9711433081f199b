/** A convolution contracted through the packed cubes, in the engine's own loop nest, is the
    convolution of the tensors that were packed. */
module ConvCubes {
  import opened WeightCube
  import F = FeatureCube
  import Arith

  /** One term of a contraction, by input channel, kernel row and kernel column from zero. */
  type Term = (int, int, int) -> int

  // ---- row-major order -----------------------------------------------------------------

  function OverCols(g: Term, ic: int, kh: int, KW: nat): int {
    if KW == 0 then 0 else OverCols(g, ic, kh, KW - 1) + g(ic, kh, KW - 1)
  }

  function OverRows(g: Term, ic: int, KH: nat, KW: nat): int {
    if KH == 0 then 0 else OverRows(g, ic, KH - 1, KW) + OverCols(g, ic, KH - 1, KW)
  }

  /** Input channels [a, b) outermost, then kernel rows, then kernel columns. */
  function RowNest(g: Term, a: int, b: int, KH: nat, KW: nat): int
    decreases b - a
  {
    if b <= a then 0 else RowNest(g, a, b - 1, KH, KW) + OverRows(g, b - 1, KH, KW)
  }

  // ---- the engine's order --------------------------------------------------------------

  function OverGroup(g: Term, base: int, kh: int, kw: int, n: nat): int {
    if n == 0 then 0 else OverGroup(g, base, kh, kw, n - 1) + g(base + n - 1, kh, kw)
  }

  function GroupCols(g: Term, base: int, kh: int, KW: nat, n: nat): int {
    if KW == 0 then 0 else GroupCols(g, base, kh, KW - 1, n) + OverGroup(g, base, kh, KW - 1, n)
  }

  function GroupRows(g: Term, base: int, KH: nat, KW: nat, n: nat): int {
    if KH == 0 then 0 else GroupRows(g, base, KH - 1, KW, n) + GroupCols(g, base, KH - 1, KW, n)
  }

  /** Channel groups outermost, then kernel rows and columns, then the channels of a group. */
  function CubeNest(g: Term, groups: nat, KH: nat, KW: nat): int {
    if groups == 0 then 0
    else CubeNest(g, groups - 1, KH, KW) + GroupRows(g, (groups - 1) * K_GROUP, KH, KW, K_GROUP)
  }

  // ---- one sum -------------------------------------------------------------------------

  lemma {:induction false} ColsPeel(g: Term, base: int, kh: int, KW: nat, n: nat)
    ensures GroupCols(g, base, kh, KW, n + 1)
            == GroupCols(g, base, kh, KW, n) + OverCols(g, base + n, kh, KW)
  {
    if KW > 0 { ColsPeel(g, base, kh, KW - 1, n); }
  }

  lemma {:induction false} RowsPeel(g: Term, base: int, KH: nat, KW: nat, n: nat)
    ensures GroupRows(g, base, KH, KW, n + 1)
            == GroupRows(g, base, KH, KW, n) + OverRows(g, base + n, KH, KW)
  {
    if KH > 0 {
      RowsPeel(g, base, KH - 1, KW, n);
      ColsPeel(g, base, KH - 1, KW, n);
    }
  }

  lemma {:induction false} NoChannelsCols(g: Term, base: int, kh: int, KW: nat)
    ensures GroupCols(g, base, kh, KW, 0) == 0
  {
    if KW > 0 { NoChannelsCols(g, base, kh, KW - 1); }
  }

  lemma {:induction false} NoChannels(g: Term, base: int, KH: nat, KW: nat)
    ensures GroupRows(g, base, KH, KW, 0) == 0
  {
    if KH > 0 {
      NoChannels(g, base, KH - 1, KW);
      NoChannelsCols(g, base, KH - 1, KW);
    }
  }

  lemma {:induction false} GroupIsRows(g: Term, base: int, KH: nat, KW: nat, n: nat)
    ensures GroupRows(g, base, KH, KW, n) == RowNest(g, base, base + n, KH, KW)
  {
    if n == 0 {
      NoChannels(g, base, KH, KW);
    } else {
      GroupIsRows(g, base, KH, KW, n - 1);
      RowsPeel(g, base, KH, KW, n - 1);
    }
  }

  lemma {:induction false} RowsJoin(g: Term, a: int, b: int, c: int, KH: nat, KW: nat)
    requires a <= b <= c
    ensures RowNest(g, a, c, KH, KW) == RowNest(g, a, b, KH, KW) + RowNest(g, b, c, KH, KW)
    decreases c - b
  {
    if b < c { RowsJoin(g, a, b, c - 1, KH, KW); }
  }

  lemma {:induction false} NestIsRows(g: Term, groups: nat, KH: nat, KW: nat)
    ensures CubeNest(g, groups, KH, KW) == RowNest(g, 0, groups * K_GROUP, KH, KW)
  {
    if groups > 0 {
      var base := (groups - 1) * K_GROUP;
      NestIsRows(g, groups - 1, KH, KW);
      GroupIsRows(g, base, KH, KW, K_GROUP);
      RowsJoin(g, 0, base, groups * K_GROUP, KH, KW);
    }
  }

  /** Two terms that agree over a range of channels and the kernel give one sum over it. */
  lemma {:induction false} SameCols(g: Term, h: Term, ic: int, kh: int, KW: nat)
    requires forall kw :: 0 <= kw < KW ==> g(ic, kh, kw) == h(ic, kh, kw)
    ensures OverCols(g, ic, kh, KW) == OverCols(h, ic, kh, KW)
  {
    if KW > 0 { SameCols(g, h, ic, kh, KW - 1); }
  }

  lemma {:induction false} SameRows(g: Term, h: Term, ic: int, KH: nat, KW: nat)
    requires forall kh, kw :: 0 <= kh < KH && 0 <= kw < KW ==> g(ic, kh, kw) == h(ic, kh, kw)
    ensures OverRows(g, ic, KH, KW) == OverRows(h, ic, KH, KW)
  {
    if KH > 0 {
      SameRows(g, h, ic, KH - 1, KW);
      SameCols(g, h, ic, KH - 1, KW);
    }
  }

  lemma {:induction false} SameNest(g: Term, h: Term, a: int, b: int, KH: nat, KW: nat)
    requires forall ic, kh, kw :: a <= ic < b && 0 <= kh < KH && 0 <= kw < KW
               ==> g(ic, kh, kw) == h(ic, kh, kw)
    ensures RowNest(g, a, b, KH, KW) == RowNest(h, a, b, KH, KW)
    decreases b - a
  {
    if a < b {
      SameNest(g, h, a, b - 1, KH, KW);
      SameRows(g, h, b - 1, KH, KW);
    }
  }

  lemma {:induction false} ZeroNest(a: int, b: int, KH: nat, KW: nat)
    ensures RowNest((ic, kh, kw) => 0, a, b, KH, KW) == 0
    decreases b - a
  {
    if a < b {
      ZeroNest(a, b - 1, KH, KW);
      ZeroRows(b - 1, KH, KW);
    }
  }

  lemma {:induction false} ZeroRows(ic: int, KH: nat, KW: nat)
    ensures OverRows((ic, kh, kw) => 0, ic, KH, KW) == 0
  {
    if KH > 0 {
      ZeroRows(ic, KH - 1, KW);
      ZeroCols(ic, KH - 1, KW);
    }
  }

  lemma {:induction false} ZeroCols(ic: int, kh: int, KW: nat)
    ensures OverCols((ic, kh, kw) => 0, ic, kh, KW) == 0
  {
    if KW > 0 { ZeroCols(ic, kh, KW - 1); }
  }

  /** A term that agrees with another below IC and vanishes on the padding channels sums, in
      the engine's order, to the other's row-major sum. */
  lemma NestsAgree(g: Term, h: Term, IC: nat, KH: nat, KW: nat)
    requires forall ic, kh, kw :: 0 <= ic < Groups(IC) * K_GROUP && 0 <= kh < KH && 0 <= kw < KW
               ==> g(ic, kh, kw) == if ic < IC then h(ic, kh, kw) else 0
    ensures CubeNest(g, Groups(IC), KH, KW) == RowNest(h, 0, IC, KH, KW)
  {
    var n := Groups(IC) * K_GROUP;
    NestIsRows(g, Groups(IC), KH, KW);
    RowsJoin(g, 0, IC, n, KH, KW);
    SameNest(g, h, 0, IC, KH, KW);
    SameNest(g, (ic, kh, kw) => 0, IC, n, KH, KW);
    ZeroNest(IC, n, KH, KW);
  }

  // ---- the convolution -----------------------------------------------------------------

  datatype Shape = Shape(OC: nat, IC: nat, KH: nat, KW: nat, IH: nat, IW: nat,
                         strideY: int, strideX: int, dilY: int, dilX: int, padTop: int, padLeft: int)

  predicate ShapeOk(d: Shape) {
    0 < d.OC && 0 < d.IC && 0 < d.KH && 0 < d.KW && 0 < d.IH && 0 < d.IW
  }

  type Weights = (int, int, int, int) -> int
  type Features = (int, int, int) -> int

  /** The input row and column one tap of output (y, x) reads. */
  function TapRow(d: Shape, y: int, kh: int): int { y * d.strideY + kh * d.dilY - d.padTop }

  function TapCol(d: Shape, x: int, kw: int): int { x * d.strideX + kw * d.dilX - d.padLeft }

  /** An out-of-range input reads zero, which is what padding means. */
  predicate InImage(d: Shape, y: int, x: int, kh: int, kw: int) {
    0 <= TapRow(d, y, kh) < d.IH && 0 <= TapCol(d, x, kw) < d.IW
  }

  function RowTerm(d: Shape, w: Weights, v: Features, oc: int, y: int, x: int): Term {
    (ic: int, kh: int, kw: int) =>
      if InImage(d, y, x, kh, kw)
      then w(oc, ic + 1, kh + 1, kw + 1) * v(ic + 1, TapRow(d, y, kh) + 1, TapCol(d, x, kw) + 1)
      else 0
  }

  /** The sum over every input channel and tap of the tensors themselves. */
  function Convolved(d: Shape, w: Weights, v: Features, oc: int, y: int, x: int): int {
    RowNest(RowTerm(d, w, v, oc, y, x), 0, d.IC, d.KH, d.KW)
  }

  /** A weight cube: every weight at its place, zero wherever the last input group is padding. */
  ghost predicate HoldsWeights(d: Shape, G: nat, w: Weights, wc: int -> int)
    requires 0 < G
  {
    forall c: Coord :: InCube(d.IC, d.KH, d.KW, c) && c.oc <= d.OC
      ==> wc(IndexOf(G, d.IC, d.KH, d.KW, c)) == if c.ic <= d.IC then w(c.oc, c.ic, c.kh, c.kw) else 0
  }

  /** A feature cube: every element at its place; its padding channels may hold anything. */
  ghost predicate HoldsFeatures(d: Shape, C2: nat, v: Features, fc: int -> int)
    requires 0 < C2
  {
    forall c: int, h: int, w: int :: F.InPlane(d.IH, d.IW, c, h, w) && c <= d.IC
      ==> fc(F.FeatureData(d.IH, d.IW, C2, c, h, w)) == v(c, h, w)
  }

  function PackWeights(d: Shape, G: nat, w: Weights): int -> int
    requires ShapeOk(d) && 0 < G
  {
    (pos: int) =>
      var c := CoordAt(G, d.IC, d.KH, d.KW, pos);
      if c.ic <= d.IC && c.oc <= d.OC then w(c.oc, c.ic, c.kh, c.kw) else 0
  }

  function PackFeatures(d: Shape, C2: nat, v: Features): int -> int
    requires ShapeOk(d) && 0 < C2
  {
    (pos: int) => var (c, h, w) := F.ElementAt(d.IH, d.IW, C2, pos); v(c, h, w)
  }

  /** Every tensor has its cubes: packing never asks one place for two values. */
  lemma CubesExist(d: Shape, G: nat, C2: nat, w: Weights, v: Features)
    requires ShapeOk(d) && 0 < G && 0 < C2
    ensures HoldsWeights(d, G, w, PackWeights(d, G, w)) && HoldsFeatures(d, C2, v, PackFeatures(d, C2, v))
  {
    forall c: Coord | InCube(d.IC, d.KH, d.KW, c) && c.oc <= d.OC
      ensures PackWeights(d, G, w)(IndexOf(G, d.IC, d.KH, d.KW, c))
              == if c.ic <= d.IC then w(c.oc, c.ic, c.kh, c.kw) else 0
    {
      CoordOfIndex(G, d.IC, d.KH, d.KW, c);
    }
    forall c: int, h: int, k: int | F.InPlane(d.IH, d.IW, c, h, k) && c <= d.IC
      ensures PackFeatures(d, C2, v)(F.FeatureData(d.IH, d.IW, C2, c, h, k)) == v(c, h, k)
    {
      F.ElementOfIndex(d.IH, d.IW, C2, c, h, k);
    }
  }

  function CubeTerm(d: Shape, G: nat, C2: nat, wc: int -> int, fc: int -> int,
                    oc: int, y: int, x: int): Term
    requires 0 < G && 0 < C2
  {
    (ic: int, kh: int, kw: int) =>
      if InImage(d, y, x, kh, kw)
      then wc(WeightConv(G, d.IC, d.KH, d.KW, oc, ic + 1, kh + 1, kw + 1)) *
           fc(F.FeatureData(d.IH, d.IW, C2, ic + 1, TapRow(d, y, kh) + 1, TapCol(d, x, kw) + 1))
      else 0
  }

  lemma TermsAgree(d: Shape, G: nat, C2: nat, w: Weights, v: Features, wc: int -> int, fc: int -> int,
                   oc: int, y: int, x: int, ic: int, kh: int, kw: int)
    requires 0 < G && 0 < C2 && 1 <= oc <= d.OC
    requires HoldsWeights(d, G, w, wc) && HoldsFeatures(d, C2, v, fc)
    requires 0 <= ic < Groups(d.IC) * K_GROUP && 0 <= kh < d.KH && 0 <= kw < d.KW
    ensures CubeTerm(d, G, C2, wc, fc, oc, y, x)(ic, kh, kw)
            == if ic < d.IC then RowTerm(d, w, v, oc, y, x)(ic, kh, kw) else 0
  {
    var c := Coord(oc, ic + 1, kh + 1, kw + 1);
    var a := wc(IndexOf(G, d.IC, d.KH, d.KW, c));
    assert a == if ic < d.IC then w(oc, ic + 1, kh + 1, kw + 1) else 0;
    if InImage(d, y, x, kh, kw) {
      var h, l := TapRow(d, y, kh) + 1, TapCol(d, x, kw) + 1;
      var b := fc(F.FeatureData(d.IH, d.IW, C2, ic + 1, h, l));
      assert CubeTerm(d, G, C2, wc, fc, oc, y, x)(ic, kh, kw) == a * b;
      if ic < d.IC {
        assert F.InPlane(d.IH, d.IW, ic + 1, h, l) && b == v(ic + 1, h, l);
      }
    }
  }

  /** For every shape, stride, dilation and pad, at every output element: contracting the two
      cubes in the engine's nest gives the convolution. */
  lemma ThroughCubes(d: Shape, G: nat, C2: nat, w: Weights, v: Features, wc: int -> int, fc: int -> int,
                     oc: int, y: int, x: int)
    requires 0 < G && 0 < C2 && 1 <= oc <= d.OC
    requires HoldsWeights(d, G, w, wc) && HoldsFeatures(d, C2, v, fc)
    ensures CubeNest(CubeTerm(d, G, C2, wc, fc, oc, y, x), Groups(d.IC), d.KH, d.KW)
            == Convolved(d, w, v, oc, y, x)
  {
    var g, h := CubeTerm(d, G, C2, wc, fc, oc, y, x), RowTerm(d, w, v, oc, y, x);
    forall ic, kh, kw | 0 <= ic < Groups(d.IC) * K_GROUP && 0 <= kh < d.KH && 0 <= kw < d.KW
      ensures g(ic, kh, kw) == if ic < d.IC then h(ic, kh, kw) else 0
    {
      TermsAgree(d, G, C2, w, v, wc, fc, oc, y, x, ic, kh, kw);
    }
    NestsAgree(g, h, d.IC, d.KH, d.KW);
  }

  // ---- what padding and striding mean ----------------------------------------------------

  /** The tensor with its pad written out as zeros, `bottom` rows and `right` columns more at its
      far sides. */
  function Bordered(d: Shape, v: Features): Features {
    (c: int, h: int, w: int) =>
      if d.padTop < h <= d.padTop + d.IH && d.padLeft < w <= d.padLeft + d.IW
      then v(c, h - d.padTop, w - d.padLeft) else 0
  }

  function Unpadded(d: Shape, bottom: nat, right: nat): Shape
    requires 0 <= d.padTop && 0 <= d.padLeft
  {
    d.(IH := d.padTop + d.IH + bottom, IW := d.padLeft + d.IW + right, padTop := 0, padLeft := 0)
  }

  /** A padded convolution is the unpadded one of the bordered tensor, wherever the borders hold
      every tap. */
  lemma PaddingIsBorder(d: Shape, w: Weights, v: Features, oc: int, y: int, x: int, bottom: nat, right: nat)
    requires 0 <= d.padTop && 0 <= d.padLeft
    requires forall kh, kw :: 0 <= kh < d.KH && 0 <= kw < d.KW ==>
      InImage(Unpadded(d, bottom, right), y, x, kh, kw)
    ensures Convolved(d, w, v, oc, y, x)
            == Convolved(Unpadded(d, bottom, right), w, Bordered(d, v), oc, y, x)
  {
    var u := Unpadded(d, bottom, right);
    var g, h := RowTerm(d, w, v, oc, y, x), RowTerm(u, w, Bordered(d, v), oc, y, x);
    forall ic, kh, kw | 0 <= ic < d.IC && 0 <= kh < d.KH && 0 <= kw < d.KW
      ensures g(ic, kh, kw) == h(ic, kh, kw)
    {
      assert InImage(u, y, x, kh, kw);
      assert TapRow(u, y, kh) == TapRow(d, y, kh) + d.padTop;
      assert TapCol(u, x, kw) == TapCol(d, x, kw) + d.padLeft;
      assert InImage(d, y, x, kh, kw) || Bordered(d, v)(ic + 1, TapRow(u, y, kh) + 1, TapCol(u, x, kw) + 1) == 0;
    }
    SameNest(g, h, 0, d.IC, d.KH, d.KW);
  }

  /** A strided convolution keeps one output in every stride of the one that steps by one. */
  lemma StrideSkips(d: Shape, w: Weights, v: Features, oc: int, y: int, x: int)
    ensures Convolved(d, w, v, oc, y, x)
            == Convolved(d.(strideY := 1, strideX := 1), w, v, oc, y * d.strideY, x * d.strideX)
  {
    var u, row, col := d.(strideY := 1, strideX := 1), y * d.strideY, x * d.strideX;
    var g, h := RowTerm(d, w, v, oc, y, x), RowTerm(u, w, v, oc, row, col);
    forall ic, kh, kw | 0 <= ic < d.IC && 0 <= kh < d.KH && 0 <= kw < d.KW
      ensures g(ic, kh, kw) == h(ic, kh, kw)
    {
      assert TapRow(u, row, kh) == TapRow(d, y, kh) && TapCol(u, col, kw) == TapCol(d, x, kw);
      assert InImage(u, row, col, kh, kw) == InImage(d, y, x, kh, kw);
    }
    SameNest(g, h, 0, d.IC, d.KH, d.KW);
  }

  // ---- dilation --------------------------------------------------------------------------

  /** A term met at every d-th place and zero between them, along columns and along rows. */
  function SpreadCols(g: Term, d: nat): Term
    requires 0 < d
  {
    (ic: int, kh: int, kw: int) => if kw % d == 0 then g(ic, kh, kw / d) else 0
  }

  function SpreadRows(g: Term, d: nat): Term
    requires 0 < d
  {
    (ic: int, kh: int, kw: int) => if kh % d == 0 then g(ic, kh / d, kw) else 0
  }

  /** Columns past the n-th term and short of the next add nothing. */
  lemma {:induction false} ColsBetween(g: Term, d: nat, ic: int, kh: int, n: nat, m: nat)
    requires 0 < d && 0 < n && m < d
    ensures OverCols(SpreadCols(g, d), ic, kh, (n - 1) * d + 1 + m)
            == OverCols(SpreadCols(g, d), ic, kh, (n - 1) * d + 1)
  {
    if m > 0 {
      ColsBetween(g, d, ic, kh, n, m - 1);
      Arith.Digits(n - 1, m, d);
    }
  }

  lemma {:induction false} ColsSpread(g: Term, d: nat, ic: int, kh: int, n: nat)
    requires 0 < d && 0 < n
    ensures OverCols(SpreadCols(g, d), ic, kh, (n - 1) * d + 1) == OverCols(g, ic, kh, n)
  {
    Arith.Digits(n - 1, 0, d);
    if n > 1 {
      ColsSpread(g, d, ic, kh, n - 1);
      ColsBetween(g, d, ic, kh, n - 1, d - 1);
      assert (n - 2) * d + 1 + (d - 1) == (n - 1) * d;
    } else {
      assert OverCols(SpreadCols(g, d), ic, kh, 0) == 0 == OverCols(g, ic, kh, 0);
    }
  }

  lemma {:induction false} ColsOfEvery(g: Term, d: nat, ic: int, KH: nat, n: nat)
    requires 0 < d && 0 < n
    ensures OverRows(SpreadCols(g, d), ic, KH, (n - 1) * d + 1) == OverRows(g, ic, KH, n)
  {
    if KH > 0 {
      ColsOfEvery(g, d, ic, KH - 1, n);
      ColsSpread(g, d, ic, KH - 1, n);
    }
  }

  /** A row met is the term's own, and one between two of them is empty. */
  lemma RowMet(g: Term, d: nat, ic: int, kh: nat, KW: nat)
    requires 0 < d
    ensures OverCols(SpreadRows(g, d), ic, kh, KW) == if kh % d == 0 then OverCols(g, ic, kh / d, KW) else 0
  {
    if kh % d == 0 {
      RowMoved(g, d, ic, kh, KW);
    } else {
      SameCols(SpreadRows(g, d), (ic, kh, kw) => 0, ic, kh, KW);
      ZeroCols(ic, kh, KW);
    }
  }

  lemma {:induction false} RowMoved(g: Term, d: nat, ic: int, kh: nat, KW: nat)
    requires 0 < d && kh % d == 0
    ensures OverCols(SpreadRows(g, d), ic, kh, KW) == OverCols(g, ic, kh / d, KW)
  {
    if KW > 0 { RowMoved(g, d, ic, kh, KW - 1); }
  }

  lemma {:induction false} RowsBetween(g: Term, d: nat, ic: int, n: nat, m: nat, KW: nat)
    requires 0 < d && 0 < n && m < d
    ensures OverRows(SpreadRows(g, d), ic, (n - 1) * d + 1 + m, KW)
            == OverRows(SpreadRows(g, d), ic, (n - 1) * d + 1, KW)
  {
    if m > 0 {
      RowsBetween(g, d, ic, n, m - 1, KW);
      Arith.Digits(n - 1, m, d);
      RowMet(g, d, ic, (n - 1) * d + m, KW);
    }
  }

  lemma {:induction false} RowsSpread(g: Term, d: nat, ic: int, n: nat, KW: nat)
    requires 0 < d && 0 < n
    ensures OverRows(SpreadRows(g, d), ic, (n - 1) * d + 1, KW) == OverRows(g, ic, n, KW)
  {
    NextRow(g, d, ic, n, KW);
    if n > 1 {
      RowsSpread(g, d, ic, n - 1, KW);
      RowsBetween(g, d, ic, n - 1, d - 1, KW);
      Steps(n, d);
    } else {
      assert OverRows(SpreadRows(g, d), ic, 0, KW) == 0 == OverRows(g, ic, 0, KW);
    }
  }

  lemma Steps(n: nat, d: nat)
    requires 1 < n && 0 < d
    ensures (n - 2) * d + 1 + (d - 1) == (n - 1) * d
  {
  }

  lemma NextRow(g: Term, d: nat, ic: int, n: nat, KW: nat)
    requires 0 < d && 0 < n
    ensures 0 <= (n - 1) * d
    ensures OverRows(SpreadRows(g, d), ic, (n - 1) * d + 1, KW)
            == OverRows(SpreadRows(g, d), ic, (n - 1) * d, KW) + OverCols(g, ic, n - 1, KW)
  {
    var m := (n - 1) * d;
    Arith.MulMono(0, n - 1, d);
    Arith.Digits(n - 1, 0, d);
    RowMet(g, d, ic, m, KW);
  }

  lemma {:induction false} NestSpread(g: Term, dY: nat, dX: nat, a: int, b: int, KH: nat, KW: nat)
    requires 0 < dY && 0 < dX && 0 < KH && 0 < KW
    ensures RowNest(SpreadRows(SpreadCols(g, dX), dY), a, b, (KH - 1) * dY + 1, (KW - 1) * dX + 1)
            == RowNest(g, a, b, KH, KW)
    decreases b - a
  {
    if a < b {
      NestSpread(g, dY, dX, a, b - 1, KH, KW);
      RowsSpread(SpreadCols(g, dX), dY, b - 1, KH, (KW - 1) * dX + 1);
      ColsOfEvery(g, dX, b - 1, KH, KW);
    }
  }

  /** The kernel with its taps a dilation apart and zeros between them. */
  function Spread(w: Weights, dY: nat, dX: nat): Weights
    requires 0 < dY && 0 < dX
  {
    (oc: int, ic: int, kh: int, kw: int) =>
      if (kh - 1) % dY == 0 && (kw - 1) % dX == 0
      then w(oc, ic, (kh - 1) / dY + 1, (kw - 1) / dX + 1) else 0
  }

  function Undilated(d: Shape): Shape
    requires ShapeOk(d) && 0 < d.dilY && 0 < d.dilX
  {
    d.(KH := (d.KH - 1) * d.dilY + 1, KW := (d.KW - 1) * d.dilX + 1, dilY := 1, dilX := 1)
  }

  lemma TapMet(d: Shape, y: int, x: int, q: int, p: int)
    requires ShapeOk(d) && 0 < d.dilY && 0 < d.dilX
    ensures TapRow(Undilated(d), y, q * d.dilY) == TapRow(d, y, q)
    ensures TapCol(Undilated(d), x, p * d.dilX) == TapCol(d, x, p)
    ensures InImage(Undilated(d), y, x, q * d.dilY, p * d.dilX) == InImage(d, y, x, q, p)
  {
  }

  lemma SpreadTerm(d: Shape, w: Weights, v: Features, oc: int, y: int, x: int, ic: int, kh: nat, kw: nat)
    requires ShapeOk(d) && 0 < d.dilY && 0 < d.dilX
    ensures RowTerm(Undilated(d), Spread(w, d.dilY, d.dilX), v, oc, y, x)(ic, kh, kw)
            == SpreadRows(SpreadCols(RowTerm(d, w, v, oc, y, x), d.dilX), d.dilY)(ic, kh, kw)
  {
    var u, s, q, p := Undilated(d), Spread(w, d.dilY, d.dilX), kh / d.dilY, kw / d.dilX;
    Arith.Recompose(kh, d.dilY);
    Arith.Recompose(kw, d.dilX);
    if kh % d.dilY == 0 && kw % d.dilX == 0 {
      assert kh == q * d.dilY && kw == p * d.dilX;
      TapMet(d, y, x, q, p);
      assert s(oc, ic + 1, kh + 1, kw + 1) == w(oc, ic + 1, q + 1, p + 1);
    } else {
      assert s(oc, ic + 1, kh + 1, kw + 1) == 0;
      assert RowTerm(u, s, v, oc, y, x)(ic, kh, kw) == 0;
    }
  }

  /** A dilated convolution is the undilated one of the spread kernel. */
  lemma DilationSpreads(d: Shape, w: Weights, v: Features, oc: int, y: int, x: int)
    requires ShapeOk(d) && 0 < d.dilY && 0 < d.dilX
    ensures Convolved(d, w, v, oc, y, x)
            == Convolved(Undilated(d), Spread(w, d.dilY, d.dilX), v, oc, y, x)
  {
    var g := RowTerm(d, w, v, oc, y, x);
    var s, h := SpreadRows(SpreadCols(g, d.dilX), d.dilY), RowTerm(Undilated(d), Spread(w, d.dilY, d.dilX), v, oc, y, x);
    var KH, KW := (d.KH - 1) * d.dilY + 1, (d.KW - 1) * d.dilX + 1;
    forall ic, kh, kw | 0 <= ic < d.IC && 0 <= kh < KH && 0 <= kw < KW ensures s(ic, kh, kw) == h(ic, kh, kw) {
      SpreadTerm(d, w, v, oc, y, x, ic, kh, kw);
    }
    NestSpread(g, d.dilY, d.dilX, 0, d.IC, d.KH, d.KW);
    SameNest(s, h, 0, d.IC, KH, KW);
  }
}
