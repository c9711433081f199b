/** Where a feature element lies in the packed cube, and that the walk the convolution engine
    makes over surfaces, rows and columns meets exactly those places. */
module FeatureCube {
  import opened Arith

  /** Element (c, h, w) of a cube of H rows and W columns whose channel groups are of C2.
      Channels, rows and columns count from one. */
  function FeatureData(H: nat, W: nat, C2: nat, c: int, h: int, w: int): int
    requires 0 < C2
  {
    var plane := (c - 1) / C2;
    plane * H * W * C2 + C2 * ((h - 1) * W + (w - 1)) + (c - 1) % C2
  }

  predicate InPlane(H: nat, W: nat, c: int, h: int, w: int) {
    1 <= c && 1 <= h <= H && 1 <= w <= W
  }

  /** The element a position holds. */
  function ElementAt(H: nat, W: nat, C2: nat, pos: int): (int, int, int)
    requires 0 < C2 && 0 < H && 0 < W
  {
    var off, p := pos % C2, pos / C2;
    var q := p / W;
    (q / H * C2 + off + 1, q % H + 1, p % W + 1)
  }

  /** The same position as a mixed-radix number. */
  function Packed(H: nat, W: nat, C2: nat, c: int, h: int, w: int): int
    requires 0 < C2
  {
    (((c - 1) / C2 * H + (h - 1)) * W + (w - 1)) * C2 + (c - 1) % C2
  }

  lemma AsAtoms(H: nat, W: nat, C2: nat, c: int, h: int, w: int)
    requires 0 < C2
    ensures FeatureData(H, W, C2, c, h, w) == Packed(H, W, C2, c, h, w)
  {
    var plane := (c - 1) / C2;
    assert plane * H * W * C2 == (plane * H) * W * C2;
    assert (plane * H + (h - 1)) * W == plane * H * W + (h - 1) * W;
  }

  lemma ElementOfPacked(H: nat, W: nat, C2: nat, c: int, h: int, w: int)
    requires 0 < C2 && InPlane(H, W, c, h, w)
    ensures ElementAt(H, W, C2, Packed(H, W, C2, c, h, w)) == (c, h, w)
  {
    var plane, off := (c - 1) / C2, (c - 1) % C2;
    var q := plane * H + (h - 1);
    var p := q * W + (w - 1);
    Digits(p, off, C2);
    Digits(q, w - 1, W);
    Digits(plane, h - 1, H);
    Recompose(c - 1, C2);
  }

  /** Reading an element's position back gives that element: no two share a position. */
  lemma ElementOfIndex(H: nat, W: nat, C2: nat, c: int, h: int, w: int)
    requires 0 < C2 && InPlane(H, W, c, h, w)
    ensures ElementAt(H, W, C2, FeatureData(H, W, C2, c, h, w)) == (c, h, w)
  {
    AsAtoms(H, W, C2, c, h, w);
    ElementOfPacked(H, W, C2, c, h, w);
  }

  lemma IndexOfElement(H: nat, W: nat, C2: nat, planes: nat, pos: nat)
    requires 0 < C2 && 0 < H && 0 < W && pos < planes * H * W * C2
    ensures var (c, h, w) := ElementAt(H, W, C2, pos);
      InPlane(H, W, c, h, w) && c <= planes * C2 && FeatureData(H, W, C2, c, h, w) == pos
  {
    var p := pos / C2;
    var q := p / W;
    var (c, h, w) := ElementAt(H, W, C2, pos);
    DivBelow(pos, planes * H * W, C2);
    DivBelow(p, planes * H, W);
    DivBelow(q, planes, H);
    Recompose(pos, C2);
    Recompose(p, W);
    Recompose(q, H);
    Digits(q / H, pos % C2, C2);
    RowsApart(q / H, planes, C2);
    AsAtoms(H, W, C2, c, h, w);
  }

  /** How far apart neighbours lie: a group's channels side by side, then columns, rows, and the
      groups themselves a plane apart. */
  lemma NeighboursAre(H: nat, W: nat, C2: nat, c: int, h: int, w: int)
    requires 0 < C2 && 1 <= c
    ensures c % C2 != 0 ==> FeatureData(H, W, C2, c + 1, h, w) - FeatureData(H, W, C2, c, h, w) == 1
    ensures FeatureData(H, W, C2, c, h, w + 1) - FeatureData(H, W, C2, c, h, w) == C2
    ensures FeatureData(H, W, C2, c, h + 1, w) - FeatureData(H, W, C2, c, h, w) == C2 * W
    ensures FeatureData(H, W, C2, c + C2, h, w) - FeatureData(H, W, C2, c, h, w) == H * W * C2
    ensures FeatureData(H, W, C2, 1, 1, 1) == 0
  {
    var q, r := (c - 1) / C2, (c - 1) % C2;
    Recompose(c - 1, C2);
    if c % C2 != 0 { SameGroup(q, r, C2, c); }
    assert (q + 1) * C2 == q * C2 + C2;
    Digits(q + 1, r, C2);
    assert (q + 1) * H * W * C2 == q * H * W * C2 + H * W * C2 by { OneMore(q, H * W * C2, H, W, C2); }
    assert ((h - 1) + 1) * W == (h - 1) * W + W;
    RowStep(C2, (h - 1) * W, W, w);
  }

  lemma SameGroup(q: int, r: int, C2: nat, c: int)
    requires 0 <= r < C2 && c - 1 == q * C2 + r && c % C2 != 0
    ensures c / C2 == q && c % C2 == r + 1
  {
    if r + 1 == C2 { assert c == (q + 1) * C2 + 0; Digits(q + 1, 0, C2); } else { Digits(q, r + 1, C2); }
  }

  lemma OneMore(q: int, plane: int, H: nat, W: nat, C2: nat)
    requires plane == H * W * C2
    ensures q * H * W * C2 == q * plane && (q + 1) * H * W * C2 == q * plane + plane
  {
    assert q * H * W * C2 == q * (H * W) * C2 == q * (H * W * C2);
    assert (q + 1) * H * W * C2 == (q + 1) * (H * W) * C2 == (q + 1) * (H * W * C2);
  }

  lemma RowStep(C2: nat, row: int, W: nat, w: int)
    ensures C2 * (row + W + (w - 1)) == C2 * (row + (w - 1)) + C2 * W
    ensures C2 * (row + w) == C2 * (row + (w - 1)) + C2
  {
  }

  // ---- the strides ---------------------------------------------------------------------

  /** Division as C does it: toward zero. */
  function TruncDiv(a: int, b: int): int
    requires b != 0
  {
    if (a >= 0) == (b > 0) then (if a >= 0 then a else -a) / (if b > 0 then b else -b)
    else -((if a >= 0 then a else -a) / (if b > 0 then b else -b))
  }

  /** A line is four rows of atoms; from the end of one surface's line the next surface is
      this much further on. */
  function SurfStride(line: int, H: int): int {
    TruncDiv(line * (H - 4), 4)
  }

  function LineStride(W: nat): int { W * 4 }

  const FIELD: int := 0x1000_0000

  /** What the engine makes of a stride written through a 28-bit field: two's complement. */
  function ThroughField(s: int): int {
    var v := s % FIELD;
    if v >= FIELD / 2 then v - FIELD else v
  }

  lemma StrideIs(W: nat, H: nat)
    ensures SurfStride(LineStride(W), H) == W * (H - 4)
  {
    assert LineStride(W) * (H - 4) == 4 * (W * (H - 4));
    assert TruncDiv(4 * (W * (H - 4)), 4) == W * (H - 4);
  }

  /** The step from one surface to the next is exactly the plane, at every height. */
  lemma StepIsPlane(W: nat, H: nat)
    ensures LineStride(W) + SurfStride(LineStride(W), H) == W * H
  {
    StrideIs(W, H);
    assert W * (H - 4) == W * H - W * 4;
  }

  /** The strides a 28-bit field holds. */
  predicate Holds(s: int) {
    -FIELD / 2 <= s < FIELD / 2
  }

  /** A stride comes back from the field as it went in exactly when the field holds it; below
      four rows it is negative. */
  lemma StrideSurvives(W: nat, H: nat)
    ensures ThroughField(SurfStride(LineStride(W), H)) == SurfStride(LineStride(W), H)
            <==> Holds(W * (H - 4))
    ensures 1 <= W ==> (SurfStride(LineStride(W), H) < 0 <==> H < 4)
  {
    StrideIs(W, H);
    if H >= 4 {
      MulMono(0, W, H - 4);
    } else {
      MulMono(0, W, 4 - H);
      assert W * (H - 4) == -(W * (4 - H));
      if 1 <= W { MulMono(1, W, 4 - H); }
    }
  }

  /** It holds that of every extent the geometry fields admit. */
  lemma ExtentsHold(W: nat, H: nat)
    requires W <= 0x7FF && H <= 0x7FF
    ensures Holds(W * (H - 4))
  {
    if H >= 4 {
      MulMono(W, 0x7FF, H - 4);
      MulMono(0, W, H - 4);
    } else {
      MulMono(W, 0x7FF, 4 - H);
      MulMono(0, W, 4 - H);
      assert W * (H - 4) == -(W * (4 - H));
    }
  }

  /** The atom the engine's walk meets at channel group `plane`, row and column. */
  function WalkAtom(W: nat, H: nat, plane: nat, row: nat, col: nat): int {
    plane * (LineStride(W) + ThroughField(SurfStride(LineStride(W), H))) + row * W + col
  }

  lemma WalkIs(W: nat, H: nat, plane: nat, row: nat, col: nat)
    requires Holds(W * (H - 4))
    ensures WalkAtom(W, H, plane, row, col) == (plane * H + row) * W + col
  {
    StrideSurvives(W, H);
    StepIsPlane(W, H);
    assert plane * (W * H) == plane * H * W;
    assert (plane * H + row) * W == plane * H * W + row * W;
  }

  /** The walk meets every element where it was packed, of every plane whose stride the field
      holds. */
  lemma WalkMeetsElements(H: nat, W: nat, C2: nat, c: int, h: int, w: int)
    requires 0 < C2 && Holds(W * (H - 4)) && InPlane(H, W, c, h, w)
    ensures WalkAtom(W, H, (c - 1) / C2, h - 1, w - 1) * C2 + (c - 1) % C2
            == FeatureData(H, W, C2, c, h, w)
  {
    AsAtoms(H, W, C2, c, h, w);
    WalkIs(W, H, (c - 1) / C2, h - 1, w - 1);
  }

  /** The form that truncated the row count first, clamped at zero. */
  function TruncatingStride(line: int, H: nat): int {
    var s := line * (H / 4 - 1);
    if s < 0 then 0 else s
  }

  /** It was right at whole lines of four rows and at no other height. */
  lemma TruncatingRightOnlyAtFours(W: nat, H: nat)
    requires 1 <= W && 1 <= H
    ensures TruncatingStride(LineStride(W), H) == SurfStride(LineStride(W), H) <==> H % 4 == 0
  {
    StrideIs(W, H);
    var q := H / 4;
    assert LineStride(W) * (q - 1) == W * (4 * q - 4);
    var d := H - 4 * q;
    assert W * (H - 4) - W * (4 * q - 4) == W * d;
    if q == 0 {
      assert W * (4 * q - 4) == -4 * W && W * (H - 4) == -(W * (4 - H));
      MulMono(1, W, 4 - H);
    } else {
      MulMono(0, q - 1, 4 * W);
      if d > 0 { MulMono(1, W, d); }
    }
  }
}
