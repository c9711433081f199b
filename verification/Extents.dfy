/** Convolution extents: what a descriptor implies, and the pad its last window consumes. */
module Extents {
  import opened Arith
  import opened FeatureCube

  /** One axis of a convolution. `explicit` overrides the derived extent; a dilation of zero
      is read as one by the trailing pad and as zero by the extent, as the code reads them. */
  datatype Axis = Axis(input: int, k: int, stride: int, pad: int, dil: int, explicit: int)

  function OutDim(input: int, k: int, stride: int, pad: int, dil: int): int
    requires stride != 0
  {
    TruncDiv(input + 2 * pad - (dil * (k - 1) + 1), stride) + 1
  }

  function Extent(d: Axis): int
    requires d.stride != 0
  {
    if d.explicit != 0 then d.explicit else OutDim(d.input, d.k, d.stride, d.pad, d.dil)
  }

  /** The dilation the trailing pad reads. */
  function Rate(d: Axis): int {
    if d.dil != 0 then d.dil else 1
  }

  function Trail(d: Axis): int
    requires d.stride != 0
  {
    var reach := (Extent(d) - 1) * d.stride + Rate(d) * (d.k - 1) + 1;
    var have := d.pad + d.input;
    if reach > have then reach - have else 0
  }

  /** One axis of a transposed convolution. */
  function TransposedDim(input: int, k: int, stride: int, pad: int, dil: int, opad: int): int {
    (input - 1) * stride - 2 * pad + dil * (k - 1) + opad + 1
  }

  lemma TruncBounds(a: int, b: int)
    requires 0 < b
    ensures 0 <= a ==> TruncDiv(a, b) * b <= a < TruncDiv(a, b) * b + b
    ensures a <= 0 ==> a <= TruncDiv(a, b) * b < a + b
  {
    if a < 0 { Recompose(-a, b); assert TruncDiv(a, b) * b == -(-a / b * b); } else { Recompose(a, b); }
  }

  lemma TruncExact(a: int, b: int)
    requires 0 < b
    ensures TruncDiv(a, b) * b == a <==> a % b == 0
  {
    if 0 <= a { Recompose(a, b); } else { TruncNegative(-a / b, -a % b, a, b); }
  }

  /** A negative number taken apart by its magnitude's digits. */
  lemma TruncNegative(m: int, r: int, a: int, b: int)
    requires 0 < b && a < 0 && m == -a / b && r == -a % b
    ensures TruncDiv(a, b) * b - a == r && (a % b == 0 <==> r == 0)
  {
    Recompose(-a, b);
    assert (-m) * b == -(m * b) && (-m - 1) * b == -(m * b) - b;
    if r == 0 { Digits(-m, 0, b); } else { Digits(-m - 1, b - r, b); }
  }

  lemma TruncIs(q: int, r: int, b: int)
    requires 0 < b && 0 <= q && 0 <= r < b
    ensures TruncDiv(q * b + r, b) == q
  {
    MulMono(0, q, b);
    Digits(q, r, b);
  }

  /** Output padding below the stride is exactly what the forward extent forgets: the forward
      extent of a transposed extent is the input extent, and no other padding does that. */
  lemma ForwardUndoesTransposed(input: int, k: int, stride: int, pad: int, dil: int, opad: int)
    requires 0 < stride && 1 <= input && 0 <= opad
    ensures OutDim(TransposedDim(input, k, stride, pad, dil, opad), k, stride, pad, dil) == input
            <==> opad < stride
  {
    var num := (input - 1) * stride + opad;
    assert TransposedDim(input, k, stride, pad, dil, opad) + 2 * pad - (dil * (k - 1) + 1) == num;
    if opad < stride {
      TruncIs(input - 1, opad, stride);
    } else {
      MulMono(0, input - 1, stride);
      TruncBounds(num, stride);
      if TruncDiv(num, stride) <= input - 1 { MulMono(TruncDiv(num, stride), input - 1, stride); }
    }
  }

  /** What the extent's division drops or, when the window outgrows the padded plane, adds. */
  function Numerator(d: Axis): int {
    d.input + 2 * d.pad - (d.dil * (d.k - 1) + 1)
  }

  /** How far the window the trailing pad reads reaches past the one the extent was derived with:
      at a dilation of zero the extent's has one tap's width. */
  function Gap(d: Axis): int {
    (Rate(d) - d.dil) * (d.k - 1)
  }

  /** What is left past the plane, before it is cut at zero. */
  lemma ReachIs(d: Axis)
    requires 0 < d.stride && d.explicit == 0 && 0 <= d.dil && 1 <= d.k
    ensures var over := d.pad + Gap(d) + (TruncDiv(Numerator(d), d.stride) * d.stride - Numerator(d));
      Trail(d) == if over > 0 then over else 0
    ensures 0 <= Gap(d) && (0 < d.dil ==> Gap(d) == 0)
  {
    var q := TruncDiv(Numerator(d), d.stride);
    assert Extent(d) - 1 == q;
    assert Rate(d) * (d.k - 1) == d.dil * (d.k - 1) + Gap(d);
    if d.dil == 0 { assert Gap(d) == d.k - 1; } else { assert Gap(d) == 0 * (d.k - 1); }
  }

  /** What the division leaves: it drops the remainder of a plane the window fits, and adds that
      of one it outgrows. */
  lemma Dropped(n: int, stride: int)
    requires 0 < stride
    ensures 0 <= n ==> TruncDiv(n, stride) * stride - n == -(n % stride)
    ensures n < 0 ==> TruncDiv(n, stride) * stride - n == -n % stride && (-n % stride == 0 <==> n % stride == 0)
  {
    if 0 <= n { Recompose(n, stride); } else { TruncNegative(-n / stride, -n % stride, n, stride); }
  }

  /** For a derived extent the trailing pad is at most the leading one exactly when what the
      division drops covers the gap between the two readings of the dilation or, of a window that
      outgrows the padded plane, when it does so by whole strides. */
  lemma TrailWithinPad(d: Axis)
    requires 0 < d.stride && 0 <= d.pad && 0 <= d.dil && 1 <= d.k && 1 <= d.input && d.explicit == 0
    ensures 0 <= Trail(d)
    ensures Trail(d) <= d.pad <==>
      if 0 <= Numerator(d) then Gap(d) <= Numerator(d) % d.stride else Numerator(d) % d.stride == 0
  {
    ReachIs(d);
    Dropped(Numerator(d), d.stride);
  }

  /** A derived extent leaves no trailing pad, as a symmetric descriptor is said to, exactly when
      what its division drops covers the leading pad and that gap; a window that outgrows the
      padded plane has to have no leading pad and to miss it by whole strides. */
  lemma TrailIsZero(d: Axis)
    requires 0 < d.stride && 0 <= d.pad && 0 <= d.dil && 1 <= d.k && 1 <= d.input && d.explicit == 0
    ensures Trail(d) == 0 <==>
      if 0 <= Numerator(d) then d.pad + Gap(d) <= Numerator(d) % d.stride
      else d.pad == 0 && Numerator(d) % d.stride == 0
  {
    ReachIs(d);
    Dropped(Numerator(d), d.stride);
  }

  /** A 3-tap window at stride 1 over 8 with a pad of one is symmetric, and trails by one. */
  lemma SymmetricTrails()
    ensures var d := Axis(8, 3, 1, 1, 1, 0); d.explicit == 0 && Extent(d) == 8 && Trail(d) == 1
  {
  }

  /** One with no pad and a zeroed dilation trails by two: it has eight outputs, and the last
      window reaches two rows past the plane. */
  lemma ZeroDilationTrails()
    ensures var d := Axis(8, 3, 1, 0, 0, 0);
      Extent(d) == 8 && Trail(d) == 2 && d.pad == 0 <= Numerator(d) && d.pad <= Numerator(d) % d.stride
  {
  }

  /** Every tap of every output lies in [-pad, input + trail). */
  lemma TapsInside(d: Axis, o: int, t: int)
    requires 0 < d.stride && 0 <= d.pad && 0 <= d.dil && 1 <= d.k && 1 <= d.input
    requires 0 <= o < Extent(d) && 0 <= t < d.k
    ensures -d.pad <= o * d.stride + t * Rate(d) - d.pad < d.input + Trail(d)
  {
    MulMono(0, o, d.stride);
    MulMono(o, Extent(d) - 1, d.stride);
    MulMono(0, t, Rate(d));
    MulMono(t, d.k - 1, Rate(d));
  }

  /** And the pad is no larger than it need be: when there is one, the last tap of the last
      output reads its last row. */
  lemma TrailIsReached(d: Axis)
    requires 0 < d.stride && 0 < Trail(d)
    ensures (Extent(d) - 1) * d.stride + (d.k - 1) * Rate(d) - d.pad == d.input + Trail(d) - 1
  {
  }

  /** A descriptor's own extent stands. */
  lemma ExplicitStands(d: Axis)
    requires d.stride != 0 && d.explicit != 0
    ensures Extent(d) == d.explicit
    ensures d.pad + d.input + Trail(d)
            == var reach := (d.explicit - 1) * d.stride + Rate(d) * (d.k - 1) + 1;
               if d.pad + d.input < reach then reach else d.pad + d.input
  {
  }

  /** A derived one counts the windows that fit: n do exactly when it is n or more. */
  lemma ExtentCountsWindows(d: Axis, n: int)
    requires 0 < d.stride && d.explicit == 0 && 1 <= n && 0 <= Numerator(d)
    ensures n <= Extent(d) <==> (n - 1) * d.stride + d.dil * (d.k - 1) + 1 <= d.input + 2 * d.pad
  {
    var q := TruncDiv(Numerator(d), d.stride);
    TruncBounds(Numerator(d), d.stride);
    if n - 1 <= q { MulMono(n - 1, q, d.stride); } else { RowsApart(q, n - 1, d.stride); }
  }

  /** A window that outgrows the padded plane by less than a stride is counted all the same. */
  lemma OutgrownCounts(d: Axis)
    requires 0 < d.stride && d.explicit == 0
    ensures -d.stride < Numerator(d) < 0 ==> Extent(d) == 1
  {
    var n := -Numerator(d);
    if 0 < n < d.stride { Digits(0, n, d.stride); }
  }
}
