/** The requantization pair: a binary32 scale (section 3.4 of IEEE 754-2019) as an integer
    multiplier and a shift, and what that costs an output. Scales and gains are compared as
    integers, in units of 2^-150. */
module Requant {
  import opened Arith

  /** Nine and ten doublings. */
  lemma Pow2Up(e: nat)
    ensures Pow2(e + 9) == 512 * Pow2(e) && Pow2(e + 10) == 1024 * Pow2(e)
  {
    Pow2Add(e, 9);
    assert Pow2(9) == 512;
    assert Pow2(e + 10) == 2 * Pow2(e + 9);
  }

  const WORD: nat := 0x1_0000_0000
  const UNIT: nat := 150

  // ---- the pair ------------------------------------------------------------------------

  /** The biased exponent and the fraction of a word's low 31 bits. */
  function Exponent(bits: nat): nat { bits / 0x80_0000 }

  function Fraction(bits: nat): nat { bits % 0x80_0000 }

  /** The multiplier before renormalization: the implicit bit and the top 14 fraction bits,
      one unit up. */
  function Mantissa(f: nat): nat { 0x4000 + f / 512 % 0x4000 + 1 }

  /** Rounding carried out of the 15 bits. */
  predicate Carries(f: nat) { f / 512 % 0x4000 == 0x3FFF }

  function Multiplier(e: nat, f: nat): nat {
    if !Carries(f) then Mantissa(f) else if e == 141 then 0x7FFF else 0x4000
  }

  /** 141 less the exponent, one less again after a carry, wrapping below zero. */
  function Shift(e: nat, f: nat): nat {
    (if Carries(f) && e != 141 then 140 - e else 141 - e) % WORD
  }

  /** Converts a scale's word to the pair, in place on two locals. */
  method OutCvtPair(bits: nat) returns (mul: nat, shift: nat)
    requires bits < WORD
    ensures mul == Multiplier(Exponent(bits), Fraction(bits))
    ensures shift == Shift(Exponent(bits), Fraction(bits))
  {
    var m := 0x4000 + bits / 512 % 0x4000 + 1;
    var s := (127 + 31 - 32 - bits / 0x80_0000 + 16 - 1) % WORD;
    assert bits / 512 % 0x4000 == Fraction(bits) / 512 % 0x4000 by { FractionTop(bits); }
    if m == 0x8000 {
      if s != 0 {
        m := 0x4000;
        s := s - 1;
      } else {
        m := 0x7FFF;
      }
    }
    mul, shift := m, s;
  }

  lemma FractionTop(bits: nat)
    ensures bits / 512 % 0x4000 == bits % 0x80_0000 / 512 % 0x4000
  {
    var q, r := bits / 0x80_0000, bits % 0x80_0000;
    assert bits == q * 0x80_0000 + r;
    assert bits / 512 == q * 0x4000 + r / 512;
  }

  // ---- the gain ------------------------------------------------------------------------

  /** A positive normal scale, in units of 2^-150. */
  function Scale(e: nat, f: nat): nat { (0x80_0000 + f) * Pow2(e) }

  /** MUL / 2^SHIFT, in units of 2^-150. */
  function Gain(mul: nat, shift: nat): nat
    requires shift <= UNIT
  {
    mul * Pow2(UNIT - shift)
  }

  predicate InRange(e: nat, f: nat) {
    1 <= e <= 141 && f < 0x80_0000
  }

  /** The one class of scale whose pair is not rounded up: a carry at a shift of zero. */
  predicate TopCarry(e: nat, f: nat) {
    e == 141 && Carries(f)
  }

  lemma ShiftInRange(e: nat, f: nat)
    requires InRange(e, f)
    ensures Shift(e, f) == if Carries(f) && e != 141 then 140 - e else 141 - e
  {
  }

  /** A scale of 2^15 or more wraps the shift far past any register field. */
  lemma LargeScaleWraps(e: nat, f: nat)
    requires 142 <= e <= 254
    ensures Shift(e, f) > 63
  {
  }

  /** The gain before the cap, renormalized or not. */
  lemma GainIsMantissa(e: nat, f: nat)
    requires InRange(e, f) && !TopCarry(e, f)
    ensures Shift(e, f) <= UNIT
    ensures Gain(Multiplier(e, f), Shift(e, f)) == Mantissa(f) * 512 * Pow2(e)
  {
    ShiftInRange(e, f);
    Pow2Up(e);
    if Carries(f) { Product(0x4000, 1024, Pow2(e)); } else { Product(Mantissa(f), 512, Pow2(e)); }
  }

  lemma Product(a: int, b: int, c: int)
    ensures a * (b * c) == a * b * c
  {
  }

  /** Renormalizing a carry keeps the gain exactly. */
  lemma RenormalizationIsExact(shift: nat)
    requires 1 <= shift <= UNIT
    ensures Gain(0x4000, shift - 1) == Gain(0x8000, shift)
  {
    var p := Pow2(UNIT - shift);
    assert Pow2(UNIT - (shift - 1)) == 2 * p;
  }

  /** The multiplier is 15 bits, so never read as negative, and its top bit is set. */
  lemma MultiplierRange(e: nat, f: nat)
    ensures 0x4000 <= Multiplier(e, f) <= 0x7FFF
    ensures Multiplier(e, f) == 0x4000 <==> Carries(f) && e != 141
  {
  }

  predicate BoundHolds(e: nat, f: nat, gain: nat) {
    Scale(e, f) <= gain && gain * 0x4000 <= Scale(e, f) * 0x4001
  }

  lemma MantissaBound(f: nat)
    requires f < 0x80_0000
    ensures 0x80_0000 + f <= Mantissa(f) * 512
    ensures Mantissa(f) * 512 * 0x4000 <= (0x80_0000 + f) * 0x4001
  {
  }

  lemma CarryFraction(f: nat)
    requires f < 0x80_0000 && Carries(f)
    ensures f == 0x7F_FE00 + f % 512
  {
    assert f / 512 < 0x4000;
  }

  lemma TopGain(e: nat, f: nat)
    requires InRange(e, f) && TopCarry(e, f)
    ensures Shift(e, f) == 0 && Multiplier(e, f) == 0x7FFF
    ensures Gain(0x7FFF, 0) == 0x7FFF * 512 * Pow2(e)
  {
    Pow2Up(e);
    assert UNIT - 0 == e + 9;
    Product(0x7FFF, 512, Pow2(e));
  }

  /** The bound is a matter of the significands alone. */
  lemma BoundOfSignificands(e: nat, f: nat, r: nat)
    ensures BoundHolds(e, f, r * Pow2(e)) <==>
      0x80_0000 + f <= r && r * 0x4000 <= (0x80_0000 + f) * 0x4001
  {
    var s, p := 0x80_0000 + f, Pow2(e);
    assert r * p * 0x4000 == r * 0x4000 * p && s * p * 0x4001 == s * 0x4001 * p;
    if s <= r { MulMono(s, r, p); } else { MulMono(r + 1, s, p); assert (r + 1) * p == r * p + p; }
    if r * 0x4000 <= s * 0x4001 {
      MulMono(r * 0x4000, s * 0x4001, p);
    } else {
      MulMono(s * 0x4001 + 1, r * 0x4000, p);
      assert (s * 0x4001 + 1) * p == s * 0x4001 * p + p;
    }
  }

  /** scale <= gain <= scale * (1 + 2^-14): at every scale with a shift of its own, except in
      the zero-shift carry, where it holds only if no fraction bit was dropped. */
  lemma GainBound(e: nat, f: nat)
    requires InRange(e, f)
    ensures Shift(e, f) <= UNIT
    ensures BoundHolds(e, f, Gain(Multiplier(e, f), Shift(e, f))) <==> !TopCarry(e, f) || f % 512 == 0
  {
    ShiftInRange(e, f);
    if TopCarry(e, f) {
      TopGain(e, f);
      CarryFraction(f);
      BoundOfSignificands(e, f, 0x7FFF * 512);
    } else {
      GainIsMantissa(e, f);
      MantissaBound(f);
      BoundOfSignificands(e, f, Mantissa(f) * 512);
    }
  }

  // ---- every positive finite scale -------------------------------------------------------

  /** A positive finite scale, in units of 2^-u: a subnormal one has no implicit bit. */
  function ScaleOf(e: nat, f: nat): nat { if e == 0 then 2 * f else Scale(e, f) }

  /** scale <= mul / 2^shift <= scale * (1 + 2^-14), the scale in units of 2^-u. */
  predicate Within(u: nat, scale: nat, mul: nat, shift: nat) {
    && scale * Pow2(shift) <= mul * Pow2(u)
    && mul * Pow2(u) * 0x4000 <= scale * Pow2(shift) * 0x4001
  }

  lemma Cancel(a: int, b: int, c: int)
    requires 0 < c
    ensures a * c <= b * c <==> a <= b
  {
    if a <= b { MulMono(a, b, c); } else { MulMono(b + 1, a, c); assert (b + 1) * c == b * c + c; }
  }

  lemma CancelBound(scale: nat, gain: nat, p: nat)
    requires 0 < p
    ensures scale * p <= gain * p && gain * p * 0x4000 <= scale * p * 0x4001
            <==> scale <= gain && gain * 0x4000 <= scale * 0x4001
  {
    Cancel(scale, gain, p);
    var a, b := gain * 0x4000, scale * 0x4001;
    Cancel(a, b, p);
    assert gain * p * 0x4000 == a * p && scale * p * 0x4001 == b * p;
  }

  /** With a shift inside the unit the bound is one between integers. */
  lemma WithinIsBound(u: nat, scale: nat, mul: nat, shift: nat)
    requires shift <= u
    ensures var gain := mul * Pow2(u - shift);
      Within(u, scale, mul, shift) <==> scale <= gain && gain * 0x4000 <= scale * 0x4001
  {
    var p, gain := Pow2(shift), mul * Pow2(u - shift);
    Pow2Add(u - shift, shift);
    Product(mul, Pow2(u - shift), p);
    CancelBound(scale, gain, p);
  }

  /** A subnormal scale is read as if it had an implicit bit, which only the very largest have
      nearly. */
  lemma SubnormalBound(f: nat, r: nat)
    requires 0 < f < 0x80_0000 && r == Mantissa(f) * 512
    ensures 2 * f <= r
    ensures r * 0x4000 <= 2 * f * 0x4001 <==> 0x7F_FD01 <= f && f != 0x7F_FE00
  {
    var t, low := f / 512, f % 512;
    assert f == t * 512 + low && t < 0x4000;
    assert r == (0x4001 + t) * 512;
  }

  lemma SubnormalGain(u: nat, f: nat)
    requires u == UNIT && f < 0x80_0000
    ensures Shift(0, f) <= u && Multiplier(0, f) * Pow2(u - Shift(0, f)) == Mantissa(f) * 512
  {
    assert Shift(0, f) == if Carries(f) then 140 else 141;
    Pow2Up(0);
    var z := 0;
    assert Pow2(z) == 1;
  }

  /** Past the largest shift the pair is far below the scale. */
  lemma WrappedIsBelow(u: nat, e: nat, f: nat)
    requires u == UNIT && 142 <= e <= 254 && f < 0x80_0000
    ensures !Within(u, Scale(e, f), Multiplier(e, f), Shift(e, f))
  {
    var shift, mul := Shift(e, f), Multiplier(e, f);
    LargeScaleWraps(e, f);
    var whole := e + shift;
    Pow2Mono(u, whole);
    Pow2Add(e, shift);
    Product(0x80_0000 + f, Pow2(e), Pow2(shift));
    MultiplierRange(e, f);
    LessTimes(mul, 0x80_0000 + f, Pow2(u), Pow2(whole));
  }

  lemma LessTimes(a: int, b: int, p: int, q: int)
    requires 0 <= a < b && 1 <= p <= q
    ensures a * p < b * q
  {
    MulMono(p, q, b);
    MulMono(a + 1, b, p);
    assert (a + 1) * p == a * p + p;
  }

  /** The words of positive finite scales at which the header's bound holds. */
  predicate HoldsAt(e: nat, f: nat) {
    if e == 0 then 0x7F_FD01 <= f && f != 0x7F_FE00
    else e <= 141 && (!TopCarry(e, f) || f % 512 == 0)
  }

  /** The bound stated for every scale holds at exactly these. */
  lemma GainBoundEverywhere(u: nat, e: nat, f: nat)
    requires u == UNIT && e <= 254 && f < 0x80_0000 && (e == 0 ==> 0 < f)
    ensures Within(u, ScaleOf(e, f), Multiplier(e, f), Shift(e, f)) <==> HoldsAt(e, f)
  {
    if e == 0 {
      SubnormalGain(u, f);
      SubnormalBound(f, Mantissa(f) * 512);
      WithinIsBound(u, 2 * f, Multiplier(0, f), Shift(0, f));
    } else if e <= 141 {
      GainBound(e, f);
      WithinIsBound(u, Scale(e, f), Multiplier(e, f), Shift(e, f));
    } else {
      WrappedIsBelow(u, e, f);
    }
  }

  /** It fails at the smallest positive scale, at the largest the shift still reaches, and at
      the first past it. */
  lemma BoundFails(u: nat, e: nat, f: nat)
    requires u == UNIT
    requires (e == 0 && f == 1) || (e == 141 && f == 0x7F_FFFF) || (e == 142 && f == 0)
    ensures !Within(u, ScaleOf(e, f), Multiplier(e, f), Shift(e, f))
  {
    GainBoundEverywhere(u, e, f);
  }

  /** There the pair is the nearest the register holds: no other positive pair is closer. */
  lemma TopIsNearest(e: nat, f: nat, mul: nat, shift: nat)
    requires InRange(e, f) && TopCarry(e, f) && mul <= 0x7FFF && shift <= UNIT
    ensures Shift(e, f) == 0
    ensures Gain(mul, shift) <= Gain(Multiplier(e, f), 0) <= Scale(e, f)
  {
    TopGain(e, f);
    CarryFraction(f);
    Pow2Mono(UNIT - shift, UNIT - 0);
    MulMono(mul, 0x7FFF, Pow2(UNIT - shift));
    MulMono(Pow2(UNIT - shift), Pow2(UNIT - 0), 0x7FFF);
    MulMono(0x7FFF * 512, 0x80_0000 + f, Pow2(e));
  }

  /** The gain of a pair, whichever branch made it. */
  function GainOf(e: nat, f: nat): nat
    requires InRange(e, f)
  {
    ShiftInRange(e, f);
    Gain(Multiplier(e, f), Shift(e, f))
  }

  lemma GainAtMost(e: nat, f: nat)
    requires InRange(e, f)
    ensures GainOf(e, f) <= 0x8000 * 512 * Pow2(e)
    ensures 0x4001 * 512 * Pow2(e) <= GainOf(e, f)
  {
    if TopCarry(e, f) {
      TopGain(e, f);
      MulMono(0x7FFF * 512, 0x8000 * 512, Pow2(e));
      MulMono(0x4001 * 512, 0x7FFF * 512, Pow2(e));
    } else {
      GainIsMantissa(e, f);
      MulMono(Mantissa(f) * 512, 0x8000 * 512, Pow2(e));
      MulMono(0x4001 * 512, Mantissa(f) * 512, Pow2(e));
    }
  }

  lemma GainRisesInFraction(e: nat, f: nat, g: nat)
    requires InRange(e, f) && InRange(e, g) && f <= g
    ensures GainOf(e, f) <= GainOf(e, g)
  {
    assert Mantissa(f) <= Mantissa(g);
    if TopCarry(e, g) {
      TopGain(e, g);
      if TopCarry(e, f) {
        TopGain(e, f);
      } else {
        GainIsMantissa(e, f);
        MulMono(Mantissa(f) * 512, 0x7FFF * 512, Pow2(e));
      }
    } else {
      GainIsMantissa(e, f);
      GainIsMantissa(e, g);
      MulMono(Mantissa(f) * 512, Mantissa(g) * 512, Pow2(e));
    }
  }

  /** The gain never falls as the scale rises. */
  lemma GainRises(e: nat, f: nat, e': nat, f': nat)
    requires InRange(e, f) && InRange(e', f') && (e < e' || (e == e' && f <= f'))
    ensures GainOf(e, f) <= GainOf(e', f')
  {
    if e == e' {
      GainRisesInFraction(e, f, f');
    } else {
      GainAtMost(e, f);
      GainAtMost(e', f');
      Pow2Mono(e + 1, e');
      assert 0x8000 * 512 * Pow2(e) == 0x4000 * 512 * Pow2(e + 1);
      MulMono(Pow2(e + 1), Pow2(e'), 0x4000 * 512);
      MulMono(0x4000 * 512, 0x4001 * 512, Pow2(e'));
    }
  }

  // ---- one output ----------------------------------------------------------------------

  /** n / d rounded to nearest, ties to even (section 4.3.1 of IEEE 754-2019). */
  function Rne(n: int, d: int): int
    requires 0 < d
  {
    var q, r := n / d, n % d;
    if 2 * r < d || (2 * r == d && q % 2 == 0) then q else q + 1
  }

  function Sat8(x: int): int { if x < -128 then -128 else if x > 127 then 127 else x }

  /** It is the one integer no further than half of d off, and even when exactly that far. */
  lemma RneIsNearest(n: int, d: int, m: int)
    requires 0 < d
    ensures m == Rne(n, d) <==>
      -d <= 2 * (n - m * d) <= d && (2 * (n - m * d) == d || 2 * (n - m * d) == -d ==> m % 2 == 0)
  {
    var q := n / d;
    Recompose(n, d);
    assert (q + 1) * d == q * d + d;
    if m < q { RowsApart(m, q, d); }
    if q + 1 < m { RowsApart(q + 1, m, d); }
  }

  /** Saturation gives the nearest of the 256 values. */
  lemma Sat8IsNearest(x: int, m: int)
    requires -128 <= m <= 127
    ensures -128 <= Sat8(x) <= 127
    ensures (if x < Sat8(x) then Sat8(x) - x else x - Sat8(x)) <= if x < m then m - x else x - m
  {
  }

  lemma RneMono(a: int, b: int, d: int)
    requires 0 < d && a <= b
    ensures Rne(a, d) <= Rne(b, d)
  {
    var p, q := a / d, b / d;
    Recompose(a, d);
    Recompose(b, d);
    if p > q { RowsApart(q, p, d); }
  }

  /** Less than one apart before rounding is at most one apart after. */
  lemma RneClose(a: int, b: int, d: int)
    requires 0 < d && a <= b < a + d
    ensures Rne(a, d) <= Rne(b, d) <= Rne(a, d) + 1
  {
    RneMono(a, b, d);
    Recompose(a, d);
    Recompose(b, d);
    var p, q := a / d, b / d;
    assert (p + 1) * d == p * d + d;
    if q > p + 1 { RowsApart(p + 1, q, d); }
    if q < p { RowsApart(q, p, d); }
    assert q == p || q == p + 1;
  }

  /** A common factor multiplies quotient and remainder apart. */
  lemma DivFactor(n: int, d: int, c: int)
    requires 0 < d && 0 < c
    ensures 0 < d * c && n * c / (d * c) == n / d && n * c % (d * c) == n % d * c
  {
    var q, r := n / d, n % d;
    MulMono(1, d, c);
    Recompose(n, d);
    assert n * c == q * (d * c) + r * c by { assert n * c == (q * d + r) * c; }
    MulMono(0, r, c);
    MulMono(r + 1, d, c);
    Digits(q, r * c, d * c);
  }

  /** Rounding does not see a common factor. */
  lemma RneFactor(n: int, d: int, c: int)
    requires 0 < d && 0 < c
    ensures 0 < d * c && Rne(n * c, d * c) == Rne(n, d)
  {
    var r := n % d;
    DivFactor(n, d, c);
    if 2 * r < d { MulMono(2 * r + 1, d, c); }
    if 2 * r > d { MulMono(d + 1, 2 * r, c); }
    assert 2 * (r * c) == (2 * r) * c;
  }

  /** What the DPU computes: the accumulator times MUL over 2^SHIFT, rounded, zero point added,
      saturated. */
  function Requantized(acc: int, mul: nat, shift: nat, zp: int): int {
    Sat8(Rne(acc * mul, Pow2(shift)) + zp)
  }

  /** The same with the scale itself, which is its significand over 2^(150 - e). */
  function Exact(acc: int, e: nat, f: nat, zp: int): int
    requires e <= UNIT
  {
    Sat8(Rne(acc * (0x80_0000 + f), Pow2(UNIT - e)) + zp)
  }

  predicate Close(a: int, b: int) { -1 <= a - b <= 1 }

  lemma LargeRounds(n: int, d: int)
    requires 0 < d
    ensures 0x4000 * d <= n ==> 0x4000 <= Rne(n, d)
    ensures n <= -0x4000 * d ==> Rne(n, d) <= -0x4000
  {
    Digits(0x4000, 0, d);
    Digits(-0x4000, 0, d);
    if 0x4000 * d <= n { RneMono(0x4000 * d, n, d); }
    if n <= -0x4000 * d { RneMono(n, -0x4000 * d, d); }
  }

  /** Two values within a 2^14th of each other saturate alike or round within one. */
  lemma SaturateClose(x: int, g: int, d: int, zp: int)
    requires 0 < d && -128 <= zp <= 127
    requires (0 <= x <= g && g * 0x4000 <= x * 0x4001) || (g <= x <= 0 && x * 0x4001 <= g * 0x4000)
    ensures Close(Sat8(Rne(g, d) + zp), Sat8(Rne(x, d) + zp))
  {
    LargeRounds(x, d);
    LargeRounds(g, d);
    if x < 0x4000 * d && -0x4000 * d < x {
      if 0 <= x { RneClose(x, g, d); } else { RneClose(g, x, d); }
    }
  }

  /** The gain in the scale's own unit. */
  lemma OverScaleUnit(acc: int, e: nat, f: nat)
    requires InRange(e, f) && !TopCarry(e, f)
    ensures Rne(acc * Multiplier(e, f), Pow2(Shift(e, f))) == Rne(acc * (Mantissa(f) * 512), Pow2(UNIT - e))
  {
    var mul, shift := Multiplier(e, f), Shift(e, f);
    var c := if Carries(f) then 1024 else 512;
    ShiftInRange(e, f);
    Pow2Up(shift);
    RneFactor(acc * mul, Pow2(shift), c);
    assert acc * mul * c == acc * (mul * c) && mul * c == Mantissa(f) * 512;
    assert UNIT - e == if Carries(f) then shift + 10 else shift + 9;
  }

  /** Within one count: at every accumulator, every zero point and every scale whose shift the
      register takes, the output is at most one from that of the exact scale. */
  lemma WithinOneCount(acc: int, e: nat, f: nat, zp: int)
    requires InRange(e, f) && 1 <= Shift(e, f) <= 63 && -128 <= zp <= 127
    ensures Close(Requantized(acc, Multiplier(e, f), Shift(e, f), zp), Exact(acc, e, f, zp))
  {
    var s, r := 0x80_0000 + f, Mantissa(f) * 512;
    ShiftInRange(e, f);
    OverScaleUnit(acc, e, f);
    MantissaBound(f);
    ScaledBound(acc, s, r);
    SaturateClose(acc * s, acc * r, Pow2(UNIT - e), zp);
  }

  lemma ScaledBound(acc: int, s: nat, gain: nat)
    requires s <= gain && gain * 0x4000 <= s * 0x4001
    ensures 0 <= acc ==> 0 <= acc * s <= acc * gain && acc * gain * 0x4000 <= acc * s * 0x4001
    ensures acc <= 0 ==> acc * gain <= acc * s <= 0 && acc * s * 0x4001 <= acc * gain * 0x4000
  {
    if 0 <= acc {
      MulMono(0, s, acc);
      MulMono(s, gain, acc);
      MulMono(gain * 0x4000, s * 0x4001, acc);
    } else {
      MulMono(0, s, -acc);
      MulMono(s, gain, -acc);
      MulMono(gain * 0x4000, s * 0x4001, -acc);
    }
  }

  /** A zero accumulator lands on the zero point, whatever the scale: what padding channels,
      whose weights and biases are zero, are written as. */
  lemma ZeroLandsOnZeroPoint(mul: nat, shift: nat, e: nat, f: nat, zp: int)
    requires -128 <= zp <= 127 && e <= UNIT
    ensures Requantized(0, mul, shift, zp) == zp && Exact(0, e, f, zp) == zp
  {
    assert 0 * mul == 0 && 0 * (0x80_0000 + f) == 0;
    RneIsNearest(0, Pow2(shift), 0);
    RneIsNearest(0, Pow2(UNIT - e), 0);
  }

  /** And at a scale of one the exact form keeps every accumulator. */
  lemma UnitScaleKeeps(acc: int, zp: int)
    ensures Exact(acc, 127, 0, zp) == Sat8(acc + zp)
  {
    var d := Pow2(23);
    Pow2Add(10, 13);
    assert Pow2(10) == 0x400 && Pow2(13) == 0x2000;
    assert d == 0x80_0000;
    Digits(acc, 0, d);
    RneIsNearest(acc * d, d, acc);
  }
}
