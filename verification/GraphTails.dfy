/** What the channels past a layer's own do to its arithmetic: a direct program sums every channel
    of whole 32-channel groups, and so is blind to what lies past its own exactly when its weight
    zero point is zero or it has no such channels. */
module GraphTails {
  import opened GraphLayers
  import opened GraphCubes
  import opened GraphPlan
  import opened GraphRun

  // ---- one accumulator -------------------------------------------------------------------

  /** A stored weight; the cube holds zeros past the live channels. */
  function WeightAt(w: seq<int>, c: nat): int { if c < |w| then w[c] else 0 }

  function Dot(w: seq<int>, x: seq<int>, n: nat): int
    requires n <= |x|
  {
    if n == 0 then 0 else Dot(w, x, n - 1) + WeightAt(w, n - 1) * x[n - 1]
  }

  function Sum(x: seq<int>, n: nat): int
    requires n <= |x|
  {
    if n == 0 then 0 else Sum(x, n - 1) + x[n - 1]
  }

  /** An output channel's accumulator over every channel walked: its weights' products, and the
      weight zero point taken from each by subtracting that many times the sum. */
  function Accumulator(l: Layer, bias: int, w: seq<int>, x: seq<int>): int {
    bias + Dot(w, x, |x|) - l.wZp * Sum(x, |x|)
  }

  /** The channels a program walks past the live ones: a pool's walk stops there. */
  function TailLength(l: Layer): nat {
    if IsPool(l) then 0 else Round32(l.ic) - l.ic
  }

  lemma {:induction false} DotOver(w: seq<int>, a: seq<int>, t: seq<int>, n: nat)
    requires |w| == |a| && n <= |t|
    ensures Dot(w, a + t, |a| + n) == Dot(w, a, |a|)
  {
    if n == 0 { DotOf(w, a, t, |a|); } else { DotOver(w, a, t, n - 1); }
  }

  lemma {:induction false} DotOf(w: seq<int>, a: seq<int>, t: seq<int>, n: nat)
    requires n <= |a|
    ensures Dot(w, a + t, n) == Dot(w, a, n) && Sum(a + t, n) == Sum(a, n)
  {
    if n > 0 { DotOf(w, a, t, n - 1); }
  }

  lemma {:induction false} SumOver(a: seq<int>, t: seq<int>, n: nat)
    requires n <= |t|
    ensures Sum(a + t, |a| + n) == Sum(a, |a|) + Sum(t, n)
  {
    if n == 0 { DotOf([], a, t, |a|); } else { SumOver(a, t, n - 1); }
  }

  /** A tail enters by its sum alone, times the weight zero point. */
  lemma TailEnters(l: Layer, bias: int, w: seq<int>, a: seq<int>, t: seq<int>)
    requires |w| == |a|
    ensures Accumulator(l, bias, w, a + t) == Accumulator(l, bias, w, a) - l.wZp * Sum(t, |t|)
  {
    DotOver(w, a, t, |t|);
    SumOver(a, t, |t|);
    assert l.wZp * (Sum(a, |a|) + Sum(t, |t|)) == l.wZp * Sum(a, |a|) + l.wZp * Sum(t, |t|);
  }

  /** Some tail is summed, and it makes a difference what it holds. */
  ghost predicate TailMatters(l: Layer, bias: int, w: seq<int>, a: seq<int>) {
    exists t: seq<int>, u: seq<int> :: |t| == |u| == TailLength(l) &&
      Accumulator(l, bias, w, a + t) != Accumulator(l, bias, w, a + u)
  }

  function Level(v: int, n: nat): (x: seq<int>)
    ensures |x| == n && forall k :: 0 <= k < n ==> x[k] == v
  {
    seq(n, _ => v)
  }

  lemma {:induction false} LevelSum(v: int, n: nat, k: nat)
    requires k <= n
    ensures Sum(Level(v, n), k) == v * k
  {
    if k > 0 { LevelSum(v, n, k - 1); }
  }

  /** A tail matters exactly to the layers called sensitive, at any weights, bias and data. */
  lemma SensitiveExactly(l: Layer, bias: int, w: seq<int>, a: seq<int>)
    requires |w| == |a|
    ensures Sensitive(l) <==> TailMatters(l, bias, w, a)
  {
    var n := TailLength(l);
    if Sensitive(l) {
      var t, u := Level(0, n), Level(1, n);
      LevelSum(0, n, n);
      LevelSum(1, n, n);
      TailEnters(l, bias, w, a, t);
      TailEnters(l, bias, w, a, u);
      assert 0 < n && l.wZp * n != 0;
      assert Accumulator(l, bias, w, a + t) != Accumulator(l, bias, w, a + u);
    } else {
      forall t: seq<int>, u: seq<int> | |t| == |u| == n
        ensures Accumulator(l, bias, w, a + t) == Accumulator(l, bias, w, a + u)
      {
        TailEnters(l, bias, w, a, t);
        TailEnters(l, bias, w, a, u);
        if n == 0 { assert t == u; }
      }
    }
  }

  // ---- a declared tail -------------------------------------------------------------------

  /** What a cube lets its reader find past the live channels: its value from where it says so,
      and anything before that or if it says nothing. */
  predicate Declared(l: Layer, c: Cube, t: seq<int>) {
    |t| == TailLength(l) &&
    (0 < c.padFrom ==> forall k :: 0 <= k < |t| && c.padFrom <= l.ic + k ==> t[k] == c.padValue)
  }

  /** Every tail the cube allows gives what the layer's own cube gives, whose tail holds the input
      zero point. */
  ghost predicate TailAgrees(l: Layer, c: Cube, bias: int, w: seq<int>, a: seq<int>) {
    forall t: seq<int> :: Declared(l, c, t) ==>
      Accumulator(l, bias, w, a + t) == Accumulator(l, bias, w, a + Level(l.pack.inZp, TailLength(l)))
  }

  predicate TailRule(l: Layer, c: Cube) {
    Sensitive(l) ==> 0 < c.padFrom <= l.ic && c.padValue == l.pack.inZp
  }

  /** The rule a reader applies to a cube's declared tail is exactly that. */
  lemma TailRuleExactly(l: Layer, c: Cube, bias: int, w: seq<int>, a: seq<int>)
    requires |w| == |a|
    ensures TailRule(l, c) <==> TailAgrees(l, c, bias, w, a)
  {
    var n, zp := TailLength(l), l.pack.inZp;
    TailEnters(l, bias, w, a, Level(zp, n));
    if TailRule(l, c) {
      forall t: seq<int> | Declared(l, c, t)
        ensures Accumulator(l, bias, w, a + t) == Accumulator(l, bias, w, a + Level(zp, n))
      {
        TailEnters(l, bias, w, a, t);
        if Sensitive(l) { assert t == Level(zp, n); } else if n == 0 { assert t == Level(zp, n); }
      }
    } else {
      BrokenRule(l, c, bias, w, a);
    }
  }

  lemma BrokenRule(l: Layer, c: Cube, bias: int, w: seq<int>, a: seq<int>)
    requires |w| == |a| && !TailRule(l, c)
    ensures !TailAgrees(l, c, bias, w, a)
  {
    var n, zp := TailLength(l), l.pack.inZp;
    var t := OtherTail(l, c);
    TailEnters(l, bias, w, a, t);
    TailEnters(l, bias, w, a, Level(zp, n));
    Differ(Sum(t, n), Sum(Level(zp, n), n), l.wZp);
  }

  /** A tail the cube allows whose sum is not the input zero point's. */
  lemma OtherTail(l: Layer, c: Cube) returns (t: seq<int>)
    requires !TailRule(l, c)
    ensures Declared(l, c, t)
    ensures Sum(t, |t|) != Sum(Level(l.pack.inZp, TailLength(l)), TailLength(l))
  {
    var n, zp := TailLength(l), l.pack.inZp;
    LevelSum(zp, n, n);
    if c.padFrom == 0 || c.padValue != zp {
      var v := if c.padValue != zp then c.padValue else zp + 1;
      t := Level(v, n);
      LevelSum(v, n, n);
      Differ(v, zp, n);
    } else {
      t := [zp + 1] + Level(zp, n - 1);
      SumOver([zp + 1], Level(zp, n - 1), n - 1);
      LevelSum(zp, n - 1, n - 1);
      assert Sum([zp + 1], 1) == zp + 1;
      assert zp * n == zp * (n - 1) + zp;
    }
  }

  lemma Differ(x: int, y: int, f: int)
    requires x != y && f != 0
    ensures x * f != y * f && f * x != f * y
  {
    assert (x - y) * f != 0;
  }

  // ---- so a network of such layers keeps to what is asked of its arithmetic --------------------

  /** One direct layer's weights, by output channel, and its biases. */
  datatype Taps = Taps(rows: seq<seq<int>>, bias: seq<int>)

  predicate TapsOk(l: Layer, k: Taps) {
    |k.rows| == l.oc == |k.bias| && forall o :: 0 <= o < l.oc ==> |k.rows[o]| == l.ic
  }

  /** What a plane shows at one pixel, and the plane drawn from pixels: one value everywhere. */
  function See(p: Plane): int { match p case Flat(z) => z case Image(n) => n }

  function Seen(x: Tensor): (v: seq<int>)
    ensures |v| == |x| && forall k :: 0 <= k < |x| ==> v[k] == See(x[k])
  {
    seq(|x|, k requires 0 <= k < |x| => See(x[k]))
  }

  function DirectOut(l: Layer, k: Taps, x: Tensor): (out: Tensor)
    requires TapsOk(l, k)
    ensures |out| == l.oc
    ensures forall o :: 0 <= o < l.oc ==> out[o] == Flat(Accumulator(l, k.bias[o], k.rows[o], Seen(x)))
  {
    seq(l.oc, o requires 0 <= o < l.oc => Flat(Accumulator(l, k.bias[o], k.rows[o], Seen(x))))
  }

  ghost predicate AllTaps(L: seq<Layer>, ks: seq<Taps>) {
    |ks| == |L| && forall i :: 0 <= i < |L| ==> TapsOk(L[i], ks[i])
  }

  predicate Direct(l: Layer, x: seq<Tensor>, t: Tensor) {
    l.kind == Conv && |x| == 1 && |x[0]| == l.ic && |t| == TailLength(l)
  }

  /** A network whose convolutions accumulate over what they read, their tail included, and whose
      other layers are whatever they are. */
  ghost function WithConvs(L: seq<Layer>, ks: seq<Taps>, rest: Sem): Sem
    requires AllTaps(L, ks)
  {
    (i: nat, x: seq<Tensor>, t: Tensor) =>
      if i < |L| && Direct(L[i], x, t) then DirectOut(L[i], ks[i], x[0] + t) else rest(i, x, t)
  }

  lemma OnConv(L: seq<Layer>, ks: seq<Taps>, rest: Sem, i: nat, y: Tensor, t: Tensor)
    requires AllTaps(L, ks) && i < |L| && Direct(L[i], [y], t)
    ensures WithConvs(L, ks, rest)(i, [y], t) == DirectOut(L[i], ks[i], y + t)
  {
    assert [y][0] == y;
  }

  lemma SeenOver(y: Tensor, t: Tensor)
    ensures Seen(y + t) == Seen(y) + Seen(t)
  {
  }

  lemma BlindOut(l: Layer, k: Taps, y: Tensor, t: Tensor, u: Tensor)
    requires TapsOk(l, k) && !Sensitive(l) && Direct(l, [y], t) && Direct(l, [y], u)
    ensures DirectOut(l, k, y + t) == DirectOut(l, k, y + u)
  {
    SeenOver(y, t);
    SeenOver(y, u);
    forall o | 0 <= o < l.oc
      ensures Accumulator(l, k.bias[o], k.rows[o], Seen(y + t)) == Accumulator(l, k.bias[o], k.rows[o], Seen(y + u))
    {
      SensitiveExactly(l, k.bias[o], k.rows[o], Seen(y));
    }
  }

  /** What the meaning theorem asks of a network's arithmetic, convolutions that accumulate over
      whole groups have, if the other layers do: at any weights, biases and zero points. */
  lemma ConvsAreSemOk(L: seq<Layer>, ks: seq<Taps>, rest: Sem)
    requires AllTaps(L, ks) && SemOk(L, rest)
    ensures SemOk(L, WithConvs(L, ks, rest))
  {
    var sem := WithConvs(L, ks, rest);
    forall i: nat, x: seq<Tensor>, t: Tensor | i < |L| ensures |sem(i, x, t)| == L[i].oc {
      if Direct(L[i], x, t) { assert x == [x[0]]; OnConv(L, ks, rest, i, x[0], t); }
    }
    forall i: nat, x: seq<Tensor>, t: Tensor, u: Tensor | i < |L| && !Sensitive(L[i]) && |t| == |u|
      ensures sem(i, x, t) == sem(i, x, u)
    {
      if Direct(L[i], x, t) {
        assert x == [x[0]];
        OnConv(L, ks, rest, i, x[0], t);
        OnConv(L, ks, rest, i, x[0], u);
        BlindOut(L[i], ks[i], x[0], t, u);
      } else {
        assert sem(i, x, t) == rest(i, x, t) && sem(i, x, u) == rest(i, x, u);
      }
    }
    forall i: nat, a: Tensor, g: Tensor, h: Tensor, b: Tensor, t: Tensor |
      i < |L| && L[i].kind == Add && |a| == |b| == L[i].oc && |g| == |h| == AddBoff(L[i]) - L[i].oc
      ensures sem(i, [a + g + b], t) == sem(i, [a + h + b], t)
    {
      assert sem(i, [a + g + b], t) == rest(i, [a + g + b], t);
      assert sem(i, [a + h + b], t) == rest(i, [a + h + b], t);
    }
  }

  /** And it asks no less than it must: the output of a sensitive one does depend on its tail. */
  lemma ConvShowsTail(L: seq<Layer>, ks: seq<Taps>, rest: Sem, i: nat, y: Tensor) returns (t: Tensor, u: Tensor)
    requires AllTaps(L, ks) && i < |L| && L[i].kind == Conv && |y| == L[i].ic && 0 < L[i].oc
    requires Sensitive(L[i])
    ensures |t| == |u| == TailLength(L[i])
    ensures WithConvs(L, ks, rest)(i, [y], t) != WithConvs(L, ks, rest)(i, [y], u)
  {
    var l, k := L[i], ks[i];
    SensitiveExactly(l, k.bias[0], k.rows[0], Seen(y));
    var v: seq<int>, w: seq<int> :| |v| == |w| == TailLength(l) &&
      Accumulator(l, k.bias[0], k.rows[0], Seen(y) + v) != Accumulator(l, k.bias[0], k.rows[0], Seen(y) + w);
    t, u := Flats(v), Flats(w);
    SeenOver(y, t);
    SeenOver(y, u);
    OnConv(L, ks, rest, i, y, t);
    OnConv(L, ks, rest, i, y, u);
    assert DirectOut(l, k, y + t)[0] != DirectOut(l, k, y + u)[0];
  }

  function Flats(v: seq<int>): (t: Tensor)
    ensures |t| == |v| && Seen(t) == v
  {
    seq(|v|, k requires 0 <= k < |v| => Flat(v[k]))
  }
}
