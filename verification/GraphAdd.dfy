/** A residual add as placement and arithmetic: two slices of one buffer, one writer each, and
    a 1x1 convolution of two diagonal blocks over the whole of it. */
module GraphAdd {
  import Arith
  import opened GraphLayers
  import opened GraphCubes
  import opened GraphPlan
  import opened GraphRun
  import opened GraphHomes

  /** Neither producer's program writes a channel of the other's, so the order the two run in
      does not matter to any channel of memory. */
  lemma EitherOrder(L: seq<Layer>, S: State, j: nat, p: nat, q: nat, mem: Memory, a: Tensor, b: Tensor,
                    st: Store, x: nat)
    requires WellFormed(L) && Sized(L, S) && AddPair(L, S, j, p, q)
    requires HasProgram(L[p]) && HasProgram(L[q]) && |a| == L[p].oc && |b| == L[q].oc
    ensures var hp, bp := HomeStore(L, S, p), HomeBase(L, S, p);
            var hq, bq := HomeStore(L, S, q), HomeBase(L, S, q);
      Write(Write(mem, hp, bp, Written(L[p], a)), hq, bq, Written(L[q], b))(st, x)
      == Write(Write(mem, hq, bq, Written(L[q], b)), hp, bp, Written(L[p], a))(st, x)
  {
    AddSlotsApart(L, S, j, p, q, x);
  }

  // ---- the weights -------------------------------------------------------------------

  /** Row `o` of two diagonal blocks, the second `off` columns along. */
  function Diagonal(o: nat, off: nat, w1: int, w2: int, k: nat): int {
    if k == o then w1 else if k == off + o then w2 else 0
  }

  /** The accumulator of one output channel: every walked channel less the one input zero
      point, times its weight. */
  function Contract(o: nat, off: nat, w1: int, w2: int, x: seq<int>, zp: int, n: nat): int
    requires n <= |x|
  {
    if n == 0 then 0
    else Contract(o, off, w1, w2, x, zp, n - 1) + Diagonal(o, off, w1, w2, n - 1) * (x[n - 1] - zp)
  }

  lemma {:induction false} ContractIs(o: nat, off: nat, w1: int, w2: int, x: seq<int>, zp: int, n: nat)
    requires n <= |x| && o < off
    ensures Contract(o, off, w1, w2, x, zp, n)
            == (if o < n then w1 * (x[o] - zp) else 0)
             + (if off + o < n then w2 * (x[off + o] - zp) else 0)
  {
    if n > 0 { ContractIs(o, off, w1, w2, x, zp, n - 1); }
  }

  /** The convolution with its bias is the two-operand sum, each operand with its own zero
      point, whatever the channels between them and past them hold. */
  lemma DiagonalsAdd(a: seq<int>, gap: seq<int>, b: seq<int>, tail: seq<int>, o: nat,
                     w1: int, w2: int, aZp: int, bZp: int)
    requires |a| == |b| && o < |a|
    ensures var x := a + gap + b + tail;
      Contract(o, |a| + |gap|, w1, w2, x, aZp, |x|) + w2 * (aZp - bZp)
      == w1 * (a[o] - aZp) + w2 * (b[o] - bZp)
  {
    var x, off := a + gap + b + tail, |a| + |gap|;
    ContractIs(o, off, w1, w2, x, aZp, |x|);
    assert x[o] == a[o] && x[off + o] == b[o];
    assert w2 * (b[o] - aZp) + w2 * (aZp - bZp) == w2 * (b[o] - bZp);
  }

  // ---- so a residual add does not see the gap ------------------------------------------

  /** One add's weights and the zero points of its operands. */
  datatype Weights = Weights(w1: int, w2: int, aZp: int, bZp: int)

  /** What one pixel of every channel read holds, and a plane from its pixels. */
  type Eye = (Plane, nat) -> int
  type Hand = seq<int> -> Plane

  function Pixels(see: Eye, x: Tensor, at: nat): (v: seq<int>)
    ensures |v| == |x|
  {
    seq(|x|, k requires 0 <= k < |x| => see(x[k], at))
  }

  /** One output channel of the two-diagonal convolution with its bias, pixel by pixel. */
  function ChannelPixels(l: Layer, w: Weights, see: Eye, x: Tensor, o: nat): (v: seq<int>)
    ensures |v| == PlaneSize(l)
    ensures forall at :: 0 <= at < |v| ==>
      v[at] == Contract(o, AddBoff(l), w.w1, w.w2, Pixels(see, x, at), w.aZp, |x|) + w.w2 * (w.aZp - w.bZp)
  {
    seq(PlaneSize(l), at requires 0 <= at < PlaneSize(l) =>
      Contract(o, AddBoff(l), w.w1, w.w2, Pixels(see, x, at), w.aZp, |x|) + w.w2 * (w.aZp - w.bZp))
  }

  function AddOut(l: Layer, w: Weights, see: Eye, draw: Hand, x: Tensor): (out: Tensor)
    ensures |out| == l.oc
    ensures forall o :: 0 <= o < l.oc ==> out[o] == draw(ChannelPixels(l, w, see, x, o))
  {
    seq(l.oc, o requires 0 <= o < l.oc => draw(ChannelPixels(l, w, see, x, o)))
  }

  /** A network whose adds are two-diagonal convolutions over what they read, their tail
      included, and whose other layers are whatever they are. */
  function WithAdds(L: seq<Layer>, ws: seq<Weights>, see: Eye, draw: Hand, rest: Sem): Sem
    requires |ws| == |L|
  {
    (i: nat, x: seq<Tensor>, t: Tensor) =>
      if i < |L| && OverBoth(L[i], x) then AddOut(L[i], ws[i], see, draw, x[0] + t) else rest(i, x, t)
  }

  lemma OnAdd(L: seq<Layer>, ws: seq<Weights>, see: Eye, draw: Hand, rest: Sem, i: nat, y: Tensor, t: Tensor)
    requires |ws| == |L| && i < |L| && L[i].kind == Add && |y| == AddBoff(L[i]) + L[i].oc
    ensures WithAdds(L, ws, see, draw, rest)(i, [y], t) == AddOut(L[i], ws[i], see, draw, y + t)
  {
    assert OverBoth(L[i], [y]) && [y][0] == y;
  }

  predicate OverBoth(l: Layer, x: seq<Tensor>) {
    l.kind == Add && |x| == 1 && |x[0]| == AddBoff(l) + l.oc
  }

  /** The channel is the sum of the operands' channels, pixel by pixel. */
  lemma ChannelIsSum(l: Layer, w: Weights, see: Eye, a: Tensor, g: Tensor, b: Tensor, t: Tensor,
                     o: nat, at: nat)
    requires |a| == |b| == l.oc && |g| == AddBoff(l) - l.oc && o < l.oc && at < PlaneSize(l)
    ensures ChannelPixels(l, w, see, a + g + b + t, o)[at]
            == w.w1 * (see(a[o], at) - w.aZp) + w.w2 * (see(b[o], at) - w.bZp)
  {
    assert Pixels(see, a + g + b + t, at)
        == Pixels(see, a, at) + Pixels(see, g, at) + Pixels(see, b, at) + Pixels(see, t, at);
    DiagonalsAdd(Pixels(see, a, at), Pixels(see, g, at), Pixels(see, b, at), Pixels(see, t, at),
                 o, w.w1, w.w2, w.aZp, w.bZp);
  }

  lemma ChannelIsBlind(l: Layer, w: Weights, see: Eye, a: Tensor, g: Tensor, h: Tensor, b: Tensor,
                       t: Tensor, u: Tensor, o: nat)
    requires |a| == |b| == l.oc && |g| == |h| == AddBoff(l) - l.oc && o < l.oc
    ensures ChannelPixels(l, w, see, a + g + b + t, o) == ChannelPixels(l, w, see, a + h + b + u, o)
  {
    var v, v' := ChannelPixels(l, w, see, a + g + b + t, o), ChannelPixels(l, w, see, a + h + b + u, o);
    forall at: nat | at < |v| ensures v[at] == v'[at] {
      ChannelIsSum(l, w, see, a, g, b, t, o, at);
      ChannelIsSum(l, w, see, a, h, b, u, o, at);
    }
  }

  lemma AddIsBlind(L: seq<Layer>, ws: seq<Weights>, see: Eye, draw: Hand, rest: Sem, i: nat,
                   a: Tensor, g: Tensor, h: Tensor, b: Tensor, t: Tensor, u: Tensor)
    requires |ws| == |L| && i < |L| && L[i].kind == Add
    requires |a| == |b| == L[i].oc && |g| == |h| == AddBoff(L[i]) - L[i].oc
    ensures var sem := WithAdds(L, ws, see, draw, rest); sem(i, [a + g + b], t) == sem(i, [a + h + b], u)
  {
    forall o: nat | o < L[i].oc
      ensures ChannelPixels(L[i], ws[i], see, a + g + b + t, o) == ChannelPixels(L[i], ws[i], see, a + h + b + u, o)
    {
      ChannelIsBlind(L[i], ws[i], see, a, g, h, b, t, u, o);
    }
    assert AddOut(L[i], ws[i], see, draw, a + g + b + t) == AddOut(L[i], ws[i], see, draw, a + h + b + u);
    OnAdd(L, ws, see, draw, rest, i, a + g + b, t);
    OnAdd(L, ws, see, draw, rest, i, a + h + b, u);
  }

  /** What the meaning theorem asks of a network's arithmetic, adds that are two-diagonal
      convolutions have, at any weights, zero points and pictures, if the other layers do: an
      add's output depends on nothing in the gap and nothing past its operands. */
  lemma DiagonalsAreSemOk(L: seq<Layer>, ws: seq<Weights>, see: Eye, draw: Hand, rest: Sem)
    requires |ws| == |L| && RightDepth(L, rest) && TailBlind(L, rest)
    ensures SemOk(L, WithAdds(L, ws, see, draw, rest))
  {
    var sem := WithAdds(L, ws, see, draw, rest);
    forall i: nat, x: seq<Tensor>, t: Tensor | i < |L| ensures |sem(i, x, t)| == L[i].oc {
      if OverBoth(L[i], x) {
        assert x == [x[0]];
        OnAdd(L, ws, see, draw, rest, i, x[0], t);
      } else {
        assert sem(i, x, t) == rest(i, x, t);
      }
    }
    forall i: nat, a: Tensor, g: Tensor, h: Tensor, b: Tensor, t: Tensor |
      i < |L| && L[i].kind == Add && |a| == |b| == L[i].oc && |g| == |h| == AddBoff(L[i]) - L[i].oc
      ensures sem(i, [a + g + b], t) == sem(i, [a + h + b], t)
    {
      AddIsBlind(L, ws, see, draw, rest, i, a, g, h, b, t, t);
    }
    forall i: nat, x: seq<Tensor>, t: Tensor, u: Tensor | i < |L| && !Sensitive(L[i]) && |t| == |u|
      ensures sem(i, x, t) == sem(i, x, u)
    {
      if OverBoth(L[i], x) {
        var oc, boff := L[i].oc, AddBoff(L[i]);
        var a, g, b := x[0][..oc], x[0][oc..boff], x[0][boff..];
        assert x[0] == a + g + b;
        assert x == [x[0]];
        AddIsBlind(L, ws, see, draw, rest, i, a, g, g, b, t, u);
      } else {
        assert sem(i, x, t) == rest(i, x, t) && sem(i, x, u) == rest(i, x, u);
      }
    }
  }

  /** Fills the weights and bias of an add over 2c channels: zeros, then the two diagonals. */
  method ResidualAddWeights(c: nat, w1: int, w2: int, aZp: int, bZp: int,
                            W: array<int>, bias: array<int>)
    requires W.Length == c * (2 * c) && bias.Length == c && W != bias
    modifies W, bias
    ensures forall o: nat, k: nat ::
      o < c && k < 2 * c && At(c, o, k) < W.Length ==> W[At(c, o, k)] == Diagonal(o, c, w1, w2, k)
    ensures forall o :: 0 <= o < c ==> bias[o] == w2 * (aZp - bZp)
  {
    var t := 0;
    while t < W.Length
      invariant 0 <= t <= W.Length && forall u :: 0 <= u < t ==> W[u] == 0
    {
      W[t] := 0;
      t := t + 1;
    }
    for o := 0 to c
      invariant forall i: nat, k: nat ::
        i < c && k < 2 * c && At(c, i, k) < W.Length
        ==> W[At(c, i, k)] == if i < o then Diagonal(i, c, w1, w2, k) else 0
      invariant forall i :: 0 <= i < o ==> bias[i] == w2 * (aZp - bZp)
    {
      AtInside(c, o, o);
      AtInside(c, o, c + o);
      forall i: nat, k: nat | i < c && k < 2 * c
        ensures At(c, i, k) == At(c, o, o) <==> i == o && k == o
        ensures At(c, i, k) == At(c, o, c + o) <==> i == o && k == c + o
      {
        AtOnce(c, i, k, o, o);
        AtOnce(c, i, k, o, c + o);
      }
      W[At(c, o, o)] := w1;
      W[At(c, o, c + o)] := w2;
      bias[o] := w2 * (aZp - bZp);
    }
  }

  /** Row-major [oc][ic] with 2c columns. */
  function At(c: nat, o: nat, k: nat): nat {
    o * (2 * c) + k
  }

  lemma AtInside(c: nat, o: nat, k: nat)
    requires o < c && k < 2 * c
    ensures At(c, o, k) < c * (2 * c)
  {
    Arith.DigitsInside(o, k, c, 2 * c);
  }

  lemma AtOnce(c: nat, i: nat, k: nat, o: nat, m: nat)
    requires k < 2 * c && m < 2 * c
    ensures At(c, i, k) == At(c, o, m) <==> i == o && k == m
  {
    Arith.Digits(i, k, 2 * c);
    Arith.Digits(o, m, 2 * c);
  }
}
