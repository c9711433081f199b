/** Which wirings a pass tries, in the fields of the table's rows alone: what the passes ask and
    what the library's contracts come to, worked out for each kind of layer. */
module GraphRows {
  import Arith
  import opened Options
  import opened GraphLayers
  import opened GraphCubes
  import opened GraphPlan
  import opened GraphBinding
  import opened GraphWiring
  import opened GraphConcat
  import opened GraphRefusals
  import opened GraphDecide
  import opened GraphReach

  // ---- whole groups ----------------------------------------------------------------------

  /** The least multiple of g that is x or more. */
  function Up(x: nat, g: nat): (u: nat)
    requires 0 < g
    ensures u % g == 0 && x <= u < x + g
  {
    if x % g == 0 then x
    else
      assert (x + (g - x % g)) % g == 0 by { Multiple(x, g); }
      x + (g - x % g)
  }

  lemma Multiple(x: nat, g: nat)
    requires 0 < g
    ensures (x + (g - x % g)) % g == 0
  {
    Arith.Recompose(x, g);
    assert x + (g - x % g) == (x / g + 1) * g + 0;
    Arith.Digits(x / g + 1, 0, g);
  }

  /** A surface of whole 16-channel groups of x channels is one of whole 32-channel groups. */
  predicate FillsGroup(x: nat) { x % 32 == 0 || 16 < x % 32 }

  /** Where k groups hold x channels and k - 1 do not. */
  lemma InGroups(x: nat, g: nat, k: nat)
    requires 0 < g && g * k - g < x <= g * k
    ensures (x + g - 1) / g * g == Up(x, g) == g * k
  {
    var m, u := (x + g - 1) / g, Up(x, g);
    Arith.Recompose(x + g - 1, g);
    Arith.Recompose(u, g);
    SameGroup(m, k, g, x);
    SameGroup(u / g, k, g, x);
  }

  lemma SameGroup(m: int, k: int, g: nat, x: nat)
    requires 0 < g && g * k - g < x <= g * k && x <= m * g < x + g
    ensures m == k
  {
    if m < k { Arith.RowsApart(m, k, g); }
    if k < m { Arith.RowsApart(k, m, g); }
  }

  lemma Round16Is(x: nat)
    ensures Round4(x) == Up(x, 4) && Round16(x) == Up(x, 16)
    ensures Round16(x) == x <==> x % 16 == 0
  {
    UpIs(x, 4);
    UpIs(x, 16);
  }

  lemma UpIs(x: nat, g: nat)
    requires 0 < g
    ensures (x + g - 1) / g * g == Up(x, g) && (Up(x, g) == x <==> x % g == 0)
  {
    var q, r := x / g, x % g;
    Arith.Recompose(x, g);
    assert g * (q + 1) == q * g + g;
    if r == 0 { InGroups(x, g, q); } else { InGroups(x, g, q + 1); }
  }

  lemma Round32Is(x: nat)
    ensures Round32(x) == Up(x, 32) && Round16(x) <= Round32(x)
    ensures Round16(x) == Round32(x) <==> FillsGroup(x)
    ensures Round32(x) == x <==> x % 32 == 0
  {
    var q, r := x / 32, x % 32;
    InGroups(x, 32, q + if r == 0 then 0 else 1);
    InGroups(x, 16, 2 * q + if r == 0 then 0 else if r <= 16 then 1 else 2);
  }

  // ---- readers ---------------------------------------------------------------------------

  /** The layers on the part that name p as an operand. */
  ghost function ReaderSet(L: seq<Layer>, p: nat): set<nat> {
    set r: nat | r < |L| && Reads(L, r, p)
  }

  predicate Reads(L: seq<Layer>, r: nat, p: nat)
    requires r < |L|
  {
    p < r && L[r].kind != Host && p in L[r].src
  }

  /** A rising list is as long as its set is large. */
  lemma {:induction false} ListCount(s: seq<nat>, t: set<nat>)
    requires Increasing(s) && forall r: nat :: r in t <==> r in s
    ensures |s| == |t|
  {
    if s == [] {
      assert t == {};
    } else {
      var n := |s| - 1;
      var rest := s[..n];
      forall r: nat ensures r in t - {s[n]} <==> r in rest {
        if r in rest { var k :| 0 <= k < n && rest[k] == r; assert s[k] < s[n]; }
        if r in t && r != s[n] { var k :| 0 <= k <= n && s[k] == r; assert rest[k] == r; }
      }
      ListCount(rest, t - {s[n]});
    }
  }

  /** The list of readers and their set. */
  lemma ReadersAre(L: seq<Layer>, p: nat)
    ensures |Readers(L, p)| == |ReaderSet(L, p)| && (Readers(L, p) != [] <==> ReaderSet(L, p) != {})
    ensures forall r: nat :: r in ReaderSet(L, p) <==> Reader(L, r, p)
    ensures forall r: nat :: r in ReaderSet(L, p) <==> r in Readers(L, p)
  {
    ListCount(Readers(L, p), ReaderSet(L, p));
    if Readers(L, p) != [] { assert Readers(L, p)[0] in Readers(L, p); }
  }

  /** A layer that can read a cube: a pool, or a convolution whose input nothing else prepares. */
  predicate TakesCubes(l: Layer) {
    l.resident && (l.kind == AvgPool || l.kind == MaxPool
                   || ((l.kind == Conv || l.kind == DwConv) && !l.hostInput))
  }

  /** Every reader of p but `except` takes cubes, and there are no more than four in all. */
  ghost predicate FewTakers(L: seq<Layer>, p: nat, except: nat) {
    |ReaderSet(L, p)| <= 4 && forall r :: r in ReaderSet(L, p) && r != except ==> TakesCubes(L[r])
  }

  // ---- what a reader takes ---------------------------------------------------------------

  predicate Convolves(l: Layer) { l.kind == Conv || l.kind == Add }

  predicate ReadsPlane(r: Layer, h: nat, w: nat) {
    r.pack.ih == h && r.pack.iw == w
  }

  /** Reader r's arithmetic depends on the channels past its own. */
  predicate SumsTail(r: Layer) { !IsPool(r) && r.ic % 32 != 0 && r.wZp != 0 }

  /** Reader r takes what p leaves in a slice over an h by w plane. */
  predicate TakesSlice(r: Layer, p: Layer, h: nat, w: nat) {
    && r.ic == p.oc && ReadsPlane(r, h, w)
    && if IsPool(r) then p.oc % 16 == 0
       else !r.pack.image && (Convolves(p) || FillsGroup(p.oc))
            && (SumsTail(r) ==> Convolves(p) && p.outZp == r.pack.inZp)
  }

  lemma TakesSliceExactly(L: seq<Layer>, p: nat, d: Cube, r: Layer)
    requires p < |L| && d.base % 16 == 0 && 0 < L[p].oc
    requires !d.frame.pitched && d.frame.surf == d.frame.h * d.frame.w
    ensures AcceptsInput(r, CubeOf(L, p, Some(d))) <==> TakesSlice(r, L[p], d.frame.h, d.frame.w)
  {
    Round32Is(L[p].oc);
    Round16Is(L[p].oc);
  }

  /** Reader r takes the surface p owns. */
  predicate TakesOwn(r: Layer, p: Layer) {
    && r.ic == p.oc && ReadsPlane(r, p.oh, p.ow)
    && if IsPool(r) then p.oc % 16 == 0
       else !r.pack.image && p.pack.pitch == p.ow
            && (StatesTail(p) || FillsGroup(p.oc))
            && (SumsTail(r) ==> StatesTail(p) && p.outZp == r.pack.inZp)
  }

  /** A producer whose own surface holds a known value past its channels. */
  predicate StatesTail(p: Layer) { Convolves(p) || (p.kind == DwConv && p.oc % 16 == 0) }

  lemma TakesOwnExactly(L: seq<Layer>, p: nat, r: Layer)
    requires p < |L| && 0 < L[p].oc
    ensures AcceptsInput(r, CubeOf(L, p, None)) <==> TakesOwn(r, L[p])
  {
    Round32Is(L[p].oc);
    Round16Is(L[p].oc);
    Round16Is(L[p].oh * L[p].pack.pitch);
  }

  // ---- what a producer writes ------------------------------------------------------------

  /** Producer p writes a slice `room` channels deep of a packed h by w plane. */
  predicate WritesSlice(p: Layer, room: nat, h: nat, w: nat) {
    && !p.pack.split && p.oh == h && p.ow == w
    && if IsPool(p) then p.oc % 16 == 0
       else p.pack.pitch == w && (Convolves(p) || h * w % 4 == 0)
            && (if Convolves(p) then Up(p.oc, 32) else Up(p.oc, 16)) <= room
  }

  lemma WritesSliceExactly(p: Layer, d: Cube, chans: nat)
    requires d.base % 16 == 0 && d.frame == Frame(d.frame.h, d.frame.w, d.frame.h * d.frame.w, false)
    requires Up(p.oc, 16) <= d.depth
    ensures Describable(p) && AcceptsOutput(p, d, chans) <==>
      WritesSlice(p, d.depth, d.frame.h, d.frame.w)
      && d.base + (if Convolves(p) then Up(p.oc, 32) else Up(p.oc, 16)) <= chans
  {
    Round32Is(p.oc);
    Round16Is(p.oc);
    Round16Is(p.oh * p.pack.pitch);
  }

  // ---- an add ----------------------------------------------------------------------------

  /** The add's handle reads both operands, each on whole groups, and nothing past them. */
  predicate AddHandle(l: Layer) {
    && l.resident && l.ic == Up(l.oc, 16) + l.oc && ReadsPlane(l, l.oh, l.ow) && !l.pack.image
    && (l.wZp == 0 || l.oc % 16 == 0)
  }

  /** Layer p may be an operand of the wired add j. */
  ghost predicate OperandRule(L: seq<Layer>, K: Knobs, j: nat, p: nat)
    requires j < |L|
  {
    && p < |L| && K.nojoin != p && L[p].resident && !L[p].hostInput
    && WritesSlice(L[p], Up(L[j].oc, 16), L[j].oh, L[j].ow) && FewTakers(L, p, j)
    && forall r :: r in ReaderSet(L, p) && r != j ==> TakesSlice(L[r], L[p], L[j].oh, L[j].ow)
  }

  /** What it takes for add j to be wired. */
  ghost predicate AddRule(L: seq<Layer>, K: Knobs, j: nat)
    requires j < |L| && |L[j].src| == MAX_SRC
  {
    var a, b := L[j].src[0], L[j].src[1];
    && K.cat && a != NO_SRC && b != NO_SRC && (a == j - 1 || b == j - 1)
    && AddHandle(L[j]) && OperandRule(L, K, j, a) && OperandRule(L, K, j, b)
  }

  /** Two operands of x channels, on whole groups, fill a buffer of whole 32-channel groups. */
  lemma TwoHalves(x: nat)
    ensures Round32(Round16(x) + x) == 2 * Round16(x) == 2 * Up(x, 16)
    ensures FillsGroup(Round16(x) + x) && ((Round16(x) + x) % 32 == 0 <==> x % 16 == 0)
  {
    var k := x / 16 + if x % 16 == 0 then 0 else 1;
    InGroups(x, 16, k);
    InGroups(16 * k + x, 32, k);
    Halves(k, x);
  }

  lemma Halves(k: nat, x: nat)
    requires 16 * k - 16 < x <= 16 * k
    ensures var n := 16 * k + x; (n % 32 == 0 || 16 < n % 32) && (n % 32 == 0 <==> x % 16 == 0)
  {
    var d := 16 * k - x;
    if d == 0 { Arith.Digits(k, 0, 32); Arith.Digits(k, 0, 16); }
    else { Arith.Digits(k - 1, 32 - d, 32); Arith.Digits(k - 1, 16 - d, 16); }
  }

  lemma AddHandleExactly(L: seq<Layer>, j: nat)
    requires j < |L| && L[j].kind == Add && 0 < L[j].oc
    ensures L[j].resident && AcceptsInput(L[j], AddAll(L, j)) <==> AddHandle(L[j])
  {
    var oc := L[j].oc;
    TwoHalves(oc);
    Round16Is(oc);
    Round32Is(Round16(oc) + oc);
  }

  lemma AddSlices(L: seq<Layer>, j: nat, p: nat)
    requires j < |L| && p < |L| && L[p].oc == L[j].oc
    ensures Describable(L[p]) && AcceptsOutput(L[p], AddLo(L, j), AddBuffer(L[j]).chans)
            <==> WritesSlice(L[p], Up(L[j].oc, 16), L[j].oh, L[j].ow)
    ensures Describable(L[p]) && AcceptsOutput(L[p], AddHi(L, j), AddBuffer(L[j]).chans)
            <==> WritesSlice(L[p], Up(L[j].oc, 16), L[j].oh, L[j].ow)
  {
    var oc := L[j].oc;
    TwoHalves(oc);
    Round16Is(oc);
    WritesSliceExactly(L[p], AddLo(L, j), AddBuffer(L[j]).chans);
    WritesSliceExactly(L[p], AddHi(L, j), AddBuffer(L[j]).chans);
  }

  /** Every listed reader of p takes the slice exactly when every reader in the set does. */
  lemma ReadersTake(L: seq<Layer>, p: nat, d: Cube, except: nat)
    requires p < |L| && d.base % 16 == 0 && 0 < L[p].oc
    requires !d.frame.pitched && d.frame.surf == d.frame.h * d.frame.w
    ensures Indices(|L|, Readers(L, p))
    ensures (forall k :: 0 <= k < |Readers(L, p)| && Readers(L, p)[k] != except ==>
               AcceptsInput(L[Readers(L, p)[k]], CubeOf(L, p, Some(d))))
            <==> (forall r :: r in ReaderSet(L, p) && r != except ==>
                    TakesSlice(L[r], L[p], d.frame.h, d.frame.w))
  {
    var s := Readers(L, p);
    ReadersAre(L, p);
    ReadersIndexed(L, p);
    forall r: nat | r < |L|
      ensures AcceptsInput(L[r], CubeOf(L, p, Some(d))) <==> TakesSlice(L[r], L[p], d.frame.h, d.frame.w)
    {
      TakesSliceExactly(L, p, d, L[r]);
    }
    forall k | 0 <= k < |s| ensures s[k] in ReaderSet(L, p) { assert s[k] in s; }
  }

  lemma PlaceableExactly(L: seq<Layer>, p: nat, j: nat)
    requires p < |L|
    ensures Placeable(L, p, j) <==> L[p].resident && !L[p].hostInput && FewTakers(L, p, j)
  {
    ReadersAre(L, p);
  }

  /** The pass and everyone concerned say yes to operand p, given the low slice or the high. */
  ghost predicate OperandSays(L: seq<Layer>, K: Knobs, j: nat, p: nat, d: Cube)
    requires j < |L| && p < |L| && Indices(|L|, Readers(L, p))
  {
    && !ForcedBy(K, p) && Placeable(L, p, j)
    && Describable(L[p]) && AcceptsOutput(L[p], d, AddBuffer(L[j]).chans)
    && forall k :: 0 <= k < |Readers(L, p)| && Readers(L, p)[k] != j ==>
         AcceptsInput(L[Readers(L, p)[k]], CubeOf(L, p, Some(d)))
  }

  lemma OperandExactly(L: seq<Layer>, K: Knobs, j: nat, p: nat, d: Cube)
    requires j < |L| && p < |L| && L[p].oc == L[j].oc && 0 < L[p].oc && (d == AddLo(L, j) || d == AddHi(L, j))
    ensures Indices(|L|, Readers(L, p))
    ensures OperandSays(L, K, j, p, d) <==> OperandRule(L, K, j, p)
  {
    Round16Is(L[j].oc);
    AddSlices(L, j, p);
    PlaceableExactly(L, p, j);
    ReadersTake(L, p, d, j);
  }

  lemma AddRuleExactly(L: seq<Layer>, K: Knobs, j: nat)
    requires WellFormed(L) && j < |L| && L[j].kind == Add
    ensures |L[j].src| == MAX_SRC
    ensures K.cat && AddAsked(L, K, j) && AddTakes(L, j) <==> AddRule(L, K, j)
  {
    var a, b := Src(L, j, 0), Src(L, j, 1);
    assert RowOk(L, j);
    if a != NO_SRC && b != NO_SRC {
      assert RowOk(L, a) && RowOk(L, b);
      OperandExactly(L, K, j, a, FirstSlice(L, j, a, b));
      OperandExactly(L, K, j, a, AddLo(L, j));
      OperandExactly(L, K, j, b, AddHi(L, j));
      AddHandleExactly(L, j);
    }
  }

  // ---- which adds end up wired -----------------------------------------------------------

  /** Only its own step of the add pass binds an add. */
  lemma StepKeepsAdd(L: seq<Layer>, K: Knobs, generous: bool, pass: Pass, S: State, T: State, i: nat, j: nat)
    requires WellFormed(L) && Sized(L, S) && i < |L| && j < |L| && L[j].kind == Add
    requires Decides(L, K, generous, pass, S, T, i) && !(pass.Adds? && i == j)
    ensures Sized(L, T) && T.cubeIn[j] == S.cubeIn[j]
  {
    if T != S { LinkedAt(L, S, WiringFor(L, pass, i), j); }
  }

  lemma {:induction false} TraceKeepsAdd(L: seq<Layer>, K: Knobs, generous: bool, pass: Pass, t: seq<State>,
                                         n: nat, i: nat, k: nat, j: nat)
    requires WellFormed(L) && Trace(L, K, generous, pass, t, n) && i <= k <= n
    requires j < |L| && L[j].kind == Add && (pass.Adds? ==> j < i || k <= j)
    ensures Sized(L, t[i]) && Sized(L, t[k]) && t[k].cubeIn[j] == t[i].cubeIn[j]
    decreases k
  {
    TraceSized(L, K, generous, pass, t, n, i);
    if i < k {
      TraceKeepsAdd(L, K, generous, pass, t, n, i, k - 1, j);
      TraceStepKeeps(L, K, generous, pass, t, n, k - 1, j);
    }
  }

  lemma TraceStepKeeps(L: seq<Layer>, K: Knobs, generous: bool, pass: Pass, t: seq<State>, n: nat,
                       i: nat, j: nat)
    requires WellFormed(L) && Trace(L, K, generous, pass, t, n) && i < n
    requires j < |L| && L[j].kind == Add && !(pass.Adds? && i == j)
    ensures Sized(L, t[i]) && Sized(L, t[i + 1]) && t[i + 1].cubeIn[j] == t[i].cubeIn[j]
  {
    assert StepAt(L, K, generous, pass, t, i);
    StepKeepsAdd(L, K, generous, pass, t[i], t[i + 1], i, j);
  }

  lemma LaterKeepsAdd(L: seq<Layer>, K: Knobs, generous: bool, pass: Pass, S: State, T: State, j: nat)
    requires WellFormed(L) && Sized(L, S) && Ends(L, K, generous, pass, S, T) && pass != Adds
    requires j < |L| && L[j].kind == Add
    ensures Sized(L, T) && T.cubeIn[j] == S.cubeIn[j]
  {
    if Enabled(K, pass) {
      var t: seq<State> :| Trace(L, K, generous, pass, t, |L|) && t[0] == S && t[|L|] == T;
      TraceKeepsAdd(L, K, generous, pass, t, |L|, 0, |L|, j);
    }
  }

  lemma AddPassDecides(L: seq<Layer>, K: Knobs, generous: bool, T: State, j: nat)
    requires WellFormed(L) && Ends(L, K, generous, Adds, Unlinked(|L|), T)
    requires j < |L| && L[j].kind == Add
    ensures Sized(L, T) && |L[j].src| == MAX_SRC && (T.cubeIn[j] ==> AddRule(L, K, j))
    ensures generous && AddRule(L, K, j) ==> T.cubeIn[j]
  {
    AddRuleExactly(L, K, j);
    if K.cat {
      var t: seq<State> :| Trace(L, K, generous, Adds, t, |L|) && t[0] == Unlinked(|L|) && t[|L|] == T;
      TraceKeepsAdd(L, K, generous, Adds, t, |L|, 0, j, j);
      OwnStep(L, K, generous, t, j);
      TraceKeepsAdd(L, K, generous, Adds, t, |L|, j + 1, |L|, j);
    }
  }

  /** The step of the add pass that comes to add j. */
  lemma OwnStep(L: seq<Layer>, K: Knobs, generous: bool, t: seq<State>, j: nat)
    requires WellFormed(L) && Trace(L, K, generous, Adds, t, |L|) && j < |L| && L[j].kind == Add
    ensures Sized(L, t[j]) && Sized(L, t[j + 1])
    ensures t[j + 1].cubeIn[j] ==> t[j].cubeIn[j] || (AddAsked(L, K, j) && AddTakes(L, j))
    ensures generous && AddAsked(L, K, j) && AddTakes(L, j) ==> t[j + 1].cubeIn[j]
  {
    assert StepAt(L, K, generous, Adds, t, j);
    LinkedAt(L, t[j], AddWiring(L, j), j);
  }

  /** In every plan reached, an add is wired only by the rule, and by a library that refuses for
      no reason of its own exactly by it. */
  lemma AddWiredExactly(L: seq<Layer>, K: Knobs, generous: bool, T: State, j: nat)
    requires WellFormed(L) && Planned(L, K, generous, T) && j < |L| && L[j].kind == Add
    ensures Sized(L, T) && |L[j].src| == MAX_SRC && (T.cubeIn[j] ==> AddRule(L, K, j))
    ensures generous ==> (T.cubeIn[j] <==> AddRule(L, K, j))
  {
    var A: State, B: State, C: State, D: State :|
      && Sized(L, A) && Sized(L, B) && Sized(L, C) && Sized(L, D)
      && Ends(L, K, generous, Adds, Unlinked(|L|), A) && Ends(L, K, generous, Concats, A, B)
      && Ends(L, K, generous, Tails, B, C) && Ends(L, K, generous, Shares, C, D)
      && Ends(L, K, generous, Pairs, D, T);
    AddPassDecides(L, K, generous, A, j);
    LaterKeepsAdd(L, K, generous, Concats, A, B, j);
    LaterKeepsAdd(L, K, generous, Tails, B, C, j);
    LaterKeepsAdd(L, K, generous, Shares, C, D, j);
    LaterKeepsAdd(L, K, generous, Pairs, D, T, j);
  }

  /** The table with the add's two slots exchanged. */
  function Exchanged(L: seq<Layer>, j: nat): seq<Layer>
    requires j < |L| && |L[j].src| == MAX_SRC
  {
    var s := L[j].src;
    L[j := L[j].(src := [s[1], s[0], s[2], s[3]])]
  }

  lemma ExchangedReads(L: seq<Layer>, j: nat, p: nat)
    requires j < |L| && |L[j].src| == MAX_SRC
    ensures ReaderSet(Exchanged(L, j), p) == ReaderSet(L, p)
  {
    var s := L[j].src;
    assert p in [s[1], s[0], s[2], s[3]] <==> p in s;
    assert forall r: nat :: r < |L| ==> (Reads(Exchanged(L, j), r, p) <==> Reads(L, r, p));
  }

  lemma ExchangedRule(L: seq<Layer>, K: Knobs, j: nat)
    requires j < |L| && |L[j].src| == MAX_SRC && L[j].kind == Add
    requires forall p :: p in L[j].src && p != NO_SRC ==> p < j
    ensures AddRule(Exchanged(L, j), K, j) <==> AddRule(L, K, j)
  {
    var M, a, b := Exchanged(L, j), L[j].src[0], L[j].src[1];
    assert M[j].src[0] == b && M[j].src[1] == a && AddHandle(M[j]) == AddHandle(L[j]);
    assert a in L[j].src && b in L[j].src;
    if a != NO_SRC { ExchangedOperand(L, K, j, a); }
    if b != NO_SRC { ExchangedOperand(L, K, j, b); }
  }

  lemma ExchangedOperand(L: seq<Layer>, K: Knobs, j: nat, p: nat)
    requires j < |L| && |L[j].src| == MAX_SRC && p < j
    ensures OperandRule(Exchanged(L, j), K, j, p) <==> OperandRule(L, K, j, p)
  {
    var M := Exchanged(L, j);
    ExchangedReads(L, j, p);
    assert M[p] == L[p] && M[j].oc == L[j].oc && M[j].oh == L[j].oh && M[j].ow == L[j].ow;
    assert forall r: nat :: r < |L| && r != j ==> M[r] == L[r];
    assert FewTakers(M, p, j) <==> FewTakers(L, p, j);
  }

  lemma ExchangedWellFormed(L: seq<Layer>, j: nat)
    requires WellFormed(L) && j < |L| && L[j].kind == Add
    ensures |L[j].src| == MAX_SRC && WellFormed(Exchanged(L, j))
  {
    assert RowOk(L, j);
    var M := Exchanged(L, j);
    assert forall p :: p in M[j].src ==> p in L[j].src;
    forall i | 0 <= i < |M| ensures RowOk(M, i) { assert RowOk(L, i); }
  }

  /** Which operand comes first makes no difference to whether an add is wired. */
  lemma SlotsAreAlike(L: seq<Layer>, K: Knobs, j: nat, T: State, U: State)
    requires WellFormed(L) && j < |L| && L[j].kind == Add && |L[j].src| == MAX_SRC
    requires WellFormed(Exchanged(L, j))
    requires Planned(L, K, true, T) && Planned(Exchanged(L, j), K, true, U)
    ensures |T.cubeIn| == |U.cubeIn| == |L| && (T.cubeIn[j] <==> U.cubeIn[j])
  {
    assert RowOk(L, j);
    AddWiredExactly(L, K, true, T, j);
    AddWiredExactly(Exchanged(L, j), K, true, U, j);
    ExchangedRule(L, K, j);
  }

  /** An add no operand of which is the layer before it is never wired. */
  lemma FarAddIsNotWired(L: seq<Layer>, K: Knobs, generous: bool, T: State, j: nat)
    requires WellFormed(L) && Planned(L, K, generous, T) && j < |L| && L[j].kind == Add
    requires j - 1 !in L[j].src
    ensures Sized(L, T) && !T.cubeIn[j]
  {
    AddWiredExactly(L, K, generous, T, j);
    assert L[j].src[0] in L[j].src && L[j].src[1] in L[j].src;
  }

  /** A layer on whole groups of 32 channels over one packed plane, in and out, whose weight zero
      point is zero. */
  predicate Plain(l: Layer, oc: nat, h: nat, w: nat) {
    && l.resident && !l.hostInput && l.oc == oc && oc % 32 == 0 && l.oh == h && l.ow == w && l.wZp == 0
    && l.pack.ih == h && l.pack.iw == w && l.pack.pitch == w && !l.pack.image && !l.pack.split
  }

  /** A residual add of two such convolutions nothing else reads, one of them just before it, is
      wired, whichever slot that one is in. */
  lemma PlainAddIsWired(L: seq<Layer>, K: Knobs, T: State, j: nat)
    requires WellFormed(L) && Planned(L, K, true, T) && j < |L| && L[j].kind == Add && K.cat
    requires |L[j].src| == MAX_SRC && L[j].src[0] < j && L[j].src[1] < j && j - 1 in L[j].src[..2]
    requires Plain(L[j], L[j].oc, L[j].oh, L[j].ow) && L[j].ic == 2 * L[j].oc
    requires forall p :: p in L[j].src[..2] ==>
      && K.nojoin != p && L[p].kind == Conv && Plain(L[p], L[j].oc, L[j].oh, L[j].ow)
      && ReaderSet(L, p) == {j}
    ensures Sized(L, T) && T.cubeIn[j]
  {
    var a, b := L[j].src[0], L[j].src[1];
    assert L[j].src[..2] == [a, b];
    assert a in [a, b] && b in [a, b];
    PlainOperand(L, K, j, a);
    PlainOperand(L, K, j, b);
    assert AddRule(L, K, j);
    AddWiredExactly(L, K, true, T, j);
  }

  lemma PlainOperand(L: seq<Layer>, K: Knobs, j: nat, p: nat)
    requires j < |L| && p < |L| && K.nojoin != p && L[p].kind == Conv
    requires Plain(L[p], L[j].oc, L[j].oh, L[j].ow) && ReaderSet(L, p) == {j}
    ensures OperandRule(L, K, j, p) && Up(L[j].oc, 16) == L[j].oc
  {
    Round32Is(L[j].oc);
    Round16Is(L[j].oc);
  }

  // ---- one producer and its readers --------------------------------------------------------

  /** A reader that depends on its tail may be kept out for all producers but one. */
  predicate PadAllowed(K: Knobs, r: Layer, p: nat) {
    r.ic % 32 == 0 || r.wZp == 0 || K.padjoin == -2 || K.padjoin == p
  }

  /** Layer p has one to four readers, all of which take cubes and are let. */
  ghost predicate WholeRule(L: seq<Layer>, K: Knobs, p: nat) {
    && 1 <= |ReaderSet(L, p)| <= 4
    && forall r :: r in ReaderSet(L, p) ==> TakesCubes(L[r]) && PadAllowed(K, L[r], p)
  }

  lemma WholeExactly(L: seq<Layer>, K: Knobs, p: nat)
    ensures WholeAsked(L, K, Unlinked(|L|), p) <==> WholeRule(L, K, p)
  {
    ReadersAre(L, p);
  }

  /** What the shared-surface pass wires first: a producer some reader of which is not the next
      layer, whose every reader takes the surface it owns. */
  ghost predicate ShareRule(L: seq<Layer>, K: Knobs, i: nat)
    requires i < |L|
  {
    && K.multi && K.nojoin != i && L[i].resident && !L[i].pack.split && (IsPool(L[i]) ==> L[i].oc % 16 == 0)
    && WholeRule(L, K, i) && !(ReaderSet(L, i) <= {i + 1})
    && forall r :: r in ReaderSet(L, i) ==> TakesOwn(L[r], L[i])
  }

  lemma ShareExactly(L: seq<Layer>, K: Knobs, i: nat)
    requires WellFormed(L) && i < |L|
    ensures Tried(L, K, Shares, i) <==> ShareRule(L, K, i)
  {
    assert RowOk(L, i);
    ReadersAre(L, i);
    WholeExactly(L, K, i);
    forall r: nat | r < |L| ensures AcceptsInput(L[r], CubeOf(L, i, None)) <==> TakesOwn(L[r], L[i]) {
      TakesOwnExactly(L, i, L[r]);
    }
  }

  /** What the tail pass wires first: a pool on half a group of 32 over a packed plane, all of
      whose readers depend on their tails and would find its zero point there. */
  ghost predicate TailRule(L: seq<Layer>, K: Knobs, i: nat)
    requires i < |L|
  {
    var p := L[i];
    && K.tail && K.nojoin != i && p.resident && IsPool(p) && !p.pack.split
    && p.oc % 32 == 16 && Up(p.oh * p.pack.pitch, 4) == p.oh * p.ow && WholeRule(L, K, i)
    && forall r :: r in ReaderSet(L, i) ==>
         && SumsTail(L[r]) && L[r].ic == p.oc && ReadsPlane(L[r], p.oh, p.ow) && !L[r].pack.image
         && L[r].pack.inZp == p.outZp
  }

  lemma TailViewExactly(L: seq<Layer>, i: nat, r: Layer)
    requires i < |L| && 0 < L[i].oc && L[i].oc % 32 == 16 && SumsTail(r)
    ensures AcceptsInput(r, TailView(L, i)) <==>
      r.ic == L[i].oc && ReadsPlane(r, L[i].oh, L[i].ow) && !r.pack.image && r.pack.inZp == L[i].outZp
  {
    Round32Is(L[i].oc);
  }

  lemma TailSelfExactly(L: seq<Layer>, i: nat)
    requires i < |L| && RowOk(L, i) && L[i].resident && L[i].oc % 32 == 16
    ensures var p := L[i];
      Describable(p) && CubeOf(L, i, None).padFrom == 0 && CubeOf(L, i, None).frame.surf == PlaneSize(p)
      && AcceptsOutput(p, TailSlice(L, i), TailBuffer(p).chans)
      <==> IsPool(p) && !p.pack.split && Up(p.oh * p.pack.pitch, 4) == p.oh * p.ow
  {
    if IsPool(L[i]) { PoolTail(L, i); } else { assert CubeOf(L, i, None).padFrom == L[i].oc; }
  }

  lemma PoolTail(L: seq<Layer>, i: nat)
    requires i < |L| && 0 < L[i].oc && IsPool(L[i]) && L[i].oc % 32 == 16
    ensures CubeOf(L, i, None).padFrom == 0 && CubeOf(L, i, None).frame.surf == Up(L[i].oh * L[i].pack.pitch, 4)
    ensures AcceptsOutput(L[i], TailSlice(L, i), TailBuffer(L[i]).chans) <==> !L[i].pack.split
  {
    Round16Is(L[i].oh * L[i].pack.pitch);
    PoolSlice(L, i);
  }

  lemma PoolSlice(L: seq<Layer>, i: nat)
    requires i < |L| && 0 < L[i].oc && IsPool(L[i]) && L[i].oc % 32 == 16
    ensures AcceptsOutput(L[i], TailSlice(L, i), TailBuffer(L[i]).chans) <==> !L[i].pack.split
  {
    HalfGroupRounds(L[i].oc, L[i].oc / 32);
  }

  lemma HalfGroupRounds(oc: nat, q: nat)
    requires oc == 32 * q + 16
    ensures oc % 16 == 0 && Round16(oc) == oc && Round32(oc) == oc + 16
  {
    Arith.Digits(2 * q + 1, 0, 16);
    Round16Is(oc);
    Round32Is(oc);
    InGroups(oc, 32, q + 1);
  }

  lemma HalfGroup(oc: nat)
    ensures oc % 16 == 0 && oc % 32 != 0 <==> oc % 32 == 16
  {
    var q, r := oc / 32, oc % 32;
    if r < 16 { Arith.Digits(2 * q, r, 16); } else { Arith.Digits(2 * q + 1, r - 16, 16); }
  }

  /** The pass and the producer itself say yes, and every reader would. */
  lemma TailAsks(L: seq<Layer>, K: Knobs, i: nat)
    requires WellFormed(L) && i < |L|
    ensures Tried(L, K, Tails, i) <==>
      && K.tail && K.nojoin != i && L[i].resident && L[i].oc % 32 == 16 && WholeAsked(L, K, Unlinked(|L|), i)
      && (Describable(L[i]) && CubeOf(L, i, None).padFrom == 0 && CubeOf(L, i, None).frame.surf == PlaneSize(L[i])
          && AcceptsOutput(L[i], TailSlice(L, i), TailBuffer(L[i]).chans))
      && forall r: nat :: Reader(L, r, i) ==> SumsTail(L[r]) && AcceptsInput(L[r], TailView(L, i))
  {
    HalfGroup(L[i].oc);
  }

  lemma TailExactly(L: seq<Layer>, K: Knobs, i: nat)
    requires WellFormed(L) && i < |L|
    ensures Tried(L, K, Tails, i) <==> TailRule(L, K, i)
  {
    var p := L[i];
    assert RowOk(L, i);
    TailAsks(L, K, i);
    if p.resident && p.oc % 32 == 16 {
      ReadersAre(L, i);
      WholeExactly(L, K, i);
      TailSelfExactly(L, i);
      forall r: nat | r < |L| && SumsTail(L[r])
        ensures AcceptsInput(L[r], TailView(L, i)) <==>
          L[r].ic == p.oc && ReadsPlane(L[r], p.oh, p.ow) && !L[r].pack.image && L[r].pack.inZp == p.outZp
      {
        TailViewExactly(L, i, L[r]);
      }
    }
  }

  /** What the pair loop wires first: a producer whose only reader is the layer after it, which
      takes the surface it owns. */
  ghost predicate PairRule(L: seq<Layer>, K: Knobs, i: nat)
    requires i < |L|
  {
    && K.nojoin != i && L[i].resident && !L[i].pack.split && (IsPool(L[i]) ==> L[i].oc % 16 == 0)
    && ReaderSet(L, i) == {i + 1}
    && TakesCubes(L[i + 1]) && PadAllowed(K, L[i + 1], i) && TakesOwn(L[i + 1], L[i])
  }

  lemma PairExactly(L: seq<Layer>, K: Knobs, i: nat)
    requires WellFormed(L) && i < |L|
    ensures Tried(L, K, Pairs, i) <==> PairRule(L, K, i)
  {
    assert RowOk(L, i);
    ReadersAre(L, i);
    var n := NextLayer(L, i);
    if n < |L| { TakesOwnExactly(L, i, L[n]); }
    if Tried(L, K, Pairs, i) {
      assert n == i + 1;
    }
    if PairRule(L, K, i) {
      assert i + 1 in ReaderSet(L, i);
      assert n == i + 1;
    }
  }

  // ---- a concatenation -------------------------------------------------------------------

  /** Reader r takes the whole of what concatenation c leaves, whose tail holds its zero point. */
  predicate TakesView(r: Layer, c: Layer) {
    && r.ic == c.oc && ReadsPlane(r, c.oh, c.ow)
    && if IsPool(r) then c.oc % 16 == 0
       else !r.pack.image && (SumsTail(r) ==> c.outZp == r.pack.inZp)
  }

  lemma TakesViewExactly(L: seq<Layer>, j: nat, s: seq<nat>, r: Layer)
    requires j < |L| && InTable(L, s) && s != [] && 0 < L[j].oc
    ensures AcceptsInput(r, ConcatView(L, j, s)) <==> TakesView(r, L[j])
  {
    Round32Is(L[j].oc);
    Round16Is(ConcatBuffer(L, j, s).chans);
  }

  /** Operand k and its other readers would take their part. */
  ghost predicate PartTaken(L: seq<Layer>, j: nat, s: seq<nat>, k: nat)
    requires j < |L| && InTable(L, s) && k < |s|
  {
    var p := L[s[k]];
    && WritesSlice(p, Up(p.oc, 32), L[j].oh, L[j].ow)
    && forall r :: r in ReaderSet(L, s[k]) && r != j ==> TakesSlice(L[r], p, L[j].oh, L[j].ow)
  }

  /** Operand k of concatenation j: its slice starts a group, its zero point is the whole's, and
      where its program writes on into the next operand's channels that is allowed. */
  ghost predicate PartRule(L: seq<Layer>, K: Knobs, j: nat, s: seq<nat>, k: nat)
    requires j < |L| && InTable(L, s) && k < |s|
  {
    var p := L[s[k]];
    && K.nojoin != s[k] && p.resident && !p.hostInput && p.outZp == L[j].outZp
    && ConcatOff(L, s, k) % 16 == 0 && (k + 1 < |s| && p.oc % 32 != 0 ==> K.overlap)
    && FewTakers(L, s[k], j)
  }

  /** What the concatenation pass wires first. */
  ghost predicate ConcatRule(L: seq<Layer>, K: Knobs, j: nat)
    requires WellFormed(L) && j < |L|
  {
    var s := Opers(L, j);
    && K.catn && L[j].kind == Concat && K.nojoin != j && !L[j].rowMajorOut
    && s != [] && Increasing(s) && ConcatOff(L, s, |s|) == L[j].oc
    && (forall k :: 0 <= k < |s| ==> PartRule(L, K, j, s, k) && PartTaken(L, j, s, k))
    && WholeRule(L, K, j) && forall r :: r in ReaderSet(L, j) ==> TakesView(L[r], L[j])
  }

  /** Operand k's slice holds what its program writes, and lies inside the buffer. */
  lemma PartWrites(L: seq<Layer>, j: nat, s: seq<nat>, k: nat)
    requires WellFormed(L) && j < |L| && InTable(L, s) && k < |s|
    requires forall i :: 0 <= i < |s| ==> ConcatOff(L, s, i) % 16 == 0
    ensures OperandTaken(L, j, s, k) <==> WritesSlice(L[s[k]], Up(L[s[k]].oc, 32), L[j].oh, L[j].ow)
  {
    assert forall i :: 0 <= i < |s| ==> RowOk(L, s[i]);
    Round32Is(L[s[k]].oc);
    Round16Is(L[s[k]].oc);
    WriteEndsFit(L, s, k);
    WritesSliceExactly(L[s[k]], ConcatSlice(L, j, s, k), ConcatBuffer(L, j, s).chans);
  }

  lemma PartExactly(L: seq<Layer>, j: nat, s: seq<nat>, k: nat)
    requires WellFormed(L) && j < |L| && InTable(L, s) && k < |s|
    requires forall i :: 0 <= i < |s| ==> ConcatOff(L, s, i) % 16 == 0
    ensures Indices(|L|, Readers(L, s[k]))
    ensures PartTaken(L, j, s, k) <==>
      (OperandTaken(L, j, s, k)
       && forall q :: 0 <= q < |Readers(L, s[k])| && Readers(L, s[k])[q] != j ==>
            AcceptsInput(L[Readers(L, s[k])[q]], OperandCube(L, j, s, k)))
  {
    assert RowOk(L, s[k]);
    PartWrites(L, j, s, k);
    ReadersTake(L, s[k], ConcatSlice(L, j, s, k), j);
  }

  lemma ViewTaken(L: seq<Layer>, j: nat, s: seq<nat>)
    requires j < |L| && InTable(L, s) && s != [] && 0 < L[j].oc
    ensures Indices(|L|, Readers(L, j))
    ensures (forall q :: 0 <= q < |Readers(L, j)| ==> AcceptsInput(L[Readers(L, j)[q]], ConcatView(L, j, s)))
            <==> forall r :: r in ReaderSet(L, j) ==> TakesView(L[r], L[j])
  {
    var rs := Readers(L, j);
    ReadersAre(L, j);
    ReadersIndexed(L, j);
    forall r: nat | r < |L| ensures AcceptsInput(L[r], ConcatView(L, j, s)) <==> TakesView(L[r], L[j]) {
      TakesViewExactly(L, j, s, L[r]);
    }
    forall k | 0 <= k < |rs| ensures rs[k] in ReaderSet(L, j) { assert rs[k] in rs; }
  }

  /** Everyone a concatenation needs agrees exactly when each part and each reader does. */
  lemma ConcatTakesExactly(L: seq<Layer>, j: nat)
    requires WellFormed(L) && j < |L| && L[j].kind == Concat && Opers(L, j) != []
    requires forall i :: 0 <= i < |Opers(L, j)| ==> ConcatOff(L, Opers(L, j), i) % 16 == 0
    ensures ConcatTakes(L, j) <==>
      && (forall k :: 0 <= k < |Opers(L, j)| ==> PartTaken(L, j, Opers(L, j), k))
      && forall r :: r in ReaderSet(L, j) ==> TakesView(L[r], L[j])
  {
    var s := Opers(L, j);
    var lists := seq(|s|, k requires 0 <= k < |s| => Readers(L, s[k]));
    assert RowOk(L, j);
    ViewTaken(L, j, s);
    forall k | 0 <= k < |s| ensures Indices(|L|, lists[k]) { PartExactly(L, j, s, k); }
    assert AreReaders(L, j, s, lists);
    assert forall rds: seq<seq<nat>> :: AreReaders(L, j, s, rds) ==> rds == lists;
    assert ConcatTakes(L, j) <==> ConcatTaken(L, j, s, lists, Readers(L, j));
    TakenByPart(L, j, s, lists);
  }

  lemma TakenByPart(L: seq<Layer>, j: nat, s: seq<nat>, lists: seq<seq<nat>>)
    requires WellFormed(L) && j < |L| && InTable(L, s) && s != [] && AreReaders(L, j, s, lists)
    requires forall i :: 0 <= i < |s| ==> ConcatOff(L, s, i) % 16 == 0
    ensures ConcatTaken(L, j, s, lists, Readers(L, j)) <==>
      && (forall k :: 0 <= k < |s| ==> PartTaken(L, j, s, k))
      && (forall q :: 0 <= q < |Readers(L, j)| ==> AcceptsInput(L[Readers(L, j)[q]], ConcatView(L, j, s)))
  {
    forall k | 0 <= k < |s|
      ensures PartTaken(L, j, s, k) <==>
        (OperandTaken(L, j, s, k)
         && forall q :: 0 <= q < |lists[k]| && lists[k][q] != j ==>
              AcceptsInput(L[lists[k][q]], OperandCube(L, j, s, k)))
    {
      PartExactly(L, j, s, k);
    }
  }

  lemma PartAsked(L: seq<Layer>, K: Knobs, j: nat, s: seq<nat>, k: nat)
    requires WellFormed(L) && j < |L| && InTable(L, s) && k < |s|
    ensures OperandAsked(L, K, Unlinked(|L|), j, s, k) && FewFree(L, Unlinked(|L|), s[k], j)
            <==> PartRule(L, K, j, s, k)
  {
    ReadersAre(L, s[k]);
  }

  lemma ConcatAskedExactly(L: seq<Layer>, K: Knobs, j: nat)
    requires WellFormed(L) && j < |L|
    ensures var s := Opers(L, j);
      ConcatAsked(L, K, Unlinked(|L|), j) <==>
      (K.nojoin != j && !L[j].rowMajorOut && s != [] && Increasing(s) && ConcatOff(L, s, |s|) == L[j].oc
       && (forall k :: 0 <= k < |s| ==> PartRule(L, K, j, s, k)) && WholeRule(L, K, j))
  {
    var s := Opers(L, j);
    WholeExactly(L, K, j);
    forall k | 0 <= k < |s|
      ensures OperandAsked(L, K, Unlinked(|L|), j, s, k) && FewFree(L, Unlinked(|L|), s[k], j)
              <==> PartRule(L, K, j, s, k)
    {
      PartAsked(L, K, j, s, k);
    }
  }

  lemma ConcatExactly(L: seq<Layer>, K: Knobs, j: nat)
    requires WellFormed(L) && j < |L|
    ensures Tried(L, K, Concats, j) <==> ConcatRule(L, K, j)
  {
    var s := Opers(L, j);
    ConcatAskedExactly(L, K, j);
    if L[j].kind == Concat && s != [] && (forall k :: 0 <= k < |s| ==> PartRule(L, K, j, s, k)) {
      forall k | 0 <= k < |s| ensures ConcatOff(L, s, k) % 16 == 0 { assert PartRule(L, K, j, s, k); }
      ConcatTakesExactly(L, j);
    }
  }

  // ---- every plan reached ----------------------------------------------------------------

  lemma AddExactly(L: seq<Layer>, K: Knobs, j: nat)
    requires WellFormed(L) && j < |L|
    ensures |L[j].src| == MAX_SRC
    ensures Tried(L, K, Adds, j) <==> L[j].kind == Add && AddRule(L, K, j)
  {
    assert RowOk(L, j);
    if L[j].kind == Add { AddRuleExactly(L, K, j); }
  }

  /** Layer p leaves a cube for one of the five reasons the rules give. */
  ghost predicate LeavesBy(L: seq<Layer>, K: Knobs, p: nat)
    requires WellFormed(L) && p < |L|
  {
    || (exists j: nat :: j < |L| && L[j].kind == Add && |L[j].src| == MAX_SRC && AddRule(L, K, j)
          && (p == L[j].src[0] || p == L[j].src[1]))
    || (exists j: nat :: j < |L| && ConcatRule(L, K, j) && (p == j || p in Opers(L, j)))
    || TailRule(L, K, p) || ShareRule(L, K, p) || PairRule(L, K, p)
  }

  /** In every plan the passes can reach, whatever the library refused, a layer leaves a cube only
      by one of the rules. */
  lemma LeavesByRule(L: seq<Layer>, K: Knobs, T: State, p: nat)
    requires WellFormed(L) && TwinsIdle(L, K, false) && Planned(L, K, false, T) && p < |L|
    ensures Sized(L, T) && (T.cubeOut[p] ==> LeavesBy(L, K, p))
  {
    PlannedReached(L, K, T);
    if T.cubeOut[p] {
      assert MayLeave(L, K, p);
      var pass: Pass, j: nat :| Tried(L, K, pass, j) && p in WiringFor(L, pass, j).out;
      TriedLeaves(L, K, pass, j, p);
    }
  }

  lemma TriedLeaves(L: seq<Layer>, K: Knobs, pass: Pass, j: nat, p: nat)
    requires WellFormed(L) && Tried(L, K, pass, j) && p < |L| && p in WiringFor(L, pass, j).out
    ensures LeavesBy(L, K, p)
  {
    match pass
    case Adds => AddExactly(L, K, j);
    case Concats => ConcatExactly(L, K, j);
    case Tails => TailExactly(L, K, j);
    case Shares => ShareExactly(L, K, j);
    case Pairs => PairExactly(L, K, j);
  }

  /** And a willing library leaves no pair unlinked whose rule holds, nor the first concatenation
      of a table without adds. */
  lemma PairIsWired(L: seq<Layer>, K: Knobs, T: State, i: nat)
    requires WellFormed(L) && Planned(L, K, true, T) && i < |L| && PairRule(L, K, i)
    ensures Sized(L, T) && T.cubeOut[i]
  {
    PairExactly(L, K, i);
    PlannedPair(L, K, T, i);
  }

  lemma FirstConcatIsWired(L: seq<Layer>, K: Knobs, T: State, j: nat)
    requires WellFormed(L) && Planned(L, K, true, T) && j < |L| && ConcatRule(L, K, j)
    requires forall i :: 0 <= i < |L| ==> L[i].kind != Add
    requires forall i :: 0 <= i < j ==> L[i].kind != Concat
    ensures Sized(L, T) && T.cubeOut[j] && forall p :: p in Opers(L, j) ==> T.cubeOut[p]
  {
    var s := Opers(L, j);
    ConcatExactly(L, K, j);
    PlannedConcat(L, K, T, j);
    LinkedAt(L, Unlinked(|L|), ConcatWiring(L, j), j);
    forall p | p in s ensures T.cubeOut[p] {
      var k :| 0 <= k < |s| && s[k] == p;
      LinkedAt(L, Unlinked(|L|), ConcatWiring(L, j), p);
    }
  }

  // ---- how deep the buffers are ------------------------------------------------------------

  /** An add's buffer holds its two operands' whole groups and a tail's its producer's, and no
      more. */
  lemma BuffersAreTight(L: seq<Layer>, j: nat)
    requires j < |L|
    ensures AddBuffer(L[j]).chans == 2 * Up(L[j].oc, 16) && TailBuffer(L[j]).chans == Up(L[j].oc, 32)
  {
    TwoHalves(L[j].oc);
    Round32Is(L[j].oc);
  }

  /** A concatenation's is the least that holds the channels its readers walk and every program
      that writes into it. */
  lemma ConcatBufferIsTight(L: seq<Layer>, j: nat, s: seq<nat>, n: nat)
    requires WellFormed(L) && j < |L| && InTable(L, s) && s != []
    requires forall i :: 0 <= i < |s| ==> ConcatOff(L, s, i) % 16 == 0
    ensures ConcatBuffer(L, j, s).chans <= n <==>
      (Up(L[j].oc, 32) <= n && forall k :: 0 <= k < |s| ==> ConcatOff(L, s, k) + Up(L[s[k]].oc, 32) <= n)
  {
    Round32Is(L[j].oc);
    forall k | 0 <= k < |s| ensures ConcatOff(L, s, k) + Up(L[s[k]].oc, 32) <= ConcatEnd(L, s) {
      PartEnds(L, s, k);
    }
    PartEnds(L, s, |s| - 1);
  }

  lemma PartEnds(L: seq<Layer>, s: seq<nat>, k: nat)
    requires WellFormed(L) && InTable(L, s) && k < |s|
    requires forall i :: 0 <= i < |s| ==> ConcatOff(L, s, i) % 16 == 0
    ensures ConcatOff(L, s, k) + Up(L[s[k]].oc, 32) <= ConcatEnd(L, s)
    ensures k == |s| - 1 ==> ConcatOff(L, s, k) + Up(L[s[k]].oc, 32) == ConcatEnd(L, s)
  {
    assert forall i :: 0 <= i < |s| ==> RowOk(L, s[i]);
    Round32Is(L[s[k]].oc);
    WriteEndsFit(L, s, k);
  }

  // ---- why a pair is refused ---------------------------------------------------------------

  /** What each reason says of a pair, i and the layer n after it in execution order. */
  lemma ReasonsMean(L: seq<Layer>, K: Knobs, i: nat, n: nat)
    requires WellFormed(L) && i < |L| && n == NextLayer(L, i) && n < |L| && Reader(L, n, i)
    ensures var why := Verdict(L, K, i, n);
      var open := K.nojoin != i && L[i].resident;
      var taker := open && TakesCubes(L[n]);
      var alone := taker && ReaderSet(L, i) == {i + 1};
      var let := alone && PadAllowed(K, L[n], i);
      var cube := !L[i].pack.split && (IsPool(L[i]) ==> L[i].oc % 16 == 0);
      && (why == Some(NoJoin.Forced) <==> K.nojoin == i)
      && (why == Some(AddConsumer) <==> open && L[n].kind == Add)
      && (why == Some(FeedsSkip) <==> taker && !alone)
      && (why == Some(Surface) <==> let && !cube)
      && (why == Some(IcAlign) <==>
            alone && (!let || (cube && !TakesOwn(L[n], L[i]) && L[n].ic % 32 != 0)))
      && (why == Some(Other) <==>
            (K.nojoin != i && !L[i].resident) || (open && L[n].kind != Add && !taker)
            || (let && cube && !TakesOwn(L[n], L[i]) && L[n].ic % 32 == 0))
      && (why == None <==> let && cube && TakesOwn(L[n], L[i]))
  {
    assert RowOk(L, i);
    ReadersAre(L, i);
    assert n in ReaderSet(L, i);
    TakesOwnExactly(L, i, L[n]);
    OnlyNext(L, i, n);
  }

  lemma OnlyNext(L: seq<Layer>, i: nat, n: nat)
    requires i < |L| && n == NextLayer(L, i) && n < |L| && Reader(L, n, i)
    ensures SkipSource(L, i) <==> ReaderSet(L, i) != {i + 1}
  {
    ReadersAre(L, i);
    assert n in ReaderSet(L, i);
    if !SkipSource(L, i) {
      OnlyReader(L, i, n);
      assert forall r: nat :: r in ReaderSet(L, i) <==> r == i + 1;
    }
  }
}
