/** Where outputs live: no program writes over the live channels of an output it shares a
    buffer with, and over padding only where the next operand of a concatenation belongs. */
module GraphHomes {
  import opened Options
  import opened GraphLayers
  import opened GraphCubes
  import opened GraphPlan
  import opened GraphRun

  /** A layer whose output readers take from its home. */
  predicate Kept(L: seq<Layer>, S: State, p: nat)
    requires Sized(L, S)
  {
    p < |L| && S.cubeOut[p]
  }

  /** Every convolution or pool bound to layer p reads p's channels from p's home. */
  lemma ReaderCubeHome(L: seq<Layer>, S: State, p: nat)
    requires Sound(L, S) && Kept(L, S, p)
    ensures var c := ReaderCube(L, S, p);
      c.store == HomeStore(L, S, p) && c.base == HomeBase(L, S, p) && c.live == L[p].oc
  {
    assert OutOk(L, S, p);
  }

  // ---- who shares a buffer -----------------------------------------------------------

  /** The two producers of one wired add. */
  ghost predicate AddPair(L: seq<Layer>, S: State, j: nat, p: nat, q: nat)
    requires WellFormed(L) && Sized(L, S)
  {
    && j < |L| && L[j].kind == Add && p < |L| && q < |L|
    && ((S.handles[p].dest == Some(AddLo(L, j)) && S.handles[q].dest == Some(AddHi(L, j)))
        || (S.handles[p].dest == Some(AddHi(L, j)) && S.handles[q].dest == Some(AddLo(L, j))))
    && AcceptsOutput(L[p], S.handles[p].dest.value, AddBuffer(L[j]).chans)
    && AcceptsOutput(L[q], S.handles[q].dest.value, AddBuffer(L[j]).chans)
    && L[p].oc == L[q].oc == L[j].oc
  }

  /** Operands k and m of one placed concatenation, at their offsets. */
  ghost predicate Siblings(L: seq<Layer>, S: State, j: nat, k: nat, m: nat, p: nat, q: nat)
    requires WellFormed(L) && Sized(L, S)
  {
    && j < |L| && Placement(L, S, j) && Increasing(Opers(L, j))
    && k < m < |Opers(L, j)| && Opers(L, j)[k] == p && Opers(L, j)[m] == q
    && p < |L| && q < |L|
    && HomeBase(L, S, p) == ConcatOff(L, Opers(L, j), k)
    && HomeBase(L, S, q) == ConcatOff(L, Opers(L, j), m)
  }

  lemma PlacedInAdd(L: seq<Layer>, S: State, j: nat, p: nat)
    requires Sound(L, S) && j < |L| && L[j].kind == Add && p < |L| && HasProgram(L[p])
    requires HomeStore(L, S, p) == Buf(j)
    ensures S.cubeIn[j] && AddWired(L, S, j)
    ensures (Src(L, j, 0) == p && S.handles[p].dest == Some(AddLo(L, j)))
            || (Src(L, j, 1) == p && S.handles[p].dest == Some(AddHi(L, j)))
    ensures AcceptsOutput(L[p], S.handles[p].dest.value, AddBuffer(L[j]).chans)
    ensures L[p].oc == L[j].oc
  {
    assert OutOk(L, S, p) && RowOk(L, j);
    assert DestOk(L, S, p) && PlacedFor(L, S, p, j, S.handles[p].dest.value);
    assert InOk(L, S, j) && BufOk(L, S, j);
  }

  lemma PlacedInConcat(L: seq<Layer>, S: State, j: nat, p: nat) returns (k: nat)
    requires Sound(L, S) && j < |L| && L[j].kind == Concat && p < |L| && HasProgram(L[p])
    requires HomeStore(L, S, p) == Buf(j)
    ensures Placement(L, S, j) && Increasing(Opers(L, j))
    ensures k < |Opers(L, j)| && Opers(L, j)[k] == p && L[p].outZp == L[j].outZp
    ensures HomeBase(L, S, p) == ConcatOff(L, Opers(L, j), k)
    ensures ConcatOff(L, Opers(L, j), |Opers(L, j)|) == L[j].oc
  {
    assert OutOk(L, S, p);
    assert DestOk(L, S, p) && PlacedFor(L, S, p, j, S.handles[p].dest.value);
    k :| 0 <= k < |Opers(L, j)| && Opers(L, j)[k] == p
         && S.handles[p].dest == Some(ConcatSlice(L, j, Opers(L, j), k));
    assert OutOk(L, S, j);
  }

  lemma PlacedAlone(L: seq<Layer>, S: State, j: nat, p: nat)
    requires Sound(L, S) && j < |L| && L[j].kind != Add && L[j].kind != Concat
    requires p < |L| && HasProgram(L[p]) && HomeStore(L, S, p) == Buf(j)
    ensures p == j && S.handles[p].dest == Some(TailSlice(L, p)) && L[p].oc % 16 == 0 && IsPool(L[p])
  {
    assert OutOk(L, S, p);
    assert DestOk(L, S, p) && PlacedFor(L, S, p, j, S.handles[p].dest.value);
  }

  lemma HomeInTable(L: seq<Layer>, S: State, p: nat) returns (j: nat)
    requires Sound(L, S) && p < |L| && HasProgram(L[p]) && S.handles[p].dest.Some?
    ensures j < |L| && HomeStore(L, S, p) == Buf(j)
  {
    assert OutOk(L, S, p);
    assert DestOk(L, S, p);
    j := S.handles[p].dest.value.store.j;
    assert PlacedFor(L, S, p, j, S.handles[p].dest.value);
  }

  /** Two programs that write the same store feed one add or one concatenation. */
  lemma SharedStore(L: seq<Layer>, S: State, p: nat, q: nat) returns (j: nat, k: nat, m: nat)
    requires Sound(L, S) && p < q < |L| && HasProgram(L[p]) && HasProgram(L[q])
    requires HomeStore(L, S, p) == HomeStore(L, S, q)
    ensures AddPair(L, S, j, p, q) || Siblings(L, S, j, k, m, p, q)
  {
    assert S.handles[p].dest.None? ==> HomeStore(L, S, p) == Own(p);
    assert S.handles[q].dest.None? ==> HomeStore(L, S, q) == Own(q);
    if S.handles[p].dest.None? {
      j := HomeInTable(L, S, q);
      assert false;
    } else {
      j := HomeInTable(L, S, p);
      k, m := 0, 0;
      if L[j].kind == Add {
        PlacedInAdd(L, S, j, p);
        PlacedInAdd(L, S, j, q);
      } else if L[j].kind == Concat {
        k := PlacedInConcat(L, S, j, p);
        m := PlacedInConcat(L, S, j, q);
        assert Opers(L, j)[k] < Opers(L, j)[m];
      } else {
        PlacedAlone(L, S, j, p);
        PlacedAlone(L, S, j, q);
        assert false;
      }
    }
  }

  /** Where the padding of p's program may have been overwritten once the layers before i
      have run: p is an operand of a placed concatenation and the next operand has run. */
  ghost predicate Overlaid(L: seq<Layer>, S: State, p: nat, i: nat)
    requires WellFormed(L) && Sized(L, S)
  {
    exists j: nat, k: nat ::
      j < |L| && Placement(L, S, j) && k + 1 < |Opers(L, j)| && Opers(L, j)[k] == p
      && Opers(L, j)[k + 1] < i
  }

  /** Channel x is one p's program writes. */
  predicate Covers(L: seq<Layer>, S: State, p: nat, x: nat)
    requires Sized(L, S) && p < |L|
  {
    HomeBase(L, S, p) <= x < HomeBase(L, S, p) + WriteDepth(L[p])
  }

  lemma AddSlotsApart(L: seq<Layer>, S: State, j: nat, p: nat, q: nat, x: nat)
    requires WellFormed(L) && Sized(L, S) && AddPair(L, S, j, p, q)
    requires HasProgram(L[p]) && HasProgram(L[q])
    ensures !(Covers(L, S, p, x) && Covers(L, S, q, x))
  {
    assert WholeDepth(L[p]) <= Round16(L[j].oc);
    assert WholeDepth(L[q]) <= Round16(L[j].oc);
    assert WriteDepth(L[p]) <= WholeDepth(L[p]);
    assert WriteDepth(L[q]) <= WholeDepth(L[q]);
  }

  lemma InOrder(L: seq<Layer>, s: seq<nat>, k: nat, m: nat)
    requires InTable(L, s) && Increasing(s) && k < m < |s|
    ensures ConcatOff(L, s, k) + L[s[k]].oc <= ConcatOff(L, s, m)
    ensures s[k + 1] <= s[m]
  {
    OffsetsRise(L, s, k, m);
    if k + 1 < m { assert s[k + 1] < s[m]; }
  }

  /** A program that runs after p's, in the same store, writes no live channel of p's, and
      a padding channel only when p's next sibling has come to run. */
  lemma SlotClash(L: seq<Layer>, S: State, p: nat, q: nat, x: nat)
    requires Sound(L, S) && p < q < |L| && HasProgram(L[p]) && HasProgram(L[q])
    requires HomeStore(L, S, p) == HomeStore(L, S, q) && Covers(L, S, p, x) && Covers(L, S, q, x)
    ensures HomeBase(L, S, p) + L[p].oc <= x && Overlaid(L, S, p, q + 1)
  {
    var j, k, m := SharedStore(L, S, p, q);
    if AddPair(L, S, j, p, q) {
      AddSlotsApart(L, S, j, p, q, x);
      assert false;
    } else {
      InOrder(L, Opers(L, j), k, m);
      assert Opers(L, j)[k + 1] < q + 1;
    }
  }

  lemma WriterPrecedes(L: seq<Layer>, S: State, j: nat, q: nat)
    requires Sound(L, S) && j < |L| && L[j].kind == Concat && q < |L| && HasProgram(L[q])
    requires HomeStore(L, S, q) == Buf(j)
    ensures q < j
  {
    var k := PlacedInConcat(L, S, j, q);
    assert Opers(L, j)[k] < j;
  }

  /** What lies past a placed concatenation's own channels, an operand writes only as
      padding, and every operand's padding is the concatenation's zero point. */
  lemma PastTheEndIsPadding(L: seq<Layer>, S: State, j: nat, q: nat, x: nat)
    requires Sound(L, S) && j < |L| && Placement(L, S, j)
    requires q < |L| && HasProgram(L[q]) && HomeStore(L, S, q) == Buf(j)
    requires Covers(L, S, q, x) && L[j].oc <= x
    ensures HomeBase(L, S, q) + L[q].oc <= x && L[q].outZp == L[j].outZp
  {
    var m := PlacedInConcat(L, S, j, q);
    OffsetsRise(L, Opers(L, j), m, |Opers(L, j)|);
  }

  // ---- inside the stores -------------------------------------------------------------

  /** How many channels a store has. */
  function StoreDepth(L: seq<Layer>, S: State, st: Store): nat
    requires Sized(L, S)
  {
    match st
    case Own(i) => if i < |L| then OwnDepth(L[i]) else 0
    case Buf(j) => if j < |L| && S.bufs[j].Some? then Round16(S.bufs[j].value.chans) else 0
  }

  /** Every program writes inside the store it writes. */
  lemma WritesStayInside(L: seq<Layer>, S: State, p: nat)
    requires Sound(L, S) && p < |L| && HasProgram(L[p])
    ensures HomeBase(L, S, p) + WriteDepth(L[p]) <= StoreDepth(L, S, HomeStore(L, S, p))
  {
    assert OutOk(L, S, p);
    if S.handles[p].dest.Some? {
      assert DestOk(L, S, p) && PlacedFor(L, S, p, S.handles[p].dest.value.store.j, S.handles[p].dest.value);
    }
  }

  /** The channels a bound layer's DMA walks. */
  function Walk(l: Layer): nat {
    if IsPool(l) then l.ic else Round32(l.ic)
  }

  /** Every bound layer's DMA stays inside the store it reads. */
  lemma ReadsStayInside(L: seq<Layer>, S: State, r: nat)
    requires Sound(L, S) && r < |L| && S.cubeIn[r]
    ensures S.handles[r].source.Some?
    ensures var c := S.handles[r].source.value;
      c.live == L[r].ic && c.base + Walk(L[r]) <= StoreDepth(L, S, c.store)
  {
    assert InOk(L, S, r) && BufOk(L, S, r);
    if L[r].kind != Add {
      var p := Src(L, r, 0);
      assert S.cubeOut[p];
      CubeStaysInside(L, S, p);
    }
  }

  lemma CubeStaysInside(L: seq<Layer>, S: State, p: nat)
    requires Sound(L, S) && Kept(L, S, p)
    ensures var c := ReaderCube(L, S, p); c.base + c.depth <= StoreDepth(L, S, c.store)
  {
    assert OutOk(L, S, p) && BufOk(L, S, p);
    var d := S.handles[p].dest;
    if L[p].kind != Concat && d.Some? {
      assert DestOk(L, S, p) && PlacedFor(L, S, p, d.value.store.j, d.value);
    }
  }
}
