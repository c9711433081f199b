/** A sound plan preserves meaning: run through its surfaces, slices and views, any number of
    times over, every layer has the output it has on row-major tensors. */
module GraphMeaning {
  import opened Options
  import opened GraphLayers
  import opened GraphCubes
  import opened GraphPlan
  import opened GraphRun
  import opened GraphHomes

  // ---- what memory holds between two layers ------------------------------------------

  ghost predicate LiveAt(L: seq<Layer>, S: State, M: Machine, p: nat)
    requires Sized(L, S) && p < |M.outs| && p < |L| && |M.outs[p]| == L[p].oc
  {
    var base := HomeBase(L, S, p);
    forall x: nat :: base <= x < base + L[p].oc
      ==> M.mem(HomeStore(L, S, p), x) == M.outs[p][x - base]
  }

  ghost predicate PadAt(L: seq<Layer>, S: State, mem: Memory, p: nat)
    requires Sized(L, S) && p < |L|
  {
    var base := HomeBase(L, S, p);
    forall x: nat :: base + L[p].oc <= x < base + WriteDepth(L[p])
      ==> mem(HomeStore(L, S, p), x) == Flat(L[p].outZp)
  }

  /** The declared tails of layer j's buffer or surface. */
  ghost predicate TailHolds(L: seq<Layer>, S: State, mem: Memory, j: nat)
    requires WellFormed(L) && Sized(L, S) && j < |L|
  {
    && (Placement(L, S, j) && Opers(L, j) != [] ==>
          forall x: nat :: L[j].oc <= x < ConcatBuffer(L, j, Opers(L, j)).chans
            ==> mem(Buf(j), x) == Flat(L[j].outZp))
    && (HasProgram(L[j]) && HomeStore(L, S, j) == Buf(j) ==>
          forall x: nat :: L[j].oc <= x < Round32(L[j].oc) ==> mem(Buf(j), x) == Flat(L[j].outZp))
    && (PackFilled(L[j]) ==>
          forall x: nat :: L[j].oc <= x < Round32(L[j].oc) ==> mem(Own(j), x) == Flat(L[j].outZp))
  }

  ghost predicate TailsHold(L: seq<Layer>, S: State, mem: Memory)
    requires WellFormed(L) && Sized(L, S)
  {
    forall j: nat :: j < |L| ==> TailHolds(L, S, mem, j)
  }

  /** What every run through a sound plan keeps: once the layers before i have run, every
      cube they left holds its output, its padding unless that was overlaid, and every
      declared tail is true. */
  ghost predicate Inv(L: seq<Layer>, S: State, M: Machine, i: nat)
    requires WellFormed(L) && Sized(L, S)
  {
    && |M.outs| == i <= |L|
    && (forall p: nat :: p < i ==> |M.outs[p]| == L[p].oc)
    && (forall p: nat :: p < i && S.cubeOut[p] ==> LiveAt(L, S, M, p))
    && (forall p: nat :: p < i && S.cubeOut[p] && HasProgram(L[p]) && !Overlaid(L, S, p, i)
                         ==> PadAt(L, S, M.mem, p))
    && TailsHold(L, S, M.mem)
  }

  lemma PreparedTails(L: seq<Layer>, S: State, mem: Memory)
    requires Sound(L, S) && Prepared(L, S, mem)
    ensures TailsHold(L, S, mem)
  {
    forall j: nat | j < |L| ensures TailHolds(L, S, mem, j) {
      assert BufOk(L, S, j) && OutOk(L, S, j);
      if HasProgram(L[j]) && HomeStore(L, S, j) == Buf(j) {
        OwnTail(L, S, j);
      }
    }
  }

  /** A layer that owns the buffer it writes was given a tail of its own. */
  lemma OwnTail(L: seq<Layer>, S: State, j: nat)
    requires Sound(L, S) && j < |L| && HasProgram(L[j]) && HomeStore(L, S, j) == Buf(j)
    ensures IsPool(L[j]) && L[j].oc % 16 == 0 && S.handles[j].dest == Some(TailSlice(L, j))
    ensures S.bufs[j] == Some(TailBuffer(L[j]))
  {
    if L[j].kind == Add {
      PlacedInAdd(L, S, j, j);
      assert false;
    } else {
      PlacedAlone(L, S, j, j);
      assert BufOk(L, S, j);
    }
  }

  // ---- one layer keeps it ------------------------------------------------------------

  lemma {:induction false} JoinedDepth(L: seq<Layer>, outs: seq<Tensor>, s: seq<nat>, k: nat)
    requires k <= |s| && InTable(L, s) && forall m :: 0 <= m < |s| ==> s[m] < |outs|
    requires forall m :: 0 <= m < |s| ==> |outs[s[m]]| == L[s[m]].oc
    ensures |Joined(outs, s, k)| == ConcatOff(L, s, k)
  {
    if k > 0 { JoinedDepth(L, outs, s, k - 1); }
  }

  lemma OutDepth(L: seq<Layer>, S: State, sem: Sem, M: Machine, input: Tensor, i: nat)
    requires Sound(L, S) && Inv(L, S, M, i) && i < |L| && RightDepth(L, sem)
    ensures |PlanOut(L, S, sem, M, input, i)| == L[i].oc
  {
    if AddsUp(L, i) { JoinedDepth(L, M.outs, Opers(L, i), |Opers(L, i)|); }
  }

  /** The channel x of store st is the same before and after layer i. */
  ghost predicate Untouched(L: seq<Layer>, S: State, i: nat, st: Store, x: nat)
    requires Sized(L, S) && i < |L|
  {
    HasProgram(L[i]) && HomeStore(L, S, i) == st ==> !Covers(L, S, i, x)
  }

  lemma StepElsewhere(L: seq<Layer>, S: State, sem: Sem, M: Machine, input: Tensor, i: nat,
                      st: Store, x: nat)
    requires Sound(L, S) && Inv(L, S, M, i) && i < |L| && RightDepth(L, sem)
    requires Untouched(L, S, i, st, x)
    ensures Step(L, S, sem, M, input, i).mem(st, x) == M.mem(st, x)
  {
    OutDepth(L, S, sem, M, input, i);
  }

  /** Live channels of earlier outputs, and padding not overlaid by layer i, stay. */
  lemma EarlierUntouched(L: seq<Layer>, S: State, i: nat, p: nat, x: nat)
    requires Sound(L, S) && p < i < |L| && S.cubeOut[p]
    requires var base := HomeBase(L, S, p);
      || base <= x < base + L[p].oc
      || (HasProgram(L[p]) && Covers(L, S, p, x) && !Overlaid(L, S, p, i + 1))
    ensures Untouched(L, S, i, HomeStore(L, S, p), x)
  {
    assert OutOk(L, S, p) && RowOk(L, p);
    if HasProgram(L[i]) && HomeStore(L, S, i) == HomeStore(L, S, p) && Covers(L, S, i, x) {
      if L[p].kind == Concat { WriterPrecedes(L, S, p, i); } else { SlotClash(L, S, p, i, x); }
    }
  }

  lemma LeaverRuns(L: seq<Layer>, S: State, i: nat)
    requires Sound(L, S) && i < |L| && S.cubeOut[i]
    ensures HasProgram(L[i]) || Placement(L, S, i)
  {
    assert OutOk(L, S, i) && RowOk(L, i);
  }

  /** A layer that leaves a cube has written it, or named it, when it has run. */
  lemma StepLeavesLive(L: seq<Layer>, S: State, sem: Sem, M: Machine, input: Tensor, i: nat)
    requires Sound(L, S) && Inv(L, S, M, i) && i < |L| && S.cubeOut[i] && RightDepth(L, sem)
    ensures var N := Step(L, S, sem, M, input, i);
      |N.outs[i]| == L[i].oc && LiveAt(L, S, N, i)
  {
    OutDepth(L, S, sem, M, input, i);
    LeaverRuns(L, S, i);
    var N, base, out := Step(L, S, sem, M, input, i), HomeBase(L, S, i), PlanOut(L, S, sem, M, input, i);
    forall x: nat | base <= x < base + L[i].oc
      ensures N.mem(HomeStore(L, S, i), x) == out[x - base]
    {
      if HasProgram(L[i]) {
        assert x - base < |Written(L[i], out)| && Written(L[i], out)[x - base] == out[x - base];
      } else {
        assert Placement(L, S, i);
      }
    }
  }

  lemma StepKeepsLive(L: seq<Layer>, S: State, sem: Sem, M: Machine, input: Tensor, i: nat, p: nat)
    requires Sound(L, S) && Inv(L, S, M, i) && p <= i < |L| && S.cubeOut[p] && RightDepth(L, sem)
    ensures var N := Step(L, S, sem, M, input, i);
      |N.outs[p]| == L[p].oc && LiveAt(L, S, N, p)
  {
    OutDepth(L, S, sem, M, input, i);
    var N, base := Step(L, S, sem, M, input, i), HomeBase(L, S, p);
    if p < i {
      forall x: nat | base <= x < base + L[p].oc
        ensures N.mem(HomeStore(L, S, p), x) == N.outs[p][x - base]
      {
        EarlierUntouched(L, S, i, p, x);
        StepElsewhere(L, S, sem, M, input, i, HomeStore(L, S, p), x);
      }
    } else {
      StepLeavesLive(L, S, sem, M, input, i);
    }
  }

  lemma StepKeepsPad(L: seq<Layer>, S: State, sem: Sem, M: Machine, input: Tensor, i: nat, p: nat)
    requires Sound(L, S) && Inv(L, S, M, i) && p <= i < |L| && S.cubeOut[p] && RightDepth(L, sem)
    requires HasProgram(L[p]) && !Overlaid(L, S, p, i + 1)
    ensures PadAt(L, S, Step(L, S, sem, M, input, i).mem, p)
  {
    OutDepth(L, S, sem, M, input, i);
    var N, base := Step(L, S, sem, M, input, i), HomeBase(L, S, p);
    if p < i {
      assert !Overlaid(L, S, p, i);
      forall x: nat | base + L[p].oc <= x < base + WriteDepth(L[p])
        ensures N.mem(HomeStore(L, S, p), x) == Flat(L[p].outZp)
      {
        EarlierUntouched(L, S, i, p, x);
        StepElsewhere(L, S, sem, M, input, i, HomeStore(L, S, p), x);
      }
    }
  }

  lemma StepKeepsConcatTail(L: seq<Layer>, S: State, sem: Sem, M: Machine, input: Tensor, i: nat,
                            j: nat, x: nat)
    requires Sound(L, S) && Inv(L, S, M, i) && i < |L| && RightDepth(L, sem)
    requires j < |L| && Placement(L, S, j) && L[j].oc <= x
    requires M.mem(Buf(j), x) == Flat(L[j].outZp)
    ensures Step(L, S, sem, M, input, i).mem(Buf(j), x) == Flat(L[j].outZp)
  {
    OutDepth(L, S, sem, M, input, i);
    if Untouched(L, S, i, Buf(j), x) {
      StepElsewhere(L, S, sem, M, input, i, Buf(j), x);
    } else {
      PastTheEndIsPadding(L, S, j, i, x);
    }
  }

  lemma StepKeepsTail(L: seq<Layer>, S: State, sem: Sem, M: Machine, input: Tensor, i: nat, j: nat)
    requires Sound(L, S) && Inv(L, S, M, i) && i < |L| && RightDepth(L, sem) && j < |L|
    ensures TailHolds(L, S, Step(L, S, sem, M, input, i).mem, j)
  {
    var N := Step(L, S, sem, M, input, i);
    assert TailHolds(L, S, M.mem, j);
    if Placement(L, S, j) && Opers(L, j) != [] {
      forall x: nat | L[j].oc <= x < ConcatBuffer(L, j, Opers(L, j)).chans
        ensures N.mem(Buf(j), x) == Flat(L[j].outZp)
      {
        StepKeepsConcatTail(L, S, sem, M, input, i, j, x);
      }
    }
    if HasProgram(L[j]) && HomeStore(L, S, j) == Buf(j) {
      OwnTail(L, S, j);
      forall x: nat | L[j].oc <= x < Round32(L[j].oc) ensures N.mem(Buf(j), x) == Flat(L[j].outZp) {
        if HasProgram(L[i]) && HomeStore(L, S, i) == Buf(j) { PlacedAlone(L, S, j, i); }
        StepElsewhere(L, S, sem, M, input, i, Buf(j), x);
      }
    }
    if PackFilled(L[j]) {
      forall x: nat | L[j].oc <= x < Round32(L[j].oc) ensures N.mem(Own(j), x) == Flat(L[j].outZp) {
        if HasProgram(L[i]) && S.handles[i].dest.Some? { var _ := HomeInTable(L, S, i); }
        StepElsewhere(L, S, sem, M, input, i, Own(j), x);
      }
    }
  }

  lemma StepKeepsInv(L: seq<Layer>, S: State, sem: Sem, M: Machine, input: Tensor, i: nat)
    requires Sound(L, S) && Inv(L, S, M, i) && i < |L| && RightDepth(L, sem)
    ensures Inv(L, S, Step(L, S, sem, M, input, i), i + 1)
  {
    var N := Step(L, S, sem, M, input, i);
    OutDepth(L, S, sem, M, input, i);
    forall p: nat | p < i + 1 && S.cubeOut[p] ensures LiveAt(L, S, N, p) {
      StepKeepsLive(L, S, sem, M, input, i, p);
    }
    forall p: nat | p < i + 1 && S.cubeOut[p] && HasProgram(L[p]) && !Overlaid(L, S, p, i + 1)
      ensures PadAt(L, S, N.mem, p)
    {
      StepKeepsPad(L, S, sem, M, input, i, p);
    }
    forall j: nat | j < |L| ensures TailHolds(L, S, N.mem, j) {
      StepKeepsTail(L, S, sem, M, input, i, j);
    }
  }

  /** Safety over whole runs: whatever the layers compute, an inference that starts with its
      declared tails true keeps every cube it has left readable and every tail true. */
  lemma {:induction false} RunKeepsInv(L: seq<Layer>, S: State, sem: Sem, mem: Memory,
                                       input: Tensor, k: nat)
    requires Sound(L, S) && TailsHold(L, S, mem) && RightDepth(L, sem) && k <= |L|
    ensures var r := PlanRun(L, S, sem, mem, input, k); r.Some? ==> Inv(L, S, r.value, k)
  {
    if k > 0 {
      RunKeepsInv(L, S, sem, mem, input, k - 1);
      var r := PlanRun(L, S, sem, mem, input, k - 1);
      if r.Some? { StepKeepsInv(L, S, sem, r.value, input, k - 1); }
    }
  }

  // ---- a bound layer reads what the host would have scattered --------------------------

  lemma OperandPlaced(L: seq<Layer>, S: State, j: nat, k: nat)
    requires Sound(L, S) && j < |L| && Placement(L, S, j) && k < |Opers(L, j)|
    ensures var p := Opers(L, j)[k];
      && S.cubeOut[p] && HasProgram(L[p])
      && HomeStore(L, S, p) == Buf(j) && HomeBase(L, S, p) == ConcatOff(L, Opers(L, j), k)
  {
    var p := Opers(L, j)[k];
    assert OutOk(L, S, j) && OutOk(L, S, p) && RowOk(L, p);
    assert S.cubeOut[p] && S.handles[p].dest == Some(ConcatSlice(L, j, Opers(L, j), k));
  }

  lemma OperandLive(L: seq<Layer>, S: State, M: Machine, j: nat, k: nat)
    requires Sound(L, S) && Inv(L, S, M, j) && j < |L| && Placement(L, S, j)
    requires k < |Opers(L, j)|
    ensures var p := Opers(L, j)[k];
      && p < |M.outs| && |M.outs[p]| == L[p].oc
      && Read(M.mem, Buf(j), ConcatOff(L, Opers(L, j), k), L[p].oc) == M.outs[p]
  {
    OperandPlaced(L, S, j, k);
    assert LiveAt(L, S, M, Opers(L, j)[k]);
  }

  lemma {:induction false} JoinedInBuffer(L: seq<Layer>, S: State, M: Machine, j: nat, k: nat)
    requires Sound(L, S) && Inv(L, S, M, j) && j < |L| && Placement(L, S, j)
    requires k <= |Opers(L, j)|
    ensures Joined(M.outs, Opers(L, j), k) == Read(M.mem, Buf(j), 0, ConcatOff(L, Opers(L, j), k))
  {
    var s := Opers(L, j);
    if k > 0 {
      JoinedInBuffer(L, S, M, j, k - 1);
      OperandLive(L, S, M, j, k - 1);
      var off, p := ConcatOff(L, s, k - 1), s[k - 1];
      assert ConcatOff(L, s, k) == off + L[p].oc;
      assert Read(M.mem, Buf(j), 0, off + L[p].oc)
          == Read(M.mem, Buf(j), 0, off) + Read(M.mem, Buf(j), off, L[p].oc);
    }
  }

  /** Concatenation by placement: after its operands have run, a placed concatenation's
      buffer holds their channels one after another, overlapping writes notwithstanding. */
  lemma PlacementConcatenates(L: seq<Layer>, S: State, M: Machine, j: nat)
    requires Sound(L, S) && Inv(L, S, M, j) && j < |L| && Placement(L, S, j)
    ensures AddsUp(L, j) <==> !L[j].hostInput
    ensures Read(M.mem, Buf(j), 0, L[j].oc) == Joined(M.outs, Opers(L, j), |Opers(L, j)|)
  {
    assert OutOk(L, S, j) && ConcatWired(L, S, j);
    JoinedInBuffer(L, S, M, j, |Opers(L, j)|);
  }

  /** The producer a bound convolution or pool reads, and the cube it is bound to. */
  lemma BoundTo(L: seq<Layer>, S: State, i: nat)
    requires Sound(L, S) && i < |L| && S.cubeIn[i] && L[i].kind != Add
    ensures var p := Src(L, i, 0);
      && p < i && Kept(L, S, p) && S.handles[i].source == Some(ReaderCube(L, S, p))
      && AcceptsInput(L[i], ReaderCube(L, S, p)) && Reader(L, i, p)
    ensures HasProgram(L[i])
  {
    assert InOk(L, S, i) && RowOk(L, i);
  }

  lemma ReadsProducer(L: seq<Layer>, S: State, M: Machine, input: Tensor, i: nat)
    requires Sound(L, S) && Inv(L, S, M, i) && i < |L| && S.cubeIn[i] && L[i].kind != Add
    requires !L[i].hostInput
    ensures PlanReads(L, S, M, input, i).x == RowReads(L, M.outs, input, i).x
    ensures |PlanReads(L, S, M, input, i).tail| == |RowReads(L, M.outs, input, i).tail|
  {
    BoundTo(L, S, i);
    var p := Src(L, i, 0);
    ReaderCubeHome(L, S, p);
    assert LiveAt(L, S, M, p);
    var c := ReaderCube(L, S, p);
    assert Read(M.mem, c.store, c.base, c.live) == M.outs[p];
  }

  /** A wired add reads its two operands and, between them, whatever the gap holds. */
  lemma ReadsBoth(L: seq<Layer>, S: State, M: Machine, input: Tensor, i: nat)
    requires Sound(L, S) && Inv(L, S, M, i) && i < |L| && S.cubeIn[i] && L[i].kind == Add
    ensures var a, b := Src(L, i, 0), Src(L, i, 1);
      && a < i && b < i && |M.outs[a]| == |M.outs[b]| == L[i].oc
      && PlanReads(L, S, M, input, i).x ==
         [M.outs[a] + Read(M.mem, Buf(i), L[i].oc, AddBoff(L[i]) - L[i].oc) + M.outs[b]]
    ensures |PlanReads(L, S, M, input, i).tail| == |RowReads(L, M.outs, input, i).tail|
    ensures !Sensitive(L[i])
  {
    var a, b := Src(L, i, 0), Src(L, i, 1);
    assert InOk(L, S, i) && RowOk(L, i) && AddWired(L, S, i);
    assert S.cubeOut[a] && S.cubeOut[b];
    AddOperandLive(L, S, M, i, a);
    AddOperandLive(L, S, M, i, b);
    var oc, boff := L[i].oc, AddBoff(L[i]);
    var x := Read(M.mem, Buf(i), 0, boff + oc);
    assert x == M.outs[a] + Read(M.mem, Buf(i), oc, boff - oc) + M.outs[b];
  }

  lemma AddOperandLive(L: seq<Layer>, S: State, M: Machine, i: nat, p: nat)
    requires Sound(L, S) && Inv(L, S, M, i) && i < |L| && L[i].kind == Add && p < i && S.cubeOut[p]
    requires S.handles[p].dest == Some(AddLo(L, i)) || S.handles[p].dest == Some(AddHi(L, i))
    requires L[p].oc == L[i].oc
    ensures |M.outs[p]| == L[i].oc
    ensures var base := S.handles[p].dest.value.base;
      forall x: nat :: base <= x < base + L[i].oc ==> M.mem(Buf(i), x) == M.outs[p][x - base]
  {
    assert OutOk(L, S, p) && LiveAt(L, S, M, p);
    var base := HomeBase(L, S, p);
    assert HomeStore(L, S, p) == Buf(i) && base == S.handles[p].dest.value.base;
    forall x: nat | base <= x < base + L[i].oc ensures M.mem(Buf(i), x) == M.outs[p][x - base] {
      assert M.mem(HomeStore(L, S, p), x) == M.outs[p][x - base];
    }
  }

  /** Where a layer depends on the channels past its operand, they hold its zero point. */
  lemma ReadsTail(L: seq<Layer>, S: State, M: Machine, i: nat, x: nat)
    requires Sound(L, S) && Inv(L, S, M, i) && i < |L| && S.cubeIn[i] && L[i].kind != Add
    requires Sensitive(L[i]) && !Overlaid(L, S, Src(L, i, 0), i)
    requires L[i].ic <= x < Round32(L[i].ic)
    ensures var p := Src(L, i, 0);
      p < |L| && M.mem(HomeStore(L, S, p), HomeBase(L, S, p) + x) == Flat(L[i].pack.inZp)
  {
    BoundTo(L, S, i);
    var p := Src(L, i, 0);
    var c := ReaderCube(L, S, p);
    assert OutOk(L, S, p);
    ReaderCubeHome(L, S, p);
    assert c.padFrom > 0 && c.padValue == L[i].pack.inZp && Round32(L[i].ic) <= c.depth;
    assert TailHolds(L, S, M.mem, p);
    if L[p].kind != Concat {
      LeaverRuns(L, S, p);
      if HomeStore(L, S, p) == Buf(p) {
        OwnTail(L, S, p);
      } else if Direct(L[p]) {
        assert PadAt(L, S, M.mem, p);
      }
    }
  }

  lemma NotOverlaid(L: seq<Layer>, S: State, i: nat)
    requires Sound(L, S) && TailSafe(L, S) && i < |L| && S.cubeIn[i] && L[i].kind != Add
    requires Sensitive(L[i])
    ensures !Overlaid(L, S, Src(L, i, 0), i)
  {
    BoundTo(L, S, i);
    var p := Src(L, i, 0);
    forall j: nat, k: nat | j < |L| && Placement(L, S, j) && k + 1 < |Opers(L, j)|
                            && Opers(L, j)[k] == p
      ensures i <= Opers(L, j)[k + 1]
    {
      assert !Overtaken(L, S, j, k, i);
    }
  }

  /** One layer computes through the plan what it computes on row-major tensors. */
  lemma StepAgrees(L: seq<Layer>, S: State, sem: Sem, M: Machine, input: Tensor, i: nat)
    requires Sound(L, S) && Unprepared(L, S) && TailSafe(L, S) && SemOk(L, sem)
    requires Inv(L, S, M, i) && i < |L|
    ensures PlanOut(L, S, sem, M, input, i) == RowOut(L, sem, M.outs, input, i)
  {
    if Placement(L, S, i) {
      PlacementConcatenates(L, S, M, i);
    } else if !S.cubeIn[i] {
      assert InOk(L, S, i);
    } else if L[i].kind == Add {
      ReadsBoth(L, S, M, input, i);
      AddAgrees(L, S, sem, M, input, i);
    } else {
      BoundAgrees(L, S, sem, M, input, i);
    }
  }

  lemma AddAgrees(L: seq<Layer>, S: State, sem: Sem, M: Machine, input: Tensor, i: nat)
    requires Sound(L, S) && SemOk(L, sem) && Inv(L, S, M, i) && i < |L|
    requires S.cubeIn[i] && L[i].kind == Add && !L[i].hostInput
    ensures PlanOut(L, S, sem, M, input, i) == RowOut(L, sem, M.outs, input, i)
  {
    ReadsBoth(L, S, M, input, i);
    var a, b := M.outs[Src(L, i, 0)], M.outs[Src(L, i, 1)];
    var gap := AddBoff(L[i]) - L[i].oc;
    var g, h := Read(M.mem, Buf(i), L[i].oc, gap), Fill(0, gap);
    var r, q := PlanReads(L, S, M, input, i), RowReads(L, M.outs, input, i);
    assert q.x == [a + h + b] && r.x == [a + g + b];
    assert sem(i, [a + g + b], r.tail) == sem(i, [a + h + b], r.tail);
    assert sem(i, q.x, r.tail) == sem(i, q.x, q.tail);
  }

  lemma BoundAgrees(L: seq<Layer>, S: State, sem: Sem, M: Machine, input: Tensor, i: nat)
    requires Sound(L, S) && Unprepared(L, S) && TailSafe(L, S) && SemOk(L, sem)
    requires Inv(L, S, M, i) && i < |L|
    requires S.cubeIn[i] && L[i].kind != Add
    ensures PlanOut(L, S, sem, M, input, i) == RowOut(L, sem, M.outs, input, i)
  {
    ReadsProducer(L, S, M, input, i);
    BoundTo(L, S, i);
    var r, q := PlanReads(L, S, M, input, i), RowReads(L, M.outs, input, i);
    if Sensitive(L[i]) {
      NotOverlaid(L, S, i);
      ReaderCubeHome(L, S, Src(L, i, 0));
      forall k: nat | k < |q.tail| ensures r.tail[k] == q.tail[k] {
        ReadsTail(L, S, M, i, L[i].ic + k);
      }
      assert r.tail == q.tail;
    }
    assert sem(i, q.x, r.tail) == sem(i, q.x, q.tail);
  }

  // ---- whole runs ----------------------------------------------------------------------

  lemma NeverStarved(L: seq<Layer>, S: State, i: nat)
    requires Sound(L, S) && HostFed(L, S) && i < |L|
    ensures !Starved(L, S, i)
  {
    if Starved(L, S, i) {
      var p :| p in L[i].src && p < i && !Materialises(L, S, p);
      assert OutOk(L, S, p) && InOk(L, S, i);
      assert L[i].kind != Host ==> Reader(L, i, p);
      assert L[i].kind == Host ==> HostReader(L, i, p);
    }
  }

  lemma {:induction false} RunAgrees(L: seq<Layer>, S: State, sem: Sem, mem: Memory, input: Tensor,
                                     k: nat)
    requires Sound(L, S) && HostFed(L, S) && Unprepared(L, S) && TailSafe(L, S) && SemOk(L, sem)
    requires TailsHold(L, S, mem) && k <= |L|
    ensures var r := PlanRun(L, S, sem, mem, input, k);
      r.Some? && Inv(L, S, r.value, k) && r.value.outs == RowRun(L, sem, input, k)
  {
    if k > 0 {
      RunAgrees(L, S, sem, mem, input, k - 1);
      var M := PlanRun(L, S, sem, mem, input, k - 1).value;
      NeverStarved(L, S, k - 1);
      StepAgrees(L, S, sem, M, input, k - 1);
      StepKeepsInv(L, S, sem, M, input, k - 1);
    }
  }

  /** Repeated inferences: each leaves the declared tails true for the next. */
  lemma {:induction false} SessionAgrees(L: seq<Layer>, S: State, sem: Sem, mem: Memory,
                                         inputs: seq<Tensor>)
    requires Sound(L, S) && HostFed(L, S) && Unprepared(L, S) && TailSafe(L, S) && SemOk(L, sem)
    requires TailsHold(L, S, mem)
    ensures Session(L, S, sem, mem, inputs) == Some(RowSession(L, sem, inputs))
    decreases |inputs|
  {
    if inputs != [] {
      RunAgrees(L, S, sem, mem, inputs[0], |L|);
      SessionAgrees(L, S, sem, PlanRun(L, S, sem, mem, inputs[0], |L|).value.mem, inputs[1..]);
    }
  }
}
