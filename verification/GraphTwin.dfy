/** An add of one layer with itself, which no pass tests for: what the add pass makes of it, and
    that being two layers is exactly what its wiring rests on. */
module GraphTwin {
  import opened Options
  import opened GraphLayers
  import opened GraphCubes
  import opened GraphPlan
  import opened GraphBinding
  import opened GraphWiring
  import opened GraphRun
  import opened GraphExact

  /** The plan the pass builds is sound exactly when the add's operands are two layers. */
  lemma WiredAddExactly(L: seq<Layer>, S: State, j: nat, a: nat, b: nat, ra: seq<nat>, rb: seq<nat>)
    requires Sound(L, S) && AddEligible(L, S, j, a, b, ra, rb)
    requires Indices(|L|, ra) && Indices(|L|, rb) && AddTaken(L, j, a, b, ra, rb)
    ensures Sound(L, AddBuilt(L, S, j, a, b, ra, rb)) <==> TwoOperands(L, j)
    ensures !TwoOperands(L, j) ==> !Faithful(L, AddBuilt(L, S, j, a, b, ra, rb))
  {
    AddIsFree(L, S, j, a, b, ra, rb);
    if a == b {
      TwinIsUnsound(L, S, j, a, ra);
      TwinIsUnfaithful(L, S, j, a, ra);
    } else {
      AddTakenAgreed(L, S, j, a, b, ra, rb);
      AddBuiltIsLinked(L, S, j, a, b, ra, rb);
      AddWiringSound(L, S, j);
    }
  }

  // ---- the first operand is never written ----------------------------------------------

  /** No program before layer j writes the first channel of j's buffer. */
  ghost predicate HeadFree(L: seq<Layer>, T: State, j: nat)
    requires Sized(L, T)
  {
    forall i: nat :: i < j && i < |L| && HasProgram(L[i]) && HomeStore(L, T, i) == Buf(j)
                     ==> 0 < HomeBase(L, T, i)
  }

  lemma TwinHandles(L: seq<Layer>, S: State, j: nat, a: nat, ra: seq<nat>, i: nat)
    requires Sound(L, S) && AddEligible(L, S, j, a, a, ra, ra) && Indices(|L|, ra) && i < |L|
    ensures var T := AddBuilt(L, S, j, a, a, ra, ra);
      && T.handles[i].dest == (if i == a then Some(AddHi(L, j)) else S.handles[i].dest)
      && (i == j ==> T.handles[i].source == Some(AddAll(L, j)))
  {
    AddIsFree(L, S, j, a, a, ra, ra);
    var c, h := CubeOf(L, a, Some(AddHi(L, j))), AddPlaced(L, S.handles, j, a, a);
    BoundAt(h, ra, j, c, i);
    BoundAt(Bound(h, ra, j, c), ra, j, c, i);
  }

  lemma NotPlacedIn(L: seq<Layer>, S: State, j: nat, i: nat)
    requires Sound(L, S) && j < |L| && i < |L| && S.bufs[j] == None
    ensures S.handles[i].dest.Some? ==> S.handles[i].dest.value.store != Buf(j)
  {
    assert OutOk(L, S, i) && (S.handles[i].dest.Some? ==> DestOk(L, S, i));
  }

  lemma TwinHeadFree(L: seq<Layer>, S: State, j: nat, a: nat, ra: seq<nat>)
    requires Sound(L, S) && AddEligible(L, S, j, a, a, ra, ra) && Indices(|L|, ra)
    ensures HeadFree(L, AddBuilt(L, S, j, a, a, ra, ra), j)
  {
    var T := AddBuilt(L, S, j, a, a, ra, ra);
    AddIsFree(L, S, j, a, a, ra, ra);
    forall i: nat | i < j && HasProgram(L[i]) && HomeStore(L, T, i) == Buf(j)
      ensures 0 < HomeBase(L, T, i)
    {
      TwinHandles(L, S, j, a, ra, i);
      NotPlacedIn(L, S, j, i);
    }
  }

  lemma {:induction false} HeadStays(L: seq<Layer>, T: State, sem: Sem, mem: Memory, input: Tensor,
                                     j: nat, k: nat)
    requires WellFormed(L) && Sized(L, T) && HeadFree(L, T, j) && k <= j < |L|
    requires PlanRun(L, T, sem, mem, input, k).Some?
    ensures PlanRun(L, T, sem, mem, input, k).value.mem(Buf(j), 0) == mem(Buf(j), 0)
  {
    if k > 0 { HeadStays(L, T, sem, mem, input, j, k - 1); }
  }

  // ---- and an arithmetic that shows it --------------------------------------------------

  /** Every layer computes the same picture, except that layer j puts out another when its first
      operand is that picture. */
  function Echo(L: seq<Layer>, j: nat): (sem: Sem) {
    (i: nat, x: seq<Tensor>, t: Tensor) =>
      if i >= |L| then [] else seq(L[i].oc, _ => if i == j && Pictured(x) then Flat(1) else Image(0))
  }

  /** The first operand starts with the picture. */
  predicate Pictured(x: seq<Tensor>) {
    0 < |x| && 0 < |x[0]| && x[0][0] == Image(0)
  }

  lemma EchoOk(L: seq<Layer>, j: nat)
    requires WellFormed(L)
    ensures SemOk(L, Echo(L, j))
  {
    var sem := Echo(L, j);
    forall i: nat, a: Tensor, g: Tensor, h: Tensor, b: Tensor, t: Tensor |
      i < |L| && L[i].kind == Add && |a| == |b| == L[i].oc && |g| == |h| == AddBoff(L[i]) - L[i].oc
      ensures sem(i, [a + g + b], t) == sem(i, [a + h + b], t)
    {
      assert RowOk(L, i);
      assert (a + g + b)[0] == a[0] && (a + h + b)[0] == a[0];
    }
  }

  lemma EchoOnRows(L: seq<Layer>, outs: seq<Tensor>, j: nat)
    requires WellFormed(L) && j < |L| && L[j].kind == Add && |outs| == j && Src(L, j, 0) < j
    requires var a := outs[Src(L, j, 0)]; a != [] && a[0] == Image(0)
    ensures var out := RowOut(L, Echo(L, j), outs, [], j); out != [] && out[0] == Flat(1)
  {
    var p := Src(L, j, 0);
    assert RowOk(L, j);
    var src := L[j].src;
    assert OperandsOf(src) == [src[0]] + OperandsOf(src[1..]);
    assert Opers(L, j)[0] == p;
    assert RowReads(L, outs, [], j).x[0][0] == outs[p][0];
  }

  lemma EchoProducer(L: seq<Layer>, j: nat, p: nat)
    requires WellFormed(L) && p < j < |L| && HasProgram(L[p])
    ensures var outs := RowRun(L, Echo(L, j), [], j); outs[p] != [] && outs[p][0] == Image(0)
  {
    RowPrefix(L, Echo(L, j), [], p, j);
    assert RowOk(L, p);
  }

  lemma EchoOnCubes(L: seq<Layer>, T: State, M: Machine, j: nat)
    requires WellFormed(L) && Sized(L, T) && j < |L| && L[j].kind == Add && |M.outs| == j
    requires T.handles[j].source == Some(AddAll(L, j)) && M.mem(Buf(j), 0) == Flat(0)
    ensures var out := PlanOut(L, T, Echo(L, j), M, [], j); out != [] && out[0] == Image(0)
  {
    assert RowOk(L, j);
    assert PlanReads(L, T, M, [], j).x[0][0] == M.mem(Buf(j), 0);
  }

  lemma EchoDiffers(L: seq<Layer>, T: State, mem: Memory, j: nat)
    requires WellFormed(L) && Sized(L, T) && j < |L| && L[j].kind == Add && HeadFree(L, T, j)
    requires T.handles[j].source == Some(AddAll(L, j)) && mem(Buf(j), 0) == Flat(0)
    requires Src(L, j, 0) < j && HasProgram(L[Src(L, j, 0)])
    requires PlanRun(L, T, Echo(L, j), mem, [], |L|).Some?
    ensures PlanRun(L, T, Echo(L, j), mem, [], |L|).value.outs != RowRun(L, Echo(L, j), [], |L|)
  {
    var sem := Echo(L, j);
    RunPrefix(L, T, sem, mem, [], j, |L|);
    HeadStays(L, T, sem, mem, [], j, j);
    EchoOnCubes(L, T, PlanRun(L, T, sem, mem, [], j).value, j);
    RowPrefix(L, sem, [], j, |L|);
    EchoProducer(L, j, Src(L, j, 0));
    EchoOnRows(L, RowRun(L, sem, [], j), j);
  }

  /** The add reads whatever its buffer's first channels held before. */
  lemma TwinIsUnfaithful(L: seq<Layer>, S: State, j: nat, a: nat, ra: seq<nat>)
    requires Sound(L, S) && AddEligible(L, S, j, a, a, ra, ra) && Indices(|L|, ra)
    ensures !Faithful(L, AddBuilt(L, S, j, a, a, ra, ra))
  {
    var T, sem := AddBuilt(L, S, j, a, a, ra, ra), Echo(L, j);
    var mem := FilledMemory(L, T);
    AddIsFree(L, S, j, a, a, ra, ra);
    EchoOk(L, j);
    PreparedFilled(L, T);
    TwinHeadFree(L, S, j, a, ra);
    TwinHandles(L, S, j, a, ra, j);
    assert T.bufs[j] == Some(AddBuffer(L[j]));
    assert RowOk(L, a);
    if PlanRun(L, T, sem, mem, [], |L|).Some? { EchoDiffers(L, T, mem, j); }
    OneRunTells(L, T, sem, mem);
  }
}
