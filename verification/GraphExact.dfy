/** Exactly when a sound plan preserves meaning, and what a caller can check beforehand. */
module GraphExact {
  import opened Options
  import opened GraphLayers
  import opened GraphCubes
  import opened GraphPlan
  import opened GraphRun
  import opened GraphHomes
  import opened GraphMeaning

  // ---- memory and arithmetic that show a hazard --------------------------------------

  /** Every buffer full of its fill, every surface of its zero point. */
  function FilledMemory(L: seq<Layer>, S: State): (mem: Memory)
    requires Sized(L, S)
  {
    (s: Store, c: nat) =>
      match s
      case Buf(j) => if j < |L| && S.bufs[j].Some? then Flat(S.bufs[j].value.fill) else Flat(0)
      case Own(i) => if i < |L| then Flat(L[i].outZp) else Flat(0)
  }

  function PadOf(l: Layer): Tensor {
    Fill(l.pack.inZp, Round32(l.ic) - l.ic)
  }

  /** Every layer computes the same picture, except that layer r recognises its own padding. */
  function Spy(L: seq<Layer>, r: nat): (sem: Sem) {
    (i: nat, x: seq<Tensor>, t: Tensor) =>
      if i >= |L| then []
      else seq(L[i].oc, _ => if i == r && t == PadOf(L[r]) then Flat(0) else Image(0))
  }

  lemma SpyOk(L: seq<Layer>, r: nat)
    requires r < |L| && Sensitive(L[r])
    ensures SemOk(L, Spy(L, r))
  {
  }

  /** A plan with a starved layer completes no inference. */
  lemma {:induction false} StarvedRun(L: seq<Layer>, S: State, sem: Sem, mem: Memory, input: Tensor,
                                      r: nat, k: nat)
    requires WellFormed(L) && Sized(L, S) && r < k <= |L| && Starved(L, S, r)
    ensures PlanRun(L, S, sem, mem, input, k) == None
  {
    if r + 1 < k { StarvedRun(L, S, sem, mem, input, r, k - 1); }
  }

  function Blank(L: seq<Layer>): (sem: Sem)
    ensures SemOk(L, sem)
  {
    (i: nat, x: seq<Tensor>, t: Tensor) => if i < |L| then seq(L[i].oc, _ => Image(0)) else []
  }

  lemma HostStarves(L: seq<Layer>, S: State, p: nat, r: nat)
    requires Sound(L, S) && p < |L| && S.cubeOut[p] && HostReader(L, r, p)
    ensures !Faithful(L, S)
  {
    assert OutOk(L, S, p) && InOk(L, S, r) && RowOk(L, r);
    assert Starved(L, S, r);
    var sem, mem := Blank(L), FilledMemory(L, S);
    StarvedRun(L, S, sem, mem, [], r, |L|);
    assert Prepared(L, S, mem);
    assert Session(L, S, sem, mem, [[]]) == None;
  }

  // ---- an overlaid tail is read ------------------------------------------------------

  lemma {:induction false} RunPrefix(L: seq<Layer>, S: State, sem: Sem, mem: Memory, input: Tensor,
                                     i: nat, k: nat)
    requires WellFormed(L) && Sized(L, S) && i < k <= |L|
    requires PlanRun(L, S, sem, mem, input, k).Some?
    ensures var r := PlanRun(L, S, sem, mem, input, i);
      r.Some? && PlanRun(L, S, sem, mem, input, k).value.outs[i]
                 == PlanOut(L, S, sem, r.value, input, i)
    ensures PlanRun(L, S, sem, mem, input, k).value.outs[..i]
            == PlanRun(L, S, sem, mem, input, i).value.outs
  {
    var M := PlanRun(L, S, sem, mem, input, k - 1).value;
    if i + 1 < k { RunPrefix(L, S, sem, mem, input, i, k - 1); }
    assert PlanRun(L, S, sem, mem, input, k).value.outs[..k - 1] == M.outs;
  }

  lemma {:induction false} RowPrefix(L: seq<Layer>, sem: Sem, input: Tensor, i: nat, k: nat)
    requires WellFormed(L) && i < k <= |L|
    ensures RowRun(L, sem, input, k)[i] == RowOut(L, sem, RowRun(L, sem, input, i), input, i)
  {
    if i + 1 < k { RowPrefix(L, sem, input, i, k - 1); }
  }

  /** A program that computes the same picture whatever it reads puts it out. */
  lemma Pictures(L: seq<Layer>, S: State, sem: Sem, mem: Memory, q: nat, k: nat)
    requires WellFormed(L) && Sized(L, S) && q < k <= |L| && HasProgram(L[q])
    requires forall x: seq<Tensor>, t: Tensor :: sem(q, x, t) == seq(L[q].oc, _ => Image(0))
    requires PlanRun(L, S, sem, mem, [], k).Some?
    ensures var outs := PlanRun(L, S, sem, mem, [], k).value.outs;
      |outs[q]| == L[q].oc && forall c :: 0 <= c < L[q].oc ==> outs[q][c] == Image(0)
  {
    RunPrefix(L, S, sem, mem, [], q, k);
  }

  /** The channel right past a non-last operand's own is the next operand's first. */
  lemma NextStartsAtTail(L: seq<Layer>, S: State, j: nat, k: nat)
    requires Sound(L, S) && j < |L| && Placement(L, S, j) && k + 1 < |Opers(L, j)|
    ensures var p, q := Opers(L, j)[k], Opers(L, j)[k + 1];
      && HomeStore(L, S, p) == HomeStore(L, S, q) && HasProgram(L[q]) && 0 < L[q].oc
      && S.cubeOut[q] && HomeBase(L, S, p) + L[p].oc == HomeBase(L, S, q)
  {
    OperandPlaced(L, S, j, k);
    OperandPlaced(L, S, j, k + 1);
    assert RowOk(L, Opers(L, j)[k + 1]);
  }

  lemma SensitiveReader(L: seq<Layer>, S: State, r: nat, p: nat)
    requires Sound(L, S) && Reader(L, r, p) && S.cubeIn[r] && Sensitive(L[r]) && p < |L|
    ensures (L[r].kind == Conv || L[r].kind == DwConv) && Src(L, r, 0) == p
    ensures Kept(L, S, p) && S.handles[r].source == Some(ReaderCube(L, S, p))
    ensures AcceptsInput(L[r], ReaderCube(L, S, p))
  {
    assert InOk(L, S, r) && RowOk(L, r);
    SoleOperand(L, r, p);
  }

  /** When the spying layer comes to run, its tail starts with the next operand's picture. */
  lemma NextInMemory(L: seq<Layer>, S: State, mem: Memory, j: nat, k: nat, r: nat)
    requires Sound(L, S) && Prepared(L, S, mem) && Overtaken(L, S, j, k, r)
    requires PlanRun(L, S, Spy(L, r), mem, [], r).Some?
    ensures var p := Opers(L, j)[k];
      PlanRun(L, S, Spy(L, r), mem, [], r).value.mem(HomeStore(L, S, p), HomeBase(L, S, p) + L[p].oc)
      == Image(0)
  {
    var q := Opers(L, j)[k + 1];
    var M := PlanRun(L, S, Spy(L, r), mem, [], r).value;
    SpyOk(L, r);
    PreparedTails(L, S, mem);
    RunKeepsInv(L, S, Spy(L, r), mem, [], r);
    NextStartsAtTail(L, S, j, k);
    Pictures(L, S, Spy(L, r), mem, q, r);
    assert LiveAt(L, S, M, q) && M.outs[q][0] == Image(0);
    assert M.mem(HomeStore(L, S, q), HomeBase(L, S, q)) == Image(0);
  }

  lemma SpyReadsNext(L: seq<Layer>, S: State, mem: Memory, j: nat, k: nat, r: nat)
    requires Sound(L, S) && Prepared(L, S, mem) && Overtaken(L, S, j, k, r)
    requires PlanRun(L, S, Spy(L, r), mem, [], r).Some?
    ensures PlanReads(L, S, PlanRun(L, S, Spy(L, r), mem, [], r).value, [], r).tail != PadOf(L[r])
  {
    var p := Opers(L, j)[k];
    var M := PlanRun(L, S, Spy(L, r), mem, [], r).value;
    NextInMemory(L, S, mem, j, k, r);
    SensitiveReader(L, S, r, p);
    ReaderCubeHome(L, S, p);
    var c := ReaderCube(L, S, p);
    BoundTail(L, S, M, r, c);
    HeadTells(M.mem, c.store, c.base + c.live, L[r]);
  }

  lemma BoundTail(L: seq<Layer>, S: State, M: Machine, r: nat, c: Cube)
    requires WellFormed(L) && Sized(L, S) && r < |L| && !IsPool(L[r])
    requires S.handles[r].source == Some(c)
    ensures PlanReads(L, S, M, [], r).tail
            == Read(M.mem, c.store, c.base + c.live, Round32(c.live) - c.live)
  {
  }

  lemma HeadTells(mem: Memory, store: Store, at: nat, l: Layer)
    requires Sensitive(l) && mem(store, at) == Image(0)
    ensures Read(mem, store, at, Round32(l.ic) - l.ic) != PadOf(l)
  {
    var t := Read(mem, store, at, Round32(l.ic) - l.ic);
    assert t[0] == mem(store, at + 0) && PadOf(l)[0] == Flat(l.pack.inZp);
  }

  lemma SpySees(L: seq<Layer>, S: State, mem: Memory, j: nat, k: nat, r: nat)
    requires Sound(L, S) && Prepared(L, S, mem) && Overtaken(L, S, j, k, r)
    requires PlanRun(L, S, Spy(L, r), mem, [], |L|).Some?
    ensures PlanRun(L, S, Spy(L, r), mem, [], |L|).value.outs != RowRun(L, Spy(L, r), [], |L|)
  {
    var sem := Spy(L, r);
    RunPrefix(L, S, sem, mem, [], r, |L|);
    RowPrefix(L, sem, [], r, |L|);
    SpyReadsNext(L, S, mem, j, k, r);
    SensitiveReader(L, S, r, Opers(L, j)[k]);
    SpyDiffers(L, S, PlanRun(L, S, sem, mem, [], r).value, RowRun(L, sem, [], r), r);
  }

  lemma SpyDiffers(L: seq<Layer>, S: State, M: Machine, outs: seq<Tensor>, r: nat)
    requires WellFormed(L) && Sized(L, S) && r < |L| && |M.outs| == |outs| == r
    requires L[r].kind == Conv || L[r].kind == DwConv
    requires PlanReads(L, S, M, [], r).tail != PadOf(L[r])
    ensures PlanOut(L, S, Spy(L, r), M, [], r) != RowOut(L, Spy(L, r), outs, [], r)
  {
    assert RowOk(L, r);
    assert PlanOut(L, S, Spy(L, r), M, [], r)[0] == Image(0);
    assert RowOut(L, Spy(L, r), outs, [], r)[0] == Flat(0);
  }

  lemma TailShows(L: seq<Layer>, S: State, j: nat, k: nat, r: nat)
    requires Sound(L, S) && Overtaken(L, S, j, k, r)
    ensures !Faithful(L, S)
  {
    var sem, mem := Spy(L, r), FilledMemory(L, S);
    SpyOk(L, r);
    PreparedFilled(L, S);
    if PlanRun(L, S, sem, mem, [], |L|).Some? { SpySees(L, S, mem, j, k, r); }
    OneRunTells(L, S, sem, mem);
  }

  lemma OneInference(L: seq<Layer>, S: State, sem: Sem, mem: Memory, input: Tensor)
    requires WellFormed(L) && Sized(L, S)
    ensures RowSession(L, sem, [input]) == [RowRun(L, sem, input, |L|)]
    ensures var run := PlanRun(L, S, sem, mem, input, |L|);
      Session(L, S, sem, mem, [input]) == if run.Some? then Some([run.value.outs]) else None
  {
    var inputs := [input];
    var none: seq<Tensor> := [];
    assert inputs[0] == input && inputs[1..] == none;
    assert RowSession(L, sem, none) == [];
    var run := PlanRun(L, S, sem, mem, input, |L|);
    if run.Some? {
      assert Session(L, S, sem, run.value.mem, none) == Some([]);
      assert [run.value.outs] + [] == [run.value.outs];
    }
  }

  /** One inference that is not completed, or puts out something else, is enough. */
  lemma OneRunTells(L: seq<Layer>, S: State, sem: Sem, mem: Memory)
    requires WellFormed(L) && Sized(L, S) && SemOk(L, sem) && Prepared(L, S, mem)
    requires var r := PlanRun(L, S, sem, mem, [], |L|); r.Some? ==> r.value.outs != RowRun(L, sem, [], |L|)
    ensures !Faithful(L, S)
  {
    OneInference(L, S, sem, mem, []);
    assert Session(L, S, sem, mem, [[]]) != Some(RowSession(L, sem, [[]]));
  }

  lemma PreparedFilled(L: seq<Layer>, S: State)
    requires Sized(L, S)
    ensures Prepared(L, S, FilledMemory(L, S))
  {
  }

  // ---- a prepared input is passed over -----------------------------------------------

  /** Every layer computes the same picture, except that layer r knows what the caller prepared
      for it from a cube. */
  function Teller(L: seq<Layer>, r: nat): (sem: Sem)
    ensures SemOk(L, sem)
  {
    (i: nat, x: seq<Tensor>, t: Tensor) =>
      if i >= |L| then []
      else seq(L[i].oc, _ => if i == r && |x| != 1 then Flat(0) else Image(0))
  }

  lemma TellerOnRows(L: seq<Layer>, S: State, outs: seq<Tensor>, r: nat)
    requires Sound(L, S) && r < |L| && Takes(L, S, r) && L[r].hostInput && |outs| == r
    ensures var out := RowOut(L, Teller(L, r), outs, [], r); out != [] && out[0] == Flat(0)
  {
    assert InOk(L, S, r) && OutOk(L, S, r) && RowOk(L, r);
    if S.cubeIn[r] { assert Src(L, r, 0) in Opers(L, r); }
    assert |RowReads(L, outs, [], r).x| == |Opers(L, r)| + 1 > 1;
  }

  lemma TellerOnCubes(L: seq<Layer>, S: State, mem: Memory, r: nat)
    requires Sound(L, S) && TailsHold(L, S, mem) && r < |L| && Takes(L, S, r) && L[r].hostInput
    requires PlanRun(L, S, Teller(L, r), mem, [], r).Some?
    ensures var out := PlanOut(L, S, Teller(L, r), PlanRun(L, S, Teller(L, r), mem, [], r).value, [], r);
      out != [] && out[0] == Image(0)
  {
    var sem := Teller(L, r);
    var M := PlanRun(L, S, sem, mem, [], r).value;
    assert InOk(L, S, r) && OutOk(L, S, r) && RowOk(L, r);
    if Placement(L, S, r) { FirstOperandPictured(L, S, sem, mem, r); }
  }

  /** A placed concatenation's buffer starts with its first operand. */
  lemma FirstOperandPictured(L: seq<Layer>, S: State, sem: Sem, mem: Memory, r: nat)
    requires Sound(L, S) && TailsHold(L, S, mem) && RightDepth(L, sem)
    requires r < |L| && Placement(L, S, r) && Opers(L, r) != []
    requires var p := Opers(L, r)[0];
      forall x: seq<Tensor>, t: Tensor :: sem(p, x, t) == seq(L[p].oc, _ => Image(0))
    requires PlanRun(L, S, sem, mem, [], r).Some?
    ensures PlanRun(L, S, sem, mem, [], r).value.mem(Buf(r), 0) == Image(0)
  {
    var p, M := Opers(L, r)[0], PlanRun(L, S, sem, mem, [], r).value;
    RunKeepsInv(L, S, sem, mem, [], r);
    OperandPlaced(L, S, r, 0);
    OperandLive(L, S, M, r, 0);
    assert RowOk(L, p);
    Pictures(L, S, sem, mem, p, r);
    assert M.outs[p][0] == M.mem(Buf(r), 0);
  }

  /** A layer whose input the caller prepares, bound to a cube, computes something else. */
  lemma PreparedShows(L: seq<Layer>, S: State, r: nat)
    requires Sound(L, S) && r < |L| && Takes(L, S, r) && L[r].hostInput
    ensures !Faithful(L, S)
  {
    var sem, mem := Teller(L, r), FilledMemory(L, S);
    PreparedFilled(L, S);
    PreparedTails(L, S, mem);
    if PlanRun(L, S, sem, mem, [], |L|).Some? {
      RunPrefix(L, S, sem, mem, [], r, |L|);
      RowPrefix(L, sem, [], r, |L|);
      TellerOnRows(L, S, RowRun(L, sem, [], r), r);
      TellerOnCubes(L, S, mem, r);
    }
    OneRunTells(L, S, sem, mem);
  }

  // ---- the theorem -------------------------------------------------------------------

  lemma SafeIsFaithful(L: seq<Layer>, S: State)
    requires Sound(L, S) && HostFed(L, S) && Unprepared(L, S) && TailSafe(L, S)
    ensures Faithful(L, S)
  {
    forall sem: Sem, mem: Memory, inputs: seq<Tensor> | SemOk(L, sem) && Prepared(L, S, mem)
      ensures Session(L, S, sem, mem, inputs) == Some(RowSession(L, sem, inputs))
    {
      PreparedTails(L, S, mem);
      SessionAgrees(L, S, sem, mem, inputs);
    }
  }

  /** A sound plan preserves meaning, over any number of inferences, exactly when no host
      layer reads a producer that leaves a cube, no layer that takes cubes has an input the
      caller prepares, and no reader beside a placed concatenation depends on a tail its next
      operand has overwritten. */
  lemma FaithfulExactly(L: seq<Layer>, S: State)
    requires Sound(L, S)
    ensures Faithful(L, S) <==> HostFed(L, S) && Unprepared(L, S) && TailSafe(L, S)
  {
    if !HostFed(L, S) {
      var p: nat, r: nat :| p < |L| && S.cubeOut[p] && HostReader(L, r, p);
      HostStarves(L, S, p, r);
    } else if !Unprepared(L, S) {
      var i: nat :| i < |L| && Takes(L, S, i) && L[i].hostInput;
      PreparedShows(L, S, i);
    } else if !TailSafe(L, S) {
      var j: nat, k: nat, r: nat :| Overtaken(L, S, j, k, r);
      TailShows(L, S, j, k, r);
    } else {
      SafeIsFaithful(L, S);
    }
  }
}
