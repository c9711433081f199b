/** Tables on which the planner's own rules are not enough. Each is one on which everyone agrees:
    a library that refuses only what its contracts let it leaves the planner one plan, and that
    plan does not preserve meaning, by the one condition of the meaning theorem it breaks. */
module GraphWitness {
  import opened Options
  import opened GraphLayers
  import opened GraphCubes
  import opened GraphPlan
  import opened GraphAccounting
  import opened GraphWiring
  import opened GraphConcat
  import opened GraphRefusals
  import opened GraphDecide
  import opened GraphRun
  import opened GraphExact
  import opened GraphReach
  import opened GraphRules
  import opened GraphTwin
  import opened GraphPlanner

  const NONE := [NO_SRC, NO_SRC, NO_SRC, NO_SRC]

  function From(p: nat): seq<nat> { [p, NO_SRC, NO_SRC, NO_SRC] }

  function Both(p: nat, q: nat): seq<nat> { [p, q, NO_SRC, NO_SRC] }

  /** A handle over a 4x4 plane in, and out. */
  const PACKED := Pack(4, 4, 0, false, 4, false)

  function ConvOf(ic: nat, oc: nat, wZp: int, src: seq<nat>): Layer {
    Layer(Conv, ic, oc, 4, 4, wZp, 0, src, false, false, true, PACKED)
  }

  function PreparedLayer(kind: Kind, ic: nat, oc: nat, src: seq<nat>): Layer {
    Layer(kind, ic, oc, 4, 4, 0, 0, src, true, false, true, PACKED)
  }

  lemma {:induction false} FewReaders(L: seq<Layer>, p: nat, to: nat)
    requires to <= |L|
    ensures |ReadersBelow(L, p, to)| <= if to <= p then 0 else to - p
  {
    if to > 0 { FewReaders(L, p, to - 1); }
  }

  // ---- a producer read on the host and on the part -----------------------------------

  /** A convolution, the convolution after it, and a host layer that also reads the first. */
  function HostTable(): seq<Layer> {
    [ConvOf(32, 32, 0, NONE), ConvOf(32, 32, 0, From(0)),
     Layer(Host, 32, 32, 4, 4, 0, 0, From(0), false, false, false, PACKED)]
  }

  lemma HostPair(K: Knobs)
    requires K.nojoin != 0
    ensures WellFormed(HostTable()) && Distinct(HostTable())
    ensures NextLayer(HostTable(), 0) == 1 && Reader(HostTable(), 1, 0)
    ensures Verdict(HostTable(), K, 0, 1).None?
  {
    var L := HostTable();
    assert forall i :: 0 <= i < |L| ==> RowOk(L, i);
    assert forall r: nat :: Reader(L, r, 0) ==> r == 1;
  }

  /** The pair loop joins the two convolutions, host readers not being readers to it, and the
      host layer finds no row-major tensor. */
  lemma HostReaderIsStarved(K: Knobs, T: State)
    requires K.nojoin != 0 && Planned(HostTable(), K, true, T) && Sound(HostTable(), T)
    ensures T.cubeOut[0] && HostReader(HostTable(), 2, 0) && !Faithful(HostTable(), T)
  {
    HostPair(K);
    PlannedPair(HostTable(), K, T, 0);
    assert HostReader(HostTable(), 2, 0);
    FaithfulExactly(HostTable(), T);
  }

  method HostPlan(K: Knobs) returns (g: Planner?)
    requires K.nojoin != 0
    ensures WellFormed(HostTable())
    ensures g != null ==> Sound(HostTable(), g.St()) && !Faithful(HostTable(), g.St())
  {
    HostPair(K);
    g := PlanNew(HostTable(), K, true);
    if g != null { HostReaderIsStarved(K, g.St()); }
  }

  // ---- a pool whose input the caller prepares ------------------------------------------

  function PoolTable(kind: Kind): seq<Layer> {
    [ConvOf(32, 32, 0, NONE), PreparedLayer(kind, 32, 32, From(0))]
  }

  lemma PoolPair(kind: Kind, K: Knobs)
    requires (kind == AvgPool || kind == MaxPool) && K.nojoin != 0
    ensures WellFormed(PoolTable(kind)) && Distinct(PoolTable(kind))
    ensures NextLayer(PoolTable(kind), 0) == 1 && Reader(PoolTable(kind), 1, 0)
    ensures Verdict(PoolTable(kind), K, 0, 1).None?
  {
    var L := PoolTable(kind);
    assert forall i :: 0 <= i < |L| ==> RowOk(L, i);
    assert forall r: nat :: Reader(L, r, 0) ==> r == 1;
  }

  /** The pool reads the convolution's surface, and not what was prepared for it. */
  lemma PreparedPoolIsBound(kind: Kind, K: Knobs, T: State)
    requires (kind == AvgPool || kind == MaxPool) && K.nojoin != 0
    requires Planned(PoolTable(kind), K, true, T) && Sound(PoolTable(kind), T)
    ensures T.cubeIn[1] && PoolTable(kind)[1].hostInput && !Faithful(PoolTable(kind), T)
  {
    var L := PoolTable(kind);
    PoolPair(kind, K);
    PlannedPair(L, K, T, 0);
    assert OutOk(L, T, 0) && Takes(L, T, 1);
    FaithfulExactly(L, T);
  }

  // ---- an add whose input the caller prepares -------------------------------------------

  /** The planner asks it of the two producers and not of the add. */
  function AddTable(): seq<Layer> {
    [ConvOf(32, 32, 0, NONE), ConvOf(32, 32, 0, NONE), PreparedLayer(Add, 64, 32, Both(0, 1))]
  }

  lemma AddTableAgreed()
    ensures WellFormed(AddTable()) && Distinct(AddTable()) && AddAgreed(AddTable(), Unlinked(3), 2)
  {
    var L := AddTable();
    assert forall i :: 0 <= i < |L| ==> RowOk(L, i);
    assert forall r: nat, p: nat :: Reader(L, r, p) ==> r == 2;
    assert AcceptsOutput(L[0], AddLo(L, 2), 64) && AcceptsOutput(L[1], AddHi(L, 2), 64);
    assert AcceptsInput(L[2], AddAll(L, 2));
  }

  lemma AddTableAsked(K: Knobs)
    requires K.nojoin != 0 && K.nojoin != 1
    ensures WellFormed(AddTable()) && AddAsked(AddTable(), K, 2)
  {
    var L := AddTable();
    AddTableAgreed();
    FewReaders(L, 0, 3);
    FewReaders(L, 1, 3);
    assert forall r: nat, p: nat :: Reader(L, r, p) ==> r == 2;
  }

  lemma PreparedAddIsBound(K: Knobs, T: State)
    requires K.cat && K.nojoin != 0 && K.nojoin != 1
    requires Planned(AddTable(), K, true, T) && Sound(AddTable(), T)
    ensures T.cubeIn[2] && AddTable()[2].hostInput && !Faithful(AddTable(), T)
  {
    var L := AddTable();
    AddTableAgreed();
    AddTableAsked(K);
    AddAgreedTakes(L, 2);
    PlannedAdd(L, K, T, 2);
    LinkedAt(L, Unlinked(3), AddWiring(L, 2), 2);
    FaithfulExactly(L, T);
  }

  // ---- a side reader that runs too late, a concatenation whose input is prepared ----------

  /** Two 16-channel operands of a concatenation, its reader, and a late reader of the first
      that depends on the 16 channels past its own unless its weight zero point w is zero. */
  function SideTable(w: int, prepared: bool): seq<Layer> {
    [ConvOf(32, 16, 0, NONE), ConvOf(32, 16, 0, NONE),
     Layer(Concat, 32, 32, 4, 4, 0, 0, Both(0, 1), prepared, false, false, PACKED),
     ConvOf(32, 32, 0, From(2)), ConvOf(16, 32, w, From(0))]
  }

  lemma SideOperands(w: int, prepared: bool)
    ensures var L := SideTable(w, prepared);
      WellFormed(L) && Distinct(L) && Opers(L, 2) == [0, 1] && Increasing(Opers(L, 2))
  {
    var L := SideTable(w, prepared);
    assert forall i :: 0 <= i < |L| ==> RowOk(L, i);
    var src := L[2].src;
    assert src[1..] == [1, NO_SRC, NO_SRC] && src[1..][1..] == [NO_SRC, NO_SRC];
    assert OperandsOf([NO_SRC]) == [];
    assert [NO_SRC, NO_SRC][1..] == [NO_SRC];
    assert OperandsOf([NO_SRC, NO_SRC]) == [];
    assert OperandsOf([1, NO_SRC, NO_SRC]) == [1];
    assert OperandsOf(src) == [0, 1];
  }

  lemma SideReaders(w: int, prepared: bool, r: nat, p: nat)
    ensures Reader(SideTable(w, prepared), r, p) <==>
      (r == 2 && p == 0) || (r == 2 && p == 1) || (r == 3 && p == 2) || (r == 4 && p == 0)
  {
  }

  lemma SideOffsets(w: int, prepared: bool)
    ensures var L := SideTable(w, prepared);
      ConcatOff(L, [0, 1], 0) == 0 && ConcatOff(L, [0, 1], 1) == 16 && ConcatOff(L, [0, 1], 2) == 32
  {
  }

  lemma OperandReaderAccepts(w: int, prepared: bool)
    ensures var L := SideTable(w, prepared);
      && WellFormed(L) && Opers(L, 2) == [0, 1] && Increasing(Opers(L, 2))
      && AcceptsInput(L[4], HandedCube(L, ConcatWiring(L, 2), 0))
  {
    SideOperands(w, prepared);
    var L := SideTable(w, prepared);
    var W := ConcatWiring(L, 2);
    var d := Cube(Buf(2), 0, 32, 32, Frame(4, 4, 16, false), 0, 0);
    assert ConcatSlice(L, 2, [0, 1], 0) == d;
    assert [0, 1][0] == 0 && 0 in W.dest && W.dest[0] == d;
    assert HandedCube(L, W, 0) == CubeOf(L, 0, Some(d)) == Cube(Buf(2), 0, 16, 32, Frame(4, 4, 16, false), 16, 0);
  }

  lemma ViewReaderAccepts(w: int, prepared: bool)
    ensures var L := SideTable(w, prepared);
      && WellFormed(L) && Opers(L, 2) == [0, 1] && Increasing(Opers(L, 2))
      && AcceptsInput(L[3], HandedCube(L, ConcatWiring(L, 2), 2))
  {
    SideOperands(w, prepared);
    SideOffsets(w, prepared);
    var L := SideTable(w, prepared);
    assert HandedCube(L, ConcatWiring(L, 2), 2) == ConcatView(L, 2, [0, 1]);
    assert ConcatEnd(L, [0, 1]) == 48;
  }

  lemma SideReaderAccepts(w: int, prepared: bool, r: nat, p: nat)
    requires Reader(SideTable(w, prepared), r, p) && r != 2
    ensures var L := SideTable(w, prepared);
      && WellFormed(L) && Opers(L, 2) == [0, 1] && Increasing(Opers(L, 2))
      && ConsumerOk(L[r]) && AcceptsInput(L[r], HandedCube(L, ConcatWiring(L, 2), p))
  {
    SideReaders(w, prepared, r, p);
    if p == 0 { OperandReaderAccepts(w, prepared); } else { ViewReaderAccepts(w, prepared); }
  }

  lemma SideAgreed(w: int, prepared: bool)
    ensures WellFormed(SideTable(w, prepared))
    ensures ConcatAgreed(SideTable(w, prepared), Unlinked(5), 2)
  {
    var L, S0 := SideTable(w, prepared), Unlinked(5);
    SideOperands(w, prepared);
    SideOffsets(w, prepared);
    forall k | 0 <= k < 2 ensures OperandAgreed(L, S0, 2, k) {
      forall r: nat | Reader(L, r, k) && r != 2
        ensures ConsumerOk(L[r]) && AcceptsInput(L[r], HandedCube(L, ConcatWiring(L, 2), k))
      {
        SideReaderAccepts(w, prepared, r, k);
      }
    }
    assert Reader(L, 3, 2);
    forall r: nat | Reader(L, r, 2)
      ensures ConsumerOk(L[r]) && AcceptsInput(L[r], HandedCube(L, ConcatWiring(L, 2), 2))
    {
      SideReaderAccepts(w, prepared, r, 2);
    }
  }

  /** Knobs under which the concatenation pass looks at this table. */
  predicate SideKnobs(K: Knobs) {
    K.catn && K.overlap && K.nojoin != 0 && K.nojoin != 1 && K.nojoin != 2
  }

  lemma SideAsked(w: int, prepared: bool, K: Knobs)
    requires SideKnobs(K)
    ensures WellFormed(SideTable(w, prepared))
    ensures ConcatAsked(SideTable(w, prepared), K, Unlinked(5), 2)
  {
    var L, S0 := SideTable(w, prepared), Unlinked(5);
    SideOperands(w, prepared);
    SideOffsets(w, prepared);
    forall k | 0 <= k < 2 ensures OperandAsked(L, K, S0, 2, [0, 1], k) && FewFree(L, S0, k, 2) {
      FewReaders(L, k, 5);
      OperandReadersFree(w, prepared, k);
    }
    ViewReadersFree(w, prepared, K);
  }

  lemma OperandReadersFree(w: int, prepared: bool, k: nat)
    requires k < 2
    ensures |Readers(SideTable(w, prepared), k)| <= 4
    ensures ReadersFree(SideTable(w, prepared), Unlinked(5), k, 2)
  {
    var L := SideTable(w, prepared);
    forall r: nat | Reader(L, r, k) && r != 2 ensures ConsumerOk(L[r]) { SideReaders(w, prepared, r, k); }
    assert ReadersBelow(L, k, 1) == [];
    FewReadersPast(L, k);
  }

  lemma FewReadersPast(L: seq<Layer>, p: nat)
    requires |L| == 5 && ReadersBelow(L, p, 1) == []
    ensures |Readers(L, p)| <= 4
  {
    assert |ReadersBelow(L, p, 2)| <= 1 && |ReadersBelow(L, p, 3)| <= 2;
    assert |ReadersBelow(L, p, 4)| <= 3 && |ReadersBelow(L, p, 5)| <= 4;
  }

  lemma ViewReadersFree(w: int, prepared: bool, K: Knobs)
    requires SideKnobs(K)
    ensures WholeAsked(SideTable(w, prepared), K, Unlinked(5), 2)
  {
    var L := SideTable(w, prepared);
    forall r: nat | Reader(L, r, 2) ensures ConsumerOk(L[r]) && PadjoinBy(L, K, 2, r) {
      SideReaders(w, prepared, r, 2);
    }
    FewReaders(L, 2, 5);
    assert 3 in Readers(L, 2);
  }

  /** What the concatenation pass wires, and no later pass undoes. */
  lemma SidePlanned(w: int, prepared: bool, K: Knobs, T: State)
    requires SideKnobs(K) && WellFormed(SideTable(w, prepared))
    requires Planned(SideTable(w, prepared), K, true, T)
    ensures Sized(SideTable(w, prepared), T) && T.cubeOut[2] && T.cubeIn[4]
  {
    var L := SideTable(w, prepared);
    SideWirable(w, prepared, K);
    PlannedConcat(L, K, T, 2);
    SideLinked(w, prepared);
  }

  lemma SideWirable(w: int, prepared: bool, K: Knobs)
    requires SideKnobs(K)
    ensures WellFormed(SideTable(w, prepared)) && Sized(SideTable(w, prepared), Unlinked(5))
    ensures Wirable(SideTable(w, prepared), K, Concats, Unlinked(5), 2)
    ensures SideTable(w, prepared)[2].kind == Concat
    ensures forall i :: 0 <= i < 5 ==> SideTable(w, prepared)[i].kind != Add
    ensures forall i :: 0 <= i < 2 ==> SideTable(w, prepared)[i].kind != Concat
  {
    SideAgreed(w, prepared);
    SideAsked(w, prepared, K);
    ConcatAgreedTakes(SideTable(w, prepared), 2);
  }

  lemma SideLinked(w: int, prepared: bool)
    ensures var L := SideTable(w, prepared);
      && WellFormed(L) && Opers(L, 2) == [0, 1] && Increasing(Opers(L, 2))
      && var S := Link(L, Unlinked(5), ConcatWiring(L, 2)); S.cubeOut[2] && S.cubeIn[4]
  {
    SideOperands(w, prepared);
    var L := SideTable(w, prepared);
    var W := ConcatWiring(L, 2);
    assert Opers(L, 2)[0] == 0;
    assert 0 in W.out && 2 in W.out;
    assert Src(L, 4, 0) == 0;
    assert Binds(L, W, 4);
    LinkedAt(L, Unlinked(5), W, 2);
    LinkedAt(L, Unlinked(5), W, 4);
  }

  /** The second operand's program replaces the tail the late reader was promised: the table's
      plan keeps its meaning exactly when that reader's weight zero point is zero. */
  lemma SideReaderIsOvertaken(w: int, K: Knobs, T: State)
    requires SideKnobs(K) && WellFormed(SideTable(w, false))
    requires Planned(SideTable(w, false), K, true, T) && Sound(SideTable(w, false), T)
    ensures Faithful(SideTable(w, false), T) <==> w == 0
    ensures Overtaken(SideTable(w, false), T, 2, 0, 4) <==> w != 0
  {
    SidePlanned(w, false, K, T);
    SideOvertaken(w, T);
    FaithfulExactly(SideTable(w, false), T);
  }

  lemma SideOvertaken(w: int, T: State)
    requires WellFormed(SideTable(w, false)) && Sized(SideTable(w, false), T)
    requires T.cubeOut[2] && T.cubeIn[4]
    ensures Overtaken(SideTable(w, false), T, 2, 0, 4) <==> w != 0
    ensures HostFed(SideTable(w, false), T) && Unprepared(SideTable(w, false), T)
    ensures TailSafe(SideTable(w, false), T) <==> w == 0
  {
    var L := SideTable(w, false);
    SideOperands(w, false);
    SideReaders(w, false, 4, 0);
    assert Opers(L, 2)[0] == 0 && Opers(L, 2)[1] == 1;
    assert forall r: nat, p: nat :: !HostReader(L, r, p);
    assert w == 0 ==> forall r: nat :: r < |L| ==> !Sensitive(L[r]);
    if w != 0 { assert Overtaken(L, T, 2, 0, 4); }
  }

  method SidePlan(w: int, K: Knobs) returns (g: Planner?)
    requires SideKnobs(K)
    ensures WellFormed(SideTable(w, false))
    ensures g != null ==>
      Sound(SideTable(w, false), g.St()) && (Faithful(SideTable(w, false), g.St()) <==> w == 0)
  {
    SideOperands(w, false);
    g := PlanNew(SideTable(w, false), K, true);
    if g != null { SideReaderIsOvertaken(w, K, g.St()); }
  }

  /** A concatenation becomes placement although the caller prepares what it joins. */
  lemma PreparedConcatIsPlaced(K: Knobs, T: State)
    requires SideKnobs(K) && WellFormed(SideTable(0, true))
    requires Planned(SideTable(0, true), K, true, T) && Sound(SideTable(0, true), T)
    ensures Placement(SideTable(0, true), T, 2) && SideTable(0, true)[2].hostInput
    ensures !Faithful(SideTable(0, true), T)
  {
    SidePlanned(0, true, K, T);
    FaithfulExactly(SideTable(0, true), T);
  }

  // ---- which kinds of layer are bound to a cube although their input is prepared ----------

  ghost predicate NeverPrepared(kind: Kind) {
    forall L: seq<Layer>, S: State, i: nat ::
      Sound(L, S) && i < |L| && L[i].kind == kind && Takes(L, S, i) ==> !L[i].hostInput
  }

  /** The promise that a layer whose input the caller prepares is never a cube consumer is kept
      for exactly the kinds that ask for it, or that take no cube. */
  lemma PreparedByKind(kind: Kind)
    ensures NeverPrepared(kind) <==> kind == Conv || kind == DwConv || kind == Host
  {
    if kind == Conv || kind == DwConv || kind == Host {
      forall L: seq<Layer>, S: State, i: nat |
        Sound(L, S) && i < |L| && L[i].kind == kind && Takes(L, S, i)
        ensures !L[i].hostInput
      {
        if L[i].hostInput { PreparedTakers(L, S, i); }
      }
    } else if kind == Add {
      var L, S := AddTable(), Link(AddTable(), Unlinked(3), AddWiring(AddTable(), 2));
      AddTableAgreed();
      UnlinkedSound(L);
      AddWiringSound(L, Unlinked(3), 2);
      assert Takes(L, S, 2) && L[2].hostInput;
    } else if kind == Concat {
      PreparedConcatExists();
    } else {
      PreparedPoolExists(kind);
    }
  }

  lemma PreparedConcatExists()
    ensures !NeverPrepared(Concat)
  {
    var L := SideTable(0, true);
    SideAgreed(0, true);
    SideLinked(0, true);
    UnlinkedSound(L);
    ConcatWiringSound(L, Unlinked(5), 2);
    var S := Link(L, Unlinked(5), ConcatWiring(L, 2));
    assert Takes(L, S, 2) && L[2].hostInput;
  }

  lemma PreparedPoolExists(kind: Kind)
    requires kind == AvgPool || kind == MaxPool
    ensures !NeverPrepared(kind)
  {
    var L := PoolTable(kind);
    PoolPair(kind, Knobs(true, true, true, true, true, -1, -2));
    UnlinkedSound(L);
    assert Reader(L, 1, 0) && forall r: nat :: Reader(L, r, 0) ==> r == 1;
    OwnSurfaceWiringSound(L, Unlinked(2), 0, PairWiring(0));
    var S := Link(L, Unlinked(2), PairWiring(0));
    assert Takes(L, S, 1) && L[1].hostInput;
  }

  // ---- a wiring that would do harm, and that no pass tries -----------------------------

  /** A convolution with five readers on the part, one more than any pass wires, and one on the
      host. */
  function CrowdTable(): (L: seq<Layer>)
    ensures |L| == 7 && forall i :: 0 <= i < 7 ==> L[i] == CrowdRow(i)
  {
    seq(7, i requires 0 <= i < 7 => CrowdRow(i))
  }

  function CrowdRow(i: nat): Layer {
    if i == 0 then ConvOf(32, 32, 0, NONE)
    else if i < 6 then ConvOf(32, 32, 0, From(0))
    else Layer(Host, 32, 32, 4, 4, 0, 0, From(0), false, false, false, PACKED)
  }

  lemma CrowdReaders()
    ensures WellFormed(CrowdTable())
    ensures forall r: nat, p: nat :: Reader(CrowdTable(), r, p) <==> p == 0 && 1 <= r <= 5
  {
    var L := CrowdTable();
    var from := From(0);
    assert from[0] == 0 && from[1] == from[2] == from[3] == NO_SRC;
    assert forall p: nat :: p in from <==> p == 0 || p == NO_SRC;
    assert forall p: nat :: p in NONE <==> p == NO_SRC;
    forall i | 0 <= i < |L| ensures RowOk(L, i) { assert L[i].src == if i == 0 then NONE else from; }
  }

  lemma {:induction false} CrowdBelow(to: nat)
    requires to <= 6
    ensures |ReadersBelow(CrowdTable(), 0, to)| == if to == 0 then 0 else to - 1
  {
    CrowdReaders();
    if to > 0 { CrowdBelow(to - 1); }
  }

  /** Its one wiring starves the host layer, and no plan reached makes it. */
  lemma CrowdIsUnreached(K: Knobs)
    ensures WellFormed(CrowdTable()) && !Rule(CrowdTable()) && KnobRule(CrowdTable(), K)
  {
    var L := CrowdTable();
    CrowdReaders();
    CrowdOffers();
    assert HostReader(L, 6, 0) && 0 in SharedWiring(0).out;
    forall pass: Pass, j: nat ensures !Tried(L, K, pass, j) {
      CrowdIsLeft(K, pass, j);
    }
  }

  lemma CrowdOffers()
    ensures WellFormed(CrowdTable()) && Offers(CrowdTable(), SharedWiring(0))
    ensures HostReader(CrowdTable(), 6, 0)
  {
    var L := CrowdTable();
    CrowdReaders();
    assert Reader(L, 1, 0) && 0 in From(0);
    var c := HandedCube(L, SharedWiring(0), 0);
    assert c == CubeOf(L, 0, None) == Cube(Own(0), 0, 32, 32, Frame(4, 4, 16, false), 32, 0);
    assert AcceptsInput(ConvOf(32, 32, 0, From(0)), c);
    assert ReadersAgree(L, Unlinked(7), SharedWiring(0), 0, 7);
    assert OffersAt(L, SharedWiring(0), 0);
  }

  lemma CrowdNotWhole(K: Knobs, j: nat)
    requires j < 7
    ensures !WholeAsked(CrowdTable(), K, Unlinked(7), j)
  {
    var L := CrowdTable();
    CrowdReaders();
    CrowdBelow(6);
    assert Readers(L, 0) == ReadersBelow(L, 0, 6);
    NotWhole(L, K, Unlinked(7), j);
  }

  lemma CrowdIsLeft(K: Knobs, pass: Pass, j: nat)
    ensures WellFormed(CrowdTable()) && !Tried(CrowdTable(), K, pass, j)
  {
    var L := CrowdTable();
    CrowdReaders();
    if j < |L| {
      CrowdNotWhole(K, j);
      assert Reader(L, 2, 0) && (j == 0 ==> SkipSource(L, j));
      NotTried(L, K, pass, j);
    }
  }

  // ---- an add of a layer with itself -------------------------------------------------

  function TwinTable(): seq<Layer> {
    [ConvOf(32, 32, 0, NONE), Layer(Add, 64, 32, 4, 4, 0, 0, Both(0, 0), false, false, true, PACKED)]
  }

  lemma TwinRows()
    ensures WellFormed(TwinTable()) && !TwoOperands(TwinTable(), 1)
    ensures Src(TwinTable(), 1, 0) == Src(TwinTable(), 1, 1) == 0
  {
    var L, both := TwinTable(), Both(0, 0);
    assert both[0] == both[1] == 0;
    assert forall i :: 0 <= i < |L| ==> RowOk(L, i);
  }

  lemma TwinReaders()
    ensures WellFormed(TwinTable()) && !TwoOperands(TwinTable(), 1)
    ensures Src(TwinTable(), 1, 0) == Src(TwinTable(), 1, 1) == 0
    ensures Readers(TwinTable(), 0) == [1]
    ensures forall r: nat :: Reader(TwinTable(), r, 0) ==> r == 1
  {
    var L := TwinTable();
    TwinRows();
    assert ReadersBelow(L, 0, 0) == [] && ReadersBelow(L, 0, 1) == [];
    assert ReadersBelow(L, 0, 2) == [1];
  }

  lemma TwinAccepts()
    ensures var L := TwinTable();
      && AcceptsOutput(L[0], AddLo(L, 1), AddBuffer(L[1]).chans)
      && AcceptsOutput(L[0], AddHi(L, 1), AddBuffer(L[1]).chans) && AcceptsInput(L[1], AddAll(L, 1))
  {
  }

  lemma TwinAgreed()
    ensures WellFormed(TwinTable()) && AddTakes(TwinTable(), 1)
  {
    TwinReaders();
    TwinAccepts();
    assert [1][0] == 1 && |[1]| == 1;
  }

  /** The add pass wires it; its first operand is never written, and the one relation there is
      is counted twice. */
  method TwinIsWired(K: Knobs) returns (g: Planner)
    requires K.nojoin != 0
    ensures fresh(g) && g.L == TwinTable() && WellFormed(g.L) && Sized(g.L, g.St())
    ensures g.cubeIn[1] && !Sound(g.L, g.St()) && !Faithful(g.L, g.St())
    ensures g.Made() == 2 && |AdjacentPairs(g.L)| == 1
  {
    TwinReaders();
    TwinAgreed();
    g := new Planner.Init(TwinTable(), K, true);
    g.MadeIsCounted();
    ghost var S := g.St();
    var _ := g.WireAdd(1);
    TwinShows(S, g.St());
    TwinPairs();
  }

  lemma TwinShows(S: State, T: State)
    requires WellFormed(TwinTable()) && Sound(TwinTable(), S) && TwinBuilt(TwinTable(), S, T, 1)
    ensures Sized(TwinTable(), T) && T.cubeIn[1] && !Faithful(TwinTable(), T)
  {
    TwinReaders();
    TwinIsUnsound(TwinTable(), S, 1, 0, Readers(TwinTable(), 0));
    TwinIsUnfaithful(TwinTable(), S, 1, 0, Readers(TwinTable(), 0));
  }

  lemma TwinPairs()
    ensures |AdjacentPairs(TwinTable())| == 1
  {
    TwinReaders();
    assert Reader(TwinTable(), 1, 0) && NextLayer(TwinTable(), 0) == 1;
    assert AdjacentPairs(TwinTable()) == {(0, 1)};
  }
}
