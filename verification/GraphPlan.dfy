/** What the planner's passes build, as a value, and the invariant all of them keep. */
module GraphPlan {
  import opened Options
  import opened GraphLayers
  import opened GraphCubes

  /** The arrays of a plan and the bindings of the handles, one entry per layer. */
  datatype State = State(
    cubeIn: seq<bool>,    // reads a producer's surface: no host scatter
    cubeOut: seq<bool>,   // leaves a cube: no row-major tensor
    placed: seq<bool>,    // writes a slice of a shared buffer
    shared: seq<bool>,    // leaves a cube several readers take
    handles: seq<Handle>,
    bufs: seq<Option<Buffer>>)

  predicate Sized(L: seq<Layer>, S: State) {
    |S.cubeIn| == |S.cubeOut| == |S.placed| == |S.shared| == |S.handles| == |S.bufs| == |L|
  }

  function Src(L: seq<Layer>, j: nat, k: nat): (p: nat)
    requires WellFormed(L) && j < |L| && k < MAX_SRC
    ensures p in L[j].src && (p == NO_SRC || p < j)
  {
    assert RowOk(L, j);
    L[j].src[k]
  }

  function Opers(L: seq<Layer>, j: nat): (s: seq<nat>)
    requires WellFormed(L) && j < |L|
    ensures InTable(L, s)
    ensures forall k :: 0 <= k < |s| ==> s[k] < j
  {
    assert RowOk(L, j);
    var s := OperandsOf(L[j].src);
    assert forall k :: 0 <= k < |s| ==> s[k] in s;
    s
  }

  // ---- the relations a wired plan stands for -----------------------------------------

  /** Layer r takes its operands as cubes, or is a concatenation that is placement. */
  predicate Takes(L: seq<Layer>, S: State, r: nat)
    requires Sized(L, S) && r < |L|
  {
    S.cubeIn[r] || (L[r].kind == Concat && S.cubeOut[r])
  }

  /** The cube every convolution or pool that reads layer p is bound to. */
  function ReaderCube(L: seq<Layer>, S: State, p: nat): Cube
    requires WellFormed(L) && Sized(L, S) && p < |L|
  {
    var d := S.handles[p].dest;
    if L[p].kind == Concat && Opers(L, p) != [] then ConcatView(L, p, Opers(L, p))
    else if d.Some? && d.value.store == Buf(p) then TailView(L, p)
    else CubeOf(L, p, d)
  }

  /** The cube layer r is bound to when it reads one. */
  function InputCube(L: seq<Layer>, S: State, r: nat): Cube
    requires WellFormed(L) && Sized(L, S) && r < |L| && Src(L, r, 0) < |L|
  {
    if L[r].kind == Add then AddAll(L, r) else ReaderCube(L, S, Src(L, r, 0))
  }

  // ---- the invariant, one layer at a time --------------------------------------------

  /** Why layer i may write into slice `d` of layer j's buffer: it is an operand of a wired
      add or of a concatenation that is placement, or it was given a tail of its own. */
  ghost predicate PlacedFor(L: seq<Layer>, S: State, i: nat, j: nat, d: Cube)
    requires WellFormed(L) && Sized(L, S) && i < |L|
  {
    j < |L| &&
    (|| (j == i && IsPool(L[i]) && d == TailSlice(L, i) && L[i].oc % 16 == 0)
     || (L[j].kind == Add && S.cubeIn[j] && Src(L, j, 0) == i && d == AddLo(L, j))
     || (L[j].kind == Add && S.cubeIn[j] && Src(L, j, 1) == i && d == AddHi(L, j))
     || (L[j].kind == Concat && S.cubeOut[j] &&
         exists k :: 0 <= k < |Opers(L, j)| && Opers(L, j)[k] == i
                     && d == ConcatSlice(L, j, Opers(L, j), k)))
  }

  ghost predicate HasReader(L: seq<Layer>, i: nat) {
    exists r: nat :: Reader(L, r, i)
  }

  /** No reader of layer i is left wanting a row-major tensor. */
  ghost predicate Fed(L: seq<Layer>, S: State, i: nat)
    requires Sized(L, S)
  {
    forall r: nat :: Reader(L, r, i) ==> Takes(L, S, r)
  }

  ghost predicate DestOk(L: seq<Layer>, S: State, i: nat)
    requires WellFormed(L) && Sized(L, S) && i < |L|
  {
    match S.handles[i].dest
    case None => !S.placed[i]
    case Some(d) =>
      && S.placed[i] && d.store.Buf? && PlacedFor(L, S, i, d.store.j, d)
      && S.bufs[d.store.j].Some? && AcceptsOutput(L[i], d, S.bufs[d.store.j].value.chans)
  }

  /** A concatenation that is placement: its operands run in operand order, each writing the
      slice at its own channel offset, and all of them share one zero point. */
  ghost predicate ConcatWired(L: seq<Layer>, S: State, j: nat)
    requires WellFormed(L) && Sized(L, S) && j < |L|
  {
    var s := Opers(L, j);
    && s != [] && Increasing(s)
    && ConcatOff(L, s, |s|) == L[j].oc
    && (forall k :: 0 <= k < |s| ==>
          && S.cubeOut[s[k]]
          && S.handles[s[k]].dest == Some(ConcatSlice(L, j, s, k))
          && ConcatOff(L, s, k) % 16 == 0
          && L[s[k]].outZp == L[j].outZp)
  }

  ghost predicate AddWired(L: seq<Layer>, S: State, j: nat)
    requires WellFormed(L) && Sized(L, S) && j < |L|
  {
    var a, b := Src(L, j, 0), Src(L, j, 1);
    && a < |L| && b < |L|
    && S.handles[a].dest == Some(AddLo(L, j))
    && S.handles[b].dest == Some(AddHi(L, j))
  }

  /** A surface read past the next layer is placed or declared shared to its handle. */
  ghost predicate DeclaredOk(L: seq<Layer>, S: State, i: nat)
    requires Sized(L, S) && i < |L|
  {
    && (SkipSource(L, i) ==> S.placed[i] || S.shared[i])
    && (S.shared[i] && !IsPool(L[i]) ==> S.handles[i].shared)
  }

  /** The producer side. A layer that leaves a cube has a reader, starves none of them, and
      writes where its placement says. One that does not is exactly as it was packed. */
  ghost predicate OutOk(L: seq<Layer>, S: State, i: nat)
    requires WellFormed(L) && Sized(L, S) && i < |L|
  {
    if S.cubeOut[i] then
      && HasReader(L, i) && Fed(L, S, i)
      && (if L[i].kind == Concat then
            ConcatWired(L, S, i) && !S.placed[i] && !S.shared[i]
            && !S.handles[i].leaves && S.handles[i].dest == None
          else
            && L[i].resident && Describable(L[i]) && S.handles[i].leaves && DestOk(L, S, i)
            && DeclaredOk(L, S, i))
    else
      && !S.placed[i] && !S.shared[i]
      && !S.handles[i].leaves && S.handles[i].dest == None && !S.handles[i].shared
  }

  /** The reader side. A layer that reads a cube is bound to the cube its producer describes
      now, and every operand of it leaves one. */
  ghost predicate InOk(L: seq<Layer>, S: State, r: nat)
    requires WellFormed(L) && Sized(L, S) && r < |L|
  {
    if S.cubeIn[r] then
      && L[r].resident && Src(L, r, 0) < |L| && (L[r].hostInput ==> IsPool(L[r]) || L[r].kind == Add)
      && (forall p: nat :: p in L[r].src && p != NO_SRC ==> p < |L| && S.cubeOut[p])
      && S.handles[r].source == Some(InputCube(L, S, r))
      && AcceptsInput(L[r], InputCube(L, S, r))
      && (L[r].kind == Add ==> AddWired(L, S, r))
    else
      S.handles[r].source == None
  }

  /** Layer j owns a buffer exactly when something is placed in it. */
  ghost predicate BufOk(L: seq<Layer>, S: State, j: nat)
    requires WellFormed(L) && Sized(L, S) && j < |L|
  {
    S.bufs[j] ==
      if L[j].kind == Add && S.cubeIn[j] then Some(AddBuffer(L[j]))
      else if L[j].kind == Concat && S.cubeOut[j] && Opers(L, j) != []
        then Some(ConcatBuffer(L, j, Opers(L, j)))
      else if S.handles[j].dest.Some? && S.handles[j].dest.value.store == Buf(j)
        then Some(TailBuffer(L[j]))
      else None
  }

  ghost predicate Sound(L: seq<Layer>, S: State) {
    && WellFormed(L) && Sized(L, S)
    && (forall i :: 0 <= i < |L| ==> OutOk(L, S, i))
    && (forall i :: 0 <= i < |L| ==> InOk(L, S, i))
    && (forall i :: 0 <= i < |L| ==> BufOk(L, S, i))
  }

  /** Nothing linked: every handle as it was packed. */
  function Unlinked(n: nat): (S: State)
    ensures |S.cubeIn| == |S.cubeOut| == |S.placed| == |S.shared| == |S.handles| == |S.bufs| == n
  {
    var off := seq(n, _ => false);
    State(off, off, off, off, seq(n, _ => IDLE), seq(n, _ => None))
  }

  lemma UnlinkedSound(L: seq<Layer>)
    requires WellFormed(L)
    ensures Sound(L, Unlinked(|L|))
  {
  }

  // ---- growing a plan ----------------------------------------------------------------

  /** One wiring decision: the layers that newly leave cubes, the slices the placed ones are
      given, the ones declared shared, the buffers allocated, and the adds wired by it. The
      readers follow: every convolution and pool that reads a layer of `out`. */
  datatype Wiring = Wiring(
    out: set<nat>, dest: map<nat, Cube>, decl: set<nat>, buf: map<nat, Buffer>, adds: set<nat>)

  predicate Binds(L: seq<Layer>, W: Wiring, r: nat)
    requires WellFormed(L) && r < |L|
  {
    || r in W.adds
    || (L[r].kind != Add && L[r].kind != Concat && L[r].kind != Host && Src(L, r, 0) in W.out)
  }

  /** The cube a reader of layer p is handed by wiring W. */
  function HandedCube(L: seq<Layer>, W: Wiring, p: nat): Cube
    requires WellFormed(L) && p < |L|
  {
    var d := if p in W.dest then Some(W.dest[p]) else None;
    if L[p].kind == Concat && Opers(L, p) != [] then ConcatView(L, p, Opers(L, p))
    else if d.Some? && d.value.store == Buf(p) then TailView(L, p)
    else CubeOf(L, p, d)
  }

  function BoundCube(L: seq<Layer>, W: Wiring, r: nat): Cube
    requires WellFormed(L) && r < |L|
  {
    if r in W.adds || |L| <= Src(L, r, 0) then AddAll(L, r) else HandedCube(L, W, Src(L, r, 0))
  }

  /** The handle of layer i once W is wired. */
  function LinkedHandle(L: seq<Layer>, W: Wiring, i: nat, h: Handle): Handle
    requires WellFormed(L) && i < |L|
  {
    Handle(if Binds(L, W, i) then Some(BoundCube(L, W, i)) else h.source,
           if i in W.dest then Some(W.dest[i]) else h.dest,
           h.leaves || (i in W.out && L[i].kind != Concat),
           h.shared || (i in W.decl && !IsPool(L[i])))
  }

  /** The plan once W is wired, everything W does not name being as it was. */
  function Link(L: seq<Layer>, S: State, W: Wiring): State
    requires WellFormed(L) && Sized(L, S)
  {
    State(seq(|L|, i requires 0 <= i < |L| => S.cubeIn[i] || Binds(L, W, i)),
          seq(|L|, i requires 0 <= i < |L| => S.cubeOut[i] || i in W.out),
          seq(|L|, i requires 0 <= i < |L| => S.placed[i] || i in W.dest),
          seq(|L|, i requires 0 <= i < |L| => S.shared[i] || i in W.decl),
          seq(|L|, i requires 0 <= i < |L| => LinkedHandle(L, W, i, S.handles[i])),
          seq(|L|, i requires 0 <= i < |L| => if i in W.buf then Some(W.buf[i]) else S.bufs[i]))
  }

  /** W names only layers no earlier wiring touched, slices and declarations only of layers
      it makes leave a cube, and its adds only adds. */
  ghost predicate Fresh(L: seq<Layer>, S: State, W: Wiring)
    requires WellFormed(L) && Sized(L, S)
  {
    && (forall i :: i in W.out ==> i < |L| && !S.cubeOut[i])
    && (forall i :: i in W.dest ==> i in W.out)
    && (forall i :: i in W.decl ==> i in W.out)
    && (forall j :: j in W.adds ==> j < |L| && L[j].kind == Add && !S.cubeIn[j])
  }

  /** What one entry of a linked plan holds. */
  lemma LinkedAt(L: seq<Layer>, S: State, W: Wiring, i: nat)
    requires WellFormed(L) && Sized(L, S) && i < |L|
    ensures var T := Link(L, S, W);
      && T.cubeIn[i] == (S.cubeIn[i] || Binds(L, W, i))
      && T.cubeOut[i] == (S.cubeOut[i] || i in W.out)
      && (i !in W.dest ==> T.placed[i] == S.placed[i] && T.handles[i].dest == S.handles[i].dest)
      && (i !in W.decl ==> T.shared[i] == S.shared[i] && T.handles[i].shared == S.handles[i].shared)
      && (i !in W.out ==> T.handles[i].leaves == S.handles[i].leaves)
      && (!Binds(L, W, i) ==> T.handles[i].source == S.handles[i].source)
      && (i !in W.buf ==> T.bufs[i] == S.bufs[i])
  {
  }

  lemma FedStays(L: seq<Layer>, S: State, W: Wiring, i: nat)
    requires WellFormed(L) && Sized(L, S) && Fed(L, S, i)
    ensures Fed(L, Link(L, S, W), i)
  {
    forall r: nat | Reader(L, r, i) ensures Takes(L, Link(L, S, W), r) {
      assert Takes(L, S, r);
      LinkedAt(L, S, W, r);
    }
  }

  lemma DestStays(L: seq<Layer>, S: State, W: Wiring, i: nat)
    requires WellFormed(L) && Sized(L, S) && i < |L| && DestOk(L, S, i) && i !in W.dest
    requires forall j :: j in W.buf && j < |L| ==> S.bufs[j] == None
    ensures DestOk(L, Link(L, S, W), i)
  {
    LinkedAt(L, S, W, i);
    var d := S.handles[i].dest;
    if d.Some? {
      LinkedAt(L, S, W, d.value.store.j);
      assert PlacedFor(L, Link(L, S, W), i, d.value.store.j, d.value);
    }
  }

  lemma ConcatStays(L: seq<Layer>, S: State, W: Wiring, j: nat)
    requires WellFormed(L) && Sized(L, S) && Fresh(L, S, W) && j < |L| && ConcatWired(L, S, j)
    ensures ConcatWired(L, Link(L, S, W), j)
  {
    var s := Opers(L, j);
    forall k | 0 <= k < |s|
      ensures Link(L, S, W).cubeOut[s[k]]
      ensures Link(L, S, W).handles[s[k]].dest == Some(ConcatSlice(L, j, s, k))
    {
      LinkedAt(L, S, W, s[k]);
      assert s[k] !in W.out;
    }
  }

  lemma OtherOutOk(L: seq<Layer>, S: State, W: Wiring, i: nat)
    requires WellFormed(L) && Sized(L, S) && Fresh(L, S, W) && i < |L| && i !in W.out
    requires forall j :: j in W.buf && j < |L| ==> S.bufs[j] == None
    requires OutOk(L, S, i)
    ensures OutOk(L, Link(L, S, W), i)
  {
    LinkedAt(L, S, W, i);
    assert i !in W.dest && i !in W.decl;
    if S.cubeOut[i] {
      FedStays(L, S, W, i);
      if L[i].kind == Concat { ConcatStays(L, S, W, i); } else { DestStays(L, S, W, i); }
    }
  }

  lemma OtherInOk(L: seq<Layer>, S: State, W: Wiring, r: nat)
    requires WellFormed(L) && Sized(L, S) && Fresh(L, S, W) && r < |L| && !Binds(L, W, r)
    requires InOk(L, S, r)
    ensures InOk(L, Link(L, S, W), r)
  {
    LinkedAt(L, S, W, r);
    if S.cubeIn[r] {
      forall p: nat | p in L[r].src && p != NO_SRC
        ensures p < |L| && p !in W.out && Link(L, S, W).cubeOut[p]
        ensures Link(L, S, W).handles[p].dest == S.handles[p].dest
      {
        LinkedAt(L, S, W, p);
      }
      assert Src(L, r, 0) in L[r].src && Src(L, r, 1) in L[r].src;
      assert InputCube(L, Link(L, S, W), r) == InputCube(L, S, r);
    }
  }

  /** A wiring that is right about the layers it names leaves every other layer right: no
      bound reader sees its producer's surface move, and no wired reader is unwired. */
  lemma LinkKeepsSound(L: seq<Layer>, S: State, W: Wiring)
    requires Sound(L, S) && Fresh(L, S, W)
    requires forall i :: i in W.out ==> OutOk(L, Link(L, S, W), i)
    requires forall r :: 0 <= r < |L| && Binds(L, W, r) ==> InOk(L, Link(L, S, W), r)
    requires forall j :: 0 <= j < |L| ==> BufOk(L, Link(L, S, W), j)
    requires forall j :: j in W.buf && j < |L| ==> S.bufs[j] == None
    ensures Sound(L, Link(L, S, W))
  {
    var T := Link(L, S, W);
    forall i: nat | i < |L| && i !in W.out ensures OutOk(L, T, i) {
      assert OutOk(L, S, i);
      OtherOutOk(L, S, W, i);
    }
    forall r: nat | r < |L| && !Binds(L, W, r) ensures InOk(L, T, r) {
      assert InOk(L, S, r);
      OtherInOk(L, S, W, r);
    }
  }
}
