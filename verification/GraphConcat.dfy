/** What the concatenation pass builds, step by step, and that it is the linked plan. */
module GraphConcat {
  import opened Options
  import opened GraphLayers
  import opened GraphCubes
  import opened GraphPlan
  import opened GraphWiring
  import opened GraphAccounting
  import opened GraphBinding

  /** One list of readers per operand. */
  predicate Lists(n: nat, rds: seq<seq<nat>>) {
    forall k :: 0 <= k < |rds| ==> Indices(n, rds[k])
  }

  /** What operand k describes once it writes its slice. */
  function OperandCube(L: seq<Layer>, j: nat, s: seq<nat>, k: nat): Cube
    requires j < |L| && InTable(L, s) && k < |s|
  {
    CubeOf(L, s[k], Some(ConcatSlice(L, j, s, k)))
  }

  /** The first k operands given their slices. */
  function Placed(L: seq<Layer>, hs: seq<Handle>, j: nat, s: seq<nat>, k: nat): (t: seq<Handle>)
    requires |hs| == |L| && j < |L| && InTable(L, s) && k <= |s|
    ensures |t| == |hs|
  {
    if k == 0 then hs
    else
      var t := Placed(L, hs, j, s, k - 1);
      t[s[k - 1] := t[s[k - 1]].(dest := Some(ConcatSlice(L, j, s, k - 1)), leaves := true)]
  }

  /** The first k operands' other readers handed those operands' cubes. */
  function SideBound(L: seq<Layer>, hs: seq<Handle>, j: nat, s: seq<nat>, rds: seq<seq<nat>>, k: nat)
    : (t: seq<Handle>)
    requires |hs| == |L| && j < |L| && InTable(L, s) && |rds| == |s| && Lists(|L|, rds) && k <= |s|
    ensures |t| == |hs|
  {
    if k == 0 then hs
    else Bound(SideBound(L, hs, j, s, rds, k - 1), rds[k - 1], j, OperandCube(L, j, s, k - 1))
  }

  function SideMarked(bs: seq<bool>, rds: seq<seq<nat>>, k: nat, except: nat): (t: seq<bool>)
    requires Lists(|bs|, rds) && k <= |rds|
    ensures |t| == |bs|
  {
    if k == 0 then bs else Marked(SideMarked(bs, rds, k - 1, except), rds[k - 1], except)
  }

  /** The first k operands' relations: to the concatenation, then to their other readers. */
  ghost function SideRelated(rel: set<Pair>, j: nat, s: seq<nat>, rds: seq<seq<nat>>, k: nat)
    : set<Pair>
    requires |rds| == |s| && k <= |s|
  {
    if k == 0 then rel
    else Related(SideRelated(rel, j, s, rds, k - 1) + {(s[k - 1], j)}, s[k - 1], rds[k - 1], j)
  }

  /** The flags of a list of layers raised. */
  function Raised(bs: seq<bool>, s: seq<nat>): seq<bool>
    requires Indices(|bs|, s)
  {
    Marked(bs, s, |bs|)
  }

  /** The plan the pass leaves behind when concatenation j goes through. */
  function ConcatBuilt(L: seq<Layer>, S: State, j: nat, s: seq<nat>, rds: seq<seq<nat>>,
                       cons: seq<nat>): State
    requires Sized(L, S) && j < |L| && InTable(L, s) && s != [] && Indices(|L|, s)
    requires |rds| == |s| && Lists(|L|, rds) && Indices(|L|, cons)
  {
    State(Marked(SideMarked(S.cubeIn, rds, |s|, j), cons, |L|),
          Raised(S.cubeOut, s)[j := true],
          Raised(S.placed, s),
          S.shared,
          SideBound(L, Bound(Placed(L, S.handles, j, s, |s|), cons, |L|, ConcatView(L, j, s)),
                    j, s, rds, |s|),
          S.bufs[j := Some(ConcatBuffer(L, j, s))])
  }

  // ---- the folds, entry by entry -----------------------------------------------------

  lemma {:induction false} PlacedAt(L: seq<Layer>, hs: seq<Handle>, j: nat, s: seq<nat>, k: nat, i: nat)
    requires |hs| == |L| && j < |L| && InTable(L, s) && k <= |s| && Increasing(s) && i < |L|
    ensures var t := Placed(L, hs, j, s, k);
      && t[i].source == hs[i].source && t[i].shared == hs[i].shared
      && (forall m :: 0 <= m < k && s[m] == i ==>
            t[i].dest == Some(ConcatSlice(L, j, s, m)) && t[i].leaves)
      && (i !in s[..k] ==> t[i] == hs[i])
  {
    if k > 0 {
      PlacedAt(L, hs, j, s, k - 1, i);
      assert s[..k] == s[..k - 1] + [s[k - 1]];
    }
  }

  lemma {:induction false} SideBoundAt(L: seq<Layer>, hs: seq<Handle>, j: nat, s: seq<nat>,
                                       rds: seq<seq<nat>>, k: nat, i: nat)
    requires |hs| == |L| && j < |L| && InTable(L, s) && |rds| == |s| && Lists(|L|, rds)
    requires k <= |s| && i < |L|
    requires forall m, o :: 0 <= m < o < |s| && i != j && i in rds[m] ==> i !in rds[o]
    ensures var t := SideBound(L, hs, j, s, rds, k);
      && (forall m :: 0 <= m < k && i != j && i in rds[m] ==>
            t[i] == hs[i].(source := Some(OperandCube(L, j, s, m))))
      && ((forall m :: 0 <= m < k ==> i !in rds[m]) || i == j ==> t[i] == hs[i])
  {
    if k > 0 {
      SideBoundAt(L, hs, j, s, rds, k - 1, i);
      BoundAt(SideBound(L, hs, j, s, rds, k - 1), rds[k - 1], j, OperandCube(L, j, s, k - 1), i);
    }
  }

  lemma {:induction false} SideMarkedAt(bs: seq<bool>, rds: seq<seq<nat>>, k: nat, except: nat, i: nat)
    requires Lists(|bs|, rds) && k <= |rds| && i < |bs|
    ensures SideMarked(bs, rds, k, except)[i]
            <==> bs[i] || (i != except && exists m :: 0 <= m < k && i in rds[m])
  {
    if k > 0 {
      SideMarkedAt(bs, rds, k - 1, except, i);
      MarkedAt(SideMarked(bs, rds, k - 1, except), rds[k - 1], except, i);
    }
  }

  lemma {:induction false} SideRelatedIs(rel: set<Pair>, j: nat, s: seq<nat>, rds: seq<seq<nat>>,
                                         k: nat, x: Pair)
    requires |rds| == |s| && k <= |s|
    ensures x in SideRelated(rel, j, s, rds, k)
            <==> x in rel || exists m :: 0 <= m < k && x.0 == s[m] && (x.1 == j || x.1 in rds[m])
  {
    if k > 0 {
      SideRelatedIs(rel, j, s, rds, k - 1, x);
      RelatedIs(SideRelated(rel, j, s, rds, k - 1) + {(s[k - 1], j)}, s[k - 1], rds[k - 1], j, x);
    }
  }

  // ---- what the pass knows before it touches anything --------------------------------

  ghost predicate OperandFit(L: seq<Layer>, S: State, j: nat, s: seq<nat>, k: nat)
    requires WellFormed(L) && Sized(L, S) && j < |L| && InTable(L, s) && k < |s|
  {
    && L[s[k]].resident && !S.cubeOut[s[k]]
    && ConcatOff(L, s, k) % 16 == 0 && L[s[k]].outZp == L[j].outZp
  }

  /** Every reader of p but `except` can take a cube and is not linked yet. */
  ghost predicate ReadersFree(L: seq<Layer>, S: State, p: nat, except: nat)
    requires Sized(L, S)
  {
    forall r: nat :: Reader(L, r, p) && r != except ==> ConsumerOk(L[r]) && !S.cubeIn[r]
  }

  ghost predicate ConcatEligible(L: seq<Layer>, S: State, j: nat, s: seq<nat>,
                                 rds: seq<seq<nat>>, cons: seq<nat>)
    requires WellFormed(L) && Sized(L, S)
  {
    && j < |L| && L[j].kind == Concat && !S.cubeOut[j] && s == Opers(L, j) && s != []
    && Increasing(s) && ConcatOff(L, s, |s|) == L[j].oc && |rds| == |s|
    && (forall k :: 0 <= k < |s| ==> OperandFit(L, S, j, s, k))
    && (forall k :: 0 <= k < |s| ==> rds[k] == Readers(L, s[k]) && ReadersFree(L, S, s[k], j))
    && cons == Readers(L, j) && cons != [] && ReadersFree(L, S, j, |L|)
  }

  predicate OperandTaken(L: seq<Layer>, j: nat, s: seq<nat>, k: nat)
    requires j < |L| && InTable(L, s) && k < |s|
  {
    && Describable(L[s[k]])
    && AcceptsOutput(L[s[k]], ConcatSlice(L, j, s, k), ConcatBuffer(L, j, s).chans)
  }

  /** What the library agreed to when concatenation j was wired. */
  ghost predicate ConcatTaken(L: seq<Layer>, j: nat, s: seq<nat>, rds: seq<seq<nat>>, cons: seq<nat>)
    requires j < |L| && InTable(L, s) && s != [] && |rds| == |s|
    requires Lists(|L|, rds) && Indices(|L|, cons)
  {
    && (forall k :: 0 <= k < |s| ==> OperandTaken(L, j, s, k))
    && (forall q :: 0 <= q < |cons| ==> AcceptsInput(L[cons[q]], ConcatView(L, j, s)))
    && (forall k, q :: 0 <= k < |s| && 0 <= q < |rds[k]| && rds[k][q] != j ==>
          AcceptsInput(L[rds[k][q]], OperandCube(L, j, s, k)))
  }

  lemma ConcatLists(L: seq<Layer>, S: State, j: nat, s: seq<nat>, rds: seq<seq<nat>>, cons: seq<nat>)
    requires WellFormed(L) && Sized(L, S) && ConcatEligible(L, S, j, s, rds, cons)
    ensures Indices(|L|, s) && Lists(|L|, rds) && Indices(|L|, cons)
  {
    ReadersIndexed(L, j);
    forall k | 0 <= k < |s| ensures Indices(|L|, rds[k]) { ReadersIndexed(L, s[k]); }
  }

  lemma OperandDest(L: seq<Layer>, j: nat, k: nat)
    requires WellFormed(L) && j < |L| && k < |Opers(L, j)| && Increasing(Opers(L, j))
    ensures Opers(L, j)[k] in ConcatWiring(L, j).dest
    ensures ConcatWiring(L, j).dest[Opers(L, j)[k]] == ConcatSlice(L, j, Opers(L, j), k)
  {
  }

  /** What operand k hands its readers. */
  lemma OperandHands(L: seq<Layer>, j: nat, k: nat)
    requires WellFormed(L) && j < |L| && k < |Opers(L, j)| && Increasing(Opers(L, j))
    requires L[Opers(L, j)[k]].kind != Concat
    ensures HandedCube(L, ConcatWiring(L, j), Opers(L, j)[k]) == OperandCube(L, j, Opers(L, j), k)
  {
    OperandDest(L, j, k);
  }

  /** What operand k, and the concatenation itself, hand their readers. */
  lemma ConcatHands(L: seq<Layer>, S: State, j: nat, s: seq<nat>, rds: seq<seq<nat>>,
                    cons: seq<nat>, k: nat)
    requires WellFormed(L) && Sized(L, S) && ConcatEligible(L, S, j, s, rds, cons) && k < |s|
    ensures HandedCube(L, ConcatWiring(L, j), s[k]) == OperandCube(L, j, s, k)
    ensures HandedCube(L, ConcatWiring(L, j), j) == ConcatView(L, j, s)
  {
    assert OperandFit(L, S, j, s, k) && RowOk(L, s[k]);
    OperandHands(L, j, k);
  }

  lemma ConcatTakenAgreed(L: seq<Layer>, S: State, j: nat, s: seq<nat>, rds: seq<seq<nat>>,
                          cons: seq<nat>)
    requires Sound(L, S) && ConcatEligible(L, S, j, s, rds, cons)
    requires Lists(|L|, rds) && Indices(|L|, cons) && ConcatTaken(L, j, s, rds, cons)
    ensures ConcatAgreed(L, S, j)
  {
    var W := ConcatWiring(L, j);
    forall k | 0 <= k < |s| ensures OperandAgreed(L, S, j, k) {
      assert OperandFit(L, S, j, s, k) && OperandTaken(L, j, s, k);
      ConcatHands(L, S, j, s, rds, cons, k);
      forall r: nat | Reader(L, r, s[k]) && r != j
        ensures ConsumerOk(L[r]) && !S.cubeIn[r] && AcceptsInput(L[r], HandedCube(L, W, s[k]))
      {
        assert ReadersFree(L, S, s[k], j) && r in rds[k];
        var q :| 0 <= q < |rds[k]| && rds[k][q] == r;
      }
    }
    ConcatHands(L, S, j, s, rds, cons, 0);
    forall r: nat | Reader(L, r, j)
      ensures ConsumerOk(L[r]) && !S.cubeIn[r] && AcceptsInput(L[r], HandedCube(L, W, j))
    {
      assert r in cons;
      var q :| 0 <= q < |cons| && cons[q] == r;
    }
    assert cons[0] in cons;
    assert Reader(L, cons[0], j);
  }

  // ---- the built plan is the linked one ----------------------------------------------

  /** Whose reader a layer is decides what the wiring does to it. */
  lemma ConcatBinds(L: seq<Layer>, S: State, j: nat, s: seq<nat>, rds: seq<seq<nat>>,
                    cons: seq<nat>, i: nat)
    requires WellFormed(L) && Sized(L, S) && ConcatEligible(L, S, j, s, rds, cons) && i < |L|
    ensures i in cons ==> Binds(L, ConcatWiring(L, j), i) && Src(L, i, 0) == j
    ensures forall m :: 0 <= m < |s| && i in rds[m] && i != j ==>
              Binds(L, ConcatWiring(L, j), i) && Src(L, i, 0) == s[m]
    ensures Binds(L, ConcatWiring(L, j), i) ==>
              i in cons || (i != j && exists m :: 0 <= m < |s| && i in rds[m])
  {
    var W := ConcatWiring(L, j);
    if i in cons { ReaderIsBound(L, W, i, j); }
    forall m | 0 <= m < |s| && i in rds[m] && i != j
      ensures Binds(L, W, i) && Src(L, i, 0) == s[m]
    {
      assert ReadersFree(L, S, s[m], j) && s[m] in W.out;
      ReaderIsBound(L, W, i, s[m]);
    }
    if Binds(L, W, i) {
      BoundIsReader(L, W, i);
      var p := Src(L, i, 0);
      if p != j {
        var m :| 0 <= m < |s| && s[m] == p;
        assert i in rds[m];
      }
    }
  }

  /** The reader lists of one concatenation have only it in common. */
  lemma ConcatListsApart(L: seq<Layer>, S: State, j: nat, s: seq<nat>, rds: seq<seq<nat>>,
                         cons: seq<nat>, i: nat)
    requires WellFormed(L) && Sized(L, S) && ConcatEligible(L, S, j, s, rds, cons) && i < |L|
    ensures forall m, o :: 0 <= m < o < |s| && i != j && i in rds[m] ==> i !in rds[o]
    ensures forall m :: 0 <= m < |s| && i in cons ==> i !in rds[m]
  {
    ConcatBinds(L, S, j, s, rds, cons, i);
    forall m, o | 0 <= m < o < |s| && i != j && i in rds[m] ensures i !in rds[o] {
      assert s[m] < s[o];
    }
  }

  lemma ConcatMarkedAt(L: seq<Layer>, S: State, j: nat, s: seq<nat>, rds: seq<seq<nat>>,
                       cons: seq<nat>, i: nat)
    requires WellFormed(L) && Sized(L, S) && ConcatEligible(L, S, j, s, rds, cons) && i < |L|
    requires Indices(|L|, s) && Lists(|L|, rds) && Indices(|L|, cons)
    ensures ConcatBuilt(L, S, j, s, rds, cons).cubeIn[i]
            == (S.cubeIn[i] || Binds(L, ConcatWiring(L, j), i))
  {
    SideMarkedAt(S.cubeIn, rds, |s|, j, i);
    MarkedAt(SideMarked(S.cubeIn, rds, |s|, j), cons, |L|, i);
    ConcatBinds(L, S, j, s, rds, cons, i);
  }

  /** The cube the pass binds layer i to, if it binds it. */
  lemma ConcatBoundCube(L: seq<Layer>, S: State, j: nat, s: seq<nat>, rds: seq<seq<nat>>,
                        cons: seq<nat>, i: nat)
    requires WellFormed(L) && Sized(L, S) && ConcatEligible(L, S, j, s, rds, cons) && i < |L|
    ensures i in cons ==> BoundCube(L, ConcatWiring(L, j), i) == ConcatView(L, j, s)
    ensures forall m :: 0 <= m < |s| && i in rds[m] && i != j ==>
              BoundCube(L, ConcatWiring(L, j), i) == OperandCube(L, j, s, m)
  {
    ConcatBinds(L, S, j, s, rds, cons, i);
    ConcatHands(L, S, j, s, rds, cons, 0);
    forall m | 0 <= m < |s| && i in rds[m] && i != j
      ensures BoundCube(L, ConcatWiring(L, j), i) == OperandCube(L, j, s, m)
    {
      ConcatHands(L, S, j, s, rds, cons, m);
    }
  }

  /** Binding the consumers and then the side readers, at entry i. */
  lemma ConcatBoundAt(L: seq<Layer>, hs: seq<Handle>, j: nat, s: seq<nat>, rds: seq<seq<nat>>,
                      cons: seq<nat>, i: nat)
    requires |hs| == |L| && j < |L| && InTable(L, s) && s != [] && |rds| == |s| && i < |L|
    requires Lists(|L|, rds) && Indices(|L|, cons)
    requires forall m, o :: 0 <= m < o < |s| && i != j && i in rds[m] ==> i !in rds[o]
    requires forall m :: 0 <= m < |s| && i in cons ==> i !in rds[m]
    ensures var t := SideBound(L, Bound(hs, cons, |L|, ConcatView(L, j, s)), j, s, rds, |s|);
      && (i in cons ==> t[i] == hs[i].(source := Some(ConcatView(L, j, s))))
      && (forall m :: 0 <= m < |s| && i != j && i in rds[m] ==>
            t[i] == hs[i].(source := Some(OperandCube(L, j, s, m))))
      && (i !in cons && (i == j || forall m :: 0 <= m < |s| ==> i !in rds[m]) ==> t[i] == hs[i])
  {
    BoundAt(hs, cons, |L|, ConcatView(L, j, s), i);
    SideBoundAt(L, Bound(hs, cons, |L|, ConcatView(L, j, s)), j, s, rds, |s|, i);
  }

  lemma ConcatSourceAt(L: seq<Layer>, S: State, j: nat, s: seq<nat>, rds: seq<seq<nat>>,
                       cons: seq<nat>, i: nat)
    requires WellFormed(L) && Sized(L, S) && ConcatEligible(L, S, j, s, rds, cons) && i < |L|
    requires Indices(|L|, s) && Lists(|L|, rds) && Indices(|L|, cons)
    ensures var h, W := Placed(L, S.handles, j, s, |s|)[i], ConcatWiring(L, j);
      ConcatBuilt(L, S, j, s, rds, cons).handles[i]
      == h.(source := if Binds(L, W, i) then Some(BoundCube(L, W, i)) else S.handles[i].source)
  {
    PlacedAt(L, S.handles, j, s, |s|, i);
    ConcatListsApart(L, S, j, s, rds, cons, i);
    ConcatBoundAt(L, Placed(L, S.handles, j, s, |s|), j, s, rds, cons, i);
    ConcatBinds(L, S, j, s, rds, cons, i);
    ConcatBoundCube(L, S, j, s, rds, cons, i);
    if Binds(L, ConcatWiring(L, j), i) && i !in cons {
      var m :| 0 <= m < |s| && i in rds[m];
    }
  }

  lemma ConcatHandleAt(L: seq<Layer>, S: State, j: nat, s: seq<nat>, rds: seq<seq<nat>>,
                       cons: seq<nat>, i: nat)
    requires Sound(L, S) && ConcatEligible(L, S, j, s, rds, cons) && i < |L|
    requires Indices(|L|, s) && Lists(|L|, rds) && Indices(|L|, cons)
    ensures ConcatBuilt(L, S, j, s, rds, cons).handles[i]
            == LinkedHandle(L, ConcatWiring(L, j), i, S.handles[i])
  {
    ConcatSourceAt(L, S, j, s, rds, cons, i);
    ConcatOutputAt(L, S, j, s, rds, cons, i);
  }

  lemma ConcatOutputAt(L: seq<Layer>, S: State, j: nat, s: seq<nat>, rds: seq<seq<nat>>,
                       cons: seq<nat>, i: nat)
    requires WellFormed(L) && Sized(L, S) && ConcatEligible(L, S, j, s, rds, cons) && i < |L|
    ensures var h, W := Placed(L, S.handles, j, s, |s|)[i], ConcatWiring(L, j);
      && h.dest == (if i in W.dest then Some(W.dest[i]) else S.handles[i].dest)
      && h.leaves == (S.handles[i].leaves || (i in W.out && L[i].kind != Concat))
      && h.shared == S.handles[i].shared
  {
    var W := ConcatWiring(L, j);
    PlacedAt(L, S.handles, j, s, |s|, i);
    assert s[..|s|] == s;
    if i in s {
      var m :| 0 <= m < |s| && s[m] == i;
      assert OperandFit(L, S, j, s, m) && RowOk(L, i);
      OperandDest(L, j, m);
      assert i in W.out;
    } else {
      assert i !in W.dest;
      assert i in W.out ==> i == j;
    }
  }

  lemma ConcatBuiltIsLinked(L: seq<Layer>, S: State, j: nat, s: seq<nat>, rds: seq<seq<nat>>,
                            cons: seq<nat>)
    requires Sound(L, S) && ConcatEligible(L, S, j, s, rds, cons)
    requires Indices(|L|, s) && Lists(|L|, rds) && Indices(|L|, cons)
    ensures ConcatBuilt(L, S, j, s, rds, cons) == Link(L, S, ConcatWiring(L, j))
  {
    var T, W := ConcatBuilt(L, S, j, s, rds, cons), ConcatWiring(L, j);
    forall i: nat | i < |L|
      ensures T.cubeIn[i] == (S.cubeIn[i] || Binds(L, W, i))
      ensures T.cubeOut[i] == (S.cubeOut[i] || i in W.out)
      ensures T.placed[i] == (S.placed[i] || i in W.dest)
      ensures T.handles[i] == LinkedHandle(L, W, i, S.handles[i])
    {
      ConcatMarkedAt(L, S, j, s, rds, cons, i);
      ConcatHandleAt(L, S, j, s, rds, cons, i);
      MarkedAt(S.cubeOut, s, |L|, i);
      MarkedAt(S.placed, s, |L|, i);
      assert i in s <==> exists k :: 0 <= k < |s| && s[k] == i;
    }
    IsLinked(L, S, W, T);
  }

  lemma ConcatPairAt(L: seq<Layer>, S: State, j: nat, s: seq<nat>, rds: seq<seq<nat>>,
                     cons: seq<nat>, x: Pair)
    requires WellFormed(L) && Sized(L, S) && ConcatEligible(L, S, j, s, rds, cons)
    ensures x in Related(SideRelated(WiredPairs(L, S), j, s, rds, |s|), j, cons, |L|)
            <==> x in WiredPairs(L, S) || (Reader(L, x.1, x.0) && (x.0 == j || x.0 in s))
  {
    var rel := WiredPairs(L, S);
    SideRelatedIs(rel, j, s, rds, |s|, x);
    RelatedIs(SideRelated(rel, j, s, rds, |s|), j, cons, |L|, x);
    forall m | 0 <= m < |s| && x.0 == s[m]
      ensures (x.1 == j || x.1 in rds[m]) <==> Reader(L, x.1, x.0)
    {
      assert RowOk(L, j) && s[m] in s && Reader(L, j, s[m]);
    }
  }

  /** Wiring a concatenation counts exactly its operands' relations and its own. */
  lemma ConcatPairs(L: seq<Layer>, S: State, j: nat, s: seq<nat>, rds: seq<seq<nat>>, cons: seq<nat>)
    requires WellFormed(L) && Sized(L, S) && ConcatEligible(L, S, j, s, rds, cons)
    ensures Related(SideRelated(WiredPairs(L, S), j, s, rds, |s|), j, cons, |L|)
            == WiredPairs(L, Link(L, S, ConcatWiring(L, j)))
  {
    var W := ConcatWiring(L, j);
    forall x: Pair
      ensures x in Related(SideRelated(WiredPairs(L, S), j, s, rds, |s|), j, cons, |L|)
              <==> x in WiredPairs(L, Link(L, S, W))
    {
      ConcatPairAt(L, S, j, s, rds, cons, x);
      if x.0 < |L| { LinkedAt(L, S, W, x.0); }
    }
  }

  // ---- undoing an attempt ------------------------------------------------------------

  /** The first k operands' readers unbound and the operands back on surfaces of their own. */
  function Undone(hs: seq<Handle>, j: nat, s: seq<nat>, rds: seq<seq<nat>>, k: nat): (t: seq<Handle>)
    requires Indices(|hs|, s) && |rds| == |s| && Lists(|hs|, rds) && k <= |s|
    ensures |t| == |hs|
  {
    if k == 0 then hs
    else
      var t := Unbound(Undone(hs, j, s, rds, k - 1), rds[k - 1], j);
      t[s[k - 1] := t[s[k - 1]].(dest := None, leaves := false)]
  }

  lemma {:induction false} UndoneAt(hs: seq<Handle>, j: nat, s: seq<nat>, rds: seq<seq<nat>>,
                                    k: nat, i: nat)
    requires Indices(|hs|, s) && |rds| == |s| && Lists(|hs|, rds) && k <= |s| && i < |hs|
    ensures var t := Undone(hs, j, s, rds, k);
      && t[i].source == (if i != j && exists m :: 0 <= m < k && i in rds[m] then None
                         else hs[i].source)
      && t[i].dest == (if i in s[..k] then None else hs[i].dest)
      && t[i].leaves == (i !in s[..k] && hs[i].leaves)
      && t[i].shared == hs[i].shared
  {
    if k > 0 {
      UndoneAt(hs, j, s, rds, k - 1, i);
      UnboundAt(Undone(hs, j, s, rds, k - 1), rds[k - 1], j, i);
      assert s[..k] == s[..k - 1] + [s[k - 1]];
    }
  }

  /** Every layer an attempt at concatenation j may bind, and every one it may place. */
  function Bindable(n: nat, j: nat, rds: seq<seq<nat>>, cons: seq<nat>): set<nat> {
    set i: nat | i < n && (i in cons || (i != j && exists m :: 0 <= m < |rds| && i in rds[m]))
  }

  lemma SideBindable(n: nat, j: nat, rds: seq<seq<nat>>, k: nat)
    requires k < |rds| && Indices(n, rds[k])
    ensures (set r | r in rds[k] && r != j) <= Bindable(n, j, rds, [])
  {
  }

  /** However far an attempt got, undoing the whole of it leaves the handles as they were. */
  lemma UndoneIsOld(h: seq<Handle>, t: seq<Handle>, j: nat, s: seq<nat>, rds: seq<seq<nat>>,
                    cons: seq<nat>)
    requires Indices(|h|, s) && |rds| == |s| && Lists(|h|, rds) && Indices(|h|, cons)
    requires Loosened(h, t, Bindable(|h|, j, rds, cons), set p | p in s)
    requires forall i :: i in Bindable(|h|, j, rds, cons) ==> h[i].source == None
    requires forall p :: p in s && p < |h| ==> h[p].dest == None && !h[p].leaves
    ensures Undone(Unbound(t, cons, |h|), j, s, rds, |s|) == h
  {
    var u := Unbound(t, cons, |h|);
    assert s[..|s|] == s;
    forall i: nat | i < |h| ensures Undone(u, j, s, rds, |s|)[i] == h[i] {
      UnboundAt(t, cons, |h|, i);
      UndoneAt(u, j, s, rds, |s|, i);
    }
  }

  // ---- before and after --------------------------------------------------------------

  /** Nothing an attempt is about to touch has been touched. */
  lemma ConcatIsFree(L: seq<Layer>, S: State, j: nat, s: seq<nat>, rds: seq<seq<nat>>, cons: seq<nat>)
    requires Sound(L, S) && ConcatEligible(L, S, j, s, rds, cons)
    ensures j !in s && 0 < L[j].oc && S.bufs[j] == None && Increasing(cons)
    ensures forall k :: 0 <= k < |rds| ==> Increasing(rds[k])
    ensures forall i :: i in Bindable(|L|, j, rds, cons) ==> S.handles[i].source == None
    ensures forall p :: p in s && p < |L| ==> S.handles[p].dest == None && !S.handles[p].leaves
    ensures forall x :: x in WiredPairs(L, S) ==> x.0 !in s && x.0 != j
  {
    assert RowOk(L, j) && BufOk(L, S, j);
    IdleOut(L, S, j);
    forall i | i in Bindable(|L|, j, rds, cons) ensures S.handles[i].source == None {
      assert InOk(L, S, i);
      if i !in cons {
        var m :| 0 <= m < |rds| && i in rds[m];
        assert ReadersFree(L, S, s[m], j);
      }
    }
    forall p | p in s && p < |L|
      ensures S.handles[p].dest == None && !S.handles[p].leaves && !S.cubeOut[p]
    {
      var k :| 0 <= k < |s| && s[k] == p;
      assert OperandFit(L, S, j, s, k);
      IdleOut(L, S, p);
    }
  }

  /** Wiring a concatenation leaves every other concatenation as it was. */
  lemma ConcatTouchesOnly(L: seq<Layer>, S: State, j: nat, T: State)
    requires Sound(L, T) && Sized(L, S) && j < |L| && L[j].kind == Concat
    requires Opers(L, j) != [] && Increasing(Opers(L, j)) && T == Link(L, S, ConcatWiring(L, j))
    ensures forall k :: 0 <= k < |L| && L[k].kind == Concat && k != j ==> T.cubeOut[k] == S.cubeOut[k]
  {
    var s := Opers(L, j);
    forall m | 0 <= m < |s| ensures L[s[m]].kind != Concat {
      OperandDest(L, j, m);
      assert OutOk(L, T, s[m]);
    }
  }
}
