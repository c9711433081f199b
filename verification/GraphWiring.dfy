/** The five wirings the passes choose between, and why each one leaves a sound plan. */
module GraphWiring {
  import opened Options
  import opened GraphLayers
  import opened GraphCubes
  import opened GraphPlan
  import opened GraphAccounting
  import opened GraphBinding

  /** Whether a layer's lowering lets it read a producer's surface. An add is a consumer only
      where a placement gives it one buffer holding both operands. */
  predicate ConsumerOk(l: Layer) {
    if IsPool(l) then l.resident
    else (l.kind == Conv || l.kind == DwConv) && !l.hostInput && l.resident
  }

  /** Of the layers whose input the caller prepares the test refuses all but a pool. The add and
      the concatenation are not asked it; GraphRules says where that leads. */
  lemma PreparedInputIsRefused(l: Layer)
    requires l.hostInput
    ensures ConsumerOk(l) <==> IsPool(l) && l.resident
  {
  }

  // ---- the wirings -------------------------------------------------------------------

  /** One buffer per add: operand A's producer writes the low slice and operand B's the high. */
  function AddWiring(L: seq<Layer>, j: nat): Wiring
    requires WellFormed(L) && j < |L|
  {
    var a, b := Src(L, j, 0), Src(L, j, 1);
    Wiring({a, b}, map[a := AddLo(L, j), b := AddHi(L, j)], {}, map[j := AddBuffer(L[j])], {j})
  }

  /** One buffer per concatenation: operand k's producer writes at its own channel offset. */
  function ConcatWiring(L: seq<Layer>, j: nat): Wiring
    requires WellFormed(L) && j < |L| && Opers(L, j) != [] && Increasing(Opers(L, j))
  {
    var s := Opers(L, j);
    Wiring((set k | 0 <= k < |s| :: s[k]) + {j},
           map k | 0 <= k < |s| :: s[k] := ConcatSlice(L, j, s, k),
           {}, map[j := ConcatBuffer(L, j, s)], {})
  }

  /** A buffer of its own for a producer that cannot say what its tail holds. */
  function TailWiring(L: seq<Layer>, i: nat): Wiring
    requires i < |L|
  {
    Wiring({i}, map[i := TailSlice(L, i)], {}, map[i := TailBuffer(L[i])], {})
  }

  /** Every reader of a skip source takes the surface it owns. */
  function SharedWiring(i: nat): Wiring {
    Wiring({i}, map[], {i}, map[], {})
  }

  /** An adjacent pair: the one reader takes the surface its producer owns. */
  function PairWiring(i: nat): Wiring {
    Wiring({i}, map[], {}, map[], {})
  }

  // ---- what the library has agreed to when a wiring goes through ---------------------

  /** Every reader of layer p but `except` can take a cube, is not linked already, and has
      accepted the one it is handed. */
  ghost predicate ReadersAgree(L: seq<Layer>, S: State, W: Wiring, p: nat, except: nat)
    requires WellFormed(L) && Sized(L, S) && p < |L|
  {
    forall r: nat :: Reader(L, r, p) && r != except ==>
      ConsumerOk(L[r]) && !S.cubeIn[r] && AcceptsInput(L[r], HandedCube(L, W, p))
  }

  /** A producer that agreed to write slice `d` of a buffer `b`. */
  predicate ProducerAgrees(L: seq<Layer>, p: nat, d: Cube, b: Buffer) {
    p < |L| && L[p].resident && Describable(L[p]) && AcceptsOutput(L[p], d, b.chans)
  }

  // ---- what every wiring shares ------------------------------------------------------

  /** What a linked reader holds is what its producer describes once linked. */
  lemma HandedIsDescribed(L: seq<Layer>, S: State, W: Wiring, p: nat)
    requires WellFormed(L) && Sized(L, S) && p < |L| && S.handles[p].dest == None
    ensures ReaderCube(L, Link(L, S, W), p) == HandedCube(L, W, p)
  {
  }

  lemma BoundReaderOk(L: seq<Layer>, S: State, W: Wiring, r: nat)
    requires WellFormed(L) && Sized(L, S) && r < |L| && ConsumerOk(L[r]) && r !in W.adds
    requires var p := Src(L, r, 0);
             && p < |L| && p in W.out && S.handles[p].dest == None
             && AcceptsInput(L[r], HandedCube(L, W, p))
    ensures InOk(L, Link(L, S, W), r)
  {
    var T, p := Link(L, S, W), Src(L, r, 0);
    HandedIsDescribed(L, S, W, p);
    if L[r].hostInput { PreparedInputIsRefused(L[r]); }
    assert RowOk(L, r) && Binds(L, W, r) && T.cubeIn[r] && T.cubeOut[p];
    assert T.handles[r].source == Some(BoundCube(L, W, r));
    forall q: nat | q in L[r].src && q != NO_SRC ensures q == p {
      SoleOperand(L, r, q);
    }
  }

  lemma LinkedFeeds(L: seq<Layer>, S: State, W: Wiring, p: nat)
    requires WellFormed(L) && Sized(L, S) && p < |L| && p in W.out
    requires forall r: nat :: Reader(L, r, p) ==>
               r in W.adds || (L[r].kind == Concat && r in W.out) || ConsumerOk(L[r])
    ensures Fed(L, Link(L, S, W), p)
  {
    forall r: nat | Reader(L, r, p) ensures Takes(L, Link(L, S, W), r) {
      if r !in W.adds && ConsumerOk(L[r]) {
        SoleOperand(L, r, p);
        assert Binds(L, W, r);
      }
    }
  }

  /** A layer whose buffer the wiring does not allocate owns the one it owned before. */
  lemma OtherBufOk(L: seq<Layer>, S: State, W: Wiring, k: nat)
    requires WellFormed(L) && Sized(L, S) && k < |L| && k !in W.buf && BufOk(L, S, k)
    requires k !in W.adds && (L[k].kind == Concat ==> k !in W.out)
    requires k in W.dest ==> S.handles[k].dest == None && W.dest[k].store != Buf(k)
    ensures BufOk(L, Link(L, S, W), k)
  {
    var T := Link(L, S, W);
    assert T.bufs[k] == S.bufs[k];
    assert L[k].kind == Add ==> !Binds(L, W, k);
  }

  /** The convolution or pool that reads a linked producer is one of its readers. */
  lemma BoundIsReader(L: seq<Layer>, W: Wiring, r: nat)
    requires WellFormed(L) && r < |L| && Binds(L, W, r) && r !in W.adds && NO_SRC !in W.out
    ensures Src(L, r, 0) in W.out && Reader(L, r, Src(L, r, 0))
  {
  }

  /** And every reader of a linked producer that can take a cube is bound to that producer. */
  lemma ReaderIsBound(L: seq<Layer>, W: Wiring, r: nat, p: nat)
    requires WellFormed(L) && Reader(L, r, p) && p in W.out && ConsumerOk(L[r])
    ensures Binds(L, W, r) && Src(L, r, 0) == p
  {
    SoleOperand(L, r, p);
  }

  /** A layer that leaves no cube is untouched. */
  lemma IdleOut(L: seq<Layer>, S: State, i: nat)
    requires Sound(L, S) && i < |L| && !S.cubeOut[i]
    ensures S.handles[i].dest == None && !S.placed[i] && !S.shared[i] && !S.handles[i].leaves
  {
    assert OutOk(L, S, i);
  }

  // ---- an add ------------------------------------------------------------------------

  /** An add not yet wired has no producer that leaves a cube, and so nothing bound to one. */
  lemma UnwiredAdd(L: seq<Layer>, S: State, j: nat, p: nat)
    requires Sound(L, S) && j < |L| && L[j].kind == Add && !S.cubeIn[j]
    requires p < |L| && p in L[j].src
    ensures !S.cubeOut[p] && S.bufs[j] == None
    ensures forall r: nat :: Reader(L, r, p) && ConsumerOk(L[r]) ==> !S.cubeIn[r]
  {
    assert RowOk(L, j) && OutOk(L, S, p) && BufOk(L, S, j) && OutOk(L, S, j);
    assert Reader(L, j, p);
    forall r: nat | Reader(L, r, p) && ConsumerOk(L[r]) ensures !S.cubeIn[r] {
      SoleOperand(L, r, p);
      assert InOk(L, S, r);
    }
  }

  /** Everything an add's wiring rests on. */
  ghost predicate AddAgreed(L: seq<Layer>, S: State, j: nat)
    requires WellFormed(L) && Sized(L, S)
  {
    && j < |L| && L[j].kind == Add && !S.cubeIn[j] && L[j].resident
    && Src(L, j, 0) != NO_SRC && Src(L, j, 1) != NO_SRC && Src(L, j, 0) != Src(L, j, 1)
    && ProducerAgrees(L, Src(L, j, 0), AddLo(L, j), AddBuffer(L[j]))
    && ProducerAgrees(L, Src(L, j, 1), AddHi(L, j), AddBuffer(L[j]))
    && AcceptsInput(L[j], AddAll(L, j))
    && ReadersAgree(L, S, AddWiring(L, j), Src(L, j, 0), j)
    && ReadersAgree(L, S, AddWiring(L, j), Src(L, j, 1), j)
  }

  lemma AddDestOk(L: seq<Layer>, S: State, j: nat, p: nat)
    requires WellFormed(L) && Sized(L, S) && AddAgreed(L, S, j)
    requires p == Src(L, j, 0) || p == Src(L, j, 1)
    ensures DestOk(L, Link(L, S, AddWiring(L, j)), p)
  {
    var a, b, W := Src(L, j, 0), Src(L, j, 1), AddWiring(L, j);
    var T := Link(L, S, W);
    assert RowOk(L, j);
    assert a != b;
    var d := if p == a then AddLo(L, j) else AddHi(L, j);
    assert W.dest[p] == d;
    assert T.handles[p].dest == Some(d) && T.placed[p];
    assert PlacedFor(L, T, p, j, d);
    assert T.bufs[j] == Some(AddBuffer(L[j]));
  }

  lemma AddOutOk(L: seq<Layer>, S: State, j: nat, p: nat)
    requires Sound(L, S) && AddAgreed(L, S, j)
    requires p == Src(L, j, 0) || p == Src(L, j, 1)
    ensures !S.cubeOut[p] && OutOk(L, Link(L, S, AddWiring(L, j)), p)
  {
    var T := Link(L, S, AddWiring(L, j));
    UnwiredAdd(L, S, j, p);
    IdleOut(L, S, p);
    assert Reader(L, j, p);
    LinkedFeeds(L, S, AddWiring(L, j), p);
    AddDestOk(L, S, j, p);
    assert RowOk(L, p);
    assert T.placed[p];
  }

  lemma AddBecomesWired(L: seq<Layer>, S: State, j: nat)
    requires WellFormed(L) && Sized(L, S) && AddAgreed(L, S, j)
    ensures AddWired(L, Link(L, S, AddWiring(L, j)), j)
    ensures Link(L, S, AddWiring(L, j)).handles[j].source == Some(AddAll(L, j))
    ensures Link(L, S, AddWiring(L, j)).cubeOut[Src(L, j, 0)]
    ensures Link(L, S, AddWiring(L, j)).cubeOut[Src(L, j, 1)]
  {
    var a, b, W := Src(L, j, 0), Src(L, j, 1), AddWiring(L, j);
    assert RowOk(L, j);
    assert W.dest[a] == AddLo(L, j) && W.dest[b] == AddHi(L, j);
  }

  lemma AddInOk(L: seq<Layer>, S: State, j: nat)
    requires WellFormed(L) && Sized(L, S) && AddAgreed(L, S, j)
    ensures InOk(L, Link(L, S, AddWiring(L, j)), j)
  {
    AddBecomesWired(L, S, j);
    assert RowOk(L, j);
    forall p: nat | p in L[j].src && p != NO_SRC
      ensures p < |L| && Link(L, S, AddWiring(L, j)).cubeOut[p]
    {
      AddOperand(L, j, p);
    }
  }

  lemma AddBoundReaderOk(L: seq<Layer>, S: State, j: nat, r: nat)
    requires Sound(L, S) && AddAgreed(L, S, j) && r < |L| && Binds(L, AddWiring(L, j), r)
    ensures InOk(L, Link(L, S, AddWiring(L, j)), r)
  {
    var p := Src(L, r, 0);
    if r == j {
      AddInOk(L, S, j);
    } else {
      assert RowOk(L, j) && Reader(L, r, p);
      UnwiredAdd(L, S, j, p);
      IdleOut(L, S, p);
      BoundReaderOk(L, S, AddWiring(L, j), r);
    }
  }

  lemma AddBufOk(L: seq<Layer>, S: State, j: nat, k: nat)
    requires Sound(L, S) && AddAgreed(L, S, j) && k < |L|
    ensures BufOk(L, Link(L, S, AddWiring(L, j)), k)
  {
    assert BufOk(L, S, k) && RowOk(L, j) && RowOk(L, k);
    if k != j {
      if k == Src(L, j, 0) || k == Src(L, j, 1) {
        UnwiredAdd(L, S, j, k);
        IdleOut(L, S, k);
      }
      OtherBufOk(L, S, AddWiring(L, j), k);
    }
  }

  lemma AddWiringSound(L: seq<Layer>, S: State, j: nat)
    requires Sound(L, S) && AddAgreed(L, S, j)
    ensures Sound(L, Link(L, S, AddWiring(L, j)))
  {
    var W := AddWiring(L, j);
    var T := Link(L, S, W);
    UnwiredAdd(L, S, j, Src(L, j, 0));
    assert S.bufs[j] == None;
    forall p | p in W.out ensures !S.cubeOut[p] && OutOk(L, T, p) { AddOutOk(L, S, j, p); }
    forall r: nat | r < |L| && Binds(L, W, r) ensures InOk(L, T, r) { AddBoundReaderOk(L, S, j, r); }
    forall k: nat | k < |L| ensures BufOk(L, T, k) { AddBufOk(L, S, j, k); }
    LinkKeepsSound(L, S, W);
  }

  // ---- a concatenation ---------------------------------------------------------------

  /** Everything a concatenation's wiring rests on. */
  ghost predicate ConcatAgreed(L: seq<Layer>, S: State, j: nat)
    requires WellFormed(L) && Sized(L, S)
  {
    && j < |L| && L[j].kind == Concat && !S.cubeOut[j]
    && var s := Opers(L, j);
    && s != [] && Increasing(s) && ConcatOff(L, s, |s|) == L[j].oc
    && (forall k :: 0 <= k < |s| ==> OperandAgreed(L, S, j, k))
    && HasReader(L, j) && ReadersAgree(L, S, ConcatWiring(L, j), j, |L|)
  }

  ghost predicate OperandAgreed(L: seq<Layer>, S: State, j: nat, k: nat)
    requires WellFormed(L) && Sized(L, S) && j < |L|
    requires k < |Opers(L, j)| && Increasing(Opers(L, j))
  {
    var s := Opers(L, j);
    && !S.cubeOut[s[k]]
    && ConcatOff(L, s, k) % 16 == 0 && L[s[k]].outZp == L[j].outZp
    && ProducerAgrees(L, s[k], ConcatSlice(L, j, s, k), ConcatBuffer(L, j, s))
    && ReadersAgree(L, S, ConcatWiring(L, j), s[k], j)
  }

  lemma ConcatOperandOutOk(L: seq<Layer>, S: State, j: nat, k: nat)
    requires Sound(L, S) && ConcatAgreed(L, S, j) && k < |Opers(L, j)|
    ensures OutOk(L, Link(L, S, ConcatWiring(L, j)), Opers(L, j)[k])
  {
    var s, W := Opers(L, j), ConcatWiring(L, j);
    var p, T := s[k], Link(L, S, W);
    assert OperandAgreed(L, S, j, k) && RowOk(L, j) && RowOk(L, p) && p in s && p in W.out;
    IdleOut(L, S, p);
    assert Reader(L, j, p);
    LinkedFeeds(L, S, W, p);
    assert W.dest[p] == ConcatSlice(L, j, s, k);
    assert T.placed[p] && PlacedFor(L, T, p, j, W.dest[p]);
    assert T.bufs[j] == Some(ConcatBuffer(L, j, s));
    assert DestOk(L, T, p);
  }

  lemma ConcatOperandPlaced(L: seq<Layer>, S: State, j: nat, k: nat)
    requires WellFormed(L) && Sized(L, S) && ConcatAgreed(L, S, j) && k < |Opers(L, j)|
    ensures var s, T := Opers(L, j), Link(L, S, ConcatWiring(L, j));
      && T.cubeOut[s[k]] && T.handles[s[k]].dest == Some(ConcatSlice(L, j, s, k))
      && ConcatOff(L, s, k) % 16 == 0 && L[s[k]].outZp == L[j].outZp
  {
    var s, W := Opers(L, j), ConcatWiring(L, j);
    assert OperandAgreed(L, S, j, k);
    assert s[k] in W.out && W.dest[s[k]] == ConcatSlice(L, j, s, k);
  }

  lemma ConcatBecomesWired(L: seq<Layer>, S: State, j: nat)
    requires WellFormed(L) && Sized(L, S) && ConcatAgreed(L, S, j)
    ensures ConcatWired(L, Link(L, S, ConcatWiring(L, j)), j)
  {
    var s := Opers(L, j);
    forall k: nat | k < |s|
      ensures Link(L, S, ConcatWiring(L, j)).cubeOut[s[k]]
      ensures Link(L, S, ConcatWiring(L, j)).handles[s[k]].dest == Some(ConcatSlice(L, j, s, k))
      ensures ConcatOff(L, s, k) % 16 == 0 && L[s[k]].outZp == L[j].outZp
    {
      ConcatOperandPlaced(L, S, j, k);
    }
  }

  lemma ConcatOwnOutOk(L: seq<Layer>, S: State, j: nat)
    requires Sound(L, S) && ConcatAgreed(L, S, j)
    ensures OutOk(L, Link(L, S, ConcatWiring(L, j)), j)
  {
    var W := ConcatWiring(L, j);
    IdleOut(L, S, j);
    LinkedFeeds(L, S, W, j);
    ConcatBecomesWired(L, S, j);
    assert j !in W.dest && j in W.out;
  }

  lemma ConcatBoundReaderOk(L: seq<Layer>, S: State, j: nat, r: nat)
    requires Sound(L, S) && ConcatAgreed(L, S, j) && r < |L| && Binds(L, ConcatWiring(L, j), r)
    ensures InOk(L, Link(L, S, ConcatWiring(L, j)), r)
  {
    var s, W, p := Opers(L, j), ConcatWiring(L, j), Src(L, r, 0);
    assert RowOk(L, r) && Reader(L, r, p);
    if p != j {
      var k :| 0 <= k < |s| && s[k] == p;
      assert OperandAgreed(L, S, j, k);
    }
    IdleOut(L, S, p);
    BoundReaderOk(L, S, W, r);
  }

  lemma ConcatOwnBufOk(L: seq<Layer>, S: State, j: nat)
    requires Sound(L, S) && ConcatAgreed(L, S, j)
    ensures BufOk(L, Link(L, S, ConcatWiring(L, j)), j) && S.bufs[j] == None
  {
    IdleOut(L, S, j);
    assert BufOk(L, S, j);
  }

  lemma ConcatDest(L: seq<Layer>, S: State, j: nat, k: nat)
    requires Sound(L, S) && ConcatAgreed(L, S, j) && k < |L| && k != j
    ensures var W := ConcatWiring(L, j);
      k in W.dest ==> L[k].kind != Concat && S.handles[k].dest == None && W.dest[k].store != Buf(k)
    ensures k in ConcatWiring(L, j).out ==> k in ConcatWiring(L, j).dest
  {
    var s, W := Opers(L, j), ConcatWiring(L, j);
    if k in W.out {
      var m :| 0 <= m < |s| && s[m] == k;
      assert OperandAgreed(L, S, j, m) && RowOk(L, k);
      IdleOut(L, S, k);
      assert W.dest[k] == ConcatSlice(L, j, s, m);
    }
  }

  lemma ConcatBufOk(L: seq<Layer>, S: State, j: nat, k: nat)
    requires Sound(L, S) && ConcatAgreed(L, S, j) && k < |L|
    ensures BufOk(L, Link(L, S, ConcatWiring(L, j)), k)
    ensures S.bufs[j] == None
  {
    ConcatOwnBufOk(L, S, j);
    if k != j {
      ConcatDest(L, S, j, k);
      assert BufOk(L, S, k);
      OtherBufOk(L, S, ConcatWiring(L, j), k);
    }
  }

  lemma ConcatFresh(L: seq<Layer>, S: State, j: nat)
    requires WellFormed(L) && Sized(L, S) && ConcatAgreed(L, S, j)
    ensures Fresh(L, S, ConcatWiring(L, j))
  {
    var s, W := Opers(L, j), ConcatWiring(L, j);
    forall p | p in W.out && p != j ensures p < |L| && !S.cubeOut[p] {
      var k :| 0 <= k < |s| && s[k] == p;
      assert OperandAgreed(L, S, j, k);
    }
  }

  lemma ConcatOutOk(L: seq<Layer>, S: State, j: nat, p: nat)
    requires Sound(L, S) && ConcatAgreed(L, S, j) && p in ConcatWiring(L, j).out
    ensures OutOk(L, Link(L, S, ConcatWiring(L, j)), p)
  {
    if p == j {
      ConcatOwnOutOk(L, S, j);
    } else {
      var k :| 0 <= k < |Opers(L, j)| && Opers(L, j)[k] == p;
      ConcatOperandOutOk(L, S, j, k);
    }
  }

  lemma ConcatWiringSound(L: seq<Layer>, S: State, j: nat)
    requires Sound(L, S) && ConcatAgreed(L, S, j)
    ensures Sound(L, Link(L, S, ConcatWiring(L, j)))
  {
    var W := ConcatWiring(L, j);
    var T := Link(L, S, W);
    ConcatFresh(L, S, j);
    forall p | p in W.out ensures OutOk(L, T, p) { ConcatOutOk(L, S, j, p); }
    forall r: nat | r < |L| && Binds(L, W, r) ensures InOk(L, T, r) {
      ConcatBoundReaderOk(L, S, j, r);
    }
    ConcatBufOk(L, S, j, j);
    assert S.bufs[j] == None;
    forall k: nat | k < |L| ensures BufOk(L, T, k) { ConcatBufOk(L, S, j, k); }
    LinkKeepsSound(L, S, W);
  }

  // ---- a declared tail, a shared surface, an adjacent pair ---------------------------

  lemma TailWiringSound(L: seq<Layer>, S: State, i: nat)
    requires Sound(L, S) && i < |L| && !S.cubeOut[i] && IsPool(L[i])
    requires ProducerAgrees(L, i, TailSlice(L, i), TailBuffer(L[i]))
    requires HasReader(L, i) && ReadersAgree(L, S, TailWiring(L, i), i, |L|)
    ensures Sound(L, Link(L, S, TailWiring(L, i)))
  {
    var W := TailWiring(L, i);
    var T := Link(L, S, W);
    IdleOut(L, S, i);
    LinkedFeeds(L, S, W, i);
    assert T.handles[i].dest == Some(TailSlice(L, i)) && T.placed[i];
    assert T.bufs[i] == Some(TailBuffer(L[i]));
    assert PlacedFor(L, T, i, i, TailSlice(L, i));
    assert DestOk(L, T, i);
    assert OutOk(L, T, i);
    forall r: nat | r < |L| && Binds(L, W, r) ensures InOk(L, T, r) {
      assert RowOk(L, r) && Reader(L, r, i);
      BoundReaderOk(L, S, W, r);
    }
    forall k: nat | k < |L| ensures BufOk(L, T, k) {
      assert BufOk(L, S, k);
      if k != i { OtherBufOk(L, S, W, k); }
    }
    assert BufOk(L, S, i);
    LinkKeepsSound(L, S, W);
  }

  lemma OwnSurfaceWiringSound(L: seq<Layer>, S: State, i: nat, W: Wiring)
    requires Sound(L, S) && i < |L| && !S.cubeOut[i] && L[i].resident && Describable(L[i])
    requires W == SharedWiring(i) || (W == PairWiring(i) && !SkipSource(L, i))
    requires HasReader(L, i) && ReadersAgree(L, S, W, i, |L|)
    ensures Sound(L, Link(L, S, W))
  {
    var T := Link(L, S, W);
    IdleOut(L, S, i);
    LinkedFeeds(L, S, W, i);
    assert RowOk(L, i);
    assert T.handles[i].dest == None && !T.placed[i];
    assert DeclaredOk(L, T, i);
    assert OutOk(L, T, i);
    forall r: nat | r < |L| && Binds(L, W, r) ensures InOk(L, T, r) {
      assert RowOk(L, r) && Reader(L, r, i);
      BoundReaderOk(L, S, W, r);
    }
    forall k: nat | k < |L| ensures BufOk(L, T, k) {
      assert BufOk(L, S, k);
      OtherBufOk(L, S, W, k);
    }
    LinkKeepsSound(L, S, W);
  }

  // ---- recognising a linked plan -----------------------------------------------------

  /** A state whose every entry is what the wiring makes it is the linked plan. */
  lemma IsLinked(L: seq<Layer>, S: State, W: Wiring, T: State)
    requires WellFormed(L) && Sized(L, S) && Sized(L, T)
    requires forall i :: 0 <= i < |L| ==> T.cubeIn[i] == (S.cubeIn[i] || Binds(L, W, i))
    requires forall i :: 0 <= i < |L| ==> T.cubeOut[i] == (S.cubeOut[i] || i in W.out)
    requires forall i :: 0 <= i < |L| ==> T.placed[i] == (S.placed[i] || i in W.dest)
    requires forall i :: 0 <= i < |L| ==> T.shared[i] == (S.shared[i] || i in W.decl)
    requires forall i :: 0 <= i < |L| ==> T.handles[i] == LinkedHandle(L, W, i, S.handles[i])
    requires forall i :: 0 <= i < |L| ==>
               T.bufs[i] == if i in W.buf then Some(W.buf[i]) else S.bufs[i]
    ensures T == Link(L, S, W)
  {
    var U := Link(L, S, W);
    assert T.cubeIn == U.cubeIn && T.cubeOut == U.cubeOut && T.placed == U.placed;
    assert T.shared == U.shared && T.handles == U.handles && T.bufs == U.bufs;
  }

  /** The layers an add's wiring binds: the add, and its producers' other readers. */
  lemma AddBinds(L: seq<Layer>, j: nat, r: nat)
    requires WellFormed(L) && j < |L| && L[j].kind == Add && r < |L|
    requires Src(L, j, 0) != NO_SRC && Src(L, j, 1) != NO_SRC
    requires forall q: nat :: Reader(L, q, Src(L, j, 0)) && q != j ==> ConsumerOk(L[q])
    requires forall q: nat :: Reader(L, q, Src(L, j, 1)) && q != j ==> ConsumerOk(L[q])
    ensures Binds(L, AddWiring(L, j), r) <==>
            r == j || Reader(L, r, Src(L, j, 0)) || Reader(L, r, Src(L, j, 1))
    ensures r != j && Reader(L, r, Src(L, j, 0)) ==> Src(L, r, 0) == Src(L, j, 0)
    ensures r != j && Reader(L, r, Src(L, j, 1)) ==> Src(L, r, 0) == Src(L, j, 1)
  {
    var a, b, W := Src(L, j, 0), Src(L, j, 1), AddWiring(L, j);
    if r != j && Reader(L, r, a) { ReaderIsBound(L, W, r, a); }
    if r != j && Reader(L, r, b) { ReaderIsBound(L, W, r, b); }
    if r != j && Binds(L, W, r) { BoundIsReader(L, W, r); }
  }

  /** What an add's producers hand their other readers. */
  lemma AddHands(L: seq<Layer>, j: nat)
    requires WellFormed(L) && j < |L| && L[j].kind == Add && Src(L, j, 0) != Src(L, j, 1)
    requires Src(L, j, 0) < |L| && L[Src(L, j, 0)].resident
    requires Src(L, j, 1) < |L| && L[Src(L, j, 1)].resident
    ensures HandedCube(L, AddWiring(L, j), Src(L, j, 0))
            == CubeOf(L, Src(L, j, 0), Some(AddLo(L, j)))
    ensures HandedCube(L, AddWiring(L, j), Src(L, j, 1))
            == CubeOf(L, Src(L, j, 1), Some(AddHi(L, j)))
  {
    var a, b, W := Src(L, j, 0), Src(L, j, 1), AddWiring(L, j);
    assert RowOk(L, j) && RowOk(L, a) && RowOk(L, b);
    assert W.dest[a] == AddLo(L, j) && W.dest[b] == AddHi(L, j);
  }

  /** The handles once add j's buffer is cut up. */
  function AddPlaced(L: seq<Layer>, hs: seq<Handle>, j: nat, a: nat, b: nat): seq<Handle>
    requires j < |hs| == |L| && a < |L| && b < |L|
  {
    hs[a := hs[a].(dest := Some(AddLo(L, j)), leaves := true)]
      [b := hs[b].(dest := Some(AddHi(L, j)), leaves := true)]
      [j := hs[j].(source := Some(AddAll(L, j)))]
  }

  /** The slice the first operand's producer is left with: when it is the second's too, the
      second placement replaces the first. */
  function FirstSlice(L: seq<Layer>, j: nat, a: nat, b: nat): Cube
    requires j < |L|
  {
    if a == b then AddHi(L, j) else AddLo(L, j)
  }

  /** The plan an add's pass builds, step by step. */
  function AddBuilt(L: seq<Layer>, S: State, j: nat, a: nat, b: nat, ra: seq<nat>, rb: seq<nat>)
    : State
    requires Sized(L, S) && j < |L| && a < |L| && b < |L|
    requires Indices(|L|, ra) && Indices(|L|, rb)
  {
    var ca, cb := CubeOf(L, a, Some(FirstSlice(L, j, a, b))), CubeOf(L, b, Some(AddHi(L, j)));
    State(Marked(Marked(S.cubeIn, ra, j), rb, j)[j := true],
          S.cubeOut[a := true][b := true],
          S.placed[a := true][b := true],
          S.shared,
          Bound(Bound(AddPlaced(L, S.handles, j, a, b), ra, j, ca), rb, j, cb),
          S.bufs[j := Some(AddBuffer(L[j]))])
  }

  /** What the library agreed to when add j was wired. */
  ghost predicate AddTaken(L: seq<Layer>, j: nat, a: nat, b: nat, ra: seq<nat>, rb: seq<nat>)
    requires j < |L| && a < |L| && b < |L| && Indices(|L|, ra) && Indices(|L|, rb)
  {
    && Describable(L[a]) && Describable(L[b])
    && AcceptsOutput(L[a], AddLo(L, j), AddBuffer(L[j]).chans)
    && AcceptsOutput(L[b], AddHi(L, j), AddBuffer(L[j]).chans)
    && AcceptsInput(L[j], AddAll(L, j))
    && (forall k :: 0 <= k < |ra| && ra[k] != j ==>
          AcceptsInput(L[ra[k]], CubeOf(L, a, Some(FirstSlice(L, j, a, b)))))
    && (forall k :: 0 <= k < |rb| && rb[k] != j ==>
          AcceptsInput(L[rb[k]], CubeOf(L, b, Some(AddHi(L, j)))))
  }

  /** Add j may be wired to its operands a and b, whose readers are ra and rb. */
  ghost predicate AddEligible(L: seq<Layer>, S: State, j: nat, a: nat, b: nat,
                              ra: seq<nat>, rb: seq<nat>)
    requires WellFormed(L) && Sized(L, S)
  {
    && j < |L| && L[j].kind == Add && !S.cubeIn[j] && L[j].resident
    && a == Src(L, j, 0) && b == Src(L, j, 1) && a != NO_SRC && b != NO_SRC
    && L[a].resident && L[b].resident && ra == Readers(L, a) && rb == Readers(L, b)
    && (forall r: nat :: Reader(L, r, a) && r != j ==> ConsumerOk(L[r]))
    && (forall r: nat :: Reader(L, r, b) && r != j ==> ConsumerOk(L[r]))
  }

  /** Nothing the pass is about to touch has been touched. */
  lemma AddIsFree(L: seq<Layer>, S: State, j: nat, a: nat, b: nat, ra: seq<nat>, rb: seq<nat>)
    requires Sound(L, S) && AddEligible(L, S, j, a, b, ra, rb)
    ensures a < j && b < j && 0 < L[j].oc && (a != b <==> TwoOperands(L, j))
    ensures Indices(|L|, ra) && Indices(|L|, rb) && Lanes(a, b, ra, rb, j)
    ensures forall p :: p == a || p == b ==>
              !S.cubeOut[p] && S.handles[p].dest == None && !S.handles[p].leaves
    ensures S.bufs[j] == None && S.handles[j].source == None
    ensures forall k :: 0 <= k < |ra| && ra[k] != j ==>
              !S.cubeIn[ra[k]] && S.handles[ra[k]].source == None
    ensures forall k :: 0 <= k < |rb| && rb[k] != j ==>
              !S.cubeIn[rb[k]] && S.handles[rb[k]].source == None
  {
    assert RowOk(L, j) && InOk(L, S, j);
    UnwiredAdd(L, S, j, a);
    UnwiredAdd(L, S, j, b);
    IdleOut(L, S, a);
    IdleOut(L, S, b);
    forall k | 0 <= k < |ra|
      ensures ra[k] < |L|
      ensures ra[k] != j ==> !S.cubeIn[ra[k]] && S.handles[ra[k]].source == None
    {
      assert ra[k] in ra && Reader(L, ra[k], a) && InOk(L, S, ra[k]);
    }
    forall k | 0 <= k < |rb|
      ensures rb[k] < |L|
      ensures rb[k] != j ==> !S.cubeIn[rb[k]] && S.handles[rb[k]].source == None
    {
      assert rb[k] in rb && Reader(L, rb[k], b) && InOk(L, S, rb[k]);
    }
    if a != b {
      forall r: nat | r in ra && r in rb ensures r == j {
        if r != j {
          SoleOperand(L, r, a);
          SoleOperand(L, r, b);
        }
      }
    }
  }

  lemma AddTakenAgreed(L: seq<Layer>, S: State, j: nat, a: nat, b: nat, ra: seq<nat>, rb: seq<nat>)
    requires Sound(L, S) && AddEligible(L, S, j, a, b, ra, rb)
    requires Indices(|L|, ra) && Indices(|L|, rb) && AddTaken(L, j, a, b, ra, rb) && a != b
    ensures AddAgreed(L, S, j)
  {
    AddIsFree(L, S, j, a, b, ra, rb);
    AddHands(L, j);
    forall r: nat | Reader(L, r, a) && r != j
      ensures !S.cubeIn[r] && AcceptsInput(L[r], HandedCube(L, AddWiring(L, j), a))
    {
      assert r in ra;
      var k :| 0 <= k < |ra| && ra[k] == r;
    }
    forall r: nat | Reader(L, r, b) && r != j
      ensures !S.cubeIn[r] && AcceptsInput(L[r], HandedCube(L, AddWiring(L, j), b))
    {
      assert r in rb;
      var k :| 0 <= k < |rb| && rb[k] == r;
    }
  }

  lemma AddMarkedAt(L: seq<Layer>, S: State, j: nat, a: nat, b: nat, ra: seq<nat>, rb: seq<nat>,
                    i: nat)
    requires WellFormed(L) && Sized(L, S) && AddEligible(L, S, j, a, b, ra, rb) && i < |L|
    requires Indices(|L|, ra) && Indices(|L|, rb)
    ensures AddBuilt(L, S, j, a, b, ra, rb).cubeIn[i] == (S.cubeIn[i] || Binds(L, AddWiring(L, j), i))
  {
    MarkedAt(S.cubeIn, ra, j, i);
    MarkedAt(Marked(S.cubeIn, ra, j), rb, j, i);
    AddBinds(L, j, i);
  }

  lemma AddHandleAt(L: seq<Layer>, S: State, j: nat, a: nat, b: nat, ra: seq<nat>, rb: seq<nat>,
                    i: nat)
    requires Sound(L, S) && AddEligible(L, S, j, a, b, ra, rb) && i < |L| && a != b
    requires Indices(|L|, ra) && Indices(|L|, rb)
    ensures AddBuilt(L, S, j, a, b, ra, rb).handles[i]
            == LinkedHandle(L, AddWiring(L, j), i, S.handles[i])
  {
    var ca, cb := CubeOf(L, a, Some(AddLo(L, j))), CubeOf(L, b, Some(AddHi(L, j)));
    var h1 := AddPlaced(L, S.handles, j, a, b);
    assert |h1| == |L|;
    AddIsFree(L, S, j, a, b, ra, rb);
    BoundAt(h1, ra, j, ca, i);
    BoundAt(Bound(h1, ra, j, ca), rb, j, cb, i);
    assert RowOk(L, a) && RowOk(L, b);
    AddBinds(L, j, i);
    AddHands(L, j);
  }

  lemma AddBuiltIsLinked(L: seq<Layer>, S: State, j: nat, a: nat, b: nat, ra: seq<nat>, rb: seq<nat>)
    requires Sound(L, S) && AddEligible(L, S, j, a, b, ra, rb) && a != b
    requires Indices(|L|, ra) && Indices(|L|, rb)
    ensures AddBuilt(L, S, j, a, b, ra, rb) == Link(L, S, AddWiring(L, j))
  {
    var T := AddBuilt(L, S, j, a, b, ra, rb);
    forall i: nat | i < |L|
      ensures T.cubeIn[i] == (S.cubeIn[i] || Binds(L, AddWiring(L, j), i))
      ensures T.handles[i] == LinkedHandle(L, AddWiring(L, j), i, S.handles[i])
    {
      AddMarkedAt(L, S, j, a, b, ra, rb, i);
      AddHandleAt(L, S, j, a, b, ra, rb, i);
    }
    IsLinked(L, S, AddWiring(L, j), T);
  }

  // ---- an add of one layer with itself -----------------------------------------------

  /** T is what the pass makes of S when it wires add j, whose two operands are one layer. */
  ghost predicate TwinBuilt(L: seq<Layer>, S: State, T: State, j: nat)
    requires WellFormed(L) && Sized(L, S) && j < |L|
  {
    var a := Src(L, j, 0);
    && Src(L, j, 1) == a < j && Indices(|L|, Readers(L, a))
    && AddEligible(L, S, j, a, a, Readers(L, a), Readers(L, a))
    && T == AddBuilt(L, S, j, a, a, Readers(L, a), Readers(L, a))
  }

  /** The producer holds the high slice, and so not the low one. */
  lemma TwinIsUnsound(L: seq<Layer>, S: State, j: nat, a: nat, ra: seq<nat>)
    requires Sound(L, S) && AddEligible(L, S, j, a, a, ra, ra) && Indices(|L|, ra)
    ensures var T := AddBuilt(L, S, j, a, a, ra, ra);
      T.cubeIn[j] && T.handles[a].dest == Some(AddHi(L, j)) && !Sound(L, T)
  {
    var T := AddBuilt(L, S, j, a, a, ra, ra);
    AddIsFree(L, S, j, a, a, ra, ra);
    var c := CubeOf(L, a, Some(AddHi(L, j)));
    var h := AddPlaced(L, S.handles, j, a, a);
    BoundAt(h, ra, j, c, a);
    BoundAt(Bound(h, ra, j, c), ra, j, c, a);
    assert T.handles[a].dest == Some(AddHi(L, j));
    if Sound(L, T) { BoundAddIsWired(L, T, j); }
  }

  lemma BoundAddIsWired(L: seq<Layer>, S: State, j: nat)
    requires Sound(L, S) && j < |L| && L[j].kind == Add && S.cubeIn[j]
    ensures AddWired(L, S, j)
  {
    assert InOk(L, S, j);
  }

  /** Wiring an add counts exactly its producers' relations. */
  lemma AddPairs(L: seq<Layer>, S: State, j: nat, a: nat, b: nat, ra: seq<nat>, rb: seq<nat>)
    requires WellFormed(L) && Sized(L, S) && AddEligible(L, S, j, a, b, ra, rb)
    ensures Related(Related(WiredPairs(L, S), a, ra, j), b, rb, j) + {(a, j), (b, j)}
            == WiredPairs(L, Link(L, S, AddWiring(L, j)))
  {
    var rel, W := WiredPairs(L, S), AddWiring(L, j);
    var T := Link(L, S, W);
    assert RowOk(L, j) && Reader(L, j, a) && Reader(L, j, b);
    forall x: Pair
      ensures x in Related(Related(rel, a, ra, j), b, rb, j) + {(a, j), (b, j)}
              <==> x in WiredPairs(L, T)
    {
      RelatedIs(rel, a, ra, j, x);
      RelatedIs(Related(rel, a, ra, j), b, rb, j, x);
      if x.0 < |L| { LinkedAt(L, S, W, x.0); }
    }
  }

  /** Wiring an add leaves every other add, and every concatenation, as it was. */
  lemma AddTouchesOnly(L: seq<Layer>, S: State, j: nat, T: State)
    requires Sound(L, T) && Sized(L, S) && j < |L| && L[j].kind == Add
    requires T == Link(L, S, AddWiring(L, j)) && T.cubeIn[j]
    ensures forall k :: 0 <= k < |L| && L[k].kind == Add && k != j ==> T.cubeIn[k] == S.cubeIn[k]
    ensures forall k :: 0 <= k < |L| && L[k].kind == Concat ==> T.cubeOut[k] == S.cubeOut[k]
  {
    var a, b := Src(L, j, 0), Src(L, j, 1);
    assert InOk(L, T, j) && AddWired(L, T, j);
    assert OutOk(L, T, a) && OutOk(L, T, b);
    assert L[a].kind != Concat && L[b].kind != Concat;
  }
}
