/** What the passes that wire one producer build, and that it is the linked plan. */
module GraphSingle {
  import opened Options
  import opened GraphLayers
  import opened GraphCubes
  import opened GraphPlan
  import opened GraphWiring
  import opened GraphAccounting
  import opened GraphBinding
  import opened GraphConcat

  /** W wires producer i and nothing else. */
  predicate OnlyProducer(W: Wiring, i: nat) {
    W.out == {i} && W.adds == {} && W.dest.Keys <= {i} && W.decl <= {i} && W.buf.Keys <= {i}
  }

  /** The producer's own handle once W is wired. */
  function OutHandle(L: seq<Layer>, W: Wiring, i: nat, h: Handle): Handle
    requires i < |L|
  {
    h.(dest := if i in W.dest then Some(W.dest[i]) else h.dest,
       leaves := true,
       shared := h.shared || (i in W.decl && !IsPool(L[i])))
  }

  /** The plan a pass leaves behind when producer i goes through. */
  function SingleBuilt(L: seq<Layer>, S: State, W: Wiring, i: nat, rs: seq<nat>): State
    requires WellFormed(L) && Sized(L, S) && i < |L| && Indices(|L|, rs)
  {
    State(Marked(S.cubeIn, rs, |L|),
          S.cubeOut[i := true],
          if i in W.dest then S.placed[i := true] else S.placed,
          if i in W.decl then S.shared[i := true] else S.shared,
          Bound(S.handles[i := OutHandle(L, W, i, S.handles[i])], rs, |L|, HandedCube(L, W, i)),
          if i in W.buf then S.bufs[i := Some(W.buf[i])] else S.bufs)
  }

  /** Producer i may be wired to all its readers. */
  ghost predicate SingleEligible(L: seq<Layer>, S: State, i: nat, rs: seq<nat>)
    requires WellFormed(L) && Sized(L, S)
  {
    && i < |L| && !S.cubeOut[i] && L[i].resident
    && rs == Readers(L, i) && rs != [] && ReadersFree(L, S, i, |L|)
  }

  lemma SingleIsFree(L: seq<Layer>, S: State, i: nat, rs: seq<nat>)
    requires Sound(L, S) && SingleEligible(L, S, i, rs)
    ensures Indices(|L|, rs) && Increasing(rs) && i !in rs && HasReader(L, i)
    ensures S.handles[i].dest == None && !S.handles[i].leaves && !S.handles[i].shared
    ensures L[i].kind != Add ==> S.bufs[i] == None
    ensures forall r :: r in rs ==> r < |L| && !S.cubeIn[r] && S.handles[r].source == None
    ensures forall r: nat :: (i, r) !in WiredPairs(L, S)
  {
    ReadersIndexed(L, i);
    assert RowOk(L, i) && OutOk(L, S, i) && BufOk(L, S, i);
    assert rs[0] in rs && Reader(L, rs[0], i);
    forall r | r in rs ensures r < |L| && !S.cubeIn[r] && S.handles[r].source == None {
      assert Reader(L, r, i) && InOk(L, S, r);
    }
  }

  /** What ReadersAgree asks, from what the readers answered. */
  lemma SingleAgreed(L: seq<Layer>, S: State, W: Wiring, i: nat, rs: seq<nat>)
    requires WellFormed(L) && Sized(L, S) && SingleEligible(L, S, i, rs) && Indices(|L|, rs)
    requires forall k :: 0 <= k < |rs| ==> AcceptsInput(L[rs[k]], HandedCube(L, W, i))
    ensures ReadersAgree(L, S, W, i, |L|)
  {
    forall r: nat | Reader(L, r, i) && r != |L|
      ensures ConsumerOk(L[r]) && !S.cubeIn[r] && AcceptsInput(L[r], HandedCube(L, W, i))
    {
      assert r in rs;
      var k :| 0 <= k < |rs| && rs[k] == r;
    }
  }

  lemma SingleBinds(L: seq<Layer>, S: State, W: Wiring, i: nat, rs: seq<nat>, r: nat)
    requires WellFormed(L) && Sized(L, S) && SingleEligible(L, S, i, rs) && OnlyProducer(W, i)
    requires r < |L|
    ensures Binds(L, W, r) <==> r in rs
    ensures r in rs ==> BoundCube(L, W, r) == HandedCube(L, W, i)
  {
    if r in rs { ReaderIsBound(L, W, r, i); }
    if Binds(L, W, r) { BoundIsReader(L, W, r); }
  }

  lemma SingleHandleAt(L: seq<Layer>, S: State, W: Wiring, i: nat, rs: seq<nat>, k: nat)
    requires WellFormed(L) && Sized(L, S) && SingleEligible(L, S, i, rs) && OnlyProducer(W, i)
    requires Indices(|L|, rs) && i !in rs && k < |L|
    ensures SingleBuilt(L, S, W, i, rs).handles[k] == LinkedHandle(L, W, k, S.handles[k])
  {
    assert RowOk(L, i);
    BoundAt(S.handles[i := OutHandle(L, W, i, S.handles[i])], rs, |L|, HandedCube(L, W, i), k);
    SingleBinds(L, S, W, i, rs, k);
    assert k != i ==> k !in W.dest && k !in W.decl;
  }

  lemma SingleBuiltIsLinked(L: seq<Layer>, S: State, W: Wiring, i: nat, rs: seq<nat>)
    requires WellFormed(L) && Sized(L, S) && SingleEligible(L, S, i, rs) && OnlyProducer(W, i)
    requires Indices(|L|, rs) && i !in rs
    ensures SingleBuilt(L, S, W, i, rs) == Link(L, S, W)
  {
    var T := SingleBuilt(L, S, W, i, rs);
    forall k: nat | k < |L|
      ensures T.cubeIn[k] == (S.cubeIn[k] || Binds(L, W, k))
      ensures T.handles[k] == LinkedHandle(L, W, k, S.handles[k])
      ensures T.bufs[k] == if k in W.buf then Some(W.buf[k]) else S.bufs[k]
    {
      MarkedAt(S.cubeIn, rs, |L|, k);
      SingleBinds(L, S, W, i, rs, k);
      SingleHandleAt(L, S, W, i, rs, k);
      assert k != i ==> k !in W.buf;
    }
    IsLinked(L, S, W, T);
  }

  lemma SinglePairs(L: seq<Layer>, S: State, W: Wiring, i: nat, rs: seq<nat>)
    requires WellFormed(L) && Sized(L, S) && SingleEligible(L, S, i, rs) && OnlyProducer(W, i)
    ensures Related(WiredPairs(L, S), i, rs, |L|) == WiredPairs(L, Link(L, S, W))
  {
    var rel, T := WiredPairs(L, S), Link(L, S, W);
    forall x: Pair ensures x in Related(rel, i, rs, |L|) <==> x in WiredPairs(L, T) {
      RelatedIs(rel, i, rs, |L|, x);
      if x.0 < |L| { LinkedAt(L, S, W, x.0); }
    }
  }

  /** Clearing whatever was bound of a list of unbound readers leaves the handles as they were. */
  lemma UnboundIsOld(h: seq<Handle>, t: seq<Handle>, rs: seq<nat>)
    requires Indices(|h|, rs) && Loosened(h, t, set r | r in rs && r != |h|, {})
    requires forall r :: r in rs && r < |h| ==> h[r].source == None
    ensures Unbound(t, rs, |h|) == h
  {
    var u := Unbound(t, rs, |h|);
    forall i: nat | i < |h| ensures u[i] == h[i] {
      UnboundAt(t, rs, |h|, i);
    }
  }

  /** Handing a producer's cube out does not touch the producer. */
  lemma BoundSkips(hs: seq<Handle>, rs: seq<nat>, c: Cube, i: nat, h: Handle)
    requires Indices(|hs|, rs) && i < |hs| && i !in rs
    ensures Bound(hs, rs, |hs|, c)[i] == hs[i]
    ensures Bound(hs[i := h], rs, |hs|, c) == Bound(hs, rs, |hs|, c)[i := h]
  {
    BoundAt(hs, rs, |hs|, c, i);
    var a, b := Bound(hs[i := h], rs, |hs|, c), Bound(hs, rs, |hs|, c)[i := h];
    forall k: nat | k < |hs| ensures a[k] == b[k] {
      BoundAt(hs, rs, |hs|, c, k);
      BoundAt(hs[i := h], rs, |hs|, c, k);
    }
  }

  /** However far an attempt at a tail got, undoing it leaves the handles as they were. */
  lemma TailUndone(h0: seq<Handle>, h1: seq<Handle>, h2: seq<Handle>, rs: seq<nat>, i: nat)
    requires |h0| == |h1| && Indices(|h0|, rs) && i < |h0| && i !in rs
    requires Loosened(h0, h1, {}, {i}) && Loosened(h1, h2, set r | r in rs && r != |h0|, {})
    requires forall r :: r in rs && r < |h0| ==> h0[r].source == None
    requires h0[i].dest == None && !h0[i].leaves
    ensures var t := Unbound(h2, rs, |h0|);
            t[i := t[i].(dest := None, leaves := false)] == h0
  {
    var t := Unbound(h2, rs, |h0|);
    var u := t[i := t[i].(dest := None, leaves := false)];
    forall k: nat | k < |h0| ensures u[k] == h0[k] {
      UnboundAt(h2, rs, |h0|, k);
    }
  }

  /** The one reader of a producer that is no skip source. */
  lemma SoleReader(L: seq<Layer>, i: nat, j: nat)
    requires i < |L| && !SkipSource(L, i) && Reader(L, j, i)
    ensures Readers(L, i) == [j]
  {
    var s := Readers(L, i);
    assert j in s;
    assert |s| > 1 ==> s[0] < s[1];
    forall k | 0 <= k < |s| ensures s[k] == j {
      assert s[k] in s;
      OnlyReader(L, i, s[k]);
      OnlyReader(L, i, j);
    }
  }

  /** Every operand of a concatenation that is placement leaves a cube. */
  lemma ConcatOperandOut(L: seq<Layer>, S: State, j: nat, p: nat)
    requires Sound(L, S) && j < |L| && L[j].kind == Concat && S.cubeOut[j] && Reader(L, j, p)
    ensures S.cubeOut[p]
  {
    assert OutOk(L, S, j);
    var s := Opers(L, j);
    assert p in s;
    var k :| 0 <= k < |s| && s[k] == p;
  }
}
