/** The graph planner: five passes over shared arrays, each asking a library that may refuse
    any call, each undoing what it did when one is refused. */
module GraphPlanner {
  import opened Options
  import opened GraphLayers
  import opened GraphCubes
  import opened GraphPlan
  import opened GraphWiring
  import opened GraphAccounting
  import opened GraphRefusals
  import opened GraphBinding
  import opened GraphConcat
  import opened GraphSingle
  import opened GraphDecide

  class Planner {
    const L: seq<Layer>
    const knobs: Knobs
    const generous: bool   // the library refuses only what its contracts let it refuse

    var cubeIn: seq<bool>
    var cubeOut: seq<bool>
    var placed: seq<bool>
    var shared: seq<bool>
    var skip: seq<bool>
    var handles: seq<Handle>
    var bufs: seq<Option<Buffer>>

    var joins: int
    var farLinks: int
    var joinBytes: int
    var farBytes: int

    var nojoin: seq<int>
    var nojoinBytes: seq<int>

    ghost var rel: set<Pair>               // the wired relations the four counters stand for
    ghost var refused: map<Pair, NoJoin>   // the adjacent pairs the buckets stand for, and why

    ghost function St(): State
      reads this
    {
      State(cubeIn, cubeOut, placed, shared, handles, bufs)
    }

    ghost predicate CountsOk()
      reads this
    {
      Tally(joins, farLinks, joinBytes, farBytes) == TallyOf(L, rel)
    }

    /** Between two wiring decisions: the plan is sound, and the counters count exactly the
        relations it wires. */
    ghost predicate Valid()
      reads this
    {
      Sound(L, St()) && CountsOk() && rel == WiredPairs(L, St())
    }

    /** The skip sources are found once and marked. */
    ghost predicate SkipsOk()
      reads `skip
    {
      |skip| == |L| && forall i :: 0 <= i < |L| ==> (skip[i] <==> SkipSource(L, i))
    }

    // ---- the library, any call of which may refuse ------------------------------------

    /** Describes layer i's output, or refuses to. */
    method ProdCubeOf(i: nat) returns (c: Option<Cube>)
      requires i < |L| == |handles|
      ensures c.Some? ==> Describable(L[i]) && c.value == CubeOf(L, i, handles[i].dest)
      ensures generous && Describable(L[i]) ==> c.Some?
    {
      var willing: bool := *;
      c := None;
      if Describable(L[i]) && (willing || generous) { c := Some(CubeOf(L, i, handles[i].dest)); }
    }

    /** Places layer i's output in a slice. A pool that refuses the slice may have set its
        cube-out flag already. */
    method ProdCubeOutAt(i: nat, d: Cube) returns (ok: bool)
      requires i < |L| == |handles| == |bufs|
      requires d.store.Buf? && d.store.j < |L| && bufs[d.store.j].Some?
      modifies `handles
      ensures ok ==>
        && AcceptsOutput(L[i], d, bufs[d.store.j].value.chans)
        && handles == old(handles)[i := old(handles[i]).(dest := Some(d), leaves := true)]
      ensures !ok ==>
        handles == old(handles)
        || (IsPool(L[i]) && handles == old(handles)[i := old(handles[i]).(leaves := true)])
      ensures generous && AcceptsOutput(L[i], d, bufs[d.store.j].value.chans) ==> ok
    {
      var willing: bool, marked: bool := *, *;
      ok := false;
      if AcceptsOutput(L[i], d, bufs[d.store.j].value.chans) && (willing || generous) {
        handles := handles[i := handles[i].(dest := Some(d), leaves := true)];
        ok := true;
      } else if IsPool(L[i]) && marked {
        handles := handles[i := handles[i].(leaves := true)];
      }
    }

    /** Back to a surface of its own, and out of cube-out. */
    method RestoreOut(i: nat)
      requires i < |L| == |handles|
      modifies `handles
      ensures handles == old(handles)[i := old(handles[i]).(dest := None, leaves := false)]
    {
      handles := handles[i := handles[i].(dest := None, leaves := false)];
    }

    /** Leaves layer i's output in its own surface, or refuses to. */
    method ProdCubeOut(i: nat) returns (ok: bool)
      requires i < |L| == |handles|
      modifies `handles
      ensures ok ==> handles == old(handles)[i := old(handles[i]).(leaves := true)]
      ensures !ok ==> handles == old(handles)
      ensures ok ==> Describable(L[i])
      ensures generous && Describable(L[i]) ==> ok
    {
      var willing: bool := *;
      ok := false;
      if Describable(L[i]) && (willing || generous) {
        handles := handles[i := handles[i].(leaves := true)];
        ok := true;
      }
    }

    /** Declares layer i's surface read outside any chain; a pool has no declaration to make. */
    method ProdCubeShared(i: nat)
      requires i < |L| == |handles|
      modifies `handles
      ensures handles ==
              old(handles)[i := old(handles[i]).(shared := old(handles[i]).shared || !IsPool(L[i]))]
    {
      if !IsPool(L[i]) { handles := handles[i := handles[i].(shared := true)]; }
    }

    /** Binds layer r to read cube c, or refuses to. */
    method ConsCubeIn(r: nat, c: Cube) returns (ok: bool)
      requires r < |L| == |handles|
      modifies `handles
      ensures ok ==>
        AcceptsInput(L[r], c) && handles == old(handles)[r := old(handles[r]).(source := Some(c))]
      ensures !ok ==> handles == old(handles)
      ensures generous && AcceptsInput(L[r], c) ==> ok
    {
      var willing: bool := *;
      ok := false;
      if AcceptsInput(L[r], c) && (willing || generous) {
        handles := handles[r := handles[r].(source := Some(c))];
        ok := true;
      }
    }

    /** Back to a row-major input. */
    method ConsUnbind(r: nat)
      requires r < |L| == |handles|
      modifies `handles
      ensures handles == old(handles)[r := old(handles[r]).(source := None)]
    {
      handles := handles[r := handles[r].(source := None)];
    }

    method CubeAlloc(j: nat, chans: nat, h: nat, w: nat) returns (ok: bool)
      requires j < |L| == |bufs|
      modifies `bufs
      ensures ok ==> bufs == old(bufs)[j := Some(Buffer(chans, Frame(h, w, h * w, false), chans, 0))]
      ensures !ok ==> bufs == old(bufs)
      ensures generous ==> ok
    {
      var willing: bool := *;
      ok := false;
      if willing || generous {
        bufs := bufs[j := Some(Buffer(chans, Frame(h, w, h * w, false), chans, 0))];
        ok := true;
      }
    }

    method CubeFree(j: nat)
      requires j < |L| == |bufs|
      modifies `bufs
      ensures bufs == old(bufs)[j := None]
    {
      bufs := bufs[j := None];
    }

    method CubeSlice(buf: Cube, c0: nat, c: nat) returns (s: Option<Cube>)
      ensures s.Some? ==> s == Slice(buf, c0, c)
      ensures generous ==> s == Slice(buf, c0, c)
    {
      var willing: bool := *;
      s := None;
      if willing || generous { s := Slice(buf, c0, c); }
    }

    method CubeDeclareTail(c: Cube, live: nat, value: int) returns (s: Option<Cube>)
      ensures s.Some? ==> s == DeclareTail(c, live, value)
      ensures generous ==> s == DeclareTail(c, live, value)
    {
      var willing: bool := *;
      s := None;
      if willing || generous { s := DeclareTail(c, live, value); }
    }

    // ---- counting ---------------------------------------------------------------------

    /** How many relations the two counters stand for. */
    function Made(): int
      reads `joins, `farLinks
    {
      joins + farLinks
    }

    /** Counts a relation, adjacent or far. Nothing here asks whether it was counted before. */
    method CubeJoined(p: nat, r: nat)
      requires p < |L|
      modifies `joins, `farLinks, `joinBytes, `farBytes, `rel
      ensures old(CountsOk()) && (p, r) !in old(rel) ==> CountsOk()
      ensures rel == old(rel) + {(p, r)} && Made() == old(Made()) + 1
    {
      if CountsOk() && (p, r) !in rel { TallyAdd(L, rel, (p, r)); }
      var next := NextLayerOf(L, p);
      if next == r {
        joins, joinBytes := joins + 1, joinBytes + PairBytes(L, p);
      } else {
        farLinks, farBytes := farLinks + 1, farBytes + PairBytes(L, p);
      }
      rel := rel + {(p, r)};
    }

    method CubeUnjoined(p: nat, r: nat)
      requires p < |L|
      modifies `joins, `farLinks, `joinBytes, `farBytes, `rel
      ensures old(CountsOk()) && (p, r) in old(rel) ==> CountsOk()
      ensures rel == old(rel) - {(p, r)} && Made() == old(Made()) - 1
    {
      if CountsOk() && (p, r) in rel {
        TallyAdd(L, rel - {(p, r)}, (p, r));
        assert rel - {(p, r)} + {(p, r)} == rel;
      }
      var next := NextLayerOf(L, p);
      if next == r {
        joins, joinBytes := joins - 1, joinBytes - PairBytes(L, p);
      } else {
        farLinks, farBytes := farLinks - 1, farBytes - PairBytes(L, p);
      }
      rel := rel - {(p, r)};
    }

    // ---- groups of readers ------------------------------------------------------------

    /** Whether every reader in the list but `except` could take a cube. */
    method AllConsumersOk(rs: seq<nat>, except: nat) returns (ok: bool)
      requires Indices(|L|, rs)
      ensures ok <==> forall k :: 0 <= k < |rs| && rs[k] != except ==> ConsumerOk(L[rs[k]])
    {
      ok := true;
      for q := 0 to |rs|
        invariant ok <==> forall k :: 0 <= k < q && rs[k] != except ==> ConsumerOk(L[rs[k]])
      {
        if rs[q] != except && !ConsumerOk(L[rs[q]]) { ok := false; }
      }
    }

    /** Every reader in the list but `except` may take cube c. */
    predicate AllTake(rs: seq<nat>, except: nat, c: Cube)
      requires Indices(|L|, rs)
    {
      forall k :: 0 <= k < |rs| && rs[k] != except ==> AcceptsInput(L[rs[k]], c)
    }

    /** No reader in the list but `except` is bound, and none is counted with producer p. */
    ghost predicate Unclaimed(p: nat, rs: seq<nat>, except: nat)
      requires |handles| == |cubeIn| == |L| && Indices(|L|, rs)
      reads this
    {
      forall k :: 0 <= k < |rs| && rs[k] != except ==>
        !cubeIn[rs[k]] && handles[rs[k]].source == None && (p, rs[k]) !in rel
    }

    method WireReader(p: nat, r: nat, c: Cube) returns (ok: bool)
      requires p < |L| && r < |L| == |handles| == |cubeIn|
      modifies `handles, `cubeIn, `joins, `farLinks, `joinBytes, `farBytes, `rel
      ensures old(CountsOk()) && (!ok || (p, r) !in old(rel)) ==> CountsOk()
      ensures Made() == old(Made()) + if ok then 1 else 0
      ensures !ok ==> handles == old(handles) && cubeIn == old(cubeIn) && rel == old(rel)
      ensures ok ==>
        && AcceptsInput(L[r], c) && rel == old(rel) + {(p, r)}
        && cubeIn == old(cubeIn)[r := true]
        && handles == old(handles)[r := old(handles[r]).(source := Some(c))]
      ensures generous && AcceptsInput(L[r], c) ==> ok
    {
      ok := ConsCubeIn(r, c);
      if ok {
        cubeIn := cubeIn[r := true];
        CubeJoined(p, r);
      }
    }

    /** No relation of producer p with a reader in the list but `except` is counted. */
    ghost predicate Uncounted(p: nat, rs: seq<nat>, except: nat)
      reads `rel
    {
      forall k :: 0 <= k < |rs| && rs[k] != except ==> (p, rs[k]) !in rel
    }

    /** Binds, marks and counts producer p's readers one by one, stopping at a refusal, after
        the first `n` of the list. */
    method BindAndCount(p: nat, rs: seq<nat>, except: nat, c: Cube)
      returns (ok: bool, n: nat)
      requires p < |L| == |handles| == |cubeIn| && Increasing(rs) && Indices(|L|, rs)
      modifies `handles, `cubeIn, `joins, `farLinks, `joinBytes, `farBytes, `rel
      ensures old(CountsOk()) && (n == 0 || old(Uncounted(p, rs, except))) ==> CountsOk()
      ensures n <= |rs| && (ok ==> n == |rs|) && Indices(|L|, rs[..n])
      ensures Made() == old(Made()) + Others(rs[..n], except)
      ensures forall k :: 0 <= k < n && rs[k] != except ==> AcceptsInput(L[rs[k]], c)
      ensures handles == Bound(old(handles), rs[..n], except, c)
      ensures cubeIn == Marked(old(cubeIn), rs[..n], except)
      ensures rel == Related(old(rel), p, rs[..n], except)
      ensures generous && AllTake(rs, except, c) ==> ok
    {
      n, ok := 0, true;
      assert rs[..0] == [];
      while ok && n < |rs|
        invariant n <= |rs| && Indices(|L|, rs[..n])
        invariant old(CountsOk()) && (n == 0 || old(Uncounted(p, rs, except))) ==> CountsOk()
        invariant Made() == old(Made()) + Others(rs[..n], except)
        invariant forall k :: 0 <= k < n && rs[k] != except ==> AcceptsInput(L[rs[k]], c)
        invariant handles == Bound(old(handles), rs[..n], except, c)
        invariant cubeIn == Marked(old(cubeIn), rs[..n], except)
        invariant rel == Related(old(rel), p, rs[..n], except)
        invariant ok || n < |rs|
        invariant generous && AllTake(rs, except, c) ==> ok
        decreases |rs| - n, ok
      {
        var r := rs[n];
        assert rs[..n + 1] == rs[..n] + [r] && r !in rs[..n];
        RelatedIs(old(rel), p, rs[..n], except, (p, r));
        if r != except { ok := WireReader(p, r, c); }
        if ok { n := n + 1; }
      }
      assert ok ==> rs[..n] == rs;
    }

    /** Takes every bound reader of p in the list apart again. */
    method UnbindAndUncount(p: nat, rs: seq<nat>, except: nat)
      requires p < |L| == |handles| == |cubeIn| && Increasing(rs) && Indices(|L|, rs)
      modifies `handles, `cubeIn, `joins, `farLinks, `joinBytes, `farBytes, `rel
      ensures old(CountsOk()) && FlaggedCounted(old(cubeIn), old(rel), p, rs, except) ==> CountsOk()
      ensures Made() == old(Made()) - Flagged(old(cubeIn), rs, except)
      ensures handles == Cleared(old(handles), old(cubeIn), rs, except)
      ensures cubeIn == Unmarked(old(cubeIn), rs, except)
      ensures rel == Unrelated(old(rel), old(cubeIn), p, rs, except)
    {
      var q := 0;
      assert rs[..0] == [];
      while q < |rs|
        invariant 0 <= q <= |rs| && Indices(|L|, rs[..q])
        invariant old(CountsOk()) && FlaggedCounted(old(cubeIn), old(rel), p, rs, except) ==> CountsOk()
        invariant Made() == old(Made()) - Flagged(old(cubeIn), rs[..q], except)
        invariant handles == Cleared(old(handles), old(cubeIn), rs[..q], except)
        invariant cubeIn == Unmarked(old(cubeIn), rs[..q], except)
        invariant rel == Unrelated(old(rel), old(cubeIn), p, rs[..q], except)
      {
        var r := rs[q];
        assert rs[..q + 1] == rs[..q] + [r];
        assert r !in rs[..q];
        UnmarkedAt(old(cubeIn), rs[..q], except, r);
        UnrelatedIs(old(rel), old(cubeIn), p, rs[..q], except, (p, r));
        if r != except && cubeIn[r] { UnwireReader(p, r); }
        q := q + 1;
      }
      assert rs[..q] == rs;
    }

    method UnwireReader(p: nat, r: nat)
      requires p < |L| && r < |L| == |handles| == |cubeIn|
      modifies `handles, `cubeIn, `joins, `farLinks, `joinBytes, `farBytes, `rel
      ensures old(CountsOk()) && (p, r) in old(rel) ==> CountsOk()
      ensures rel == old(rel) - {(p, r)} && Made() == old(Made()) - 1
      ensures cubeIn == old(cubeIn)[r := false]
      ensures handles == old(handles)[r := old(handles[r]).(source := None)]
    {
      ConsUnbind(r);
      cubeIn := cubeIn[r := false];
      CubeUnjoined(p, r);
    }

    // ---- an add's two operands ---------------------------------------------------------

    /** The view the add reads and the two slices its producers write. */
    method CutAdd(j: nat) returns (all: Option<Cube>, lo: Option<Cube>, hi: Option<Cube>)
      requires j < |L| && 0 < L[j].oc
      ensures all.Some? ==> all.value == AddAll(L, j)
      ensures lo.Some? ==> lo.value == AddLo(L, j)
      ensures hi.Some? ==> hi.value == AddHi(L, j)
      ensures generous ==> all.Some? && lo.Some? && hi.Some?
    {
      CutIsAdd(L, j);
      var whole, boff := Whole(j, AddBuffer(L[j])), AddBoff(L[j]);
      all := CubeSlice(whole, 0, boff + L[j].oc);
      lo := CubeSlice(whole, 0, L[j].oc);
      hi := CubeSlice(whole, boff, L[j].oc);
    }

    /** Allocates add j's buffer, gives its producers their slices and binds it to the whole,
        or leaves no trace. */
    method PlaceAdd(j: nat, a: nat, b: nat) returns (ok: bool)
      requires j < |L| == |handles| == |bufs| && a < j && b < j && L[j].oc > 0
      requires handles[a].dest == None && !handles[a].leaves
      requires handles[b].dest == None && !handles[b].leaves
      requires handles[j].source == None && bufs[j] == None
      modifies `handles, `bufs
      ensures !ok ==> handles == old(handles) && bufs == old(bufs)
      ensures ok ==>
        && bufs == old(bufs)[j := Some(AddBuffer(L[j]))] && |handles| == |L|
        && AcceptsOutput(L[a], AddLo(L, j), AddBuffer(L[j]).chans)
        && AcceptsOutput(L[b], AddHi(L, j), AddBuffer(L[j]).chans)
        && AcceptsInput(L[j], AddAll(L, j))
        && handles == AddPlaced(L, old(handles), j, a, b)
      ensures (generous && AcceptsInput(L[j], AddAll(L, j))
               && AcceptsOutput(L[a], AddLo(L, j), AddBuffer(L[j]).chans)
               && AcceptsOutput(L[b], AddHi(L, j), AddBuffer(L[j]).chans)) ==> ok
    {
      var boff := AddBoff(L[j]);
      ok := CubeAlloc(j, Round32(boff + L[j].oc), L[j].oh, L[j].ow);
      if !ok { return; }
      assert bufs[j].value == AddBuffer(L[j]);
      var all, lo, hi := CutAdd(j);
      ok := all.Some? && lo.Some? && hi.Some?;
      if ok { ok := TakeAdd(j, a, b, all.value, lo.value, hi.value); }
      if !ok {
        UnplaceAdd(j, a, b);
        assert forall k :: 0 <= k < |L| ==> handles[k] == old(handles[k]);
      }
    }

    /** Asks the two producers and the add in turn; a refusal leaves the fields it may have
        touched for the caller to restore. */
    method TakeAdd(j: nat, a: nat, b: nat, all: Cube, lo: Cube, hi: Cube) returns (ok: bool)
      requires j < |L| == |handles| == |bufs| && a < j && b < j && bufs[j].Some?
      requires lo.store == hi.store == Buf(j)
      modifies `handles
      ensures |handles| == |L|
      ensures forall k :: 0 <= k < |L| && k != a && k != b && k != j ==> handles[k] == old(handles[k])
      ensures forall k :: k == a || k == b ==>
                handles[k].source == old(handles[k].source) && handles[k].shared == old(handles[k].shared)
      ensures handles[j].(source := None) == old(handles[j]).(source := None)
      ensures ok ==>
        && AcceptsOutput(L[a], lo, bufs[j].value.chans)
        && AcceptsOutput(L[b], hi, bufs[j].value.chans)
        && AcceptsInput(L[j], all)
        && handles == old(handles)[a := old(handles[a]).(dest := Some(lo), leaves := true)]
                                  [b := old(handles[b]).(dest := Some(hi), leaves := true)]
                                  [j := old(handles[j]).(source := Some(all))]
      ensures (generous && AcceptsInput(L[j], all) && AcceptsOutput(L[a], lo, bufs[j].value.chans)
               && AcceptsOutput(L[b], hi, bufs[j].value.chans)) ==> ok
    {
      ok := ProdCubeOutAt(a, lo);
      if ok { ok := ProdCubeOutAt(b, hi); }
      if ok { ok := ConsCubeIn(j, all); }
    }

    method UnplaceAdd(j: nat, a: nat, b: nat)
      requires j < |L| == |handles| == |bufs| && a < j && b < j
      modifies `handles, `bufs
      ensures bufs == old(bufs)[j := None] && |handles| == |L|
      ensures forall k :: 0 <= k < |L| ==>
                handles[k] == if k == a || k == b then old(handles[k]).(dest := None, leaves := false)
                              else if k == j then old(handles[k]).(source := None)
                              else old(handles[k])
    {
      RestoreOut(a);
      RestoreOut(b);
      ConsUnbind(j);
      CubeFree(j);
    }

    /** Asks both producers for their cubes and hands them to their other readers; a refusal
        takes every reader bound so far apart again. */
    method BindAddReaders(j: nat, a: nat, b: nat, ra: seq<nat>, rb: seq<nat>)
      returns (ok: bool, ghost m: nat)
      requires a < |L| == |handles| == |cubeIn| && b < |L| && CountsOk()
      requires Increasing(ra) && Indices(|L|, ra) && Unclaimed(a, ra, j)
      requires Increasing(rb) && Indices(|L|, rb) && Unclaimed(b, rb, j) && Lanes(a, b, ra, rb, j)
      modifies `handles, `cubeIn, `joins, `farLinks, `joinBytes, `farBytes, `rel
      ensures a != b || (!ok && generous) ==> CountsOk()
      ensures ok ==> Made() == old(Made()) + Others(ra, j) + Others(rb, j)
      ensures !ok ==> handles == old(handles) && cubeIn == old(cubeIn) && rel == old(rel)
      ensures !ok && a == b ==> m <= |rb| && Made() == old(Made()) + Others(rb[..m], j)
      ensures !ok && a == b && generous ==> m == 0
      ensures ok ==>
        var ca, cb := CubeOf(L, a, old(handles[a].dest)), CubeOf(L, b, old(handles[b].dest));
        && Describable(L[a]) && Describable(L[b])
        && (forall k :: 0 <= k < |ra| && ra[k] != j ==> AcceptsInput(L[ra[k]], ca))
        && (forall k :: 0 <= k < |rb| && rb[k] != j ==> AcceptsInput(L[rb[k]], cb))
        && handles == Bound(Bound(old(handles), ra, j, ca), rb, j, cb)
        && cubeIn == Marked(Marked(old(cubeIn), ra, j), rb, j)
        && rel == Related(Related(old(rel), a, ra, j), b, rb, j)
      ensures (generous && Describable(L[a]) && Describable(L[b])
               && AllTake(ra, j, CubeOf(L, a, old(handles[a].dest)))
               && AllTake(rb, j, CubeOf(L, b, old(handles[b].dest)))) ==> ok
    {
      m := 0;
      assert rb[..0] == [];
      var pa := ProdCubeOf(a);
      var pb := ProdCubeOf(b);
      ok := pa.Some? && pb.Some?;
      if !ok { return; }
      var n;
      ok, n := BindAndCount(a, ra, j, pa.value);
      if ok {
        assert ra[..n] == ra;
        if a != b {
          forall k | 0 <= k < |rb| && rb[k] != j ensures (b, rb[k]) !in rel {
            assert rb[k] in rb;
            StillUntouched(old(handles), old(cubeIn), old(rel), j, a, ra, pa.value, b, rb[k]);
          }
        }
        ok, m := BindAndCount(b, rb, j, pb.value);
        assert ok ==> rb[..m] == rb;
      }
      if !ok { UnbindAddReaders(j, a, b, ra, rb, n, m, pa.value, pb.value,
                                old(handles), old(cubeIn), old(rel)); }
    }

    /** The unwind path of an add's readers: both lists are walked whatever was bound. */
    method UnbindAddReaders(j: nat, a: nat, b: nat, ra: seq<nat>, rb: seq<nat>,
                            ghost n: nat, ghost m: nat, ghost ca: Cube, ghost cb: Cube,
                            ghost h0: seq<Handle>, ghost c0: seq<bool>, ghost rel0: set<Pair>)
      requires a < |L| == |handles| == |cubeIn| == |h0| == |c0| && b < |L|
      requires a != b || m == 0 ==> CountsOk()
      requires m == 0 || n == |ra|
      requires Increasing(ra) && Indices(|L|, ra) && n <= |ra|
      requires Increasing(rb) && Indices(|L|, rb) && m <= |rb| && Lanes(a, b, ra, rb, j)
      requires forall k :: 0 <= k < |ra| && ra[k] != j ==>
                 !c0[ra[k]] && h0[ra[k]].source == None && (a, ra[k]) !in rel0
      requires forall k :: 0 <= k < |rb| && rb[k] != j ==>
                 !c0[rb[k]] && h0[rb[k]].source == None && (b, rb[k]) !in rel0
      requires handles == Bound(Bound(h0, ra[..n], j, ca), rb[..m], j, cb)
      requires cubeIn == Marked(Marked(c0, ra[..n], j), rb[..m], j)
      requires rel == Related(Related(rel0, a, ra[..n], j), b, rb[..m], j)
      modifies `handles, `cubeIn, `joins, `farLinks, `joinBytes, `farBytes, `rel
      ensures handles == h0 && cubeIn == c0 && rel == rel0 && (a != b || m == 0 ==> CountsOk())
      ensures a == b ==> Made() == old(Made()) - Others(ra[..n], j)
    {
      if a == b {
        ClearingUndoesTwice(h0, c0, rel0, j, a, ra, n, ca, m, cb);
        FlaggedOnce(c0, ra, j, n, m);
        if m == 0 { TwinFlagged(c0, rel0, j, a, ra, n); }
      } else {
        BothFlaggedCounted(h0, c0, rel0, j, a, ra, n, b, rb, m);
        ClearingUndoesBoth(h0, c0, rel0, j, a, ra, n, ca, b, rb, m, cb);
      }
      UnbindAndUncount(a, ra, j);
      UnbindAndUncount(b, rb, j);
    }

    /** Of one list bound once, up to n, whatever is flagged is counted. */
    lemma TwinFlagged(c0: seq<bool>, rel0: set<Pair>, j: nat, a: nat, ra: seq<nat>, n: nat)
      requires |c0| == |L| && Indices(|L|, ra) && n <= |ra|
      requires forall k :: 0 <= k < |ra| && ra[k] != j ==> !c0[ra[k]]
      ensures ra[..0] == []
      ensures FlaggedCounted(Marked(c0, ra[..n], j), Related(rel0, a, ra[..n], j), a, ra, j)
    {
      forall k | 0 <= k < |ra| && ra[k] != j && Marked(c0, ra[..n], j)[ra[k]]
        ensures (a, ra[k]) in Related(rel0, a, ra[..n], j)
      {
        MarkedAt(c0, ra[..n], j, ra[k]);
        RelatedIs(rel0, a, ra[..n], j, (a, ra[k]));
      }
    }

    /** Raises the flags and counts the two operands of an add whose buffer every other reader
        has taken. */
    method CommitAdd(j: nat, a: nat, b: nat)
      requires Sized(L, St()) && j < |L| && a < j && b < j
      modifies `cubeIn, `cubeOut, `placed, `joins, `farLinks, `joinBytes, `farBytes, `rel
      ensures old(CountsOk()) && a != b && (a, j) !in old(rel) && (b, j) !in old(rel) ==> CountsOk()
      ensures rel == old(rel) + {(a, j), (b, j)} && Made() == old(Made()) + 2
      ensures cubeIn == old(cubeIn)[j := true]
      ensures cubeOut == old(cubeOut)[a := true][b := true]
      ensures placed == old(placed)[a := true][b := true]
    {
      cubeOut := cubeOut[a := true][b := true];
      cubeIn := cubeIn[j := true];
      placed := placed[a := true][b := true];
      CubeJoined(a, j);
      CubeJoined(b, j);
    }

    /** Taking the slices and the view back undoes placing them. */
    lemma PlacedThenNot(h: seq<Handle>, t: seq<Handle>, j: nat, a: nat, b: nat)
      requires a < j && b < j < |h| == |t| == |L|
      requires h[a].dest == None && !h[a].leaves && h[b].dest == None && !h[b].leaves && h[j].source == None
      requires var u := AddPlaced(L, h, j, a, b);
        forall k :: 0 <= k < |h| ==>
          t[k] == if k == a || k == b then u[k].(dest := None, leaves := false)
                  else if k == j then u[k].(source := None)
                  else u[k]
      ensures t == h
    {
    }

    /** Everything the library is asked for add j, or no trace of it. */
    method PlaceAndBind(j: nat, a: nat, b: nat, ra: seq<nat>, rb: seq<nat>)
      returns (ok: bool, ghost m: nat)
      requires Sized(L, St()) && j < |L| && a < j && b < j && 0 < L[j].oc && CountsOk()
      requires handles[a].dest == None && !handles[a].leaves
      requires handles[b].dest == None && !handles[b].leaves
      requires handles[j].source == None && bufs[j] == None
      requires Increasing(ra) && Indices(|L|, ra) && Unclaimed(a, ra, j)
      requires Increasing(rb) && Indices(|L|, rb) && Unclaimed(b, rb, j) && Lanes(a, b, ra, rb, j)
      modifies `cubeIn, `handles, `bufs, `joins, `farLinks, `joinBytes, `farBytes, `rel
      ensures a != b || (!ok && generous) ==> CountsOk()
      ensures ok ==> Made() == old(Made()) + Others(ra, j) + Others(rb, j)
      ensures !ok ==> handles == old(handles) && bufs == old(bufs) && cubeIn == old(cubeIn)
      ensures !ok ==> rel == old(rel)
      ensures !ok && a == b ==> m <= |rb| && Made() == old(Made()) + Others(rb[..m], j)
      ensures !ok && a == b && generous ==> m == 0
      ensures ok ==> AddTaken(L, j, a, b, ra, rb)
      ensures ok ==>
        var ca, cb := CubeOf(L, a, Some(FirstSlice(L, j, a, b))), CubeOf(L, b, Some(AddHi(L, j)));
        && handles == Bound(Bound(AddPlaced(L, old(handles), j, a, b), ra, j, ca), rb, j, cb)
        && bufs == old(bufs)[j := Some(AddBuffer(L[j]))]
        && cubeIn == Marked(Marked(old(cubeIn), ra, j), rb, j)
        && rel == Related(Related(old(rel), a, ra, j), b, rb, j)
      ensures generous && AddTaken(L, j, a, b, ra, rb) ==> ok
    {
      m := 0;
      assert rb[..0] == [];
      ok := PlaceAdd(j, a, b);
      if !ok { return; }
      assert forall r: nat :: r < |L| ==> handles[r].source == old(handles[r].source) || r == j;
      ok, m := BindAddReaders(j, a, b, ra, rb);
      if !ok {
        UnplaceAdd(j, a, b);
        PlacedThenNot(old(handles), handles, j, a, b);
        assert bufs == old(bufs);
      }
    }

    /** Counting the operands' other readers counts neither operand with the add itself. */
    lemma StillUncounted(rel0: set<Pair>, j: nat, a: nat, ra: seq<nat>, b: nat, rb: seq<nat>, p: nat)
      requires (p, j) !in rel0
      ensures (p, j) !in Related(Related(rel0, a, ra, j), b, rb, j)
    {
      RelatedIs(rel0, a, ra, j, (p, j));
      RelatedIs(Related(rel0, a, ra, j), b, rb, j, (p, j));
    }

    /** Places, binds and commits, or undoes all of it. `ra` and `rb` are the operands' readers. Of
        one layer's readers, listed twice, a refusal of the second walk leaves counted what that
        walk had bound, the first `m`. */
    method TryAdd(j: nat, a: nat, b: nat, ra: seq<nat>, rb: seq<nat>)
      returns (wired: bool, ghost m: nat)
      requires Sized(L, St()) && j < |L| && a < j && b < j && 0 < L[j].oc && CountsOk()
      requires handles[a].dest == None && !handles[a].leaves
      requires handles[b].dest == None && !handles[b].leaves
      requires handles[j].source == None && bufs[j] == None
      requires Increasing(ra) && Indices(|L|, ra) && Unclaimed(a, ra, j)
      requires Increasing(rb) && Indices(|L|, rb) && Unclaimed(b, rb, j) && Lanes(a, b, ra, rb, j)
      requires (a, j) !in rel && (b, j) !in rel
      modifies `cubeIn, `cubeOut, `placed, `handles, `bufs,
               `joins, `farLinks, `joinBytes, `farBytes, `rel
      ensures a != b || (!wired && generous) ==> CountsOk()
      ensures wired ==> Made() == old(Made()) + Others(ra, j) + Others(rb, j) + 2
      ensures !wired ==> St() == old(St()) && rel == old(rel)
      ensures !wired && a == b ==> m <= |rb| && Made() == old(Made()) + Others(rb[..m], j)
      ensures !wired && a == b && generous ==> m == 0
      ensures wired ==> AddTaken(L, j, a, b, ra, rb)
      ensures wired ==> St() == AddBuilt(L, old(St()), j, a, b, ra, rb)
      ensures wired ==> rel == Related(Related(old(rel), a, ra, j), b, rb, j) + {(a, j), (b, j)}
      ensures generous && AddTaken(L, j, a, b, ra, rb) ==> wired
    {
      wired, m := PlaceAndBind(j, a, b, ra, rb);
      if !wired { return; }
      StillUncounted(old(rel), j, a, ra, b, rb, a);
      StillUncounted(old(rel), j, a, ra, b, rb, b);
      CommitAdd(j, a, b);
    }

    /** One add of the pass: wired whole, or nothing changed. An add of one layer with itself is
        wired like any other, and then the plan is not sound and the counters count twice. */
    method WireAdd(j: nat) returns (wired: bool)
      requires Valid() && j < |L| && L[j].kind == Add && !cubeIn[j]
      modifies `cubeIn, `cubeOut, `placed, `handles, `bufs,
               `joins, `farLinks, `joinBytes, `farBytes, `rel
      ensures !wired ==> St() == old(St())
      ensures !wired && (TwoOperands(L, j) || generous || !AddAsked(L, knobs, j)) ==>
        Tally(joins, farLinks, joinBytes, farBytes) == old(Tally(joins, farLinks, joinBytes, farBytes))
      ensures TwoOperands(L, j) || (!wired && (generous || !AddAsked(L, knobs, j))) ==> Valid()
      ensures wired && TwoOperands(L, j) ==> St() == Link(L, old(St()), AddWiring(L, j))
      ensures wired && !TwoOperands(L, j) ==>
        && TwinBuilt(L, old(St()), St(), j)
        && Made() == old(Made()) + 2 * Others(Readers(L, Src(L, j, 0)), j) + 2
      ensures wired && !TwoOperands(L, j) ==> !Sound(L, St()) && !CountsOk()
      ensures wired ==> AddAsked(L, knobs, j) && AddTakes(L, j)
      ensures generous && AddAsked(L, knobs, j) && AddTakes(L, j) ==> wired
      ensures TwoOperands(L, j) ==> Decides(L, knobs, generous, Adds, old(St()), St(), j)
    {
      wired := false;
      var ok, a, b, ra, rb := ScreenAdd(j);
      if !ok { return; }
      AddIsFree(L, St(), j, a, b, ra, rb);
      MadeIsCounted();
      ghost var m;
      wired, m := TryAdd(j, a, b, ra, rb);
      if !wired { return; }
      if a == b {
        TwinIsUnsound(L, old(St()), j, a, ra);
        TwinMiscounts(old(rel), old(Made()), j, a, ra);
      } else {
        FinishAdd(old(St()), old(rel), j, a, b, ra, rb);
      }
    }

    /** The wired plan is the linked one, and its relations are the counted ones. */
    lemma FinishAdd(S: State, rel0: set<Pair>, j: nat, a: nat, b: nat, ra: seq<nat>, rb: seq<nat>)
      requires Sound(L, S) && AddEligible(L, S, j, a, b, ra, rb) && a != b
      requires Indices(|L|, ra) && Indices(|L|, rb) && AddTaken(L, j, a, b, ra, rb)
      requires St() == AddBuilt(L, S, j, a, b, ra, rb) && rel0 == WiredPairs(L, S)
      requires rel == Related(Related(rel0, a, ra, j), b, rb, j) + {(a, j), (b, j)}
      ensures St() == Link(L, S, AddWiring(L, j)) && Sound(L, St()) && rel == WiredPairs(L, St())
    {
      AddTakenAgreed(L, S, j, a, b, ra, rb);
      AddBuiltIsLinked(L, S, j, a, b, ra, rb);
      AddPairs(L, S, j, a, b, ra, rb);
      AddWiringSound(L, S, j);
    }

    lemma MadeIsCounted()
      requires CountsOk()
      ensures Made() == |rel|
    {
      TallyMeaning(L, rel);
      NearAndFar(L, rel);
    }

    /** The counters count every relation of a twin add's producer twice, the set of them once. */
    lemma TwinMiscounts(rel0: set<Pair>, made0: int, j: nat, a: nat, ra: seq<nat>)
      requires made0 == |rel0| && Made() == made0 + 2 * Others(ra, j) + 2
      requires rel == Related(Related(rel0, a, ra, j), a, ra, j) + {(a, j), (a, j)}
      ensures !CountsOk()
    {
      var once := Related(rel0, a, ra, j);
      RelatedAgain(rel0, a, ra, j);
      RelatedGrows(rel0, a, ra, j);
      assert rel == once + {(a, j)};
      assert |rel| <= |once| + 1;
      if CountsOk() { MadeIsCounted(); }
    }

    /** Asks everything that can be asked before a buffer is allocated. */
    method ScreenAdd(j: nat) returns (ok: bool, a: nat, b: nat, ra: seq<nat>, rb: seq<nat>)
      requires WellFormed(L) && Sized(L, St()) && j < |L| && L[j].kind == Add && !cubeIn[j]
      ensures ok ==> AddEligible(L, St(), j, a, b, ra, rb)
      ensures ok <==> AddAsked(L, knobs, j)
    {
      ok, ra, rb := false, [], [];
      a, b := Src(L, j, 0), Src(L, j, 1);
      if b == NO_SRC || a == NO_SRC { return; }
      if a + 1 != j && b + 1 != j { return; }
      if ForcedBy(knobs, a) || ForcedBy(knobs, b) { return; }
      if !L[a].resident || !L[b].resident || !L[j].resident { return; }
      var n;
      n, ra := ConsumersOf(L, a, 4);
      if n > 4 { return; }
      n, rb := ConsumersOf(L, b, 4);
      if n > 4 { return; }
      ReadersIndexed(L, a);
      ReadersIndexed(L, b);
      assert forall r: nat :: Reader(L, r, a) <==> r in ra;
      assert forall r: nat :: Reader(L, r, b) <==> r in rb;
      var oka := AllConsumersOk(ra, j);
      var okb := AllConsumersOk(rb, j);
      if !oka || !okb { return; }
      if L[a].hostInput || L[b].hostInput { return; }
      ok := true;
    }

    /** Add k is wired only if the pass asked and all agreed, and then surely, unless the
        library refused more than its contracts let it. */
    ghost predicate AddDecided(k: nat, on: bool, bound: bool)
      requires WellFormed(L) && k < |L| && L[k].kind == Add
    {
      && (bound ==> on && AddAsked(L, knobs, k) && AddTakes(L, k))
      && (generous && on && AddAsked(L, knobs, k) && AddTakes(L, k) ==> bound)
    }

    /** The adds before layer j are decided, none from j on is bound, and no concatenation is
        placement yet. */
    ghost predicate AddsDone(S: State, j: nat)
      requires WellFormed(L) && Sized(L, S)
    {
      && (forall k :: 0 <= k < |L| && L[k].kind == Concat ==> !S.cubeOut[k])
      && (forall k :: 0 <= k < |L| && L[k].kind == Add ==>
            if k < j then AddDecided(k, true, S.cubeIn[k]) else !S.cubeIn[k])
    }

    lemma AddsStep(S: State, T: State, j: nat)
      requires Sound(L, T) && Sized(L, S) && j < |L| && AddsDone(S, j)
      requires L[j].kind == Add ==> AddDecided(j, true, T.cubeIn[j])
      requires T == S || (L[j].kind == Add && T.cubeIn[j] && T == Link(L, S, AddWiring(L, j)))
      ensures AddsDone(T, j + 1)
    {
      if T != S { AddTouchesOnly(L, S, j, T); }
    }

    /** The add pass. It runs first, so no add is wired yet, and wires no concatenation. */
    method CatLink()
      requires Valid() && TwinsIdle(L, knobs, generous)
      requires forall k :: 0 <= k < |L| ==> !cubeIn[k] && !cubeOut[k]
      modifies `cubeIn, `cubeOut, `placed, `handles, `bufs,
               `joins, `farLinks, `joinBytes, `farBytes, `rel
      ensures Valid() && Ends(L, knobs, generous, Adds, old(St()), St())
      ensures forall k :: 0 <= k < |L| && L[k].kind == Concat ==> !cubeOut[k]
      ensures forall k :: 0 <= k < |L| && L[k].kind == Add ==> AddDecided(k, knobs.cat, cubeIn[k])
    {
      if !knobs.cat { return; }
      ghost var trace := [St()];
      StartsAt(L, knobs, generous, Adds, St());
      for j := 0 to |L|
        invariant Valid() && AddsDone(St(), j)
        invariant Trace(L, knobs, generous, Adds, trace, j) && trace[0] == old(St()) && trace[j] == St()
      {
        VisitAdd(j);
        TraceNext(L, knobs, generous, Adds, trace, St(), j);
        trace := trace + [St()];
      }
      EndsIn(L, knobs, generous, Adds, trace);
    }

    /** One row of the table: decided if it is an add. */
    method VisitAdd(j: nat)
      requires Valid() && TwinsIdle(L, knobs, generous) && knobs.cat && j < |L| && AddsDone(St(), j)
      modifies `cubeIn, `cubeOut, `placed, `handles, `bufs,
               `joins, `farLinks, `joinBytes, `farBytes, `rel
      ensures Valid() && AddsDone(St(), j + 1)
      ensures Decides(L, knobs, generous, Adds, old(St()), St(), j)
    {
      if L[j].kind == Add {
        assert TwoOperands(L, j) || TwinIdle(L, knobs, generous, j);
        var _ := WireAdd(j);
      }
      AddsStep(old(St()), St(), j);
    }

    // ---- lists of readers bound together ------------------------------------------------

    /** Binds a list of readers to one cube, stopping at the first refusal. */
    method BindList(rs: seq<nat>, except: nat, c: Cube) returns (ok: bool)
      requires |handles| == |L| && Indices(|L|, rs)
      modifies `handles
      ensures ok ==> handles == Bound(old(handles), rs, except, c)
      ensures ok ==> forall k :: 0 <= k < |rs| && rs[k] != except ==> AcceptsInput(L[rs[k]], c)
      ensures Loosened(old(handles), handles, set r | r in rs && r != except, {})
      ensures generous && AllTake(rs, except, c) ==> ok
    {
      ok := true;
      var q := 0;
      assert rs[..0] == [];
      while ok && q < |rs|
        invariant 0 <= q <= |rs| && |handles| == |L| && Indices(|L|, rs[..q])
        invariant ok ==> handles == Bound(old(handles), rs[..q], except, c)
        invariant ok ==> forall k :: 0 <= k < q && rs[k] != except ==> AcceptsInput(L[rs[k]], c)
        invariant Loosened(old(handles), handles, set r | r in rs && r != except, {})
        invariant generous && AllTake(rs, except, c) ==> ok
        decreases |rs| - q, ok
      {
        ghost var h := handles;
        assert rs[..q + 1] == rs[..q] + [rs[q]];
        if rs[q] != except { ok := ConsCubeIn(rs[q], c); }
        assert Loosened(old(handles), handles, set r | r in rs && r != except, {}) by {
          LoosenedFurther(old(handles), h, handles, set r | r in rs && r != except, {},
                          if rs[q] == except then {} else {rs[q]}, {});
        }
        q := q + 1;
      }
      assert ok ==> rs[..q] == rs;
    }

    /** The same, asking every reader of the list whatever the ones before it answered. */
    method BindListThrough(rs: seq<nat>, except: nat, c: Cube) returns (ok: bool)
      requires |handles| == |L| && Indices(|L|, rs)
      modifies `handles
      ensures ok ==> handles == Bound(old(handles), rs, except, c)
      ensures ok ==> forall k :: 0 <= k < |rs| && rs[k] != except ==> AcceptsInput(L[rs[k]], c)
      ensures Loosened(old(handles), handles, set r | r in rs && r != except, {})
      ensures generous && AllTake(rs, except, c) ==> ok
    {
      ok := true;
      assert rs[..0] == [];
      for q := 0 to |rs|
        invariant |handles| == |L| && Indices(|L|, rs[..q])
        invariant ok ==> handles == Bound(old(handles), rs[..q], except, c)
        invariant ok ==> forall k :: 0 <= k < q && rs[k] != except ==> AcceptsInput(L[rs[k]], c)
        invariant Loosened(old(handles), handles, set r | r in rs && r != except, {})
        invariant generous && AllTake(rs, except, c) ==> ok
      {
        assert rs[..q + 1] == rs[..q] + [rs[q]];
        if rs[q] != except {
          var bound := ConsCubeIn(rs[q], c);
          if !bound { ok := false; }
        }
      }
      assert rs[..|rs|] == rs;
    }

    method UnbindList(rs: seq<nat>, except: nat)
      requires |handles| == |L| && Indices(|L|, rs)
      modifies `handles
      ensures handles == Unbound(old(handles), rs, except)
    {
      assert rs[..0] == [];
      for q := 0 to |rs|
        invariant |handles| == |L| && Indices(|L|, rs[..q])
        invariant handles == Unbound(old(handles), rs[..q], except)
      {
        assert rs[..q + 1] == rs[..q] + [rs[q]];
        if rs[q] != except { ConsUnbind(rs[q]); }
      }
      assert rs[..|rs|] == rs;
    }

    /** Raises the flags of producer p's readers and counts them. */
    method MarkAndCount(p: nat, rs: seq<nat>, except: nat)
      requires p < |L| == |cubeIn| && Indices(|L|, rs) && Increasing(rs) && CountsOk()
      requires forall k :: 0 <= k < |rs| && rs[k] != except ==> (p, rs[k]) !in rel
      modifies `cubeIn, `joins, `farLinks, `joinBytes, `farBytes, `rel
      ensures CountsOk()
      ensures cubeIn == Marked(old(cubeIn), rs, except)
      ensures rel == Related(old(rel), p, rs, except)
    {
      assert rs[..0] == [];
      for q := 0 to |rs|
        invariant CountsOk() && Indices(|L|, rs[..q])
        invariant cubeIn == Marked(old(cubeIn), rs[..q], except)
        invariant rel == Related(old(rel), p, rs[..q], except)
      {
        var r := rs[q];
        assert rs[..q + 1] == rs[..q] + [r] && r !in rs[..q];
        RelatedIs(old(rel), p, rs[..q], except, (p, r));
        if r != except {
          cubeIn := cubeIn[r := true];
          CubeJoined(p, r);
        }
      }
      assert rs[..|rs|] == rs;
    }

    // ---- a concatenation's operands ------------------------------------------------------

    /** The consumers' view of concatenation j's buffer, with its tail declared. */
    method CutView(j: nat, s: seq<nat>) returns (view: Option<Cube>)
      requires j < |L| && InTable(L, s) && s != [] && 0 < L[j].oc
      ensures view.Some? ==> view.value == ConcatView(L, j, s)
      ensures generous ==> view.Some?
    {
      var b := ConcatBuffer(L, j, s);
      CutIsView(L, j, s);
      view := CubeSlice(Whole(j, b), 0, b.chans);
      if view.Some? { view := CubeDeclareTail(view.value, L[j].oc, L[j].outZp); }
    }

    /** The library cuts operand k's slice: it starts a group and stays in the buffer. */
    predicate OperandSliced(j: nat, s: seq<nat>, k: nat)
      requires j < |L| && InTable(L, s) && k < |s|
    {
      && ConcatOff(L, s, k) % 16 == 0 && 0 < L[s[k]].oc
      && ConcatOff(L, s, k) + Round32(L[s[k]].oc) <= Round16(ConcatBuffer(L, j, s).chans)
    }

    predicate OperandsTake(j: nat, s: seq<nat>)
      requires j < |L| && InTable(L, s) && s != []
    {
      forall k :: 0 <= k < |s| ==> OperandSliced(j, s, k) && OperandTaken(L, j, s, k)
    }

    /** The cubes the first k operands describe themselves by, once all of them took a slice. */
    ghost predicate Described(j: nat, s: seq<nat>, pcs: seq<Cube>, k: nat)
      requires j < |L| && InTable(L, s) && k <= |s|
    {
      |pcs| == k && forall m :: 0 <= m < k ==> pcs[m] == OperandCube(L, j, s, m) && OperandTaken(L, j, s, m)
    }

    /** Gives each operand its slice and asks it to describe itself, stopping at a refusal. */
    method PlaceOperands(j: nat, s: seq<nat>) returns (ok: bool, pcs: seq<Cube>)
      requires j < |L| == |handles| == |bufs| && InTable(L, s) && s != [] && 0 < L[j].oc
      requires Increasing(s) && bufs[j] == Some(ConcatBuffer(L, j, s))
      modifies `handles
      ensures Loosened(old(handles), handles, {}, set p | p in s)
      ensures ok ==> handles == Placed(L, old(handles), j, s, |s|) && Described(j, s, pcs, |s|)
      ensures generous && OperandsTake(j, s) ==> ok
    {
      ok, pcs := true, [];
      var k := 0;
      while ok && k < |s|
        invariant 0 <= k <= |s| && |handles| == |L|
        invariant Loosened(old(handles), handles, {}, set p | p in s)
        invariant ok ==> handles == Placed(L, old(handles), j, s, k) && Described(j, s, pcs, k)
        invariant generous && OperandsTake(j, s) ==> ok
        decreases |s| - k, ok
      {
        ghost var h := handles;
        ok, pcs := PlaceOperand(j, s, k, pcs, old(handles));
        assert Loosened(old(handles), handles, {}, set p | p in s) by {
          LoosenedFurther(old(handles), h, handles, {}, set p | p in s, {}, {s[k]});
        }
        k := k + 1;
      }
    }

    /** One operand: its slice cut, its output moved there, and its cube described. `h0` are the
        handles before the first operand. */
    method PlaceOperand(j: nat, s: seq<nat>, k: nat, pcs: seq<Cube>, ghost h0: seq<Handle>)
      returns (ok: bool, out: seq<Cube>)
      requires j < |L| == |handles| == |bufs| && InTable(L, s) && k < |s| && 0 < L[j].oc
      requires bufs[j] == Some(ConcatBuffer(L, j, s))
      requires |h0| == |L| && handles == Placed(L, h0, j, s, k) && Described(j, s, pcs, k)
      modifies `handles
      ensures Loosened(old(handles), handles, {}, {s[k]})
      ensures ok ==> handles == Placed(L, h0, j, s, k + 1) && Described(j, s, out, k + 1)
      ensures generous && OperandSliced(j, s, k) && OperandTaken(L, j, s, k) ==> ok
    {
      ok, out := false, pcs;
      CutIsSlice(L, j, s, k);
      var sl := CubeSlice(Whole(j, bufs[j].value), ConcatOff(L, s, k), Round32(L[s[k]].oc));
      if sl.None? { return; }
      ok := ProdCubeOutAt(s[k], sl.value);
      if !ok { return; }
      var pc := ProdCubeOf(s[k]);
      ok := pc.Some?;
      if ok { out := pcs + [pc.value]; }
    }

    predicate SidesTake(j: nat, s: seq<nat>, rds: seq<seq<nat>>)
      requires j < |L| && InTable(L, s) && |rds| == |s| && Lists(|L|, rds)
    {
      forall k :: 0 <= k < |s| ==> AllTake(rds[k], j, OperandCube(L, j, s, k))
    }

    /** Hands every operand's cube to its other readers; a refusal stops after its own list. */
    method BindSides(j: nat, s: seq<nat>, rds: seq<seq<nat>>, pcs: seq<Cube>) returns (ok: bool)
      requires j < |L| == |handles| && InTable(L, s) && |rds| == |s| == |pcs| && Lists(|L|, rds)
      requires forall k :: 0 <= k < |s| ==> pcs[k] == OperandCube(L, j, s, k)
      modifies `handles
      ensures Loosened(old(handles), handles, Bindable(|L|, j, rds, []), {})
      ensures ok ==> handles == SideBound(L, old(handles), j, s, rds, |s|)
      ensures ok ==> SidesTake(j, s, rds)
      ensures generous && SidesTake(j, s, rds) ==> ok
    {
      ok := true;
      var k := 0;
      while ok && k < |s|
        invariant 0 <= k <= |s| && |handles| == |L|
        invariant Loosened(old(handles), handles, Bindable(|L|, j, rds, []), {})
        invariant ok ==> handles == SideBound(L, old(handles), j, s, rds, k)
        invariant ok ==> forall m :: 0 <= m < k ==> AllTake(rds[m], j, OperandCube(L, j, s, m))
        invariant generous && SidesTake(j, s, rds) ==> ok
        decreases |s| - k, ok
      {
        ghost var h := handles;
        ok := BindListThrough(rds[k], j, pcs[k]);
        assert Loosened(old(handles), handles, Bindable(|L|, j, rds, []), {}) by {
          SideBindable(|L|, j, rds, k);
          LoosenedFurther(old(handles), h, handles, Bindable(|L|, j, rds, []), {},
                          set r | r in rds[k] && r != j, {});
        }
        k := k + 1;
      }
    }

    /** Every step of an attempt at concatenation j, in order, up to the first refusal. */
    method TakeConcat(j: nat, s: seq<nat>, rds: seq<seq<nat>>, cons: seq<nat>) returns (ok: bool)
      requires j < |L| == |handles| == |bufs| && InTable(L, s) && s != [] && 0 < L[j].oc
      requires Increasing(s) && bufs[j] == Some(ConcatBuffer(L, j, s))
      requires |rds| == |s| && Lists(|L|, rds) && Indices(|L|, cons)
      modifies `handles
      ensures Loosened(old(handles), handles, Bindable(|L|, j, rds, cons), set p | p in s)
      ensures ok ==> ConcatTaken(L, j, s, rds, cons)
      ensures ok ==>
        handles == SideBound(L, Bound(Placed(L, old(handles), j, s, |s|), cons, |L|,
                                      ConcatView(L, j, s)), j, s, rds, |s|)
      ensures generous && OperandsTake(j, s) && ConcatTaken(L, j, s, rds, cons) ==> ok
    {
      ok := false;
      var view := CutView(j, s);
      if view.None? { return; }
      var pcs;
      ok, pcs := PlaceOperands(j, s);
      if ok { ok := BindList(cons, |L|, view.value); }
      if ok { ok := BindSides(j, s, rds, pcs); }
    }

    /** Unwinds an attempt in the order it was built. */
    method UndoConcat(j: nat, s: seq<nat>, rds: seq<seq<nat>>, cons: seq<nat>)
      requires j < |L| == |handles| == |bufs| && Indices(|L|, s)
      requires |rds| == |s| && Lists(|L|, rds) && Indices(|L|, cons)
      modifies `handles, `bufs
      ensures bufs == old(bufs)[j := None]
      ensures handles == Undone(Unbound(old(handles), cons, |L|), j, s, rds, |s|)
    {
      UnbindList(cons, |L|);
      ghost var h := handles;
      for k := 0 to |s|
        invariant |handles| == |L| && handles == Undone(h, j, s, rds, k) && bufs == old(bufs)
      {
        assert Indices(|L|, rds[k]);
        UnbindList(rds[k], j);
        RestoreOut(s[k]);
      }
      CubeFree(j);
    }

    /** Raises the flags of operand k and counts its relations. */
    method CommitOperand(j: nat, p: nat, rs: seq<nat>)
      requires Sized(L, St()) && j < |L| && p < |L| && Indices(|L|, rs) && Increasing(rs)
      requires CountsOk() && forall r :: (p, r) !in rel
      modifies `cubeIn, `cubeOut, `placed, `joins, `farLinks, `joinBytes, `farBytes, `rel
      ensures CountsOk()
      ensures cubeIn == Marked(old(cubeIn), rs, j)
      ensures cubeOut == old(cubeOut)[p := true] && placed == old(placed)[p := true]
      ensures rel == Related(old(rel) + {(p, j)}, p, rs, j)
    {
      cubeOut := cubeOut[p := true];
      placed := placed[p := true];
      CubeJoined(p, j);
      MarkAndCount(p, rs, j);
    }

    /** Commits every operand. */
    method CommitOperands(j: nat, s: seq<nat>, rds: seq<seq<nat>>)
      requires Sized(L, St()) && j < |L| && Indices(|L|, s) && Increasing(s)
      requires |rds| == |s| && Lists(|L|, rds)
      requires forall k :: 0 <= k < |rds| ==> Increasing(rds[k])
      requires CountsOk() && forall x :: x in rel ==> x.0 !in s
      modifies `cubeIn, `cubeOut, `placed, `joins, `farLinks, `joinBytes, `farBytes, `rel
      ensures CountsOk()
      ensures cubeIn == SideMarked(old(cubeIn), rds, |s|, j)
      ensures cubeOut == Raised(old(cubeOut), s) && placed == Raised(old(placed), s)
      ensures rel == SideRelated(old(rel), j, s, rds, |s|)
    {
      assert s[..0] == [];
      for k := 0 to |s|
        invariant Sized(L, St()) && CountsOk() && Indices(|L|, s[..k])
        invariant cubeIn == SideMarked(old(cubeIn), rds, k, j)
        invariant cubeOut == Raised(old(cubeOut), s[..k]) && placed == Raised(old(placed), s[..k])
        invariant rel == SideRelated(old(rel), j, s, rds, k)
      {
        assert s[..k + 1] == s[..k] + [s[k]] && s[k] in s;
        assert Indices(|L|, rds[k]);
        forall r: nat ensures (s[k], r) !in rel { SideRelatedIs(old(rel), j, s, rds, k, (s[k], r)); }
        CommitOperand(j, s[k], rds[k]);
      }
      assert s[..|s|] == s;
    }

    /** Raises every flag of a concatenation all parties have taken, and counts its relations. */
    method CommitConcat(j: nat, s: seq<nat>, rds: seq<seq<nat>>, cons: seq<nat>)
      requires Sized(L, St()) && j < |L| && Indices(|L|, s) && Increasing(s) && j !in s
      requires |rds| == |s| && Lists(|L|, rds) && Indices(|L|, cons) && Increasing(cons)
      requires forall k :: 0 <= k < |rds| ==> Increasing(rds[k])
      requires CountsOk() && forall x :: x in rel ==> x.0 !in s && x.0 != j
      modifies `cubeIn, `cubeOut, `placed, `joins, `farLinks, `joinBytes, `farBytes, `rel
      ensures CountsOk()
      ensures cubeIn == Marked(SideMarked(old(cubeIn), rds, |s|, j), cons, |L|)
      ensures cubeOut == Raised(old(cubeOut), s)[j := true] && placed == Raised(old(placed), s)
      ensures rel == Related(SideRelated(old(rel), j, s, rds, |s|), j, cons, |L|)
    {
      CommitOperands(j, s, rds);
      forall r: nat ensures (j, r) !in rel { SideRelatedIs(old(rel), j, s, rds, |s|, (j, r)); }
      MarkAndCount(j, cons, |L|);
      cubeOut := cubeOut[j := true];
    }

    /** Fills the groups from the one the live channels end in with the zero point. */
    method FillTail(j: nat, live: nat, value: int)
      requires j < |L| == |bufs| && bufs[j].Some?
      modifies `bufs
      ensures bufs == old(bufs)[j := Some(old(bufs[j]).value.(fillFrom := live / 16 * 16, fill := value))]
    {
      bufs := bufs[j := Some(bufs[j].value.(fillFrom := live / 16 * 16, fill := value))];
    }

    /** Allocates concatenation j's buffer and fills its tail once, or refuses. */
    method AllocConcat(j: nat, s: seq<nat>) returns (ok: bool)
      requires j < |L| == |bufs| && InTable(L, s) && s != [] && bufs[j] == None
      modifies `bufs
      ensures bufs == if ok then old(bufs)[j := Some(ConcatBuffer(L, j, s))] else old(bufs)
      ensures generous ==> ok
    {
      var chans := Round32(L[j].oc);
      if ConcatEnd(L, s) > chans { chans := ConcatEnd(L, s); }
      ok := CubeAlloc(j, chans, L[j].oh, L[j].ow);
      if ok && chans > L[j].oc { FillTail(j, L[j].oc, L[j].outZp); }
    }

    /** Places, binds and commits a concatenation, or undoes all of it. */
    method TryConcat(j: nat, s: seq<nat>, rds: seq<seq<nat>>, cons: seq<nat>) returns (wired: bool)
      requires Sized(L, St()) && j < |L| && s != [] && InTable(L, s) && Indices(|L|, s)
      requires Increasing(s) && j !in s && 0 < L[j].oc && bufs[j] == None
      requires |rds| == |s| && Lists(|L|, rds) && Indices(|L|, cons) && Increasing(cons)
      requires forall k :: 0 <= k < |rds| ==> Increasing(rds[k])
      requires forall i :: i in Bindable(|L|, j, rds, cons) ==> handles[i].source == None
      requires forall p :: p in s && p < |L| ==> handles[p].dest == None && !handles[p].leaves
      requires CountsOk() && forall x :: x in rel ==> x.0 !in s && x.0 != j
      modifies `cubeIn, `cubeOut, `placed, `handles, `bufs,
               `joins, `farLinks, `joinBytes, `farBytes, `rel
      ensures CountsOk()
      ensures !wired ==> St() == old(St()) && rel == old(rel)
      ensures wired ==> ConcatTaken(L, j, s, rds, cons)
      ensures wired ==> St() == ConcatBuilt(L, old(St()), j, s, rds, cons)
      ensures wired ==> rel == Related(SideRelated(old(rel), j, s, rds, |s|), j, cons, |L|)
      ensures generous && OperandsTake(j, s) && ConcatTaken(L, j, s, rds, cons) ==> wired
    {
      wired := AllocConcat(j, s);
      if !wired { return; }
      wired := TakeConcat(j, s, rds, cons);
      if !wired {
        UndoneIsOld(old(handles), handles, j, s, rds, cons);
        UndoConcat(j, s, rds, cons);
        assert bufs == old(bufs);
        return;
      }
      CommitConcat(j, s, rds, cons);
    }

    /** Asks one operand: its offset, its place in program order, where its program stops
        writing against where the one before did, and what it is. */
    method ScreenOperand(j: nat, s: seq<nat>, k: nat, off: nat, end: nat) returns (ok: bool)
      requires WellFormed(L) && Sized(L, St()) && j < |L| && s == Opers(L, j) && k < |s|
      requires off == ConcatOff(L, s, k)
      requires end == if k == 0 then 0 else ConcatOff(L, s, k - 1) + Round32(L[s[k - 1]].oc)
      requires k > 0 ==> OperandAsked(L, knobs, St(), j, s, k - 1)
      ensures ok <==> OperandAsked(L, knobs, St(), j, s, k) && (k == 0 || s[k - 1] < s[k])
    {
      var p := s[k];
      assert RowOk(L, p);
      ok := off % 16 == 0;
      if k > 0 && s[k] <= s[k - 1] { ok := false; }
      if off + Round32(L[p].oc) < end {
        assert false;   // cannot be: see WriteEndsNeverFall
        ok := false;
      }
      if k + 1 < |s| && L[p].oc % 32 != 0 && !knobs.overlap { ok := false; }
      if L[p].outZp != L[j].outZp { ok := false; }
      if !L[p].resident || ForcedBy(knobs, p) { ok := false; }
      if cubeOut[p] || placed[p] || shared[p] { ok := false; }
      if L[p].hostInput { ok := false; }
    }

    /** Walks the operands, up to the first that may not be placed. */
    method ScreenOperands(j: nat, s: seq<nat>) returns (ok: bool)
      requires WellFormed(L) && Sized(L, St()) && j < |L| && s == Opers(L, j)
      ensures ok ==> forall k :: 0 <= k < |s| ==> OperandFit(L, St(), j, s, k)
      ensures ok <==> OperandsAsked(L, knobs, St(), j, s)
    {
      ok := true;
      var o, end, k := 0, 0, 0;
      while k < |s| && ok
        invariant 0 <= k <= |s| && o == ConcatOff(L, s, k)
        invariant end == if k == 0 then 0 else ConcatOff(L, s, k - 1) + Round32(L[s[k - 1]].oc)
        invariant ok ==> forall m :: 0 <= m < k ==> OperandAsked(L, knobs, St(), j, s, m) && (m == 0 || s[m - 1] < s[m])
        invariant !ok ==> k > 0 && !(OperandAsked(L, knobs, St(), j, s, k - 1) && (k == 1 || s[k - 2] < s[k - 1]))
        decreases |s| - k, ok
      {
        ok := ScreenOperand(j, s, k, o, end);
        end := o + Round32(L[s[k]].oc);
        o := o + L[s[k]].oc;
        k := k + 1;
      }
      if ok {
        forall x, y | 0 <= x < y < |s| ensures s[x] < s[y] { RisesFrom(s, x, y); }
        forall m | 0 <= m < |s| ensures OperandFit(L, St(), j, s, m) {
          assert OperandAsked(L, knobs, St(), j, s, m);
        }
      } else {
        assert Increasing(s) && k > 1 ==> s[k - 2] < s[k - 1];
      }
      if o != L[j].oc { ok := false; }
    }

    lemma {:induction false} RisesFrom(s: seq<nat>, x: nat, y: nat)
      requires x < y < |s| && forall m :: 0 < m < |s| ==> s[m - 1] < s[m]
      ensures s[x] < s[y]
    {
      if x + 1 < y { RisesFrom(s, x, y - 1); }
    }

    /** Lists p's readers, refusing more than four and any but `except` that cannot take a
        cube or that another pass has linked. */
    method ScreenReaders(p: nat, except: nat) returns (ok: bool, rs: seq<nat>)
      requires WellFormed(L) && Sized(L, St()) && p < |L|
      ensures ok ==> rs == Readers(L, p) && Indices(|L|, rs)
      ensures ok <==> |Readers(L, p)| <= 4 && ReadersFree(L, St(), p, except)
    {
      var n;
      n, rs := ConsumersOf(L, p, 4);
      ok := n <= 4;
      if !ok { return; }
      ReadersIndexed(L, p);
      for q := 0 to |rs|
        invariant ok <==> forall m :: 0 <= m < q && rs[m] != except ==>
                    ConsumerOk(L[rs[m]]) && !cubeIn[rs[m]]
      {
        if rs[q] != except && (!ConsumerOk(L[rs[q]]) || cubeIn[rs[q]]) { ok := false; }
      }
      assert forall r: nat :: Reader(L, r, p) <==> r in rs;
    }

    /** Asks everything that can be asked before concatenation j's buffer is allocated. */
    method ScreenConcat(j: nat)
      returns (ok: bool, s: seq<nat>, rds: seq<seq<nat>>, cons: seq<nat>)
      requires WellFormed(L) && Sized(L, St()) && j < |L| && L[j].kind == Concat && !cubeOut[j]
      ensures ok ==> ConcatEligible(L, St(), j, s, rds, cons)
      ensures ok <==> ConcatAsked(L, knobs, St(), j)
    {
      ok, rds, cons := false, [], [];
      s := OperandList(L[j]);
      if ForcedBy(knobs, j) || L[j].rowMajorOut || s == [] { return; }
      assert s == Opers(L, j);
      ok := ScreenOperands(j, s);
      if !ok { return; }
      var k := 0;
      while k < |s| && ok
        invariant 0 <= k <= |s| && |rds| <= k && (ok ==> |rds| == k)
        invariant ok ==> forall m :: 0 <= m < k ==>
                    rds[m] == Readers(L, s[m]) && ReadersFree(L, St(), s[m], j)
        invariant ok <==> forall m :: 0 <= m < k ==> FewFree(L, St(), s[m], j)
        decreases |s| - k, ok
      {
        var rs;
        ok, rs := ScreenReaders(s[k], j);
        if ok { rds := rds + [rs]; }
        k := k + 1;
      }
      if !ok { return; }
      ok, cons := ScreenReaders(j, |L|);
      if !ok { return; }
      ok := cons != [];
      for q := 0 to |cons|
        invariant ok <==> cons != [] && forall m :: 0 <= m < q ==> PadjoinBy(L, knobs, j, cons[m])
      {
        if !PadjoinBy(L, knobs, j, cons[q]) { ok := false; }
      }
      assert forall r: nat :: Reader(L, r, j) <==> r in cons;
    }

    /** One concatenation of the pass: wired whole, or nothing changed. */
    method WireConcat(j: nat) returns (wired: bool)
      requires Valid() && j < |L| && L[j].kind == Concat && !cubeOut[j]
      modifies `cubeIn, `cubeOut, `placed, `handles, `bufs,
               `joins, `farLinks, `joinBytes, `farBytes, `rel
      ensures Valid()
      ensures wired ==> Opers(L, j) != [] && Increasing(Opers(L, j))
      ensures St() == if wired then Link(L, old(St()), ConcatWiring(L, j)) else old(St())
      ensures !wired ==> Tally(joins, farLinks, joinBytes, farBytes)
                         == old(Tally(joins, farLinks, joinBytes, farBytes))
      ensures wired ==> ConcatAsked(L, knobs, old(St()), j) && ConcatTakes(L, j)
      ensures generous && ConcatAsked(L, knobs, old(St()), j) && ConcatTakes(L, j) ==> wired
      ensures Decides(L, knobs, generous, Concats, old(St()), St(), j)
    {
      wired := false;
      var ok, s, rds, cons := ScreenConcat(j);
      if !ok { return; }
      ConcatLists(L, St(), j, s, rds, cons);
      SlicesFit(j, s, rds, cons);
      OneReading(j, s, rds, cons);
      ConcatIsFree(L, St(), j, s, rds, cons);
      wired := TryConcat(j, s, rds, cons);
      if !wired { return; }
      ConcatTakenAgreed(L, old(St()), j, s, rds, cons);
      ConcatBuiltIsLinked(L, old(St()), j, s, rds, cons);
      ConcatPairs(L, old(St()), j, s, rds, cons);
      ConcatWiringSound(L, old(St()), j);
    }

    /** The library can cut every slice an eligible concatenation needs. */
    lemma SlicesFit(j: nat, s: seq<nat>, rds: seq<seq<nat>>, cons: seq<nat>)
      requires WellFormed(L) && Sized(L, St()) && ConcatEligible(L, St(), j, s, rds, cons)
      ensures forall k :: 0 <= k < |s| ==> OperandSliced(j, s, k)
    {
      forall k | 0 <= k < |s| ensures 0 < L[s[k]].oc && ConcatOff(L, s, k) % 16 == 0 {
        assert RowOk(L, s[k]) && OperandFit(L, St(), j, s, k);
      }
      forall k | 0 <= k < |s| ensures OperandSliced(j, s, k) { WriteEndsFit(L, s, k); }
    }

    /** An operand's readers are one list. */
    lemma OneReading(j: nat, s: seq<nat>, rds: seq<seq<nat>>, cons: seq<nat>)
      requires WellFormed(L) && Sized(L, St()) && ConcatEligible(L, St(), j, s, rds, cons)
      requires Lists(|L|, rds) && Indices(|L|, cons)
      ensures ConcatTakes(L, j) <==> ConcatTaken(L, j, s, rds, cons)
    {
      if ConcatTakes(L, j) {
        var t :| AreReaders(L, j, s, t) && ConcatTaken(L, j, s, t, Readers(L, j));
        assert t == rds;
      }
      assert AreReaders(L, j, s, rds);
    }

    /** The concatenation pass. */
    method ConcatLink()
      requires Valid()
      requires forall k :: 0 <= k < |L| && L[k].kind == Concat ==> !cubeOut[k]
      modifies `cubeIn, `cubeOut, `placed, `handles, `bufs,
               `joins, `farLinks, `joinBytes, `farBytes, `rel
      ensures Valid() && Ends(L, knobs, generous, Concats, old(St()), St())
    {
      if !knobs.catn { return; }
      ghost var trace := [St()];
      StartsAt(L, knobs, generous, Concats, St());
      for j := 0 to |L|
        invariant Valid() && Trace(L, knobs, generous, Concats, trace, j)
        invariant trace[0] == old(St()) && trace[j] == St()
        invariant forall k :: j <= k < |L| && L[k].kind == Concat ==> !cubeOut[k]
      {
        VisitConcat(j);
        TraceNext(L, knobs, generous, Concats, trace, St(), j);
        trace := trace + [St()];
      }
      EndsIn(L, knobs, generous, Concats, trace);
    }

    /** One row of the table: decided if it is a concatenation, and no later one is touched. */
    method VisitConcat(j: nat)
      requires Valid() && j < |L|
      requires forall k :: j <= k < |L| && L[k].kind == Concat ==> !cubeOut[k]
      modifies `cubeIn, `cubeOut, `placed, `handles, `bufs,
               `joins, `farLinks, `joinBytes, `farBytes, `rel
      ensures Valid() && Decides(L, knobs, generous, Concats, old(St()), St(), j)
      ensures forall k :: j < k < |L| && L[k].kind == Concat ==> !cubeOut[k]
    {
      if L[j].kind != Concat { return; }
      var wired := WireConcat(j);
      if wired { ConcatTouchesOnly(L, old(St()), j, St()); }
    }

    // ---- one producer at a time --------------------------------------------------------

    /** Producer i's tail buffer, filled past its channels, and the slice and view of it. */
    method AllocTail(i: nat) returns (ok: bool, dst: Option<Cube>, view: Option<Cube>)
      requires i < |L| == |bufs| && bufs[i] == None && 0 < L[i].oc && L[i].oc % 32 != 0
      modifies `bufs
      ensures bufs == if ok then old(bufs)[i := Some(TailBuffer(L[i]))] else old(bufs)
      ensures dst.Some? ==> dst.value == TailSlice(L, i)
      ensures view.Some? ==> view.value == TailView(L, i)
      ensures generous ==> ok && dst.Some? && view.Some?
    {
      dst, view := None, None;
      var chans := Round32(L[i].oc);
      Round32Whole(L[i].oc);
      ok := CubeAlloc(i, chans, L[i].oh, L[i].ow);
      if !ok { return; }
      FillTail(i, L[i].oc, L[i].outZp);
      dst := CubeSlice(Whole(i, bufs[i].value), 0, chans);
      if dst.Some? { view := CubeDeclareTail(dst.value, L[i].oc, L[i].outZp); }
    }

    /** Places producer i in its own buffer and binds its readers to the view, or undoes it. */
    method TakeTail(i: nat, rs: seq<nat>) returns (ok: bool)
      requires Sized(L, St()) && i < |L| && bufs[i] == None && 0 < L[i].oc && L[i].oc % 32 != 0
      requires Indices(|L|, rs) && i !in rs
      requires handles[i].dest == None && !handles[i].leaves
      requires forall r :: r in rs && r < |L| ==> handles[r].source == None
      modifies `handles, `bufs
      ensures !ok ==> handles == old(handles) && bufs == old(bufs)
      ensures ok ==>
        && AcceptsOutput(L[i], TailSlice(L, i), TailBuffer(L[i]).chans)
        && (forall k :: 0 <= k < |rs| ==> AcceptsInput(L[rs[k]], TailView(L, i)))
        && bufs == old(bufs)[i := Some(TailBuffer(L[i]))]
        && handles == Bound(old(handles)[i := old(handles[i]).(
             dest := Some(TailSlice(L, i)), leaves := true)], rs, |L|, TailView(L, i))
      ensures (generous && AcceptsOutput(L[i], TailSlice(L, i), TailBuffer(L[i]).chans)
               && AllTake(rs, |L|, TailView(L, i))) ==> ok
    {
      var dst, view;
      ok, dst, view := AllocTail(i);
      if !ok { return; }
      ghost var h0 := handles;
      ok := dst.Some? && view.Some?;
      if ok { ok := ProdCubeOutAt(i, dst.value); }
      ghost var h1 := handles;
      if ok { ok := BindList(rs, |L|, view.value); }
      if !ok {
        TailUndone(h0, h1, handles, rs, i);
        UnbindList(rs, |L|);
        RestoreOut(i);
        CubeFree(i);
        assert bufs == old(bufs);
      }
    }

    /** Everything after the questions: places, binds and commits a tail, or undoes all of it. */
    method TryTail(i: nat, rs: seq<nat>) returns (wired: bool)
      requires WellFormed(L) && Sized(L, St()) && i < |L| && bufs[i] == None && L[i].kind != Concat
      requires 0 < L[i].oc && L[i].oc % 32 != 0
      requires Indices(|L|, rs) && Increasing(rs) && i !in rs && CountsOk()
      requires handles[i].dest == None && !handles[i].leaves
      requires forall r :: r in rs && r < |L| ==> handles[r].source == None
      requires forall r: nat :: (i, r) !in rel
      modifies `cubeIn, `cubeOut, `placed, `handles, `bufs,
               `joins, `farLinks, `joinBytes, `farBytes, `rel
      ensures CountsOk()
      ensures !wired ==> St() == old(St()) && rel == old(rel)
      ensures wired ==>
        && AcceptsOutput(L[i], TailSlice(L, i), TailBuffer(L[i]).chans)
        && AllTake(rs, |L|, HandedCube(L, TailWiring(L, i), i))
        && St() == SingleBuilt(L, old(St()), TailWiring(L, i), i, rs)
        && rel == Related(old(rel), i, rs, |L|)
      ensures (generous && AcceptsOutput(L[i], TailSlice(L, i), TailBuffer(L[i]).chans)
               && AllTake(rs, |L|, TailView(L, i))) ==> wired
    {
      wired := TakeTail(i, rs);
      if !wired { return; }
      assert HandedCube(L, TailWiring(L, i), i) == TailView(L, i);
      assert OutHandle(L, TailWiring(L, i), i, old(handles[i]))
             == old(handles[i]).(dest := Some(TailSlice(L, i)), leaves := true);
      cubeOut := cubeOut[i := true];
      placed := placed[i := true];
      MarkAndCount(i, rs, |L|);
    }

    /** Whether producer i needs a tail it cannot state, and every reader pays for it. */
    method ScreenTail(i: nat) returns (ok: bool, rs: seq<nat>)
      requires WellFormed(L) && Sized(L, St()) && i < |L|
      ensures ok ==>
        && SingleEligible(L, St(), i, rs) && Indices(|L|, rs) && L[i].oc % 32 != 0
        && (handles[i].dest == None ==> IsPool(L[i]) && Describable(L[i]))
      ensures ok ==> TailAsked(L, knobs, St(), i)
      ensures generous && TailAsked(L, knobs, St(), i) ==> ok
    {
      ok, rs := false, [];
      if cubeOut[i] || placed[i] || ForcedBy(knobs, i) || !L[i].resident { return; }
      if L[i].oc % 16 != 0 || L[i].oc % 32 == 0 { return; }
      ok, rs := ScreenSingle(i);
      if !ok { return; }
      for q := 0 to |rs|
        invariant ok <==> forall m :: 0 <= m < q ==> Sensitive(L[rs[m]])
      {
        if IsPool(L[rs[q]]) || L[rs[q]].ic % 32 == 0 || L[rs[q]].wZp == 0 { ok := false; }
      }
      assert forall r: nat :: Reader(L, r, i) <==> r in rs;
      if !ok { return; }
      var pc := ProdCubeOf(i);
      if pc.None? || pc.value.padFrom != 0 || pc.value.frame.surf != PlaneSize(L[i]) { ok := false; return; }
      assert RowOk(L, i);
    }

    /** Asking the listed readers to take the tailed view is asking them all, and nothing of
        theirs is bound or counted. */
    lemma TailFree(i: nat, rs: seq<nat>)
      requires Valid() && SingleEligible(L, St(), i, rs)
      requires handles[i].dest == None ==> IsPool(L[i])
      ensures L[i].kind != Concat && bufs[i] == None && 0 < L[i].oc
      ensures Indices(|L|, rs) && Increasing(rs) && i !in rs
      ensures handles[i].dest == None && !handles[i].leaves
      ensures forall r :: r in rs && r < |L| ==> handles[r].source == None
      ensures forall r: nat :: (i, r) !in rel
      ensures HandedCube(L, TailWiring(L, i), i) == TailView(L, i)
      ensures TailTakes(L, i) <==>
        && AcceptsOutput(L[i], TailSlice(L, i), TailBuffer(L[i]).chans)
        && AllTake(rs, |L|, TailView(L, i))
    {
      SingleIsFree(L, St(), i, rs);
      assert RowOk(L, i);
      assert forall r: nat :: Reader(L, r, i) <==> r in rs;
    }

    /** One producer of the tail pass: given a tail of its own, or nothing changed. */
    method WireTail(i: nat) returns (wired: bool)
      requires Valid() && i < |L|
      modifies `cubeIn, `cubeOut, `placed, `handles, `bufs,
               `joins, `farLinks, `joinBytes, `farBytes, `rel
      ensures Valid()
      ensures St() == if wired then Link(L, old(St()), TailWiring(L, i)) else old(St())
      ensures !wired ==> Tally(joins, farLinks, joinBytes, farBytes)
                         == old(Tally(joins, farLinks, joinBytes, farBytes))
      ensures wired ==> TailAsked(L, knobs, old(St()), i) && TailTakes(L, i)
      ensures generous && TailAsked(L, knobs, old(St()), i) && TailTakes(L, i) ==> wired
    {
      wired := false;
      var ok, rs := ScreenTail(i);
      if !ok { return; }
      TailFree(i, rs);
      wired := TryTail(i, rs);
      if !wired { return; }
      FinishTail(old(St()), i, rs);
    }

    /** A tail built is a tail linked, and the plan with it is sound. */
    lemma FinishTail(S: State, i: nat, rs: seq<nat>)
      requires Sound(L, S) && SingleEligible(L, S, i, rs) && Indices(|L|, rs)
      requires IsPool(L[i]) && ProducerAgrees(L, i, TailSlice(L, i), TailBuffer(L[i]))
      requires AllTake(rs, |L|, HandedCube(L, TailWiring(L, i), i))
      requires St() == SingleBuilt(L, S, TailWiring(L, i), i, rs)
      ensures St() == Link(L, S, TailWiring(L, i)) && Sound(L, St())
      ensures Related(WiredPairs(L, S), i, rs, |L|) == WiredPairs(L, St())
    {
      FinishSingle(S, TailWiring(L, i), i, rs);
      TailWiringSound(L, S, i);
    }

    /** The wired plan is the linked one, whichever of the one-producer wirings built it. */
    lemma FinishSingle(S: State, W: Wiring, i: nat, rs: seq<nat>)
      requires Sound(L, S) && SingleEligible(L, S, i, rs) && OnlyProducer(W, i)
      requires Indices(|L|, rs)
      requires forall k :: 0 <= k < |rs| ==> AcceptsInput(L[rs[k]], HandedCube(L, W, i))
      requires St() == SingleBuilt(L, S, W, i, rs)
      ensures St() == Link(L, S, W) && ReadersAgree(L, S, W, i, |L|) && HasReader(L, i)
      ensures Related(WiredPairs(L, S), i, rs, |L|) == WiredPairs(L, Link(L, S, W))
    {
      SingleIsFree(L, S, i, rs);
      SingleAgreed(L, S, W, i, rs);
      SingleBuiltIsLinked(L, S, W, i, rs);
      SinglePairs(L, S, W, i, rs);
    }

    /** The same for a wiring that hands out the producer's own surface, which is then sound. */
    lemma FinishOwn(S: State, W: Wiring, i: nat, rs: seq<nat>)
      requires Sound(L, S) && SingleEligible(L, S, i, rs) && Indices(|L|, rs)
      requires L[i].resident && Describable(L[i])
      requires W == SharedWiring(i) || (W == PairWiring(i) && !SkipSource(L, i))
      requires forall k :: 0 <= k < |rs| ==> AcceptsInput(L[rs[k]], HandedCube(L, W, i))
      requires St() == SingleBuilt(L, S, W, i, rs)
      ensures St() == Link(L, S, W) && Sound(L, St())
      ensures Related(WiredPairs(L, S), i, rs, |L|) == WiredPairs(L, St())
    {
      FinishSingle(S, W, i, rs);
      OwnSurfaceWiringSound(L, S, i, W);
    }

    /** Lists the readers of a producer that is to be wired to all of them. */
    method ScreenSingle(i: nat) returns (ok: bool, rs: seq<nat>)
      requires WellFormed(L) && Sized(L, St()) && i < |L| && !cubeOut[i] && L[i].resident
      ensures ok ==> SingleEligible(L, St(), i, rs) && Indices(|L|, rs)
      ensures ok <==> WholeAsked(L, knobs, St(), i)
    {
      ok, rs := ScreenReaders(i, |L|);
      if !ok { return; }
      ok := rs != [];
      for q := 0 to |rs|
        invariant ok <==> rs != [] && forall m :: 0 <= m < q ==> PadjoinBy(L, knobs, i, rs[m])
      {
        if !PadjoinBy(L, knobs, i, rs[q]) { ok := false; }
      }
      assert forall r: nat :: Reader(L, r, i) <==> r in rs;
    }

    /** The declared-tail pass. */
    method TailLink()
      requires Valid()
      modifies `cubeIn, `cubeOut, `placed, `handles, `bufs,
               `joins, `farLinks, `joinBytes, `farBytes, `rel
      ensures Valid() && Ends(L, knobs, generous, Tails, old(St()), St())
    {
      if !knobs.tail { return; }
      ghost var trace := [St()];
      StartsAt(L, knobs, generous, Tails, St());
      for i := 0 to |L|
        invariant Valid() && Trace(L, knobs, generous, Tails, trace, i)
        invariant trace[0] == old(St()) && trace[i] == St()
      {
        ghost var S := St();
        var wired := WireTail(i);
        TailsDecided(L, knobs, generous, S, St(), i, wired);
        TraceNext(L, knobs, generous, Tails, trace, St(), i);
        trace := trace + [St()];
      }
      EndsIn(L, knobs, generous, Tails, trace);
    }

    /** Hands out producer i's own surface, declares it shared and commits, or undoes all of it. */
    method TryShared(i: nat, rs: seq<nat>, c: Cube) returns (wired: bool)
      requires WellFormed(L) && Sized(L, St()) && i < |L| && L[i].kind != Concat
      requires Indices(|L|, rs) && Increasing(rs) && i !in rs && CountsOk()
      requires handles[i].dest == None && c == CubeOf(L, i, None) && Describable(L[i])
      requires forall r :: r in rs && r < |L| ==> handles[r].source == None
      requires forall r: nat :: (i, r) !in rel
      modifies `cubeIn, `cubeOut, `shared, `handles,
               `joins, `farLinks, `joinBytes, `farBytes, `rel
      ensures CountsOk()
      ensures !wired ==> St() == old(St()) && rel == old(rel)
      ensures wired ==>
        && AllTake(rs, |L|, c) && c == HandedCube(L, SharedWiring(i), i)
        && St() == SingleBuilt(L, old(St()), SharedWiring(i), i, rs)
        && rel == Related(old(rel), i, rs, |L|)
      ensures generous && AllTake(rs, |L|, c) ==> wired
    {
      assert HandedCube(L, SharedWiring(i), i) == c;
      wired := TakeOwn(i, rs, c);
      if !wired { return; }
      ProdCubeShared(i);
      SharedBuilt(old(St()), i, rs, c);
      cubeOut := cubeOut[i := true];
      shared := shared[i := true];
      MarkAndCount(i, rs, |L|);
    }

    /** Binding the readers first and raising the producer's two flags after comes to the same. */
    lemma SharedBuilt(S: State, i: nat, rs: seq<nat>, c: Cube)
      requires WellFormed(L) && Sized(L, S) && i < |L| && i !in rs && Indices(|L|, rs)
      requires c == HandedCube(L, SharedWiring(i), i)
      ensures var h := S.handles[i].(leaves := true);
        SingleBuilt(L, S, SharedWiring(i), i, rs)
        == State(Marked(S.cubeIn, rs, |L|), S.cubeOut[i := true], S.placed, S.shared[i := true],
                 Bound(S.handles, rs, |L|, c)[i := h][i := h.(shared := h.shared || !IsPool(L[i]))],
                 S.bufs)
      ensures Bound(S.handles, rs, |L|, c)[i] == S.handles[i]
    {
      var h := OutHandle(L, SharedWiring(i), i, S.handles[i]);
      BoundSkips(S.handles, rs, c, i, h);
      var t := Bound(S.handles, rs, |L|, c);
      assert t[i := S.handles[i].(leaves := true)][i := h] == t[i := h];
    }

    /** Asking the listed readers is asking them all. */
    lemma OwnTaken(i: nat, rs: seq<nat>)
      requires WellFormed(L) && Sized(L, St()) && SingleEligible(L, St(), i, rs) && Indices(|L|, rs)
      ensures OwnTakes(L, i) <==> Describable(L[i]) && AllTake(rs, |L|, CubeOf(L, i, None))
    {
      assert forall r: nat :: Reader(L, r, i) <==> r in rs;
    }

    /** Asks everything about skip source i that binds nothing. */
    method ScreenShared(i: nat) returns (ok: bool, rs: seq<nat>, c: Cube)
      requires Valid() && SkipsOk() && i < |L|
      ensures ok ==> SharedAsked(L, knobs, St(), i) && Describable(L[i]) && c == CubeOf(L, i, None)
      ensures ok ==> SingleEligible(L, St(), i, rs) && Indices(|L|, rs)
      ensures generous && SharedAsked(L, knobs, St(), i) && Describable(L[i]) ==> ok
    {
      ok, rs, c := false, [], AddAll(L, i);
      if !skip[i] || placed[i] || cubeOut[i] { return; }
      if !L[i].resident || ForcedBy(knobs, i) { return; }
      ok, rs := ScreenSingle(i);
      if !ok { return; }
      var pc := ProdCubeOf(i);
      ok := pc.Some?;
      if ok {
        IdleOut(L, St(), i);
        c := pc.value;
      }
    }

    /** One skip source of the shared-surface pass: wired to all its readers, or unchanged. */
    method WireShared(i: nat) returns (wired: bool)
      requires Valid() && SkipsOk() && i < |L|
      modifies `cubeIn, `cubeOut, `shared, `handles,
               `joins, `farLinks, `joinBytes, `farBytes, `rel
      ensures Valid()
      ensures St() == if wired then Link(L, old(St()), SharedWiring(i)) else old(St())
      ensures !wired ==> Tally(joins, farLinks, joinBytes, farBytes)
                         == old(Tally(joins, farLinks, joinBytes, farBytes))
      ensures wired ==> SharedAsked(L, knobs, old(St()), i) && OwnTakes(L, i)
      ensures generous && SharedAsked(L, knobs, old(St()), i) && OwnTakes(L, i) ==> wired
    {
      wired := false;
      var ok, rs, c := ScreenShared(i);
      if !ok { return; }
      SingleIsFree(L, St(), i, rs);
      assert RowOk(L, i);
      OwnTaken(i, rs);
      wired := TryShared(i, rs, c);
      if !wired { return; }
      FinishOwn(old(St()), SharedWiring(i), i, rs);
    }

    /** Hands producer i's own surface to its readers and takes it out of row-major, or undoes. */
    method TakeOwn(i: nat, rs: seq<nat>, c: Cube) returns (ok: bool)
      requires |handles| == |L| && i < |L| && Indices(|L|, rs) && Describable(L[i])
      requires forall r :: r in rs && r < |L| ==> handles[r].source == None
      modifies `handles
      ensures !ok ==> handles == old(handles)
      ensures ok ==>
        && (forall k :: 0 <= k < |rs| ==> AcceptsInput(L[rs[k]], c))
        && var t := Bound(old(handles), rs, |L|, c);
           handles == t[i := t[i].(leaves := true)]
      ensures generous && AllTake(rs, |L|, c) ==> ok
    {
      ok := BindList(rs, |L|, c);
      if ok { ok := ProdCubeOut(i); }
      if !ok {
        UnboundIsOld(old(handles), handles, rs);
        UnbindList(rs, |L|);
      }
    }

    /** The shared-surface pass. */
    method MultiLink()
      requires Valid() && SkipsOk()
      modifies `cubeIn, `cubeOut, `shared, `handles,
               `joins, `farLinks, `joinBytes, `farBytes, `rel
      ensures Valid() && Ends(L, knobs, generous, Shares, old(St()), St())
    {
      if !knobs.multi { return; }
      ghost var trace := [St()];
      StartsAt(L, knobs, generous, Shares, St());
      for i := 0 to |L|
        invariant Valid() && Trace(L, knobs, generous, Shares, trace, i)
        invariant trace[0] == old(St()) && trace[i] == St()
      {
        ghost var S := St();
        var wired := WireShared(i);
        SharesDecided(L, knobs, generous, S, St(), i, wired);
        TraceNext(L, knobs, generous, Shares, trace, St(), i);
        trace := trace + [St()];
      }
      EndsIn(L, knobs, generous, Shares, trace);
    }

    // ---- the adjacent pairs --------------------------------------------------------------

    /** The buckets count the refused pairs, each under the reason the pair itself gives unless
        the library refused more than its contracts let it. */
    ghost predicate BucketsOk()
      reads `nojoin, `nojoinBytes, `refused
    {
      Booked(L, nojoin, nojoinBytes, refused) && (generous ==> Judged(L, knobs, refused))
    }

    method NojoinNote(i: nat, j: nat, why: NoJoin)
      requires i < |L| && j < |L| && BucketsOk() && (i, j) !in refused
      requires generous ==> JudgedAt(L, knobs, (i, j), why)
      modifies `nojoin, `nojoinBytes, `refused
      ensures BucketsOk() && refused == old(refused)[(i, j) := why]
    {
      var k := Index(why);
      BookedAdd(L, nojoin, nojoinBytes, refused, (i, j), why);
      nojoin := nojoin[k := nojoin[k] + 1];
      nojoinBytes := nojoinBytes[k := nojoinBytes[k] + PairBytes(L, i)];
      refused := refused[(i, j) := why];
    }

    /** Why the caller's own tables refuse a pair before the library is asked, if they do. A
        producer that leaves a cube never gets this far: see FallbackUnreachable. */
    method ScreenPair(i: nat, j: nat) returns (why: Option<NoJoin>)
      requires Valid() && SkipsOk() && i < |L| && j == NextLayer(L, i) && j < |L| && Reader(L, j, i)
      requires !cubeOut[i]
      ensures why.None? ==> L[i].resident && ConsumerOk(L[j]) && !SkipSource(L, i) && !cubeIn[j]
      ensures why.Some? ==> why == Verdict(L, knobs, i, j)
      ensures why.None? ==> PadjoinBy(L, knobs, i, j) && RuleVerdict(L, knobs, i, j).None?
    {
      if ForcedBy(knobs, i) { return Some(NoJoin.Forced); }
      if !L[i].resident { return Some(Other); }
      if L[j].kind == Add { return Some(AddConsumer); }
      if !ConsumerOk(L[j]) { return Some(Other); }
      IdleOut(L, St(), i);
      if skip[i] && !placed[i] && !shared[i] { return Some(FeedsSkip); }
      FallbackUnreachable(i, j);
      if cubeOut[i] || cubeIn[j] {
        assert false;
      }
      if !PadjoinBy(L, knobs, i, j) { return Some(IcAlign); }
      return None;
    }

    /** The pair loop's fallback refusal, for a pair linked on one side only, never fires: no
        consumer that can take a cube is bound while its producer leaves none. */
    lemma FallbackUnreachable(i: nat, j: nat)
      requires Valid() && Reader(L, j, i) && ConsumerOk(L[j]) && !cubeOut[i]
      ensures !cubeIn[j]
    {
      assert InOk(L, St(), j);
    }

    /** A pair that passes is its producer's only one, with nothing bound or counted. */
    lemma PairFree(i: nat, j: nat)
      requires Valid() && Reader(L, j, i) && i < |L| && !cubeOut[i] && L[i].resident
      requires ConsumerOk(L[j]) && !cubeIn[j] && !SkipSource(L, i)
      ensures i < j && L[i].kind != Concat && Indices(|L|, [j]) && SingleEligible(L, St(), i, [j])
      ensures handles[i].dest == None && handles[j].source == None && (i, j) !in rel
    {
      SoleReader(L, i, j);
      SingleIsFree(L, St(), i, [j]);
      assert RowOk(L, i);
    }

    /** Links one pair, or says why not. A refusal leaves no trace. */
    method WirePair(i: nat, j: nat) returns (why: Option<NoJoin>)
      requires Valid() && SkipsOk() && i < |L| && j == NextLayer(L, i) && j < |L| && Reader(L, j, i)
      requires !cubeOut[i]
      modifies `cubeIn, `cubeOut, `handles, `joins, `farLinks, `joinBytes, `farBytes, `rel
      ensures Valid()
      ensures St() == if why.None? then Link(L, old(St()), PairWiring(i)) else old(St())
      ensures rel == if why.None? then old(rel) + {(i, j)} else old(rel)
      ensures why.None? ==> Verdict(L, knobs, i, j).None?
      ensures generous && why.Some? ==> JudgedAt(L, knobs, (i, j), why.value)
    {
      why := ScreenPair(i, j);
      if why.Some? { return; }
      PairFree(i, j);
      var pc := ProdCubeOf(i);
      if pc.None? { return Some(Surface); }
      why := TryPair(i, j, pc.value);
      if why.Some? { return; }
      FinishOwn(old(St()), PairWiring(i), i, [j]);
    }

    /** Asks the consumer, then the producer; takes the consumer apart if the producer refuses. */
    method TryPair(i: nat, j: nat, c: Cube) returns (why: Option<NoJoin>)
      requires WellFormed(L) && Sized(L, St()) && i < j < |L| && L[i].kind != Concat && CountsOk()
      requires Indices(|L|, [j]) && handles[i].dest == None && c == CubeOf(L, i, None)
      requires handles[j].source == None && (i, j) !in rel && Describable(L[i])
      modifies `cubeIn, `cubeOut, `handles, `joins, `farLinks, `joinBytes, `farBytes, `rel
      ensures CountsOk()
      ensures why.Some? ==> St() == old(St()) && rel == old(rel)
      ensures why.None? ==>
        && AcceptsInput(L[j], HandedCube(L, PairWiring(i), i))
        && St() == SingleBuilt(L, old(St()), PairWiring(i), i, [j])
        && rel == Related(old(rel), i, [j], |L|) && rel == old(rel) + {(i, j)}
      ensures generous && AcceptsInput(L[j], c) ==> why.None?
      ensures generous && !AcceptsInput(L[j], c) ==>
                why == Some(if L[j].ic % 32 != 0 then IcAlign else Other)
    {
      assert HandedCube(L, PairWiring(i), i) == c;
      why := TakePair(i, j, c);
      if why.Some? { return; }
      PairBuilt(old(St()), rel, i, j, c);
      cubeOut := cubeOut[i := true];
      cubeIn := cubeIn[j := true];
      CubeJoined(i, j);
    }

    /** The library's part of it. */
    method TakePair(i: nat, j: nat, c: Cube) returns (why: Option<NoJoin>)
      requires i < j < |L| == |handles| && handles[j].source == None && Describable(L[i])
      modifies `handles
      ensures why.Some? ==> handles == old(handles)
      ensures why.None? ==>
        && AcceptsInput(L[j], c)
        && handles == old(handles)[j := old(handles[j]).(source := Some(c))]
                                  [i := old(handles[i]).(leaves := true)]
      ensures generous && AcceptsInput(L[j], c) ==> why.None?
      ensures generous && !AcceptsInput(L[j], c) ==>
                why == Some(if L[j].ic % 32 != 0 then IcAlign else Other)
    {
      var ok := ConsCubeIn(j, c);
      if !ok { return Some(if L[j].ic % 32 != 0 then IcAlign else Other); }
      ok := ProdCubeOut(i);
      if ok { return None; }
      ConsUnbind(j);
      assert handles == old(handles);
      why := Some(Surface);
    }

    /** Binding the one reader first and raising the producer's flag after comes to the same. */
    lemma PairBuilt(S: State, was: set<Pair>, i: nat, j: nat, c: Cube)
      requires WellFormed(L) && Sized(L, S) && i < j < |L| && Indices(|L|, [j])
      requires c == HandedCube(L, PairWiring(i), i)
      ensures SingleBuilt(L, S, PairWiring(i), i, [j])
        == State(S.cubeIn[j := true], S.cubeOut[i := true], S.placed, S.shared,
                 S.handles[j := S.handles[j].(source := Some(c))][i := S.handles[i].(leaves := true)],
                 S.bufs)
      ensures Related(was, i, [j], |L|) == was + {(i, j)}
    {
      var h := OutHandle(L, PairWiring(i), i, S.handles[i]);
      OneReader(S.handles, S.cubeIn, was, i, j, |L|, c);
      BoundSkips(S.handles, [j], c, i, h);
    }

    /** Decides every adjacent pair the placements left, and accounts for every one. */
    method LinkPairs() returns (pairs: nat)
      requires Valid() && SkipsOk() && BucketsOk() && refused == map[]
      modifies `cubeIn, `cubeOut, `handles, `joins, `farLinks, `joinBytes, `farBytes, `rel,
               `nojoin, `nojoinBytes, `refused
      ensures Valid() && BucketsOk() && pairs == |AdjacentPairs(L)|
      ensures Ends(L, knobs, generous, Pairs, old(St()), St())
      ensures refused.Keys == AdjacentPairs(L) - WiredPairs(L, St())
      ensures |AdjacentPairs(L)| == joins + Total(nojoin)
      ensures SumBytes(L, AdjacentPairs(L)) == joinBytes + Total(nojoinBytes)
    {
      ghost var last, trace;
      assert AdjacentBelow(L, 0) == {};
      pairs, last, trace := WalkPairs();
      PairsEnd(L, knobs, generous, trace, last);
      PairsCounted(L, last);
      NoMorePairs(L, last);
      PairsBalance(L, St(), refused.Keys);
      BooksBalance(L, nojoin, nojoinBytes, refused);
      TallyMeaning(L, rel);
    }

    /** The pair loop's invariant: the pairs with a producer before layer i are decided. */
    ghost predicate Walked(i: nat, pairs: nat)
      reads this
    {
      && Valid() && SkipsOk() && BucketsOk()
      && i <= |L| && pairs == PairsBelow(L, i) && Decided(L, i, rel, refused.Keys)
    }

    /** The plans the pair loop has gone through since plan S. */
    ghost predicate Passed(S: State, trace: seq<State>, i: nat)
      requires WellFormed(L)
      reads this
    {
      Trace(L, knobs, generous, Pairs, trace, i) && trace[0] == S && trace[i] == St()
    }

    /** Walks the pairs in execution order, up to the last layer that has a successor. */
    method WalkPairs() returns (pairs: nat, ghost last: nat, ghost trace: seq<State>)
      requires Walked(0, 0)
      modifies `cubeIn, `cubeOut, `handles, `joins, `farLinks, `joinBytes, `farBytes, `rel,
               `nojoin, `nojoinBytes, `refused
      ensures Walked(last, pairs) && last <= |L|
      ensures last + 1 < |L| ==> NextLayer(L, last) == |L|
      ensures Passed(old(St()), trace, last)
    {
      pairs, trace := 0, [St()];
      StartsAt(L, knobs, generous, Pairs, St());
      var i, more := 0, true;
      while more && i + 1 < |L|
        invariant i <= |L| && Walked(i, pairs) && (!more ==> i < |L|)
        invariant Passed(old(St()), trace, i)
        invariant !more ==> NextLayer(L, i) == |L|
        decreases |L| - i, more
      {
        var j := NextLayerOf(L, i);
        if j >= |L| {
          more := false;
        } else {
          pairs, trace := StepPair(i, j, pairs, trace);
          i := i + 1;
        }
      }
      last := i;
    }

    /** One step of the pair loop, and of the plans it goes through. */
    method StepPair(i: nat, j: nat, before: nat, ghost trace: seq<State>)
      returns (pairs: nat, ghost next: seq<State>)
      requires Walked(i, before) && i < |L| && j == NextLayer(L, i) && j < |L|
      requires |trace| > 0 && Passed(trace[0], trace, i)
      modifies `cubeIn, `cubeOut, `handles, `joins, `farLinks, `joinBytes, `farBytes, `rel,
               `nojoin, `nojoinBytes, `refused
      ensures Walked(i + 1, pairs)
      ensures Passed(trace[0], next, i + 1)
    {
      pairs := VisitPair(i, j, before);
      TraceNext(L, knobs, generous, Pairs, trace, St(), i);
      next := trace + [St()];
    }

    /** One step of the pair loop: not an edge at all, or decided. */
    method VisitPair(i: nat, j: nat, before: nat) returns (pairs: nat)
      requires Walked(i, before) && i < |L| && j == NextLayer(L, i) && j < |L|
      modifies `cubeIn, `cubeOut, `handles, `joins, `farLinks, `joinBytes, `farBytes, `rel,
               `nojoin, `nojoinBytes, `refused
      ensures Walked(i + 1, pairs) && Decides(L, knobs, generous, Pairs, old(St()), St(), i)
    {
      pairs := before;
      AdjacentBelowNext(L, i);
      if i in L[j].src {
        DecidePair(i, j);
        pairs := pairs + 1;
      }
      DecidedNext(L, i, old(rel), old(refused.Keys), rel, refused.Keys);
    }

    /** One adjacent pair: already wired, wired now, or in exactly one bucket. */
    method DecidePair(i: nat, j: nat)
      requires Valid() && SkipsOk() && BucketsOk() && i < |L|
      requires j == NextLayer(L, i) && j < |L| && Reader(L, j, i)
      requires (i, j) !in refused
      modifies `cubeIn, `cubeOut, `handles, `joins, `farLinks, `joinBytes, `farBytes, `rel,
               `nojoin, `nojoinBytes, `refused
      ensures Valid() && BucketsOk() && Decides(L, knobs, generous, Pairs, old(St()), St(), i)
      ensures (rel == old(rel) + {(i, j)} && refused == old(refused))
              || (rel == old(rel) && refused.Keys == old(refused.Keys) + {(i, j)} && (i, j) !in rel)
    {
      PairWired(i, j);
      if cubeOut[i] && cubeIn[j] { return; }
      if (L[i].kind == Concat && cubeOut[i]) || (L[j].kind == Concat && cubeOut[j]) { return; }
      var why := WirePair(i, j);
      PairsDecided(L, knobs, generous, old(St()), St(), i, j, why.None?);
      if why.Some? { NojoinNote(i, j, why.value); }
    }

    /** A pair is wired exactly when its producer leaves a cube, and then its consumer takes it. */
    lemma PairWired(i: nat, j: nat)
      requires Valid() && Reader(L, j, i)
      ensures (i, j) in rel <==> cubeOut[i]
      ensures cubeOut[i] <==> (cubeOut[i] && cubeIn[j]) || (L[i].kind == Concat && cubeOut[i])
                              || (L[j].kind == Concat && cubeOut[j])
    {
      assert OutOk(L, St(), i) && OutOk(L, St(), j);
      if cubeOut[i] { assert Takes(L, St(), j); }
      if L[j].kind == Concat && cubeOut[j] { ConcatOperandOut(L, St(), j, i); }
    }

    // ---- the plan ----------------------------------------------------------------------

    /** Nothing linked yet: every handle as it was packed. */
    constructor Init(L: seq<Layer>, knobs: Knobs, generous: bool)
      requires WellFormed(L)
      ensures this.L == L && this.knobs == knobs && this.generous == generous
      ensures Valid() && SkipsOk() && BucketsOk()
      ensures refused == map[] && St() == Unlinked(|L|)
    {
      this.L, this.knobs, this.generous := L, knobs, generous;
      cubeIn, cubeOut := seq(|L|, _ => false), seq(|L|, _ => false);
      placed, shared := seq(|L|, _ => false), seq(|L|, _ => false);
      handles, bufs := seq(|L|, _ => IDLE), seq(|L|, _ => None);
      joins, farLinks, joinBytes, farBytes := 0, 0, 0, 0;
      nojoin, nojoinBytes := seq(BUCKETS, _ => 0), seq(BUCKETS, _ => 0);
      rel, refused, skip := {}, map[], [];
      new;
      UnlinkedSound(L);
      NothingBooked(L);
      for i := 0 to |L|
        invariant |skip| == i && this.L == L
        invariant forall k :: 0 <= k < i ==> (skip[k] <==> SkipSource(L, k))
        invariant St() == Unlinked(|L|) && CountsOk() && BucketsOk() && rel == {} && refused == map[]
      {
        var b := IsSkipSource(L, i);
        skip := skip + [b];
      }
    }

    /** The passes, in the order that is load-bearing: placement first, then the shared
        surfaces, then the pairs that are left. */
    method CubeLink()
      requires Valid() && TwinsIdle(L, knobs, generous) && SkipsOk() && BucketsOk() && refused == map[]
      requires St() == Unlinked(|L|)
      modifies this
      ensures Planned(L, knobs, generous, St())
      ensures Valid() && BucketsOk() && refused.Keys == AdjacentPairs(L) - WiredPairs(L, St())
      ensures |AdjacentPairs(L)| == joins + Total(nojoin)
      ensures SumBytes(L, AdjacentPairs(L)) == joinBytes + Total(nojoinBytes)
      ensures joins + farLinks == |WiredPairs(L, St())|
      ensures joinBytes + farBytes == SumBytes(L, WiredPairs(L, St()))
    {
      CatLink();
      ghost var A := St();
      ConcatLink();
      ghost var B := St();
      TailLink();
      ghost var C := St();
      MultiLink();
      ghost var D := St();
      var _ := LinkPairs();
      assert Sized(L, A) && Sized(L, B) && Sized(L, C) && Sized(L, D);
      TallyMeaning(L, rel);
      NearAndFar(L, rel);
    }
  }

  /** Builds a plan. NULL only for an empty table or when memory runs out. */
  method PlanNew(L: seq<Layer>, knobs: Knobs, generous: bool) returns (g: Planner?)
    requires WellFormed(L) && TwinsIdle(L, knobs, generous)
    ensures g != null ==>
      && fresh(g) && g.L == L && g.knobs == knobs && g.generous == generous
      && Sound(L, g.St()) && Planned(L, knobs, generous, g.St())
      && g.BucketsOk() && g.refused.Keys == AdjacentPairs(L) - WiredPairs(L, g.St())
      && |AdjacentPairs(L)| == g.joins + Total(g.nojoin)
      && SumBytes(L, AdjacentPairs(L)) == g.joinBytes + Total(g.nojoinBytes)
      && g.joins + g.farLinks == |WiredPairs(L, g.St())|
      && g.joinBytes + g.farBytes == SumBytes(L, WiredPairs(L, g.St()))
    ensures L == [] ==> g == null
  {
    var memory: bool := *;
    if L == [] || !memory { return null; }
    var p := new Planner.Init(L, knobs, generous);
    p.CubeLink();
    return p;
  }
}
