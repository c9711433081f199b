/** Builds the kicks of a linked plan and accounts for every layer they leave out. */
module GraphKickPlan {
  import opened Options
  import opened GraphLayers
  import opened GraphPlan
  import opened GraphRun
  import opened ChainRuns
  import opened GraphKicks

  class KickPlan {
    const L: seq<Layer>
    const S: State
    const skip: seq<bool>
    const lib: seq<PackedConv>
    const knobs: KickKnobs
    /** The library builds every stream it is asked for and no allocation fails. */
    const willing: bool

    var kick: seq<bool>        // a chain starts here
    var kickEnd: seq<nat>      // the layer after it
    var kbOf: Option<seq<nat>> // the bucket + 1 of each layer, 0 for none; absent without memory
    var kbCount: seq<int>
    var kickRuns: int
    var kickLayers: int

    ghost predicate Shaped()
      reads this
    {
      && WellFormed(L) && Sized(L, S) && |skip| == |lib| == |kick| == |kickEnd| == |L|
      && |kbCount| == REASONS && 2 <= knobs.longest
      && (kbOf.Some? ==> |kbOf.value| == |L|)
    }

    constructor (L: seq<Layer>, S: State, skip: seq<bool>, lib: seq<PackedConv>, knobs: KickKnobs,
                 willing: bool)
      requires WellFormed(L) && Sized(L, S) && |skip| == |lib| == |L| && 2 <= knobs.longest
      ensures this.L == L && this.S == S && this.skip == skip && this.lib == lib
      ensures this.knobs == knobs && this.willing == willing && Shaped()
      ensures kick == seq(|L|, _ => false) && kickRuns == 0 && kickLayers == 0
      ensures kbOf == None && kbCount == seq(REASONS, _ => 0)
    {
      this.L, this.S, this.skip, this.lib, this.knobs := L, S, skip, lib, knobs;
      this.willing := willing;
      kick, kickEnd := seq(|L|, _ => false), seq(|L|, _ => 0);
      kbOf, kbCount, kickRuns, kickLayers := None, seq(REASONS, _ => 0), 0, 0;
    }

    // ---- what every layer is offered as, and marked ------------------------------------

    function NodeAt(i: nat): Node
      requires Sized(L, S) && |skip| == |lib| == |L| && i < |L|
    {
      Offered(L, S, skip[i], lib[i], knobs.only, i)
    }

    /** The mark the caller's own lowering leaves. */
    function FirstMark(i: nat): nat
      requires Sized(L, S) && |skip| == |lib| == |L| && i < |L|
    {
      match Lowered(L, S, skip[i], lib[i], knobs.only, i)
      case None => 0
      case Some(why) => Rank(why) + 1
    }

    /** The bucket of a layer no kick covers. */
    function Why(i: nat): Break
      requires Sized(L, S) && |skip| == |lib| == |L| && i < |L|
    {
      WhyOutside(L, S, skip[i], lib[i], knobs.only, i)
    }

    ghost predicate Outside(i: nat)
      requires |kick| == |kickEnd| == |L|
      reads `kick, `kickEnd
    {
      i < |L| && Submits(L[i]) && !Covered(kick, kickEnd, i)
    }

    /** The layers and what they are offered as do not change. */
    ghost predicate Framed()
      reads `kick, `kickEnd
    {
      WellFormed(L) && Sized(L, S) && |skip| == |lib| == |kick| == |kickEnd| == |L|
    }

    ghost function LastMark(i: nat): nat
      requires Framed() && i < |L|
      reads `kick, `kickEnd
    {
      if !Submits(L[i]) then FirstMark(i)
      else if Covered(kick, kickEnd, i) then 0
      else Rank(Why(i)) + 1
    }

    /** The layers before `to` in bucket b. */
    ghost function BucketOf(b: nat, to: nat): set<nat>
      requires Framed()
      reads `kick, `kickEnd
    {
      set i: nat | i < |L| && i < to && Outside(i) && Rank(Why(i)) == b
    }

    ghost predicate Tallied(to: nat)
      requires Framed() && |kbCount| == REASONS
      reads `kick, `kickEnd, `kbCount
    {
      forall b: nat :: b < REASONS ==> kbCount[b] == |BucketOf(b, to)|
    }

    // ---- offering ----------------------------------------------------------------------

    method KbMark(i: nat, why: Break)
      requires Shaped() && i < |L|
      modifies `kbOf
      ensures kbOf == match old(kbOf)
                      case None => None
                      case Some(of) => Some(if of[i] == 0 then of[i := Rank(why) + 1] else of)
    {
      if kbOf.Some? && kbOf.value[i] == 0 { kbOf := Some(kbOf.value[i := Rank(why) + 1]); }
    }

    /** Offers layer i to the finder, marking why it cannot be a node. */
    method OfferOne(i: nat) returns (d: Node)
      requires Shaped() && i < |L| && (kbOf.Some? ==> kbOf.value[i] == 0)
      modifies `kbOf
      ensures d == NodeAt(i)
      ensures kbOf == match old(kbOf)
                      case None => None
                      case Some(of) => Some(of[i := FirstMark(i)])
    {
      d := UNSET;
      assert RowOk(L, i);
      assert kbOf.Some? ==> kbOf.value[i := 0] == kbOf.value;
      if L[i].hostInput { KbMark(i, HostPrep); return; }
      if Placement(L, S, i) { return Node(PlacementNode, true, 0, None, None, false); }
      if L[i].kind == Add && !S.cubeIn[i] { KbMark(i, AddHostCat); return; }
      if skip[i] && !S.placed[i] && !S.shared[i] { KbMark(i, SkipMaterialise); return; }
      if i < knobs.only { return; }
      var role := if IsPool(L[i]) then PoolNode else ConvNode;
      if L[i].resident {
        d := Node(role, lib[i].chainable, lib[i].programs, ReadAddress(S, i), LeaveAddress(L, S, i),
                  lib[i].lags);
      }
      if IsPool(L[i]) {
        if L[i].resident && lib[i].lags { KbMark(i, PoolLaggy); }
        if !L[i].resident { KbMark(i, PoolUnresident); }
      } else if !L[i].resident {
        KbMark(i, NotResident);
      }
    }

    method Offer() returns (nd: seq<Node>)
      requires Shaped() && (kbOf.Some? ==> forall i :: 0 <= i < |L| ==> kbOf.value[i] == 0)
      modifies `kbOf
      ensures Shaped() && |nd| == |L| && forall i :: 0 <= i < |L| ==> nd[i] == NodeAt(i)
      ensures kbOf.Some? == old(kbOf).Some?
      ensures kbOf.Some? ==> forall i :: 0 <= i < |L| ==> kbOf.value[i] == FirstMark(i)
    {
      nd := [];
      for i := 0 to |L|
        invariant Shaped() && |nd| == i && kbOf.Some? == old(kbOf).Some?
        invariant forall k :: 0 <= k < i ==> nd[k] == NodeAt(k)
        invariant kbOf.Some? ==> forall k :: 0 <= k < |L| ==>
          kbOf.value[k] == if k < i then FirstMark(k) else 0
      {
        var d := OfferOne(i);
        nd := nd + [d];
      }
    }

    // ---- building ----------------------------------------------------------------------

    /** The library builds the stream of a run, or refuses it. */
    method ChainNew() returns (ok: bool)
      ensures willing ==> ok
    {
      ok := *;
      ok := ok || willing;
    }

    ghost predicate Counted()
      requires |kick| == |kickEnd|
      reads this
    {
      kickRuns == |RunStarts(kick)| && kickLayers == |CoveredLayers(kick, kickEnd)|
    }

    /** One run the finder returned: as long a kick of it as there may be, or none of it. */
    method BuildOne(nd: seq<Node>, r: Run) returns (n: nat)
      requires Shaped() && |nd| == |L| && Legal(nd, r.first, r.count)
      requires KicksOk(nd, knobs.longest, kick, kickEnd) && AllEndBy(kick, kickEnd, r.first) && Counted()
      modifies `kick, `kickEnd, `kickRuns, `kickLayers
      ensures Shaped() && (0 < n ==> LongestRun(nd, r.first, Shorter(r.count, knobs.longest), n))
      ensures 0 < n ==> Admitted(knobs, r.first)
      ensures willing && Admitted(knobs, r.first) ==>
        LongestRun(nd, r.first, Shorter(r.count, knobs.longest), n)
      ensures kick == if 0 < n then old(kick)[r.first := true] else old(kick)
      ensures kickEnd == if 0 < n then old(kickEnd)[r.first := r.first + n] else old(kickEnd)
      ensures KicksOk(nd, knobs.longest, kick, kickEnd) && Counted()
      ensures AllEndBy(kick, kickEnd, r.first + r.count)
    {
      n := 0;
      EndsLater(kick, kickEnd, r.first, r.first + r.count);
      if 0 <= knobs.only && knobs.only != r.first { return; }
      var cut := CutRun(nd, r);
      var ok := ChainNew();
      if cut < 2 || !ok { return; }
      n := cut;
      KickExtends(nd, knobs.longest, kick, kickEnd, r.first, n);
      EndsLater(kick[r.first := true], kickEnd[r.first := r.first + n], r.first + n, r.first + r.count);
      KickAdds(kick, kickEnd, r.first, n);
      kick, kickEnd := kick[r.first := true], kickEnd[r.first := r.first + n];
      kickRuns, kickLayers := kickRuns + 1, kickLayers + n;
    }

    /** Cuts a run to the longest a kick may be, and gives back what may not end one: no longer
        prefix of the run would be legal. */
    method CutRun(nd: seq<Node>, r: Run) returns (n: nat)
      requires Legal(nd, r.first, r.count) && 2 <= knobs.longest
      ensures LongestRun(nd, r.first, Shorter(r.count, knobs.longest), if 2 <= n then n else 0)
    {
      n := if r.count > knobs.longest then knobs.longest else r.count;
      while 2 <= n && (IsPoolNode(nd[r.first + n - 1]) || IsPlacement(nd[r.first + n - 1]))
        invariant 1 <= n <= Shorter(r.count, knobs.longest)
        invariant forall k: nat :: n < k <= Shorter(r.count, knobs.longest) ==> !Legal(nd, r.first, k)
      {
        n := n - 1;
      }
      if 2 <= n { CutIsLegal(nd, r.first, r.count, n); }
    }

    /** Builds the runs the finder found; a willing library builds all that are admitted. */
    method BuildRuns(nd: seq<Node>) returns (ghost runs: seq<Run>)
      requires Shaped() && |nd| == |L| && kick == seq(|L|, _ => false)
      requires kickRuns == 0 && kickLayers == 0
      modifies `kick, `kickEnd, `kickRuns, `kickLayers
      ensures Shaped() && KicksOk(nd, knobs.longest, kick, kickEnd) && Counted()
      ensures AreRuns(nd, knobs.cap, runs)
      ensures willing ==> BuiltOf(nd, knobs, runs, kick, kickEnd)
      ensures AtMost(nd, knobs.cap, 32) && Tasks(nd, 0, |nd|) <= knobs.cap ==>
        forall f: nat, c: nat :: Legal(nd, f, c) ==> exists r :: r in runs && Spans(r, f, c)
    {
      var _, all := FindRuns(nd, knobs.cap, MAX_RUNS);
      runs := all;
      assert RunStarts(kick) == {} && CoveredLayers(kick, kickEnd) == {};
      for q := 0 to |all|
        invariant BuiltTo(nd, all, q)
      {
        BuildNext(nd, all, q);
      }
      assert all[..|all|] == all;
    }

    /** The first q of the runs found have been through the library. */
    ghost predicate BuiltTo(nd: seq<Node>, all: seq<Run>, q: nat)
      reads this
    {
      && Shaped() && |nd| == |L| && AreRuns(nd, knobs.cap, all) && q <= |all|
      && KicksOk(nd, knobs.longest, kick, kickEnd) && Counted()
      && (q < |all| ==> AllEndBy(kick, kickEnd, all[q].first))
      && (willing ==> BuiltOf(nd, knobs, all[..q], kick, kickEnd))
    }

    method BuildNext(nd: seq<Node>, all: seq<Run>, q: nat)
      requires BuiltTo(nd, all, q) && q < |all|
      modifies `kick, `kickEnd, `kickRuns, `kickLayers
      ensures BuiltTo(nd, all, q + 1)
    {
      assert all[q] in all;
      ghost var kick0, end0 := kick, kickEnd;
      FreeAt(nd, knobs.longest, kick, kickEnd, all[q].first);
      var n := BuildOne(nd, all[q]);
      if willing { BuiltGrows(nd, knobs, all, q, kick0, end0, n); }
      if q + 1 < |all| {
        assert all[q].first + all[q].count <= all[q + 1].first;
        EndsLater(kick, kickEnd, all[q].first + all[q].count, all[q + 1].first);
      }
    }

    // ---- classifying -------------------------------------------------------------------

    method IsCovered(i: nat) returns (b: bool)
      requires |kick| == |kickEnd|
      ensures b <==> Covered(kick, kickEnd, i)
    {
      var m := 0;
      while m < |kick|
        invariant 0 <= m <= |kick|
        invariant forall k: nat :: k < m ==> !InKick(kick, kickEnd, k, i)
      {
        if kick[m] && m <= i < kickEnd[m] {
          assert InKick(kick, kickEnd, m, i);
          return true;
        }
        m := m + 1;
      }
      b := false;
    }

    lemma BucketNext(b: nat, i: nat)
      requires Framed() && i < |L|
      ensures |BucketOf(b, i + 1)|
              == |BucketOf(b, i)| + if Outside(i) && Rank(Why(i)) == b then 1 else 0
    {
      SetOneMore(BucketOf(b, i), BucketOf(b, i + 1), i, Outside(i) && Rank(Why(i)) == b);
    }

    ghost function OutsideBelow(to: nat): set<nat>
      requires Framed()
      reads `kick, `kickEnd
    {
      set i: nat | i < |L| && i < to && Outside(i)
    }

    ghost function Sizes(to: nat, n: nat): (s: seq<int>)
      requires Framed()
      reads `kick, `kickEnd
      ensures |s| == n && forall b: nat :: b < n ==> s[b] == |BucketOf(b, to)|
    {
      if n == 0 then [] else Sizes(to, n - 1) + [|BucketOf(n - 1, to)|]
    }

    /** How many layers before `to` cost a submit of their own, counted one by one. */
    ghost function OutsideCount(to: nat): nat
      requires Framed()
      reads `kick, `kickEnd
    {
      if to == 0 then 0 else OutsideCount(to - 1) + if Outside(to - 1) then 1 else 0
    }

    lemma {:induction false} OutsideCounted(to: nat)
      requires Framed()
      ensures OutsideCount(to) == |OutsideBelow(to)|
    {
      if to == 0 {
        assert OutsideBelow(0) == {};
      } else {
        OutsideCounted(to - 1);
        OutsideNext(to - 1);
      }
    }

    lemma {:induction false} SizesCounted(to: nat, n: nat)
      requires Framed() && to <= |L| && n == REASONS
      ensures Sum(Sizes(to, n)) == OutsideCount(to)
    {
      if to == 0 {
        NothingBelow(n);
      } else {
        SizesCounted(to - 1, n);
        SizesNext(to - 1, n);
        SumOneMore(Sizes(to - 1, n), Sizes(to, n), Rank(Why(to - 1)), Outside(to - 1));
      }
    }

    /** Every layer that costs a submit of its own is in exactly one bucket. */
    lemma BucketsPartition(to: nat)
      requires Framed() && to <= |L|
      ensures Sum(Sizes(to, REASONS)) == |OutsideBelow(to)|
    {
      SizesCounted(to, REASONS);
      OutsideCounted(to);
    }

    lemma NothingBelow(n: nat)
      requires Framed()
      ensures Sum(Sizes(0, n)) == 0
    {
      forall b: nat | b < n ensures Sizes(0, n)[b] == 0 { assert BucketOf(b, 0) == {}; }
      SumZero(Sizes(0, n));
    }

    lemma OutsideNext(i: nat)
      requires Framed()
      ensures |OutsideBelow(i + 1)| == |OutsideBelow(i)| + if Outside(i) then 1 else 0
    {
      SetOneMore(OutsideBelow(i), OutsideBelow(i + 1), i, Outside(i));
    }

    lemma SizesNext(i: nat, n: nat)
      requires Framed() && i < |L|
      ensures OneMore(Sizes(i, n), Sizes(i + 1, n), Rank(Why(i)), Outside(i))
    {
      forall b: nat | b < n
        ensures Sizes(i + 1, n)[b] == Sizes(i, n)[b] + if Outside(i) && b == Rank(Why(i)) then 1 else 0
      {
        BucketNext(b, i);
      }
    }

    /** Layer i: in a kick, without a program, or in one bucket. */
    method ClassifyOne(i: nat)
      requires Shaped() && i < |L| && (kbOf.Some? ==> kbOf.value[i] == FirstMark(i))
      modifies `kbOf, `kbCount
      ensures Shaped() && kbOf.Some? == old(kbOf).Some?
      ensures kbOf.Some? ==> kbOf.value == old(kbOf).value[i := LastMark(i)]
      ensures kbOf.Some? ==>
        kbCount == if Outside(i) then old(kbCount)[Rank(Why(i)) := old(kbCount)[Rank(Why(i))] + 1]
                   else old(kbCount)
    {
      if !Submits(L[i]) { return; }
      var covered := IsCovered(i);
      if covered {
        if kbOf.Some? { kbOf := Some(kbOf.value[i := 0]); }
        return;
      }
      if kbOf.Some? && kbOf.value[i] != 0 {
        var b := kbOf.value[i] - 1;
        kbCount := kbCount[b := kbCount[b] + 1];
        return;
      }
      KbMark(i, if !S.cubeOut[i] then NoCubeOut else if !S.cubeIn[i] then NoCubeIn else Alone);
      if kbOf.Some? {
        var b := kbOf.value[i] - 1;
        kbCount := kbCount[b := kbCount[b] + 1];
      }
    }

    method Classify()
      requires Shaped() && kbCount == seq(REASONS, _ => 0)
      requires kbOf.Some? ==> forall i :: 0 <= i < |L| ==> kbOf.value[i] == FirstMark(i)
      modifies `kbOf, `kbCount
      ensures Shaped() && kbOf.Some? == old(kbOf).Some?
      ensures kbOf.Some? ==> Tallied(|L|) && forall i :: 0 <= i < |L| ==> kbOf.value[i] == LastMark(i)
    {
      assert forall b: nat :: b < REASONS ==> BucketOf(b, 0) == {};
      for i := 0 to |L|
        invariant Shaped() && kbOf.Some? == old(kbOf).Some?
        invariant kbOf.Some? ==> Tallied(i)
        invariant kbOf.Some? ==> forall k :: 0 <= k < |L| ==>
          kbOf.value[k] == if k < i then LastMark(k) else FirstMark(k)
      {
        forall b: nat ensures |BucketOf(b, i + 1)|
                      == |BucketOf(b, i)| + if Outside(i) && Rank(Why(i)) == b then 1 else 0
        {
          BucketNext(b, i);
        }
        ClassifyOne(i);
      }
    }

    // ---- the whole ---------------------------------------------------------------------

    ghost function Nodes(): (nd: seq<Node>)
      requires Framed()
      reads `kick, `kickEnd
      ensures |nd| == |L| && forall i :: 0 <= i < |L| ==> nd[i] == NodeAt(i)
    {
      seq(|L|, i requires 0 <= i < |L| => NodeAt(i))
    }

    /** Builds the kicks. Without memory for the marks the kicks are built all the same; with
        the knob off, or without memory for the nodes, there are none. */
    method Build()
      requires Shaped() && kbOf == None && kbCount == seq(REASONS, _ => 0)
      requires kick == seq(|L|, _ => false) && kickRuns == 0 && kickLayers == 0
      modifies this
      ensures Shaped() && Counted()
      ensures KicksOk(Nodes(), knobs.longest, kick, kickEnd)
      ensures willing && knobs.on ==>
        exists runs :: AreRuns(Nodes(), knobs.cap, runs) && BuiltOf(Nodes(), knobs, runs, kick, kickEnd)
      ensures willing && knobs.on && knobs.only < 0 && |L| <= knobs.longest
              && Tasks(Nodes(), 0, |L|) <= knobs.cap && AtMost(Nodes(), knobs.cap, 32) ==>
        AllInKicks(Nodes(), kick, kickEnd)
      ensures kbOf.Some? ==> Tallied(|L|) && forall i :: 0 <= i < |L| ==> kbOf.value[i] == LastMark(i)
      ensures kbOf.Some? ==> Sum(kbCount) == |OutsideBelow(|L|)|
      ensures !knobs.on ==> RunStarts(kick) == {} && kbOf == None
    {
      assert RunStarts(kick) == {} && CoveredLayers(kick, kickEnd) == {};
      ghost var nodes := Nodes();
      assert KicksOk(nodes, knobs.longest, kick, kickEnd);
      if !knobs.on { return; }
      var room: bool, marks: bool := *, *;
      if !room && !willing { return; }
      if marks { kbOf := Some(seq(|L|, _ => 0)); }
      var nd := Offer();
      assert nd == nodes;
      ghost var runs := BuildRuns(nd);
      if willing && knobs.only < 0 && |L| <= knobs.longest && Tasks(nd, 0, |L|) <= knobs.cap
         && AtMost(nd, knobs.cap, MAX_RUNS) {
        BuiltCovers(nd, knobs, runs, kick, kickEnd);
      }
      Classify();
      if kbOf.Some? {
        BucketsPartition(|L|);
        assert kbCount == Sizes(|L|, REASONS);
      }
    }
  }

  /** Two linked convolutions go out as one kick. */
  method TwoInOneKick(L: seq<Layer>, S: State, skip: seq<bool>, lib: seq<PackedConv>, cap: nat)
    returns (p: KickPlan)
    requires Sound(L, S) && |skip| == |lib| == |L| == 2
    requires Runnable(L, skip, lib, -1, 0) && Runnable(L, skip, lib, -1, 1)
    requires S.handles[1].source.Some? && WritesFor(L, S, 0, 1)
    requires lib[0].programs + lib[1].programs <= cap
    ensures fresh(p) && p.kick == [true, false] && |p.kickEnd| == 2 && p.kickEnd[0] == 2
    ensures p.kickRuns == 1 && p.kickLayers == 2
  {
    p := new KickPlan(L, S, skip, lib, KickKnobs(true, -1, 512, cap), true);
    p.Build();
    ghost var nd := p.Nodes();
    TwoRunnable(L, S, skip, lib, cap, nd);
    OneKickOfTwo(nd, 512, p.kick, p.kickEnd);
  }

  lemma {:induction false} TwoRunnable(L: seq<Layer>, S: State, skip: seq<bool>, lib: seq<PackedConv>,
                                         cap: nat, nd: seq<Node>)
    requires Sound(L, S) && |skip| == |lib| == |L| == |nd| == 2
    requires forall k :: 0 <= k < 2 ==> nd[k] == Offered(L, S, skip[k], lib[k], -1, k)
    requires Runnable(L, skip, lib, -1, 0) && Runnable(L, skip, lib, -1, 1)
    requires S.handles[1].source.Some? && WritesFor(L, S, 0, 1)
    requires lib[0].programs + lib[1].programs <= cap
    ensures Legal(nd, 0, 2) && Tasks(nd, 0, |nd|) <= cap && AtMost(nd, cap, MAX_RUNS)
  {
    LinkedPairIsRun(L, S, skip, lib, -1, nd, 0);
    FewLayersFewRuns(nd, cap, MAX_RUNS);
    TwoTasks(nd);
  }

  lemma TwoTasks(nd: seq<Node>)
    requires |nd| == 2
    ensures Tasks(nd, 0, 2) == Programs(nd[0]) + Programs(nd[1])
  {
    assert Tasks(nd, 0, 1) == Tasks(nd, 0, 0) + Programs(nd[0]);
  }

  lemma OneKickOfTwo(nd: seq<Node>, longest: nat, kick: seq<bool>, kickEnd: seq<nat>)
    requires |nd| == 2 && KicksOk(nd, longest, kick, kickEnd) && AllInKicks(nd, kick, kickEnd)
    requires Legal(nd, 0, 2)
    ensures kick == [true, false] && kickEnd[0] == 2
    ensures RunStarts(kick) == {0} && CoveredLayers(kick, kickEnd) == {0, 1}
  {
    var m: nat :| InKick(kick, kickEnd, m, 0) && 0 + 2 <= kickEnd[m];
    assert KickAt(nd, longest, kick, kickEnd, 0) && KickAt(nd, longest, kick, kickEnd, 1);
    assert InKick(kick, kickEnd, 0, 0) && InKick(kick, kickEnd, 0, 1);
  }
}
