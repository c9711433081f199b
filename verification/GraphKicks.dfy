/** The kicks: which runs of linked layers go out as one submit, and why every other layer
    does not. */
module GraphKicks {
  import opened Options
  import opened GraphLayers
  import opened GraphPlan
  import opened GraphRun
  import opened ChainRuns

  /** Why a layer is outside every run. */
  datatype Break = HostPrep | AddHostCat | SkipMaterialise | PoolUnresident | PoolLaggy
                 | NotResident | NoCubeOut | NoCubeIn | Alone

  const REASONS: nat := 9

  function Rank(why: Break): (k: nat)
    ensures k < REASONS
  {
    match why
    case HostPrep => 0
    case AddHostCat => 1
    case SkipMaterialise => 2
    case PoolUnresident => 3
    case PoolLaggy => 4
    case NotResident => 5
    case NoCubeOut => 6
    case NoCubeIn => 7
    case Alone => 8
  }

  /** What the library says of one packed handle. */
  datatype PackedConv = PackedConv(chainable: bool, programs: nat, lags: bool)

  /** `only`, unless -1, builds the one run that starts there; `longest` caps a run. */
  datatype KickKnobs = KickKnobs(on: bool, only: int, longest: nat, cap: nat)

  const MAX_RUNS: nat := 32

  /** A layer that costs a submit when no run covers it. */
  predicate Submits(l: Layer) {
    l.kind != Host && l.kind != Concat
  }

  /** Those are the layers with a program of their own. */
  lemma SubmitsItsProgram(l: Layer)
    ensures Submits(l) <==> HasProgram(l)
    ensures Submits(l) <==> l.kind in {Conv, DwConv, AvgPool, MaxPool, Add}
  {
  }

  const UNSET := Node(Unset, false, 0, None, None, false)

  function ReadAddress(S: State, i: nat): Option<Address>
    requires i < |S.handles|
  {
    match S.handles[i].source
    case None => None
    case Some(c) => Some(Address(c.store, c.base))
  }

  function LeaveAddress(L: seq<Layer>, S: State, i: nat): Option<Address>
    requires Sized(L, S) && i < |L|
  {
    if S.handles[i].leaves then Some(Address(HomeStore(L, S, i), HomeBase(L, S, i))) else None
  }

  /** Host work sits between layer i and its neighbours: the caller prepares its input, or it
      is an add over a host-built concatenation, or it must materialise for a skip. */
  predicate HostWork(L: seq<Layer>, S: State, skip: bool, i: nat)
    requires Sized(L, S) && i < |L|
  {
    L[i].hostInput ||
    (!Placement(L, S, i) && ((L[i].kind == Add && !S.cubeIn[i]) || (skip && !S.placed[i] && !S.shared[i])))
  }

  /** The node layer i is offered to the finder as. */
  function Offered(L: seq<Layer>, S: State, skip: bool, lib: PackedConv, only: int, i: nat): Node
    requires Sized(L, S) && i < |L|
  {
    if L[i].hostInput then UNSET
    else if Placement(L, S, i) then Node(PlacementNode, true, 0, None, None, false)
    else if HostWork(L, S, skip, i) || i < only || !L[i].resident then UNSET
    else Node(if IsPool(L[i]) then PoolNode else ConvNode, lib.chainable, lib.programs,
              ReadAddress(S, i), LeaveAddress(L, S, i), lib.lags)
  }

  // ---- intervals ---------------------------------------------------------------------

  /** Layer i lies in the kick that starts at m. */
  predicate InKick(kick: seq<bool>, kickEnd: seq<nat>, m: nat, i: nat)
    requires |kick| == |kickEnd|
  {
    m < |kick| && kick[m] && m <= i < kickEnd[m]
  }

  ghost predicate Covered(kick: seq<bool>, kickEnd: seq<nat>, i: nat)
    requires |kick| == |kickEnd|
  {
    exists m: nat :: InKick(kick, kickEnd, m, i)
  }

  /** The kick that starts at m, if one does, is a legal run no longer than the knob allows. */
  ghost predicate KickAt(nd: seq<Node>, longest: nat, kick: seq<bool>, kickEnd: seq<nat>, m: nat)
    requires |kick| == |kickEnd|
  {
    m < |kick| && kick[m] ==>
      m < kickEnd[m] && kickEnd[m] - m <= longest && Legal(nd, m, kickEnd[m] - m)
  }

  /** The kick that starts at m ends by layer `to`. */
  predicate EndsBy(kick: seq<bool>, kickEnd: seq<nat>, m: nat, to: nat)
    requires |kick| == |kickEnd|
  {
    m < |kick| && kick[m] ==> kickEnd[m] <= to
  }

  ghost predicate AllEndBy(kick: seq<bool>, kickEnd: seq<nat>, to: nat)
    requires |kick| == |kickEnd|
  {
    forall m: nat :: EndsBy(kick, kickEnd, m, to)
  }

  /** The kick that starts at k, if one does, starts past the end of every one before it. */
  ghost predicate PastOthers(kick: seq<bool>, kickEnd: seq<nat>, k: nat)
    requires |kick| == |kickEnd|
  {
    k < |kick| && kick[k] ==> forall m: nat :: m < k ==> EndsBy(kick, kickEnd, m, k)
  }

  /** Every kick is a legal run of offered nodes no longer than the knob allows, and no two
      of them share a layer. */
  ghost predicate KicksOk(nd: seq<Node>, longest: nat, kick: seq<bool>, kickEnd: seq<nat>) {
    && |kick| == |kickEnd| == |nd|
    && (forall m: nat :: KickAt(nd, longest, kick, kickEnd, m))
    && (forall k: nat :: PastOthers(kick, kickEnd, k))
  }

  lemma EndsBefore(nd: seq<Node>, longest: nat, kick: seq<bool>, kickEnd: seq<nat>, m: nat, k: nat)
    requires KicksOk(nd, longest, kick, kickEnd) && m < k < |kick| && kick[m] && kick[k]
    ensures kickEnd[m] <= k
  {
    assert PastOthers(kick, kickEnd, k);
    assert EndsBy(kick, kickEnd, m, k);
  }

  /** No layer is in two kicks. */
  lemma OneKick(nd: seq<Node>, longest: nat, kick: seq<bool>, kickEnd: seq<nat>, m: nat, k: nat, i: nat)
    requires KicksOk(nd, longest, kick, kickEnd)
    requires InKick(kick, kickEnd, m, i) && InKick(kick, kickEnd, k, i)
    ensures m == k
  {
    if m < k { EndsBefore(nd, longest, kick, kickEnd, m, k); }
    if k < m { EndsBefore(nd, longest, kick, kickEnd, k, m); }
  }

  /** A run cut short and trimmed back to a convolution is a run. */
  lemma CutIsLegal(nd: seq<Node>, first: nat, count: nat, n: nat)
    requires Legal(nd, first, count) && 2 <= n <= count
    requires !IsPoolNode(nd[first + n - 1]) && !IsPlacement(nd[first + n - 1])
    ensures Legal(nd, first, n)
  {
    StreamPrefix(nd, first, first + count, first + n);
    assert CanJoin(nd[first + n - 1], true);
  }

  /** n is the most layers, of at most `top`, that a run from `first` may have; 0 for none. */
  ghost predicate LongestRun(nd: seq<Node>, first: nat, top: nat, n: nat) {
    && n <= top && (0 < n ==> Legal(nd, first, n))
    && forall k: nat :: n < k <= top ==> !Legal(nd, first, k)
  }

  /** How many layers the kick that starts at m has. */
  function KickLength(kick: seq<bool>, kickEnd: seq<nat>, m: nat): nat
    requires |kick| == |kickEnd|
  {
    if m < |kick| && kick[m] && m <= kickEnd[m] then kickEnd[m] - m else 0
  }

  /** What is built of runs: every one the localizer lets through, as long as the knob allows it
      to be, and nothing else. */
  ghost predicate BuiltOf(nd: seq<Node>, knobs: KickKnobs, runs: seq<Run>, kick: seq<bool>, kickEnd: seq<nat>) {
    && |kick| == |kickEnd| == |nd|
    && (forall r :: r in runs && Admitted(knobs, r.first) ==>
          LongestRun(nd, r.first, Shorter(r.count, knobs.longest), KickLength(kick, kickEnd, r.first)))
    && (forall m: nat :: m < |kick| && kick[m] ==>
          Admitted(knobs, m) && exists r :: r in runs && r.first == m)
  }

  predicate Admitted(knobs: KickKnobs, first: nat) { knobs.only < 0 || knobs.only == first }

  function Shorter(a: nat, b: nat): nat { if a < b then a else b }

  /** Every legal run lies inside one kick. */
  ghost predicate AllInKicks(nd: seq<Node>, kick: seq<bool>, kickEnd: seq<nat>)
    requires |kick| == |kickEnd|
  {
    forall f: nat, c: nat :: Legal(nd, f, c) ==>
      exists m: nat :: InKick(kick, kickEnd, m, f) && f + c <= kickEnd[m]
  }

  lemma FreeAt(nd: seq<Node>, longest: nat, kick: seq<bool>, kickEnd: seq<nat>, m: nat)
    requires KicksOk(nd, longest, kick, kickEnd) && AllEndBy(kick, kickEnd, m) && m < |kick|
    ensures !kick[m]
  {
    assert KickAt(nd, longest, kick, kickEnd, m) && EndsBy(kick, kickEnd, m, m);
  }

  /** One run more, built as long as it may be or not at all. */
  lemma BuiltGrows(nd: seq<Node>, knobs: KickKnobs, all: seq<Run>, q: nat, kick: seq<bool>,
                   kickEnd: seq<nat>, n: nat)
    requires AreRuns(nd, knobs.cap, all) && q < |all|
    requires BuiltOf(nd, knobs, all[..q], kick, kickEnd)
    requires all[q].first < |nd| && !kick[all[q].first]
    requires 0 < n ==> Admitted(knobs, all[q].first)
    requires Admitted(knobs, all[q].first) ==>
      LongestRun(nd, all[q].first, Shorter(all[q].count, knobs.longest), n)
    ensures var m := all[q].first;
      BuiltOf(nd, knobs, all[..q + 1], if 0 < n then kick[m := true] else kick,
              if 0 < n then kickEnd[m := m + n] else kickEnd)
  {
    var m := all[q].first;
    var kick', end' := if 0 < n then kick[m := true] else kick, if 0 < n then kickEnd[m := m + n] else kickEnd;
    assert KickLength(kick', end', m) == n;
    forall r | r in all[..q + 1] && Admitted(knobs, r.first)
      ensures LongestRun(nd, r.first, Shorter(r.count, knobs.longest), KickLength(kick', end', r.first))
    {
      if r in all[..q] {
        StartsBefore(nd, knobs.cap, all, q, r);
        assert KickLength(kick', end', r.first) == KickLength(kick, kickEnd, r.first);
      } else {
        assert all[..q + 1] == all[..q] + [all[q]];
      }
    }
    assert all[..q + 1][q] == all[q];
    assert forall r :: r in all[..q] ==> r in all[..q + 1];
  }

  lemma StartsBefore(nd: seq<Node>, cap: nat, all: seq<Run>, q: nat, r: Run)
    requires AreRuns(nd, cap, all) && q < |all| && r in all[..q]
    ensures r.first < all[q].first
  {
    var p :| 0 <= p < q && all[p] == r;
    assert all[p] in all && RunOk(nd, cap, all[p]);
  }

  /** With no localizer and room for every run, the kicks built of runs that cover all legal ones
      cover them too. */
  lemma BuiltCovers(nd: seq<Node>, knobs: KickKnobs, runs: seq<Run>, kick: seq<bool>, kickEnd: seq<nat>)
    requires BuiltOf(nd, knobs, runs, kick, kickEnd) && knobs.only < 0 && |nd| <= knobs.longest
    requires forall r :: r in runs ==> Legal(nd, r.first, r.count)
    requires forall f: nat, c: nat :: Legal(nd, f, c) ==> exists r :: r in runs && Spans(r, f, c)
    ensures AllInKicks(nd, kick, kickEnd)
  {
    forall f: nat, c: nat | Legal(nd, f, c)
      ensures exists m: nat :: InKick(kick, kickEnd, m, f) && f + c <= kickEnd[m]
    {
      var r :| r in runs && Spans(r, f, c);
      BuiltWhole(nd, knobs, runs, kick, kickEnd, r);
      assert InKick(kick, kickEnd, r.first, f);
    }
  }

  lemma BuiltWhole(nd: seq<Node>, knobs: KickKnobs, runs: seq<Run>, kick: seq<bool>, kickEnd: seq<nat>, r: Run)
    requires BuiltOf(nd, knobs, runs, kick, kickEnd) && knobs.only < 0 && |nd| <= knobs.longest
    requires r in runs && Legal(nd, r.first, r.count)
    ensures r.first < |kick| && kick[r.first] && kickEnd[r.first] == r.first + r.count
  {
    var n := KickLength(kick, kickEnd, r.first);
    assert Admitted(knobs, r.first) && Shorter(r.count, knobs.longest) == r.count;
    assert LongestRun(nd, r.first, r.count, n);
    assert n == r.count;
  }

  /** Then a layer is in a kick exactly when it is in a legal run. */
  lemma CoveredExactly(nd: seq<Node>, longest: nat, kick: seq<bool>, kickEnd: seq<nat>, i: nat)
    requires KicksOk(nd, longest, kick, kickEnd) && AllInKicks(nd, kick, kickEnd)
    ensures Covered(kick, kickEnd, i) <==> exists f: nat, c: nat :: Legal(nd, f, c) && f <= i < f + c
  {
    if Covered(kick, kickEnd, i) {
      var m: nat :| InKick(kick, kickEnd, m, i);
      assert KickAt(nd, longest, kick, kickEnd, m);
      assert Legal(nd, m, kickEnd[m] - m);
    }
    if f: nat, c: nat :| Legal(nd, f, c) && f <= i < f + c {
      var m: nat :| InKick(kick, kickEnd, m, f) && f + c <= kickEnd[m];
      assert InKick(kick, kickEnd, m, i);
    }
  }

  /** Layer p leaves its cube where the one layer i reads starts. */
  predicate WritesFor(L: seq<Layer>, S: State, p: nat, i: nat)
    requires Sized(L, S) && p < |L| && i < |L| && S.handles[i].source.Some?
  {
    && S.cubeOut[p] && HomeStore(L, S, p) == S.handles[i].source.value.store
    && HomeBase(L, S, p) == S.handles[i].source.value.base
  }

  /** No host work is left inside a kick: every layer of it after the first that carries a
      program reads the cube an earlier layer of the same kick leaves, and every one before
      the last leaves a cube. */
  lemma NoHostWorkInside(L: seq<Layer>, S: State, skip: seq<bool>, lib: seq<PackedConv>, only: int,
                         nd: seq<Node>, first: nat, count: nat, i: nat)
    requires Sound(L, S) && |skip| == |lib| == |L| == |nd|
    requires forall k :: 0 <= k < |L| ==> nd[k] == Offered(L, S, skip[k], lib[k], only, k)
    requires Legal(nd, first, count) && first <= i < first + count
    ensures Placement(L, S, i) || (HasProgram(L[i]) && !HostWork(L, S, skip[i], i))
    ensures first < i && !Placement(L, S, i) ==>
      S.cubeIn[i] && S.handles[i].source.Some? && exists p :: first <= p < i && WritesFor(L, S, p, i)
    ensures i + 1 < first + count ==> S.cubeOut[i]
  {
    assert CanJoin(nd[i], first < i) && RowOk(L, i) && InOk(L, S, i) && OutOk(L, S, i);
    if i + 1 < first + count { assert Leaves(nd[i]); }
    if first < i && !Placement(L, S, i) {
      assert ChainRuns.FedInRun(nd, first, i);
      var p: nat :| first <= p < i && !IsPlacement(nd[p]) && nd[p].surf == nd[i].feat;
      assert nd[p] == Offered(L, S, skip[p], lib[p], only, p);
      assert OutOk(L, S, p) && WritesFor(L, S, p, i);
    }
  }

  /** A convolution the finder may begin or end a run with: resident, chainable, with programs, no
      host work about it, and not before the layer the localizer names. */
  predicate Runnable(L: seq<Layer>, skip: seq<bool>, lib: seq<PackedConv>, only: int, i: nat)
    requires |skip| == |lib| == |L| && i < |L|
  {
    && (L[i].kind == Conv || L[i].kind == DwConv) && L[i].resident && !L[i].hostInput && !skip[i]
    && lib[i].chainable && 0 < lib[i].programs && only <= i
  }

  /** Two such layers, of which the second reads where the first leaves its cube, are a run. */
  lemma LinkedPairIsRun(L: seq<Layer>, S: State, skip: seq<bool>, lib: seq<PackedConv>, only: int,
                        nd: seq<Node>, i: nat)
    requires Sound(L, S) && |skip| == |lib| == |L| == |nd| && i + 1 < |L|
    requires forall k :: 0 <= k < |L| ==> nd[k] == Offered(L, S, skip[k], lib[k], only, k)
    requires Runnable(L, skip, lib, only, i) && Runnable(L, skip, lib, only, i + 1)
    requires S.handles[i + 1].source.Some? && WritesFor(L, S, i, i + 1)
    ensures Legal(nd, i, 2)
  {
    assert OutOk(L, S, i);
    assert nd[i].surf == nd[i + 1].feat;
    assert ChainRuns.FedInRun(nd, i, i + 1);
  }

  /** What the library has to say of every member of a run: it can chain it, a convolution has
      programs, and a pool has a divisor that cannot lag and convolutions on both sides. */
  lemma MembersCanChain(L: seq<Layer>, S: State, skip: seq<bool>, lib: seq<PackedConv>, only: int,
                        nd: seq<Node>, first: nat, count: nat, i: nat)
    requires Sized(L, S) && |skip| == |lib| == |L| == |nd|
    requires forall k :: 0 <= k < |L| ==> nd[k] == Offered(L, S, skip[k], lib[k], only, k)
    requires Legal(nd, first, count) && first <= i < first + count && !Placement(L, S, i)
    ensures L[i].resident && !L[i].hostInput && lib[i].chainable
    ensures if IsPool(L[i]) then !lib[i].lags && first < i && i + 1 < first + count else 0 < lib[i].programs
  {
    assert CanJoin(nd[i], first < i);
  }

  /** Nothing before the layer the localizer names is in a run, but what has no program. */
  lemma LocalizerCuts(L: seq<Layer>, S: State, skip: seq<bool>, lib: seq<PackedConv>, only: int,
                      nd: seq<Node>, first: nat, count: nat)
    requires Sized(L, S) && |skip| == |lib| == |L| == |nd|
    requires forall k :: 0 <= k < |L| ==> nd[k] == Offered(L, S, skip[k], lib[k], only, k)
    requires Legal(nd, first, count)
    ensures only <= first
  {
    assert CanJoin(nd[first], false);
  }

  // ---- classification ----------------------------------------------------------------

  /** The reason the caller's own lowering gives layer i before the finder is asked. */
  function Lowered(L: seq<Layer>, S: State, skip: bool, lib: PackedConv, only: int, i: nat): Option<Break>
    requires Sized(L, S) && i < |L|
  {
    if L[i].hostInput then Some(HostPrep)
    else if Placement(L, S, i) then None
    else if L[i].kind == Add && !S.cubeIn[i] then Some(AddHostCat)
    else if skip && !S.placed[i] && !S.shared[i] then Some(SkipMaterialise)
    else if i < only then None
    else if IsPool(L[i]) then
      if !L[i].resident then Some(PoolUnresident) else if lib.lags then Some(PoolLaggy) else None
    else if !L[i].resident then Some(NotResident) else None
  }

  /** The reason a layer that was offered still fell outside every run. */
  function Stranded(S: State, i: nat): Break
    requires i < |S.cubeIn| == |S.cubeOut|
  {
    if !S.cubeOut[i] then NoCubeOut else if !S.cubeIn[i] then NoCubeIn else Alone
  }

  function WhyOutside(L: seq<Layer>, S: State, skip: bool, lib: PackedConv, only: int, i: nat): Break
    requires Sized(L, S) && i < |L|
  {
    match Lowered(L, S, skip, lib, only, i)
    case Some(why) => why
    case None => Stranded(S, i)
  }

  /** What each reason says of a layer that carries a program. */
  lemma ReasonsMean(L: seq<Layer>, S: State, skip: bool, lib: PackedConv, only: int, i: nat)
    requires Sized(L, S) && i < |L| && Submits(L[i])
    ensures var why := WhyOutside(L, S, skip, lib, only, i);
      var fed := !L[i].hostInput && (L[i].kind == Add ==> S.cubeIn[i]);
      var free := fed && (skip ==> S.placed[i] || S.shared[i]);
      var asked := free && only <= i;
      var offered := free && (only <= i ==> L[i].resident && (IsPool(L[i]) ==> !lib.lags));
      && (why == HostPrep <==> L[i].hostInput)
      && (why == AddHostCat <==> !L[i].hostInput && !fed)
      && (why == SkipMaterialise <==> fed && !free)
      && (why == PoolUnresident <==> asked && IsPool(L[i]) && !L[i].resident)
      && (why == PoolLaggy <==> asked && IsPool(L[i]) && L[i].resident && lib.lags)
      && (why == NotResident <==> asked && !IsPool(L[i]) && !L[i].resident)
      && (why == NoCubeOut <==> offered && !S.cubeOut[i])
      && (why == NoCubeIn <==> offered && S.cubeOut[i] && !S.cubeIn[i])
      && (why == Alone <==> offered && S.cubeOut[i] && S.cubeIn[i])
  {
  }

  function Sum(b: seq<int>): int {
    if b == [] then 0 else Sum(b[..|b| - 1]) + b[|b| - 1]
  }

  /** t is s with one entry, if any, one larger. */
  predicate OneMore(s: seq<int>, t: seq<int>, r: nat, more: bool) {
    |s| == |t| && forall b :: 0 <= b < |s| ==> t[b] == s[b] + if more && b == r then 1 else 0
  }

  lemma {:induction false} SumOneMore(s: seq<int>, t: seq<int>, r: nat, more: bool)
    requires OneMore(s, t, r, more)
    ensures Sum(t) == Sum(s) + if more && r < |s| then 1 else 0
  {
    if s != [] { SumOneMore(s[..|s| - 1], t[..|t| - 1], r, more); }
  }

  lemma {:induction false} SumZero(s: seq<int>)
    requires forall b :: 0 <= b < |s| ==> s[b] == 0
    ensures Sum(s) == 0
  {
    if s != [] { SumZero(s[..|s| - 1]); }
  }

  // ---- the sets the counters stand for -----------------------------------------------

  /** A set with one element, if any, more. */
  lemma SetOneMore(s: set<nat>, t: set<nat>, x: nat, more: bool)
    requires x !in s && forall y :: y in t <==> y in s || (more && y == x)
    ensures |t| == |s| + if more then 1 else 0
  {
    assert t == if more then s + {x} else s;
  }

  ghost function CoveredLayers(kick: seq<bool>, kickEnd: seq<nat>): set<nat>
    requires |kick| == |kickEnd|
  {
    set i: nat | i < |kick| && Covered(kick, kickEnd, i)
  }

  ghost function RunStarts(kick: seq<bool>): set<nat> {
    set m: nat | m < |kick| && kick[m]
  }

  ghost function Interval(a: nat, b: nat): (s: set<nat>)
    requires a <= b
    ensures |s| == b - a && forall i: nat :: i in s <==> a <= i < b
  {
    if a == b then {} else Interval(a, b - 1) + {b - 1}
  }

  /** One more kick, past all the others, covers its own layers and no more. */
  lemma KickAdds(kick: seq<bool>, kickEnd: seq<nat>, m: nat, n: nat)
    requires |kick| == |kickEnd| && m < |kick| && !kick[m] && m + n <= |kick| && 0 < n
    requires AllEndBy(kick, kickEnd, m)
    ensures var kick', end' := kick[m := true], kickEnd[m := m + n];
      && |CoveredLayers(kick', end')| == |CoveredLayers(kick, kickEnd)| + n
      && |RunStarts(kick')| == |RunStarts(kick)| + 1
  {
    StartsAdd(kick, m);
    var old', new', more := CoveredLayers(kick, kickEnd),
        CoveredLayers(kick[m := true], kickEnd[m := m + n]), Interval(m, m + n);
    forall i: nat ensures i in new' <==> i in old' || i in more
                  ensures i in old' ==> i < m
    {
      CoverAdds(kick, kickEnd, m, n, i);
    }
    assert new' == old' + more && old' !! more;
  }

  lemma KickExtends(nd: seq<Node>, longest: nat, kick: seq<bool>, kickEnd: seq<nat>, m: nat, n: nat)
    requires KicksOk(nd, longest, kick, kickEnd) && m < |kick| && n <= longest && Legal(nd, m, n)
    requires AllEndBy(kick, kickEnd, m)
    ensures !kick[m] && KicksOk(nd, longest, kick[m := true], kickEnd[m := m + n])
    ensures AllEndBy(kick[m := true], kickEnd[m := m + n], m + n)
  {
    var kick', end' := kick[m := true], kickEnd[m := m + n];
    assert KickAt(nd, longest, kick, kickEnd, m) && EndsBy(kick, kickEnd, m, m);
    forall k: nat ensures KickAt(nd, longest, kick', end', k) {
      assert KickAt(nd, longest, kick, kickEnd, k);
    }
    forall k: nat ensures PastOthers(kick', end', k) {
      assert PastOthers(kick, kickEnd, k) && EndsBy(kick, kickEnd, k, m);
      forall i: nat | i < k && k < |kick| && kick'[k] ensures EndsBy(kick', end', i, k) {
        assert EndsBy(kick, kickEnd, i, k) || k == m;
        assert EndsBy(kick, kickEnd, i, m);
        assert KickAt(nd, longest, kick, kickEnd, k);
      }
    }
    var to := m + n;
    forall k: nat ensures EndsBy(kick', end', k, to) { assert EndsBy(kick, kickEnd, k, m); }
  }

  lemma EndsLater(kick: seq<bool>, kickEnd: seq<nat>, to: nat, later: nat)
    requires |kick| == |kickEnd| && AllEndBy(kick, kickEnd, to) && to <= later
    ensures AllEndBy(kick, kickEnd, later)
  {
    forall m: nat ensures EndsBy(kick, kickEnd, m, later) { assert EndsBy(kick, kickEnd, m, to); }
  }

  lemma StartsAdd(kick: seq<bool>, m: nat)
    requires m < |kick| && !kick[m]
    ensures |RunStarts(kick[m := true])| == |RunStarts(kick)| + 1
  {
    assert RunStarts(kick[m := true]) == RunStarts(kick) + {m};
  }

  lemma CoverAdds(kick: seq<bool>, kickEnd: seq<nat>, m: nat, n: nat, i: nat)
    requires |kick| == |kickEnd| && m < |kick| && !kick[m]
    requires AllEndBy(kick, kickEnd, m)
    ensures Covered(kick[m := true], kickEnd[m := m + n], i) <==>
            Covered(kick, kickEnd, i) || m <= i < m + n
    ensures Covered(kick, kickEnd, i) ==> i < m
  {
    var kick', end' := kick[m := true], kickEnd[m := m + n];
    if m <= i < m + n { assert InKick(kick', end', m, i); }
    if Covered(kick, kickEnd, i) {
      var k: nat :| InKick(kick, kickEnd, k, i);
      assert EndsBy(kick, kickEnd, k, m) && InKick(kick', end', k, i);
    }
    if Covered(kick', end', i) {
      var k: nat :| InKick(kick', end', k, i);
      assert k != m ==> InKick(kick, kickEnd, k, i);
    }
  }
}
