/** The run finder: groups linked layers into runs one hardware kick can cover. */
module ChainRuns {
  import opened Options
  import opened GraphCubes

  datatype Role = Unset | ConvNode | PoolNode | PlacementNode

  /** A base address on the part. */
  datatype Address = Address(store: Store, base: nat)

  /** One layer as the finder sees it. `feat` is the cube it reads and `surf` the one it
      leaves; `chainable` is the handle's own answer, `programs` how many programs a
      convolution emits, and `lags` says a pool's divisor can lag. */
  datatype Node = Node(role: Role, chainable: bool, programs: nat,
                       feat: Option<Address>, surf: Option<Address>, lags: bool)

  datatype Run = Run(first: nat, count: nat, programs: nat)

  predicate IsPlacement(d: Node) { d.role == PlacementNode }

  predicate IsPoolNode(d: Node) { d.role == PoolNode }

  /** Whether a node can be part of a run, strictly inside it or at its start. */
  predicate CanJoin(d: Node, interior: bool) {
    match d.role
    case Unset => false
    case PlacementNode => interior
    case ConvNode => d.chainable
    case PoolNode => d.chainable && interior && d.feat.Some? && d.surf.Some? && !d.lags
  }

  function Programs(d: Node): nat {
    match d.role
    case Unset => 0
    case PlacementNode => 0
    case PoolNode => if CanJoin(d, true) then 1 else 0
    case ConvNode => if d.chainable then d.programs else 0
  }

  /** Layer j reads a cube some layer of the run, from `first` on, wrote before it. */
  ghost predicate FedInRun(nd: seq<Node>, first: nat, j: nat)
    requires j < |nd|
  {
    IsPlacement(nd[j]) ||
    (nd[j].feat.Some? && exists i :: first <= i < j && !IsPlacement(nd[i]) && nd[i].surf == nd[j].feat)
  }

  predicate Leaves(d: Node) {
    IsPlacement(d) || d.surf.Some?
  }

  // ---- what a run is -----------------------------------------------------------------

  /** Layers [first, end) in one stream: each is a node that fits, each but the first reads a
      cube an earlier one wrote, each but the last leaves one. */
  ghost predicate Stream(nd: seq<Node>, first: nat, end: nat)
    requires end <= |nd|
  {
    && (forall j :: first <= j < end ==> CanJoin(nd[j], first < j) && (IsPlacement(nd[j]) || 0 < Programs(nd[j])))
    && (forall j :: first < j < end ==> FedInRun(nd, first, j))
    && (forall j :: first <= j && j + 1 < end ==> Leaves(nd[j]))
  }

  /** A legal run: a stream of two or more layers that starts and ends on a convolution. */
  ghost predicate Legal(nd: seq<Node>, first: nat, count: nat) {
    && 2 <= count && first + count <= |nd| && Stream(nd, first, first + count)
    && nd[first].role == ConvNode && nd[first + count - 1].role == ConvNode
  }

  /** Which three layers, two convolutions and what lies between them, are a run: a pool has to
      have a handle and a divisor that cannot lag, and to read what the first wrote; either
      surface will do for the second. */
  lemma PoolBetween(nd: seq<Node>)
    requires |nd| == 3 && nd[0].role == ConvNode && nd[1].role == PoolNode && nd[2].role == ConvNode
    ensures Legal(nd, 0, 3) <==>
      && nd[0].chainable && 0 < nd[0].programs && nd[2].chainable && 0 < nd[2].programs
      && nd[1].chainable && !nd[1].lags
      && nd[0].surf.Some? && nd[1].feat == nd[0].surf && nd[1].surf.Some?
      && (nd[2].feat == nd[0].surf || nd[2].feat == nd[1].surf)
    ensures Legal(nd, 0, 3) ==> Tasks(nd, 0, 3) == nd[0].programs + 1 + nd[2].programs
  {
    FedTwice(nd);
    ThreeTasks(nd);
  }

  /** A placement emits nothing and is asked nothing, and what is read past it is what the first
      layer wrote. */
  lemma PlacementBetween(nd: seq<Node>)
    requires |nd| == 3 && nd[0].role == ConvNode && IsPlacement(nd[1]) && nd[2].role == ConvNode
    ensures Legal(nd, 0, 3) <==>
      && nd[0].chainable && 0 < nd[0].programs && nd[2].chainable && 0 < nd[2].programs
      && nd[0].surf.Some? && nd[2].feat == nd[0].surf
    ensures Legal(nd, 0, 3) ==> Tasks(nd, 0, 3) == nd[0].programs + nd[2].programs
  {
    FedTwice(nd);
    ThreeTasks(nd);
  }

  lemma ThreeTasks(nd: seq<Node>)
    requires |nd| == 3
    ensures Tasks(nd, 0, 3) == Programs(nd[0]) + Programs(nd[1]) + Programs(nd[2])
  {
    assert Tasks(nd, 0, 2) == Tasks(nd, 0, 1) + Programs(nd[1]);
    assert Tasks(nd, 0, 1) == Tasks(nd, 0, 0) + Programs(nd[0]);
  }

  lemma FedTwice(nd: seq<Node>)
    requires |nd| == 3 && !IsPlacement(nd[0]) && !IsPlacement(nd[2])
    ensures !IsPlacement(nd[1]) ==> (FedInRun(nd, 0, 1) <==> nd[1].feat.Some? && nd[0].surf == nd[1].feat)
    ensures FedInRun(nd, 0, 2) <==>
      nd[2].feat.Some? && (nd[0].surf == nd[2].feat || (!IsPlacement(nd[1]) && nd[1].surf == nd[2].feat))
  {
    if nd[0].surf == nd[2].feat && nd[2].feat.Some? { assert FedInRun(nd, 0, 2); }
  }

  function Tasks(nd: seq<Node>, first: nat, end: nat): nat
    requires first <= end <= |nd|
  {
    if first == end then 0 else Tasks(nd, first, end - 1) + Programs(nd[end - 1])
  }

  lemma {:induction false} TasksGrow(nd: seq<Node>, a: nat, b: nat, c: nat, d: nat)
    requires a <= b <= c <= d <= |nd|
    ensures Tasks(nd, b, c) <= Tasks(nd, a, d)
    decreases d - b
  {
    if c < d {
      TasksGrow(nd, a, b, c, d - 1);
    } else if b < c {
      TasksGrow(nd, a, b, c - 1, d - 1);
    }
  }

  /** A stream cut short is a stream. */
  lemma StreamPrefix(nd: seq<Node>, first: nat, end: nat, cut: nat)
    requires end <= |nd| && cut <= end && Stream(nd, first, end)
    ensures Stream(nd, first, cut)
  {
  }

  /** One more layer that fits, is fed, and follows one that leaves a cube. */
  lemma StreamGrows(nd: seq<Node>, first: nat, end: nat)
    requires first <= end < |nd| && Stream(nd, first, end) && CanJoin(nd[end], first < end)
    requires IsPlacement(nd[end]) || 0 < Programs(nd[end])
    requires first < end ==> Leaves(nd[end - 1]) && FedInRun(nd, first, end)
    ensures Stream(nd, first, end + 1)
  {
  }

  // ---- growing one run ---------------------------------------------------------------

  /** Nothing can be added at s to a run that grew from `first`: it does not fit, reads
      nothing the run wrote, or the layer before it leaves nothing; or the cap is reached. */
  ghost predicate Stops(nd: seq<Node>, first: nat, s: nat, cap: nat)
    requires first <= s <= |nd|
  {
    || s == |nd| || !CanJoin(nd[s], first < s)
    || (!IsPlacement(nd[s]) && Programs(nd[s]) == 0)
    || (first < s && cap < Tasks(nd, first, s + 1))
    || (first < s && (!Leaves(nd[s - 1]) || !FedInRun(nd, first, s)))
  }

  method IsFed(nd: seq<Node>, first: nat, j: nat) returns (b: bool)
    requires first <= j < |nd|
    ensures b <==> FedInRun(nd, first, j)
  {
    if IsPlacement(nd[j]) { return true; }
    if nd[j].feat.None? { return false; }
    var i := first;
    while i < j
      invariant first <= i <= j
      invariant forall k :: first <= k < i ==> IsPlacement(nd[k]) || nd[k].surf != nd[j].feat
    {
      if !IsPlacement(nd[i]) && nd[i].surf == nd[j].feat { return true; }
      i := i + 1;
    }
    b := false;
  }

  /** Grows a run from `first` as far as it goes, up to the program bound. */
  method Grow(nd: seq<Node>, first: nat, cap: nat) returns (end: nat, tasks: nat, progs: nat)
    requires first < |nd| && !IsPlacement(nd[first]) && !IsPoolNode(nd[first])
    ensures first <= end <= |nd| && Stream(nd, first, end) && Stops(nd, first, end, cap)
    ensures tasks == Tasks(nd, first, end) && (first + 2 <= end ==> tasks <= cap)
    ensures progs == Emitters(nd, first, end)
  {
    end, tasks, progs := first, 0, 0;
    while end < |nd| && CanJoin(nd[end], first < end)
      invariant first <= end <= |nd| && Stream(nd, first, end)
      invariant tasks == Tasks(nd, first, end) && (first + 2 <= end ==> tasks <= cap)
      invariant progs == Emitters(nd, first, end)
      invariant first < end < |nd| ==> Leaves(nd[end - 1]) && FedInRun(nd, first, end)
    {
      var nt, place := Programs(nd[end]), IsPlacement(nd[end]);
      if nt == 0 && !place { break; }
      if first < end && tasks + nt > cap { break; }
      StreamGrows(nd, first, end);
      tasks := tasks + nt;
      if !place { progs := progs + 1; }
      end := end + 1;
      if end == |nd| { break; }
      var fed := IsFed(nd, first, end);
      if (!place && nd[end - 1].surf.None?) || !fed { break; }
    }
  }

  /** The layers of [first, end) that carry a program. */
  function Emitters(nd: seq<Node>, first: nat, end: nat): nat
    requires first <= end <= |nd|
  {
    if first == end then 0
    else Emitters(nd, first, end - 1) + if IsPlacement(nd[end - 1]) then 0 else 1
  }

  lemma {:induction false} EmittersSplit(nd: seq<Node>, first: nat, m: nat, end: nat)
    requires first <= m <= end <= |nd|
    ensures Emitters(nd, first, end) == Emitters(nd, first, m) + Emitters(nd, m, end)
    decreases end
  {
    if m < end { EmittersSplit(nd, first, m, end - 1); }
  }

  /** Gives back a trailing pool, whose output the chain would have to de-scatter, and a
      trailing placement, which emits nothing. */
  method Trim(nd: seq<Node>, first: nat, end: nat, tasks: nat, progs: nat)
    returns (cut: nat, t: nat, g: nat)
    requires first <= end <= |nd| && tasks == Tasks(nd, first, end) && progs == Emitters(nd, first, end)
    ensures first <= cut <= end && t == Tasks(nd, first, cut) && g == Emitters(nd, first, cut)
    ensures forall k :: cut <= k < end ==> IsPoolNode(nd[k]) || IsPlacement(nd[k])
    ensures first < cut ==> !IsPoolNode(nd[cut - 1]) && !IsPlacement(nd[cut - 1])
  {
    cut, t, g := end, tasks, progs;
    while first < cut && (IsPoolNode(nd[cut - 1]) || IsPlacement(nd[cut - 1]))
      invariant first <= cut <= end && t == Tasks(nd, first, cut) && g == Emitters(nd, first, cut)
      invariant forall k :: cut <= k < end ==> IsPoolNode(nd[k]) || IsPlacement(nd[k])
    {
      cut := cut - 1;
      if !IsPlacement(nd[cut]) { g := g - 1; }
      t := t - Programs(nd[cut]);
    }
  }

  // ---- all the runs ------------------------------------------------------------------

  /** Run r covers layers [f, f + c). */
  predicate Spans(r: Run, f: nat, c: nat) {
    r.first <= f && f + c <= r.first + r.count
  }

  /** In table order and disjoint. */
  ghost predicate RunsApart(runs: seq<Run>) {
    forall a, b :: 0 <= a < b < |runs| ==> runs[a].first + runs[a].count <= runs[b].first
  }

  ghost predicate RunOk(nd: seq<Node>, cap: nat, r: Run) {
    Legal(nd, r.first, r.count) && r.programs == Tasks(nd, r.first, r.first + r.count) <= cap
  }

  /** Runs of the table, one past the other. */
  ghost predicate AreRuns(nd: seq<Node>, cap: nat, runs: seq<Run>) {
    RunsApart(runs) && forall r :: r in runs ==> RunOk(nd, cap, r)
  }

  /** No way to lay runs one past the other has more than n of them. */
  ghost predicate AtMost(nd: seq<Node>, cap: nat, n: nat) {
    forall runs: seq<Run> :: AreRuns(nd, cap, runs) ==> |runs| <= n
  }

  lemma {:induction false} RunsTakeLayers(nd: seq<Node>, cap: nat, runs: seq<Run>)
    requires AreRuns(nd, cap, runs) && runs != []
    ensures 2 * |runs| <= runs[|runs| - 1].first + runs[|runs| - 1].count <= |nd|
  {
    var n := |runs| - 1;
    assert runs[n] in runs;
    if 0 < n {
      assert runs[..n][n - 1] == runs[n - 1];
      assert forall r :: r in runs[..n] ==> r in runs;
      RunsTakeLayers(nd, cap, runs[..n]);
    }
  }

  /** A run has two layers at least, so a table of 2n + 1 has n at most. */
  lemma FewLayersFewRuns(nd: seq<Node>, cap: nat, n: nat)
    requires |nd| <= 2 * n + 1
    ensures AtMost(nd, cap, n)
  {
    forall runs: seq<Run> | AreRuns(nd, cap, runs) ensures |runs| <= n {
      if runs != [] { RunsTakeLayers(nd, cap, runs); }
    }
  }

  /** A stream that begins no later than f and ends inside [f, f + c), past its first layer, has
      more programs than the bound. */
  ghost predicate SplitAtBound(nd: seq<Node>, cap: nat, f: nat, c: nat) {
    exists a: nat, e: nat ::
      a <= f && f + 1 < e <= f + c <= |nd| && Stream(nd, a, e) && cap < Tasks(nd, a, e)
  }

  /** Every legal run that starts before layer i lies inside a found one or is split at the
      bound. */
  ghost predicate Complete(nd: seq<Node>, cap: nat, runs: seq<Run>, i: nat) {
    forall f: nat, c: nat :: f < i && Legal(nd, f, c) ==>
      SplitAtBound(nd, cap, f, c) || exists r :: r in runs && Spans(r, f, c)
  }

  /** A legal run that starts where a grown one has reached ends inside it, unless the grown
      one stopped at the program bound. */
  lemma GrownPast(nd: seq<Node>, first: nat, end: nat, cap: nat, f: nat, c: nat)
    requires first <= end <= |nd| && Stream(nd, first, end) && Stops(nd, first, end, cap)
    requires Legal(nd, f, c) && first <= f && (f < end || f == first)
    ensures f + c <= end || SplitAtBound(nd, cap, f, c)
  {
    if end < f + c {
      assert CanJoin(nd[end], f < end);
      if f < end {
        assert FedInRun(nd, f, end) && Leaves(nd[end - 1]);
        StreamGrows(nd, first, end);
      }
    }
  }

  /** No run is split in a table all of whose programs fit. */
  lemma NoneSplit(nd: seq<Node>, cap: nat, f: nat, c: nat)
    requires Tasks(nd, 0, |nd|) <= cap
    ensures !SplitAtBound(nd, cap, f, c)
  {
    forall a: nat, e: nat | a <= f && f + 1 < e <= f + c <= |nd| ensures Tasks(nd, a, e) <= cap {
      TasksGrow(nd, 0, a, e, |nd|);
    }
  }

  lemma TrimmedIsLegal(nd: seq<Node>, first: nat, end: nat, cut: nat)
    requires first <= cut <= end <= |nd| && Stream(nd, first, end) && 2 <= Emitters(nd, first, cut)
    requires first < cut && !IsPoolNode(nd[cut - 1]) && !IsPlacement(nd[cut - 1])
    ensures Legal(nd, first, cut - first)
  {
    assert CanJoin(nd[first], false) && CanJoin(nd[cut - 1], first < cut - 1);
    assert Emitters(nd, first, first) == 0 && Emitters(nd, first, first + 1) <= 1;
  }

  lemma LegalEmits(nd: seq<Node>, f: nat, c: nat, first: nat, cut: nat)
    requires Legal(nd, f, c) && first <= f && f + c <= cut <= |nd|
    ensures 2 <= Emitters(nd, first, cut)
  {
    EmittersSplit(nd, first, f, cut);
    EmittersSplit(nd, f, f + c, cut);
    EmittersSplit(nd, f, f + 1, f + c);
    assert Emitters(nd, f, f + 1) == Emitters(nd, f, f) + 1;
    assert Emitters(nd, f + 1, f + c) == Emitters(nd, f + 1, f + c - 1) + 1;
  }

  /** A legal run that is not split lies inside what is left of the grown one once trimmed. */
  lemma InsideTrimmed(nd: seq<Node>, first: nat, end: nat, cut: nat, cap: nat, f: nat, c: nat)
    requires first <= cut <= end <= |nd| && Stream(nd, first, end) && Stops(nd, first, end, cap)
    requires forall k :: cut <= k < end ==> IsPoolNode(nd[k]) || IsPlacement(nd[k])
    requires Legal(nd, f, c) && first <= f && (f < end || f == first) && !SplitAtBound(nd, cap, f, c)
    ensures f + c <= cut && 2 <= Emitters(nd, first, cut)
  {
    GrownPast(nd, first, end, cap, f, c);
    assert nd[f + c - 1].role == ConvNode;
    LegalEmits(nd, f, c, first, cut);
  }

  /** The finder's answer is the first `maxRuns` of all the runs there are. */
  method FindRuns(nd: seq<Node>, cap: nat, maxRuns: nat) returns (found: nat, runs: seq<Run>)
    ensures exists all: seq<Run> :: AreRuns(nd, cap, all) && |all| == found
              && runs == if found <= maxRuns then all else all[..maxRuns]
    ensures AreRuns(nd, cap, runs) && (AtMost(nd, cap, maxRuns) ==> found <= maxRuns)
    ensures found <= maxRuns ==> Complete(nd, cap, runs, |nd|)
    ensures found <= maxRuns && Tasks(nd, 0, |nd|) <= cap ==>
              forall f: nat, c: nat :: Legal(nd, f, c) ==> exists r :: r in runs && Spans(r, f, c)
  {
    var all;
    all := AllRuns(nd, cap);
    found := |all|;
    runs := if found <= maxRuns then all else all[..maxRuns];
    if Tasks(nd, 0, |nd|) <= cap {
      forall f: nat, c: nat | Legal(nd, f, c) ensures !SplitAtBound(nd, cap, f, c) { NoneSplit(nd, cap, f, c); }
    }
  }

  method AllRuns(nd: seq<Node>, cap: nat) returns (runs: seq<Run>)
    ensures RunsApart(runs) && forall r :: r in runs ==> RunOk(nd, cap, r)
    ensures Complete(nd, cap, runs, |nd|)
  {
    runs := [];
    var i := 0;
    while i + 1 < |nd|
      invariant i <= |nd| && RunsApart(runs) && forall r :: r in runs ==> RunOk(nd, cap, r)
      invariant forall r :: r in runs ==> r.first + r.count <= i
      invariant Complete(nd, cap, runs, i)
      decreases |nd| - i
    {
      if IsPoolNode(nd[i]) || IsPlacement(nd[i]) {
        i := i + 1;
      } else {
        runs, i := NextRun(nd, cap, runs, i);
      }
    }
  }

  /** One turn of the finder: grows, trims and keeps what is a run; goes on past it. */
  method NextRun(nd: seq<Node>, cap: nat, before: seq<Run>, first: nat)
    returns (runs: seq<Run>, next: nat)
    requires first < |nd| && !IsPlacement(nd[first]) && !IsPoolNode(nd[first])
    requires RunsApart(before) && (forall r :: r in before ==> RunOk(nd, cap, r))
    requires forall r :: r in before ==> r.first + r.count <= first
    requires Complete(nd, cap, before, first)
    ensures first < next <= |nd| && RunsApart(runs) && forall r :: r in runs ==> RunOk(nd, cap, r)
    ensures forall r :: r in runs ==> r.first + r.count <= next
    ensures Complete(nd, cap, runs, next)
  {
    runs := before;
    var end, tasks, progs := Grow(nd, first, cap);
    var cut, t, g := Trim(nd, first, end, tasks, progs);
    next := if end == first then end + 1 else end;
    if g >= 2 {
      TrimmedIsLegal(nd, first, end, cut);
      TasksGrow(nd, first, first, cut, end);
      runs := runs + [Run(first, cut - first, t)];
    }
    forall f: nat, c: nat | f < next && Legal(nd, f, c) && !SplitAtBound(nd, cap, f, c)
      ensures exists r :: r in runs && Spans(r, f, c)
    {
      if first <= f {
        InsideTrimmed(nd, first, end, cut, cap, f, c);
        assert runs[|before|] in runs;
      } else {
        EarlierSpans(nd, cap, before, first, f, c);
        assert forall r :: r in before ==> r in runs;
      }
    }
  }

  lemma EarlierSpans(nd: seq<Node>, cap: nat, before: seq<Run>, first: nat, f: nat, c: nat)
    requires Complete(nd, cap, before, first) && f < first && Legal(nd, f, c) && !SplitAtBound(nd, cap, f, c)
    ensures exists r :: r in before && Spans(r, f, c)
  {
  }
}
