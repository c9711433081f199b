/** Why an adjacent pair is not joined, and the books kept of the pairs that are not. */
module GraphRefusals {
  import opened Options
  import opened GraphLayers
  import opened GraphCubes
  import opened GraphWiring
  import opened GraphAccounting

  /** The A/B arms. `nojoin` refuses the joins of one producer; `padjoin`, unless -2, allows
      the joins that rest on a declared tail for one producer only. */
  datatype Knobs = Knobs(cat: bool, catn: bool, overlap: bool, tail: bool, multi: bool,
                         nojoin: int, padjoin: int)

  /** The A/B arm that refuses every join of one producer. */
  predicate ForcedBy(K: Knobs, i: nat) { K.nojoin == i as int }

  /** A join that rests on a declared tail may be refused for every producer but one. */
  predicate PadjoinBy(L: seq<Layer>, K: Knobs, p: nat, r: nat)
    requires r < |L|
  {
    L[r].ic % 32 == 0 || L[r].wZp == 0 || K.padjoin == -2 || K.padjoin == p as int
  }

  /** Why an adjacent pair was refused. */
  datatype NoJoin = AddConsumer | FeedsSkip | IcAlign | Surface | Other | Forced

  const BUCKETS: nat := 6

  function Index(why: NoJoin): (k: nat)
    ensures k < BUCKETS
  {
    match why
    case AddConsumer => 0
    case FeedsSkip => 1
    case IcAlign => 2
    case Surface => 3
    case Other => 4
    case Forced => 5
  }

  function Total(b: seq<int>): int
    requires |b| == BUCKETS
  {
    Running(b, BUCKETS - 1)
  }

  function Running(b: seq<int>, k: nat): int
    requires |b| == BUCKETS && k < BUCKETS
  {
    if k == 0 then b[0] else Running(b, k - 1) + b[k]
  }

  /** The bucket the caller's own tables put a pair in before the library is asked: the first
      rule it breaks. */
  function RuleVerdict(L: seq<Layer>, K: Knobs, i: nat, j: nat): Option<NoJoin>
    requires i < |L| && j < |L|
  {
    if ForcedBy(K, i) then Some(NoJoin.Forced)
    else if !L[i].resident then Some(Other)
    else if L[j].kind == Add then Some(AddConsumer)
    else if !ConsumerOk(L[j]) then Some(Other)
    else None
  }

  /** The bucket of a pair no placement wired, when the library keeps to its contracts; None
      when the pair is linked. */
  ghost function Verdict(L: seq<Layer>, K: Knobs, i: nat, j: nat): Option<NoJoin>
    requires i < |L| && j < |L|
  {
    if RuleVerdict(L, K, i, j).Some? then RuleVerdict(L, K, i, j)
    else if SkipSource(L, i) then Some(FeedsSkip)
    else if !PadjoinBy(L, K, i, j) then Some(IcAlign)
    else if !Describable(L[i]) then Some(Surface)
    else if !AcceptsInput(L[j], CubeOf(L, i, None)) then Some(if L[j].ic % 32 != 0 then IcAlign else Other)
    else None
  }

  /** The pairs refused for one reason, of the refused ones and the reason for each. */
  ghost function Bucket(refused: map<Pair, NoJoin>, why: NoJoin): set<Pair> {
    set x | x in refused && refused[x] == why
  }

  /** One bucket's two counters: how many pairs it holds, and their bytes. */
  ghost predicate CountedAt(L: seq<Layer>, n: seq<int>, b: seq<int>, refused: map<Pair, NoJoin>,
                            why: NoJoin)
    requires |n| == |b| == BUCKETS
  {
    n[Index(why)] == |Bucket(refused, why)| && b[Index(why)] == SumBytes(L, Bucket(refused, why))
  }

  /** The buckets count the refused pairs, each once, under the reason it was refused for. */
  ghost predicate Booked(L: seq<Layer>, n: seq<int>, b: seq<int>, refused: map<Pair, NoJoin>) {
    && |n| == |b| == BUCKETS
    && forall why: NoJoin :: CountedAt(L, n, b, refused, why)
  }

  lemma BucketAdd(refused: map<Pair, NoJoin>, x: Pair, why: NoJoin, other: NoJoin)
    requires x !in refused
    ensures Bucket(refused[x := why], other)
            == if other == why then Bucket(refused, other) + {x} else Bucket(refused, other)
    ensures x !in Bucket(refused, other)
  {
  }

  lemma CountedNext(L: seq<Layer>, n: seq<int>, b: seq<int>, refused: map<Pair, NoJoin>,
                    x: Pair, why: NoJoin, other: NoJoin)
    requires |n| == |b| == BUCKETS && CountedAt(L, n, b, refused, other) && x !in refused
    ensures var k := Index(why);
            CountedAt(L, n[k := n[k] + 1], b[k := b[k] + PairBytes(L, x.0)], refused[x := why], other)
  {
    BucketAdd(refused, x, why, other);
    if other == why { SumBytesAdd(L, Bucket(refused, why), x); }
  }

  lemma BookedAdd(L: seq<Layer>, n: seq<int>, b: seq<int>, refused: map<Pair, NoJoin>,
                  x: Pair, why: NoJoin)
    requires Booked(L, n, b, refused) && x !in refused
    ensures var k := Index(why);
            Booked(L, n[k := n[k] + 1], b[k := b[k] + PairBytes(L, x.0)], refused[x := why])
  {
    var k := Index(why);
    var n', b', refused' := n[k := n[k] + 1], b[k := b[k] + PairBytes(L, x.0)], refused[x := why];
    forall other: NoJoin ensures CountedAt(L, n', b', refused', other) {
      assert CountedAt(L, n, b, refused, other);
      CountedNext(L, n, b, refused, x, why, other);
    }
  }

  lemma NothingBooked(L: seq<Layer>)
    ensures Booked(L, seq(BUCKETS, _ => 0), seq(BUCKETS, _ => 0), map[])
  {
    var zero := seq(BUCKETS, _ => 0);
    forall why: NoJoin ensures CountedAt(L, zero, zero, map[], why) {
      assert Bucket(map[], why) == {};
    }
  }

  /** The buckets together hold every refused pair, and none twice. */
  lemma BooksBalance(L: seq<Layer>, n: seq<int>, b: seq<int>, refused: map<Pair, NoJoin>)
    requires Booked(L, n, b, refused)
    ensures Total(n) == |refused.Keys| && Total(b) == SumBytes(L, refused.Keys)
  {
    var last := BUCKETS - 1;
    Gathered(L, n, b, refused, last);
    assert refused.Keys == Below(refused, last);
  }

  /** The pairs in the buckets up to the k-th. */
  ghost function Below(refused: map<Pair, NoJoin>, k: nat): set<Pair> {
    set x | x in refused && Index(refused[x]) <= k
  }

  function Reason(k: nat): (why: NoJoin)
    requires k < BUCKETS
    ensures Index(why) == k
  {
    if k == 0 then AddConsumer else if k == 1 then FeedsSkip else if k == 2 then IcAlign
    else if k == 3 then Surface else if k == 4 then Other else NoJoin.Forced
  }

  lemma {:induction false} Gathered(L: seq<Layer>, n: seq<int>, b: seq<int>,
                                    refused: map<Pair, NoJoin>, k: nat)
    requires Booked(L, n, b, refused) && k < BUCKETS
    ensures Running(n, k) == |Below(refused, k)| && Running(b, k) == SumBytes(L, Below(refused, k))
  {
    var why := Reason(k);
    assert CountedAt(L, n, b, refused, why);
    if k == 0 {
      assert Below(refused, k) == Bucket(refused, why);
    } else {
      Gathered(L, n, b, refused, k - 1);
      assert Below(refused, k) == Below(refused, k - 1) + Bucket(refused, why);
      SumBytesUnion(L, Below(refused, k - 1), Bucket(refused, why));
    }
  }

  /** Every pair is refused for the reason the pair itself gives. */
  ghost predicate Judged(L: seq<Layer>, K: Knobs, refused: map<Pair, NoJoin>) {
    forall x :: x in refused ==> JudgedAt(L, K, x, refused[x])
  }

  ghost predicate JudgedAt(L: seq<Layer>, K: Knobs, x: Pair, why: NoJoin) {
    x.0 < |L| && x.1 < |L| && Verdict(L, K, x.0, x.1) == Some(why)
  }
}
