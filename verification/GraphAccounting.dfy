/** What the join counters count: sets of wired producer-reader relations, and their bytes. */
module GraphAccounting {
  import opened GraphLayers
  import opened GraphPlan

  type Pair = (nat, nat)

  /** The tensor one relation carries: the producer's whole output. */
  function PairBytes(L: seq<Layer>, p: nat): nat {
    if p < |L| then L[p].oc * L[p].oh * L[p].ow else 0
  }

  type Place = (nat, nat, nat)

  ghost function Line(c: nat, y: nat, ow: nat): (s: set<Place>)
    ensures |s| == ow && forall t: Place :: t in s <==> t.0 == c && t.1 == y && t.2 < ow
  {
    if ow == 0 then {} else Line(c, y, ow - 1) + {(c, y, ow - 1)}
  }

  ghost function Plane(c: nat, oh: nat, ow: nat): (s: set<Place>)
    ensures |s| == oh * ow && forall t: Place :: t in s <==> t.0 == c && t.1 < oh && t.2 < ow
  {
    if oh == 0 then {} else
      assert oh * ow == (oh - 1) * ow + ow;
      Plane(c, oh - 1, ow) + Line(c, oh - 1, ow)
  }

  /** The places of a tensor: live channels by rows by columns. */
  ghost function Places(oc: nat, oh: nat, ow: nat): (s: set<Place>)
    ensures |s| == oc * (oh * ow) && forall t: Place :: t in s <==> t.0 < oc && t.1 < oh && t.2 < ow
  {
    if oc == 0 then {} else
      assert oc * (oh * ow) == (oc - 1) * (oh * ow) + oh * ow;
      Places(oc - 1, oh, ow) + Plane(oc - 1, oh, ow)
  }

  /** A relation's bytes are the elements its producer writes, one byte each. */
  lemma PairBytesCount(L: seq<Layer>, p: nat)
    requires p < |L|
    ensures PairBytes(L, p) == |Places(L[p].oc, L[p].oh, L[p].ow)|
  {
    assert L[p].oc * L[p].oh * L[p].ow == L[p].oc * (L[p].oh * L[p].ow);
  }

  ghost function SumBytes(L: seq<Layer>, s: set<Pair>): nat {
    if s == {} then 0
    else
      var x :| x in s;
      PairBytes(L, x.0) + SumBytes(L, s - {x})
  }

  lemma {:induction false} SumBytesAdd(L: seq<Layer>, s: set<Pair>, x: Pair)
    requires x !in s
    ensures SumBytes(L, s + {x}) == SumBytes(L, s) + PairBytes(L, x.0)
    decreases |s|
  {
    var t := s + {x};
    var y :| y in t && SumBytes(L, t) == PairBytes(L, y.0) + SumBytes(L, t - {y});
    if y == x {
      assert t - {y} == s;
    } else {
      SumBytesAdd(L, s - {y}, x);
      SumBytesAdd(L, s - {y}, y);
      assert t - {y} == (s - {y}) + {x};
      assert (s - {y}) + {y} == s;
    }
  }

  lemma {:induction false} SumBytesUnion(L: seq<Layer>, s: set<Pair>, t: set<Pair>)
    requires s !! t
    ensures SumBytes(L, s + t) == SumBytes(L, s) + SumBytes(L, t)
    decreases |t|
  {
    if t == {} {
      assert s + t == s;
    } else {
      var x :| x in t;
      SumBytesUnion(L, s, t - {x});
      SumBytesAdd(L, s + (t - {x}), x);
      SumBytesAdd(L, t - {x}, x);
      assert s + t == (s + (t - {x})) + {x};
      assert (t - {x}) + {x} == t;
    }
  }

  /** Adjacent: the reader is the producer's successor in execution order. */
  predicate Adjacent(L: seq<Layer>, x: Pair) {
    x.0 < |L| && NextLayer(L, x.0) == x.1
  }

  ghost function Near(L: seq<Layer>, rel: set<Pair>): set<Pair> {
    set x | x in rel && Adjacent(L, x)
  }

  ghost function Far(L: seq<Layer>, rel: set<Pair>): set<Pair> {
    set x | x in rel && !Adjacent(L, x)
  }

  /** Every wired relation of a plan: a producer that leaves a cube, and each of its readers. */
  ghost function WiredPairs(L: seq<Layer>, S: State): set<Pair>
    requires Sized(L, S)
  {
    set p: nat, r: nat | 0 <= p < |L| && 0 <= r < |L| && Reader(L, r, p) && S.cubeOut[p] :: (p, r)
  }

  /** The dataflow-adjacent pairs: the denominator every join ratio is quoted against. */
  ghost function AdjacentPairs(L: seq<Layer>): set<Pair> {
    set p: nat | 0 <= p < |L| && NextLayer(L, p) < |L| && Reader(L, NextLayer(L, p), p)
      :: (p, NextLayer(L, p))
  }

  /** The four counters a planner keeps of the relations it wires. */
  datatype Tally = Tally(joins: int, farLinks: int, joinBytes: int, farBytes: int)

  function Count(L: seq<Layer>, t: Tally, x: Pair): Tally {
    if Adjacent(L, x) then t.(joins := t.joins + 1, joinBytes := t.joinBytes + PairBytes(L, x.0))
    else t.(farLinks := t.farLinks + 1, farBytes := t.farBytes + PairBytes(L, x.0))
  }

  /** The counters of a set of relations, each counted once in some order. */
  ghost function TallyOf(L: seq<Layer>, rel: set<Pair>): Tally {
    if rel == {} then Tally(0, 0, 0, 0)
    else
      var x :| x in rel;
      Count(L, TallyOf(L, rel - {x}), x)
  }

  /** The sizes and bytes of the two kinds of relation. */
  ghost function Totals(L: seq<Layer>, rel: set<Pair>): Tally {
    Tally(|Near(L, rel)|, |Far(L, rel)|, SumBytes(L, Near(L, rel)), SumBytes(L, Far(L, rel)))
  }

  lemma NearAdd(L: seq<Layer>, rel: set<Pair>, x: Pair)
    requires x !in rel
    ensures Near(L, rel + {x}) == if Adjacent(L, x) then Near(L, rel) + {x} else Near(L, rel)
    ensures x !in Near(L, rel)
  {
  }

  lemma FarAdd(L: seq<Layer>, rel: set<Pair>, x: Pair)
    requires x !in rel
    ensures Far(L, rel + {x}) == if Adjacent(L, x) then Far(L, rel) else Far(L, rel) + {x}
    ensures x !in Far(L, rel)
  {
  }

  lemma TotalsAdd(L: seq<Layer>, rel: set<Pair>, x: Pair)
    requires x !in rel
    ensures Totals(L, rel + {x}) == Count(L, Totals(L, rel), x)
  {
    var near, far := Near(L, rel), Far(L, rel);
    NearAdd(L, rel, x);
    FarAdd(L, rel, x);
    if Adjacent(L, x) {
      SumBytesAdd(L, near, x);
      assert |near + {x}| == |near| + 1;
    } else {
      SumBytesAdd(L, far, x);
      assert |far + {x}| == |far| + 1;
    }
  }

  /** The counters count adjacent relations and their bytes apart from the others. */
  lemma {:induction false} TallyMeaning(L: seq<Layer>, rel: set<Pair>)
    ensures TallyOf(L, rel) == Totals(L, rel)
    decreases |rel|
  {
    if rel == {} {
      assert Near(L, rel) == {} && Far(L, rel) == {};
    } else {
      var x :| x in rel && TallyOf(L, rel) == Count(L, TallyOf(L, rel - {x}), x);
      TallyMeaning(L, rel - {x});
      TotalsAdd(L, rel - {x}, x);
      assert rel - {x} + {x} == rel;
    }
  }

  /** Counting one more relation is independent of the order. */
  lemma TallyAdd(L: seq<Layer>, rel: set<Pair>, x: Pair)
    requires x !in rel
    ensures TallyOf(L, rel + {x}) == Count(L, TallyOf(L, rel), x)
  {
    TallyMeaning(L, rel);
    TallyMeaning(L, rel + {x});
    TotalsAdd(L, rel, x);
  }

  /** No relation is counted twice: the two counters together are the size of the set. */
  lemma NearAndFar(L: seq<Layer>, rel: set<Pair>)
    ensures |Near(L, rel)| + |Far(L, rel)| == |rel|
    ensures SumBytes(L, Near(L, rel)) + SumBytes(L, Far(L, rel)) == SumBytes(L, rel)
  {
    assert Near(L, rel) + Far(L, rel) == rel && Near(L, rel) !! Far(L, rel);
    SumBytesUnion(L, Near(L, rel), Far(L, rel));
  }

  // ---- the adjacent pairs, one producer at a time ------------------------------------

  /** The adjacent pairs whose producer comes before layer i. */
  ghost function AdjacentBelow(L: seq<Layer>, i: nat): set<Pair>
    requires i <= |L|
  {
    if i == 0 then {}
    else
      var j := NextLayer(L, i - 1);
      if j < |L| && Reader(L, j, i - 1) then AdjacentBelow(L, i - 1) + {(i - 1, j)}
      else AdjacentBelow(L, i - 1)
  }

  lemma {:induction false} BelowIs(L: seq<Layer>, i: nat, x: Pair)
    requires i <= |L|
    ensures x in AdjacentBelow(L, i) <==> x.0 < i && x in AdjacentPairs(L)
  {
    if i > 0 { BelowIs(L, i - 1, x); }
  }

  lemma AdjacentBelowNext(L: seq<Layer>, i: nat)
    requires i < |L|
    ensures var j := NextLayer(L, i);
            AdjacentBelow(L, i + 1)
            == if j < |L| && Reader(L, j, i) then AdjacentBelow(L, i) + {(i, j)}
               else AdjacentBelow(L, i)
    ensures (i, NextLayer(L, i)) !in AdjacentBelow(L, i)
  {
    BelowIs(L, i, (i, NextLayer(L, i)));
  }

  /** How many of them there are, counted one producer at a time. */
  ghost function PairsBelow(L: seq<Layer>, i: nat): nat
    requires i <= |L|
  {
    if i == 0 then 0
    else
      var j := NextLayer(L, i - 1);
      PairsBelow(L, i - 1) + if j < |L| && Reader(L, j, i - 1) then 1 else 0
  }

  lemma {:induction false} PairsCounted(L: seq<Layer>, i: nat)
    requires i <= |L|
    ensures PairsBelow(L, i) == |AdjacentBelow(L, i)|
  {
    if i > 0 {
      PairsCounted(L, i - 1);
      BelowIs(L, i - 1, (i - 1, NextLayer(L, i - 1)));
    }
  }

  /** Of the adjacent pairs with a producer before layer i, each is wired or refused, not both. */
  ghost predicate Decided(L: seq<Layer>, i: nat, rel: set<Pair>, refused: set<Pair>)
    requires i <= |L|
  {
    && refused <= AdjacentBelow(L, i) && refused !! rel
    && AdjacentBelow(L, i) <= rel + refused
  }

  lemma DecidedNext(L: seq<Layer>, i: nat, rel: set<Pair>, refused: set<Pair>,
                    rel': set<Pair>, refused': set<Pair>)
    requires i < |L| && Decided(L, i, rel, refused)
    requires var j := NextLayer(L, i);
             if j < |L| && Reader(L, j, i) then
               (rel' == rel + {(i, j)} && refused' == refused)
               || (rel' == rel && refused' == refused + {(i, j)} && (i, j) !in rel)
             else rel' == rel && refused' == refused
    ensures Decided(L, i + 1, rel', refused')
  {
    AdjacentBelowNext(L, i);
  }

  /** Past a layer with no successor there is no adjacent pair. */
  lemma NoMorePairs(L: seq<Layer>, i: nat)
    requires i <= |L| && (i + 1 < |L| ==> NextLayer(L, i) == |L|)
    ensures AdjacentBelow(L, i) == AdjacentPairs(L)
  {
    forall x: Pair ensures x in AdjacentBelow(L, i) <==> x in AdjacentPairs(L) {
      BelowIs(L, i, x);
      assert x in AdjacentPairs(L) ==> Reader(L, x.1, x.0);
    }
  }

  /** Every adjacent pair is a join or in exactly one bucket, and so are its bytes. */
  lemma PairsBalance(L: seq<Layer>, S: State, refused: set<Pair>)
    requires Sized(L, S) && refused <= AdjacentPairs(L) && refused !! WiredPairs(L, S)
    requires AdjacentPairs(L) <= WiredPairs(L, S) + refused
    ensures refused == AdjacentPairs(L) - WiredPairs(L, S)
    ensures |AdjacentPairs(L)| == |Near(L, WiredPairs(L, S))| + |refused|
    ensures SumBytes(L, AdjacentPairs(L)) == SumBytes(L, Near(L, WiredPairs(L, S))) + SumBytes(L, refused)
  {
    var near := Near(L, WiredPairs(L, S));
    assert AdjacentPairs(L) == near + refused && near !! refused;
    SumBytesUnion(L, near, refused);
  }
}
