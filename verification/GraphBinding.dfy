/** Handing one cube to a list of readers, as a function of the state before. */
module GraphBinding {
  import opened Options
  import opened GraphLayers
  import opened GraphCubes
  import opened GraphAccounting

  predicate Indices(n: nat, rs: seq<nat>) {
    forall k :: 0 <= k < |rs| ==> rs[k] < n
  }

  lemma ReadersIndexed(L: seq<Layer>, p: nat)
    ensures Indices(|L|, Readers(L, p))
    ensures forall r: nat :: Reader(L, r, p) ==>
              exists k :: 0 <= k < |Readers(L, p)| && Readers(L, p)[k] == r
  {
    var s := Readers(L, p);
    forall k | 0 <= k < |s| ensures s[k] < |L| { assert s[k] in s; }
    forall r: nat | Reader(L, r, p) ensures exists k :: 0 <= k < |s| && s[k] == r { assert r in s; }
  }

  /** Every reader in the list but `except`, bound in turn to c. */
  function Bound(hs: seq<Handle>, rs: seq<nat>, except: nat, c: Cube): (t: seq<Handle>)
    requires Indices(|hs|, rs)
    ensures |t| == |hs|
  {
    if rs == [] then hs
    else
      var t := Bound(hs, rs[..|rs| - 1], except, c);
      var r := rs[|rs| - 1];
      if r == except then t else t[r := t[r].(source := Some(c))]
  }

  /** Their flags raised. */
  function Marked(bs: seq<bool>, rs: seq<nat>, except: nat): (t: seq<bool>)
    requires Indices(|bs|, rs)
    ensures |t| == |bs|
  {
    if rs == [] then bs
    else
      var t := Marked(bs, rs[..|rs| - 1], except);
      var r := rs[|rs| - 1];
      if r == except then t else t[r := true]
  }

  /** Their relations to producer p added. */
  ghost function Related(rel: set<Pair>, p: nat, rs: seq<nat>, except: nat): set<Pair> {
    if rs == [] then rel
    else
      var t := Related(rel, p, rs[..|rs| - 1], except);
      var r := rs[|rs| - 1];
      if r == except then t else t + {(p, r)}
  }

  /** A list of one reader. */
  lemma OneReader(hs: seq<Handle>, bs: seq<bool>, rel: set<Pair>, p: nat, r: nat, except: nat, c: Cube)
    requires |hs| == |bs| && r < |hs| && r != except
    ensures Bound(hs, [r], except, c) == hs[r := hs[r].(source := Some(c))]
    ensures Marked(bs, [r], except) == bs[r := true]
    ensures Related(rel, p, [r], except) == rel + {(p, r)}
  {
    assert [r][..0] == [];
  }

  lemma {:induction false} BoundAt(hs: seq<Handle>, rs: seq<nat>, except: nat, c: Cube, i: nat)
    requires Indices(|hs|, rs) && i < |hs|
    ensures Bound(hs, rs, except, c)[i]
            == if i in rs && i != except then hs[i].(source := Some(c)) else hs[i]
  {
    if rs != [] {
      BoundAt(hs, rs[..|rs| - 1], except, c, i);
      assert rs == rs[..|rs| - 1] + [rs[|rs| - 1]];
    }
  }

  lemma {:induction false} MarkedAt(bs: seq<bool>, rs: seq<nat>, except: nat, i: nat)
    requires Indices(|bs|, rs) && i < |bs|
    ensures Marked(bs, rs, except)[i] == (bs[i] || (i in rs && i != except))
  {
    if rs != [] {
      MarkedAt(bs, rs[..|rs| - 1], except, i);
      assert rs == rs[..|rs| - 1] + [rs[|rs| - 1]];
    }
  }

  lemma {:induction false} RelatedIs(rel: set<Pair>, p: nat, rs: seq<nat>, except: nat, x: Pair)
    ensures x in Related(rel, p, rs, except)
            <==> x in rel || (x.0 == p && x.1 in rs && x.1 != except)
  {
    if rs != [] {
      RelatedIs(rel, p, rs[..|rs| - 1], except, x);
      assert rs == rs[..|rs| - 1] + [rs[|rs| - 1]];
    }
  }

  // ---- taking it apart again ---------------------------------------------------------

  /** Every reader in the list but `except` whose flag in `was` is raised, unbound in turn. */
  function Cleared(hs: seq<Handle>, was: seq<bool>, rs: seq<nat>, except: nat): (t: seq<Handle>)
    requires |hs| == |was| && Indices(|hs|, rs)
    ensures |t| == |hs|
  {
    if rs == [] then hs
    else
      var t := Cleared(hs, was, rs[..|rs| - 1], except);
      var r := rs[|rs| - 1];
      if r == except || !was[r] then t else t[r := t[r].(source := None)]
  }

  function Unmarked(was: seq<bool>, rs: seq<nat>, except: nat): (t: seq<bool>)
    requires Indices(|was|, rs)
    ensures |t| == |was|
  {
    if rs == [] then was
    else
      var t := Unmarked(was, rs[..|rs| - 1], except);
      var r := rs[|rs| - 1];
      if r == except || !was[r] then t else t[r := false]
  }

  ghost function Unrelated(rel: set<Pair>, was: seq<bool>, p: nat, rs: seq<nat>, except: nat)
    : set<Pair>
    requires Indices(|was|, rs)
  {
    if rs == [] then rel
    else
      var t := Unrelated(rel, was, p, rs[..|rs| - 1], except);
      var r := rs[|rs| - 1];
      if r == except || !was[r] then t else t - {(p, r)}
  }

  lemma {:induction false} ClearedAt(hs: seq<Handle>, was: seq<bool>, rs: seq<nat>, except: nat, i: nat)
    requires |hs| == |was| && Indices(|hs|, rs) && i < |hs|
    ensures Cleared(hs, was, rs, except)[i]
            == if i in rs && i != except && was[i] then hs[i].(source := None) else hs[i]
  {
    if rs != [] {
      ClearedAt(hs, was, rs[..|rs| - 1], except, i);
      assert rs == rs[..|rs| - 1] + [rs[|rs| - 1]];
    }
  }

  lemma {:induction false} UnmarkedAt(was: seq<bool>, rs: seq<nat>, except: nat, i: nat)
    requires Indices(|was|, rs) && i < |was|
    ensures Unmarked(was, rs, except)[i] == (was[i] && !(i in rs && i != except))
  {
    if rs != [] {
      UnmarkedAt(was, rs[..|rs| - 1], except, i);
      assert rs == rs[..|rs| - 1] + [rs[|rs| - 1]];
    }
  }

  lemma {:induction false} UnrelatedIs(rel: set<Pair>, was: seq<bool>, p: nat, rs: seq<nat>,
                                       except: nat, x: Pair)
    requires Indices(|was|, rs)
    ensures x in Unrelated(rel, was, p, rs, except)
            <==> x in rel && !(x.0 == p && x.1 in rs && x.1 != except && was[x.1])
  {
    if rs != [] {
      UnrelatedIs(rel, was, p, rs[..|rs| - 1], except, x);
      assert rs == rs[..|rs| - 1] + [rs[|rs| - 1]];
    }
  }

  /** However far the binding got, clearing the whole list undoes exactly that. */
  lemma ClearingUndoesBinding(hs: seq<Handle>, bs: seq<bool>, rel: set<Pair>, p: nat,
                              rs: seq<nat>, n: nat, except: nat, c: Cube)
    requires |hs| == |bs| && Indices(|hs|, rs) && n <= |rs|
    requires forall r: nat :: r in rs && r != except && r < |hs| ==>
               !bs[r] && hs[r].source == None && (p, r) !in rel
    ensures Indices(|hs|, rs[..n])
    ensures var done := rs[..n];
            var marks := Marked(bs, done, except);
            && Cleared(Bound(hs, done, except, c), marks, rs, except) == hs
            && Unmarked(marks, rs, except) == bs
            && Unrelated(Related(rel, p, done, except), marks, p, rs, except) == rel
  {
    var done := rs[..n];
    var marks := Marked(bs, done, except);
    var bound := Bound(hs, done, except, c);
    var related := Related(rel, p, done, except);
    assert forall r :: r in done ==> r in rs;
    forall i: nat | i < |hs|
      ensures Cleared(bound, marks, rs, except)[i] == hs[i]
      ensures Unmarked(marks, rs, except)[i] == bs[i]
    {
      BoundAt(hs, done, except, c, i);
      MarkedAt(bs, done, except, i);
      ClearedAt(bound, marks, rs, except, i);
      UnmarkedAt(marks, rs, except, i);
      if i in rs && i != except && !(i in done) { assert !marks[i]; }
    }
    forall x: Pair ensures x in Unrelated(related, marks, p, rs, except) <==> x in rel {
      RelatedIs(rel, p, done, except, x);
      UnrelatedIs(related, marks, p, rs, except, x);
      if x.0 == p && x.1 in rs { 
        var k :| 0 <= k < |rs| && rs[k] == x.1;
        MarkedAt(bs, done, except, x.1);
      }
    }
  }

  predicate Apart(rs: seq<nat>, ts: seq<nat>, except: nat) {
    forall r :: r in rs && r in ts ==> r == except
  }

  /** The reader lists of an add's two operands: apart, or one list of one layer. */
  predicate Lanes(a: nat, b: nat, ra: seq<nat>, rb: seq<nat>, except: nat) {
    if a == b then ra == rb else Apart(ra, rb, except)
  }

  /** How many readers in the list are not `except`. */
  function Others(rs: seq<nat>, except: nat): nat {
    if rs == [] then 0
    else Others(rs[..|rs| - 1], except) + if rs[|rs| - 1] == except then 0 else 1
  }

  /** How many readers in the list but `except` are flagged. */
  function Flagged(bs: seq<bool>, rs: seq<nat>, except: nat): nat
    requires Indices(|bs|, rs)
  {
    if rs == [] then 0
    else
      Flagged(bs, rs[..|rs| - 1], except)
      + if rs[|rs| - 1] != except && bs[rs[|rs| - 1]] then 1 else 0
  }

  lemma {:induction false} FlaggedPrefix(bs: seq<bool>, rs: seq<nat>, except: nat, n: nat)
    requires Indices(|bs|, rs) && n <= |rs|
    requires forall k :: 0 <= k < |rs| && rs[k] != except ==> (bs[rs[k]] <==> k < n)
    ensures Flagged(bs, rs, except) == Others(rs[..n], except)
  {
    if rs != [] {
      var m := |rs| - 1;
      FlaggedPrefix(bs, rs[..m], except, if n <= m then n else m);
      if n <= m { assert rs[..m][..n] == rs[..n]; } else { assert rs[..m][..m] == rs[..m] && rs[..n] == rs; }
    }
  }

  lemma {:induction false} RelatedGrows(rel: set<Pair>, p: nat, rs: seq<nat>, except: nat)
    ensures |Related(rel, p, rs, except)| <= |rel| + Others(rs, except)
  {
    if rs != [] {
      var n := |rs| - 1;
      RelatedGrows(rel, p, rs[..n], except);
    }
  }

  lemma {:induction false} RelatedAgain(rel: set<Pair>, p: nat, rs: seq<nat>, except: nat)
    ensures Related(Related(rel, p, rs, except), p, rs, except) == Related(rel, p, rs, except)
  {
    var once := Related(rel, p, rs, except);
    forall x: Pair ensures x in Related(once, p, rs, except) <==> x in once {
      RelatedIs(rel, p, rs, except, x);
      RelatedIs(once, p, rs, except, x);
    }
  }

  /** Two producers with no reader in common but `except` may be bound in either order. */
  lemma BindingsCommute(hs: seq<Handle>, bs: seq<bool>, rel: set<Pair>, except: nat,
                        p: nat, rs: seq<nat>, c: Cube, q: nat, ts: seq<nat>, d: Cube)
    requires |hs| == |bs| && Indices(|hs|, rs) && Indices(|hs|, ts) && Apart(rs, ts, except)
    ensures Bound(Bound(hs, rs, except, c), ts, except, d)
            == Bound(Bound(hs, ts, except, d), rs, except, c)
    ensures Marked(Marked(bs, rs, except), ts, except) == Marked(Marked(bs, ts, except), rs, except)
    ensures Related(Related(rel, p, rs, except), q, ts, except)
            == Related(Related(rel, q, ts, except), p, rs, except)
  {
    forall i: nat | i < |hs|
      ensures Bound(Bound(hs, rs, except, c), ts, except, d)[i]
              == Bound(Bound(hs, ts, except, d), rs, except, c)[i]
    {
      BoundAt(hs, rs, except, c, i);
      BoundAt(Bound(hs, rs, except, c), ts, except, d, i);
      BoundAt(hs, ts, except, d, i);
      BoundAt(Bound(hs, ts, except, d), rs, except, c, i);
    }
    forall i: nat | i < |hs|
      ensures Marked(Marked(bs, rs, except), ts, except)[i]
              == Marked(Marked(bs, ts, except), rs, except)[i]
    {
      MarkedAt(bs, rs, except, i);
      MarkedAt(Marked(bs, rs, except), ts, except, i);
      MarkedAt(bs, ts, except, i);
      MarkedAt(Marked(bs, ts, except), rs, except, i);
    }
    forall x: Pair
      ensures x in Related(Related(rel, p, rs, except), q, ts, except)
              <==> x in Related(Related(rel, q, ts, except), p, rs, except)
    {
      RelatedIs(rel, p, rs, except, x);
      RelatedIs(Related(rel, p, rs, except), q, ts, except, x);
      RelatedIs(rel, q, ts, except, x);
      RelatedIs(Related(rel, q, ts, except), p, rs, except, x);
    }
  }

  /** Binding one producer's readers touches no reader of another. */
  lemma StillUntouched(hs: seq<Handle>, bs: seq<bool>, rel: set<Pair>, except: nat,
                       p: nat, rs: seq<nat>, c: Cube, q: nat, r: nat)
    requires |hs| == |bs| && Indices(|hs|, rs) && r < |hs| && r !in rs && p != q
    ensures Bound(hs, rs, except, c)[r] == hs[r] && Marked(bs, rs, except)[r] == bs[r]
    ensures (q, r) in Related(rel, p, rs, except) <==> (q, r) in rel
  {
    BoundAt(hs, rs, except, c, r);
    MarkedAt(bs, rs, except, r);
    RelatedIs(rel, p, rs, except, (q, r));
  }

  /** Two producers bound, the second only in part, and both lists cleared. */
  lemma ClearingUndoesBoth(hs: seq<Handle>, bs: seq<bool>, rel: set<Pair>, except: nat,
                           p: nat, rs: seq<nat>, n: nat, c: Cube,
                           q: nat, ts: seq<nat>, m: nat, d: Cube)
    requires |hs| == |bs| && Indices(|hs|, rs) && Indices(|hs|, ts) && Apart(rs, ts, except)
    requires p != q && n <= |rs| && m <= |ts|
    requires forall r: nat :: r in rs && r != except && r < |hs| ==>
               !bs[r] && hs[r].source == None && (p, r) !in rel
    requires forall r: nat :: r in ts && r != except && r < |hs| ==>
               !bs[r] && hs[r].source == None && (q, r) !in rel
    ensures Indices(|hs|, rs[..n]) && Indices(|hs|, ts[..m])
    ensures var h2 := Bound(Bound(hs, rs[..n], except, c), ts[..m], except, d);
            var b2 := Marked(Marked(bs, rs[..n], except), ts[..m], except);
            var r2 := Related(Related(rel, p, rs[..n], except), q, ts[..m], except);
            var h1, b1 := Cleared(h2, b2, rs, except), Unmarked(b2, rs, except);
            && Cleared(h1, b1, ts, except) == hs
            && Unmarked(b1, ts, except) == bs
            && Unrelated(Unrelated(r2, b2, p, rs, except), b1, q, ts, except) == rel
  {
    var hq, bq := Bound(hs, ts[..m], except, d), Marked(bs, ts[..m], except);
    var rq := Related(rel, q, ts[..m], except);
    assert forall r :: r in ts[..m] ==> r in ts;
    assert forall r :: r in rs[..n] ==> r in rs;
    BindingsCommute(hs, bs, rel, except, p, rs[..n], c, q, ts[..m], d);
    forall r: nat | r in rs && r != except && r < |hs|
      ensures !bq[r] && hq[r].source == None && (p, r) !in rq
    {
      StillUntouched(hs, bs, rel, except, q, ts[..m], d, p, r);
    }
    ClearingUndoesBinding(hq, bq, rq, p, rs, n, except, c);
    ClearingUndoesBinding(hs, bs, rel, q, ts, m, except, d);
  }

  /** One list bound twice, the first time up to n: what is flagged is the longer of the two. */
  lemma FlaggedOnce(bs: seq<bool>, rs: seq<nat>, except: nat, n: nat, m: nat)
    requires Increasing(rs) && Indices(|bs|, rs) && m <= n <= |rs|
    requires forall r: nat :: r in rs && r != except && r < |bs| ==> !bs[r]
    ensures Indices(|bs|, rs[..n]) && Indices(|bs|, rs[..m])
    ensures Flagged(Marked(Marked(bs, rs[..n], except), rs[..m], except), rs, except)
            == Others(rs[..n], except)
    ensures Flagged(bs, rs, except) == 0
  {
    var b1 := Marked(bs, rs[..n], except);
    var b2 := Marked(b1, rs[..m], except);
    forall k | 0 <= k < |rs| && rs[k] != except ensures b2[rs[k]] <==> k < n {
      MarkedAt(bs, rs[..n], except, rs[k]);
      MarkedAt(b1, rs[..m], except, rs[k]);
      assert k < n ==> rs[..n][k] == rs[k];
      if rs[k] in rs[..n] { var i :| 0 <= i < n && rs[i] == rs[k]; }
      assert rs[k] in rs[..m] ==> rs[k] in rs[..n];
    }
    FlaggedPrefix(b2, rs, except, n);
    FlaggedPrefix(bs, rs, except, 0);
    assert rs[..0] == [];
  }

  /** Taking one list apart undoes two bindings of it, and leaves nothing for a second time. */
  lemma ClearingUndoesTwice(hs: seq<Handle>, bs: seq<bool>, rel: set<Pair>, except: nat,
                            p: nat, rs: seq<nat>, n: nat, c: Cube, m: nat, d: Cube)
    requires |hs| == |bs| && Indices(|hs|, rs) && n <= |rs| && m <= |rs|
    requires forall r: nat :: r in rs && r != except && r < |hs| ==>
               !bs[r] && hs[r].source == None && (p, r) !in rel
    ensures Indices(|hs|, rs[..n]) && Indices(|hs|, rs[..m])
    ensures var h2 := Bound(Bound(hs, rs[..n], except, c), rs[..m], except, d);
            var b2 := Marked(Marked(bs, rs[..n], except), rs[..m], except);
            var r2 := Related(Related(rel, p, rs[..n], except), p, rs[..m], except);
            && Cleared(h2, b2, rs, except) == hs && Unmarked(b2, rs, except) == bs
            && Unrelated(r2, b2, p, rs, except) == rel
    ensures Cleared(hs, bs, rs, except) == hs && Unmarked(bs, rs, except) == bs
    ensures Unrelated(rel, bs, p, rs, except) == rel
  {
    assert forall r :: r in rs[..n] || r in rs[..m] ==> r in rs;
    var h1, b1, r1 := Bound(hs, rs[..n], except, c), Marked(bs, rs[..n], except), Related(rel, p, rs[..n], except);
    var h2, b2, r2 := Bound(h1, rs[..m], except, d), Marked(b1, rs[..m], except), Related(r1, p, rs[..m], except);
    forall i: nat | i < |hs|
      ensures Cleared(h2, b2, rs, except)[i] == hs[i] && Unmarked(b2, rs, except)[i] == bs[i]
    {
      BoundAt(hs, rs[..n], except, c, i);
      BoundAt(h1, rs[..m], except, d, i);
      MarkedAt(bs, rs[..n], except, i);
      MarkedAt(b1, rs[..m], except, i);
      ClearedAt(h2, b2, rs, except, i);
      UnmarkedAt(b2, rs, except, i);
    }
    forall x: Pair ensures x in Unrelated(r2, b2, p, rs, except) <==> x in rel {
      RelatedIs(rel, p, rs[..n], except, x);
      RelatedIs(r1, p, rs[..m], except, x);
      UnrelatedIs(r2, b2, p, rs, except, x);
      if x.1 < |hs| {
        MarkedAt(bs, rs[..n], except, x.1);
        MarkedAt(b1, rs[..m], except, x.1);
      }
    }
    ClearingUndoesBinding(hs, bs, rel, p, rs, 0, except, c);
    assert rs[..0] == [];
  }

  /** Whatever of a producer's readers is flagged has been counted with it. */
  ghost predicate FlaggedCounted(bs: seq<bool>, rel: set<Pair>, p: nat, rs: seq<nat>, except: nat)
    requires Indices(|bs|, rs)
  {
    forall k :: 0 <= k < |rs| && rs[k] != except && bs[rs[k]] ==> (p, rs[k]) in rel
  }

  lemma BothFlaggedCounted(hs: seq<Handle>, bs: seq<bool>, rel: set<Pair>, except: nat,
                           p: nat, rs: seq<nat>, n: nat, q: nat, ts: seq<nat>, m: nat)
    requires |hs| == |bs| && Indices(|hs|, rs) && Indices(|hs|, ts) && Apart(rs, ts, except)
    requires p != q && n <= |rs| && m <= |ts|
    requires forall r: nat :: r in rs && r != except && r < |hs| ==> !bs[r]
    requires forall r: nat :: r in ts && r != except && r < |hs| ==> !bs[r]
    ensures Indices(|hs|, rs[..n]) && Indices(|hs|, ts[..m])
    ensures var b2 := Marked(Marked(bs, rs[..n], except), ts[..m], except);
            var r2 := Related(Related(rel, p, rs[..n], except), q, ts[..m], except);
            && FlaggedCounted(b2, r2, p, rs, except)
            && FlaggedCounted(Unmarked(b2, rs, except), Unrelated(r2, b2, p, rs, except), q, ts, except)
  {
    var bp, rp := Marked(bs, rs[..n], except), Related(rel, p, rs[..n], except);
    var b2, r2 := Marked(bp, ts[..m], except), Related(rp, q, ts[..m], except);
    assert forall r :: r in ts[..m] ==> r in ts;
    assert forall r :: r in rs[..n] ==> r in rs;
    forall k | 0 <= k < |rs| && rs[k] != except && b2[rs[k]] ensures (p, rs[k]) in r2 {
      var r := rs[k];
      assert r in rs;
      MarkedAt(bs, rs[..n], except, r);
      MarkedAt(bp, ts[..m], except, r);
      RelatedIs(rel, p, rs[..n], except, (p, r));
      RelatedIs(rp, q, ts[..m], except, (p, r));
    }
    forall k | 0 <= k < |ts| && ts[k] != except && Unmarked(b2, rs, except)[ts[k]]
      ensures (q, ts[k]) in Unrelated(r2, b2, p, rs, except)
    {
      var r := ts[k];
      assert r in ts;
      UnmarkedAt(b2, rs, except, r);
      MarkedAt(bs, rs[..n], except, r);
      MarkedAt(bp, ts[..m], except, r);
      RelatedIs(rp, q, ts[..m], except, (q, r));
      UnrelatedIs(r2, b2, p, rs, except, (q, r));
    }
  }

  // ---- bindings a refusal may have cut short -----------------------------------------

  /** Every reader in the list but `except` back on a row-major input. */
  function Unbound(hs: seq<Handle>, rs: seq<nat>, except: nat): (t: seq<Handle>)
    requires Indices(|hs|, rs)
    ensures |t| == |hs|
  {
    if rs == [] then hs
    else
      var t := Unbound(hs, rs[..|rs| - 1], except);
      var r := rs[|rs| - 1];
      if r == except then t else t[r := t[r].(source := None)]
  }

  lemma {:induction false} UnboundAt(hs: seq<Handle>, rs: seq<nat>, except: nat, i: nat)
    requires Indices(|hs|, rs) && i < |hs|
    ensures Unbound(hs, rs, except)[i]
            == if i in rs && i != except then hs[i].(source := None) else hs[i]
  {
    if rs != [] {
      UnboundAt(hs, rs[..|rs| - 1], except, i);
      assert rs == rs[..|rs| - 1] + [rs[|rs| - 1]];
    }
  }

  /** t is h with nothing changed but the inputs of layers in R and the outputs of layers in P. */
  predicate Loosened(h: seq<Handle>, t: seq<Handle>, R: set<nat>, P: set<nat>) {
    && |h| == |t|
    && forall i :: 0 <= i < |h| ==>
         && (i !in R ==> t[i].source == h[i].source)
         && (i !in P ==> t[i].dest == h[i].dest && t[i].leaves == h[i].leaves)
         && t[i].shared == h[i].shared
  }

  lemma LoosenedFurther(h: seq<Handle>, t: seq<Handle>, u: seq<Handle>,
                        R: set<nat>, P: set<nat>, R': set<nat>, P': set<nat>)
    requires Loosened(h, t, R, P) && Loosened(t, u, R', P') && R' <= R && P' <= P
    ensures Loosened(h, u, R, P)
  {
  }
}
