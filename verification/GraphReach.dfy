/** The plans the passes' decisions can reach under one setting of the knobs: all of them are
    sound, and all preserve meaning exactly when every wiring a pass may try first does. */
module GraphReach {
  import opened Options
  import opened GraphLayers
  import opened GraphCubes
  import opened GraphPlan
  import opened GraphBinding
  import opened GraphWiring
  import opened GraphConcat
  import opened GraphRefusals
  import opened GraphDecide
  import opened GraphRun
  import opened GraphExact
  import opened GraphRules

  // ---- a step keeps the plan sound ---------------------------------------------------

  lemma AddStepSound(L: seq<Layer>, K: Knobs, S: State, j: nat)
    requires Sound(L, S) && j < |L| && Wirable(L, K, Adds, S, j) && !S.cubeIn[j] && TwoOperands(L, j)
    ensures Sound(L, Link(L, S, AddWiring(L, j)))
  {
    var a, b := Src(L, j, 0), Src(L, j, 1);
    AddIsFree(L, S, j, a, b, Readers(L, a), Readers(L, b));
    AddTakenAgreed(L, S, j, a, b, Readers(L, a), Readers(L, b));
    AddWiringSound(L, S, j);
  }

  lemma ConcatStepSound(L: seq<Layer>, K: Knobs, S: State, j: nat)
    requires Sound(L, S) && j < |L| && Wirable(L, K, Concats, S, j)
    ensures Sound(L, Link(L, S, ConcatWiring(L, j)))
  {
    var s := Opers(L, j);
    var rds: seq<seq<nat>> :| AreReaders(L, j, s, rds) && ConcatTaken(L, j, s, rds, Readers(L, j));
    WholeIsIdle(L, K, S, j);
    assert ConcatEligible(L, S, j, s, rds, Readers(L, j)) by {
      forall k | 0 <= k < |s| ensures OperandFit(L, S, j, s, k) && ReadersFree(L, S, s[k], j) {
        assert OperandAsked(L, K, S, j, s, k) && FewFree(L, S, s[k], j);
      }
    }
    ConcatTakenAgreed(L, S, j, s, rds, Readers(L, j));
    ConcatWiringSound(L, S, j);
  }

  /** A producer all of whose readers are free leaves no cube. */
  lemma WholeIsIdle(L: seq<Layer>, K: Knobs, S: State, p: nat)
    requires Sound(L, S) && p < |L| && WholeAsked(L, K, S, p)
    ensures !S.cubeOut[p] && HasReader(L, p)
  {
    var r := Readers(L, p)[0];
    assert r in Readers(L, p);
    assert Reader(L, r, p) && OutOk(L, S, p);
    assert S.cubeOut[p] ==> Takes(L, S, r);
  }

  lemma TailStepSound(L: seq<Layer>, K: Knobs, S: State, i: nat)
    requires Sound(L, S) && i < |L| && Wirable(L, K, Tails, S, i)
    ensures Sound(L, Link(L, S, TailWiring(L, i)))
  {
    assert RowOk(L, i);
    IdleOut(L, S, i);
    WholeIsIdle(L, K, S, i);
    assert HandedCube(L, TailWiring(L, i), i) == TailView(L, i);
    TailWiringSound(L, S, i);
  }

  lemma ShareStepSound(L: seq<Layer>, K: Knobs, S: State, i: nat)
    requires Sound(L, S) && i < |L| && Wirable(L, K, Shares, S, i)
    ensures Sound(L, Link(L, S, SharedWiring(i)))
  {
    assert RowOk(L, i);
    WholeIsIdle(L, K, S, i);
    assert HandedCube(L, SharedWiring(i), i) == CubeOf(L, i, None);
    OwnSurfaceWiringSound(L, S, i, SharedWiring(i));
  }

  lemma PairStepSound(L: seq<Layer>, K: Knobs, S: State, i: nat)
    requires Sound(L, S) && i < |L| && Wirable(L, K, Pairs, S, i)
    ensures Sound(L, Link(L, S, PairWiring(i)))
  {
    var n := NextLayer(L, i);
    assert RowOk(L, i) && InOk(L, S, n);
    assert HandedCube(L, PairWiring(i), i) == CubeOf(L, i, None);
    forall r: nat | Reader(L, r, i) ensures r == n { OnlyReader(L, i, r); }
    OwnSurfaceWiringSound(L, S, i, PairWiring(i));
  }

  /** The add pass comes to an add before anything has bound it, and to no twin that it asks. */
  predicate Ready(L: seq<Layer>, pass: Pass, S: State, j: nat)
    requires Sized(L, S) && j < |L|
  {
    pass.Adds? && L[j].kind == Add ==> !S.cubeIn[j] && TwoOperands(L, j)
  }

  /** Wiring a layer the pass may wire leaves a sound plan sound. */
  lemma StepSound(L: seq<Layer>, K: Knobs, pass: Pass, S: State, j: nat)
    requires Sound(L, S) && j < |L| && Wirable(L, K, pass, S, j) && Ready(L, pass, S, j)
    ensures Sound(L, Link(L, S, WiringFor(L, pass, j)))
  {
    match pass
    case Adds => AddStepSound(L, K, S, j);
    case Concats => ConcatStepSound(L, K, S, j);
    case Tails => TailStepSound(L, K, S, j);
    case Shares => ShareStepSound(L, K, S, j);
    case Pairs => PairStepSound(L, K, S, j);
  }

  // ---- what a pass may wire it might have wired first --------------------------------

  /** Under these knobs a pass may wire layer j with nothing linked before. */
  ghost predicate Tried(L: seq<Layer>, K: Knobs, pass: Pass, j: nat)
    requires WellFormed(L)
  {
    j < |L| && Enabled(K, pass) && Wirable(L, K, pass, Unlinked(|L|), j)
  }

  /** No pass hands a surface to more than four readers, or to none. */
  lemma NotWhole(L: seq<Layer>, K: Knobs, S: State, p: nat)
    requires Sized(L, S) && (|Readers(L, p)| > 4 || !HasReader(L, p))
    ensures !WholeAsked(L, K, S, p)
  {
    assert forall r: nat :: r in Readers(L, p) ==> Reader(L, r, p);
    assert Readers(L, p) == [] || Readers(L, p)[0] in Readers(L, p);
  }

  /** What no pass may wire. */
  lemma NotTried(L: seq<Layer>, K: Knobs, pass: Pass, j: nat)
    requires WellFormed(L) && j < |L| && L[j].kind != Add && L[j].kind != Concat
    requires !WholeAsked(L, K, Unlinked(|L|), j) && (HasReader(L, j) ==> SkipSource(L, j))
    ensures !Tried(L, K, pass, j)
  {
    assert pass.Pairs? && Reader(L, NextLayer(L, j), j) ==> HasReader(L, j);
  }

  lemma WirableFirst(L: seq<Layer>, K: Knobs, pass: Pass, S: State, j: nat)
    requires Sound(L, S) && j < |L| && Wirable(L, K, pass, S, j)
    ensures Wirable(L, K, pass, Unlinked(|L|), j)
  {
    var U := Unlinked(|L|);
    if pass.Concats? {
      var s := Opers(L, j);
      forall k | 0 <= k < |s| ensures OperandAsked(L, K, U, j, s, k) && FewFree(L, U, s[k], j) {
        assert OperandAsked(L, K, S, j, s, k) && FewFree(L, S, s[k], j);
      }
    } else if pass.Tails? {
      IdleOut(L, S, j);
    }
  }

  // ---- every plan reached is sound, and made of such wirings -------------------------

  /** Some wiring a pass may try first makes layer p leave a cube. */
  ghost predicate MayLeave(L: seq<Layer>, K: Knobs, p: nat)
    requires WellFormed(L)
  {
    exists pass: Pass, j: nat :: Tried(L, K, pass, j) && p in WiringFor(L, pass, j).out
  }

  /** Some wiring a pass may try first makes layer r take one. */
  ghost predicate MayTake(L: seq<Layer>, K: Knobs, r: nat)
    requires WellFormed(L) && r < |L|
  {
    exists pass: Pass, j: nat :: Tried(L, K, pass, j) && TakesBy(L, WiringFor(L, pass, j), r)
  }

  ghost predicate Reached(L: seq<Layer>, K: Knobs, S: State) {
    && Sound(L, S)
    && (forall p: nat :: p < |L| && S.cubeOut[p] ==> MayLeave(L, K, p))
    && (forall r: nat :: r < |L| && Takes(L, S, r) ==> MayTake(L, K, r))
  }

  lemma StepReached(L: seq<Layer>, K: Knobs, pass: Pass, S: State, T: State, j: nat)
    requires Reached(L, K, S) && j < |L| && Enabled(K, pass)
    requires Wirable(L, K, pass, S, j) ==> Ready(L, pass, S, j)
    requires Decides(L, K, false, pass, S, T, j)
    ensures Reached(L, K, T)
  {
    if T != S {
      StepSound(L, K, pass, S, j);
      WirableFirst(L, K, pass, S, j);
      assert Tried(L, K, pass, j);
      var W := WiringFor(L, pass, j);
      forall p: nat | p < |L| && T.cubeOut[p] ensures MayLeave(L, K, p) { LinkedAt(L, S, W, p); }
      forall r: nat | r < |L| && Takes(L, T, r) ensures MayTake(L, K, r) { LinkedAt(L, S, W, r); }
    }
  }

  /** No add from i on is bound. */
  predicate Waiting(L: seq<Layer>, S: State, i: nat)
    requires Sized(L, S)
  {
    forall k :: i <= k < |L| && L[k].kind == Add ==> !S.cubeIn[k]
  }

  /** What a pass may rest on as it goes: the add pass, that the adds ahead are not bound, and
      that it asks no twin. */
  ghost predicate Begun(L: seq<Layer>, K: Knobs, pass: Pass, S: State, i: nat)
    requires WellFormed(L) && Sized(L, S)
  {
    pass.Adds? ==> Waiting(L, S, i) && TwinsIdle(L, K, false)
  }

  lemma BegunIsReady(L: seq<Layer>, K: Knobs, pass: Pass, S: State, i: nat)
    requires WellFormed(L) && Sized(L, S) && i < |L| && Begun(L, K, pass, S, i) && Enabled(K, pass)
    requires Wirable(L, K, pass, S, i)
    ensures Ready(L, pass, S, i)
  {
    assert pass.Adds? && L[i].kind == Add && !TwoOperands(L, i) ==> TwinIdle(L, K, false, i);
  }

  lemma StepBegun(L: seq<Layer>, K: Knobs, pass: Pass, S: State, T: State, i: nat)
    requires Sound(L, S) && Sound(L, T) && i < |L| && Begun(L, K, pass, S, i)
    requires Decides(L, K, false, pass, S, T, i)
    ensures Begun(L, K, pass, T, i + 1)
  {
    if pass.Adds? && T != S {
      LinkedAt(L, S, AddWiring(L, i), i);
      AddTouchesOnly(L, S, i, T);
    }
  }

  lemma {:induction false} TraceReached(L: seq<Layer>, K: Knobs, pass: Pass, t: seq<State>, n: nat, k: nat)
    requires WellFormed(L) && Trace(L, K, false, pass, t, n) && k <= n && Enabled(K, pass)
    requires Reached(L, K, t[0]) && Begun(L, K, pass, t[0], 0)
    ensures Reached(L, K, t[k]) && Begun(L, K, pass, t[k], k)
  {
    if k > 0 {
      TraceReached(L, K, pass, t, n, k - 1);
      assert StepAt(L, K, false, pass, t, k - 1);
      if Wirable(L, K, pass, t[k - 1], k - 1) { BegunIsReady(L, K, pass, t[k - 1], k - 1); }
      StepReached(L, K, pass, t[k - 1], t[k], k - 1);
      StepBegun(L, K, pass, t[k - 1], t[k], k - 1);
    }
  }

  lemma PassReached(L: seq<Layer>, K: Knobs, pass: Pass, S: State, T: State)
    requires Reached(L, K, S) && Begun(L, K, pass, S, 0) && Ends(L, K, false, pass, S, T)
    ensures Reached(L, K, T)
  {
    if Enabled(K, pass) {
      var t: seq<State> :| Trace(L, K, false, pass, t, |L|) && t[0] == S && t[|L|] == T;
      TraceReached(L, K, pass, t, |L|, |L|);
    }
  }

  /** Every plan the decisions allow is sound, whatever the library refused on the way. */
  lemma PlannedReached(L: seq<Layer>, K: Knobs, T: State)
    requires WellFormed(L) && TwinsIdle(L, K, false) && Planned(L, K, false, T)
    ensures Reached(L, K, T)
  {
    var A: State, B: State, C: State, D: State :|
      && Sized(L, A) && Sized(L, B) && Sized(L, C) && Sized(L, D)
      && Ends(L, K, false, Adds, Unlinked(|L|), A) && Ends(L, K, false, Concats, A, B)
      && Ends(L, K, false, Tails, B, C) && Ends(L, K, false, Shares, C, D)
      && Ends(L, K, false, Pairs, D, T);
    UnlinkedSound(L);
    PassReached(L, K, Adds, Unlinked(|L|), A);
    PassReached(L, K, Concats, A, B);
    PassReached(L, K, Tails, B, C);
    PassReached(L, K, Shares, C, D);
    PassReached(L, K, Pairs, D, T);
  }

  // ---- and any one of those wirings is a plan reached --------------------------------

  lemma MayRefuse(L: seq<Layer>, K: Knobs, pass: Pass, S: State, i: nat)
    requires WellFormed(L) && Sized(L, S) && i < |L|
    ensures Decides(L, K, false, pass, S, S, i)
  {
  }

  lemma PassStays(L: seq<Layer>, K: Knobs, pass: Pass, S: State)
    requires WellFormed(L) && Sized(L, S)
    ensures Ends(L, K, false, pass, S, S)
  {
    var t := seq(|L| + 1, _ => S);
    forall i: nat | i < |L| ensures StepAt(L, K, false, pass, t, i) {
      MayRefuse(L, K, pass, S, i);
    }
    assert Trace(L, K, false, pass, t, |L|);
  }

  /** A library that may refuse anything may agree to one layer of a pass alone. */
  lemma PassTakesOne(L: seq<Layer>, K: Knobs, pass: Pass, S: State, j: nat)
    requires WellFormed(L) && Sized(L, S) && j < |L| && Enabled(K, pass) && Wirable(L, K, pass, S, j)
    ensures Ends(L, K, false, pass, S, Link(L, S, WiringFor(L, pass, j)))
  {
    var T := Link(L, S, WiringFor(L, pass, j));
    assert Decides(L, K, false, pass, S, T, j);
    OneStep(L, K, pass, S, T, j);
  }

  lemma OneStep(L: seq<Layer>, K: Knobs, pass: Pass, S: State, T: State, j: nat)
    requires WellFormed(L) && Sized(L, S) && Sized(L, T) && j < |L| && Enabled(K, pass)
    requires Decides(L, K, false, pass, S, T, j)
    ensures Ends(L, K, false, pass, S, T)
  {
    var t := seq(|L| + 1, i requires 0 <= i <= |L| => if i <= j then S else T);
    forall i: nat | i < |L| ensures StepAt(L, K, false, pass, t, i) {
      if i < j { MayRefuse(L, K, pass, S, i); } else if i > j { MayRefuse(L, K, pass, T, i); }
    }
    assert Trace(L, K, false, pass, t, |L|) && t[0] == S && t[|L|] == T;
  }

  lemma TriedIsPlanned(L: seq<Layer>, K: Knobs, pass: Pass, j: nat)
    requires WellFormed(L) && Tried(L, K, pass, j)
    ensures Planned(L, K, false, Link(L, Unlinked(|L|), WiringFor(L, pass, j)))
  {
    var U, T := Unlinked(|L|), Link(L, Unlinked(|L|), WiringFor(L, pass, j));
    PassTakesOne(L, K, pass, U, j);
    forall p: Pass ensures Ends(L, K, false, p, U, U) && Ends(L, K, false, p, T, T) {
      PassStays(L, K, p, U);
      PassStays(L, K, p, T);
    }
    var A := if pass.Adds? then T else U;
    var B := if pass.Concats? then T else A;
    var C := if pass.Tails? then T else B;
    var D := if pass.Shares? then T else C;
    assert Ends(L, K, false, Adds, U, A) && Ends(L, K, false, Concats, A, B);
    assert Ends(L, K, false, Tails, B, C) && Ends(L, K, false, Shares, C, D);
    assert Ends(L, K, false, Pairs, D, T);
  }

  // ---- the rule of a table under its knobs -------------------------------------------

  /** Every wiring a pass may try first is harmless. */
  ghost predicate KnobRule(L: seq<Layer>, K: Knobs)
    requires WellFormed(L)
  {
    forall pass: Pass, j: nat :: Tried(L, K, pass, j) ==> Harmless(L, WiringFor(L, pass, j))
  }

  /** Only its own wiring makes a concatenation placement. */
  lemma PlacesItself(L: seq<Layer>, K: Knobs, pass: Pass, i: nat, j: nat)
    requires WellFormed(L) && Tried(L, K, pass, i) && j < |L| && L[j].kind == Concat
    requires j in WiringFor(L, pass, i).out
    ensures pass == Concats && i == j
  {
    assert RowOk(L, j);
    if pass.Concats? {
      var s := Opers(L, i);
      forall k | 0 <= k < |s| ensures s[k] != j {
        assert OperandAsked(L, K, Unlinked(|L|), i, s, k);
      }
    }
  }

  lemma OvertakenIsTried(L: seq<Layer>, K: Knobs, T: State, j: nat, k: nat, r: nat)
    returns (pass: Pass, i: nat)
    requires Reached(L, K, T) && Overtaken(L, T, j, k, r)
    ensures Tried(L, K, pass, i) && Late(L, WiringFor(L, pass, i), j, k, r)
  {
    assert MayLeave(L, K, j);
    pass, i :| Tried(L, K, pass, i) && j in WiringFor(L, pass, i).out;
    PlacesItself(L, K, pass, i, j);
    TakerHasHandle(L, T, r);
  }

  lemma ReachedIsFaithful(L: seq<Layer>, K: Knobs, T: State)
    requires Reached(L, K, T) && KnobRule(L, K)
    ensures Faithful(L, T)
  {
    forall p: nat, h: nat | p < |L| && T.cubeOut[p] ensures !HostReader(L, h, p) {
      var pass: Pass, j: nat :| Tried(L, K, pass, j) && p in WiringFor(L, pass, j).out;
      assert Harmless(L, WiringFor(L, pass, j));
    }
    forall r: nat | r < |L| && Takes(L, T, r) ensures !L[r].hostInput {
      var pass: Pass, j: nat :| Tried(L, K, pass, j) && TakesBy(L, WiringFor(L, pass, j), r);
      assert Harmless(L, WiringFor(L, pass, j));
    }
    forall j: nat, k: nat, r: nat | Overtaken(L, T, j, k, r) ensures false {
      var pass, i := OvertakenIsTried(L, K, T, j, k, r);
    }
    FaithfulExactly(L, T);
  }

  /** Under one setting of the knobs, every plan the passes can reach preserves meaning exactly
      when every single wiring one of them may try first is harmless. */
  lemma ReachableExactly(L: seq<Layer>, K: Knobs)
    requires WellFormed(L) && TwinsIdle(L, K, false)
    ensures (forall T: State :: Planned(L, K, false, T) ==> Sound(L, T) && Faithful(L, T))
            <==> KnobRule(L, K)
  {
    if KnobRule(L, K) {
      forall T: State | Planned(L, K, false, T) ensures Sound(L, T) && Faithful(L, T) {
        PlannedReached(L, K, T);
        ReachedIsFaithful(L, K, T);
      }
    } else {
      var pass: Pass, j: nat :| Tried(L, K, pass, j) && !Harmless(L, WiringFor(L, pass, j));
      TriedIsPlanned(L, K, pass, j);
      PlannedReached(L, K, Link(L, Unlinked(|L|), WiringFor(L, pass, j)));
      HarmShows(L, WiringFor(L, pass, j));
    }
  }
}
