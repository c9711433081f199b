/** The planner as a function of what the library answers: what each pass asks of a layer before
    it asks the library, what everyone concerned would have to agree to, and the plans a pass
    can end in. A library that refuses only what its contracts let it leaves one. */
module GraphDecide {
  import opened Options
  import opened GraphLayers
  import opened GraphCubes
  import opened GraphPlan
  import opened GraphBinding
  import opened GraphWiring
  import opened GraphConcat
  import opened GraphRefusals

  // ---- an add ------------------------------------------------------------------------

  /** Producer p may be placed for `except`, its other readers permitting. */
  ghost predicate Placeable(L: seq<Layer>, p: nat, except: nat) {
    && p < |L| && L[p].resident && !L[p].hostInput && |Readers(L, p)| <= 4
    && forall r: nat :: Reader(L, r, p) && r != except ==> ConsumerOk(L[r])
  }

  /** What the pass asks of add j before it asks the library anything: one operand comes from
      the layer just before, both producers run on the part unprepared, and no more than four
      layers read either, all of which could take a cube. Not whether they are two, and not
      whether the add's own input is prepared. */
  ghost predicate AddAsked(L: seq<Layer>, K: Knobs, j: nat)
    requires WellFormed(L) && j < |L| && L[j].kind == Add
  {
    var a, b := Src(L, j, 0), Src(L, j, 1);
    && a != NO_SRC && b != NO_SRC && (a + 1 == j || b + 1 == j)
    && !ForcedBy(K, a) && !ForcedBy(K, b)
    && L[j].resident && Placeable(L, a, j) && Placeable(L, b, j)
  }

  /** Everyone add j needs would agree. */
  ghost predicate AddTakes(L: seq<Layer>, j: nat)
    requires WellFormed(L) && j < |L| && L[j].kind == Add
  {
    var a, b := Src(L, j, 0), Src(L, j, 1);
    && a < |L| && b < |L| && Indices(|L|, Readers(L, a)) && Indices(|L|, Readers(L, b))
    && AddTaken(L, j, a, b, Readers(L, a), Readers(L, b))
  }

  /** Add j, of one layer with itself, is not attempted, or the library keeps to its contracts
      and one of them speaks against it. */
  ghost predicate TwinIdle(L: seq<Layer>, K: Knobs, generous: bool, j: nat)
    requires WellFormed(L) && j < |L| && L[j].kind == Add
  {
    !AddAsked(L, K, j) || (generous && !AddTakes(L, j))
  }

  /** No add of one layer with itself is ever wired, or left with counters that are off. */
  ghost predicate TwinsIdle(L: seq<Layer>, K: Knobs, generous: bool)
    requires WellFormed(L)
  {
    K.cat ==> forall j :: 0 <= j < |L| && L[j].kind == Add && !TwoOperands(L, j) ==> TwinIdle(L, K, generous, j)
  }

  // ---- a concatenation ---------------------------------------------------------------

  /** Operand k of concatenation j may be placed: it starts a group, shares the zero point, is
      not linked yet, and the overlap of its program with the next operand is allowed. */
  ghost predicate OperandAsked(L: seq<Layer>, K: Knobs, S: State, j: nat, s: seq<nat>, k: nat)
    requires WellFormed(L) && Sized(L, S) && j < |L| && InTable(L, s) && k < |s|
  {
    && OperandFit(L, S, j, s, k) && !S.placed[s[k]] && !S.shared[s[k]]
    && !ForcedBy(K, s[k]) && !L[s[k]].hostInput
    && (k + 1 < |s| && L[s[k]].oc % 32 != 0 ==> K.overlap)
  }

  /** The operands rise, fill the concatenation's channels, and each may be placed. */
  ghost predicate OperandsAsked(L: seq<Layer>, K: Knobs, S: State, j: nat, s: seq<nat>)
    requires WellFormed(L) && Sized(L, S) && j < |L| && InTable(L, s)
  {
    && Increasing(s) && ConcatOff(L, s, |s|) == L[j].oc
    && forall k :: 0 <= k < |s| ==> OperandAsked(L, K, S, j, s, k)
  }

  /** At most four layers read p, and all but `except` could take a cube and take none yet. */
  ghost predicate FewFree(L: seq<Layer>, S: State, p: nat, except: nat)
    requires Sized(L, S)
  {
    |Readers(L, p)| <= 4 && ReadersFree(L, S, p, except)
  }

  /** Producer p has readers, few and free, none of which a padding join keeps out. */
  ghost predicate WholeAsked(L: seq<Layer>, K: Knobs, S: State, p: nat)
    requires Sized(L, S)
  {
    && FewFree(L, S, p, |L|) && Readers(L, p) != []
    && forall r: nat :: Reader(L, r, p) ==> PadjoinBy(L, K, p, r)
  }

  /** What the pass asks of concatenation j before it asks the library anything. */
  ghost predicate ConcatAsked(L: seq<Layer>, K: Knobs, S: State, j: nat)
    requires WellFormed(L) && Sized(L, S) && j < |L|
  {
    var s := Opers(L, j);
    && !ForcedBy(K, j) && !L[j].rowMajorOut && s != [] && OperandsAsked(L, K, S, j, s)
    && (forall k :: 0 <= k < |s| ==> FewFree(L, S, s[k], j))
    && WholeAsked(L, K, S, j)
  }

  /** rds lists the readers of each operand. */
  ghost predicate AreReaders(L: seq<Layer>, j: nat, s: seq<nat>, rds: seq<seq<nat>>) {
    && |rds| == |s| && Lists(|L|, rds) && Indices(|L|, Readers(L, j))
    && forall k :: 0 <= k < |s| ==> rds[k] == Readers(L, s[k])
  }

  /** Everyone concatenation j needs would agree. */
  ghost predicate ConcatTakes(L: seq<Layer>, j: nat)
    requires WellFormed(L) && j < |L|
  {
    var s := Opers(L, j);
    s != [] && exists rds: seq<seq<nat>> ::
      AreReaders(L, j, s, rds) && ConcatTaken(L, j, s, rds, Readers(L, j))
  }

  // ---- one producer ------------------------------------------------------------------

  /** What the pass asks of producer i: its channels fill their groups but not 32, it cannot
      state its own tail, its surface is at the plane, and every reader pays for a tail. */
  ghost predicate TailAsked(L: seq<Layer>, K: Knobs, S: State, i: nat)
    requires Sized(L, S) && i < |L|
  {
    && !S.cubeOut[i] && !S.placed[i] && !ForcedBy(K, i) && L[i].resident
    && L[i].oc % 16 == 0 && L[i].oc % 32 != 0 && WholeAsked(L, K, S, i)
    && (forall r: nat :: Reader(L, r, i) ==> Sensitive(L[r]))
    && Describable(L[i]) && CubeOf(L, i, S.handles[i].dest).padFrom == 0
    && CubeOf(L, i, S.handles[i].dest).frame.surf == PlaneSize(L[i])
  }

  /** The producer would take the slice and every reader the view. */
  ghost predicate TailTakes(L: seq<Layer>, i: nat)
    requires i < |L|
  {
    && AcceptsOutput(L[i], TailSlice(L, i), TailBuffer(L[i]).chans)
    && forall r: nat :: Reader(L, r, i) ==> AcceptsInput(L[r], TailView(L, i))
  }

  /** What the pass asks of skip source i. */
  ghost predicate SharedAsked(L: seq<Layer>, K: Knobs, S: State, i: nat)
    requires Sized(L, S) && i < |L|
  {
    && SkipSource(L, i) && !S.placed[i] && !S.cubeOut[i] && L[i].resident && !ForcedBy(K, i)
    && WholeAsked(L, K, S, i)
  }

  /** Producer i can be described, and every reader would take its own surface. */
  ghost predicate OwnTakes(L: seq<Layer>, i: nat)
    requires i < |L|
  {
    Describable(L[i]) && forall r: nat :: Reader(L, r, i) ==> AcceptsInput(L[r], CubeOf(L, i, None))
  }

  // ---- a pass ------------------------------------------------------------------------

  datatype Pass = Adds | Concats | Tails | Shares | Pairs

  /** The pass comes to layer j, in plan S, and all it asks and all it needs would say yes. */
  ghost predicate Wirable(L: seq<Layer>, K: Knobs, pass: Pass, S: State, j: nat)
    requires WellFormed(L) && Sized(L, S) && j < |L|
  {
    match pass
    case Adds => L[j].kind == Add && AddAsked(L, K, j) && AddTakes(L, j)
    case Concats => L[j].kind == Concat && ConcatAsked(L, K, S, j) && ConcatTakes(L, j)
    case Tails => TailAsked(L, K, S, j) && TailTakes(L, j)
    case Shares => SharedAsked(L, K, S, j) && OwnTakes(L, j)
    case Pairs =>
      var n := NextLayer(L, j);
      n < |L| && Reader(L, n, j) && !S.cubeOut[j] && Verdict(L, K, j, n).None?
  }

  ghost function WiringFor(L: seq<Layer>, pass: Pass, j: nat): Wiring
    requires WellFormed(L) && j < |L|
    requires pass.Concats? ==> Opers(L, j) != [] && Increasing(Opers(L, j))
  {
    match pass
    case Adds => AddWiring(L, j)
    case Concats => ConcatWiring(L, j)
    case Tails => TailWiring(L, j)
    case Shares => SharedWiring(j)
    case Pairs => PairWiring(j)
  }

  /** One step of a pass takes plan S to plan T. Only a library that refuses for no reason of
      its contracts leaves a layer alone that could be wired. */
  ghost predicate Decides(L: seq<Layer>, K: Knobs, generous: bool, pass: Pass, S: State, T: State,
                          j: nat)
    requires WellFormed(L) && Sized(L, S) && j < |L|
  {
    if Wirable(L, K, pass, S, j) then T == Link(L, S, WiringFor(L, pass, j)) || (!generous && T == S)
    else T == S
  }

  /** One step of the plans a pass goes through. */
  ghost predicate StepAt(L: seq<Layer>, K: Knobs, generous: bool, pass: Pass, t: seq<State>, i: nat)
    requires WellFormed(L)
  {
    && i < |L| && i + 1 < |t| && Sized(L, t[i]) && Sized(L, t[i + 1])
    && Decides(L, K, generous, pass, t[i], t[i + 1], i)
  }

  /** The plans a pass can go through in its first k steps. */
  ghost predicate Trace(L: seq<Layer>, K: Knobs, generous: bool, pass: Pass, t: seq<State>, k: nat)
    requires WellFormed(L)
  {
    && |t| == k + 1 && k <= |L| && Sized(L, t[0])
    && forall i: nat :: i < k ==> StepAt(L, K, generous, pass, t, i)
  }

  predicate Enabled(K: Knobs, pass: Pass) {
    match pass
    case Adds => K.cat
    case Concats => K.catn
    case Tails => K.tail
    case Shares => K.multi
    case Pairs => true
  }

  /** A whole pass, if its knob is on, can take plan S to plan T. */
  ghost predicate Ends(L: seq<Layer>, K: Knobs, generous: bool, pass: Pass, S: State, T: State)
    requires WellFormed(L) && Sized(L, S)
  {
    if Enabled(K, pass) then
      exists t: seq<State> :: Trace(L, K, generous, pass, t, |L|) && t[0] == S && t[|L|] == T
    else T == S
  }

  /** The five passes, one after another, can take the plan nothing is linked in to plan T. */
  ghost predicate Planned(L: seq<Layer>, K: Knobs, generous: bool, T: State)
    requires WellFormed(L)
  {
    exists A: State, B: State, C: State, D: State ::
      && Sized(L, A) && Sized(L, B) && Sized(L, C) && Sized(L, D)
      && Ends(L, K, generous, Adds, Unlinked(|L|), A) && Ends(L, K, generous, Concats, A, B)
      && Ends(L, K, generous, Tails, B, C) && Ends(L, K, generous, Shares, C, D)
      && Ends(L, K, generous, Pairs, D, T)
  }

  // ---- what every pass keeps ---------------------------------------------------------

  /** What the tail pass does with one layer is what it may decide. */
  lemma TailsDecided(L: seq<Layer>, K: Knobs, generous: bool, S: State, T: State, i: nat, wired: bool)
    requires WellFormed(L) && Sized(L, S) && i < |L|
    requires wired ==> TailAsked(L, K, S, i) && TailTakes(L, i)
    requires generous && TailAsked(L, K, S, i) && TailTakes(L, i) ==> wired
    requires T == if wired then Link(L, S, TailWiring(L, i)) else S
    ensures Decides(L, K, generous, Tails, S, T, i)
  {
  }

  /** So is what the shared-surface pass does. */
  lemma SharesDecided(L: seq<Layer>, K: Knobs, generous: bool, S: State, T: State, i: nat, wired: bool)
    requires WellFormed(L) && Sized(L, S) && i < |L|
    requires wired ==> SharedAsked(L, K, S, i) && OwnTakes(L, i)
    requires generous && SharedAsked(L, K, S, i) && OwnTakes(L, i) ==> wired
    requires T == if wired then Link(L, S, SharedWiring(i)) else S
    ensures Decides(L, K, generous, Shares, S, T, i)
  {
  }

  /** And what the pair loop does with a pair. */
  lemma PairsDecided(L: seq<Layer>, K: Knobs, generous: bool, S: State, T: State, i: nat, j: nat, wired: bool)
    requires WellFormed(L) && Sized(L, S) && i < |L| && j == NextLayer(L, i) && j < |L|
    requires Reader(L, j, i) && !S.cubeOut[i]
    requires wired ==> Verdict(L, K, i, j).None?
    requires generous && Verdict(L, K, i, j).None? ==> wired
    requires T == if wired then Link(L, S, PairWiring(i)) else S
    ensures Decides(L, K, generous, Pairs, S, T, i)
  {
  }

  lemma StartsAt(L: seq<Layer>, K: Knobs, generous: bool, pass: Pass, S: State)
    requires WellFormed(L) && Sized(L, S)
    ensures Trace(L, K, generous, pass, [S], 0)
  {
  }

  lemma TraceNext(L: seq<Layer>, K: Knobs, generous: bool, pass: Pass, t: seq<State>, T: State, k: nat)
    requires WellFormed(L) && Trace(L, K, generous, pass, t, k) && k < |L| && Sized(L, t[k]) && Sized(L, T)
    requires Decides(L, K, generous, pass, t[k], T, k)
    ensures Trace(L, K, generous, pass, t + [T], k + 1)
  {
    forall i: nat | i < k + 1 ensures StepAt(L, K, generous, pass, t + [T], i) {
      assert i < k ==> StepAt(L, K, generous, pass, t, i);
    }
  }

  /** The pair loop stops at the last layer with a successor; the steps it leaves out would
      decide nothing. */
  lemma {:induction false} PairsRest(L: seq<Layer>, K: Knobs, generous: bool, t: seq<State>, last: nat)
    returns (u: seq<State>)
    requires WellFormed(L) && Trace(L, K, generous, Pairs, t, last) && Sized(L, t[last])
    requires last + 1 < |L| ==> NextLayer(L, last) == |L|
    ensures Trace(L, K, generous, Pairs, u, |L|) && u[0] == t[0] && u[|L|] == t[last]
    decreases |L| - last
  {
    if last == |L| {
      u := t;
    } else {
      NoSuccessor(L, last, last);
      TraceNext(L, K, generous, Pairs, t, t[last], last);
      if last + 2 < |L| { NoSuccessor(L, last, last + 1); }
      u := PairsRest(L, K, generous, t + [t[last]], last + 1);
    }
  }

  lemma NoSuccessor(L: seq<Layer>, last: nat, i: nat)
    requires last <= i < |L| && (last + 1 < |L| ==> NextLayer(L, last) == |L|)
    ensures NextLayer(L, i) == |L|
  {
  }

  lemma EndsIn(L: seq<Layer>, K: Knobs, generous: bool, pass: Pass, t: seq<State>)
    requires WellFormed(L) && Trace(L, K, generous, pass, t, |L|) && Enabled(K, pass)
    ensures Ends(L, K, generous, pass, t[0], t[|L|])
  {
  }

  lemma PairsEnd(L: seq<Layer>, K: Knobs, generous: bool, t: seq<State>, last: nat)
    requires WellFormed(L) && Trace(L, K, generous, Pairs, t, last) && Sized(L, t[last])
    requires last + 1 < |L| ==> NextLayer(L, last) == |L|
    ensures Ends(L, K, generous, Pairs, t[0], t[last])
  {
    var u := PairsRest(L, K, generous, t, last);
    EndsIn(L, K, generous, Pairs, u);
  }

  lemma DecidesOnce(L: seq<Layer>, K: Knobs, pass: Pass, S: State, T: State, U: State, j: nat)
    requires WellFormed(L) && Sized(L, S) && j < |L|
    requires Decides(L, K, true, pass, S, T, j) && Decides(L, K, true, pass, S, U, j)
    ensures T == U
  {
  }

  /** A generous library leaves a pass one plan to be in after each step. */
  lemma {:induction false} OneTrace(L: seq<Layer>, K: Knobs, pass: Pass, t: seq<State>, u: seq<State>,
                                    n: nat, k: nat)
    requires WellFormed(L) && Trace(L, K, true, pass, t, n) && Trace(L, K, true, pass, u, n)
    requires t[0] == u[0] && k <= n
    ensures t[k] == u[k]
  {
    if k > 0 {
      OneTrace(L, K, pass, t, u, n, k - 1);
      assert StepAt(L, K, true, pass, t, k - 1) && StepAt(L, K, true, pass, u, k - 1);
      DecidesOnce(L, K, pass, t[k - 1], t[k], u[k], k - 1);
    }
  }

  lemma OneEnding(L: seq<Layer>, K: Knobs, pass: Pass, S: State, T: State, U: State)
    requires WellFormed(L) && Sized(L, S)
    requires Ends(L, K, true, pass, S, T) && Ends(L, K, true, pass, S, U)
    ensures T == U
  {
    if Enabled(K, pass) {
      var t: seq<State> :| Trace(L, K, true, pass, t, |L|) && t[0] == S && t[|L|] == T;
      var u: seq<State> :| Trace(L, K, true, pass, u, |L|) && u[0] == S && u[|L|] == U;
      OneTrace(L, K, pass, t, u, |L|, |L|);
    }
  }

  /** And one plan for a table. */
  lemma OnePlan(L: seq<Layer>, K: Knobs, T: State, U: State)
    requires WellFormed(L) && Planned(L, K, true, T) && Planned(L, K, true, U)
    ensures T == U
  {
    var A: State, B: State, C: State, D: State :|
      && Sized(L, A) && Sized(L, B) && Sized(L, C) && Sized(L, D)
      && Ends(L, K, true, Adds, Unlinked(|L|), A) && Ends(L, K, true, Concats, A, B)
      && Ends(L, K, true, Tails, B, C) && Ends(L, K, true, Shares, C, D)
      && Ends(L, K, true, Pairs, D, T);
    var A': State, B': State, C': State, D': State :|
      && Sized(L, A') && Sized(L, B') && Sized(L, C') && Sized(L, D')
      && Ends(L, K, true, Adds, Unlinked(|L|), A') && Ends(L, K, true, Concats, A', B')
      && Ends(L, K, true, Tails, B', C') && Ends(L, K, true, Shares, C', D')
      && Ends(L, K, true, Pairs, D', U);
    OneEnding(L, K, Adds, Unlinked(|L|), A, A');
    OneEnding(L, K, Concats, A, B, B');
    OneEnding(L, K, Tails, B, C, C');
    OneEnding(L, K, Shares, C, D, D');
    OneEnding(L, K, Pairs, D, T, U);
  }

  /** Everything linked in S is linked in T. */
  ghost predicate Grown(L: seq<Layer>, S: State, T: State)
    requires Sized(L, S)
  {
    && Sized(L, T)
    && forall i :: 0 <= i < |L| ==>
         (S.cubeIn[i] ==> T.cubeIn[i]) && (S.cubeOut[i] ==> T.cubeOut[i])
  }

  lemma DecidesGrows(L: seq<Layer>, K: Knobs, generous: bool, pass: Pass, S: State, T: State, j: nat)
    requires WellFormed(L) && Sized(L, S) && j < |L| && Decides(L, K, generous, pass, S, T, j)
    ensures Grown(L, S, T)
  {
  }

  /** No pass undoes what was linked before it. */
  lemma {:induction false} TraceGrows(L: seq<Layer>, K: Knobs, generous: bool, pass: Pass,
                                      t: seq<State>, n: nat, i: nat, k: nat)
    requires WellFormed(L) && Trace(L, K, generous, pass, t, n) && i <= k <= n
    ensures Sized(L, t[i]) && Grown(L, t[i], t[k])
    decreases k
  {
    TraceSized(L, K, generous, pass, t, n, i);
    if i < k {
      TraceGrows(L, K, generous, pass, t, n, i, k - 1);
      TraceStepGrows(L, K, generous, pass, t, n, k - 1);
    }
  }

  lemma TraceSized(L: seq<Layer>, K: Knobs, generous: bool, pass: Pass, t: seq<State>, n: nat, i: nat)
    requires WellFormed(L) && Trace(L, K, generous, pass, t, n) && i <= n
    ensures Sized(L, t[i])
  {
    if i > 0 { assert StepAt(L, K, generous, pass, t, i - 1); }
  }

  lemma TraceStepGrows(L: seq<Layer>, K: Knobs, generous: bool, pass: Pass, t: seq<State>, n: nat,
                       i: nat)
    requires WellFormed(L) && Trace(L, K, generous, pass, t, n) && i < n
    ensures Sized(L, t[i]) && Grown(L, t[i], t[i + 1])
  {
    assert StepAt(L, K, generous, pass, t, i);
    DecidesGrows(L, K, generous, pass, t[i], t[i + 1], i);
  }

  lemma EndsGrow(L: seq<Layer>, K: Knobs, generous: bool, pass: Pass, S: State, T: State)
    requires WellFormed(L) && Sized(L, S) && Ends(L, K, generous, pass, S, T)
    ensures Grown(L, S, T)
  {
    if Enabled(K, pass) {
      var t: seq<State> :| Trace(L, K, generous, pass, t, |L|) && t[0] == S && t[|L|] == T;
      TraceGrows(L, K, generous, pass, t, |L|, 0, |L|);
    }
  }

  // ---- finding a layer wired ----------------------------------------------------------

  /** The layers a pass looks at. */
  predicate Concerns(pass: Pass, l: Layer) {
    (pass.Adds? ==> l.kind == Add) && (pass.Concats? ==> l.kind == Concat)
  }

  lemma IdleStep(L: seq<Layer>, K: Knobs, generous: bool, pass: Pass, t: seq<State>, n: nat, i: nat)
    requires WellFormed(L) && Trace(L, K, generous, pass, t, n) && i < n && !Concerns(pass, L[i])
    ensures t[i + 1] == t[i]
  {
    assert StepAt(L, K, generous, pass, t, i);
  }

  lemma {:induction false} IdleBefore(L: seq<Layer>, K: Knobs, generous: bool, pass: Pass,
                                      t: seq<State>, n: nat, j: nat)
    requires WellFormed(L) && Trace(L, K, generous, pass, t, n) && j <= n
    requires forall i :: 0 <= i < j ==> !Concerns(pass, L[i])
    ensures t[j] == t[0]
  {
    if j > 0 {
      IdleBefore(L, K, generous, pass, t, n, j - 1);
      IdleStep(L, K, generous, pass, t, n, j - 1);
    }
  }

  /** A pass with nothing to look at changes nothing. */
  lemma NothingConcerned(L: seq<Layer>, K: Knobs, generous: bool, pass: Pass, S: State, T: State)
    requires WellFormed(L) && Sized(L, S) && Ends(L, K, generous, pass, S, T)
    requires forall i :: 0 <= i < |L| ==> !Concerns(pass, L[i])
    ensures T == S
  {
    if Enabled(K, pass) {
      var t: seq<State> :| Trace(L, K, generous, pass, t, |L|) && t[0] == S && t[|L|] == T;
      IdleBefore(L, K, generous, pass, t, |L|, |L|);
    }
  }

  /** A generous library wires the first layer a pass looks at, if it can be wired, and no later
      step undoes it. */
  lemma FirstIsWired(L: seq<Layer>, K: Knobs, pass: Pass, S: State, T: State, j: nat)
    requires WellFormed(L) && Sized(L, S) && j < |L| && Wirable(L, K, pass, S, j)
    requires Enabled(K, pass) && Ends(L, K, true, pass, S, T)
    requires forall i :: 0 <= i < j ==> !Concerns(pass, L[i])
    ensures Grown(L, Link(L, S, WiringFor(L, pass, j)), T)
  {
    var t: seq<State> :| Trace(L, K, true, pass, t, |L|) && t[0] == S && t[|L|] == T;
    IdleBefore(L, K, true, pass, t, |L|, j);
    assert StepAt(L, K, true, pass, t, j);
    StepLinks(L, K, pass, t, j);
    TraceGrows(L, K, true, pass, t, |L|, j + 1, |L|);
  }

  lemma StepLinks(L: seq<Layer>, K: Knobs, pass: Pass, t: seq<State>, j: nat)
    requires WellFormed(L) && StepAt(L, K, true, pass, t, j) && Wirable(L, K, pass, t[j], j)
    ensures t[j + 1] == Link(L, t[j], WiringFor(L, pass, j))
  {
  }

  /** A generous library leaves no adjacent pair unlinked that nothing speaks against. */
  lemma PairIsLinked(L: seq<Layer>, K: Knobs, S: State, T: State, i: nat)
    requires WellFormed(L) && Sized(L, S) && i < |L| && Ends(L, K, true, Pairs, S, T)
    requires var n := NextLayer(L, i); n < |L| && Reader(L, n, i) && Verdict(L, K, i, n).None?
    ensures Sized(L, T) && T.cubeOut[i]
  {
    var t: seq<State> :| Trace(L, K, true, Pairs, t, |L|) && t[0] == S && t[|L|] == T;
    assert StepAt(L, K, true, Pairs, t, i);
    if !t[i].cubeOut[i] { LinkedAt(L, t[i], PairWiring(i), i); }
    TraceGrows(L, K, true, Pairs, t, |L|, i + 1, |L|);
  }

  lemma GrownOn(L: seq<Layer>, R: State, S: State, T: State)
    requires Sized(L, R) && Grown(L, R, S) && Grown(L, S, T)
    ensures Grown(L, R, T)
  {
  }

  /** The same of a whole plan: the last pass links it. */
  lemma PlannedPair(L: seq<Layer>, K: Knobs, T: State, i: nat)
    requires WellFormed(L) && Planned(L, K, true, T) && i < |L|
    requires var n := NextLayer(L, i); n < |L| && Reader(L, n, i) && Verdict(L, K, i, n).None?
    ensures Sized(L, T) && T.cubeOut[i]
  {
    var A: State, B: State, C: State, D: State :|
      && Sized(L, A) && Sized(L, B) && Sized(L, C) && Sized(L, D)
      && Ends(L, K, true, Adds, Unlinked(|L|), A) && Ends(L, K, true, Concats, A, B)
      && Ends(L, K, true, Tails, B, C) && Ends(L, K, true, Shares, C, D)
      && Ends(L, K, true, Pairs, D, T);
    PairIsLinked(L, K, D, T, i);
  }

  /** The first pass wires it. */
  lemma PlannedAdd(L: seq<Layer>, K: Knobs, T: State, j: nat)
    requires WellFormed(L) && Planned(L, K, true, T) && j < |L| && K.cat
    requires forall i :: 0 <= i < j ==> L[i].kind != Add
    requires Wirable(L, K, Adds, Unlinked(|L|), j)
    ensures Grown(L, Link(L, Unlinked(|L|), AddWiring(L, j)), T)
  {
    var A: State, B: State, C: State, D: State :|
      && Sized(L, A) && Sized(L, B) && Sized(L, C) && Sized(L, D)
      && Ends(L, K, true, Adds, Unlinked(|L|), A) && Ends(L, K, true, Concats, A, B)
      && Ends(L, K, true, Tails, B, C) && Ends(L, K, true, Shares, C, D)
      && Ends(L, K, true, Pairs, D, T);
    var R := Link(L, Unlinked(|L|), AddWiring(L, j));
    FirstIsWired(L, K, Adds, Unlinked(|L|), A, j);
    LaterPassesGrow(L, K, A, B, C, D, T);
    GrownOn(L, R, A, B);
    GrownOn(L, R, B, T);
  }

  /** The second pass wires it, the first having nothing to look at. */
  lemma PlannedConcat(L: seq<Layer>, K: Knobs, T: State, j: nat)
    requires WellFormed(L) && Planned(L, K, true, T) && j < |L| && K.catn
    requires forall i :: 0 <= i < |L| ==> L[i].kind != Add
    requires forall i :: 0 <= i < j ==> L[i].kind != Concat
    requires Wirable(L, K, Concats, Unlinked(|L|), j)
    ensures Grown(L, Link(L, Unlinked(|L|), ConcatWiring(L, j)), T)
  {
    var A: State, B: State, C: State, D: State :|
      && Sized(L, A) && Sized(L, B) && Sized(L, C) && Sized(L, D)
      && Ends(L, K, true, Adds, Unlinked(|L|), A) && Ends(L, K, true, Concats, A, B)
      && Ends(L, K, true, Tails, B, C) && Ends(L, K, true, Shares, C, D)
      && Ends(L, K, true, Pairs, D, T);
    NothingConcerned(L, K, true, Adds, Unlinked(|L|), A);
    FirstIsWired(L, K, Concats, A, B, j);
    LaterPassesGrow(L, K, A, B, C, D, T);
    GrownOn(L, Link(L, Unlinked(|L|), ConcatWiring(L, j)), B, T);
  }

  lemma LaterPassesGrow(L: seq<Layer>, K: Knobs, A: State, B: State, C: State, D: State, T: State)
    requires WellFormed(L) && Sized(L, A) && Sized(L, B) && Sized(L, C) && Sized(L, D)
    requires Ends(L, K, true, Concats, A, B) && Ends(L, K, true, Tails, B, C)
    requires Ends(L, K, true, Shares, C, D) && Ends(L, K, true, Pairs, D, T)
    ensures Grown(L, A, B) && Grown(L, B, T)
  {
    EndsGrow(L, K, true, Concats, A, B);
    EndsGrow(L, K, true, Tails, B, C);
    EndsGrow(L, K, true, Shares, C, D);
    EndsGrow(L, K, true, Pairs, D, T);
    GrownOn(L, B, C, D);
    GrownOn(L, B, D, T);
  }

  // ---- agreement, of everyone listed or of everyone concerned --------------------------

  lemma AddAgreedTakes(L: seq<Layer>, j: nat)
    requires WellFormed(L) && AddAgreed(L, Unlinked(|L|), j)
    ensures AddTakes(L, j)
  {
    var a, b := Src(L, j, 0), Src(L, j, 1);
    var ra, rb := Readers(L, a), Readers(L, b);
    ReadersIndexed(L, a);
    ReadersIndexed(L, b);
    AddHands(L, j);
    forall k | 0 <= k < |ra| && ra[k] != j ensures AcceptsInput(L[ra[k]], CubeOf(L, a, Some(AddLo(L, j)))) {
      assert ra[k] in ra && Reader(L, ra[k], a);
    }
    forall k | 0 <= k < |rb| && rb[k] != j ensures AcceptsInput(L[rb[k]], CubeOf(L, b, Some(AddHi(L, j)))) {
      assert rb[k] in rb && Reader(L, rb[k], b);
    }
  }

  lemma ConcatAgreedTakes(L: seq<Layer>, j: nat)
    requires WellFormed(L) && ConcatAgreed(L, Unlinked(|L|), j)
    ensures ConcatTakes(L, j)
  {
    var s, W := Opers(L, j), ConcatWiring(L, j);
    var rds := seq(|s|, k requires 0 <= k < |s| => Readers(L, s[k]));
    ReadersIndexed(L, j);
    forall k | 0 <= k < |s| ensures Indices(|L|, rds[k]) { ReadersIndexed(L, s[k]); }
    forall q | 0 <= q < |Readers(L, j)| ensures AcceptsInput(L[Readers(L, j)[q]], ConcatView(L, j, s)) {
      assert Readers(L, j)[q] in Readers(L, j) && Reader(L, Readers(L, j)[q], j);
    }
    forall k: nat | k < |s| ensures OperandTaken(L, j, s, k) { assert OperandAgreed(L, Unlinked(|L|), j, k); }
    forall k: nat, q: nat | k < |s| && q < |rds[k]| && rds[k][q] != j
      ensures AcceptsInput(L[rds[k][q]], OperandCube(L, j, s, k))
    {
      OperandReaderTakes(L, j, k, rds[k][q]);
    }
    assert AreReaders(L, j, s, rds) && ConcatTaken(L, j, s, rds, Readers(L, j));
  }

  lemma OperandReaderTakes(L: seq<Layer>, j: nat, k: nat, r: nat)
    requires WellFormed(L) && ConcatAgreed(L, Unlinked(|L|), j) && k < |Opers(L, j)|
    requires r in Readers(L, Opers(L, j)[k]) && r != j
    ensures AcceptsInput(L[r], OperandCube(L, j, Opers(L, j), k))
  {
    assert OperandAgreed(L, Unlinked(|L|), j, k) && Reader(L, r, Opers(L, j)[k]);
    assert RowOk(L, Opers(L, j)[k]);
    OperandHands(L, j, k);
  }
}
