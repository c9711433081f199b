/** What a caller can check of a table, before any plan is built: which single wirings everyone
    concerned would agree to, and that one of them does harm exactly when some sound plan does. */
module GraphRules {
  import opened Options
  import opened GraphLayers
  import opened GraphCubes
  import opened GraphPlan
  import opened GraphWiring
  import opened GraphRun
  import opened GraphExact

  // ---- rules of thumb ----------------------------------------------------------------

  /** A producer read by a host layer has no reader on the part. */
  ghost predicate HostRule(L: seq<Layer>) {
    forall p: nat, h: nat, r: nat :: HostReader(L, h, p) ==> !Reader(L, r, p)
  }

  /** Only a convolution's input, or a host layer's, is prepared by the caller. */
  predicate PreparedRule(L: seq<Layer>) {
    forall i :: 0 <= i < |L| && L[i].hostInput ==> L[i].kind == Conv || L[i].kind == DwConv || L[i].kind == Host
  }

  /** A layer that depends on its input's tail and reads a concatenation's operand, other
      than the last, runs no later than the next operand. */
  ghost predicate TailRule(L: seq<Layer>)
    requires WellFormed(L)
  {
    forall j: nat, k: nat, r: nat ::
      j < |L| && L[j].kind == Concat && k + 1 < |Opers(L, j)| && Reader(L, r, Opers(L, j)[k])
      && Sensitive(L[r])
      ==> r <= Opers(L, j)[k + 1]
  }

  /** A layer that takes cubes although the caller prepares its input is a pool, an add or a
      concatenation: a convolution is asked, and they are not. */
  lemma PreparedTakers(L: seq<Layer>, S: State, i: nat)
    requires Sound(L, S) && i < |L| && Takes(L, S, i) && L[i].hostInput
    ensures IsPool(L[i]) || L[i].kind == Add || L[i].kind == Concat
  {
    assert InOk(L, S, i);
  }

  /** On a table that keeps the three rules every sound plan preserves meaning, so every plan
      the planner builds does, whatever the library refused and whatever the knobs say. */
  lemma RulesSuffice(L: seq<Layer>, S: State)
    requires Sound(L, S) && HostRule(L) && PreparedRule(L) && TailRule(L)
    ensures Faithful(L, S)
  {
    forall p: nat, r: nat | p < |L| && S.cubeOut[p] ensures !HostReader(L, r, p) {
      assert OutOk(L, S, p);
    }
    forall i: nat | i < |L| && Takes(L, S, i) ensures !L[i].hostInput {
      if L[i].hostInput { PreparedTakers(L, S, i); }
    }
    FaithfulExactly(L, S);
  }

  // ---- the wirings a table offers ----------------------------------------------------

  /** Producer i would be handed to all its readers as the surface it owns. */
  ghost predicate OwnAgreed(L: seq<Layer>, i: nat)
    requires WellFormed(L)
  {
    && i < |L| && L[i].resident && Describable(L[i])
    && HasReader(L, i) && ReadersAgree(L, Unlinked(|L|), SharedWiring(i), i, |L|)
  }

  /** Pool i would be given a tail of its own. */
  ghost predicate TailAgreed(L: seq<Layer>, i: nat)
    requires WellFormed(L)
  {
    && i < |L| && IsPool(L[i]) && L[i].oc % 16 == 0
    && ProducerAgrees(L, i, TailSlice(L, i), TailBuffer(L[i]))
    && HasReader(L, i) && ReadersAgree(L, Unlinked(|L|), TailWiring(L, i), i, |L|)
  }

  /** W is one wiring everyone concerned would agree to, were nothing else linked. */
  ghost predicate Offers(L: seq<Layer>, W: Wiring)
    requires WellFormed(L)
  {
    exists k: nat :: OffersAt(L, W, k)
  }

  ghost predicate OffersAt(L: seq<Layer>, W: Wiring, k: nat)
    requires WellFormed(L)
  {
    || (AddAgreed(L, Unlinked(|L|), k) && W == AddWiring(L, k))
    || (ConcatAgreed(L, Unlinked(|L|), k) && W == ConcatWiring(L, k))
    || (TailAgreed(L, k) && W == TailWiring(L, k))
    || (OwnAgreed(L, k) && W == SharedWiring(k))
  }

  /** No producer W makes leave a cube is read on the host; no layer it makes take one has an
      input the caller prepares; and no layer it binds beside a concatenation depends on a tail
      that the next operand writes before. */
  ghost predicate Harmless(L: seq<Layer>, W: Wiring)
    requires WellFormed(L)
  {
    && (forall p: nat, h: nat :: p in W.out ==> !HostReader(L, h, p))
    && (forall r: nat :: r < |L| && TakesBy(L, W, r) ==> !L[r].hostInput)
    && (forall j: nat, k: nat, r: nat :: !Late(L, W, j, k, r))
  }

  /** W makes layer r take cubes. */
  predicate TakesBy(L: seq<Layer>, W: Wiring, r: nat)
    requires WellFormed(L) && r < |L|
  {
    Binds(L, W, r) || (L[r].kind == Concat && r in W.out)
  }

  predicate Late(L: seq<Layer>, W: Wiring, j: nat, k: nat, r: nat)
    requires WellFormed(L)
  {
    && j < |L| && L[j].kind == Concat && j in W.out && k + 1 < |Opers(L, j)|
    && Reader(L, r, Opers(L, j)[k]) && L[r].kind != Concat && Sensitive(L[r])
    && Opers(L, j)[k + 1] < r
  }

  /** Every wiring the table offers is harmless. */
  ghost predicate Rule(L: seq<Layer>)
    requires WellFormed(L)
  {
    forall W: Wiring :: Offers(L, W) ==> Harmless(L, W)
  }

  // ---- one wiring is a sound plan ----------------------------------------------------

  lemma OfferedIsSound(L: seq<Layer>, W: Wiring)
    requires WellFormed(L) && Offers(L, W)
    ensures Sound(L, Link(L, Unlinked(|L|), W))
  {
    var k: nat :| OffersAt(L, W, k);
    var U := Unlinked(|L|);
    UnlinkedSound(L);
    if AddAgreed(L, U, k) && W == AddWiring(L, k) {
      AddWiringSound(L, U, k);
    } else if ConcatAgreed(L, U, k) && W == ConcatWiring(L, k) {
      ConcatWiringSound(L, U, k);
    } else if TailAgreed(L, k) && W == TailWiring(L, k) {
      TailWiringSound(L, U, k);
    } else {
      OwnSurfaceWiringSound(L, U, k, W);
    }
  }

  lemma OfferedLinks(L: seq<Layer>, W: Wiring, i: nat)
    requires WellFormed(L) && i < |L|
    ensures var T := Link(L, Unlinked(|L|), W);
      T.cubeOut[i] == (i in W.out) && T.cubeIn[i] == Binds(L, W, i) && Takes(L, T, i) == TakesBy(L, W, i)
  {
    LinkedAt(L, Unlinked(|L|), W, i);
  }

  /** One wiring that does harm and is sound alone is a plan that does. */
  lemma HarmShows(L: seq<Layer>, W: Wiring)
    requires WellFormed(L) && Sound(L, Link(L, Unlinked(|L|), W)) && !Harmless(L, W)
    ensures !Faithful(L, Link(L, Unlinked(|L|), W))
  {
    var T := Link(L, Unlinked(|L|), W);
    if p: nat, h: nat :| p in W.out && HostReader(L, h, p) {
      OfferedLinks(L, W, p);
      assert !HostFed(L, T);
    } else if r: nat :| r < |L| && TakesBy(L, W, r) && L[r].hostInput {
      OfferedLinks(L, W, r);
      assert !Unprepared(L, T);
    } else {
      var j: nat, k: nat, r: nat :| Late(L, W, j, k, r);
      LateIsOvertaken(L, W, j, k, r);
      assert !TailSafe(L, T);
    }
    FaithfulExactly(L, T);
  }

  lemma LateIsOvertaken(L: seq<Layer>, W: Wiring, j: nat, k: nat, r: nat)
    requires WellFormed(L) && Sound(L, Link(L, Unlinked(|L|), W)) && Late(L, W, j, k, r)
    ensures Overtaken(L, Link(L, Unlinked(|L|), W), j, k, r)
  {
    var T, p := Link(L, Unlinked(|L|), W), Opers(L, j)[k];
    OfferedLinks(L, W, j);
    OfferedLinks(L, W, r);
    assert OutOk(L, T, j) && ConcatWired(L, T, j) && OutOk(L, T, p);
    assert Takes(L, T, r);
  }

  // ---- and every sound plan is made of them ------------------------------------------

  /** A convolution or a pool that reads a producer which leaves a cube has agreed to it. */
  lemma ReaderAgreed(L: seq<Layer>, S: State, p: nat, r: nat)
    requires Sound(L, S) && p < |L| && S.cubeOut[p] && Reader(L, r, p)
    requires L[r].kind != Add && L[r].kind != Concat
    ensures S.cubeIn[r] && ConsumerOk(L[r]) && AcceptsInput(L[r], ReaderCube(L, S, p))
  {
    assert OutOk(L, S, p) && Takes(L, S, r) && InOk(L, S, r);
    SoleOperand(L, r, p);
  }

  /** An add or a placed concatenation that reads a producer owns the buffer it writes. */
  lemma ReaderOwns(L: seq<Layer>, S: State, p: nat, r: nat)
    requires Sound(L, S) && p < |L| && S.cubeOut[p] && Reader(L, r, p)
    requires L[r].kind == Add || L[r].kind == Concat
    ensures S.handles[p].dest.Some? && S.handles[p].dest.value.store == Buf(r)
  {
    assert OutOk(L, S, p) && Takes(L, S, r);
    if L[r].kind == Add {
      assert InOk(L, S, r) && AddWired(L, S, r);
      AddOperand(L, r, p);
    } else {
      assert OutOk(L, S, r) && ConcatWired(L, S, r) && RowOk(L, r);
      assert p in Opers(L, r);
      var k :| 0 <= k < |Opers(L, r)| && Opers(L, r)[k] == p;
    }
  }

  /** All of p's readers but the one that owns the buffer it writes have agreed to its cube. */
  lemma ReadersAgreed(L: seq<Layer>, S: State, W: Wiring, p: nat, except: nat)
    requires Sound(L, S) && p < |L| && S.cubeOut[p] && HandedCube(L, W, p) == ReaderCube(L, S, p)
    requires S.handles[p].dest.Some? ==> S.handles[p].dest.value.store == Buf(except) || except == |L|
    requires except == |L| && S.handles[p].dest.Some? ==> S.handles[p].dest.value.store == Buf(p)
    ensures ReadersAgree(L, Unlinked(|L|), W, p, except)
  {
    forall r: nat | Reader(L, r, p) && r != except
      ensures ConsumerOk(L[r]) && AcceptsInput(L[r], HandedCube(L, W, p))
    {
      if L[r].kind == Add || L[r].kind == Concat {
        ReaderOwns(L, S, p, r);
        assert false;
      } else {
        ReaderAgreed(L, S, p, r);
      }
    }
  }

  lemma OperandAccepted(L: seq<Layer>, S: State, p: nat)
    requires Sound(L, S) && p < |L| && S.cubeOut[p] && S.handles[p].dest.Some?
    ensures var d := S.handles[p].dest.value;
      d.store.Buf? && d.store.j < |L| && S.bufs[d.store.j].Some?
      && ProducerAgrees(L, p, d, S.bufs[d.store.j].value)
  {
    assert OutOk(L, S, p) && DestOk(L, S, p);
    assert PlacedFor(L, S, p, S.handles[p].dest.value.store.j, S.handles[p].dest.value);
  }

  lemma AddRecovered(L: seq<Layer>, S: State, j: nat)
    requires Sound(L, S) && j < |L| && L[j].kind == Add && S.cubeIn[j]
    ensures AddAgreed(L, Unlinked(|L|), j)
  {
    var a, b := Src(L, j, 0), Src(L, j, 1);
    assert InOk(L, S, j) && AddWired(L, S, j) && BufOk(L, S, j) && RowOk(L, j);
    assert S.cubeOut[a] && S.cubeOut[b] && a != b;
    OperandAccepted(L, S, a);
    OperandAccepted(L, S, b);
    AddHands(L, j);
    ReadersAgreed(L, S, AddWiring(L, j), a, j);
    ReadersAgreed(L, S, AddWiring(L, j), b, j);
  }

  lemma PlacedOperand(L: seq<Layer>, S: State, j: nat, k: nat)
    requires Sound(L, S) && j < |L| && Placement(L, S, j) && k < |Opers(L, j)|
    ensures var s := Opers(L, j); var p := s[k];
      && s != [] && Increasing(s) && p < j && S.cubeOut[p] && L[p].kind != Concat
      && S.handles[p].dest == Some(ConcatSlice(L, j, s, k))
      && ConcatOff(L, s, k) % 16 == 0 && L[p].outZp == L[j].outZp
      && S.bufs[j] == Some(ConcatBuffer(L, j, s))
  {
    assert OutOk(L, S, j) && ConcatWired(L, S, j) && BufOk(L, S, j);
    var p := Opers(L, j)[k];
    assert S.cubeOut[p] && OutOk(L, S, p);
  }

  lemma ConcatHanded(L: seq<Layer>, S: State, j: nat, k: nat)
    requires WellFormed(L) && Sized(L, S) && j < |L| && k < |Opers(L, j)| && Increasing(Opers(L, j))
    requires var s := Opers(L, j); var p := s[k];
      p < j && L[p].kind != Concat && S.handles[p].dest == Some(ConcatSlice(L, j, s, k))
    ensures HandedCube(L, ConcatWiring(L, j), Opers(L, j)[k]) == ReaderCube(L, S, Opers(L, j)[k])
  {
    var p := Opers(L, j)[k];
    assert p in ConcatWiring(L, j).dest;
    assert ConcatWiring(L, j).dest[p] == ConcatSlice(L, j, Opers(L, j), k);
  }

  lemma ConcatOperandRecovered(L: seq<Layer>, S: State, j: nat, k: nat)
    requires Sound(L, S) && j < |L| && Placement(L, S, j) && k < |Opers(L, j)|
    ensures Opers(L, j) != [] && Increasing(Opers(L, j)) && OperandAgreed(L, Unlinked(|L|), j, k)
  {
    PlacedOperand(L, S, j, k);
    OperandAccepted(L, S, Opers(L, j)[k]);
    ConcatHanded(L, S, j, k);
    ReadersAgreed(L, S, ConcatWiring(L, j), Opers(L, j)[k], j);
  }

  lemma ConcatRecovered(L: seq<Layer>, S: State, j: nat)
    requires Sound(L, S) && j < |L| && Placement(L, S, j)
    ensures ConcatAgreed(L, Unlinked(|L|), j)
  {
    assert OutOk(L, S, j) && ConcatWired(L, S, j);
    forall k: nat | k < |Opers(L, j)| ensures OperandAgreed(L, Unlinked(|L|), j, k) {
      ConcatOperandRecovered(L, S, j, k);
    }
    ReadersAgreed(L, S, ConcatWiring(L, j), j, |L|);
  }

  lemma OwnRecovered(L: seq<Layer>, S: State, p: nat)
    requires Sound(L, S) && p < |L| && S.cubeOut[p] && L[p].kind != Concat
    requires S.handles[p].dest == None
    ensures OwnAgreed(L, p)
  {
    assert OutOk(L, S, p);
    ReadersAgreed(L, S, SharedWiring(p), p, |L|);
  }

  lemma TailRecovered(L: seq<Layer>, S: State, p: nat)
    requires Sound(L, S) && p < |L| && S.cubeOut[p] && L[p].kind != Concat
    requires S.handles[p].dest.Some? && S.handles[p].dest.value.store == Buf(p)
    requires L[p].kind != Add
    ensures TailAgreed(L, p)
  {
    assert OutOk(L, S, p) && DestOk(L, S, p) && BufOk(L, S, p);
    assert PlacedFor(L, S, p, p, S.handles[p].dest.value);
    OperandAccepted(L, S, p);
    ReadersAgreed(L, S, TailWiring(L, p), p, |L|);
  }

  /** The wiring that makes layer p leave a cube. */
  lemma ProducerOffered(L: seq<Layer>, S: State, p: nat) returns (W: Wiring)
    requires Sound(L, S) && p < |L| && S.cubeOut[p]
    ensures Offers(L, W) && p in W.out
  {
    assert OutOk(L, S, p);
    var d := S.handles[p].dest;
    if L[p].kind == Concat {
      ConcatRecovered(L, S, p);
      W := ConcatWiring(L, p);
      assert OffersAt(L, W, p);
    } else if d == None {
      OwnRecovered(L, S, p);
      W := SharedWiring(p);
      assert OffersAt(L, W, p);
    } else {
      var j := d.value.store.j;
      assert DestOk(L, S, p) && PlacedFor(L, S, p, j, d.value);
      if L[j].kind == Add {
        AddRecovered(L, S, j);
        W := AddWiring(L, j);
      } else if L[j].kind == Concat {
        ConcatRecovered(L, S, j);
        W := ConcatWiring(L, j);
      } else {
        TailRecovered(L, S, p);
        W := TailWiring(L, p);
      }
      assert OffersAt(L, W, j);
    }
  }

  /** The wiring that makes layer r take one. */
  lemma TakerOffered(L: seq<Layer>, S: State, r: nat) returns (W: Wiring)
    requires Sound(L, S) && r < |L| && Takes(L, S, r)
    ensures Offers(L, W) && TakesBy(L, W, r)
  {
    assert InOk(L, S, r);
    if L[r].kind == Concat {
      assert RowOk(L, r) && OutOk(L, S, r);
      W := ProducerOffered(L, S, r);
    } else if L[r].kind == Add {
      AddRecovered(L, S, r);
      W := AddWiring(L, r);
      assert OffersAt(L, W, r);
    } else {
      assert RowOk(L, r) && Src(L, r, 0) in L[r].src;
      W := ProducerOffered(L, S, Src(L, r, 0));
    }
  }

  lemma OvertakenIsLate(L: seq<Layer>, S: State, j: nat, k: nat, r: nat) returns (W: Wiring)
    requires Sound(L, S) && Overtaken(L, S, j, k, r)
    ensures Offers(L, W) && !Harmless(L, W)
  {
    ConcatRecovered(L, S, j);
    W := ConcatWiring(L, j);
    assert OffersAt(L, W, j);
    TakerHasHandle(L, S, r);
    assert Late(L, W, j, k, r);
  }

  lemma TakerHasHandle(L: seq<Layer>, S: State, r: nat)
    requires Sound(L, S) && r < |L| && S.cubeIn[r]
    ensures L[r].kind != Concat && L[r].kind != Host
  {
    assert InOk(L, S, r) && RowOk(L, r);
  }

  /** A sound plan that does harm contains a wiring that does. */
  lemma HarmIsOffered(L: seq<Layer>, S: State)
    requires Sound(L, S) && !Faithful(L, S)
    ensures !Rule(L)
  {
    FaithfulExactly(L, S);
    if !HostFed(L, S) {
      var p: nat, h: nat :| p < |L| && S.cubeOut[p] && HostReader(L, h, p);
      var W := ProducerOffered(L, S, p);
      assert !Harmless(L, W);
    } else if !Unprepared(L, S) {
      var r: nat :| r < |L| && Takes(L, S, r) && L[r].hostInput;
      var W := TakerOffered(L, S, r);
      assert !Harmless(L, W);
    } else {
      var j: nat, k: nat, r: nat :| Overtaken(L, S, j, k, r);
      var W := OvertakenIsLate(L, S, j, k, r);
    }
  }

  /** Every sound plan of a table preserves meaning exactly when every single wiring the table
      offers is harmless, which is decided without building a plan. */
  lemma TableExactly(L: seq<Layer>)
    requires WellFormed(L)
    ensures (forall S: State :: Sound(L, S) ==> Faithful(L, S)) <==> Rule(L)
  {
    if Rule(L) {
      forall S: State | Sound(L, S) ensures Faithful(L, S) {
        if !Faithful(L, S) { HarmIsOffered(L, S); }
      }
    } else {
      var W: Wiring :| Offers(L, W) && !Harmless(L, W);
      OfferedIsSound(L, W);
      HarmShows(L, W);
    }
  }

  /** No sound plan binds a layer whose input the caller prepares exactly when no wiring the
      table offers does. */
  lemma PreparedExactly(L: seq<Layer>)
    requires WellFormed(L)
    ensures (forall S: State :: Sound(L, S) ==> Unprepared(L, S))
            <==> forall W: Wiring, r: nat :: Offers(L, W) && r < |L| && TakesBy(L, W, r) ==> !L[r].hostInput
  {
    if W: Wiring, r: nat :| Offers(L, W) && r < |L| && TakesBy(L, W, r) && L[r].hostInput {
      OfferedIsSound(L, W);
      OfferedLinks(L, W, r);
      assert !Unprepared(L, Link(L, Unlinked(|L|), W));
    }
    if S: State :| Sound(L, S) && !Unprepared(L, S) {
      var r: nat :| r < |L| && Takes(L, S, r) && L[r].hostInput;
      var W := TakerOffered(L, S, r);
    }
  }
}
