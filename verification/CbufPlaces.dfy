/** The on-chip split by places rather than byte counts: a split serves a shape when every
    element of its features, and of its weights when they stay, ends inside its own banks. */
module CbufPlaces {
  import opened Arith
  import opened Cbuf
  import opened FeatureCube
  import opened WeightCube

  /** Feature rows of k elements lie in 16-byte atoms. */
  function AtomElements(size: nat): nat
    requires 1 <= size <= 2
  {
    16 / size
  }

  /** Output rows to a weight tile: 16 at two bytes an element, 32 at one. */
  function TileRows(size: nat): nat
    requires 1 <= size <= 2
  {
    if size == 2 then FP16_GROUP else INT8_GROUP
  }

  /** Where feature element c of row h stops, in bytes from the start of the cube. */
  function FeatureEnd(m: nat, size: nat, c: int, h: int): int
    requires 1 <= size <= 2
  {
    size * (FeatureData(m, 1, AtomElements(size), c, h, 1) + 1)
  }

  /** Where the weight of input c in output row r stops. */
  function WeightEnd(k: nat, size: nat, r: int, c: int): int
    requires 1 <= size <= 2
  {
    if size == 2 then 2 * (WeightMatmul(FP16_GROUP, k, r, c) + 1)
    else WeightMatmul(INT8_GROUP, k, r, c) + 1
  }

  /** Every feature ends within `bytes`. */
  ghost predicate FeaturesEndBy(m: nat, k: nat, size: nat, bytes: int)
    requires 1 <= size <= 2
  {
    forall c: nat, h: nat :: 1 <= c <= k && 1 <= h <= m ==> FeatureEnd(m, size, c, h) <= bytes
  }

  ghost predicate WeightsEndBy(k: nat, n: nat, size: nat, bytes: int)
    requires 1 <= size <= 2
  {
    forall r: nat, c: nat :: 1 <= r <= n && 1 <= c <= k ==> WeightEnd(k, size, r, c) <= bytes
  }

  // ---- the places ------------------------------------------------------------------------

  /** The first n places. */
  ghost function Below(n: nat): (s: set<int>)
    ensures |s| == n && forall p :: p in s <==> 0 <= p < n
  {
    if n == 0 then {} else Below(n - 1) + {n - 1}
  }

  ghost function FeaturePlaces(m: nat, k: nat, C2: nat): set<int>
    requires 0 < C2
  {
    set c: nat, h: nat | 1 <= c <= k && 1 <= h <= m :: FeatureData(m, 1, C2, c, h, 1)
  }

  lemma FeatureInside(m: nat, k: nat, C2: nat, c: nat, h: nat)
    requires 0 < C2 && k % C2 == 0 && 1 <= c <= k && 1 <= h <= m
    ensures 0 <= FeatureData(m, 1, C2, c, h, 1) < m * k
  {
    var planes, plane := k / C2, (c - 1) / C2;
    Recompose(k, C2);
    DivBelow(c - 1, planes, C2);
    DigitsInside(plane, h - 1, planes, m);
    DigitsInside(plane * m + (h - 1), (c - 1) % C2, planes * m, C2);
    AsAtoms(m, 1, C2, c, h, 1);
    assert planes * m * C2 == m * (planes * C2);
  }

  lemma FeatureThere(m: nat, k: nat, C2: nat, pos: nat)
    requires 0 < C2 && k % C2 == 0 && pos < m * k
    ensures pos in FeaturePlaces(m, k, C2)
  {
    var planes := k / C2;
    Recompose(k, C2);
    assert planes * m * 1 * C2 == m * (planes * C2);
    IndexOfElement(m, 1, C2, planes, pos);
    var (c, h, w) := ElementAt(m, 1, C2, pos);
    assert FeatureData(m, 1, C2, c, h, 1) == pos;
  }

  /** The features fill the first m * k places, one each. */
  lemma FeaturesFill(m: nat, k: nat, C2: nat)
    requires 0 < C2 && k % C2 == 0
    ensures FeaturePlaces(m, k, C2) == Below(m * k) && |FeaturePlaces(m, k, C2)| == m * k
  {
    MulMono(0, m, k);
    forall p | p in FeaturePlaces(m, k, C2) ensures p in Below(m * k) {
      var c: nat, h: nat :| 1 <= c <= k && 1 <= h <= m && p == FeatureData(m, 1, C2, c, h, 1);
      FeatureInside(m, k, C2, c, h);
    }
    forall p | p in Below(m * k) ensures p in FeaturePlaces(m, k, C2) { FeatureThere(m, k, C2, p); }
  }

  ghost function WeightPlaces(G: nat, k: nat, n: nat): set<int>
    requires 0 < G
  {
    set r: nat, c: nat | 1 <= r <= n && 1 <= c <= k :: WeightMatmul(G, k, r, c)
  }

  lemma WeightInside(G: nat, k: nat, n: nat, r: nat, c: nat)
    requires 0 < G && k % 32 == 0 && n % G == 0 && 1 <= r <= n && 1 <= c <= k
    ensures 0 <= WeightMatmul(G, k, r, c) < n * k
  {
    AlignedIsBijection(G, n, k, 1, 1);
    OneByOneIsMatmul(G, k, r, c);
    var w := Coord(r, c, 1, 1);
    assert 0 <= IndexOf(G, k, 1, 1, w) < n * k * 1 * 1;
  }

  lemma WeightThere(G: nat, k: nat, n: nat, pos: nat)
    requires 0 < G && k % 32 == 0 && n % G == 0 && pos < n * k
    ensures pos in WeightPlaces(G, k, n)
  {
    if n == 0 || k == 0 { assert false; }
    AlignedIsBijection(G, n, k, 1, 1);
    assert pos < n * k * 1 * 1;
    var w := CoordAt(G, k, 1, 1, pos);
    OneByOneIsMatmul(G, k, w.oc, w.ic);
    assert WeightMatmul(G, k, w.oc, w.ic) == pos;
  }

  /** So do whole tiles of weights. */
  lemma WeightsFill(G: nat, k: nat, n: nat)
    requires 0 < G && k % 32 == 0 && n % G == 0
    ensures WeightPlaces(G, k, n) == Below(n * k) && |WeightPlaces(G, k, n)| == n * k
  {
    MulMono(0, n, k);
    forall p | p in WeightPlaces(G, k, n) ensures p in Below(n * k) {
      var r: nat, c: nat :| 1 <= r <= n && 1 <= c <= k && p == WeightMatmul(G, k, r, c);
      WeightInside(G, k, n, r, c);
    }
    forall p | p in Below(n * k) ensures p in WeightPlaces(G, k, n) { WeightThere(G, k, n, p); }
  }

  // ---- the counts are the places ---------------------------------------------------------

  /** The feature count is the size in bytes of the places, and so the end of the last. */
  lemma FeatureBytesCount(m: nat, k: nat, size: nat)
    requires 1 <= size <= 2 && k % AtomElements(size) == 0
    ensures FeatureBytes(m, k, size) == size * |FeaturePlaces(m, k, AtomElements(size))|
  {
    FeaturesFill(m, k, AtomElements(size));
    assert m * k * size == size * (m * k);
  }

  lemma FeaturesCounted(m: nat, k: nat, size: nat, bytes: nat)
    requires 1 <= size <= 2 && k % AtomElements(size) == 0 && FeaturesEndBy(m, k, size, bytes)
    ensures FeatureBytes(m, k, size) <= bytes
  {
    var C2 := AtomElements(size);
    FeatureBytesCount(m, k, size);
    FeaturesFill(m, k, C2);
    var count := |FeaturePlaces(m, k, C2)|;
    if 0 < count {
      assert count - 1 in FeaturePlaces(m, k, C2);
      var c: nat, h: nat :| 1 <= c <= k && 1 <= h <= m && count - 1 == FeatureData(m, 1, C2, c, h, 1);
      assert FeatureEnd(m, size, c, h) <= bytes;
    }
  }

  lemma CountedFeatures(m: nat, k: nat, size: nat, bytes: nat)
    requires 1 <= size <= 2 && k % AtomElements(size) == 0 && FeatureBytes(m, k, size) <= bytes
    ensures FeaturesEndBy(m, k, size, bytes)
  {
    var C2, places := AtomElements(size), FeaturePlaces(m, k, AtomElements(size));
    FeatureBytesCount(m, k, size);
    FeaturesFill(m, k, C2);
    forall c: nat, h: nat | 1 <= c <= k && 1 <= h <= m ensures FeatureEnd(m, size, c, h) <= bytes {
      assert FeatureData(m, 1, C2, c, h, 1) in places;
      MulMono(FeatureData(m, 1, C2, c, h, 1) + 1, |places|, size);
    }
  }

  lemma FeaturesEnd(m: nat, k: nat, size: nat, bytes: nat)
    requires 1 <= size <= 2 && k % AtomElements(size) == 0
    ensures FeaturesEndBy(m, k, size, bytes) <==> FeatureBytes(m, k, size) <= bytes
  {
    if FeaturesEndBy(m, k, size, bytes) { FeaturesCounted(m, k, size, bytes); }
    if FeatureBytes(m, k, size) <= bytes { CountedFeatures(m, k, size, bytes); }
  }

  lemma WeightBytesCount(k: nat, n: nat, size: nat)
    requires 1 <= size <= 2 && k % 32 == 0 && n % TileRows(size) == 0
    ensures WeightBytes(k, n, size) == size * |WeightPlaces(TileRows(size), k, n)|
  {
    WeightsFill(TileRows(size), k, n);
    Reorder(k, size, n);
  }

  lemma Reorder(a: nat, b: nat, c: nat)
    ensures a * b * c == b * (c * a)
  {
  }

  lemma EndIs(k: nat, size: nat, r: nat, c: nat)
    requires 1 <= size <= 2
    ensures WeightEnd(k, size, r, c) == size * (WeightMatmul(TileRows(size), k, r, c) + 1)
  {
  }

  lemma EndBelow(place: nat, count: nat, size: nat)
    requires place < count
    ensures size * (place + 1) <= size * count
  {
    MulMono(place + 1, count, size);
  }

  lemma WeightEndBelow(k: nat, n: nat, size: nat, r: nat, c: nat)
    requires 1 <= size <= 2 && k % 32 == 0 && n % TileRows(size) == 0 && 1 <= r <= n && 1 <= c <= k
    ensures WeightEnd(k, size, r, c) <= WeightBytes(k, n, size)
  {
    var G := TileRows(size);
    var place, count := WeightMatmul(G, k, r, c), |WeightPlaces(G, k, n)|;
    WeightBytesCount(k, n, size);
    WeightsFill(G, k, n);
    assert place in WeightPlaces(G, k, n);
    EndIs(k, size, r, c);
    EndBelow(place, count, size);
  }

  lemma LastWeight(k: nat, n: nat, size: nat) returns (r: nat, c: nat)
    requires 1 <= size <= 2 && k % 32 == 0 && n % TileRows(size) == 0
    requires WeightPlaces(TileRows(size), k, n) != {}
    ensures 1 <= r <= n && 1 <= c <= k
    ensures WeightEnd(k, size, r, c) == size * |WeightPlaces(TileRows(size), k, n)|
  {
    var G := TileRows(size);
    WeightsFill(G, k, n);
    var count := |WeightPlaces(G, k, n)|;
    assert count - 1 in WeightPlaces(G, k, n);
    r, c :| 1 <= r <= n && 1 <= c <= k && count - 1 == WeightMatmul(G, k, r, c);
    EndIs(k, size, r, c);
  }

  lemma WeightsCounted(k: nat, n: nat, size: nat, bytes: nat)
    requires 1 <= size <= 2 && k % 32 == 0 && n % TileRows(size) == 0 && WeightsEndBy(k, n, size, bytes)
    ensures WeightBytes(k, n, size) <= bytes
  {
    WeightBytesCount(k, n, size);
    if WeightPlaces(TileRows(size), k, n) != {} {
      var r, c := LastWeight(k, n, size);
      assert WeightEnd(k, size, r, c) <= bytes;
    }
  }

  lemma CountedWeights(k: nat, n: nat, size: nat, bytes: nat)
    requires 1 <= size <= 2 && k % 32 == 0 && n % TileRows(size) == 0 && WeightBytes(k, n, size) <= bytes
    ensures WeightsEndBy(k, n, size, bytes)
  {
    forall r: nat, c: nat | 1 <= r <= n && 1 <= c <= k ensures WeightEnd(k, size, r, c) <= bytes {
      WeightEndBelow(k, n, size, r, c);
    }
  }

  lemma WeightsEnd(k: nat, n: nat, size: nat, bytes: nat)
    requires 1 <= size <= 2 && k % 32 == 0 && n % TileRows(size) == 0
    ensures WeightsEndBy(k, n, size, bytes) <==> WeightBytes(k, n, size) <= bytes
  {
    if WeightsEndBy(k, n, size, bytes) { WeightsCounted(k, n, size, bytes); }
    if WeightBytes(k, n, size) <= bytes { CountedWeights(k, n, size, bytes); }
  }

  // ---- what acceptance means -------------------------------------------------------------

  /** A split serves a shape: it uses every bank and leaves the weights one; all features lie
      in the data banks below the slack; one kernel fits a bank; and the weights all lie in
      theirs, or are streamed through two banks, room for 32 kernels and the slack, and are
      not then taken for resident. A bank is 32768 bytes. */
  ghost predicate Serves(banks: nat, m: nat, k: nat, n: nat, size: nat, slack: nat, reuse: bool, s: Split)
    requires 1 <= size <= 2
  {
    && s.dataBank + s.weightBank == banks && 1 <= s.weightBank && s.weightReuse == reuse
    && slack <= s.dataBank && FeaturesEndBy(m, k, size, (s.dataBank - slack) * 32768)
    && k * size <= 32768
    && (WeightsEndBy(k, n, size, s.weightBank * 32768)
        || (2 + slack <= s.weightBank && 32 * (k * size) <= (s.weightBank - slack) * 32768 && !reuse))
  }

  lemma CeilBelow(bytes: nat, d: nat)
    ensures CeilBanks(bytes) <= d <==> bytes <= d * 32768
  {
  }

  /** The data banks are the fewest that hold every feature. */
  lemma FewestDataBanks(banks: nat, m: nat, k: nat, n: nat, size: nat, slack: nat, reuse: bool, s: Split, d: nat)
    requires 1 <= size <= 2 && k % AtomElements(size) == 0
    requires SplitOk(banks, m, k, n, size, slack, reuse, s)
    ensures s.dataBank <= d + slack <==> FeaturesEndBy(m, k, size, d * 32768)
  {
    CeilBelow(FeatureBytes(m, k, size), d);
    FeaturesEnd(m, k, size, d * 32768);
  }

  lemma StreamFloor(kernel: nat, slack: nat, w: nat)
    ensures StreamBanks(kernel) + slack <= w <==> 2 + slack <= w && 32 * kernel <= (w - slack) * 32768
  {
    if 2 + slack <= w && 32 * kernel <= (w - slack) * 32768 { StreamBanksFewest(kernel, w - slack); }
  }

  /** The same of byte counts alone. */
  predicate Covers(banks: nat, features: nat, weights: nat, kernel: nat, slack: nat, reuse: bool, s: Split) {
    && s.dataBank + s.weightBank == banks && 1 <= s.weightBank && s.weightReuse == reuse
    && slack <= s.dataBank && features <= (s.dataBank - slack) * 32768
    && kernel <= 32768
    && (weights <= s.weightBank * 32768
        || (2 + slack <= s.weightBank && 32 * kernel <= (s.weightBank - slack) * 32768 && !reuse))
  }

  lemma WholeAtoms(k: nat, size: nat)
    requires 1 <= size <= 2 && k % 32 == 0
    ensures k % AtomElements(size) == 0
  {
    if size == 2 { Digits(k / 32 * 4, 0, 8); } else { Digits(k / 32 * 2, 0, 16); }
  }

  lemma ServesIsCovers(banks: nat, m: nat, k: nat, n: nat, size: nat, slack: nat, reuse: bool, s: Split)
    requires 1 <= size <= 2 && k % 32 == 0 && n % TileRows(size) == 0
    ensures Serves(banks, m, k, n, size, slack, reuse, s)
            <==> Covers(banks, FeatureBytes(m, k, size), WeightBytes(k, n, size), k * size, slack, reuse, s)
  {
    WeightsEnd(k, n, size, s.weightBank * 32768);
    WholeAtoms(k, size);
    if slack <= s.dataBank { FeaturesEnd(m, k, size, (s.dataBank - slack) * 32768); }
  }

  lemma SplitCovers(banks: nat, features: nat, weights: nat, kernel: nat, slack: nat, reuse: bool, s: Split)
    ensures Covers(banks, features, weights, kernel, slack, reuse, s)
            && s.dataBank == CeilBanks(features) + slack
            <==>
            && s.dataBank + s.weightBank == banks && s.dataBank == CeilBanks(features) + slack
            && s.dataBank < banks && kernel <= BANK && s.weightReuse == reuse
            && (weights <= s.weightBank * BANK || (StreamBanks(kernel) + slack <= s.weightBank && !reuse))
  {
    StreamFloor(kernel, slack, s.weightBank);
  }

  /** A split that covers leaves the weights no more banks than the generator's. */
  lemma FewestCovers(banks: nat, features: nat, weights: nat, kernel: nat, slack: nat, reuse: bool, s: Split)
    requires Covers(banks, features, weights, kernel, slack, reuse, s)
    ensures CeilBanks(features) + slack <= s.dataBank
    ensures var data := CeilBanks(features) + slack;
      Covers(banks, features, weights, kernel, slack, reuse, Split(data, banks - data, reuse))
  {
    CeilBelow(features, s.dataBank - slack);
  }

  /** What a generator accepts is served by its split. */
  lemma AcceptedServes(banks: nat, m: nat, k: nat, n: nat, size: nat, slack: nat, reuse: bool, s: Split)
    requires 1 <= size <= 2 && k % 32 == 0 && n % TileRows(size) == 0
    requires SplitOk(banks, m, k, n, size, slack, reuse, s)
    ensures Serves(banks, m, k, n, size, slack, reuse, s)
  {
    SplitCovers(banks, FeatureBytes(m, k, size), WeightBytes(k, n, size), k * size, slack, reuse, s);
    ServesIsCovers(banks, m, k, n, size, slack, reuse, s);
  }

  lemma ServedIsFeasible(banks: nat, m: nat, k: nat, n: nat, size: nat, slack: nat, reuse: bool, s: Split)
    requires 1 <= size <= 2 && k % 32 == 0 && n % TileRows(size) == 0
    requires Serves(banks, m, k, n, size, slack, reuse, s)
    ensures Feasible(banks, m, k, n, size, slack, reuse)
  {
    var features, weights := FeatureBytes(m, k, size), WeightBytes(k, n, size);
    ServesIsCovers(banks, m, k, n, size, slack, reuse, s);
    FewestCovers(banks, features, weights, k * size, slack, reuse, s);
    var data := CeilBanks(features) + slack;
    SplitCovers(banks, features, weights, k * size, slack, reuse, Split(data, banks - data, reuse));
  }

  /** A generator accepts exactly the shapes some split of the buffer serves. */
  lemma AcceptedExactly(banks: nat, m: nat, k: nat, n: nat, size: nat, slack: nat, reuse: bool)
    requires 1 <= size <= 2 && k % 32 == 0 && n % TileRows(size) == 0
    ensures Feasible(banks, m, k, n, size, slack, reuse)
            <==> exists s :: Serves(banks, m, k, n, size, slack, reuse, s)
  {
    if Feasible(banks, m, k, n, size, slack, reuse) {
      var data := CeilBanks(FeatureBytes(m, k, size)) + slack;
      AcceptedServes(banks, m, k, n, size, slack, reuse, Split(data, banks - data, reuse));
    }
    if s :| Serves(banks, m, k, n, size, slack, reuse, s) {
      ServedIsFeasible(banks, m, k, n, size, slack, reuse, s);
    }
  }

  /** What each refusal says: -1, that the features, or they and their slack, leave the weights
      no bank; -2, that one kernel is past a bank; -3, that the weights neither stay nor stream. */
  lemma CodeMeans(banks: nat, m: nat, k: nat, size: nat, slack: nat)
    requires 1 <= banks && 1 <= size <= 2 && k % AtomElements(size) == 0
    ensures var code := Code(banks, m, k, size, slack);
      var fits := FeaturesEndBy(m, k, size, (banks - 1) * 32768);
      var leaves := slack < banks && FeaturesEndBy(m, k, size, (banks - 1 - slack) * 32768);
      && (code == -1 <==> !fits || (k * size <= 32768 && !leaves))
      && (code == -2 <==> fits && 32768 < k * size)
      && (code == -3 <==> leaves && k * size <= 32768)
  {
    FeaturesEnd(m, k, size, (banks - 1) * 32768);
    CeilBelow(FeatureBytes(m, k, size), banks - 1);
    if slack < banks {
      FeaturesEnd(m, k, size, (banks - 1 - slack) * 32768);
      CeilBelow(FeatureBytes(m, k, size), banks - 1 - slack);
    }
  }
}
