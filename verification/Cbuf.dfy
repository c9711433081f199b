/** How a matmul generator splits the on-chip buffer between features and weights, and which
    shapes it refuses. */
module Cbuf {
  import opened Arith

  const BANK: nat := 32768

  newtype uint16 = x: int | 0 <= x < 0x1_0000

  datatype Split = Split(dataBank: nat, weightBank: nat, weightReuse: bool)

  /** Refusals carry the generator's own codes. */
  datatype Outcome = Refused(code: int) | Accepted(split: Split)

  function CeilBanks(bytes: nat): (b: nat)
    ensures bytes <= b * BANK && (forall n: nat :: bytes <= n * BANK ==> b <= n)
  {
    (bytes + BANK - 1) / BANK
  }

  /** The fewest weight banks a streamed cube runs in: one whole 32-kernel atom, at least two. */
  function StreamBanks(perKernel: nat): (b: nat)
    ensures 2 <= b && perKernel * 32 <= b * BANK
  {
    var atom := (perKernel * 32 + BANK - 1) / BANK;
    if atom < 2 then 2 else atom
  }

  /** No fewer would do. */
  lemma StreamBanksFewest(perKernel: nat, n: nat)
    requires 2 <= n && perKernel * 32 <= n * BANK
    ensures StreamBanks(perKernel) <= n
  {
    DivBelow(perKernel * 32 + BANK - 1, n + 1, BANK);
  }

  /** A shape's bytes at `size` bytes an element, exactly. */
  function FeatureBytes(m: nat, k: nat, size: nat): nat {
    MulMono(0, m, k);
    MulMono(0, m * k, size);
    m * k * size
  }

  function WeightBytes(k: nat, n: nat, size: nat): nat { k * size * n }

  /** What an accepted split gives: it uses every bank, the features and `slack` banks more
      fit their side, one kernel fits a bank, and the weights either fit theirs or are
      streamed above the floor by `slack` and never taken for resident. */
  predicate SplitOk(banks: nat, m: nat, k: nat, n: nat, size: nat, slack: nat, reuse: bool, s: Split) {
    && s.dataBank + s.weightBank == banks
    && s.dataBank == CeilBanks(FeatureBytes(m, k, size)) + slack
    && s.dataBank < banks
    && k * size <= BANK
    && s.weightReuse == reuse
    && (WeightBytes(k, n, size) <= s.weightBank * BANK
        || (StreamBanks(k * size) + slack <= s.weightBank && !reuse))
  }

  /** Some split of the buffer serves the shape. */
  predicate Feasible(banks: nat, m: nat, k: nat, n: nat, size: nat, slack: nat, reuse: bool) {
    var data := CeilBanks(FeatureBytes(m, k, size)) + slack;
    data < banks && SplitOk(banks, m, k, n, size, slack, reuse, Split(data, banks - data, reuse))
  }

  /** The byte count of the features is no more than the generator's arithmetic holds. */
  predicate CountsExact(m: nat, k: nat, size: nat) {
    m * k < 0x8000_0000 && FeatureBytes(m, k, size) < 0x1_0000_0000
  }

  /** Why an infeasible shape is refused: the features leave no bank, one kernel is past a bank,
      the features and their slack leave no bank, or the weights neither fit nor stream. */
  function Code(banks: nat, m: nat, k: nat, size: nat, slack: nat): int {
    var data := CeilBanks(FeatureBytes(m, k, size));
    if banks <= data then -1 else if k * size > BANK then -2 else if banks <= data + slack then -1 else -3
  }

  /** The code r refuses a shape with; a kernel past a bank may also have wrapped the count. */
  predicate CodeOk(banks: nat, m: nat, k: nat, size: nat, slack: nat, code: int) {
    && (CountsExact(m, k, size) ==> code == Code(banks, m, k, size, slack))
    && (!CountsExact(m, k, size) ==> k * size > BANK && (code == -1 || code == -2))
  }

  lemma OnlySplit(banks: nat, m: nat, k: nat, n: nat, size: nat, slack: nat, reuse: bool, s: Split)
    requires SplitOk(banks, m, k, n, size, slack, reuse, s)
    ensures Feasible(banks, m, k, n, size, slack, reuse)
    ensures s == Split(CeilBanks(FeatureBytes(m, k, size)) + slack, banks - s.dataBank, reuse)
  {
  }

  /** The C product of four factors narrowed to 32 bits. The product of the first three is
      signed, so past 2^31 it may be anything. */
  method ProductBytes(m: uint16, k: uint16, size: nat) returns (bytes: nat)
    requires 1 <= size <= 2
    ensures CountsExact(m as nat, k as nat, size) ==> bytes == FeatureBytes(m as nat, k as nat, size)
    ensures bytes < 0x1_0000_0000
  {
    var total := FeatureBytes(m as nat, k as nat, size);
    if m as nat * k as nat < 0x8000_0000 {
      bytes := total % 0x1_0000_0000;
    } else {
      var any: int := *;
      bytes := any % 0x1_0000_0000;
    }
  }

  method BanksOf(bytes: nat) returns (b: nat)
    ensures b == CeilBanks(bytes)
  {
    b := bytes / BANK;
    if bytes % BANK != 0 { b := b + 1; }
  }

  /** When one kernel fits a bank no product wraps, whatever the other extents. */
  lemma NoWrap(m: nat, k: nat, n: nat, size: nat)
    requires m <= 0xFFFF && n <= 0xFFFF && 1 <= size <= 2 && k * size <= BANK
    ensures m * k < 0x8000_0000 && FeatureBytes(m, k, size) < 0x1_0000_0000
    ensures WeightBytes(k, n, size) < 0x1_0000_0000
  {
    MulMono(m, 0xFFFF, k);
    MulMono(k, BANK, 0xFFFF);
    MulMono(n, 0xFFFF, k * size);
    assert m * k * size == m * (k * size);
    MulMono(m, 0xFFFF, k * size);
    assert k * size * n == n * (k * size);
  }

  /** The fp16 generator's split: every shape it accepts, and exactly those it should. */
  method MatmulFp16(banks: nat, m: uint16, k: uint16, n: uint16, reuse: bool) returns (r: Outcome)
    requires 1 <= banks <= 0xFF
    ensures r.Accepted? ==> SplitOk(banks, m as nat, k as nat, n as nat, 2, 0, reuse, r.split)
    ensures r.Accepted? <==> Feasible(banks, m as nat, k as nat, n as nat, 2, 0, reuse)
    ensures r.Refused? ==> CodeOk(banks, m as nat, k as nat, 2, 0, r.code)
  {
    var perKernel := k as nat * 2;
    var fdBytes := ProductBytes(m, k, 2);
    var fdBanks := BanksOf(fdBytes);
    if perKernel <= BANK { NoWrap(m as nat, k as nat, n as nat, 2); }
    if fdBanks > banks - 1 { return Refused(-1); }
    if perKernel > BANK { return Refused(-2); }
    assert fdBytes == FeatureBytes(m as nat, k as nat, 2);
    var weightBytes := perKernel * n as nat % 0x1_0000_0000;
    assert weightBytes == WeightBytes(k as nat, n as nat, 2);
    var weightBanks := banks - fdBanks;
    var s := Split(fdBanks, weightBanks, reuse);
    if weightBytes > weightBanks * BANK && (weightBanks < StreamBanks(perKernel) || reuse) {
      return Refused(-3);
    }
    assert SplitOk(banks, m as nat, k as nat, n as nat, 2, 0, reuse, s);
    return Accepted(s);
  }

  /** The int8 generator's: the feature DMA reads one bank past its cube, so one bank more is
      kept for it, and a streamed cube needs one bank more than the floor. */
  method MatmulInt8(banks: nat, m: uint16, k: uint16, n: uint16, reuse: bool) returns (r: Outcome)
    requires 1 <= banks <= 0xFF
    ensures r.Accepted? ==> SplitOk(banks, m as nat, k as nat, n as nat, 1, 1, reuse, r.split)
    ensures r.Accepted? <==> Feasible(banks, m as nat, k as nat, n as nat, 1, 1, reuse)
    ensures r.Refused? ==> CodeOk(banks, m as nat, k as nat, 1, 1, r.code)
  {
    var perKernel := k as nat;
    var fdBytes := ProductBytes(m, k, 1);
    var fdBanks := BanksOf(fdBytes);
    if perKernel <= BANK { NoWrap(m as nat, k as nat, n as nat, 1); }
    if fdBanks > banks - 1 { return Refused(-1); }
    if perKernel > BANK { return Refused(-2); }
    if fdBanks + 1 > banks - 1 { return Refused(-1); }
    assert fdBytes == FeatureBytes(m as nat, k as nat, 1);
    var weightBytes := perKernel * n as nat % 0x1_0000_0000;
    assert weightBytes == WeightBytes(k as nat, n as nat, 1);
    var dataBank := fdBanks + 1;
    var weightBanks := banks - dataBank;
    var s := Split(dataBank, weightBanks, reuse);
    if weightBytes > weightBanks * BANK && (weightBanks < StreamBanks(perKernel) + 1 || reuse) {
      return Refused(-3);
    }
    assert SplitOk(banks, m as nat, k as nat, n as nat, 1, 1, reuse, s);
    return Accepted(s);
  }

  /** What acceptance means for the hardware: the feature cube lies in its own banks, and the
      weights, when not all on chip at once, have room for a whole 32-kernel atom. */
  lemma AcceptedFits(banks: nat, m: nat, k: nat, n: nat, size: nat, slack: nat, reuse: bool, s: Split)
    requires SplitOk(banks, m, k, n, size, slack, reuse, s)
    ensures FeatureBytes(m, k, size) + slack * BANK <= s.dataBank * BANK
    ensures WeightBytes(k, n, size) > s.weightBank * BANK ==>
      !s.weightReuse && 2 + slack <= s.weightBank && k * size * 32 + slack * BANK <= s.weightBank * BANK
    ensures 1 <= s.weightBank
  {
    MulMono(CeilBanks(FeatureBytes(m, k, size)) + slack, s.dataBank, BANK);
  }
}
