/** The layer table a caller hands to the RK3576 graph planner, and the dataflow
    queries every pass is written over. */
module GraphLayers {

  /** The unused operand slot: the network input, or no operand at all. */
  const NO_SRC: nat := 0xFFFF_FFFF
  const MAX_SRC: nat := 4

  datatype Kind = Conv | DwConv | AvgPool | MaxPool | Add | Concat | Host

  /** What a handle was packed as: the plane it reads and its input zero point; whether it reads
      a packed image; how wide the rows it writes are, which is the output's width but for a
      packed-image handle that materializes its pad columns; and whether its output is split
      over several surfaces. */
  datatype Pack = Pack(ih: nat, iw: nat, inZp: int, image: bool, pitch: nat, split: bool)

  /** One row of the table. `resident` says the handle the layer's kind calls for is packed, as
      `pack` describes it. */
  datatype Layer = Layer(
    kind: Kind, ic: nat, oc: nat, oh: nat, ow: nat,
    wZp: int, outZp: int, src: seq<nat>,
    hostInput: bool, rowMajorOut: bool, resident: bool, pack: Pack)

  predicate IsPool(l: Layer) {
    l.kind == AvgPool || l.kind == MaxPool
  }

  function Round4(x: nat): nat { (x + 3) / 4 * 4 }
  function Round16(x: nat): nat { (x + 15) / 16 * 16 }
  function Round32(x: nat): nat { (x + 31) / 32 * 32 }

  /** The channel operand B of an add starts at: the next whole group of sixteen. */
  function AddBoff(l: Layer): nat { Round16(l.oc) }

  function PlaneSize(l: Layer): nat { l.oh * l.ow }

  // ---- operands and readers ----------------------------------------------------------

  /** The layer operands in slot order; NO_SRC slots are dropped. */
  function OperandsOf(src: seq<nat>): (s: seq<nat>)
    ensures |s| <= |src|
    ensures forall x :: x in s <==> x in src && x != NO_SRC
  {
    if src == [] then []
    else if src[0] == NO_SRC then OperandsOf(src[1..])
    else [src[0]] + OperandsOf(src[1..])
  }

  /** Layer r runs on the part and one of its operands is layer p. */
  predicate Reader(L: seq<Layer>, r: nat, p: nat) {
    p < r < |L| && L[r].kind != Host && p in L[r].src
  }

  /** Layer r runs on the host and one of its operands is layer p. */
  predicate HostReader(L: seq<Layer>, r: nat, p: nat) {
    p < r < |L| && L[r].kind == Host && p in L[r].src
  }

  predicate Increasing(s: seq<nat>) {
    forall i, j :: 0 <= i < j < |s| ==> s[i] < s[j]
  }

  /** The readers of layer p below index `to`, in table order. */
  function ReadersBelow(L: seq<Layer>, p: nat, to: nat): (s: seq<nat>)
    requires to <= |L|
    ensures forall r: nat :: r in s <==> r < to && Reader(L, r, p)
    ensures Increasing(s)
  {
    if to == 0 then []
    else
      var s := ReadersBelow(L, p, to - 1);
      assert forall k :: 0 <= k < |s| ==> s[k] in s;
      if Reader(L, to - 1, p) then s + [to - 1] else s
  }

  function Readers(L: seq<Layer>, p: nat): seq<nat> {
    ReadersBelow(L, p, |L|)
  }

  /** The first non-host layer at or past `j`; |L| when there is none. */
  function NextFrom(L: seq<Layer>, j: nat): (r: nat)
    requires j <= |L|
    ensures j <= r <= |L|
    ensures r < |L| ==> L[r].kind != Host
    ensures forall k :: j <= k < r ==> L[k].kind == Host
    decreases |L| - j
  {
    if j == |L| || L[j].kind != Host then j else NextFrom(L, j + 1)
  }

  function NextLayer(L: seq<Layer>, i: nat): nat
    requires i < |L|
  {
    NextFrom(L, i + 1)
  }

  /** Some layer other than the one right after i reads i. */
  ghost predicate SkipSource(L: seq<Layer>, i: nat) {
    exists r: nat :: Reader(L, r, i) && r != i + 1
  }

  // ---- what a caller must describe ---------------------------------------------------

  /** The shape of one row. Operands precede their reader; a convolution or a pool has one
      operand slot; an add has two, of its own channel count; a concatenation and a host layer
      have no handle. */
  predicate RowOk(L: seq<Layer>, i: nat)
    requires i < |L|
  {
    var l := L[i];
    && |l.src| == MAX_SRC
    && (forall p :: p in l.src && p != NO_SRC ==> p < i)
    && 0 < l.oc
    && (l.kind != Concat && l.kind != Host ==> l.src[2] == NO_SRC && l.src[3] == NO_SRC)
    && (l.kind.Conv? || l.kind.DwConv? || IsPool(l) ==> l.src[1] == NO_SRC)
    && (l.kind.Add? ==> forall p :: p in l.src && p != NO_SRC ==> p < |L| && L[p].oc == l.oc)
    && (l.kind.Concat? || l.kind.Host? ==> !l.resident)
  }

  predicate WellFormed(L: seq<Layer>) {
    |L| <= NO_SRC && forall i :: 0 <= i < |L| ==> RowOk(L, i)
  }

  /** The operands of an add are two layers. No pass over adds tests it. */
  predicate TwoOperands(L: seq<Layer>, j: nat)
    requires j < |L|
  {
    L[j].kind == Add && |L[j].src| == MAX_SRC && L[j].src[0] != NO_SRC ==> L[j].src[0] != L[j].src[1]
  }

  predicate Distinct(L: seq<Layer>) {
    forall j :: 0 <= j < |L| ==> TwoOperands(L, j)
  }

  /** In a well-formed table, the one operand of a convolution or a pool. */
  lemma SoleOperand(L: seq<Layer>, r: nat, p: nat)
    requires WellFormed(L) && r < |L| && p in L[r].src && p != NO_SRC
    requires !L[r].kind.Add? && !L[r].kind.Concat? && !L[r].kind.Host?
    ensures |L[r].src| == MAX_SRC && p == L[r].src[0]
  {
    assert RowOk(L, r);
  }

  lemma AddOperand(L: seq<Layer>, j: nat, p: nat)
    requires WellFormed(L) && j < |L| && L[j].kind.Add? && p in L[j].src && p != NO_SRC
    ensures |L[j].src| == MAX_SRC && (p == L[j].src[0] || p == L[j].src[1])
  {
    assert RowOk(L, j);
  }

  /** A layer that is not a skip source has no reader but the layer right after it, so its
      successor in execution order is its only possible reader. */
  lemma OnlyReader(L: seq<Layer>, i: nat, r: nat)
    requires i < |L| && !SkipSource(L, i) && Reader(L, r, i)
    ensures r == i + 1 && NextLayer(L, i) == r
  {
  }

  // ---- the queries as the source loops ----------------------------------------------

  /** Collects the layer operands. */
  method OperandList(l: Layer) returns (out: seq<nat>)
    ensures out == OperandsOf(l.src)
  {
    out := [];
    var k := 0;
    while k < |l.src|
      invariant 0 <= k <= |l.src|
      invariant out + OperandsOf(l.src[k..]) == OperandsOf(l.src)
    {
      assert l.src[k..][1..] == l.src[k + 1..];
      if l.src[k] != NO_SRC { out := out + [l.src[k]]; }
      k := k + 1;
    }
  }

  /** Counts layer p's readers and lists them, giving up past `max` of them: a caller may
      not silently wire a subset of a producer's readers. */
  method ConsumersOf(L: seq<Layer>, p: nat, max: nat) returns (n: nat, out: seq<nat>)
    requires p < |L|
    ensures n <= max ==> out == Readers(L, p) && n == |out|
    ensures n > max ==> n == max + 1 && |Readers(L, p)| > max
  {
    n, out := 0, [];
    var j := p + 1;
    NoReaderYet(L, p, j);
    while j < |L|
      invariant p < j <= |L|
      invariant n == |out| <= max
      invariant out == ReadersBelow(L, p, j)
    {
      assert ReadersBelow(L, p, j + 1) ==
             if Reader(L, j, p) then ReadersBelow(L, p, j) + [j] else ReadersBelow(L, p, j);
      if L[j].kind != Host && p in L[j].src {
        if n == max {
          ReadersGrow(L, p, j + 1, |L|);
          return max + 1, out;
        }
        out := out + [j];
        n := n + 1;
      }
      j := j + 1;
    }
  }

  lemma {:induction false} NoReaderYet(L: seq<Layer>, p: nat, to: nat)
    requires to <= |L| && to <= p + 1
    ensures ReadersBelow(L, p, to) == []
  {
    if to > 0 { NoReaderYet(L, p, to - 1); }
  }

  lemma {:induction false} ReadersGrow(L: seq<Layer>, p: nat, a: nat, b: nat)
    requires a <= b <= |L|
    ensures |ReadersBelow(L, p, a)| <= |ReadersBelow(L, p, b)|
    decreases b
  {
    if a < b { ReadersGrow(L, p, a, b - 1); }
  }

  /** Steps over the host layers that follow layer i. */
  method NextLayerOf(L: seq<Layer>, i: nat) returns (j: nat)
    requires i < |L|
    ensures j == NextLayer(L, i)
  {
    j := i + 1;
    while j < |L| && L[j].kind == Host
      invariant i < j <= |L|
      invariant NextFrom(L, j) == NextLayer(L, i)
    {
      j := j + 1;
    }
  }

  /** Whether anything but the layer right after i reads it. */
  method IsSkipSource(L: seq<Layer>, i: nat) returns (b: bool)
    requires i < |L|
    ensures b <==> SkipSource(L, i)
  {
    var j := i + 1;
    while j < |L|
      invariant i < j <= |L|
      invariant forall r: nat :: r < j && Reader(L, r, i) ==> r == i + 1
    {
      if L[j].kind != Host && i in L[j].src && j != i + 1 {
        assert Reader(L, j, i);
        return true;
      }
      j := j + 1;
    }
    b := false;
  }
}
