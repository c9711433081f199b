/** Running a network: layer by layer on row-major tensors, or through a plan's surfaces,
    slices and views. A tensor is one plane per channel; a program's arithmetic is an
    arbitrary function of the planes it reads. */
module GraphRun {
  import opened Options
  import opened GraphLayers
  import opened GraphCubes
  import opened GraphPlan

  /** A plane holding one value everywhere, or any other picture. */
  datatype Plane = Flat(z: int) | Image(n: nat)

  type Tensor = seq<Plane>

  /** The plane each channel of each store holds. */
  type Memory = (Store, nat) -> Plane

  /** What one layer reads: its operands, and the channels its DMA walks past the last one. */
  datatype Reads = Reads(x: seq<Tensor>, tail: Tensor)

  /** A layer's output as a function of what it reads. */
  type Sem = (nat, seq<Tensor>, Tensor) -> Tensor

  function Fill(z: int, n: nat): (t: Tensor)
    ensures |t| == n && forall c :: 0 <= c < n ==> t[c] == Flat(z)
  {
    seq(n, _ => Flat(z))
  }

  // ---- what is known of a layer's arithmetic -----------------------------------------

  ghost predicate RightDepth(L: seq<Layer>, sem: Sem) {
    forall i: nat, x: seq<Tensor>, t: Tensor :: i < |L| ==> |sem(i, x, t)| == L[i].oc
  }

  /** Only a sensitive layer's output depends on what lies past its live channels. */
  ghost predicate TailBlind(L: seq<Layer>, sem: Sem) {
    forall i: nat, x: seq<Tensor>, t: Tensor, u: Tensor ::
      i < |L| && !Sensitive(L[i]) && |t| == |u| ==> sem(i, x, t) == sem(i, x, u)
  }

  /** The weights between an add's two operands are zero, so the gap contributes nothing at
      any content. */
  ghost predicate GapBlind(L: seq<Layer>, sem: Sem) {
    forall i: nat, a: Tensor, g: Tensor, h: Tensor, b: Tensor, t: Tensor ::
      i < |L| && L[i].kind == Add && |a| == |b| == L[i].oc && |g| == |h| == AddBoff(L[i]) - L[i].oc
      ==> sem(i, [a + g + b], t) == sem(i, [a + h + b], t)
  }

  ghost predicate SemOk(L: seq<Layer>, sem: Sem) {
    RightDepth(L, sem) && TailBlind(L, sem) && GapBlind(L, sem)
  }

  // ---- row-major execution -----------------------------------------------------------

  /** The tensor in one operand slot: an earlier layer's output, or the network input. */
  function SlotTensor(outs: seq<Tensor>, input: Tensor, p: nat): Tensor {
    if p < |outs| then outs[p] else input
  }

  function OperandTensors(outs: seq<Tensor>, input: Tensor, s: seq<nat>): seq<Tensor> {
    seq(|s|, k requires 0 <= k < |s| => SlotTensor(outs, input, s[k]))
  }

  /** What layer i reads when nothing is linked. The host scatters one tensor, padding it to
      whole 32-channel groups with the input zero point; an add's is built by concatenation. A
      layer whose input the caller prepares depends on anything the caller holds. */
  function RowReads(L: seq<Layer>, outs: seq<Tensor>, input: Tensor, i: nat): Reads
    requires WellFormed(L) && i < |L|
  {
    var l := L[i];
    var a := SlotTensor(outs, input, Src(L, i, 0));
    var b := SlotTensor(outs, input, Src(L, i, 1));
    var pad := Fill(l.pack.inZp, Round32(l.ic) - l.ic);
    var all := OperandTensors(outs, input, Opers(L, i)) + [input];
    match l.kind
    case Conv => Reads(if l.hostInput then all else [a], pad)
    case DwConv => Reads(if l.hostInput then all else [a], pad)
    case AvgPool => Reads(if l.hostInput then all else [a], [])
    case MaxPool => Reads(if l.hostInput then all else [a], [])
    case Add => Reads(if l.hostInput then all else [a + Fill(0, AddBoff(l) - l.oc) + b], pad)
    case Concat => Reads(all, [])
    case Host => Reads(all, [])
  }

  /** The channels of the first k operands, one after another. */
  function Joined(outs: seq<Tensor>, s: seq<nat>, k: nat): Tensor
    requires k <= |s| && forall m :: 0 <= m < |s| ==> s[m] < |outs|
  {
    if k == 0 then [] else Joined(outs, s, k - 1) + outs[s[k - 1]]
  }

  /** A concatenation of whole operands, whose channels add up to its own. */
  predicate AddsUp(L: seq<Layer>, j: nat)
    requires WellFormed(L) && j < |L|
  {
    && L[j].kind == Concat && !L[j].hostInput && Opers(L, j) != []
    && ConcatOff(L, Opers(L, j), |Opers(L, j)|) == L[j].oc
  }

  function RowOut(L: seq<Layer>, sem: Sem, outs: seq<Tensor>, input: Tensor, i: nat): Tensor
    requires WellFormed(L) && i < |L| && |outs| == i
  {
    if AddsUp(L, i) then Joined(outs, Opers(L, i), |Opers(L, i)|)
    else
      var r := RowReads(L, outs, input, i);
      sem(i, r.x, r.tail)
  }

  /** The outputs of the first k layers, executed one by one on row-major tensors. */
  function RowRun(L: seq<Layer>, sem: Sem, input: Tensor, k: nat): (outs: seq<Tensor>)
    requires WellFormed(L) && k <= |L|
    ensures |outs| == k
  {
    if k == 0 then []
    else
      var outs := RowRun(L, sem, input, k - 1);
      outs + [RowOut(L, sem, outs, input, k - 1)]
  }

  // ---- execution through a plan ------------------------------------------------------

  function Read(mem: Memory, store: Store, base: nat, n: nat): (t: Tensor)
    ensures |t| == n && forall c :: 0 <= c < n ==> t[c] == mem(store, base + c)
  {
    seq(n, c requires 0 <= c < n => mem(store, base + c))
  }

  function Write(mem: Memory, store: Store, base: nat, data: Tensor): (m: Memory)
    ensures forall s: Store, c: nat ::
      m(s, c) == if s == store && base <= c < base + |data| then data[c - base] else mem(s, c)
  {
    (s: Store, c: nat) => if s == store && base <= c < base + |data| then data[c - base] else mem(s, c)
  }

  predicate HasProgram(l: Layer) {
    l.kind != Concat && l.kind != Host
  }

  /** A concatenation that is placement has no program and materialises nothing. */
  predicate Placement(L: seq<Layer>, S: State, i: nat)
    requires Sized(L, S) && i < |L|
  {
    L[i].kind == Concat && S.cubeOut[i]
  }

  predicate Materialises(L: seq<Layer>, S: State, i: nat)
    requires Sized(L, S) && i < |L|
  {
    !S.handles[i].leaves && !Placement(L, S, i)
  }

  /** Where layer i's output lives. */
  function HomeStore(L: seq<Layer>, S: State, i: nat): Store
    requires Sized(L, S) && i < |L|
  {
    if L[i].kind == Concat then Buf(i)
    else if S.handles[i].dest.Some? then S.handles[i].dest.value.store
    else Own(i)
  }

  function HomeBase(L: seq<Layer>, S: State, i: nat): nat
    requires Sized(L, S) && i < |L|
  {
    if L[i].kind != Concat && S.handles[i].dest.Some? then S.handles[i].dest.value.base else 0
  }

  /** What a program writes: its live channels and, if it is direct, the padding. */
  function Written(l: Layer, out: Tensor): (t: Tensor)
    ensures |t| == |out| + (WriteDepth(l) - l.oc)
  {
    out + Fill(l.outZp, WriteDepth(l) - l.oc)
  }

  /** The part's state: what every store holds, and the tensors produced so far. */
  datatype Machine = Machine(mem: Memory, outs: seq<Tensor>)

  /** What layer i reads: the cube its handle is bound to, or row-major operands. */
  function PlanReads(L: seq<Layer>, S: State, M: Machine, input: Tensor, i: nat): Reads
    requires WellFormed(L) && Sized(L, S) && i < |L|
  {
    match S.handles[i].source
    case None => RowReads(L, M.outs, input, i)
    case Some(c) =>
      Reads([Read(M.mem, c.store, c.base, c.live)],
            if IsPool(L[i]) then []
            else Read(M.mem, c.store, c.base + c.live, Round32(c.live) - c.live))
  }

  /** Layer i needs a row-major tensor that its producer did not leave. */
  ghost predicate Starved(L: seq<Layer>, S: State, i: nat)
    requires Sized(L, S) && i < |L|
  {
    && S.handles[i].source.None? && !Placement(L, S, i)
    && exists p :: p in L[i].src && p < i && !Materialises(L, S, p)
  }

  function PlanOut(L: seq<Layer>, S: State, sem: Sem, M: Machine, input: Tensor, i: nat): Tensor
    requires WellFormed(L) && Sized(L, S) && i < |L| && |M.outs| == i
  {
    if Placement(L, S, i) then Read(M.mem, Buf(i), 0, L[i].oc)
    else if AddsUp(L, i) then Joined(M.outs, Opers(L, i), |Opers(L, i)|)
    else
      var r := PlanReads(L, S, M, input, i);
      sem(i, r.x, r.tail)
  }

  function Step(L: seq<Layer>, S: State, sem: Sem, M: Machine, input: Tensor, i: nat): (N: Machine)
    requires WellFormed(L) && Sized(L, S) && i < |L| && |M.outs| == i
    ensures |N.outs| == i + 1
  {
    var out := PlanOut(L, S, sem, M, input, i);
    Machine(if HasProgram(L[i])
            then Write(M.mem, HomeStore(L, S, i), HomeBase(L, S, i), Written(L[i], out))
            else M.mem,
            M.outs + [out])
  }

  /** The first k layers of one inference; None when a layer was starved. */
  ghost function PlanRun(L: seq<Layer>, S: State, sem: Sem, mem: Memory, input: Tensor, k: nat)
    : (r: Option<Machine>)
    requires WellFormed(L) && Sized(L, S) && k <= |L|
    ensures r.Some? ==> |r.value.outs| == k
  {
    if k == 0 then Some(Machine(mem, []))
    else
      match PlanRun(L, S, sem, mem, input, k - 1)
      case None => None
      case Some(M) =>
        if Starved(L, S, k - 1) then None else Some(Step(L, S, sem, M, input, k - 1))
  }

  /** Inference after inference over the same memory: the outputs of every layer of each. */
  ghost function Session(L: seq<Layer>, S: State, sem: Sem, mem: Memory, inputs: seq<Tensor>)
    : Option<seq<seq<Tensor>>>
    requires WellFormed(L) && Sized(L, S)
  {
    if inputs == [] then Some([])
    else
      match PlanRun(L, S, sem, mem, inputs[0], |L|)
      case None => None
      case Some(M) =>
        match Session(L, S, sem, M.mem, inputs[1..])
        case None => None
        case Some(rest) => Some([M.outs] + rest)
  }

  /** The same inferences on row-major tensors. */
  function RowSession(L: seq<Layer>, sem: Sem, inputs: seq<Tensor>): seq<seq<Tensor>>
    requires WellFormed(L)
  {
    if inputs == [] then []
    else [RowRun(L, sem, inputs[0], |L|)] + RowSession(L, sem, inputs[1..])
  }

  /** Memory as packing and linking left it: every buffer filled from its fill channel on,
      and the group a packed depthwise surface carries past its channels. */
  ghost predicate Prepared(L: seq<Layer>, S: State, mem: Memory)
    requires Sized(L, S)
  {
    && (forall j: nat, c: nat ::
          j < |L| && S.bufs[j].Some? && S.bufs[j].value.fillFrom <= c < S.bufs[j].value.chans
          ==> mem(Buf(j), c) == Flat(S.bufs[j].value.fill))
    && (forall i: nat, c: nat ::
          i < |L| && PackFilled(L[i]) && L[i].oc <= c < Round32(L[i].oc)
          ==> mem(Own(i), c) == Flat(L[i].outZp))
  }

  /** The plan is invisible: whatever the layers compute and whatever is fed in, every
      layer of every inference has the output it has on row-major tensors. */
  ghost predicate Faithful(L: seq<Layer>, S: State)
    requires WellFormed(L) && Sized(L, S)
  {
    forall sem: Sem, mem: Memory, inputs: seq<Tensor> ::
      SemOk(L, sem) && Prepared(L, S, mem)
      ==> Session(L, S, sem, mem, inputs) == Some(RowSession(L, sem, inputs))
  }

  // ---- when it is --------------------------------------------------------------------

  /** No producer that leaves a cube is read by a host layer. */
  ghost predicate HostFed(L: seq<Layer>, S: State)
    requires Sized(L, S)
  {
    forall p: nat, r: nat :: p < |L| && S.cubeOut[p] ==> !HostReader(L, r, p)
  }

  /** No layer that takes cubes has an input the caller prepares. */
  ghost predicate Unprepared(L: seq<Layer>, S: State)
    requires Sized(L, S)
  {
    forall i: nat :: i < |L| && Takes(L, S, i) ==> !L[i].hostInput
  }

  /** Layer r, beside placed concatenation j, depends on the tail of its operand k and runs
      after operand k + 1, whose program replaces that tail. */
  ghost predicate Overtaken(L: seq<Layer>, S: State, j: nat, k: nat, r: nat)
    requires WellFormed(L) && Sized(L, S)
  {
    && j < |L| && Placement(L, S, j) && k + 1 < |Opers(L, j)|
    && Reader(L, r, Opers(L, j)[k]) && S.cubeIn[r] && Sensitive(L[r])
    && Opers(L, j)[k + 1] < r
  }

  /** Every reader that depends on the tail of a concatenation's operand runs no later than
      the next operand. */
  ghost predicate TailSafe(L: seq<Layer>, S: State)
    requires WellFormed(L) && Sized(L, S)
  {
    forall j: nat, k: nat, r: nat :: !Overtaken(L, S, j, k, r)
  }
}
