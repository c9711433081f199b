/** Cubes: which buffer a tensor lives in, where in it, and what its tail holds; and what a
    resident handle promises when it accepts one. Memory is indexed by channel. */
module GraphCubes {
  import opened Options
  import opened GraphLayers

  /** A handle's own output surface, or a buffer the planner allocated for layer j. */
  datatype Store = Own(i: nat) | Buf(j: nat)

  /** A plane, the group stride between two of them, and whether its rows lie further apart
      than they are wide. */
  datatype Frame = Frame(h: nat, w: nat, surf: nat, pitched: bool)

  /** `live` channels starting at channel `base` of `store`, in `depth` channels of whole
      groups, each a plane of `frame`. A non-zero `padFrom` states that channels
      [padFrom, depth) all hold `padValue`. */
  datatype Cube = Cube(store: Store, base: nat, live: nat, depth: nat, frame: Frame,
                       padFrom: nat, padValue: int)

  /** A buffer of `chans` channels whose channels from `fillFrom` on were filled with `fill`
      when it was linked; the ones below it start as zeros. */
  datatype Buffer = Buffer(chans: nat, frame: Frame, fillFrom: nat, fill: int)

  /** A buffer's planes are packed. */
  function FrameOf(l: Layer): Frame { Frame(l.oh, l.ow, PlaneSize(l), false) }

  /** The state of one resident handle that a planner can change: the cube it reads instead
      of a row-major tensor, the slice it writes instead of its own surface, whether it
      leaves its output in cube layout, and whether that output was declared shared. */
  datatype Handle = Handle(source: Option<Cube>, dest: Option<Cube>, leaves: bool, shared: bool)

  const IDLE := Handle(None, None, false, false)

  // ---- what a program writes ---------------------------------------------------------

  /** An add is lowered onto a direct convolution. */
  predicate Direct(l: Layer) {
    l.kind == Conv || l.kind == Add
  }

  /** The channels a program writes: a direct one its whole 32-channel register count, the
      padding landing on the output zero point; the others the raw count. */
  function WriteDepth(l: Layer): nat {
    if Direct(l) then Round32(l.oc) else l.oc
  }

  /** The same in whole groups. */
  function WholeDepth(l: Layer): nat {
    if Direct(l) then Round32(l.oc) else Round16(l.oc)
  }

  /** The group stride of a handle's own surface. */
  function OwnSurf(l: Layer): nat {
    var n := l.oh * l.pack.pitch;
    if Direct(l) then n else Round4(n)
  }

  /** A depthwise surface whose raw count ends on a group but not on 32 channels carries one
      group more, filled with the output zero point when the handle is packed. */
  predicate PackFilled(l: Layer) {
    l.kind == DwConv && l.oc % 16 == 0 && l.oc % 32 != 0
  }

  function OwnDepth(l: Layer): nat {
    if Direct(l) || PackFilled(l) then Round32(l.oc) else Round16(l.oc)
  }

  // ---- describing an output ----------------------------------------------------------

  /** An output split over several surfaces is no cube, and a pool's is one only when its
      channels fill their groups. */
  predicate Describable(l: Layer) {
    !l.pack.split && (IsPool(l) ==> l.oc % 16 == 0)
  }

  /** Layer i's output as a cube: on its own surface, or in the slice it was given. Only the
      producer can say what its tail holds. */
  function CubeOf(L: seq<Layer>, i: nat, dest: Option<Cube>): Cube
    requires i < |L|
  {
    var l := L[i];
    var depth := if dest.None? then OwnDepth(l) else WholeDepth(l);
    var declares :=
      Direct(l) || (l.kind == DwConv && ((dest.None? && PackFilled(l)) || depth == l.oc));
    Cube(if dest.None? then Own(i) else dest.value.store,
         if dest.None? then 0 else dest.value.base,
         l.oc, depth,
         if dest.None? then Frame(l.oh, l.ow, OwnSurf(l), l.pack.pitch != l.ow) else dest.value.frame,
         if declares then l.oc else 0, if declares then l.outZp else 0)
  }

  // ---- slices and declared tails -----------------------------------------------------

  function Whole(j: nat, b: Buffer): Cube {
    Cube(Buf(j), 0, b.chans, Round16(b.chans), b.frame, 0, 0)
  }

  /** `c` channels of `buf` from channel `c0`, which must start a group and stay inside. */
  function Slice(buf: Cube, c0: nat, c: nat): Option<Cube> {
    if c == 0 || c0 % 16 != 0 || c0 + c > buf.depth then None
    else Some(Cube(buf.store, buf.base + c0, c, Round16(c), buf.frame, 0, 0))
  }

  /** Narrows a cube to `live` channels and states what the channels past them hold. */
  function DeclareTail(c: Cube, live: nat, value: int): Option<Cube> {
    if live == 0 || live > c.depth then None
    else if live < c.depth then Some(c.(live := live, padFrom := live, padValue := value))
    else Some(c.(live := live, padFrom := 0, padValue := 0))
  }

  // ---- what acceptance means ---------------------------------------------------------

  /** A reader whose value depends on the channels past its live count: the ones its feature
      DMA walks to fill a 32-channel group, at a non-zero weight zero point. */
  predicate Sensitive(l: Layer) {
    !IsPool(l) && l.ic % 32 != 0 && l.wZp != 0
  }

  /** What a handle promises by reading from `c`. It may refuse for reasons of its own. */
  predicate AcceptsInput(l: Layer, c: Cube) {
    && c.live == l.ic && c.frame.h == l.pack.ih && c.frame.w == l.pack.iw
    && c.base % 16 == 0
    && (if IsPool(l) then l.ic % 16 == 0 && l.ic <= c.depth
        else
          && !l.pack.image && !c.frame.pitched && l.pack.ih * l.pack.iw <= c.frame.surf
          && Round32(l.ic) <= c.depth
          && (Sensitive(l) ==> 0 < c.padFrom <= l.ic && c.padValue == l.pack.inZp))
  }

  /** What a handle promises by writing into `d`, a slice of a buffer of `chans` channels. */
  predicate AcceptsOutput(l: Layer, d: Cube, chans: nat) {
    && !l.pack.split && d.frame.h == l.oh && d.frame.w == l.ow && !d.frame.pitched
    && d.base % 16 == 0
    && WholeDepth(l) <= d.depth
    && d.base + WholeDepth(l) <= chans
    && (if IsPool(l) then l.oc % 16 == 0 && PlaneSize(l) <= d.frame.surf
        else l.pack.pitch == l.ow && d.frame.surf == OwnSurf(l))
  }

  // ---- the placements ----------------------------------------------------------------

  /** An add's buffer is as deep as its feature DMA walks. */
  function AddBuffer(l: Layer): Buffer {
    var chans := Round32(AddBoff(l) + l.oc);
    Buffer(chans, FrameOf(l), chans, 0)
  }

  function AddLo(L: seq<Layer>, j: nat): Cube requires j < |L| {
    Cube(Buf(j), 0, L[j].oc, Round16(L[j].oc), FrameOf(L[j]), 0, 0)
  }

  function AddHi(L: seq<Layer>, j: nat): Cube requires j < |L| {
    Cube(Buf(j), AddBoff(L[j]), L[j].oc, Round16(L[j].oc), FrameOf(L[j]), 0, 0)
  }

  function AddAll(L: seq<Layer>, j: nat): Cube requires j < |L| {
    var c := AddBoff(L[j]) + L[j].oc;
    Cube(Buf(j), 0, c, Round16(c), FrameOf(L[j]), 0, 0)
  }

  predicate InTable(L: seq<Layer>, s: seq<nat>) {
    forall k :: 0 <= k < |s| ==> s[k] < |L|
  }

  /** The channel counts of the first k operands, added up: operand k's offset. */
  function ConcatOff(L: seq<Layer>, s: seq<nat>, k: nat): nat
    requires k <= |s| && InTable(L, s)
  {
    if k == 0 then 0 else ConcatOff(L, s, k - 1) + L[s[k - 1]].oc
  }

  /** Where the last operand's program stops writing. */
  function ConcatEnd(L: seq<Layer>, s: seq<nat>): nat
    requires s != [] && InTable(L, s)
  {
    ConcatOff(L, s, |s| - 1) + Round32(L[s[|s| - 1]].oc)
  }

  /** The buffer holds what a reader walks and what the last operand writes; the groups from
      the one the live channels end in are filled with the zero point. */
  function ConcatBuffer(L: seq<Layer>, j: nat, s: seq<nat>): Buffer
    requires j < |L| && s != [] && InTable(L, s)
  {
    var oc := L[j].oc;
    var chans := if ConcatEnd(L, s) > Round32(oc) then ConcatEnd(L, s) else Round32(oc);
    Buffer(chans, FrameOf(L[j]), if chans > oc then oc / 16 * 16 else chans,
           if chans > oc then L[j].outZp else 0)
  }

  /** Operand k's slice is sized for what it writes, not for what it lives. */
  function ConcatSlice(L: seq<Layer>, j: nat, s: seq<nat>, k: nat): Cube
    requires j < |L| && k < |s| && InTable(L, s)
  {
    var c := Round32(L[s[k]].oc);
    Cube(Buf(j), ConcatOff(L, s, k), c, c, FrameOf(L[j]), 0, 0)
  }

  function ConcatView(L: seq<Layer>, j: nat, s: seq<nat>): Cube
    requires j < |L| && s != [] && InTable(L, s)
  {
    var b := ConcatBuffer(L, j, s);
    var oc := L[j].oc;
    Cube(Buf(j), 0, oc, Round16(b.chans), FrameOf(L[j]),
         if oc < Round16(b.chans) then oc else 0,
         if oc < Round16(b.chans) then L[j].outZp else 0)
  }

  /** A producer that cannot state its own tail is given a 32-channel-deep buffer. */
  function TailBuffer(l: Layer): Buffer {
    Buffer(Round32(l.oc), FrameOf(l), l.oc / 16 * 16, l.outZp)
  }

  function TailSlice(L: seq<Layer>, i: nat): Cube requires i < |L| {
    Cube(Buf(i), 0, Round32(L[i].oc), Round32(L[i].oc), FrameOf(L[i]), 0, 0)
  }

  function TailView(L: seq<Layer>, i: nat): Cube requires i < |L| {
    TailSlice(L, i).(live := L[i].oc, padFrom := L[i].oc, padValue := L[i].outZp)
  }

  lemma Round32Whole(x: nat)
    ensures Round32(x) % 32 == 0 && Round16(Round32(x)) == Round32(x)
    ensures x <= Round32(x) < x + 32
  {
    var k := (x + 31) / 32;
    assert Round32(x) == 32 * k;
    assert (32 * k + 15) / 16 == 2 * k;
  }

  /** A slice of a packed buffer that starts a group and stays inside. */
  lemma CutOf(j: nat, b: Buffer, c0: nat, c: nat)
    requires 0 < c && c0 % 16 == 0 && c0 + c <= Round16(b.chans)
    ensures Slice(Whole(j, b), c0, c) == Some(Cube(Buf(j), c0, c, Round16(c), b.frame, 0, 0))
  {
  }

  lemma AddRoom(oc: nat)
    ensures var boff := Round16(oc);
      boff % 16 == 0 && oc <= boff && boff + oc <= Round16(Round32(boff + oc))
  {
    Round16Whole(oc);
    Round32Whole(Round16(oc) + oc);
  }

  lemma Round16Whole(x: nat)
    ensures Round16(x) % 16 == 0 && x <= Round16(x)
  {
    var k := (x + 15) / 16;
    assert Round16(x) == 16 * k;
  }

  /** The library's own cutting gives an add's view and its two slices. */
  lemma CutIsAdd(L: seq<Layer>, j: nat)
    requires j < |L| && 0 < L[j].oc
    ensures var b, boff := AddBuffer(L[j]), AddBoff(L[j]);
      && Slice(Whole(j, b), 0, boff + L[j].oc) == Some(AddAll(L, j))
      && Slice(Whole(j, b), 0, L[j].oc) == Some(AddLo(L, j))
      && Slice(Whole(j, b), boff, L[j].oc) == Some(AddHi(L, j))
  {
    var b, boff := AddBuffer(L[j]), AddBoff(L[j]);
    AddRoom(L[j].oc);
    CutOf(j, b, 0, boff + L[j].oc);
    CutOf(j, b, 0, L[j].oc);
    CutOf(j, b, boff, L[j].oc);
  }

  /** The library's own cutting gives the slices and the view above. */
  lemma CutIsSlice(L: seq<Layer>, j: nat, s: seq<nat>, k: nat)
    requires j < |L| && InTable(L, s) && s != [] && k < |s|
    ensures var cut := Slice(Whole(j, ConcatBuffer(L, j, s)), ConcatOff(L, s, k), Round32(L[s[k]].oc));
            cut.Some? ==> cut.value == ConcatSlice(L, j, s, k)
  {
    Round32Whole(L[s[k]].oc);
  }

  lemma CutIsView(L: seq<Layer>, j: nat, s: seq<nat>)
    requires j < |L| && InTable(L, s) && s != [] && 0 < L[j].oc
    ensures var b := ConcatBuffer(L, j, s);
            var cut := Slice(Whole(j, b), 0, b.chans);
            cut.Some? ==>
              DeclareTail(cut.value, L[j].oc, L[j].outZp) == Some(ConcatView(L, j, s))
  {
    Round32Whole(L[j].oc);
  }

  // ---- the offset arithmetic of a concatenation --------------------------------------

  /** An operand's live channels end at or before any later operand's offset. */
  lemma {:induction false} OffsetsRise(L: seq<Layer>, s: seq<nat>, m: nat, k: nat)
    requires m < k <= |s| && InTable(L, s)
    ensures ConcatOff(L, s, m) + L[s[m]].oc <= ConcatOff(L, s, k)
  {
    if m + 1 < k { OffsetsRise(L, s, m, k - 1); }
  }

  /** Given that every operand has channels and starts on a group, no operand's program
      stops writing past where a later one does, so the planner's own test of that (a write
      end below the previous one refuses the concatenation) never fires. */
  lemma WriteEndsNeverFall(L: seq<Layer>, s: seq<nat>, k: nat)
    requires k + 1 < |s| && InTable(L, s) && (forall i :: 0 <= i < |s| ==> 0 < L[s[i]].oc)
    requires ConcatOff(L, s, k) % 16 == 0 && ConcatOff(L, s, k + 1) % 16 == 0
    ensures ConcatOff(L, s, k) + Round32(L[s[k]].oc)
            <= ConcatOff(L, s, k + 1) + Round32(L[s[k + 1]].oc)
  {
    var a, b := L[s[k]].oc, L[s[k + 1]].oc;
    assert ConcatOff(L, s, k + 1) == ConcatOff(L, s, k) + a;
    assert a % 16 == 0;
    assert Round32(a) <= a + 16;
  }

  /** So every operand's program stops inside the buffer the planner allocates. */
  lemma {:induction false} WriteEndsFit(L: seq<Layer>, s: seq<nat>, k: nat)
    requires k < |s| && InTable(L, s) && (forall i :: 0 <= i < |s| ==> 0 < L[s[i]].oc)
    requires forall i :: 0 <= i < |s| ==> ConcatOff(L, s, i) % 16 == 0
    ensures ConcatOff(L, s, k) + Round32(L[s[k]].oc) <= ConcatEnd(L, s)
    decreases |s| - k
  {
    if k + 1 < |s| {
      WriteEndsFit(L, s, k + 1);
      WriteEndsNeverFall(L, s, k);
    }
  }
}
