/** The emitted program as a register map: which register each of its 126 words writes, and
    the value it writes there as a sum of masked and weighted fields. */
module RegisterMap {
  import opened Arith
  import opened Decoder
  import opened Emitter

  /** The writes the words make: each its register, whose block is the upper half, and value. */
  function Writes(ws: seq<nat>): seq<(nat, nat)> {
    if ws == [] then []
    else Writes(ws[..|ws| - 1]) + [(WordAt(ws[|ws| - 1]), WordValue(ws[|ws| - 1]))]
  }

  /** Write i is of v to register `at`. */
  predicate Is(vs: seq<(nat, nat)>, i: nat, at: nat, v: int) {
    i < |vs| && vs[i].0 == at && vs[i].1 == v
  }

  /** The low w bits of v. */
  function Low(v: nat, w: nat): nat
    decreases v, w
  {
    if w == 0 then 0 else v % 2 + 2 * Low(v / 2, w - 1)
  }

  /** Zero is written to n registers from `first` on. */
  predicate ZerosFrom(vs: seq<(nat, nat)>, i: nat, n: nat, first: nat) {
    forall x: nat :: x < n ==> Is(vs, i + x, first + 4 * x, 0)
  }

  predicate CnaGeometryLoIs(vs: seq<(nat, nat)>, c: Cna) {
    && Is(vs, 2, 0x0201_100C, Low(c.groupLineOff, 1) * 0x2000_0000
          + Low(c.procPrecision, 3) * 0x80 + Low(c.inPrecision, 3) * 0x10 + Low(c.convMode, 4))
    && Is(vs, 3, 0x0201_1010, Low(c.kernelGroups, 8) * 0x1_0000 + Low(c.featureGrains, 10) * 0x10)
    && Is(vs, 4, 0x0201_1014, Low(c.convYStride, 3) * 8 + Low(c.convXStride, 3))
    && Is(vs, 5, 0x0201_1020, Low(c.datainWidth, 11) * 0x1_0000 + Low(c.datainHeight, 11))
    && Is(vs, 6, 0x0201_1024, Low((c.datainChannel - 1) % 0x1_0000, 16) * 0x1_0000
          + Low(c.datainChannel, 16))
    && Is(vs, 7, 0x0201_1028, Low(c.dataoutWidth, 11))
  }

  predicate CnaGeometryHiIs(vs: seq<(nat, nat)>, c: Cna) {
    && Is(vs, 8, 0x0201_102C, Low(c.dataoutAtomics, 18))
    && Is(vs, 9, 0x0201_1030, c.weightBytes % 0x1_0000_0000)
    && Is(vs, 10, 0x0201_1034, Low(c.weightBytesPerKernel, 19))
    && Is(vs, 11, 0x0201_1038, Low(c.weightWidth, 5) * 0x100_0000
          + Low(c.weightHeight, 5) * 0x1_0000 + Low(c.weightKernels, 14))
    && Is(vs, 12, 0x0201_1040, Low(Flag(c.weightReuse), 1) * 0x2000
          + Low(Flag(c.dataReuse), 1) * 0x1000 + Low(c.weightBank, 4) * 0x10 + Low(c.dataBank, 4))
    && Is(vs, 13, 0x0201_1044, Low(c.dataEntries, 13))
  }

  predicate CnaFeedLoIs(vs: seq<(nat, nat)>, c: Cna) {
    && Is(vs, 14, 0x0201_104C, Low(c.dataSign, 1) * 8 + Low(c.cvtType, 1) * 2 + Low(c.cvtBypass, 1))
    && Is(vs, 15, 0x0201_1050, Low(c.cvtScale0, 16) * 0x1_0000)
    && Is(vs, 16, 0x0201_1054, Low(c.cvtScale1, 16) * 0x1_0000)
    && Is(vs, 17, 0x0201_1058, Low(c.cvtScale2, 16) * 0x1_0000)
    && Is(vs, 18, 0x0201_105C, Low(c.cvtScale3, 16) * 0x1_0000)
    && Is(vs, 19, 0x0201_1060, Low(c.fcSkipEn, 1)) && Is(vs, 20, 0x0201_1064, Low(c.dataOffset, 17))
    && Is(vs, 21, 0x0201_1068, Low(c.padLeft, 4) * 0x10 + Low(c.padTop, 4))
  }

  predicate CnaFeedHiIs(vs: seq<(nat, nat)>, c: Cna) {
    && Is(vs, 22, 0x0201_1070, c.featureBaseAddr % 0x1_0000_0000)
    && Is(vs, 23, 0x0201_1074, Low(c.weightOffset, 17))
    && Is(vs, 24, 0x0201_1078, Low(c.weightBurstLen, 4) * 0x1_0000 + Low(c.dataBurstLen, 4))
    && Is(vs, 25, 0x0201_107C, Low(c.lineStride, 28))
    && Is(vs, 26, 0x0201_1080, Low(c.surfStride % 0x1000_0000, 28))
    && Is(vs, 27, 0x0201_1084, Low(c.dmaWidth, 11) * 0x1_0000 + Low(c.dmaHeight, 11))
    && Is(vs, 28, 0x0201_1088, Low(c.dmaChannel, 16))
  }

  predicate CnaDecompressLoIs(vs: seq<(nat, nat)>, c: Cna) {
    && Is(vs, 29, 0x0201_1100, 0) && Is(vs, 30, 0x0201_1104, 0)
    && Is(vs, 31, 0x0201_1110, c.decompressAddr0 % 0x1_0000_0000) && Is(vs, 32, 0x0201_1140, 0)
    && Is(vs, 33, 0x0201_1144, 0) && Is(vs, 34, 0x0201_1148, 0)
  }

  predicate CoreWritesIs(vs: seq<(nat, nat)>, k: Core) {
    && Is(vs, 50, 0x0801_3010, Low(k.procPrecision, 3) * 0x100 + Low(k.qdEn, 1))
    && Is(vs, 51, 0x0801_3014, Low(k.dataoutHeight, 16) * 0x1_0000 + Low(k.dataoutWidth, 16))
    && Is(vs, 52, 0x0801_3018, Low(k.dataoutChannel, 16)) && Is(vs, 53, 0x0801_301C, 0)
    && Is(vs, 54, 0x0801_3030, 0)
  }

  predicate DpuModesIs(vs: seq<(nat, nat)>, d: Dpu) {
    && Is(vs, 55, 0x1001_400C, Low(d.burstLen, 4) * 0x20 + Low(d.convMode, 2) * 8
          + Low(d.outputMode, 2) * 2 + Low(d.flyingMode, 1))
    && Is(vs, 56, 0x1001_4010, Low(d.outPrecision, 3) * 0x2000_0000
          + Low(d.inPrecision, 3) * 0x400_0000 + Low(d.mcSurfOut, 1) * 8 + Low(d.procPrecision, 3))
  }

  predicate DpuSurfaceIs(vs: seq<(nat, nat)>, d: Dpu) {
    && Is(vs, 57, 0x1001_4014, 0) && Is(vs, 58, 0x1001_4020, d.dstBaseAddr % 0x1_0000_0000)
    && Is(vs, 59, 0x1001_4024, Low(d.dstSurfStride, 28) * 0x10)
    && Is(vs, 60, 0x1001_4030, Low(d.width, 13)) && Is(vs, 61, 0x1001_4034, Low(d.height, 13))
  }

  predicate DpuOutputHiIs(vs: seq<(nat, nat)>, d: Dpu) {
    && Is(vs, 62, 0x1001_4038, Low(d.notch, 13) * 0x1_0000 + Low(d.notch, 13))
    && Is(vs, 63, 0x1001_403C, Low(d.channel, 13) * 0x1_0000 + Low(d.channel, 13))
    && Is(vs, 64, 0x1001_4040, Low(d.bsReluBypass, 1) * 0x40 + Low(d.bsMulBypass, 1) * 0x10
          + Low(d.bsAluBypass, 1) * 2 + Low(d.bsBypass, 1))
    && Is(vs, 65, 0x1001_4044, 0) && Is(vs, 66, 0x1001_4048, 0) && Is(vs, 67, 0x1001_404C, 0)
  }

  predicate DpuStagesLoIs(vs: seq<(nat, nat)>, d: Dpu) {
    && Is(vs, 68, 0x1001_4050, Low(d.tpOrgEn, 1) * 0x800_0000 + Low(d.sizeE2, 3) * 0x100
          + Low(d.sizeE1, 3) * 0x20 + Low(d.sizeE0, 3) * 4 + Low(d.odBypass, 1) * 2)
    && Is(vs, 69, 0x1001_4054, Low(d.bsOwOp, 16))
    && Is(vs, 70, 0x1001_4058, Low(d.tpPrecision, 1) * 0x800_0000
          + Low(d.sizeCWdma, 11) * 0x1_0000 + Low(d.channelWdma, 13))
    && Is(vs, 71, 0x1001_405C, Low(d.heightWdma, 13) * 0x1_0000 + Low(d.widthWdma, 13))
    && Is(vs, 72, 0x1001_4060, Low(d.bnReluBypass, 1) * 0x40 + Low(d.bnMulBypass, 1) * 0x10
          + Low(d.bnAluBypass, 1) * 2 + Low(d.bnBypass, 1))
    && Is(vs, 73, 0x1001_4064, 0)
  }

  predicate DpuStagesHiIs(vs: seq<(nat, nat)>, d: Dpu) {
    && Is(vs, 74, 0x1001_4068, Low(d.bnMulOperand, 16) * 0x1_0000) && Is(vs, 75, 0x1001_406C, 0)
    && Is(vs, 76, 0x1001_4070, if d.ewAccumulate != 0 then d.ewCfgVal % 0x1_0000_0000
          else (Low(d.ewReluBypass, 1) * 0x200 + Low(d.ewOpCvtBypass, 1) * 0x100
          + Low(d.ewLutBypass, 1) * 0x80 + Low(d.ewOpBypass, 1) * 2 + Low(d.ewBypass, 1)))
    && Is(vs, 77, 0x1001_4074, 0) && Is(vs, 78, 0x1001_4078, 1) && Is(vs, 79, 0x1001_407C, 0)
  }

  predicate DpuConvertLoIs(vs: seq<(nat, nat)>, d: Dpu) {
    && Is(vs, 80, 0x1001_4080, d.outCvtOffset % 0x1_0000_0000)
    && Is(vs, 81, 0x1001_4084, Low(d.fp32tofp16En, 1) * 0x1_0000 + Low(d.outCvtScale, 16))
    && Is(vs, 82, 0x1001_4088, Low(d.outCvtCvtType, 1) * 0x8000_0000
          + Low(d.outCvtRound, 1) * 0x4000_0000 + Low(d.outCvtMinusExp, 8) * 0x1000
          + Low(d.outCvtShift, 6))
    && Is(vs, 83, 0x1001_4090, 0) && Is(vs, 84, 0x1001_4094, 0) && Is(vs, 85, 0x1001_4098, 0)
    && Is(vs, 86, 0x1001_409C, 0)
  }

  predicate DpuConvertHiIs(vs: seq<(nat, nat)>, d: Dpu) {
    && Is(vs, 87, 0x1001_40A0, 0) && Is(vs, 88, 0x1001_40A4, 0) && Is(vs, 89, 0x1001_40A8, 0)
    && Is(vs, 90, 0x1001_40AC, 0) && Is(vs, 91, 0x1001_40C0, Low(d.surfAdd, 28) * 0x10)
    && Is(vs, 92, 0x1001_40C4, 0)
  }

  predicate RdmaExtentsIs(vs: seq<(nat, nat)>, d: Dpu) {
    && Is(vs, 105, 0x2001_500C, Low(d.width, 13)) && Is(vs, 106, 0x2001_5010, Low(d.height, 13))
    && Is(vs, 107, 0x2001_5014, Low(d.channel, 13))
    && Is(vs, 108, 0x2001_5018, if d.ewAccumulate != 0 then d.ewSrcBaseAddr % 0x1_0000_0000 else 0)
  }

  predicate RdmaFeedsIs(vs: seq<(nat, nat)>, d: Dpu) {
    && Is(vs, 109, 0x2001_501C, 0) && Is(vs, 110, 0x2001_5020, 0) && Is(vs, 111, 0x2001_5028, 0)
    && Is(vs, 112, 0x2001_502C, 0)
    && Is(vs, 113, 0x2001_5034, if d.ewAccumulate != 0 then d.erdmaCfgVal % 0x1_0000_0000 else 1)
  }

  predicate RdmaBasesIs(vs: seq<(nat, nat)>, d: Dpu) {
    && Is(vs, 114, 0x2001_5038, if d.ewAccumulate != 0 then d.ewBaseAddr % 0x1_0000_0000 else 0)
    && Is(vs, 115, 0x2001_5040, if d.ewAccumulate != 0 then d.ewSurfStride % 0x1_0000_0000 else 0)
  }

  predicate RdmaModesIs(vs: seq<(nat, nat)>, d: Dpu) {
    && Is(vs, 116, 0x2001_5044, if d.ewAccumulate != 0 then d.rdmaFmcVal % 0x1_0000_0000
          else (0x7810 + Low(Flag(d.fp32tofp16En), 1) * 8))
    && Is(vs, 117, 0x2001_5048, 0)
  }

  predicate RdmaNotchesIs(vs: seq<(nat, nat)>, d: Dpu) {
    && Is(vs, 118, 0x2001_504C, if d.ewAccumulate != 0 then d.ewSurfNotch % 0x1_0000_0000 else 0)
    && Is(vs, 119, 0x2001_5064, 0) && Is(vs, 120, 0x2001_5068, 0x101_0101)
    && Is(vs, 121, 0x2001_506C, if d.ewAccumulate != 0 then d.ewSurfNotch % 0x1_0000_0000 else 0)
  }

  /** Decompression amounts and the tables are cleared. */
  predicate ZerosIs(vs: seq<(nat, nat)>) {
    && ZerosFrom(vs, 35, 5, 0x0201_114C) && ZerosFrom(vs, 40, 5, 0x0201_1160)
    && ZerosFrom(vs, 45, 5, 0x0201_1174) && ZerosFrom(vs, 93, 6, 0x1001_4100)
    && ZerosFrom(vs, 99, 6, 0x1001_4118)
  }

  /** The two pointers first; the trailer's last word enables the four blocks. */
  predicate EndsIs(vs: seq<(nat, nat)>) {
    && Is(vs, 0, 0x1001_4004, 0xE) && Is(vs, 1, 0x2001_5004, 0xE) && Is(vs, 122, 0, 0)
    && Is(vs, 123, 0x0101_0014, 0) && Is(vs, 124, 0x0041_0000, 0) && Is(vs, 125, 0x0081_0008, 0x1D)
  }

  predicate MapIs(vs: seq<(nat, nat)>, c: Cna, k: Core, d: Dpu) {
    && EndsIs(vs) && ZerosIs(vs)
    && CnaGeometryLoIs(vs, c) && CnaGeometryHiIs(vs, c) && CnaFeedLoIs(vs, c) && CnaFeedHiIs(vs, c)
    && CnaDecompressLoIs(vs, c) && CoreWritesIs(vs, k) && DpuModesIs(vs, d) && DpuSurfaceIs(vs, d)
    && DpuOutputHiIs(vs, d) && DpuStagesLoIs(vs, d) && DpuStagesHiIs(vs, d) && DpuConvertLoIs(vs, d)
    && DpuConvertHiIs(vs, d) && RdmaExtentsIs(vs, d) && RdmaFeedsIs(vs, d) && RdmaBasesIs(vs, d)
    && RdmaModesIs(vs, d) && RdmaNotchesIs(vs, d)
  }

  // ---- chunk by chunk ----------------------------------------------------------------------

  lemma BitUnder(v: nat, p: nat)
    requires 1 <= p
    ensures v % 2 + 2 * (v / 2 % p) == v % (2 * p)
  {
    var q, r := v / 2 / p, v / 2 % p;
    Recompose(v / 2, p);
    Times(2, q, p);
    Times(q, 2, p);
    Digits(q, 2 * r + v % 2, 2 * p);
  }

  lemma {:induction false} LowIs(v: nat, w: nat)
    ensures Low(v, w) == v % Pow2(w)
    decreases w
  {
    if w > 0 {
      LowIs(v / 2, w - 1);
      BitUnder(v, Pow2(w - 1));
    }
  }

  /** The share of field x, `weight` being the power of two it is shifted by. */
  function Share(f: seq<Field>, x: nat, weight: nat): nat {
    if x < |f| then Low(f[x].v, f[x].width) * weight else 0
  }

  /** The weights of the fields, up to five; a field that is not there has weight zero. */
  predicate Weights(f: seq<Field>, s: nat, t: nat, u: nat, v: nat, w: nat) {
    && |f| <= 5
    && (0 < |f| ==> Pow2(f[0].shift) == s) && (1 < |f| ==> Pow2(f[1].shift) == t)
    && (2 < |f| ==> Pow2(f[2].shift) == u) && (3 < |f| ==> Pow2(f[3].shift) == v)
    && (4 < |f| ==> Pow2(f[4].shift) == w)
  }

  lemma {:induction false} PackShares(f: seq<Field>, s: nat, t: nat, u: nat, v: nat, w: nat)
    requires Weights(f, s, t, u, v, w)
    ensures PackFields(f)
            == Share(f, 0, s) + Share(f, 1, t) + Share(f, 2, u) + Share(f, 3, v) + Share(f, 4, w)
    decreases |f|
  {
    if f != [] {
      LowIs(f[0].v, f[0].width);
      PackShares(f[1..], t, u, v, w, 0);
    }
  }

  function ProgramWrites(c: Cna, k: Core, d: Dpu): seq<(nat, nat)> { Writes(Words(Program(c, k, d))) }

  lemma {:induction false} WriteAt(ws: seq<nat>, i: nat)
    requires i < |ws|
    ensures |Writes(ws)| == |ws| && Writes(ws)[i] == (WordAt(ws[i]), WordValue(ws[i]))
  {
    var n := |ws| - 1;
    if i < n { WriteAt(ws[..n], i); } else if 0 < n { WriteAt(ws[..n], 0); }
  }

  /** Word x of chunk j, where it starts. */
  lemma ChunkWord(c: Cna, k: Core, d: Dpu, j: nat, x: nat)
    requires j < CHUNKS && x < |ChunkAt(c, k, d, j)|
    ensures |Program(c, k, d)| == WORDS
    ensures var r := ChunkAt(c, k, d, j)[x];
      Is(ProgramWrites(c, k, d), Span(j).2 + x, r.at, PackFields(r.fields))
  {
    var cs := Chunks(c, k, d);
    ChainIsLaid(cs);
    ProgramOnce(c, k, d);
    RowAt(cs, ChunkStarts(), j, x);
    WriteAt(Words(Program(c, k, d)), Span(j).2 + x);
    WordBack(ChunkAt(c, k, d, j)[x]);
  }

  lemma RowIs(c: Cna, k: Core, d: Dpu, j: nat, x: nat, f: seq<Field>,
              s: nat, t: nat, u: nat, v: nat, w: nat)
    requires j < CHUNKS && x < |ChunkAt(c, k, d, j)| && ChunkAt(c, k, d, j)[x].fields == f
    requires Weights(f, s, t, u, v, w)
    ensures Is(ProgramWrites(c, k, d), Span(j).2 + x, ChunkAt(c, k, d, j)[x].at,
               Share(f, 0, s) + Share(f, 1, t) + Share(f, 2, u) + Share(f, 3, v) + Share(f, 4, w))
  {
    ChunkWord(c, k, d, j, x);
    PackShares(f, s, t, u, v, w);
  }

  lemma RowWhole(c: Cna, k: Core, d: Dpu, j: nat, x: nat, f: seq<Field>)
    requires j < CHUNKS && x < |ChunkAt(c, k, d, j)| && ChunkAt(c, k, d, j)[x].fields == f && |f| == 1
    requires f[0].width == 32 && f[0].shift == 0
    ensures Is(ProgramWrites(c, k, d), Span(j).2 + x, ChunkAt(c, k, d, j)[x].at, f[0].v % 0x1_0000_0000)
  {
    ChunkWord(c, k, d, j, x);
    Pow2Is32();
    assert f[1..] == [];
  }

  lemma ConstIs(v: nat)
    requires v < 0x1_0000_0000
    ensures PackFields(Const(v)) == v
  {
    Pow2Is32();
    PackAlone(v);
    Digits(0, v, Pow2(32));
  }

  lemma PackAlone(v: nat)
    ensures PackFields(Const(v)) == v % Pow2(32)
  {
    assert Const(v)[1..] == [];
  }

  lemma WordOfConst(at: nat, v: nat)
    requires v < 0x1_0000_0000
    ensures Word(Row(at, Const(v)))
            == at / 0x1_0000 * 0x1_0000_0000_0000 + v * 0x1_0000 + at % 0x1_0000
  {
    ConstIs(v);
  }

  lemma RowConst(c: Cna, k: Core, d: Dpu, j: nat, x: nat, f: seq<Field>, v: nat)
    requires j < CHUNKS && x < |ChunkAt(c, k, d, j)| && ChunkAt(c, k, d, j)[x].fields == f && |f| == 1
    requires f[0] == Field(v, 32, 0) && v < 0x1_0000_0000
    ensures Is(ProgramWrites(c, k, d), Span(j).2 + x, ChunkAt(c, k, d, j)[x].at, v)
  {
    ChunkWord(c, k, d, j, x);
    ConstIs(v);
    assert f == Const(v);
  }

  /** Row x of chunk j is row starts[j] + x of the whole. */
  lemma {:induction false} RowAt(cs: seq<seq<Row>>, starts: seq<nat>, j: nat, x: nat)
    requires Laid(cs, starts) && j < |cs| && x < |cs[j]|
    ensures starts[j] + x < |Flatten(cs)| && Flatten(cs)[starts[j] + x] == cs[j][x]
    decreases |cs|
  {
    var n := |cs| - 1;
    PrefixOnce(cs, starts, n);
    if j < n { RowAt(cs[..n], starts[..n + 1], j, x); }
  }

  lemma LowShifts()
    ensures Pow2(1) == 2 && Pow2(2) == 4 && Pow2(3) == 8 && Pow2(4) == 0x10 && Pow2(5) == 0x20
    ensures Pow2(6) == 0x40 && Pow2(7) == 0x80 && Pow2(8) == 0x100 && Pow2(9) == 0x200
    ensures Pow2(11) == 0x800 && Pow2(12) == 0x1000
  {
  }

  lemma HalfShift()
    ensures Pow2(16) == 0x1_0000
  {
    LowShifts();
    Pow2Add(8, 8);
  }

  lemma HighShifts()
    ensures Pow2(16) == 0x1_0000 && Pow2(24) == 0x100_0000 && Pow2(26) == 0x400_0000
    ensures Pow2(27) == 0x800_0000 && Pow2(29) == 0x2000_0000 && Pow2(30) == 0x4000_0000
    ensures Pow2(31) == 0x8000_0000
  {
    LowShifts();
    HalfShift();
    Pow2Add(16, 8);
    Pow2Add(24, 2);
    Pow2Add(24, 3);
    Pow2Add(24, 5);
    Pow2Add(24, 6);
    Pow2Add(24, 7);
  }

  lemma CnaGeometryLoAre(c: Cna, k: Core, d: Dpu)
    ensures CnaGeometryLoIs(ProgramWrites(c, k, d), c)
  {
    var p := ChunkAt(c, k, d, 2);
    LowShifts();
    HighShifts();
    RowIs(c, k, d, 2, 0, p[0].fields, 0x2000_0000, 0x80, 0x10, 1, 0);
    RowIs(c, k, d, 2, 1, p[1].fields, 0x1_0000, 0x10, 0, 0, 0);
    RowIs(c, k, d, 2, 2, p[2].fields, 8, 1, 0, 0, 0);
    RowIs(c, k, d, 2, 3, p[3].fields, 0x1_0000, 1, 0, 0, 0);
    RowIs(c, k, d, 2, 4, p[4].fields, 0x1_0000, 1, 0, 0, 0);
    RowIs(c, k, d, 2, 5, p[5].fields, 1, 0, 0, 0, 0);
  }

  lemma CnaGeometryHiAre(c: Cna, k: Core, d: Dpu)
    ensures CnaGeometryHiIs(ProgramWrites(c, k, d), c)
  {
    var p := ChunkAt(c, k, d, 3);
    LowShifts();
    HighShifts();
    RowIs(c, k, d, 3, 0, p[0].fields, 1, 0, 0, 0, 0);
    RowWhole(c, k, d, 3, 1, p[1].fields);
    RowIs(c, k, d, 3, 2, p[2].fields, 1, 0, 0, 0, 0);
    RowIs(c, k, d, 3, 3, p[3].fields, 0x100_0000, 0x1_0000, 1, 0, 0);
    RowIs(c, k, d, 3, 4, p[4].fields, 0x2000, 0x1000, 0x10, 1, 0);
    RowIs(c, k, d, 3, 5, p[5].fields, 1, 0, 0, 0, 0);
  }

  lemma CnaFeedLoAre(c: Cna, k: Core, d: Dpu)
    ensures CnaFeedLoIs(ProgramWrites(c, k, d), c)
  {
    var p := ChunkAt(c, k, d, 4);
    LowShifts();
    HalfShift();
    RowIs(c, k, d, 4, 0, p[0].fields, 8, 2, 1, 0, 0);
    RowIs(c, k, d, 4, 1, p[1].fields, 0x1_0000, 0, 0, 0, 0);
    RowIs(c, k, d, 4, 2, p[2].fields, 0x1_0000, 0, 0, 0, 0);
    RowIs(c, k, d, 4, 3, p[3].fields, 0x1_0000, 0, 0, 0, 0);
    RowIs(c, k, d, 4, 4, p[4].fields, 0x1_0000, 0, 0, 0, 0);
    RowIs(c, k, d, 4, 5, p[5].fields, 1, 0, 0, 0, 0);
    RowIs(c, k, d, 4, 6, p[6].fields, 1, 0, 0, 0, 0);
    RowIs(c, k, d, 4, 7, p[7].fields, 0x10, 1, 0, 0, 0);
  }

  lemma CnaFeedHiAre(c: Cna, k: Core, d: Dpu)
    ensures CnaFeedHiIs(ProgramWrites(c, k, d), c)
  {
    var p := ChunkAt(c, k, d, 5);
    HalfShift();
    RowWhole(c, k, d, 5, 0, p[0].fields);
    RowIs(c, k, d, 5, 1, p[1].fields, 1, 0, 0, 0, 0);
    RowIs(c, k, d, 5, 2, p[2].fields, 0x1_0000, 1, 0, 0, 0);
    RowIs(c, k, d, 5, 3, p[3].fields, 1, 0, 0, 0, 0);
    RowIs(c, k, d, 5, 4, p[4].fields, 1, 0, 0, 0, 0);
    RowIs(c, k, d, 5, 5, p[5].fields, 0x1_0000, 1, 0, 0, 0);
    RowIs(c, k, d, 5, 6, p[6].fields, 1, 0, 0, 0, 0);
  }

  lemma CnaDecompressLoAre(c: Cna, k: Core, d: Dpu)
    ensures CnaDecompressLoIs(ProgramWrites(c, k, d), c)
  {
    var p := ChunkAt(c, k, d, 6);
    RowConst(c, k, d, 6, 0, p[0].fields, 0);
    RowConst(c, k, d, 6, 1, p[1].fields, 0);
    RowWhole(c, k, d, 6, 2, p[2].fields);
    RowConst(c, k, d, 6, 3, p[3].fields, 0);
    RowConst(c, k, d, 6, 4, p[4].fields, 0);
    RowConst(c, k, d, 6, 5, p[5].fields, 0);
  }

  lemma CoreWritesAre(c: Cna, k: Core, d: Dpu)
    ensures CoreWritesIs(ProgramWrites(c, k, d), k)
  {
    var p := ChunkAt(c, k, d, 10);
    LowShifts();
    HalfShift();
    RowIs(c, k, d, 10, 0, p[0].fields, 0x100, 1, 0, 0, 0);
    RowIs(c, k, d, 10, 1, p[1].fields, 0x1_0000, 1, 0, 0, 0);
    RowIs(c, k, d, 10, 2, p[2].fields, 1, 0, 0, 0, 0);
    RowConst(c, k, d, 10, 3, p[3].fields, 0);
    RowConst(c, k, d, 10, 4, p[4].fields, 0);
  }

  lemma DpuModesAre(c: Cna, k: Core, d: Dpu)
    ensures DpuModesIs(ProgramWrites(c, k, d), d)
  {
    var p := ChunkAt(c, k, d, 11);
    LowShifts();
    HighShifts();
    RowIs(c, k, d, 11, 0, p[0].fields, 0x20, 8, 2, 1, 0);
    RowIs(c, k, d, 11, 1, p[1].fields, 0x2000_0000, 0x400_0000, 8, 1, 0);
  }

  lemma DpuSurfaceAre(c: Cna, k: Core, d: Dpu)
    ensures DpuSurfaceIs(ProgramWrites(c, k, d), d)
  {
    var p := ChunkAt(c, k, d, 11);
    LowShifts();
    RowConst(c, k, d, 11, 2, p[2].fields, 0);
    RowWhole(c, k, d, 11, 3, p[3].fields);
    RowIs(c, k, d, 11, 4, p[4].fields, 0x10, 0, 0, 0, 0);
    RowIs(c, k, d, 11, 5, p[5].fields, 1, 0, 0, 0, 0);
    RowIs(c, k, d, 11, 6, p[6].fields, 1, 0, 0, 0, 0);
  }

  lemma DpuOutputHiAre(c: Cna, k: Core, d: Dpu)
    ensures DpuOutputHiIs(ProgramWrites(c, k, d), d)
  {
    var p := ChunkAt(c, k, d, 12);
    LowShifts();
    HalfShift();
    RowIs(c, k, d, 12, 0, p[0].fields, 0x1_0000, 1, 0, 0, 0);
    RowIs(c, k, d, 12, 1, p[1].fields, 0x1_0000, 1, 0, 0, 0);
    RowIs(c, k, d, 12, 2, p[2].fields, 0x40, 0x10, 2, 1, 0);
    RowConst(c, k, d, 12, 3, p[3].fields, 0);
    RowConst(c, k, d, 12, 4, p[4].fields, 0);
    RowConst(c, k, d, 12, 5, p[5].fields, 0);
  }

  lemma DpuStagesLoAre(c: Cna, k: Core, d: Dpu)
    ensures DpuStagesLoIs(ProgramWrites(c, k, d), d)
  {
    var p := ChunkAt(c, k, d, 13);
    LowShifts();
    HighShifts();
    RowIs(c, k, d, 13, 0, p[0].fields, 0x800_0000, 0x100, 0x20, 4, 2);
    RowIs(c, k, d, 13, 1, p[1].fields, 1, 0, 0, 0, 0);
    RowIs(c, k, d, 13, 2, p[2].fields, 0x800_0000, 0x1_0000, 1, 0, 0);
    RowIs(c, k, d, 13, 3, p[3].fields, 0x1_0000, 1, 0, 0, 0);
    RowIs(c, k, d, 13, 4, p[4].fields, 0x40, 0x10, 2, 1, 0);
    RowConst(c, k, d, 13, 5, p[5].fields, 0);
  }

  lemma DpuStagesHiAre(c: Cna, k: Core, d: Dpu)
    ensures DpuStagesHiIs(ProgramWrites(c, k, d), d)
  {
    var p := ChunkAt(c, k, d, 14);
    LowShifts();
    HalfShift();
    RowIs(c, k, d, 14, 0, p[0].fields, 0x1_0000, 0, 0, 0, 0);
    RowConst(c, k, d, 14, 1, p[1].fields, 0);
    RowConst(c, k, d, 14, 3, p[3].fields, 0);
    RowConst(c, k, d, 14, 4, p[4].fields, 1);
    RowConst(c, k, d, 14, 5, p[5].fields, 0);
    if d.ewAccumulate != 0 {
      RowWhole(c, k, d, 14, 2, p[2].fields);
    } else {
      RowIs(c, k, d, 14, 2, p[2].fields, 0x200, 0x100, 0x80, 2, 1);
    }
  }

  lemma DpuConvertLoAre(c: Cna, k: Core, d: Dpu)
    ensures DpuConvertLoIs(ProgramWrites(c, k, d), d)
  {
    var p := ChunkAt(c, k, d, 15);
    LowShifts();
    HighShifts();
    RowWhole(c, k, d, 15, 0, p[0].fields);
    RowIs(c, k, d, 15, 1, p[1].fields, 0x1_0000, 1, 0, 0, 0);
    RowIs(c, k, d, 15, 2, p[2].fields, 0x8000_0000, 0x4000_0000, 0x1000, 1, 0);
    RowConst(c, k, d, 15, 3, p[3].fields, 0);
    RowConst(c, k, d, 15, 4, p[4].fields, 0);
    RowConst(c, k, d, 15, 5, p[5].fields, 0);
    RowConst(c, k, d, 15, 6, p[6].fields, 0);
  }

  lemma DpuConvertHiAre(c: Cna, k: Core, d: Dpu)
    ensures DpuConvertHiIs(ProgramWrites(c, k, d), d)
  {
    var p := ChunkAt(c, k, d, 16);
    LowShifts();
    RowConst(c, k, d, 16, 0, p[0].fields, 0);
    RowConst(c, k, d, 16, 1, p[1].fields, 0);
    RowConst(c, k, d, 16, 2, p[2].fields, 0);
    RowConst(c, k, d, 16, 3, p[3].fields, 0);
    RowIs(c, k, d, 16, 4, p[4].fields, 0x10, 0, 0, 0, 0);
    RowConst(c, k, d, 16, 5, p[5].fields, 0);
  }

  lemma RdmaExtentsAre(c: Cna, k: Core, d: Dpu)
    ensures RdmaExtentsIs(ProgramWrites(c, k, d), d)
  {
    var p := ChunkAt(c, k, d, 19);
    RowIs(c, k, d, 19, 0, p[0].fields, 1, 0, 0, 0, 0);
    RowIs(c, k, d, 19, 1, p[1].fields, 1, 0, 0, 0, 0);
    RowIs(c, k, d, 19, 2, p[2].fields, 1, 0, 0, 0, 0);
    if d.ewAccumulate != 0 {
      RowWhole(c, k, d, 19, 3, p[3].fields);
    } else {
      RowConst(c, k, d, 19, 3, p[3].fields, 0);
    }
  }

  lemma RdmaFeedsAre(c: Cna, k: Core, d: Dpu)
    ensures RdmaFeedsIs(ProgramWrites(c, k, d), d)
  {
    var p := ChunkAt(c, k, d, 19);
    RowConst(c, k, d, 19, 4, p[4].fields, 0);
    RowConst(c, k, d, 19, 5, p[5].fields, 0);
    RowConst(c, k, d, 19, 6, p[6].fields, 0);
    RowConst(c, k, d, 19, 7, p[7].fields, 0);
    if d.ewAccumulate != 0 {
      RowWhole(c, k, d, 19, 8, p[8].fields);
    } else {
      RowConst(c, k, d, 19, 8, p[8].fields, 1);
    }
  }

  lemma RdmaBasesAre(c: Cna, k: Core, d: Dpu)
    ensures RdmaBasesIs(ProgramWrites(c, k, d), d)
  {
    var p := ChunkAt(c, k, d, 20);
    if d.ewAccumulate != 0 {
      RowWhole(c, k, d, 20, 0, p[0].fields);
      RowWhole(c, k, d, 20, 1, p[1].fields);
    } else {
      RowConst(c, k, d, 20, 0, p[0].fields, 0);
      RowConst(c, k, d, 20, 1, p[1].fields, 0);
    }
  }

  lemma RdmaModesAre(c: Cna, k: Core, d: Dpu)
    ensures RdmaModesIs(ProgramWrites(c, k, d), d)
  {
    var p := ChunkAt(c, k, d, 20);
    LowShifts();
    RowConst(c, k, d, 20, 3, p[3].fields, 0);
    if d.ewAccumulate != 0 {
      RowWhole(c, k, d, 20, 2, p[2].fields);
    } else {
      RowIs(c, k, d, 20, 2, p[2].fields, 0x800, 0x10, 8, 0, 0);
    }
  }

  lemma RdmaNotchesAre(c: Cna, k: Core, d: Dpu)
    ensures RdmaNotchesIs(ProgramWrites(c, k, d), d)
  {
    var p := ChunkAt(c, k, d, 20);
    RowConst(c, k, d, 20, 5, p[5].fields, 0);
    RowConst(c, k, d, 20, 6, p[6].fields, 0x101_0101);
    if d.ewAccumulate != 0 {
      RowWhole(c, k, d, 20, 4, p[4].fields);
      RowWhole(c, k, d, 20, 7, p[7].fields);
    } else {
      RowConst(c, k, d, 20, 4, p[4].fields, 0);
      RowConst(c, k, d, 20, 7, p[7].fields, 0);
    }
  }

  lemma ZeroChunk(c: Cna, k: Core, d: Dpu, j: nat, n: nat, first: nat)
    requires j < CHUNKS && n <= |ChunkAt(c, k, d, j)|
    requires forall x: nat :: x < n ==>
      ChunkAt(c, k, d, j)[x].at == first + 4 * x && ChunkAt(c, k, d, j)[x].fields == Const(0)
    ensures ZerosFrom(ProgramWrites(c, k, d), Span(j).2, n, first)
  {
    forall x: nat | x < n ensures Is(ProgramWrites(c, k, d), Span(j).2 + x, first + 4 * x, 0) {
      RowConst(c, k, d, j, x, ChunkAt(c, k, d, j)[x].fields, 0);
    }
  }

  lemma ZerosAre(c: Cna, k: Core, d: Dpu)
    ensures ZerosIs(ProgramWrites(c, k, d))
  {
    ZeroChunk(c, k, d, 7, 5, 0x0201_114C);
    ZeroChunk(c, k, d, 8, 5, 0x0201_1160);
    ZeroChunk(c, k, d, 9, 5, 0x0201_1174);
    ZeroChunk(c, k, d, 17, 6, 0x1001_4100);
    ZeroChunk(c, k, d, 18, 6, 0x1001_4118);
  }

  lemma EndsAre(c: Cna, k: Core, d: Dpu)
    ensures EndsIs(ProgramWrites(c, k, d))
  {
    RowConst(c, k, d, 0, 0, Const(0xE), 0xE);
    RowConst(c, k, d, 1, 0, Const(0xE), 0xE);
    RowConst(c, k, d, 21, 0, Const(0), 0);
    RowConst(c, k, d, 22, 0, Const(0), 0);
    RowConst(c, k, d, 23, 0, Const(0), 0);
    RowConst(c, k, d, 24, 0, Const(0x1D), 0x1D);
  }

  // ---- the whole program -------------------------------------------------------------------

  /** The program is the map, word for word, on either path: the descriptors leave nothing of
      it open. */
  lemma ProgramIsMap(c: Cna, k: Core, d: Dpu)
    ensures |Words(Program(c, k, d))| == |ProgramWrites(c, k, d)| == 126
    ensures MapIs(ProgramWrites(c, k, d), c, k, d)
  {
    ProgramOnce(c, k, d);
    WriteAt(Words(Program(c, k, d)), 0);
    EndsAre(c, k, d);
    ZerosAre(c, k, d);
    CnaGeometryLoAre(c, k, d);
    CnaGeometryHiAre(c, k, d);
    CnaFeedLoAre(c, k, d);
    CnaFeedHiAre(c, k, d);
    CnaDecompressLoAre(c, k, d);
    CoreWritesAre(c, k, d);
    DpuModesAre(c, k, d);
    DpuSurfaceAre(c, k, d);
    DpuOutputHiAre(c, k, d);
    DpuStagesLoAre(c, k, d);
    DpuStagesHiAre(c, k, d);
    DpuConvertLoAre(c, k, d);
    DpuConvertHiAre(c, k, d);
    RdmaExtentsAre(c, k, d);
    RdmaFeedsAre(c, k, d);
    RdmaBasesAre(c, k, d);
    RdmaModesAre(c, k, d);
    RdmaNotchesAre(c, k, d);
  }

  lemma ConstWord(c: Cna, k: Core, d: Dpu, j: nat, at: nat, v: nat)
    requires j < CHUNKS && v < 0x1_0000_0000 && ChunkAt(c, k, d, j) == [Row(at, Const(v))]
    ensures |Program(c, k, d)| == WORDS && Span(j).2 < WORDS
    ensures Words(Program(c, k, d))[Span(j).2]
            == at / 0x1_0000 * 0x1_0000_0000_0000 + v * 0x1_0000 + at % 0x1_0000
  {
    var cs := Chunks(c, k, d);
    ChainIsLaid(cs);
    ProgramOnce(c, k, d);
    RowAt(cs, ChunkStarts(), j, 0);
    WordOfConst(at, v);
  }

  /** The word that enables the blocks, as it stands: block, value and register from the top. */
  lemma LastWord(c: Cna, k: Core, d: Dpu)
    ensures |Words(Program(c, k, d))| == 126
    ensures Words(Program(c, k, d))[125] == 0x0081_0000_001D_0008
  {
    ConstWord(c, k, d, 24, ENABLE + 0x0008, 0x1D);
  }

  /** What is written twice agrees: the read unit's extents are the output's, both halves of the
      notch and of the channel word are one number, the two surface notches are one, and the
      input's channel field and the one above it differ by one. */
  lemma CopiesAgree(c: Cna, k: Core, d: Dpu)
    ensures var ws := Words(Program(c, k, d));
      && Get(ws, RDMA + 0x500C, 0, 13) == Get(ws, DPU + 0x4030, 0, 13)
      && Get(ws, RDMA + 0x5010, 0, 13) == Get(ws, DPU + 0x4034, 0, 13)
      && Get(ws, RDMA + 0x5014, 0, 13) == Get(ws, DPU + 0x403C, 0, 13)
      && Get(ws, DPU + 0x4038, 16, 13) == Get(ws, DPU + 0x4038, 0, 13)
      && Get(ws, DPU + 0x403C, 16, 13) == Get(ws, DPU + 0x403C, 0, 13)
      && Get(ws, CNA + 0x1024, 16, 16) == (Get(ws, CNA + 0x1024, 0, 16) - 1) % 0x1_0000
  {
    ExtentCopies(c, k, d);
    HalfCopies(c, k, d);
    ChannelHalves(c, k, d);
    MaskLess(c.datainChannel);
  }

  lemma ExtentCopies(c: Cna, k: Core, d: Dpu)
    ensures var ws := Words(Program(c, k, d));
      && Get(ws, RDMA + 0x500C, 0, 13) == Get(ws, DPU + 0x4030, 0, 13)
      && Get(ws, RDMA + 0x5010, 0, 13) == Get(ws, DPU + 0x4034, 0, 13)
      && Get(ws, RDMA + 0x5014, 0, 13) == Get(ws, DPU + 0x403C, 0, 13)
  {
    var p := RdmaLo(d);
    ChunkBack(c, k, d, 19, p);
    assert p[0].fields[0].v == d.width && p[1].fields[0].v == d.height;
    assert p[2].fields[0].v == d.channel;
    DpuSurfaceBack(c, k, d);
    DpuOutputHiBack(c, k, d);
  }

  lemma HalfCopies(c: Cna, k: Core, d: Dpu)
    ensures var ws := Words(Program(c, k, d));
      && Get(ws, DPU + 0x4038, 16, 13) == Get(ws, DPU + 0x4038, 0, 13)
      && Get(ws, DPU + 0x403C, 16, 13) == Get(ws, DPU + 0x403C, 0, 13)
  {
    var p := DpuOutputHi(d);
    ChunkBack(c, k, d, 12, p);
    assert p[0].fields[0].v == d.notch && p[0].fields[1].v == d.notch;
    assert p[1].fields[0].v == d.channel && p[1].fields[1].v == d.channel;
  }

  lemma ChannelHalves(c: Cna, k: Core, d: Dpu)
    ensures var ws := Words(Program(c, k, d));
      && Get(ws, CNA + 0x1024, 16, 16) == Mask((c.datainChannel - 1) % 0x1_0000, 16)
      && Get(ws, CNA + 0x1024, 0, 16) == Mask(c.datainChannel, 16)
  {
    var p := CnaGeometryLo(c);
    ChunkBack(c, k, d, 2, p);
    assert p[4].fields[0].v == (c.datainChannel - 1) % 0x1_0000;
    assert p[4].fields[1].v == c.datainChannel;
  }

  lemma MaskLess(n: nat)
    ensures Mask((n - 1) % 0x1_0000, 16) == (Mask(n, 16) - 1) % 0x1_0000
  {
    HighShifts();
    ModLess(n, 0x1_0000);
  }

  lemma ModLess(n: nat, w: nat)
    requires 0 < w
    ensures (n - 1) % w % w == (n % w - 1) % w
  {
    Recompose(n, w);
    ShiftedSum(n / w, n % w - 1, w);
    Digits(0, (n - 1) % w, w);
  }
}
