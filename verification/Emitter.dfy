/** The matmul emitter: packs three descriptors into a program of register writes, and refuses
    the extents its fields would wrap. */
module Emitter {
  import opened Arith

  datatype Cna = Cna(
    groupLineOff: nat, procPrecision: nat, inPrecision: nat, convMode: nat, kernelGroups: nat,
    featureGrains: nat, convYStride: nat, convXStride: nat, datainWidth: nat, datainHeight: nat,
    datainChannel: nat, dataoutWidth: nat, dataoutAtomics: nat, weightBytes: nat,
    weightBytesPerKernel: nat, weightWidth: nat, weightHeight: nat, weightKernels: nat,
    weightBank: nat, dataBank: nat, weightReuse: nat, dataReuse: nat, dataEntries: nat,
    dataSign: nat, cvtType: nat, cvtBypass: nat, cvtScale0: nat, cvtScale1: nat, cvtScale2: nat,
    cvtScale3: nat, fcSkipEn: nat, dataOffset: nat, padLeft: nat, padTop: nat, featureBaseAddr: nat,
    weightOffset: nat, weightBurstLen: nat, dataBurstLen: nat, lineStride: nat, surfStride: int,
    dmaWidth: nat, dmaHeight: nat, dmaChannel: nat, decompressAddr0: nat)

  datatype Core = Core(
    procPrecision: nat, qdEn: nat, dataoutHeight: nat, dataoutWidth: nat, dataoutChannel: nat)

  datatype Dpu = Dpu(
    burstLen: nat, convMode: nat, outputMode: nat, flyingMode: nat, outPrecision: nat,
    inPrecision: nat, mcSurfOut: nat, procPrecision: nat, dstBaseAddr: nat, dstSurfStride: nat,
    width: nat, height: nat, notch: nat, channel: nat, bsReluBypass: nat, bsMulBypass: nat,
    bsAluBypass: nat, bsBypass: nat, tpOrgEn: nat, sizeE2: nat, sizeE1: nat, sizeE0: nat,
    odBypass: nat, bsOwOp: nat, tpPrecision: nat, sizeCWdma: nat, channelWdma: nat, heightWdma: nat,
    widthWdma: nat, bnReluBypass: nat, bnMulBypass: nat, bnAluBypass: nat, bnBypass: nat,
    bnMulOperand: nat, ewAccumulate: nat, ewReluBypass: nat, ewOpCvtBypass: nat, ewLutBypass: nat,
    ewOpBypass: nat, ewBypass: nat, ewCfgVal: nat, outCvtOffset: nat, fp32tofp16En: nat,
    outCvtScale: nat, outCvtCvtType: nat, outCvtRound: nat, outCvtMinusExp: nat, outCvtShift: nat,
    surfAdd: nat, ewSrcBaseAddr: nat, erdmaCfgVal: nat, ewBaseAddr: nat, ewSurfStride: nat,
    rdmaFmcVal: nat, ewSurfNotch: nat)

  // ---- registers and their fields ------------------------------------------------------

  /** The value `v` masked to `width` bits and shifted to bit `shift`. */
  datatype Field = Field(v: nat, width: nat, shift: nat)

  /** One register write. The upper half of `at` names the block, the lower the register. The
      fields run from the top of the word down. */
  datatype Row = Row(at: nat, fields: seq<Field>)

  const CNA: nat := 0x0201_0000
  const CORE: nat := 0x0801_0000
  const DPU: nat := 0x1001_0000
  const RDMA: nat := 0x2001_0000
  const PC: nat := 0x0101_0000
  const OP_40: nat := 0x0041_0000
  const ENABLE: nat := 0x0081_0000

  /** The fields are disjoint and inside 32 bits. */
  ghost predicate Layout(fs: seq<Field>) {
    && (forall x :: 0 <= x < |fs| ==> fs[x].shift + fs[x].width <= 32)
    && (forall x, y :: 0 <= x < y < |fs| ==> fs[y].shift + fs[y].width <= fs[x].shift)
  }

  /** The word the fields or together to. */
  function PackFields(fs: seq<Field>): nat {
    if fs == [] then 0
    else fs[0].v % Pow2(fs[0].width) * Pow2(fs[0].shift) + PackFields(fs[1..])
  }

  function Extract(value: nat, shift: nat, width: nat): nat {
    value / Pow2(shift) % Pow2(width)
  }

  /** A packed word stays below the top of its highest field. */
  lemma {:induction false} PackBelow(fs: seq<Field>, top: nat)
    requires Layout(fs) && (fs != [] ==> fs[0].shift + fs[0].width <= top)
    ensures PackFields(fs) < Pow2(top)
    decreases |fs|
  {
    if fs != [] {
      var f := fs[0];
      PackBelow(fs[1..], f.shift);
      DigitsInside(f.v % Pow2(f.width), PackFields(fs[1..]), Pow2(f.width), Pow2(f.shift));
      Pow2Add(f.width, f.shift);
      Pow2Mono(f.shift + f.width, top);
    }
  }

  /** Every field comes back from the word it was packed into. */
  lemma {:induction false} ExtractPack(fs: seq<Field>, x: nat)
    requires Layout(fs) && x < |fs|
    ensures Extract(PackFields(fs), fs[x].shift, fs[x].width) == fs[x].v % Pow2(fs[x].width)
    decreases |fs|
  {
    var f, rest := fs[0], fs[1..];
    var hi, lo := f.v % Pow2(f.width), PackFields(rest);
    PackBelow(rest, f.shift);
    assert PackFields(fs) == hi * Pow2(f.shift) + lo;
    if x == 0 {
      ExtractTop(hi, lo, f.shift, f.width);
    } else {
      assert rest[x - 1] == fs[x];
      ExtractPack(rest, x - 1);
      ExtractLow(hi, lo, f.shift, fs[x].shift, fs[x].width);
    }
  }

  lemma ExtractTop(hi: nat, lo: nat, shift: nat, width: nat)
    requires hi < Pow2(width) && lo < Pow2(shift)
    ensures Extract(hi * Pow2(shift) + lo, shift, width) == hi
  {
    Digits(hi, lo, Pow2(shift));
    Digits(0, hi, Pow2(width));
  }

  /** What lies above a field does not reach it. */
  lemma ExtractLow(hi: nat, lo: nat, top: nat, shift: nat, width: nat)
    requires shift + width <= top
    ensures Extract(hi * Pow2(top) + lo, shift, width) == Extract(lo, shift, width)
  {
    var a, b, w := Pow2(top - shift - width), Pow2(shift), Pow2(width);
    Pow2Add(top - shift - width, width);
    Pow2Add(top - shift, shift);
    assert Pow2(top) == a * w * b;
    Times(hi, a * w, b);
    Times(hi, a, w);
    ShiftedSum(hi * a * w, lo, b);
    ShiftedSum(hi * a, lo / b, w);
  }

  lemma Times(a: int, b: int, c: int)
    ensures a * (b * c) == a * b * c
  {
  }

  lemma ShiftedSum(q: int, n: int, w: int)
    requires 0 < w
    ensures (q * w + n) / w == q + n / w && (q * w + n) % w == n % w
  {
    Recompose(n, w);
    assert q * w + n == (q + n / w) * w + n % w;
    Digits(q + n / w, n % w, w);
  }

  // ---- the words -----------------------------------------------------------------------

  /** Block in the top 16 bits, value in the middle 32, register in the bottom 16. */
  function Word(r: Row): nat {
    r.at / 0x1_0000 * 0x1_0000_0000_0000 + PackFields(r.fields) * 0x1_0000 + r.at % 0x1_0000
  }

  function WordAt(x: nat): nat { x / 0x1_0000_0000_0000 * 0x1_0000 + x % 0x1_0000 }

  function WordValue(x: nat): nat { x / 0x1_0000 % 0x1_0000_0000 }

  /** A word is 64 bits, and its register and value come back from it. */
  lemma WordBack(r: Row)
    requires r.at < 0x1_0000_0000 && Layout(r.fields)
    ensures Word(r) < 0x1_0000_0000_0000_0000
    ensures WordAt(Word(r)) == r.at && WordValue(Word(r)) == PackFields(r.fields)
  {
    PackBelow(r.fields, 32);
    Pow2Is32();
    WordOfParts(r.at / 0x1_0000, PackFields(r.fields), r.at % 0x1_0000);
  }

  lemma Pow2Is32()
    ensures Pow2(32) == 0x1_0000_0000
  {
    var a, b := Pow2(8), Pow2(16);
    assert a == 0x100;
    Pow2Add(8, 8);
    assert b == a * a == 0x1_0000;
    Pow2Add(16, 16);
    assert b * b == 0x1_0000_0000;
  }

  lemma WordOfParts(b: nat, v: nat, r: nat)
    requires b < 0x1_0000 && v < 0x1_0000_0000 && r < 0x1_0000
    ensures var x := b * 0x1_0000_0000_0000 + v * 0x1_0000 + r;
      && x < 0x1_0000_0000_0000_0000 && x / 0x1_0000_0000_0000 == b && x % 0x1_0000 == r
      && WordValue(x) == v
  {
    var q, x := b * 0x1_0000_0000 + v, b * 0x1_0000_0000_0000 + v * 0x1_0000 + r;
    assert x == q * 0x1_0000 + r;
    Digits(q, r, 0x1_0000);
    Digits(b, v, 0x1_0000_0000);
    Digits(b, v * 0x1_0000 + r, 0x1_0000_0000_0000);
  }

  // ---- the program, block by block -----------------------------------------------------

  /** Registers rise through a block, from `lo` to `hi`, and every word is laid out soundly. */
  ghost predicate Block(p: seq<Row>, lo: nat, hi: nat) {
    && 0 < |p| && p[0].at == lo && p[|p| - 1].at == hi
    && (forall i: nat :: i < |p| ==> RowOk(p, i))
  }

  ghost predicate RowOk(p: seq<Row>, i: nat)
    requires i < |p|
  {
    Layout(p[i].fields) && (0 < i ==> p[i - 1].at < p[i].at)
  }

  const CHUNKS: nat := 25
  const WORDS: nat := 126

  /** The first and last register of a chunk, and where in the program it starts. */
  function Span(j: nat): (nat, nat, nat) {
    if j == 0 then (DPU + 0x4004, DPU + 0x4004, 0)
    else if j == 1 then (RDMA + 0x5004, RDMA + 0x5004, 1)
    else if j == 2 then (CNA + 0x100C, CNA + 0x1028, 2)
    else if j == 3 then (CNA + 0x102C, CNA + 0x1044, 8)
    else if j == 4 then (CNA + 0x104C, CNA + 0x1068, 14)
    else if j == 5 then (CNA + 0x1070, CNA + 0x1088, 22)
    else if j == 6 then (CNA + 0x1100, CNA + 0x1148, 29)
    else if j == 7 then (CNA + 0x114C, CNA + 0x115C, 35)
    else if j == 8 then (CNA + 0x1160, CNA + 0x1170, 40)
    else if j == 9 then (CNA + 0x1174, CNA + 0x1184, 45)
    else if j == 10 then (CORE + 0x3010, CORE + 0x3030, 50)
    else if j == 11 then (DPU + 0x400C, DPU + 0x4034, 55)
    else if j == 12 then (DPU + 0x4038, DPU + 0x404C, 62)
    else if j == 13 then (DPU + 0x4050, DPU + 0x4064, 68)
    else if j == 14 then (DPU + 0x4068, DPU + 0x407C, 74)
    else if j == 15 then (DPU + 0x4080, DPU + 0x409C, 80)
    else if j == 16 then (DPU + 0x40A0, DPU + 0x40C4, 87)
    else if j == 17 then (DPU + 0x4100, DPU + 0x4114, 93)
    else if j == 18 then (DPU + 0x4118, DPU + 0x412C, 99)
    else if j == 19 then (RDMA + 0x500C, RDMA + 0x5034, 105)
    else if j == 20 then (RDMA + 0x5038, RDMA + 0x506C, 114)
    else if j == 21 then (0, 0, 122)
    else if j == 22 then (PC + 0x0014, PC + 0x0014, 123)
    else if j == 23 then (OP_40, OP_40, 124)
    else if j == 24 then (ENABLE + 0x0008, ENABLE + 0x0008, 125)
    else (0, 0, WORDS)
  }

  /** A chunk keeps to its span. */
  ghost predicate ChunkOk(p: seq<Row>, j: nat) {
    Block(p, Span(j).0, Span(j).1) && Span(j).2 + |p| == Span(j + 1).2
  }

  ghost predicate Chain(cs: seq<seq<Row>>) {
    |cs| == CHUNKS && forall j: nat :: j < CHUNKS ==> ChunkOk(cs[j], j)
  }

  function Full(v: nat): seq<Field> { [Field(v, 32, 0)] }

  function Const(v: nat): seq<Field> { [Field(v, 32, 0)] }

  function Flag(v: nat): nat { if v != 0 then 1 else 0 }

  /** A word an accumulating task programs; `no` on the plain path. */
  function If(d: Dpu, yes: nat, no: nat): seq<Field> {
    [Field(if d.ewAccumulate != 0 then yes else no, 32, 0)]
  }

  function EwFields(d: Dpu): seq<Field> {
    if d.ewAccumulate != 0 then Full(d.ewCfgVal)
    else [Field(d.ewReluBypass, 1, 9), Field(d.ewOpCvtBypass, 1, 8), Field(d.ewLutBypass, 1, 7),
          Field(d.ewOpBypass, 1, 1), Field(d.ewBypass, 1, 0)]
  }

  /** On the plain path: burst length 15, the main read disabled, and its widening bit. */
  function ReadFields(d: Dpu): seq<Field> {
    if d.ewAccumulate != 0 then Full(d.rdmaFmcVal)
    else [Field(15, 4, 11), Field(1, 1, 4), Field(Flag(d.fp32tofp16En), 1, 3)]
  }

  function CnaGeometryLo(c: Cna): (p: seq<Row>)
    ensures ChunkOk(p, 2)
  {
    [Row(CNA + 0x100C, [Field(c.groupLineOff, 1, 29), Field(c.procPrecision, 3, 7),
        Field(c.inPrecision, 3, 4), Field(c.convMode, 4, 0)]),
     Row(CNA + 0x1010, [Field(c.kernelGroups, 8, 16), Field(c.featureGrains, 10, 4)]),
     Row(CNA + 0x1014, [Field(c.convYStride, 3, 3), Field(c.convXStride, 3, 0)]),
     Row(CNA + 0x1020, [Field(c.datainWidth, 11, 16), Field(c.datainHeight, 11, 0)]),
     Row(CNA + 0x1024, [Field((c.datainChannel - 1) % 0x1_0000, 16, 16),
        Field(c.datainChannel, 16, 0)]),
     Row(CNA + 0x1028, [Field(c.dataoutWidth, 11, 0)])]
  }

  function CnaGeometryHi(c: Cna): (p: seq<Row>)
    ensures ChunkOk(p, 3)
  {
    [Row(CNA + 0x102C, [Field(c.dataoutAtomics, 18, 0)]), Row(CNA + 0x1030, Full(c.weightBytes)),
     Row(CNA + 0x1034, [Field(c.weightBytesPerKernel, 19, 0)]),
     Row(CNA + 0x1038, [Field(c.weightWidth, 5, 24), Field(c.weightHeight, 5, 16),
        Field(c.weightKernels, 14, 0)]),
     Row(CNA + 0x1040, [Field(Flag(c.weightReuse), 1, 13), Field(Flag(c.dataReuse), 1, 12),
        Field(c.weightBank, 4, 4), Field(c.dataBank, 4, 0)]),
     Row(CNA + 0x1044, [Field(c.dataEntries, 13, 0)])]
  }

  function CnaFeedLo(c: Cna): (p: seq<Row>)
    ensures ChunkOk(p, 4)
  {
    [Row(CNA + 0x104C, [Field(c.dataSign, 1, 3), Field(c.cvtType, 1, 1),
        Field(c.cvtBypass, 1, 0)]),
     Row(CNA + 0x1050, [Field(c.cvtScale0, 16, 16)]),
     Row(CNA + 0x1054, [Field(c.cvtScale1, 16, 16)]),
     Row(CNA + 0x1058, [Field(c.cvtScale2, 16, 16)]),
     Row(CNA + 0x105C, [Field(c.cvtScale3, 16, 16)]), Row(CNA + 0x1060, [Field(c.fcSkipEn, 1, 0)]),
     Row(CNA + 0x1064, [Field(c.dataOffset, 17, 0)]),
     Row(CNA + 0x1068, [Field(c.padLeft, 4, 4), Field(c.padTop, 4, 0)])]
  }

  function CnaFeedHi(c: Cna): (p: seq<Row>)
    ensures ChunkOk(p, 5)
  {
    [Row(CNA + 0x1070, Full(c.featureBaseAddr)), Row(CNA + 0x1074, [Field(c.weightOffset, 17, 0)]),
     Row(CNA + 0x1078, [Field(c.weightBurstLen, 4, 16), Field(c.dataBurstLen, 4, 0)]),
     Row(CNA + 0x107C, [Field(c.lineStride, 28, 0)]),
     Row(CNA + 0x1080, [Field(c.surfStride % 0x1000_0000, 28, 0)]),
     Row(CNA + 0x1084, [Field(c.dmaWidth, 11, 16), Field(c.dmaHeight, 11, 0)]),
     Row(CNA + 0x1088, [Field(c.dmaChannel, 16, 0)])]
  }

  function CnaDecompressLo(c: Cna): (p: seq<Row>)
    ensures ChunkOk(p, 6)
  {
    [Row(CNA + 0x1100, Const(0)), Row(CNA + 0x1104, Const(0)),
     Row(CNA + 0x1110, Full(c.decompressAddr0)), Row(CNA + 0x1140, Const(0)),
     Row(CNA + 0x1144, Const(0)), Row(CNA + 0x1148, Const(0))]
  }

  function CnaDecompressHi(): (p: seq<Row>)
    ensures ChunkOk(p, 7)
  {
    [Row(CNA + 0x114C, Const(0)), Row(CNA + 0x1150, Const(0)), Row(CNA + 0x1154, Const(0)),
     Row(CNA + 0x1158, Const(0)), Row(CNA + 0x115C, Const(0))]
  }

  function CnaAmountsLo(): (p: seq<Row>)
    ensures ChunkOk(p, 8)
  {
    [Row(CNA + 0x1160, Const(0)), Row(CNA + 0x1164, Const(0)), Row(CNA + 0x1168, Const(0)),
     Row(CNA + 0x116C, Const(0)), Row(CNA + 0x1170, Const(0))]
  }

  function CnaAmountsHi(): (p: seq<Row>)
    ensures ChunkOk(p, 9)
  {
    [Row(CNA + 0x1174, Const(0)), Row(CNA + 0x1178, Const(0)), Row(CNA + 0x117C, Const(0)),
     Row(CNA + 0x1180, Const(0)), Row(CNA + 0x1184, Const(0))]
  }

  function CoreWrites(k: Core): (p: seq<Row>)
    ensures ChunkOk(p, 10)
  {
    [Row(CORE + 0x3010, [Field(k.procPrecision, 3, 8), Field(k.qdEn, 1, 0)]),
     Row(CORE + 0x3014, [Field(k.dataoutHeight, 16, 16), Field(k.dataoutWidth, 16, 0)]),
     Row(CORE + 0x3018, [Field(k.dataoutChannel, 16, 0)]), Row(CORE + 0x301C, Const(0)),
     Row(CORE + 0x3030, Const(0))]
  }

  function DpuOutputLo(d: Dpu): (p: seq<Row>)
    ensures ChunkOk(p, 11)
  {
    [Row(DPU + 0x400C, [Field(d.burstLen, 4, 5), Field(d.convMode, 2, 3),
        Field(d.outputMode, 2, 1), Field(d.flyingMode, 1, 0)]),
     Row(DPU + 0x4010, [Field(d.outPrecision, 3, 29), Field(d.inPrecision, 3, 26),
        Field(d.mcSurfOut, 1, 3), Field(d.procPrecision, 3, 0)]),
     Row(DPU + 0x4014, Const(0)), Row(DPU + 0x4020, Full(d.dstBaseAddr)),
     Row(DPU + 0x4024, [Field(d.dstSurfStride, 28, 4)]), Row(DPU + 0x4030, [Field(d.width, 13, 0)]),
     Row(DPU + 0x4034, [Field(d.height, 13, 0)])]
  }

  function DpuOutputHi(d: Dpu): (p: seq<Row>)
    ensures ChunkOk(p, 12)
  {
    [Row(DPU + 0x4038, [Field(d.notch, 13, 16), Field(d.notch, 13, 0)]),
     Row(DPU + 0x403C, [Field(d.channel, 13, 16), Field(d.channel, 13, 0)]),
     Row(DPU + 0x4040, [Field(d.bsReluBypass, 1, 6), Field(d.bsMulBypass, 1, 4),
        Field(d.bsAluBypass, 1, 1), Field(d.bsBypass, 1, 0)]),
     Row(DPU + 0x4044, Const(0)), Row(DPU + 0x4048, Const(0)), Row(DPU + 0x404C, Const(0))]
  }

  function DpuStagesLo(d: Dpu): (p: seq<Row>)
    ensures ChunkOk(p, 13)
  {
    [Row(DPU + 0x4050, [Field(d.tpOrgEn, 1, 27), Field(d.sizeE2, 3, 8), Field(d.sizeE1, 3, 5),
        Field(d.sizeE0, 3, 2), Field(d.odBypass, 1, 1)]),
     Row(DPU + 0x4054, [Field(d.bsOwOp, 16, 0)]),
     Row(DPU + 0x4058, [Field(d.tpPrecision, 1, 27), Field(d.sizeCWdma, 11, 16),
        Field(d.channelWdma, 13, 0)]),
     Row(DPU + 0x405C, [Field(d.heightWdma, 13, 16), Field(d.widthWdma, 13, 0)]),
     Row(DPU + 0x4060, [Field(d.bnReluBypass, 1, 6), Field(d.bnMulBypass, 1, 4),
        Field(d.bnAluBypass, 1, 1), Field(d.bnBypass, 1, 0)]),
     Row(DPU + 0x4064, Const(0))]
  }

  function DpuStagesHi(d: Dpu): (p: seq<Row>)
    ensures ChunkOk(p, 14)
  {
    [Row(DPU + 0x4068, [Field(d.bnMulOperand, 16, 16)]), Row(DPU + 0x406C, Const(0)),
     Row(DPU + 0x4070, EwFields(d)), Row(DPU + 0x4074, Const(0)), Row(DPU + 0x4078, Const(1)),
     Row(DPU + 0x407C, Const(0))]
  }

  function DpuConvertLo(d: Dpu): (p: seq<Row>)
    ensures ChunkOk(p, 15)
  {
    [Row(DPU + 0x4080, Full(d.outCvtOffset)),
     Row(DPU + 0x4084, [Field(d.fp32tofp16En, 1, 16), Field(d.outCvtScale, 16, 0)]),
     Row(DPU + 0x4088, [Field(d.outCvtCvtType, 1, 31), Field(d.outCvtRound, 1, 30),
        Field(d.outCvtMinusExp, 8, 12), Field(d.outCvtShift, 6, 0)]),
     Row(DPU + 0x4090, Const(0)), Row(DPU + 0x4094, Const(0)), Row(DPU + 0x4098, Const(0)),
     Row(DPU + 0x409C, Const(0))]
  }

  function DpuConvertHi(d: Dpu): (p: seq<Row>)
    ensures ChunkOk(p, 16)
  {
    [Row(DPU + 0x40A0, Const(0)), Row(DPU + 0x40A4, Const(0)), Row(DPU + 0x40A8, Const(0)),
     Row(DPU + 0x40AC, Const(0)), Row(DPU + 0x40C0, [Field(d.surfAdd, 28, 4)]),
     Row(DPU + 0x40C4, Const(0))]
  }

  function DpuLutLo(): (p: seq<Row>)
    ensures ChunkOk(p, 17)
  {
    [Row(DPU + 0x4100, Const(0)), Row(DPU + 0x4104, Const(0)), Row(DPU + 0x4108, Const(0)),
     Row(DPU + 0x410C, Const(0)), Row(DPU + 0x4110, Const(0)), Row(DPU + 0x4114, Const(0))]
  }

  function DpuLutHi(): (p: seq<Row>)
    ensures ChunkOk(p, 18)
  {
    [Row(DPU + 0x4118, Const(0)), Row(DPU + 0x411C, Const(0)), Row(DPU + 0x4120, Const(0)),
     Row(DPU + 0x4124, Const(0)), Row(DPU + 0x4128, Const(0)), Row(DPU + 0x412C, Const(0))]
  }

  function RdmaLo(d: Dpu): (p: seq<Row>)
    ensures ChunkOk(p, 19)
  {
    [Row(RDMA + 0x500C, [Field(d.width, 13, 0)]), Row(RDMA + 0x5010, [Field(d.height, 13, 0)]),
     Row(RDMA + 0x5014, [Field(d.channel, 13, 0)]), Row(RDMA + 0x5018, If(d, d.ewSrcBaseAddr, 0)),
     Row(RDMA + 0x501C, Const(0)), Row(RDMA + 0x5020, Const(0)), Row(RDMA + 0x5028, Const(0)),
     Row(RDMA + 0x502C, Const(0)), Row(RDMA + 0x5034, If(d, d.erdmaCfgVal, 1))]
  }

  function RdmaHi(d: Dpu): (p: seq<Row>)
    ensures ChunkOk(p, 20)
  {
    [Row(RDMA + 0x5038, If(d, d.ewBaseAddr, 0)), Row(RDMA + 0x5040, If(d, d.ewSurfStride, 0)),
     Row(RDMA + 0x5044, ReadFields(d)), Row(RDMA + 0x5048, Const(0)),
     Row(RDMA + 0x504C, If(d, d.ewSurfNotch, 0)), Row(RDMA + 0x5064, Const(0)),
     Row(RDMA + 0x5068, Const(0x0101_0101)), Row(RDMA + 0x506C, If(d, d.ewSurfNotch, 0))]
  }

  /** The chunks in emission order: the two pointers, the blocks, and the trailer that enables
      them. */
  function ChunkAt(c: Cna, k: Core, d: Dpu, j: nat): (p: seq<Row>)
    requires j < CHUNKS
    ensures ChunkOk(p, j)
  {
    if j == 0 then [Row(DPU + 0x4004, Const(0xE))]
    else if j == 1 then [Row(RDMA + 0x5004, Const(0xE))]
    else if j == 2 then CnaGeometryLo(c)
    else if j == 3 then CnaGeometryHi(c)
    else if j == 4 then CnaFeedLo(c)
    else if j == 5 then CnaFeedHi(c)
    else if j == 6 then CnaDecompressLo(c)
    else if j == 7 then CnaDecompressHi()
    else if j == 8 then CnaAmountsLo()
    else if j == 9 then CnaAmountsHi()
    else if j == 10 then CoreWrites(k)
    else if j == 11 then DpuOutputLo(d)
    else if j == 12 then DpuOutputHi(d)
    else if j == 13 then DpuStagesLo(d)
    else if j == 14 then DpuStagesHi(d)
    else if j == 15 then DpuConvertLo(d)
    else if j == 16 then DpuConvertHi(d)
    else if j == 17 then DpuLutLo()
    else if j == 18 then DpuLutHi()
    else if j == 19 then RdmaLo(d)
    else if j == 20 then RdmaHi(d)
    else if j == 21 then [Row(0, Const(0))]
    else if j == 22 then [Row(PC + 0x0014, Const(0))]
    else if j == 23 then [Row(OP_40, Const(0))]
    else [Row(ENABLE + 0x0008, Const(0x1D))]
  }

  function Chunks(c: Cna, k: Core, d: Dpu): (cs: seq<seq<Row>>)
    ensures Chain(cs)
  {
    seq(CHUNKS, j requires 0 <= j < CHUNKS => ChunkAt(c, k, d, j))
  }

  function Flatten(cs: seq<seq<Row>>): seq<Row> {
    if cs == [] then [] else Flatten(cs[..|cs| - 1]) + cs[|cs| - 1]
  }

  function Program(c: Cna, k: Core, d: Dpu): seq<Row> {
    Flatten(Chunks(c, k, d))
  }

  function Words(p: seq<Row>): (s: seq<nat>)
    ensures |s| == |p| && forall i :: 0 <= i < |p| ==> s[i] == Word(p[i])
  {
    seq(|p|, i requires 0 <= i < |p| => Word(p[i]))
  }

  /** What a register holds once the words have run: its last write. */
  function Lookup(ws: seq<nat>, at: nat): nat {
    if ws == [] then 0
    else if WordAt(ws[|ws| - 1]) == at then WordValue(ws[|ws| - 1])
    else Lookup(ws[..|ws| - 1], at)
  }

  // ---- each register once --------------------------------------------------------------

  ghost predicate Once(p: seq<Row>) {
    forall i, j :: 0 <= i < j < |p| ==> p[i].at != p[j].at
  }

  ghost predicate Encodable(p: seq<Row>) {
    forall i :: 0 <= i < |p| ==> p[i].at < 0x1_0000_0000 && Layout(p[i].fields)
  }

  ghost predicate NoneShared(p: seq<Row>, q: seq<Row>) {
    forall x, y :: 0 <= x < |p| && 0 <= y < |q| ==> p[x].at != q[y].at
  }

  lemma {:induction false} RisesFar(p: seq<Row>, lo: nat, hi: nat, i: nat, j: nat)
    requires Block(p, lo, hi) && i <= j < |p|
    ensures p[i].at <= p[j].at && (i < j ==> p[i].at < p[j].at)
    decreases j
  {
    assert RowOk(p, j);
    if i < j { RisesFar(p, lo, hi, i, j - 1); }
  }

  lemma BlockOnce(p: seq<Row>, lo: nat, hi: nat)
    requires Block(p, lo, hi)
    ensures Once(p) && forall i :: 0 <= i < |p| ==> lo <= p[i].at <= hi && Layout(p[i].fields)
  {
    forall i, j | 0 <= i < j < |p| ensures p[i].at < p[j].at { RisesFar(p, lo, hi, i, j); }
    forall i | 0 <= i < |p| ensures lo <= p[i].at <= hi && Layout(p[i].fields) {
      assert RowOk(p, i);
      RisesFar(p, lo, hi, 0, i);
      RisesFar(p, lo, hi, i, |p| - 1);
    }
  }

  lemma SpansApart(i: nat, j: nat)
    requires i < j < CHUNKS
    ensures Span(i).1 < Span(j).0 || Span(j).1 < Span(i).0
    ensures Span(i).1 < 0x1_0000_0000 && Span(j).1 < 0x1_0000_0000
  {
  }

  lemma ChunkSound(p: seq<Row>, j: nat)
    requires j < CHUNKS && ChunkOk(p, j)
    ensures Once(p) && Encodable(p)
  {
    BlockOnce(p, Span(j).0, Span(j).1);
    if j == 0 { SpansApart(j, 1); } else { SpansApart(0, j); }
  }

  lemma ChunksApart(p: seq<Row>, q: seq<Row>, i: nat, j: nat)
    requires i < j < CHUNKS && ChunkOk(p, i) && ChunkOk(q, j)
    ensures NoneShared(p, q)
  {
    BlockOnce(p, Span(i).0, Span(i).1);
    BlockOnce(q, Span(j).0, Span(j).1);
    SpansApart(i, j);
  }

  /** Chunks of which each is sound, no two share a register, and chunk j starts at starts[j]. */
  ghost predicate Laid(cs: seq<seq<Row>>, starts: seq<nat>) {
    && |starts| == |cs| + 1 && starts[0] == 0
    && (forall j :: 0 <= j < |cs| ==> starts[j] + |cs[j]| == starts[j + 1] && Once(cs[j]) && Encodable(cs[j]))
    && (forall i, j :: 0 <= i < j < |cs| ==> NoneShared(cs[i], cs[j]))
  }

  function ChunkStarts(): seq<nat> { seq(CHUNKS + 1, j requires 0 <= j <= CHUNKS => Span(j).2) }

  lemma ChainIsLaid(cs: seq<seq<Row>>)
    requires Chain(cs)
    ensures Laid(cs, ChunkStarts()) && ChunkStarts()[CHUNKS] == WORDS
  {
    forall j: nat | j < CHUNKS ensures Once(cs[j]) && Encodable(cs[j]) { ChunkSound(cs[j], j); }
    forall j: nat | j < CHUNKS ensures ChunkStarts()[j] + |cs[j]| == ChunkStarts()[j + 1] {
      assert ChunkOk(cs[j], j);
    }
    forall i: nat, j: nat | i < j < CHUNKS ensures NoneShared(cs[i], cs[j]) {
      ChunksApart(cs[i], cs[j], i, j);
    }
  }

  /** The first n chunks: as long as they say, no register twice, and none in a later chunk. */
  lemma {:induction false} PrefixOnce(cs: seq<seq<Row>>, starts: seq<nat>, n: nat)
    requires Laid(cs, starts) && n <= |cs|
    ensures |Flatten(cs[..n])| == starts[n] && Once(Flatten(cs[..n])) && Encodable(Flatten(cs[..n]))
    ensures forall j: nat :: n <= j < |cs| ==> NoneShared(Flatten(cs[..n]), cs[j])
  {
    if n > 0 {
      var head, last := cs[..n - 1], cs[n - 1];
      assert cs[..n][..n - 1] == head;
      PrefixOnce(cs, starts, n - 1);
      AppendOnce(Flatten(head), last);
      forall j: nat | n <= j < |cs| ensures NoneShared(Flatten(cs[..n]), cs[j]) {
        AppendApart(Flatten(head), last, cs[j]);
      }
    }
  }

  lemma {:induction false} StartsRise(cs: seq<seq<Row>>, starts: seq<nat>, j: nat)
    requires Laid(cs, starts) && j <= |cs|
    ensures starts[j] <= starts[|cs|]
    decreases |cs| - j
  {
    if j < |cs| { StartsRise(cs, starts, j + 1); }
  }

  lemma AppendOnce(p: seq<Row>, q: seq<Row>)
    requires Once(p) && Once(q) && Encodable(p) && Encodable(q) && NoneShared(p, q)
    ensures Once(p + q) && Encodable(p + q)
  {
  }

  lemma AppendApart(p: seq<Row>, q: seq<Row>, r: seq<Row>)
    requires NoneShared(p, r) && NoneShared(q, r)
    ensures NoneShared(p + q, r)
  {
  }

  /** The program is 126 words whatever the descriptors, and writes no register twice. */
  lemma ProgramOnce(c: Cna, k: Core, d: Dpu)
    ensures |Program(c, k, d)| == WORDS && Once(Program(c, k, d)) && Encodable(Program(c, k, d))
  {
    var cs := Chunks(c, k, d);
    ChainIsLaid(cs);
    PrefixOnce(cs, ChunkStarts(), CHUNKS);
    assert cs[..CHUNKS] == cs;
  }

  // ---- decoding ------------------------------------------------------------------------

  lemma {:induction false} LookupIn(p: seq<Row>, i: nat)
    requires Once(p) && Encodable(p) && i < |p|
    ensures Lookup(Words(p), p[i].at) == PackFields(p[i].fields)
    decreases |p|
  {
    var n := |p| - 1;
    WordBack(p[n]);
    if i < n {
      LookupIn(p[..n], i);
      assert Words(p)[..n] == Words(p[..n]);
    }
  }

  /** Decoding the words gives back every field of every register, masked to its width and
      nothing else: no two fields share a bit, no write undoes another. */
  lemma FieldBack(c: Cna, k: Core, d: Dpu, i: nat, x: nat)
    requires i < |Program(c, k, d)| && x < |Program(c, k, d)[i].fields|
    ensures var r := Program(c, k, d)[i]; var f := r.fields[x];
      Extract(Lookup(Words(Program(c, k, d)), r.at), f.shift, f.width) == f.v % Pow2(f.width)
  {
    ProgramOnce(c, k, d);
    LookupIn(Program(c, k, d), i);
    ExtractPack(Program(c, k, d)[i].fields, x);
  }

  lemma {:induction false} FlatHas(cs: seq<seq<Row>>, j: nat, y: nat) returns (i: nat)
    requires j < |cs| && y < |cs[j]|
    ensures i < |Flatten(cs)| && Flatten(cs)[i] == cs[j][y]
    decreases |cs|
  {
    var rest := cs[..|cs| - 1];
    if j + 1 < |cs| { i := FlatHas(rest, j, y); } else { i := |Flatten(rest)| + y; }
  }

  // ---- emitting ------------------------------------------------------------------------

  /** The extents the emitter checks, with the most each field holds. */
  function Extents(c: Cna, d: Dpu): seq<(nat, nat)> {
    [(c.datainWidth, 0x7FF), (c.datainHeight, 0x7FF), (c.dataoutWidth, 0x7FF),
     (c.dataoutAtomics, 0x3_FFFF), (c.dmaWidth, 0x7FF), (c.dmaHeight, 0x7FF),
     (d.width, 0x1FFF), (d.height, 0x1FFF), (d.channel, 0x1FFF),
     (d.widthWdma, 0x1FFF), (d.heightWdma, 0x1FFF), (d.channelWdma, 0x1FFF)]
  }

  predicate GeometryOk(c: Cna, d: Dpu) {
    forall i :: 0 <= i < |Extents(c, d)| ==> Extents(c, d)[i].0 <= Extents(c, d)[i].1
  }

  method GeometryFits(c: Cna, d: Dpu) returns (ok: bool)
    ensures ok <==> GeometryOk(c, d)
  {
    var f := Extents(c, d);
    for i := 0 to |f|
      invariant forall j :: 0 <= j < i ==> f[j].0 <= f[j].1
    {
      if f[i].0 > f[i].1 { return false; }
    }
    ok := true;
  }

  /** Appends the words of one chunk. */
  method Put(ops: array<nat>, at: nat, p: seq<Row>) returns (next: nat)
    requires at + |p| <= ops.Length
    modifies ops
    ensures next == at + |p| && ops[..next] == old(ops[..at]) + Words(p)
  {
    next := at;
    for i := 0 to |p|
      invariant next == at + i && ops[..next] == old(ops[..at]) + Words(p)[..i]
    {
      ops[next] := Word(p[i]);
      next := next + 1;
    }
  }

  /** Emits the program and returns its length, or refuses an extent that would wrap. */
  method GenMatmulTask(ops: array<nat>, c: Cna, k: Core, d: Dpu) returns (n: int)
    requires WORDS <= ops.Length
    modifies ops
    ensures n == if GeometryOk(c, d) && c.featureGrains <= 0x3FF then WORDS else -1
    ensures n == WORDS ==> ops[..WORDS] == Words(Program(c, k, d))
  {
    var fits := GeometryFits(c, d);
    if !fits { return -1; }
    var cs := Chunks(c, k, d);
    ChainIsLaid(cs);
    ProgramOnce(c, k, d);
    n := EmitChunks(ops, cs, ChunkStarts(), c.featureGrains > 0x3FF);
  }

  lemma NextChunk(cs: seq<seq<Row>>, starts: seq<nat>, j: nat)
    requires Laid(cs, starts) && j < |cs|
    ensures Flatten(cs[..j + 1]) == Flatten(cs[..j]) + cs[j]
    ensures |Flatten(cs[..j + 1])| == starts[j + 1] <= starts[|cs|]
  {
    PrefixOnce(cs, starts, j + 1);
    StartsRise(cs, starts, j + 1);
    assert cs[..j + 1][..j] == cs[..j];
  }

  /** Emits chunk after chunk; a convolution register too narrow for its grains is found out
      once the pointers are down. */
  method EmitChunks(ops: array<nat>, cs: seq<seq<Row>>, ghost starts: seq<nat>, refuse: bool)
    returns (n: int)
    requires Laid(cs, starts) && 2 < |cs| && starts[|cs|] <= ops.Length
    modifies ops
    ensures n == if refuse then -1 else |Flatten(cs)|
    ensures !refuse ==> n <= ops.Length && ops[..n] == Words(Flatten(cs))
  {
    var i, j := 0, 0;
    while j < |cs|
      invariant j <= |cs| && i == |Flatten(cs[..j])| == starts[j] <= ops.Length
      invariant ops[..i] == Words(Flatten(cs[..j])) && (2 < j ==> !refuse)
    {
      if j == 2 && refuse { return -1; }
      NextChunk(cs, starts, j);
      i := Put(ops, i, cs[j]);
      j := j + 1;
    }
    assert cs[..|cs|] == cs;
    return i;
  }
}
