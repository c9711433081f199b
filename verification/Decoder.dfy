/** The emitted program read back: decoding its words gives the descriptors they were packed
    from, every field at its own register, cut to the field's width and no more. */
module Decoder {
  import opened Arith
  import opened Emitter

  /** One field of a register, as its last write left it. */
  function Get(ws: seq<nat>, at: nat, shift: nat, width: nat): nat {
    Extract(Lookup(ws, at), shift, width)
  }

  function Mask(v: nat, width: nat): nat { v % Pow2(width) }

  /** A 28-bit two's complement number. */
  function Signed28(v: nat): int { if v < 0x800_0000 then v else v - 0x1000_0000 }

  // ---- the decoder -----------------------------------------------------------------------

  function DecodeCna(ws: seq<nat>): Cna {
    Cna(
      Get(ws, CNA + 0x100C, 29, 1), Get(ws, CNA + 0x100C, 7, 3), Get(ws, CNA + 0x100C, 4, 3),
      Get(ws, CNA + 0x100C, 0, 4), Get(ws, CNA + 0x1010, 16, 8), Get(ws, CNA + 0x1010, 4, 10),
      Get(ws, CNA + 0x1014, 3, 3), Get(ws, CNA + 0x1014, 0, 3), Get(ws, CNA + 0x1020, 16, 11),
      Get(ws, CNA + 0x1020, 0, 11), Get(ws, CNA + 0x1024, 0, 16), Get(ws, CNA + 0x1028, 0, 11),
      Get(ws, CNA + 0x102C, 0, 18), Get(ws, CNA + 0x1030, 0, 32), Get(ws, CNA + 0x1034, 0, 19),
      Get(ws, CNA + 0x1038, 24, 5), Get(ws, CNA + 0x1038, 16, 5), Get(ws, CNA + 0x1038, 0, 14),
      Get(ws, CNA + 0x1040, 4, 4), Get(ws, CNA + 0x1040, 0, 4), Get(ws, CNA + 0x1040, 13, 1),
      Get(ws, CNA + 0x1040, 12, 1), Get(ws, CNA + 0x1044, 0, 13), Get(ws, CNA + 0x104C, 3, 1),
      Get(ws, CNA + 0x104C, 1, 1), Get(ws, CNA + 0x104C, 0, 1), Get(ws, CNA + 0x1050, 16, 16),
      Get(ws, CNA + 0x1054, 16, 16), Get(ws, CNA + 0x1058, 16, 16), Get(ws, CNA + 0x105C, 16, 16),
      Get(ws, CNA + 0x1060, 0, 1), Get(ws, CNA + 0x1064, 0, 17), Get(ws, CNA + 0x1068, 4, 4),
      Get(ws, CNA + 0x1068, 0, 4), Get(ws, CNA + 0x1070, 0, 32), Get(ws, CNA + 0x1074, 0, 17),
      Get(ws, CNA + 0x1078, 16, 4), Get(ws, CNA + 0x1078, 0, 4), Get(ws, CNA + 0x107C, 0, 28),
      Signed28(Get(ws, CNA + 0x1080, 0, 28)), Get(ws, CNA + 0x1084, 16, 11),
      Get(ws, CNA + 0x1084, 0, 11), Get(ws, CNA + 0x1088, 0, 16), Get(ws, CNA + 0x1110, 0, 32))
  }

  function DecodeCore(ws: seq<nat>): Core {
    Core(
      Get(ws, CORE + 0x3010, 8, 3), Get(ws, CORE + 0x3010, 0, 1), Get(ws, CORE + 0x3014, 16, 16),
      Get(ws, CORE + 0x3014, 0, 16), Get(ws, CORE + 0x3018, 0, 16))
  }

  /** `ew` says which of its two paths the program was emitted for. A field the path
      does not program comes back as zero. */
  function DecodeDpu(ws: seq<nat>, ew: bool): Dpu {
    Dpu(
      Get(ws, DPU + 0x400C, 5, 4), Get(ws, DPU + 0x400C, 3, 2), Get(ws, DPU + 0x400C, 1, 2),
      Get(ws, DPU + 0x400C, 0, 1), Get(ws, DPU + 0x4010, 29, 3), Get(ws, DPU + 0x4010, 26, 3),
      Get(ws, DPU + 0x4010, 3, 1), Get(ws, DPU + 0x4010, 0, 3), Get(ws, DPU + 0x4020, 0, 32),
      Get(ws, DPU + 0x4024, 4, 28), Get(ws, DPU + 0x4030, 0, 13), Get(ws, DPU + 0x4034, 0, 13),
      Get(ws, DPU + 0x4038, 0, 13), Get(ws, DPU + 0x403C, 0, 13), Get(ws, DPU + 0x4040, 6, 1),
      Get(ws, DPU + 0x4040, 4, 1), Get(ws, DPU + 0x4040, 1, 1), Get(ws, DPU + 0x4040, 0, 1),
      Get(ws, DPU + 0x4050, 27, 1), Get(ws, DPU + 0x4050, 8, 3), Get(ws, DPU + 0x4050, 5, 3),
      Get(ws, DPU + 0x4050, 2, 3), Get(ws, DPU + 0x4050, 1, 1), Get(ws, DPU + 0x4054, 0, 16),
      Get(ws, DPU + 0x4058, 27, 1), Get(ws, DPU + 0x4058, 16, 11), Get(ws, DPU + 0x4058, 0, 13),
      Get(ws, DPU + 0x405C, 16, 13), Get(ws, DPU + 0x405C, 0, 13), Get(ws, DPU + 0x4060, 6, 1),
      Get(ws, DPU + 0x4060, 4, 1), Get(ws, DPU + 0x4060, 1, 1), Get(ws, DPU + 0x4060, 0, 1),
      Get(ws, DPU + 0x4068, 16, 16), if ew then 1 else 0,
      if ew then 0 else Get(ws, DPU + 0x4070, 9, 1), if ew then 0 else Get(ws, DPU + 0x4070, 8, 1),
      if ew then 0 else Get(ws, DPU + 0x4070, 7, 1), if ew then 0 else Get(ws, DPU + 0x4070, 1, 1),
      if ew then 0 else Get(ws, DPU + 0x4070, 0, 1),
      if ew then Get(ws, DPU + 0x4070, 0, 32) else 0, Get(ws, DPU + 0x4080, 0, 32),
      Get(ws, DPU + 0x4084, 16, 1), Get(ws, DPU + 0x4084, 0, 16), Get(ws, DPU + 0x4088, 31, 1),
      Get(ws, DPU + 0x4088, 30, 1), Get(ws, DPU + 0x4088, 12, 8), Get(ws, DPU + 0x4088, 0, 6),
      Get(ws, DPU + 0x40C0, 4, 28), if ew then Get(ws, RDMA + 0x5018, 0, 32) else 0,
      if ew then Get(ws, RDMA + 0x5034, 0, 32) else 0,
      if ew then Get(ws, RDMA + 0x5038, 0, 32) else 0,
      if ew then Get(ws, RDMA + 0x5040, 0, 32) else 0,
      if ew then Get(ws, RDMA + 0x5044, 0, 32) else 0,
      if ew then Get(ws, RDMA + 0x504C, 0, 32) else 0)
  }

  // ---- what survives the fields ----------------------------------------------------------

  function CutCna(c: Cna): Cna {
    Cna(
      Mask(c.groupLineOff, 1), Mask(c.procPrecision, 3), Mask(c.inPrecision, 3),
      Mask(c.convMode, 4), Mask(c.kernelGroups, 8), Mask(c.featureGrains, 10),
      Mask(c.convYStride, 3), Mask(c.convXStride, 3), Mask(c.datainWidth, 11),
      Mask(c.datainHeight, 11), Mask(c.datainChannel, 16), Mask(c.dataoutWidth, 11),
      Mask(c.dataoutAtomics, 18), Mask(c.weightBytes, 32), Mask(c.weightBytesPerKernel, 19),
      Mask(c.weightWidth, 5), Mask(c.weightHeight, 5), Mask(c.weightKernels, 14),
      Mask(c.weightBank, 4), Mask(c.dataBank, 4), Mask(Flag(c.weightReuse), 1),
      Mask(Flag(c.dataReuse), 1), Mask(c.dataEntries, 13), Mask(c.dataSign, 1), Mask(c.cvtType, 1),
      Mask(c.cvtBypass, 1), Mask(c.cvtScale0, 16), Mask(c.cvtScale1, 16), Mask(c.cvtScale2, 16),
      Mask(c.cvtScale3, 16), Mask(c.fcSkipEn, 1), Mask(c.dataOffset, 17), Mask(c.padLeft, 4),
      Mask(c.padTop, 4), Mask(c.featureBaseAddr, 32), Mask(c.weightOffset, 17),
      Mask(c.weightBurstLen, 4), Mask(c.dataBurstLen, 4), Mask(c.lineStride, 28),
      Signed28(c.surfStride % 0x1000_0000), Mask(c.dmaWidth, 11), Mask(c.dmaHeight, 11),
      Mask(c.dmaChannel, 16), Mask(c.decompressAddr0, 32))
  }

  function CutCore(k: Core): Core {
    Core(
      Mask(k.procPrecision, 3), Mask(k.qdEn, 1), Mask(k.dataoutHeight, 16),
      Mask(k.dataoutWidth, 16), Mask(k.dataoutChannel, 16))
  }

  function CutDpu(d: Dpu): Dpu {
    Dpu(
      Mask(d.burstLen, 4), Mask(d.convMode, 2), Mask(d.outputMode, 2), Mask(d.flyingMode, 1),
      Mask(d.outPrecision, 3), Mask(d.inPrecision, 3), Mask(d.mcSurfOut, 1),
      Mask(d.procPrecision, 3), Mask(d.dstBaseAddr, 32), Mask(d.dstSurfStride, 28),
      Mask(d.width, 13), Mask(d.height, 13), Mask(d.notch, 13), Mask(d.channel, 13),
      Mask(d.bsReluBypass, 1), Mask(d.bsMulBypass, 1), Mask(d.bsAluBypass, 1), Mask(d.bsBypass, 1),
      Mask(d.tpOrgEn, 1), Mask(d.sizeE2, 3), Mask(d.sizeE1, 3), Mask(d.sizeE0, 3),
      Mask(d.odBypass, 1), Mask(d.bsOwOp, 16), Mask(d.tpPrecision, 1), Mask(d.sizeCWdma, 11),
      Mask(d.channelWdma, 13), Mask(d.heightWdma, 13), Mask(d.widthWdma, 13),
      Mask(d.bnReluBypass, 1), Mask(d.bnMulBypass, 1), Mask(d.bnAluBypass, 1), Mask(d.bnBypass, 1),
      Mask(d.bnMulOperand, 16), Flag(d.ewAccumulate),
      if d.ewAccumulate != 0 then 0 else Mask(d.ewReluBypass, 1),
      if d.ewAccumulate != 0 then 0 else Mask(d.ewOpCvtBypass, 1),
      if d.ewAccumulate != 0 then 0 else Mask(d.ewLutBypass, 1),
      if d.ewAccumulate != 0 then 0 else Mask(d.ewOpBypass, 1),
      if d.ewAccumulate != 0 then 0 else Mask(d.ewBypass, 1),
      if d.ewAccumulate != 0 then Mask(d.ewCfgVal, 32) else 0, Mask(d.outCvtOffset, 32),
      Mask(d.fp32tofp16En, 1), Mask(d.outCvtScale, 16), Mask(d.outCvtCvtType, 1),
      Mask(d.outCvtRound, 1), Mask(d.outCvtMinusExp, 8), Mask(d.outCvtShift, 6),
      Mask(d.surfAdd, 28), if d.ewAccumulate != 0 then Mask(d.ewSrcBaseAddr, 32) else 0,
      if d.ewAccumulate != 0 then Mask(d.erdmaCfgVal, 32) else 0,
      if d.ewAccumulate != 0 then Mask(d.ewBaseAddr, 32) else 0,
      if d.ewAccumulate != 0 then Mask(d.ewSurfStride, 32) else 0,
      if d.ewAccumulate != 0 then Mask(d.rdmaFmcVal, 32) else 0,
      if d.ewAccumulate != 0 then Mask(d.ewSurfNotch, 32) else 0)
  }

  // ---- chunk by chunk ---------------------------------------------------------------------

  /** Every field of every row of chunk j comes back. */
  lemma ChunkBack(c: Cna, k: Core, d: Dpu, j: nat, p: seq<Row>)
    requires j < CHUNKS && p == ChunkAt(c, k, d, j)
    ensures forall x, y :: 0 <= x < |p| && 0 <= y < |p[x].fields| ==>
      var f := p[x].fields[y];
      Get(Words(Program(c, k, d)), p[x].at, f.shift, f.width) == Mask(f.v, f.width)
  {
    forall x, y | 0 <= x < |p| && 0 <= y < |p[x].fields|
      ensures var f := p[x].fields[y];
        Get(Words(Program(c, k, d)), p[x].at, f.shift, f.width) == Mask(f.v, f.width)
    {
      var i := FlatHas(Chunks(c, k, d), j, x);
      FieldBack(c, k, d, i, y);
    }
  }

  lemma CnaGeometryLoBack(c: Cna, k: Core, d: Dpu)
    ensures var ws := Words(Program(c, k, d));
      && Get(ws, CNA + 0x100C, 29, 1) == Mask(c.groupLineOff, 1)
      && Get(ws, CNA + 0x100C, 7, 3) == Mask(c.procPrecision, 3)
      && Get(ws, CNA + 0x100C, 4, 3) == Mask(c.inPrecision, 3)
      && Get(ws, CNA + 0x100C, 0, 4) == Mask(c.convMode, 4)
      && Get(ws, CNA + 0x1010, 16, 8) == Mask(c.kernelGroups, 8)
      && Get(ws, CNA + 0x1010, 4, 10) == Mask(c.featureGrains, 10)
      && Get(ws, CNA + 0x1014, 3, 3) == Mask(c.convYStride, 3)
      && Get(ws, CNA + 0x1014, 0, 3) == Mask(c.convXStride, 3)
      && Get(ws, CNA + 0x1020, 16, 11) == Mask(c.datainWidth, 11)
      && Get(ws, CNA + 0x1020, 0, 11) == Mask(c.datainHeight, 11)
      && Get(ws, CNA + 0x1024, 0, 16) == Mask(c.datainChannel, 16)
      && Get(ws, CNA + 0x1028, 0, 11) == Mask(c.dataoutWidth, 11)
  {
    var p := CnaGeometryLo(c);
    ChunkBack(c, k, d, 2, p);
    assert p[0].fields[0].v == c.groupLineOff && p[0].fields[1].v == c.procPrecision;
    assert p[0].fields[2].v == c.inPrecision && p[0].fields[3].v == c.convMode;
    assert p[1].fields[0].v == c.kernelGroups && p[1].fields[1].v == c.featureGrains;
    assert p[2].fields[0].v == c.convYStride && p[2].fields[1].v == c.convXStride;
    assert p[3].fields[0].v == c.datainWidth && p[3].fields[1].v == c.datainHeight;
    assert p[4].fields[1].v == c.datainChannel && p[5].fields[0].v == c.dataoutWidth;
  }

  lemma CnaGeometryHiBack(c: Cna, k: Core, d: Dpu)
    ensures var ws := Words(Program(c, k, d));
      && Get(ws, CNA + 0x102C, 0, 18) == Mask(c.dataoutAtomics, 18)
      && Get(ws, CNA + 0x1030, 0, 32) == Mask(c.weightBytes, 32)
      && Get(ws, CNA + 0x1034, 0, 19) == Mask(c.weightBytesPerKernel, 19)
      && Get(ws, CNA + 0x1038, 24, 5) == Mask(c.weightWidth, 5)
      && Get(ws, CNA + 0x1038, 16, 5) == Mask(c.weightHeight, 5)
      && Get(ws, CNA + 0x1038, 0, 14) == Mask(c.weightKernels, 14)
      && Get(ws, CNA + 0x1040, 13, 1) == Mask(Flag(c.weightReuse), 1)
      && Get(ws, CNA + 0x1040, 12, 1) == Mask(Flag(c.dataReuse), 1)
      && Get(ws, CNA + 0x1040, 4, 4) == Mask(c.weightBank, 4)
      && Get(ws, CNA + 0x1040, 0, 4) == Mask(c.dataBank, 4)
      && Get(ws, CNA + 0x1044, 0, 13) == Mask(c.dataEntries, 13)
  {
    var p := CnaGeometryHi(c);
    ChunkBack(c, k, d, 3, p);
    assert p[0].fields[0].v == c.dataoutAtomics && p[1].fields[0].v == c.weightBytes;
    assert p[2].fields[0].v == c.weightBytesPerKernel && p[3].fields[0].v == c.weightWidth;
    assert p[3].fields[1].v == c.weightHeight && p[3].fields[2].v == c.weightKernels;
    assert p[4].fields[0].v == Flag(c.weightReuse) && p[4].fields[1].v == Flag(c.dataReuse);
    assert p[4].fields[2].v == c.weightBank && p[4].fields[3].v == c.dataBank;
    assert p[5].fields[0].v == c.dataEntries;
  }

  lemma CnaConvertBack(c: Cna, k: Core, d: Dpu)
    ensures var ws := Words(Program(c, k, d));
      && Get(ws, CNA + 0x104C, 3, 1) == Mask(c.dataSign, 1)
      && Get(ws, CNA + 0x104C, 1, 1) == Mask(c.cvtType, 1)
      && Get(ws, CNA + 0x104C, 0, 1) == Mask(c.cvtBypass, 1)
  {
    var p := CnaFeedLo(c);
    ChunkBack(c, k, d, 4, p);
    assert p[0].fields[0].v == c.dataSign && p[0].fields[1].v == c.cvtType;
    assert p[0].fields[2].v == c.cvtBypass;
  }

  lemma CnaScalesBack(c: Cna, k: Core, d: Dpu)
    ensures var ws := Words(Program(c, k, d));
      && Get(ws, CNA + 0x1050, 16, 16) == Mask(c.cvtScale0, 16)
      && Get(ws, CNA + 0x1054, 16, 16) == Mask(c.cvtScale1, 16)
      && Get(ws, CNA + 0x1058, 16, 16) == Mask(c.cvtScale2, 16)
  {
    var p := CnaFeedLo(c);
    ChunkBack(c, k, d, 4, p);
    assert p[1].fields[0].v == c.cvtScale0 && p[2].fields[0].v == c.cvtScale1;
    assert p[3].fields[0].v == c.cvtScale2;
  }

  lemma CnaPadsBack(c: Cna, k: Core, d: Dpu)
    ensures var ws := Words(Program(c, k, d));
      && Get(ws, CNA + 0x105C, 16, 16) == Mask(c.cvtScale3, 16)
      && Get(ws, CNA + 0x1060, 0, 1) == Mask(c.fcSkipEn, 1)
      && Get(ws, CNA + 0x1064, 0, 17) == Mask(c.dataOffset, 17)
      && Get(ws, CNA + 0x1068, 4, 4) == Mask(c.padLeft, 4)
      && Get(ws, CNA + 0x1068, 0, 4) == Mask(c.padTop, 4)
  {
    var p := CnaFeedLo(c);
    ChunkBack(c, k, d, 4, p);
    assert p[4].fields[0].v == c.cvtScale3 && p[5].fields[0].v == c.fcSkipEn;
    assert p[6].fields[0].v == c.dataOffset && p[7].fields[0].v == c.padLeft;
    assert p[7].fields[1].v == c.padTop;
  }

  lemma CnaAddressBack(c: Cna, k: Core, d: Dpu)
    ensures var ws := Words(Program(c, k, d));
      && Get(ws, CNA + 0x1070, 0, 32) == Mask(c.featureBaseAddr, 32)
      && Get(ws, CNA + 0x1074, 0, 17) == Mask(c.weightOffset, 17)
      && Get(ws, CNA + 0x1078, 16, 4) == Mask(c.weightBurstLen, 4)
      && Get(ws, CNA + 0x1078, 0, 4) == Mask(c.dataBurstLen, 4)
  {
    var p := CnaFeedHi(c);
    ChunkBack(c, k, d, 5, p);
    assert p[0].fields[0].v == c.featureBaseAddr && p[1].fields[0].v == c.weightOffset;
    assert p[2].fields[0].v == c.weightBurstLen && p[2].fields[1].v == c.dataBurstLen;
  }

  lemma CnaDmaBack(c: Cna, k: Core, d: Dpu)
    ensures var ws := Words(Program(c, k, d));
      && Get(ws, CNA + 0x107C, 0, 28) == Mask(c.lineStride, 28)
      && Get(ws, CNA + 0x1080, 0, 28) == Mask(c.surfStride % 0x1000_0000, 28)
      && Get(ws, CNA + 0x1084, 16, 11) == Mask(c.dmaWidth, 11)
      && Get(ws, CNA + 0x1084, 0, 11) == Mask(c.dmaHeight, 11)
      && Get(ws, CNA + 0x1088, 0, 16) == Mask(c.dmaChannel, 16)
  {
    var p := CnaFeedHi(c);
    ChunkBack(c, k, d, 5, p);
    assert p[3].fields[0].v == c.lineStride && p[4].fields[0].v == c.surfStride % 0x1000_0000;
    assert p[5].fields[0].v == c.dmaWidth && p[5].fields[1].v == c.dmaHeight;
    assert p[6].fields[0].v == c.dmaChannel;
  }

  lemma CnaDecompressBack(c: Cna, k: Core, d: Dpu)
    ensures var ws := Words(Program(c, k, d));
      && Get(ws, CNA + 0x1110, 0, 32) == Mask(c.decompressAddr0, 32)
  {
    var p := CnaDecompressLo(c);
    ChunkBack(c, k, d, 6, p);
    assert p[2].fields[0].v == c.decompressAddr0;
  }

  lemma CoreBack(c: Cna, k: Core, d: Dpu)
    ensures var ws := Words(Program(c, k, d));
      && Get(ws, CORE + 0x3010, 8, 3) == Mask(k.procPrecision, 3)
      && Get(ws, CORE + 0x3010, 0, 1) == Mask(k.qdEn, 1)
      && Get(ws, CORE + 0x3014, 16, 16) == Mask(k.dataoutHeight, 16)
      && Get(ws, CORE + 0x3014, 0, 16) == Mask(k.dataoutWidth, 16)
      && Get(ws, CORE + 0x3018, 0, 16) == Mask(k.dataoutChannel, 16)
  {
    var p := CoreWrites(k);
    ChunkBack(c, k, d, 10, p);
    assert p[0].fields[0].v == k.procPrecision && p[0].fields[1].v == k.qdEn;
    assert p[1].fields[0].v == k.dataoutHeight && p[1].fields[1].v == k.dataoutWidth;
    assert p[2].fields[0].v == k.dataoutChannel;
  }

  lemma DpuModesBack(c: Cna, k: Core, d: Dpu)
    ensures var ws := Words(Program(c, k, d));
      && Get(ws, DPU + 0x400C, 5, 4) == Mask(d.burstLen, 4)
      && Get(ws, DPU + 0x400C, 3, 2) == Mask(d.convMode, 2)
      && Get(ws, DPU + 0x400C, 1, 2) == Mask(d.outputMode, 2)
      && Get(ws, DPU + 0x400C, 0, 1) == Mask(d.flyingMode, 1)
  {
    var p := DpuOutputLo(d);
    ChunkBack(c, k, d, 11, p);
    assert p[0].fields[0].v == d.burstLen && p[0].fields[1].v == d.convMode;
    assert p[0].fields[2].v == d.outputMode && p[0].fields[3].v == d.flyingMode;
  }

  lemma DpuPrecisionsBack(c: Cna, k: Core, d: Dpu)
    ensures var ws := Words(Program(c, k, d));
      && Get(ws, DPU + 0x4010, 29, 3) == Mask(d.outPrecision, 3)
      && Get(ws, DPU + 0x4010, 26, 3) == Mask(d.inPrecision, 3)
      && Get(ws, DPU + 0x4010, 3, 1) == Mask(d.mcSurfOut, 1)
      && Get(ws, DPU + 0x4010, 0, 3) == Mask(d.procPrecision, 3)
  {
    var p := DpuOutputLo(d);
    ChunkBack(c, k, d, 11, p);
    assert p[1].fields[0].v == d.outPrecision && p[1].fields[1].v == d.inPrecision;
    assert p[1].fields[2].v == d.mcSurfOut && p[1].fields[3].v == d.procPrecision;
  }

  lemma DpuSurfaceBack(c: Cna, k: Core, d: Dpu)
    ensures var ws := Words(Program(c, k, d));
      && Get(ws, DPU + 0x4020, 0, 32) == Mask(d.dstBaseAddr, 32)
      && Get(ws, DPU + 0x4024, 4, 28) == Mask(d.dstSurfStride, 28)
      && Get(ws, DPU + 0x4030, 0, 13) == Mask(d.width, 13)
      && Get(ws, DPU + 0x4034, 0, 13) == Mask(d.height, 13)
  {
    var p := DpuOutputLo(d);
    ChunkBack(c, k, d, 11, p);
    assert p[3].fields[0].v == d.dstBaseAddr && p[4].fields[0].v == d.dstSurfStride;
    assert p[5].fields[0].v == d.width && p[6].fields[0].v == d.height;
  }

  lemma DpuOutputHiBack(c: Cna, k: Core, d: Dpu)
    ensures var ws := Words(Program(c, k, d));
      && Get(ws, DPU + 0x4038, 0, 13) == Mask(d.notch, 13)
      && Get(ws, DPU + 0x403C, 0, 13) == Mask(d.channel, 13)
      && Get(ws, DPU + 0x4040, 6, 1) == Mask(d.bsReluBypass, 1)
      && Get(ws, DPU + 0x4040, 4, 1) == Mask(d.bsMulBypass, 1)
      && Get(ws, DPU + 0x4040, 1, 1) == Mask(d.bsAluBypass, 1)
      && Get(ws, DPU + 0x4040, 0, 1) == Mask(d.bsBypass, 1)
  {
    var p := DpuOutputHi(d);
    ChunkBack(c, k, d, 12, p);
    assert p[0].fields[1].v == d.notch && p[1].fields[1].v == d.channel;
    assert p[2].fields[0].v == d.bsReluBypass && p[2].fields[1].v == d.bsMulBypass;
    assert p[2].fields[2].v == d.bsAluBypass && p[2].fields[3].v == d.bsBypass;
  }

  lemma DpuStagesLoBack(c: Cna, k: Core, d: Dpu)
    ensures var ws := Words(Program(c, k, d));
      && Get(ws, DPU + 0x4050, 27, 1) == Mask(d.tpOrgEn, 1)
      && Get(ws, DPU + 0x4050, 8, 3) == Mask(d.sizeE2, 3)
      && Get(ws, DPU + 0x4050, 5, 3) == Mask(d.sizeE1, 3)
      && Get(ws, DPU + 0x4050, 2, 3) == Mask(d.sizeE0, 3)
      && Get(ws, DPU + 0x4050, 1, 1) == Mask(d.odBypass, 1)
      && Get(ws, DPU + 0x4054, 0, 16) == Mask(d.bsOwOp, 16)
  {
    var p := DpuStagesLo(d);
    ChunkBack(c, k, d, 13, p);
    assert p[0].fields[0].v == d.tpOrgEn && p[0].fields[1].v == d.sizeE2;
    assert p[0].fields[2].v == d.sizeE1 && p[0].fields[3].v == d.sizeE0;
    assert p[0].fields[4].v == d.odBypass && p[1].fields[0].v == d.bsOwOp;
  }

  lemma DpuWdmaBack(c: Cna, k: Core, d: Dpu)
    ensures var ws := Words(Program(c, k, d));
      && Get(ws, DPU + 0x4058, 27, 1) == Mask(d.tpPrecision, 1)
      && Get(ws, DPU + 0x4058, 16, 11) == Mask(d.sizeCWdma, 11)
      && Get(ws, DPU + 0x4058, 0, 13) == Mask(d.channelWdma, 13)
      && Get(ws, DPU + 0x405C, 16, 13) == Mask(d.heightWdma, 13)
      && Get(ws, DPU + 0x405C, 0, 13) == Mask(d.widthWdma, 13)
      && Get(ws, DPU + 0x4060, 6, 1) == Mask(d.bnReluBypass, 1)
      && Get(ws, DPU + 0x4060, 4, 1) == Mask(d.bnMulBypass, 1)
      && Get(ws, DPU + 0x4060, 1, 1) == Mask(d.bnAluBypass, 1)
      && Get(ws, DPU + 0x4060, 0, 1) == Mask(d.bnBypass, 1)
  {
    var p := DpuStagesLo(d);
    ChunkBack(c, k, d, 13, p);
    assert p[2].fields[0].v == d.tpPrecision && p[2].fields[1].v == d.sizeCWdma;
    assert p[2].fields[2].v == d.channelWdma && p[3].fields[0].v == d.heightWdma;
    assert p[3].fields[1].v == d.widthWdma && p[4].fields[0].v == d.bnReluBypass;
    assert p[4].fields[1].v == d.bnMulBypass && p[4].fields[2].v == d.bnAluBypass;
    assert p[4].fields[3].v == d.bnBypass;
  }

  lemma DpuStagesHiBack(c: Cna, k: Core, d: Dpu)
    ensures var ws := Words(Program(c, k, d));
      && Get(ws, DPU + 0x4068, 16, 16) == Mask(d.bnMulOperand, 16)
    ensures d.ewAccumulate != 0 ==> var ws := Words(Program(c, k, d));
      && Get(ws, DPU + 0x4070, 0, 32) == Mask(d.ewCfgVal, 32)
    ensures d.ewAccumulate == 0 ==> var ws := Words(Program(c, k, d));
      && Get(ws, DPU + 0x4070, 9, 1) == Mask(d.ewReluBypass, 1)
      && Get(ws, DPU + 0x4070, 8, 1) == Mask(d.ewOpCvtBypass, 1)
      && Get(ws, DPU + 0x4070, 7, 1) == Mask(d.ewLutBypass, 1)
      && Get(ws, DPU + 0x4070, 1, 1) == Mask(d.ewOpBypass, 1)
      && Get(ws, DPU + 0x4070, 0, 1) == Mask(d.ewBypass, 1)
  {
    var p := DpuStagesHi(d);
    ChunkBack(c, k, d, 14, p);
    assert p[0].fields[0].v == d.bnMulOperand;
    assert d.ewAccumulate != 0 ==> p[2].fields[0].v == d.ewCfgVal;
    assert d.ewAccumulate == 0 ==> p[2].fields[0].v == d.ewReluBypass;
    assert d.ewAccumulate == 0 ==> p[2].fields[1].v == d.ewOpCvtBypass;
    assert d.ewAccumulate == 0 ==> p[2].fields[2].v == d.ewLutBypass;
    assert d.ewAccumulate == 0 ==> p[2].fields[3].v == d.ewOpBypass;
    assert d.ewAccumulate == 0 ==> p[2].fields[4].v == d.ewBypass;
  }

  lemma DpuOutCvtBack(c: Cna, k: Core, d: Dpu)
    ensures var ws := Words(Program(c, k, d));
      && Get(ws, DPU + 0x4080, 0, 32) == Mask(d.outCvtOffset, 32)
      && Get(ws, DPU + 0x4084, 16, 1) == Mask(d.fp32tofp16En, 1)
      && Get(ws, DPU + 0x4084, 0, 16) == Mask(d.outCvtScale, 16)
  {
    var p := DpuConvertLo(d);
    ChunkBack(c, k, d, 15, p);
    assert p[0].fields[0].v == d.outCvtOffset && p[1].fields[0].v == d.fp32tofp16En;
    assert p[1].fields[1].v == d.outCvtScale;
  }

  lemma DpuOutShiftBack(c: Cna, k: Core, d: Dpu)
    ensures var ws := Words(Program(c, k, d));
      && Get(ws, DPU + 0x4088, 31, 1) == Mask(d.outCvtCvtType, 1)
      && Get(ws, DPU + 0x4088, 30, 1) == Mask(d.outCvtRound, 1)
      && Get(ws, DPU + 0x4088, 12, 8) == Mask(d.outCvtMinusExp, 8)
      && Get(ws, DPU + 0x4088, 0, 6) == Mask(d.outCvtShift, 6)
  {
    var p := DpuConvertLo(d);
    ChunkBack(c, k, d, 15, p);
    assert p[2].fields[0].v == d.outCvtCvtType && p[2].fields[1].v == d.outCvtRound;
    assert p[2].fields[2].v == d.outCvtMinusExp && p[2].fields[3].v == d.outCvtShift;
  }

  lemma DpuConvertHiBack(c: Cna, k: Core, d: Dpu)
    ensures var ws := Words(Program(c, k, d));
      && Get(ws, DPU + 0x40C0, 4, 28) == Mask(d.surfAdd, 28)
  {
    var p := DpuConvertHi(d);
    ChunkBack(c, k, d, 16, p);
    assert p[4].fields[0].v == d.surfAdd;
  }

  lemma RdmaLoBack(c: Cna, k: Core, d: Dpu)
    ensures d.ewAccumulate != 0 ==> var ws := Words(Program(c, k, d));
      && Get(ws, RDMA + 0x5018, 0, 32) == Mask(d.ewSrcBaseAddr, 32)
      && Get(ws, RDMA + 0x5034, 0, 32) == Mask(d.erdmaCfgVal, 32)
  {
    if d.ewAccumulate != 0 {
      var p := RdmaLo(d);
      ChunkBack(c, k, d, 19, p);
      assert p[3].fields[0].v == d.ewSrcBaseAddr;
      assert p[8].fields[0].v == d.erdmaCfgVal;
    }
  }

  lemma RdmaBasesBack(c: Cna, k: Core, d: Dpu)
    ensures d.ewAccumulate != 0 ==> var ws := Words(Program(c, k, d));
      && Get(ws, RDMA + 0x5038, 0, 32) == Mask(d.ewBaseAddr, 32)
      && Get(ws, RDMA + 0x5040, 0, 32) == Mask(d.ewSurfStride, 32)
  {
    if d.ewAccumulate != 0 {
      var p := RdmaHi(d);
      ChunkBack(c, k, d, 20, p);
      assert p[0].fields[0].v == d.ewBaseAddr;
      assert p[1].fields[0].v == d.ewSurfStride;
    }
  }

  lemma RdmaModesBack(c: Cna, k: Core, d: Dpu)
    ensures d.ewAccumulate != 0 ==> var ws := Words(Program(c, k, d));
      && Get(ws, RDMA + 0x5044, 0, 32) == Mask(d.rdmaFmcVal, 32)
      && Get(ws, RDMA + 0x504C, 0, 32) == Mask(d.ewSurfNotch, 32)
  {
    if d.ewAccumulate != 0 {
      var p := RdmaHi(d);
      ChunkBack(c, k, d, 20, p);
      assert p[2].fields[0].v == d.rdmaFmcVal;
      assert p[4].fields[0].v == d.ewSurfNotch;
    }
  }

  // ---- the round trip ---------------------------------------------------------------------

  lemma CnaBack(c: Cna, k: Core, d: Dpu)
    ensures DecodeCna(Words(Program(c, k, d))) == CutCna(c)
  {
    CnaGeometryLoBack(c, k, d);
    CnaGeometryHiBack(c, k, d);
    CnaConvertBack(c, k, d);
    CnaScalesBack(c, k, d);
    CnaPadsBack(c, k, d);
    CnaAddressBack(c, k, d);
    CnaDmaBack(c, k, d);
    CnaDecompressBack(c, k, d);
    Mask28(c.surfStride % 0x1000_0000);
  }

  lemma Mask28(v: nat)
    requires v < 0x1000_0000
    ensures Mask(v, 28) == v
  {
    var a, b := Pow2(14), 14;
    assert a == 0x4000;
    Pow2Add(b, b);
  }

  lemma DpuBack(c: Cna, k: Core, d: Dpu)
    ensures DecodeDpu(Words(Program(c, k, d)), d.ewAccumulate != 0) == CutDpu(d)
  {
    DpuModesBack(c, k, d);
    DpuPrecisionsBack(c, k, d);
    DpuSurfaceBack(c, k, d);
    DpuOutputHiBack(c, k, d);
    DpuStagesLoBack(c, k, d);
    DpuWdmaBack(c, k, d);
    DpuStagesHiBack(c, k, d);
    DpuOutCvtBack(c, k, d);
    DpuOutShiftBack(c, k, d);
    DpuConvertHiBack(c, k, d);
    RdmaLoBack(c, k, d);
    RdmaBasesBack(c, k, d);
    RdmaModesBack(c, k, d);
  }

  /** Decoding a program gives back all three descriptors, cut to their fields, whatever they
      hold: no field is dropped, moved, swapped or overlapped. */
  lemma DescriptorsBack(c: Cna, k: Core, d: Dpu)
    ensures var ws := Words(Program(c, k, d));
      && DecodeCna(ws) == CutCna(c) && DecodeCore(ws) == CutCore(k)
      && DecodeDpu(ws, d.ewAccumulate != 0) == CutDpu(d)
  {
    CnaBack(c, k, d);
    CoreBack(c, k, d);
    DpuBack(c, k, d);
  }

  /** Every field is within its width, and what the path does not program is zero. */
  predicate Fits(c: Cna, k: Core, d: Dpu) {
    FitsCna(c) && FitsCore(k) && FitsDpu(d)
  }

  predicate FitsCna(c: Cna) {
    && c.groupLineOff < Pow2(1) && c.procPrecision < Pow2(3) && c.inPrecision < Pow2(3)
    && c.convMode < Pow2(4) && c.kernelGroups < Pow2(8) && c.featureGrains < Pow2(10)
    && c.convYStride < Pow2(3) && c.convXStride < Pow2(3) && c.datainWidth < Pow2(11)
    && c.datainHeight < Pow2(11) && c.datainChannel < Pow2(16) && c.dataoutWidth < Pow2(11)
    && c.dataoutAtomics < Pow2(18) && c.weightBytes < Pow2(32)
    && c.weightBytesPerKernel < Pow2(19) && c.weightWidth < Pow2(5) && c.weightHeight < Pow2(5)
    && c.weightKernels < Pow2(14) && c.weightBank < Pow2(4) && c.dataBank < Pow2(4)
    && c.weightReuse <= 1 && c.dataReuse <= 1 && c.dataEntries < Pow2(13) && c.dataSign < Pow2(1)
    && c.cvtType < Pow2(1) && c.cvtBypass < Pow2(1) && c.cvtScale0 < Pow2(16)
    && c.cvtScale1 < Pow2(16) && c.cvtScale2 < Pow2(16) && c.cvtScale3 < Pow2(16)
    && c.fcSkipEn < Pow2(1) && c.dataOffset < Pow2(17) && c.padLeft < Pow2(4)
    && c.padTop < Pow2(4) && c.featureBaseAddr < Pow2(32) && c.weightOffset < Pow2(17)
    && c.weightBurstLen < Pow2(4) && c.dataBurstLen < Pow2(4) && c.lineStride < Pow2(28)
    && -0x800_0000 <= c.surfStride < 0x800_0000 && c.dmaWidth < Pow2(11) && c.dmaHeight < Pow2(11)
    && c.dmaChannel < Pow2(16) && c.decompressAddr0 < Pow2(32)
  }

  predicate FitsCore(k: Core) {
    && k.procPrecision < Pow2(3) && k.qdEn < Pow2(1) && k.dataoutHeight < Pow2(16)
    && k.dataoutWidth < Pow2(16) && k.dataoutChannel < Pow2(16)
  }

  predicate FitsDpu(d: Dpu) {
    && d.ewAccumulate <= 1 && d.burstLen < Pow2(4) && d.convMode < Pow2(2)
    && d.outputMode < Pow2(2) && d.flyingMode < Pow2(1) && d.outPrecision < Pow2(3)
    && d.inPrecision < Pow2(3) && d.mcSurfOut < Pow2(1) && d.procPrecision < Pow2(3)
    && d.dstBaseAddr < Pow2(32) && d.dstSurfStride < Pow2(28) && d.width < Pow2(13)
    && d.height < Pow2(13) && d.notch < Pow2(13) && d.channel < Pow2(13)
    && d.bsReluBypass < Pow2(1) && d.bsMulBypass < Pow2(1) && d.bsAluBypass < Pow2(1)
    && d.bsBypass < Pow2(1) && d.tpOrgEn < Pow2(1) && d.sizeE2 < Pow2(3) && d.sizeE1 < Pow2(3)
    && d.sizeE0 < Pow2(3) && d.odBypass < Pow2(1) && d.bsOwOp < Pow2(16)
    && d.tpPrecision < Pow2(1) && d.sizeCWdma < Pow2(11) && d.channelWdma < Pow2(13)
    && d.heightWdma < Pow2(13) && d.widthWdma < Pow2(13) && d.bnReluBypass < Pow2(1)
    && d.bnMulBypass < Pow2(1) && d.bnAluBypass < Pow2(1) && d.bnBypass < Pow2(1)
    && d.bnMulOperand < Pow2(16) && d.outCvtOffset < Pow2(32) && d.fp32tofp16En < Pow2(1)
    && d.outCvtScale < Pow2(16) && d.outCvtCvtType < Pow2(1) && d.outCvtRound < Pow2(1)
    && d.outCvtMinusExp < Pow2(8) && d.outCvtShift < Pow2(6) && d.surfAdd < Pow2(28)
    && (if d.ewAccumulate != 0 then
          && d.ewCfgVal < Pow2(32) && d.ewSrcBaseAddr < Pow2(32) && d.erdmaCfgVal < Pow2(32)
          && d.ewBaseAddr < Pow2(32) && d.ewSurfStride < Pow2(32) && d.rdmaFmcVal < Pow2(32)
          && d.ewSurfNotch < Pow2(32) && d.ewReluBypass == 0 && d.ewOpCvtBypass == 0
          && d.ewLutBypass == 0 && d.ewOpBypass == 0 && d.ewBypass == 0
        else
          && d.ewReluBypass < Pow2(1) && d.ewOpCvtBypass < Pow2(1) && d.ewLutBypass < Pow2(1)
          && d.ewOpBypass < Pow2(1) && d.ewBypass < Pow2(1) && d.ewCfgVal == 0
          && d.ewSrcBaseAddr == 0 && d.erdmaCfgVal == 0 && d.ewBaseAddr == 0
          && d.ewSurfStride == 0 && d.rdmaFmcVal == 0 && d.ewSurfNotch == 0)
  }

  lemma MaskIs()
    ensures forall v: nat, w: nat {:trigger Mask(v, w)} :: Mask(v, w) == v <==> v < Pow2(w)
  {
    forall v: nat, w: nat ensures Mask(v, w) == v <==> v < Pow2(w) {
      if v < Pow2(w) { Digits(0, v, Pow2(w)); }
    }
  }

  /** Descriptors come back as they went in exactly when every field fits. */
  lemma RoundTrip(c: Cna, k: Core, d: Dpu)
    ensures var ws := Words(Program(c, k, d));
      (DecodeCna(ws) == c && DecodeCore(ws) == k && DecodeDpu(ws, d.ewAccumulate != 0) == d)
      <==> Fits(c, k, d)
  {
    DescriptorsBack(c, k, d);
    UncutCna(c);
    UncutCore(k);
    UncutDpu(d);
  }

  lemma UncutCna(c: Cna)
    ensures CutCna(c) == c <==> FitsCna(c)
  {
    MaskIs();
  }

  lemma UncutCore(k: Core)
    ensures CutCore(k) == k <==> FitsCore(k)
  {
    MaskIs();
  }

  lemma UncutDpu(d: Dpu)
    ensures CutDpu(d) == d <==> FitsDpu(d)
  {
    MaskIs();
  }

  /** And two programs for one path are the same words only for descriptors that are the same
      as far as their fields go. */
  lemma WordsTell(c: Cna, k: Core, d: Dpu, c': Cna, k': Core, d': Dpu)
    requires (d.ewAccumulate != 0) == (d'.ewAccumulate != 0)
    requires Words(Program(c, k, d)) == Words(Program(c', k', d'))
    ensures CutCna(c) == CutCna(c') && CutCore(k) == CutCore(k') && CutDpu(d) == CutDpu(d')
  {
    DescriptorsBack(c, k, d);
    DescriptorsBack(c', k', d');
  }

  /** The guard in numbers. */
  lemma ExtentBounds(c: Cna, d: Dpu)
    ensures GeometryOk(c, d) <==>
      && c.datainWidth <= 0x7FF && c.datainHeight <= 0x7FF && c.dataoutWidth <= 0x7FF
      && c.dataoutAtomics <= 0x3_FFFF && c.dmaWidth <= 0x7FF && c.dmaHeight <= 0x7FF
      && d.width <= 0x1FFF && d.height <= 0x1FFF && d.channel <= 0x1FFF
      && d.widthWdma <= 0x1FFF && d.heightWdma <= 0x1FFF && d.channelWdma <= 0x1FFF
  {
    var f := Extents(c, d);
    if GeometryOk(c, d) {
      assert f[0].0 <= f[0].1 && f[1].0 <= f[1].1 && f[2].0 <= f[2].1 && f[3].0 <= f[3].1;
      assert f[4].0 <= f[4].1 && f[5].0 <= f[5].1 && f[6].0 <= f[6].1 && f[7].0 <= f[7].1;
      assert f[8].0 <= f[8].1 && f[9].0 <= f[9].1 && f[10].0 <= f[10].1 && f[11].0 <= f[11].1;
    }
  }

  lemma GuardedWidths()
    ensures Pow2(10) == 0x400 && Pow2(11) == 0x800 && Pow2(13) == 0x2000 && Pow2(18) == 0x4_0000
  {
    assert Pow2(14) == 0x4000;
  }

  /** What the refusals buy: the guards pass exactly when no guarded extent would be wrapped in
      the program. */
  lemma ExtentsBack(c: Cna, k: Core, d: Dpu)
    ensures var ws := Words(Program(c, k, d));
      (GeometryOk(c, d) && c.featureGrains <= 0x3FF) <==>
      (&& Get(ws, CNA + 0x1010, 4, 10) == c.featureGrains
       && Get(ws, CNA + 0x1020, 16, 11) == c.datainWidth
       && Get(ws, CNA + 0x1020, 0, 11) == c.datainHeight
       && Get(ws, CNA + 0x1028, 0, 11) == c.dataoutWidth
       && Get(ws, CNA + 0x102C, 0, 18) == c.dataoutAtomics
       && Get(ws, CNA + 0x1084, 16, 11) == c.dmaWidth
       && Get(ws, CNA + 0x1084, 0, 11) == c.dmaHeight
       && Get(ws, DPU + 0x4030, 0, 13) == d.width
       && Get(ws, DPU + 0x4034, 0, 13) == d.height
       && Get(ws, DPU + 0x403C, 0, 13) == d.channel
       && Get(ws, DPU + 0x405C, 0, 13) == d.widthWdma
       && Get(ws, DPU + 0x405C, 16, 13) == d.heightWdma
       && Get(ws, DPU + 0x4058, 0, 13) == d.channelWdma)
  {
    DescriptorsBack(c, k, d);
    ExtentBounds(c, d);
    MaskIs();
    GuardedWidths();
  }
}
