/** The controller of the pipelined CPU: the combinational decoder of stage 1
    and the registers of stages 0, 2 and 3. */
module PipelineStages {
  import opened Isa
  import opened RegisterMuxes

  // ------------------------------------------------- decode_compute1_stage1

  predicate ReadsA(i: Instr) {
    i.cls == ALU || i.cls == JMP || i.cls == ST || (i.cls == RET && i.size == RET_A) || IsTax(i)
  }

  predicate ReadsX(i: Instr) {
    || ((i.cls == LD || i.cls == LDX) && i.mode == IND)
    || i.cls == STX
    || (i.cls == RET && i.size == RET_X)
    || IsTxa(i)
  }

  predicate WritesA(i: Instr) { i.cls == LD || i.cls == ALU || IsTxa(i) }

  predicate WritesX(i: Instr) { i.cls == LDX || IsTax(i) }

  predicate AddrSelInd(i: Instr) { i.mode == IND }

  predicate PacketMemRdEn(i: Instr) {
    || (i.cls == LD && (i.mode == ABS || i.mode == IND))
    || (i.cls == LDX && (i.mode == ABS || i.mode == IND || i.mode == MSH))
  }

  predicate RegfileWrEn(i: Instr) { i.cls == ST || i.cls == STX }

  predicate RegfileSelX(i: Instr) { i.cls == STX }

  function ASel(i: Instr): nat {
    if i.cls == LD then
      if i.mode == ABS || i.mode == IND then A_SEL_PACKET_MEM
      else if i.mode == IMM then A_SEL_IMM
      else if i.mode == MEM then A_SEL_MEM
      else if i.mode == LEN then A_SEL_LEN
      else 0
    else if i.cls == ALU then A_SEL_ALU
    else if IsTxa(i) then A_SEL_X
    else 0
  }

  function XSel(i: Instr): nat {
    if i.cls == LDX then
      if i.mode == ABS || i.mode == IND then X_SEL_PACKET_MEM
      else if i.mode == IMM then X_SEL_IMM
      else if i.mode == MEM then X_SEL_MEM
      else if i.mode == LEN then X_SEL_LEN
      else if i.mode == MSH then X_SEL_MSH
      else 0
    else if IsTax(i) then X_SEL_A
    else 0
  }

  predicate IsRetImm(i: Instr) { i.cls == RET && i.size == RET_IMM }

  // ----------------------------------------------------------- fetch_stage0

  predicate GoodToGo(stage1Stalled: bool, stage1PcEn: bool, stage2PcEn: bool) {
    !(stage1Stalled || stage1PcEn || stage2PcEn)
  }

  predicate FetchNext(valid: bool, rst: bool, stage1Stalled: bool, stage1PcEn: bool, stage2PcEn: bool) {
    !rst && (GoodToGo(stage1Stalled, stage1PcEn, stage2PcEn) || (valid && stage1Stalled))
  }

  class FetchStage {
    var valid: bool

    method Clock(rst: bool, stage1Stalled: bool, stage1PcEn: bool, stage2PcEn: bool)
      modifies this
      ensures valid == FetchNext(old(valid), rst, stage1Stalled, stage1PcEn, stage2PcEn)
    {
      if rst {
        valid := false;
      } else {
        valid := GoodToGo(stage1Stalled, stage1PcEn, stage2PcEn) || (valid && stage1Stalled);
      }
    }
  }

  // -------------------------------------------------------- compute2_stage2

  /** Stage 2's registers.  PC, memory and scratch enables are gated with the
      incoming valid bit; the A and X enables are not. */
  datatype Compute2 = Compute2(
    aluSel: nat, pcEn: bool, rdEn: bool, sz: nat, rfSelX: bool, rfWr: bool, valid: bool,
    aSel: nat, aEn: bool, xSel: nat, xEn: bool)

  function Compute2Next(i: Instr, validIn: bool): Compute2 {
    Compute2(AluSel(i), validIn && i.cls == JMP, validIn && PacketMemRdEn(i), i.size,
             RegfileSelX(i), validIn && RegfileWrEn(i), validIn,
             ASel(i), WritesA(i), XSel(i), WritesX(i))
  }

  /** Jump resolution.  The jump type comes from the instruction that is in
      stage 1's input register now, not from a stage 2 register. */
  function PcSel(pcEn: bool, jmpType: nat, f: Flags): nat {
    if !pcEn then 0
    else if jmpType == JA then PC_SEL_PLUS_IMM
    else if Taken(jmpType, f) then PC_SEL_PLUS_JT
    else PC_SEL_PLUS_JF
  }

  class Compute2Stage {
    var aluSel: nat
    var pcEn: bool
    var rdEn: bool
    var sz: nat
    var rfSelX: bool
    var rfWr: bool
    var valid: bool
    var aSel: nat
    var aEn: bool
    var xSel: nat
    var xEn: bool

    function Regs(): Compute2
      reads this
    {
      Compute2(aluSel, pcEn, rdEn, sz, rfSelX, rfWr, valid, aSel, aEn, xSel, xEn)
    }

    method Clock(i: Instr, validIn: bool)
      modifies this
      ensures Regs() == Compute2Next(i, validIn)
    {
      aluSel := AluSel(i);
      pcEn := validIn && i.cls == JMP;
      rdEn := validIn && PacketMemRdEn(i);
      sz := i.size;
      rfSelX := RegfileSelX(i);
      rfWr := validIn && RegfileWrEn(i);
      aSel, aEn := ASel(i), WritesA(i);
      xSel, xEn := XSel(i), WritesX(i);
      valid := validIn;
    }
  }

  // ------------------------------------------------------- writeback_stage3

  datatype Writeback = Writeback(aSel: nat, aEn: bool, xSel: nat, xEn: bool)

  function WritebackNext(s2: Compute2): Writeback {
    Writeback(s2.aSel, s2.valid && s2.aEn, s2.xSel, s2.valid && s2.xEn)
  }

  class WritebackStage {
    var aSel: nat
    var aEn: bool
    var xSel: nat
    var xEn: bool

    function Regs(): Writeback
      reads this
    {
      Writeback(aSel, aEn, xSel, xEn)
    }

    method Clock(s2: Compute2)
      modifies this
      ensures Regs() == WritebackNext(s2)
    {
      aSel := s2.aSel;
      aEn := s2.valid && s2.aEn;
      xSel := s2.xSel;
      xEn := s2.valid && s2.xEn;
    }
  }
}
