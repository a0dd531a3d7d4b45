/** What the two CPUs' wires mean: their verdicts, where their jumps lead, and
    what waiting for a packet clears. */
module WireMeanings {
  import opened PacketRam
  import opened Isa
  import opened Words
  import opened Meanings
  import opened RegisterMuxes
  import opened PipelineStages
  import opened PipelineDatapath
  import opened PipelinedCpu
  import opened PipelineProof
  import opened PipelineTheorems
  import opened OldCpu
  import opened VirtualMachine
  import opened FilterCore

  /** The pipeline accepts on a valid RET #k with an odd k, rejects on one with
      an even k, and gives no other verdict. */
  lemma VerdictWires(c: Cpu)
    ensures Accepts(c) <==> c.valid0 && Opcode(c.ir) % 32 == 0x06 && exists m: nat :: c.ir.imm == 2 * m + 1
    ensures Rejects(c) <==> c.valid0 && Opcode(c.ir) % 32 == 0x06 && exists m: nat :: c.ir.imm == 2 * m
  {
    ParityLaws(c.ir.imm);
    hide Odd;
  }

  /** The old CPU gives its verdicts while it decodes a return, and also knows
      RET X and RET A. */
  lemma OldVerdictWires(c: Old)
    ensures OldAccepts(c) <==>
      && c.state == OldCpu.Decode && c.ir.cls == 6
      && (|| (c.ir.size == 0 && exists m: nat :: c.ir.imm == 2 * m + 1)
          || (c.ir.size == 1 && c.X != 0) || (c.ir.size == 2 && c.A != 0))
    ensures OldRejects(c) <==>
      && c.state == OldCpu.Decode && c.ir.cls == 6
      && (|| (c.ir.size == 0 && exists m: nat :: c.ir.imm == 2 * m)
          || (c.ir.size == 1 && c.X == 0) || (c.ir.size == 2 && c.A == 0) || c.ir.size == 3)
  {
    ParityLaws(c.ir.imm);
    hide Odd;
  }

  /** Which instructions wait for A, which for X, and which read the packet, by
      the bits of their opcodes. */
  lemma StageOneWires(i: Instr)
    ensures ReadsA(i) <==> i.cls == 2 || i.cls == 4 || i.cls == 5 || (i.cls == 6 && i.size == 2) || Opcode(i) == 0x07
    ensures ReadsX(i) <==>
      || (i.cls <= 1 && i.mode == 2) || i.cls == 3 || (i.cls == 6 && i.size == 1)
      || (i.cls == 7 && Opcode(i) != 0x07)
    ensures PipelineStages.PacketMemRdEn(i) <==>
      (i.cls <= 1 && (i.mode == 1 || i.mode == 2)) || (i.cls == 1 && i.mode == 5)
  {
  }

  /** The pipeline's jumps lead where the opcode says, for the operand they
      find. */
  lemma JumpTargetMeaning(e: Env, s: Arch, operand: word)
    ensures JumpTarget(e, s, Current(e, s), operand) == JumpGoes(e, s, Current(e, s), operand)
  {
    var i := Current(e, s);
    hide Wrap, Opcode, JmpType, AluSel, BSel, IsTax, IsTxa, Compare, Taken, JumpTaken, Current;
    OpcodeFields(i);
    JumpLaws(JmpType(i), s.A, operand);
    JumpAddress(e, s, i.imm);
    JumpAddress(e, s, i.jt);
    JumpAddress(e, s, i.jf);
  }

  /** An edge without a packet clears the scratch memory, whatever was in it;
      A and X stay. */
  lemma WaitingClearsScratch(e: Env, s: Sys)
    requires !s.c.valid0
    ensures var s' := SysNext(e, s, true);
      && (forall k :: 0 <= k < 16 ==> Flush(e, s', 0).scratch[k] == 0)
      && (!s.c.s2.valid && !s.c.s3.aEn && !s.c.s3.xEn ==>
          Flush(e, s', 0).A == Flush(e, s, 0).A && Flush(e, s', 0).X == Flush(e, s, 0).X)
  {
    hide ReadBytes, Select, Operations, Compare, Resize, AMux, XMux;
  }

  /** A verdict clears nothing: a packet that already waits finds the scratch
      words of the packet before. */
  lemma VerdictKeepsScratch(e: Env, s: Sys)
    requires Decides(s.c)
    ensures Flush(e, SysNext(e, s, false), 0).scratch == Flush(e, s, 0).scratch
  {
    hide ReadBytes, Select, Operations, Compare, Resize, AMux, XMux, Odd;
  }

  /** A packet that the CPU takes up after a cycle of waiting finds the scratch
      memory empty; A and X are those of the packet before. */
  lemma FreshScratch(c: Setup, k: Core, o: Outside)
    requires Formed(c, k.vm.mem) && Formed(c, CoreNext(c, k, o).vm.mem)
    requires !HasPacket(k) && Ready(EnvOf(c, k.vm.mem), SysOf(k))
    ensures forall j :: 0 <= j < 16 ==> OriginOf(c, CoreNext(c, k, o)).t.s.scratch[j] == 0
  {
    var e, s, k' := EnvOf(c, k.vm.mem), SysOf(k), CoreNext(c, k, o);
    WaitingClearsScratch(e, s) by { ReadyIsEmpty(e, s); }
    hide Formed, EnvOf, VmNext, CpuNext, InputOf, RawEnv.Size, A2, X2, Ready;
  }

  lemma ReadyIsEmpty(e: Env, s: Sys)
    requires Ready(e, s)
    ensures !s.c.valid0
  {
    hide Flush, ReadsEnabled, Stalled;
  }
}
