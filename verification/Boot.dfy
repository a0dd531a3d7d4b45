/** From the host's text to a filter that runs the program. */
module Boot {
  import opened PacketRam
  import opened Isa
  import opened PipelineStages
  import opened PipelineProof
  import opened PipelineTheorems
  import opened CpuProgress
  import opened JobQueues
  import opened P3Control
  import opened PacketMem
  import opened Snooper
  import opened Forwarder
  import opened FilterCore
  import opened Dispatch
  import opened ParallelFilters
  import opened ParallelProof
  import HostText
  import opened ProgramLoad
  import opened StartUp

  /** Reset as seen outside the CPUs: empty buffers and queues, snooper,
      forwarder and both selections at rest. */
  ghost predicate ResetAround(c: Setup, addrWidth: nat, f: Filter) {
    && c.cap == Pow2(addrWidth)
    && f.sn == Snoop(0, false) && FwdIdle(f.fwd)
    && f.snSel == StickyStart(PadTo4(|f.machines|)) && f.fwdSel == StickyStart(MuxSize(|f.machines|))
    && forall j :: 0 <= j < |f.machines| ==> MemoryReset(c, f.machines[j])
  }

  ghost predicate MemoryReset(c: Setup, m: Machine) {
    && Formed(c, m.mem) && m.mem.p3 == P3_RESET
    && m.mem.ping.len == m.mem.pang.len == m.mem.pung.len == 0
  }

  /** The machine's CPU was held for three cycles, from any registers, with the
      loaded program's first instruction on the code memory's output. */
  ghost predicate HeldCpu(c: Setup, m: Machine, e: Env, s: Sys, shown: Instr) {
    && e.code == c.code && e.Size() == 2 * c.cap * c.W && s.c.ir == shown && m.cpu == Held(e, s).c
  }

  lemma MachineBoots(c: Setup, m: Machine, e: Env, s: Sys, shown: Instr)
    requires MemoryReset(c, m) && HeldCpu(c, m, e, s, shown)
    ensures MachineStart(c, m) <==> Ready(e, Held(e, s))
  {
    EnvShape(c, m.mem);
    hide Formed, Ready, EnvOf, Held, DataTo, Head, RawEnv.Size;
    var e', s' := EnvOf(c, m.mem), Sys(m.cpu, DataTo(m.mem, Head(m.mem.p3.cpu)));
    if Ready(e, Held(e, s)) {
      ReadyTransfers(e, Held(e, s), e', s');
    }
    if Ready(e', s') {
      ReadyTransfers(e', s', e, Held(e, s));
    }
  }

  /** Main result.  Send the text of a program of at least two instructions, cut
      into buffers in any way, and hold every CPU for three cycles: the filter of
      any number of machines is then in a start state of its runs iff the
      program's first instruction does not depend on itself; and the program is
      one the main theorems speak about iff that instruction is not RET #k. */
  lemma LoadedFilterStarts(l: Loader, out: CodeWord, program: seq<HostText.Insn>, buffers: seq<seq<byte>>,
          cycles: seq<BusCycle>, c: Setup, addrWidth: nat, f: Filter, es: seq<Env>, ss: seq<Sys>)
    requires Settled(l) && l.addr == 0 && !l.lowValid && 2 <= |program| <= |l.code|
    requires HostText.Joined(buffers) == HostText.ProgramText(program)
    requires WritesIn(cycles) == HostText.ReceiveAll(HostText.WAITING, buffers).1
    requires c.code == CpuCode(LoaderRun(l, cycles)) && ResetAround(c, addrWidth, f)
    requires |f.machines| == |es| == |ss| > 0
    requires forall j :: 0 <= j < |f.machines| ==>
               HeldCpu(c, f.machines[j], es[j], ss[j], Decode(OutRun(l, out, cycles)))
    ensures forall i :: 0 <= i < |program| ==> c.code[i] == AsInstr(program[i])
    ensures FilterStart(c, addrWidth, f) <==> !SelfReader(AsInstr(program[0]))
    ensures Runnable(c.code) <==> !IsRetImm(AsInstr(program[0]))
  {
    hide LoaderRun, OutRun, Decode, AsInstr, SelfReader, MachineStart, MemoryReset, Ready, Held, WritesIn,
         HostText.ReceiveAll, HostText.Joined, HostText.ProgramText, IsRetImm, Pow2, FwdIdle;
    var shown := Decode(OutRun(l, out, cycles));
    forall j | 0 <= j < |f.machines|
      ensures MachineStart(c, f.machines[j]) <==> !SelfReader(AsInstr(program[0]))
      ensures forall i :: 0 <= i < |program| ==> c.code[i] == AsInstr(program[i])
    {
      LoadedProgramStarts(l, out, program, buffers, cycles, es[j], ss[j]);
      MachineBoots(c, f.machines[j], es[j], ss[j], shown);
    }
    assert MachineStart(c, f.machines[0]) <==> !SelfReader(AsInstr(program[0]));
    assert c.code[0] == AsInstr(program[0]);
  }
}
