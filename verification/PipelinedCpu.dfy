/** The pipelined CPU (pipelined_bpfcpu.v, pipelined_bpfvm_ctrl.v) in its
    optimistic configuration, with its instruction register (the output latch
    of the code memory) and the clocked half of the packet read adapter. */
module PipelinedCpu {
  import opened PacketRam
  import opened Isa
  import opened PipelineStages
  import opened PipelineDatapath

  datatype Cpu = Cpu(valid0: bool, ir: Instr, s2: Compute2, s3: Writeback, d: Datapath, szR: nat, offsetR: nat)

  // ------------------------------------------------------------------- wires

  predicate Stalled(c: Cpu) {
    || (ReadsA(c.ir) && (c.s2.aEn || c.s3.aEn))
    || (ReadsX(c.ir) && (c.s2.xEn || c.s3.xEn))
  }

  predicate Issues(c: Cpu) { c.valid0 && !Stalled(c) }

  predicate Accepts(c: Cpu) { c.valid0 && IsRetImm(c.ir) && Odd(c.ir.imm) }

  predicate Rejects(c: Cpu) { c.valid0 && IsRetImm(c.ir) && !Odd(c.ir.imm) }

  predicate Decides(c: Cpu) { Accepts(c) || Rejects(c) }

  predicate Go(c: Cpu) {
    GoodToGo(Stalled(c), c.ir.cls == JMP && Issues(c), c.s2.pcEn)
  }

  function Controls(c: Cpu, hold: bool): Control {
    Control(hold, Decides(c), c.s3.aSel, c.s3.aEn, c.s3.xSel, c.s3.xEn,
            PcSel(c.s2.pcEn, JmpType(c.ir), c.d.flags), Go(c) || c.s2.pcEn,
            AddrSelInd(c.ir), BSel(c.ir), c.s2.aluSel, c.s2.rfWr, c.s2.rfSelX)
  }

  /** One clock edge.  `hold` is rst || !mem_ready; `big` is what the packet
      RAM's output latch shows. */
  function CpuNext(e: Env, c: Cpu, hold: bool, big: Beat): Cpu {
    var ctrlRst := hold || Decides(c);
    Cpu(
      FetchNext(c.valid0, ctrlRst, Stalled(c), c.ir.cls == JMP && Issues(c), c.s2.pcEn),
      if Go(c) && !ctrlRst then Fetch(e.code, c.d.PC) else c.ir,
      Compute2Next(c.ir, Issues(c)),
      WritebackNext(c.s2),
      DatapathNext(|e.code|, e.Size(), e.len, c.d, c.ir, Controls(c, hold), Resize(big, c.szR, c.offsetR)),
      c.s2.sz,
      Wrap(c.d.packetAddrR, e.W))
  }

  // ------------------------------------------------------------------ modules

  /** pipelined_bpfvm_ctrl.v: the stages and the signals between them. */
  class PipelinedController {
    const fetch: FetchStage
    const compute2: Compute2Stage
    const writeback: WritebackStage

    constructor (fetch: FetchStage, compute2: Compute2Stage, writeback: WritebackStage)
      ensures this.fetch == fetch && this.compute2 == compute2 && this.writeback == writeback
    {
      this.fetch, this.compute2, this.writeback := fetch, compute2, writeback;
    }

    /** One clock edge, given the instruction in stage 1 and the wires it drives. */
    method Clock(i: Instr, rst: bool, stalled: bool, issues: bool)
      modifies fetch, compute2, writeback
      ensures fetch.valid == FetchNext(old(fetch.valid), rst, stalled, i.cls == JMP && issues, old(compute2.pcEn))
      ensures compute2.Regs() == Compute2Next(i, issues)
      ensures writeback.Regs() == WritebackNext(old(compute2.Regs()))
    {
      fetch.Clock(rst, stalled, i.cls == JMP && issues, compute2.pcEn);
      writeback.Clock(compute2.Regs());
      compute2.Clock(i, issues);
    }
  }

  class PipelinedBpfCpu {
    const ctrl: PipelinedController
    const datapath: DatapathModule
    const adapter: ReadSizeAdapter
    var ir: Instr

    constructor (ctrl: PipelinedController, datapath: DatapathModule, adapter: ReadSizeAdapter, ir: Instr)
      requires datapath.Valid()
      ensures Valid() && this.ir == ir && this.ctrl == ctrl && this.datapath == datapath && this.adapter == adapter
    {
      this.ctrl, this.datapath, this.adapter, this.ir := ctrl, datapath, adapter, ir;
    }

    predicate Valid() { datapath.Valid() }

    ghost function Modules(): set<object> {
      {this, ctrl.fetch, ctrl.compute2, ctrl.writeback, datapath, datapath.alu, datapath.regfile.scratch, adapter}
    }

    function Regs(): Cpu
      requires Valid()
      reads Modules(), datapath.regfile
    {
      Cpu(ctrl.fetch.valid, ir, ctrl.compute2.Regs(), ctrl.writeback.Regs(), datapath.Regs(), adapter.szR,
          adapter.offsetR)
    }

    /** One clock edge of the whole CPU; returns the verdict wires. */
    method Clock(e: Env, hold: bool, big: Beat) returns (acc: bool, rej: bool)
      requires Valid()
      modifies Modules()
      ensures Valid()
      ensures acc == Accepts(old(Regs())) && rej == Rejects(old(Regs()))
      ensures Regs() == CpuNext(e, old(Regs()), hold, big)
    {
      hide Decides, Odd, IsRetImm, ReadsA, ReadsX, GoodToGo, Wrap, DatapathNext, Compute2Next, WritebackNext,
           FetchNext, Resize, Fetch, Controls, Stalled, Go, Issues, Accepts, Rejects;
      var c := Regs();
      acc, rej := Accepts(c), Rejects(c);
      var ctrlRst := hold || Decides(c);
      datapath.Clock(|e.code|, e.Size(), e.len, c.ir, Controls(c, hold), Resize(big, c.szR, c.offsetR));
      adapter.Clock(c.s2.sz, c.d.packetAddrR, e.W);
      ctrl.Clock(c.ir, ctrlRst, Stalled(c), Issues(c));
      if Go(c) && !ctrlRst {
        ir := Fetch(e.code, c.d.PC);
      }
    }
  }
}
