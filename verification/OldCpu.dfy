/** The earlier, multi-cycle CPU: a finite state machine (bpfvm_ctrl.v) over a
    single-issue datapath (bpfvm_datapath.v, alu.v), in its optimistic and its
    pessimistic variant. */
module OldCpu {
  import opened PacketRam
  import opened Isa
  import opened RegisterMuxes

  datatype State =
    | FetchState | Decode | WriteMemToA | WriteMemToX | WriteAluToA | MshWriteMemToX
    | CondJmpExtra | AluExtra | LdExtra | LdxExtra | Reset

  /** All registers: the controller's state, the instruction on the code
      memory's output, the datapath, the extra registers of the pessimistic
      variant, and the output of a single-cycle packet memory. */
  datatype Old = Old(state: State, ir: Instr, A: word, X: word, PC: nat, scratch: Scratch,
                     addrR: nat, flagsR: Flags, aluOutR: word, memQ: word)

  // --------------------------------------------------------- controller wires

  predicate IsPacketLoad(i: Instr) { i.mode == ABS || i.mode == IND }

  predicate IsQuickLoad(i: Instr) { i.mode == IMM || i.mode == MEM || i.mode == LEN }

  predicate AEn(c: Old) {
    || (c.state == Decode && ((c.ir.cls == LD && IsQuickLoad(c.ir)) || IsTxa(c.ir)))
    || c.state == WriteMemToA || c.state == WriteAluToA
  }

  function ASel(c: Old): nat {
    if c.state == WriteMemToA then A_SEL_PACKET_MEM
    else if c.state == WriteAluToA then A_SEL_ALU
    else if c.state == Decode then
      if c.ir.cls == LD then
        if c.ir.mode == IMM then A_SEL_IMM
        else if c.ir.mode == MEM then A_SEL_MEM
        else if c.ir.mode == LEN then A_SEL_LEN
        else 0
      else if IsTxa(c.ir) then A_SEL_X
      else 0
    else 0
  }

  predicate XEn(c: Old) {
    || (c.state == Decode && ((c.ir.cls == LDX && IsQuickLoad(c.ir)) || IsTax(c.ir)))
    || c.state == WriteMemToX || c.state == MshWriteMemToX
  }

  function XSel(c: Old): nat {
    if c.state == WriteMemToX then X_SEL_PACKET_MEM
    else if c.state == MshWriteMemToX then X_SEL_MSH
    else if c.state == Decode then
      if c.ir.cls == LDX then
        if c.ir.mode == IMM then X_SEL_IMM
        else if c.ir.mode == MEM then X_SEL_MEM
        else if c.ir.mode == LEN then X_SEL_LEN
        else 0
      else if IsTax(c.ir) then X_SEL_A
      else 0
    else 0
  }

  function Branch(i: Instr, f: Flags): nat {
    if Taken(JmpType(i), f) then PC_SEL_PLUS_JT else PC_SEL_PLUS_JF
  }

  function PcSel(pess: bool, c: Old, f: Flags): nat {
    if c.state == FetchState then PC_SEL_PLUS_1
    else if c.state == Decode && c.ir.cls == JMP then
      if JmpType(c.ir) == JA then PC_SEL_PLUS_IMM
      else if pess then 0
      else Branch(c.ir, f)
    else if pess && c.state == CondJmpExtra then Branch(c.ir, f)
    else 0
  }

  predicate PcEn(pess: bool, c: Old) {
    || c.state == FetchState
    || (c.state == Decode && c.ir.cls == JMP && (!pess || JmpType(c.ir) == JA))
    || (pess && c.state == CondJmpExtra)
  }

  predicate RegfileWrEn(c: Old) { c.state == Decode && (c.ir.cls == ST || c.ir.cls == STX) }

  predicate PacketMemRdEn(pess: bool, c: Old) {
    if pess then c.state == LdExtra || c.state == LdxExtra
    else
      && c.state == Decode
      && ((c.ir.cls == LD && IsPacketLoad(c.ir)) || (c.ir.cls == LDX && (IsPacketLoad(c.ir) || c.ir.mode == MSH)))
  }

  predicate OldAccepts(c: Old) {
    && c.state == Decode && c.ir.cls == RET
    && (|| (c.ir.size == RET_IMM && Odd(c.ir.imm))
        || (c.ir.size == RET_X && c.X != 0)
        || (c.ir.size == RET_A && c.A != 0))
  }

  predicate OldRejects(c: Old) { c.state == Decode && c.ir.cls == RET && !OldAccepts(c) }

  function NextState(pess: bool, c: Old, rst: bool, memReady: bool): State {
    match c.state
    case Reset => if memReady && !rst then FetchState else Reset
    case FetchState => Decode
    case Decode =>
      if c.ir.cls == LD then
        if IsQuickLoad(c.ir) then FetchState
        else if IsPacketLoad(c.ir) then if pess then LdExtra else WriteMemToA
        else Reset
      else if c.ir.cls == LDX then
        if IsQuickLoad(c.ir) then FetchState
        else if IsPacketLoad(c.ir) then if pess then LdxExtra else WriteMemToX
        else if c.ir.mode == MSH then if pess then LdxExtra else MshWriteMemToX
        else Reset
      else if c.ir.cls == ST || c.ir.cls == STX || c.ir.cls == MISC then FetchState
      else if c.ir.cls == JMP then if pess && JmpType(c.ir) != JA then CondJmpExtra else FetchState
      else if c.ir.cls == ALU then if pess then AluExtra else WriteAluToA
      else Reset
    case LdExtra => if pess then WriteMemToA else Reset
    case LdxExtra => if !pess then Reset else if c.ir.mode == MSH then MshWriteMemToX else WriteMemToX
    case AluExtra => if pess then WriteAluToA else Reset
    case CondJmpExtra => if pess then FetchState else Reset
    case _ => FetchState
  }

  // ----------------------------------------------------------- datapath wires

  function OperandB(c: Old): word { if BSel(c.ir) then c.X else c.ir.imm }

  function AluNow(c: Old): word { Alu(AluSel(c.ir), c.A, OperandB(c)) }

  function FlagsNow(c: Old): Flags { Compare(c.A, OperandB(c)) }

  function AddrNow(size: nat, c: Old): nat
    requires size > 0
  {
    PacketAddr(size, if c.ir.mode == IND then Add(c.X, c.ir.imm) else c.ir.imm)
  }

  /** One clock edge. */
  function OldNext(pess: bool, e: Env, c: Old, rst: bool, memReady: bool): Old {
    var aluOut := if pess then c.aluOutR else AluNow(c);
    var flags := if pess then c.flagsR else FlagsNow(c);
    var addr := if pess then c.addrR else AddrNow(e.Size(), c);
    var scratchOut := c.scratch[ScratchIndex(c.ir.imm)];
    Old(
      if rst then Reset else NextState(pess, c, rst, memReady),
      if c.state == FetchState then Fetch(e.code, c.PC) else c.ir,
      if AEn(c) then AMux(ASel(c), c.ir.imm, c.memQ, scratchOut, e.len, aluOut, c.X) else c.A,
      if XEn(c) then XMux(XSel(c), c.ir.imm, c.memQ, scratchOut, e.len, c.A) else c.X,
      if c.state == Reset then 0
      else if PcEn(pess, c) then NextPc(c.PC, PcSel(pess, c, flags), c.ir, c.ir.imm, |e.code|) else c.PC,
      if rst then ZeroScratch()
      else if RegfileWrEn(c) then c.scratch[ScratchIndex(c.ir.imm) := if c.ir.cls == STX then c.X else c.A]
      else c.scratch,
      AddrNow(e.Size(), c), FlagsNow(c), AluNow(c),
      if PacketMemRdEn(pess, c) then ReadBytes(e.mem, e.W, addr, c.ir.size) else c.memQ)
  }

  /** The controller's and the datapath's registers, clocked together. */
  class OldBpfCpu {
    const pess: bool
    var state: State
    var ir: Instr
    var A: word
    var X: word
    var PC: nat
    var scratch: Scratch
    var addrR: nat
    var flagsR: Flags
    var aluOutR: word
    var memQ: word

    constructor (pess: bool, ir: Instr, flags: Flags)
      ensures this.pess == pess && state == Reset && PC == 0
    {
      this.pess, this.ir, this.flagsR := pess, ir, flags;
      state, A, X, PC, scratch, addrR, aluOutR, memQ := Reset, 0, 0, 0, ZeroScratch(), 0, 0, 0;
    }

    function Regs(): Old
      reads this
    {
      Old(state, ir, A, X, PC, scratch, addrR, flagsR, aluOutR, memQ)
    }

    /** The datapath's always blocks: A, X, PC and the scratch memory. */
    method UpdateArchitecture(aEn: bool, nextA: word, xEn: bool, nextX: word, pcRst: bool, pcEn: bool, nextPc: nat,
                              rst: bool, wrEn: bool, index: nat, idata: word)
      requires index < 16
      modifies this`A, this`X, this`PC, this`scratch
      ensures A == (if aEn then nextA else old(A)) && X == (if xEn then nextX else old(X))
      ensures PC == if pcRst then 0 else if pcEn then nextPc else old(PC)
      ensures scratch == if rst then ZeroScratch() else if wrEn then old(scratch)[index := idata] else old(scratch)
    {
      if aEn {
        A := nextA;
      }
      if xEn {
        X := nextX;
      }
      if pcRst {
        PC := 0;
      } else if pcEn {
        PC := nextPc;
      }
      if rst {
        scratch := ZeroScratch();
      } else if wrEn {
        scratch := scratch[index := idata];
      }
    }

    /** The state register, the memory outputs and the registers that only the
        pessimistic variant reads. */
    method UpdateControl(next: State, irEn: bool, nextIr: Instr, rdEn: bool, data: word, addr: nat, flags: Flags,
            aluOut: word)
      modifies this`state, this`ir, this`memQ, this`addrR, this`flagsR, this`aluOutR
      ensures state == next && addrR == addr && flagsR == flags && aluOutR == aluOut
      ensures ir == (if irEn then nextIr else old(ir)) && memQ == (if rdEn then data else old(memQ))
    {
      state, addrR, flagsR, aluOutR := next, addr, flags, aluOut;
      if irEn {
        ir := nextIr;
      }
      if rdEn {
        memQ := data;
      }
    }

    method Clock(e: Env, rst: bool, memReady: bool) returns (acc: bool, rej: bool)
      modifies this
      ensures acc == OldAccepts(old(Regs())) && rej == OldRejects(old(Regs()))
      ensures Regs() == OldNext(pess, e, old(Regs()), rst, memReady)
    {
      hide AMux, XMux, NextPc, NextState, AluNow, FlagsNow, AddrNow, ReadBytes, Fetch, OldAccepts, OldRejects,
           AEn, XEn, ASel, XSel, PcEn, PcSel, RegfileWrEn, PacketMemRdEn, ScratchIndex;
      // wires, from the registers before the edge
      var c := Regs();
      acc, rej := OldAccepts(c), OldRejects(c);
      var aluOut := if pess then c.aluOutR else AluNow(c);
      var flags := if pess then c.flagsR else FlagsNow(c);
      var addr := if pess then c.addrR else AddrNow(e.Size(), c);
      var index := ScratchIndex(c.ir.imm);

      UpdateArchitecture(AEn(c), AMux(ASel(c), c.ir.imm, c.memQ, c.scratch[index], e.len, aluOut, c.X),
                         XEn(c), XMux(XSel(c), c.ir.imm, c.memQ, c.scratch[index], e.len, c.A),
                         c.state == Reset, PcEn(pess, c), NextPc(c.PC, PcSel(pess, c, flags), c.ir, c.ir.imm, |e.code|),
                         rst, RegfileWrEn(c), index, if c.ir.cls == STX then c.X else c.A);
      UpdateControl(if rst then Reset else NextState(pess, c, rst, memReady),
                    c.state == FetchState, Fetch(e.code, c.PC),
                    PacketMemRdEn(pess, c), ReadBytes(e.mem, e.W, addr, c.ir.size),
                    AddrNow(e.Size(), c), FlagsNow(c), AluNow(c));
    }
  }
}
