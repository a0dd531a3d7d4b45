/** The datapath of the pipelined CPU: the two-phase ALU, the scratch memory
    and the A, X, PC, immediate and address registers. */
module PipelineDatapath {
  import opened PacketRam
  import opened Isa
  import opened RegisterMuxes

  // ------------------------------------------------------------ pipelined_alu

  /** Every operation's result, latched each cycle. */
  datatype AluOps = AluOps(add: word, sub: word, or_: word, and_: word,
                           lsh: word, rsh: word, not_: word, xor: word)

  function Operations(a: word, b: word): AluOps {
    AluOps(Add(a, b), Sub(a, b), OrWord(a, b), And(a, b), ShiftLeft(a, b), ShiftRight(a, b), Not(a), XorWord(a, b))
  }

  /** The second phase: select one of the latched results. */
  function Select(sel: nat, ops: AluOps): word {
    match sel
    case 0 => ops.add
    case 1 => ops.sub
    case 2 => 0xCAFEDEAD
    case 3 => 0xDEADBEEF
    case 4 => ops.or_
    case 5 => ops.and_
    case 6 => ops.lsh
    case 7 => ops.rsh
    case 8 => ops.not_
    case 9 => 0xBEEFCAFE
    case 10 => ops.xor
    case _ => 0
  }

  /** The two phases together are the ALU of the instruction set. */
  lemma TwoPhaseAlu(sel: nat, a: word, b: word)
    ensures Select(sel, Operations(a, b)) == Alu(sel, a, b)
  {
  }

  class PipelinedAlu {
    var ops: AluOps
    var out: word
    var flags: Flags

    constructor (ops: AluOps, out: word, flags: Flags)
      ensures this.ops == ops && this.out == out && this.flags == flags
    {
      this.ops, this.out, this.flags := ops, out, flags;
    }

    method Clock(a: word, b: word, sel: nat)
      modifies this
      ensures ops == Operations(a, b) && flags == Compare(a, b)
      ensures out == Select(sel, old(ops))
    {
      out := Select(sel, ops);
      ops := Operations(a, b);
      flags := Compare(a, b);
    }
  }

  // ------------------------------------------------------------------ regfile

  function RegfileNext(s: Scratch, rst: bool, addr: nat, idata: word, wrEn: bool): Scratch
    requires addr < 16
  {
    if rst then ZeroScratch() else if wrEn then s[addr := idata] else s
  }

  /** The scratch memory, cleared and written in place. */
  class RegFile {
    const scratch: array<word>

    predicate Valid() { scratch.Length == 16 }

    constructor ()
      ensures Valid() && fresh(scratch)
    {
      scratch := new word[16](_ => 0);
    }

    function Contents(): Scratch
      requires Valid()
      reads this, scratch
    {
      scratch[..]
    }

    method Clock(rst: bool, addr: nat, idata: word, wrEn: bool)
      requires Valid() && addr < 16
      modifies scratch
      ensures Contents() == RegfileNext(old(Contents()), rst, addr, idata, wrEn)
    {
      if rst {
        for k := 0 to 16
          invariant forall j :: 0 <= j < k ==> scratch[j] == 0
        {
          scratch[k] := 0;
        }
        assert scratch[..] == ZeroScratch();
      } else if wrEn {
        scratch[addr] := idata;
      }
    }
  }

  // ------------------------------------------------------- pipelined_datapath

  datatype Datapath = Datapath(
    A: word, X: word, PC: nat, imm2: word, imm3: word, packetAddrR: nat, scratchR: word,
    scratch: Scratch, ops: AluOps, aluOut: word, flags: Flags)

  /** Control signals and memory data seen by the datapath in one cycle. */
  datatype Control = Control(
    rst: bool, pcRst: bool, aSel: nat, aEn: bool, xSel: nat, xEn: bool, pcSel: nat, pcEn: bool,
    addrSelInd: bool, bSelX: bool, aluSel: nat, rfWr: bool, rfSelX: bool)

  /** One clock edge, for `depth` words of code and `size` bytes of packet memory. */
  function DatapathNext(depth: nat, size: nat, len: word, d: Datapath, i: Instr, c: Control, packetData: word): Datapath
    requires depth > 0 && size > 0
  {
    Datapath(
      if c.aEn then AMux(c.aSel, d.imm3, packetData, d.scratchR, len, d.aluOut, d.X) else d.A,
      if c.xEn then XMux(c.xSel, d.imm3, packetData, d.scratchR, len, d.A) else d.X,
      if c.pcRst || c.rst then 0
      else if c.pcEn then NextPc(d.PC, c.pcSel, i, d.imm2, depth) else d.PC,
      if c.rst then 0 else i.imm,
      if c.rst then 0 else d.imm2,
      if c.rst then 0 else PacketAddr(size, if c.addrSelInd then Add(d.X, i.imm) else i.imm),
      if c.rst then 0 else d.scratch[ScratchIndex(d.imm2)],
      RegfileNext(d.scratch, c.rst, ScratchIndex(d.imm2), if c.rfSelX then d.X else d.A, c.rfWr),
      Operations(d.A, if c.bSelX then d.X else i.imm),
      Select(c.aluSel, d.ops),
      Compare(d.A, if c.bSelX then d.X else i.imm))
  }

  class DatapathModule {
    var A: word
    var X: word
    var PC: nat
    var imm2: word
    var imm3: word
    var packetAddrR: nat
    var scratchR: word
    const alu: PipelinedAlu
    const regfile: RegFile

    constructor (alu: PipelinedAlu, regfile: RegFile)
      requires regfile.Valid()
      ensures Valid() && this.alu == alu && this.regfile == regfile
      ensures A == X == 0 && PC == 0 && imm2 == imm3 == 0 && packetAddrR == 0 && scratchR == 0
    {
      A, X, PC, imm2, imm3, packetAddrR, scratchR := 0, 0, 0, 0, 0, 0, 0;
      this.alu, this.regfile := alu, regfile;
    }

    predicate Valid() { regfile.Valid() }

    function Regs(): Datapath
      requires Valid()
      reads this, alu, regfile, regfile.scratch
    {
      Datapath(A, X, PC, imm2, imm3, packetAddrR, scratchR, regfile.Contents(), alu.ops, alu.out, alu.flags)
    }

    /** The datapath's own always blocks: A, X, PC, the delayed immediates, the
        packet address and the scratch read register. */
    method UpdateRegisters(c: Control, nextA: word, nextX: word, nextPc: nat, imm1: word, addr: nat, scratchOut: word)
      modifies this
      ensures A == (if c.aEn then nextA else old(A)) && X == (if c.xEn then nextX else old(X))
      ensures PC == if c.pcRst || c.rst then 0 else if c.pcEn then nextPc else old(PC)
      ensures imm2 == (if c.rst then 0 else imm1) && imm3 == (if c.rst then 0 else old(imm2))
      ensures packetAddrR == (if c.rst then 0 else addr) && scratchR == (if c.rst then 0 else scratchOut)
    {
      if c.aEn {
        A := nextA;
      }
      if c.xEn {
        X := nextX;
      }
      if c.pcRst || c.rst {
        PC := 0;
      } else if c.pcEn {
        PC := nextPc;
      }
      if c.rst {
        imm2, imm3, packetAddrR, scratchR := 0, 0, 0, 0;
      } else {
        imm3 := imm2;
        imm2 := imm1;
        packetAddrR := addr;
        scratchR := scratchOut;
      }
    }

    method Clock(depth: nat, size: nat, len: word, i: Instr, c: Control, packetData: word)
      requires Valid() && depth > 0 && size > 0
      modifies this, alu, regfile.scratch
      ensures Valid()
      ensures Regs() == DatapathNext(depth, size, len, old(Regs()), i, c, packetData)
    {
      hide Operations, Select, Compare, AMux, XMux, NextPc, PacketAddr, RegfileNext, ScratchIndex;
      // wires, from the registers before the edge
      var b := if c.bSelX then X else i.imm;
      var scratchAddr := ScratchIndex(imm2);
      var scratchIn := if c.rfSelX then X else A;
      var scratchOut := regfile.scratch[scratchAddr];
      var nextPc := NextPc(PC, c.pcSel, i, imm2, depth);
      var nextA := AMux(c.aSel, imm3, packetData, scratchR, len, alu.out, X);
      var nextX := XMux(c.xSel, imm3, packetData, scratchR, len, A);
      var addr := PacketAddr(size, if c.addrSelInd then Add(X, i.imm) else i.imm);

      alu.Clock(A, b, c.aluSel);
      regfile.Clock(c.rst, scratchAddr, scratchIn, c.rfWr);
      UpdateRegisters(c, nextA, nextX, nextPc, i.imm, addr, scratchOut);
    }
  }
}
