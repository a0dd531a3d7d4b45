/** The instruction set, as the hardware decodes it (bpf_defs.vh), and a
    sequential interpreter.  Both CPUs are proved against this interpreter. */
module Isa {
  import opened PacketRam

  /** One 64-bit instruction: opcode[7:5], opcode[4:3], opcode[2:0], jt, jf and
      the immediate.  opcode[15:8] is never looked at. */
  datatype Instr = Instr(mode: u3, size: u2, cls: u3, jt: byte, jf: byte, imm: word)

  type u3 = x: nat | x < 8
  type u2 = x: nat | x < 4

  // instruction classes
  const LD := 0
  const LDX := 1
  const ST := 2
  const STX := 3
  const ALU := 4
  const JMP := 5
  const RET := 6
  const MISC := 7

  // addressing modes
  const IMM := 0
  const ABS := 1
  const IND := 2
  const MEM := 3
  const LEN := 4
  const MSH := 5

  // jump types
  const JA := 0
  const JEQ := 1
  const JGT := 2
  const JGE := 3
  const JSET := 4

  // return value sources
  const RET_IMM := 0
  const RET_X := 1
  const RET_A := 2

  /** opcode[7:4] */
  function AluSel(i: Instr): nat { i.mode * 2 + i.size / 2 }

  /** opcode[6:4] */
  function JmpType(i: Instr): nat { (i.mode % 4) * 2 + i.size / 2 }

  /** opcode[3]: the second operand is X, not the immediate */
  predicate BSel(i: Instr) { i.size % 2 == 1 }

  /** opcode[7:3] == 0 distinguishes TAX from TXA */
  predicate IsTax(i: Instr) { i.cls == MISC && i.mode == 0 && i.size == 0 }

  predicate IsTxa(i: Instr) { i.cls == MISC && !(i.mode == 0 && i.size == 0) }

  predicate Odd(w: word) { w % 2 == 1 }

  /** imm[3:0], the index of a scratch word */
  function ScratchIndex(imm: word): (k: nat)
    ensures k < 16
  {
    imm % 16
  }

  type Scratch = s: seq<word> | |s| == 16 witness [0, 0, 0, 0, 0, 0, 0, 0, 0, 0, 0, 0, 0, 0, 0, 0]

  function Zeros(n: nat): (s: seq<word>)
    ensures |s| == n && forall k :: 0 <= k < n ==> s[k] == 0
  {
    if n == 0 then [] else Zeros(n - 1) + [0]
  }

  const SCRATCH_WORDS: nat := 16

  function ZeroScratch(): Scratch { Zeros(SCRATCH_WORDS) }

  /** {26'b0, v[3:0], 2'b0} */
  function Msh(v: word): word { (v % 16) * 4 }

  // ---------------------------------------------- 32-bit words as numbers

  function Pow2(n: nat): (p: nat)
    ensures p > 0
  {
    if n == 0 then 1 else 2 * Pow2(n - 1)
  }

  function Add(a: word, b: word): word { (a + b) % 0x1_0000_0000 }

  function Sub(a: word, b: word): word { (a - b) % 0x1_0000_0000 }

  function Not(a: word): word { 0xFFFF_FFFF - a }

  /** Bitwise and, one bit at a time. */
  function And(a: nat, b: nat): (r: nat)
    ensures r <= a && r <= b
    decreases a
  {
    if a == 0 || b == 0 then 0
    else (if a % 2 == 1 && b % 2 == 1 then 1 else 0) + 2 * And(a / 2, b / 2)
  }

  /** Bitwise or of two numbers that fit in n bits. */
  function Or(a: nat, b: nat, ghost n: nat): (r: nat)
    requires a < Pow2(n) && b < Pow2(n)
    ensures r < Pow2(n)
    decreases a + b
  {
    if a == 0 && b == 0 then 0
    else (if a % 2 == 1 || b % 2 == 1 then 1 else 0) + 2 * Or(a / 2, b / 2, n - 1)
  }

  /** Bitwise exclusive or of two numbers that fit in n bits. */
  function Xor(a: nat, b: nat, ghost n: nat): (r: nat)
    requires a < Pow2(n) && b < Pow2(n)
    ensures r < Pow2(n)
    decreases a + b
  {
    if a == 0 && b == 0 then 0
    else (if a % 2 != b % 2 then 1 else 0) + 2 * Xor(a / 2, b / 2, n - 1)
  }

  function Shl(a: word, k: nat): word
    decreases k
  {
    if k == 0 then a else Shl((2 * a) % 0x1_0000_0000, k - 1)
  }

  function Shr(a: word, k: nat): word
    decreases k
  {
    if k == 0 then a else Shr(a / 2, k - 1)
  }

  // ------------------------------------------------------------------- ALU

  lemma Pow2Of32()
    ensures Pow2(32) == 0x1_0000_0000
  {
    assert Pow2(8) == 256;
    assert Pow2(16) == 256 * Pow2(8);
    assert Pow2(24) == 256 * Pow2(16);
    assert Pow2(32) == 256 * Pow2(24);
  }

  function OrWord(a: word, b: word): word {
    Pow2Of32();
    Or(a, b, 32)
  }

  function XorWord(a: word, b: word): word {
    Pow2Of32();
    Xor(a, b, 32)
  }

  function ShiftLeft(a: word, b: word): word { if b < 32 then Shl(a, b) else 0 }

  function ShiftRight(a: word, b: word): word { if b < 32 then Shr(a, b) else 0 }

  /** The operation select of the ALU.  Multiply, divide and modulus are not
      implemented: each returns its own constant.  NEG is the bitwise
      complement. */
  function Alu(sel: nat, a: word, b: word): word {
    match sel
    case 0 => Add(a, b)
    case 1 => Sub(a, b)
    case 2 => 0xCAFEDEAD
    case 3 => 0xDEADBEEF
    case 4 => OrWord(a, b)
    case 5 => And(a, b)
    case 6 => ShiftLeft(a, b)
    case 7 => ShiftRight(a, b)
    case 8 => Not(a)
    case 9 => 0xBEEFCAFE
    case 10 => XorWord(a, b)
    case _ => 0
  }

  datatype Flags = Flags(eq: bool, gt: bool, ge: bool, set_: bool)

  function Compare(a: word, b: word): Flags {
    Flags(a == b, a > b, a > b || a == b, And(a, b) != 0)
  }

  /** Whether a conditional jump is taken; an undefined jump type is not. */
  predicate Taken(jmpType: nat, f: Flags) {
    || (jmpType == JEQ && f.eq)
    || (jmpType == JGT && f.gt)
    || (jmpType == JGE && f.ge)
    || (jmpType == JSET && f.set_)
  }

  // ----------------------------------------------------------- interpreter

  /** Everything a run does not change: the code memory, the packet memory with
      its word width, and the length the CPU is told. */
  datatype RawEnv = Env(code: seq<Instr>, mem: seq<Half>, W: nat, len: word)
  {
    ghost predicate Valid() {
      |code| > 0 && W >= 4 && |mem| >= 2 && Sized(mem, W)
    }

    /** The packet memory in bytes. */
    function Size(): (n: nat)
      ensures Valid() ==> n > 0
    {
      if |mem| > 0 then MulGe(|mem|, W); |mem| * W else 0
    }
  }

  type Env = e: RawEnv | e.Valid()
    ghost witness RawEnv.Env([Instr(0, 0, RET, 0, 0, 0)], [[0, 0, 0, 0], [0, 0, 0, 0]], 4, 0)

  /** The architectural state. */
  datatype Arch = Arch(A: word, X: word, scratch: Scratch, pc: nat)

  /** What one instruction does: continue, give a verdict, or be one of the
      load encodings the old controller calls an error. */
  datatype Outcome = Continue(s: Arch) | Verdict(accept: bool) | Fault

  function Fetch(code: seq<Instr>, pc: nat): Instr
    requires |code| > 0
  {
    code[Wrap(pc, |code|)]
  }

  /** A 32-bit address cut down to a packet memory of `size` bytes. */
  function PacketAddr(size: nat, a: word): (p: nat)
    requires size > 0
    ensures p < size
  {
    Wrap(a, size)
  }

  function Load(e: Env, a: word, sz: nat): word {
    ReadBytes(e.mem, e.W, PacketAddr(e.Size(), a), sz)
  }

  function Operand(s: Arch, i: Instr): word {
    if BSel(i) then s.X else i.imm
  }

  /** The jump distance, counted from the instruction after the jump. */
  function JumpOffset(s: Arch, i: Instr): nat {
    if JmpType(i) == JA then i.imm
    else if Taken(JmpType(i), Compare(s.A, Operand(s, i))) then i.jt
    else i.jf
  }

  function Exec(e: Env, s: Arch): Outcome {
    var i := Fetch(e.code, s.pc);
    var n := |e.code|;
    var pc1 := Wrap(s.pc + 1, n);
    match i.cls
    case 0 => // LD
      if i.mode == IMM then Continue(s.(A := i.imm, pc := pc1))
      else if i.mode == ABS then Continue(s.(A := Load(e, i.imm, i.size), pc := pc1))
      else if i.mode == IND then Continue(s.(A := Load(e, Add(s.X, i.imm), i.size), pc := pc1))
      else if i.mode == MEM then Continue(s.(A := s.scratch[ScratchIndex(i.imm)], pc := pc1))
      else if i.mode == LEN then Continue(s.(A := e.len, pc := pc1))
      else Fault
    case 1 => // LDX
      if i.mode == IMM then Continue(s.(X := i.imm, pc := pc1))
      else if i.mode == ABS then Continue(s.(X := Load(e, i.imm, i.size), pc := pc1))
      else if i.mode == IND then Continue(s.(X := Load(e, Add(s.X, i.imm), i.size), pc := pc1))
      else if i.mode == MEM then Continue(s.(X := s.scratch[ScratchIndex(i.imm)], pc := pc1))
      else if i.mode == LEN then Continue(s.(X := e.len, pc := pc1))
      else if i.mode == MSH then Continue(s.(X := Msh(Load(e, i.imm, i.size)), pc := pc1))
      else Fault
    case 2 => // ST
      Continue(s.(scratch := s.scratch[ScratchIndex(i.imm) := s.A], pc := pc1))
    case 3 => // STX
      Continue(s.(scratch := s.scratch[ScratchIndex(i.imm) := s.X], pc := pc1))
    case 4 => // ALU
      Continue(s.(A := Alu(AluSel(i), s.A, Operand(s, i)), pc := pc1))
    case 5 => // JMP
      Continue(s.(pc := Wrap(pc1 + JumpOffset(s, i), n)))
    case 6 => // RET
      Verdict(|| (i.size == RET_IMM && Odd(i.imm))
              || (i.size == RET_X && s.X != 0)
              || (i.size == RET_A && s.A != 0))
    case _ => // MISC
      if IsTax(i) then Continue(s.(X := s.A, pc := pc1)) else Continue(s.(A := s.X, pc := pc1))
  }

  datatype Result = Running(s: Arch) | Returned(accept: bool) | Faulted

  /** `n` instructions of the program. */
  function Interp(e: Env, s: Arch, n: nat): Result
    decreases n
  {
    if n == 0 then Running(s)
    else match Exec(e, s)
      case Continue(s') => Interp(e, s', n - 1)
      case Verdict(acc) => Returned(acc)
      case Fault => Faulted
  }

  /** Running n more instructions after the first m. */
  lemma {:induction false} InterpSplit(e: Env, s: Arch, m: nat, n: nat)
    ensures Interp(e, s, m + n) ==
            match Interp(e, s, m)
            case Running(s') => Interp(e, s', n)
            case r => r
    decreases m
  {
    if m > 0 && Exec(e, s).Continue? {
      InterpSplit(e, Exec(e, s).s, m - 1, n);
    }
  }
}
