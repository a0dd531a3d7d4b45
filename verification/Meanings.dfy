/** What each instruction means, in terms of its opcode's bits, the packet's
    bytes and plain arithmetic.  The interpreter and both CPUs share their
    operations; nothing below names those operations in its conclusions. */
module Meanings {
  import opened PacketRam
  import opened Isa
  import opened Words

  /** The low eight bits of the opcode, which is all the hardware looks at. */
  function Opcode(i: Instr): nat { i.mode * 32 + i.size * 8 + i.cls }

  /** The instruction at the program counter. */
  function Current(e: Env, s: Arch): Instr { e.code[s.pc % |e.code|] }

  function NextInLine(e: Env, s: Arch): nat { (s.pc + 1) % |e.code| }

  lemma WrapIsMod(x: nat, n: nat)
    requires n > 0
    ensures Wrap(x, n) == x % n
  {
    QuotWrapAreDivMod(x, n);
  }

  lemma FetchIsCurrent(e: Env, s: Arch)
    ensures Fetch(e.code, s.pc) == Current(e, s) && Wrap(s.pc + 1, |e.code|) == NextInLine(e, s)
  {
    WrapIsMod(s.pc, |e.code|);
    WrapIsMod(s.pc + 1, |e.code|);
  }

  lemma OpcodeParts(i: Instr)
    ensures Opcode(i) % 8 == i.cls && Opcode(i) / 8 == i.mode * 4 + i.size
  {
  }

  lemma UpperParts(op: nat, mode: u3, size: u2)
    requires op / 8 == mode * 4 + size
    ensures op / 32 == mode && op / 8 % 4 == size
    ensures op / 16 == mode * 2 + size / 2 && op / 16 % 8 == (mode % 4) * 2 + size / 2
    ensures op / 8 % 2 == size % 2
  {
    var q := op / 8;
    assert op / 32 == q / 4;
    assert op / 16 == q / 2;
  }

  /** The bits of the opcode that the hardware cuts out. */
  lemma OpcodeFields(i: Instr)
    ensures i.cls == Opcode(i) % 8 && i.mode == Opcode(i) / 32 && i.size == Opcode(i) / 8 % 4
    ensures AluSel(i) == Opcode(i) / 16 && JmpType(i) == Opcode(i) / 16 % 8
    ensures BSel(i) <==> Opcode(i) / 8 % 2 == 1
    ensures IsTax(i) <==> Opcode(i) == 0x07
    ensures IsTxa(i) <==> Opcode(i) % 8 == 7 && Opcode(i) != 0x07
  {
    OpcodeParts(i);
    UpperParts(Opcode(i), i.mode, i.size);
    assert Opcode(i) == 8 * (Opcode(i) / 8) + Opcode(i) % 8;
    hide Opcode;
  }

  // ---------------------------------------------------------------- the loads

  /** Bytes read as one number, most significant first. */
  function BigEndian(bs: seq<byte>): nat {
    if bs == [] then 0 else BigEndian(bs[..|bs| - 1]) * 256 + bs[|bs| - 1]
  }

  /** How many bytes opcode[4:3] asks for. */
  function Width(size: nat): nat { if size == 0 then 4 else if size == 1 then 2 else 1 }

  /** The number of bytes in the packet memory. */
  function MemorySize(e: Env): (m: nat)
    ensures m > 0
  {
    MulGe(|e.mem|, e.W);
    |e.mem| * e.W
  }

  /** Byte p of a memory of m bytes whose addresses go round. */
  function ByteAround(mem: seq<Half>, W: nat, m: nat, p: nat): byte
    requires m > 0
  {
    MemByte(mem, W, p % m)
  }

  /** n bytes of the packet memory from byte address k on, around its end. */
  function BytesFrom(e: Env, k: nat, n: nat): (bs: seq<byte>)
    ensures |bs| == n
  {
    if n == 0 then [] else BytesFrom(e, k, n - 1) + [ByteAround(e.mem, e.W, MemorySize(e), k + n - 1)]
  }

  lemma {:induction false} BytesFromAt(e: Env, k: nat, n: nat, j: nat)
    requires j < n
    ensures BytesFrom(e, k, n)[j] == ByteAround(e.mem, e.W, MemorySize(e), k + j)
    decreases n
  {
    hide ByteAround, MemorySize;
    if j < n - 1 {
      BytesFromAt(e, k, n - 1, j);
    }
  }

  lemma BigEndianIs(b0: byte, b1: byte, b2: byte, b3: byte)
    ensures BigEndian([b0]) == Word4(0, 0, 0, b0) && BigEndian([b0, b1]) == Word4(0, 0, b0, b1)
    ensures BigEndian([b0, b1, b2, b3]) == Word4(b0, b1, b2, b3)
  {
    var s1, s2, s3 := [b0], [b0, b1], [b0, b1, b2];
    assert s1[..0] == [] && s2[..1] == s1 && s3[..2] == s2 && [b0, b1, b2, b3][..3] == s3;
  }

  lemma SizeIs(e: Env)
    ensures e.Size() == MemorySize(e) == |e.mem| * e.W > 0
  {
  }

  lemma PlaceIs(e: Env, k: nat, j: nat)
    ensures e.Size() > 0 && Wrap(Wrap(k, e.Size()) + j, e.Size()) == (k + j) % MemorySize(e)
  {
    SizeIs(e);
    hide MemorySize, RawEnv.Size;
    var m := MemorySize(e);
    WrapIsMod(k, m);
    WrapIsMod(k % m + j, m);
    ModOfSum(k, j, m);
  }

  lemma ReadIs(mem: seq<Half>, W: nat, p: nat, sz: nat)
    requires |mem| * W > 0
    ensures var m := |mem| * W;
            var b0, b1 := MemByte(mem, W, Wrap(p, m)), MemByte(mem, W, Wrap(p + 1, m));
            ReadBytes(mem, W, p, sz) ==
            if sz == 0 then Word4(b0, b1, MemByte(mem, W, Wrap(p + 2, m)), MemByte(mem, W, Wrap(p + 3, m)))
            else if sz == 1 then Word4(0, 0, b0, b1)
            else Word4(0, 0, 0, b0)
  {
    hide Wrap, MemByte, Word4;
  }

  lemma FourBytes(e: Env, k: nat)
    ensures var b := BytesFrom(e, k, 4);
      && BytesFrom(e, k, 2) == [b[0], b[1]] && BytesFrom(e, k, 1) == [b[0]] && b == [b[0], b[1], b[2], b[3]]
  {
    hide ByteAround, MemorySize;
    assert BytesFrom(e, k, 0) == [];
    var b1, b2, b3 := BytesFrom(e, k, 1), BytesFrom(e, k, 2), BytesFrom(e, k, 3);
    assert b2 == b1 + [b2[1]] && b3 == b2 + [b3[2]];
  }

  lemma ByteOfLoad(e: Env, k: nat, j: nat)
    requires j < 4
    ensures e.Size() > 0
    ensures BytesFrom(e, k, 4)[j] == MemByte(e.mem, e.W, Wrap(Wrap(k, e.Size()) + j, e.Size()))
  {
    hide Wrap, MemByte, MemorySize, RawEnv.Size, BytesFrom;
    PlaceIs(e, k, j);
    BytesFromAt(e, k, 4, j);
  }

  lemma LoadIs(e: Env, k: word, sz: nat)
    ensures Load(e, k, sz) == BigEndian(BytesFrom(e, k, Width(sz)))
  {
    SizeIs(e);
    hide Wrap, MemByte, BigEndian, Word4, RawEnv.Size, MemorySize, BytesFrom, ReadBytes;
    ReadIs(e.mem, e.W, Wrap(k, e.Size()), sz);
    ByteOfLoad(e, k, 0);
    ByteOfLoad(e, k, 1);
    ByteOfLoad(e, k, 2);
    ByteOfLoad(e, k, 3);
    FourBytes(e, k);
    var b := BytesFrom(e, k, 4);
    BigEndianIs(b[0], b[1], b[2], b[3]);
  }

  /** The address of a packet load: the immediate, or X plus the immediate in 32
      bits. */
  function LoadAddress(s: Arch, i: Instr): nat {
    if i.mode == 2 then (s.X + i.imm) % 0x1_0000_0000 else i.imm
  }

  lemma ExecLoads(e: Env, s: Arch)
    ensures var i, next := Fetch(e.code, s.pc), Wrap(s.pc + 1, |e.code|);
      var value := Load(e, LoadAddress(s, i), i.size);
      && (i.cls == 0 && (i.mode == 1 || i.mode == 2) ==> Exec(e, s) == Continue(s.(A := value, pc := next)))
      && (i.cls == 1 && (i.mode == 1 || i.mode == 2) ==> Exec(e, s) == Continue(s.(X := value, pc := next)))
      && (i.cls == 1 && i.mode == 5 ==> Exec(e, s) == Continue(s.(X := 4 * (value % 16), pc := next)))
  {
    hide Load, Alu, Compare, Wrap;
  }

  /** LD and LDX from the packet memory, absolute, indexed and as a header length:
      every address, every width. */
  lemma LoadMeaning(e: Env, s: Arch)
    ensures var i := Current(e, s);
      var value := BigEndian(BytesFrom(e, LoadAddress(s, i), Width(i.size)));
      && (i.cls == 0 && (i.mode == 1 || i.mode == 2) ==>
          value < 0x1_0000_0000 && Exec(e, s) == Continue(s.(A := value, pc := NextInLine(e, s))))
      && (i.cls == 1 && (i.mode == 1 || i.mode == 2) ==>
          value < 0x1_0000_0000 && Exec(e, s) == Continue(s.(X := value, pc := NextInLine(e, s))))
      && (i.cls == 1 && i.mode == 5 ==> Exec(e, s) == Continue(s.(X := 4 * (value % 16), pc := NextInLine(e, s))))
  {
    FetchIsCurrent(e, s);
    var i := Current(e, s);
    LoadIs(e, LoadAddress(s, i), i.size);
    hide Load, BigEndian, BytesFrom, Wrap, LoadAddress, Width, Current, NextInLine, Exec;
    ExecLoads(e, s);
  }

  /** Inside a stored packet the bytes are the packet's own. */
  lemma BytesOfPacket(e: Env, dout: Beat, beats: seq<Beat>, k: nat, n: nat)
    requires Stored(Ram(e.mem, dout, e.len), beats) && k + n <= |Bytes(beats)|
    ensures BytesFrom(e, k, n) == Bytes(beats)[k..k + n]
  {
    var r := Ram(e.mem, dout, e.len);
    PacketFits(r, e.W, beats);
    forall j | 0 <= j < n ensures BytesFrom(e, k, n)[j] == Bytes(beats)[k + j] {
      hide Stored, Bytes, MemByte, BytesFrom;
      BytesFromAt(e, k, n, j);
      PacketBytes(r, e.W, beats, k + j);
      InMemory(e.mem, e.W, MemorySize(e), k + j);
    }
    hide Stored, Bytes, MemByte, BytesFrom;
    assert BytesFrom(e, k, n) == Bytes(beats)[k..k + n];
  }

  lemma InMemory(mem: seq<Half>, W: nat, m: nat, p: nat)
    requires p < m
    ensures ByteAround(mem, W, m, p) == MemByte(mem, W, p)
  {
    SmallMod(p, m);
  }

  lemma SmallMod(x: nat, m: nat)
    requires x < m
    ensures x % m == x
  {
  }

  /** A load of bytes k, k + 1, ... of the stored packet delivers exactly these,
      big-endian: `ld`, `ldh`, `ldb` and their LDX forms, absolute and indexed, and
      four times the low nibble for a header length. */
  lemma PacketLoadMeaning(e: Env, s: Arch, dout: Beat, beats: seq<Beat>)
    requires Stored(Ram(e.mem, dout, e.len), beats)
    ensures var i, bs := Current(e, s), Bytes(beats);
      var k := if i.mode == 2 then s.X + i.imm else i.imm;
      k < 0x1_0000_0000 && k + Width(i.size) <= |bs| ==>
        var value := BigEndian(bs[k..k + Width(i.size)]);
        && (i.cls == 0 && (i.mode == 1 || i.mode == 2) ==>
            value < 0x1_0000_0000 && Exec(e, s) == Continue(s.(A := value, pc := NextInLine(e, s))))
        && (i.cls == 1 && (i.mode == 1 || i.mode == 2) ==>
            value < 0x1_0000_0000 && Exec(e, s) == Continue(s.(X := value, pc := NextInLine(e, s))))
        && (i.cls == 1 && i.mode == 5 ==>
            Exec(e, s) == Continue(s.(X := 4 * (bs[k + Width(i.size) - 1] % 16), pc := NextInLine(e, s))))
  {
    hide Exec, BigEndian, BytesFrom, Bytes, Stored, NextInLine;
    LoadMeaning(e, s);
    var i, bs := Current(e, s), Bytes(beats);
    var k := if i.mode == 2 then s.X + i.imm else i.imm;
    if k < 0x1_0000_0000 && k + Width(i.size) <= |bs| {
      SmallMod(k, 0x1_0000_0000);
      BytesOfPacket(e, dout, beats, k, Width(i.size));
      LastNibble(bs[k..k + Width(i.size)]);
    }
  }

  lemma LastNibble(bs: seq<byte>)
    requires bs != []
    ensures BigEndian(bs) % 16 == bs[|bs| - 1] % 16
  {
  }

  // ---------------------------------------------------- moves and the scratch

  /** Loads of immediates, of scratch words and of the length; stores; TAX and
      TXA; and which load modes are undefined. */
  lemma MoveMeaning(e: Env, s: Arch)
    ensures var i, next := Current(e, s), NextInLine(e, s);
      && (i.cls == 0 && i.mode == 0 ==> Exec(e, s) == Continue(s.(A := i.imm, pc := next)))
      && (i.cls == 0 && i.mode == 3 ==> Exec(e, s) == Continue(s.(A := s.scratch[i.imm % 16], pc := next)))
      && (i.cls == 0 && i.mode == 4 ==> Exec(e, s) == Continue(s.(A := e.len, pc := next)))
      && (i.cls == 1 && i.mode == 0 ==> Exec(e, s) == Continue(s.(X := i.imm, pc := next)))
      && (i.cls == 1 && i.mode == 3 ==> Exec(e, s) == Continue(s.(X := s.scratch[i.imm % 16], pc := next)))
      && (i.cls == 1 && i.mode == 4 ==> Exec(e, s) == Continue(s.(X := e.len, pc := next)))
      && (i.cls == 2 ==> Exec(e, s) == Continue(s.(scratch := s.scratch[i.imm % 16 := s.A], pc := next)))
      && (i.cls == 3 ==> Exec(e, s) == Continue(s.(scratch := s.scratch[i.imm % 16 := s.X], pc := next)))
      && (i.cls == 7 && Opcode(i) == 0x07 ==> Exec(e, s) == Continue(s.(X := s.A, pc := next)))
      && (i.cls == 7 && Opcode(i) != 0x07 ==> Exec(e, s) == Continue(s.(A := s.X, pc := next)))
      && (Exec(e, s).Fault? <==> (i.cls == 0 && i.mode >= 5) || (i.cls == 1 && i.mode >= 6))
  {
    FetchIsCurrent(e, s);
    hide Load, Alu, Compare, Wrap, NextInLine;
  }

  // ---------------------------------------------------------------------- ALU

  /** The second operand: opcode[3] chooses X. */
  function SecondOperand(s: Arch, i: Instr): word { if Opcode(i) / 8 % 2 == 1 then s.X else i.imm }

  /** What opcode[7:4] asks of the ALU. */
  ghost predicate AluResult(op: nat, a: word, b: word, r: word) {
    && (op == 0 ==> r == (a + b) % 0x1_0000_0000)
    && (op == 1 ==> (r + b) % 0x1_0000_0000 == a)
    && (op == 2 ==> r == 0xCAFEDEAD) && (op == 3 ==> r == 0xDEADBEEF) && (op == 9 ==> r == 0xBEEFCAFE)
    && (op == 4 ==> forall k: nat :: k < 32 ==> (Bit(r, k) <==> Bit(a, k) || Bit(b, k)))
    && (op == 5 ==> forall k: nat :: k < 32 ==> (Bit(r, k) <==> Bit(a, k) && Bit(b, k)))
    && (op == 6 ==> r == if b < 32 then (a * Pow2(b)) % 0x1_0000_0000 else 0)
    && (op == 7 ==> r == if b < 32 then a / Pow2(b) else 0)
    && (op == 8 ==> forall k: nat :: k < 32 ==> (Bit(r, k) <==> !Bit(a, k)))
    && (op == 10 ==> forall k: nat :: k < 32 ==> (Bit(r, k) <==> Bit(a, k) != Bit(b, k)))
    && (op > 10 ==> r == 0)
  }

  lemma AluLaws(sel: nat, a: word, b: word)
    ensures AluResult(sel, a, b, Alu(sel, a, b))
  {
    hide Bit, And, OrWord, XorWord, ShiftLeft, ShiftRight, Pow2;
    SumLaws(a, b);
    ShiftLaws(a, b);
    forall k: nat | k < 32
      ensures Bit(And(a, b), k) <==> Bit(a, k) && Bit(b, k)
      ensures Bit(OrWord(a, b), k) <==> Bit(a, k) || Bit(b, k)
      ensures Bit(XorWord(a, b), k) <==> Bit(a, k) != Bit(b, k)
      ensures Bit(Not(a), k) <==> !Bit(a, k)
    {
      BitwiseLaws(a, b, k);
    }
  }

  /** The laws leave no choice: at most one word is the result. */
  lemma AluResultIsUnique(op: nat, a: word, b: word, r: word, q: word)
    requires AluResult(op, a, b, r) && AluResult(op, a, b, q)
    ensures r == q
  {
    hide Bit;
    Pow2Of32();
    if op == 4 || op == 5 || op == 8 || op == 10 {
      assert forall k :: 0 <= k < 32 ==> Bit(r, k) == Bit(q, k);
      BitsDetermine(r, q, 32);
    }
  }

  /** An ALU instruction replaces A by the result of its operation and changes
      nothing else. */
  lemma AluMeaning(e: Env, s: Arch)
    requires Current(e, s).cls == 4
    ensures Exec(e, s).Continue?
    ensures var i, s' := Current(e, s), Exec(e, s).s;
            s' == s.(A := s'.A, pc := NextInLine(e, s))
            && AluResult(Opcode(i) / 16, s.A, SecondOperand(s, i), s'.A)
  {
    FetchIsCurrent(e, s);
    OpcodeFields(Current(e, s));
    var i := Current(e, s);
    AluLaws(AluSel(i), s.A, Operand(s, i));
    hide Alu, AluResult, Wrap, NextInLine, Opcode, AluSel, BSel;
  }

  // -------------------------------------------------------------------- jumps

  /** When a conditional jump of type t, opcode[6:4], is taken. */
  ghost predicate JumpTaken(t: nat, a: word, b: word) {
    || (t == 1 && a == b)
    || (t == 2 && a > b)
    || (t == 3 && a >= b)
    || (t == 4 && exists k: nat :: k < 32 && Bit(a, k) && Bit(b, k))
  }

  lemma JumpLaws(t: nat, a: word, b: word)
    ensures Taken(t, Compare(a, b)) <==> JumpTaken(t, a, b)
  {
    hide Bit, And;
    SharedBit(a, b);
  }

  /** Where a jump of type t leads: 0 is unconditional. */
  ghost function JumpGoes(e: Env, s: Arch, i: Instr, b: word): nat {
    var t := Opcode(i) / 16 % 8;
    (s.pc + 1 + if t == 0 then i.imm else if JumpTaken(t, s.A, b) then i.jt else i.jf) % |e.code|
  }

  lemma JumpAddress(e: Env, s: Arch, off: nat)
    ensures Wrap(Wrap(s.pc + 1, |e.code|) + off, |e.code|) == (s.pc + 1 + off) % |e.code|
  {
    var n := |e.code|;
    WrapIsMod(s.pc + 1, n);
    WrapIsMod((s.pc + 1) % n + off, n);
    ModOfSum(s.pc + 1, off, n);
  }

  /** A jump changes the program counter alone. */
  lemma JumpMeaning(e: Env, s: Arch)
    requires Current(e, s).cls == 5
    ensures var i := Current(e, s); Exec(e, s) == Continue(s.(pc := JumpGoes(e, s, i, SecondOperand(s, i))))
  {
    var i := Current(e, s);
    hide Wrap, NextInLine, Opcode, JmpType, AluSel, BSel, IsTax, IsTxa, Compare, Taken, JumpTaken, Current, Load, Alu;
    FetchIsCurrent(e, s);
    OpcodeFields(i);
    JumpLaws(JmpType(i), s.A, Operand(s, i));
    JumpAddress(e, s, JumpOffset(s, i));
  }

  // ------------------------------------------------------------------ returns

  /** RET #k accepts the odd k; RET X and RET A accept what is not 0. */
  lemma ReturnMeaning(e: Env, s: Arch)
    requires Current(e, s).cls == 6
    ensures Exec(e, s).Verdict?
    ensures var i := Current(e, s);
      Exec(e, s).accept <==>
        || (i.size == 0 && exists m: nat :: i.imm == 2 * m + 1)
        || (i.size == 1 && s.X != 0) || (i.size == 2 && s.A != 0)
  {
    FetchIsCurrent(e, s);
    ParityLaws(Current(e, s).imm);
    hide Odd, Wrap;
  }
}
