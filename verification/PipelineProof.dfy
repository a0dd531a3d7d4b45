/** The pipelined CPU against the sequential interpreter.

    The method is a flushing one: `Flush` is the architectural state the
    pipeline holds once the instructions in stages 2 and 3 have completed, and
    each clock edge either leaves it unchanged (a stall or a bubble) or moves it
    by exactly one interpreted instruction (an issue).  The interpreter is
    given a notion of time: how long ago A and X were last written. */
module PipelineProof {
  import opened PacketRam
  import opened Isa
  import opened RegisterMuxes
  import opened PipelineStages
  import opened PipelineDatapath
  import opened PipelinedCpu

  // ------------------------------------------------------- the closed system

  /** The CPU and the output latch of the buffer it reads. */
  datatype Sys = Sys(c: Cpu, big: Beat)

  /** The two port words at and after the one that holds byte p. */
  function BigRead(mem: seq<Half>, W: nat, p: nat): Beat
    requires W > 0 && |mem| > 0
  {
    var a := Wrap(Quot(p, W), |mem|);
    Beat(mem[a], mem[Wrap(a + 1, |mem|)])
  }

  function SysNext(e: Env, s: Sys, hold: bool): Sys {
    Sys(CpuNext(e, s.c, hold, s.big),
        if s.c.s2.rdEn then BigRead(e.mem, e.W, s.c.d.packetAddrR) else s.big)
  }

  /** n clock edges with a packet available throughout. */
  function Run(e: Env, s: Sys, n: nat): Sys
    decreases n
  {
    if n == 0 then s else Run(e, SysNext(e, s, false), n - 1)
  }

  /** No verdict in the next n cycles. */
  predicate Quiet(e: Env, s: Sys, n: nat)
    decreases n
  {
    n == 0 || (!Decides(s.c) && Quiet(e, SysNext(e, s, false), n - 1))
  }

  lemma {:induction false} RunSplit(e: Env, s: Sys, m: nat, n: nat)
    ensures Run(e, s, m + n) == Run(e, Run(e, s, m), n)
    ensures Quiet(e, s, m + n) <==> Quiet(e, s, m) && Quiet(e, Run(e, s, m), n)
    decreases m
  {
    hide SysNext, Decides;
    if m > 0 {
      RunSplit(e, SysNext(e, s, false), m - 1, n);
    }
  }

  /** Quiet says what its name says about every cycle. */
  lemma {:induction false} QuietMeans(e: Env, s: Sys, n: nat, k: nat)
    requires Quiet(e, s, n) && k < n
    ensures !Decides(Run(e, s, k).c)
    decreases k
  {
    hide SysNext, Decides;
    if k > 0 {
      QuietMeans(e, SysNext(e, s, false), n - 1, k - 1);
    }
  }

  /** What a read that is in stage 2 will deliver to stage 3. */
  lemma LatchedRead(e: Env, s: Sys, hold: bool)
    requires s.c.s2.rdEn && s.c.d.packetAddrR < e.Size()
    ensures var s' := SysNext(e, s, hold);
            Resize(s'.big, s'.c.szR, s'.c.offsetR) == ReadBytes(e.mem, e.W, s.c.d.packetAddrR, s.c.s2.sz)
  {
    hide Quot, Resize, ReadBytes, DatapathNext, WritebackNext, Compute2Next, FetchNext;
    AdapterReadsBytes(e.mem, e.W, s.c.d.packetAddrR, s.c.s2.sz);
  }

  // ---------------------------------------------------------------- flushing

  function A3(e: Env, s: Sys): word {
    var d := s.c.d;
    if s.c.s3.aEn then
      AMux(s.c.s3.aSel, d.imm3, Resize(s.big, s.c.szR, s.c.offsetR), d.scratchR, e.len, d.aluOut, d.X)
    else d.A
  }

  function X3(e: Env, s: Sys): word {
    var d := s.c.d;
    if s.c.s3.xEn then
      XMux(s.c.s3.xSel, d.imm3, Resize(s.big, s.c.szR, s.c.offsetR), d.scratchR, e.len, d.A)
    else d.X
  }

  function A2(e: Env, s: Sys): word {
    var d, s2 := s.c.d, s.c.s2;
    if s2.valid && s2.aEn then
      AMux(s2.aSel, d.imm2, ReadBytes(e.mem, e.W, d.packetAddrR, s2.sz), d.scratch[ScratchIndex(d.imm2)], e.len,
           Select(s2.aluSel, d.ops), X3(e, s))
    else A3(e, s)
  }

  function X2(e: Env, s: Sys): word {
    var d, s2 := s.c.d, s.c.s2;
    if s2.valid && s2.xEn then
      XMux(s2.xSel, d.imm2, ReadBytes(e.mem, e.W, d.packetAddrR, s2.sz), d.scratch[ScratchIndex(d.imm2)], e.len,
           A3(e, s))
    else X3(e, s)
  }

  function Scratch2(s: Sys): Scratch {
    var d := s.c.d;
    if s.c.s2.rfWr then d.scratch[ScratchIndex(d.imm2) := if s.c.s2.rfSelX then d.X else d.A] else d.scratch
  }

  /** The architectural state once stages 2 and 3 have drained. */
  function Flush(e: Env, s: Sys, pc: nat): Arch {
    Arch(A2(e, s), X2(e, s), Scratch2(s), pc)
  }

  /** A packet load in stage 2 has its read enable set, and addresses are
      within the memory. */
  predicate ReadsEnabled(e: Env, s: Sys) {
    var s2 := s.c.s2;
    && s.c.d.packetAddrR < e.Size()
    && (s2.valid && s2.aEn && s2.aSel == A_SEL_PACKET_MEM ==> s2.rdEn)
    && (s2.valid && s2.xEn && (s2.xSel == X_SEL_PACKET_MEM || s2.xSel == X_SEL_MSH) ==> s2.rdEn)
    && (s2.aSel != 2 && s2.xSel != 2)
  }

  /** The registers after an edge are what stage 3 wrote back, and stage 3 then
      holds what stage 2 held. */
  lemma Drain(e: Env, s: Sys)
    requires ReadsEnabled(e, s)
    ensures var s' := SysNext(e, s, false);
            && s'.c.d.A == A3(e, s) && s'.c.d.X == X3(e, s) && s'.c.d.scratch == Scratch2(s)
            && A3(e, s') == A2(e, s) && X3(e, s') == X2(e, s)
  {
    hide ReadBytes, Select, Operations, Compare, Resize;
    if s.c.s2.rdEn {
      LatchedRead(e, s, false);
    }
  }

  // --------------------------------------------------- the timed interpreter

  /** The interpreter's state with time.  `a` and `x` say how many more edges it
      takes until the last write to A or X has landed: 2 when the writing
      instruction is in stage 2, 1 when it is in stage 3, 0 when it is done.
      `x0` is what the X register holds now and `x1` what it will hold one edge
      later; after two edges it holds s.X. */
  datatype Timed = Timed(s: Arch, a: nat, x: nat, x0: word, x1: word)

  function Less1(n: nat): nat { if n == 0 then 0 else n - 1 }

  /** One edge without an issue. */
  function Tick(t: Timed): Timed { Timed(t.s, Less1(t.a), Less1(t.x), t.x1, t.s.X) }

  function Wait(i: Instr, t: Timed): nat {
    var wa := if ReadsA(i) then t.a else 0;
    var wx := if ReadsX(i) then t.x else 0;
    if wa < wx then wx else wa
  }

  /** An instruction that reads and writes the same register raises its own
      ungated stage 2 enable while it waits, so it never stops waiting. */
  predicate SelfStalls(i: Instr, t: Timed) {
    (ReadsA(i) && WritesA(i) && t.a > 0) || (ReadsX(i) && WritesX(i) && t.x > 0)
  }

  /** X as the second operand is not waited for: the operand is whatever the
      register holds. */
  function LateOperand(t: Timed, i: Instr): word { if BSel(i) then t.x0 else i.imm }

  /** Where a jump goes when it compares A with the given operand. */
  function JumpTarget(e: Env, s: Arch, i: Instr, operand: word): nat {
    var off := if JmpType(i) == JA then i.imm else if Taken(JmpType(i), Compare(s.A, operand)) then i.jt else i.jf;
    Wrap(Wrap(s.pc + 1, |e.code|) + off, |e.code|)
  }

  /** What the pipeline does with the instruction that issues at t: the
      interpreter's step, except that an X operand may be stale, that a return of
      A or X falls through, and that a load in an undefined mode loads its
      immediate. */
  function PipeExec(e: Env, t: Timed): Outcome {
    var s, i := t.s, Fetch(e.code, t.s.pc);
    var pc1 := Wrap(s.pc + 1, |e.code|);
    if i.cls == ALU then Continue(s.(A := Alu(AluSel(i), s.A, LateOperand(t, i)), pc := pc1))
    else if i.cls == JMP then Continue(s.(pc := JumpTarget(e, s, i, LateOperand(t, i))))
    else if i.cls == RET && i.size != RET_IMM then Continue(s.(pc := pc1))
    else if i.cls == LD && i.mode > LEN then Continue(s.(A := i.imm, pc := pc1))
    else if i.cls == LDX && i.mode > MSH then Continue(s.(X := i.imm, pc := pc1))
    else Exec(e, s)
  }

  // ------------------------------------------------------------ the relation

  /** A write that is in flight, and an enable that stage 2 shows for an
      instruction that is not valid: it stalls a reader for one edge. */
  function Pending(valid2: bool, en2: bool, en3: bool, waits: bool): nat {
    if valid2 && en2 then 2 else if en3 || (en2 && waits) then 1 else 0
  }

  /** Stage 1 holds the interpreter's next instruction. */
  predicate Rel(e: Env, s: Sys, t: Timed) {
    var c := s.c;
    && c.valid0 && c.ir == Fetch(e.code, t.s.pc) && t.s.pc < |e.code|
    && c.d.PC == Wrap(t.s.pc + 1, |e.code|) && !c.s2.pcEn
    && ReadsEnabled(e, s) && Flush(e, s, t.s.pc) == t.s
    && t.a == Pending(c.s2.valid, c.s2.aEn, c.s3.aEn, ReadsA(c.ir))
    && t.x == Pending(c.s2.valid, c.s2.xEn, c.s3.xEn, ReadsX(c.ir))
    && t.x0 == c.d.X && t.x1 == X3(e, s)
  }

  /** The stall wires say exactly what the timed interpreter says. */
  lemma StallIsWait(e: Env, s: Sys, t: Timed)
    requires Rel(e, s, t)
    ensures Stalled(s.c) <==> Wait(s.c.ir, t) > 0
    ensures Wait(s.c.ir, t) <= 2
  {
  }

  /** A stalled edge changes nothing architectural and brings the pending
      writes one edge closer. */
  lemma StallEdge(e: Env, s: Sys, t: Timed)
    requires Rel(e, s, t) && Stalled(s.c) && !SelfStalls(s.c.ir, t)
    ensures !Decides(s.c)
    ensures Rel(e, SysNext(e, s, false), Tick(t))
  {
    hide ReadBytes, Select, Operations, Compare, Resize, AMux, XMux, Fetch;
    Drain(e, s);
  }

  /** What one issued instruction does to the pending writes. */
  function Aged(i: Instr, t: Timed, s': Arch): Timed {
    Timed(s', if WritesA(i) then 2 else Less1(t.a), if WritesX(i) then 2 else Less1(t.x), t.x1, t.s.X)
  }

  /** Hazard freedom: when an instruction issues, every register it reads in
      stage 1, 2 or 3 has its sequential value there; an X operand of an ALU or
      JMP instruction does when no write to X is in flight. */
  lemma OperandsAreSequential(e: Env, s: Sys, t: Timed)
    requires Rel(e, s, t) && !Stalled(s.c)
    ensures ReadsA(s.c.ir) ==> s.c.d.A == t.s.A && A3(e, s) == t.s.A
    ensures ReadsX(s.c.ir) ==> s.c.d.X == t.s.X && X3(e, s) == t.s.X
    ensures t.x == 0 ==> s.c.d.X == t.s.X
  {
  }

  /** One issue as one step of the pipeline's own semantics. */
  predicate IssuesAs(e: Env, s: Sys, t: Timed, s': Arch) {
    !Decides(s.c) && Rel(e, SysNext(e, s, false), Aged(s.c.ir, t, s'))
  }

  lemma IssueLoadA(e: Env, s: Sys, t: Timed)
    requires Rel(e, s, t) && !Stalled(s.c) && s.c.ir.cls == LD
    ensures PipeExec(e, t).Continue? && IssuesAs(e, s, t, PipeExec(e, t).s)
  {
    hide ReadBytes, Select, Operations, Compare, Resize, Alu;
    Drain(e, s);
    OperandsAreSequential(e, s, t);
  }

  lemma IssueLoadX(e: Env, s: Sys, t: Timed)
    requires Rel(e, s, t) && !Stalled(s.c) && s.c.ir.cls == LDX
    ensures PipeExec(e, t).Continue? && IssuesAs(e, s, t, PipeExec(e, t).s)
  {
    hide ReadBytes, Select, Operations, Compare, Resize, Alu;
    Drain(e, s);
    OperandsAreSequential(e, s, t);
  }

  lemma IssueOther(e: Env, s: Sys, t: Timed)
    requires Rel(e, s, t) && !Stalled(s.c)
    requires s.c.ir.cls != JMP && !IsRetImm(s.c.ir) && s.c.ir.cls != LD && s.c.ir.cls != LDX
    ensures PipeExec(e, t).Continue? && IssuesAs(e, s, t, PipeExec(e, t).s)
  {
    hide ReadBytes, Select, Operations, Compare, Resize, Load;
    Drain(e, s);
    OperandsAreSequential(e, s, t);
    if s.c.ir.cls == ALU {
      TwoPhaseAlu(AluSel(s.c.ir), t.s.A, LateOperand(t, s.c.ir));
    }
  }

  /** An issuing edge is one step of the pipeline's semantics. */
  lemma IssueEdge(e: Env, s: Sys, t: Timed)
    requires Rel(e, s, t) && !Stalled(s.c) && s.c.ir.cls != JMP && !IsRetImm(s.c.ir)
    ensures PipeExec(e, t).Continue? && IssuesAs(e, s, t, PipeExec(e, t).s)
  {
    hide Rel, Stalled, SysNext, PipeExec, IssuesAs, IsRetImm;
    if s.c.ir.cls == LD {
      IssueLoadA(e, s, t);
    } else if s.c.ir.cls == LDX {
      IssueLoadX(e, s, t);
    } else {
      IssueOther(e, s, t);
    }
  }

  // -------------------------------------------------------------------- jumps

  /** The jump is in stage 2 and the program counter is about to be loaded. */
  predicate Resolving(e: Env, s: Sys, s': Arch) {
    var c := s.c;
    && !c.valid0 && c.s2.pcEn && c.ir.cls == JMP
    && s'.pc < |e.code|
    && NextPc(c.d.PC, PcSel(true, JmpType(c.ir), c.d.flags), c.ir, c.d.imm2, |e.code|) == s'.pc
    && !c.s2.aEn && !c.s2.xEn
    && ReadsEnabled(e, s) && Flush(e, s, s'.pc) == s'
  }

  /** Nothing is in stage 1 and the next edge fetches the next instruction. */
  predicate Refetch(e: Env, s: Sys, s': Arch) {
    var c := s.c;
    && !c.valid0 && !c.s2.pcEn && c.d.PC == s'.pc < |e.code|
    && !Stalled(c) && !(c.s2.valid && (c.s2.aEn || c.s2.xEn))
    && ReadsEnabled(e, s) && Flush(e, s, s'.pc) == s'
  }

  /** The next instruction has been fetched while `i` was on the code memory's
      output; if `i` writes what it reads, the enables of `i`, although it is not
      valid, hold it up for one edge. */
  function Fetched(i: Instr, next: Instr, s': Arch): Timed {
    Timed(s', if WritesA(i) && ReadsA(next) then 1 else 0, if WritesX(i) && ReadsX(next) then 1 else 0, s'.X, s'.X)
  }

  lemma JumpEdge(e: Env, s: Sys, t: Timed)
    requires Rel(e, s, t) && !Stalled(s.c) && s.c.ir.cls == JMP
    ensures PipeExec(e, t).Continue? && !Decides(s.c)
    ensures Resolving(e, SysNext(e, s, false), PipeExec(e, t).s)
  {
    hide ReadBytes, Select, Operations, Resize, Fetch, Exec, Alu, Compare, Wrap;
    Drain(e, s);
    OperandsAreSequential(e, s, t);
  }

  lemma ResolveEdge(e: Env, s: Sys, s': Arch)
    requires Resolving(e, s, s')
    ensures !Decides(s.c)
    ensures Refetch(e, SysNext(e, s, false), s') && SysNext(e, s, false).c.ir == s.c.ir
  {
    hide ReadBytes, Select, Operations, Compare, Resize, Fetch;
    Drain(e, s);
  }

  lemma RefetchEdge(e: Env, s: Sys, s': Arch)
    requires Refetch(e, s, s')
    ensures !Decides(s.c)
    ensures Rel(e, SysNext(e, s, false), Fetched(s.c.ir, Fetch(e.code, s'.pc), s'))
  {
    hide ReadBytes, Select, Operations, Compare, Resize;
    Drain(e, s);
  }

  /** No write is in flight. */
  function AtRest(s: Arch): Timed { Timed(s, 0, 0, s.X, s.X) }

  /** A jump costs three edges: issue, resolve, fetch the target. */
  lemma JumpRuns(e: Env, s: Sys, t: Timed)
    requires Rel(e, s, t) && !Stalled(s.c) && s.c.ir.cls == JMP
    ensures PipeExec(e, t).Continue?
    ensures Quiet(e, s, 3) && Rel(e, Run(e, s, 3), AtRest(PipeExec(e, t).s))
  {
    hide SysNext, Rel, Resolving, Refetch, PipeExec;
    JumpEdge(e, s, t);
    var s' := PipeExec(e, t).s;
    var s1 := SysNext(e, s, false);
    var s2 := SysNext(e, s1, false);
    assert s1.c.ir.cls == JMP by { ResolvingJump(e, s1, s'); }
    ResolveEdge(e, s1, s');
    RefetchEdge(e, s2, s');
    assert Quiet(e, s2, 1);
    assert Quiet(e, s1, 2);
    assert Run(e, s2, 1) == SysNext(e, s2, false);
    assert Run(e, s1, 2) == Run(e, s2, 1);
  }

  lemma ResolvingJump(e: Env, s: Sys, s': Arch)
    requires Resolving(e, s, s')
    ensures s.c.ir.cls == JMP
  {
  }

  // ------------------------------------------------------- whole instructions

  function Waited(t: Timed, w: nat): Timed
    decreases w
  {
    if w == 0 then t else Waited(Tick(t), w - 1)
  }

  /** Edges one instruction takes before the next is in stage 1. */
  function Cost(i: Instr, t: Timed): nat {
    Wait(i, t) + if i.cls == JMP then 3 else 1
  }

  /** `t` is the state at the issue. */
  function After(i: Instr, t: Timed, s': Arch): Timed {
    if i.cls == JMP then AtRest(s') else Aged(i, t, s')
  }

  lemma {:induction false} StallRuns(e: Env, s: Sys, t: Timed)
    requires Rel(e, s, t) && !SelfStalls(s.c.ir, t)
    ensures var w := Wait(s.c.ir, t); var s' := Run(e, s, w);
            Quiet(e, s, w) && Rel(e, s', Waited(t, w)) && !Stalled(s'.c) && s'.c.ir == s.c.ir
    decreases Wait(s.c.ir, t)
  {
    hide SysNext, Flush, ReadsEnabled;
    StallIsWait(e, s, t);
    if Stalled(s.c) {
      var s1, t1 := SysNext(e, s, false), Tick(t);
      StallEdge(e, s, t);
      assert s1.c.ir == s.c.ir && Wait(s1.c.ir, t1) == Wait(s.c.ir, t) - 1;
      StallRuns(e, s1, t1);
    }
  }

  /** One instruction: after exactly Cost edges, none of them with a verdict, the
      pipeline is where its semantics says. */
  lemma InstructionRuns(e: Env, s: Sys, t: Timed)
    requires Rel(e, s, t) && !IsRetImm(s.c.ir) && !SelfStalls(s.c.ir, t)
    ensures Cost(s.c.ir, t) <= 5
    ensures var u := Waited(t, Wait(s.c.ir, t)); var k := Cost(s.c.ir, t);
            PipeExec(e, u).Continue? && Quiet(e, s, k) && Rel(e, Run(e, s, k), After(s.c.ir, u, PipeExec(e, u).s))
  {
    hide SysNext, Flush, ReadsEnabled, Load, PipeExec, Waited;
    var i := s.c.ir;
    var w := Wait(i, t);
    StallIsWait(e, s, t);
    StallRuns(e, s, t);
    var s1, u := Run(e, s, w), Waited(t, w);
    if i.cls == JMP {
      JumpRuns(e, s1, u);
      RunSplit(e, s, w, 3);
    } else {
      IssueEdge(e, s1, u);
      assert Quiet(e, s1, 1) && Run(e, s1, 1) == SysNext(e, s1, false);
      RunSplit(e, s, w, 1);
    }
  }

  // ------------------------------------------- exactly when it is the interpreter

  /** What decides whether one step of the pipeline is one of the interpreter:
      an X operand must give the same result or target as the sequential X,
      returns must be of an immediate, and load modes must be defined. */
  predicate SameStep(e: Env, t: Timed) {
    var s, i := t.s, Fetch(e.code, t.s.pc);
    if i.cls == ALU then Alu(AluSel(i), s.A, LateOperand(t, i)) == Alu(AluSel(i), s.A, Operand(s, i))
    else if i.cls == JMP then JumpTarget(e, s, i, LateOperand(t, i)) == JumpTarget(e, s, i, Operand(s, i))
    else (i.cls == RET ==> i.size == RET_IMM) && (i.cls == LD ==> i.mode <= LEN) && (i.cls == LDX ==> i.mode <= MSH)
  }

  lemma SameStepIff(e: Env, t: Timed)
    ensures PipeExec(e, t) == Exec(e, t.s) <==> SameStep(e, t)
  {
    hide Alu, Compare, Load;
  }

  /** An X operand is stale only while a write to X is in flight at the issue. */
  predicate StaleOperand(i: Instr, t: Timed) {
    (i.cls == ALU || i.cls == JMP) && BSel(i) && t.x > Wait(i, t)
  }

  /** X has what the pending count says; every state the pipeline reaches does. */
  predicate Coherent(t: Timed) {
    (t.x == 0 ==> t.x0 == t.x1 == t.s.X) && (t.x == 1 ==> t.x1 == t.s.X) && t.a <= 2 && t.x <= 2
  }

  lemma FreshOperandIsSequential(i: Instr, t: Timed)
    requires Coherent(t) && (i.cls == ALU || i.cls == JMP) && !StaleOperand(i, t)
    ensures BSel(i) ==> Waited(t, Wait(i, t)).x0 == t.s.X
  {
    var u := Tick(t);
    assert Waited(t, 1) == Waited(u, 0) && Waited(t, 2) == Waited(u, 1) && Waited(u, 1) == Tick(u);
  }

  /** Where the pipeline is says which state of the interpreter it holds. */
  lemma RelIsUnique(e: Env, s: Sys, t: Timed, u: Timed)
    requires Rel(e, s, t) && Rel(e, s, u)
    ensures t == u
  {
    hide ReadBytes, Select, AMux, XMux, Resize;
    WrapPlusOne(t.s.pc, u.s.pc, |e.code|);
  }

  lemma WrapPlusOne(p: nat, q: nat, n: nat)
    requires p < n && q < n
    ensures Wrap(p + 1, n) == Wrap(q + 1, n) ==> p == q
  {
    assert Wrap(n, n) == Wrap(0, n) == 0;
  }

  lemma AluContinues(e: Env, s: Sys, t: Timed)
    requires Rel(e, s, t) && s.c.ir.cls == ALU && BSel(s.c.ir)
    ensures Exec(e, t.s).Continue? && PipeExec(e, t).Continue?
    ensures Exec(e, t.s) == PipeExec(e, t) <==>
            Alu(AluSel(s.c.ir), t.s.A, s.c.d.X) == Alu(AluSel(s.c.ir), t.s.A, t.s.X)
  {
    hide Alu, ReadsEnabled, Flush;
  }

  /** Exactly when an ALU instruction with an X operand issues as the
      interpreter's: iff the X it finds gives the same result. */
  lemma StaleAluIff(e: Env, s: Sys, t: Timed)
    requires Rel(e, s, t) && !Stalled(s.c) && s.c.ir.cls == ALU && BSel(s.c.ir)
    ensures Exec(e, t.s).Continue?
    ensures IssuesAs(e, s, t, Exec(e, t.s).s) <==>
            Alu(AluSel(s.c.ir), t.s.A, s.c.d.X) == Alu(AluSel(s.c.ir), t.s.A, t.s.X)
    ensures !StaleOperand(s.c.ir, t) ==> s.c.d.X == t.s.X
  {
    AluContinues(e, s, t);
    hide Rel, SysNext, Decides, Alu, Stalled, PipeExec, Exec, Wait;
    IssueEdge(e, s, t);
    OperandsAreSequential(e, s, t);
    StallIsWait(e, s, t);
    if IssuesAs(e, s, t, Exec(e, t.s).s) {
      RelIsUnique(e, SysNext(e, s, false), Aged(s.c.ir, t, Exec(e, t.s).s), Aged(s.c.ir, t, PipeExec(e, t).s));
    }
  }

  lemma JumpContinues(e: Env, s: Sys, t: Timed)
    requires Rel(e, s, t) && s.c.ir.cls == JMP && BSel(s.c.ir)
    ensures Exec(e, t.s).Continue? && PipeExec(e, t).Continue?
    ensures Exec(e, t.s) == PipeExec(e, t) <==>
            JumpTarget(e, t.s, s.c.ir, s.c.d.X) == JumpTarget(e, t.s, s.c.ir, t.s.X)
  {
    hide Compare, ReadsEnabled, Flush;
  }

  /** Exactly when a jump with an X operand arrives where the interpreter's
      does: iff the X it finds leads to the same target. */
  lemma StaleJumpIff(e: Env, s: Sys, t: Timed)
    requires Rel(e, s, t) && !Stalled(s.c) && s.c.ir.cls == JMP && BSel(s.c.ir)
    ensures Exec(e, t.s).Continue?
    ensures Rel(e, Run(e, s, 3), AtRest(Exec(e, t.s).s)) <==>
            JumpTarget(e, t.s, s.c.ir, s.c.d.X) == JumpTarget(e, t.s, s.c.ir, t.s.X)
    ensures !StaleOperand(s.c.ir, t) ==> s.c.d.X == t.s.X
  {
    JumpContinues(e, s, t);
    hide Rel, SysNext, Decides, Stalled, Run, Compare, PipeExec, Exec, Wait, JumpTarget;
    JumpRuns(e, s, t);
    OperandsAreSequential(e, s, t);
    StallIsWait(e, s, t);
    if Rel(e, Run(e, s, 3), AtRest(Exec(e, t.s).s)) {
      RelIsUnique(e, Run(e, s, 3), AtRest(Exec(e, t.s).s), AtRest(PipeExec(e, t).s));
    }
  }
}
