/** The multi-cycle CPU against the interpreter, in both variants, and against
    each other. */
module OldCpuProof {
  import opened PacketRam
  import opened Isa
  import opened OldCpu

  /** n clock edges without reset. */
  function OldRun(pess: bool, e: Env, c: Old, n: nat): Old
    decreases n
  {
    if n == 0 then c else OldRun(pess, e, OldNext(pess, e, c, false, true), n - 1)
  }

  predicate OldDecides(c: Old) { OldAccepts(c) || OldRejects(c) }

  predicate OldQuiet(pess: bool, e: Env, c: Old, n: nat)
    decreases n
  {
    n == 0 || (!OldDecides(c) && OldQuiet(pess, e, OldNext(pess, e, c, false, true), n - 1))
  }

  lemma {:induction false} OldRunSplit(pess: bool, e: Env, c: Old, m: nat, n: nat)
    ensures OldRun(pess, e, c, m + n) == OldRun(pess, e, OldRun(pess, e, c, m), n)
    ensures OldQuiet(pess, e, c, m + n) <==> OldQuiet(pess, e, c, m) && OldQuiet(pess, e, OldRun(pess, e, c, m), n)
    decreases m
  {
    hide OldNext, OldDecides;
    if m > 0 {
      OldRunSplit(pess, e, OldNext(pess, e, c, false, true), m - 1, n);
    }
  }

  predicate CondJump(i: Instr) { i.cls == JMP && JmpType(i) != JA }

  predicate WaitsForMemory(i: Instr) {
    (i.cls == LD && IsPacketLoad(i)) || (i.cls == LDX && (IsPacketLoad(i) || i.mode == MSH))
  }

  /** How many edges an instruction takes, from one fetch to the next. */
  function Cycles(pess: bool, i: Instr): nat {
    if WaitsForMemory(i) || i.cls == ALU then if pess then 4 else 3
    else if pess && CondJump(i) then 3
    else 2
  }

  /** The edges left before the next fetch, in each state. */
  function Left(pess: bool, state: State, i: Instr): nat {
    match state
    case FetchState => Cycles(pess, i)
    case Decode => Cycles(pess, i) - 1
    case LdExtra => 2
    case LdxExtra => 2
    case AluExtra => 2
    case Reset => 0
    case _ => 1
  }

  function LoadAddress(s: Arch, i: Instr): word {
    if i.mode == IND then Add(s.X, i.imm) else i.imm
  }

  /** The machine is somewhere inside the interpreter's next instruction: until
      its last edge A, X and the scratch memory are the interpreter's, and
      whatever has been computed so far is what that instruction needs. */
  predicate OldRel(pess: bool, e: Env, c: Old, s: Arch) {
    var i := Fetch(e.code, s.pc);
    && s.pc < |e.code| && c.A == s.A && c.X == s.X && c.scratch == s.scratch
    && c.state != Reset
    && (if c.state == FetchState then c.PC == s.pc else c.PC == Wrap(s.pc + 1, |e.code|) && c.ir == i)
    && (match c.state
        case LdExtra => pess && i.cls == LD && IsPacketLoad(i) && c.addrR == PacketAddr(e.Size(), LoadAddress(s, i))
        case LdxExtra => pess && i.cls == LDX && WaitsForMemory(i) && c.addrR == PacketAddr(e.Size(), LoadAddress(s, i))
        case AluExtra => pess && i.cls == ALU
        case CondJmpExtra => pess && CondJump(i) && c.flagsR == Compare(s.A, Operand(s, i))
        case WriteMemToA => i.cls == LD && IsPacketLoad(i) && c.memQ == Load(e, LoadAddress(s, i), i.size)
        case WriteMemToX => i.cls == LDX && IsPacketLoad(i) && c.memQ == Load(e, LoadAddress(s, i), i.size)
        case MshWriteMemToX => i.cls == LDX && i.mode == MSH && c.memQ == Load(e, i.imm, i.size)
        case WriteAluToA => i.cls == ALU && (pess ==> c.aluOutR == Alu(AluSel(i), s.A, Operand(s, i)))
        case _ => true)
  }

  /** One edge finishes the instruction with the interpreter's effect, or gives
      the interpreter's verdict, or rejects the encoding without one, or brings
      the instruction one edge closer to its end. */
  predicate Advances(pess: bool, e: Env, c: Old, s: Arch) {
    var c' := OldNext(pess, e, c, false, true);
    var i := Fetch(e.code, s.pc);
    if c.state == Decode && !Exec(e, s).Continue? then
      && c'.state == Reset && c'.A == s.A && c'.X == s.X && c'.scratch == s.scratch
      && OldAccepts(c) == (Exec(e, s) == Verdict(true)) && OldRejects(c) == (Exec(e, s) == Verdict(false))
    else if Left(pess, c.state, i) == 1 then
      && !OldDecides(c) && Exec(e, s).Continue? && OldRel(pess, e, c', Exec(e, s).s) && c'.state == FetchState
    else
      && !OldDecides(c) && OldRel(pess, e, c', s) && c'.state != FetchState
      && Left(pess, c'.state, i) == Left(pess, c.state, i) - 1
  }

  lemma FetchEdge(pess: bool, e: Env, c: Old, s: Arch)
    requires OldRel(pess, e, c, s) && c.state == FetchState
    ensures Advances(pess, e, c, s)
  {
    hide ReadBytes, Alu, Compare, Exec;
  }

  lemma DecodeLoad(pess: bool, e: Env, c: Old, s: Arch)
    requires OldRel(pess, e, c, s) && c.state == Decode && (c.ir.cls == LD || c.ir.cls == LDX)
    ensures Advances(pess, e, c, s)
  {
    hide ReadBytes, Alu, Compare, Fetch;
  }

  lemma DecodeOther(pess: bool, e: Env, c: Old, s: Arch)
    requires OldRel(pess, e, c, s) && c.state == Decode && c.ir.cls != LD && c.ir.cls != LDX
    ensures Advances(pess, e, c, s)
  {
    hide ReadBytes, Alu, Compare, Fetch;
  }

  lemma LateEdge(pess: bool, e: Env, c: Old, s: Arch)
    requires OldRel(pess, e, c, s) && c.state != FetchState && c.state != Decode
    ensures Advances(pess, e, c, s)
  {
    hide ReadBytes, Alu, Compare, Fetch;
  }

  lemma OldEdge(pess: bool, e: Env, c: Old, s: Arch)
    requires OldRel(pess, e, c, s)
    ensures Advances(pess, e, c, s)
  {
    hide Advances, OldRel;
    if c.state == FetchState {
      FetchEdge(pess, e, c, s);
    } else if c.state == Decode {
      if c.ir.cls == LD || c.ir.cls == LDX {
        DecodeLoad(pess, e, c, s);
      } else {
        DecodeOther(pess, e, c, s);
      }
    } else {
      LateEdge(pess, e, c, s);
    }
  }

  /** A whole instruction, from any point inside it. */
  lemma {:induction false} OldInstruction(pess: bool, e: Env, c: Old, s: Arch)
    requires OldRel(pess, e, c, s) && Exec(e, s).Continue?
    ensures var k := Left(pess, c.state, Fetch(e.code, s.pc)); var c' := OldRun(pess, e, c, k);
            k > 0 && OldQuiet(pess, e, c, k) && OldRel(pess, e, c', Exec(e, s).s) && c'.state == FetchState
    decreases Left(pess, c.state, Fetch(e.code, s.pc))
  {
    hide OldNext, Exec, OldAccepts, OldRejects, Fetch;
    OldEdge(pess, e, c, s);
    var i := Fetch(e.code, s.pc);
    var c1 := OldNext(pess, e, c, false, true);
    if Left(pess, c.state, i) == 1 {
      assert OldRun(pess, e, c, 1) == c1 && OldQuiet(pess, e, c1, 0);
    } else {
      OldInstruction(pess, e, c1, s);
    }
  }

  /** Edges taken by the first n instructions. */
  function TotalCycles(pess: bool, e: Env, s: Arch, n: nat): nat
    decreases n
  {
    if n == 0 || !Exec(e, s).Continue? then 0
    else Cycles(pess, Fetch(e.code, s.pc)) + TotalCycles(pess, e, Exec(e, s).s, n - 1)
  }

  /** Main result for both variants: after exactly the counted edges the machine
      is at the interpreter's state, or shows the interpreter's verdict one edge
      later (in the decode state), or is back in reset without a verdict where
      the interpreter finds an undefined load.  A, X and the scratch memory are
      the interpreter's final ones in every case. */
  lemma {:induction false} OldCpuFollows(pess: bool, e: Env, c: Old, s: Arch, n: nat)
    requires OldRel(pess, e, c, s) && c.state == FetchState
    ensures var k := TotalCycles(pess, e, s, n);
            && OldQuiet(pess, e, c, k + 1)
            && match Interp(e, s, n)
               case Running(s') => OldRel(pess, e, OldRun(pess, e, c, k), s') && OldRun(pess, e, c,
                   k).state == FetchState
               case Returned(acc) =>
                 && OldAccepts(OldRun(pess, e, c, k + 1)) == acc && OldRejects(OldRun(pess, e, c, k + 1)) == !acc
                 && OldRun(pess, e, c, k + 2).state == Reset
               case Faulted => !OldDecides(OldRun(pess, e, c, k + 1)) && OldRun(pess, e, c, k + 2).state == Reset
    decreases n
  {
    hide OldNext, Exec, OldAccepts, OldRejects, Fetch, OldRel;
    var i := Fetch(e.code, s.pc);
    var c1 := OldNext(pess, e, c, false, true);
    OldEdgeFromFetch(pess, e, c, s);
    if n == 0 {
      assert OldQuiet(pess, e, c, 1) by { assert OldQuiet(pess, e, c1, 0); }
    } else if Exec(e, s).Continue? {
      var k := Cycles(pess, i);
      OldInstruction(pess, e, c, s);
      var c2, s2 := OldRun(pess, e, c, k), Exec(e, s).s;
      OldCpuFollows(pess, e, c2, s2, n - 1);
      var r := TotalCycles(pess, e, s2, n - 1);
      OldRunSplit(pess, e, c, k, r);
      OldRunSplit(pess, e, c, k, r + 1);
      OldRunSplit(pess, e, c, k, r + 2);
    } else {
      DecodeEnds(pess, e, c1, s);
      var c2 := OldNext(pess, e, c1, false, true);
      assert OldRun(pess, e, c, 1) == c1 by { assert OldRun(pess, e, c1, 0) == c1; }
      assert OldRun(pess, e, c, 2) == c2 by { assert OldRun(pess, e, c1, 1) == OldRun(pess, e, c2, 0); }
      assert OldQuiet(pess, e, c, 1) by { assert OldQuiet(pess, e, c1, 0); }
    }
  }

  lemma OldEdgeFromFetch(pess: bool, e: Env, c: Old, s: Arch)
    requires OldRel(pess, e, c, s) && c.state == FetchState
    ensures var c1 := OldNext(pess, e, c, false, true);
            !OldDecides(c) && OldRel(pess, e, c1, s) && c1.state == Decode
  {
    hide ReadBytes, Alu, Compare, Exec;
  }

  lemma DecodeEnds(pess: bool, e: Env, c1: Old, s: Arch)
    requires OldRel(pess, e, c1, s) && c1.state == Decode && !Exec(e, s).Continue?
    ensures OldAccepts(c1) == (Exec(e, s) == Verdict(true)) && OldRejects(c1) == (Exec(e, s) == Verdict(false))
    ensures OldNext(pess, e, c1, false, true).state == Reset
  {
    hide OldNext, Exec, OldAccepts, OldRejects, Fetch, OldRel;
    OldEdge(pess, e, c1, s);
  }

  // ------------------------------------------------------------ every cycle

  /** How many instructions have finished after k edges. */
  function Finished(pess: bool, e: Env, s: Arch, left: nat, k: nat): nat
    decreases k
  {
    if k == 0 || !Exec(e, s).Continue? then 0
    else if left > 1 then Finished(pess, e, s, left - 1, k - 1)
    else
      var s' := Exec(e, s).s;
      1 + Finished(pess, e, s', Cycles(pess, Fetch(e.code, s'.pc)), k - 1)
  }

  /** In every cycle of a run, in either variant, A, X and the scratch memory
      are those of the interpreter after the instructions finished so far: the
      machine's states are the interpreter's, each repeated for a while. */
  lemma {:induction false} EveryCycleIsInterpreted(pess: bool, e: Env, c: Old, s: Arch, k: nat)
    requires OldRel(pess, e, c, s) && Interp(e, s, k + 1).Running?
    ensures var n := Finished(pess, e, s, Left(pess, c.state, Fetch(e.code, s.pc)), k);
            n <= k && Interp(e, s, n).Running? && OldRel(pess, e, OldRun(pess, e, c, k), Interp(e, s, n).s)
    decreases k
  {
    hide OldNext, Exec, OldAccepts, OldRejects, Fetch;
    if k > 0 {
      OldEdge(pess, e, c, s);
      var i := Fetch(e.code, s.pc);
      var c1 := OldNext(pess, e, c, false, true);
      if Left(pess, c.state, i) == 1 {
        EveryCycleIsInterpreted(pess, e, c1, Exec(e, s).s, k - 1);
      } else {
        InterpSplit(e, s, k, 1);
        EveryCycleIsInterpreted(pess, e, c1, s, k - 1);
      }
    }
  }

  // --------------------------------------------------------- leaving reset

  /** Leaving reset with a packet available starts at instruction 0. */
  lemma ResetStarts(pess: bool, e: Env, c: Old)
    requires c.state == Reset
    ensures var c' := OldNext(pess, e, c, false, true);
            !OldDecides(c) && c'.state == FetchState && OldRel(pess, e, c', Arch(c.A, c.X, c.scratch, 0))
  {
    hide ReadBytes, Alu, Compare;
  }

  // ------------------------------------------------------- waiting and resets

  /** The two inputs of one edge. */
  datatype Inputs = Inputs(rst: bool, memReady: bool)

  function OldInputs(pess: bool, e: Env, c: Old, ins: seq<Inputs>): Old {
    if ins == [] then c
    else
      var k := |ins| - 1;
      OldNext(pess, e, OldInputs(pess, e, c, ins[..k]), ins[k].rst, ins[k].memReady)
  }

  /** In reset the machine leaves exactly when a packet is there and rst is low;
      otherwise nothing but the scratch memory and the program counter moves. */
  lemma ResetEdge(pess: bool, e: Env, c: Old, i: Inputs)
    requires c.state == Reset
    ensures !OldDecides(c) && !PacketMemRdEn(pess, c)
    ensures var c' := OldNext(pess, e, c, i.rst, i.memReady);
      && c'.PC == 0 && c'.A == c.A && c'.X == c.X && c'.memQ == c.memQ && c'.ir == c.ir
      && c'.state == (if i.memReady && !i.rst then FetchState else Reset)
  {
    hide ReadBytes, Alu, Compare;
  }

  /** Without a packet, or under rst, it waits for ever: no verdict, no packet
      read, and A, X and the last word read stay as they are. */
  lemma {:induction false} OldWaits(pess: bool, e: Env, c: Old, ins: seq<Inputs>)
    requires c.state == Reset && forall k :: 0 <= k < |ins| ==> ins[k].rst || !ins[k].memReady
    ensures var c' := OldInputs(pess, e, c, ins);
      && c'.state == Reset && c'.A == c.A && c'.X == c.X && c'.memQ == c.memQ && (ins != [] ==> c'.PC == 0)
      && !OldDecides(c') && !PacketMemRdEn(pess, c')
    decreases |ins|
  {
    hide OldNext, OldDecides, PacketMemRdEn;
    if ins == [] {
      ResetEdge(pess, e, c, Inputs(true, false));
    } else {
      var k := |ins| - 1;
      OldWaits(pess, e, c, ins[..k]);
      var c1 := OldInputs(pess, e, c, ins[..k]);
      ResetEdge(pess, e, c1, ins[k]);
      ResetEdge(pess, e, OldInputs(pess, e, c, ins), Inputs(true, false));
    }
  }

  /** rst brings the machine into reset from every state and clears the scratch
      memory. */
  lemma RstResets(pess: bool, e: Env, c: Old, memReady: bool)
    ensures var c' := OldNext(pess, e, c, true, memReady);
            c'.state == Reset && forall k :: 0 <= k < 16 ==> c'.scratch[k] == 0
  {
    hide ReadBytes, Alu, Compare;
  }

  /** States the optimistic machine does not use. */
  predicate ExtraState(state: State) {
    state == LdExtra || state == LdxExtra || state == AluExtra || state == CondJmpExtra
  }

  predicate UndefinedLoad(i: Instr) { (i.cls == 0 && i.mode >= 5) || (i.cls == 1 && i.mode >= 6) }

  /** The cycle that ends work on a packet: a verdict, or an undefined load. */
  predicate Ends(c: Old) { OldDecides(c) || (c.state == Decode && UndefinedLoad(c.ir)) }

  /** Outside reset the machine goes back there exactly when it ends a packet. */
  lemma EndsInReset(pess: bool, e: Env, c: Old, memReady: bool)
    requires c.state != Reset && (!pess ==> !ExtraState(c.state))
    ensures var c' := OldNext(pess, e, c, false, memReady);
            (c'.state == Reset <==> Ends(c)) && (!pess ==> !ExtraState(c'.state))
  {
    hide ReadBytes, Alu, Compare, Odd;
  }

  /** How often the machine has started on a packet, and how often it has ended
      one, in a run in which rst stays low. */
  function Starts(pess: bool, e: Env, c: Old, ready: seq<bool>): nat
    decreases |ready|
  {
    if ready == [] then 0
    else
      (if c.state == Reset && ready[0] then 1 else 0)
      + Starts(pess, e, OldNext(pess, e, c, false, ready[0]), ready[1..])
  }

  function Ended(pess: bool, e: Env, c: Old, ready: seq<bool>): nat
    decreases |ready|
  {
    if ready == [] then 0
    else (if Ends(c) then 1 else 0) + Ended(pess, e, OldNext(pess, e, c, false, ready[0]), ready[1..])
  }

  function OldState(pess: bool, e: Env, c: Old, ready: seq<bool>): Old
    decreases |ready|
  {
    if ready == [] then c else OldState(pess, e, OldNext(pess, e, c, false, ready[0]), ready[1..])
  }

  /** Packets and endings correspond one to one: at every moment each packet
      started on has ended once, except the one the machine is working on. */
  lemma {:induction false} OneEndPerPacket(pess: bool, e: Env, c: Old, ready: seq<bool>)
    requires !pess ==> !ExtraState(c.state)
    ensures (if c.state != Reset then 1 else 0) + Starts(pess, e, c, ready) ==
            Ended(pess, e, c, ready) + if OldState(pess, e, c, ready).state != Reset then 1 else 0
    decreases |ready|
  {
    hide OldNext, Ends;
    if ready != [] {
      var c' := OldNext(pess, e, c, false, ready[0]);
      if c.state == Reset {
        ResetEdge(pess, e, c, Inputs(false, ready[0]));
        NoEndInReset(c);
      } else {
        EndsInReset(pess, e, c, ready[0]);
      }
      OneEndPerPacket(pess, e, c', ready[1..]);
    }
  }

  lemma NoEndInReset(c: Old)
    ensures c.state == Reset ==> !Ends(c)
  {
  }

  // -------------------------------------------------- the two variants agree

  /** Started on the same registers and packet, the optimistic and the
      pessimistic machine go through the same instructions with the same A, X,
      PC and scratch memory at each fetch, give the same verdict, and differ only
      in the number of edges in between. */
  lemma VariantsAgree(e: Env, c: Old, d: Old, n: nat)
    requires c.state == Reset && d.state == Reset && c.A == d.A && c.X == d.X && c.scratch == d.scratch
    ensures var s := Arch(c.A, c.X, c.scratch, 0);
            var ko := TotalCycles(false, e, s, n) + 1; var kp := TotalCycles(true, e, s, n) + 1;
            && ko <= kp <= ko + n
            && OldQuiet(false, e, c, ko + 1) && OldQuiet(true, e, d, kp + 1)
            && (Interp(e, s, n).Running? ==>
                var c' := OldRun(false, e, c, ko); var d' := OldRun(true, e, d, kp);
                c'.state == FetchState == d'.state && c'.A == d'.A && c'.X == d'.X && c'.PC == d'.PC
                && c'.scratch == d'.scratch)
            && (!Interp(e, s, n).Running? ==>
                && OldAccepts(OldRun(false, e, c, ko + 1)) == OldAccepts(OldRun(true, e, d, kp + 1))
                && OldRejects(OldRun(false, e, c, ko + 1)) == OldRejects(OldRun(true, e, d, kp + 1)))
  {
    hide OldNext, Exec, OldAccepts, OldRejects, Fetch;
    var s := Arch(c.A, c.X, c.scratch, 0);
    ResetStarts(false, e, c);
    ResetStarts(true, e, d);
    OldCpuFollows(false, e, OldNext(false, e, c, false, true), s, n);
    OldCpuFollows(true, e, OldNext(true, e, d, false, true), s, n);
    CyclesOrdered(e, s, n);
  }

  lemma {:induction false} CyclesOrdered(e: Env, s: Arch, n: nat)
    ensures TotalCycles(false, e, s, n) <= TotalCycles(true, e, s, n) <= TotalCycles(false, e, s, n) + n
    decreases n
  {
    hide Exec;
    if n > 0 && Exec(e, s).Continue? {
      CyclesOrdered(e, Exec(e, s).s, n - 1);
    }
  }
}
