/** What the pipelined CPU does with whole programs: its verdict, its exact
    timing, the programs on which it never returns, and exactly when it does
    what the interpreter does. */
module PipelineTheorems {
  import opened PacketRam
  import opened Isa
  import opened RegisterMuxes
  import opened PipelineStages
  import opened PipelineDatapath
  import opened PipelinedCpu
  import opened PipelineProof

  /** n instructions as the pipeline executes them, counting its edges. */
  datatype TimedResult =
    | StillRunning(t: Timed, edges: nat)
    | TimedVerdict(accept: bool, edges: nat)
    | Deadlock(edges: nat)

  function Delay(r: TimedResult, k: nat): TimedResult {
    match r
    case StillRunning(t, n) => StillRunning(t, n + k)
    case TimedVerdict(acc, n) => TimedVerdict(acc, n + k)
    case Deadlock(n) => Deadlock(n + k)
  }

  /** Only RET #k ends the pipeline's run. */
  lemma PipeGoesOn(e: Env, t: Timed)
    ensures PipeExec(e, t).Continue? <==> !IsRetImm(Fetch(e.code, t.s.pc))
    ensures IsRetImm(Fetch(e.code, t.s.pc)) ==> Exec(e, t.s) == Verdict(Odd(Fetch(e.code, t.s.pc).imm))
  {
    hide Alu, JumpTarget, Load;
  }

  /** The state in which the instruction in stage 1 issues. */
  function AtIssue(e: Env, t: Timed): Timed { Waited(t, Wait(Fetch(e.code, t.s.pc), t)) }

  /** The state of one instruction later. */
  function OneOn(e: Env, t: Timed): Timed
    requires !IsRetImm(Fetch(e.code, t.s.pc))
  {
    var i, u := Fetch(e.code, t.s.pc), AtIssue(e, t);
    WaitedKeeps(t, Wait(i, t));
    PipeGoesOn(e, u);
    After(i, u, PipeExec(e, u).s)
  }

  function TimedInterp(e: Env, t: Timed, n: nat): TimedResult
    decreases n
  {
    var i := Fetch(e.code, t.s.pc);
    if n == 0 then StillRunning(t, 0)
    else if SelfStalls(i, t) then Deadlock(0)
    else if IsRetImm(i) then TimedVerdict(Odd(i.imm), 0)
    else Delay(TimedInterp(e, OneOn(e, t), n - 1), Cost(i, t))
  }

  lemma {:induction false} WaitedKeeps(t: Timed, w: nat)
    ensures var u := Waited(t, w);
            && u.s == t.s && u.a == (if t.a > w then t.a - w else 0) && u.x == (if t.x > w then t.x - w else 0)
    decreases w
  {
    if w > 0 {
      WaitedKeeps(Tick(t), w - 1);
    }
  }

  /** Running n more instructions after the first m. */
  lemma {:induction false} TimedSplit(e: Env, t: Timed, m: nat, n: nat)
    ensures TimedInterp(e, t, m + n) ==
            match TimedInterp(e, t, m)
            case StillRunning(t', k) => Delay(TimedInterp(e, t', n), k)
            case r => r
    decreases m
  {
    hide OneOn, Cost, SelfStalls;
    if m > 0 && !IsRetImm(Fetch(e.code, t.s.pc)) {
      TimedSplit(e, OneOn(e, t), m - 1, n);
    }
  }

  // ------------------------------------------- exactly when it is the interpreter

  /** Every instruction that issues among the next n has the interpreter's
      effect. */
  ghost predicate Agrees(e: Env, t: Timed, n: nat)
    decreases n
  {
    var i := Fetch(e.code, t.s.pc);
    n == 0 || SelfStalls(i, t) || IsRetImm(i) || (SameStep(e, AtIssue(e, t)) && Agrees(e, OneOn(e, t), n - 1))
  }

  /** A run of the pipeline and a run of the interpreter that end alike; the
      interpreter never deadlocks, so nothing is said of a deadlock. */
  predicate Alike(r: TimedResult, q: Result) {
    match r
    case StillRunning(t, _) => q == Running(t.s)
    case TimedVerdict(acc, _) => q == Returned(acc)
    case Deadlock(_) => true
  }

  lemma OneStepAlike(e: Env, t: Timed)
    requires !SelfStalls(Fetch(e.code, t.s.pc), t) && !IsRetImm(Fetch(e.code, t.s.pc))
    ensures Alike(TimedInterp(e, t, 1), Interp(e, t.s, 1)) <==> SameStep(e, AtIssue(e, t))
    ensures SameStep(e, AtIssue(e, t)) ==> Exec(e, t.s) == Continue(OneOn(e, t).s)
  {
    hide Exec, PipeExec, SameStep, SelfStalls, Wait;
    var u := AtIssue(e, t);
    WaitedKeeps(t, Wait(Fetch(e.code, t.s.pc), t));
    SameStepIff(e, u);
    PipeGoesOn(e, u);
    InterpStep(e, t.s, 1);
    assert TimedInterp(e, OneOn(e, t), 0) == StillRunning(OneOn(e, t), 0);
  }

  lemma InterpStep(e: Env, s: Arch, n: nat)
    requires n > 0
    ensures Interp(e, s, n) ==
            match Exec(e, s)
            case Continue(s') => Interp(e, s', n - 1)
            case Verdict(acc) => Returned(acc)
            case Fault => Faulted
  {
  }

  lemma AlikeDelay(r: TimedResult, k: nat, q: Result)
    ensures Alike(Delay(r, k), q) <==> Alike(r, q)
  {
  }

  /** Exactly when the pipeline is the interpreter: up to n instructions the two
      are in the same state after each, or have given the same verdict, iff every
      instruction on the way has the interpreter's effect when it issues. */
  lemma {:induction false} TimedIsInterpIff(e: Env, t: Timed, n: nat)
    ensures Agrees(e, t, n) <==> forall m: nat :: m <= n ==> Alike(TimedInterp(e, t, m), Interp(e, t.s, m))
    decreases n
  {
    hide SameStep, SelfStalls, OneOn, AtIssue, Cost, Exec, Alike, Delay;
    var i := Fetch(e.code, t.s.pc);
    assert Alike(TimedInterp(e, t, 0), Interp(e, t.s, 0)) by { NothingIsAlike(e, t); }
    if n == 0 {
    } else if SelfStalls(i, t) || IsRetImm(i) {
      forall m: nat | m <= n ensures Alike(TimedInterp(e, t, m), Interp(e, t.s, m)) {
        if m > 0 {
          EndsAlike(e, t, m);
        }
      }
    } else {
      var t1 := OneOn(e, t);
      OneStepAlike(e, t);
      TimedIsInterpIff(e, t1, n - 1);
      if SameStep(e, AtIssue(e, t)) {
        forall m: nat | m <= n - 1
          ensures Alike(TimedInterp(e, t, m + 1), Interp(e, t.s, m + 1)) <==>
                  Alike(TimedInterp(e, t1, m), Interp(e, t1.s, m))
        {
          InterpStep(e, t.s, m + 1);
          AlikeDelay(TimedInterp(e, t1, m), Cost(i, t), Interp(e, t1.s, m));
        }
        if Agrees(e, t1, n - 1) {
          forall m: nat | 1 <= m <= n ensures Alike(TimedInterp(e, t, m), Interp(e, t.s, m)) {
            assert Alike(TimedInterp(e, t1, m - 1), Interp(e, t1.s, m - 1));
          }
        } else {
          var m: nat :| m <= n - 1 && !Alike(TimedInterp(e, t1, m), Interp(e, t1.s, m));
          assert !Agrees(e, t, n);
          var k := m + 1;
          assert k <= n && !Alike(TimedInterp(e, t, k), Interp(e, t.s, k));
        }
      }
    }
  }

  lemma NothingIsAlike(e: Env, t: Timed)
    ensures Alike(TimedInterp(e, t, 0), Interp(e, t.s, 0))
  {
  }

  lemma EndsAlike(e: Env, t: Timed, m: nat)
    requires m > 0 && (SelfStalls(Fetch(e.code, t.s.pc), t) || IsRetImm(Fetch(e.code, t.s.pc)))
    ensures Alike(TimedInterp(e, t, m), Interp(e, t.s, m))
  {
    hide SelfStalls, Exec;
    PipeGoesOn(e, t);
    InterpStep(e, t.s, m);
  }

  /** One instruction that cannot disagree when it issues in this state: no
      return of A or X, no undefined load, and no X operand that is stale. */
  predicate SafeAt(i: Instr, t: Timed) {
    && !StaleOperand(i, t) && (i.cls == RET ==> i.size == RET_IMM)
    && (i.cls == LD ==> i.mode <= LEN) && (i.cls == LDX ==> i.mode <= MSH)
  }

  lemma SafeIsSame(e: Env, t: Timed)
    requires Coherent(t) && SafeAt(Fetch(e.code, t.s.pc), t)
    ensures SameStep(e, AtIssue(e, t))
  {
    hide Alu, JumpTarget, Wait;
    var i := Fetch(e.code, t.s.pc);
    WaitedKeeps(t, Wait(i, t));
    if i.cls == ALU || i.cls == JMP {
      FreshOperandIsSequential(i, t);
    }
  }

  lemma OneOnIsCoherent(e: Env, t: Timed)
    requires Coherent(t) && !IsRetImm(Fetch(e.code, t.s.pc))
    ensures Coherent(OneOn(e, t))
  {
  }

  // ---------------------------------------------------------- the pipeline runs

  /** A self-stalling instruction is in stage 1, stalled by its own kind of
      enable. */
  predicate Stuck(c: Cpu) {
    && c.valid0
    && (|| (ReadsA(c.ir) && WritesA(c.ir) && (c.s2.aEn || c.s3.aEn))
        || (ReadsX(c.ir) && WritesX(c.ir) && (c.s2.xEn || c.s3.xEn)))
  }

  lemma StuckStays(e: Env, s: Sys)
    requires Stuck(s.c)
    ensures !Decides(s.c) && Stuck(SysNext(e, s, false).c)
  {
    hide DatapathNext;
  }

  /** Once stuck, no verdict ever, whatever the packet. */
  lemma {:induction false} StuckForever(e: Env, s: Sys, n: nat)
    requires Stuck(s.c)
    ensures Quiet(e, s, n)
    decreases n
  {
    hide SysNext, Stuck, Decides;
    StuckStays(e, s);
    if n > 0 {
      StuckForever(e, SysNext(e, s, false), n - 1);
    }
  }

  lemma SelfStallsStuck(e: Env, s: Sys, t: Timed)
    requires Rel(e, s, t) && SelfStalls(s.c.ir, t)
    ensures Stuck(s.c)
  {
    hide Flush, ReadsEnabled, ReadsA, ReadsX, WritesA, WritesX;
  }

  lemma RelFetched(e: Env, s: Sys, t: Timed)
    requires Rel(e, s, t)
    ensures s.c.ir == Fetch(e.code, t.s.pc)
  {
  }

  /** The pipeline follows its own semantics edge for edge, for every program,
      packet and start: it is at the state reached, or gives the verdict at
      exactly the counted edge and none before, or never gives one. */
  lemma {:induction false} PipelineFollows(e: Env, s: Sys, t: Timed, n: nat)
    requires Rel(e, s, t)
    ensures match TimedInterp(e, t, n)
            case StillRunning(t', k) => Quiet(e, s, k) && Rel(e, Run(e, s, k), t')
            case TimedVerdict(acc, k) =>
              Quiet(e, s, k) && Accepts(Run(e, s, k).c) == acc && Rejects(Run(e, s, k).c) == !acc
            case Deadlock(k) => forall m: nat :: Quiet(e, s, m)
    decreases n
  {
    hide SysNext, Exec, PipeExec, Rel, Wait, Decides, Accepts, Rejects, SelfStalls, Stuck, IsRetImm, Cost;
    var i := s.c.ir;
    RelFetched(e, s, t);
    if n > 0 {
      if SelfStalls(i, t) {
        SelfStallsStuck(e, s, t);
        forall m: nat ensures Quiet(e, s, m) {
          StuckForever(e, s, m);
        }
      } else if IsRetImm(i) {
        VerdictIsInterpreted(e, s, t);
      } else {
        InstructionRuns(e, s, t);
        var k := Cost(i, t);
        var s1, t1 := Run(e, s, k), OneOn(e, t);
        PipelineFollows(e, s1, t1, n - 1);
        FollowShift(e, s, s1, k, TimedInterp(e, t1, n - 1));
      }
    }
  }

  lemma FollowShift(e: Env, s: Sys, s1: Sys, k: nat, r: TimedResult)
    requires Quiet(e, s, k) && s1 == Run(e, s, k)
    ensures r.StillRunning? || r.TimedVerdict? ==>
            Run(e, s, r.edges + k) == Run(e, s1, r.edges) && (Quiet(e, s, r.edges + k) <==> Quiet(e, s1, r.edges))
    ensures (forall m: nat :: Quiet(e, s1, m)) ==> forall m: nat :: Quiet(e, s, m)
  {
    hide SysNext, Decides;
    if r.StillRunning? || r.TimedVerdict? {
      RunSplit(e, s, k, r.edges);
    }
    if forall m: nat :: Quiet(e, s1, m) {
      forall m: nat ensures Quiet(e, s, m) {
        RunSplit(e, s, k, m);
        assert Quiet(e, s1, m);
        RunSplit(e, s, m, k);
        assert m + k == k + m;
      }
    }
  }

  /** RET #k: accept iff k is odd, at once. */
  lemma VerdictIsInterpreted(e: Env, s: Sys, t: Timed)
    requires Rel(e, s, t) && IsRetImm(s.c.ir)
    ensures Exec(e, t.s) == Verdict(Odd(s.c.ir.imm))
    ensures Accepts(s.c) == Odd(s.c.ir.imm) && Rejects(s.c) == !Odd(s.c.ir.imm)
  {
    hide Flush, ReadsEnabled;
  }

  // --------------------------------------------------------- starting a packet

  predicate SelfReader(i: Instr) { (ReadsA(i) && WritesA(i)) || (ReadsX(i) && WritesX(i)) }

  /** The CPU is idle and about to fetch instruction 0. */
  predicate Ready(e: Env, s: Sys) {
    Refetch(e, s, Flush(e, s, 0)) && !SelfReader(s.c.ir)
  }

  /** The state a run from here starts in; A, X and the scratch memory are
      whatever earlier packets left. */
  function Initial(e: Env, s: Sys): Timed { Fetched(s.c.ir, Fetch(e.code, 0), Flush(e, s, 0)) }

  /** The edge after a verdict leaves the CPU ready for the next packet, even
      though an older instruction may still be writing A or X. */
  lemma VerdictMakesReady(e: Env, s: Sys, t: Timed)
    requires Rel(e, s, t) && IsRetImm(s.c.ir)
    ensures Ready(e, SysNext(e, s, false)) && SysNext(e, s, false).c.ir == s.c.ir
  {
    hide ReadBytes, Select, Operations, Compare, Resize;
  }

  /** Waiting for a packet keeps the CPU ready. */
  lemma HoldKeepsReady(e: Env, s: Sys)
    requires Ready(e, s)
    ensures !Decides(s.c) && Ready(e, SysNext(e, s, true)) && SysNext(e, s, true).c.ir == s.c.ir
  {
    hide ReadBytes, Select, Operations, Compare, Resize;
  }

  /** Three edges of reset make the CPU ready from any state, iff the
      instruction left on the code memory's output does not depend on itself. */
  lemma ResetMakesReady(e: Env, s: Sys)
    ensures Ready(e, SysNext(e, SysNext(e, SysNext(e, s, true), true), true)) <==> !SelfReader(s.c.ir)
  {
    hide ReadBytes, Select, Operations, Compare, Resize, Msh, NextPc, AMux, XMux, PcSel, ReadsA, ReadsX, WritesA,
         WritesX, ASel, XSel, Fetch;
    var s1 := SysNext(e, s, true);
    var s2 := SysNext(e, s1, true);
    ResetEdge(e, s);
    ResetEdge(e, s1);
    ResetEdge(e, s2);
    ResetEdge2(e, s1);
    if !SelfReader(s.c.ir) {
      ResetEdge3(e, s2);
    }
  }

  lemma ResetEdge(e: Env, s: Sys)
    ensures var s' := SysNext(e, s, true);
            && !s'.c.valid0 && s'.c.d.PC == 0 && s'.c.ir == s.c.ir && s'.c.s2 == Compute2Next(s.c.ir, Issues(s.c))
            && s'.c.s3 == WritebackNext(s.c.s2) && s'.c.d.packetAddrR == 0
  {
    hide Resize, AMux, XMux, NextPc, Select, Operations, Compare;
  }

  lemma ResetEdge2(e: Env, s: Sys)
    requires !s.c.valid0
    ensures var s' := SysNext(e, s, true);
            !s'.c.s2.valid && !s'.c.s2.pcEn && !s'.c.s2.rfWr && !s'.c.s2.rdEn
  {
    hide DatapathNext;
  }

  lemma ResetEdge3(e: Env, s: Sys)
    requires !s.c.valid0 && !s.c.s2.valid && s.c.s2 == Compute2Next(s.c.ir, false)
    requires !SelfReader(s.c.ir)
    ensures Ready(e, SysNext(e, s, true))
  {
    hide ReadBytes, Select, Operations, Compare, Resize, AMux, XMux;
    ResetEdge(e, s);
  }

  /** The run of the pipeline on a packet starts one edge after the CPU is
      ready. */
  lemma ReadyFollows(e: Env, s: Sys, n: nat)
    requires Ready(e, s)
    ensures match TimedInterp(e, Initial(e, s), n)
            case StillRunning(t', k) => Quiet(e, s, k + 1) && Rel(e, Run(e, s, k + 1), t')
            case TimedVerdict(acc, k) =>
              && Quiet(e, s, k + 1)
              && Accepts(Run(e, s, k + 1).c) == acc && Rejects(Run(e, s, k + 1).c) == !acc
            case Deadlock(k) => forall m: nat :: Quiet(e, s, m)
  {
    hide SysNext, Rel, Flush, ReadsEnabled, Decides, Accepts, Rejects, Stalled, Exec, TimedInterp;
    FlushPc(e, s);
    RefetchEdge(e, s, Flush(e, s, 0));
    var s1 := SysNext(e, s, false);
    PipelineFollows(e, s1, Initial(e, s), n);
    assert Quiet(e, s, 1) && Run(e, s, 1) == s1;
    FollowShift(e, s, s1, 1, TimedInterp(e, Initial(e, s), n));
  }

  lemma FlushPc(e: Env, s: Sys)
    ensures Flush(e, s, 0).pc == 0
  {
  }

  lemma InitialIsCoherent(e: Env, s: Sys)
    ensures Coherent(Initial(e, s)) && Initial(e, s).s == Flush(e, s, 0)
  {
    hide Flush;
  }
}
