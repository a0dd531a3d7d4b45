/** Programs whose jumps are forward: when the pipeline answers them, how soon,
    and when the answer is the interpreter's. */
module ForwardPrograms {
  import opened PacketRam
  import opened Isa
  import opened PipelineStages
  import opened PipelinedCpu
  import opened PipelineProof
  import opened PipelineTheorems

  // -------------------------------------------------------- forward programs

  /** The instruction at pc may be followed by the one at q. */
  predicate FlowsTo(i: Instr, pc: nat, q: nat) {
    if i.cls != JMP then q == pc + 1
    else if JmpType(i) == JA then q == pc + 1 + i.imm
    else q == pc + 1 + i.jt || q == pc + 1 + i.jf
  }

  ghost predicate Inside(i: Instr, pc: nat, L: nat) { forall q: nat :: FlowsTo(i, pc, q) ==> q < L }

  /** A program of length L that only a return ends: every jump is forward and
      inside it, as the BPF compiler produces them. */
  ghost predicate Forward(code: seq<Instr>, L: nat) {
    0 < L <= |code| && forall pc :: 0 <= pc < L && code[pc].cls != RET ==> Inside(code[pc], pc, L)
  }

  /** The same for the pipeline, which only RET #k ends: the last instruction is
      one. */
  ghost predicate PipeForward(code: seq<Instr>, L: nat) {
    0 < L <= |code| && forall pc :: 0 <= pc < L && !IsRetImm(code[pc]) ==> Inside(code[pc], pc, L)
  }

  predicate DefinedLoad(i: Instr) { (i.cls == LD ==> i.mode <= LEN) && (i.cls == LDX ==> i.mode <= MSH) }

  lemma ExecFlows(e: Env, s: Arch, L: nat)
    requires s.pc < L <= |e.code| && e.code[s.pc].cls != RET && Inside(e.code[s.pc], s.pc, L)
    ensures Exec(e, s).Continue? ==> FlowsTo(e.code[s.pc], s.pc, Exec(e, s).s.pc) && s.pc < Exec(e, s).s.pc < L
    ensures DefinedLoad(e.code[s.pc]) ==> Exec(e, s).Continue?
  {
    hide Load, Alu, Compare;
    FlowsSomewhere(e.code[s.pc], s.pc, L);
  }

  lemma FlowsSomewhere(i: Instr, pc: nat, L: nat)
    requires Inside(i, pc, L)
    ensures i.cls != JMP ==> pc + 1 < L
    ensures i.cls == JMP && JmpType(i) == JA ==> pc + 1 + i.imm < L
    ensures i.cls == JMP && JmpType(i) != JA ==> pc + 1 + i.jt < L && pc + 1 + i.jf < L
  {
    if i.cls != JMP {
      assert FlowsTo(i, pc, pc + 1);
    } else if JmpType(i) == JA {
      assert FlowsTo(i, pc, pc + 1 + i.imm);
    } else {
      assert FlowsTo(i, pc, pc + 1 + i.jt) && FlowsTo(i, pc, pc + 1 + i.jf);
    }
  }

  /** The interpreter returns from every forward program within L steps, unless
      it comes to a load in an undefined mode. */
  lemma {:induction false} ForwardReturns(e: Env, s: Arch, L: nat, n: nat)
    requires Forward(e.code, L) && s.pc < L && n >= L - s.pc
    ensures Interp(e, s, n).Returned? || Interp(e, s, n).Faulted?
    ensures (forall pc :: 0 <= pc < L ==> DefinedLoad(e.code[pc])) ==> Interp(e, s, n).Returned?
    decreases n
  {
    hide Inside, Exec, DefinedLoad;
    if e.code[s.pc].cls == RET {
      assert Exec(e, s).Verdict? by { ReturnsAre(e, s); }
    } else {
      ExecFlows(e, s, L);
      if Exec(e, s).Continue? {
        ForwardReturns(e, Exec(e, s).s, L, n - 1);
      } else {
        NoVerdict(e, s);
      }
    }
  }

  lemma ReturnsAre(e: Env, s: Arch)
    requires s.pc < |e.code| && e.code[s.pc].cls == RET
    ensures Exec(e, s).Verdict?
  {
  }

  lemma NoVerdict(e: Env, s: Arch)
    requires s.pc < |e.code| && e.code[s.pc].cls != RET
    ensures !Exec(e, s).Verdict?
  {
    hide Load, Alu;
  }

  lemma PipeExecFlows(e: Env, u: Timed, L: nat)
    requires u.s.pc < L <= |e.code| && !IsRetImm(e.code[u.s.pc]) && Inside(e.code[u.s.pc], u.s.pc, L)
    requires PipeExec(e, u).Continue?
    ensures var q := PipeExec(e, u).s.pc; FlowsTo(e.code[u.s.pc], u.s.pc, q) && u.s.pc < q < L
  {
    hide Load, Alu, Compare, Inside, Taken;
    FlowsSomewhere(e.code[u.s.pc], u.s.pc, L);
    if e.code[u.s.pc].cls != JMP {
      NextInLine(e, u);
    }
  }

  lemma NextInLine(e: Env, u: Timed)
    requires u.s.pc < |e.code| && e.code[u.s.pc].cls != JMP && PipeExec(e, u).Continue?
    ensures PipeExec(e, u).s.pc == Wrap(u.s.pc + 1, |e.code|)
  {
    hide Load, Alu, Compare;
  }

  /** One instruction of the pipeline leads where the program does. */
  lemma OneOnFlows(e: Env, t: Timed, L: nat)
    requires PipeForward(e.code, L) && t.s.pc < L && !IsRetImm(e.code[t.s.pc])
    ensures var q := OneOn(e, t).s.pc; FlowsTo(e.code[t.s.pc], t.s.pc, q) && t.s.pc < q < L
  {
    hide Inside, Wait, PipeExec, PipeForward, FlowsTo;
    ForwardSize(e.code, L);
    var i, u := e.code[t.s.pc], AtIssue(e, t);
    assert Fetch(e.code, t.s.pc) == i;
    assert Inside(i, t.s.pc, L) by { ForwardAt(e.code, t.s.pc, L); }
    WaitedKeeps(t, Wait(i, t));
    PipeGoesOn(e, u);
    PipeExecFlows(e, u, L);
  }

  lemma ForwardAt(code: seq<Instr>, pc: nat, L: nat)
    requires PipeForward(code, L) && pc < L && !IsRetImm(code[pc])
    ensures Inside(code[pc], pc, L)
  {
  }

  /** On the pipeline a forward program ends in a verdict or in a deadlock,
      after at most five edges for each instruction before the last. */
  lemma {:induction false} ForwardTimed(e: Env, t: Timed, L: nat, n: nat)
    requires PipeForward(e.code, L) && t.s.pc < L && n >= L - t.s.pc && Coherent(t)
    ensures var r := TimedInterp(e, t, n);
            (r.TimedVerdict? || r.Deadlock?) && r.edges <= 5 * (L - 1 - t.s.pc)
    decreases n
  {
    hide PipeForward, OneOn, SelfStalls, Cost, IsRetImm, Coherent;
    ForwardSize(e.code, L);
    var i := e.code[t.s.pc];
    assert Fetch(e.code, t.s.pc) == i;
    if !IsRetImm(i) && !SelfStalls(i, t) {
      OneOnFlows(e, t, L);
      OneOnIsCoherent(e, t);
      CostAtMostFive(i, t);
      ForwardTimed(e, OneOn(e, t), L, n - 1);
    }
  }

  lemma ForwardSize(code: seq<Instr>, L: nat)
    requires PipeForward(code, L)
    ensures 0 < L <= |code|
  {
  }

  lemma CostAtMostFive(i: Instr, t: Timed)
    requires Coherent(t)
    ensures Cost(i, t) <= 5
  {
  }

  /** Main result.  A forward program started on a packet is decided, at an
      exact edge no later than 5(L-1)+1, or it deadlocks; which of the two, and
      the verdict, is what the timed semantics says. */
  lemma PipelineDecides(e: Env, s: Sys, L: nat)
    requires Ready(e, s) && PipeForward(e.code, L)
    ensures var r := TimedInterp(e, Initial(e, s), L);
            && (r.TimedVerdict? || r.Deadlock?) && r.edges <= 5 * (L - 1)
            && (r.TimedVerdict? ==>
                && Quiet(e, s, r.edges + 1)
                && Accepts(Run(e, s, r.edges + 1).c) == r.accept && Rejects(Run(e, s, r.edges + 1).c) == !r.accept)
            && (r.Deadlock? ==> forall m: nat :: Quiet(e, s, m))
    ensures var r := TimedInterp(e, Initial(e, s), L);
            Agrees(e, Initial(e, s), L) && r.TimedVerdict? ==> Interp(e, Flush(e, s, 0), L) == Returned(r.accept)
  {
    hide Ready, PipeForward, Initial, Flush, TimedInterp, Coherent, Accepts, Rejects, Run, Quiet, Interp, Agrees;
    TimedIsInterpIff(e, Initial(e, s), L);
    FlushPc(e, s);
    InitialIsCoherent(e, s);
    ForwardSize(e.code, L);
    ForwardTimed(e, Initial(e, s), L, L);
    ReadyFollows(e, s, L);
  }

  /** Exactly when the pipeline answers at all: iff the run never reaches an
      instruction that waits for its own destination register. */
  lemma AnswersIffNoDeadlock(e: Env, s: Sys, L: nat)
    requires Ready(e, s) && PipeForward(e.code, L)
    ensures (exists k: nat :: Decides(Run(e, s, k).c)) <==> !TimedInterp(e, Initial(e, s), L).Deadlock?
  {
    hide SysNext, Flush, Ready, Initial, TimedInterp, PipeForward;
    PipelineDecides(e, s, L);
    var r := TimedInterp(e, Initial(e, s), L);
    if r.TimedVerdict? {
      assert Decides(Run(e, s, r.edges + 1).c);
    } else {
      forall k: nat ensures !Decides(Run(e, s, k).c) {
        assert Quiet(e, s, k + 1);
        QuietMeans(e, s, k + 1, k);
      }
    }
  }

  // ------------------------------------------------------- static certificates

  /** How long ago A and X were written, and nothing else. */
  datatype Lag = Lag(a: nat, x: nat)

  function LagOf(t: Timed): Lag { Lag(t.a, t.x) }

  /** Some state with this lag; what waits and what stalls depends on nothing else. */
  function Lagging(l: Lag): Timed { Timed(Arch(0, 0, ZeroScratch(), 0), l.a, l.x, 0, 0) }

  /** The lag of one instruction later. */
  function NextLag(i: Instr, l: Lag): Lag {
    var t := Lagging(l);
    LagOf(After(i, Waited(t, Wait(i, t)), t.s))
  }

  /** A finite table of the lags with which each instruction can be reached that
      is closed under the program's flow. */
  ghost predicate Closed(code: seq<Instr>, lags: seq<set<Lag>>) {
    && |lags| <= |code|
    && forall pc, l, q: nat {:trigger FlowsTo(code[pc], pc, q), l in lags[pc]} ::
         0 <= pc < |lags| && l in lags[pc] && !IsRetImm(code[pc]) && q < |lags| && FlowsTo(code[pc], pc, q) ==>
         NextLag(code[pc], l) in lags[q]
  }

  /** No entry of the table waits for itself. */
  predicate NeverWaitsForItself(code: seq<Instr>, lags: seq<set<Lag>>)
    requires |lags| <= |code|
  {
    forall pc, l :: 0 <= pc < |lags| && l in lags[pc] ==> !SelfStalls(code[pc], Lagging(l))
  }

  /** No entry of the table can disagree with the interpreter. */
  predicate NeverStale(code: seq<Instr>, lags: seq<set<Lag>>)
    requires |lags| <= |code|
  {
    forall pc, l :: 0 <= pc < |lags| && l in lags[pc] ==> SafeAt(code[pc], Lagging(l))
  }

  lemma LagDecides(i: Instr, t: Timed)
    ensures SelfStalls(i, t) == SelfStalls(i, Lagging(LagOf(t)))
    ensures SafeAt(i, t) == SafeAt(i, Lagging(LagOf(t)))
  {
  }

  lemma LagsFollow(e: Env, t: Timed)
    requires !IsRetImm(Fetch(e.code, t.s.pc))
    ensures LagOf(OneOn(e, t)) == NextLag(Fetch(e.code, t.s.pc), LagOf(t))
  {
    hide ReadsA, ReadsX, WritesA, WritesX, PipeExec;
    var i := Fetch(e.code, t.s.pc);
    var t0 := Lagging(LagOf(t));
    WaitedKeeps(t, Wait(i, t));
    WaitedKeeps(t0, Wait(i, t0));
  }

  lemma LagStep(e: Env, t: Timed, L: nat, lags: seq<set<Lag>>)
    requires PipeForward(e.code, L) && |lags| == L && Closed(e.code, lags) && t.s.pc < L && LagOf(t) in lags[t.s.pc]
    requires !IsRetImm(e.code[t.s.pc])
    ensures var u := OneOn(e, t); u.s.pc < L && LagOf(u) in lags[u.s.pc]
  {
    hide PipeForward, OneOn, NextLag, FlowsTo, IsRetImm;
    assert Fetch(e.code, t.s.pc) == e.code[t.s.pc] by { ForwardSize(e.code, L); }
    LagsFollow(e, t);
    OneOnFlows(e, t, L);
  }

  /** A closed table without an entry that waits for itself rules out deadlock;
      one whose entries are all safe makes the pipeline the interpreter. */
  lemma {:induction false} TableDecides(e: Env, t: Timed, L: nat, lags: seq<set<Lag>>, n: nat)
    requires PipeForward(e.code, L) && |lags| == L && Closed(e.code, lags)
    requires t.s.pc < L && LagOf(t) in lags[t.s.pc] && Coherent(t)
    ensures L <= |e.code|
    ensures NeverWaitsForItself(e.code, lags) ==> !TimedInterp(e, t, n).Deadlock?
    ensures NeverStale(e.code, lags) ==> Agrees(e, t, n)
    decreases n
  {
    hide PipeForward, Closed, OneOn, SelfStalls, SafeAt, LagOf, Lagging, Cost, IsRetImm, Coherent, SameStep, AtIssue;
    ForwardSize(e.code, L);
    var i := e.code[t.s.pc];
    assert Fetch(e.code, t.s.pc) == i;
    LagDecides(i, t);
    if n > 0 && !IsRetImm(i) {
      LagStep(e, t, L, lags);
      OneOnIsCoherent(e, t);
      TableDecides(e, OneOn(e, t), L, lags, n - 1);
      if NeverStale(e.code, lags) {
        SafeIsSame(e, t);
      }
    }
  }

  /** Main result.  A forward program with a closed table in which nothing waits
      for itself answers every packet within 5(L-1)+1 edges; if its entries are
      also safe, with the interpreter's verdict. */
  lemma FragmentAlwaysAnswers(e: Env, s: Sys, L: nat, lags: seq<set<Lag>>) returns (k: nat)
    requires Ready(e, s) && PipeForward(e.code, L)
    requires |lags| == L && Closed(e.code, lags) && NeverWaitsForItself(e.code, lags)
    requires LagOf(Initial(e, s)) in lags[0]
    ensures 1 <= k <= 5 * (L - 1) + 1 && Quiet(e, s, k) && Decides(Run(e, s, k).c)
    ensures TimedInterp(e, Initial(e, s), L) == TimedVerdict(Accepts(Run(e, s, k).c), k - 1)
    ensures NeverStale(e.code, lags) ==> Interp(e, Flush(e, s, 0), L) == Returned(Accepts(Run(e, s, k).c))
  {
    hide SysNext, Flush, Ready, Initial, TimedInterp, PipeForward, Closed, Coherent, NeverWaitsForItself, NeverStale,
         LagOf, Interp, Agrees;
    FlushPc(e, s);
    InitialIsCoherent(e, s);
    ForwardSize(e.code, L);
    PipelineDecides(e, s, L);
    TableDecides(e, Initial(e, s), L, lags, L);
    TimedIsInterpIff(e, Initial(e, s), L);
    k := TimedInterp(e, Initial(e, s), L).edges + 1;
  }

  /** Every lag there is. */
  const ANY_LAG := {Lag(0, 0), Lag(0, 1), Lag(0, 2), Lag(1, 0), Lag(1, 1), Lag(1, 2), Lag(2, 0), Lag(2, 1), Lag(2, 2)}

  lemma AnyLag(l: Lag)
    ensures l in ANY_LAG <==> l.a <= 2 && l.x <= 2
  {
  }

  /** The simplest table: it is closed for every program, and no entry waits for
      itself when no instruction depends on itself. */
  lemma AnyLagIsClosed(code: seq<Instr>, L: nat)
    requires L <= |code|
    ensures Closed(code, seq(L, pc => ANY_LAG))
    ensures (forall pc :: 0 <= pc < L ==> !SelfReader(code[pc])) ==> NeverWaitsForItself(code, seq(L, pc => ANY_LAG))
  {
    hide ReadsA, ReadsX, WritesA, WritesX, FlowsTo, IsRetImm;
    forall i: Instr, l: Lag | l in ANY_LAG ensures NextLag(i, l) in ANY_LAG {
      AnyLag(l);
      AnyLag(NextLag(i, l));
      WaitedKeeps(Lagging(l), Wait(i, Lagging(l)));
    }
  }

  // ------------------------------------------------------------------ examples

  /** `ld` followed directly by any ALU instruction: the interpreter goes on,
      the pipeline never gives a verdict. */
  lemma LoadThenAluHangs(e: Env, s: Sys)
    requires Ready(e, s) && |e.code| >= 2
    requires e.code[0].cls == LD && e.code[0].mode <= LEN && e.code[1].cls == ALU
    ensures Interp(e, Flush(e, s, 0), 2).Running?
    ensures forall m: nat :: Quiet(e, s, m)
  {
    hide SysNext, Flush, Ready, Load, Alu, Cost;
    var t := Initial(e, s);
    FlushPc(e, s);
    LoadAluRuns(e, t.s);
    var u := AtIssue(e, t);
    WaitedKeeps(t, Wait(e.code[0], t));
    assert OneOn(e, t).a == 2 && OneOn(e, t).s.pc == 1;
    assert TimedInterp(e, OneOn(e, t), 1) == Deadlock(0);
    assert TimedInterp(e, t, 2).Deadlock?;
    ReadyFollows(e, s, 2);
  }

  lemma LoadAluRuns(e: Env, s0: Arch)
    requires s0.pc == 0 && |e.code| >= 2
    requires e.code[0].cls == LD && e.code[0].mode <= LEN && e.code[1].cls == ALU
    ensures Interp(e, s0, 2).Running?
  {
    hide Load, Alu;
    var s1 := Exec(e, s0).s;
    InterpStep(e, s0, 2);
    InterpStep(e, s1, 1);
  }

  predicate StoreProgram(code: seq<Instr>) {
    && |code| >= 4 && code[0].cls == LD && code[0].mode <= LEN && code[0].mode != IND
    && code[1].cls == ST && code[2].cls == ALU && !BSel(code[2]) && IsRetImm(code[3])
  }

  const STORE_LAGS: seq<set<Lag>> := [{Lag(0, 0)}, {Lag(2, 0)}, {Lag(0, 0)}, {Lag(2, 0)}]

  /** The lags along the program: the store uses up the load's. */
  lemma StoreLags(code: seq<Instr>)
    requires StoreProgram(code)
    ensures NextLag(code[0], Lag(0, 0)) == Lag(2, 0) && NextLag(code[1], Lag(2, 0)) == Lag(0, 0)
    ensures NextLag(code[2], Lag(0, 0)) == Lag(2, 0)
    ensures forall pc :: 0 <= pc < 3 ==> !IsRetImm(code[pc]) && code[pc].cls != JMP
  {
    WaitedKeeps(Lagging(Lag(0, 0)), 0);
    WaitedKeeps(Lagging(Lag(2, 0)), 2);
  }

  lemma StoreTable(code: seq<Instr>)
    requires StoreProgram(code)
    ensures PipeForward(code, 4) && Closed(code, STORE_LAGS)
  {
    StoreLags(code);
    hide NextLag, IsRetImm, StoreProgram;
  }

  lemma StoreEntries(code: seq<Instr>)
    requires StoreProgram(code)
    ensures NeverWaitsForItself(code, STORE_LAGS) && NeverStale(code, STORE_LAGS)
  {
    forall pc, l | 0 <= pc < 4 && l in STORE_LAGS[pc]
      ensures !SelfStalls(code[pc], Lagging(l)) && SafeAt(code[pc], Lagging(l))
    {
      assert pc == 0 || pc == 1 || pc == 2 || pc == 3;
    }
  }

  lemma StoreStart(e: Env, s: Sys)
    requires StoreProgram(e.code)
    ensures LagOf(Initial(e, s)) in STORE_LAGS[0] && |STORE_LAGS| == 4
  {
    hide Flush;
  }

  /** A store in between waits for the load, so the ALU instruction does not have
      to: `ld; st; add; ret #k` is always answered as the interpreter does. */
  lemma StoreBreaksTheWait(e: Env, s: Sys) returns (k: nat)
    requires Ready(e, s) && StoreProgram(e.code)
    ensures 1 <= k <= 16 && Quiet(e, s, k) && Decides(Run(e, s, k).c)
    ensures Interp(e, Flush(e, s, 0), 4) == Returned(Accepts(Run(e, s, k).c))
  {
    hide *;
    StoreTable(e.code);
    StoreEntries(e.code);
    StoreStart(e, s);
    k := FragmentAlwaysAnswers(e, s, 4, STORE_LAGS);
  }

  predicate StaleProgram(code: seq<Instr>, k: word) {
    && |code| >= 4
    && code[0] == Instr(IMM, 0, LDX, 0, 0, k)
    && code[1] == Instr(0, 3, JMP, 0, 1, 0)
    && code[2] == Instr(0, RET_IMM, RET, 0, 0, 1)
    && code[3] == Instr(0, RET_IMM, RET, 0, 0, 0)
  }

  /** `ldx #k; jeq x, jt 0, jf 1; ret #1; ret #0`: the comparison is with the
      X of before the load, so the verdict is wrong exactly when the old and
      the new X differ in being equal to A. */
  lemma StaleCompare(e: Env, s: Sys, k: word)
    requires Ready(e, s) && StaleProgram(e.code, k)
    ensures var s0 := Flush(e, s, 0);
            && Interp(e, s0, 3) == Returned(s0.A == k)
            && Quiet(e, s, 5) && Decides(Run(e, s, 5).c) && Accepts(Run(e, s, 5).c) == (s0.A == s0.X)
  {
    hide SysNext, Flush, Ready, Accepts, Rejects, Quiet, Run;
    var s0 := Flush(e, s, 0);
    FlushPc(e, s);
    StaleInterp(e, s0, k);
    StalePipeline(e, Initial(e, s), s0, k);
    ReadyFollows(e, s, 3);
  }

  lemma StalePipeline(e: Env, t: Timed, s0: Arch, k: word)
    requires StaleProgram(e.code, k) && s0.pc == 0 && t == Timed(s0, 0, 0, s0.X, s0.X)
    ensures TimedInterp(e, t, 3) == TimedVerdict(s0.A == s0.X, 4)
  {
    hide TimedInterp, Load, Alu;
    var t1 := Timed(s0.(X := k, pc := 1), 0, 2, s0.X, s0.X);
    var t2 := AtRest(t1.s.(pc := if s0.A == s0.X then 2 else 3));
    assert OneOn(e, t) == t1;
    assert OneOn(e, t1) == t2;
    TimedStep(e, t, 3);
    TimedStep(e, t1, 2);
    TimedStep(e, t2, 1);
  }

  lemma TimedStep(e: Env, t: Timed, n: nat)
    requires n > 0
    ensures var i := Fetch(e.code, t.s.pc);
            TimedInterp(e, t, n) ==
            if SelfStalls(i, t) then Deadlock(0)
            else if IsRetImm(i) then TimedVerdict(Odd(i.imm), 0)
            else Delay(TimedInterp(e, OneOn(e, t), n - 1), Cost(i, t))
  {
  }

  lemma StaleInterp(e: Env, s0: Arch, k: word)
    requires StaleProgram(e.code, k) && s0.pc == 0
    ensures Interp(e, s0, 3) == Returned(s0.A == k)
  {
    hide Interp, Load, Alu;
    var a1 := s0.(X := k, pc := 1);
    var a2 := a1.(pc := if a1.A == k then 2 else 3);
    InterpStep(e, s0, 3);
    InterpStep(e, a1, 2);
    InterpStep(e, a2, 1);
    assert Exec(e, a1) == Continue(a2);
  }

  /** RET A, RET X and the undefined return give no verdict: the pipeline goes
      on to the next instruction, where the interpreter has returned. */
  lemma RegisterReturnFallsThrough(e: Env, s: Sys, t: Timed)
    requires Rel(e, s, t) && !Stalled(s.c) && s.c.ir.cls == RET && s.c.ir.size != RET_IMM
    ensures Exec(e, t.s).Verdict?
    ensures IssuesAs(e, s, t, t.s.(pc := Wrap(t.s.pc + 1, |e.code|)))
  {
    hide Flush, ReadsEnabled, SysNext, IssuesAs, Stalled;
    IssueEdge(e, s, t);
  }
}
