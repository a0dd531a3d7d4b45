/** Where the pipelined CPU is in its program, edge by edge: what ties a verdict
    to the state in which the CPU took the packet up. */
module CpuProgress {
  import opened Isa
  import opened PipelineStages
  import opened PipelinedCpu
  import opened PipelineProof
  import opened PipelineTheorems
  import opened ForwardPrograms

  /** A program that does not begin with RET #k, which would decide a packet
      before the CPU's token is in place. */
  predicate Runnable(code: seq<Instr>) { |code| > 0 && !IsRetImm(code[0]) }

  /** What the CPU was started on: its program, packet memory and length, and its
      registers with the writes still in flight. */
  datatype Origin = Origin(env: Env, t: Timed)

  predicate Gives(r: TimedResult, verdict: bool) { r.TimedVerdict? && r.accept == verdict }

  /** The pipeline's run from this start ends in this verdict. */
  ghost predicate Judges(st: Origin, verdict: bool) {
    exists n: nat :: Gives(TimedInterp(st.env, st.t, n), verdict)
  }

  /** The interpreter's run from it does. */
  ghost predicate Interprets(st: Origin, verdict: bool) {
    exists n: nat :: Interp(st.env, st.t.s, n) == Returned(verdict)
  }

  /** A start has at most one verdict. */
  lemma JudgesOnce(st: Origin, v: bool, w: bool)
    requires Judges(st, v) && Judges(st, w)
    ensures v == w
  {
    hide TimedInterp;
    var m: nat :| Gives(TimedInterp(st.env, st.t, m), v);
    var n: nat :| Gives(TimedInterp(st.env, st.t, n), w);
    if m <= n {
      TimedSplit(st.env, st.t, m, n - m);
    } else {
      TimedSplit(st.env, st.t, n, m - n);
    }
  }

  /** How A and X can lag when instruction i is the first: by the one edge for
      which the word on the code memory's output holds it up. */
  predicate FirstLag(i: Instr, l: Lag) {
    (l.a == 0 || (l.a == 1 && ReadsA(i))) && (l.x == 0 || (l.x == 1 && ReadsX(i)))
  }

  /** A state in which the CPU can take up a packet. */
  predicate Begins(e: Env, t: Timed) { t.s.pc == 0 && Coherent(t) && FirstLag(e.code[0], LagOf(t)) }

  lemma InitialBegins(e: Env, s: Sys)
    ensures Begins(e, Initial(e, s))
  {
    hide Flush, Coherent, ReadsA, ReadsX, WritesA, WritesX;
    InitialIsCoherent(e, s);
    FlushPc(e, s);
  }

  // ------------------------------------------- programs that run sequentially

  /** The pipeline is the interpreter on this program, for every packet and from
      all registers. */
  ghost predicate Sequential(code: seq<Instr>) {
    forall st: Origin, n: nat :: st.env.code == code && Begins(st.env, st.t) ==> Agrees(st.env, st.t, n)
  }

  /** It is the interpreter's verdict when every instruction of the run issues
      with the interpreter's effect. */
  lemma AgreesInterprets(st: Origin, verdict: bool)
    requires Judges(st, verdict) && forall n: nat :: Agrees(st.env, st.t, n)
    ensures Interprets(st, verdict)
  {
    hide TimedInterp, Interp, Agrees;
    var n: nat :| Gives(TimedInterp(st.env, st.t, n), verdict);
    TimedIsInterpIff(st.env, st.t, n);
    assert Alike(TimedInterp(st.env, st.t, n), Interp(st.env, st.t.s, n));
  }

  /** Instructions that have the interpreter's effect whatever precedes them. */
  predicate Plain(i: Instr) {
    && !((i.cls == ALU || i.cls == JMP) && BSel(i)) && (i.cls == RET ==> i.size == RET_IMM)
    && (i.cls == LD ==> i.mode <= LEN) && (i.cls == LDX ==> i.mode <= MSH)
  }

  predicate AllPlain(code: seq<Instr>) { forall pc :: 0 <= pc < |code| ==> Plain(code[pc]) }

  lemma {:induction false} PlainAgrees(e: Env, t: Timed, n: nat)
    requires AllPlain(e.code) && Coherent(t)
    ensures Agrees(e, t, n)
    decreases n
  {
    hide OneOn, AtIssue, SameStep, Coherent, SelfStalls, IsRetImm;
    var i := Fetch(e.code, t.s.pc);
    assert Plain(i);
    if n > 0 && !IsRetImm(i) {
      SafeIsSame(e, t) by { assert SafeAt(i, t); }
      OneOnIsCoherent(e, t);
      PlainAgrees(e, OneOn(e, t), n - 1);
    }
  }

  lemma PlainIsSequential(code: seq<Instr>)
    requires AllPlain(code)
    ensures Sequential(code)
  {
    hide Agrees, Coherent;
    forall st: Origin, n: nat | st.env.code == code && Begins(st.env, st.t) ensures Agrees(st.env, st.t, n) {
      PlainAgrees(st.env, st.t, n);
    }
  }

  /** Every first lag is in the table's first entry. */
  ghost predicate Enters(code: seq<Instr>, lags: seq<set<Lag>>) {
    |code| > 0 && |lags| > 0 && forall l: Lag :: FirstLag(code[0], l) ==> l in lags[0]
  }

  /** A table of lags that is never stale certifies a forward program. */
  lemma CertifiedIsSequential(code: seq<Instr>, L: nat, lags: seq<set<Lag>>)
    requires PipeForward(code, L) && |lags| == L && Closed(code, lags) && Enters(code, lags)
    requires L <= |code| && NeverStale(code, lags)
    ensures Sequential(code)
  {
    hide PipeForward, Closed, NeverStale, Agrees, Coherent, FirstLag, LagOf;
    forall st: Origin, n: nat | st.env.code == code && Begins(st.env, st.t) ensures Agrees(st.env, st.t, n) {
      TableDecides(st.env, st.t, L, lags, n);
    }
  }

  // ---------------------------------------------------------------- progress

  /** `n` counts the instructions completed since the start.  Going: `u` is the
      state in which the instruction came into stage 1, `w` edges ago. */
  datatype Progress =
    | Idle
    | Going(n: nat, u: Timed, w: nat)
    | Jumping(n: nat, s: Arch)
    | Landing(n: nat, s: Arch)
    | Hung

  predicate Reaches(e: Env, t0: Timed, n: nat, u: Timed) {
    var r := TimedInterp(e, t0, n);
    r.StillRunning? && r.t == u
  }

  /** The instruction has not waited longer than it must. */
  predicate Pacing(i: Instr, u: Timed, w: nat) { w <= Wait(i, u) && (w > 0 ==> !SelfStalls(i, u)) }

  ghost predicate At(e: Env, s: Sys, t0: Timed, g: Progress) {
    match g
    case Idle => Ready(e, s)
    case Going(n, u, w) => Reaches(e, t0, n, u) && Rel(e, s, Waited(u, w)) && Pacing(s.c.ir, u, w)
    case Jumping(n, s') => Reaches(e, t0, n, AtRest(s')) && Resolving(e, s, s')
    case Landing(n, s') => Reaches(e, t0, n, AtRest(s')) && Refetch(e, s, s') && s.c.ir.cls == JMP
    case Hung => Stuck(s.c)
  }

  lemma {:induction false} WaitedOneMore(u: Timed, w: nat)
    ensures Waited(u, w + 1) == Tick(Waited(u, w))
    decreases w
  {
    if w > 0 {
      WaitedOneMore(Tick(u), w - 1);
    }
  }

  lemma WaitedWaits(i: Instr, u: Timed, w: nat)
    requires w <= Wait(i, u)
    ensures Wait(i, Waited(u, w)) == Wait(i, u) - w
  {
    hide ReadsA, ReadsX;
    WaitedKeeps(u, w);
  }

  /** One instruction more. */
  lemma ReachesNext(e: Env, t0: Timed, n: nat, u: Timed)
    requires Reaches(e, t0, n, u)
    ensures var i := Fetch(e.code, u.s.pc);
      && (!SelfStalls(i, u) && !IsRetImm(i) ==> Reaches(e, t0, n + 1, OneOn(e, u)))
      && (IsRetImm(i) ==> Gives(TimedInterp(e, t0, n + 1), Odd(i.imm)))
  {
    hide SelfStalls, OneOn, Cost;
    TimedSplit(e, t0, n, 1);
    if !SelfStalls(Fetch(e.code, u.s.pc), u) && !IsRetImm(Fetch(e.code, u.s.pc)) {
      assert TimedInterp(e, OneOn(e, u), 0) == StillRunning(OneOn(e, u), 0);
    }
    assert IsRetImm(Fetch(e.code, u.s.pc)) ==> !SelfStalls(Fetch(e.code, u.s.pc), u) by {
      ReturnsDoNotWait(Fetch(e.code, u.s.pc), u);
    }
  }

  lemma ReturnsDoNotWait(i: Instr, u: Timed)
    ensures IsRetImm(i) ==> !SelfStalls(i, u) && Wait(i, u) == 0
  {
  }

  lemma AtGoing(e: Env, s: Sys, t0: Timed, g: Progress)
    requires g.Going? && At(e, s, t0, g)
    ensures Reaches(e, t0, g.n, g.u) && Rel(e, s, Waited(g.u, g.w)) && g.w <= Wait(s.c.ir, g.u)
    ensures g.w > 0 ==> !SelfStalls(s.c.ir, g.u)
    ensures g.w == 0 ==> Waited(g.u, g.w) == g.u
    ensures s.c.ir == Fetch(e.code, g.u.s.pc) && Waited(g.u, g.w).s == g.u.s
  {
    hide Reaches, Flush, ReadsEnabled, SelfStalls, Wait;
    WaitedKeeps(g.u, g.w);
  }

  lemma GoingIsAt(e: Env, s: Sys, t0: Timed, n: nat, u: Timed, w: nat)
    requires Reaches(e, t0, n, u) && Rel(e, s, Waited(u, w)) && w <= Wait(s.c.ir, u)
    requires w > 0 ==> !SelfStalls(s.c.ir, u)
    ensures At(e, s, t0, Going(n, u, w))
  {
    hide Reaches, Rel, SelfStalls, Wait;
  }

  /** An edge of a stalled instruction. */
  lemma WaitingEdge(e: Env, s: Sys, t0: Timed, g: Progress) returns (g': Progress)
    requires g.Going? && At(e, s, t0, g) && !SelfStalls(s.c.ir, Waited(g.u, g.w)) && Stalled(s.c)
    ensures At(e, SysNext(e, s, false), t0, g') && g'.Going? && !Decides(s.c)
  {
    hide *;
    var u, w := g.u, g.w;
    var t := Waited(u, w);
    AtGoing(e, s, t0, g);
    StallIsWait(e, s, t);
    WaitedWaits(s.c.ir, u, w);
    StallEdge(e, s, t);
    WaitedOneMore(u, w);
    WaitedKeeps(u, w + 1);
    RelFetched(e, SysNext(e, s, false), Tick(t));
    g' := Going(g.n, u, w + 1);
    GoingIsAt(e, SysNext(e, s, false), t0, g.n, u, w + 1);
  }

  lemma IssuesAtAtIssue(e: Env, u: Timed, w: nat)
    requires w == Wait(Fetch(e.code, u.s.pc), u)
    ensures Waited(u, w) == AtIssue(e, u)
  {
  }

  lemma WaitedNot(u: Timed)
    ensures Waited(u, 0) == u
  {
  }

  /** What comes after an issue, jumps apart, is in stage 1 at once. */
  lemma IssuedRel(e: Env, s: Sys, u: Timed)
    requires var t := AtIssue(e, u); PipeExec(e, t).Continue? && IssuesAs(e, s, t, PipeExec(e, t).s)
    requires s.c.ir == Fetch(e.code, u.s.pc) && s.c.ir.cls != JMP && !IsRetImm(s.c.ir)
    ensures Rel(e, SysNext(e, s, false), OneOn(e, u))
  {
    hide Rel, SysNext, PipeExec, Decides, Aged, Wait, IsRetImm;
  }

  lemma JumpedTo(e: Env, u: Timed)
    requires Fetch(e.code, u.s.pc).cls == JMP && PipeExec(e, AtIssue(e, u)).Continue?
    requires !IsRetImm(Fetch(e.code, u.s.pc))
    ensures OneOn(e, u) == AtRest(PipeExec(e, AtIssue(e, u)).s)
  {
    hide PipeExec, Wait, AtRest;
  }

  lemma JumpingIsAt(e: Env, s: Sys, t0: Timed, n: nat, s': Arch)
    requires Reaches(e, t0, n, AtRest(s')) && Resolving(e, s, s')
    ensures At(e, s, t0, Jumping(n, s'))
  {
    hide Reaches, Resolving;
  }

  /** An issuing edge. */
  lemma IssuingEdge(e: Env, s: Sys, t0: Timed, g: Progress) returns (g': Progress)
    requires g.Going? && At(e, s, t0, g) && !SelfStalls(s.c.ir, Waited(g.u, g.w)) && !Stalled(s.c)
    requires !IsRetImm(s.c.ir)
    ensures At(e, SysNext(e, s, false), t0, g') && !g'.Idle?
  {
    hide *;
    var u, w, i := g.u, g.w, s.c.ir;
    var t := Waited(u, w);
    AtGoing(e, s, t0, g);
    StallIsWait(e, s, t);
    WaitedWaits(i, u, w);
    IssuesAtAtIssue(e, u, w);
    ReachesNext(e, t0, g.n, u);
    if i.cls == JMP {
      JumpEdge(e, s, t);
      JumpedTo(e, u);
      g' := Jumping(g.n + 1, PipeExec(e, t).s);
      JumpingIsAt(e, SysNext(e, s, false), t0, g.n + 1, PipeExec(e, t).s);
    } else {
      IssueEdge(e, s, t);
      IssuedRel(e, s, u);
      WaitedNot(OneOn(e, u));
      g' := Going(g.n + 1, OneOn(e, u), 0);
      GoingIsAt(e, SysNext(e, s, false), t0, g.n + 1, OneOn(e, u), 0);
    }
  }

  /** An edge without a verdict, from inside an instruction sequence. */
  lemma GoingEdge(e: Env, s: Sys, t0: Timed, g: Progress) returns (g': Progress)
    requires g.Going? && At(e, s, t0, g) && !Decides(s.c)
    ensures At(e, SysNext(e, s, false), t0, g') && !g'.Idle?
  {
    var t := Waited(g.u, g.w);
    assert !IsRetImm(s.c.ir) by { Undecided(e, s, t); }
    hide SysNext, Rel, Reaches, SelfStalls, Stalled, Decides, Waited, IsRetImm, Stuck;
    if SelfStalls(s.c.ir, t) {
      SelfStallsStuck(e, s, t);
      StuckStays(e, s);
      g' := Hung;
    } else if Stalled(s.c) {
      g' := WaitingEdge(e, s, t0, g);
    } else {
      g' := IssuingEdge(e, s, t0, g);
    }
  }

  lemma Undecided(e: Env, s: Sys, t: Timed)
    requires Rel(e, s, t) && !Decides(s.c)
    ensures !IsRetImm(s.c.ir)
  {
    hide Flush, ReadsEnabled;
  }

  /** Every edge without a verdict keeps the CPU on the path of its semantics
      from the start; from idle, the start is the state it is in now. */
  lemma ProgressEdge(e: Env, s: Sys, t0: Timed, g: Progress) returns (g': Progress)
    requires Runnable(e.code) && At(e, s, t0, g) && !Decides(s.c)
    requires g.Idle? ==> t0 == Initial(e, s)
    ensures At(e, SysNext(e, s, false), t0, g') && !g'.Idle?
    ensures g.Idle? ==> !Decides(SysNext(e, s, false).c)
  {
    hide SysNext, Flush, ReadsEnabled, Rel, Resolving, Decides, Stuck, IsRetImm, Wait, SelfStalls;
    match g
    case Idle =>
      FlushPc(e, s);
      RefetchEdge(e, s, Flush(e, s, 0));
      g' := Going(0, t0, 0);
      assert Waited(t0, 0) == t0;
      FirstIsNotReturn(e, SysNext(e, s, false), t0);
    case Going(n, u, w) =>
      g' := GoingEdge(e, s, t0, g);
    case Jumping(n, s') =>
      ResolvingJump(e, s, s');
      ResolveEdge(e, s, s');
      g' := Landing(n, s');
    case Landing(n, s') =>
      RefetchEdge(e, s, s');
      g' := Going(n, AtRest(s'), 0);
      assert Waited(AtRest(s'), 0) == AtRest(s');
    case Hung =>
      StuckStays(e, s);
      g' := Hung;
  }

  lemma FirstIsNotReturn(e: Env, s: Sys, t: Timed)
    requires Runnable(e.code) && Rel(e, s, t) && t.s.pc == 0
    ensures !Decides(s.c)
  {
    hide Flush, ReadsEnabled;
  }

  lemma IdleIsQuiet(e: Env, s: Sys)
    requires Ready(e, s)
    ensures !Decides(s.c)
  {
    hide Flush, ReadsEnabled, Stalled;
  }

  /** A verdict is the one that the start leads to, and leaves the CPU ready. */
  lemma VerdictEdge(e: Env, s: Sys, t0: Timed, g: Progress)
    requires At(e, s, t0, g) && Decides(s.c)
    ensures !g.Idle? && Judges(Origin(e, t0), Accepts(s.c))
    ensures Ready(e, SysNext(e, s, false))
  {
    hide SysNext, Flush, ReadsEnabled, Exec, TimedInterp;
    match g
    case Idle => IdleIsQuiet(e, s);
    case Jumping(_, s') => ResolveEdge(e, s, s');
    case Landing(_, s') => RefetchEdge(e, s, s');
    case Hung => StuckStays(e, s);
    case Going(n, u, w) =>
      VerdictIsInterpreted(e, s, Waited(u, w));
      VerdictMakesReady(e, s, Waited(u, w));
      ReachesVerdict(e, s, t0, g);
  }

  lemma ReachesVerdict(e: Env, s: Sys, t0: Timed, g: Progress)
    requires g.Going? && At(e, s, t0, g) && IsRetImm(s.c.ir)
    ensures Gives(TimedInterp(e, t0, g.n + 1), Odd(s.c.ir.imm))
  {
    hide Rel, TimedInterp, Reaches, IsRetImm, Wait, SelfStalls;
    RelFetched(e, s, Waited(g.u, g.w));
    WaitedKeeps(g.u, g.w);
    ReturnsDoNotWait(s.c.ir, g.u);
    ReachesNext(e, t0, g.n, g.u);
  }
}
