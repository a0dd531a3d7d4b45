/** The redesign: the pipelined CPU against the machine it replaced. */
module CpuEquivalence {
  import opened Isa
  import opened PipelinedCpu
  import opened PipelineProof
  import opened PipelineTheorems
  import opened ForwardPrograms
  import opened OldCpu
  import opened OldCpuProof

  /** On a forward program, started with the same A, X and scratch memory on the
      same packet: the old machine gives a verdict unless it meets an undefined
      load; the pipeline deadlocks, or gives a verdict that is the old machine's
      iff it is the interpreter's, which it is whenever every instruction issues
      with the interpreter's effect. */
  lemma RedesignKeepsVerdict(pess: bool, e: Env, s: Sys, c: Old, L: nat)
    requires Ready(e, s) && PipeForward(e.code, L)
    requires c.state == Reset && Arch(c.A, c.X, c.scratch, 0) == Flush(e, s, 0)
    ensures L <= |e.code|
    ensures var s0 := Flush(e, s, 0);
            var r, q := TimedInterp(e, Initial(e, s), L), Interp(e, s0, L);
            var oldCpu := OldRun(pess, e, c, TotalCycles(pess, e, s0, L) + 2);
            && (r.TimedVerdict? || r.Deadlock?)
            && ((forall pc :: 0 <= pc < L ==> DefinedLoad(e.code[pc])) ==> OldDecides(oldCpu))
            && (r.TimedVerdict? ==>
                var newCpu := Run(e, s, r.edges + 1).c;
                && (Accepts(newCpu) == OldAccepts(oldCpu) && Rejects(newCpu) == OldRejects(oldCpu) <==>
                    q == Returned(r.accept))
                && (Agrees(e, Initial(e, s), L) ==> q == Returned(r.accept)))
            && (r.Deadlock? ==> forall m: nat :: !Decides(Run(e, s, m).c))
  {
    hide *;
    var s0 := Flush(e, s, 0);
    FlushPc(e, s);
    ForwardSize(e.code, L);
    ForwardOnBoth(e.code, L);
    ForwardReturns(e, s0, L, L);
    PipelineDecides(e, s, L);
    OldVerdict(pess, e, c, s0, L);
    if TimedInterp(e, Initial(e, s), L).Deadlock? {
      forall m: nat ensures !Decides(Run(e, s, m).c) {
        assert Quiet(e, s, m + 1);
        QuietMeans(e, s, m + 1, m);
      }
    }
  }

  /** The old machine from reset: the interpreter's verdict, two edges after the
      last instruction was fetched. */
  lemma OldVerdict(pess: bool, e: Env, c: Old, s0: Arch, L: nat)
    requires c.state == Reset && Arch(c.A, c.X, c.scratch, 0) == s0
    ensures var q, oldCpu := Interp(e, s0, L), OldRun(pess, e, c, TotalCycles(pess, e, s0, L) + 2);
      && (q.Returned? ==> OldDecides(oldCpu) && OldAccepts(oldCpu) == q.accept && OldRejects(oldCpu) == !q.accept)
      && (q.Faulted? ==> !OldAccepts(oldCpu) && !OldRejects(oldCpu))
  {
    hide OldNext, OldAccepts, OldRejects, OldRel, Interp;
    ResetStarts(pess, e, c);
    OldCpuFollows(pess, e, OldNext(pess, e, c, false, true), s0, L);
  }

  lemma ForwardOnBoth(code: seq<Instr>, L: nat)
    requires PipeForward(code, L)
    ensures Forward(code, L)
  {
    hide Inside;
  }
}
