/** From a loaded program to a running CPU: what the code memory's output shows
    when loading ends, and exactly which programs the CPU then starts. */
module StartUp {
  import opened PacketRam
  import opened Isa
  import opened PipelineStages
  import opened PipelineDatapath
  import opened PipelinedCpu
  import opened PipelineProof
  import opened PipelineTheorems
  import opened HostText
  import opened ProgramLoad

  // ---------------------------------------------- the code memory's output

  /** The output register while the filter is stopped: the memory is clocked by
      each write, and the CPU, in reset, holds the read address at 0. */
  function OutNext(l: Loader, out: CodeWord, c: BusCycle): CodeWord
    requires l.addr < |l.code|
  {
    if CodeWrEn(Shown(l, c), LowStrobe(c), HighStrobe(c)) then l.code[0] else out
  }

  function OutRun(l: Loader, out: CodeWord, cycles: seq<BusCycle>): CodeWord
    requires l.addr < |l.code|
  {
    if cycles == [] then out
    else
      var k := |cycles| - 1;
      OutNext(LoaderRun(l, cycles[..k]), OutRun(l, out, cycles[..k]), cycles[k])
  }

  /** The same for the writes alone. */
  function OutApply(l: Loader, out: CodeWord, ws: seq<RegWrite>): CodeWord
    requires Settled(l)
  {
    if ws == [] then out
    else
      var k := |ws| - 1;
      OutNext(Apply(l, ws[..k]), OutApply(l, out, ws[..k]), Write(ws[k]))
  }

  lemma {:induction false} OutOnlyWritesMatter(l: Loader, out: CodeWord, cycles: seq<BusCycle>)
    requires Settled(l)
    ensures OutRun(l, out, cycles) == OutApply(l, out, WritesIn(cycles))
    decreases |cycles|
  {
    if cycles != [] {
      var k := |cycles| - 1;
      OutOnlyWritesMatter(l, out, cycles[..k]);
      OnlyWritesMatter(l, cycles[..k]);
      var ws := WritesIn(cycles[..k]);
      match cycles[k]
      case NoWrite => assert ws + [] == ws;
      case Write(w) => OutOneMore(l, out, ws, w);
    }
  }

  lemma OutOneMore(l: Loader, out: CodeWord, ws: seq<RegWrite>, w: RegWrite)
    requires Settled(l)
    ensures OutApply(l, out, ws + [w]) == OutNext(Apply(l, ws), OutApply(l, out, ws), Write(w))
  {
    assert (ws + [w])[..|ws|] == ws;
  }

  /** A control write does not clock the memory, nor does the first half of an
      instruction; the second half does. */
  lemma WhatClocks(l: Loader, out: CodeWord, i: Insn)
    requires Settled(l)
    ensures OutNext(l, out, Write(RegWrite(CONTROL, 0))) == out && OutNext(l, out, Write(RegWrite(CONTROL, 1))) == out
    ensures !l.start && !l.lowValid ==>
            var h := Write(RegWrite(INST_HIGH, High(i)));
            OutNext(l, out, h) == out && OutNext(LoaderNext(l, h), out, Write(RegWrite(INST_LOW, i.k))) == l.code[0]
  {
    hide High;
  }

  /** From the second instruction on the output shows instruction 0. */
  lemma {:induction false} OutputWhileLoading(l: Loader, out: CodeWord, program: seq<Insn>)
    requires Settled(l) && l.addr == 0 && !l.start && !l.lowValid && |program| <= |l.code|
    ensures OutApply(l, out, LoadWrites(program)) ==
            if |program| >= 2 then Encode(program[0]) else if |program| == 1 then l.code[0] else out
    decreases |program|
  {
    hide High, LoaderNext, Encode, OutNext, OutApply, Apply, Loaded;
    if program == [] {
      assert OutApply(l, out, []) == out by { NothingWritten(l, out); }
    } else {
      var k := |program| - 1;
      var x := program[k];
      OutputWhileLoading(l, out, program[..k]);
      LoadsInSequence(l, program[..k]);
      var ws := LoadWrites(program[..k]);
      var h, w := RegWrite(INST_HIGH, High(x)), RegWrite(INST_LOW, x.k);
      WhatClocks(Apply(l, ws), OutApply(l, out, ws), x);
      OutOneMore(l, out, ws, h);
      OutOneMore(l, out, ws + [h], w);
      ApplyOneMore(l, ws, h);
      assert ws + [h, w] == ws + [h] + [w];
      if k == 0 {
        assert program[..k] == [];
        assert Loaded(l.code, 0, []) == l.code by { NothingLoaded(l.code); }
      } else {
        LoadedHas(l.code, 0, program[..k], 0);
      }
    }
  }

  lemma NothingWritten(l: Loader, out: CodeWord)
    requires Settled(l)
    ensures OutApply(l, out, []) == out
  {
  }

  lemma NothingLoaded(code: seq<CodeWord>)
    requires |code| > 0
    ensures Loaded(code, 0, []) == code
  {
  }

  /** When a program of at least two instructions has been loaded the code
      memory shows its first. */
  lemma OutputAfterLoading(l: Loader, out: CodeWord, program: seq<Insn>)
    requires Settled(l) && l.addr == 0 && !l.lowValid && 2 <= |program| <= |l.code|
    ensures OutApply(l, out, ProgramWrites(program)) == Encode(program[0])
  {
    hide Encode, OutNext, OutApply, Apply, LoaderNext, LoadWrites;
    var stop, go := RegWrite(CONTROL, 0), RegWrite(CONTROL, 1);
    var ws := LoadWrites(program);
    var l1 := l.(start := false);
    AppliedStop(l);
    OutAfter(l, out, [stop], ws);
    OutputWhileLoading(l1, OutApply(l, out, [stop]), program);
    OutOneMore(l, out, [stop] + ws, go);
    WhatClocks(Apply(l, [stop] + ws), OutApply(l, out, [stop] + ws), program[0]);
    assert [stop] + ws + [go] == ProgramWrites(program);
  }

  lemma {:induction false} OutAfter(l: Loader, out: CodeWord, a: seq<RegWrite>, b: seq<RegWrite>)
    requires Settled(l)
    ensures OutApply(l, out, a + b) == OutApply(Apply(l, a), OutApply(l, out, a), b)
    decreases |b|
  {
    hide LoaderNext, OutNext;
    if b == [] {
      assert a + b == a;
    } else {
      var k := |b| - 1;
      OutAfter(l, out, a, b[..k]);
      ApplyAfter(l, a, b[..k]);
      assert (a + b)[..|a + b| - 1] == a + b[..k];
    }
  }

  // ------------------------------------------------------- starting the CPU

  /** Three cycles without a packet. */
  function Held(e: Env, s: Sys): Sys { SysNext(e, SysNext(e, SysNext(e, s, true), true), true) }

  /** An instruction that depends on itself keeps stage 1 stalled by its own
      enables although it was never valid, so nothing is ever fetched. */
  predicate NeverFetches(c: Cpu) {
    && !c.valid0 && SelfReader(c.ir) && !c.s2.pcEn
    && c.s2.aEn == WritesA(c.ir) && c.s2.xEn == WritesX(c.ir)
  }

  lemma NeverFetchesStays(e: Env, s: Sys, hold: bool)
    requires NeverFetches(s.c)
    ensures NeverFetches(SysNext(e, s, hold).c) && !Decides(s.c)
  {
    hide DatapathNext;
  }

  lemma {:induction false} NeverFetchesForever(e: Env, s: Sys, n: nat)
    requires NeverFetches(s.c)
    ensures Quiet(e, s, n)
    decreases n
  {
    hide SysNext, NeverFetches, Decides;
    NeverFetchesStays(e, s, false);
    if n > 0 {
      NeverFetchesForever(e, SysNext(e, s, false), n - 1);
    }
  }

  lemma HeldSelfReader(e: Env, s: Sys)
    requires SelfReader(s.c.ir)
    ensures NeverFetches(Held(e, s).c)
  {
    hide SysNext, ReadsA, ReadsX, WritesA, WritesX, Compute2Next;
    var s1 := SysNext(e, s, true);
    var s2 := SysNext(e, s1, true);
    ResetEdge(e, s);
    ResetEdge(e, s1);
    ResetEdge(e, s2);
    AfterBubble(s1.c);
    AfterBubble(s2.c);
  }

  lemma AfterBubble(c: Cpu)
    requires !c.valid0
    ensures var s2 := Compute2Next(c.ir, Issues(c)); !s2.pcEn && s2.aEn == WritesA(c.ir) && s2.xEn == WritesX(c.ir)
  {
  }

  /** With instruction 0 on the code memory's output, three cycles of waiting make
      the CPU ready iff instruction 0 does not depend on itself; otherwise it never
      gives a verdict. */
  lemma StartsIff(e: Env, s: Sys)
    requires s.c.ir == Fetch(e.code, 0)
    ensures Ready(e, Held(e, s)) <==> !SelfReader(e.code[0])
    ensures SelfReader(e.code[0]) ==> forall n: nat :: Quiet(e, Held(e, s), n)
  {
    hide SysNext, Ready, NeverFetches;
    ResetMakesReady(e, s);
    if SelfReader(e.code[0]) {
      HeldSelfReader(e, s);
      forall n: nat ensures Quiet(e, Held(e, s), n) {
        NeverFetchesForever(e, Held(e, s), n);
      }
    }
  }

  // ------------------------------------------------------ from host to CPU

  function CpuCode(l: Loader): (r: seq<Instr>)
    ensures |r| == |l.code|
  {
    seq(|l.code|, i requires 0 <= i < |l.code| => Decode(l.code[i]))
  }

  /** Main result.  Send the text of a program of at least two instructions, cut
      into buffers in any way: the CPU's program is that program, and after three
      cycles of waiting it is ready to run it iff its first instruction does not
      depend on itself. */
  lemma LoadedProgramStarts(l: Loader, out: CodeWord, program: seq<Insn>, buffers: seq<seq<byte>>,
          cycles: seq<BusCycle>, e: Env, s: Sys)
    requires Settled(l) && l.addr == 0 && !l.lowValid && 2 <= |program| <= |l.code|
    requires Joined(buffers) == ProgramText(program)
    requires WritesIn(cycles) == ReceiveAll(WAITING, buffers).1
    requires e.code == CpuCode(LoaderRun(l, cycles)) && s.c.ir == Decode(OutRun(l, out, cycles))
    ensures forall i :: 0 <= i < |program| ==> e.code[i] == AsInstr(program[i])
    ensures Ready(e, Held(e, s)) <==> !SelfReader(AsInstr(program[0]))
    ensures SelfReader(AsInstr(program[0])) ==> forall n: nat :: Quiet(e, Held(e, s), n)
  {
    hide Decode, AsInstr, Encode, ProgramWrites, ProgramText, LoaderRun, Apply, WritesIn, ReceiveAll, Joined, OutRun,
         OutApply, Held, SelfReader, Ready, Quiet;
    ProgramRoundTrip(l, program, buffers, cycles);
    ProgramTextIsRead(program, buffers);
    OutOnlyWritesMatter(l, out, cycles);
    OutputAfterLoading(l, out, program);
    DecodeEncode(program[0]);
    StartsIff(e, s);
  }
}
