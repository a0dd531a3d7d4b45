/** What must happen: every packet is judged, and every accepted packet leaves,
    within bounds that hold from any cycle on. */
module Liveness {
  import opened PacketRam
  import opened Isa
  import opened PipelinedCpu
  import opened PipelineProof
  import opened PipelineTheorems
  import opened ForwardPrograms
  import opened CpuProgress
  import opened JobQueues
  import opened P3Control
  import opened PacketMem
  import opened Snooper
  import opened Forwarder
  import opened VirtualMachine
  import opened EndToEnd
  import opened FilterCore

  /** A forward program of length L that a table of lags certifies to answer
      every packet. */
  ghost predicate Answers(code: seq<Instr>, L: nat, lags: seq<set<Lag>>) {
    && PipeForward(code, L) && |lags| == L <= |code| && Closed(code, lags) && NeverWaitsForItself(code, lags)
    && Enters(code, lags)
  }

  /** Without ALU instructions and without LDX [X+k] every forward program is. */
  lemma NoSelfReaderAnswers(code: seq<Instr>, L: nat)
    requires PipeForward(code, L) && forall pc :: 0 <= pc < L ==> !SelfReader(code[pc])
    ensures Answers(code, L, seq(L, pc => ANY_LAG))
  {
    hide PipeForward, Closed, NeverWaitsForItself, SelfReader;
    ForwardSize(code, L);
    AnyLagIsClosed(code, L);
    forall l: Lag | FirstLag(code[0], l) ensures l in ANY_LAG {
      AnyLag(l);
    }
  }

  /** The most cycles such a program takes over one packet. */
  function Patience(L: nat): nat { if L == 0 then 0 else 5 * (L - 1) + 1 }

  // ------------------------------------------------------------------- traces

  ghost predicate Sound(c: Setup, a: Log) { exists g: Progress :: CoreInv(c, a.k, a.h, a.l, g) }

  /** One cycle of a machine, up to how an idle forwarder and the snooper's
      registers look. */
  ghost predicate Step(c: Setup, o: Outside, a: Log, b: Log) {
    && Formed(c, a.k.vm.mem) && GoodOutside(c, a.k, a.h, o)
    && b.h == HistNext(a.h, a.k.vm, InputOf(c, a.k, o)) && b.l == LogNext(c, a.l, a.k)
    && var k' := CoreNext(c, a.k, o);
       b.k.cpu == k'.cpu && b.k.vm.mem == k'.vm.mem && b.k.vm.fwd.tvalid == k'.vm.fwd.tvalid
  }

  ghost predicate Trace(c: Setup, outs: seq<Outside>, tr: seq<Log>) {
    && |tr| == |outs| + 1 && tr[0].l.idle
    && (forall j :: 0 <= j < |tr| ==> Sound(c, tr[j]))
    && (forall j :: 0 <= j < |outs| ==> Step(c, outs[j], tr[j], tr[j + 1]))
  }

  /** Runs of the machine are such traces. */
  lemma RunIsTrace(c: Setup, outs: seq<Outside>, run: seq<Log>)
    requires Runnable(c.code) && CoreRun(c, outs, run)
    ensures Trace(c, outs, run)
  {
    hide CoreInv, Runnable, CoreCycle, Step, Formed, Start, Ready, OriginOf;
    assert |run| == |outs| + 1;
    forall j | 0 <= j < |run| ensures Sound(c, run[j]) {
      var g := CoreInvariant(c, outs, run, j);
    }
    forall j | 0 <= j < |outs| ensures Step(c, outs[j], run[j], run[j + 1]) {
      assert CoreCycle(c, outs[j], run[j], run[j + 1]);
      CycleIsStep(c, outs[j], run[j], run[j + 1]);
    }
  }

  lemma CycleIsStep(c: Setup, o: Outside, a: Log, b: Log)
    requires CoreCycle(c, o, a, b)
    ensures Step(c, o, a, b)
  {
    hide Formed, GoodOutside, CoreNext, HistNext, LogNext;
  }

  lemma SomeInv(c: Setup, a: Log) returns (g: Progress)
    requires Sound(c, a)
    ensures CoreInv(c, a.k, a.h, a.l, g)
  {
    hide CoreInv;
    g :| CoreInv(c, a.k, a.h, a.l, g);
  }

  lemma CoreInvMeans(c: Setup, k: Core, h: Hist, l: CpuLog, g: Progress)
    requires CoreInv(c, k, h, l, g)
    ensures Formed(c, k.vm.mem) && Conserved(k.vm.mem.p3) && Inv(k.vm, h, c.cap) && CpuTimely(k, h, l.idle)
    ensures At(EnvOf(c, k.vm.mem), SysOf(k), l.origin.t, g) && Logged(c, k, l, g)
  {
    hide At, Formed, Conserved, Shaped, Whole, SnHolds, Queued, FwdHolds, Timely, Books, AllJudged, CpuTimely, EnvOf,
         Logged;
  }

  lemma StepMeans(c: Setup, o: Outside, a: Log, b: Log)
    requires Step(c, o, a, b)
    ensures Formed(c, a.k.vm.mem) && GoodOutside(c, a.k, a.h, o)
    ensures b.h == HistNext(a.h, a.k.vm, InputOf(c, a.k, o)) && b.l == LogNext(c, a.l, a.k)
    ensures var k' := CoreNext(c, a.k, o);
            b.k.cpu == k'.cpu && b.k.vm.mem == k'.vm.mem && b.k.vm.fwd.tvalid == k'.vm.fwd.tvalid
  {
    hide Formed, GoodOutside, CoreNext, HistNext, LogNext;
  }

  lemma FormedSizes(c: Setup, m: Mem)
    requires Formed(c, m)
    ensures c.W > 0 && c.cap > 0
  {
  }

  lemma QuietPulses(c: Setup, k: Core, o: Outside)
    requires c.W > 0 && !Decides(k.cpu)
    ensures var i := PulsesOf(k.vm, InputOf(c, k, o)); !i.acc && !i.rej
  {
    hide Accepts, Rejects;
  }

  lemma SysDepends(k: Core, k': Core)
    requires k.cpu == k'.cpu && k.vm.mem == k'.vm.mem
    ensures SysOf(k) == SysOf(k') && HasPacket(k) == HasPacket(k') && SysOf(k).c == k.cpu
  {
  }

  /** One cycle with a packet and without a verdict is one edge of the closed
      system of CPU and buffer; the buffer stays. */
  lemma StepCloses(c: Setup, o: Outside, a: Log, b: Log)
    requires Sound(c, a) && Sound(c, b) && Step(c, o, a, b) && HasPacket(a.k) && !Decides(a.k.cpu)
    ensures Formed(c, a.k.vm.mem) && Formed(c, b.k.vm.mem) && HasPacket(b.k)
    ensures SysOf(b.k) == SysNext(EnvOf(c, a.k.vm.mem), SysOf(a.k), false)
    ensures EnvOf(c, b.k.vm.mem) == EnvOf(c, a.k.vm.mem)
  {
    hide *;
    var g := SomeInv(c, a);
    var g' := SomeInv(c, b);
    CoreInvMeans(c, a.k, a.h, a.l, g);
    CoreInvMeans(c, b.k, b.h, b.l, g');
    StepMeans(c, o, a, b);
    var k, k' := a.k, CoreNext(c, a.k, o);
    CpuIsDisciplined(c, k, a.h, o, a.l.idle);
    FormedSizes(c, k.vm.mem);
    CycleIsDisciplined(k.vm, a.h, InputOf(c, k, o), c.cap);
    SysDepends(b.k, k');
    HasPacketMeans(k);
    HasPacketMeans(b.k);
    ClosedEdge(c, k, o);
    CoreNextParts(c, k, o);
    QuietPulses(c, k, o);
    HeadPersists(k.vm.mem.p3, PulsesOf(k.vm, InputOf(c, k, o)));
  }

  lemma HasPacketMeans(k: Core)
    ensures HasPacket(k) <==> Head(k.vm.mem.p3.cpu) != 0
  {
  }

  // ---------------------------------------------------------------- judgement

  lemma TraceMeans(c: Setup, outs: seq<Outside>, tr: seq<Log>, j: nat)
    requires Trace(c, outs, tr) && j <= |outs|
    ensures |tr| == |outs| + 1 && tr[0].l.idle && Sound(c, tr[j])
    ensures j < |outs| ==> Sound(c, tr[j + 1]) && Step(c, outs[j], tr[j], tr[j + 1])
  {
    hide Sound, Step;
  }

  lemma TraceLength(c: Setup, outs: seq<Outside>, tr: seq<Log>)
    requires Trace(c, outs, tr)
    ensures |tr| == |outs| + 1
  {
  }

  lemma SoundMeans(c: Setup, a: Log)
    requires Sound(c, a)
    ensures Formed(c, a.k.vm.mem)
    ensures a.l.idle ==> Ready(EnvOf(c, a.k.vm.mem), SysOf(a.k)) && !Decides(a.k.cpu)
    ensures !a.l.idle ==> HasPacket(a.k)
  {
    var g := SomeInv(c, a);
    CoreInvMeans(c, a.k, a.h, a.l, g);
    hide CoreInv, Formed, Inv, Ready, EnvOf;
    if a.l.idle {
      IdleIsQuiet(EnvOf(c, a.k.vm.mem), SysOf(a.k));
    }
  }

  /** A busy CPU had the packet in the cycle before. */
  lemma BusyBefore(c: Setup, o: Outside, a: Log, b: Log)
    requires Sound(c, a) && Step(c, o, a, b) && !b.l.idle
    ensures HasPacket(a.k) && !Decides(a.k.cpu)
  {
    hide CoreInv, GoodOutside, CoreNext, HistNext, Decides, HasPacket;
    SoundMeans(c, a);
  }

  /** The cycle in which the CPU took up the packet it has. */
  lemma {:induction false} TakenUp(c: Setup, outs: seq<Outside>, tr: seq<Log>, j: nat) returns (i: nat)
    requires Trace(c, outs, tr) && j < |tr| && HasPacket(tr[j].k)
    ensures i <= j && tr[i].l.idle && HasPacket(tr[i].k)
    ensures forall m :: i <= m < j ==> !Decides(tr[m].k.cpu)
    decreases j
  {
    hide Sound, Step, HasPacket, Trace, Decides;
    TraceLength(c, outs, tr);
    TraceMeans(c, outs, tr, j);
    if tr[j].l.idle {
      i := j;
    } else {
      TraceMeans(c, outs, tr, j - 1);
      BusyBefore(c, outs[j - 1], tr[j - 1], tr[j]);
      i := TakenUp(c, outs, tr, j - 1);
    }
  }

  /** As long as the closed system gives no verdict the machine follows it. */
  lemma {:induction false} TraceFollows(c: Setup, outs: seq<Outside>, tr: seq<Log>, j: nat, n: nat)
    requires Trace(c, outs, tr) && j + n < |tr| && HasPacket(tr[j].k) && Formed(c, tr[j].k.vm.mem)
    requires Quiet(EnvOf(c, tr[j].k.vm.mem), SysOf(tr[j].k), n)
    ensures SysOf(tr[j + n].k) == Run(EnvOf(c, tr[j].k.vm.mem), SysOf(tr[j].k), n)
    decreases n
  {
    hide Formed, Trace, HasPacket, EnvOf, SysOf, Decides, SysNext, Sound, Step;
    TraceLength(c, outs, tr);
    if n > 0 {
      TraceMeans(c, outs, tr, j);
      SysDepends(tr[j].k, tr[j].k);
      StepCloses(c, outs[j], tr[j], tr[j + 1]);
      TraceFollows(c, outs, tr, j + 1, n - 1);
    }
  }

  lemma AnswersMeans(e: Env, s: Sys, L: nat, lags: seq<set<Lag>>)
    requires Answers(e.code, L, lags)
    ensures PipeForward(e.code, L) && |lags| == L <= |e.code| && L > 0 && Closed(e.code, lags)
    ensures NeverWaitsForItself(e.code, lags) && LagOf(Initial(e, s)) in lags[0]
  {
    hide PipeForward, Closed, NeverWaitsForItself, Initial, FirstLag, Coherent;
    InitialBegins(e, s);
  }

  /** From any cycle in which the CPU has a packet, a program that answers gives
      its verdict within its patience. */
  lemma HeadIsJudged(c: Setup, outs: seq<Outside>, tr: seq<Log>, j: nat, L: nat, lags: seq<set<Lag>>) returns (m: nat)
    requires Trace(c, outs, tr) && j + Patience(L) < |tr| && HasPacket(tr[j].k) && Answers(c.code, L, lags)
    ensures j <= m <= j + Patience(L) && Decides(tr[m].k.cpu)
    ensures forall q :: j <= q < m ==> !Decides(tr[q].k.cpu)
  {
    hide *;
    var i := TakenUp(c, outs, tr, j);
    TraceLength(c, outs, tr);
    TraceMeans(c, outs, tr, i);
    SoundMeans(c, tr[i]);
    var e, s := EnvOf(c, tr[i].k.vm.mem), SysOf(tr[i].k);
    EnvShape(c, tr[i].k.vm.mem);
    AnswersMeans(e, s, L, lags);
    var n := FragmentAlwaysAnswers(e, s, L, lags);
    PatienceMeans(L);
    TraceFollows(c, outs, tr, i, n);
    m := i + n;
    SysDepends(tr[m].k, tr[m].k);
    forall q | i <= q < m ensures !Decides(tr[q].k.cpu) {
      QuietPrefix(e, s, q - i, n);
      TraceFollows(c, outs, tr, i, q - i);
      QuietMeans(e, s, n, q - i);
      SysDepends(tr[q].k, tr[q].k);
    }
  }

  lemma PatienceMeans(L: nat)
    ensures L > 0 ==> Patience(L) == 5 * (L - 1) + 1
  {
  }

  lemma QuietPrefix(e: Env, s: Sys, m: nat, n: nat)
    requires Quiet(e, s, n) && m <= n
    ensures Quiet(e, s, m)
  {
    hide SysNext, Decides, Run, Quiet;
    RunSplit(e, s, m, n - m);
  }

  // ------------------------------------------------------- all are judged

  /** What one cycle does to the books. */
  lemma BooksOverStep(c: Setup, o: Outside, a: Log, b: Log)
    requires Sound(c, a) && Step(c, o, a, b)
    ensures a.h.watch.captured == a.h.judged + a.h.cpuQ && (a.h.cpuQ != [] <==> HasPacket(a.k))
    ensures a.h.watch.captured <= b.h.watch.captured && a.h.judged <= b.h.judged && a.h.verdicts <= b.h.verdicts
    ensures !Transfers(o.bus) ==> b.h.watch.captured == a.h.watch.captured
    ensures Decides(a.k.cpu) ==> |b.h.judged| == |a.h.judged| + 1
    ensures |a.h.cpuQ| + |a.h.fwdQ| <= 3
  {
    hide *;
    var g := SomeInv(c, a);
    CoreInvMeans(c, a.k, a.h, a.l, g);
    StepMeans(c, o, a, b);
    FormedSizes(c, a.k.vm.mem);
    CpuIsDisciplined(c, a.k, a.h, o, a.l.idle);
    CycleIsDisciplined(a.k.vm, a.h, InputOf(c, a.k, o), c.cap);
    BooksMean(a.k, a.h, c.cap);
    ConservedSizes(a.k.vm.mem.p3);
    BooksGrow(c, a.k, a.h, o);
  }

  lemma BooksMean(k: Core, h: Hist, cap: nat)
    requires Inv(k.vm, h, cap)
    ensures h.watch.captured == h.judged + h.cpuQ && (h.cpuQ != [] <==> HasPacket(k))
    ensures |h.cpuQ| == |Contents(k.vm.mem.p3.cpu)| && |h.fwdQ| == |Contents(k.vm.mem.p3.fwd)|
  {
    HeadIsOldest(k.vm.mem.p3.cpu);
    hide Conserved, Shaped, Whole, SnHolds, FwdHolds, Timely, Stored, Contents, Head;
  }

  lemma BooksGrow(c: Setup, k: Core, h: Hist, o: Outside)
    requires c.W > 0
    requires var i := InputOf(c, k, o); i.acc || i.rej ==> h.cpuQ != []
    ensures var h' := HistNext(h, k.vm, InputOf(c, k, o));
      && h.watch.captured <= h'.watch.captured && h.judged <= h'.judged && h.verdicts <= h'.verdicts
      && (!Transfers(o.bus) ==> h'.watch.captured == h.watch.captured)
      && (Decides(k.cpu) ==> |h'.judged| == |h.judged| + 1)
  {
    DecidesMeans(k.cpu);
    hide Accepts, Rejects, Decides, FwdDone, TData, DataTo, Head;
  }

  /** Nothing moves on the bus from cycle j up to z. */
  predicate Silent(outs: seq<Outside>, j: nat, z: nat) {
    forall q :: j <= q < z && q < |outs| ==> !Transfers(outs[q].bus)
  }

  /** The books only grow, and what is captured only with the bus. */
  lemma {:induction false} BooksOverTrace(c: Setup, outs: seq<Outside>, tr: seq<Log>, j: nat, n: nat)
    requires Trace(c, outs, tr) && j + n < |tr|
    ensures tr[j].h.watch.captured <= tr[j + n].h.watch.captured && tr[j].h.judged <= tr[j + n].h.judged
    ensures tr[j].h.verdicts <= tr[j + n].h.verdicts
    ensures Silent(outs, j, j + n) ==> tr[j + n].h.watch.captured == tr[j].h.watch.captured
    decreases n
  {
    hide Trace, Sound, Step, Decides, HasPacket;
    if n > 0 {
      TraceLength(c, outs, tr);
      TraceMeans(c, outs, tr, j);
      BooksOverStep(c, outs[j], tr[j], tr[j + 1]);
      BooksOverTrace(c, outs, tr, j + 1, n - 1);
    }
  }

  /** n times p. */
  function Lapse(n: nat, p: nat): nat { if n == 0 then 0 else p + Lapse(n - 1, p) }

  /** The first K captured packets are judged n times p cycles later, when at
      most n of them are still waiting and p is long enough for one. */
  lemma {:induction false} JudgedInTime(c: Setup, outs: seq<Outside>, tr: seq<Log>, j: nat, L: nat,
          lags: seq<set<Lag>>, K: nat, n: nat, p: nat)
    requires Trace(c, outs, tr) && Answers(c.code, L, lags) && p == Patience(L) + 1 && j + Lapse(n, p) < |tr|
    requires K <= |tr[j].h.watch.captured| && K <= |tr[j].h.judged| + n
    ensures |tr[j + Lapse(n, p)].h.judged| >= K
    decreases n
  {
    hide Trace, Answers, Patience;
    TraceLength(c, outs, tr);
    if n > 0 {
      BooksOverTrace(c, outs, tr, j, p);
      if |tr[j].h.judged| < K {
        OneMoreJudged(c, outs, tr, j, L, lags);
      }
      JudgedInTime(c, outs, tr, j + p, L, lags, K, n - 1, p);
    }
  }

  lemma OneMoreJudged(c: Setup, outs: seq<Outside>, tr: seq<Log>, j: nat, L: nat, lags: seq<set<Lag>>)
    requires Trace(c, outs, tr) && Answers(c.code, L, lags) && j + Patience(L) + 1 < |tr|
    requires |tr[j].h.judged| < |tr[j].h.watch.captured|
    ensures |tr[j + Patience(L) + 1].h.judged| > |tr[j].h.judged|
  {
    hide *;
    TraceLength(c, outs, tr);
    WaitsForCpu(c, outs, tr, j);
    var m := HeadIsJudged(c, outs, tr, j, L, lags);
    TraceMeans(c, outs, tr, m);
    BooksOverStep(c, outs[m], tr[m], tr[m + 1]);
    BooksOverTrace(c, outs, tr, j, m - j);
    BooksOverTrace(c, outs, tr, m + 1, j + Patience(L) - m);
  }

  lemma WaitsForCpu(c: Setup, outs: seq<Outside>, tr: seq<Log>, j: nat)
    requires Trace(c, outs, tr) && j < |outs| && |tr| == |outs| + 1
    requires |tr[j].h.judged| < |tr[j].h.watch.captured|
    ensures HasPacket(tr[j].k)
  {
    hide Trace, Sound, Step, HasPacket, Decides;
    TraceMeans(c, outs, tr, j);
    BooksOverStep(c, outs[j], tr[j], tr[j + 1]);
  }

  /** Main result.  Whatever happens on the streams, every packet captured by
      some cycle is judged within three times the program's patience. */
  lemma EveryPacketIsJudged(c: Setup, outs: seq<Outside>, tr: seq<Log>, j: nat, L: nat, lags: seq<set<Lag>>)
    requires Trace(c, outs, tr) && Answers(c.code, L, lags) && j + 3 * (Patience(L) + 1) < |tr|
    ensures tr[j].h.watch.captured <= tr[j + 3 * (Patience(L) + 1)].h.judged
  {
    hide Trace, Answers, Sound, Step, Decides, HasPacket, Patience;
    TraceLength(c, outs, tr);
    TraceMeans(c, outs, tr, j);
    BooksOverStep(c, outs[j], tr[j], tr[j + 1]);
    var z := j + 3 * (Patience(L) + 1);
    var K := |tr[j].h.watch.captured|;
    var p := Patience(L) + 1;
    assert Lapse(3, p) == p + Lapse(2, p) == p + p + Lapse(1, p) == 3 * p;
    JudgedInTime(c, outs, tr, j, L, lags, K, 3, p);
    BooksOverTrace(c, outs, tr, j, z - j);
    JudgedIsCaptured(c, outs, tr, z);
    PrefixesNest(tr[j].h.watch.captured, tr[z].h.judged, tr[z].h.watch.captured);
  }

  lemma JudgedIsCaptured(c: Setup, outs: seq<Outside>, tr: seq<Log>, j: nat)
    requires Trace(c, outs, tr) && j < |tr|
    ensures tr[j].h.judged <= tr[j].h.watch.captured
  {
    hide Trace, CoreInv;
    TraceMeans(c, outs, tr, j) by { TraceLength(c, outs, tr); }
    var g := SomeInv(c, tr[j]);
    CoreInvMeans(c, tr[j].k, tr[j].h, tr[j].l, g);
    BooksMean(tr[j].k, tr[j].h, c.cap);
  }

  lemma PrefixesNest<T>(a: seq<T>, b: seq<T>, whole: seq<T>)
    requires a <= whole && b <= whole && |a| <= |b|
    ensures a <= b
  {
  }

  // ------------------------------------------------------ accepted ones leave

  /** One cycle to read and one to send each beat. */
  function Load(q: seq<Packet>): nat { if q == [] then 0 else |q[0]| + 1 + Load(q[1..]) }

  /** How many of the first K accepted packets still wait for the forwarder. */
  function Behind(h: Hist, K: nat): nat
    requires K <= |h.gone| + |h.fwdQ|
  {
    if K <= |h.gone| then 0 else K - |h.gone|
  }

  /** What the forwarder still has to do for them. */
  function Work(h: Hist, tvalid: bool, K: nat): int
    requires K <= |h.gone| + |h.fwdQ|
  {
    if K <= |h.gone| then 0 else Load(h.fwdQ[..Behind(h, K)]) - h.sent - (if tvalid then 1 else 0)
  }

  /** An offer is made as soon as the forwarder may, and stands until done. */
  lemma OfferStep(v: Vm, h: Hist, i: Input, cap: nat)
    requires cap > 0 && Inv(v, h, cap) && GoodInput(h, v, i, cap) && h.fwdQ != []
    ensures var v' := VmNext(v, i, cap);
            !FwdDone(v.fwd, i.tready) && (v.fwd.tvalid || i.grant) ==> v'.fwd.tvalid
  {
    HeadIsOldest(v.mem.p3.fwd);
    WhatTheForwarderSees(v.mem);
    hide Conserved, Shaped, Whole, SnHolds, Timely, Books, MemNext, SnoopNext, Contents, Head, LenTo, DataTo, RamOf,
         GoodBus, TailWrite, GoodVerdict;
    assert Presenting(v.fwd, FwdBuffer(v.mem).dout, h.fwdQ[0], h.sent);
    assert Stored(FwdBuffer(v.mem), h.fwdQ[0]);
  }

  /** The arithmetic of one cycle of the forwarder. */
  lemma WorkArithmetic(h: Hist, h': Hist, tvalid: bool, tvalid': bool, grant: bool, tready: bool, done: bool, K: nat,
          more: seq<Packet>)
    requires |h.gone| < K <= |h.gone| + |h.fwdQ| && h.sent < |h.fwdQ[0]|
    requires tvalid && tready ==> done == (h.sent == |h.fwdQ[0]| - 1)
    requires done ==> tvalid && tready && !tvalid'
    requires !done && (tvalid || grant) ==> tvalid'
    requires !tvalid ==> h.sent == 0
    requires h'.gone == (if done then h.gone + First(h.fwdQ) else h.gone)
    requires h'.fwdQ == (if done then Rest(h.fwdQ) else h.fwdQ) + more
    requires h'.sent == (if done then 0 else if tvalid && tready then h.sent + 1 else h.sent)
    requires tvalid ==> grant
    ensures K <= |h'.gone| + |h'.fwdQ|
    ensures Work(h', tvalid', K) <= Work(h, tvalid, K) - (if grant && tready then 1 else 0)
  {
    var n := Behind(h, K);
    assert h.fwdQ[..n][0] == h.fwdQ[0];
    assert Load(h.fwdQ[..n]) == |h.fwdQ[0]| + 1 + Load(h.fwdQ[..n][1..]);
    if done {
      assert h.fwdQ[..n][1..] == h.fwdQ[1..][..n - 1] == h'.fwdQ[..n - 1];
    } else {
      assert h'.fwdQ[..n] == h.fwdQ[..n];
    }
  }

  lemma SoundSends(c: Setup, a: Log)
    requires Sound(c, a)
    ensures a.h.fwdQ != [] ==> a.h.sent < |a.h.fwdQ[0]|
  {
    hide *;
    var g := SomeInv(c, a);
    CoreInvMeans(c, a.k, a.h, a.l, g);
    SentIsLess(a.k.vm, a.h, c.cap);
  }

  /** As long as one of them has not left there is work. */
  lemma WorkLeft(c: Setup, a: Log, K: nat)
    requires Sound(c, a) && |a.h.gone| < K <= |a.h.gone| + |a.h.fwdQ|
    ensures Work(a.h, a.k.vm.fwd.tvalid, K) >= 1
  {
    hide Sound;
    SoundSends(c, a);
    var n := Behind(a.h, K);
    assert a.h.fwdQ[..n][0] == a.h.fwdQ[0];
  }

  lemma SentIsLess(v: Vm, h: Hist, cap: nat)
    requires Inv(v, h, cap)
    ensures h.fwdQ != [] ==> h.sent < |h.fwdQ[0]|
  {
  }

  /** Each cycle with a grant and TREADY does one unit of work, for as long as
      there is any, and no cycle undoes any. */
  lemma WorkOverStep(c: Setup, o: Outside, a: Log, b: Log, K: nat)
    requires Sound(c, a) && Step(c, o, a, b) && K <= |a.h.gone| + |a.h.fwdQ|
    ensures K <= |b.h.gone| + |b.h.fwdQ| && a.h.gone + a.h.fwdQ <= b.h.gone + b.h.fwdQ
    ensures |a.h.gone| >= K ==> |b.h.gone| >= K
    ensures |a.h.gone| < K ==>
            Work(b.h, b.k.vm.fwd.tvalid, K) <= Work(a.h, a.k.vm.fwd.tvalid, K) - (if o.grant && o.tready then 1 else 0)
  {
    hide *;
    var g := SomeInv(c, a);
    CoreInvMeans(c, a.k, a.h, a.l, g);
    StepMeans(c, o, a, b);
    FormedSizes(c, a.k.vm.mem);
    CpuIsDisciplined(c, a.k, a.h, o, a.l.idle);
    CoreNextParts(c, a.k, o);
    WorkOverEdge(a.k.vm, a.h, InputOf(c, a.k, o), c.cap, K);
    InputMeans(c, a.k, o);
  }

  lemma InputMeans(c: Setup, k: Core, o: Outside)
    requires c.W > 0
    ensures var i := InputOf(c, k, o); i.grant == o.grant && i.tready == o.tready && i.bus == o.bus
  {
  }

  lemma WorkOverEdge(v: Vm, h: Hist, i: Input, cap: nat, K: nat)
    requires cap > 0 && Inv(v, h, cap) && GoodInput(h, v, i, cap) && K <= |h.gone| + |h.fwdQ|
    ensures var v', h' := VmNext(v, i, cap), HistNext(h, v, i);
      && K <= |h'.gone| + |h'.fwdQ| && h.gone + h.fwdQ <= h'.gone + h'.fwdQ
      && (|h.gone| >= K ==> |h'.gone| >= K)
      && (|h.gone| < K ==>
          Work(h', v'.fwd.tvalid, K) <= Work(h, v.fwd.tvalid, K) - (if i.grant && i.tready then 1 else 0))
  {
    CycleIsDisciplined(v, h, i, cap);
    ForwarderStep(v, h, i, cap);
    if h.fwdQ != [] {
      OfferStep(v, h, i, cap);
      PresentingMeans(v, h, i, cap);
    }
    hide Inv, GoodInput, VmNext, TData, DataTo, Head, WatchNext, SnDone, Work, FwdIdle, FwdDone, Flits, Disciplined,
         FwdHolds;
    IdleMeans(VmNext(v, i, cap).fwd);
    var more := if i.acc then First(h.cpuQ) else [];
    var h' := HistNext(h, v, i);
    MoveOldest(h.gone, h.fwdQ, FwdDone(v.fwd, i.tready), more);
    if |h.gone| < K {
      WorkArithmetic(h, h', v.fwd.tvalid, VmNext(v, i, cap).fwd.tvalid, i.grant, i.tready, FwdDone(v.fwd, i.tready), K,
                     more);
    }
  }

  lemma IdleMeans(f: Fwd)
    ensures FwdIdle(f) ==> !f.tvalid
  {
  }

  lemma PresentingMeans(v: Vm, h: Hist, i: Input, cap: nat)
    requires Inv(v, h, cap) && GoodInput(h, v, i, cap) && h.fwdQ != []
    ensures h.sent < |h.fwdQ[0]| && (!v.fwd.tvalid ==> h.sent == 0) && (v.fwd.tvalid ==> i.grant)
  {
    hide Conserved, Shaped, Whole, SnHolds, Timely, Queued, GoodBus, TailWrite, GoodVerdict, Stream, Sending, Accepted;
  }

  /** The cycles in which the forwarder may send and is listened to. */
  function Chances(outs: seq<Outside>): nat {
    if outs == [] then 0 else (if outs[0].grant && outs[0].tready then 1 else 0) + Chances(outs[1..])
  }

  /** With a chance for each unit of work the first K accepted packets leave. */
  lemma {:induction false} AcceptedLeave(c: Setup, outs: seq<Outside>, tr: seq<Log>, j: nat, n: nat, K: nat)
    requires Trace(c, outs, tr) && j + n <= |outs| && |tr| == |outs| + 1 && K <= |tr[j].h.gone| + |tr[j].h.fwdQ|
    requires Chances(outs[j..j + n]) >= Work(tr[j].h, tr[j].k.vm.fwd.tvalid, K)
    ensures |tr[j + n].h.gone| >= K
    ensures tr[j].h.gone + tr[j].h.fwdQ <= tr[j + n].h.gone + tr[j + n].h.fwdQ
    decreases n
  {
    hide Trace, Sound, Step, Work;
    TraceMeans(c, outs, tr, j);
    if n == 0 {
      NoWork(tr[j].h, tr[j].k.vm.fwd.tvalid, K);
      if |tr[j].h.gone| < K {
        WorkLeft(c, tr[j], K);
      }
    } else {
      WorkOverStep(c, outs[j], tr[j], tr[j + 1], K);
      assert outs[j..j + n][1..] == outs[j + 1..j + 1 + (n - 1)];
      if |tr[j + 1].h.gone| >= K {
        NoWork(tr[j + 1].h, tr[j + 1].k.vm.fwd.tvalid, K);
      }
      AcceptedLeave(c, outs, tr, j + 1, n - 1, K);
    }
  }

  lemma NoWork(h: Hist, tvalid: bool, K: nat)
    requires K <= |h.gone| + |h.fwdQ|
    ensures K <= |h.gone| ==> Work(h, tvalid, K) == 0
  {
  }

  // -------------------------------------------------------- everything gets out

  lemma {:induction false} StreamPrefix(a: seq<Packet>, b: seq<Packet>)
    requires a <= b
    ensures Stream(a) <= Stream(b)
    decreases |b|
  {
    if |a| < |b| {
      StreamPrefix(a, b[..|b| - 1]);
    } else {
      assert a == b;
    }
  }

  lemma {:induction false} AcceptedPrefix(a: seq<Packet>, v: seq<bool>, b: seq<Packet>, w: seq<bool>)
    requires |a| == |v| && |b| == |w| && a <= b && v <= w
    ensures Accepted(a, v) <= Accepted(b, w)
    decreases |b|
  {
    if |a| < |b| {
      AcceptedPrefix(a, v, b[..|b| - 1], w[..|w| - 1]);
    } else {
      assert a == b && v == w;
    }
  }

  /** What a sound state says about its books. */
  lemma BooksOf(c: Setup, a: Log)
    requires Sound(c, a)
    ensures |a.h.judged| == |a.h.verdicts| && Accepted(a.h.judged, a.h.verdicts) == a.h.gone + a.h.fwdQ
    ensures a.h.watch.captured == a.h.judged + a.h.cpuQ
    ensures Stream(a.h.gone) <= a.h.out && (a.h.fwdQ == [] ==> a.h.out == Stream(a.h.gone))
    ensures Work(a.h, a.k.vm.fwd.tvalid, |a.h.gone| + |a.h.fwdQ|) <= 3 * (c.cap + 1)
  {
    hide *;
    var g := SomeInv(c, a);
    CoreInvMeans(c, a.k, a.h, a.l, g);
    BooksMean(a.k, a.h, c.cap);
    ConservedSizes(a.k.vm.mem.p3);
    InvBooks(a.k, a.h, c.cap);
    WorkBound(a.k, a.h, c.cap);
  }

  lemma InvBooks(k: Core, h: Hist, cap: nat)
    requires Inv(k.vm, h, cap)
    ensures |h.judged| == |h.verdicts| && Accepted(h.judged, h.verdicts) == h.gone + h.fwdQ
    ensures Stream(h.gone) <= h.out && (h.fwdQ == [] ==> h.out == Stream(h.gone))
  {
    hide Conserved, Shaped, Whole, SnHolds, FwdHolds, Timely, Queued, Stream, Accepted;
  }

  lemma {:induction false} LoadBound(q: seq<Packet>, cap: nat)
    requires forall k :: 0 <= k < |q| ==> |q[k]| <= cap
    ensures Load(q) <= Lapse(|q|, cap + 1)
    decreases |q|
  {
    if q != [] {
      LoadBound(q[1..], cap);
    }
  }

  lemma WorkBound(k: Core, h: Hist, cap: nat)
    requires Inv(k.vm, h, cap) && |h.fwdQ| <= 3
    ensures Work(h, k.vm.fwd.tvalid, |h.gone| + |h.fwdQ|) <= 3 * (cap + 1)
  {
    hide Conserved, Whole, SnHolds, FwdHolds, Timely, Books, Load, Contents;
    forall j | 0 <= j < |h.fwdQ| ensures |h.fwdQ[j]| <= cap {
      var b := Contents(k.vm.mem.p3.fwd)[j];
      assert Stored(RamOf(k.vm.mem, b), h.fwdQ[j]);
      RamShape(k.vm.mem, 2 * cap, b);
    }
    LoadBound(h.fwdQ, cap);
    var p := cap + 1;
    assert Lapse(3, p) == p + Lapse(2, p) == p + p + Lapse(1, p) == 3 * p;
    assert h.fwdQ[..|h.fwdQ|] == h.fwdQ;
  }

  /** Main result.  Every packet captured by cycle j is judged by cycle m, three
      patiences later; and once the forwarder has then had 3(cap+1) chances,
      every accepted one of them has left, in order and whole. */
  lemma EverythingGetsOut(c: Setup, outs: seq<Outside>, tr: seq<Log>, j: nat, m: nat, z: nat, L: nat,
          lags: seq<set<Lag>>)
    requires Trace(c, outs, tr) && Answers(c.code, L, lags) && |tr| == |outs| + 1
    requires m == j + 3 * (Patience(L) + 1) && m <= z <= |outs| && Chances(outs[m..z]) >= 3 * (c.cap + 1)
    ensures var n := |tr[j].h.watch.captured|;
      && n <= |tr[z].h.judged| == |tr[z].h.verdicts| && tr[z].h.judged[..n] == tr[j].h.watch.captured
      && Stream(Accepted(tr[j].h.watch.captured, tr[z].h.verdicts[..n])) <= tr[z].h.out
    ensures |tr[z].h.gone| >= |tr[m].h.gone| + |tr[m].h.fwdQ|
  {
    hide *;
    EveryPacketIsJudged(c, outs, tr, j, L, lags);
    TraceMeans(c, outs, tr, m);
    TraceMeans(c, outs, tr, z);
    BooksOf(c, tr[m]);
    BooksOf(c, tr[z]);
    BooksOverTrace(c, outs, tr, m, z - m);
    AcceptedLeave(c, outs, tr, m, z - m, |tr[m].h.gone| + |tr[m].h.fwdQ|);
    var captured, n := tr[j].h.watch.captured, |tr[j].h.watch.captured|;
    AcceptedPrefix(captured, tr[m].h.verdicts[..n], tr[m].h.judged, tr[m].h.verdicts);
    assert tr[m].h.verdicts[..n] == tr[z].h.verdicts[..n];
    var all := tr[m].h.gone + tr[m].h.fwdQ;
    PrefixesNest(all, tr[z].h.gone, tr[z].h.gone + tr[z].h.fwdQ);
    StreamPrefix(Accepted(captured, tr[m].h.verdicts[..n]), tr[z].h.gone);
  }

  /** Main result.  When the bus goes quiet the machine empties: everything
      captured is judged and the output is exactly the accepted packets. */
  lemma MachineDrains(c: Setup, outs: seq<Outside>, tr: seq<Log>, j: nat, m: nat, z: nat, L: nat, lags: seq<set<Lag>>)
    requires Trace(c, outs, tr) && Answers(c.code, L, lags) && |tr| == |outs| + 1
    requires m == j + 3 * (Patience(L) + 1) && m <= z <= |outs| && Chances(outs[m..z]) >= 3 * (c.cap + 1)
    requires Silent(outs, j, z)
    ensures var h := tr[z].h;
      && h.watch.captured == tr[j].h.watch.captured == h.judged && |h.verdicts| == |h.judged|
      && h.cpuQ == [] && h.fwdQ == [] && h.out == Stream(Accepted(h.watch.captured, h.verdicts))
  {
    hide *;
    SilentParts(outs, j, m, z);
    EverythingGetsOut(c, outs, tr, j, m, z, L, lags);
    EveryPacketIsJudged(c, outs, tr, j, L, lags);
    TraceMeans(c, outs, tr, m);
    TraceMeans(c, outs, tr, z);
    BooksOverTrace(c, outs, tr, j, m - j);
    BooksOverTrace(c, outs, tr, m, z - m);
    BooksOf(c, tr[m]);
    BooksOf(c, tr[z]);
    assert tr[m].h.judged == tr[z].h.judged == tr[z].h.watch.captured;
    assert tr[m].h.verdicts == tr[z].h.verdicts;
    assert tr[z].h.fwdQ == [] && tr[z].h.gone + tr[z].h.fwdQ == tr[z].h.gone;
  }

  lemma SilentParts(outs: seq<Outside>, j: nat, m: nat, z: nat)
    requires Silent(outs, j, z) && j <= m <= z
    ensures Silent(outs, j, m) && Silent(outs, m, z)
  {
  }
}
