/** One complete virtual machine (bpfvm.v): the packet memory with its snooper
    and forwarder, and the pipelined CPU running a program on each packet. */
module FilterCore {
  import opened PacketRam
  import opened Isa
  import opened PipelineStages
  import opened PipelineDatapath
  import opened PipelinedCpu
  import opened PipelineProof
  import opened PipelineTheorems
  import opened CpuProgress
  import opened JobQueues
  import opened P3Control
  import opened BufferMuxes
  import opened PacketMem
  import opened Snooper
  import opened Forwarder
  import opened VirtualMachine
  import opened EndToEnd

  datatype Core = Core(vm: Vm, cpu: Cpu)

  /** What the outside does in one cycle. */
  datatype Outside = Outside(bus: Bus, grant: bool, tready: bool)

  /** The fixed part: the program, the word width in bytes and the buffer size
      in beats. */
  datatype Setup = Setup(code: seq<Instr>, W: nat, cap: nat)

  ghost predicate FormedRam(r: Ram, W: nat, cap: nat) {
    |r.data| == 2 * cap && Sized(r.data, W) && r.len < 2 * cap && |r.dout.hi| == |r.dout.lo| == W
  }

  /** Buffers of the right size, made of words of W bytes; the length register
      fits the CPU's 32-bit length input. */
  ghost predicate Formed(c: Setup, m: Mem) {
    && |c.code| > 0 && c.W >= 4 && 1 <= c.cap && 2 * c.cap <= 0x1_0000_0000
    && FormedRam(m.ping, c.W, c.cap) && FormedRam(m.pang, c.W, c.cap) && FormedRam(m.pung, c.W, c.cap)
  }

  /** What the CPU sees of the buffer it is connected to. */
  ghost function EnvOf(c: Setup, m: Mem): Env
    requires Formed(c, m)
  {
    RawEnv.Env(c.code, RamOf(m, Head(m.p3.cpu)).data, c.W, LenTo(m, Head(m.p3.cpu)))
  }

  function SysOf(k: Core): Sys { Sys(k.cpu, DataTo(k.vm.mem, Head(k.vm.mem.p3.cpu))) }

  function InputOf(c: Setup, k: Core, o: Outside): Input
    requires c.W > 0
  {
    Input(o.bus, Quot(k.cpu.d.packetAddrR, c.W), k.cpu.s2.rdEn, Accepts(k.cpu), Rejects(k.cpu), o.grant, o.tready)
  }

  /** One clock edge of the machine, with reset low. */
  ghost function CoreNext(c: Setup, k: Core, o: Outside): Core
    requires Formed(c, k.vm.mem)
  {
    Core(VmNext(k.vm, InputOf(c, k, o), c.cap),
         CpuNext(EnvOf(c, k.vm.mem), k.cpu, !ReadyForCpu(k.vm.mem), SysOf(k).big))
  }

  lemma FormedRamStep(r: Ram, q: Command, lenRst: bool, W: nat, cap: nat)
    requires cap >= 1 && FormedRam(r, W, cap) && (q.wr ==> |q.di.hi| == |q.di.lo| == W)
    ensures FormedRam(RamNext(r, q, lenRst), W, cap)
  {
  }

  /** Only the snooper writes, and what it writes comes from the bus. */
  lemma WritesAreFromBus(m: Mem, b: Token, rq: Requests)
    ensures CommandFor(m, b, rq).wr ==> CommandFor(m, b, rq).di == rq.snData
  {
    hide SelOf;
  }

  lemma FormedStep(c: Setup, m: Mem, rq: Requests)
    requires Formed(c, m) && |rq.snData.hi| == |rq.snData.lo| == c.W
    ensures Formed(c, MemNext(m, rq))
  {
    hide CommandFor, LenRst, RamNext, P3Next, Sized;
    WritesAreFromBus(m, 1, rq);
    WritesAreFromBus(m, 2, rq);
    WritesAreFromBus(m, 3, rq);
    FormedRamStep(m.ping, CommandFor(m, 1, rq), LenRst(m, 1, rq.pulses), c.W, c.cap);
    FormedRamStep(m.pang, CommandFor(m, 2, rq), LenRst(m, 2, rq.pulses), c.W, c.cap);
    FormedRamStep(m.pung, CommandFor(m, 3, rq), LenRst(m, 3, rq.pulses), c.W, c.cap);
  }

  // ------------------------------------------------------- CPU and memory

  lemma FormedShape(c: Setup, m: Mem)
    requires Formed(c, m)
    ensures Shaped(m, 2 * c.cap)
  {
    hide Sized;
  }

  lemma MuxesSelect(m: Mem, b: Token)
    ensures b != 0 ==> DataTo(m, b) == RamOf(m, b).dout && LenTo(m, b) == RamOf(m, b).len
  {
  }

  /** The CPU's buffer over an edge without a verdict. */
  lemma CpuBuffer(m: Mem, rq: Requests, depth: nat)
    requires Conserved(m.p3) && Shaped(m, depth) && Disciplined(m.p3, rq.pulses)
    requires Head(m.p3.cpu) != 0 && !rq.pulses.acc && !rq.pulses.rej
    ensures var m', b := MemNext(m, rq), Head(m.p3.cpu);
      && Head(m'.p3.cpu) == b
      && RamOf(m', b) == RamNext(RamOf(m, b), FromCpu(rq.cpuWordAddr, rq.cpuRd), false)
  {
    hide Conserved, P3Next, Disciplined, CommandFor, LenRst, RamNext, RamOf, Head;
    HeadPersists(m.p3, rq.pulses);
    HeadsDistinct(m.p3);
    BufferStep(m, rq, depth, Head(m.p3.cpu));
  }

  lemma CpuRead(r: Ram, W: nat, p: nat, rd: bool)
    requires W > 0 && |r.data| >= 2
    ensures var r' := RamNext(r, FromCpu(Quot(p, W), rd), false);
            SameContents(r, r') && r'.dout == if rd then BigRead(r.data, W, p) else r.dout
  {
  }

  /** While the CPU keeps its buffer, CPU and buffer are the closed system of
      the pipeline proof, and what the program sees does not change. */
  lemma ClosedEdge(c: Setup, k: Core, o: Outside)
    requires Formed(c, k.vm.mem) && Conserved(k.vm.mem.p3)
    requires Head(k.vm.mem.p3.cpu) != 0 && !Decides(k.cpu)
    requires Disciplined(k.vm.mem.p3, PulsesOf(k.vm, InputOf(c, k, o)))
    requires Formed(c, CoreNext(c, k, o).vm.mem)
    ensures var k' := CoreNext(c, k, o);
            SysOf(k') == SysNext(EnvOf(c, k.vm.mem), SysOf(k), false) && EnvOf(c, k'.vm.mem) == EnvOf(c, k.vm.mem)
  {
    FormedShape(c, k.vm.mem);
    hide Conserved, P3Next, CpuNext, SnoopNext, FwdNext, CommandFor, LenRst, Disciplined, Accepts, Rejects, Sized,
         RamOf, MemNext, Head,
         RamNext, DataTo, LenTo, BigRead, Shaped, FormedRam, SnDone, FwdDone, SnWrEn, FwdRdEn;
    var m, i := k.vm.mem, InputOf(c, k, o);
    var rq := RequestsOf(k.vm, i);
    var b := Head(m.p3.cpu);
    var m' := MemNext(m, rq);
    RamShape(m, 2 * c.cap, b);
    CpuBuffer(m, rq, 2 * c.cap);
    CpuRead(RamOf(m, b), c.W, k.cpu.d.packetAddrR, k.cpu.s2.rdEn);
    MuxesSelect(m, b);
    MuxesSelect(m', b);
  }

  lemma ReadyTransfers(e: Env, s: Sys, e': Env, s': Sys)
    requires Ready(e, s) && s.c == s'.c && e.code == e'.code && e.Size() == e'.Size()
    ensures Ready(e', s')
  {
    hide A2, X2, Scratch2;
  }

  // --------------------------------------------------------------- invariant

  /** A log of what the CPU was started on: `idle` while it has not taken up
      the next packet, the origin of the packet it is working on or worked on
      last, and the origins of the packets it has judged. */
  datatype CpuLog = CpuLog(idle: bool, origin: Origin, origins: seq<Origin>)

  predicate HasPacket(k: Core) { Head(k.vm.mem.p3.cpu) != 0 }

  /** The CPU as it is now, about to take up a packet. */
  ghost function OriginOf(c: Setup, k: Core): Origin
    requires Formed(c, k.vm.mem)
  {
    Origin(EnvOf(c, k.vm.mem), Initial(EnvOf(c, k.vm.mem), SysOf(k)))
  }

  ghost function LogNext(c: Setup, l: CpuLog, k: Core): CpuLog
    requires Formed(c, k.vm.mem)
  {
    var origin := if l.idle && HasPacket(k) then OriginOf(c, k) else l.origin;
    CpuLog(Decides(k.cpu) || (l.idle && !HasPacket(k)), origin,
           if Decides(k.cpu) then l.origins + [origin] else l.origins)
  }

  /** The origin is of this program, at instruction 0, on a memory that holds the
      packet, with its length; the bytes behind the packet, and A, X and the
      scratch memory, are what the machine's buffers and registers held. */
  ghost predicate StartedOn(c: Setup, packet: Packet, st: Origin) {
    && st.env.code == c.code && st.env.W == c.W && Begins(st.env, st.t)
    && Stored(Ram(st.env.mem, NO_DATA, st.env.len), packet)
  }

  /** Every judged packet got the one verdict its origin leads to. */
  ghost predicate AllJudged(c: Setup, judged: seq<Packet>, verdicts: seq<bool>, origins: seq<Origin>) {
    && |judged| == |verdicts| == |origins|
    && forall j :: 0 <= j < |judged| ==> StartedOn(c, judged[j], origins[j]) && Judges(origins[j], verdicts[j])
  }

  /** The origin of the packet the CPU is working on is in the log. */
  ghost predicate Logged(c: Setup, k: Core, l: CpuLog, g: Progress)
    requires Formed(c, k.vm.mem)
  {
    && (g.Idle? <==> l.idle)
    && (!l.idle ==> l.origin.env == EnvOf(c, k.vm.mem) && Begins(l.origin.env, l.origin.t))
  }

  /** Why E1 and E2 hold for the CPU: it needs an edge to fetch, and instruction
      0 is not a return; and the edge after a verdict fetches nothing. */
  predicate CpuTimely(k: Core, h: Hist, idle: bool) {
    var q := k.vm.mem.p3.cpu;
    && (q.first == 0 && q.second == 0 ==> idle)
    && (q.first == 0 ==> !Decides(k.cpu))
    && (h.lastVerdict ==> !k.cpu.valid0)
  }

  ghost predicate CoreInv(c: Setup, k: Core, h: Hist, l: CpuLog, g: Progress) {
    && Formed(c, k.vm.mem) && Inv(k.vm, h, c.cap)
    && At(EnvOf(c, k.vm.mem), SysOf(k), l.origin.t, g) && Logged(c, k, l, g) && CpuTimely(k, h, l.idle)
    && AllJudged(c, h.judged, h.verdicts, l.origins)
  }

  /** The bus carries packets of three beats or more that fit a buffer, in beats
      of two W-byte words; the snooper does not write the tail of a packet it
      skips; and the forwarder is not taken away in the middle of a packet. */
  predicate GoodOutside(c: Setup, k: Core, h: Hist, o: Outside) {
    && GoodBus(h.watch, o.bus, c.cap) && |o.bus.data.hi| == |o.bus.data.lo| == c.W
    && !TailWrite(h.watch, k.vm.sn, o.bus, ReadyForSnooper(k.vm.mem))
    && (!o.grant ==> FwdIdle(k.vm.fwd))
  }

  /** The real CPU meets E1, E2 and E3. */
  lemma CpuIsDisciplined(c: Setup, k: Core, h: Hist, o: Outside, idle: bool)
    requires Formed(c, k.vm.mem) && CpuTimely(k, h, idle) && GoodOutside(c, k, h, o)
    ensures GoodInput(h, k.vm, InputOf(c, k, o), c.cap)
  {
    hide Formed, GoodBus, TailWrite, ReadyForSnooper;
  }

  lemma CoreNextParts(c: Setup, k: Core, o: Outside)
    requires Formed(c, k.vm.mem)
    ensures Shaped(k.vm.mem, 2 * c.cap)
    ensures var i := InputOf(c, k, o); var k' := CoreNext(c, k, o);
      && k'.vm == VmNext(k.vm, i, c.cap) && k'.vm.mem == MemNext(k.vm.mem, RequestsOf(k.vm, i))
      && k'.vm.mem.p3 == P3Next(k.vm.mem.p3, PulsesOf(k.vm, i))
      && k'.cpu == CpuNext(EnvOf(c, k.vm.mem), k.cpu, !ReadyForCpu(k.vm.mem), SysOf(k).big)
  {
    FormedShape(c, k.vm.mem);
    hide Sized, CpuNext, SnoopNext, FwdNext, CommandFor, LenRst, RamNext, P3Next, RamOf, DataTo, LenTo, Head;
  }

  /** The CPU's queue after an edge, in the terms CpuTimely uses. */
  lemma CpuQueueSlots(q: Slots, token: Token, en: bool, deq: bool)
    requires deq ==> q.first != 0
    ensures var q' := QueueNext(q, token, en, deq);
      && (q'.first == 0 && q'.second == 0 ==> Head(q) == 0 || deq)
      && (q'.first == 0 && Head(q) != 0 && !deq ==> q.first == 0 && q.second == 0)
  {
  }

  lemma EnvShape(c: Setup, m: Mem)
    requires Formed(c, m)
    ensures var e := EnvOf(c, m); e.code == c.code && e.W == c.W && e.Size() == 2 * c.cap * c.W
  {
  }

  lemma VerdictEmptiesStage1(e: Env, c: Cpu, hold: bool, big: Beat)
    requires Decides(c)
    ensures !CpuNext(e, c, hold, big).valid0
  {
    hide DatapathNext, Compute2Next, WritebackNext, Resize;
  }

  /** Waiting for a packet, and the edge of a verdict, leave the CPU ready; any
      other edge continues the program on the same buffer. */
  lemma ProgressOf(c: Setup, k: Core, o: Outside, l: CpuLog, g: Progress) returns (g': Progress)
    requires Formed(c, k.vm.mem) && Conserved(k.vm.mem.p3) && Runnable(c.code)
    requires Disciplined(k.vm.mem.p3, PulsesOf(k.vm, InputOf(c, k, o)))
    requires Formed(c, CoreNext(c, k, o).vm.mem)
    requires At(EnvOf(c, k.vm.mem), SysOf(k), l.origin.t, g) && Logged(c, k, l, g) && (!HasPacket(k) ==> l.idle)
    ensures var k', l' := CoreNext(c, k, o), LogNext(c, l, k);
      && At(EnvOf(c, k'.vm.mem), SysOf(k'), l'.origin.t, g') && Logged(c, k', l', g')
      && (l.idle && HasPacket(k) ==> !Decides(k'.cpu))
  {
    var e, s := EnvOf(c, k.vm.mem), SysOf(k);
    var k', l' := CoreNext(c, k, o), LogNext(c, l, k);
    var e', s' := EnvOf(c, k'.vm.mem), SysOf(k');
    assert l.idle ==> !Decides(k.cpu) by {
      if l.idle {
        IdleIsQuiet(e, s);
      }
    }
    hide Formed, Conserved, Disciplined, Decides, Runnable, Ready, Rel, Resolving, Refetch, Stuck, EnvOf, Initial,
         VmNext, CpuNext, Reaches, Pacing, Begins, DataTo, Head, InputOf, RawEnv.Size;
    EnvShape(c, k.vm.mem);
    EnvShape(c, k'.vm.mem);
    if !HasPacket(k) {
      HoldKeepsReady(e, s);
      ReadyTransfers(e, SysNext(e, s, true), e', s');
      g' := Idle;
    } else if Decides(k.cpu) {
      VerdictEdge(e, s, l.origin.t, g);
      ReadyTransfers(e, SysNext(e, s, false), e', s');
      g' := Idle;
    } else {
      ClosedEdge(c, k, o);
      InitialBegins(e, s);
      if l.idle {
        g' := ProgressEdge(e, s, Initial(e, s), Idle);
      } else {
        g' := ProgressEdge(e, s, l.origin.t, g);
      }
    }
  }

  /** The CPU's progress over any edge. */
  lemma CpuStepOf(c: Setup, k: Core, h: Hist, l: CpuLog, o: Outside, g: Progress) returns (g': Progress)
    requires CoreInv(c, k, h, l, g) && Runnable(c.code) && GoodOutside(c, k, h, o)
    requires Formed(c, CoreNext(c, k, o).vm.mem)
    ensures var k', l' := CoreNext(c, k, o), LogNext(c, l, k);
      && At(EnvOf(c, k'.vm.mem), SysOf(k'), l'.origin.t, g') && Logged(c, k', l', g')
      && CpuTimely(k', HistNext(h, k.vm, InputOf(c, k, o)), l'.idle)
  {
    hide Formed, Conserved, Disciplined, Decides, Runnable, EnvOf, VmNext, CpuNext, DataTo, RawEnv.Size, At, Stored,
         Shaped, Queued, SnHolds, OriginOf, TailWrite,
         FwdHolds, Timely, Books, Whole, AllJudged, Head, SnDone, FwdDone, Contents, MemNext, RequestsOf,
         QueueNext, SnQueueNext, Logged;
    var i := InputOf(c, k, o);
    var k', l' := CoreNext(c, k, o), LogNext(c, l, k);
    CpuIsDisciplined(c, k, h, o, l.idle);
    CycleIsDisciplined(k.vm, h, i, c.cap);
    CoreNextParts(c, k, o);
    var q, p := k.vm.mem.p3.cpu, PulsesOf(k.vm, i);
    DisciplinedCpu(k.vm.mem.p3, p);
    CpuQueueSlots(q, Head(k.vm.mem.p3.sn), p.snDone, p.acc || p.rej);
    HeadIsOldest(q);
    EmptyHead(q);
    g' := ProgressOf(c, k, o, l, g);
    if l'.idle {
      assert !Decides(k'.cpu) by { FreshIsQuiet(c, k', l', g'); }
    }
    if Decides(k.cpu) {
      VerdictEmptiesStage1(EnvOf(c, k.vm.mem), k.cpu, !ReadyForCpu(k.vm.mem), SysOf(k).big);
    }
    assert Decides(k.cpu) <==> i.acc || i.rej by { DecidesMeans(k.cpu); }
  }

  lemma DisciplinedCpu(p: P3, i: Pulses)
    requires Disciplined(p, i)
    ensures i.acc || i.rej ==> p.cpu.first != 0
  {
  }

  lemma EmptyHead(q: Slots)
    ensures Head(q) == 0 ==> q.first == 0 && q.second == 0
  {
  }

  lemma FreshIsQuiet(c: Setup, k: Core, l: CpuLog, g: Progress)
    requires Formed(c, k.vm.mem) && At(EnvOf(c, k.vm.mem), SysOf(k), l.origin.t, g) && Logged(c, k, l, g) && l.idle
    ensures !Decides(k.cpu)
  {
    IdleIsQuiet(EnvOf(c, k.vm.mem), SysOf(k));
  }

  lemma DecidesMeans(c: Cpu)
    ensures Decides(c) <==> Accepts(c) || Rejects(c)
  {
  }

  lemma StoredInEnv(c: Setup, m: Mem, h: Hist)
    requires Formed(c, m) && Queued(m, Contents(m.p3.cpu), h.cpuQ) && h.cpuQ != []
    ensures var e := EnvOf(c, m); Stored(Ram(e.mem, NO_DATA, e.len), h.cpuQ[0])
  {
    HeadIsOldest(m.p3.cpu);
    MuxesSelect(m, Head(m.p3.cpu));
    hide Formed, Head, Contents, LenTo, RamOf;
  }

  /** A new verdict is the one its logged origin leads to. */
  lemma VerdictExplained(c: Setup, k: Core, h: Hist, l: CpuLog, g: Progress)
    requires CoreInv(c, k, h, l, g) && Decides(k.cpu) && h.cpuQ != []
    ensures !l.idle && StartedOn(c, h.cpuQ[0], l.origin) && Judges(l.origin, Accepts(k.cpu))
  {
    hide At, Stored, Decides, Inv, EnvOf, Accepts, Begins, Judges, AllJudged;
    var e := EnvOf(c, k.vm.mem);
    assert Queued(k.vm.mem, Contents(k.vm.mem.p3.cpu), h.cpuQ) by { CpuQueued(k.vm, h, c.cap); }
    StoredInEnv(c, k.vm.mem, h);
    EnvShape(c, k.vm.mem);
    VerdictEdge(e, SysOf(k), l.origin.t, g);
    assert l.origin == Origin(e, l.origin.t);
  }

  lemma CpuQueued(v: Vm, h: Hist, cap: nat)
    requires Inv(v, h, cap)
    ensures Queued(v.mem, Contents(v.mem.p3.cpu), h.cpuQ)
  {
  }

  lemma JudgedStep(c: Setup, k: Core, h: Hist, l: CpuLog, o: Outside, g: Progress)
    requires CoreInv(c, k, h, l, g) && GoodOutside(c, k, h, o)
    ensures var h', l' := HistNext(h, k.vm, InputOf(c, k, o)), LogNext(c, l, k);
            AllJudged(c, h'.judged, h'.verdicts, l'.origins)
  {
    hide At, Inv, SnDone, FwdDone, TData, DataTo, Head, WatchNext, CpuTimely, GoodBus, Formed, Judges, StartedOn,
         OriginOf, Logged, TailWrite;
    var i := InputOf(c, k, o);
    CpuIsDisciplined(c, k, h, o, l.idle);
    CycleIsDisciplined(k.vm, h, i, c.cap);
    DecidesMeans(k.cpu);
    if Decides(k.cpu) {
      VerdictExplained(c, k, h, l, g);
    }
  }

  /** Every cycle of the machine keeps the invariant. */
  lemma CoreStep(c: Setup, k: Core, h: Hist, l: CpuLog, o: Outside, g: Progress) returns (g': Progress)
    requires CoreInv(c, k, h, l, g) && Runnable(c.code) && GoodOutside(c, k, h, o)
    ensures CoreInv(c, CoreNext(c, k, o), HistNext(h, k.vm, InputOf(c, k, o)), LogNext(c, l, k), g')
  {
    assert c.W > 0 && c.cap > 0;
    hide At, Inv, Formed, AllJudged, CpuTimely, GoodBus, VmNext, CpuNext, HistNext, Runnable, MemNext, RequestsOf,
         EnvOf, DataTo, Head, LogNext, Logged, TailWrite;
    var i := InputOf(c, k, o);
    CpuIsDisciplined(c, k, h, o, l.idle);
    InvStep(k.vm, h, i, c.cap);
    CoreNextParts(c, k, o);
    assert RequestsOf(k.vm, i).snData == o.bus.data by { SnDataIsBusData(k.vm, i); }
    FormedStep(c, k.vm.mem, RequestsOf(k.vm, i));
    JudgedStep(c, k, h, l, o, g);
    g' := CpuStepOf(c, k, h, l, o, g);
  }

  lemma SnDataIsBusData(v: Vm, i: Input)
    ensures RequestsOf(v, i).snData == i.bus.data
  {
  }

  // -------------------------------------------------------------------- runs

  /** A run of the machine with everything it has done. */
  datatype Log = Log(k: Core, h: Hist, l: CpuLog)

  /** The state after each cycle follows from the one before, the bus behaves,
      and the machine starts after reset with the CPU idle. */
  ghost predicate CoreRun(c: Setup, outs: seq<Outside>, run: seq<Log>) {
    && |run| == |outs| + 1
    && Formed(c, run[0].k.vm.mem) && Start(run[0].k.vm, c.cap) && run[0].h == NO_HISTORY
    && Ready(EnvOf(c, run[0].k.vm.mem), SysOf(run[0].k)) && run[0].l == CpuLog(true, OriginOf(c, run[0].k), [])
    && forall j :: 0 <= j < |outs| ==> CoreCycle(c, outs[j], run[j], run[j + 1])
  }

  ghost predicate CoreCycle(c: Setup, o: Outside, before: Log, after: Log) {
    && Formed(c, before.k.vm.mem) && GoodOutside(c, before.k, before.h, o)
    && after == Log(CoreNext(c, before.k, o), HistNext(before.h, before.k.vm, InputOf(c, before.k, o)),
                    LogNext(c, before.l, before.k))
  }

  lemma CoreStart(c: Setup, k: Core)
    requires Formed(c, k.vm.mem) && Start(k.vm, c.cap)
    requires Ready(EnvOf(c, k.vm.mem), SysOf(k))
    ensures CoreInv(c, k, NO_HISTORY, CpuLog(true, OriginOf(c, k), []), Idle)
  {
    hide Formed, Ready, Inv, EnvOf, Start, DataTo, Initial;
    InvStart(k.vm, c.cap);
    IdleIsQuiet(EnvOf(c, k.vm.mem), SysOf(k));
  }

  lemma {:induction false} CoreInvariant(c: Setup, outs: seq<Outside>, run: seq<Log>, j: nat) returns (g: Progress)
    requires Runnable(c.code) && CoreRun(c, outs, run) && j <= |outs|
    ensures CoreInv(c, run[j].k, run[j].h, run[j].l, g)
    decreases j
  {
    hide CoreInv, Formed, Start, GoodOutside, Runnable, CoreNext, HistNext, LogNext, InputOf, OriginOf;
    if j == 0 {
      CoreStart(c, run[0].k);
      g := Idle;
    } else {
      assert CoreCycle(c, outs[j - 1], run[j - 1], run[j]);
      g := CoreInvariant(c, outs, run, j - 1);
      g := CoreStep(c, run[j - 1].k, run[j - 1].h, run[j - 1].l, outs[j - 1], g);
    }
  }

  /** Every verdict is the interpreter's from the same origin. */
  ghost predicate AllInterpreted(verdicts: seq<bool>, origins: seq<Origin>) {
    |verdicts| == |origins| && forall j :: 0 <= j < |verdicts| ==> Interprets(origins[j], verdicts[j])
  }

  lemma SequentialIsInterpreted(c: Setup, judged: seq<Packet>, verdicts: seq<bool>, origins: seq<Origin>)
    requires Sequential(c.code) && AllJudged(c, judged, verdicts, origins)
    ensures AllInterpreted(verdicts, origins)
  {
    hide Judges, Interprets, Begins, Agrees, Stored;
    forall j | 0 <= j < |verdicts| ensures Interprets(origins[j], verdicts[j]) {
      var st := origins[j];
      assert StartedOn(c, judged[j], st) && Judges(st, verdicts[j]);
      assert forall n: nat :: Agrees(st.env, st.t, n);
      AgreesInterprets(st, verdicts[j]);
    }
  }

  /** Main result.  Run any program that does not begin with RET #k, on any bus
      traffic of packets of three beats up to the buffer size in which no tail of
      a skipped packet is written, under any TREADY schedule.  In every cycle the
      path from bus to output is faithful, and every verdict is the one that the
      pipeline's semantics gives from the machine's own state when it took the
      packet up; for programs that run sequentially, the interpreter's. */
  lemma FilterIsCorrect(c: Setup, outs: seq<Outside>, run: seq<Log>, j: nat)
    requires Runnable(c.code) && CoreRun(c, outs, run) && j <= |outs|
    ensures |run| == |outs| + 1 && Faithful(run[j].k.vm, run[j].h)
    ensures AllJudged(c, run[j].h.judged, run[j].h.verdicts, run[j].l.origins)
    ensures Sequential(c.code) ==> AllInterpreted(run[j].h.verdicts, run[j].l.origins)
  {
    hide Faithful, AllJudged, AllInterpreted, Inv, At, CoreRun, Runnable, Sequential;
    assert |run| == |outs| + 1 by { RunLength(c, outs, run); }
    var g := CoreInvariant(c, outs, run, j);
    InvIsFaithful(run[j].k.vm, run[j].h, c.cap);
    if Sequential(c.code) {
      SequentialIsInterpreted(c, run[j].h.judged, run[j].h.verdicts, run[j].l.origins);
    }
  }

  lemma RunLength(c: Setup, outs: seq<Outside>, run: seq<Log>)
    requires CoreRun(c, outs, run)
    ensures |run| == |outs| + 1
  {
  }
}
