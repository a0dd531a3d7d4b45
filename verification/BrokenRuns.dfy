/** Short runs from reset in which a token is copied: why a program must not
    begin with RET #k, and why packets must have three beats. */
module BrokenRuns {
  import opened PacketRam
  import opened Isa
  import opened PipelineStages
  import opened PipelinedCpu
  import opened PipelineProof
  import opened PipelineTheorems
  import opened CpuProgress
  import opened JobQueues
  import opened P3Control
  import opened PacketMem
  import opened Snooper
  import opened Forwarder
  import opened VirtualMachine
  import opened EndToEnd
  import opened FilterCore

  // --------------------------------------------------------------- beat by beat

  /** Only the snooper is at work, n beats into a packet that it is writing. */
  ghost predicate Writing(v: Vm, h: Hist, n: nat, cap: nat) {
    && cap > 0 && Inv(v, h, cap) && h.fwdQ == [] && !h.lastVerdict && !v.sn.needToWait
    && |h.watch.current| == n && (n > 0 ==> h.watch.started)
  }

  predicate Beats(i: Input, last: bool) { Transfers(i.bus) && i.bus.last == last && i.grant && !i.acc && !i.rej }

  const NO_PULSE := Pulses(false, false, false, false)
  const SN_DONE := Pulses(true, false, false, false)

  lemma WritingMeans(v: Vm, h: Hist, n: nat, cap: nat)
    requires Writing(v, h, n, cap)
    ensures cap > 0 && Inv(v, h, cap) && Shaped(v.mem, 2 * cap) && FwdIdle(v.fwd) && h.fwdQ == []
    ensures |v.mem.ping.data| >= 2 && |v.mem.pang.data| >= 2 && |v.mem.pung.data| >= 2
    ensures !h.lastVerdict && !v.sn.needToWait && |h.watch.current| == n && (n > 0 ==> h.watch.started)
  {
    hide Conserved, Whole, SnHolds, Timely, Books;
  }

  lemma BeatIsGood(v: Vm, h: Hist, i: Input, cap: nat)
    requires FwdIdle(v.fwd) && Beats(i, i.bus.last) && !v.sn.needToWait
    requires var n := |h.watch.current|;
             (n > 0 ==> h.watch.started) && (i.bus.last ==> n >= 2) && n + (if i.bus.last then 1 else 2) <= cap
    ensures GoodInput(h, v, i, cap)
    ensures Head(v.mem.p3.sn) != 0 ==> PulsesOf(v, i) == if i.bus.last then SN_DONE else NO_PULSE
  {
  }

  lemma BeatHistory(v: Vm, h: Hist, i: Input, cap: nat)
    requires FwdIdle(v.fwd) && Beats(i, i.bus.last) && !v.sn.needToWait && h.fwdQ == [] && cap > 0
    requires Head(v.mem.p3.sn) != 0 && (|h.watch.current| > 0 ==> h.watch.started)
    ensures var h' := HistNext(h, v, i); var w := h'.watch;
      && h'.fwdQ == [] && !h'.lastVerdict && !SnoopNext(v.sn, i.bus, ReadyForSnooper(v.mem), cap).needToWait
      && |w.current| == (if i.bus.last then 0 else |h.watch.current| + 1) && (|w.current| > 0 ==> w.started)
  {
  }

  lemma WritingIs(v: Vm, h: Hist, n: nat, cap: nat)
    requires cap > 0 && Inv(v, h, cap) && h.fwdQ == [] && !h.lastVerdict && !v.sn.needToWait
    requires |h.watch.current| == n && (n > 0 ==> h.watch.started)
    ensures Writing(v, h, n, cap)
  {
    hide Inv;
  }

  /** A beat that finds a buffer continues the packet; the last one hands the
      buffer over. */
  lemma BeatStep(v: Vm, h: Hist, i: Input, n: nat, cap: nat)
    requires Writing(v, h, n, cap) && Beats(i, i.bus.last) && Head(v.mem.p3.sn) != 0
    requires (i.bus.last ==> n >= 2) && n + (if i.bus.last then 1 else 2) <= cap
    ensures cap > 0 && Shaped(v.mem, 2 * cap) && GoodInput(h, v, i, cap)
    ensures var v', h' := VmNext(v, i, cap), HistNext(h, v, i);
      && Writing(v', h', if i.bus.last then 0 else n + 1, cap)
      && v'.mem.p3 == P3Next(v.mem.p3, if i.bus.last then SN_DONE else NO_PULSE)
  {
    hide *;
    WritingMeans(v, h, n, cap);
    BeatIsGood(v, h, i, cap);
    BeatHistory(v, h, i, cap);
    InvStep(v, h, i, cap);
    VmNextParts(v, i, cap);
    WritingIs(VmNext(v, i, cap), HistNext(h, v, i), if i.bus.last then 0 else n + 1, cap);
  }

  // ------------------------------------------------------- packets of two beats

  lemma OneMoreCycle(v0: Vm, ins: seq<Input>, i: Input, cap: nat)
    requires cap > 0 && Shaped(v0.mem, 2 * cap)
    ensures VmRun(v0, ins + [i], cap) == VmNext(VmRun(v0, ins, cap), i, cap)
    ensures HistRun(v0, ins + [i], cap) == HistNext(HistRun(v0, ins, cap), VmRun(v0, ins, cap), i)
    ensures GoodRun(v0, ins + [i], cap) <==>
            GoodRun(v0, ins, cap) && GoodInput(HistRun(v0, ins, cap), VmRun(v0, ins, cap), i, cap)
  {
    hide VmNext, HistNext, GoodInput, Shaped;
    assert (ins + [i])[..|ins|] == ins;
  }

  function Beat1(d: Beat, last: bool): Input { Input(Bus(d, true, true, last), 0, false, false, false, true, true) }

  /** The three pulses of a packet of three beats. */
  function AfterPacket(p: P3): P3 { P3Next(P3Next(P3Next(p, NO_PULSE), NO_PULSE), SN_DONE) }

  /** Three beats more. */
  lemma PacketRun(v0: Vm, ins: seq<Input>, d: Beat, cap: nat, p: P3) returns (ins': seq<Input>)
    requires cap >= 3 && Shaped(v0.mem, 2 * cap) && GoodRun(v0, ins, cap)
    requires Writing(VmRun(v0, ins, cap), HistRun(v0, ins, cap), 0, cap) && p == VmRun(v0, ins, cap).mem.p3
    requires SnStays(p)
    ensures |ins'| == |ins| + 3 && GoodRun(v0, ins', cap)
    ensures Writing(VmRun(v0, ins', cap), HistRun(v0, ins', cap), 0, cap)
    ensures VmRun(v0, ins', cap).mem.p3 == AfterPacket(p)
  {
    hide GoodRun, VmRun, HistRun, Writing, Shaped, VmNext, HistNext, P3Next, Head, GoodInput;
    var b, l := Beat1(d, false), Beat1(d, true);
    BeatStep(VmRun(v0, ins, cap), HistRun(v0, ins, cap), b, 0, cap);
    OneMoreCycle(v0, ins, b, cap);
    var ins1 := ins + [b];
    BeatStep(VmRun(v0, ins1, cap), HistRun(v0, ins1, cap), b, 1, cap);
    OneMoreCycle(v0, ins1, b, cap);
    var ins2 := ins1 + [b];
    BeatStep(VmRun(v0, ins2, cap), HistRun(v0, ins2, cap), l, 2, cap);
    OneMoreCycle(v0, ins2, l, cap);
    ins' := ins2 + [l];
  }

  const REJECT := Pulses(false, false, true, false)

  /** A reject on an idle bus, when all three packets wait for the CPU. */
  lemma RejectStep(v: Vm, h: Hist, i: Input, cap: nat)
    requires Writing(v, h, 0, cap) && v.mem.p3.cpu.first != 0
    requires !Transfers(i.bus) && !i.bus.last && i.rej && !i.acc && i.grant
    ensures cap > 0 && Shaped(v.mem, 2 * cap) && GoodInput(h, v, i, cap)
    ensures var v', h' := VmNext(v, i, cap), HistNext(h, v, i);
            Inv(v', h', cap) && v'.mem.p3 == P3Next(v.mem.p3, REJECT) && h'.watch.current == []
  {
    hide *;
    WritingMeans(v, h, 0, cap);
    RejectIsGood(v, h, i, cap);
    InvStep(v, h, i, cap);
    VmNextParts(v, i, cap);
  }

  lemma RejectIsGood(v: Vm, h: Hist, i: Input, cap: nat)
    requires FwdIdle(v.fwd) && !h.lastVerdict && v.mem.p3.cpu.first != 0 && h.watch.current == []
    requires !Transfers(i.bus) && !i.bus.last && i.rej && !i.acc && i.grant
    ensures GoodInput(h, v, i, cap) && PulsesOf(v, i) == REJECT && HistNext(h, v, i).watch.current == []
  {
  }

  lemma StartIsWriting(v0: Vm, cap: nat)
    requires Start(v0, cap)
    ensures cap > 0 && Shaped(v0.mem, 2 * cap) && v0.mem.p3 == P3_RESET
    ensures GoodRun(v0, [], cap) && VmRun(v0, [], cap) == v0 && HistRun(v0, [], cap) == NO_HISTORY
    ensures Writing(v0, NO_HISTORY, 0, cap)
  {
    InvStart(v0, cap);
    hide Inv;
  }

  predicate SnStays(p: P3) {
    && Head(p.sn) != 0 && Head(P3Next(p, NO_PULSE).sn) != 0
    && Head(P3Next(P3Next(p, NO_PULSE), NO_PULSE).sn) != 0
  }

  /** Where the three tokens are at the ends of the packets and after the reject. */
  lemma QueuesRun()
    ensures var p1 := AfterPacket(P3_RESET); var p2 := AfterPacket(p1); var p3 := AfterPacket(p2);
      && SnStays(P3_RESET) && SnStays(p1) && SnStays(p2)
      && p3.cpu.first != 0 && P3Next(p3, REJECT).sn == Slots(0, 0, 1) && P3Next(p3, REJECT).fwd == Slots(0, 0, 0)
  {
    assert AfterPacket(P3_RESET) == P3(Slots(2, 3, 0), Slots(0, 0, 1), Slots(0, 0, 0));
    assert AfterPacket(AfterPacket(P3_RESET)) == P3(Slots(3, 0, 0), Slots(1, 0, 2), Slots(0, 0, 0));
    assert AfterPacket(AfterPacket(AfterPacket(P3_RESET))) == P3(Slots(0, 0, 0), Slots(1, 2, 3), Slots(0, 0, 0));
  }

  lemma FirstBeatIsGood(v: Vm, h: Hist, i: Input, cap: nat)
    requires cap >= 3 && h.watch.current == [] && Transfers(i.bus) && !i.bus.last && !i.acc && !i.rej && i.grant
    ensures GoodInput(h, v, i, cap) && |HistNext(h, v, i).watch.current| == 1
  {
  }

  /** Three packets from reset fill all three buffers. */
  lemma ThreePackets(v0: Vm, d: Beat, cap: nat) returns (ins: seq<Input>)
    requires Start(v0, cap) && cap >= 3
    ensures cap > 0 && Shaped(v0.mem, 2 * cap) && |ins| == 9 && GoodRun(v0, ins, cap)
    ensures Writing(VmRun(v0, ins, cap), HistRun(v0, ins, cap), 0, cap)
    ensures VmRun(v0, ins, cap).mem.p3 == AfterPacket(AfterPacket(AfterPacket(P3_RESET)))
  {
    hide *;
    StartIsWriting(v0, cap);
    QueuesRun();
    var p1 := AfterPacket(P3_RESET);
    var p2 := AfterPacket(p1);
    ins := PacketRun(v0, [], d, cap, P3_RESET);
    ins := PacketRun(v0, ins, d, cap, p1);
    ins := PacketRun(v0, ins, d, cap, p2);
  }

  /** From reset to the cycle in which the only free buffer has just come back. */
  lemma BufferComesBack(v0: Vm, d: Beat, cap: nat) returns (ins: seq<Input>)
    requires Start(v0, cap) && cap >= 3
    ensures cap > 0 && Shaped(v0.mem, 2 * cap) && |ins| == 10 && GoodRun(v0, ins, cap)
    ensures var v, h := VmRun(v0, ins, cap), HistRun(v0, ins, cap);
            Inv(v, h, cap) && v.mem.p3.sn == Slots(0, 0, 1) && h.watch.current == []
  {
    hide *;
    ins := ThreePackets(v0, d, cap);
    QueuesRun();
    var rej := Input(Bus(d, false, true, false), 0, false, false, true, true, true);
    assert !Transfers(rej.bus) by { NoTransfer(d); }
    RejectStep(VmRun(v0, ins, cap), HistRun(v0, ins, cap), rej, cap);
    OneMoreCycle(v0, ins, rej, cap);
    ins := ins + [rej];
  }

  lemma NoTransfer(d: Beat)
    ensures !Transfers(Bus(d, false, true, false))
  {
  }

  lemma BeatTransfers(d: Beat, last: bool)
    ensures var i := Beat1(d, last); Transfers(i.bus) && i.bus.last == last && !i.acc && !i.rej && i.grant
  {
  }

  /** From reset: three packets of three beats are captured, the first is
      rejected, and in the cycle in which its buffer comes back a packet of two
      beats begins.  Everything but its early end is allowed, and its buffer ends
      up in two queues. */
  lemma TwoBeatsFromReset(v0: Vm, d: Beat, cap: nat) returns (ins: seq<Input>)
    requires Start(v0, cap) && cap >= 3
    ensures cap > 0 && Shaped(v0.mem, 2 * cap) && |ins| == 12 && GoodRun(v0, ins[..11], cap)
    ensures |HistRun(v0, ins[..11], cap).watch.current| == 1 && Transfers(ins[11].bus) && ins[11].bus.last
    ensures !Conserved(VmRun(v0, ins, cap).mem.p3)
  {
    hide *;
    ins := BufferComesBack(v0, d, cap);
    var v, h := VmRun(v0, ins, cap), HistRun(v0, ins, cap);
    var b, l := Beat1(d, false), Beat1(d, true);
    BeatTransfers(d, false);
    BeatTransfers(d, true);
    FirstBeatIsGood(v, h, b, cap);
    TwoBeatsCopyTheToken(v, h, b, l, cap);
    OneMoreCycle(v0, ins, b, cap);
    OneMoreCycle(v0, ins + [b], l, cap);
    assert (ins + [b] + [l])[..11] == ins + [b];
    ins := ins + [b] + [l];
  }

  // ----------------------------------------- programs that begin with a return

  /** A program that starts with RET #k gives its verdict before the CPU's token
      is in `first`, when the packet has just arrived: the token is then in two
      queues. */
  lemma ReturnFirstCopiesTheToken(c: Setup, k: Core, h: Hist, o1: Outside, o2: Outside)
    requires Formed(c, k.vm.mem) && Inv(k.vm, h, c.cap) && Ready(EnvOf(c, k.vm.mem), SysOf(k))
             && GoodOutside(c, k, h, o1)
    requires IsRetImm(c.code[0])
    requires var q := k.vm.mem.p3.cpu; q.first == 0 && q.second == 0 && q.third != 0
    ensures var k1 := CoreNext(c, k, o1);
      && Decides(k1.cpu) && k1.vm.mem.p3.cpu.first == 0
      && Formed(c, k1.vm.mem) && !Conserved(CoreNext(c, k1, o2).vm.mem.p3)
  {
    var e, s := EnvOf(c, k.vm.mem), SysOf(k);
    var i1 := InputOf(c, k, o1);
    var k1 := CoreNext(c, k, o1);
    ReadyInput(c, k, h, o1);
    FirstFetch(e, s);
    EnvShape(c, k.vm.mem);
    ReadyEdgeOfCpu(c, k, o1);
    ArrivalMovesUp(c, k, o1);
    BusSized(c, k, h, o1);
    hide *;
    SetupSizes(c, k.vm.mem);
    InvStep(k.vm, h, i1, c.cap);
    CoreNextParts(c, k, o1);
    SnDataIsBusData(k.vm, i1);
    FormedStep(c, k.vm.mem, RequestsOf(k.vm, i1));
    CoreNextParts(c, k1, o2);
    EarlyVerdict(k1.vm, HistNext(h, k.vm, i1), InputOf(c, k1, o2), c.cap);
    InputVerdict(c, k1, o2);
  }

  lemma BusSized(c: Setup, k: Core, h: Hist, o: Outside)
    requires GoodOutside(c, k, h, o)
    ensures |o.bus.data.hi| == |o.bus.data.lo| == c.W
  {
  }

  lemma InputVerdict(c: Setup, k: Core, o: Outside)
    requires c.W > 0
    ensures var i := InputOf(c, k, o); i.acc || i.rej <==> Decides(k.cpu)
  {
    hide Accepts, Rejects;
  }

  lemma ReadyInput(c: Setup, k: Core, h: Hist, o: Outside)
    requires Formed(c, k.vm.mem) && Ready(EnvOf(c, k.vm.mem), SysOf(k)) && GoodOutside(c, k, h, o)
    ensures GoodInput(h, k.vm, InputOf(c, k, o), c.cap) && !Decides(k.cpu)
  {
    IdleIsQuiet(EnvOf(c, k.vm.mem), SysOf(k));
    hide Ready, EnvOf, FwdIdle, GoodBus;
  }

  /** After the first fetch stage 1 holds instruction 0. */
  lemma FirstFetch(e: Env, s: Sys)
    requires Ready(e, s)
    ensures var c := SysNext(e, s, false).c; c.valid0 && c.ir == e.code[0]
  {
    hide SysNext, Flush, ReadsEnabled, Refetch;
    FlushPc(e, s);
    RefetchEdge(e, s, Flush(e, s, 0));
  }

  lemma ReadyEdgeOfCpu(c: Setup, k: Core, o: Outside)
    requires Formed(c, k.vm.mem) && Head(k.vm.mem.p3.cpu) != 0
    requires IsRetImm(c.code[0])
    requires var c1 := SysNext(EnvOf(c, k.vm.mem), SysOf(k), false).c; c1.valid0 && c1.ir == c.code[0]
    ensures Decides(CoreNext(c, k, o).cpu)
  {
    CoreNextParts(c, k, o);
    hide Formed, EnvOf, CoreNext, CpuNext, Head, DataTo;
  }

  lemma ArrivalMovesUp(c: Setup, k: Core, o: Outside)
    requires Formed(c, k.vm.mem) && !Decides(k.cpu)
    requires var q := k.vm.mem.p3.cpu; q.first == 0 && q.second == 0 && q.third != 0
    ensures var q := CoreNext(c, k, o).vm.mem.p3.cpu; q.first == 0 && q.second != 0
  {
    CoreNextParts(c, k, o);
    InputVerdict(c, k, o);
    hide Formed, EnvOf, CoreNext, CpuNext, DataTo, Decides, InputOf, MemNext, VmNext, SnQueueNext, Head, SnDone,
         FwdDone;
  }

  /** A verdict before `first` leaves a copy of the token behind. */
  lemma EarlyVerdict(v: Vm, h: Hist, i: Input, cap: nat)
    requires Inv(v, h, cap)
    ensures (i.acc || i.rej) && v.mem.p3.cpu.first == 0 && v.mem.p3.cpu.second != 0 ==>
            !Conserved(P3Next(v.mem.p3, PulsesOf(v, i)))
  {
    hide Stored, SnHolds, Timely, Books, Whole, Presenting, P3Next, Shaped;
    HeadIsOldest(v.mem.p3.fwd);
    if (i.acc || i.rej) && v.mem.p3.cpu.first == 0 && v.mem.p3.cpu.second != 0 {
      assert Owning(v.mem.p3, PulsesOf(v, i));
      ConservedIff(v.mem.p3, PulsesOf(v, i));
    }
  }

  lemma SetupSizes(c: Setup, m: Mem)
    requires Formed(c, m)
    ensures c.W > 0 && c.cap > 0
  {
  }

  // ---------------------------------------------------------- ... from reset

  lemma WaitingKeepsReady(c: Setup, k: Core, o: Outside)
    requires Formed(c, k.vm.mem) && Formed(c, CoreNext(c, k, o).vm.mem)
    requires !HasPacket(k) && Ready(EnvOf(c, k.vm.mem), SysOf(k))
    ensures var k' := CoreNext(c, k, o); Ready(EnvOf(c, k'.vm.mem), SysOf(k'))
    ensures !Accepts(k.cpu) && !Rejects(k.cpu)
  {
    var e, s := EnvOf(c, k.vm.mem), SysOf(k);
    var k' := CoreNext(c, k, o);
    EnvShape(c, k.vm.mem);
    EnvShape(c, k'.vm.mem);
    IdleIsQuiet(e, s);
    DecidesMeans(k.cpu);
    hide Formed, Ready, EnvOf, VmNext, CpuNext, DataTo, Head, InputOf, RawEnv.Size, Accepts, Rejects, Decides;
    HoldKeepsReady(e, s);
    ReadyTransfers(e, SysNext(e, s, true), EnvOf(c, k'.vm.mem), SysOf(k'));
  }

  /** Nothing waits for the CPU, and the snooper is n beats into a packet. */
  ghost predicate BeforeFirst(c: Setup, k: Core, h: Hist, n: nat) {
    && Formed(c, k.vm.mem) && Writing(k.vm, h, n, c.cap) && Ready(EnvOf(c, k.vm.mem), SysOf(k))
  }

  function BeatIn(d: Beat, last: bool): Outside { Outside(Bus(d, true, true, last), true, true) }

  lemma BeatInput(c: Setup, k: Core, d: Beat, last: bool)
    requires c.W > 0 && !Accepts(k.cpu) && !Rejects(k.cpu)
    ensures var i := InputOf(c, k, BeatIn(d, last)); Beats(i, last) && i.bus.last == last && i.bus.data == d
  {
    hide Accepts, Rejects;
  }

  lemma BeatOutside(c: Setup, k: Core, h: Hist, d: Beat, last: bool)
    requires c.W > 0 && GoodInput(h, k.vm, InputOf(c, k, BeatIn(d, last)), c.cap) && |d.hi| == |d.lo| == c.W
    ensures GoodOutside(c, k, h, BeatIn(d, last))
  {
    hide GoodBus, TailWrite, FwdIdle;
  }

  /** One beat into the machine, while the CPU has nothing to do. */
  lemma CoreBeat(c: Setup, k: Core, h: Hist, d: Beat, last: bool, n: nat)
    requires BeforeFirst(c, k, h, n) && !HasPacket(k) && Head(k.vm.mem.p3.sn) != 0 && |d.hi| == |d.lo| == c.W
    requires (last ==> n >= 2) && n + (if last then 1 else 2) <= c.cap
    ensures Formed(c, k.vm.mem) && c.W > 0 && GoodOutside(c, k, h, BeatIn(d, last))
    ensures var k' := CoreNext(c, k, BeatIn(d, last));
      && BeforeFirst(c, k', HistNext(h, k.vm, InputOf(c, k, BeatIn(d, last))), if last then 0 else n + 1)
      && k'.vm.mem.p3 == P3Next(k.vm.mem.p3, if last then SN_DONE else NO_PULSE)
  {
    hide *;
    BeforeFirstMeans(c, k, h, n);
    SetupSizes(c, k.vm.mem);
    var o := BeatIn(d, last);
    IdleIsQuiet(EnvOf(c, k.vm.mem), SysOf(k));
    DecidesMeans(k.cpu);
    SysDependsOn(k);
    BeatInput(c, k, d, last);
    var i := InputOf(c, k, o);
    BeatStep(k.vm, h, i, n, c.cap);
    BeatOutside(c, k, h, d, last);
    CoreNextParts(c, k, o);
    SnDataIsBusData(k.vm, i);
    FormedStep(c, k.vm.mem, RequestsOf(k.vm, i));
    WaitingKeepsReady(c, k, o);
    BeforeFirstIs(c, CoreNext(c, k, o), HistNext(h, k.vm, i), if last then 0 else n + 1);
  }

  lemma SysDependsOn(k: Core)
    ensures SysOf(k).c == k.cpu
  {
  }

  lemma BeforeFirstMeans(c: Setup, k: Core, h: Hist, n: nat)
    requires BeforeFirst(c, k, h, n)
    ensures Formed(c, k.vm.mem) && Writing(k.vm, h, n, c.cap) && Ready(EnvOf(c, k.vm.mem), SysOf(k))
  {
    hide Formed, Writing, Ready;
  }

  lemma BeforeFirstIs(c: Setup, k: Core, h: Hist, n: nat)
    requires Formed(c, k.vm.mem) && Writing(k.vm, h, n, c.cap) && Ready(EnvOf(c, k.vm.mem), SysOf(k))
    ensures BeforeFirst(c, k, h, n)
  {
    hide Formed, Writing, Ready;
  }

  ghost function NextLog(c: Setup, a: Log, o: Outside): Log
    requires Formed(c, a.k.vm.mem)
  {
    Log(CoreNext(c, a.k, o), HistNext(a.h, a.k.vm, InputOf(c, a.k, o)), LogNext(c, a.l, a.k))
  }

  lemma NextLogIs(c: Setup, a: Log, o: Outside)
    requires Formed(c, a.k.vm.mem)
    ensures var b := NextLog(c, a, o);
            b.k == CoreNext(c, a.k, o) && c.W > 0 && b.h == HistNext(a.h, a.k.vm, InputOf(c, a.k, o))
    ensures GoodOutside(c, a.k, a.h, o) ==> CoreCycle(c, o, a, NextLog(c, a, o))
  {
    SetupSizes(c, a.k.vm.mem);
    hide Formed, CoreNext, HistNext, LogNext, GoodOutside;
  }

  lemma NoPacketYet()
    ensures P3_RESET.cpu == Slots(0, 0, 0) && P3Next(P3_RESET, NO_PULSE) == P3_RESET && Head(P3_RESET.sn) != 0
    ensures P3Next(P3_RESET, SN_DONE).cpu == Slots(0, 0, 1) && Head(P3Next(P3_RESET, SN_DONE).sn) != 0
  {
  }

  lemma NoPacketMeans(k: Core)
    requires k.vm.mem.p3 == P3_RESET
    ensures !HasPacket(k) && Head(k.vm.mem.p3.sn) != 0
  {
  }

  lemma CoreStartsFilling(c: Setup, k: Core)
    requires Formed(c, k.vm.mem) && Start(k.vm, c.cap) && Ready(EnvOf(c, k.vm.mem), SysOf(k))
    ensures BeforeFirst(c, k, NO_HISTORY, 0) && k.vm.mem.p3 == P3_RESET
  {
    hide Formed, Ready, Writing;
    StartIsWriting(k.vm, c.cap);
  }

  /** The first packet after reset: three beats, all captured. */
  lemma FirstPacket(c: Setup, k: Core, d: Beat) returns (run: seq<Log>)
    requires Formed(c, k.vm.mem) && Start(k.vm, c.cap) && Ready(EnvOf(c, k.vm.mem), SysOf(k)) && c.cap >= 3
    requires |d.hi| == |d.lo| == c.W
    ensures |run| == 4 && run[0] == Log(k, NO_HISTORY, CpuLog(true, OriginOf(c, k), []))
    ensures CoreCycle(c, BeatIn(d, false), run[0], run[1]) && CoreCycle(c, BeatIn(d, false), run[1], run[2])
    ensures CoreCycle(c, BeatIn(d, true), run[2], run[3])
    ensures BeforeFirst(c, run[3].k, run[3].h, 0) && run[3].k.vm.mem.p3 == P3Next(P3_RESET, SN_DONE)
  {
    hide *;
    var b, l := BeatIn(d, false), BeatIn(d, true);
    CoreStartsFilling(c, k);
    NoPacketYet();
    NoPacketMeans(k);
    var a := Log(k, NO_HISTORY, CpuLog(true, OriginOf(c, k), []));
    CoreBeat(c, a.k, a.h, d, false, 0);
    NextLogIs(c, a, b);
    var a1 := NextLog(c, a, b);
    NoPacketMeans(a1.k);
    CoreBeat(c, a1.k, a1.h, d, false, 1);
    NextLogIs(c, a1, b);
    var a2 := NextLog(c, a1, b);
    NoPacketMeans(a2.k);
    CoreBeat(c, a2.k, a2.h, d, true, 2);
    NextLogIs(c, a2, l);
    run := [a, a1, a2, NextLog(c, a2, l)];
  }

  /** From reset, with any program that begins with RET #k: one packet of three
      beats, and in the second cycle after it the verdict comes before the token
      is in `first`; whatever happens in that cycle, the token is then in two
      queues. */
  lemma ReturnFirstFromReset(c: Setup, k: Core, d: Beat, o2: Outside) returns (outs: seq<Outside>, run: seq<Log>)
    requires Formed(c, k.vm.mem) && Start(k.vm, c.cap) && Ready(EnvOf(c, k.vm.mem), SysOf(k)) && c.cap >= 3
    requires |d.hi| == |d.lo| == c.W && IsRetImm(c.code[0])
    ensures |outs| == 4 && CoreRun(c, outs, run) && run[0].k == k
    ensures |run| == 5 && Decides(run[4].k.cpu) && run[4].k.vm.mem.p3.cpu.first == 0
    ensures Formed(c, run[4].k.vm.mem) && !Conserved(CoreNext(c, run[4].k, o2).vm.mem.p3)
  {
    hide *;
    var b, l := BeatIn(d, false), BeatIn(d, true);
    run := FirstPacket(c, k, d);
    NoPacketYet();
    var a := run[3];
    BeforeFirstMeans(c, a.k, a.h, 0);
    WritingMeans(a.k.vm, a.h, 0, c.cap);
    SetupSizes(c, a.k.vm.mem);
    IdleIsQuiet(EnvOf(c, a.k.vm.mem), SysOf(a.k));
    DecidesMeans(a.k.cpu);
    SysDependsOn(a.k);
    BeatInput(c, a.k, d, false);
    BeatStep(a.k.vm, a.h, InputOf(c, a.k, b), 0, c.cap);
    BeatOutside(c, a.k, a.h, d, false);
    ReturnFirstCopiesTheToken(c, a.k, a.h, b, o2);
    NextLogIs(c, a, b);
    outs := [b, b, l, b];
    run := run + [NextLog(c, a, b)];
    RunOfFour(c, k, outs, run);
  }

  lemma RunOfFour(c: Setup, k: Core, outs: seq<Outside>, run: seq<Log>)
    requires Formed(c, k.vm.mem) && Start(k.vm, c.cap) && Ready(EnvOf(c, k.vm.mem), SysOf(k))
    requires |outs| == 4 && |run| == 5 && run[0] == Log(k, NO_HISTORY, CpuLog(true, OriginOf(c, k), []))
    requires CoreCycle(c, outs[0], run[0], run[1]) && CoreCycle(c, outs[1], run[1], run[2])
    requires CoreCycle(c, outs[2], run[2], run[3]) && CoreCycle(c, outs[3], run[3], run[4])
    ensures CoreRun(c, outs, run)
  {
    hide CoreCycle, Formed, Start, Ready, OriginOf;
  }
}
