/** The whole filter against its machines: what every machine sees is a run of
    the single-machine model, and the shared streams are an interleaving of
    whole packets. */
module ParallelProof {
  import opened PacketRam
  import opened Isa
  import opened PipelineStages
  import opened PipelineDatapath
  import opened PipelineProof
  import opened PipelineTheorems
  import opened CpuProgress
  import opened PipelinedCpu
  import opened JobQueues
  import opened P3Control
  import opened BufferMuxes
  import opened PacketMem
  import opened Snooper
  import opened Forwarder
  import opened VirtualMachine
  import opened EndToEnd
  import opened FilterCore
  import opened Dispatch
  import opened ParallelFilters

  // ------------------------------------------------- one machine's own view

  /** A forwarder that does nothing: what a machine sees of the forwarder while
      it is not enabled. */
  const RESTING := Fwd(0, false, false, NO_DATA, false, false)

  /** Machine j with the part of the snooper and of the forwarder it sees: the
      beats written to it so far, and the forwarder while it is enabled. */
  function View(f: Filter, written: Packet, j: nat): Core
    requires j < |f.machines|
  {
    var m := f.machines[j];
    Core(Vm(Snoop(|written|, false), m.mem, if Enabled(FwdEnables(f), j) then f.fwd else RESTING), m.cpu)
  }

  /** The part of the traffic it sees. */
  function OutsideOf(f: Filter, x: Streams, j: nat): Outside {
    var sn := Enabled(SnEnables(f), j);
    Outside(Bus(x.bus.data, Writes(f, x) && sn, true, Captures(f, x) && sn), Enabled(FwdEnables(f), j), x.tready)
  }

  /** An enabled machine is ready, its view of the snooper is right, and the
      merged data and length are its own. */
  predicate Connected(f: Filter, x: Streams, c: Setup, lenWidth: nat, written: Packet, j: nat)
    requires Wired(f) && j < |f.machines| && c.W > 0
  {
    var m := f.machines[j].mem;
    && (Enabled(SnEnables(f), j) ==> ReadyForSnooper(m))
    && (Enabled(SnEnables(f), j) && Writes(f, x) ==> f.sn.addr == |written|)
    && (Enabled(FwdEnables(f), j) ==>
        ReadyForForwarder(m) && AnyToSend(f) && SentLen(f, lenWidth) == LenOf(m) && SentData(f, c.W) == DataOf(m))
  }

  /** Two requests that differ only in the addresses of accesses that are not
      made. */
  predicate SameAccesses(a: Requests, b: Requests) {
    && a.pulses == b.pulses && a.cpuWordAddr == b.cpuWordAddr && a.cpuRd == b.cpuRd
    && a.snWr == b.snWr && (a.snWr ==> a.snAddr == b.snAddr && a.snData == b.snData)
    && a.fwdRd == b.fwdRd && (a.fwdRd ==> a.fwdAddr == b.fwdAddr)
  }

  lemma RamSameAccess(r: Ram, sel: Token, a: Requests, b: Requests, lenRst: bool)
    requires |r.data| >= 2 && SameAccesses(a, b)
    ensures RamNext(r, CommandOf(a, sel), lenRst) == RamNext(r, CommandOf(b, sel), lenRst)
  {
  }

  lemma MemSameAccess(m: Mem, a: Requests, b: Requests)
    requires |m.ping.data| >= 2 && |m.pang.data| >= 2 && |m.pung.data| >= 2 && SameAccesses(a, b)
    ensures MemNext(m, a) == MemNext(m, b)
  {
    hide RamNext, P3Next, SelOf;
    RamSameAccess(m.ping, SelOf(m, 1), a, b, LenRst(m, 1, a.pulses));
    RamSameAccess(m.pang, SelOf(m, 2), a, b, LenRst(m, 2, a.pulses));
    RamSameAccess(m.pung, SelOf(m, 3), a, b, LenRst(m, 3, a.pulses));
  }

  lemma RestingIsIdle(tready: bool, len: nat, data: Beat)
    ensures FwdIdle(RESTING) && !FwdDone(RESTING, tready) && !FwdRdEn(RESTING, false, len, tready)
    ensures FwdIdle(FwdNext(RESTING, false, len, data, tready))
  {
  }

  /** The machine's requests in the filter are those of its view. */
  lemma ViewRequests(f: Filter, x: Streams, c: Setup, lenWidth: nat, written: Packet, j: nat)
    requires Wired(f) && j < |f.machines| && c.W > 0 && Connected(f, x, c, lenWidth, written, j)
    ensures var k := View(f, written, j); var i := InputOf(c, k, OutsideOf(f, x, j));
      && SameAccesses(RequestsOf(k.vm, i), RequestsTo(f, x, c, lenWidth, j))
      && SnWrEn(k.vm.sn, i.bus, ReadyForSnooper(k.vm.mem)) == (Writes(f, x) && Enabled(SnEnables(f), j))
      && SnDone(k.vm.sn, i.bus, ReadyForSnooper(k.vm.mem)) == (Captures(f, x) && Enabled(SnEnables(f), j))
  {
    hide Enables, MergedLen, MergedBeat, Accepts, Rejects, LenTo, DataTo, Head, SnReadies, FwdReadies, Arbitrate,
         Wired, FwdDone, FwdRdEn;
    var m := f.machines[j].mem;
    RestingIsIdle(x.tready, LenOf(m), DataOf(m));
  }

  /** One edge of the machine in the filter is one edge of its view. */
  lemma ViewEdge(f: Filter, x: Streams, c: Setup, lenWidth: nat, written: Packet, j: nat)
    requires Wired(f) && j < |f.machines| && Formed(c, f.machines[j].mem) && Connected(f, x, c, lenWidth, written, j)
    ensures var k := View(f, written, j); var k' := CoreNext(c, k, OutsideOf(f, x, j));
      && Machine(k'.vm.mem, k'.cpu) == MachineNext(f, x, c, lenWidth, j)
      && (Enabled(FwdEnables(f), j) ==> k'.vm.fwd == FwdNext(f.fwd, AnyToSend(f), SentLen(f, lenWidth), SentData(f,
          c.W), x.tready))
      && (!Enabled(FwdEnables(f), j) ==> FwdIdle(k'.vm.fwd))
  {
    hide Enables, MergedLen, MergedBeat, Accepts, Rejects, LenTo, DataTo, Head, SnReadies, FwdReadies, Arbitrate,
         Wired, FwdDone, FwdRdEn,
         Sized, MemNext, CpuNext, SnoopNext, FwdNext, RequestsOf, RequestsTo, SameAccesses, RamOf;
    var k := View(f, written, j);
    var i := InputOf(c, k, OutsideOf(f, x, j));
    ViewRequests(f, x, c, lenWidth, written, j);
    FormedShape(c, f.machines[j].mem);
    MemSameAccess(f.machines[j].mem, RequestsOf(k.vm, i), RequestsTo(f, x, c, lenWidth, j));
    RestingIsIdle(x.tready, LenOf(f.machines[j].mem), DataOf(f.machines[j].mem));
  }

  // -------------------------------------------------- one machine's invariant

  /** The view of machine j keeps the invariant of a machine of its own, and it is
      given only beats of packets that it gets whole. */
  ghost predicate ViewInv(c: Setup, f: Filter, h: Hist, l: CpuLog, g: Progress, j: nat) {
    && j < |f.machines| && h.watch.current == h.watch.written
    && CoreInv(c, View(f, h.watch.written, j), h, l, g)
  }

  lemma ViewInvMeans(c: Setup, f: Filter, h: Hist, l: CpuLog, g: Progress, j: nat)
    requires ViewInv(c, f, h, l, g, j)
    ensures j < |f.machines| && h.watch.current == h.watch.written
    ensures CoreInv(c, View(f, h.watch.written, j), h, l, g)
  {
    hide CoreInv, View;
  }

  lemma ViewInvIs(c: Setup, f: Filter, h: Hist, l: CpuLog, g: Progress, j: nat)
    requires j < |f.machines| && h.watch.current == h.watch.written
    requires CoreInv(c, View(f, h.watch.written, j), h, l, g)
    ensures ViewInv(c, f, h, l, g, j)
  {
    hide CoreInv, View;
  }

  /** A resting forwarder may be exchanged for any other idle one. */
  lemma SwapIdle(c: Setup, k: Core, h: Hist, l: CpuLog, g: Progress, fwd: Fwd)
    requires CoreInv(c, k, h, l, g) && FwdIdle(k.vm.fwd) && FwdIdle(fwd)
    ensures CoreInv(c, Core(k.vm.(fwd := fwd), k.cpu), h, l, g)
  {
    hide Formed, Stored, Filling, At, Conserved, Shaped, Whole, SnHolds, Queued, Books, AllJudged, EnvOf, DataTo,
         Head, Decides;
  }

  /** The snooper's view after an edge counts the beats given to the machine. */
  lemma ViewOfSnooper(w: Watch, b: Bus, ready: bool, cap: nat)
    requires cap > 0 && b.ready && (b.last ==> b.valid) && (b.valid ==> ready)
    requires b.valid && !b.last ==> |w.written| + 1 < cap
    ensures var s := Snoop(|w.written|, false);
            && SnoopNext(s, b, ready, cap) == Snoop(|WatchNext(w, s, b, ready).written|, false)
            && (w.current == w.written ==> WatchNext(w, s, b, ready).current == WatchNext(w, s, b, ready).written)
  {
  }

  /** What a machine is given continues the packet that is on the bus. */
  predicate Fed(f: Filter, x: Streams, bus: Watch, given: Packet, j: nat) {
    Writes(f, x) && Enabled(SnEnables(f), j) ==> given == bus.current
  }

  lemma ViewIsGood(f: Filter, x: Streams, c: Setup, bus: Watch, h: Hist, l: CpuLog, g: Progress,
          j: nat)
    requires j < |f.machines| && Formed(c, f.machines[j].mem)
    requires ViewInv(c, f, h, l, g, j) && Fed(f, x, bus, h.watch.written, j)
    requires GoodBus(bus, x.bus, c.cap) && |x.bus.data.hi| == |x.bus.data.lo| == c.W
    ensures GoodOutside(c, View(f, h.watch.written, j), h, OutsideOf(f, x, j))
    ensures var b := OutsideOf(f, x, j).bus;
            b.ready && (b.last ==> b.valid) && (b.valid && !b.last ==> |h.watch.written| + 1 < c.cap)
  {
    hide Formed, At, Conserved, Shaped, SnHolds, Queued, Books, AllJudged, EnvOf, DataTo, Head, Enables,
         CpuTimely, FwdHolds, Timely, MemReady, TakenOf;
    assert h.watch.current == h.watch.written;
    RestingIsIdle(x.tready, 0, NO_DATA);
  }

  /** The history of machine j after a cycle. */
  function MachineHist(f: Filter, x: Streams, c: Setup, h: Hist, j: nat): Hist
    requires j < |f.machines| && c.W > 0
  {
    var k := View(f, h.watch.written, j);
    HistNext(h, k.vm, InputOf(c, k, OutsideOf(f, x, j)))
  }

  ghost function MachineLog(f: Filter, c: Setup, h: Hist, l: CpuLog, j: nat): CpuLog
    requires j < |f.machines| && Formed(c, f.machines[j].mem)
  {
    LogNext(c, l, View(f, h.watch.written, j))
  }

  lemma ViewSnooperEdge(f: Filter, x: Streams, c: Setup, lenWidth: nat, h: Hist, j: nat)
    requires Wired(f) && j < |f.machines| && Formed(c, f.machines[j].mem)
    requires Connected(f, x, c, lenWidth, h.watch.written, j)
    requires var b := OutsideOf(f, x, j).bus;
             b.ready && (b.last ==> b.valid) && (b.valid && !b.last ==> |h.watch.written| + 1 < c.cap)
    ensures var w := MachineHist(f, x, c, h, j).watch;
      && CoreNext(c, View(f, h.watch.written, j), OutsideOf(f, x, j)).vm.sn == Snoop(|w.written|, false)
      && (h.watch.current == h.watch.written ==> w.current == w.written)
  {
    hide Enables, CpuNext, MemNext, SnoopNext, WatchNext, RequestsOf, Sized, FormedRam, AnyToSend, MemReady, SentLen,
         SentData, FwdNext, Head;
    ViewOfSnooper(h.watch, OutsideOf(f, x, j).bus, ReadyForSnooper(f.machines[j].mem), c.cap);
  }

  /** The machine's view after an edge is the edge of its view, up to which
      idle forwarder it sees. */
  lemma ViewAfter(f: Filter, x: Streams, c: Setup, lenWidth: nat, h: Hist, f': Filter, j: nat)
    requires Wired(f) && j < |f.machines| && Formed(c, f.machines[j].mem)
    requires Connected(f, x, c, lenWidth, h.watch.written, j)
    requires var b := OutsideOf(f, x, j).bus;
             b.ready && (b.last ==> b.valid) && (b.valid && !b.last ==> |h.watch.written| + 1 < c.cap)
    requires |f'.machines| == |f.machines| && f'.machines[j] == MachineNext(f, x, c, lenWidth, j)
    requires f'.fwd == FwdNext(f.fwd, AnyToSend(f), SentLen(f, lenWidth), SentData(f, c.W), x.tready)
    requires Enabled(FwdEnables(f'), j) != Enabled(FwdEnables(f), j) ==> FwdIdle(f'.fwd)
    ensures var k' := CoreNext(c, View(f, h.watch.written, j), OutsideOf(f, x, j));
            var v' := View(f', MachineHist(f, x, c, h, j).watch.written, j);
            && v' == Core(k'.vm.(fwd := v'.vm.fwd), k'.cpu)
            && (var w := MachineHist(f, x, c, h, j).watch;
                h.watch.current == h.watch.written ==> w.current == w.written)
            && (v'.vm.fwd == k'.vm.fwd || (FwdIdle(v'.vm.fwd) && FwdIdle(k'.vm.fwd)))
  {
    ViewSnooperEdge(f, x, c, lenWidth, h, j);
    ViewEdge(f, x, c, lenWidth, h.watch.written, j);
    hide Formed, Enables, MachineNext, FwdNext, Wired, FwdIdle, SentLen, SentData, CpuNext, MemNext, OutsideOf,
         MachineHist, CoreNext,
         SnoopNext, Connected, AnyToSend, MemReady;
    assert FwdIdle(RESTING) by { RestingIsIdle(x.tready, 0, NO_DATA); }
  }

  lemma ViewFormed(f: Filter, c: Setup, written: Packet, j: nat)
    requires j < |f.machines| && Formed(c, f.machines[j].mem)
    ensures Formed(c, View(f, written, j).vm.mem) && c.W > 0 && c.cap > 0
  {
  }

  /** The view's own step. */
  lemma ViewStep(f: Filter, x: Streams, c: Setup, bus: Watch, h: Hist, l: CpuLog, g: Progress, j: nat)
    returns (g': Progress)
    requires j < |f.machines| && Formed(c, f.machines[j].mem) && Runnable(c.code) && Fed(f, x, bus, h.watch.written, j)
    requires GoodBus(bus, x.bus, c.cap) && |x.bus.data.hi| == |x.bus.data.lo| == c.W
    requires ViewInv(c, f, h, l, g, j)
    ensures CoreInv(c, CoreNext(c, View(f, h.watch.written, j), OutsideOf(f, x, j)), MachineHist(f, x, c, h, j),
                    MachineLog(f, c, h, l, j), g')
  {
    hide CoreInv, Formed, GoodOutside, GoodBus, Runnable, CoreNext, HistNext, Fed, OutsideOf, View, InputOf;
    ViewIsGood(f, x, c, bus, h, l, g, j);
    g' := CoreStep(c, View(f, h.watch.written, j), h, l, OutsideOf(f, x, j), g);
  }

  /** Every cycle of the filter is a cycle of each machine's view. */
  lemma MachineCycle(f: Filter, x: Streams, c: Setup, addrWidth: nat, bus: Watch, h: Hist, l: CpuLog, g: Progress,
          f': Filter, j: nat)
    returns (g': Progress)
    requires Wired(f) && j < |f.machines| && Formed(c, f.machines[j].mem) && Runnable(c.code)
    requires Connected(f, x, c, addrWidth + 1, h.watch.written, j) && Fed(f, x, bus, h.watch.written, j)
    requires GoodBus(bus, x.bus, c.cap) && |x.bus.data.hi| == |x.bus.data.lo| == c.W
    requires ViewInv(c, f, h, l, g, j)
    requires |f'.machines| == |f.machines| && f'.machines[j] == MachineNext(f, x, c, addrWidth + 1, j)
    requires f'.fwd == FwdNext(f.fwd, AnyToSend(f), SentLen(f, addrWidth + 1), SentData(f, c.W), x.tready)
    requires Enabled(FwdEnables(f'), j) != Enabled(FwdEnables(f), j) ==> FwdIdle(f'.fwd)
    ensures ViewInv(c, f', MachineHist(f, x, c, h, j), MachineLog(f, c, h, l, j), g', j)
  {
    hide *;
    ViewFormed(f, c, h.watch.written, j);
    var k' := CoreNext(c, View(f, h.watch.written, j), OutsideOf(f, x, j));
    var h' := MachineHist(f, x, c, h, j);
    var v' := View(f', h'.watch.written, j);
    ViewIsGood(f, x, c, bus, h, l, g, j);
    ViewAfter(f, x, c, addrWidth + 1, h, f', j);
    g' := ViewStep(f, x, c, bus, h, l, g, j);
    if v'.vm.fwd != k'.vm.fwd {
      SwapIdle(c, k', h', MachineLog(f, c, h, l, j), g', v'.vm.fwd);
    }
    ViewInvMeans(c, f, h, l, g, j);
    ViewInvIs(c, f', h', MachineLog(f, c, h, l, j), g', j);
  }

  // ---------------------------------------------------- the filter's history

  /** The bus, what each machine has done, the routing on both sides, and what
      has been transferred at the output; and what each CPU was started on. */
  datatype FilterHist = FilterHist(bus: Watch, snTrack: Track<Beat>, hs: seq<Hist>, logs: seq<CpuLog>,
      fwdTrack: Track<Flit>, out: seq<Flit>)

  function SnCycle(f: Filter, x: Streams): Cycle<Beat> {
    Cycle(SnReadies(f.machines), Writes(f, x), Captures(f, x), x.bus.data)
  }

  /** A cycle on the output: a beat is transferred when TVALID and TREADY are. */
  function FwdCycle(f: Filter, x: Streams, W: nat): Cycle<Flit>
    requires Wired(f)
  {
    Cycle(FwdReadies(f.machines), f.fwd.tvalid && x.tready, FwdDone(f.fwd, x.tready),
          Flit(TData(f.fwd, SentData(f, W)), f.fwd.tlast))
  }

  ghost function FilterHistNext(H: FilterHist, f: Filter, x: Streams, c: Setup): FilterHist
    requires Wired(f) && c.W > 0 && |H.hs| == |H.logs| == |f.machines|
    requires forall j :: 0 <= j < |f.machines| ==> Formed(c, f.machines[j].mem)
    requires |H.snTrack.partial| == |H.snTrack.got| && |H.fwdTrack.partial| == |H.fwdTrack.got|
  {
    FilterHist(
      WatchNext(H.bus, f.sn, x.bus, MemReady(f)),
      TrackNext(H.snTrack, SnCycle(f, x)),
      seq(|H.hs|, j requires 0 <= j < |H.hs| => MachineHist(f, x, c, H.hs[j], j)),
      seq(|H.hs|, j requires 0 <= j < |H.hs| => MachineLog(f, c, H.hs[j], H.logs[j], j)),
      TrackNext(H.fwdTrack, FwdCycle(f, x, c.W)),
      if FwdCycle(f, x, c.W).wr then H.out + [FwdCycle(f, x, c.W).beat] else H.out)
  }

  // ---------------------------------------------------------------- invariant

  function AsFlits(packets: seq<Packet>): (r: seq<seq<Flit>>)
    ensures |r| == |packets|
  {
    seq(|packets|, k requires 0 <= k < |packets| => Flits(packets[k]))
  }

  /** Machine j keeps its own invariant, and what the routing says it was given
      and has sent is what its history says. */
  ghost predicate MachineOk(c: Setup, f: Filter, H: FilterHist, g: Progress, j: nat) {
    && j < |f.machines| && j < |H.hs| && j < |H.logs|
    && j < |H.snTrack.partial| && j < |H.snTrack.got| && j < |H.fwdTrack.partial| && j < |H.fwdTrack.got|
    && var h := H.hs[j];
    && ViewInv(c, f, h, H.logs[j], g, j)
    && H.snTrack.partial[j] == h.watch.written && H.snTrack.got[j] == h.watch.captured
    && (h.fwdQ != [] ==> h.sent <= |h.fwdQ[0]|)
    && H.fwdTrack.partial[j] == Sending(h) && H.fwdTrack.got[j] == AsFlits(h.gone)
  }

  /** The shared part: the snooper's packet is the one being routed, both
      selections are in order, and the forwarder is idle whenever its machine
      may change. */
  ghost predicate Shared(c: Setup, f: Filter, H: FilterHist) {
    && Wired(f) && |H.hs| == |H.logs| == |f.machines|
    && Whole(H.bus, f.sn)
    && H.bus.written == H.snTrack.current && H.bus.captured == H.snTrack.sent
    && Routed(H.snTrack, SnReadies(f.machines)) && H.snTrack.s == f.snSel
    && Routed(H.fwdTrack, FwdReadies(f.machines)) && H.fwdTrack.s == f.fwdSel
    && (f.fwdSel.doSelect || !AnyReady(FwdReadies(f.machines)) ==> FwdIdle(f.fwd))
    && H.out == Concat(H.fwdTrack.sent) + H.fwdTrack.current
  }

  ghost predicate MachineFine(c: Setup, f: Filter, H: FilterHist, j: nat) {
    exists g :: MachineOk(c, f, H, g, j)
  }

  ghost predicate FilterInv(c: Setup, addrWidth: nat, f: Filter, H: FilterHist) {
    && c.cap == Pow2(addrWidth) && c.W > 0 && Runnable(c.code)
    && Shared(c, f, H)
    && forall j :: 0 <= j < |f.machines| ==> MachineFine(c, f, H, j)
  }

  /** The bus carries packets of three beats or more that fit a buffer, in beats
      of two W-byte words, and the snooper does not write the tail of a packet it
      skips. */
  predicate GoodStreams(c: Setup, f: Filter, H: FilterHist, x: Streams) {
    && GoodBus(H.bus, x.bus, c.cap) && |x.bus.data.hi| == |x.bus.data.lo| == c.W
    && !TailWrite(H.bus, f.sn, x.bus, MemReady(f))
  }

  // --------------------------------------------------------- one cycle, per j

  lemma OkIsFormed(c: Setup, f: Filter, H: FilterHist, g: Progress, j: nat)
    requires MachineOk(c, f, H, g, j)
    ensures Formed(c, f.machines[j].mem) && c.W > 0 && c.cap > 0
    ensures Conserved(f.machines[j].mem.p3)
  {
    hide At, Stored, AllJudged, Conserved, Books, Timely, CpuTimely, SnHolds, Queued, FwdHolds;
  }

  /** The snooper's enables in this cycle. */
  lemma SnooperSelection(c: Setup, f: Filter, H: FilterHist, x: Streams, j: nat)
    requires Shared(c, f, H) && j < |f.machines| && Enabled(SnEnables(f), j)
    requires !TailWrite(H.bus, f.sn, x.bus, MemReady(f))
    ensures ReadyForSnooper(f.machines[j].mem)
    ensures H.snTrack.partial[j] == H.bus.written
    ensures Writes(f, x) ==> f.sn.addr == |H.bus.written| && H.bus.written == H.bus.current
  {
    hide Enables, Wired, Arbitrate;
    var readies := SnReadies(f.machines);
    var i := OneEnabled(f.snSel, readies, H.snTrack.owner);
    assert AnyReady(readies);
    assert j == i;
  }

  lemma OutputFormed(c: Setup, m: Mem)
    requires Formed(c, m) && Head(m.p3.fwd) != 0
    ensures |DataOf(m).hi| == |DataOf(m).lo| == c.W && LenOf(m) < 2 * c.cap
  {
    hide Sized;
  }

  /** The forwarder's enables in this cycle: only a machine with a packet. */
  lemma ForwarderOwner(c: Setup, f: Filter, H: FilterHist, j: nat)
    requires Shared(c, f, H) && j < |f.machines| && Enabled(FwdEnables(f), j)
    ensures ReadyForForwarder(f.machines[j].mem) && AnyToSend(f)
    ensures OneHot(FwdEnables(f), j) && |FwdEnables(f)| >= PadTo3(|f.machines|)
  {
    hide Enables, Arbitrate, Whole, PadTo3, PadTo4;
    var readies := FwdReadies(f.machines);
    var i := OneEnabled(f.fwdSel, readies, H.fwdTrack.owner);
    ArbiterPicksLowest(readies, 0);
    assert AnyReady(readies);
    assert j == i;
  }

  /** What arrives through the merge is its data and its length. */
  lemma ForwarderMerge(c: Setup, addrWidth: nat, f: Filter, j: nat)
    requires c.cap == Pow2(addrWidth) && Wired(f) && j < |f.machines| && Formed(c, f.machines[j].mem)
    requires ReadyForForwarder(f.machines[j].mem) && OneHot(FwdEnables(f), j) && |FwdEnables(f)| >= PadTo3(|f.machines|)
    ensures SentLen(f, addrWidth + 1) == LenOf(f.machines[j].mem) && SentData(f, c.W) == DataOf(f.machines[j].mem)
  {
    hide FwdEnables, Formed, MergedBeat, MergedLen, DataOf, LenOf, Head, OneHot, PadTo3;
    var ms := f.machines;
    OutputFormed(c, ms[j].mem);
    MergedIsOwners(seq(|ms|, k requires 0 <= k < |ms| => DataOf(ms[k].mem)), seq(|ms|,
        k requires 0 <= k < |ms| => LenOf(ms[k].mem)),
                   FwdEnables(f), c.W, addrWidth + 1, j);
  }

  lemma WiredMeans(c: Setup, f: Filter, H: FilterHist)
    requires Shared(c, f, H)
    ensures Wired(f) && |H.hs| == |H.logs| == |f.machines|
  {
  }

  /** Everything MachineCycle asks of a machine. */
  lemma MachineConnected(c: Setup, addrWidth: nat, f: Filter, H: FilterHist, x: Streams, g: Progress, j: nat)
    requires c.cap == Pow2(addrWidth) && Shared(c, f, H) && MachineOk(c, f, H, g, j)
    requires Formed(c, f.machines[j].mem) && !TailWrite(H.bus, f.sn, x.bus, MemReady(f))
    ensures Connected(f, x, c, addrWidth + 1, H.hs[j].watch.written, j) && Fed(f, x, H.bus, H.hs[j].watch.written, j)
  {
    assert H.snTrack.partial[j] == H.hs[j].watch.written;
    WiredMeans(c, f, H);
    hide CoreInv, Shared, Formed, View, SentLen, SentData, AnyToSend, Writes, Sending, AsFlits, Enabled, MachineOk,
         Wired, OneHot, PadTo3, FwdEnables, SnEnables;
    if Enabled(SnEnables(f), j) {
      SnooperSelection(c, f, H, x, j);
    }
    if Enabled(FwdEnables(f), j) {
      ForwarderOwner(c, f, H, j);
      ForwarderMerge(c, addrWidth, f, j);
    }
  }

  /** What the single-machine theory says about the view in this cycle. */
  lemma ViewInput(c: Setup, f: Filter, x: Streams, bus: Watch, h: Hist, l: CpuLog, g: Progress,
          j: nat)
    requires j < |f.machines| && Formed(c, f.machines[j].mem) && Fed(f, x, bus, h.watch.written, j)
    requires ViewInv(c, f, h, l, g, j)
    requires GoodBus(bus, x.bus, c.cap) && |x.bus.data.hi| == |x.bus.data.lo| == c.W
    ensures c.W > 0 && c.cap > 0
    ensures var k := View(f, h.watch.written, j); var i := InputOf(c, k, OutsideOf(f, x, j));
      && Inv(k.vm, h, c.cap) && GoodInput(h, k.vm, i, c.cap)
      && Conserved(f.machines[j].mem.p3) && Disciplined(f.machines[j].mem.p3, PulsesOf(k.vm, i))
  {
    ViewIsGood(f, x, c, bus, h, l, g, j);
    var k, o := View(f, h.watch.written, j), OutsideOf(f, x, j);
    hide At, AllJudged, FwdHolds, Timely, Books, SnHolds, Queued, Whole, GoodInput, Disciplined, Conserved,
         Shaped, Enables, CpuTimely,
         PulsesOf, InputOf, GoodOutside, GoodBus, EnvOf;
    assert c.W > 0;
    CpuIsDisciplined(c, k, h, o, l.idle);
    CycleIsDisciplined(k.vm, h, InputOf(c, k, o), c.cap);
  }

  /** A machine that is ready for the snooper or for the forwarder stays so
      until that agent gives it its done pulse. */
  lemma ReadinessPersists(c: Setup, f: Filter, x: Streams, lenWidth: nat, bus: Watch, h: Hist, l: CpuLog, g: Progress,
          j: nat)
    requires Wired(f) && j < |f.machines| && Formed(c, f.machines[j].mem) && Fed(f, x, bus, h.watch.written, j)
    requires ViewInv(c, f, h, l, g, j) && Connected(f, x, c, lenWidth, h.watch.written, j)
    requires GoodBus(bus, x.bus, c.cap) && |x.bus.data.hi| == |x.bus.data.lo| == c.W
    ensures var m, m' := f.machines[j].mem, MachineNext(f, x, c, lenWidth, j).mem;
      && (ReadyForSnooper(m) && !(Captures(f, x) && Enabled(SnEnables(f), j)) ==> ReadyForSnooper(m'))
      && (ReadyForForwarder(m) && !(FwdDone(f.fwd, x.tready) && Enabled(FwdEnables(f), j)) ==> ReadyForForwarder(m'))
  {
    ViewInput(c, f, x, bus, h, l, g, j);
    ViewRequests(f, x, c, lenWidth, h.watch.written, j);
    FormedShape(c, f.machines[j].mem);
    var m, rq := f.machines[j].mem, RequestsTo(f, x, c, lenWidth, j);
    assert Disciplined(m.p3, rq.pulses);
    hide CoreInv, Formed, Conserved, Disciplined, Head, P3Next, RamNext, CommandFor, LenRst, Inv, GoodInput, View,
         Connected, Fed, GoodBus, SameAccesses,
         CpuNext, EnvOf, Enables, FwdDone, Captures, Writes, RdEn;
    HeadPersists(m.p3, rq.pulses);
  }

  /** The done pulse of the forwarder leaves it idle. */
  lemma DoneMeansIdle(c: Setup, f: Filter, x: Streams, lenWidth: nat, bus: Watch, h: Hist, l: CpuLog, g: Progress,
          j: nat)
    requires Wired(f) && j < |f.machines| && Formed(c, f.machines[j].mem) && Fed(f, x, bus, h.watch.written, j)
    requires ViewInv(c, f, h, l, g, j) && Connected(f, x, c, lenWidth, h.watch.written, j)
    requires GoodBus(bus, x.bus, c.cap) && |x.bus.data.hi| == |x.bus.data.lo| == c.W
    requires Enabled(FwdEnables(f), j) && FwdDone(f.fwd, x.tready)
    ensures FwdIdle(FwdNext(f.fwd, AnyToSend(f), SentLen(f, lenWidth), SentData(f, c.W), x.tready))
  {
    ViewInput(c, f, x, bus, h, l, g, j);
    ViewEdge(f, x, c, lenWidth, h.watch.written, j);
    var k := View(f, h.watch.written, j);
    ForwarderStep(k.vm, h, InputOf(c, k, OutsideOf(f, x, j)), c.cap);
    hide CoreInv, Formed, Inv, GoodInput, Conserved, Disciplined, FwdNext, FwdDone, Enables, SentLen, SentData,
         AnyToSend, MemNext, CpuNext, SnoopNext;
  }

  /** The routing on the snooper's side counts what the machine was given. */
  lemma GivenStep(c: Setup, f: Filter, x: Streams, lenWidth: nat, t: Track<Beat>, h: Hist, j: nat)
    requires Wired(f) && j < |f.machines| && c.W > 0 && Connected(f, x, c, lenWidth, h.watch.written, j)
    requires t.s == f.snSel && j < |t.partial| == |t.got|
    requires t.partial[j] == h.watch.written && t.got[j] == h.watch.captured
    ensures var t', h' := TrackNext(t, SnCycle(f, x)), MachineHist(f, x, c, h, j);
            t'.partial[j] == h'.watch.written && t'.got[j] == h'.watch.captured
  {
    ViewRequests(f, x, c, lenWidth, h.watch.written, j);
    hide Connected, Enables, SnWrEn, SnDone, FwdDone, RequestsOf, StickyNext, FirstTrue, TData, DataTo, Head,
         SameAccesses, RequestsTo, FwdEnables;
    assert SnEnables(f) == Enables(t.s, SnCycle(f, x).readies);
    assert Captures(f, x) ==> Writes(f, x) by { CaptureWrites(f, x); }
  }

  lemma CaptureWrites(f: Filter, x: Streams)
    ensures Captures(f, x) ==> Writes(f, x) && x.bus.last
  {
  }

  lemma GoneStep(h: Hist, done: bool, flit: Flit)
    requires h.fwdQ != [] ==> h.sent <= |h.fwdQ[0]|
    requires done ==> h.fwdQ != [] && Sending(h) + [flit] == Flits(h.fwdQ[0])
    ensures AsFlits(if done then h.gone + First(h.fwdQ) else h.gone)
         == (if done then AsFlits(h.gone) + [Sending(h) + [flit]] else AsFlits(h.gone))
  {
  }

  /** What goes out while machine j is enabled is the next beat of its packet. */
  predicate SendsNext(f: Filter, x: Streams, W: nat, h: Hist, j: nat)
    requires Wired(f)
  {
    var o := FwdCycle(f, x, W);
    && (h.fwdQ == [] ==> h.sent == 0)
    && (h.fwdQ != [] ==> h.sent <= |h.fwdQ[0]|)
    && (Enabled(FwdEnables(f), j) ==>
        && (o.done ==> o.wr)
        && (o.wr ==> (&& h.fwdQ != [] && h.sent < |h.fwdQ[0]| && o.beat == Flits(h.fwdQ[0])[h.sent]
                      && o.done == (h.sent == |h.fwdQ[0]| - 1))))
  }

  lemma ViewSends(c: Setup, f: Filter, x: Streams, lenWidth: nat, bus: Watch, h: Hist, l: CpuLog, g: Progress,
          j: nat)
    requires Wired(f) && j < |f.machines| && Formed(c, f.machines[j].mem) && Fed(f, x, bus, h.watch.written, j)
    requires ViewInv(c, f, h, l, g, j) && Connected(f, x, c, lenWidth, h.watch.written, j)
    requires GoodBus(bus, x.bus, c.cap) && |x.bus.data.hi| == |x.bus.data.lo| == c.W
    requires h.fwdQ != [] ==> h.sent <= |h.fwdQ[0]|
    ensures SendsNext(f, x, c.W, h, j)
  {
    ViewInput(c, f, x, bus, h, l, g, j);
    var k := View(f, h.watch.written, j);
    ForwarderStep(k.vm, h, InputOf(c, k, OutsideOf(f, x, j)), c.cap);
    NothingSent(k.vm, h, c.cap);
    hide CoreInv, Formed, Inv, GoodInput, Conserved, Disciplined, FwdNext, FwdDone, Enables, AnyToSend, DataTo,
         SentData, SentLen, TData, VmNext, HistNext,
         Flits, GoodBus, Fed;
  }

  /** The routing on the forwarder's side counts what the machine has sent. */
  lemma SentStep(c: Setup, f: Filter, x: Streams, t: Track<Flit>, h: Hist, j: nat)
    requires Wired(f) && j < |f.machines| && c.W > 0 && SendsNext(f, x, c.W, h, j)
    requires t.s == f.fwdSel && j < |t.partial| == |t.got|
    requires t.partial[j] == Sending(h) && t.got[j] == AsFlits(h.gone)
    ensures var t', h' := TrackNext(t, FwdCycle(f, x, c.W)), MachineHist(f, x, c, h, j);
            && (h'.fwdQ != [] ==> h'.sent <= |h'.fwdQ[0]|)
            && t'.partial[j] == Sending(h') && t'.got[j] == AsFlits(h'.gone)
  {
    hide FwdNext, FwdDone, Enables, Sending, AsFlits, AnyToSend, StickyNext, FirstTrue, DataTo, SentData, SentLen,
         TData, Flits, WatchNext, First, Rest,
         Accepts, Rejects, Head;
    RestingIsIdle(x.tready, 0, NO_DATA);
    var o := FwdCycle(f, x, c.W);
    var on := Enabled(FwdEnables(f), j);
    assert FwdEnables(f) == Enables(t.s, o.readies);
    SendingStep(h, MachineHist(f, x, c, h, j), on && o.wr, o.beat, on && o.done,
                if Accepts(f.machines[j].cpu) then First(h.cpuQ) else []);
    GoneStep(h, on && o.done, o.beat);
  }

  // ----------------------------------------------------------- one cycle, all

  lemma FineIsFormed(c: Setup, f: Filter, H: FilterHist, j: nat)
    requires MachineFine(c, f, H, j) && j < |f.machines|
    ensures Formed(c, f.machines[j].mem)
  {
    hide *;
    var g := SomeProgress(c, f, H, j);
    OkIsFormed(c, f, H, g, j);
  }

  lemma SomeProgress(c: Setup, f: Filter, H: FilterHist, j: nat) returns (g: Progress)
    requires MachineFine(c, f, H, j)
    ensures MachineOk(c, f, H, g, j)
  {
    hide MachineOk;
    g :| MachineOk(c, f, H, g, j);
  }

  lemma InvMeans(c: Setup, addrWidth: nat, f: Filter, H: FilterHist)
    requires FilterInv(c, addrWidth, f, H)
    ensures Shared(c, f, H) && Wired(f) && c.W > 0 && |H.hs| == |H.logs| == |f.machines| && Runnable(c.code)
            && c.cap == Pow2(addrWidth) && c.cap > 0
    ensures |H.snTrack.partial| == |H.snTrack.got| == |f.machines|
            && |H.fwdTrack.partial| == |H.fwdTrack.got| == |f.machines|
    ensures H.snTrack.s == f.snSel && H.fwdTrack.s == f.fwdSel
    ensures forall j :: 0 <= j < |f.machines| ==> MachineFine(c, f, H, j) && Formed(c, f.machines[j].mem)
  {
    hide MachineFine, Formed, Runnable;
    forall j | 0 <= j < |f.machines| ensures Formed(c, f.machines[j].mem) {
      FineIsFormed(c, f, H, j);
    }
  }

  /** f', H' are the filter and its history one edge later. */
  ghost predicate NextOf(c: Setup, addrWidth: nat, f: Filter, H: FilterHist, x: Streams, f': Filter, H': FilterHist) {
    && Wired(f) && c.W > 0 && c.cap > 0 && (forall j :: 0 <= j < |f.machines| ==> Formed(c, f.machines[j].mem))
    && |H.hs| == |H.logs| == |f.machines|
    && |H.snTrack.partial| == |H.snTrack.got| && |H.fwdTrack.partial| == |H.fwdTrack.got|
    && f' == FilterNext(f, x, c, addrWidth) && H' == FilterHistNext(H, f, x, c)
  }

  lemma NextMeans(c: Setup, addrWidth: nat, f: Filter, H: FilterHist, x: Streams, f': Filter, H': FilterHist, j: nat)
    requires NextOf(c, addrWidth, f, H, x, f', H') && j < |f.machines|
    ensures Wired(f) && Formed(c, f.machines[j].mem) && |H.hs| == |H.logs| == |f.machines| && c.W > 0
    ensures |f'.machines| == |f.machines| && f'.machines[j] == MachineNext(f, x, c, addrWidth + 1, j)
    ensures f'.fwd == FwdNext(f.fwd, AnyToSend(f), SentLen(f, addrWidth + 1), SentData(f, c.W), x.tready)
    ensures |H'.hs| == |H'.logs| == |H.hs| && H'.hs[j] == MachineHist(f, x, c, H.hs[j], j)
    ensures H'.logs[j] == MachineLog(f, c, H.hs[j], H.logs[j], j)
    ensures |H.snTrack.partial| == |H.snTrack.got| && |H.fwdTrack.partial| == |H.fwdTrack.got|
    ensures H'.snTrack == TrackNext(H.snTrack, SnCycle(f, x))
            && H'.fwdTrack == TrackNext(H.fwdTrack, FwdCycle(f, x, c.W))
  {
    hide Formed, MachineNext, FwdNext, SentLen, SentData, AnyToSend, SnoopNext, StickyNext, TrackNext, MachineHist,
         WatchNext, MemReady, Captures, FwdReadies,
         SnReadies, Wired;
  }

  /** A machine's part of the next state, whatever the shared part does. */
  lemma MachineFineStep(c: Setup, addrWidth: nat, f: Filter, H: FilterHist, x: Streams, f': Filter, H': FilterHist,
          j: nat)
    requires FilterInv(c, addrWidth, f, H) && GoodStreams(c, f, H, x) && j < |f.machines|
    requires NextOf(c, addrWidth, f, H, x, f', H')
    requires Enabled(FwdEnables(f'), j) != Enabled(FwdEnables(f), j) ==> FwdIdle(f'.fwd)
    ensures MachineFine(c, f', H', j)
  {
    hide *;
    InvMeans(c, addrWidth, f, H);
    NextMeans(c, addrWidth, f, H, x, f', H', j);
    MachineOkStep(c, addrWidth, f, H, x, f', H', j);
  }

  lemma TrackSizes<T>(t: Track<T>, y: Cycle<T>)
    requires |t.partial| == |t.got|
    ensures |TrackNext(t, y).partial| == |TrackNext(t, y).got| == |t.partial|
  {
  }

  lemma OkMeans(c: Setup, f: Filter, H: FilterHist, g: Progress, j: nat)
    requires MachineOk(c, f, H, g, j)
    ensures j < |f.machines| && j < |H.hs| && j < |H.logs|
    ensures j < |H.snTrack.partial| && j < |H.snTrack.got| && j < |H.fwdTrack.partial| && j < |H.fwdTrack.got|
    ensures var h := H.hs[j];
      && ViewInv(c, f, h, H.logs[j], g, j)
      && H.snTrack.partial[j] == h.watch.written && H.snTrack.got[j] == h.watch.captured
      && (h.fwdQ != [] ==> h.sent <= |h.fwdQ[0]|)
      && H.fwdTrack.partial[j] == Sending(h) && H.fwdTrack.got[j] == AsFlits(h.gone)
  {
    hide CoreInv, View, Sending, AsFlits;
  }

  lemma StreamsMean(c: Setup, f: Filter, H: FilterHist, x: Streams)
    requires GoodStreams(c, f, H, x)
    ensures GoodBus(H.bus, x.bus, c.cap) && |x.bus.data.hi| == |x.bus.data.lo| == c.W
    ensures !TailWrite(H.bus, f.sn, x.bus, MemReady(f))
  {
  }

  lemma MachineOkStep(c: Setup, addrWidth: nat, f: Filter, H: FilterHist, x: Streams, f': Filter, H': FilterHist,
          j: nat)
    requires FilterInv(c, addrWidth, f, H) && GoodStreams(c, f, H, x) && j < |f.machines|
    requires Wired(f) && c.W > 0 && c.cap > 0 && Formed(c, f.machines[j].mem)
    requires |H.hs| == |H.logs| == |f.machines| && |H.snTrack.partial| == |H.snTrack.got| == |f.machines|
             && |H.fwdTrack.partial| == |H.fwdTrack.got| == |f.machines|
    requires |f'.machines| == |f.machines| && f'.machines[j] == MachineNext(f, x, c, addrWidth + 1, j)
    requires f'.fwd == FwdNext(f.fwd, AnyToSend(f), SentLen(f, addrWidth + 1), SentData(f, c.W), x.tready)
    requires Enabled(FwdEnables(f'), j) != Enabled(FwdEnables(f), j) ==> FwdIdle(f'.fwd)
    requires |H'.hs| == |H'.logs| == |H.hs| && H'.hs[j] == MachineHist(f, x, c, H.hs[j], j)
    requires H'.logs[j] == MachineLog(f, c, H.hs[j], H.logs[j], j)
    requires H'.snTrack == TrackNext(H.snTrack, SnCycle(f, x))
             && H'.fwdTrack == TrackNext(H.fwdTrack, FwdCycle(f, x, c.W))
    ensures MachineFine(c, f', H', j)
  {
    hide *;
    InvMeans(c, addrWidth, f, H);
    StreamsMean(c, f, H, x);
    var g := SomeProgress(c, f, H, j);
    OkMeans(c, f, H, g, j);
    var h, l := H.hs[j], H.logs[j];
    MachineConnected(c, addrWidth, f, H, x, g, j);
    var g' := MachineCycle(f, x, c, addrWidth, H.bus, h, l, g, f', j);
    GivenStep(c, f, x, addrWidth + 1, H.snTrack, h, j);
    ViewSends(c, f, x, addrWidth + 1, H.bus, h, l, g, j);
    SentStep(c, f, x, H.fwdTrack, h, j);
    TrackSizes(H.snTrack, SnCycle(f, x));
    TrackSizes(H.fwdTrack, FwdCycle(f, x, c.W));
    OkIntro(c, f', H', g', j);
  }

  lemma OkIntro(c: Setup, f: Filter, H: FilterHist, g: Progress, j: nat)
    requires j < |f.machines| && j < |H.hs| && j < |H.logs|
    requires j < |H.snTrack.partial| && j < |H.snTrack.got| && j < |H.fwdTrack.partial| && j < |H.fwdTrack.got|
    requires var h := H.hs[j];
      && ViewInv(c, f, h, H.logs[j], g, j)
      && H.snTrack.partial[j] == h.watch.written && H.snTrack.got[j] == h.watch.captured
      && (h.fwdQ != [] ==> h.sent <= |h.fwdQ[0]|)
      && H.fwdTrack.partial[j] == Sending(h) && H.fwdTrack.got[j] == AsFlits(h.gone)
    ensures MachineFine(c, f, H, j)
  {
    hide CoreInv, View, Sending, AsFlits;
    assert MachineOk(c, f, H, g, j);
  }

  // ------------------------------------------------- one cycle, shared part

  lemma PersistsOnBothSides(c: Setup, addrWidth: nat, f: Filter, H: FilterHist, x: Streams, f': Filter, H': FilterHist)
    requires FilterInv(c, addrWidth, f, H) && GoodStreams(c, f, H, x) && NextOf(c, addrWidth, f, H, x, f', H')
    ensures Persists(SnReadies(f.machines), SnEnables(f), Captures(f, x), SnReadies(f'.machines))
    ensures Persists(FwdReadies(f.machines), FwdEnables(f), FwdDone(f.fwd, x.tready), FwdReadies(f'.machines))
  {
    hide FilterInv, GoodStreams, NextOf, SnEnables, FwdEnables, Captures, FwdDone, ReadyForSnooper, ReadyForForwarder;
    InvMeans(c, addrWidth, f, H);
    assert |f'.machines| == |f.machines| by { NextSize(c, addrWidth, f, H, x, f', H'); }
    forall j | 0 <= j < |f.machines|
      ensures ReadyForSnooper(f.machines[j].mem) && !(Captures(f, x) && Enabled(SnEnables(f),
          j)) ==> ReadyForSnooper(f'.machines[j].mem)
      ensures ReadyForForwarder(f.machines[j].mem) && !(FwdDone(f.fwd, x.tready) && Enabled(FwdEnables(f),
          j)) ==> ReadyForForwarder(f'.machines[j].mem)
    {
      MachinePersists(c, addrWidth, f, H, x, f', H', j);
    }
  }

  lemma NextSize(c: Setup, addrWidth: nat, f: Filter, H: FilterHist, x: Streams, f': Filter, H': FilterHist)
    requires NextOf(c, addrWidth, f, H, x, f', H')
    ensures |f'.machines| == |f.machines| && |H'.hs| == |H'.logs| == |H.hs|
    ensures f'.snSel == StickyNext(f.snSel, SnReadies(f.machines), Captures(f, x))
    ensures f'.fwdSel == StickyNext(f.fwdSel, FwdReadies(f.machines), FwdDone(f.fwd, x.tready))
    ensures f'.sn == SnoopNext(f.sn, x.bus, MemReady(f), c.cap) && H'.bus == WatchNext(H.bus, f.sn, x.bus, MemReady(f))
    ensures Wired(f) && c.W > 0
    ensures f'.fwd == FwdNext(f.fwd, AnyToSend(f), SentLen(f, addrWidth + 1), SentData(f, c.W), x.tready)
    ensures |H.snTrack.partial| == |H.snTrack.got| && |H.fwdTrack.partial| == |H.fwdTrack.got|
    ensures H'.snTrack == TrackNext(H.snTrack, SnCycle(f, x))
            && H'.fwdTrack == TrackNext(H.fwdTrack, FwdCycle(f, x, c.W))
    ensures var y := FwdCycle(f, x, c.W); H'.out == if y.wr then H.out + [y.beat] else H.out
  {
    hide Formed, MachineNext, FwdNext, SentLen, SentData, AnyToSend, SnoopNext, StickyNext, TrackNext, MachineHist,
         WatchNext, MemReady, Captures, FwdReadies,
         SnReadies, Wired;
  }

  lemma MachinePersists(c: Setup, addrWidth: nat, f: Filter, H: FilterHist, x: Streams, f': Filter, H': FilterHist,
          j: nat)
    requires FilterInv(c, addrWidth, f, H) && GoodStreams(c, f, H, x) && NextOf(c, addrWidth, f, H, x, f', H')
             && j < |f.machines| == |f'.machines|
    ensures ReadyForSnooper(f.machines[j].mem) && !(Captures(f, x) && Enabled(SnEnables(f),
        j)) ==> ReadyForSnooper(f'.machines[j].mem)
    ensures ReadyForForwarder(f.machines[j].mem) && !(FwdDone(f.fwd, x.tready) && Enabled(FwdEnables(f),
        j)) ==> ReadyForForwarder(f'.machines[j].mem)
  {
    hide *;
    InvMeans(c, addrWidth, f, H);
    StreamsMean(c, f, H, x);
    NextMeans(c, addrWidth, f, H, x, f', H', j);
    var g := SomeProgress(c, f, H, j);
    OkMeans(c, f, H, g, j);
    MachineConnected(c, addrWidth, f, H, x, g, j);
    ReadinessPersists(c, f, x, addrWidth + 1, H.bus, H.hs[j], H.logs[j], g, j);
  }

  lemma DoneMeansValid(fwd: Fwd, tready: bool)
    requires FwdDone(fwd, tready)
    ensures fwd.tvalid && tready
  {
  }

  /** The forwarder is idle after its done pulse. */
  lemma FilterDoneMeansIdle(c: Setup, addrWidth: nat, f: Filter, H: FilterHist, x: Streams, f': Filter, H': FilterHist)
    requires FilterInv(c, addrWidth, f, H) && GoodStreams(c, f, H, x) && NextOf(c, addrWidth, f, H, x, f', H')
    requires FwdDone(f.fwd, x.tready)
    ensures FwdIdle(f'.fwd)
  {
    hide *;
    InvMeans(c, addrWidth, f, H);
    StreamsMean(c, f, H, x);
    assert f.fwd.tvalid by { DoneMeansValid(f.fwd, x.tready); }
    var j := BusyOwner(c, f, H);
    NextMeans(c, addrWidth, f, H, x, f', H', j);
    var g := SomeProgress(c, f, H, j);
    OkMeans(c, f, H, g, j);
    MachineConnected(c, addrWidth, f, H, x, g, j);
    DoneMeansIdle(c, f, x, addrWidth + 1, H.bus, H.hs[j], H.logs[j], g, j);
  }

  /** A forwarder that offers a beat has a machine. */
  lemma BusyOwner(c: Setup, f: Filter, H: FilterHist) returns (j: nat)
    requires Shared(c, f, H) && f.fwd.tvalid
    ensures j < |f.machines| && Enabled(FwdEnables(f), j) && AnyReady(FwdReadies(f.machines))
  {
    hide Enables, Wired, Arbitrate, Whole, PadTo3, PadTo4;
    j := OneEnabled(f.fwdSel, FwdReadies(f.machines), H.fwdTrack.owner);
  }

  /** While a packet is being written, the machine it goes to keeps the
      snooper's memory ready. */
  lemma ReadyInsidePacket(c: Setup, f: Filter, H: FilterHist, x: Streams)
    requires Shared(c, f, H) && GoodStreams(c, f, H, x)
    ensures GoodCycle(H.bus, x.bus, MemReady(f), c.cap) && !TailWrite(H.bus, f.sn, x.bus, MemReady(f))
    ensures SnooperBehaves(SnCycle(f, x)) && MemReady(f) == AnyReady(SnReadies(f.machines))
  {
    hide Arbitrate, Wired, Enables, Whole;
    var readies := SnReadies(f.machines);
    ArbiterPicksLowest(readies, 0);
    if H.bus.written != [] {
      assert readies[H.snTrack.owner];
    }
  }

  lemma SnooperSideStep(c: Setup, addrWidth: nat, f: Filter, H: FilterHist, x: Streams, f': Filter, H': FilterHist)
    requires FilterInv(c, addrWidth, f, H) && GoodStreams(c, f, H, x) && NextOf(c, addrWidth, f, H, x, f', H')
    ensures Whole(H'.bus, f'.sn) && H'.bus.written == H'.snTrack.current && H'.bus.captured == H'.snTrack.sent
    ensures Routed(H'.snTrack, SnReadies(f'.machines)) && H'.snTrack.s == f'.snSel
  {
    hide FilterInv, NextOf, MachineFine, Routed, MachineNext, Arbitrate, SnReadies, FwdReadies, Enables, FirstTrue,
         Whole, SnoopNext, GoodStreams,
         MemReady, SnWrEn, SnDone, GoodCycle, Runnable, Persists, MeantFor, SnooperBehaves, Given, FwdEnables, FwdDone;
    InvMeans(c, addrWidth, f, H);
    NextSize(c, addrWidth, f, H, x, f', H');
    ReadyInsidePacket(c, f, H, x);
    PersistsOnBothSides(c, addrWidth, f, H, x, f', H');
    SnooperWholeIff(H.bus, f.sn, x.bus, MemReady(f), c.cap);
    DispatchStep(H.snTrack, SnCycle(f, x), SnReadies(f'.machines));
    CaptureWrites(f, x);
  }

  lemma AnyToSendMeans(f: Filter)
    ensures AnyToSend(f) == AnyReady(FwdReadies(f.machines))
  {
    ArbiterPicksLowest(FwdReadies(f.machines), 0);
  }

  /** The output side: transfers come only from an enabled machine, and the
      forwarder is idle whenever the selection may change. */
  lemma ForwarderSideStep(c: Setup, addrWidth: nat, f: Filter, H: FilterHist, x: Streams, f': Filter, H': FilterHist)
    requires FilterInv(c, addrWidth, f, H) && GoodStreams(c, f, H, x) && NextOf(c, addrWidth, f, H, x, f', H')
    ensures Routed(H'.fwdTrack, FwdReadies(f'.machines)) && H'.fwdTrack.s == f'.fwdSel
    ensures f'.fwdSel.doSelect || !AnyReady(FwdReadies(f'.machines)) ==> FwdIdle(f'.fwd)
    ensures f'.fwdSel.doSelect || FwdEnables(f') == FwdEnables(f)
    ensures H'.out == Concat(H'.fwdTrack.sent) + H'.fwdTrack.current
  {
    hide FilterInv, NextOf, MachineFine, MachineNext, Arbitrate, SnReadies, FwdReadies, FirstTrue, Whole, SnoopNext,
         GoodStreams,
         MemReady, SnWrEn, SnDone, Runnable, Persists, MeantFor, Given, FwdDone, FwdNext, FwdIdle, AnyReady, TData,
             SentData, SentLen, WatchNext, MachineHist;
    InvMeans(c, addrWidth, f, H);
    NextSize(c, addrWidth, f, H, x, f', H');
    PersistsOnBothSides(c, addrWidth, f, H, x, f', H');
    var y := FwdCycle(f, x, c.W);
    assert SnooperBehaves(y) by {
      OutputBehaves(c, f, H, x);
    }
    AnyToSendMeans(f);
    FlatStep(H.fwdTrack, y);
    DispatchStep(H.fwdTrack, y, FwdReadies(f'.machines));
    if f'.fwdSel.doSelect {
      assert y.done || !AnyToSend(f);
      if y.done {
        FilterDoneMeansIdle(c, addrWidth, f, H, x, f', H');
      } else {
        IdleEdge(f.fwd, SentLen(f, addrWidth + 1), SentData(f, c.W), x.tready);
      }
    } else {
      assert AnyReady(FwdReadies(f'.machines)) by { OwnerIsReady(H'.fwdTrack, FwdReadies(f'.machines)); }
    }
  }

  lemma OwnerIsReady(t: Track<Flit>, readies: seq<bool>)
    requires Routed(t, readies) && !t.s.doSelect
    ensures AnyReady(readies)
  {
    hide MeantFor;
    assert readies[t.owner];
  }

  lemma OutputBehaves(c: Setup, f: Filter, H: FilterHist, x: Streams)
    requires Shared(c, f, H)
    ensures Wired(f) && SnooperBehaves(FwdCycle(f, x, c.W))
  {
    hide Routed, Whole, TData, SentData, FwdReadies, SnReadies;
    if f.fwd.tvalid {
      var j := BusyOwner(c, f, H);
    }
  }

  lemma WiredStep(f: Filter, x: Streams, f': Filter)
    requires Wired(f) && |f'.machines| == |f.machines|
    requires f'.snSel == StickyNext(f.snSel, SnReadies(f.machines), Captures(f, x))
    requires f'.fwdSel == StickyNext(f.fwdSel, FwdReadies(f.machines), FwdDone(f.fwd, x.tready))
    ensures Wired(f')
  {
    hide Arbitrate, PadTo4, MuxSize;
  }

  /** Every cycle keeps the filter's invariant. */
  lemma FilterStep(c: Setup, addrWidth: nat, f: Filter, H: FilterHist, x: Streams, f': Filter, H': FilterHist)
    requires FilterInv(c, addrWidth, f, H) && GoodStreams(c, f, H, x) && NextOf(c, addrWidth, f, H, x, f', H')
    ensures FilterInv(c, addrWidth, f', H')
  {
    hide NextOf, MachineFine, GoodStreams, Runnable, Routed, FwdReadies, SnReadies, FwdEnables, FwdIdle, Whole, Pow2,
         Wired, AnyReady;
    InvMeans(c, addrWidth, f, H);
    SnooperSideStep(c, addrWidth, f, H, x, f', H');
    ForwarderSideStep(c, addrWidth, f, H, x, f', H');
    NextSize(c, addrWidth, f, H, x, f', H');
    WiredStep(f, x, f');
    forall j | 0 <= j < |f'.machines| ensures MachineFine(c, f', H', j) {
      MachineFineStep(c, addrWidth, f, H, x, f', H', j);
    }
  }

  // -------------------------------------------------------------------- runs

  datatype FilterLog = FilterLog(f: Filter, H: FilterHist)

  function TrackStart<T>(size: nat, n: nat): Track<T> {
    Track(StickyStart(size), 0, [], [], seq(n, j => []), seq(n, j => []), [])
  }

  /** After reset: nothing captured, all buffers empty, every CPU ready to fetch
      instruction 0. */
  ghost predicate FilterStart(c: Setup, addrWidth: nat, f: Filter) {
    && c.cap == Pow2(addrWidth)
    && f.sn == Snoop(0, false) && FwdIdle(f.fwd)
    && f.snSel == StickyStart(PadTo4(|f.machines|)) && f.fwdSel == StickyStart(MuxSize(|f.machines|))
    && forall j :: 0 <= j < |f.machines| ==> MachineStart(c, f.machines[j])
  }

  ghost predicate MachineStart(c: Setup, m: Machine) {
    && Formed(c, m.mem) && m.mem.p3 == P3_RESET
    && m.mem.ping.len == m.mem.pang.len == m.mem.pung.len == 0
    && Ready(EnvOf(c, m.mem), Sys(m.cpu, DataTo(m.mem, Head(m.mem.p3.cpu))))
  }

  /** Nothing has happened yet. */
  ghost function NoFilterHistory(c: Setup, f: Filter): FilterHist
    requires forall j :: 0 <= j < |f.machines| ==> Formed(c, f.machines[j].mem)
  {
    var n := |f.machines|;
    FilterHist(NOTHING_SEEN, TrackStart(PadTo4(n), n), seq(n, j => NO_HISTORY),
               seq(n, j requires 0 <= j < n => CpuLog(true, OriginOf(c, View(f, [], j)), [])),
               TrackStart(MuxSize(n), n), [])
  }

  /** A run of the whole filter on well-behaved streams. */
  ghost predicate FilterRun(c: Setup, addrWidth: nat, xs: seq<Streams>, run: seq<FilterLog>) {
    && |run| == |xs| + 1
    && FilterStart(c, addrWidth, run[0].f)
    && (forall j :: 0 <= j < |run[0].f.machines| ==> Formed(c, run[0].f.machines[j].mem))
    && run[0].H == NoFilterHistory(c, run[0].f) && c.W > 0
    && forall j :: 0 <= j < |xs| ==> FilterCycle(c, addrWidth, xs[j], run[j], run[j + 1])
  }

  ghost predicate FilterCycle(c: Setup, addrWidth: nat, x: Streams, before: FilterLog, after: FilterLog) {
    GoodStreams(c, before.f, before.H, x) && NextOf(c, addrWidth, before.f, before.H, x, after.f, after.H)
  }

  lemma ViewStarts(c: Setup, f: Filter, j: nat)
    requires j < |f.machines| && MachineStart(c, f.machines[j]) && FwdIdle(f.fwd)
    ensures var k := View(f, [], j);
            Formed(c, k.vm.mem) && Start(k.vm, c.cap) && Ready(EnvOf(c, k.vm.mem), SysOf(k))
  {
    RestingIsIdle(false, 0, NO_DATA);
    assert c.cap > 0;
    FormedShape(c, f.machines[j].mem);
    hide Formed, EnvOf, Ready, DataTo, Enables, FwdIdle, Shaped, Head;
  }

  lemma NothingYet(c: Setup, f: Filter, j: nat)
    requires j < |f.machines| && forall i :: 0 <= i < |f.machines| ==> Formed(c, f.machines[i].mem)
    ensures var H := NoFilterHistory(c, f); var n := |f.machines|;
      && |H.hs| == |H.logs| == |H.snTrack.partial| == |H.snTrack.got| == |H.fwdTrack.partial| == |H.fwdTrack.got| == n
      && H.hs[j] == NO_HISTORY && NO_HISTORY.watch.written == NO_HISTORY.watch.current == []
      && NO_HISTORY.watch.captured == [] && H.logs[j] == CpuLog(true, OriginOf(c, View(f, [], j)), [])
      && H.snTrack.partial[j] == [] && H.snTrack.got[j] == [] && H.fwdTrack.partial[j] == [] && H.fwdTrack.got[j] == []
      && NO_HISTORY.fwdQ == [] && Sending(NO_HISTORY) == [] && AsFlits(NO_HISTORY.gone) == []
  {
    hide Formed, View, OriginOf;
  }

  lemma AllFormed(c: Setup, addrWidth: nat, f: Filter)
    requires FilterStart(c, addrWidth, f)
    ensures forall j :: 0 <= j < |f.machines| ==> Formed(c, f.machines[j].mem) && MachineStart(c, f.machines[j])
  {
    hide Formed, Ready;
  }

  lemma MachineStarts(c: Setup, addrWidth: nat, f: Filter, j: nat)
    requires FilterStart(c, addrWidth, f) && j < |f.machines|
    requires forall i :: 0 <= i < |f.machines| ==> Formed(c, f.machines[i].mem)
    ensures MachineFine(c, f, NoFilterHistory(c, f), j)
  {
    AllFormed(c, addrWidth, f);
    hide MachineStart, FwdIdle, View, CoreInv, NoFilterHistory, Sending, AsFlits, MachineFine, Formed, Start, Ready,
         EnvOf, SysOf, StickyStart, OriginOf;
    var k := View(f, [], j);
    ViewStarts(c, f, j);
    CoreStart(c, k);
    NothingYet(c, f, j);
    OkIntro(c, f, NoFilterHistory(c, f), Idle, j);
  }

  lemma SharedStarts(c: Setup, addrWidth: nat, f: Filter)
    requires FilterStart(c, addrWidth, f)
    requires forall i :: 0 <= i < |f.machines| ==> Formed(c, f.machines[i].mem)
    ensures Shared(c, f, NoFilterHistory(c, f))
  {
    hide MachineStart, PadTo4, MuxSize, Whole;
    NothingTaken(f.sn);
  }

  lemma {:induction false} FilterInvariant(c: Setup, addrWidth: nat, xs: seq<Streams>, run: seq<FilterLog>, j: nat)
    requires Runnable(c.code) && FilterRun(c, addrWidth, xs, run) && j <= |xs|
    ensures FilterInv(c, addrWidth, run[j].f, run[j].H)
    decreases j
  {
    hide Shared, MachineFine, Runnable, NextOf, GoodStreams, NoFilterHistory, MachineStart, FwdIdle, Pow2;
    if j == 0 {
      var f := run[0].f;
      AllFormed(c, addrWidth, f);
      SharedStarts(c, addrWidth, f);
      forall i | 0 <= i < |f.machines| ensures MachineFine(c, f, run[0].H, i) {
        MachineStarts(c, addrWidth, f, i);
      }
    } else {
      FilterInvariant(c, addrWidth, xs, run, j - 1);
      assert FilterCycle(c, addrWidth, xs[j - 1], run[j - 1], run[j]);
      FilterStep(c, addrWidth, run[j - 1].f, run[j - 1].H, xs[j - 1], run[j].f, run[j].H);
    }
  }

  // ------------------------------------------------------------- main result

  /** What machine j has done with the packets that were routed to it. */
  ghost predicate MachineCorrect(c: Setup, f: Filter, H: FilterHist, j: nat)
    requires j < |f.machines| == |H.hs| == |H.logs| && |H.bus.captured| == |H.snTrack.dest|
             && |H.fwdTrack.sent| == |H.fwdTrack.dest|
  {
    var m, h := f.machines[j].mem, H.hs[j];
    // its packets are judged in order, each from the state it was taken up in, or wait intact
    && MeantFor(H.bus.captured, H.snTrack.dest, j) == h.judged + h.cpuQ
    && AllJudged(c, h.judged, h.verdicts, H.logs[j].origins)
    && (Sequential(c.code) ==> AllInterpreted(h.verdicts, H.logs[j].origins))
    && Queued(m, Contents(m.p3.cpu), h.cpuQ)
    // the accepted ones have left, in order and once each, or wait intact
    && Accepted(h.judged, h.verdicts) == h.gone + h.fwdQ
    && MeantFor(H.fwdTrack.sent, H.fwdTrack.dest, j) == AsFlits(h.gone)
    && Queued(m, Contents(m.p3.fwd), h.fwdQ)
    && |h.cpuQ| + |h.fwdQ| <= 3
  }

  ghost predicate FilterCorrect(c: Setup, f: Filter, H: FilterHist) {
    var n := |f.machines|;
    // captured are the whole bus packets that found some machine ready
    && |H.bus.seen| == |H.bus.readyAtStart|
    && H.bus.captured == TakenOf(H.bus.seen, H.bus.readyAtStart)
    // each went to exactly one machine
    && |H.hs| == |H.logs| == n && |H.snTrack.dest| == |H.bus.captured|
    && (forall k :: 0 <= k < |H.snTrack.dest| ==> H.snTrack.dest[k] < n)
    // the output is whole packets, each from one machine, and part of one more
    && |H.fwdTrack.dest| == |H.fwdTrack.sent| && (forall k :: 0 <= k < |H.fwdTrack.dest| ==> H.fwdTrack.dest[k] < n)
    && H.out == Concat(H.fwdTrack.sent) + H.fwdTrack.current
    && (H.fwdTrack.current != [] ==>
        && H.fwdTrack.owner < n && H.hs[H.fwdTrack.owner].fwdQ != []
        && H.fwdTrack.current < Flits(H.hs[H.fwdTrack.owner].fwdQ[0]))
    && forall j :: 0 <= j < n ==> MachineCorrect(c, f, H, j)
  }

  lemma CoreIsFaithful(c: Setup, k: Core, h: Hist, l: CpuLog, g: Progress)
    requires CoreInv(c, k, h, l, g)
    ensures Faithful(k.vm, h) && AllJudged(c, h.judged, h.verdicts, l.origins)
    ensures h.fwdQ != [] ==> h.sent < |h.fwdQ[0]|
  {
    hide At, Formed, AllJudged, Faithful, CpuTimely, EnvOf, Whole, SnHolds, Queued, FwdHolds, Timely, Conserved,
         Shaped, Stream, Flits, Accepted;
    InvIsFaithful(k.vm, h, c.cap);
  }

  lemma MachineIsCorrect(c: Setup, addrWidth: nat, f: Filter, H: FilterHist, j: nat)
    requires FilterInv(c, addrWidth, f, H) && j < |f.machines|
    requires |f.machines| == |H.hs| == |H.logs| && |H.bus.captured| == |H.snTrack.dest|
             && |H.fwdTrack.sent| == |H.fwdTrack.dest|
    ensures MachineCorrect(c, f, H, j)
    ensures H.hs[j].fwdQ != [] ==> H.hs[j].sent < |H.hs[j].fwdQ[0]|
    ensures H.fwdTrack.partial[j] == Sending(H.hs[j])
  {
    InvMeans(c, addrWidth, f, H);
    RoutedMeans(c, f, H, j);
    hide FilterInv, Shared, Runnable, MachineOk, CoreInv, View, AllJudged, Accepted, Stream, TakenOf, Queued,
         Contents, AsFlits, MeantFor, Sending,
         MachineFine, Formed;
    var g := SomeProgress(c, f, H, j);
    OkMeans(c, f, H, g, j);
    var h := H.hs[j];
    CoreIsFaithful(c, View(f, h.watch.written, j), h, H.logs[j], g);
    if Sequential(c.code) {
      SequentialIsInterpreted(c, h.judged, h.verdicts, H.logs[j].origins);
    }
    assert View(f, h.watch.written, j).vm.mem == f.machines[j].mem by { ViewMemory(f, h.watch.written, j); }
  }

  lemma ViewMemory(f: Filter, written: Packet, j: nat)
    requires j < |f.machines|
    ensures View(f, written, j).vm.mem == f.machines[j].mem
  {
  }

  lemma RoutedMeans(c: Setup, f: Filter, H: FilterHist, j: nat)
    requires Shared(c, f, H) && j < |f.machines|
    ensures |H.snTrack.dest| == |H.snTrack.sent| == |H.bus.captured| && |H.fwdTrack.dest| == |H.fwdTrack.sent|
    ensures H.snTrack.got[j] == MeantFor(H.bus.captured, H.snTrack.dest, j)
    ensures H.fwdTrack.got[j] == MeantFor(H.fwdTrack.sent, H.fwdTrack.dest, j)
  {
    hide MeantFor, Whole, Wired, FwdIdle, FwdReadies, SnReadies;
  }

  /** What is being sent is the start of an accepted packet of the owner. */
  lemma CurrentIsPartOfPacket(c: Setup, addrWidth: nat, f: Filter, H: FilterHist)
    requires FilterInv(c, addrWidth, f, H) && H.fwdTrack.current != []
    ensures H.fwdTrack.owner < |f.machines| == |H.hs|
    ensures H.hs[H.fwdTrack.owner].fwdQ != [] && H.fwdTrack.current < Flits(H.hs[H.fwdTrack.owner].fwdQ[0])
  {
    var i := H.fwdTrack.owner;
    OwnerHoldsCurrent(c, f, H);
    RoutedMeans(c, f, H, i);
    hide *;
    MachineIsCorrect(c, addrWidth, f, H, i);
    ProperPrefix(H.hs[i]);
  }

  lemma OwnerHoldsCurrent(c: Setup, f: Filter, H: FilterHist)
    requires Shared(c, f, H) && H.fwdTrack.current != []
    ensures |H.hs| == |H.logs| == |f.machines| && |H.fwdTrack.partial| == |f.machines|
    ensures H.fwdTrack.owner < |f.machines| && H.fwdTrack.partial[H.fwdTrack.owner] == H.fwdTrack.current
  {
    hide Whole, Wired, FwdReadies, SnReadies, MeantFor, FwdIdle;
  }

  lemma InvIsCorrect(c: Setup, addrWidth: nat, f: Filter, H: FilterHist)
    requires FilterInv(c, addrWidth, f, H)
    ensures FilterCorrect(c, f, H)
  {
    SharedMeans(c, addrWidth, f, H);
    hide FilterInv, MachineCorrect, TakenOf, Concat, Flits, Shared;
    forall j | 0 <= j < |f.machines| ensures MachineCorrect(c, f, H, j) {
      MachineIsCorrect(c, addrWidth, f, H, j);
    }
    if H.fwdTrack.current != [] {
      CurrentIsPartOfPacket(c, addrWidth, f, H);
    }
  }

  lemma SharedMeans(c: Setup, addrWidth: nat, f: Filter, H: FilterHist)
    requires FilterInv(c, addrWidth, f, H)
    ensures |H.bus.seen| == |H.bus.readyAtStart| && H.bus.captured == TakenOf(H.bus.seen, H.bus.readyAtStart)
    ensures |H.hs| == |H.logs| == |f.machines| && H.bus.captured == H.snTrack.sent
            && H.out == Concat(H.fwdTrack.sent) + H.fwdTrack.current
    ensures |H.snTrack.dest| == |H.snTrack.sent|
    ensures forall k :: 0 <= k < |H.snTrack.dest| ==> H.snTrack.dest[k] < |f.machines|
    ensures |H.fwdTrack.dest| == |H.fwdTrack.sent|
    ensures forall k :: 0 <= k < |H.fwdTrack.dest| ==> H.fwdTrack.dest[k] < |f.machines|
  {
    hide MachineFine, Runnable, TakenOf, Concat, MeantFor, Wired, FwdIdle, FwdReadies, SnReadies, Selected;
  }

  lemma ProperPrefix(h: Hist)
    requires h.fwdQ != [] ==> h.sent < |h.fwdQ[0]|
    ensures Sending(h) != [] ==> h.fwdQ != [] && Sending(h) < Flits(h.fwdQ[0])
  {
  }

  /** Main result.  Any number of machines, any program that does not begin with
      RET #k, any bus traffic of packets of three beats up to the buffer size in
      which no tail of a skipped packet is written, any TREADY schedule: in every
      cycle of the whole filter, every captured packet is with exactly one
      machine, each machine judges its packets as its program does from the
      state in which it took them up (as the interpreter does, when the program
      runs sequentially), and the output is exactly the accepted packets, whole,
      unaltered and once each, in the order in which each machine captured them. */
  lemma WholeFilterIsCorrect(c: Setup, addrWidth: nat, xs: seq<Streams>, run: seq<FilterLog>, j: nat)
    requires Runnable(c.code) && FilterRun(c, addrWidth, xs, run) && j <= |xs|
    ensures FilterCorrect(c, run[j].f, run[j].H)
  {
    FilterInvariant(c, addrWidth, xs, run, j);
    hide FilterInv, FilterCorrect, Runnable, FilterRun;
    InvIsCorrect(c, addrWidth, run[j].f, run[j].H);
  }

  // ---------------------------------------------------------------- power-up

  function ZeroHalf(W: nat): (h: Half)
    ensures |h| == W
  {
    if W == 0 then [] else [0] + ZeroHalf(W - 1)
  }

  function ZeroRam(W: nat, cap: nat): Ram {
    Ram(seq(2 * cap, i => ZeroHalf(W)), Beat(ZeroHalf(W), ZeroHalf(W)), 0)
  }

  /** All registers zero, as the hardware powers up. */
  function ZeroCpu(): Cpu {
    Cpu(false, Instr(0, 0, 0, 0, 0, 0),
        Compute2(0, false, false, 0, false, false, false, 0, false, 0, false), Writeback(0, false, 0, false),
        Datapath(0, 0, 0, 0, 0, 0, 0, ZeroScratch(), AluOps(0, 0, 0, 0, 0, 0, 0, 0), 0, Flags(false, false, false,
            false)), 0, 0)
  }

  lemma ZeroCpuIsReady(e: Env, big: Beat)
    ensures Ready(e, Sys(ZeroCpu(), big))
  {
    hide ReadBytes, Select, Operations, Compare, Resize, Zeros;
  }

  /** There is a start state for every number of machines and every program. */
  lemma PowerUp(c: Setup, addrWidth: nat, n: nat) returns (f: Filter)
    requires |c.code| > 0 && c.W >= 4 && c.cap == Pow2(addrWidth) && 2 * c.cap <= 0x1_0000_0000
    ensures |f.machines| == n && FilterStart(c, addrWidth, f)
    ensures forall j :: 0 <= j < n ==> Formed(c, f.machines[j].mem)
    ensures FilterRun(c, addrWidth, [], [FilterLog(f, NoFilterHistory(c, f))])
  {
    hide Ready, ZeroCpu, StickyStart, NoFilterHistory;
    var r := ZeroRam(c.W, c.cap);
    var m := Machine(Mem(P3_RESET, r, r, r), ZeroCpu());
    f := Filter(Snoop(0, false), StickyStart(PadTo4(n)), seq(n, j => m), StickyStart(MuxSize(n)), RESTING);
    assert Formed(c, m.mem);
    ZeroCpuIsReady(EnvOf(c, m.mem), DataTo(m.mem, Head(m.mem.p3.cpu)));
    RestingIsIdle(false, 0, NO_DATA);
    assert MachineStart(c, m);
  }
}
