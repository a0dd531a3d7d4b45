/** One virtual machine's packet path: a snooper and a forwarder around the
    packet memory.  The CPU appears here only through its requests; the real
    CPU is attached in FilterCore. */
module VirtualMachine {
  import opened PacketRam
  import opened JobQueues
  import opened P3Control
  import opened PacketMem
  import opened Snooper
  import opened Forwarder

  type Packet = seq<Beat>

  datatype Vm = Vm(sn: Snoop, mem: Mem, fwd: Fwd)

  /** What the outside, and the CPU, do in one cycle.  `grant` is false when the
      forwarder is busy with another machine. */
  datatype Input = Input(bus: Bus, cpuWordAddr: nat, cpuRd: bool, acc: bool, rej: bool, grant: bool, tready: bool)

  // ------------------------------------------------------------------- wires

  function FwdBuffer(m: Mem): Ram { RamOf(m, Head(m.p3.fwd)) }

  function PulsesOf(v: Vm, i: Input): Pulses {
    Pulses(SnDone(v.sn, i.bus, ReadyForSnooper(v.mem)), i.acc, i.rej, FwdDone(v.fwd, i.tready))
  }

  predicate FwdReady(v: Vm, i: Input) { ReadyForForwarder(v.mem) && i.grant }

  function RequestsOf(v: Vm, i: Input): Requests {
    var sel := Head(v.mem.p3.fwd);
    Requests(v.sn.addr, i.bus.data, SnWrEn(v.sn, i.bus, ReadyForSnooper(v.mem)),
             i.cpuWordAddr, i.cpuRd,
             v.fwd.addr, FwdRdEn(v.fwd, FwdReady(v, i), LenTo(v.mem, sel), i.tready),
             PulsesOf(v, i))
  }

  /** One clock edge, with buffers of `cap` beats. */
  function VmNext(v: Vm, i: Input, cap: nat): Vm
    requires cap > 0 && |v.mem.ping.data| >= 2 && |v.mem.pang.data| >= 2 && |v.mem.pung.data| >= 2
  {
    var sel := Head(v.mem.p3.fwd);
    Vm(SnoopNext(v.sn, i.bus, ReadyForSnooper(v.mem), cap),
       MemNext(v.mem, RequestsOf(v, i)),
       FwdNext(v.fwd, FwdReady(v, i), LenTo(v.mem, sel), DataTo(v.mem, sel), i.tready))
  }

  // ------------------------------------------------------------- the history

  /** What has happened so far.  `watch` is the bus side; `judged` are the
      packets the CPU has decided and `verdicts` its decisions; `gone` are the
      packets sent in full; `cpuQ` and `fwdQ` wait for the CPU and for the
      forwarder, oldest first; `sent` beats of fwdQ[0] have been accepted; `out`
      is everything transferred at the output. */
  datatype Hist = Hist(
    watch: Watch, judged: seq<Packet>, verdicts: seq<bool>, cpuQ: seq<Packet>,
    gone: seq<Packet>, fwdQ: seq<Packet>, sent: nat, out: seq<Flit>, lastVerdict: bool)

  const NO_HISTORY := Hist(NOTHING_SEEN, [], [], [], [], [], 0, [], false)

  function First<T>(s: seq<T>): seq<T> { if s == [] then [] else [s[0]] }

  function Rest<T>(s: seq<T>): seq<T> { if s == [] then [] else s[1..] }

  function HistNext(h: Hist, v: Vm, i: Input): Hist {
    var p := PulsesOf(v, i);
    var decided := i.acc || i.rej;
    var offered := TData(v.fwd, DataTo(v.mem, Head(v.mem.p3.fwd)));
    Hist(
      WatchNext(h.watch, v.sn, i.bus, ReadyForSnooper(v.mem)),
      if decided then h.judged + First(h.cpuQ) else h.judged,
      if decided then h.verdicts + [i.acc] else h.verdicts,
      (if decided then Rest(h.cpuQ) else h.cpuQ) + (if p.snDone then [h.watch.written + [i.bus.data]] else []),
      if p.fwdDone then h.gone + First(h.fwdQ) else h.gone,
      (if p.fwdDone then Rest(h.fwdQ) else h.fwdQ) + (if i.acc then First(h.cpuQ) else []),
      if p.fwdDone then 0 else if v.fwd.tvalid && i.tready then h.sent + 1 else h.sent,
      if v.fwd.tvalid && i.tready then h.out + [Flit(offered, v.fwd.tlast)] else h.out,
      decided)
  }

  /** The packets that were accepted, in order. */
  function Accepted(judged: seq<Packet>, verdicts: seq<bool>): seq<Packet>
    requires |judged| == |verdicts|
  {
    if judged == [] then []
    else
      var k := |judged| - 1;
      Accepted(judged[..k], verdicts[..k]) + if verdicts[k] then [judged[k]] else []
  }

  /** A list of packets as it looks on the output stream. */
  function Stream(packets: seq<Packet>): seq<Flit> {
    if packets == [] then []
    else
      var k := |packets| - 1;
      Stream(packets[..k]) + Flits(packets[k])
  }

  // --------------------------------------------------------- the environment

  /** The bus: packets of at least three beats that fit a buffer of `cap` beats.
      TVALID, TREADY and TLAST are otherwise free. */
  predicate GoodBus(w: Watch, b: Bus, cap: nat) {
    && (Transfers(b) && b.last ==> |w.current| >= 2)
    && (Transfers(b) ==> |w.current| + (if b.last then 1 else 2) <= cap)
  }

  /** E1, E2 and E3 for the CPU, the only agent that is still outside. */
  predicate GoodVerdict(h: Hist, p: P3, i: Input) {
    (i.acc || i.rej ==> p.cpu.first != 0 && !h.lastVerdict) && !(i.acc && i.rej)
  }

  /** The environment in one cycle; the snooper does not write the tail of a
      packet it skips, and the forwarder does not change machines while it is
      busy. */
  predicate GoodInput(h: Hist, v: Vm, i: Input, cap: nat) {
    && GoodBus(h.watch, i.bus, cap) && !TailWrite(h.watch, v.sn, i.bus, ReadyForSnooper(v.mem))
    && GoodVerdict(h, v.mem.p3, i) && (!i.grant ==> FwdIdle(v.fwd))
  }
}
