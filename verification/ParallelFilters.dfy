/** The whole filter (axistream_packetfilt.v, parallel_packetfilts.v): one
    snooper and one forwarder shared by any number of virtual machines, all
    running the same program. */
module ParallelFilters {
  import opened PacketRam
  import opened Isa
  import opened PipelinedCpu
  import opened JobQueues
  import opened P3Control
  import opened PacketMem
  import opened Snooper
  import opened Forwarder
  import opened FilterCore
  import opened Dispatch

  datatype Machine = Machine(mem: Mem, cpu: Cpu)

  datatype Filter = Filter(sn: Snoop, snSel: Sticky, machines: seq<Machine>, fwdSel: Sticky, fwd: Fwd)

  /** The two streams in one cycle. */
  datatype Streams = Streams(bus: Bus, tready: bool)

  // ------------------------------------------------------------------- wires

  function SnReadies(ms: seq<Machine>): (r: seq<bool>)
    ensures |r| == |ms|
  {
    seq(|ms|, j requires 0 <= j < |ms| => ReadyForSnooper(ms[j].mem))
  }

  function FwdReadies(ms: seq<Machine>): (r: seq<bool>)
    ensures |r| == |ms|
  {
    seq(|ms|, j requires 0 <= j < |ms| => ReadyForForwarder(ms[j].mem))
  }

  function SnEnables(f: Filter): seq<bool> { Enables(f.snSel, SnReadies(f.machines)) }

  function FwdEnables(f: Filter): seq<bool> { Enables(f.fwdSel, FwdReadies(f.machines)) }

  function MemReady(f: Filter): bool { Arbitrate(SnReadies(f.machines)).any }

  function AnyToSend(f: Filter): bool { Arbitrate(FwdReadies(f.machines)).any }

  predicate Writes(f: Filter, x: Streams) { SnWrEn(f.sn, x.bus, MemReady(f)) }

  predicate Captures(f: Filter, x: Streams) { SnDone(f.sn, x.bus, MemReady(f)) }

  predicate Enabled(en: seq<bool>, j: nat) { j < |en| && en[j] }

  function DataOf(m: Mem): Beat { DataTo(m, Head(m.p3.fwd)) }

  function LenOf(m: Mem): nat { LenTo(m, Head(m.p3.fwd)) }

  /** The number of enable wires is fixed by the number of machines. */
  predicate Wired(f: Filter) {
    |f.snSel.saved| == PadTo4(|f.machines|) && |f.fwdSel.saved| == MuxSize(|f.machines|)
  }

  function SentData(f: Filter, W: nat): Beat
    requires Wired(f)
  {
    var ms := f.machines;
    MergedBeat(seq(|ms|, j requires 0 <= j < |ms| => DataOf(ms[j].mem)), FwdEnables(f), W)
  }

  function SentLen(f: Filter, lenWidth: nat): nat
    requires Wired(f)
  {
    var ms := f.machines;
    MergedLen(seq(|ms|, j requires 0 <= j < |ms| => LenOf(ms[j].mem)), FwdEnables(f), lenWidth)
  }

  function RdEn(f: Filter, x: Streams, lenWidth: nat): bool
    requires Wired(f)
  {
    FwdRdEn(f.fwd, AnyToSend(f), SentLen(f, lenWidth), x.tready)
  }

  /** What machine j's memory is asked: the snooper's and the forwarder's
      strobes are gated with its enables. */
  function RequestsTo(f: Filter, x: Streams, c: Setup, lenWidth: nat, j: nat): Requests
    requires Wired(f) && j < |f.machines| && c.W > 0
  {
    var sn, fwd, k := Enabled(SnEnables(f), j), Enabled(FwdEnables(f), j), f.machines[j].cpu;
    Requests(f.sn.addr, x.bus.data, Writes(f, x) && sn,
             Quot(k.d.packetAddrR, c.W), k.s2.rdEn,
             f.fwd.addr, RdEn(f, x, lenWidth) && fwd,
             Pulses(Captures(f, x) && sn, Accepts(k), Rejects(k), FwdDone(f.fwd, x.tready) && fwd))
  }

  ghost function MachineNext(f: Filter, x: Streams, c: Setup, lenWidth: nat, j: nat): Machine
    requires Wired(f) && j < |f.machines| && Formed(c, f.machines[j].mem)
  {
    var m := f.machines[j];
    Machine(MemNext(m.mem, RequestsTo(f, x, c, lenWidth, j)),
            CpuNext(EnvOf(c, m.mem), m.cpu, !ReadyForCpu(m.mem), DataTo(m.mem, Head(m.mem.p3.cpu))))
  }

  /** One clock edge of the whole filter, with reset low; buffers hold
      2^addrWidth beats. */
  ghost function FilterNext(f: Filter, x: Streams, c: Setup, addrWidth: nat): Filter
    requires Wired(f) && c.cap > 0 && c.W > 0 && forall j :: 0 <= j < |f.machines| ==> Formed(c, f.machines[j].mem)
  {
    var ms := f.machines;
    Filter(
      SnoopNext(f.sn, x.bus, MemReady(f), c.cap),
      StickyNext(f.snSel, SnReadies(ms), Captures(f, x)),
      seq(|ms|, j requires 0 <= j < |ms| => MachineNext(f, x, c, addrWidth + 1, j)),
      StickyNext(f.fwdSel, FwdReadies(ms), FwdDone(f.fwd, x.tready)),
      FwdNext(f.fwd, AnyToSend(f), SentLen(f, addrWidth + 1), SentData(f, c.W), x.tready))
  }
}
