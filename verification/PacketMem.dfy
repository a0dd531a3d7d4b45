/** packetmem.v: the controller, the muxes and the three packet RAMs. */
module PacketMem {
  import opened PacketRam
  import opened JobQueues
  import opened P3Control
  import opened BufferMuxes

  datatype Mem = Mem(p3: P3, ping: Ram, pang: Ram, pung: Ram)

  /** What the three agents put on their interfaces in one cycle. */
  datatype Requests = Requests(
    snAddr: nat, snData: Beat, snWr: bool, cpuWordAddr: nat, cpuRd: bool, fwdAddr: nat, fwdRd: bool, pulses: Pulses)

  /** All three RAMs have the same, even number of port words. */
  ghost predicate Shaped(m: Mem, depth: nat) {
    depth >= 2 && depth % 2 == 0 && |m.ping.data| == depth && |m.pang.data| == depth && |m.pung.data| == depth
  }

  function RamOf(m: Mem, b: Token): Ram {
    if b == 1 then m.ping else if b == 2 then m.pang else m.pung
  }

  // ------------------------------------------------------------------- wires

  function SelOf(m: Mem, b: Token): Token {
    BufferSel(b, Head(m.p3.sn), Head(m.p3.cpu), Head(m.p3.fwd))
  }

  function CommandOf(rq: Requests, sel: Token): Command {
    Mux3(FromSnooper(rq.snAddr, rq.snData, rq.snWr), FromCpu(rq.cpuWordAddr, rq.cpuRd),
         FromForwarder(rq.fwdAddr, rq.fwdRd), NOTHING, sel)
  }

  function CommandFor(m: Mem, b: Token, rq: Requests): Command { CommandOf(rq, SelOf(m, b)) }

  predicate LenRst(m: Mem, b: Token, i: Pulses) {
    (SelOf(m, b) == SEL_CPU && i.rej) || (SelOf(m, b) == SEL_FWD && i.fwdDone)
  }

  predicate ReadyForSnooper(m: Mem) { Head(m.p3.sn) != 0 }

  predicate ReadyForCpu(m: Mem) { Head(m.p3.cpu) != 0 }

  predicate ReadyForForwarder(m: Mem) { Head(m.p3.fwd) != 0 }

  function DataTo(m: Mem, sel: Token): Beat {
    Mux3(m.ping.dout, m.pang.dout, m.pung.dout, NO_DATA, sel)
  }

  function LenTo(m: Mem, sel: Token): nat {
    Mux3(m.ping.len, m.pang.len, m.pung.len, 0, sel)
  }

  /** One clock edge. */
  function MemNext(m: Mem, rq: Requests): Mem
    requires |m.ping.data| >= 2 && |m.pang.data| >= 2 && |m.pung.data| >= 2
  {
    Mem(P3Next(m.p3, rq.pulses),
        RamNext(m.ping, CommandFor(m, 1, rq), LenRst(m, 1, rq.pulses)),
        RamNext(m.pang, CommandFor(m, 2, rq), LenRst(m, 2, rq.pulses)),
        RamNext(m.pung, CommandFor(m, 3, rq), LenRst(m, 3, rq.pulses)))
  }

  // ------------------------------------------------- exclusivity, per buffer

  /** Heads of a conserved state are never shared. */
  lemma HeadsDistinct(p: P3)
    requires Conserved(p)
    ensures NoSharing(Head(p.sn), Head(p.cpu), Head(p.fwd))
  {
    Distinct(p);
  }

  /** Exclusivity and non-interference: each buffer is driven by exactly the
      agent whose head it is, and a buffer that is nobody's head keeps its
      contents, its output and its length. */
  lemma BufferStep(m: Mem, rq: Requests, depth: nat, b: Token)
    requires Conserved(m.p3) && Shaped(m, depth) && 1 <= b <= 3
    ensures var r, r' := RamOf(m, b), RamOf(MemNext(m, rq), b);
            if b == Head(m.p3.sn) then r' == RamNext(r, FromSnooper(rq.snAddr, rq.snData, rq.snWr), false)
            else if b == Head(m.p3.cpu) then r' == RamNext(r, FromCpu(rq.cpuWordAddr, rq.cpuRd), rq.pulses.rej)
            else if b == Head(m.p3.fwd) then r' == RamNext(r, FromForwarder(rq.fwdAddr, rq.fwdRd), rq.pulses.fwdDone)
            else r' == r
  {
    hide RamNext, P3Next, Conserved;
    HeadsDistinct(m.p3);
    InversionIff(Head(m.p3.sn), Head(m.p3.cpu), Head(m.p3.fwd));
    NothingIdles(RamOf(m, b));
  }

  lemma NothingIdles(r: Ram)
    requires |r.data| >= 2
    ensures RamNext(r, NOTHING, false) == r
  {
  }

  lemma ShapeKept(m: Mem, rq: Requests, depth: nat)
    requires Shaped(m, depth)
    ensures Shaped(MemNext(m, rq), depth)
  {
    hide CommandFor, LenRst, P3Next;
  }

  // ------------------------------------------------------------------ module

  class PacketMemModule {
    const ctrl: P3ControlModule
    const ping: PacketRamModule
    const pang: PacketRamModule
    const pung: PacketRamModule

    constructor (ctrl: P3ControlModule, ping: PacketRamModule, pang: PacketRamModule, pung: PacketRamModule)
      requires ctrl.Valid() && ping != pang && ping != pung && pang != pung
      requires ping.data != pang.data && ping.data != pung.data && pang.data != pung.data
      ensures this.ctrl == ctrl && this.ping == ping && this.pang == pang && this.pung == pung
    {
      this.ctrl, this.ping, this.pang, this.pung := ctrl, ping, pang, pung;
    }

    /** Three different RAMs over three different arrays. */
    ghost predicate Valid()
      reads ping, pang, pung
    {
      && ctrl.Valid() && ping.Valid() && pang.Valid() && pung.Valid()
      && ping != pang && ping != pung && pang != pung
      && ping.data != pang.data && ping.data != pung.data && pang.data != pung.data
    }

    function Regs(): Mem
      reads ctrl.snq, ctrl.cpuq, ctrl.fwdq, ping, pang, pung, ping.data, pang.data, pung.data
    {
      Mem(ctrl.Regs(), ping.Regs(), pang.Regs(), pung.Regs())
    }

    /** One clock edge of the controller and the three RAMs. */
    method Clock(rq: Requests)
      requires Valid()
      modifies ctrl.snq, ctrl.cpuq, ctrl.fwdq, ping`dout, ping`len, ping.data, pang`dout, pang`len, pang.data,
          pung`dout, pung`len, pung.data
      ensures Valid()
      ensures Regs() == MemNext(old(Regs()), rq)
    {
      hide CommandFor, LenRst, RamNext, P3Next;
      var m := Regs();
      ctrl.Clock(false, rq.pulses);
      ping.Clock(CommandFor(m, 1, rq), LenRst(m, 1, rq.pulses));
      pang.Clock(CommandFor(m, 2, rq), LenRst(m, 2, rq.pulses));
      pung.Clock(CommandFor(m, 3, rq), LenRst(m, 3, rq.pulses));
    }
  }
}
