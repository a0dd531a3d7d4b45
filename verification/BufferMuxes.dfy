/** The K-map logic that turns "agent selects buffer" into "buffer selects
    agent" (muxselinvert.v), and the muxes it drives (painfulmuxes.v). */
module BufferMuxes {
  import opened PacketRam
  import opened JobQueues

  predicate Bit1(t: Token) { t >= 2 }

  predicate Bit0(t: Token) { t % 2 == 1 }

  function Code(b1: bool, b0: bool): Token { (if b1 then 2 else 0) + (if b0 then 1 else 0) }

  // what a buffer's select means
  const SEL_SN: Token := 1
  const SEL_CPU: Token := 2
  const SEL_FWD: Token := 3

  function PingSel(sn: Token, cpu: Token, fwd: Token): Token {
    Code((!Bit1(fwd) && Bit0(fwd)) || ((!Bit1(cpu) && Bit0(cpu)) && (Bit1(sn) || !Bit0(sn))),
         (!Bit1(fwd) && Bit0(fwd)) || (!Bit1(sn) && Bit0(sn)))
  }

  function PangSel(sn: Token, cpu: Token, fwd: Token): Token {
    Code((Bit1(fwd) && !Bit0(fwd)) || (Bit1(cpu) && !Bit0(cpu)),
         (Bit1(fwd) && !Bit0(fwd)) || (Bit1(sn) && !Bit0(sn)))
  }

  function PungSel(sn: Token, cpu: Token, fwd: Token): Token {
    Code((Bit1(fwd) && Bit0(fwd)) || ((Bit1(cpu) && Bit0(cpu)) && (!Bit1(sn) || !Bit0(sn))),
         (Bit1(fwd) && Bit0(fwd)) || (Bit1(sn) && Bit0(sn)))
  }

  function BufferSel(b: Token, sn: Token, cpu: Token, fwd: Token): Token {
    if b == 1 then PingSel(sn, cpu, fwd) else if b == 2 then PangSel(sn, cpu, fwd) else PungSel(sn, cpu, fwd)
  }

  /** No two agents are connected to the same buffer. */
  predicate NoSharing(sn: Token, cpu: Token, fwd: Token) {
    (sn != 0 ==> sn != cpu && sn != fwd) && (cpu != 0 ==> cpu != fwd)
  }

  /** A buffer selects an agent exactly when that agent selects the buffer. */
  predicate Inverts(b: Token, sn: Token, cpu: Token, fwd: Token) {
    var sel := BufferSel(b, sn, cpu, fwd);
    (sel == SEL_SN <==> sn == b) && (sel == SEL_CPU <==> cpu == b) && (sel == SEL_FWD <==> fwd == b)
  }

  /** The K-maps are right on all 64 selections that are possible without
      sharing, and on no others. */
  lemma InversionIff(sn: Token, cpu: Token, fwd: Token)
    ensures (Inverts(1, sn, cpu, fwd) && Inverts(2, sn, cpu, fwd) && Inverts(3, sn, cpu, fwd))
            <==> NoSharing(sn, cpu, fwd)
  {
  }

  // ------------------------------------------------------------------ muxes

  const NO_DATA := Beat([], [])

  /** What reaches a buffer that no agent selects: all zeros (the data word is
      never written, as the write enable is zero too). */
  const NOTHING := Command(0, NO_DATA, false, false)

  function Mux3<T>(a: T, b: T, c: T, zero: T, sel: Token): T {
    if Bit1(sel) then if Bit0(sel) then c else b else if Bit0(sel) then a else zero
  }

  /** The three agents' requests, padded with constant zeros: the snooper never
      reads, the CPU and the forwarder never write, and the snooper's and the
      forwarder's addresses get a zero appended. */
  function FromSnooper(addr: nat, data: Beat, wr: bool): Command { Command(2 * addr, data, wr, false) }

  function FromCpu(wordAddr: nat, rd: bool): Command { Command(wordAddr, NO_DATA, false, rd) }

  function FromForwarder(addr: nat, rd: bool): Command { Command(2 * addr, NO_DATA, false, rd) }
}
