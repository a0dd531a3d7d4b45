/** axistream_forwarder.v, optimistic configuration: reads a stored packet out
    and sends it over a stream with a valid/ready handshake. */
module Forwarder {
  import opened PacketRam

  datatype Fwd = Fwd(addr: nat, tvalid: bool, tlast: bool, tdataR: Beat, tlastR: bool, treadyR: bool)

  // ------------------------------------------------------------------- wires

  /** The last beat has not been accepted yet. */
  predicate HangingOn(f: Fwd) { f.tlastR && !f.treadyR }

  predicate ReadyInternal(f: Fwd, ready: bool) { ready && !HangingOn(f) }

  function MaxAddr(len: nat): nat { len / 2 }

  predicate FwdRdEn(f: Fwd, ready: bool, len: nat, tready: bool) {
    ReadyInternal(f, ready) && f.addr <= MaxAddr(len) && (tready || !f.tvalid) && !f.tlast
  }

  predicate FwdDone(f: Fwd, tready: bool) { f.tlast && f.tvalid && tready }

  function TData(f: Fwd, rdData: Beat): Beat { if HangingOn(f) then f.tdataR else rdData }

  /** One clock edge. */
  function FwdNext(f: Fwd, ready: bool, len: nat, rdData: Beat, tready: bool): Fwd {
    var rdEn := FwdRdEn(f, ready, len, tready);
    Fwd(if ReadyInternal(f, ready) && rdEn then if f.addr >= MaxAddr(len) then 0 else f.addr + 1 else f.addr,
        rdEn || (!tready && f.tvalid),
        (f.addr >= MaxAddr(len) && rdEn) || (f.tlast && !tready),
        TData(f, rdData), f.tlast, tready)
  }

  class ForwarderModule {
    var addr: nat
    var tvalid: bool
    var tlast: bool
    var tdataR: Beat
    var tlastR: bool
    var treadyR: bool

    constructor ()
      ensures Regs() == Fwd(0, false, false, Beat([], []), false, false)
    {
      addr, tvalid, tlast, tdataR, tlastR, treadyR := 0, false, false, Beat([], []), false, false;
    }

    function Regs(): Fwd
      reads this
    {
      Fwd(addr, tvalid, tlast, tdataR, tlastR, treadyR)
    }

    method Clock(ready: bool, len: nat, rdData: Beat, tready: bool) returns (rdEn: bool, rdAddr: nat, done: bool,
            tdata: Beat)
      modifies this
      ensures rdEn == FwdRdEn(old(Regs()), ready, len, tready) && rdAddr == old(addr)
      ensures done == FwdDone(old(Regs()), tready) && tdata == TData(old(Regs()), rdData)
      ensures Regs() == FwdNext(old(Regs()), ready, len, rdData, tready)
    {
      var hanging := tlastR && !treadyR;
      var maxaddr := len / 2;
      rdAddr := addr;
      rdEn := ready && !hanging && addr <= maxaddr && (tready || !tvalid) && !tlast;
      done := tlast && tvalid && tready;
      tdata := if hanging then tdataR else rdData;
      var tlastNext := (addr >= maxaddr && rdEn) || (tlast && !tready);
      if rdEn {
        addr := if addr >= maxaddr then 0 else addr + 1;
      }
      tdataR, tlastR, treadyR := tdata, tlast, tready;
      tvalid := rdEn || (!tready && tvalid);
      tlast := tlastNext;
    }
  }

  // ---------------------------------------------------------- the hand-shake

  /** Nothing is being sent. */
  predicate FwdIdle(f: Fwd) { !f.tvalid && !f.tlast && f.addr == 0 && !HangingOn(f) }

  /** k beats of the packet have been accepted; the next one, if it has been
      read, is on the RAM's output. */
  predicate Presenting(f: Fwd, dout: Beat, beats: seq<Beat>, k: nat) {
    && k < |beats|
    && (!f.tvalid ==> k == 0 && f.addr == 0 && !f.tlast)
    && (f.tvalid ==> dout == beats[k] && (f.tlast <==> k == |beats| - 1) && f.addr == (if f.tlast then 0 else k + 1))
    && (HangingOn(f) ==> f.tvalid && f.tlast && f.tdataR == beats[k])
  }

  /** The forwarder and its buffer after one edge with a packet selected. */
  function BufferNext(f: Fwd, r: Ram, tready: bool): Ram
    requires |r.data| >= 2
  {
    RamNext(r, Command(2 * f.addr, Beat([], []), false, FwdRdEn(f, true, r.len, tready)), FwdDone(f, tready))
  }

  /** One edge: the beat on offer is the packet's next one and is marked last
      exactly when it is; it is held, unchanged, until accepted; acceptance of
      the last beat is the done pulse, and leaves the forwarder idle. */
  lemma ForwarderEdge(f: Fwd, r: Ram, beats: seq<Beat>, k: nat, tready: bool)
    requires |r.data| >= 2 && Stored(r, beats) && Presenting(f, r.dout, beats, k)
    ensures var f', r' := FwdNext(f, true, r.len, r.dout, tready), BufferNext(f, r, tready);
            && (f.tvalid ==> TData(f, r.dout) == beats[k] && (f.tlast <==> k == |beats| - 1))
            && (f.tvalid && !tready ==> f'.tvalid && f'.tlast == f.tlast && TData(f', r'.dout) == TData(f, r.dout))
            && (FwdDone(f, tready) <==> f.tvalid && tready && k == |beats| - 1)
            && (FwdDone(f, tready) ==> FwdIdle(f') && r'.data == r.data && r'.len == 0)
            && (!FwdDone(f, tready) ==>
                f'.tvalid && Stored(r', beats) && r'.data == r.data
                && Presenting(f', r'.dout, beats, if f.tvalid && tready then k + 1 else k))
  {
    if FwdRdEn(f, true, r.len, tready) {
      assert r.data[2 * f.addr] == beats[f.addr].hi;
    }
  }

  lemma IdlePresents(f: Fwd, dout: Beat, beats: seq<Beat>)
    requires FwdIdle(f) && beats != []
    ensures Presenting(f, dout, beats, 0)
  {
  }

  /** A transferred beat with its TLAST. */
  datatype Flit = Flit(data: Beat, last: bool)

  /** What comes out for one stored packet under a schedule of TREADY values,
      up to the done pulse, and how many cycles of the schedule were used. */
  function Emit(f: Fwd, r: Ram, schedule: seq<bool>): (seq<Flit>, bool)
    requires |r.data| >= 2
    decreases |schedule|
  {
    if schedule == [] then ([], false)
    else
      var tready := schedule[0];
      var now := if f.tvalid && tready then [Flit(TData(f, r.dout), f.tlast)] else [];
      if FwdDone(f, tready) then (now, true)
      else
        var (later, done) := Emit(FwdNext(f, true, r.len, r.dout, tready), BufferNext(f, r, tready), schedule[1..]);
        (now + later, done)
  }

  function Flits(beats: seq<Beat>): (r: seq<Flit>)
    ensures |r| == |beats|
  {
    seq(|beats|, i requires 0 <= i < |beats| => Flit(beats[i], i == |beats| - 1))
  }

  /** One transferred beat in front of what follows. */
  lemma FlitsFrom(beats: seq<Beat>, k: nat, now: seq<Flit>, n: nat)
    requires k < |beats| && k + |now| + n <= |beats|
    requires now == [] || now == [Flit(beats[k], k == |beats| - 1)]
    ensures now + Flits(beats)[k + |now|..k + |now| + n] == Flits(beats)[k..k + |now| + n]
  {
  }

  /** What one edge transfers. */
  function Now(f: Fwd, r: Ram, tready: bool): seq<Flit> {
    if f.tvalid && tready then [Flit(TData(f, r.dout), f.tlast)] else []
  }

  lemma NowIsNext(f: Fwd, r: Ram, beats: seq<Beat>, k: nat, tready: bool)
    requires |r.data| >= 2 && Stored(r, beats) && Presenting(f, r.dout, beats, k)
    ensures k < |beats|
    ensures var now, f', r' := Now(f, r, tready), FwdNext(f, true, r.len, r.dout, tready), BufferNext(f, r, tready);
      && (now == [] || now == [Flit(beats[k], k == |beats| - 1)])
      && (FwdDone(f, tready) <==> k + |now| == |beats|)
      && (now == [] <==> !(f.tvalid && tready))
      && (!FwdDone(f, tready) ==>
          f'.tvalid && |r'.data| >= 2 && Stored(r', beats) && Presenting(f', r'.dout, beats, k + |now|))
  {
    assert k < |beats|;
    hide FwdNext, BufferNext, Presenting, Stored, TData, FwdDone;
    ForwarderEdge(f, r, beats, k, tready);
  }

  lemma EmitUnfolds(f: Fwd, r: Ram, schedule: seq<bool>)
    requires |r.data| >= 2 && schedule != []
    ensures var tready := schedule[0];
            var now := Now(f, r, tready);
            if FwdDone(f, tready) then Emit(f, r, schedule) == (now, true)
            else
              var rest := Emit(FwdNext(f, true, r.len, r.dout, tready), BufferNext(f, r, tready), schedule[1..]);
              Emit(f, r, schedule).0 == now + rest.0 && Emit(f, r, schedule).1 == rest.1
  {
    hide TData, FwdDone, FwdNext;
  }

  /** The cycles of a schedule in which TREADY is up. */
  function Readies(schedule: seq<bool>): nat {
    if schedule == [] then 0 else (if schedule[0] then 1 else 0) + Readies(schedule[1..])
  }

  /** How many beats a schedule has room for: the first cycle goes into reading
      when nothing is on offer yet. */
  function Room(f: Fwd, schedule: seq<bool>): nat {
    if f.tvalid || schedule == [] then Readies(schedule) else Readies(schedule[1..])
  }

  /** For every TREADY schedule exactly as many of the packet's beats go out as
      it has room for, in order, with TLAST only on the last; the done pulse
      comes exactly with the last beat. */
  lemma {:induction false} EmitsExactly(f: Fwd, r: Ram, beats: seq<Beat>, k: nat, schedule: seq<bool>)
    requires |r.data| >= 2 && Stored(r, beats) && Presenting(f, r.dout, beats, k)
    ensures k < |beats|
    ensures var (out, done) := Emit(f, r, schedule);
            && |out| == (if Room(f, schedule) < |beats| - k then Room(f, schedule) else |beats| - k)
            && out == Flits(beats)[k..k + |out|]
            && (done <==> Room(f, schedule) >= |beats| - k)
    decreases |schedule|
  {
    hide FwdNext, BufferNext, Presenting, Stored, FwdDone, Flits, Emit, Now;
    if schedule == [] {
      NothingScheduled(f, r);
      NowIsNext(f, r, beats, k, true);
    } else {
      var tready := schedule[0];
      NowIsNext(f, r, beats, k, tready);
      EmitUnfolds(f, r, schedule);
      var now := Now(f, r, tready);
      if FwdDone(f, tready) {
        FlitsFrom(beats, k, now, 0);
      } else {
        var f', r' := FwdNext(f, true, r.len, r.dout, tready), BufferNext(f, r, tready);
        EmitsExactly(f', r', beats, k + |now|, schedule[1..]);
        FlitsFrom(beats, k, now, |Emit(f', r', schedule[1..]).0|);
      }
    }
  }

  lemma NothingScheduled(f: Fwd, r: Ram)
    requires |r.data| >= 2
    ensures Emit(f, r, []) == ([], false)
  {
  }
}
