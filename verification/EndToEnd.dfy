/** From the snooped bus to the output stream: what one virtual machine keeps
    in every cycle, and what that means for whole runs. */
module EndToEnd {
  import opened PacketRam
  import opened JobQueues
  import opened P3Control
  import opened BufferMuxes
  import opened PacketMem
  import opened Snooper
  import opened Forwarder
  import opened VirtualMachine

  // --------------------------------------------------------------- invariant

  ghost predicate Blank(m: Mem, c: seq<Token>) {
    forall k :: 0 <= k < |c| ==> Filling(RamOf(m, c[k]), [])
  }

  /** The snooper's first buffer holds the beats written so far, its others
      are blank. */
  ghost predicate SnHolds(m: Mem, c: seq<Token>, written: Packet) {
    (if c == [] then written == [] else Filling(RamOf(m, c[0]), written)) && Blank(m, Tail(c))
  }

  /** A queue's buffers hold these packets, in order. */
  ghost predicate Queued(m: Mem, c: seq<Token>, q: seq<Packet>) {
    |c| == |q| && forall k :: 0 <= k < |c| ==> |q[k]| >= 3 && Stored(RamOf(m, c[k]), q[k])
  }

  /** The forwarder is idle, or presents the first of these packets with `sent`
      beats of it accepted. */
  predicate FwdHolds(f: Fwd, dout: Beat, fwdQ: seq<Packet>, sent: nat) {
    if fwdQ == [] then sent == 0 && FwdIdle(f) else Presenting(f, dout, fwdQ[0], sent)
  }

  /** Why E1 and E2 hold for the snooper and the forwarder: neither gets to
      the end of a packet of three beats before its token has reached `first`,
      and a token alone in `third` has only just arrived. */
  predicate Timely(v: Vm, h: Hist) {
    var sn, fwd := v.mem.p3.sn, v.mem.p3.fwd;
    && (sn.first == 0 && sn.second == 0 ==> h.watch.written == [])
    && (sn.first == 0 ==> |h.watch.written| <= 1)
    && (fwd.first == 0 && fwd.second == 0 ==> !v.fwd.tvalid)
    && (fwd.first == 0 ==> h.sent == 0 && !v.fwd.tlast)
    && (sn.third != 0 ==> h.lastVerdict || !v.fwd.tvalid || (sn.first != 0 && sn.second != 0))
  }

  /** What has been sent of the packet that is being sent. */
  function Sending(h: Hist): seq<Flit>
    requires h.fwdQ != [] ==> h.sent <= |h.fwdQ[0]|
  {
    if h.fwdQ == [] then [] else Flits(h.fwdQ[0])[..h.sent]
  }

  /** Every packet that was captured is accounted for, and the output is what
      was sent of the accepted ones. */
  predicate Books(h: Hist) {
    && |h.judged| == |h.verdicts|
    && h.watch.captured == h.judged + h.cpuQ
    && Accepted(h.judged, h.verdicts) == h.gone + h.fwdQ
    && (h.fwdQ != [] ==> h.sent < |h.fwdQ[0]|)
    && h.out == Stream(h.gone) + Sending(h)
  }

  ghost predicate Inv(v: Vm, h: Hist, cap: nat) {
    && Shaped(v.mem, 2 * cap) && Conserved(v.mem.p3)
    && Whole(h.watch, v.sn)
    && SnHolds(v.mem, Contents(v.mem.p3.sn), h.watch.written)
    && Queued(v.mem, Contents(v.mem.p3.cpu), h.cpuQ)
    && Queued(v.mem, Contents(v.mem.p3.fwd), h.fwdQ)
    && FwdHolds(v.fwd, FwdBuffer(v.mem).dout, h.fwdQ, h.sent) && Timely(v, h) && Books(h)
  }

  // ---------------------------------------------------------- tokens, queues

  lemma TailCounts(q: Slots, k: nat)
    requires 1 <= k < |Contents(q)|
    ensures var t := Contents(q)[k]; t != 0 && Count(q, t) >= 1 && (t == Head(q) ==> Count(q, t) >= 2)
  {
  }

  lemma HeadCounts(q: Slots)
    ensures Head(q) != 0 ==> Count(q, Head(q)) >= 1
  {
  }

  /** A token behind the head of one queue is not the head of any. */
  lemma TailIsNobodys(p: P3, q: Slots, k: nat)
    requires Conserved(p) && (q == p.sn || q == p.cpu || q == p.fwd) && 1 <= k < |Contents(q)|
    ensures var t := Contents(q)[k]; 1 <= t <= 3 && t != Head(p.sn) && t != Head(p.cpu) && t != Head(p.fwd)
  {
    hide Count, Contents, Head;
    TailCounts(q, k);
    HeadCounts(p.sn);
    HeadCounts(p.cpu);
    HeadCounts(p.fwd);
    assert Copies(p, Contents(q)[k]) == 1;
  }

  predicate SameContents(r: Ram, r': Ram) { r'.data == r.data && r'.len == r.len }

  /** What one edge does to each buffer, by whose head it is. */
  lemma BufferFrame(m: Mem, rq: Requests, depth: nat, b: Token)
    requires Conserved(m.p3) && Shaped(m, depth) && 1 <= b <= 3
    ensures var r, r' := RamOf(m, b), RamOf(MemNext(m, rq), b);
      && (b == Head(m.p3.sn) ==> r' == RamNext(r, FromSnooper(rq.snAddr, rq.snData, rq.snWr), false))
      && (b == Head(m.p3.fwd) ==> r' == RamNext(r, FromForwarder(rq.fwdAddr, rq.fwdRd), rq.pulses.fwdDone))
      && (b != Head(m.p3.sn) ==> r'.data == r.data)
      && (b == Head(m.p3.cpu) && !rq.pulses.rej ==> SameContents(r, r'))
      && (b == Head(m.p3.fwd) && !rq.pulses.fwdDone ==> SameContents(r, r'))
      && ((b == Head(m.p3.cpu) && rq.pulses.rej) || (b == Head(m.p3.fwd) && rq.pulses.fwdDone) ==> r'.len == 0)
      && (b != Head(m.p3.sn) && b != Head(m.p3.cpu) && b != Head(m.p3.fwd) ==> SameContents(r, r'))
  {
    hide Conserved, MemNext;
    BufferStep(m, rq, depth, b);
    HeadsDistinct(m.p3);
  }

  lemma RamShape(m: Mem, depth: nat, b: Token)
    requires Shaped(m, depth)
    ensures |RamOf(m, b).data| == depth
  {
  }

  /** A queue step moves packets exactly as it moves tokens. */
  lemma QueuedStep(m: Mem, m': Mem, c: seq<Token>, q: seq<Packet>, deq: bool, ts: seq<Token>, ps: seq<Packet>)
    requires Queued(m, c, q) && Queued(m', ts, ps)
    requires forall k :: (if deq then 1 else 0) <= k < |c| ==> SameContents(RamOf(m, c[k]), RamOf(m', c[k]))
    ensures Queued(m', Fifo(c, deq, ts), (if deq then Rest(q) else q) + ps)
  {
    hide RamOf;
  }

  // -------------------------------------------------------------- one cycle

  /** The snooper's side of a cycle: readiness cannot drop inside a packet, each
      write goes where the packet continues, and done comes only at `first`. */
  lemma SnooperCycle(v: Vm, h: Hist, b: Bus, cap: nat)
    requires Whole(h.watch, v.sn) && GoodBus(h.watch, b, cap) && Timely(v, h)
    requires SnHolds(v.mem, Contents(v.mem.p3.sn), h.watch.written)
    requires !TailWrite(h.watch, v.sn, b, ReadyForSnooper(v.mem))
    ensures var ready := ReadyForSnooper(v.mem);
      && GoodCycle(h.watch, b, ready, cap)
      && (SnWrEn(v.sn, b, ready) ==> v.sn.addr == |h.watch.written| && |h.watch.written| < cap)
      && (SnDone(v.sn, b, ready) ==> v.mem.p3.sn.first != 0 && |h.watch.written| >= 2)
  {
    HeadIsOldest(v.mem.p3.sn);
  }

  /** E1-E3 hold for all three agents. */
  lemma CycleIsDisciplined(v: Vm, h: Hist, i: Input, cap: nat)
    requires Inv(v, h, cap) && GoodInput(h, v, i, cap)
    ensures Disciplined(v.mem.p3, PulsesOf(v, i))
    ensures PulsesOf(v, i).fwdDone ==> h.fwdQ != []
    ensures (i.acc || i.rej ==> h.cpuQ != []) && !(i.acc && i.rej)
  {
    hide Conserved, Shaped, Books, Stored, Filling, SnHolds, Whole, GoodBus, SnDone, SnWrEn, Presenting;
    SnooperCycle(v, h, i.bus, cap);
    ConservedSizes(v.mem.p3);
    HeadIsOldest(v.mem.p3.cpu);
    HeadIsOldest(v.mem.p3.fwd);
  }

  /** The state after an edge; the two components that change independently. */
  lemma VmNextParts(v: Vm, i: Input, cap: nat)
    requires cap > 0 && Shaped(v.mem, 2 * cap)
    ensures var rq := RequestsOf(v, i); var v' := VmNext(v, i, cap);
      && v'.mem == MemNext(v.mem, rq) && v'.mem.p3 == P3Next(v.mem.p3, PulsesOf(v, i)) && rq.pulses == PulsesOf(v, i)
      && v'.sn == SnoopNext(v.sn, i.bus, ReadyForSnooper(v.mem), cap)
  {
    hide SnoopNext, P3Next, RamNext, CommandFor, LenRst;
  }

  lemma Blanked(r: Ram)
    requires r.len == 0
    ensures Filling(r, [])
  {
  }

  /** What the snooper does to the buffer it is connected to. */
  lemma SnooperWrites(r: Ram, w: Watch, s: Snoop, b: Bus, cap: nat)
    requires cap > 0 && |r.data| == 2 * cap && Filling(r, w.written) && s.addr == |w.written|
    requires SnWrEn(s, b, true) ==> |w.written| < cap
    ensures var r' := RamNext(r, FromSnooper(s.addr, b.data, SnWrEn(s, b, true)), false);
      && (SnDone(s, b, true) ==> Stored(r', w.written + [b.data]))
      && (!SnDone(s, b, true) ==> Filling(r', WatchNext(w, s, b, true).written))
  {
    hide Stored;
    if SnWrEn(s, b, true) {
      WriteExtends(r, w.written, b.data, false);
    }
  }

  /** The snooper's queue after a cycle, whatever arrives in it. */
  lemma SnHoldsStep(m: Mem, m': Mem, c: seq<Token>, written: Packet, done: bool, written': Packet, ts: seq<Token>)
    requires SnHolds(m, c, written) && Blank(m', ts)
    requires forall k :: 1 <= k < |c| ==> SameContents(RamOf(m, c[k]), RamOf(m', c[k]))
    requires if done || c == [] then written' == [] else Filling(RamOf(m', c[0]), written')
    ensures SnHolds(m', Fifo(c, done, ts), written')
  {
    hide RamOf;
    var c' := Fifo(c, done, ts);
    var kept := if done then Tail(c) else c;
    forall k | 0 <= k < |Tail(c')| ensures Filling(RamOf(m', Tail(c')[k]), []) {
      if k + 1 < |kept| {
        var j := if done then k + 2 else k + 1;
        assert Tail(c')[k] == c[j] == Tail(c)[j - 1];
      } else {
        assert Tail(c')[k] == ts[k + 1 - |kept|];
      }
    }
    if done && |c| > 1 {
      assert c'[0] == c[1] == Tail(c)[0];
    }
  }

  /** Buffers behind a queue's head are left alone. */
  lemma TailsKept(m: Mem, rq: Requests, depth: nat, q: Slots)
    requires Conserved(m.p3) && Shaped(m, depth) && (q == m.p3.sn || q == m.p3.cpu || q == m.p3.fwd)
    ensures var c := Contents(q);
            forall k :: 1 <= k < |c| ==> SameContents(RamOf(m, c[k]), RamOf(MemNext(m, rq), c[k]))
  {
    hide Conserved, MemNext, RamOf, SameContents, Contents, Head;
    var c := Contents(q);
    forall k | 1 <= k < |c| ensures SameContents(RamOf(m, c[k]), RamOf(MemNext(m, rq), c[k])) {
      TailIsNobodys(m.p3, q, k);
      BufferFrame(m, rq, depth, c[k]);
    }
  }

  /** What the snooper asks of the memory in one cycle. */
  predicate SnooperAsks(rq: Requests, w: Watch, s: Snoop, b: Bus, ready: bool, cap: nat) {
    && rq.snAddr == s.addr == |w.written| && rq.snData == b.data
    && rq.snWr == SnWrEn(s, b, ready) && rq.pulses.snDone == SnDone(s, b, ready)
    && (rq.snWr ==> |w.written| < cap)
  }

  /** The buffer the snooper is connected to, after an edge. */
  lemma SnooperBuffer(m: Mem, rq: Requests, cap: nat, w: Watch, s: Snoop, b: Bus)
    requires cap > 0 && Conserved(m.p3) && Shaped(m, 2 * cap) && Contents(m.p3.sn) != []
    requires SnHolds(m, Contents(m.p3.sn), w.written) && SnooperAsks(rq, w, s, b, true, cap)
    ensures var r' := RamOf(MemNext(m, rq), Contents(m.p3.sn)[0]);
      && (SnDone(s, b, true) ==> Stored(r', w.written + [b.data]))
      && (!SnDone(s, b, true) ==> Filling(r', WatchNext(w, s, b, true).written))
  {
    hide Conserved, MemNext, Contents, Head, Filling, Stored, WatchNext, SnWrEn, SnDone, RamNext;
    HeadIsOldest(m.p3.sn);
    var t := Contents(m.p3.sn)[0];
    BufferFrame(m, rq, 2 * cap, t);
    SnooperWrites(RamOf(m, t), w, s, b, cap);
  }

  /** A buffer that is rejected, or sent in full, is handed back blank. */
  lemma ReleasedAreBlank(m: Mem, rq: Requests, cap: nat)
    requires cap > 0 && Conserved(m.p3) && Shaped(m, 2 * cap) && Disciplined(m.p3, rq.pulses)
    ensures Blank(MemNext(m, rq), (if rq.pulses.rej then [Head(m.p3.cpu)] else [])
                                  + (if rq.pulses.fwdDone then [Head(m.p3.fwd)] else []))
  {
    hide Conserved, Contents, Head, Filling, MemNext, RamOf, SameContents, RamNext;
    HeadIsOldest(m.p3.cpu);
    HeadIsOldest(m.p3.fwd);
    if rq.pulses.rej {
      BufferFrame(m, rq, 2 * cap, Head(m.p3.cpu));
      Blanked(RamOf(MemNext(m, rq), Head(m.p3.cpu)));
    }
    if rq.pulses.fwdDone {
      BufferFrame(m, rq, 2 * cap, Head(m.p3.fwd));
      Blanked(RamOf(MemNext(m, rq), Head(m.p3.fwd)));
    }
  }

  /** The snooper's queue after an edge. */
  lemma SnStep(m: Mem, rq: Requests, cap: nat, w: Watch, s: Snoop, b: Bus)
    requires cap > 0 && Conserved(m.p3) && Shaped(m, 2 * cap) && Disciplined(m.p3, rq.pulses)
    requires SnHolds(m, Contents(m.p3.sn), w.written) && SnooperAsks(rq, w, s, b, ReadyForSnooper(m), cap)
    ensures var m' := MemNext(m, rq);
            SnHolds(m', Contents(m'.p3.sn), WatchNext(w, s, b, ReadyForSnooper(m)).written)
  {
    hide Conserved, RamOf, Contents, Head, Filling, Stored, P3Next, Blank, Disciplined;
    var m', p := MemNext(m, rq), rq.pulses;
    TokensMove(m.p3, p);
    TailsKept(m, rq, 2 * cap, m.p3.sn);
    HeadIsOldest(m.p3.sn);
    var ts := (if p.rej then [Head(m.p3.cpu)] else []) + (if p.fwdDone then [Head(m.p3.fwd)] else []);
    var written' := WatchNext(w, s, b, ReadyForSnooper(m)).written;
    if Contents(m.p3.sn) != [] {
      SnooperBuffer(m, rq, cap, w, s, b);
    }
    ReleasedAreBlank(m, rq, cap);
    SnHoldsStep(m, m', Contents(m.p3.sn), w.written, p.snDone, written', ts);
  }

  /** The CPU's queue after an edge. */
  lemma CpuStep(m: Mem, rq: Requests, cap: nat, w: Watch, s: Snoop, b: Bus, cpuQ: seq<Packet>)
    requires cap > 0 && Conserved(m.p3) && Shaped(m, 2 * cap) && Disciplined(m.p3, rq.pulses)
    requires SnHolds(m, Contents(m.p3.sn), w.written) && SnooperAsks(rq, w, s, b, ReadyForSnooper(m), cap)
    requires Queued(m, Contents(m.p3.cpu), cpuQ) && (rq.pulses.snDone ==> |w.written| >= 2)
    ensures var m', p := MemNext(m, rq), rq.pulses;
            Queued(m', Contents(m'.p3.cpu), (if p.acc || p.rej then Rest(cpuQ) else cpuQ)
                                            + (if p.snDone then [w.written + [b.data]] else []))
  {
    hide Conserved, RamOf, Contents, Head, Filling, Stored, P3Next, Disciplined, SameContents, SnHolds;
    var m', p := MemNext(m, rq), rq.pulses;
    TokensMove(m.p3, p);
    TailsKept(m, rq, 2 * cap, m.p3.cpu);
    HeadIsOldest(m.p3.sn);
    HeadIsOldest(m.p3.cpu);
    if p.snDone {
      SnooperBuffer(m, rq, cap, w, s, b);
    }
    if Contents(m.p3.cpu) != [] {
      BufferFrame(m, rq, 2 * cap, Head(m.p3.cpu));
    }
    QueuedStep(m, m', Contents(m.p3.cpu), cpuQ, p.acc || p.rej,
               if p.snDone then [Head(m.p3.sn)] else [], if p.snDone then [w.written + [b.data]] else []);
  }

  lemma CpuOwns(m: Mem, p: Pulses, cpuQ: seq<Packet>)
    requires Disciplined(m.p3, p) && Queued(m, Contents(m.p3.cpu), cpuQ)
    ensures p.acc || p.rej ==> cpuQ != []
    ensures !(p.acc && p.rej)
  {
    HeadIsOldest(m.p3.cpu);
  }

  lemma StoredKept(r: Ram, r': Ram, beats: Packet)
    requires Stored(r, beats) && SameContents(r, r')
    ensures Stored(r', beats)
  {
  }

  /** The forwarder's queue after an edge. */
  lemma FwdQueueStep(m: Mem, rq: Requests, cap: nat, cpuQ: seq<Packet>, fwdQ: seq<Packet>)
    requires cap > 0 && Conserved(m.p3) && Shaped(m, 2 * cap) && Disciplined(m.p3, rq.pulses)
    requires Queued(m, Contents(m.p3.cpu), cpuQ) && Queued(m, Contents(m.p3.fwd), fwdQ)
    ensures var m', p := MemNext(m, rq), rq.pulses;
            Queued(m', Contents(m'.p3.fwd),
                (if p.fwdDone then Rest(fwdQ) else fwdQ) + (if p.acc then First(cpuQ) else []))
  {
    hide Conserved, RamOf, Contents, Head, Stored, P3Next, Disciplined, SameContents;
    var m', p := MemNext(m, rq), rq.pulses;
    TokensMove(m.p3, p);
    TailsKept(m, rq, 2 * cap, m.p3.fwd);
    HeadIsOldest(m.p3.cpu);
    HeadIsOldest(m.p3.fwd);
    if Contents(m.p3.fwd) != [] {
      BufferFrame(m, rq, 2 * cap, Head(m.p3.fwd));
    }
    if p.acc {
      var b := Head(m.p3.cpu);
      CpuOwns(m, p, cpuQ);
      BufferFrame(m, rq, 2 * cap, b);
      StoredKept(RamOf(m, b), RamOf(m', b), cpuQ[0]);
    }
    QueuedStep(m, m', Contents(m.p3.fwd), fwdQ, p.fwdDone,
               if p.acc then [Head(m.p3.cpu)] else [], if p.acc then First(cpuQ) else []);
  }

  lemma WhatTheForwarderSees(m: Mem)
    ensures var sel := Head(m.p3.fwd);
            sel != 0 ==> LenTo(m, sel) == FwdBuffer(m).len && DataTo(m, sel) == FwdBuffer(m).dout
  {
  }

  /** What the forwarder asks of the memory in one cycle. */
  predicate ForwarderAsks(rq: Requests, m: Mem, f: Fwd, ready: bool, tready: bool) {
    && rq.fwdAddr == f.addr
    && rq.fwdRd == FwdRdEn(f, ready, LenTo(m, Head(m.p3.fwd)), tready)
    && rq.pulses.fwdDone == FwdDone(f, tready)
  }

  /** With nothing to send the forwarder stays idle. */
  lemma IdleEdge(f: Fwd, len: nat, data: Beat, tready: bool)
    requires FwdIdle(f)
    ensures FwdIdle(FwdNext(f, false, len, data, tready)) && !FwdDone(f, tready)
  {
  }

  lemma IdleHasSentNothing(f: Fwd, dout: Beat, fwdQ: seq<Packet>, sent: nat)
    requires FwdIdle(f) && FwdHolds(f, dout, fwdQ, sent)
    ensures sent == 0
  {
  }

  /** The forwarder's side of one cycle in which it has a buffer: what it
      transfers, and what it presents next. */
  lemma BusyEdge(m: Mem, rq: Requests, cap: nat, f: Fwd, tready: bool, p: Packet, sent: nat)
    requires cap > 0 && Conserved(m.p3) && Shaped(m, 2 * cap) && Head(m.p3.fwd) != 0
    requires Stored(FwdBuffer(m), p) && |p| >= 3 && ForwarderAsks(rq, m, f, true, tready)
    requires Presenting(f, FwdBuffer(m).dout, p, sent)
    ensures var r, r' := FwdBuffer(m), RamOf(MemNext(m, rq), Head(m.p3.fwd));
      var f' := FwdNext(f, true, r.len, r.dout, tready);
      && sent < |p|
      && (f.tvalid ==> Flit(TData(f, r.dout), f.tlast) == Flits(p)[sent])
      && (FwdDone(f, tready) <==> f.tvalid && tready && sent == |p| - 1)
      && (FwdDone(f, tready) ==> FwdIdle(f'))
      && (!FwdDone(f, tready) ==> Presenting(f', r'.dout, p, if f.tvalid && tready then sent + 1 else sent))
      && (!f.tvalid ==> !f'.tlast)
  {
    hide Conserved, MemNext, RamOf, LenTo, DataTo, Head, Contents, Stored, FwdNext, FwdDone, RamNext;
    assert sent < |p|;
    var b := Head(m.p3.fwd);
    RamShape(m, 2 * cap, b);
    var r := FwdBuffer(m);
    WhatTheForwarderSees(m);
    BufferFrame(m, rq, 2 * cap, b);
    ForwarderEdge(f, r, p, sent, tready);
    NotLastAtOnce(f, r, p, sent, tready);
  }

  lemma NotLastAtOnce(f: Fwd, r: Ram, p: Packet, k: nat, tready: bool)
    requires Stored(r, p) && |p| >= 2 && Presenting(f, r.dout, p, k)
    ensures !f.tvalid ==> !FwdNext(f, true, r.len, r.dout, tready).tlast
  {
  }

  /** The forwarder after an edge, and the beat it transfers. */
  lemma FwdStep(m: Mem, rq: Requests, cap: nat, f: Fwd, grant: bool, tready: bool, fwdQ: seq<Packet>, sent: nat,
          cpuQ: seq<Packet>)
    requires cap > 0 && Conserved(m.p3) && Shaped(m, 2 * cap) && Disciplined(m.p3, rq.pulses)
    requires Queued(m, Contents(m.p3.cpu), cpuQ) && Queued(m, Contents(m.p3.fwd), fwdQ)
    requires ForwarderAsks(rq, m, f, ReadyForForwarder(m) && grant, tready) && (!grant ==> FwdIdle(f))
    requires FwdHolds(f, FwdBuffer(m).dout, fwdQ, sent)
    ensures var m', p := MemNext(m, rq), rq.pulses;
      var sel := Head(m.p3.fwd);
      var f' := FwdNext(f, ReadyForForwarder(m) && grant, LenTo(m, sel), DataTo(m, sel), tready);
      && (f.tvalid && tready ==> (&& fwdQ != [] && sent < |fwdQ[0]| && p.fwdDone == (sent == |fwdQ[0]| - 1)
                                  && Flit(TData(f, DataTo(m, sel)), f.tlast) == Flits(fwdQ[0])[sent]))
      && (p.fwdDone ==> f.tvalid && tready && FwdIdle(f'))
      && FwdHolds(f', FwdBuffer(m').dout,
          (if p.fwdDone then Rest(fwdQ) else fwdQ) + (if p.acc then First(cpuQ) else []),
                  if p.fwdDone then 0 else if f.tvalid && tready then sent + 1 else sent)
      && (!f.tvalid ==> !f'.tlast)
  {
    hide Conserved, RamOf, LenTo, DataTo, Head, Contents, Stored, FwdNext, FwdDone, RamNext, P3Next, Presenting,
         Disciplined, TData, Flits;
    var m', p := MemNext(m, rq), rq.pulses;
    TokensMove(m.p3, p);
    HeadIsOldest(m.p3.fwd);
    HeadIsOldest(m'.p3.fwd);
    WhatTheForwarderSees(m);
    CpuOwns(m, p, cpuQ);
    var sel := Head(m.p3.fwd);
    var f' := FwdNext(f, ReadyForForwarder(m) && grant, LenTo(m, sel), DataTo(m, sel), tready);
    if fwdQ == [] || !grant {
      assert sent == 0 by { IdleHasSentNothing(f, FwdBuffer(m).dout, fwdQ, sent); }
      IdleEdge(f, LenTo(m, sel), DataTo(m, sel), tready);
    } else {
      BusyEdge(m, rq, cap, f, tready, fwdQ[0], sent);
    }
    var fwdQ' := (if p.fwdDone then Rest(fwdQ) else fwdQ) + (if p.acc then First(cpuQ) else []);
    if fwdQ' != [] && (p.fwdDone || fwdQ == [] || !grant) {
      IdlePresents(f', FwdBuffer(m').dout, fwdQ'[0]);
    }
  }

  // ----------------------------------------------------- the cycle as a whole

  /** The requests of a cycle are what the snooper's and the forwarder's steps
      assume about them. */
  lemma CycleAsks(v: Vm, h: Hist, i: Input, cap: nat)
    requires Inv(v, h, cap) && GoodInput(h, v, i, cap)
    ensures SnooperAsks(RequestsOf(v, i), h.watch, v.sn, i.bus, ReadyForSnooper(v.mem), cap)
    ensures ForwarderAsks(RequestsOf(v, i), v.mem, v.fwd, FwdReady(v, i), i.tready)
    ensures PulsesOf(v, i).snDone ==> |h.watch.written| >= 2
  {
    hide Conserved, Shaped, Books, Stored, Filling, SnHolds, Queued, SnDone, SnWrEn, FwdDone, FwdRdEn, Presenting,
         GoodBus, GoodVerdict, Timely;
    SnooperCycle(v, h, i.bus, cap);
  }

  lemma TimelyStep(v: Vm, h: Hist, i: Input, cap: nat)
    requires cap > 0 && Shaped(v.mem, 2 * cap) && Conserved(v.mem.p3) && Disciplined(v.mem.p3, PulsesOf(v, i))
             && Timely(v, h)
    requires var ready := ReadyForSnooper(v.mem); SnDone(v.sn, i.bus, ready) ==> v.mem.p3.sn.first != 0
    requires SnWrEn(v.sn, i.bus, ReadyForSnooper(v.mem)) ==> Head(v.mem.p3.sn) != 0
    requires var v' := VmNext(v, i, cap);
             && (FwdDone(v.fwd, i.tready) ==> !v'.fwd.tvalid)
             && (!v.fwd.tvalid ==> !v'.fwd.tlast)
             && (Head(v.mem.p3.fwd) == 0 ==> !v'.fwd.tvalid && !v'.fwd.tlast)
    ensures Timely(VmNext(v, i, cap), HistNext(h, v, i))
  {
    ThirdIsRecent(v.mem.p3, PulsesOf(v, i));
  }

  lemma AcceptedStep(judged: seq<Packet>, verdicts: seq<bool>, q: seq<Packet>, decided: bool, acc: bool)
    requires |judged| == |verdicts| && (decided ==> q != []) && (acc ==> decided)
    ensures var judged' := if decided then judged + First(q) else judged;
            var verdicts' := if decided then verdicts + [acc] else verdicts;
            |judged'| == |verdicts'| && Accepted(judged', verdicts') == Accepted(judged,
                verdicts) + if acc then First(q) else []
  {
    if decided {
      assert (judged + First(q))[..|judged|] == judged && (verdicts + [acc])[..|judged|] == verdicts;
    }
  }

  lemma StreamAppend(packets: seq<Packet>, q: seq<Packet>)
    requires q != []
    ensures Stream(packets + First(q)) == Stream(packets) + Flits(q[0])
  {
    assert (packets + First(q))[..|packets|] == packets;
  }

  lemma Regroup<T>(a: seq<T>, b: seq<T>, c: seq<T>)
    ensures a + b + c == a + (b + c) && a + [] == a
  {
  }

  /** What the forwarder's counters, advanced by one cycle, say has been sent. */
  lemma SendingStep(h: Hist, h': Hist, transfer: bool, flit: Flit, done: bool, more: seq<Packet>)
    requires h.fwdQ != [] ==> h.sent <= |h.fwdQ[0]|
    requires transfer ==> h.fwdQ != [] && h.sent < |h.fwdQ[0]| && flit == Flits(h.fwdQ[0])[h.sent]
    requires transfer ==> done == (h.sent == |h.fwdQ[0]| - 1)
    requires done ==> transfer
    requires h.fwdQ == [] ==> h.sent == 0
    requires h'.fwdQ == (if done then Rest(h.fwdQ) else h.fwdQ) + more
    requires h'.sent == (if done then 0 else if transfer then h.sent + 1 else h.sent)
    ensures h'.fwdQ != [] ==> h'.sent <= |h'.fwdQ[0]|
    ensures Sending(h') == (if done then [] else if transfer then Sending(h) + [flit] else Sending(h))
    ensures done ==> Sending(h) + [flit] == Flits(h.fwdQ[0])
  {
    if transfer {
      var flits := Flits(h.fwdQ[0]);
      assert flits[..h.sent] + [flit] == flits[..h.sent + 1];
      if done {
        assert flits[..h.sent + 1] == flits;
      }
    }
  }

  /** Moving the oldest of a queue to the end of another list, while more
      arrives, keeps their concatenation. */
  lemma MoveOldest(past: seq<Packet>, q: seq<Packet>, move: bool, more: seq<Packet>)
    requires move ==> q != []
    ensures past + q + more == (if move then past + First(q) else past) + ((if move then Rest(q) else q) + more)
  {
    if move {
      assert q == [q[0]] + q[1..];
    }
  }

  lemma StillToSend(h: Hist, h': Hist, transfer: bool, done: bool, more: seq<Packet>)
    requires h.fwdQ != [] ==> h.sent < |h.fwdQ[0]|
    requires transfer ==> h.fwdQ != [] && done == (h.sent == |h.fwdQ[0]| - 1)
    requires done ==> transfer
    requires h.fwdQ == [] ==> h.sent == 0
    requires forall k :: 0 <= k < |more| ==> more[k] != []
    requires forall k :: 0 <= k < |h.fwdQ| ==> h.fwdQ[k] != []
    requires h'.fwdQ == (if done then Rest(h.fwdQ) else h.fwdQ) + more
    requires h'.sent == (if done then 0 else if transfer then h.sent + 1 else h.sent)
    ensures h'.fwdQ != [] ==> h'.sent < |h'.fwdQ[0]|
  {
  }

  /** The forwarder's part of the books. */
  lemma OutStep(h: Hist, h': Hist, transfer: bool, flit: Flit, done: bool, more: seq<Packet>)
    requires Books(h)
    requires transfer ==> h.fwdQ != [] && flit == Flits(h.fwdQ[0])[h.sent] && done == (h.sent == |h.fwdQ[0]| - 1)
    requires done ==> transfer
    requires h.fwdQ == [] ==> h.sent == 0
    requires forall k :: 0 <= k < |more| ==> more[k] != []
    requires forall k :: 0 <= k < |h.fwdQ| ==> h.fwdQ[k] != []
    requires h'.out == (if transfer then h.out + [flit] else h.out)
    requires h'.gone == (if done then h.gone + First(h.fwdQ) else h.gone)
    requires h'.fwdQ == (if done then Rest(h.fwdQ) else h.fwdQ) + more
    requires h'.sent == (if done then 0 else if transfer then h.sent + 1 else h.sent)
    ensures h'.gone + h'.fwdQ == h.gone + h.fwdQ + more
    ensures h'.fwdQ != [] ==> h'.sent < |h'.fwdQ[0]|
    ensures h'.out == Stream(h'.gone) + Sending(h')
  {
    hide Flits, Sending, Stream, Rest, First, Accepted;
    SendingStep(h, h', transfer, flit, done, more);
    StillToSend(h, h', transfer, done, more);
    MoveOldest(h.gone, h.fwdQ, done, more);
    Regroup(Stream(h.gone), Sending(h), [flit]);
    Regroup(Stream(h'.gone), [], []);
    if done {
      StreamAppend(h.gone, h.fwdQ);
    }
  }

  lemma BooksStep(v: Vm, h: Hist, i: Input)
    requires Books(h)
    requires i.acc || i.rej ==> h.cpuQ != []
    requires !(i.acc && i.rej)
    requires var h' := HistNext(h, v, i);
      && h'.gone + h'.fwdQ == h.gone + h.fwdQ + (if i.acc then First(h.cpuQ) else [])
      && (h'.fwdQ != [] ==> h'.sent < |h'.fwdQ[0]|)
      && h'.out == Stream(h'.gone) + Sending(h')
    ensures Books(HistNext(h, v, i))
  {
    hide Flits, Stream, Sending, TData, DataTo, Head, SnDone, SnWrEn, FwdDone, Accepted, Rest, First;
    var more := if PulsesOf(v, i).snDone then [h.watch.written + [i.bus.data]] else [];
    MoveOldest(h.judged, h.cpuQ, i.acc || i.rej, more);
    AcceptedStep(h.judged, h.verdicts, h.cpuQ, i.acc || i.rej, i.acc);
  }

  lemma QueuedNonempty(m: Mem, c: seq<Token>, q: seq<Packet>)
    requires Queued(m, c, q)
    ensures forall k :: 0 <= k < |q| ==> q[k] != []
  {
  }

  /** The buffers after a cycle. */
  lemma BuffersStep(v: Vm, h: Hist, i: Input, cap: nat)
    requires cap > 0 && Inv(v, h, cap) && GoodInput(h, v, i, cap)
    ensures var v', h' := VmNext(v, i, cap), HistNext(h, v, i);
      && Shaped(v'.mem, 2 * cap) && Conserved(v'.mem.p3)
      && SnHolds(v'.mem, Contents(v'.mem.p3.sn), h'.watch.written)
      && Queued(v'.mem, Contents(v'.mem.p3.cpu), h'.cpuQ)
      && Queued(v'.mem, Contents(v'.mem.p3.fwd), h'.fwdQ)
  {
    hide Conserved, Shaped, Books, SnHolds, Queued, FwdHolds, Timely, Whole, Disciplined, MemNext, SnoopNext,
         FwdNext, Contents, Head, RamOf,
         P3Next, WatchNext, DataTo, LenTo, TData, Flits, Sending, Stream, Accepted, FwdDone, SnDone, SnWrEn,
         TailWrite, FwdRdEn, GoodBus, GoodVerdict, First, Rest,
         SnooperAsks, ForwarderAsks;
    var rq := RequestsOf(v, i);
    VmNextParts(v, i, cap);
    CycleIsDisciplined(v, h, i, cap);
    CycleAsks(v, h, i, cap);
    ShapeKept(v.mem, rq, 2 * cap);
    TokensMove(v.mem.p3, rq.pulses);
    SnStep(v.mem, rq, cap, h.watch, v.sn, i.bus);
    CpuStep(v.mem, rq, cap, h.watch, v.sn, i.bus, h.cpuQ);
    FwdQueueStep(v.mem, rq, cap, h.cpuQ, h.fwdQ);
  }

  /** The forwarder after a cycle, and what went out. */
  lemma ForwarderStep(v: Vm, h: Hist, i: Input, cap: nat)
    requires cap > 0 && Inv(v, h, cap) && GoodInput(h, v, i, cap)
    ensures var v', h' := VmNext(v, i, cap), HistNext(h, v, i);
      && FwdHolds(v'.fwd, FwdBuffer(v'.mem).dout, h'.fwdQ, h'.sent)
      && (v.fwd.tvalid && i.tready ==> (
          && h.fwdQ != [] && h.sent < |h.fwdQ[0]| && FwdDone(v.fwd, i.tready) == (h.sent == |h.fwdQ[0]| - 1)
          && Flit(TData(v.fwd, DataTo(v.mem, Head(v.mem.p3.fwd))), v.fwd.tlast) == Flits(h.fwdQ[0])[h.sent]))
      && (FwdDone(v.fwd, i.tready) ==> v.fwd.tvalid && i.tready && FwdIdle(v'.fwd))
      && (!v.fwd.tvalid ==> !v'.fwd.tlast)
  {
    hide Conserved, Shaped, Books, SnHolds, Queued, FwdHolds, Timely, Whole, Disciplined, MemNext, SnoopNext,
         FwdNext, Contents, Head, RamOf,
         P3Next, WatchNext, DataTo, LenTo, TData, Flits, Sending, Stream, Accepted, FwdDone, SnDone, SnWrEn,
         TailWrite, FwdRdEn, GoodBus, GoodVerdict, First, Rest,
         SnooperAsks, ForwarderAsks;
    VmNextParts(v, i, cap);
    CycleIsDisciplined(v, h, i, cap);
    CycleAsks(v, h, i, cap);
    FwdStep(v.mem, RequestsOf(v, i), cap, v.fwd, i.grant, i.tready, h.fwdQ, h.sent, h.cpuQ);
  }

  lemma IdleWithoutBuffer(v: Vm, h: Hist, i: Input, cap: nat)
    requires cap > 0 && Inv(v, h, cap) && GoodInput(h, v, i, cap) && Head(v.mem.p3.fwd) == 0
    ensures var v' := VmNext(v, i, cap); !v'.fwd.tvalid && !v'.fwd.tlast
  {
    hide Conserved, Shaped, Books, SnHolds, Timely, Whole, MemNext, SnoopNext, DataTo, LenTo;
    HeadIsOldest(v.mem.p3.fwd);
    assert h.fwdQ == [];
  }

  lemma TimingStep(v: Vm, h: Hist, i: Input, cap: nat)
    requires cap > 0 && Inv(v, h, cap) && GoodInput(h, v, i, cap)
    ensures Timely(VmNext(v, i, cap), HistNext(h, v, i))
  {
    hide Conserved, Shaped, Books, SnHolds, Queued, FwdHolds, Timely, Whole, Disciplined, MemNext, SnoopNext,
         FwdNext, Contents, Head, RamOf,
         P3Next, WatchNext, DataTo, LenTo, TData, Flits, Sending, Stream, Accepted, FwdDone, SnDone, SnWrEn,
         TailWrite, FwdRdEn, GoodBus, GoodVerdict, First, Rest,
         SnooperAsks, ForwarderAsks;
    CycleIsDisciplined(v, h, i, cap);
    SnooperCycle(v, h, i.bus, cap);
    ForwarderStep(v, h, i, cap);
    if Head(v.mem.p3.fwd) == 0 {
      IdleWithoutBuffer(v, h, i, cap);
    }
    assert SnWrEn(v.sn, i.bus, ReadyForSnooper(v.mem)) ==> Head(v.mem.p3.sn) != 0 by { WritesWhenReady(v, i); }
    TimelyStep(v, h, i, cap);
  }

  lemma WritesWhenReady(v: Vm, i: Input)
    ensures SnWrEn(v.sn, i.bus, ReadyForSnooper(v.mem)) ==> Head(v.mem.p3.sn) != 0
  {
  }

  lemma NothingSent(v: Vm, h: Hist, cap: nat)
    requires Inv(v, h, cap)
    ensures h.fwdQ == [] ==> h.sent == 0
  {
  }

  lemma AccountsStep(v: Vm, h: Hist, i: Input, cap: nat)
    requires cap > 0 && Inv(v, h, cap) && GoodInput(h, v, i, cap)
    ensures Books(HistNext(h, v, i))
  {
    hide Conserved, Shaped, Books, SnHolds, Queued, FwdHolds, Timely, Whole, Disciplined, MemNext, SnoopNext,
         FwdNext, Contents, Head, RamOf,
         P3Next, WatchNext, DataTo, LenTo, TData, Flits, Sending, Stream, Accepted, FwdDone, SnDone, SnWrEn,
         TailWrite, FwdRdEn, GoodBus, GoodVerdict, First, Rest,
         SnooperAsks, ForwarderAsks;
    CycleIsDisciplined(v, h, i, cap);
    ForwarderStep(v, h, i, cap);
    var h' := HistNext(h, v, i);
    var more := if i.acc then First(h.cpuQ) else [];
    NothingSent(v, h, cap);
    QueuedNonempty(v.mem, Contents(v.mem.p3.fwd), h.fwdQ);
    assert forall k :: 0 <= k < |more| ==> more[k] != [] by { QueuedNonempty(v.mem, Contents(v.mem.p3.cpu),
        h.cpuQ); AcceptedNonempty(h.cpuQ); }
    OutStep(h, h', v.fwd.tvalid && i.tready, Flit(TData(v.fwd, DataTo(v.mem, Head(v.mem.p3.fwd))), v.fwd.tlast),
        PulsesOf(v, i).fwdDone, more);
    BooksStep(v, h, i);
  }

  lemma AcceptedNonempty(q: seq<Packet>)
    requires forall k :: 0 <= k < |q| ==> q[k] != []
    ensures forall k :: 0 <= k < |First(q)| ==> First(q)[k] != []
  {
  }

  /** Every cycle keeps the invariant. */
  lemma InvStep(v: Vm, h: Hist, i: Input, cap: nat)
    requires cap > 0 && Inv(v, h, cap) && GoodInput(h, v, i, cap)
    ensures Inv(VmNext(v, i, cap), HistNext(h, v, i), cap)
  {
    hide Conserved, Shaped, Books, SnHolds, Queued, FwdHolds, Timely, Whole, Disciplined, MemNext, SnoopNext,
         FwdNext, Contents, Head, RamOf,
         P3Next, WatchNext, DataTo, LenTo, TData, Flits, Sending, Stream, Accepted, FwdDone, SnDone, SnWrEn,
         TailWrite, FwdRdEn, GoodBus, GoodVerdict, First, Rest,
         SnooperAsks, ForwarderAsks;
    BuffersStep(v, h, i, cap);
    SnooperCycle(v, h, i.bus, cap);
    SnooperWholeIff(h.watch, v.sn, i.bus, ReadyForSnooper(v.mem), cap);
    ForwarderStep(v, h, i, cap);
    TimingStep(v, h, i, cap);
    AccountsStep(v, h, i, cap);
  }

  /** The buffers' ready lines: the snooper's is up iff fewer than three packets
      are in the machine, the CPU's iff one waits to be judged, and the
      forwarder's iff an accepted one waits to be sent. */
  lemma ReadyLines(v: Vm, h: Hist, cap: nat)
    requires Inv(v, h, cap)
    ensures ReadyForSnooper(v.mem) <==> |h.cpuQ| + |h.fwdQ| < 3
    ensures ReadyForCpu(v.mem) <==> h.cpuQ != []
    ensures ReadyForForwarder(v.mem) <==> h.fwdQ != []
  {
    ConservedSizes(v.mem.p3);
    HeadIsOldest(v.mem.p3.sn);
    HeadIsOldest(v.mem.p3.cpu);
    HeadIsOldest(v.mem.p3.fwd);
    hide Conserved, Shaped, Whole, SnHolds, FwdHolds, Timely, Books, Stored, Contents, Head;
  }

  /** A packet is captured, in the end, iff fewer than three packets are in the
      machine when its first beat moves: that is what the record says. */
  lemma TakenIffRoom(v: Vm, h: Hist, i: Input, cap: nat)
    requires Inv(v, h, cap) && Transfers(i.bus) && h.watch.current == []
    ensures HistNext(h, v, i).watch.started <==> |h.cpuQ| + |h.fwdQ| < 3
  {
    hide Inv, ReadyForSnooper;
    ReadyLines(v, h, cap);
  }

  /** Writing the tail of a skipped packet breaks the invariant, so the assumption
      that it does not happen is exact. */
  lemma TailWriteBreaksInv(v: Vm, h: Hist, i: Input, cap: nat)
    requires cap > 0 && Inv(v, h, cap) && GoodBus(h.watch, i.bus, cap)
    requires TailWrite(h.watch, v.sn, i.bus, ReadyForSnooper(v.mem))
    ensures !Inv(VmNext(v, i, cap), HistNext(h, v, i), cap)
  {
    hide Conserved, SnHolds, Queued, FwdHolds, Timely, MemNext, FwdNext, Whole, WatchNext, SnoopNext;
    SnooperWholeIff(h.watch, v.sn, i.bus, ReadyForSnooper(v.mem), cap);
  }

  // ------------------------------------------------------------------- runs

  /** All buffers empty and everything else as after reset. */
  ghost predicate Start(v: Vm, cap: nat) {
    && cap > 0 && Shaped(v.mem, 2 * cap) && v.mem.p3 == P3_RESET
    && v.mem.ping.len == v.mem.pang.len == v.mem.pung.len == 0
    && v.sn == Snoop(0, false) && FwdIdle(v.fwd)
  }

  ghost function VmRun(v0: Vm, ins: seq<Input>, cap: nat): (v: Vm)
    requires cap > 0 && Shaped(v0.mem, 2 * cap)
    ensures Shaped(v.mem, 2 * cap)
  {
    if ins == [] then v0
    else
      var k := |ins| - 1;
      var v := VmRun(v0, ins[..k], cap);
      ShapeKept(v.mem, RequestsOf(v, ins[k]), 2 * cap);
      VmNext(v, ins[k], cap)
  }

  ghost function HistRun(v0: Vm, ins: seq<Input>, cap: nat): Hist
    requires cap > 0 && Shaped(v0.mem, 2 * cap)
  {
    if ins == [] then NO_HISTORY
    else
      var k := |ins| - 1;
      HistNext(HistRun(v0, ins[..k], cap), VmRun(v0, ins[..k], cap), ins[k])
  }

  /** The environment behaves in every cycle. */
  ghost predicate GoodRun(v0: Vm, ins: seq<Input>, cap: nat)
    requires cap > 0 && Shaped(v0.mem, 2 * cap)
  {
    ins != [] ==>
      var k := |ins| - 1;
      GoodRun(v0, ins[..k], cap) && GoodInput(HistRun(v0, ins[..k], cap), VmRun(v0, ins[..k], cap), ins[k], cap)
  }

  lemma InvStart(v: Vm, cap: nat)
    requires Start(v, cap)
    ensures Inv(v, NO_HISTORY, cap)
  {
    hide Stored, Shaped, Conserved, Presenting, Whole;
    ResetConserved();
    assert Whole(NOTHING_SEEN, v.sn) by { NothingTaken(v.sn); }
    assert Contents(v.mem.p3.sn) == [1, 2, 3];
    assert Contents(v.mem.p3.cpu) == [] && Contents(v.mem.p3.fwd) == [];
  }

  lemma NothingTaken(s: Snoop)
    requires s == Snoop(0, false)
    ensures Whole(NOTHING_SEEN, s)
  {
  }

  lemma {:induction false} InvRun(v0: Vm, ins: seq<Input>, cap: nat)
    requires Start(v0, cap) && GoodRun(v0, ins, cap)
    ensures Inv(VmRun(v0, ins, cap), HistRun(v0, ins, cap), cap)
  {
    hide VmNext, HistNext, Inv, Start, GoodInput, Shaped;
    assert cap > 0 && Shaped(v0.mem, 2 * cap) by { StartShape(v0, cap); }
    if ins == [] {
      InvStart(v0, cap);
    } else {
      var k := |ins| - 1;
      InvRun(v0, ins[..k], cap);
      InvStep(VmRun(v0, ins[..k], cap), HistRun(v0, ins[..k], cap), ins[k], cap);
    }
  }

  lemma StartShape(v: Vm, cap: nat)
    requires Start(v, cap)
    ensures cap > 0 && Shaped(v.mem, 2 * cap)
  {
  }

  /** The packets handed over are exactly the whole bus packets that found a
      buffer ready at their first beat, in arrival order; each is either judged
      or still waits, unaltered, for the CPU; the output is a prefix of the
      accepted ones, in order, beat for beat, with TLAST at the end of each; and
      what is missing from the output still waits, unaltered, for the
      forwarder. */
  ghost predicate Faithful(v: Vm, h: Hist) {
    && |h.watch.seen| == |h.watch.readyAtStart|
    && h.watch.captured == TakenOf(h.watch.seen, h.watch.readyAtStart)
    && h.watch.captured == h.judged + h.cpuQ
    && |h.judged| == |h.verdicts|
    && Accepted(h.judged, h.verdicts) == h.gone + h.fwdQ
    && Stream(h.gone) <= h.out <= Stream(Accepted(h.judged, h.verdicts))
    && (h.fwdQ == [] ==> h.out == Stream(h.gone))
    && Queued(v.mem, Contents(v.mem.p3.cpu), h.cpuQ)
    && Queued(v.mem, Contents(v.mem.p3.fwd), h.fwdQ)
    && |h.cpuQ| + |h.fwdQ| <= 3
  }

  lemma PrefixOf<T>(out: seq<T>, a: seq<T>, b: seq<T>, n: nat, all: seq<T>)
    requires n <= |b| && out == a + b[..n] && a + b <= all
    ensures a <= out <= all
  {
    assert forall k :: 0 <= k < |out| ==> out[k] == (a + b)[k];
  }

  lemma InvIsFaithful(v: Vm, h: Hist, cap: nat)
    requires Inv(v, h, cap)
    ensures Faithful(v, h)
  {
    hide FwdHolds, Timely, SnHolds, Stored, Shaped, Conserved, Stream, TakenOf, Accepted, Contents, Presenting, RamOf;
    ConservedSizes(v.mem.p3);
    if h.fwdQ != [] {
      StreamSplit(h.gone, h.fwdQ);
      PrefixOf(h.out, Stream(h.gone), Flits(h.fwdQ[0]), h.sent, Stream(h.gone + h.fwdQ));
    } else {
      assert h.gone + h.fwdQ == h.gone;
    }
  }

  lemma {:induction false} StreamSplit(gone: seq<Packet>, rest: seq<Packet>)
    requires rest != []
    ensures Stream(gone) + Flits(rest[0]) <= Stream(gone + rest)
    decreases |rest|
  {
    var k := |rest| - 1;
    var all := gone + rest;
    assert all[..|all| - 1] == gone + rest[..k];
    if k == 0 {
      assert gone + rest[..k] == gone;
    } else {
      StreamSplit(gone, rest[..k]);
    }
  }

  /** Main result.  From reset, under any bus traffic of packets of three beats
      up to the buffer size in which no tail of a skipped packet is written, any
      verdicts given under E1-E3 and any TREADY schedule, the path from bus to
      output stream is faithful in every cycle. */
  lemma OutputIsAcceptedPackets(v0: Vm, ins: seq<Input>, cap: nat)
    requires Start(v0, cap) && GoodRun(v0, ins, cap)
    ensures Faithful(VmRun(v0, ins, cap), HistRun(v0, ins, cap))
  {
    StartShape(v0, cap);
    hide Inv, VmRun, HistRun, Faithful, GoodRun, Start, Shaped;
    InvRun(v0, ins, cap);
    InvIsFaithful(VmRun(v0, ins, cap), HistRun(v0, ins, cap), cap);
  }

  /** When nothing is left in the buffers, everything captured has been judged
      and the output is exactly the stream of the accepted packets: nothing is
      lost, repeated or altered. */
  lemma NothingIsLost(v: Vm, h: Hist)
    requires Faithful(v, h) && Head(v.mem.p3.cpu) == 0 && Head(v.mem.p3.fwd) == 0
    ensures |h.watch.captured| == |h.verdicts| && h.judged == h.watch.captured
    ensures h.out == Stream(Accepted(h.watch.captured, h.verdicts))
  {
    hide Stored, Stream, TakenOf, Accepted, RamOf;
    HeadIsOldest(v.mem.p3.cpu);
    HeadIsOldest(v.mem.p3.fwd);
    assert h.cpuQ == [] && h.fwdQ == [];
    assert h.judged + h.cpuQ == h.judged && h.gone + h.fwdQ == h.gone;
  }

  // ------------------------------------------------ why packets need three beats

  /** A packet of two beats that starts in the cycle in which the snooper's only
      token has just arrived ends before that token is in `first`: the token is
      then in two queues. */
  lemma TwoBeatsCopyTheToken(v: Vm, h: Hist, i1: Input, i2: Input, cap: nat)
    requires cap > 0 && Inv(v, h, cap) && GoodInput(h, v, i1, cap)
    requires v.mem.p3.sn.first == 0 && v.mem.p3.sn.second == 0 && v.mem.p3.sn.third != 0
    requires h.watch.current == [] && Transfers(i1.bus) && !i1.bus.last && !i1.acc && !i1.rej
    requires Transfers(i2.bus) && i2.bus.last && !i2.acc && !i2.rej
    ensures var v1 := VmNext(v, i1, cap);
      && Shaped(v1.mem, 2 * cap)
      && SnDone(v1.sn, i2.bus, ReadyForSnooper(v1.mem)) && v1.mem.p3.sn.first == 0
      && !Conserved(VmNext(v1, i2, cap).mem.p3)
  {
    var v1, h1 := VmNext(v, i1, cap), HistNext(h, v, i1);
    InvStep(v, h, i1, cap);
    TokenMovesUp(v, i1, cap);
    assert Shaped(v1.mem, 2 * cap) && Conserved(v1.mem.p3);
    OwnsWhatItReleases(v1, h1, i2, cap);
    VmNextParts(v1, i2, cap);
    assert !v1.sn.needToWait by { NotWaiting(v, h, i1, cap); }
    hide Inv, Conserved, MemNext, VmNext, HistNext, RequestsOf, P3Next, FwdDone;
    ConservedIff(v1.mem.p3, PulsesOf(v1, i2));
  }

  lemma TokenMovesUp(v: Vm, i: Input, cap: nat)
    requires cap > 0 && Shaped(v.mem, 2 * cap) && !i.acc && !i.rej
    requires v.mem.p3.sn.first == 0 && v.mem.p3.sn.second == 0 && v.mem.p3.sn.third != 0
    requires !SnDone(v.sn, i.bus, ReadyForSnooper(v.mem))
    ensures var q := VmNext(v, i, cap).mem.p3.sn; q.first == 0 && q.second != 0
  {
    VmNextParts(v, i, cap);
    hide VmNext, Shaped;
  }

  lemma NotWaiting(v: Vm, h: Hist, i: Input, cap: nat)
    requires cap > 0 && Inv(v, h, cap) && Head(v.mem.p3.sn) != 0 && h.watch.current == [] && !i.bus.last
    ensures !SnoopNext(v.sn, i.bus, ReadyForSnooper(v.mem), cap).needToWait
  {
    hide Conserved, Shaped, SnHolds, Queued, FwdHolds, Timely, Books;
  }

  lemma OwnsWhatItReleases(v: Vm, h: Hist, i: Input, cap: nat)
    requires Inv(v, h, cap) && !i.acc && !i.rej
    ensures Owning(v.mem.p3, PulsesOf(v, i))
  {
    hide Conserved, Shaped, SnHolds, Timely, Books, Whole, Presenting;
    HeadIsOldest(v.mem.p3.fwd);
  }
}
