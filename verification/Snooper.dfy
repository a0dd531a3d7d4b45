/** axistream_snooper.v, optimistic configuration: copies packets off a stream,
    whole packets only. */
module Snooper {
  import opened PacketRam

  /** The stream the snooper watches, in one cycle. */
  datatype Bus = Bus(data: Beat, valid: bool, ready: bool, last: bool)

  datatype Snoop = Snoop(addr: nat, needToWait: bool)

  predicate Transfers(b: Bus) { b.valid && b.ready }

  predicate SnWrEn(s: Snoop, b: Bus, memReady: bool) { memReady && Transfers(b) && !s.needToWait }

  predicate SnDone(s: Snoop, b: Bus, memReady: bool) { b.last && SnWrEn(s, b, memReady) }

  /** One clock edge; addresses wrap at `cap` beats. */
  function SnoopNext(s: Snoop, b: Bus, memReady: bool, cap: nat): Snoop
    requires cap > 0
  {
    Snoop(if SnWrEn(s, b, memReady) then if SnDone(s, b, memReady) then 0 else Wrap(s.addr + 1, cap) else s.addr,
          if b.last then false else if Transfers(b) && !memReady then true else s.needToWait)
  }

  class SnooperModule {
    var addr: nat
    var needToWait: bool

    constructor ()
      ensures Regs() == Snoop(0, false)
    {
      addr, needToWait := 0, false;
    }

    function Regs(): Snoop
      reads this
    {
      Snoop(addr, needToWait)
    }

    method Clock(b: Bus, memReady: bool, cap: nat) returns (wrEn: bool, done: bool, wrAddr: nat)
      requires cap > 0
      modifies this
      ensures wrEn == SnWrEn(old(Regs()), b, memReady) && done == SnDone(old(Regs()), b, memReady)
      ensures wrAddr == old(addr)
      ensures Regs() == SnoopNext(old(Regs()), b, memReady, cap)
    {
      wrEn := memReady && b.valid && b.ready && !needToWait;
      done := b.last && wrEn;
      wrAddr := addr;
      if wrEn {
        addr := if done then 0 else Wrap(addr + 1, cap);
      }
      if b.last {
        needToWait := false;
      } else if b.valid && b.ready && !memReady {
        needToWait := true;
      }
    }
  }

  // ------------------------------------------------------------ the history

  /** What has happened on the bus and at the memory port so far: the complete
      bus packets, whether the memory was ready at the first beat of each and
      whether each ended in a `done`; the beats of the current packet and
      whether the memory was ready at its first; the beats written for it; and
      the packets that were handed over. */
  datatype Watch = Watch(
    seen: seq<seq<Beat>>, readyAtStart: seq<bool>, taken: seq<bool>,
    current: seq<Beat>, started: bool, written: seq<Beat>, captured: seq<seq<Beat>>)

  const NOTHING_SEEN := Watch([], [], [], [], false, [], [])

  function WatchNext(w: Watch, s: Snoop, b: Bus, memReady: bool): Watch {
    var complete := Transfers(b) && b.last;
    var now := if Transfers(b) then w.current + [b.data] else w.current;
    var started := if Transfers(b) && w.current == [] then memReady else w.started;
    var done := SnDone(s, b, memReady);
    Watch(
      if complete then w.seen + [now] else w.seen,
      if complete then w.readyAtStart + [started] else w.readyAtStart,
      if complete then w.taken + [done] else w.taken,
      if complete then [] else now,
      started,
      if done then [] else if SnWrEn(s, b, memReady) then w.written + [b.data] else w.written,
      if done then w.captured + [w.written + [b.data]] else w.captured)
  }

  /** The packets that were taken. */
  function TakenOf(seen: seq<seq<Beat>>, taken: seq<bool>): seq<seq<Beat>>
    requires |seen| == |taken|
  {
    if seen == [] then []
    else
      var k := |seen| - 1;
      TakenOf(seen[..k], taken[..k]) + if taken[k] then [seen[k]] else []
  }

  /** All or nothing: what is being written is all of the current bus packet
      from its first beat, or none of it; the captured packets are whole bus
      packets, in order; and a packet is captured exactly when the memory was
      ready at its first beat. */
  predicate Whole(w: Watch, s: Snoop) {
    && s.addr == |w.written|
    && w.written == (if w.started then w.current else [])
    && (s.needToWait ==> w.current != [] && !w.started)
    && |w.seen| == |w.taken|
    && w.taken == w.readyAtStart
    && w.captured == TakenOf(w.seen, w.taken)
  }

  /** The skip flag says what it is for: a packet is on the bus and is not being
      written. */
  predicate FlagKept(w: Watch, s: Snoop) { s.needToWait == (w.current != [] && !w.started) }

  /** A beat of a packet that is being skipped is written after all. */
  predicate TailWrite(w: Watch, s: Snoop, b: Bus, memReady: bool) {
    SnWrEn(s, b, memReady) && w.current != [] && !w.started
  }

  /** TLAST is on the bus and no beat moves. */
  predicate HeldLast(b: Bus) { b.last && !Transfers(b) }

  /** Assumptions on one cycle: readiness does not drop while a packet is being
      written, and packets have at most `cap` beats. */
  predicate GoodCycle(w: Watch, b: Bus, memReady: bool, cap: nat) {
    && (w.written != [] ==> memReady)
    && (Transfers(b) ==> |w.current| + (if b.last then 1 else 2) <= cap)
  }

  /** Exactly when a cycle keeps the snooper all-or-nothing: iff it does not
      write the tail of a packet that it skips.  Each other write goes to the
      address that is the beat's position in its packet. */
  lemma SnooperWholeIff(w: Watch, s: Snoop, b: Bus, memReady: bool, cap: nat)
    requires cap > 0 && Whole(w, s) && GoodCycle(w, b, memReady, cap)
    ensures Whole(WatchNext(w, s, b, memReady), SnoopNext(s, b, memReady, cap)) <==> !TailWrite(w, s, b, memReady)
    ensures SnWrEn(s, b, memReady) && !TailWrite(w, s, b, memReady) ==> s.addr == |w.current| && w.written == w.current
  {
    var w' := WatchNext(w, s, b, memReady);
    if |w'.seen| > |w.seen| {
      var k := |w.seen|;
      assert w'.seen[..k] == w.seen && w'.taken[..k] == w.taken;
      assert w'.taken[k] == SnDone(s, b, memReady);
    }
  }

  /** The flag is lost exactly when TLAST waits for TREADY at the end of a
      packet that is being skipped; as long as it is kept no tail is written. */
  lemma FlagKeptIff(w: Watch, s: Snoop, b: Bus, memReady: bool, cap: nat)
    requires cap > 0 && Whole(w, s) && GoodCycle(w, b, memReady, cap) && FlagKept(w, s)
    ensures !TailWrite(w, s, b, memReady)
    ensures FlagKept(WatchNext(w, s, b, memReady), SnoopNext(s, b, memReady, cap)) <==> !(HeldLast(b) && s.needToWait)
  {
  }

  function WatchRun(w: Watch, s: Snoop, bs: seq<Bus>, readies: seq<bool>, cap: nat): (Watch, Snoop)
    requires cap > 0 && |bs| == |readies|
    decreases |bs|
  {
    if bs == [] then (w, s)
    else
      WatchRun(WatchNext(w, s, bs[0], readies[0]), SnoopNext(s, bs[0], readies[0], cap), bs[1..], readies[1..], cap)
  }

  /** A legal master holds TVALID and TLAST until TREADY.  Three beats of which
      the first two find no buffer, the last held for one cycle during which a
      buffer comes free: the packet counts as skipped, and its last beat is
      captured as a packet of one beat. */
  lemma HeldLastCapturesTheTail(d0: Beat, d1: Beat, d2: Beat, cap: nat)
    requires cap >= 3
    ensures var bs := [Bus(d0, true, true, false), Bus(d1, true, true, false), Bus(d2, true, false, true),
                       Bus(d2, true, true, true)];
            var (w, s) := WatchRun(NOTHING_SEEN, Snoop(0, false), bs, [false, false, false, true], cap);
            w.seen == [[d0, d1, d2]] && w.readyAtStart == [false] && w.captured == [[d2]] && !Whole(w, s)
  {
    var b0, b1, b2, b3 := Bus(d0, true, true, false), Bus(d1, true, true, false), Bus(d2, true, false, true),
                          Bus(d2, true, true, true);
    var w0, s0 := NOTHING_SEEN, Snoop(0, false);
    var w1, s1 := WatchNext(w0, s0, b0, false), SnoopNext(s0, b0, false, cap);
    var w2, s2 := WatchNext(w1, s1, b1, false), SnoopNext(s1, b1, false, cap);
    var w3, s3 := WatchNext(w2, s2, b2, false), SnoopNext(s2, b2, false, cap);
    var w4, s4 := WatchNext(w3, s3, b3, true), SnoopNext(s3, b3, true, cap);
    assert w1.current == [d0] && w2.current == w3.current == [d0, d1] && s2.needToWait && !s3.needToWait;
    assert w3.seen == [] && w3.written == [] && !w3.started;
    assert w3.readyAtStart == w3.taken == [] && w3.captured == [];
    assert [d0, d1] + [d2] == [d0, d1, d2] && [] + [d2] == [d2];
    assert w4.seen == [[d0, d1, d2]] && w4.taken == [true] && w4.readyAtStart == [false] && w4.captured == [[d2]];
    assert WatchRun(w4, s4, [], [], cap) == (w4, s4);
    assert WatchRun(w3, s3, [b3], [true], cap) == (w4, s4);
    assert WatchRun(w2, s2, [b2, b3], [false, true], cap) == (w4, s4);
    assert WatchRun(w1, s1, [b1, b2, b3], [false, false, true], cap) == (w4, s4);
    assert [b0, b1, b2, b3][1..] == [b1, b2, b3] && [false, false, false, true][1..] == [false, false, true];
  }
}
