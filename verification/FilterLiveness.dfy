/** What the whole filter must do: every machine judges what it captures, and a
    quiet bus empties all of them. */
module FilterLiveness {
  import opened Isa
  import opened ForwardPrograms
  import opened CpuProgress
  import opened PacketMem
  import opened Snooper
  import opened Forwarder
  import opened VirtualMachine
  import opened EndToEnd
  import opened FilterCore
  import opened Liveness
  import opened Dispatch
  import opened ParallelFilters
  import opened ParallelProof

  // ----------------------------------------------- one machine of the filter

  /** Machine i as a machine of its own. */
  function LogOf(f: Filter, H: FilterHist, i: nat): Log
    requires i < |f.machines| == |H.hs| == |H.logs|
  {
    Log(View(f, H.hs[i].watch.written, i), H.hs[i], H.logs[i])
  }

  lemma MachineSound(c: Setup, addrWidth: nat, f: Filter, H: FilterHist, i: nat)
    requires FilterInv(c, addrWidth, f, H) && i < |f.machines|
    ensures |f.machines| == |H.hs| == |H.logs| && Sound(c, LogOf(f, H, i))
  {
    hide *;
    InvMeans(c, addrWidth, f, H);
    var g := SomeProgress(c, f, H, i);
    OkMeans(c, f, H, g, i);
    ViewInvMeans(c, f, H.hs[i], H.logs[i], g, i);
    SoundIs(c, f, H, i, g);
  }

  lemma SoundIs(c: Setup, f: Filter, H: FilterHist, i: nat, g: Progress)
    requires i < |f.machines| == |H.hs| == |H.logs|
    requires CoreInv(c, View(f, H.hs[i].watch.written, i), H.hs[i], H.logs[i], g)
    ensures Sound(c, LogOf(f, H, i))
  {
    hide CoreInv, View;
  }

  /** Each cycle of the filter is one of each machine. */
  lemma MachineSteps(c: Setup, addrWidth: nat, f: Filter, H: FilterHist, x: Streams, f': Filter, H': FilterHist,
          i: nat)
    requires FilterInv(c, addrWidth, f, H) && GoodStreams(c, f, H, x) && NextOf(c, addrWidth, f, H, x, f', H')
    requires i < |f.machines|
    ensures |f.machines| == |H.hs| == |H.logs| == |f'.machines| == |H'.hs| == |H'.logs|
    ensures Step(c, OutsideOf(f, x, i), LogOf(f, H, i), LogOf(f', H', i))
  {
    hide *;
    InvMeans(c, addrWidth, f, H);
    StreamsMean(c, f, H, x);
    NextMeans(c, addrWidth, f, H, x, f', H', i);
    ForwarderSideStep(c, addrWidth, f, H, x, f', H');
    var g := SomeProgress(c, f, H, i);
    OkMeans(c, f, H, g, i);
    var h, l := H.hs[i], H.logs[i];
    MachineConnected(c, addrWidth, f, H, x, g, i);
    ViewIsGood(f, x, c, H.bus, h, l, g, i);
    EnablesKept(f, f', i);
    ViewAfter(f, x, c, addrWidth + 1, h, f', i);
    StepIs(c, f, H, x, f', H', i);
  }

  lemma EnablesKept(f: Filter, f': Filter, i: nat)
    requires f'.fwdSel.doSelect || !AnyReady(FwdReadies(f'.machines)) ==> FwdIdle(f'.fwd)
    requires f'.fwdSel.doSelect || FwdEnables(f') == FwdEnables(f)
    ensures Enabled(FwdEnables(f'), i) != Enabled(FwdEnables(f), i) ==> FwdIdle(f'.fwd)
  {
  }

  lemma StepIs(c: Setup, f: Filter, H: FilterHist, x: Streams, f': Filter, H': FilterHist, i: nat)
    requires i < |f.machines| == |H.hs| == |H.logs| == |f'.machines| == |H'.hs| == |H'.logs|
    requires Formed(c, f.machines[i].mem) && c.W > 0
    requires var k := View(f, H.hs[i].watch.written, i); GoodOutside(c, k, H.hs[i], OutsideOf(f, x, i))
    requires H'.hs[i] == MachineHist(f, x, c, H.hs[i], i) && H'.logs[i] == MachineLog(f, c, H.hs[i], H.logs[i], i)
    requires var k' := CoreNext(c, View(f, H.hs[i].watch.written, i), OutsideOf(f, x, i));
             var v' := View(f', MachineHist(f, x, c, H.hs[i], i).watch.written, i);
             && v' == Core(k'.vm.(fwd := v'.vm.fwd), k'.cpu)
             && (v'.vm.fwd == k'.vm.fwd || (FwdIdle(v'.vm.fwd) && FwdIdle(k'.vm.fwd)))
    ensures Step(c, OutsideOf(f, x, i), LogOf(f, H, i), LogOf(f', H', i))
  {
    assert Formed(c, View(f, H.hs[i].watch.written, i).vm.mem) by { ViewFormed(f, c, H.hs[i].watch.written, i); }
    hide Formed, GoodOutside, CoreNext, HistNext, LogNext, View, OutsideOf;
    IdleMeans(View(f', MachineHist(f, x, c, H.hs[i], i).watch.written, i).vm.fwd);
    IdleMeans(CoreNext(c, View(f, H.hs[i].watch.written, i), OutsideOf(f, x, i)).vm.fwd);
  }

  /** The shared snooper may capture iff some machine has fewer than three
      packets, and the shared forwarder has something to send iff some machine
      has an accepted packet. */
  lemma SharedReadyLines(c: Setup, addrWidth: nat, f: Filter, H: FilterHist)
    requires FilterInv(c, addrWidth, f, H)
    ensures |f.machines| == |H.hs|
    ensures MemReady(f) <==> exists i :: 0 <= i < |f.machines| && |H.hs[i].cpuQ| + |H.hs[i].fwdQ| < 3
    ensures AnyToSend(f) <==> exists i :: 0 <= i < |f.machines| && H.hs[i].fwdQ != []
  {
    hide FilterInv, ReadyForSnooper, ReadyForForwarder, MemReady, AnyToSend;
    InvMeans(c, addrWidth, f, H);
    forall i | 0 <= i < |f.machines|
      ensures ReadyForSnooper(f.machines[i].mem) <==> |H.hs[i].cpuQ| + |H.hs[i].fwdQ| < 3
      ensures ReadyForForwarder(f.machines[i].mem) <==> H.hs[i].fwdQ != []
    {
      MachineLines(c, addrWidth, f, H, i);
    }
    SomeReady(f);
  }

  lemma SomeReady(f: Filter)
    ensures MemReady(f) <==> exists i :: 0 <= i < |f.machines| && ReadyForSnooper(f.machines[i].mem)
    ensures AnyToSend(f) <==> exists i :: 0 <= i < |f.machines| && ReadyForForwarder(f.machines[i].mem)
  {
    hide Arbitrate, ReadyForSnooper, ReadyForForwarder;
    var sn, fwd := SnReadies(f.machines), FwdReadies(f.machines);
    ArbiterPicksLowest(sn, 0);
    ArbiterPicksLowest(fwd, 0);
    assert forall i :: 0 <= i < |f.machines| ==> sn[i] == ReadyForSnooper(f.machines[i].mem);
    assert forall i :: 0 <= i < |f.machines| ==> fwd[i] == ReadyForForwarder(f.machines[i].mem);
  }

  lemma MachineLines(c: Setup, addrWidth: nat, f: Filter, H: FilterHist, i: nat)
    requires FilterInv(c, addrWidth, f, H) && i < |f.machines|
    ensures i < |H.hs|
    ensures ReadyForSnooper(f.machines[i].mem) <==> |H.hs[i].cpuQ| + |H.hs[i].fwdQ| < 3
    ensures ReadyForForwarder(f.machines[i].mem) <==> H.hs[i].fwdQ != []
  {
    hide *;
    MachineSound(c, addrWidth, f, H, i);
    var a := LogOf(f, H, i);
    var g := SomeInv(c, a);
    CoreInvMeans(c, a.k, a.h, a.l, g);
    ReadyLines(a.k.vm, a.h, c.cap);
    LogMemory(f, H, i);
    LogOfIs(f, H, i);
  }

  // ------------------------------------------------------ runs of the filter

  /** Every state of the run has n machines. */
  ghost predicate OfSize(run: seq<FilterLog>, n: nat) {
    forall j :: 0 <= j < |run| ==> |run[j].f.machines| == |run[j].H.hs| == |run[j].H.logs| == n
  }

  ghost function TraceOf(run: seq<FilterLog>, n: nat, i: nat): seq<Log>
    requires OfSize(run, n) && i < n
  {
    seq(|run|, j requires 0 <= j < |run| => LogOf(run[j].f, run[j].H, i))
  }

  ghost function OutsOf(xs: seq<Streams>, run: seq<FilterLog>, i: nat): seq<Outside>
    requires |run| == |xs| + 1
  {
    seq(|xs|, j requires 0 <= j < |xs| => OutsideOf(run[j].f, xs[j], i))
  }

  lemma CycleOf(c: Setup, addrWidth: nat, xs: seq<Streams>, run: seq<FilterLog>, j: nat)
    requires FilterRun(c, addrWidth, xs, run) && j <= |xs|
    ensures |run| == |xs| + 1
    ensures j < |xs| ==> GoodStreams(c, run[j].f, run[j].H, xs[j])
                         && NextOf(c, addrWidth, run[j].f, run[j].H, xs[j], run[j + 1].f, run[j + 1].H)
  {
    hide FilterStart, NoFilterHistory, GoodStreams, NextOf, Formed;
    assert j < |xs| ==> FilterCycle(c, addrWidth, xs[j], run[j], run[j + 1]);
  }

  lemma {:induction false} SizeKept(c: Setup, addrWidth: nat, xs: seq<Streams>, run: seq<FilterLog>, j: nat)
    requires Runnable(c.code) && FilterRun(c, addrWidth, xs, run) && j <= |xs|
    ensures |run| == |xs| + 1 && |run[0].f.machines| == |run[j].f.machines| == |run[j].H.hs| == |run[j].H.logs|
    decreases j
  {
    hide *;
    CycleOf(c, addrWidth, xs, run, j);
    FilterInvariant(c, addrWidth, xs, run, j);
    InvMeans(c, addrWidth, run[j].f, run[j].H);
    if j > 0 {
      SizeKept(c, addrWidth, xs, run, j - 1);
      CycleOf(c, addrWidth, xs, run, j - 1);
      FilterInvariant(c, addrWidth, xs, run, j - 1);
      NextSize(c, addrWidth, run[j - 1].f, run[j - 1].H, xs[j - 1], run[j].f, run[j].H);
    }
  }

  lemma RunSize(c: Setup, addrWidth: nat, xs: seq<Streams>, run: seq<FilterLog>)
    requires Runnable(c.code) && FilterRun(c, addrWidth, xs, run)
    ensures |run| == |xs| + 1 && OfSize(run, |run[0].f.machines|)
  {
    hide FilterRun, Runnable;
    CycleOf(c, addrWidth, xs, run, 0);
    forall j | 0 <= j < |run| ensures |run[j].f.machines| == |run[j].H.hs| == |run[j].H.logs| == |run[0].f.machines| {
      SizeKept(c, addrWidth, xs, run, j);
    }
  }

  lemma StartsIdle(c: Setup, addrWidth: nat, xs: seq<Streams>, run: seq<FilterLog>, i: nat)
    requires FilterRun(c, addrWidth, xs, run) && i < |run[0].f.machines|
    ensures i < |run[0].H.logs| && run[0].H.logs[i].idle
  {
    hide FilterStart, FilterCycle, View, OriginOf, Formed;
  }

  /** In a run of the filter every machine does a run of its own. */
  lemma RunsOfMachines(c: Setup, addrWidth: nat, xs: seq<Streams>, run: seq<FilterLog>, n: nat, i: nat)
    requires Runnable(c.code) && FilterRun(c, addrWidth, xs, run) && |run| == |xs| + 1
    requires OfSize(run, n) && i < n
    ensures Trace(c, OutsOf(xs, run, i), TraceOf(run, n, i))
  {
    hide FilterRun, Runnable, Sound, Step, LogOf, OutsideOf, FilterInv, GoodStreams, NextOf;
    var outs, tr := OutsOf(xs, run, i), TraceOf(run, n, i);
    StartsIdle(c, addrWidth, xs, run, i);
    assert tr[0].l.idle by { LogOfIs(run[0].f, run[0].H, i); }
    forall j | 0 <= j < |tr| ensures Sound(c, tr[j]) {
      FilterInvariant(c, addrWidth, xs, run, j);
      MachineSound(c, addrWidth, run[j].f, run[j].H, i);
    }
    forall j | 0 <= j < |outs| ensures Step(c, outs[j], tr[j], tr[j + 1]) {
      FilterInvariant(c, addrWidth, xs, run, j);
      CycleOf(c, addrWidth, xs, run, j);
      MachineSteps(c, addrWidth, run[j].f, run[j].H, xs[j], run[j + 1].f, run[j + 1].H, i);
    }
  }

  lemma LogOfIs(f: Filter, H: FilterHist, i: nat)
    requires i < |f.machines| == |H.hs| == |H.logs|
    ensures LogOf(f, H, i).h == H.hs[i] && LogOf(f, H, i).l == H.logs[i]
  {
  }

  /** Main result.  Whatever happens on the streams, every packet that a machine
      of the filter has captured by some cycle is judged within three times the
      program's patience. */
  lemma FilterJudges(c: Setup, addrWidth: nat, xs: seq<Streams>, run: seq<FilterLog>, j: nat, i: nat, L: nat,
          lags: seq<set<Lag>>)
    requires Runnable(c.code) && FilterRun(c, addrWidth, xs, run) && Answers(c.code, L, lags)
    requires |run| == |xs| + 1 && j + 3 * (Patience(L) + 1) <= |xs| && i < |run[0].f.machines|
    ensures var z := j + 3 * (Patience(L) + 1);
            i < |run[j].H.hs| == |run[z].H.hs| && run[j].H.hs[i].watch.captured <= run[z].H.hs[i].judged
  {
    hide FilterRun, Runnable, Answers, Patience, Trace, LogOf, OutsideOf;
    RunSize(c, addrWidth, xs, run);
    var n := |run[0].f.machines|;
    RunsOfMachines(c, addrWidth, xs, run, n, i);
    var tr, z := TraceOf(run, n, i), j + 3 * (Patience(L) + 1);
    EveryPacketIsJudged(c, OutsOf(xs, run, i), tr, j, L, lags);
    LogOfIs(run[j].f, run[j].H, i);
    LogOfIs(run[z].f, run[z].H, i);
    assert tr[j] == LogOf(run[j].f, run[j].H, i) && tr[z] == LogOf(run[z].f, run[z].H, i);
  }

  // ------------------------------------------------------- a quiet bus empties

  /** All machines in one cycle. */
  ghost function Row(run: seq<FilterLog>, n: nat, q: nat): (row: seq<Log>)
    requires OfSize(run, n) && q < |run|
    ensures |row| == n
  {
    seq(n, i requires 0 <= i < n => LogOf(run[q].f, run[q].H, i))
  }

  function ToCome(a: Log): nat { |a.h.gone| + |a.h.fwdQ| }

  /** Every captured packet is judged. */
  predicate NoneWaits(row: seq<Log>) { forall i :: 0 <= i < |row| ==> row[i].h.cpuQ == [] }

  function WorkOf(a: Log): int { Work(a.h, a.k.vm.fwd.tvalid, ToCome(a)) }

  function TotalWork(row: seq<Log>): int {
    if row == [] then 0 else TotalWork(row[..|row| - 1]) + WorkOf(row[|row| - 1])
  }

  lemma {:induction false} TotalDrops(a: seq<Log>, b: seq<Log>, e: nat, d: nat)
    requires |a| == |b| && forall i :: 0 <= i < |a| ==> WorkOf(b[i]) <= WorkOf(a[i])
    requires e < |a| ==> WorkOf(b[e]) <= WorkOf(a[e]) - d
    ensures TotalWork(b) <= TotalWork(a) - (if e < |a| then d else 0)
    decreases |a|
  {
    hide WorkOf;
    if a != [] {
      var k := |a| - 1;
      TotalDrops(a[..k], b[..k], e, d);
    }
  }

  lemma {:induction false} TotalBounds(row: seq<Log>, most: nat)
    requires forall i :: 0 <= i < |row| ==> 0 <= WorkOf(row[i]) <= most
    ensures 0 <= TotalWork(row) <= Lapse(|row|, most)
    ensures forall i :: 0 <= i < |row| ==> WorkOf(row[i]) <= TotalWork(row)
    decreases |row|
  {
    hide WorkOf;
    if row != [] {
      var k := |row| - 1;
      TotalBounds(row[..k], most);
      forall i | 0 <= i < |row| ensures WorkOf(row[i]) <= TotalWork(row) {
        if i < k {
          assert row[..k][i] == row[i];
        }
      }
    }
  }

  /** With no packet to judge and nothing on the bus, nothing is added. */
  lemma NothingAdded(c: Setup, o: Outside, a: Log, b: Log)
    requires Sound(c, a) && Sound(c, b) && Step(c, o, a, b) && !Transfers(o.bus) && a.h.cpuQ == []
    ensures b.h.cpuQ == [] && ToCome(b) == ToCome(a) && b.h.watch.captured == a.h.watch.captured
    ensures WorkOf(b) <= WorkOf(a) - (if o.grant && o.tready && a.h.fwdQ != [] then 1 else 0)
  {
    hide *;
    ToComeIs(a);
    ToComeIs(b);
    BooksOverStep(c, o, a, b);
    BooksOf(c, a);
    BooksOf(c, b);
    assert b.h.judged == a.h.judged && b.h.verdicts == a.h.verdicts;
    WorkOverStep(c, o, a, b, ToCome(a));
    NoWork(a.h, a.k.vm.fwd.tvalid, ToCome(a));
    NoWork(b.h, b.k.vm.fwd.tvalid, ToCome(a));
  }

  lemma ToComeIs(a: Log)
    ensures ToCome(a) == |a.h.gone| + |a.h.fwdQ| && WorkOf(a) == Work(a.h, a.k.vm.fwd.tvalid, ToCome(a))
  {
  }

  lemma WorkRange(c: Setup, a: Log)
    requires Sound(c, a)
    ensures 0 <= WorkOf(a) <= 3 * (c.cap + 1) && (a.h.fwdQ != [] ==> WorkOf(a) >= 1)
  {
    hide *;
    ToComeIs(a);
    BooksOf(c, a);
    if a.h.fwdQ != [] {
      WorkLeft(c, a, ToCome(a));
    } else {
      NoWork(a.h, a.k.vm.fwd.tvalid, ToCome(a));
    }
  }

  /** A machine with a packet to send means that one with a packet is served. */
  lemma SomeoneSends(c: Setup, addrWidth: nat, f: Filter, H: FilterHist, i: nat) returns (e: nat)
    requires FilterInv(c, addrWidth, f, H) && i < |f.machines| && ReadyForForwarder(f.machines[i].mem)
    ensures e < |f.machines| && Enabled(FwdEnables(f), e) && ReadyForForwarder(f.machines[e].mem)
  {
    hide Enables, Arbitrate, Wired, Whole, PadTo3, PadTo4, MachineFine, Runnable, ReadyForForwarder;
    var readies := FwdReadies(f.machines);
    assert readies[i];
    assert AnyReady(readies);
    e := OneEnabled(f.fwdSel, readies, H.fwdTrack.owner);
  }

  lemma ReadyIffPacket(c: Setup, a: Log)
    requires Sound(c, a)
    ensures a.h.fwdQ != [] <==> ReadyForForwarder(a.k.vm.mem)
  {
    hide *;
    var g := SomeInv(c, a);
    CoreInvMeans(c, a.k, a.h, a.l, g);
    BooksMean(a.k, a.h, c.cap);
    ReadyIffContents(a.k.vm.mem);
  }

  lemma ReadyIffContents(m: Mem)
    ensures ReadyForForwarder(m) <==> |JobQueues.Contents(m.p3.fwd)| > 0
  {
    JobQueues.HeadIsOldest(m.p3.fwd);
  }

  lemma OutsideMeans(f: Filter, x: Streams, i: nat)
    requires !Transfers(x.bus)
    ensures var o := OutsideOf(f, x, i);
            !Transfers(o.bus) && o.grant == Enabled(FwdEnables(f), i) && o.tready == x.tready
  {
    hide MemReady;
  }

  /** A cycle with a quiet bus and everything judged: with TREADY, one unit of
      the whole filter's work is done if there is any. */
  lemma QuietCycle(c: Setup, addrWidth: nat, xs: seq<Streams>, run: seq<FilterLog>, n: nat, q: nat)
    requires Runnable(c.code) && FilterRun(c, addrWidth, xs, run) && q < |xs| && |run| == |xs| + 1 && OfSize(run, n)
    requires !Transfers(xs[q].bus) && NoneWaits(Row(run, n, q))
    ensures NoneWaits(Row(run, n, q + 1))
    ensures var t := TotalWork(Row(run, n, q));
            TotalWork(Row(run, n, q + 1)) <= if xs[q].tready && t > 0 then t - 1 else t
  {
    hide FilterRun, Runnable, FilterInv, GoodStreams, NextOf, LogOf, OutsideOf, Sound, Step, WorkOf, TotalWork, ToCome,
         FwdEnables, ReadyForForwarder, Transfers, Work;
    var a, b := Row(run, n, q), Row(run, n, q + 1);
    FilterInvariant(c, addrWidth, xs, run, q);
    FilterInvariant(c, addrWidth, xs, run, q + 1);
    CycleOf(c, addrWidth, xs, run, q);
    var f, H, x := run[q].f, run[q].H, xs[q];
    forall i | 0 <= i < n
      ensures b[i].h.cpuQ == []
      ensures WorkOf(b[i]) <= WorkOf(a[i])
              - (if Enabled(FwdEnables(f), i) && x.tready && a[i].h.fwdQ != [] then 1 else 0)
      ensures 0 <= WorkOf(a[i]) <= 3 * (c.cap + 1)
    {
      MachineSound(c, addrWidth, f, H, i);
      MachineSound(c, addrWidth, run[q + 1].f, run[q + 1].H, i);
      MachineSteps(c, addrWidth, f, H, x, run[q + 1].f, run[q + 1].H, i);
      OutsideMeans(f, x, i);
      NothingAdded(c, OutsideOf(f, x, i), a[i], b[i]);
      WorkRange(c, a[i]);
    }
    TotalDrops(a, b, n, 0);
    if x.tready && TotalWork(a) > 0 {
      var e := Busiest(c, addrWidth, f, H, a);
      TotalDrops(a, b, e, 1);
    }
  }

  lemma Busiest(c: Setup, addrWidth: nat, f: Filter, H: FilterHist, row: seq<Log>) returns (e: nat)
    requires FilterInv(c, addrWidth, f, H) && |row| == |f.machines| == |H.hs| == |H.logs| && TotalWork(row) > 0
    requires forall i :: 0 <= i < |row| ==> row[i] == LogOf(f, H, i)
    ensures e < |row| && Enabled(FwdEnables(f), e) && row[e].h.fwdQ != []
  {
    hide FilterInv, LogOf, Sound, WorkOf, FwdEnables, ReadyForForwarder;
    var i := SomeWork(c, addrWidth, f, H, row);
    MachineSound(c, addrWidth, f, H, i);
    ReadyIffPacket(c, row[i]);
    LogMemory(f, H, i);
    e := SomeoneSends(c, addrWidth, f, H, i);
    MachineSound(c, addrWidth, f, H, e);
    ReadyIffPacket(c, row[e]);
    LogMemory(f, H, e);
  }

  lemma LogMemory(f: Filter, H: FilterHist, i: nat)
    requires i < |f.machines| == |H.hs| == |H.logs|
    ensures LogOf(f, H, i).k.vm.mem == f.machines[i].mem
  {
  }

  lemma {:induction false} SomeWork(c: Setup, addrWidth: nat, f: Filter, H: FilterHist, row: seq<Log>) returns (i: nat)
    requires FilterInv(c, addrWidth, f, H) && |row| <= |f.machines| == |H.hs| == |H.logs| && TotalWork(row) > 0
    requires forall i :: 0 <= i < |row| ==> row[i] == LogOf(f, H, i)
    ensures i < |row| && row[i].h.fwdQ != []
    decreases |row|
  {
    hide FilterInv, LogOf, Sound, Work;
    i := |row| - 1;
    if row[i].h.fwdQ == [] {
      NoWork(row[i].h, row[i].k.vm.fwd.tvalid, ToCome(row[i]));
      i := SomeWork(c, addrWidth, f, H, row[..i]);
    }
  }

  /** The cycles in which the output is listened to. */
  function Heard(xs: seq<Streams>): nat {
    if xs == [] then 0 else (if xs[0].tready then 1 else 0) + Heard(xs[1..])
  }

  predicate BusQuiet(xs: seq<Streams>, j: nat, z: nat) {
    forall q :: j <= q < z && q < |xs| ==> !Transfers(xs[q].bus)
  }

  lemma {:induction false} WorkRunsOut(c: Setup, addrWidth: nat, xs: seq<Streams>, run: seq<FilterLog>, n: nat, q: nat,
          z: nat)
    requires Runnable(c.code) && FilterRun(c, addrWidth, xs, run) && q <= z <= |xs| && |run| == |xs| + 1
    requires OfSize(run, n) && BusQuiet(xs, q, z) && NoneWaits(Row(run, n, q))
    ensures NoneWaits(Row(run, n, z))
    ensures var left := TotalWork(Row(run, n, q)) - Heard(xs[q..z]);
            TotalWork(Row(run, n, z)) <= if left < 0 then 0 else left
    decreases z - q
  {
    hide FilterRun, Runnable, Row, TotalWork, Transfers, NoneWaits;
    if q == z {
      assert xs[q..z] == [];
    } else {
      QuietCycle(c, addrWidth, xs, run, n, q);
      WorkRunsOut(c, addrWidth, xs, run, n, q + 1, z);
      assert xs[q..z][1..] == xs[q + 1..z];
    }
  }

  lemma QuietViews(xs: seq<Streams>, run: seq<FilterLog>, i: nat, j: nat, m: nat)
    requires |run| == |xs| + 1 && m <= |xs| && BusQuiet(xs, j, m)
    ensures Silent(OutsOf(xs, run, i), j, m)
  {
    hide Transfers, OutsideOf;
    var outs := OutsOf(xs, run, i);
    forall q | j <= q < m && q < |outs| ensures !Transfers(outs[q].bus) {
      OutsideMeans(run[q].f, xs[q], i);
    }
  }

  /** A machine that nothing is given to has judged everything after three
      patiences. */
  lemma SilentMachineJudges(c: Setup, outs: seq<Outside>, tr: seq<Log>, j: nat, m: nat, L: nat, lags: seq<set<Lag>>)
    requires Trace(c, outs, tr) && Answers(c.code, L, lags) && m == j + 3 * (Patience(L) + 1) <= |outs|
    requires Silent(outs, j, m)
    ensures |tr| == |outs| + 1 && tr[m].h.cpuQ == []
  {
    hide *;
    TraceLength(c, outs, tr);
    EveryPacketIsJudged(c, outs, tr, j, L, lags);
    BooksOverTrace(c, outs, tr, j, m - j);
    TraceMeans(c, outs, tr, m);
    BooksOf(c, tr[m]);
  }

  /** After a quiet stretch long enough for the CPUs nothing waits for them. */
  lemma QuietJudges(c: Setup, addrWidth: nat, xs: seq<Streams>, run: seq<FilterLog>, n: nat, j: nat, m: nat, L: nat,
          lags: seq<set<Lag>>)
    requires Runnable(c.code) && FilterRun(c, addrWidth, xs, run) && Answers(c.code, L, lags)
    requires |run| == |xs| + 1 && OfSize(run, n) && m == j + 3 * (Patience(L) + 1) <= |xs| && BusQuiet(xs, j, m)
    ensures NoneWaits(Row(run, n, m))
  {
    hide FilterRun, Runnable, Answers, Patience, Trace, LogOf, OutsideOf, BusQuiet, Silent;
    forall i | 0 <= i < n ensures Row(run, n, m)[i].h.cpuQ == [] {
      RunsOfMachines(c, addrWidth, xs, run, n, i);
      QuietViews(xs, run, i, j, m);
      SilentMachineJudges(c, OutsOf(xs, run, i), TraceOf(run, n, i), j, m, L, lags);
      assert Row(run, n, m)[i] == TraceOf(run, n, i)[m];
    }
  }

  /** Main result.  When the bus goes quiet the whole filter empties: after the
      CPUs' patience and enough cycles in which the output is listened to, every
      machine has judged what it captured and sent what it accepted, and the
      output is a sequence of whole packets: for each machine exactly its
      accepted ones, in order. */
  lemma FilterDrains(c: Setup, addrWidth: nat, xs: seq<Streams>, run: seq<FilterLog>, n: nat, j: nat, m: nat, z: nat,
          L: nat, lags: seq<set<Lag>>)
    requires Runnable(c.code) && FilterRun(c, addrWidth, xs, run) && Answers(c.code, L, lags)
    requires |run| == |xs| + 1 && |run[0].f.machines| == n
    requires m == j + 3 * (Patience(L) + 1) && m <= z <= |xs| && BusQuiet(xs, j, z)
    requires Heard(xs[m..z]) >= Lapse(n, 3 * (c.cap + 1))
    ensures var H := run[z].H;
      && |run[z].f.machines| == |H.hs| == n && FilterCorrect(c, run[z].f, H)
      && H.out == Concat(H.fwdTrack.sent)
      && forall i :: 0 <= i < n ==>
           var h := H.hs[i];
           && h.cpuQ == [] && h.fwdQ == [] && |h.judged| == |h.verdicts|
           && MeantFor(H.bus.captured, H.snTrack.dest, i) == h.judged
           && MeantFor(H.fwdTrack.sent, H.fwdTrack.dest, i) == AsFlits(Accepted(h.judged, h.verdicts))
  {
    hide *;
    RunSize(c, addrWidth, xs, run);
    BusQuietParts(xs, j, m, z);
    QuietJudges(c, addrWidth, xs, run, n, j, m, L, lags);
    WorkRunsOut(c, addrWidth, xs, run, n, m, z);
    RowBounds(c, addrWidth, xs, run, n, m);
    RowBounds(c, addrWidth, xs, run, n, z);
    WholeFilterIsCorrect(c, addrWidth, xs, run, z);
    RowEmpty(c, addrWidth, xs, run, n, z);
    EmptyIsAllOut(c, run[z].f, run[z].H);
  }

  lemma BusQuietParts(xs: seq<Streams>, j: nat, m: nat, z: nat)
    requires BusQuiet(xs, j, z) && j <= m <= z
    ensures BusQuiet(xs, j, m) && BusQuiet(xs, m, z)
  {
  }

  lemma RowBounds(c: Setup, addrWidth: nat, xs: seq<Streams>, run: seq<FilterLog>, n: nat, q: nat)
    requires Runnable(c.code) && FilterRun(c, addrWidth, xs, run) && |run| == |xs| + 1 && OfSize(run, n) && q <= |xs|
    ensures 0 <= TotalWork(Row(run, n, q)) <= Lapse(n, 3 * (c.cap + 1))
    ensures TotalWork(Row(run, n, q)) <= 0 ==> forall i :: 0 <= i < n ==> Row(run, n, q)[i].h.fwdQ == []
  {
    hide FilterRun, Runnable, LogOf, Sound, WorkOf, TotalWork, FilterInv, Lapse;
    var row := Row(run, n, q);
    FilterInvariant(c, addrWidth, xs, run, q);
    forall i | 0 <= i < n
      ensures 0 <= WorkOf(row[i]) <= 3 * (c.cap + 1) && (row[i].h.fwdQ != [] ==> WorkOf(row[i]) >= 1)
    {
      MachineSound(c, addrWidth, run[q].f, run[q].H, i);
      WorkRange(c, row[i]);
    }
    TotalBounds(row, 3 * (c.cap + 1));
  }

  lemma RowEmpty(c: Setup, addrWidth: nat, xs: seq<Streams>, run: seq<FilterLog>, n: nat, q: nat)
    requires OfSize(run, n) && q < |run| && NoneWaits(Row(run, n, q))
    requires forall i :: 0 <= i < n ==> Row(run, n, q)[i].h.fwdQ == []
    ensures |run[q].H.hs| == |run[q].f.machines| == n
    ensures forall i :: 0 <= i < n ==> run[q].H.hs[i].cpuQ == [] && run[q].H.hs[i].fwdQ == []
  {
    hide LogOf;
    forall i | 0 <= i < n ensures run[q].H.hs[i].cpuQ == [] && run[q].H.hs[i].fwdQ == [] {
      LogOfIs(run[q].f, run[q].H, i);
      assert Row(run, n, q)[i] == LogOf(run[q].f, run[q].H, i);
    }
  }

  lemma EmptyIsAllOut(c: Setup, f: Filter, H: FilterHist)
    requires FilterCorrect(c, f, H) && |H.hs| == |f.machines|
    requires forall i :: 0 <= i < |f.machines| ==> H.hs[i].cpuQ == [] && H.hs[i].fwdQ == []
    ensures H.out == Concat(H.fwdTrack.sent)
    ensures |H.snTrack.dest| == |H.bus.captured| && |H.fwdTrack.dest| == |H.fwdTrack.sent|
    ensures forall i :: 0 <= i < |f.machines| ==>
              var h := H.hs[i];
              && |h.judged| == |h.verdicts|
              && MeantFor(H.bus.captured, H.snTrack.dest, i) == h.judged
              && MeantFor(H.fwdTrack.sent, H.fwdTrack.dest, i) == AsFlits(Accepted(h.judged, h.verdicts))
  {
    hide MeantFor, AsFlits, Accepted, Flits, TakenOf, Concat, StartedOn, Judges, AllInterpreted, Queued,
         JobQueues.Contents;
    assert H.fwdTrack.current == [];
    forall i | 0 <= i < |f.machines|
      ensures var h := H.hs[i];
              && |h.judged| == |h.verdicts|
              && MeantFor(H.bus.captured, H.snTrack.dest, i) == h.judged
              && MeantFor(H.fwdTrack.sent, H.fwdTrack.dest, i) == AsFlits(Accepted(h.judged, h.verdicts))
    {
      assert MachineCorrect(c, f, H, i);
      assert H.hs[i].judged + H.hs[i].cpuQ == H.hs[i].judged && H.hs[i].gone + H.hs[i].fwdQ == H.hs[i].gone;
    }
  }
}
