/** N virtual machines behind one snooper and one forwarder
    (parallel_packetfilts.v, arbiter_4.v, one_hot_mux_3.v): chained priority
    arbiters, a selection that sticks until the packet is done, and one-hot
    muxes whose outputs are OR-ed together. */
module Dispatch {
  import opened PacketRam
  import opened Isa

  /** The arbiters take four wires at a time, the muxes three. */
  function PadTo4(n: nat): (p: nat)
    ensures n <= p < n + 4 && p % 4 == 0
  {
    if n % 4 == 0 then n else n - n % 4 + 4
  }

  function PadTo3(n: nat): (p: nat)
    ensures n <= p < n + 3 && p % 3 == 0
  {
    if n % 3 == 0 then n else n - n % 3 + 3
  }

  /** How many enable wires the forwarder's side has. */
  function MuxSize(n: nat): (p: nat)
    ensures p >= PadTo4(n) && p >= PadTo3(n)
  {
    if PadTo3(n) > PadTo4(n) then PadTo3(n) else PadTo4(n)
  }

  /** `size` wires, those beyond the given ones tied to zero. */
  function Pad(wires: seq<bool>, size: nat): (r: seq<bool>)
    ensures |r| == size && forall k :: 0 <= k < size ==> r[k] == (k < |wires| && wires[k])
  {
    seq(size, k requires 0 <= k < size => k < |wires| && wires[k])
  }

  // ---------------------------------------------------------------- arbiters

  datatype Grant = Grant(a: bool, b: bool, c: bool, d: bool, any: bool)

  function Arbiter4(anyIn: bool, a: bool, b: bool, c: bool, d: bool): Grant {
    Grant(!anyIn && a, !anyIn && !a && b, !anyIn && !a && !b && c, !anyIn && !a && !b && !c && d,
          anyIn || a || b || c || d)
  }

  datatype Arbitration = Arbitration(enables: seq<bool>, any: bool)

  /** The arbiters for these ready lines, the first of which gets `anyIn`. */
  function Chain(readies: seq<bool>, anyIn: bool): Arbitration
    requires |readies| % 4 == 0
  {
    if readies == [] then Arbitration([], anyIn)
    else
      var g := Arbiter4(anyIn, readies[0], readies[1], readies[2], readies[3]);
      var rest := Chain(readies[4..], g.any);
      Arbitration([g.a, g.b, g.c, g.d] + rest.enables, rest.any)
  }

  predicate AnyReady(readies: seq<bool>) { true in readies }

  predicate LowestReady(readies: seq<bool>, k: nat) {
    k < |readies| && readies[k] && forall j :: 0 <= j < k ==> !readies[j]
  }

  lemma {:induction false} ChainGrants(readies: seq<bool>, anyIn: bool)
    requires |readies| % 4 == 0
    ensures var r := Chain(readies, anyIn);
      && |r.enables| == |readies|
      && (r.any <==> anyIn || AnyReady(readies))
      && forall k :: 0 <= k < |readies| ==> (r.enables[k] <==> !anyIn && LowestReady(readies, k))
  {
    if readies != [] {
      var g := Arbiter4(anyIn, readies[0], readies[1], readies[2], readies[3]);
      ChainGrants(readies[4..], g.any);
      FrontOrRest(readies);
      hide AnyReady, LowestReady;
      forall k | 0 <= k < |readies|
        ensures Chain(readies, anyIn).enables[k] <==> !anyIn && LowestReady(readies, k)
      {
        LowestIn(readies, k);
      }
    }
  }

  lemma FrontOrRest(readies: seq<bool>)
    requires |readies| >= 4
    ensures AnyReady(readies) <==> readies[0] || readies[1] || readies[2] || readies[3] || AnyReady(readies[4..])
  {
    assert readies == readies[..4] + readies[4..];
  }

  /** The lowest ready line, by position in the first four or behind them. */
  lemma LowestIn(readies: seq<bool>, k: nat)
    requires |readies| >= 4 && k < |readies|
    ensures LowestReady(readies, k) <==>
            if k == 0 then readies[0]
            else if k == 1 then !readies[0] && readies[1]
            else if k == 2 then !readies[0] && !readies[1] && readies[2]
            else if k == 3 then !readies[0] && !readies[1] && !readies[2] && readies[3]
            else !readies[0] && !readies[1] && !readies[2] && !readies[3] && LowestReady(readies[4..], k - 4)
  {
    if k >= 4 && !readies[0] && !readies[1] && !readies[2] && !readies[3] {
      LowestShift(readies, k);
    }
  }

  lemma LowestShift(readies: seq<bool>, k: nat)
    requires 4 <= k < |readies| && !readies[0] && !readies[1] && !readies[2] && !readies[3]
    ensures LowestReady(readies[4..], k - 4) <==> LowestReady(readies, k)
  {
    var rest := readies[4..];
    if LowestReady(rest, k - 4) {
      forall j | 4 <= j < k ensures !readies[j] {
        assert !rest[j - 4];
      }
    }
  }

  function Arbitrate(readies: seq<bool>): Arbitration {
    Chain(Pad(readies, PadTo4(|readies|)), false)
  }

  /** For any number of machines: the ready line is up iff some machine is
      ready, and then exactly the lowest-numbered ready one is enabled; the
      padding never is. */
  lemma ArbiterPicksLowest(readies: seq<bool>, size: nat)
    ensures var r := Arbitrate(readies);
      && (r.any <==> AnyReady(readies))
      && forall k :: 0 <= k < size ==> (Pad(r.enables, size)[k] <==> LowestReady(readies, k))
  {
    var p := PadTo4(|readies|);
    var padded := Pad(readies, p);
    ChainGrants(padded, false);
    forall k: nat | k < p ensures LowestReady(padded, k) <==> LowestReady(readies, k) {
      PadKeepsLowest(readies, p, k);
    }
    PadKeepsAny(readies, p);
  }

  lemma PadKeepsAny(readies: seq<bool>, p: nat)
    requires p >= |readies|
    ensures AnyReady(Pad(readies, p)) <==> AnyReady(readies)
  {
    if AnyReady(readies) {
      var k :| 0 <= k < |readies| && readies[k];
      assert Pad(readies, p)[k];
    }
  }

  lemma PadKeepsLowest(readies: seq<bool>, p: nat, k: nat)
    requires p >= |readies|
    ensures LowestReady(Pad(readies, p), k) <==> LowestReady(readies, k)
  {
    var padded := Pad(readies, p);
    if LowestReady(padded, k) {
      forall j | 0 <= j < k ensures !readies[j] {
        assert !padded[j];
      }
    }
  }

  lemma LowestExists(readies: seq<bool>, n: nat) returns (k: nat)
    requires n < |readies| && readies[n]
    ensures LowestReady(readies, k) && k <= n
    decreases n
  {
    if exists j: nat :: j < n && readies[j] {
      var j: nat :| j < n && readies[j];
      k := LowestExists(readies, j);
    } else {
      k := n;
    }
  }

  // ------------------------------------------------------- sticky selection

  /** The selection registers of one side: choose again in this cycle, and the
      enables of the last one. */
  datatype Sticky = Sticky(doSelect: bool, saved: seq<bool>)

  function StickyStart(size: nat): Sticky { Sticky(true, Pad([], size)) }

  function Enables(s: Sticky, readies: seq<bool>): seq<bool> {
    if s.doSelect then Pad(Arbitrate(readies).enables, |s.saved|) else s.saved
  }

  function StickyNext(s: Sticky, readies: seq<bool>, done: bool): Sticky {
    Sticky(done || !Arbitrate(readies).any, Enables(s, readies))
  }

  class StickySelector {
    var doSelect: bool
    const saved: array<bool>

    constructor (size: nat)
      ensures Regs() == StickyStart(size) && fresh(saved)
    {
      doSelect := true;
      saved := new bool[size](_ => false);
    }

    function Regs(): Sticky
      reads this, saved
    {
      Sticky(doSelect, saved[..])
    }

    method Clock(readies: seq<bool>, done: bool) returns (enables: seq<bool>, ready: bool)
      modifies this, saved
      ensures enables == Enables(old(Regs()), readies) && ready == Arbitrate(readies).any
      ensures Regs() == StickyNext(old(Regs()), readies, done)
    {
      hide Arbitrate;
      var chosen := Arbitrate(readies);
      ready := chosen.any;
      if doSelect {
        for k := 0 to saved.Length
          invariant forall j :: 0 <= j < k ==> saved[j] == Pad(chosen.enables, saved.Length)[j]
        {
          saved[k] := k < |chosen.enables| && chosen.enables[k];
        }
      }
      enables := saved[..];
      doSelect := done || !ready;
    }
  }

  // ------------------------------------------------------------------ the run

  /** Machine i is enabled and no other is. */
  predicate OneHot(en: seq<bool>, i: nat) {
    i < |en| && en[i] && forall j :: 0 <= j < |en| && j != i ==> !en[j]
  }

  predicate NoneEnabled(en: seq<bool>) { true !in en }

  /** The enabled machine, when there is one. */
  function FirstTrue(en: seq<bool>): nat { if en == [] || en[0] then 0 else 1 + FirstTrue(en[1..]) }

  lemma {:induction false} FirstTrueIsOwner(en: seq<bool>, i: nat)
    requires OneHot(en, i)
    ensures FirstTrue(en) == i
  {
    if i > 0 {
      FirstTrueIsOwner(en[1..], i - 1);
    }
  }

  /** Either the next cycle chooses anew, or machine `owner` holds the selection
      and is still ready. */
  predicate Selected(s: Sticky, readies: seq<bool>, owner: nat) {
    !s.doSelect ==> OneHot(s.saved, owner) && owner < |readies| && readies[owner]
  }

  /** A machine that is ready stays ready until it is given `done`. */
  predicate Persists(readies: seq<bool>, en: seq<bool>, done: bool, readies': seq<bool>) {
    |readies'| == |readies| &&
    forall i :: 0 <= i < |readies| && readies[i] && !(done && i < |en| && en[i]) ==> readies'[i]
  }

  /** One cycle: while any machine is ready exactly one ready machine is
      enabled, otherwise none is. */
  lemma OneEnabled(s: Sticky, readies: seq<bool>, owner: nat) returns (i: nat)
    requires Selected(s, readies, owner) && |s.saved| >= |readies|
    ensures var en := Enables(s, readies);
      && |en| == |s.saved|
      && (AnyReady(readies) ==> OneHot(en, i) && i < |readies| && readies[i])
      && (!AnyReady(readies) ==> NoneEnabled(en))
      && (AnyReady(readies) ==> if s.doSelect then LowestReady(readies, i) else i == owner)
  {
    hide Arbitrate, Pad;
    ArbiterPicksLowest(readies, |s.saved|);
    i := owner;
    if AnyReady(readies) && s.doSelect {
      var n :| 0 <= n < |readies| && readies[n];
      i := LowestExists(readies, n);
      OneLowest(Enables(s, readies), readies, i);
    }
  }

  lemma OneLowest(en: seq<bool>, readies: seq<bool>, i: nat)
    requires |en| >= |readies| && LowestReady(readies, i)
    requires forall k: nat :: k < |en| ==> (en[k] <==> LowestReady(readies, k))
    ensures OneHot(en, i)
  {
    forall j | 0 <= j < |en| && j != i ensures !en[j] {
      assert !LowestReady(readies, j);
    }
  }

  /** The selection changes only after `done`, or while nobody is ready. */
  lemma SelectionSticks(s: Sticky, readies: seq<bool>, done: bool, i: nat, readies': seq<bool>)
    requires AnyReady(readies) ==> OneHot(Enables(s, readies), i) && i < |readies| && readies[i]
    requires Persists(readies, Enables(s, readies), done, readies')
    ensures var s' := StickyNext(s, readies, done);
      && Selected(s', readies', i)
      && |s'.saved| == |Enables(s, readies)| && |readies'| == |readies|
      && s'.doSelect == (done || !AnyReady(readies))
      && (!s'.doSelect ==> Enables(s', readies') == Enables(s, readies))
  {
    ArbiterPicksLowest(readies, 0);
    hide Arbitrate, Pad, OneHot;
  }

  // ------------------------------------------------------------------ packets

  /** One cycle on the snooper's side. */
  datatype Cycle<T> = Cycle(readies: seq<bool>, wr: bool, done: bool, beat: T)

  /** The selection registers and what has happened: the beats of the packet
      being written and the packets written so far, the beats and packets each
      machine was given, and which machine each packet was meant for. */
  datatype Track<T> = Track(
    s: Sticky, owner: nat, current: seq<T>, sent: seq<seq<T>>,
    partial: seq<seq<T>>, got: seq<seq<seq<T>>>, dest: seq<nat>)

  function Given<T>(t: Track<T>, c: Cycle<T>, i: nat): bool {
    c.wr && i < |Enables(t.s, c.readies)| && Enables(t.s, c.readies)[i]
  }

  function TrackNext<T>(t: Track<T>, c: Cycle<T>): Track<T>
    requires |t.partial| == |t.got|
  {
    var n := |t.partial|;
    var owner := FirstTrue(Enables(t.s, c.readies));
    Track(
      StickyNext(t.s, c.readies, c.done), owner,
      if c.done then [] else if c.wr then t.current + [c.beat] else t.current,
      if c.done then t.sent + [t.current + [c.beat]] else t.sent,
      seq(n, i requires 0 <= i < n => if !Given(t, c,
          i) then t.partial[i] else if c.done then [] else t.partial[i] + [c.beat]),
      seq(n, i requires 0 <= i < n => if Given(t, c,
          i) && c.done then t.got[i] + [t.partial[i] + [c.beat]] else t.got[i]),
      if c.done then t.dest + [owner] else t.dest)
  }

  /** The packets meant for machine i, in order. */
  function MeantFor<T>(sent: seq<seq<T>>, dest: seq<nat>, i: nat): seq<seq<T>>
    requires |sent| == |dest|
  {
    if sent == [] then []
    else
      var k := |sent| - 1;
      MeantFor(sent[..k], dest[..k], i) + if dest[k] == i then [sent[k]] else []
  }

  /** Every machine was given exactly the packets meant for it, whole and in
      order; and the packet being written is with one machine, which holds the
      selection. */
  ghost predicate Routed<T(!new)>(t: Track<T>, readies: seq<bool>) {
    && |t.partial| == |t.got| == |readies| <= |t.s.saved|
    && Selected(t.s, readies, t.owner)
    && |t.dest| == |t.sent|
    && (forall k :: 0 <= k < |t.dest| ==> t.dest[k] < |readies|)
    && (t.current != [] ==> !t.s.doSelect)
    && (forall i :: 0 <= i < |readies| ==> t.partial[i] == if i == t.owner then t.current else [])
    && (forall i :: 0 <= i < |readies| ==> t.got[i] == MeantFor(t.sent, t.dest, i))
  }

  function Concat<T>(packets: seq<seq<T>>): seq<T> {
    if packets == [] then [] else Concat(packets[..|packets| - 1]) + packets[|packets| - 1]
  }

  /** Everything written, beat for beat, is the packets one after the other and
      then the current one. */
  lemma FlatStep<T>(t: Track<T>, c: Cycle<T>)
    requires |t.partial| == |t.got| && SnooperBehaves(c)
    ensures var t' := TrackNext(t, c);
            Concat(t'.sent) + t'.current == Concat(t.sent) + t.current + if c.wr then [c.beat] else []
  {
    hide Enables, StickyNext, FirstTrue;
    if c.done {
      assert TrackNext(t, c).sent[..|t.sent|] == t.sent;
    }
  }

  /** The snooper writes only while a machine is ready, and ends packets with a
      write. */
  predicate SnooperBehaves<T>(c: Cycle<T>) { (c.done ==> c.wr) && (c.wr ==> AnyReady(c.readies)) }

  lemma MeantForAppend<T>(sent: seq<seq<T>>, dest: seq<nat>, p: seq<T>, d: nat, i: nat)
    requires |sent| == |dest|
    ensures MeantFor(sent + [p], dest + [d], i) == MeantFor(sent, dest, i) + if d == i then [p] else []
  {
    assert (sent + [p])[..|sent|] == sent && (dest + [d])[..|sent|] == dest;
  }

  /** What one cycle gives to machine j. */
  lemma MachineStep<T(!new)>(t: Track<T>, c: Cycle<T>, j: nat)
    requires Routed(t, c.readies) && SnooperBehaves(c) && j < |c.readies|
    requires var i := FirstTrue(Enables(t.s, c.readies));
             && (c.wr ==> forall k: nat :: Given(t, c, k) <==> k == i)
             && (t.current != [] ==> i == t.owner)
    ensures var i, t' := FirstTrue(Enables(t.s, c.readies)), TrackNext(t, c);
      && t'.partial[j] == (if j == i then t'.current else [])
      && t'.got[j] == MeantFor(t'.sent, t'.dest, j)
  {
    hide Enables, Selected, StickyNext, FirstTrue;
    var i := FirstTrue(Enables(t.s, c.readies));
    assert Given(t, c, j) ==> c.wr;
    if c.done {
      assert Given(t, c, j) <==> j == i;
      MeantForAppend(t.sent, t.dest, t.current + [c.beat], i, j);
    }
  }

  /** Whole-packet dispatch: every cycle keeps the routing, and a written beat
      reaches exactly one machine, which is ready. */
  lemma DispatchStep<T(!new)>(t: Track<T>, c: Cycle<T>, readies': seq<bool>)
    requires Routed(t, c.readies) && SnooperBehaves(c)
    requires Persists(c.readies, Enables(t.s, c.readies), c.done, readies')
    ensures var i := FirstTrue(Enables(t.s, c.readies));
      && (c.wr ==> i < |c.readies| && c.readies[i] && forall j: nat :: Given(t, c, j) <==> j == i)
      && (t.current != [] ==> i == t.owner)
    ensures Routed(TrackNext(t, c), readies')
  {
    hide Enables, StickyNext, MeantFor, Persists, FirstTrue;
    var i := OneEnabled(t.s, c.readies, t.owner);
    var en := Enables(t.s, c.readies);
    if AnyReady(c.readies) {
      FirstTrueIsOwner(en, i);
    }
    SelectionSticks(t.s, c.readies, c.done, FirstTrue(en), readies');
    var t' := TrackNext(t, c);
    forall j | 0 <= j < |c.readies|
      ensures t'.partial[j] == (if j == FirstTrue(en) then t'.current else [])
              && t'.got[j] == MeantFor(t'.sent, t'.dest, j)
    {
      MachineStep(t, c, j);
    }
  }

  // ------------------------------------------------- merging data and length

  function OneHotMux3(dataA: bool, enA: bool, dataB: bool, enB: bool, dataC: bool, enC: bool): bool {
    (dataA && enA) || (dataB && enB) || (dataC && enC)
  }

  /** One bit of all machines through the row of muxes. */
  function Muxed(bits: seq<bool>, en: seq<bool>): seq<bool>
    requires |bits| == |en| && |bits| % 3 == 0
  {
    if bits == [] then []
    else [OneHotMux3(bits[0], en[0], bits[1], en[1], bits[2], en[2])] + Muxed(bits[3..], en[3..])
  }

  function OrReduce(bits: seq<bool>): bool { bits != [] && (bits[0] || OrReduce(bits[1..])) }

  /** Bit j of every machine's word, and zeros for the padding. */
  function Column(words: seq<seq<bool>>, j: nat): (r: seq<bool>)
    ensures |r| == PadTo3(|words|)
  {
    seq(PadTo3(|words|), k requires k >= 0 => k < |words| && j < |words[k]| && words[k][j])
  }

  /** The merged word: per bit, the OR of the muxes' outputs. */
  function Merge(words: seq<seq<bool>>, en: seq<bool>, width: nat): (r: seq<bool>)
    requires |en| >= PadTo3(|words|)
  {
    seq(width, j requires j >= 0 => OrReduce(Muxed(Column(words, j), en[..PadTo3(|words|)])))
  }

  lemma {:induction false} MuxTreeIsAny(bits: seq<bool>, en: seq<bool>)
    requires |bits| == |en| && |bits| % 3 == 0
    ensures OrReduce(Muxed(bits, en)) <==> exists k :: 0 <= k < |bits| && bits[k] && en[k]
  {
    if bits != [] {
      var rest, restEn := bits[3..], en[3..];
      MuxTreeIsAny(rest, restEn);
      var head := OneHotMux3(bits[0], en[0], bits[1], en[1], bits[2], en[2]);
      assert Muxed(bits, en)[1..] == Muxed(rest, restEn);
      if k :| 0 <= k < |bits| && bits[k] && en[k] {
        if k >= 3 {
          assert rest[k - 3] && restEn[k - 3];
        }
      }
    }
  }

  /** With at most one enable the merge returns exactly the enabled machine's
      word, and zero when none is enabled, for any number of machines. */
  lemma MergeSelects(words: seq<seq<bool>>, en: seq<bool>, width: nat, i: nat)
    requires |en| >= PadTo3(|words|)
    ensures OneHot(en, i) && i < |words| && |words[i]| == width ==> Merge(words, en, width) == words[i]
    ensures NoneEnabled(en) ==> Merge(words, en, width) == Pad([], width)
  {
    var used := en[..PadTo3(|words|)];
    forall j | 0 <= j < width
      ensures OneHot(en, i) && i < |words| && |words[i]| == width ==> Merge(words, en, width)[j] == words[i][j]
      ensures NoneEnabled(en) ==> !Merge(words, en, width)[j]
    {
      var bits := Column(words, j);
      MuxTreeIsAny(bits, used);
      if OneHot(en, i) && i < |words| && |words[i]| == width && words[i][j] {
        assert bits[i] && used[i];
      }
    }
  }

  // ------------------------------------------------------------------- wires

  /** A number on `width` wires, least significant bit first. */
  function ToWires(n: nat, width: nat): (r: seq<bool>)
    ensures |r| == width
  {
    if width == 0 then [] else [n % 2 == 1] + ToWires(n / 2, width - 1)
  }

  function FromWires(bits: seq<bool>): nat {
    if bits == [] then 0 else (if bits[0] then 1 else 0) + 2 * FromWires(bits[1..])
  }

  lemma {:induction false} WiresRoundTrip(n: nat, width: nat)
    requires n < Pow2(width)
    ensures FromWires(ToWires(n, width)) == n
  {
    if width > 0 {
      WiresRoundTrip(n / 2, width - 1);
      assert ToWires(n, width)[1..] == ToWires(n / 2, width - 1);
    }
  }

  function HalfWires(h: Half): (r: seq<bool>)
    ensures |r| == 8 * |h|
  {
    if h == [] then [] else ToWires(h[0], 8) + HalfWires(h[1..])
  }

  function HalfOf(bits: seq<bool>, W: nat): (h: Half)
    requires |bits| == 8 * W
  {
    if W == 0 then []
    else
      WireBound(bits[..8]);
      [FromWires(bits[..8])] + HalfOf(bits[8..], W - 1)
  }

  lemma {:induction false} WireBound(bits: seq<bool>)
    ensures FromWires(bits) < Pow2(|bits|)
    ensures Pow2(8) == 256
  {
    if bits != [] {
      WireBound(bits[1..]);
    }
    assert Pow2(4) == 16;
    assert Pow2(8) == 16 * Pow2(4);
  }

  lemma {:induction false} HalfRoundTrip(h: Half)
    ensures HalfOf(HalfWires(h), |h|) == h
  {
    if h != [] {
      var bits := HalfWires(h);
      assert bits[..8] == ToWires(h[0], 8) && bits[8..] == HalfWires(h[1..]);
      WireBound([]);
      WiresRoundTrip(h[0], 8);
      HalfRoundTrip(h[1..]);
    }
  }

  function BeatWires(b: Beat): (r: seq<bool>)
    ensures |r| == 8 * |b.hi| + 8 * |b.lo|
  {
    HalfWires(b.hi) + HalfWires(b.lo)
  }

  function BeatOf(bits: seq<bool>, W: nat): Beat
    requires |bits| == 16 * W
  {
    Beat(HalfOf(bits[..8 * W], W), HalfOf(bits[8 * W..], W))
  }

  lemma BeatRoundTrip(b: Beat, W: nat)
    requires |b.hi| == |b.lo| == W
    ensures BeatOf(BeatWires(b), W) == b
  {
    assert BeatWires(b)[..8 * W] == HalfWires(b.hi) && BeatWires(b)[8 * W..] == HalfWires(b.lo);
    HalfRoundTrip(b.hi);
    HalfRoundTrip(b.lo);
  }

  /** The data and the length that reach the forwarder. */
  function MergedBeat(beats: seq<Beat>, en: seq<bool>, W: nat): Beat
    requires |en| >= PadTo3(|beats|)
  {
    BeatOf(Merge(seq(|beats|, k requires 0 <= k < |beats| => BeatWires(beats[k])), en, 16 * W), W)
  }

  function MergedLen(lens: seq<nat>, en: seq<bool>, width: nat): nat
    requires |en| >= PadTo3(|lens|)
  {
    FromWires(Merge(seq(|lens|, k requires 0 <= k < |lens| => ToWires(lens[k], width)), en, width))
  }

  /** They are the enabled machine's. */
  lemma MergedIsOwners(beats: seq<Beat>, lens: seq<nat>, en: seq<bool>, W: nat, width: nat, i: nat)
    requires |en| >= PadTo3(|beats|) && |beats| == |lens| && OneHot(en, i) && i < |beats|
    requires |beats[i].hi| == |beats[i].lo| == W && lens[i] < Pow2(width)
    ensures MergedBeat(beats, en, W) == beats[i] && MergedLen(lens, en, width) == lens[i]
  {
    hide OneHot, PadTo3, Merge;
    var words := seq(|beats|, k requires 0 <= k < |beats| => BeatWires(beats[k]));
    var counts := seq(|lens|, k requires 0 <= k < |lens| => ToWires(lens[k], width));
    MergeSelects(words, en, 16 * W, i);
    MergeSelects(counts, en, width, i);
    BeatRoundTrip(beats[i], W);
    WiresRoundTrip(lens[i], width);
  }
}
