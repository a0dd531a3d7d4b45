/** From register writes to code memory: the register file as far as the loader
    uses it, the strobe machine (regstrb2mem.v) and the code memory; and the
    whole way of a program from the host to the CPU. */
module ProgramLoad {
  import opened PacketRam
  import opened Isa
  import opened HostText

  /** A 64-bit word of code memory. */
  datatype CodeWord = CodeWord(high: word, low: word)

  /** The registers between the bus and the code memory, and the memory. */
  datatype Loader = Loader(
    start: bool, low: word, high: word, addr: nat, lowValid: bool, highValid: bool, code: seq<CodeWord>)

  /** One clock cycle on the register bus: nothing, or a register write, which
      shows the new value together with its strobe. */
  datatype BusCycle = NoWrite | Write(w: RegWrite)

  // register indices: byte offset 0x4, 0x8 and 0xC
  const CONTROL: nat := 1
  const INST_LOW: nat := 2
  const INST_HIGH: nat := 3

  predicate LowStrobe(c: BusCycle) { c.Write? && c.w.index == INST_LOW }

  predicate HighStrobe(c: BusCycle) { c.Write? && c.w.index == INST_HIGH }

  /** code_mem_wr_en */
  predicate CodeWrEn(l: Loader, lowStrobe: bool, highStrobe: bool) {
    !l.start && ((l.lowValid && highStrobe) || (l.highValid && lowStrobe))
  }

  /** One clock edge of regstrb2mem, with the register values as this cycle
      shows them. */
  function StrobeNext(l: Loader, lowStrobe: bool, highStrobe: bool): Loader
    requires l.addr < |l.code|
  {
    var wrEn := CodeWrEn(l, lowStrobe, highStrobe);
    Loader(
      l.start, l.low, l.high,
      if l.start then 0 else if wrEn then Wrap(l.addr + 1, |l.code|) else l.addr,
      !wrEn && (lowStrobe || l.lowValid),
      !wrEn && (highStrobe || l.highValid),
      if wrEn then l.code[l.addr := CodeWord(l.high, l.low)] else l.code)
  }

  /** The registers as a cycle shows them. */
  function Shown(l: Loader, c: BusCycle): Loader {
    l.(start := if c.Write? && c.w.index == CONTROL then c.w.value % 2 == 1 else l.start,
       low := if LowStrobe(c) then c.w.value else l.low,
       high := if HighStrobe(c) then c.w.value else l.high)
  }

  /** One cycle of register file and strobe machine together. */
  function LoaderNext(l: Loader, c: BusCycle): Loader
    requires l.addr < |l.code|
  {
    StrobeNext(Shown(l, c), LowStrobe(c), HighStrobe(c))
  }

  /** regstrb2mem with the code memory it writes. */
  class StrobeToMem {
    var addr: nat
    var lowValid: bool
    var highValid: bool
    const code: array<CodeWord>

    constructor (code: array<CodeWord>)
      requires code.Length > 0
      ensures Valid() && this.code == code && addr == 0 && !lowValid && !highValid
    {
      this.code := code;
      addr, lowValid, highValid := 0, false, false;
    }

    ghost predicate Valid()
      reads this
    {
      addr < code.Length
    }

    /** Its state, under given register values. */
    function State(start: bool, low: word, high: word): Loader
      reads this, code
    {
      Loader(start, low, high, addr, lowValid, highValid, code[..])
    }

    method Clock(start: bool, low: word, lowStrobe: bool, high: word, highStrobe: bool)
      requires Valid()
      modifies this, code
      ensures Valid()
      ensures State(start, low, high) == StrobeNext(old(State(start, low, high)), lowStrobe, highStrobe)
    {
      var wrEn := !start && ((lowValid && highStrobe) || (highValid && lowStrobe));
      if wrEn {
        code[addr] := CodeWord(high, low);
      }
      if start {
        addr := 0;
      } else if wrEn {
        addr := Wrap(addr + 1, code.Length);
      }
      highValid := !wrEn && (highStrobe || highValid);
      lowValid := !wrEn && (lowStrobe || lowValid);
    }
  }

  function LoaderRun(l: Loader, cycles: seq<BusCycle>): (r: Loader)
    requires l.addr < |l.code|
    ensures r.addr < |r.code| == |l.code|
  {
    if cycles == [] then l else LoaderNext(LoaderRun(l, cycles[..|cycles| - 1]), cycles[|cycles| - 1])
  }

  /** The register writes of a run, without the quiet cycles. */
  function WritesIn(cycles: seq<BusCycle>): seq<RegWrite> {
    if cycles == [] then []
    else
      var c := cycles[|cycles| - 1];
      WritesIn(cycles[..|cycles| - 1]) + (match c case NoWrite => [] case Write(w) => [w])
  }

  // ------------------------------------------------------ starting and stopping

  /** Bit 0 of a control write starts or stops the filter; no other write does. */
  lemma ControlStarts(l: Loader, c: BusCycle)
    requires l.addr < |l.code|
    ensures LoaderNext(l, c).start <==>
            if c.Write? && c.w.index == 1 then exists m: nat :: c.w.value == 2 * m + 1 else l.start
  {
    if c.Write? && c.w.value % 2 == 1 {
      assert c.w.value == 2 * (c.w.value / 2) + 1;
    }
  }

  /** While the filter runs its code cannot change and the address goes back to
      0: whatever is written, as long as no control write stops it. */
  lemma {:induction false} RunningIsProtected(l: Loader, cycles: seq<BusCycle>)
    requires l.addr < |l.code| && l.start
    requires forall k :: 0 <= k < |cycles| && cycles[k].Write? && cycles[k].w.index == 1 ==> cycles[k].w.value % 2 == 1
    ensures var r := LoaderRun(l, cycles); r.start && r.code == l.code && (cycles != [] ==> r.addr == 0)
    decreases |cycles|
  {
    if cycles != [] {
      var n := |cycles| - 1;
      assert forall k :: 0 <= k < n ==> cycles[..n][k] == cycles[k];
      RunningIsProtected(l, cycles[..n]);
    }
  }

  // ------------------------------------------------- quiet cycles do not matter

  /** True from the second cycle on: while the filter runs, the address is held
      at zero. */
  predicate Settled(l: Loader) { l.addr < |l.code| && (l.start ==> l.addr == 0) }

  /** The writes alone, one cycle each. */
  function Apply(l: Loader, ws: seq<RegWrite>): (r: Loader)
    requires Settled(l)
    ensures Settled(r) && |r.code| == |l.code|
  {
    if ws == [] then l else LoaderNext(Apply(l, ws[..|ws| - 1]), Write(ws[|ws| - 1]))
  }

  lemma {:induction false} OnlyWritesMatter(l: Loader, cycles: seq<BusCycle>)
    requires Settled(l)
    ensures LoaderRun(l, cycles) == Apply(l, WritesIn(cycles))
    decreases |cycles|
  {
    if cycles != [] {
      var k := |cycles| - 1;
      OnlyWritesMatter(l, cycles[..k]);
      var ws := WritesIn(cycles[..k]);
      match cycles[k]
      case NoWrite => assert ws + [] == ws;
      case Write(w) => ApplyOneMore(l, ws, w);
    }
  }

  lemma ApplyOneMore(l: Loader, ws: seq<RegWrite>, w: RegWrite)
    requires Settled(l)
    ensures Apply(l, ws + [w]) == LoaderNext(Apply(l, ws), Write(w))
  {
    assert (ws + [w])[..|ws|] == ws;
  }

  // ----------------------------------------------------------- loading, exactly

  function Encode(i: Insn): CodeWord { CodeWord(High(i), i.k) }

  /** High word, then low word: one code word is written, provided no stale low
      word is taken for the partner of the high one. */
  lemma PairIsOneWord(l: Loader, i: Insn)
    requires Settled(l) && !l.start && !l.lowValid
    ensures var r := LoaderNext(LoaderNext(l, Write(RegWrite(INST_HIGH, High(i)))), Write(RegWrite(INST_LOW, i.k)));
      && r.code == l.code[l.addr := Encode(i)] && r.addr == Wrap(l.addr + 1, |l.code|)
      && !r.start && !r.lowValid && !r.highValid
  {
    hide High;
  }

  /** The i-th word from address a on, around the end of the memory. */
  function Slot(a: nat, i: nat, depth: nat): (s: nat)
    requires depth > 0
    ensures s < depth
  {
    Wrap(a + i, depth)
  }

  /** Code memory with a program written from address a on. */
  function Loaded(code: seq<CodeWord>, a: nat, program: seq<Insn>): (r: seq<CodeWord>)
    requires |code| > 0
    ensures |r| == |code|
  {
    if program == [] then code
    else
      var k := |program| - 1;
      Loaded(code, a, program[..k])[Slot(a, k, |code|) := Encode(program[k])]
  }

  lemma WrapUpTo(x: nat, depth: nat)
    requires depth > 0 && x < 2 * depth
    ensures Wrap(x, depth) == if x < depth then x else x - depth
  {
  }

  lemma OneFurther(a: nat, k: nat, depth: nat)
    requires a < depth && k < depth
    ensures Wrap(Slot(a, k, depth) + 1, depth) == Slot(a, k + 1, depth)
  {
    WrapUpTo(a + k, depth);
    WrapUpTo(a + k + 1, depth);
  }

  /** Instruction i is i words behind the start. */
  lemma {:induction false} LoadedHas(code: seq<CodeWord>, a: nat, program: seq<Insn>, i: nat)
    requires a < |code| && i < |program| <= |code|
    ensures Loaded(code, a, program)[Slot(a, i, |code|)] == Encode(program[i])
    decreases |program|
  {
    hide Encode;
    var k := |program| - 1;
    if i < k {
      LoadedHas(code, a, program[..k], i);
      WrapUpTo(a + i, |code|);
      WrapUpTo(a + k, |code|);
    }
  }

  /** Words outside the program keep their contents. */
  lemma {:induction false} LoadedKeeps(code: seq<CodeWord>, a: nat, program: seq<Insn>, b: nat)
    requires a < |code| && |program| <= |code| && b < |code|
    requires if a + |program| <= |code| then b < a || a + |program| <= b else a + |program| - |code| <= b < a
    ensures Loaded(code, a, program)[b] == code[b]
    decreases |program|
  {
    hide Encode;
    if program != [] {
      var k := |program| - 1;
      LoadedKeeps(code, a, program[..k], b);
      WrapUpTo(a + k, |code|);
    }
  }

  /** The whole effect of a program's writes on a stopped loader. */
  lemma {:induction false} LoadsInSequence(l: Loader, program: seq<Insn>)
    requires Settled(l) && !l.start && !l.lowValid && |program| <= |l.code|
    ensures var r := Apply(l, LoadWrites(program));
      && !r.start && !r.lowValid && r.addr == Slot(l.addr, |program|, |l.code|) && r.code == Loaded(l.code, l.addr,
          program)
    decreases |program|
  {
    hide High, LoaderNext, Encode;
    if program != [] {
      var k := |program| - 1;
      var x := program[k];
      LoadsInSequence(l, program[..k]);
      var ws := LoadWrites(program[..k]);
      var h, w := RegWrite(INST_HIGH, High(x)), RegWrite(INST_LOW, x.k);
      ApplyOneMore(l, ws, h);
      ApplyOneMore(l, ws + [h], w);
      assert ws + [h, w] == ws + [h] + [w];
      PairIsOneWord(Apply(l, ws), x);
      OneFurther(l.addr, k, |l.code|);
    }
  }

  lemma StopAndGo(l: Loader)
    requires Settled(l)
    ensures LoaderNext(l, Write(RegWrite(CONTROL, 0))) == l.(start := false)
    ensures LoaderNext(l, Write(RegWrite(CONTROL, 1))) == l.(start := true, addr := 0)
  {
  }

  /** Stop, load, start: the whole sequence of writes. */
  lemma ProgramIsLoaded(l: Loader, program: seq<Insn>)
    requires Settled(l) && !l.lowValid && |program| <= |l.code|
    ensures var r := Apply(l, ProgramWrites(program));
            r.start && r.addr == 0 && !r.lowValid && r.code == Loaded(l.code, l.addr, program)
  {
    hide Encode, LoaderNext, LoadWrites, Loaded, Apply;
    var stop, go := RegWrite(CONTROL, 0), RegWrite(CONTROL, 1);
    var ws := LoadWrites(program);
    StopAndGo(l);
    AppliedStop(l);
    ApplyAfter(l, [stop], ws);
    LoadsInSequence(l.(start := false), program);
    StopAndGo(Apply(l, [stop] + ws));
    ApplyOneMore(l, [stop] + ws, go);
    assert [stop] + ws + [go] == ProgramWrites(program);
  }

  lemma AppliedStop(l: Loader)
    requires Settled(l)
    ensures Apply(l, [RegWrite(CONTROL, 0)]) == l.(start := false)
  {
    ApplyOneMore(l, [], RegWrite(CONTROL, 0));
    assert [] + [RegWrite(CONTROL, 0)] == [RegWrite(CONTROL, 0)];
    StopAndGo(l);
  }

  lemma {:induction false} ApplyAfter(l: Loader, a: seq<RegWrite>, b: seq<RegWrite>)
    requires Settled(l)
    ensures Apply(l, a + b) == Apply(Apply(l, a), b)
    decreases |b|
  {
    hide LoaderNext;
    if b == [] {
      assert a + b == a;
    } else {
      var k := |b| - 1;
      ApplyAfter(l, a, b[..k]);
      assert (a + b)[..|a + b| - 1] == a + b[..k];
    }
  }

  /** Instruction i is at code address i. */
  predicate LandsAtZero(code: seq<CodeWord>, program: seq<Insn>) {
    |program| <= |code| && forall i :: 0 <= i < |program| ==> code[i] == Encode(program[i])
  }

  lemma LoadedFromZero(code: seq<CodeWord>, program: seq<Insn>)
    requires |code| > 0 && |program| <= |code|
    ensures LandsAtZero(Loaded(code, 0, program), program)
    ensures forall b :: |program| <= b < |code| ==> Loaded(code, 0, program)[b] == code[b]
  {
    hide Loaded, Encode;
    forall i | 0 <= i < |program| ensures Loaded(code, 0, program)[i] == Encode(program[i]) {
      LoadedHas(code, 0, program, i);
      WrapUpTo(i, |code|);
    }
    forall b | |program| <= b < |code| ensures Loaded(code, 0, program)[b] == code[b] {
      LoadedKeeps(code, 0, program, b);
    }
  }

  /** Exactly when loading works: every program that fits ends up at addresses
      0, 1, ... iff loading begins at address 0 and no low word is pending. */
  lemma LoadsAtZeroIff(l: Loader)
    requires Settled(l)
    ensures (forall program :: |program| <= |l.code| ==> LandsAtZero(Apply(l, ProgramWrites(program)).code, program))
            <==> l.addr == 0 && !l.lowValid
  {
    hide Apply, Loaded, ProgramWrites, LandsAtZero;
    if l.addr == 0 && !l.lowValid {
      forall program | |program| <= |l.code| ensures LandsAtZero(Apply(l, ProgramWrites(program)).code, program) {
        ProgramIsLoaded(l, program);
        LoadedFromZero(l.code, program);
      }
    } else {
      var x := Insn(0, 0, 0, FreshWord(l.low, l.code[0].low));
      OneWordGoesWrong(l, x);
    }
  }

  function FreshWord(a: word, b: word): (k: word)
    ensures k != a && k != b
  {
    if a != 0 && b != 0 then 0 else if a != 1 && b != 1 then 1 else 2
  }

  lemma OneWordGoesWrong(l: Loader, x: Insn)
    requires Settled(l) && (l.addr != 0 || l.lowValid) && x.k != l.low && x.k != l.code[0].low
    ensures !LandsAtZero(Apply(l, ProgramWrites([x])).code, [x])
  {
    hide High, Apply;
    var stop, go := RegWrite(CONTROL, 0), RegWrite(CONTROL, 1);
    var h, w := RegWrite(INST_HIGH, High(x)), RegWrite(INST_LOW, x.k);
    assert LoadWrites([]) + [h, w] == [h, w] && [x][..0] == [];
    assert ProgramWrites([x]) == [stop, h, w, go];
    AppliedStop(l);
    ApplyOneMore(l, [stop], h);
    ApplyOneMore(l, [stop, h], w);
    ApplyOneMore(l, [stop, h, w], go);
    assert [stop] + [h] == [stop, h] && [stop, h] + [w] == [stop, h, w] && [stop, h, w] + [go] == [stop, h, w, go];
    assert Apply(l, ProgramWrites([x])).code[0].low != x.k;
  }

  /** A load that is broken off before the restart leaves the address behind: the
      next program lands that many words too high. */
  lemma BrokenLoadShiftsTheNext(l: Loader, broken: seq<Insn>, program: seq<Insn>, i: nat)
    requires Settled(l) && l.addr == 0 && !l.lowValid && |broken| < |l.code| && i < |program| <= |l.code|
    ensures var r := Apply(Apply(l, [RegWrite(CONTROL, 0)] + LoadWrites(broken)), ProgramWrites(program));
            r.code[Slot(|broken|, i, |l.code|)] == Encode(program[i])
  {
    hide Encode, Loaded, LoadWrites, ProgramWrites, Apply;
    var stop := RegWrite(CONTROL, 0);
    AppliedStop(l);
    ApplyAfter(l, [stop], LoadWrites(broken));
    LoadsInSequence(l.(start := false), broken);
    WrapUpTo(|broken|, |l.code|);
    var l1 := Apply(l, [stop] + LoadWrites(broken));
    ProgramIsLoaded(l1, program);
    LoadedHas(l1.code, |broken|, program, i);
  }

  // ----------------------------------------------------- from host to decoder

  /** The instruction fields as the CPU cuts them out of a code word. */
  function Decode(w: CodeWord): Instr {
    var opcode := w.high / 0x1_0000;
    Instr((opcode / 32) % 8, (opcode / 8) % 4, opcode % 8, w.high / 0x100 % 0x100, w.high % 0x100, w.low)
  }

  function AsInstr(i: Insn): Instr {
    Instr((i.code / 32) % 8, (i.code / 8) % 4, i.code % 8, i.jt, i.jf, i.k)
  }

  lemma SplitHigh(i: Insn)
    ensures High(i) / 0x1_0000 == i.code
    ensures High(i) / 0x100 == 0x100 * i.code + i.jt && High(i) % 0x100 == i.jf
  {
  }

  lemma DecodeEncode(i: Insn)
    ensures Decode(Encode(i)) == AsInstr(i)
  {
    hide High;
    SplitHigh(i);
    assert (0x100 * i.code + i.jt) % 0x100 == i.jt;
  }

  /** Main result.  Print a program that fits the code memory, cut the text into
      buffers in any way, receive them, and perform the register writes with any
      number of quiet cycles in between: the CPU then decodes instruction i at
      code address i, no other word has changed, the filter is running, and the
      loader is ready for the next program. */
  lemma ProgramRoundTrip(l: Loader, program: seq<Insn>, buffers: seq<seq<byte>>, cycles: seq<BusCycle>)
    requires Settled(l) && l.addr == 0 && !l.lowValid && |program| <= |l.code|
    requires Joined(buffers) == ProgramText(program)
    requires WritesIn(cycles) == ReceiveAll(WAITING, buffers).1
    ensures var r := LoaderRun(l, cycles);
      && (forall i :: 0 <= i < |program| ==> Decode(r.code[i]) == AsInstr(program[i]))
      && (forall b :: |program| <= b < |l.code| ==> r.code[b] == l.code[b])
      && r.start && r.addr == 0 && !r.lowValid
      && ReceiveAll(WAITING, buffers).0 == WAITING
  {
    hide Decode, AsInstr, Encode, ProgramWrites, ProgramText, LoaderRun, Apply, Loaded, WritesIn, ReceiveAll, Joined;
    ProgramTextIsRead(program, buffers);
    OnlyWritesMatter(l, cycles);
    ProgramIsLoaded(l, program);
    LoadedFromZero(l.code, program);
    var r := LoaderRun(l, cycles);
    forall i | 0 <= i < |program| ensures Decode(r.code[i]) == AsInstr(program[i]) {
      DecodeEncode(program[i]);
    }
  }
}
