/** The packet buffer: a dual-port RAM with a length register (packetram.v) and
    the CPU's variable-size, unaligned read adapter (read_size_adapter.v).

    A port word ("half") is `W` bytes wide; the snooper and the forwarder move
    two of them at a time (a "beat").  In the hardware W == 2^(N-1), where N is
    the difference between the two address widths; nothing below needs more
    than W >= 4, which is N >= 3.  Bytes are big-endian: byte 0 of a word is
    its most significant one. */
module PacketRam {
  type byte = b: nat | b < 0x100
  type word = w: nat | w < 0x1_0000_0000
  type Half = seq<byte>
  datatype Beat = Beat(hi: Half, lo: Half)

  /** Registers of packet_ram: the array, the output latch and the length. */
  datatype Ram = Ram(data: seq<Half>, dout: Beat, len: nat)

  /** What a mux delivers to a buffer: {addr, wr_data, wr_en, rd_en}. */
  datatype Command = Command(addr: nat, di: Beat, wr: bool, rd: bool)

  ghost predicate Sized(data: seq<Half>, W: nat) {
    forall i :: 0 <= i < |data| ==> |data[i]| == W
  }

  /** An address cut down to the width of a memory of `depth` words. */
  function Wrap(x: nat, depth: nat): (a: nat)
    requires depth > 0
    ensures a < depth
  {
    if x < depth then x else Wrap(x - depth, depth)
  }

  /** The part of an address above the low bits that Wrap keeps. */
  function Quot(x: nat, depth: nat): nat
    requires depth > 0
  {
    if x < depth then 0 else 1 + Quot(x - depth, depth)
  }

  lemma {:induction false} QuotWrap(x: nat, depth: nat)
    requires depth > 0
    ensures x == Quot(x, depth) * depth + Wrap(x, depth)
    decreases x
  {
    if x >= depth {
      QuotWrap(x - depth, depth);
      assert (1 + Quot(x - depth, depth)) * depth == depth + Quot(x - depth, depth) * depth;
    }
  }

  /** Quot and Wrap are the quotient and the remainder; for a power of two
      they are the address's high and low bit fields. */
  lemma QuotWrapAreDivMod(x: nat, depth: nat)
    requires depth > 0
    ensures Quot(x, depth) == x / depth && Wrap(x, depth) == x % depth
  {
    QuotWrap(x, depth);
    QuotWrapUnique(x, depth, x / depth, x % depth);
  }

  /** One clock edge of packet_ram. */
  function RamNext(r: Ram, c: Command, lenRst: bool): Ram
    requires |r.data| >= 2
  {
    var a := Wrap(c.addr, |r.data|);
    var b := Wrap(a + 1, |r.data|);
    Ram(
      if c.wr then r.data[a := c.di.hi][b := c.di.lo] else r.data,
      if c.wr || c.rd then Beat(r.data[a], r.data[b]) else r.dout,
      if lenRst then 0 else if a > r.len && c.wr then a else r.len)
  }

  /** packet_ram, with the array written in place. */
  class PacketRamModule {
    var data: array<Half>
    var dout: Beat
    var len: nat

    ghost predicate Valid()
      reads this
    {
      data.Length >= 2
    }

    function Regs(): Ram
      reads this, data
    {
      Ram(data[..], dout, len)
    }

    method Clock(c: Command, lenRst: bool)
      requires Valid()
      modifies this`dout, this`len, data
      ensures Valid()
      ensures Regs() == RamNext(old(Regs()), c, lenRst)
    {
      var a := Wrap(c.addr, data.Length);
      var b := Wrap(a + 1, data.Length);
      if lenRst {
        len := 0;
      } else if a > len && c.wr {
        len := a;
      }
      if c.wr || c.rd {
        dout := Beat(data[a], data[b]);
        if c.wr {
          data[a] := c.di.hi;
          data[b] := c.di.lo;
        }
      }
    }
  }

  // ---------------------------------------------------------------- adapter

  const BPF_W := 0
  const BPF_H := 1

  /** Four bytes, most significant first, as a 32-bit word. */
  function Word4(b0: byte, b1: byte, b2: byte, b3: byte): word {
    b0 * 0x100_0000 + b1 * 0x1_0000 + b2 * 0x100 + b3
  }

  /** Byte k of the two words returned by the RAM.  With W >= 4 the adapter
      never selects past the end (see AdapterReadsBytes). */
  function BigWordByte(big: Beat, k: nat): byte {
    if k < |big.hi| then big.hi[k]
    else if k - |big.hi| < |big.lo| then big.lo[k - |big.hi|]
    else 0
  }

  /** The adapter's combinational output, lane by lane, from the latched
      size and offset. */
  function Resize(big: Beat, sz: nat, offset: nat): word {
    var s0 := BigWordByte(big, offset);
    var s1 := BigWordByte(big, offset + 1);
    var s2 := BigWordByte(big, offset + 2);
    var s3 := BigWordByte(big, offset + 3);
    var lane0 := if sz == BPF_W then s3 else if sz == BPF_H then s1 else s0;
    var lane1 := if sz == BPF_W then s2 else if sz == BPF_H then s0 else 0;
    var lane2 := if sz == BPF_W then s1 else 0;
    var lane3 := if sz == BPF_W then s0 else 0;
    Word4(lane3, lane2, lane1, lane0)
  }

  /** The part of the adapter that is clocked. */
  class ReadSizeAdapter {
    var szR: nat
    var offsetR: nat

    method Clock(transferSz: nat, byteAddr: nat, W: nat)
      requires W > 0
      modifies this
      ensures szR == transferSz && offsetR == Wrap(byteAddr, W)
    {
      szR := transferSz;
      offsetR := Wrap(byteAddr, W);
    }
  }

  // -------------------------------------------- the memory as a byte array

  /** Byte p of the memory seen as one flat array. */
  function MemByte(mem: seq<Half>, W: nat, p: nat): byte {
    if W == 0 || Quot(p, W) >= |mem| || Wrap(p, W) >= |mem[Quot(p, W)]| then 0 else mem[Quot(p, W)][Wrap(p, W)]
  }

  /** A big-endian read of 4, 2 or 1 bytes at byte address p, zero-extended;
      addresses wrap at the end of the memory. */
  function ReadBytes(mem: seq<Half>, W: nat, p: nat, sz: nat): word {
    var m := |mem| * W;
    if m == 0 then 0
    else
      var b0 := MemByte(mem, W, Wrap(p, m));
      var b1 := MemByte(mem, W, Wrap(p + 1, m));
      if sz == BPF_W then
        Word4(b0, b1, MemByte(mem, W, Wrap(p + 2, m)), MemByte(mem, W, Wrap(p + 3, m)))
      else if sz == BPF_H then Word4(0, 0, b0, b1)
      else Word4(0, 0, 0, b0)
  }

  lemma QuotWrapUnique(p: nat, W: nat, q: nat, r: nat)
    requires W > 0 && r < W && p == q * W + r
    ensures Quot(p, W) == q && Wrap(p, W) == r
  {
    QuotWrap(p, W);
    var e := Quot(p, W) - q;
    assert e * W == r - Wrap(p, W);
    assert (-e) * W == -(e * W);
    if e >= 1 {
      MulGe(e, W);
    } else if e <= -1 {
      MulGe(-e, W);
    }
  }

  lemma MulGe(k: nat, W: nat)
    requires k >= 1
    ensures k * W >= W
  {
    assert k * W == W + (k - 1) * W;
  }

  /** Byte `off` of word `a` in the flat view. */
  lemma MemByteAt(mem: seq<Half>, W: nat, a: nat, off: nat)
    requires W > 0 && Sized(mem, W) && a < |mem| && off < W
    ensures a * W + off < |mem| * W
    ensures MemByte(mem, W, a * W + off) == mem[a][off]
  {
    QuotWrapUnique(a * W + off, W, a, off);
    MulGe(|mem| - a, W);
    assert |mem| * W == a * W + (|mem| - a) * W;
  }

  lemma WrapOnce(x: nat, m: nat)
    requires m > 0 && m <= x < 2 * m
    ensures Wrap(x, m) == x - m
  {
  }

  /** Where byte `off + k` of the two-word window starting at word `a` lies. */
  lemma WindowByte(D: nat, W: nat, a: nat, off: nat, k: nat)
    requires W > 0 && a < D && off < W && off + k < 2 * W
    ensures D * W > 0
    ensures Wrap(a * W + off + k, D * W) ==
            if off + k < W then a * W + (off + k) else Wrap(a + 1, D) * W + (off + k - W)
  {
    MulGe(D, W);
    var base := a * W;
    assert (a + 1) * W == base + W;
    if off + k < W || a + 1 < D {
      var last := if off + k < W then a else a + 1;
      MulGe(D - last, W);
      assert D * W == last * W + (D - last) * W;
    } else {
      WrapOnce(base + off + k, base + W);
    }
  }

  /** One byte of the RAM's two-word output is the memory byte at the
      corresponding offset from the start of the first word. */
  lemma BigWordIsMemory(mem: seq<Half>, W: nat, a: nat, off: nat, k: nat)
    requires W > 0 && Sized(mem, W) && a < |mem| && off < W && off + k < 2 * W
    ensures |mem| * W > 0
    ensures BigWordByte(Beat(mem[a], mem[Wrap(a + 1, |mem|)]), off + k)
         == MemByte(mem, W, Wrap(a * W + off + k, |mem| * W))
  {
    WindowByte(|mem|, W, a, off, k);
    if off + k < W {
      MemByteAt(mem, W, a, off + k);
    } else {
      MemByteAt(mem, W, Wrap(a + 1, |mem|), off + k - W);
    }
  }

  lemma QuotBelow(p: nat, W: nat, D: nat)
    requires W > 0 && p < D * W
    ensures Quot(p, W) < D && p == Quot(p, W) * W + Wrap(p, W)
  {
    QuotWrap(p, W);
    var e := Quot(p, W) - D;
    assert Quot(p, W) * W == D * W + e * W;
    if e >= 0 {
      MulNonNeg(e, W);
    }
  }

  lemma MulNonNeg(k: nat, W: nat)
    ensures k * W >= 0
  {
  }

  /** Storage refinement: latching the two words around a byte address and
      selecting from them is the same as reading the flat byte array, at every
      address, for every size and also across a word boundary. */
  lemma AdapterReadsBytes(mem: seq<Half>, W: nat, p: nat, sz: nat)
    requires W >= 4 && |mem| >= 2 && Sized(mem, W) && p < |mem| * W
    ensures Quot(p, W) < |mem|
    ensures Resize(Beat(mem[Quot(p, W)], mem[Wrap(Quot(p, W) + 1, |mem|)]), sz, Wrap(p, W)) == ReadBytes(mem, W, p, sz)
  {
    hide Quot, Wrap, MemByte, BigWordByte, Word4;
    QuotBelow(p, W, |mem|);
    BigWordIsMemory(mem, W, Quot(p, W), Wrap(p, W), 0);
    BigWordIsMemory(mem, W, Quot(p, W), Wrap(p, W), 1);
    BigWordIsMemory(mem, W, Quot(p, W), Wrap(p, W), 2);
    BigWordIsMemory(mem, W, Quot(p, W), Wrap(p, W), 3);
  }

  // ------------------------------------------------------- stored packets

  /** The buffer holds exactly this packet: the beats at word pairs 0, 1, ...
      and the length register at the address of the last one. */
  ghost predicate Stored(r: Ram, beats: seq<Beat>) {
    && 1 <= |beats| && 2 * |beats| <= |r.data|
    && r.len == 2 * (|beats| - 1)
    && forall k :: 0 <= k < |beats| ==> r.data[2 * k] == beats[k].hi && r.data[2 * k + 1] == beats[k].lo
  }

  /** The buffer holds the first beats of a packet that is still arriving. */
  ghost predicate Filling(r: Ram, beats: seq<Beat>) {
    && 2 * |beats| <= |r.data|
    && r.len == (if beats == [] then 0 else 2 * (|beats| - 1))
    && forall k :: 0 <= k < |beats| ==> r.data[2 * k] == beats[k].hi && r.data[2 * k + 1] == beats[k].lo
  }

  /** Writing the next beat at address 2*n extends what is stored, and the
      length register ends at 2*(n-1) for an n-beat packet. */
  lemma WriteExtends(r: Ram, beats: seq<Beat>, b: Beat, rd: bool)
    requires |r.data| >= 2 && |r.data| % 2 == 0
    requires Filling(r, beats) && 2 * |beats| + 2 <= |r.data|
    ensures Filling(RamNext(r, Command(2 * |beats|, b, true, rd), false), beats + [b])
    ensures Stored(RamNext(r, Command(2 * |beats|, b, true, rd), false), beats + [b])
  {
    var n := |beats|;
    var r' := RamNext(r, Command(2 * n, b, true, rd), false);
    assert r'.data == r.data[2 * n := b.hi][2 * n + 1 := b.lo];
  }

  /** A run of accesses without a reset of the length. */
  function RamRun(r: Ram, cs: seq<Command>): (r': Ram)
    requires |r.data| >= 2
    ensures |r'.data| == |r.data|
  {
    if cs == [] then r else RamNext(RamRun(r, cs[..|cs| - 1]), cs[|cs| - 1], false)
  }

  /** The length register is the largest address written, whatever the order of
      the writes. */
  lemma {:induction false} LengthIsLargest(r: Ram, cs: seq<Command>)
    requires |r.data| >= 2
    ensures var len := RamRun(r, cs).len;
      && r.len <= len && (forall k :: 0 <= k < |cs| && cs[k].wr ==> Wrap(cs[k].addr, |r.data|) <= len)
      && (len == r.len || exists k :: 0 <= k < |cs| && cs[k].wr && Wrap(cs[k].addr, |r.data|) == len)
    decreases |cs|
  {
    hide Wrap;
    if cs != [] {
      var n := |cs| - 1;
      LengthIsLargest(r, cs[..n]);
      assert forall k :: 0 <= k < n ==> cs[..n][k] == cs[k];
      var len := RamRun(r, cs[..n]).len;
      if Wrap(cs[n].addr, |r.data|) <= len && len != r.len {
        var k :| 0 <= k < n && cs[..n][k].wr && Wrap(cs[..n][k].addr, |r.data|) == len;
        assert cs[k].wr && Wrap(cs[k].addr, |r.data|) == len;
      }
    }
  }

  /** The bytes of a sequence of beats, in order. */
  function Bytes(beats: seq<Beat>): seq<byte> {
    if beats == [] then [] else beats[0].hi + beats[0].lo + Bytes(beats[1..])
  }

  lemma {:induction false} BytesLength(beats: seq<Beat>, W: nat)
    requires forall i :: 0 <= i < |beats| ==> |beats[i].hi| == W && |beats[i].lo| == W
    ensures |Bytes(beats)| == |beats| * (2 * W)
  {
    if beats != [] {
      BytesLength(beats[1..], W);
      assert |beats| * (2 * W) == 2 * W + (|beats| - 1) * (2 * W);
    }
  }

  lemma {:induction false} BytesAt(beats: seq<Beat>, W: nat, k: nat, j: nat)
    requires W > 0 && k < |beats| && j < 2 * W
    requires forall i :: 0 <= i < |beats| ==> |beats[i].hi| == W && |beats[i].lo| == W
    ensures |Bytes(beats)| == |beats| * (2 * W)
    ensures k * (2 * W) + j < |Bytes(beats)|
    ensures Bytes(beats)[k * (2 * W) + j] == (if j < W then beats[k].hi[j] else beats[k].lo[j - W])
  {
    BytesLength(beats, W);
    var first := beats[0].hi + beats[0].lo;
    assert Bytes(beats) == first + Bytes(beats[1..]);
    hide Bytes;
    if k == 0 {
      FirstBeatFits(|beats|, W);
    } else {
      BytesAt(beats[1..], W, k - 1, j);
      OneBeatLess(k, W);
      OneBeatLess(|beats|, W);
      Behind(first, Bytes(beats[1..]), (k - 1) * (2 * W) + j);
    }
  }

  lemma Behind(front: seq<byte>, rest: seq<byte>, i: nat)
    requires i < |rest|
    ensures (front + rest)[|front| + i] == rest[i]
  {
  }

  lemma FirstBeatFits(n: nat, W: nat)
    requires n >= 1
    ensures 2 * W <= n * (2 * W) && 0 * (2 * W) == 0
  {
    MulGe(n, 2 * W);
  }

  lemma OneBeatLess(k: nat, W: nat)
    requires k >= 1
    ensures k * (2 * W) == 2 * W + (k - 1) * (2 * W)
  {
  }

  /** Which word, and which byte of it, holds byte p of a packet. */
  lemma BeatOfByte(p: nat, W: nat, n: nat) returns (k: nat, j: nat)
    requires W > 0 && p < n * (2 * W)
    ensures k < n && j < 2 * W && p == k * (2 * W) + j
    ensures if j < W then p == (2 * k) * W + j else p == (2 * k + 1) * W + (j - W)
  {
    QuotBelow(p, 2 * W, n);
    k, j := Quot(p, 2 * W), Wrap(p, 2 * W);
    assert k * (2 * W) == (2 * k) * W;
    assert (2 * k + 1) * W == (2 * k) * W + W;
  }

  lemma StoredBeatsSized(r: Ram, W: nat, beats: seq<Beat>)
    requires Sized(r.data, W) && Stored(r, beats)
    ensures forall i :: 0 <= i < |beats| ==> |beats[i].hi| == W && |beats[i].lo| == W
  {
    forall i | 0 <= i < |beats| ensures |beats[i].hi| == W && |beats[i].lo| == W {
      assert r.data[2 * i] == beats[i].hi;
    }
  }

  /** What the CPU sees of a stored packet: byte p of the memory is byte p of
      the concatenated beats, for every p inside the packet. */
  lemma PacketBytes(r: Ram, W: nat, beats: seq<Beat>, p: nat)
    requires W > 0 && Sized(r.data, W) && Stored(r, beats) && p < |beats| * (2 * W)
    ensures p < |Bytes(beats)| && MemByte(r.data, W, p) == Bytes(beats)[p]
  {
    var k, j := BeatOfByte(p, W, |beats|);
    StoredBeatsSized(r, W, beats);
    BytesAt(beats, W, k, j);
    if j < W {
      MemByteAt(r.data, W, 2 * k, j);
    } else {
      MemByteAt(r.data, W, 2 * k + 1, j - W);
    }
  }

  lemma Doubling(n: nat, W: nat, rest: nat)
    ensures n * (2 * W) <= (2 * n + rest) * W
  {
    assert n * (2 * W) == (2 * n) * W;
    assert (2 * n + rest) * W == (2 * n) * W + rest * W;
  }

  lemma PacketFits(r: Ram, W: nat, beats: seq<Beat>)
    requires W > 0 && Sized(r.data, W) && Stored(r, beats)
    ensures |Bytes(beats)| == |beats| * (2 * W) <= |r.data| * W
  {
    StoredBeatsSized(r, W, beats);
    BytesAt(beats, W, 0, 0);
    Doubling(|beats|, W, |r.data| - 2 * |beats|);
  }

  function AccessBytes(sz: nat): nat {
    if sz == BPF_W then 4 else if sz == BPF_H then 2 else 1
  }

  /** Storage, end to end: once a packet is stored, a CPU read of any size at
      any byte address inside it returns the packet's own bytes, big-endian. */
  lemma StoredPacketReads(r: Ram, W: nat, beats: seq<Beat>, p: nat, sz: nat)
    requires W >= 4 && |r.data| >= 2 && Sized(r.data, W) && Stored(r, beats)
    requires p + AccessBytes(sz) <= |Bytes(beats)|
    ensures Quot(p, W) < |r.data|
    ensures var bs := Bytes(beats);
            Resize(Beat(r.data[Quot(p, W)], r.data[Wrap(Quot(p, W) + 1, |r.data|)]), sz, Wrap(p, W))
            == if sz == BPF_W then Word4(bs[p], bs[p + 1], bs[p + 2], bs[p + 3])
               else if sz == BPF_H then Word4(0, 0, bs[p], bs[p + 1])
               else Word4(0, 0, 0, bs[p])
  {
    PacketFits(r, W, beats);
    AdapterReadsBytes(r.data, W, p, sz);
    PacketBytes(r, W, beats, p);
    if sz == BPF_W || sz == BPF_H {
      PacketBytes(r, W, beats, p + 1);
    }
    if sz == BPF_W {
      PacketBytes(r, W, beats, p + 2);
      PacketBytes(r, W, beats, p + 3);
    }
  }
}
