/** How a compiled program travels as text: the host prints it (sendfilt.cpp)
    and a receive callback on the board parses it, one buffer at a time, into
    register writes (echo.c). */
module HostText {
  import opened PacketRam

  /** One instruction as the BPF compiler delivers it. */
  datatype Insn = Insn(code: half, jt: byte, jf: byte, k: word)

  type half = x: nat | x < 0x1_0000

  // --------------------------------------------------------------- the printer

  const NUL: byte := 0
  const LF: byte := 10
  const CR: byte := 13
  const COMMA: byte := 44

  function DigitChar(d: nat): byte
    requires d < 16
  {
    if d < 10 then 48 + d else 97 + (d - 10)
  }

  /** %0<w>x, for a number that fits in w digits. */
  function Hex(n: nat, w: nat): seq<byte> {
    if w == 0 then [] else Hex(n / 16, w - 1) + [DigitChar(n % 16)]
  }

  /** "<reg>,": the register's offset is one hex digit. */
  function RegPrefix(reg: byte): seq<byte> { [reg, COMMA] }

  const NEW_LINE: seq<byte> := [LF, CR]

  /** "C,%04x%02x%02x\n\r8,%08x\n\r" */
  function Line(i: Insn): seq<byte> {
    RegPrefix(67) + (Hex(i.code, 4) + Hex(i.jt, 2) + Hex(i.jf, 2)) + NEW_LINE + RegPrefix(56) + Hex(i.k, 8) + NEW_LINE
  }

  function Lines(program: seq<Insn>): seq<byte> {
    if program == [] then [] else Lines(program[..|program| - 1]) + Line(program[|program| - 1])
  }

  /** The literals "4,0\n\r" and "4,1\n\r" are sent as whole arrays, with their
      terminating NUL. */
  function ControlText(start: byte): seq<byte> { RegPrefix(52) + [start] + NEW_LINE + [NUL] }

  function ProgramText(program: seq<Insn>): seq<byte> {
    ControlText(48) + Lines(program) + ControlText(49)
  }

  /** The sending loop of sendfilt's main. */
  method SendProgram(program: seq<Insn>) returns (sent: seq<byte>)
    ensures sent == ProgramText(program)
  {
    sent := ControlText(48);
    for i := 0 to |program|
      invariant sent == ControlText(48) + Lines(program[..i])
    {
      assert program[..i + 1][..i] == program[..i];
      sent := sent + Line(program[i]);
    }
    assert program[..|program|] == program;
    sent := sent + ControlText(49);
  }

  /** A text as its character codes. */
  function Ascii(text: string): seq<int> {
    if text == "" then [] else Ascii(text[..|text| - 1]) + [text[|text| - 1] as int]
  }

  const HEX_DIGITS := "0123456789abcdef"
  const UPPER_DIGITS := "0123456789ABCDEF"

  /** The text of an instruction: what the two format strings say, character by
      character. */
  lemma LineFormat(i: Insn)
    ensures Line(i) == Ascii("C,") + Hex(i.code, 4) + Hex(i.jt, 2) + Hex(i.jf, 2)
                       + Ascii("\n\r8,") + Hex(i.k, 8) + Ascii("\n\r")
    ensures |Hex(i.code, 4)| == 4 && |Hex(i.jt, 2)| == |Hex(i.jf, 2)| == 2 && |Hex(i.k, 8)| == 8
  {
    hide Hex;
    HexLength(i.code, 4);
    HexLength(i.jt, 2);
    HexLength(i.jf, 2);
    HexLength(i.k, 8);
    Punctuation();
    hide Ascii;
    Regrouped(Hex(i.code, 4) + Hex(i.jt, 2) + Hex(i.jf, 2), Hex(i.k, 8));
  }

  lemma Punctuation()
    ensures Ascii("C,") == [67, 44] && Ascii("\n\r") == [10, 13] && Ascii("\n\r8,") == [10, 13, 56, 44]
  {
    assert "C,"[..1] == "C" && "C"[..0] == "" && "\n\r"[..1] == "\n" && "\n"[..0] == "";
    assert "\n\r8,"[..3] == "\n\r8" && "\n\r8"[..2] == "\n\r";
  }

  lemma Regrouped(high: seq<int>, low: seq<int>)
    ensures [67, 44] + high + [10, 13] + [56, 44] + low + [10, 13]
         == [67, 44] + high + [10, 13, 56, 44] + low + [10, 13]
  {
    assert [10, 13] + [56, 44] == [10, 13, 56, 44];
    assert [67, 44] + high + [10, 13] + [56, 44] == [67, 44] + high + ([10, 13] + [56, 44]);
  }

  lemma {:induction false} HexLength(n: nat, w: nat)
    ensures |Hex(n, w)| == w
  {
    if w > 0 {
      HexLength(n / 16, w - 1);
    }
  }

  /** The control strings, with their terminating NUL. */
  lemma ControlFormat()
    ensures ControlText(48) == Ascii("4,0\n\r\0") && ControlText(49) == Ascii("4,1\n\r\0")
  {
    assert "4,0\n\r\0"[..5] == "4,0\n\r" && "4,0\n\r"[..4] == "4,0\n" && "4,0\n"[..3] == "4,0" && "4,0"[..2] == "4,";
    assert "4,1\n\r\0"[..5] == "4,1\n\r" && "4,1\n\r"[..4] == "4,1\n" && "4,1\n"[..3] == "4,1" && "4,1"[..2] == "4,";
    assert "4,"[..1] == "4" && "4"[..0] == "";
    assert Ascii("4,") == [52, 44];
    assert Ascii("4,0") == [52, 44, 48] && Ascii("4,1") == [52, 44, 49];
  }

  /** Digits are printed in lower case. */
  lemma DigitFormat(d: nat)
    requires d < 16
    ensures DigitChar(d) == HEX_DIGITS[d] as int
  {
  }

  // ---------------------------------------------------------------- the parser

  /** The callback's static variables. */
  datatype Parser = Parser(wrOff: word, wrData: word, inData: bool)

  const WAITING := Parser(0, 0, false)

  /** base[index] = value */
  datatype RegWrite = RegWrite(index: nat, value: word)

  /** x & ~0x20 */
  function ClearBit5(b: byte): byte { if (b / 32) % 2 == 1 then b - 32 else b }

  predicate IsDecimal(b: byte) { 48 <= b <= 57 }

  predicate IsHexLetter(b: byte) { 65 <= ClearBit5(b) <= 70 }

  /** x <<= 4; x += d; on 32 bits. */
  function Shift4(x: word, d: nat): word
    requires d < 16
  {
    (16 * x + d) % 0x1_0000_0000
  }

  function Digit(x: word, b: byte): word {
    if IsDecimal(b) then Shift4(x, b - 48)
    else if IsHexLetter(b) then Shift4(x, ClearBit5(b) - 65 + 10)
    else x
  }

  lemma DigitCodes(d: nat)
    requires d < 16
    ensures HEX_DIGITS[d] as int == (if d < 10 then 48 + d else 87 + d)
    ensures UPPER_DIGITS[d] as int == if d < 10 then 48 + d else 55 + d
  {
  }

  /** The parser appends a digit of either case, in 32 bits. */
  lemma DigitMeaning(x: word, b: byte, d: nat)
    requires d < 16 && (b == HEX_DIGITS[d] as int || b == UPPER_DIGITS[d] as int)
    ensures Digit(x, b) == (16 * x + d) % 0x1_0000_0000
  {
    DigitCodes(d);
  }

  /** It ignores every other byte. */
  lemma NoDigitMeaning(x: word, b: byte)
    requires forall d :: 0 <= d < 16 ==> b != HEX_DIGITS[d] as int && b != UPPER_DIGITS[d] as int
    ensures Digit(x, b) == x
  {
    if 48 <= b <= 57 {
      DigitCodes(b - 48);
    } else if 97 <= b <= 102 {
      DigitCodes(b - 87);
    } else if 65 <= b <= 70 {
      DigitCodes(b - 55);
    }
  }

  function Delim(p: Parser): byte { if p.inData then LF else COMMA }

  /** What one byte does. */
  function Eat(p: Parser, b: byte): Parser {
    if p.inData then if b == LF then WAITING else p.(wrData := Digit(p.wrData, b))
    else if b == COMMA then p.(inData := true) else p.(wrOff := Digit(p.wrOff, b))
  }

  function Emitted(p: Parser, b: byte): seq<RegWrite> {
    if p.inData && b == LF then [RegWrite(p.wrOff / 4, p.wrData)] else []
  }

  /** The byte as the callback leaves it in the buffer. */
  function Scrub(p: Parser, b: byte): byte { if b == Delim(p) || IsDecimal(b) then b else ClearBit5(b) }

  function EatAll(p: Parser, text: seq<byte>): Parser {
    if text == [] then p else Eat(EatAll(p, text[..|text| - 1]), text[|text| - 1])
  }

  function Writes(p: Parser, text: seq<byte>): seq<RegWrite> {
    if text == [] then []
    else
      var k := |text| - 1;
      Writes(p, text[..k]) + Emitted(EatAll(p, text[..k]), text[k])
  }

  lemma OneMoreByte(p: Parser, text: seq<byte>, i: nat)
    requires i < |text|
    ensures EatAll(p, text[..i + 1]) == Eat(EatAll(p, text[..i]), text[i])
    ensures Writes(p, text[..i + 1]) == Writes(p, text[..i]) + Emitted(EatAll(p, text[..i]), text[i])
  {
    assert text[..i + 1][..i] == text[..i];
  }

  class Receiver {
    var wrOff: word
    var wrData: word
    var inData: bool

    constructor ()
      ensures State() == WAITING
    {
      wrOff, wrData, inData := 0, 0, false;
    }

    function State(): Parser
      reads this
    {
      Parser(wrOff, wrData, inData)
    }

    /** The loop body: what one byte of the buffer does.  Returns the byte as it
        is left behind; letters are folded to upper case. */
    method EatByte(b: byte) returns (scrubbed: byte, writes: seq<RegWrite>)
      modifies this
      ensures State() == Eat(old(State()), b)
      ensures writes == Emitted(old(State()), b) && scrubbed == Scrub(old(State()), b)
    {
      writes := [];
      scrubbed := b;
      if !inData {
        if b == COMMA {
          inData := true;
        } else if IsDecimal(b) {
          wrOff := Shift4(wrOff, b - 48);
        } else {
          scrubbed := ClearBit5(b);
          if 65 <= scrubbed <= 70 {
            wrOff := Shift4(wrOff, scrubbed - 65 + 10);
          }
        }
      } else {
        if b == LF {
          inData := false;
          writes := [RegWrite(wrOff / 4, wrData)];
          wrData := 0;
          wrOff := 0;
        } else if IsDecimal(b) {
          wrData := Shift4(wrData, b - 48);
        } else {
          scrubbed := ClearBit5(b);
          if 65 <= scrubbed <= 70 {
            wrData := Shift4(wrData, scrubbed - 65 + 10);
          }
        }
      }
    }

    /** recv_callback's loop over one buffer, which it changes in place. */
    method RecvCallback(data: array<byte>) returns (writes: seq<RegWrite>)
      modifies this, data
      ensures State() == EatAll(old(State()), old(data[..]))
      ensures writes == Writes(old(State()), old(data[..]))
      ensures forall k :: 0 <= k < data.Length ==>
              data[k] == Scrub(EatAll(old(State()), old(data[..])[..k]), old(data[k]))
    {
      hide EatAll, Writes, Eat, Emitted, Scrub;
      writes := [];
      ghost var p, text := State(), data[..];
      NothingEaten(p);
      for i := 0 to data.Length
        invariant State() == EatAll(p, text[..i])
        invariant writes == Writes(p, text[..i])
        invariant forall k :: 0 <= k < i ==> data[k] == Scrub(EatAll(p, text[..k]), text[k])
        invariant forall k :: i <= k < data.Length ==> data[k] == text[k]
      {
        OneMoreByte(p, text, i);
        var scrubbed, ws := EatByte(data[i]);
        data[i] := scrubbed;
        writes := writes + ws;
      }
      assert text[..data.Length] == text;
    }
  }

  lemma NothingEaten(p: Parser)
    ensures EatAll(p, []) == p && Writes(p, []) == []
  {
  }

  // ------------------------------------------------------ any split of the text

  /** The state and the writes after a sequence of buffers. */
  function ReceiveAll(p: Parser, buffers: seq<seq<byte>>): (Parser, seq<RegWrite>)
    decreases |buffers|
  {
    if buffers == [] then (p, [])
    else
      var (q, later) := ReceiveAll(EatAll(p, buffers[0]), buffers[1..]);
      (q, Writes(p, buffers[0]) + later)
  }

  function Joined(buffers: seq<seq<byte>>): seq<byte> {
    if buffers == [] then [] else buffers[0] + Joined(buffers[1..])
  }

  lemma OneLast(p: Parser, front: seq<byte>, b: byte)
    ensures EatAll(p, front + [b]) == Eat(EatAll(p, front), b)
    ensures Writes(p, front + [b]) == Writes(p, front) + Emitted(EatAll(p, front), b)
  {
    assert (front + [b])[..|front|] == front;
  }

  lemma {:induction false} EatConcat(p: Parser, a: seq<byte>, b: seq<byte>)
    ensures EatAll(p, a + b) == EatAll(EatAll(p, a), b)
    ensures Writes(p, a + b) == Writes(p, a) + Writes(EatAll(p, a), b)
    decreases |b|
  {
    hide EatAll, Writes, Eat, Emitted;
    if b == [] {
      assert a + b == a;
      NothingEaten(EatAll(p, a));
    } else {
      var front, last := b[..|b| - 1], b[|b| - 1];
      EatConcat(p, a, front);
      OneLast(p, a + front, last);
      OneLast(EatAll(p, a), front, last);
      assert b == front + [last] && a + b == a + front + [last];
    }
  }

  /** The parser is resumable: how the byte stream is cut into buffers does not
      matter. */
  lemma {:induction false} SplitsDoNotMatter(p: Parser, buffers: seq<seq<byte>>)
    ensures ReceiveAll(p, buffers) == (EatAll(p, Joined(buffers)), Writes(p, Joined(buffers)))
    decreases |buffers|
  {
    if buffers != [] {
      EatConcat(p, buffers[0], Joined(buffers[1..]));
      SplitsDoNotMatter(EatAll(p, buffers[0]), buffers[1..]);
    }
  }

  // ---------------------------------------------------------- print then parse

  function Pow16(w: nat): (r: nat)
    ensures r > 0
  {
    if w == 0 then 1 else 16 * Pow16(w - 1)
  }

  lemma DigitIsRead(x: word, d: nat)
    requires d < 16 && 16 * x + d < 0x1_0000_0000
    ensures Digit(x, DigitChar(d)) == 16 * x + d
    ensures DigitChar(d) != LF && DigitChar(d) != COMMA
  {
  }

  lemma ShiftsAdd(x: nat, n: nat, w: nat)
    requires w > 0
    ensures 16 * (Pow16(w - 1) * x + n / 16) + n % 16 == Pow16(w) * x + n
  {
    assert Pow16(w) * x == 16 * (Pow16(w - 1) * x);
  }

  /** Printed digits are shifted into the value behind what is there already. */
  lemma {:induction false} HexIsRead(p: Parser, n: nat, w: nat)
    requires p.inData && Pow16(w) * p.wrData + n < 0x1_0000_0000 && n < Pow16(w)
    ensures EatAll(p, Hex(n, w)) == p.(wrData := Pow16(w) * p.wrData + n) && Writes(p, Hex(n, w)) == []
    decreases w
  {
    hide Digit, DigitChar;
    if w > 0 {
      ShiftsAdd(p.wrData, n, w);
      var front := Hex(n / 16, w - 1);
      HexIsRead(p, n / 16, w - 1);
      DigitIsRead(Pow16(w - 1) * p.wrData + n / 16, n % 16);
      OneLast(p, front, DigitChar(n % 16));
    }
  }

  /** "<reg>,<digits>\n\r" is one register write. */
  lemma FieldIsRead(reg: byte, off: word, digits: seq<byte>, v: word)
    requires Digit(0, reg) == off && reg != COMMA
    requires EatAll(Parser(off, 0, true), digits) == Parser(off, v, true) && Writes(Parser(off, 0, true), digits) == []
    ensures EatAll(WAITING, RegPrefix(reg) + digits + NEW_LINE) == WAITING
    ensures Writes(WAITING, RegPrefix(reg) + digits + NEW_LINE) == [RegWrite(off / 4, v)]
  {
    hide Digit;
    OneLast(WAITING, [], reg);
    OneLast(WAITING, [reg], COMMA);
    assert [] + [reg] == [reg] && [reg] + [COMMA] == RegPrefix(reg);
    EatConcat(WAITING, RegPrefix(reg), digits);
    var text := RegPrefix(reg) + digits;
    OneLast(WAITING, text, LF);
    OneLast(WAITING, text + [LF], CR);
    CarriageReturnIsIgnored();
    assert text + [LF] + [CR] == text + NEW_LINE;
  }

  lemma CarriageReturnIsIgnored()
    ensures Eat(WAITING, CR) == WAITING && Eat(WAITING, NUL) == WAITING
    ensures Emitted(WAITING, CR) == [] && Emitted(WAITING, NUL) == []
  {
  }

  function High(i: Insn): word { 0x1_0000 * i.code + 0x100 * i.jt + i.jf }

  lemma HighDigitsAreRead(i: Insn)
    ensures var p := Parser(12, 0, true); var digits := Hex(i.code, 4) + Hex(i.jt, 2) + Hex(i.jf, 2);
            EatAll(p, digits) == Parser(12, High(i), true) && Writes(p, digits) == []
  {
    hide Hex, EatAll, Writes;
    var p := Parser(12, 0, true);
    assert Pow16(2) == 0x100 && Pow16(4) == 0x1_0000;
    HexIsRead(p, i.code, 4);
    HexIsRead(p.(wrData := i.code), i.jt, 2);
    HexIsRead(p.(wrData := 0x100 * i.code + i.jt), i.jf, 2);
    EatConcat(p, Hex(i.code, 4), Hex(i.jt, 2));
    EatConcat(p, Hex(i.code, 4) + Hex(i.jt, 2), Hex(i.jf, 2));
  }

  lemma LowDigitsAreRead(i: Insn)
    ensures var p := Parser(8, 0, true); EatAll(p, Hex(i.k, 8)) == Parser(8, i.k, true) && Writes(p, Hex(i.k, 8)) == []
  {
    assert Pow16(4) == 0x1_0000;
    assert Pow16(8) == 0x1_0000 * Pow16(4);
    HexIsRead(Parser(8, 0, true), i.k, 8);
  }

  /** One printed instruction is two register writes, high word first. */
  lemma LineIsRead(i: Insn)
    ensures EatAll(WAITING, Line(i)) == WAITING
    ensures Writes(WAITING, Line(i)) == [RegWrite(3, High(i)), RegWrite(2, i.k)]
  {
    hide Hex, EatAll, Writes, High;
    assert Digit(0, 67) == 12 && Digit(0, 56) == 8;
    var highDigits := Hex(i.code, 4) + Hex(i.jt, 2) + Hex(i.jf, 2);
    HighDigitsAreRead(i);
    LowDigitsAreRead(i);
    FieldIsRead(67, 12, highDigits, High(i));
    FieldIsRead(56, 8, Hex(i.k, 8), i.k);
    var first, second := RegPrefix(67) + highDigits + NEW_LINE, RegPrefix(56) + Hex(i.k, 8) + NEW_LINE;
    EatConcat(WAITING, first, second);
    assert first + second == Line(i);
  }

  lemma ControlIsRead(start: byte)
    requires start == 48 || start == 49
    ensures EatAll(WAITING, ControlText(start)) == WAITING
    ensures Writes(WAITING, ControlText(start)) == [RegWrite(1, start - 48)]
  {
    assert Digit(0, 52) == 4;
    var p := Parser(4, 0, true);
    NothingEaten(p);
    OneLast(p, [], start);
    assert [] + [start] == [start];
    FieldIsRead(52, 4, [start], start - 48);
    OneLast(WAITING, RegPrefix(52) + [start] + NEW_LINE, NUL);
    CarriageReturnIsIgnored();
  }

  /** The register writes that load a program. */
  function LoadWrites(program: seq<Insn>): seq<RegWrite> {
    if program == [] then []
    else
      var i := program[|program| - 1];
      LoadWrites(program[..|program| - 1]) + [RegWrite(3, High(i)), RegWrite(2, i.k)]
  }

  function ProgramWrites(program: seq<Insn>): seq<RegWrite> {
    [RegWrite(1, 0)] + LoadWrites(program) + [RegWrite(1, 1)]
  }

  lemma {:induction false} LinesAreRead(program: seq<Insn>)
    ensures EatAll(WAITING, Lines(program)) == WAITING && Writes(WAITING, Lines(program)) == LoadWrites(program)
    decreases |program|
  {
    hide Line;
    if program == [] {
      NothingEaten(WAITING);
    } else {
      var k := |program| - 1;
      LinesAreRead(program[..k]);
      LineIsRead(program[k]);
      EatConcat(WAITING, Lines(program[..k]), Line(program[k]));
    }
  }

  /** Printing and parsing are inverse: whatever the split into buffers, the
      text of a program becomes exactly the register writes that load it, and
      the parser is ready for the next one. */
  lemma ProgramTextIsRead(program: seq<Insn>, buffers: seq<seq<byte>>)
    requires Joined(buffers) == ProgramText(program)
    ensures ReceiveAll(WAITING, buffers) == (WAITING, ProgramWrites(program))
  {
    hide EatAll, Writes, Lines, ControlText, LoadWrites;
    SplitsDoNotMatter(WAITING, buffers);
    ControlIsRead(48);
    ControlIsRead(49);
    LinesAreRead(program);
    EatConcat(WAITING, ControlText(48), Lines(program));
    EatConcat(WAITING, ControlText(48) + Lines(program), ControlText(49));
  }
}
