/** The select encodings and the multiplexers in front of A, X and the program
    counter, which both datapaths have. */
module RegisterMuxes {
  import opened PacketRam
  import opened Isa

  // A register mux
  const A_SEL_IMM := 0
  const A_SEL_PACKET_MEM := 1
  const A_SEL_MEM := 3
  const A_SEL_LEN := 4
  const A_SEL_MSH := 5
  const A_SEL_ALU := 6
  const A_SEL_X := 7

  // X register mux
  const X_SEL_IMM := 0
  const X_SEL_PACKET_MEM := 1
  const X_SEL_MEM := 3
  const X_SEL_LEN := 4
  const X_SEL_MSH := 5
  const X_SEL_A := 7

  // program counter mux
  const PC_SEL_PLUS_1 := 0
  const PC_SEL_PLUS_JT := 1
  const PC_SEL_PLUS_JF := 2
  const PC_SEL_PLUS_IMM := 3

  function AMux(sel: nat, imm: word, packetData: word, scratchData: word, len: word, aluOut: word, x: word): word {
    match sel
    case 0 => imm
    case 1 => packetData
    case 2 => packetData
    case 3 => scratchData
    case 4 => len
    case 5 => Msh(imm)
    case 6 => aluOut
    case _ => x
  }

  function XMux(sel: nat, imm: word, packetData: word, scratchData: word, len: word, a: word): word {
    match sel
    case 0 => imm
    case 1 => packetData
    case 2 => packetData
    case 3 => scratchData
    case 4 => len
    case 5 => Msh(packetData)
    case 7 => a
    case _ => 0
  }

  function NextPc(pc: nat, sel: nat, i: Instr, imm2: word, depth: nat): nat
    requires depth > 0
  {
    match sel
    case 0 => Wrap(pc + 1, depth)
    case 1 => Wrap(pc + i.jt, depth)
    case 2 => Wrap(pc + i.jf, depth)
    case _ => Wrap(pc + imm2, depth)
  }
}
