/** The opcode table of the 6502 core (src/inst.rs): one record per opcode byte,
    giving the mnemonic, the addressing mode, the instruction's length in bytes
    and its base cycle count. The rows are those the source lists, as written,
    including the ones that differ from the documented chip. */
module Inst {

  /** Addressing modes: the union of the two `AddrMode` enums of the source
      (src/inst.rs:1-17 and src/addr.rs:1-18), which brings in `ZeroY`, plus
      `AbsPlus`, which the table uses at 0x4D although neither enum declares it.
      A `Plus` mode is one whose page crossing may cost an extra cycle. */
  datatype AddrMode =
    | Acc | Imp | Imm | Zero | ZeroX | ZeroY | Abs | AbsPlus
    | AbsX | AbsXPlus | AbsY | AbsYPlus | Ind | IndX | IndY | IndYPlus | Rel

  /** The mnemonics the table names; `Illegal` is the source's "???". */
  datatype Mnemonic =
    | ADC | AND | ASL | BCC | BCS | BEQ | BIT | BMI | BNE | BPL | BRK | BVC | BVS | CLC
    | CLD | CLI | CLV | CMP | CPX | CPY | DEC | DEX | DEY | EOR | INC | INX | INY | JMP
    | JSR | LDA | LDX | LDY | LSR | NOP | ORA | PHA | PHP | PLA | PLP | ROL | ROR | RTI
    | RTS | SBC | SEC | SED | SEI | STA | STX | STY | TAX | TAY | TSX | TXA | TXS | TYA
    | Illegal

  /** One table row. `length` and `cycles` are `u8` in the source; every row's
      values are small (see `InstFacts.LengthsAndCyclesInRange`). */
  datatype Inst = Inst(mnemonic: Mnemonic, mode: AddrMode, length: nat, cycles: nat)

  /** Opcodes 0x00..0x0F (src/inst.rs:27-42). */
  const Row0: seq<Inst> := [
    Inst(BRK, Imp, 1, 7),         // 0x00
    Inst(ORA, IndX, 2, 6),        // 0x01
    Inst(Illegal, Imp, 2, 2),     // 0x02
    Inst(Illegal, Imp, 2, 8),     // 0x03
    Inst(NOP, Imp, 2, 3),         // 0x04
    Inst(ORA, Zero, 2, 3),        // 0x05
    Inst(ASL, Zero, 2, 5),        // 0x06
    Inst(Illegal, Imp, 2, 5),     // 0x07
    Inst(PHP, Imp, 1, 3),         // 0x08
    Inst(ORA, Imm, 2, 2),         // 0x09
    Inst(ASL, Acc, 1, 2),         // 0x0A
    Inst(Illegal, Imp, 2, 2),     // 0x0B
    Inst(NOP, Imp, 2, 4),         // 0x0C
    Inst(ORA, Abs, 3, 4),         // 0x0D
    Inst(ASL, Abs, 3, 6),         // 0x0E
    Inst(Illegal, Imp, 2, 6)      // 0x0F
  ]

  /** Opcodes 0x10..0x1F (src/inst.rs:44-59). */
  const Row1: seq<Inst> := [
    Inst(BPL, Rel, 2, 2),         // 0x10
    Inst(ORA, IndYPlus, 2, 5),    // 0x11
    Inst(Illegal, Imp, 2, 2),     // 0x12
    Inst(Illegal, Imp, 2, 8),     // 0x13
    Inst(NOP, Imp, 2, 4),         // 0x14
    Inst(ORA, ZeroX, 2, 4),       // 0x15
    Inst(ASL, ZeroX, 2, 6),       // 0x16
    Inst(Illegal, Imp, 2, 6),     // 0x17
    Inst(CLC, Imp, 1, 2),         // 0x18
    Inst(ORA, AbsYPlus, 3, 4),    // 0x19
    Inst(NOP, Imp, 2, 2),         // 0x1A
    Inst(Illegal, Imp, 2, 7),     // 0x1B
    Inst(NOP, Imp, 2, 4),         // 0x1C
    Inst(ORA, AbsXPlus, 3, 4),    // 0x1D
    Inst(ASL, AbsX, 3, 7),        // 0x1E
    Inst(Illegal, Imp, 2, 7)      // 0x1F
  ]

  /** Opcodes 0x20..0x2F (src/inst.rs:61-76). */
  const Row2: seq<Inst> := [
    Inst(JSR, Abs, 3, 6),         // 0x20
    Inst(AND, IndX, 2, 6),        // 0x21
    Inst(Illegal, Imp, 2, 2),     // 0x22
    Inst(Illegal, Imp, 2, 8),     // 0x23
    Inst(BIT, Zero, 2, 3),        // 0x24
    Inst(AND, Zero, 2, 3),        // 0x25
    Inst(ROL, Zero, 2, 5),        // 0x26
    Inst(Illegal, Imp, 2, 5),     // 0x27
    Inst(PLP, Imp, 1, 4),         // 0x28
    Inst(AND, Imm, 2, 2),         // 0x29
    Inst(ROL, Acc, 1, 2),         // 0x2A
    Inst(Illegal, Imp, 2, 2),     // 0x2B
    Inst(BIT, Abs, 3, 4),         // 0x2C
    Inst(AND, Abs, 3, 4),         // 0x2D
    Inst(ROL, Abs, 3, 6),         // 0x2E
    Inst(Illegal, Imp, 2, 6)      // 0x2F
  ]

  /** Opcodes 0x30..0x3F (src/inst.rs:78-93). */
  const Row3: seq<Inst> := [
    Inst(BMI, Rel, 2, 2),         // 0x30
    Inst(AND, IndYPlus, 2, 5),    // 0x31
    Inst(Illegal, Imp, 2, 2),     // 0x32
    Inst(Illegal, Imp, 2, 8),     // 0x33
    Inst(NOP, Imp, 2, 4),         // 0x34
    Inst(AND, ZeroX, 2, 4),       // 0x35
    Inst(ROL, ZeroX, 2, 6),       // 0x36
    Inst(Illegal, Imp, 2, 6),     // 0x37
    Inst(SEC, Imp, 1, 2),         // 0x38
    Inst(AND, AbsYPlus, 3, 4),    // 0x39
    Inst(NOP, Imp, 2, 2),         // 0x3A
    Inst(Illegal, Imp, 2, 7),     // 0x3B
    Inst(NOP, Imp, 2, 4),         // 0x3C
    Inst(AND, AbsXPlus, 3, 4),    // 0x3D
    Inst(ROL, AbsX, 3, 7),        // 0x3E
    Inst(Illegal, Imp, 2, 7)      // 0x3F
  ]

  /** Opcodes 0x40..0x4F (src/inst.rs:95-110). */
  const Row4: seq<Inst> := [
    Inst(RTI, Imp, 1, 6),         // 0x40
    Inst(EOR, IndX, 2, 6),        // 0x41
    Inst(Illegal, Imp, 2, 2),     // 0x42
    Inst(Illegal, Imp, 2, 8),     // 0x43
    Inst(NOP, Imp, 2, 3),         // 0x44
    Inst(EOR, Zero, 2, 3),        // 0x45
    Inst(LSR, Zero, 2, 5),        // 0x46
    Inst(Illegal, Imp, 2, 5),     // 0x47
    Inst(PHA, Imp, 1, 3),         // 0x48
    Inst(EOR, Imm, 2, 2),         // 0x49
    Inst(LSR, Acc, 1, 2),         // 0x4A
    Inst(Illegal, Imp, 2, 2),     // 0x4B
    Inst(JMP, Abs, 3, 3),         // 0x4C
    Inst(EOR, AbsPlus, 3, 4),     // 0x4D
    Inst(LSR, Abs, 3, 6),         // 0x4E
    Inst(Illegal, Imp, 2, 6)      // 0x4F
  ]

  /** Opcodes 0x50..0x5F (src/inst.rs:112-127). */
  const Row5: seq<Inst> := [
    Inst(BVC, Rel, 2, 2),         // 0x50
    Inst(EOR, IndYPlus, 2, 5),    // 0x51
    Inst(Illegal, Imp, 2, 2),     // 0x52
    Inst(Illegal, Imp, 2, 8),     // 0x53
    Inst(NOP, Imp, 2, 4),         // 0x54
    Inst(EOR, ZeroX, 2, 4),       // 0x55
    Inst(LSR, ZeroX, 2, 6),       // 0x56
    Inst(Illegal, Imp, 2, 6),     // 0x57
    Inst(CLI, Imp, 1, 2),         // 0x58
    Inst(EOR, AbsYPlus, 3, 4),    // 0x59
    Inst(NOP, Imp, 2, 2),         // 0x5A
    Inst(Illegal, Imp, 2, 7),     // 0x5B
    Inst(NOP, Imp, 2, 4),         // 0x5C
    Inst(EOR, AbsXPlus, 3, 4),    // 0x5D
    Inst(LSR, AbsX, 3, 7),        // 0x5E
    Inst(Illegal, Imp, 2, 7)      // 0x5F
  ]

  /** Opcodes 0x60..0x6F (src/inst.rs:129-144). */
  const Row6: seq<Inst> := [
    Inst(RTS, Imp, 1, 6),         // 0x60
    Inst(ADC, IndX, 2, 6),        // 0x61
    Inst(Illegal, Imp, 2, 2),     // 0x62
    Inst(Illegal, Imp, 2, 8),     // 0x63
    Inst(NOP, Imp, 2, 3),         // 0x64
    Inst(ADC, Zero, 2, 3),        // 0x65
    Inst(ROR, Zero, 2, 5),        // 0x66
    Inst(Illegal, Imp, 2, 5),     // 0x67
    Inst(PLA, Imp, 2, 4),         // 0x68
    Inst(ADC, Imm, 2, 2),         // 0x69
    Inst(ROR, Acc, 1, 2),         // 0x6A
    Inst(Illegal, Imp, 2, 2),     // 0x6B
    Inst(JMP, Ind, 3, 5),         // 0x6C
    Inst(ADC, Abs, 3, 4),         // 0x6D
    Inst(ROR, AbsX, 3, 7),        // 0x6E
    Inst(Illegal, Imp, 2, 6)      // 0x6F
  ]

  /** Opcodes 0x70..0x7F (src/inst.rs:146-161). */
  const Row7: seq<Inst> := [
    Inst(BVS, Rel, 2, 2),         // 0x70
    Inst(ADC, IndYPlus, 2, 5),    // 0x71
    Inst(Illegal, Imp, 2, 2),     // 0x72
    Inst(Illegal, Imp, 2, 8),     // 0x73
    Inst(NOP, Imp, 2, 4),         // 0x74
    Inst(ADC, ZeroX, 2, 4),       // 0x75
    Inst(ROR, ZeroX, 2, 6),       // 0x76
    Inst(Illegal, Imp, 2, 6),     // 0x77
    Inst(SEI, Imp, 1, 2),         // 0x78
    Inst(ADC, AbsYPlus, 3, 4),    // 0x79
    Inst(NOP, Imp, 2, 2),         // 0x7A
    Inst(Illegal, Imp, 2, 7),     // 0x7B
    Inst(NOP, Imp, 2, 4),         // 0x7C
    Inst(ADC, AbsXPlus, 3, 4),    // 0x7D
    Inst(ROR, Abs, 3, 6),         // 0x7E
    Inst(Illegal, Imp, 2, 7)      // 0x7F
  ]

  /** Opcodes 0x80..0x8F (src/inst.rs:163-178). */
  const Row8: seq<Inst> := [
    Inst(NOP, Imp, 2, 2),         // 0x80
    Inst(STA, IndX, 2, 6),        // 0x81
    Inst(NOP, Imp, 2, 2),         // 0x82
    Inst(Illegal, Imp, 2, 6),     // 0x83
    Inst(STY, Zero, 2, 3),        // 0x84
    Inst(STA, Zero, 2, 3),        // 0x85
    Inst(STX, Zero, 2, 3),        // 0x86
    Inst(Illegal, Imp, 2, 3),     // 0x87
    Inst(DEY, Imp, 1, 2),         // 0x88
    Inst(NOP, Imp, 2, 2),         // 0x89
    Inst(TXA, Imp, 1, 2),         // 0x8A
    Inst(Illegal, Imp, 2, 2),     // 0x8B
    Inst(STY, Abs, 3, 4),         // 0x8C
    Inst(STA, Abs, 3, 4),         // 0x8D
    Inst(STX, Abs, 3, 4),         // 0x8E
    Inst(Illegal, Imp, 2, 4)      // 0x8F
  ]

  /** Opcodes 0x90..0x9F (src/inst.rs:180-195). */
  const Row9: seq<Inst> := [
    Inst(BCC, Rel, 2, 2),         // 0x90
    Inst(STA, IndY, 2, 6),        // 0x91
    Inst(Illegal, Imp, 2, 2),     // 0x92
    Inst(Illegal, Imp, 2, 6),     // 0x93
    Inst(STY, ZeroX, 2, 4),       // 0x94
    Inst(STA, ZeroX, 2, 4),       // 0x95
    Inst(STX, ZeroY, 2, 4),       // 0x96
    Inst(Illegal, Imp, 2, 4),     // 0x97
    Inst(TYA, Imp, 1, 2),         // 0x98
    Inst(STA, AbsY, 3, 4),        // 0x99
    Inst(TXS, Imp, 1, 2),         // 0x9A
    Inst(Illegal, Imp, 2, 5),     // 0x9B
    Inst(Illegal, Imp, 2, 5),     // 0x9C
    Inst(STA, AbsX, 3, 5),        // 0x9D
    Inst(Illegal, Imp, 2, 5),     // 0x9E
    Inst(Illegal, Imp, 2, 5)      // 0x9F
  ]

  /** Opcodes 0xA0..0xAF (src/inst.rs:197-212). */
  const RowA: seq<Inst> := [
    Inst(LDY, Imm, 2, 2),         // 0xA0
    Inst(LDA, IndX, 2, 6),        // 0xA1
    Inst(LDX, Imm, 2, 2),         // 0xA2
    Inst(Illegal, Imp, 2, 6),     // 0xA3
    Inst(LDY, Zero, 2, 3),        // 0xA4
    Inst(LDA, Zero, 2, 3),        // 0xA5
    Inst(LDX, Zero, 2, 3),        // 0xA6
    Inst(Illegal, Imp, 2, 3),     // 0xA7
    Inst(TAY, Imp, 1, 2),         // 0xA8
    Inst(LDA, Imm, 2, 2),         // 0xA9
    Inst(TAX, Imp, 1, 2),         // 0xAA
    Inst(Illegal, Imp, 2, 2),     // 0xAB
    Inst(LDY, Abs, 3, 4),         // 0xAC
    Inst(LDA, Abs, 3, 4),         // 0xAD
    Inst(LDX, Abs, 3, 4),         // 0xAE
    Inst(Illegal, Imp, 3, 4)      // 0xAF
  ]

  /** Opcodes 0xB0..0xBF (src/inst.rs:214-229). */
  const RowB: seq<Inst> := [
    Inst(BCS, Rel, 2, 2),         // 0xB0
    Inst(LDA, IndYPlus, 2, 5),    // 0xB1
    Inst(Illegal, Imp, 2, 2),     // 0xB2
    Inst(Illegal, Imp, 2, 5),     // 0xB3
    Inst(LDY, ZeroX, 2, 4),       // 0xB4
    Inst(LDA, ZeroX, 2, 4),       // 0xB5
    Inst(LDX, ZeroY, 2, 4),       // 0xB6
    Inst(Illegal, Imp, 2, 6),     // 0xB7
    Inst(CLV, Imp, 1, 2),         // 0xB8
    Inst(LDA, AbsYPlus, 3, 4),    // 0xB9
    Inst(TSX, Imp, 1, 2),         // 0xBA
    Inst(Illegal, Imp, 2, 4),     // 0xBB
    Inst(LDY, AbsXPlus, 3, 4),    // 0xBC
    Inst(LDA, AbsXPlus, 3, 4),    // 0xBD
    Inst(LDX, AbsYPlus, 3, 4),    // 0xBE
    Inst(Illegal, Imp, 2, 4)      // 0xBF
  ]

  /** Opcodes 0xC0..0xCF (src/inst.rs:231-246). */
  const RowC: seq<Inst> := [
    Inst(CPY, Imm, 2, 2),         // 0xC0
    Inst(CMP, IndX, 2, 6),        // 0xC1
    Inst(NOP, Imp, 2, 2),         // 0xC2
    Inst(Illegal, Imp, 2, 8),     // 0xC3
    Inst(CPY, Zero, 2, 3),        // 0xC4
    Inst(CMP, Zero, 2, 3),        // 0xC5
    Inst(DEC, Zero, 2, 5),        // 0xC6
    Inst(Illegal, Imp, 2, 5),     // 0xC7
    Inst(INY, Imp, 1, 2),         // 0xC8
    Inst(CMP, Imm, 2, 2),         // 0xC9
    Inst(DEX, Imp, 1, 2),         // 0xCA
    Inst(Illegal, Imp, 2, 2),     // 0xCB
    Inst(CPY, Abs, 3, 4),         // 0xCC
    Inst(CMP, Abs, 3, 4),         // 0xCD
    Inst(DEC, Abs, 3, 6),         // 0xCE
    Inst(Illegal, Imp, 2, 7)      // 0xCF
  ]

  /** Opcodes 0xD0..0xDF (src/inst.rs:248-263). */
  const RowD: seq<Inst> := [
    Inst(BNE, Rel, 2, 2),         // 0xD0
    Inst(CMP, IndYPlus, 2, 5),    // 0xD1
    Inst(Illegal, Imp, 2, 2),     // 0xD2
    Inst(Illegal, Imp, 2, 8),     // 0xD3
    Inst(NOP, Imp, 2, 2),         // 0xD4
    Inst(CMP, ZeroX, 2, 4),       // 0xD5
    Inst(DEC, ZeroX, 2, 6),       // 0xD6
    Inst(Illegal, Imp, 2, 6),     // 0xD7
    Inst(CLD, Imp, 1, 2),         // 0xD8
    Inst(CMP, AbsYPlus, 3, 4),    // 0xD9
    Inst(NOP, Imp, 2, 2),         // 0xDA
    Inst(Illegal, Imp, 2, 7),     // 0xDB
    Inst(NOP, Imp, 2, 4),         // 0xDC
    Inst(CMP, AbsXPlus, 3, 4),    // 0xDD
    Inst(DEC, AbsX, 3, 7),        // 0xDE
    Inst(Illegal, Imp, 2, 7)      // 0xDF
  ]

  /** Opcodes 0xE0..0xEF (src/inst.rs:265-280). */
  const RowE: seq<Inst> := [
    Inst(CPX, Imm, 2, 2),         // 0xE0
    Inst(SBC, IndX, 2, 6),        // 0xE1
    Inst(NOP, Imp, 2, 2),         // 0xE2
    Inst(Illegal, Imp, 2, 8),     // 0xE3
    Inst(CPX, Zero, 2, 3),        // 0xE4
    Inst(SBC, Zero, 2, 3),        // 0xE5
    Inst(INC, Zero, 2, 5),        // 0xE6
    Inst(Illegal, Imp, 2, 5),     // 0xE7
    Inst(INX, Imp, 1, 2),         // 0xE8
    Inst(SBC, Imm, 2, 2),         // 0xE9
    Inst(NOP, Imp, 2, 2),         // 0xEA
    Inst(Illegal, Imp, 2, 2),     // 0xEB
    Inst(CPX, Abs, 3, 4),         // 0xEC
    Inst(SBC, Abs, 3, 4),         // 0xED
    Inst(INC, Abs, 3, 6),         // 0xEE
    Inst(Illegal, Imp, 2, 2)      // 0xEF
  ]

  /** Opcodes 0xF0..0xFF (src/inst.rs:282-297). */
  const RowF: seq<Inst> := [
    Inst(BEQ, Rel, 2, 2),         // 0xF0
    Inst(SBC, IndYPlus, 2, 5),    // 0xF1
    Inst(Illegal, Imp, 2, 2),     // 0xF2
    Inst(Illegal, Imp, 2, 8),     // 0xF3
    Inst(NOP, Imp, 2, 4),         // 0xF4
    Inst(SBC, ZeroX, 2, 4),       // 0xF5
    Inst(INC, ZeroX, 2, 6),       // 0xF6
    Inst(Illegal, Imp, 2, 6),     // 0xF7
    Inst(SED, Imp, 1, 2),         // 0xF8
    Inst(SBC, AbsYPlus, 3, 4),    // 0xF9
    Inst(NOP, Imp, 2, 2),         // 0xFA
    Inst(Illegal, Imp, 2, 7),     // 0xFB
    Inst(NOP, Imp, 2, 4),         // 0xFC
    Inst(SBC, AbsXPlus, 3, 4),    // 0xFD
    Inst(INC, AbsX, 3, 7),        // 0xFE
    Inst(Illegal, Imp, 2, 7)      // 0xFF
  ]

  /** The sixteen groups, in opcode order. */
  const Rows: seq<seq<Inst>> := [Row0, Row1, Row2, Row3, Row4, Row5, Row6, Row7, Row8, Row9, RowA, RowB, RowC, RowD, RowE, RowF]

  /** `INSTRUCTIONS`: row `op` is entry `op % 16` of group `op / 16`. The source
      declares the array as `[Inst; 151]` but lists 256 rows; the model holds
      the 256 rows. */
  const Instructions: seq<Inst> :=
    seq(256, op requires 0 <= op < 256 => Rows[op / 16][op % 16])

  /** Bytes of operand that follow the opcode in each addressing mode. */
  function OperandBytes(mode: AddrMode): nat
  {
    match mode
    case Acc | Imp => 0
    case Imm | Zero | ZeroX | ZeroY | IndX | IndY | IndYPlus | Rel => 1
    case Abs | AbsPlus | AbsX | AbsXPlus | AbsY | AbsYPlus | Ind => 2
  }

  /** Modes whose page crossing may add a cycle. */
  predicate IsPlus(mode: AddrMode)
  {
    mode.AbsPlus? || mode.AbsXPlus? || mode.AbsYPlus? || mode.IndYPlus?
  }

  /** The eight conditional branches. */
  predicate IsBranch(m: Mnemonic)
  {
    m.BPL? || m.BMI? || m.BVC? || m.BVS? || m.BCC? || m.BCS? || m.BNE? || m.BEQ?
  }

  /** Instructions that only read their operand from memory. */
  predicate IsRead(m: Mnemonic)
  {
    m.ORA? || m.AND? || m.EOR? || m.ADC? || m.LDA? || m.LDX? || m.LDY? || m.CMP? || m.SBC?
  }

  /** The shifts and rotates, the only instructions that may act on the accumulator. */
  predicate IsShift(m: Mnemonic)
  {
    m.ASL? || m.ROL? || m.LSR? || m.ROR?
  }

  /** Read-modify-write instructions on memory. */
  predicate IsReadModifyWrite(m: Mnemonic)
  {
    IsShift(m) || m.INC? || m.DEC?
  }
}
