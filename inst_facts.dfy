/** Facts about the opcode table, each established for all 256 rows by
    enumeration: the facts are checked on each group of sixteen rows, each
    group is located inside the table, and the groups are then put together. */
module InstFacts {
  import opened Inst

  /** Length 1..3 and base cycles 2..8. */
  predicate InRange(inst: Inst)
  {
    1 <= inst.length <= 3 && 2 <= inst.cycles <= 8
  }

  /** Outside `Imp`, the length is the opcode byte plus the mode's operand bytes. */
  predicate LengthFitsMode(inst: Inst)
  {
    !inst.mode.Imp? ==> inst.length == 1 + OperandBytes(inst.mode)
  }

  /** `Rel` is used by exactly the branches, which sit at the opcodes 0x10, 0x30, ..., 0xF0,
      each two bytes long and two cycles. */
  predicate RelativeFacts(op: nat, inst: Inst)
  {
    && (inst.mode.Rel? <==> op % 0x20 == 0x10)
    && (inst.mode.Rel? <==> IsBranch(inst.mnemonic))
    && (inst.mode.Rel? ==> inst.length == 2 && inst.cycles == 2)
  }

  /** The `Plus` modes serve only read instructions, with 4 base cycles for the
      absolute forms and 5 for `IndYPlus`. */
  predicate PlusFacts(inst: Inst)
  {
    IsPlus(inst.mode) ==>
      IsRead(inst.mnemonic) && inst.cycles == (if inst.mode.IndYPlus? then 5 else 4)
  }

  /** `Ind` occurs only at 0x6C, as JMP of length 3 and 5 cycles. */
  predicate IndirectFacts(op: nat, inst: Inst)
  {
    && (inst.mode.Ind? <==> op == 0x6C)
    && (inst.mode.Ind? ==> inst.mnemonic.JMP? && inst.length == 3 && inst.cycles == 5)
  }

  /** `Acc` occurs only at 0x0A, 0x2A, 0x4A and 0x6A, for the shifts, with length 1 and 2 cycles. */
  predicate AccumulatorFacts(op: nat, inst: Inst)
  {
    && (inst.mode.Acc? <==> op == 0x0A || op == 0x2A || op == 0x4A || op == 0x6A)
    && (inst.mode.Acc? ==> IsShift(inst.mnemonic) && inst.length == 1 && inst.cycles == 2)
  }

  /** Documented implied instructions are one byte long, except PLA at 0x68,
      which the source lists with length 2. */
  predicate ImpliedLength(op: nat, inst: Inst)
  {
    inst.mode.Imp? && !inst.mnemonic.NOP? && !inst.mnemonic.Illegal? ==>
      (inst.length == 1 <==> op != 0x68)
  }

  /** The read-modify-write instructions of the column 0x_E take `Abs` in even
      rows and `AbsX` in odd rows, with 6 cycles for `Abs` and 7 for `AbsX`,
      except that the source swaps ROR's two rows: 0x6E is `AbsX` and 0x7E is `Abs`. */
  predicate AbsoluteColumnFacts(op: nat, inst: Inst)
  {
    op % 0x10 == 0xE && IsReadModifyWrite(inst.mnemonic) ==>
      var evenRow := (op / 0x10) % 2 == 0;
      var swapped := op == 0x6E || op == 0x7E;
      && (if evenRow != swapped then inst.mode.Abs? else inst.mode.AbsX?)
      && inst.cycles == (if inst.mode.Abs? then 6 else 7)
  }

  /** Facts about a row alone. */
  predicate EntryFacts(inst: Inst)
  {
    InRange(inst) && LengthFitsMode(inst) && PlusFacts(inst)
  }

  /** Facts tying modes to the opcodes they occur at. */
  predicate PlacementFacts(op: nat, inst: Inst)
  {
    RelativeFacts(op, inst) && IndirectFacts(op, inst) && AccumulatorFacts(op, inst)
  }

  /** Facts about the rows that differ from the documented chip. */
  predicate QuirkFacts(op: nat, inst: Inst)
  {
    ImpliedLength(op, inst) && AbsoluteColumnFacts(op, inst)
  }

  /** Everything the enumeration establishes about the row of opcode `op`. */
  predicate RowFacts(op: nat, inst: Inst)
  {
    EntryFacts(inst) && PlacementFacts(op, inst) && QuirkFacts(op, inst)
  }

  // Opcodes 0x00..0x0F, src/inst.rs:27-42.
  lemma Row0Entries()
    ensures forall j | 0 <= j < 16 :: EntryFacts(Row0[j])
  {
  }

  lemma Row0Placement()
    ensures forall j | 0 <= j < 16 :: PlacementFacts(0x00 + j, Row0[j])
  {
  }

  lemma Row0Quirks()
    ensures forall j | 0 <= j < 16 :: QuirkFacts(0x00 + j, Row0[j])
  {
  }

  lemma Row0Index()
    ensures forall op | 0x00 <= op < 0x00 + 16 :: Instructions[op] == Row0[op - 0x00]
  {
  }

  lemma Row0Table()
    ensures forall op | 0x00 <= op < 0x00 + 16 :: RowFacts(op, Instructions[op])
  {
    Row0Entries();
    Row0Placement();
    Row0Quirks();
    Row0Index();
  }

  // Opcodes 0x10..0x1F, src/inst.rs:44-59.
  lemma Row1Entries()
    ensures forall j | 0 <= j < 16 :: EntryFacts(Row1[j])
  {
  }

  lemma Row1Placement()
    ensures forall j | 0 <= j < 16 :: PlacementFacts(0x10 + j, Row1[j])
  {
  }

  lemma Row1Quirks()
    ensures forall j | 0 <= j < 16 :: QuirkFacts(0x10 + j, Row1[j])
  {
  }

  lemma Row1Index()
    ensures forall op | 0x10 <= op < 0x10 + 16 :: Instructions[op] == Row1[op - 0x10]
  {
  }

  lemma Row1Table()
    ensures forall op | 0x10 <= op < 0x10 + 16 :: RowFacts(op, Instructions[op])
  {
    Row1Entries();
    Row1Placement();
    Row1Quirks();
    Row1Index();
  }

  // Opcodes 0x20..0x2F, src/inst.rs:61-76.
  lemma Row2Entries()
    ensures forall j | 0 <= j < 16 :: EntryFacts(Row2[j])
  {
  }

  lemma Row2Placement()
    ensures forall j | 0 <= j < 16 :: PlacementFacts(0x20 + j, Row2[j])
  {
  }

  lemma Row2Quirks()
    ensures forall j | 0 <= j < 16 :: QuirkFacts(0x20 + j, Row2[j])
  {
  }

  lemma Row2Index()
    ensures forall op | 0x20 <= op < 0x20 + 16 :: Instructions[op] == Row2[op - 0x20]
  {
  }

  lemma Row2Table()
    ensures forall op | 0x20 <= op < 0x20 + 16 :: RowFacts(op, Instructions[op])
  {
    Row2Entries();
    Row2Placement();
    Row2Quirks();
    Row2Index();
  }

  // Opcodes 0x30..0x3F, src/inst.rs:78-93.
  lemma Row3Entries()
    ensures forall j | 0 <= j < 16 :: EntryFacts(Row3[j])
  {
  }

  lemma Row3Placement()
    ensures forall j | 0 <= j < 16 :: PlacementFacts(0x30 + j, Row3[j])
  {
  }

  lemma Row3Quirks()
    ensures forall j | 0 <= j < 16 :: QuirkFacts(0x30 + j, Row3[j])
  {
  }

  lemma Row3Index()
    ensures forall op | 0x30 <= op < 0x30 + 16 :: Instructions[op] == Row3[op - 0x30]
  {
  }

  lemma Row3Table()
    ensures forall op | 0x30 <= op < 0x30 + 16 :: RowFacts(op, Instructions[op])
  {
    Row3Entries();
    Row3Placement();
    Row3Quirks();
    Row3Index();
  }

  // Opcodes 0x40..0x4F, src/inst.rs:95-110.
  lemma Row4Entries()
    ensures forall j | 0 <= j < 16 :: EntryFacts(Row4[j])
  {
  }

  lemma Row4Placement()
    ensures forall j | 0 <= j < 16 :: PlacementFacts(0x40 + j, Row4[j])
  {
  }

  lemma Row4Quirks()
    ensures forall j | 0 <= j < 16 :: QuirkFacts(0x40 + j, Row4[j])
  {
  }

  lemma Row4Index()
    ensures forall op | 0x40 <= op < 0x40 + 16 :: Instructions[op] == Row4[op - 0x40]
  {
  }

  lemma Row4Table()
    ensures forall op | 0x40 <= op < 0x40 + 16 :: RowFacts(op, Instructions[op])
  {
    Row4Entries();
    Row4Placement();
    Row4Quirks();
    Row4Index();
  }

  // Opcodes 0x50..0x5F, src/inst.rs:112-127.
  lemma Row5Entries()
    ensures forall j | 0 <= j < 16 :: EntryFacts(Row5[j])
  {
  }

  lemma Row5Placement()
    ensures forall j | 0 <= j < 16 :: PlacementFacts(0x50 + j, Row5[j])
  {
  }

  lemma Row5Quirks()
    ensures forall j | 0 <= j < 16 :: QuirkFacts(0x50 + j, Row5[j])
  {
  }

  lemma Row5Index()
    ensures forall op | 0x50 <= op < 0x50 + 16 :: Instructions[op] == Row5[op - 0x50]
  {
  }

  lemma Row5Table()
    ensures forall op | 0x50 <= op < 0x50 + 16 :: RowFacts(op, Instructions[op])
  {
    Row5Entries();
    Row5Placement();
    Row5Quirks();
    Row5Index();
  }

  // Opcodes 0x60..0x6F, src/inst.rs:129-144.
  lemma Row6Entries()
    ensures forall j | 0 <= j < 16 :: EntryFacts(Row6[j])
  {
  }

  lemma Row6Placement()
    ensures forall j | 0 <= j < 16 :: PlacementFacts(0x60 + j, Row6[j])
  {
  }

  lemma Row6Quirks()
    ensures forall j | 0 <= j < 16 :: QuirkFacts(0x60 + j, Row6[j])
  {
  }

  lemma Row6Index()
    ensures forall op | 0x60 <= op < 0x60 + 16 :: Instructions[op] == Row6[op - 0x60]
  {
  }

  lemma Row6Table()
    ensures forall op | 0x60 <= op < 0x60 + 16 :: RowFacts(op, Instructions[op])
  {
    Row6Entries();
    Row6Placement();
    Row6Quirks();
    Row6Index();
  }

  // Opcodes 0x70..0x7F, src/inst.rs:146-161.
  lemma Row7Entries()
    ensures forall j | 0 <= j < 16 :: EntryFacts(Row7[j])
  {
  }

  lemma Row7Placement()
    ensures forall j | 0 <= j < 16 :: PlacementFacts(0x70 + j, Row7[j])
  {
  }

  lemma Row7Quirks()
    ensures forall j | 0 <= j < 16 :: QuirkFacts(0x70 + j, Row7[j])
  {
  }

  lemma Row7Index()
    ensures forall op | 0x70 <= op < 0x70 + 16 :: Instructions[op] == Row7[op - 0x70]
  {
  }

  lemma Row7Table()
    ensures forall op | 0x70 <= op < 0x70 + 16 :: RowFacts(op, Instructions[op])
  {
    Row7Entries();
    Row7Placement();
    Row7Quirks();
    Row7Index();
  }

  // Opcodes 0x80..0x8F, src/inst.rs:163-178.
  lemma Row8Entries()
    ensures forall j | 0 <= j < 16 :: EntryFacts(Row8[j])
  {
  }

  lemma Row8Placement()
    ensures forall j | 0 <= j < 16 :: PlacementFacts(0x80 + j, Row8[j])
  {
  }

  lemma Row8Quirks()
    ensures forall j | 0 <= j < 16 :: QuirkFacts(0x80 + j, Row8[j])
  {
  }

  lemma Row8Index()
    ensures forall op | 0x80 <= op < 0x80 + 16 :: Instructions[op] == Row8[op - 0x80]
  {
  }

  lemma Row8Table()
    ensures forall op | 0x80 <= op < 0x80 + 16 :: RowFacts(op, Instructions[op])
  {
    Row8Entries();
    Row8Placement();
    Row8Quirks();
    Row8Index();
  }

  // Opcodes 0x90..0x9F, src/inst.rs:180-195.
  lemma Row9Entries()
    ensures forall j | 0 <= j < 16 :: EntryFacts(Row9[j])
  {
  }

  lemma Row9Placement()
    ensures forall j | 0 <= j < 16 :: PlacementFacts(0x90 + j, Row9[j])
  {
  }

  lemma Row9Quirks()
    ensures forall j | 0 <= j < 16 :: QuirkFacts(0x90 + j, Row9[j])
  {
  }

  lemma Row9Index()
    ensures forall op | 0x90 <= op < 0x90 + 16 :: Instructions[op] == Row9[op - 0x90]
  {
  }

  lemma Row9Table()
    ensures forall op | 0x90 <= op < 0x90 + 16 :: RowFacts(op, Instructions[op])
  {
    Row9Entries();
    Row9Placement();
    Row9Quirks();
    Row9Index();
  }

  // Opcodes 0xA0..0xAF, src/inst.rs:197-212.
  lemma RowAEntries()
    ensures forall j | 0 <= j < 16 :: EntryFacts(RowA[j])
  {
  }

  lemma RowAPlacement()
    ensures forall j | 0 <= j < 16 :: PlacementFacts(0xA0 + j, RowA[j])
  {
  }

  lemma RowAQuirks()
    ensures forall j | 0 <= j < 16 :: QuirkFacts(0xA0 + j, RowA[j])
  {
  }

  lemma RowAIndex()
    ensures forall op | 0xA0 <= op < 0xA0 + 16 :: Instructions[op] == RowA[op - 0xA0]
  {
  }

  lemma RowATable()
    ensures forall op | 0xA0 <= op < 0xA0 + 16 :: RowFacts(op, Instructions[op])
  {
    RowAEntries();
    RowAPlacement();
    RowAQuirks();
    RowAIndex();
  }

  // Opcodes 0xB0..0xBF, src/inst.rs:214-229.
  lemma RowBEntries()
    ensures forall j | 0 <= j < 16 :: EntryFacts(RowB[j])
  {
  }

  lemma RowBPlacement()
    ensures forall j | 0 <= j < 16 :: PlacementFacts(0xB0 + j, RowB[j])
  {
  }

  lemma RowBQuirks()
    ensures forall j | 0 <= j < 16 :: QuirkFacts(0xB0 + j, RowB[j])
  {
  }

  lemma RowBIndex()
    ensures forall op | 0xB0 <= op < 0xB0 + 16 :: Instructions[op] == RowB[op - 0xB0]
  {
  }

  lemma RowBTable()
    ensures forall op | 0xB0 <= op < 0xB0 + 16 :: RowFacts(op, Instructions[op])
  {
    RowBEntries();
    RowBPlacement();
    RowBQuirks();
    RowBIndex();
  }

  // Opcodes 0xC0..0xCF, src/inst.rs:231-246.
  lemma RowCEntries()
    ensures forall j | 0 <= j < 16 :: EntryFacts(RowC[j])
  {
  }

  lemma RowCPlacement()
    ensures forall j | 0 <= j < 16 :: PlacementFacts(0xC0 + j, RowC[j])
  {
  }

  lemma RowCQuirks()
    ensures forall j | 0 <= j < 16 :: QuirkFacts(0xC0 + j, RowC[j])
  {
  }

  lemma RowCIndex()
    ensures forall op | 0xC0 <= op < 0xC0 + 16 :: Instructions[op] == RowC[op - 0xC0]
  {
  }

  lemma RowCTable()
    ensures forall op | 0xC0 <= op < 0xC0 + 16 :: RowFacts(op, Instructions[op])
  {
    RowCEntries();
    RowCPlacement();
    RowCQuirks();
    RowCIndex();
  }

  // Opcodes 0xD0..0xDF, src/inst.rs:248-263.
  lemma RowDEntries()
    ensures forall j | 0 <= j < 16 :: EntryFacts(RowD[j])
  {
  }

  lemma RowDPlacement()
    ensures forall j | 0 <= j < 16 :: PlacementFacts(0xD0 + j, RowD[j])
  {
  }

  lemma RowDQuirks()
    ensures forall j | 0 <= j < 16 :: QuirkFacts(0xD0 + j, RowD[j])
  {
  }

  lemma RowDIndex()
    ensures forall op | 0xD0 <= op < 0xD0 + 16 :: Instructions[op] == RowD[op - 0xD0]
  {
  }

  lemma RowDTable()
    ensures forall op | 0xD0 <= op < 0xD0 + 16 :: RowFacts(op, Instructions[op])
  {
    RowDEntries();
    RowDPlacement();
    RowDQuirks();
    RowDIndex();
  }

  // Opcodes 0xE0..0xEF, src/inst.rs:265-280.
  lemma RowEEntries()
    ensures forall j | 0 <= j < 16 :: EntryFacts(RowE[j])
  {
  }

  lemma RowEPlacement()
    ensures forall j | 0 <= j < 16 :: PlacementFacts(0xE0 + j, RowE[j])
  {
  }

  lemma RowEQuirks()
    ensures forall j | 0 <= j < 16 :: QuirkFacts(0xE0 + j, RowE[j])
  {
  }

  lemma RowEIndex()
    ensures forall op | 0xE0 <= op < 0xE0 + 16 :: Instructions[op] == RowE[op - 0xE0]
  {
  }

  lemma RowETable()
    ensures forall op | 0xE0 <= op < 0xE0 + 16 :: RowFacts(op, Instructions[op])
  {
    RowEEntries();
    RowEPlacement();
    RowEQuirks();
    RowEIndex();
  }

  // Opcodes 0xF0..0xFF, src/inst.rs:282-297.
  lemma RowFEntries()
    ensures forall j | 0 <= j < 16 :: EntryFacts(RowF[j])
  {
  }

  lemma RowFPlacement()
    ensures forall j | 0 <= j < 16 :: PlacementFacts(0xF0 + j, RowF[j])
  {
  }

  lemma RowFQuirks()
    ensures forall j | 0 <= j < 16 :: QuirkFacts(0xF0 + j, RowF[j])
  {
  }

  lemma RowFIndex()
    ensures forall op | 0xF0 <= op < 0xF0 + 16 :: Instructions[op] == RowF[op - 0xF0]
  {
  }

  lemma RowFTable()
    ensures forall op | 0xF0 <= op < 0xF0 + 16 :: RowFacts(op, Instructions[op])
  {
    RowFEntries();
    RowFPlacement();
    RowFQuirks();
    RowFIndex();
  }

  /** Every one of the 256 rows satisfies `RowFacts`. */
  lemma AllRowFacts()
    ensures |Instructions| == 256
    ensures forall op | 0 <= op < |Instructions| :: RowFacts(op, Instructions[op])
  {
    Row0Table();
    Row1Table();
    Row2Table();
    Row3Table();
    Row4Table();
    Row5Table();
    Row6Table();
    Row7Table();
    Row8Table();
    Row9Table();
    RowATable();
    RowBTable();
    RowCTable();
    RowDTable();
    RowETable();
    RowFTable();
  }

  /** Every row is one to three bytes long and takes two to eight base cycles. */
  lemma LengthsAndCyclesInRange()
    ensures forall op | 0 <= op < |Instructions| ::
      1 <= Instructions[op].length <= 3 && 2 <= Instructions[op].cycles <= 8
  {
    AllRowFacts();
  }

  /** Every row outside `Imp` is as long as its opcode byte plus the operand
      bytes of its mode. */
  lemma LengthMatchesMode()
    ensures forall op | 0 <= op < |Instructions| ::
      Instructions[op].mode != Imp ==>
        Instructions[op].length == 1 + OperandBytes(Instructions[op].mode)
  {
    AllRowFacts();
  }

  /** `Rel` is the mode of exactly the eight branches, at exactly the opcodes
      0x10, 0x30, ..., 0xF0, and each of them is two bytes and two cycles. */
  lemma RelativeOnlyForBranches()
    ensures forall op | 0 <= op < |Instructions| ::
      (Instructions[op].mode == Rel <==> op % 0x20 == 0x10)
    ensures forall op | 0 <= op < |Instructions| ::
      (Instructions[op].mode == Rel <==> IsBranch(Instructions[op].mnemonic))
    ensures forall op | 0 <= op < |Instructions| :: Instructions[op].mode == Rel ==>
      Instructions[op].length == 2 && Instructions[op].cycles == 2
  {
    AllRowFacts();
  }

  /** The page-cross-eligible modes serve only the read instructions ORA, AND,
      EOR, ADC, LDA, LDX, LDY, CMP and SBC, with 4 base cycles for the absolute
      forms and 5 for `IndYPlus`. */
  lemma PlusOnlyForReads()
    ensures forall op | 0 <= op < |Instructions| :: IsPlus(Instructions[op].mode) ==>
      && IsRead(Instructions[op].mnemonic)
      && Instructions[op].cycles == (if Instructions[op].mode == IndYPlus then 5 else 4)
  {
    AllRowFacts();
  }

  /** STA never uses a page-cross-eligible mode; its indexed forms have fixed
      cycle counts: `IndY` 6, `AbsX` 5, and `AbsY` 4 as the source lists it. */
  lemma StaIndexedForms()
    ensures forall op | 0 <= op < |Instructions| ::
      Instructions[op].mnemonic == STA ==> !IsPlus(Instructions[op].mode)
    ensures Instructions[0x91] == Inst(STA, IndY, 2, 6)
    ensures Instructions[0x99] == Inst(STA, AbsY, 3, 4)
    ensures Instructions[0x9D] == Inst(STA, AbsX, 3, 5)
  {
    PlusOnlyForReads();
    Row9Index();
  }

  /** `Ind` occurs only at 0x6C, the JMP of length 3 and 5 cycles. */
  lemma IndirectOnlyForJmp()
    ensures forall op | 0 <= op < |Instructions| :: (Instructions[op].mode == Ind <==> op == 0x6C)
    ensures Instructions[0x6C] == Inst(JMP, Ind, 3, 5)
  {
    AllRowFacts();
  }

  /** `Acc` occurs only at 0x0A, 0x2A, 0x4A and 0x6A, for ASL, ROL, LSR and ROR,
      each of length 1 and 2 cycles. */
  lemma AccumulatorOnlyForShifts()
    ensures forall op | 0 <= op < |Instructions| ::
      (Instructions[op].mode == Acc <==> op == 0x0A || op == 0x2A || op == 0x4A || op == 0x6A)
    ensures Instructions[0x0A] == Inst(ASL, Acc, 1, 2)
    ensures Instructions[0x2A] == Inst(ROL, Acc, 1, 2)
    ensures Instructions[0x4A] == Inst(LSR, Acc, 1, 2)
    ensures Instructions[0x6A] == Inst(ROR, Acc, 1, 2)
  {
    forall op | 0 <= op < |Instructions|
      ensures Instructions[op].mode == Acc <==> op == 0x0A || op == 0x2A || op == 0x4A || op == 0x6A
    {
      AllRowFacts();
    }
    Row0Index();
    Row2Index();
    Row4Index();
    Row6Index();
  }

  /** The documented implied instructions are one byte long, except PLA at
      0x68, which the source lists with length 2; the official NOP at 0xEA is
      also listed with length 2. */
  lemma ImpliedLengths()
    ensures forall op | 0 <= op < |Instructions| ::
      Instructions[op].mode == Imp && Instructions[op].mnemonic !in {NOP, Illegal} ==>
        (Instructions[op].length == 1 <==> op != 0x68)
    ensures Instructions[0x68] == Inst(PLA, Imp, 2, 4)
    ensures Instructions[0xEA] == Inst(NOP, Imp, 2, 2)
  {
    assert forall op | 0 <= op < |Instructions| ::
      Instructions[op].mode == Imp && Instructions[op].mnemonic !in {NOP, Illegal} ==>
        (Instructions[op].length == 1 <==> op != 0x68)
    by {
      AllRowFacts();
    }
    Row6Index();
    RowEIndex();
  }

  /** In the column 0x_E the read-modify-write instructions use `Abs` (6 cycles)
      in even rows and `AbsX` (7 cycles) in odd rows, except ROR, whose two rows
      the source swaps: 0x6E is listed as `AbsX` with 7 cycles and 0x7E as `Abs`
      with 6. */
  lemma RorRowsSwapped()
    ensures forall op | 0 <= op < |Instructions| ::
      op % 0x10 == 0xE && IsReadModifyWrite(Instructions[op].mnemonic) && op != 0x6E && op != 0x7E ==>
        Instructions[op].mode == (if (op / 0x10) % 2 == 0 then Abs else AbsX)
    ensures forall op | 0 <= op < |Instructions| ::
      op % 0x10 == 0xE && IsReadModifyWrite(Instructions[op].mnemonic) ==>
        Instructions[op].cycles == (if Instructions[op].mode == Abs then 6 else 7)
    ensures Instructions[0x6E] == Inst(ROR, AbsX, 3, 7)
    ensures Instructions[0x7E] == Inst(ROR, Abs, 3, 6)
  {
    AllRowFacts();
  }
}
