# NES.rs 6502 CPU core: status flags, RAM and stack primitives, opcode table

This project models the parts of the NES.rs 6502 CPU core that have bodies in
the source. It also proves their properties in Dafny.

- `flags.dfy` (module `Flags`) covers the status register, `CpuFlags`. It holds eight
  stored booleans packed into one byte with N=bit 7, V=6, U=5, B=4, D=3, I=2,
  Z=1 and C=0. It defines `from_byte`, `to_byte`, `empty` and `set`, and proves
  both round trips.
- `inst.dfy` (module `Inst`) covers the 256 rows of the `INSTRUCTIONS` table.
  Each row is a mnemonic, an addressing mode, a byte length and a base cycle
  count. The rows are copied verbatim in 16 groups of 16, as the source lays
  them out. It also defines the number of operand bytes each mode consumes.
- `inst_facts.dfy` (module `InstFacts`) proves the structural facts about the
  table by enumerating all 256 opcodes. It also proves the facts about
  individual rows, including the rows that differ from the real chip.
- `cpu.dfy` (module `Cpu`) covers the `CPU` struct as a class. The class holds
  the registers, the flags and a 0x800-cell `array` of RAM. Its methods are
  `read`, `write`, `push`, `pull`, the in-place flag update and the
  bounds-checked opcode lookup of `execute`. Pure functions on the RAM image
  (`Load`, `Store`, `PushedRam`, `Pulled`) specify the methods. Lemmas on those
  functions give mirroring, read-after-write, push/pull and stack-wrap facts.

Modelling choices:

- Addresses and registers are the integer ranges `u16` and `u8`.
- `addr & 0x07FF` on a `u16` keeps the low eleven bits. That equals the
  remainder by 0x800, so the model writes it as `% 0x800`. `Cpu.MirrorIsMask`
  proves the two equal, with `&` defined bit by bit (`Cpu.BitAnd`).
- `sp -= 1` and `sp += 1` wrap modulo 256 (`WrappingDec`, `WrappingInc`), as
  they do in a release build.
- Addresses at or above 0x2000 reach a `todo!()` in the source. That is the
  `Aborts` outcome of `Outcome`.
- The flag byte manipulated by `from_byte`/`to_byte` is a `bv8`, because only
  bit operations touch it.

Where this code differs from the 6502 itself, the model follows the code:

- **Break flag.** On the 6502 the B bit is not stored in the status
  register; it exists only in the byte pushed by BRK or PHP. In this code
  `brk` is an ordinary field (src/cpu.rs:28), so the round trip is exact for
  all eight flags (`Flags.FromByteToByte`).
- **Unused flag.** On the 6502 bit 5 always reads as 1 in a pushed status
  byte. Here `to_byte` packs the stored `ignored` field as it is and does not
  force bit 5 to 1 (src/cpu.rs:81), so `to_byte(empty())` is 0
  (`Flags.EmptyIsZero`).
- **STA absolute,Y.** The 6502's documented timing for STA absolute,Y is 5
  cycles. src/inst.rs:189 lists 4 (`InstFacts.StaIndexedForms`).

These table rows are kept as written, and a lemma states each one:

- ROR `Abs` and `AbsX` are swapped (0x6E and 0x7E).
- PLA at 0x68 and the official NOP at 0xEA have length 2.
- The table is declared `[Inst; 151]`, but 256 rows are listed. All 256 are
  modelled.

`AddrMode` in `Inst` is the union of the two mode enums of the source plus
`AbsPlus`. The table uses `AbsPlus`, but neither enum declares it.

## Model

| member | source | states |
|---|---|---|
| Flags.Position | src/cpu.rs:36-46 | each flag occupies a bit below 8: N=7, V=6, U=5, B=4, D=3, I=2, Z=1, C=0 |
| Flags.PositionInjective | src/cpu.rs:36-46 | two flags with the same bit are the same flag |
| Flags.FromByte | src/cpu.rs:35-48 | every flag of the unpacked record equals the bit of the byte at that flag's position |
| Flags.ToByte | src/cpu.rs:76-87 | the bit of the packed byte at each flag's position is that flag's value |
| Flags.Empty | src/cpu.rs:50-61 | every flag is clear |
| Flags.Set | src/cpu.rs:63-74 | the chosen flag takes the new value and the other seven keep theirs |
| Flags.ToByteFromByte | src/cpu.rs:35-87 | packing after unpacking gives back every byte |
| Flags.FromByteToByte | src/cpu.rs:16-87 | unpacking after packing gives back every flag record, the break flag included |
| Flags.EmptyIsZero | src/cpu.rs:50-87 | the empty record packs to 0 |
| Flags.SetChangesOneBit | src/cpu.rs:63-87 | after `set`, the packed byte differs from before at most in the chosen flag's bit, which holds the new value |
| Inst.Instructions | src/inst.rs:26-298 | the 256 listed rows, verbatim and in opcode order |
| InstFacts.AllRowFacts | src/inst.rs:26-298 | the table has 256 rows, and every row satisfies the range, mode-length, relative, page-cross, indirect, accumulator and implied-length facts |
| InstFacts.LengthsAndCyclesInRange | src/inst.rs:27-297 | every row has length 1 to 3 and 2 to 8 base cycles |
| InstFacts.LengthMatchesMode | src/inst.rs:27-297 | every row whose mode is not `Imp` has length 1 plus its mode's operand bytes |
| InstFacts.RelativeOnlyForBranches | src/inst.rs:44-297 | a row has mode `Rel` exactly when its opcode is 0x10, 0x30, ..., 0xF0, and exactly when its mnemonic is one of the eight branches; each such row has length 2 and 2 cycles |
| InstFacts.PlusOnlyForReads | src/inst.rs:27-297 | a page-cross-eligible mode appears only with ORA, AND, EOR, ADC, LDA, LDX, LDY, CMP or SBC, with 5 cycles for `IndYPlus` and 4 otherwise |
| InstFacts.StaIndexedForms | src/inst.rs:180-195 | STA never uses a page-cross-eligible mode; 0x91 is STA `IndY` with 6 cycles, 0x99 is STA `AbsY` with 4 and 0x9D is STA `AbsX` with 5 |
| InstFacts.IndirectOnlyForJmp | src/inst.rs:141 | `Ind` is the mode of opcode 0x6C only, and that row is JMP with length 3 and 5 cycles |
| InstFacts.AccumulatorOnlyForShifts | src/inst.rs:37-139 | `Acc` is the mode of exactly 0x0A, 0x2A, 0x4A and 0x6A, which are ASL, ROL, LSR and ROR with length 1 and 2 cycles |
| InstFacts.ImpliedLengths | src/inst.rs:27-297 | every implied row other than NOP and `???` has length 1, save PLA (0x68) with length 2; NOP (0xEA) has length 2 |
| InstFacts.RorRowsSwapped | src/inst.rs:27-297 | in column 0x_E the read-modify-write rows use `Abs` with 6 cycles in even rows and `AbsX` with 7 in odd rows, except ROR, whose 0x6E is `AbsX` with 7 and 0x7E is `Abs` with 6 |
| Cpu.Mirror | src/cpu.rs:140 | the RAM cell of an address is below 0x800, and the address is a multiple of 0x800 plus that cell |
| Cpu.MirrorIsMask | src/cpu.rs:140 | the RAM cell `Mirror` gives is exactly `addr & 0x07FF` |
| Cpu.LowBitsMask | src/cpu.rs:140 | masking with 2^k - 1 keeps the low k bits: the number is 2^k times its shift right by k plus the masked part, which is below 2^k |
| Cpu.StackAddress | src/cpu.rs:158-159 | the stack slot of every stack pointer lies in 0x0100..0x01FF, inside the RAM region, and is its own RAM cell |
| Cpu.WrappingDec | src/cpu.rs:162 | `sp -= 1` is subtraction modulo 256 |
| Cpu.WrappingInc | src/cpu.rs:168 | `sp += 1` is addition modulo 256 |
| Cpu.Load | src/cpu.rs:138-145 | a read returns a value exactly for addresses below 0x2000, namely the RAM cell at the address modulo 0x800 |
| Cpu.Store | src/cpu.rs:147-151 | a write below 0x2000 changes exactly the RAM cell at the address modulo 0x800; any other write changes no cell |
| Cpu.LoadMirrored | src/cpu.rs:138-145 | every address below 0x1800 reads the same byte as the address 0x800 above it, and neither aborts |
| Cpu.LoadAfterStore | src/cpu.rs:138-151 | after a write below 0x2000, a read returns the written byte at every address sharing its RAM cell, the old byte at the other RAM addresses, and aborts above |
| Cpu.PushedRam | src/cpu.rs:157-163 | a push stores the byte at RAM index 0x0100 + sp and changes no other cell |
| Cpu.Pulled | src/cpu.rs:166-170 | the corrected pull returns the cell at 0x0100 + (sp + 1) mod 256 |
| Cpu.PulledAsWritten | src/cpu.rs:166-170 | the pull as written returns the cell at 0x0100 + the old sp |
| Cpu.PullAfterPush | src/cpu.rs:157-170 | a corrected pull right after a push returns the pushed byte and restores sp |
| Cpu.PullAsWrittenAfterPush | src/cpu.rs:157-170 | the pull as written right after a completed push (over the corrected `write`, sp moved down) returns the old content of the slot below the pushed one |
| Cpu.PullAsWrittenCounterexample | src/cpu.rs:157-170 | with zeroed RAM and sp = 0xFD, a completed push of 1 followed by the pull as written gives 0, while the corrected pull gives 1 |
| Cpu.PullAsWrittenAfterAbortedPush | src/cpu.rs:147-170 | with both functions as written, the push stores the byte but aborts before sp moves, so the pull as written reads that byte back |
| Cpu.PushAllStaysInStackPage | src/cpu.rs:157-163 | n pushes over the corrected `write` move sp down by n modulo 256 and change no RAM cell outside 0x0100..0x01FF |
| Cpu.EightPushesWrap | src/cpu.rs:157-163 | eight pushes over the corrected `write` from sp = 0x01 leave sp = 0xF9 and touch only the stack page |
| Cpu.CPU.constructor | src/cpu.rs:91-120 | builds a CPU whose registers, flags, opcode and 0x800-byte RAM are exactly the given ones |
| Cpu.CPU.SetFlag | src/cpu.rs:63-74 | `self.flags.set(flag, value)` updates only that flag of the CPU's status register, in place |
| Cpu.CPU.Read | src/cpu.rs:138-145 | `read` returns `Load` of the current RAM, and changes nothing |
| Cpu.CPU.WriteAsWritten | src/cpu.rs:147-154 | `write` as written performs the store of `Store` and then aborts on every call |
| Cpu.CPU.Write | src/cpu.rs:147-154 | the corrected `write` performs the store of `Store` and aborts exactly for addresses at or above 0x2000; no register changes |
| Cpu.CPU.Push | src/cpu.rs:157-163 | `push` over the corrected `write` leaves RAM equal to `PushedRam` of the old RAM and sp, and sp one lower modulo 256 |
| Cpu.CPU.PushAsWritten | src/cpu.rs:157-163 | `push` over `write` as written stores the byte, then aborts with sp unchanged |
| Cpu.CPU.PullAsWritten | src/cpu.rs:166-170 | `pull` as written raises sp by one modulo 256, returns `PulledAsWritten` of the old sp and leaves RAM unchanged |
| Cpu.CPU.Pull | src/cpu.rs:166-170 | the corrected `pull` raises sp by one modulo 256, returns `Pulled` of the old sp and leaves RAM unchanged |
| Cpu.CPU.Execute | src/cpu.rs:172-177 | the opcode lookup is always in bounds; the row found has length 1 to 3, 2 to 8 cycles, and a length matching its mode outside `Imp` |

## Left out

- The `CPU6502` instruction trait (src/inst.rs:301-417) and the `Addr6502` addressing trait (src/addr.rs:20-37). They declare methods without bodies, so there is nothing to model.
- The memory map at and above 0x2000 (PPU, APU, cartridge). In the source these accesses are `todo!()`, so here they are the `Aborts` outcome.
- `execute` beyond its table lookup. The source computes the row and does nothing with it; `Cpu.CPU.Execute` returns the row so that its properties can be stated.
- The `fetched`, `eff_addr`, `jump_offset` and `cycles` fields. No code in this core reads or writes them.
- Mnemonic strings as text. They are the `Mnemonic` enumeration, with `Illegal` for `"???"`.
- The debug-build overflow panic of `sp -= 1` at sp = 0 and `sp += 1` at sp = 0xFF. The model wraps, as a release build does.
- Flags.Set: `set(&mut self)` on the `Copy` struct is the functional update `Set`. The in-place update through the CPU is `Cpu.CPU.SetFlag`.

## Findings

| source | as written | input that shows it | evidently intended | confidence | as-written member | corrected member |
|---|---|---|---|---|---|---|
| src/cpu.rs:147-154 | `write` has no `return` after the RAM store, so control falls through to `todo!()` on every call | any `write(a, v)` with a < 0x2000, for example `push(1)` | return after the store, aborting only for a ≥ 0x2000 | high (not executed) | Cpu.CPU.WriteAsWritten | Cpu.CPU.Write |
| src/cpu.rs:166-170 | `pull` reads at 0x0100 + the old sp, the free slot, not the slot the last completed push wrote (0x0100 + sp + 1) | with `write` corrected as in the row above: zeroed RAM, sp = 0xFD, `push(1)` stores at 0x01FD and leaves sp = 0xFC; `pull()` then reads 0x01FC and returns 0. As written, `push` aborts before sp moves, and the pull returns the byte (`Cpu.PullAsWrittenAfterAbortedPush`) | increment sp, then read at 0x0100 + the new sp, so that pull returns the pushed byte | high (not executed) | Cpu.PullAsWrittenCounterexample | Cpu.PullAfterPush |
