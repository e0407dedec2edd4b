/** The CPU state of the 6502 core and its memory and stack primitives
    (src/cpu.rs, `CPU`). Addresses and registers are the integer ranges `u16`
    and `u8`; the stack pointer's `-= 1` and `+= 1` wrap modulo 256, as they do
    in a release build. The `todo!()` panics for the unmapped part of the
    memory map are the `Aborts` outcome. */
module Cpu {
  import opened Flags
  import opened Inst
  import InstFacts

  newtype u8 = x: int | 0 <= x < 0x100
  newtype u16 = x: int | 0 <= x < 0x1_0000

  /** Size of the internal RAM: 2 KiB. */
  const RamSize: nat := 0x800

  /** First address that is not served by the internal RAM or its mirrors. */
  const RamRegionEnd: u16 := 0x2000

  /** The result of an operation that either returns or reaches a `todo!()`. */
  datatype Outcome<T> = Returns(value: T) | Aborts

  /** `x - 1` on a `u8`, wrapping from 0x00 to 0xFF. */
  function WrappingDec(b: u8): (r: u8)
    ensures r as int == (b as int - 1) % 0x100
  {
    if b == 0 then 0xFF else b - 1
  }

  /** `x + 1` on a `u8`, wrapping from 0xFF to 0x00. */
  function WrappingInc(b: u8): (r: u8)
    ensures r as int == (b as int + 1) % 0x100
  {
    if b == 0xFF then 0 else b + 1
  }

  /** 2 to the power `k`. */
  function Pow2(k: nat): (p: nat)
    ensures p >= 1
  {
    if k == 0 then 1 else 2 * Pow2(k - 1)
  }

  /** Bitwise AND of two non-negative numbers, taken bit by bit from the
      lowest: Rust's `&` on unsigned integers. */
  function BitAnd(a: nat, b: nat): nat
    decreases a
  {
    if a == 0 || b == 0 then 0
    else 2 * BitAnd(a / 2, b / 2) + (if a % 2 == 1 && b % 2 == 1 then 1 else 0)
  }

  /** `a >> k` on a non-negative number. */
  function ShiftRight(a: nat, k: nat): nat
  {
    if k == 0 then a else ShiftRight(a / 2, k - 1)
  }

  /** One step of the split below: halving `a` and doubling the parts. */
  lemma HalfSplit(a: nat, p: nat, s: nat, r: nat)
    requires a / 2 == p * s + r
    ensures a == (2 * p) * s + (2 * r + a % 2)
  {
  }

  /** Masking with `2^k - 1` keeps the low `k` bits: `a` is `2^k` times
      `a >> k` plus `a & (2^k - 1)`, and the masked part is below `2^k`. */
  lemma {:induction false} LowBitsMask(a: nat, k: nat)
    ensures BitAnd(a, Pow2(k) - 1) < Pow2(k)
    ensures a == Pow2(k) * ShiftRight(a, k) + BitAnd(a, Pow2(k) - 1)
  {
    if k > 0 {
      var p := Pow2(k - 1);
      var mask := Pow2(k) - 1;
      assert mask / 2 == p - 1 && mask % 2 == 1;
      LowBitsMask(a / 2, k - 1);
      if a != 0 {
        var high := ShiftRight(a / 2, k - 1);
        var low := BitAnd(a / 2, p - 1);
        assert BitAnd(a, mask) == 2 * low + a % 2;
        HalfSplit(a, p, high, low);
      }
    }
  }

  /** The remainder by 0x800 of a number split as 0x800 * s + r with r < 0x800 is r. */
  lemma RemainderOfSplit(a: nat, s: nat, r: nat)
    requires r < 0x800 && a == 0x800 * s + r
    ensures a % 0x800 == r
  {
  }

  /** The RAM cell an address is served by: `addr & 0x07FF`, the low eleven
      bits, which is the remainder by 0x800 (`MirrorIsMask`). */
  function Mirror(addr: u16): (index: nat)
    ensures index < RamSize
    ensures addr as int == (addr as int / RamSize) * RamSize + index
  {
    addr as int % 0x800
  }

  /** The remainder used by `Mirror` is exactly the source's mask
      `addr & 0x07FF`. */
  lemma MirrorIsMask(addr: u16)
    ensures Mirror(addr) == BitAnd(addr as nat, 0x07FF)
  {
    LowBitsMask(addr as nat, 11);
    assert Pow2(11) == 0x800;
    RemainderOfSplit(addr as nat, ShiftRight(addr as nat, 11), BitAnd(addr as nat, Pow2(11) - 1));
  }

  /** The address of the stack slot `sp` points at, in the page 0x0100..0x01FF. */
  function StackAddress(sp: u8): (addr: u16)
    ensures 0x100 <= addr < 0x200
    ensures addr < RamRegionEnd && Mirror(addr) == addr as int
  {
    0x100 + (sp as u16)
  }

  /** What `read(addr)` yields on a RAM image. */
  function Load(ram: seq<u8>, addr: u16): (r: Outcome<u8>)
    requires |ram| == RamSize
    ensures r.Returns? <==> addr < RamRegionEnd
    ensures r.Returns? ==> r.value == ram[addr as int % RamSize]
  {
    if addr < RamRegionEnd then Returns(ram[Mirror(addr)]) else Aborts
  }

  /** The RAM image after the store of `write(addr, value)`; addresses outside
      the RAM region leave it as it was. */
  function Store(ram: seq<u8>, addr: u16, value: u8): (r: seq<u8>)
    requires |ram| == RamSize
    ensures |r| == RamSize
    ensures forall i | 0 <= i < RamSize ::
      r[i] == if addr < RamRegionEnd && i == addr as int % RamSize then value else ram[i]
  {
    if addr < RamRegionEnd then ram[Mirror(addr) := value] else ram
  }

  /** Every address of 0x0000..0x17FF reads the same cell as the address
      0x800 above it. */
  lemma LoadMirrored(ram: seq<u8>, addr: u16)
    requires |ram| == RamSize
    requires addr < 0x1800
    ensures Load(ram, addr) == Load(ram, addr + 0x800)
    ensures Load(ram, addr).Returns?
  {
  }

  /** A load after a store sees the stored byte exactly at the addresses that
      share its RAM cell, and the old contents everywhere else. */
  lemma LoadAfterStore(ram: seq<u8>, addr: u16, value: u8, other: u16)
    requires |ram| == RamSize
    requires addr < RamRegionEnd
    ensures Load(Store(ram, addr, value), other) ==
      if other >= RamRegionEnd then Aborts
      else if Mirror(other) == Mirror(addr) then Returns(value)
      else Load(ram, other)
  {
  }

  /** The RAM image after `push(value)` with stack pointer `sp`. */
  function PushedRam(ram: seq<u8>, sp: u8, value: u8): (r: seq<u8>)
    requires |ram| == RamSize
    ensures |r| == RamSize
    ensures r[0x100 + sp as int] == value
    ensures forall i | 0 <= i < RamSize && i != 0x100 + sp as int :: r[i] == ram[i]
  {
    Store(ram, StackAddress(sp), value)
  }

  /** The byte the corrected `pull` returns with stack pointer `sp`: the slot
      just above the top, where the last push stored. */
  function Pulled(ram: seq<u8>, sp: u8): (v: u8)
    requires |ram| == RamSize
    ensures v == ram[0x100 + (sp as int + 1) % 0x100]
  {
    ram[StackAddress(WrappingInc(sp))]
  }

  /** The byte `pull` as written returns with stack pointer `sp`: the slot the
      stack pointer addressed before the increment, the next free one. */
  function PulledAsWritten(ram: seq<u8>, sp: u8): (v: u8)
    requires |ram| == RamSize
    ensures v == ram[0x100 + sp as int]
  {
    ram[StackAddress(sp)]
  }

  /** A corrected pull after a push returns the pushed byte and restores the
      stack pointer. */
  lemma PullAfterPush(ram: seq<u8>, sp: u8, value: u8)
    requires |ram| == RamSize
    ensures Pulled(PushedRam(ram, sp, value), WrappingDec(sp)) == value
    ensures WrappingInc(WrappingDec(sp)) == sp
  {
  }

  /** The pull as written, after a push that completes and moves sp down (the
      push over the corrected `write`), returns the untouched byte below the
      pushed one instead of the pushed byte. */
  lemma PullAsWrittenAfterPush(ram: seq<u8>, sp: u8, value: u8)
    requires |ram| == RamSize
    ensures PulledAsWritten(PushedRam(ram, sp, value), WrappingDec(sp)) == ram[StackAddress(WrappingDec(sp))]
  {
  }

  /** An input on which the pull as written loses a pushed byte once `write`
      is corrected: with zeroed RAM and sp = 0xFD, a completed push of 1
      (stored at 0x01FD, sp now 0xFC) followed by the pull as written yields
      the byte at 0x01FC, 0; the corrected pull yields 1. */
  lemma PullAsWrittenCounterexample()
    ensures PulledAsWritten(PushedRam(seq(RamSize, _ => 0), 0xFD, 1), 0xFC) == 0
    ensures Pulled(PushedRam(seq(RamSize, _ => 0), 0xFD, 1), 0xFC) == 1
  {
    PullAsWrittenAfterPush(seq(RamSize, _ => 0), 0xFD, 1);
  }

  /** With both functions as written, the push aborts before sp moves, so
      the pull as written reads back the slot the push stored: the two defects
      cancel in the value, though the push itself never completes. */
  lemma PullAsWrittenAfterAbortedPush(ram: seq<u8>, sp: u8, value: u8)
    requires |ram| == RamSize
    ensures PulledAsWritten(PushedRam(ram, sp, value), sp) == value
  {
  }

  /** The RAM image and stack pointer after pushing `values` in order with the
      push over the corrected `write` (`Push`); with `write` as written the
      first push aborts and sp never moves (`PushAsWritten`). */
  function PushAll(ram: seq<u8>, sp: u8, values: seq<u8>): (r: (seq<u8>, u8))
    requires |ram| == RamSize
    ensures |r.0| == RamSize
    decreases |values|
  {
    if |values| == 0 then (ram, sp)
    else PushAll(PushedRam(ram, sp, values[0]), WrappingDec(sp), values[1..])
  }

  /** Any run of pushes over the corrected `write` moves the stack pointer
      down by the number of bytes, modulo 256, and never touches RAM outside
      the stack page 0x0100..0x01FF. */
  lemma {:induction false} PushAllStaysInStackPage(ram: seq<u8>, sp: u8, values: seq<u8>)
    requires |ram| == RamSize
    ensures PushAll(ram, sp, values).1 as int == (sp as int - |values|) % 0x100
    ensures forall i | 0 <= i < RamSize && !(0x100 <= i < 0x200) ::
      PushAll(ram, sp, values).0[i] == ram[i]
    decreases |values|
  {
    if |values| > 0 {
      var next := PushedRam(ram, sp, values[0]);
      PushAllStaysInStackPage(next, WrappingDec(sp), values[1..]);
    }
  }

  /** Eight pushes over the corrected `write` from sp = 0x01 wrap round to
      sp = 0xF9 and still write only inside the stack page. */
  lemma EightPushesWrap(ram: seq<u8>, values: seq<u8>)
    requires |ram| == RamSize
    requires |values| == 8
    ensures PushAll(ram, 0x01, values).1 == 0xF9
    ensures forall i | 0 <= i < RamSize && !(0x100 <= i < 0x200) ::
      PushAll(ram, 0x01, values).0[i] == ram[i]
  {
    PushAllStaysInStackPage(ram, 0x01, values);
  }

  /** The registers, flags, RAM and current opcode of the CPU. The fields the
      source declares for later use (`fetched`, `eff_addr`, `jump_offset`,
      `cycles`) are not read or written by any operation of this core. */
  class CPU {
    var pc: u16
    /** The stack slot the next push writes, as an offset into 0x0100..0x01FF;
        the stack grows downward. */
    var sp: u8
    var acc: u8
    var x: u8
    var y: u8
    var flags: CpuFlags
    /** The 2 KiB of internal RAM. */
    const ram: array<u8>
    var opcode: u8

    ghost predicate Valid()
    {
      ram.Length == RamSize
    }

    /** The struct literal: every field given explicitly. */
    constructor (pc: u16, sp: u8, acc: u8, x: u8, y: u8, flags: CpuFlags, ram: seq<u8>, opcode: u8)
      requires |ram| == RamSize
      ensures Valid() && fresh(this.ram)
      ensures this.ram[..] == ram
      ensures this.pc == pc && this.sp == sp && this.acc == acc && this.x == x && this.y == y
      ensures this.flags == flags && this.opcode == opcode
    {
      this.pc := pc;
      this.sp := sp;
      this.acc := acc;
      this.x := x;
      this.y := y;
      this.flags := flags;
      this.ram := new u8[RamSize](i requires 0 <= i < RamSize => ram[i]);
      this.opcode := opcode;
    }

    /** `self.flags.set(flag, value)`: overwrites one flag of the status
        register in place; the other seven flags and every other field keep
        their values. */
    method SetFlag(flag: Flag, value: bool)
      modifies this`flags
      ensures flags == Set(old(flags), flag, value)
      ensures Get(flags, flag) == value
      ensures forall other :: other != flag ==> Get(flags, other) == Get(old(flags), other)
    {
      flags := Set(flags, flag, value);
    }

    /** `read`: the RAM cell an address below 0x2000 mirrors to; any other
        address reaches the `todo!()`. */
    method Read(addr: u16) returns (r: Outcome<u8>)
      requires Valid()
      ensures r == Load(ram[..], addr)
    {
      if addr < RamRegionEnd {
        var masked := Mirror(addr);
        return Returns(ram[masked]);
      }
      return Aborts;
    }

    /** `write` as the source has it: the RAM store happens for addresses below
        0x2000, but control then falls through to the `todo!()`, so every call
        aborts. */
    method WriteAsWritten(addr: u16, value: u8) returns (r: Outcome<()>)
      requires Valid()
      modifies ram
      ensures ram[..] == Store(old(ram[..]), addr, value)
      ensures r == Aborts
    {
      if addr < RamRegionEnd {
        var masked := Mirror(addr);
        ram[masked] := value;
      }
      r := Aborts;
    }

    /** `write` with the evidently intended early return after the RAM store:
        only addresses outside the RAM region abort. */
    method Write(addr: u16, value: u8) returns (r: Outcome<()>)
      requires Valid()
      modifies ram
      ensures ram[..] == Store(old(ram[..]), addr, value)
      ensures r.Returns? <==> addr < RamRegionEnd
    {
      if addr < RamRegionEnd {
        var masked := Mirror(addr);
        ram[masked] := value;
        return Returns(());
      }
      return Aborts;
    }

    /** `push` over the corrected `write`: stores at 0x0100 + sp, then moves sp
        down by one, wrapping from 0x00 to 0xFF. */
    method Push(value: u8)
      requires Valid()
      modifies this`sp, ram
      ensures ram[..] == PushedRam(old(ram[..]), old(sp), value)
      ensures sp == WrappingDec(old(sp))
    {
      var sp16 := sp as u16;
      var written := Write(0x100 + sp16, value);
      sp := WrappingDec(sp);
    }

    /** `push` over `write` as written: the byte is stored, but the panic in
        `write` ends the call before the stack pointer moves. */
    method PushAsWritten(value: u8) returns (r: Outcome<()>)
      requires Valid()
      modifies ram
      ensures ram[..] == PushedRam(old(ram[..]), old(sp), value)
      ensures sp == old(sp)
      ensures r == Aborts
    {
      var sp16 := sp as u16;
      r := WriteAsWritten(0x100 + sp16, value);
      // `write` has aborted, so the decrement that follows it is never reached.
    }

    /** `pull` as written: moves sp up by one but reads the slot 0x0100 + sp
        of the old stack pointer. */
    method PullAsWritten() returns (value: u8)
      requires Valid()
      modifies this`sp
      ensures sp == WrappingInc(old(sp))
      ensures value == PulledAsWritten(ram[..], old(sp))
    {
      var sp16 := sp as u16;
      sp := WrappingInc(sp);
      var r := Read(0x100 + sp16);
      value := r.value;
    }

    /** `pull` with the evidently intended order: moves sp up by one and reads
        the slot it then points at, the one the last push wrote. */
    method Pull() returns (value: u8)
      requires Valid()
      modifies this`sp
      ensures sp == WrappingInc(old(sp))
      ensures value == Pulled(ram[..], old(sp))
    {
      sp := WrappingInc(sp);
      var sp16 := sp as u16;
      var r := Read(0x100 + sp16);
      value := r.value;
    }

    /** `execute`: looks the current opcode up in the instruction table. The
        lookup is always in bounds, and the row found has a length of one to
        three bytes, two to eight cycles, and a length that matches its mode. */
    method Execute() returns (operation: Inst)
      ensures operation == Instructions[opcode as int]
      ensures 1 <= operation.length <= 3 && 2 <= operation.cycles <= 8
      ensures operation.mode != Imp ==> operation.length == 1 + OperandBytes(operation.mode)
    {
      InstFacts.AllRowFacts();
      var index := opcode as int;
      assert index < |Instructions|;
      operation := Instructions[index];
    }
  }
}
