/** The status register of the 6502 core: eight booleans packed into one byte
    (src/cpu.rs, `Flags` and `CpuFlags`). */
module Flags {

  /** The name of one status flag, as the `Flags` enum lists them. */
  datatype Flag = N | V | U | B | D | I | Z | C

  /** The eight flags as stored booleans. `ignored` is the unused bit and `brk`
      the break bit; in this core both are ordinary stored fields. The source
      struct is `Copy`, so it is a value here, and `set(&mut self, ..)` on it is
      the functional update `Set` below. */
  datatype CpuFlags = CpuFlags(
    negative: bool,
    overflow: bool,
    ignored: bool,
    brk: bool,
    decimal: bool,
    interrupt: bool,
    zero: bool,
    carry: bool)

  /** The bit each flag occupies in the packed byte: N=7, V=6, U=5, B=4, D=3, I=2, Z=1, C=0. */
  function Position(flag: Flag): (n: nat)
    ensures n < 8
  {
    match flag
    case N => 7
    case V => 6
    case U => 5
    case B => 4
    case D => 3
    case I => 2
    case Z => 1
    case C => 0
  }

  /** Distinct flags occupy distinct bits. */
  lemma PositionInjective(f: Flag, g: Flag)
    ensures Position(f) == Position(g) ==> f == g
  {
  }

  /** The stored value of one flag. */
  function Get(f: CpuFlags, flag: Flag): bool
  {
    match flag
    case N => f.negative
    case V => f.overflow
    case U => f.ignored
    case B => f.brk
    case D => f.decimal
    case I => f.interrupt
    case Z => f.zero
    case C => f.carry
  }

  /** Whether bit `n` of `byte` is one: `(byte >> n) & 1 != 0`. */
  function IsSet(byte: bv8, n: nat): bool
    requires n < 8
  {
    (byte >> n) & 1 != 0
  }

  /** The byte with only bit `n` possibly set, namely to `x`: `(x as 0 or 1) << n`. */
  function ToBit(x: bool, n: nat): bv8
    requires n < 8
  {
    (if x then 1 else 0) << n
  }

  /** Unpacks a byte: each flag is read from its own bit. */
  function FromByte(byte: bv8): (f: CpuFlags)
    ensures forall flag :: Get(f, flag) == IsSet(byte, Position(flag))
  {
    CpuFlags(
      negative := IsSet(byte, 7),
      overflow := IsSet(byte, 6),
      ignored := IsSet(byte, 5),
      brk := IsSet(byte, 4),
      decimal := IsSet(byte, 3),
      interrupt := IsSet(byte, 2),
      zero := IsSet(byte, 1),
      carry := IsSet(byte, 0))
  }

  /** All eight flags clear. */
  function Empty(): (f: CpuFlags)
    ensures forall flag :: !Get(f, flag)
  {
    CpuFlags(false, false, false, false, false, false, false, false)
  }

  /** Overwrites one flag with `value`; the other seven keep their values. */
  function Set(f: CpuFlags, flag: Flag, value: bool): (r: CpuFlags)
    ensures Get(r, flag) == value
    ensures forall other :: other != flag ==> Get(r, other) == Get(f, other)
  {
    match flag
    case N => f.(negative := value)
    case V => f.(overflow := value)
    case U => f.(ignored := value)
    case B => f.(brk := value)
    case D => f.(decimal := value)
    case I => f.(interrupt := value)
    case Z => f.(zero := value)
    case C => f.(carry := value)
  }

  /** Packs the flags: the OR of every flag shifted to its own bit. */
  function ToByte(f: CpuFlags): (byte: bv8)
    ensures forall flag :: IsSet(byte, Position(flag)) == Get(f, flag)
  {
    ToBit(f.negative, 7) |
    ToBit(f.overflow, 6) |
    ToBit(f.ignored, 5) |
    ToBit(f.brk, 4) |
    ToBit(f.decimal, 3) |
    ToBit(f.interrupt, 2) |
    ToBit(f.zero, 1) |
    ToBit(f.carry, 0)
  }

  /** Two bytes that agree on every flag's bit are equal. */
  lemma BytesEqualByFlags(a: bv8, b: bv8)
    requires forall flag :: IsSet(a, Position(flag)) == IsSet(b, Position(flag))
    ensures a == b
  {
    assert IsSet(a, Position(N)) == IsSet(b, Position(N));
    assert IsSet(a, Position(V)) == IsSet(b, Position(V));
    assert IsSet(a, Position(U)) == IsSet(b, Position(U));
    assert IsSet(a, Position(B)) == IsSet(b, Position(B));
    assert IsSet(a, Position(D)) == IsSet(b, Position(D));
    assert IsSet(a, Position(I)) == IsSet(b, Position(I));
    assert IsSet(a, Position(Z)) == IsSet(b, Position(Z));
    assert IsSet(a, Position(C)) == IsSet(b, Position(C));
  }

  /** Packing undoes unpacking: every byte survives `to_byte(from_byte(b))`. */
  lemma ToByteFromByte(byte: bv8)
    ensures ToByte(FromByte(byte)) == byte
  {
    BytesEqualByFlags(ToByte(FromByte(byte)), byte);
  }

  /** Unpacking undoes packing: every flag record, the break bit included,
      survives `from_byte(to_byte(f))`. */
  lemma FromByteToByte(f: CpuFlags)
    ensures FromByte(ToByte(f)) == f
  {
    var g := FromByte(ToByte(f));
    assert forall flag :: Get(g, flag) == Get(f, flag);
    assert Get(g, N) == Get(f, N) && Get(g, V) == Get(f, V) && Get(g, U) == Get(f, U)
      && Get(g, B) == Get(f, B) && Get(g, D) == Get(f, D) && Get(g, I) == Get(f, I)
      && Get(g, Z) == Get(f, Z) && Get(g, C) == Get(f, C);
  }

  /** The empty record packs to the zero byte. */
  lemma EmptyIsZero()
    ensures ToByte(Empty()) == 0
  {
    BytesEqualByFlags(ToByte(Empty()), 0);
  }

  /** Setting a flag changes exactly its own bit of the packed byte. */
  lemma SetChangesOneBit(f: CpuFlags, flag: Flag, value: bool)
    ensures IsSet(ToByte(Set(f, flag, value)), Position(flag)) == value
    ensures forall other :: other != flag ==>
      IsSet(ToByte(Set(f, flag, value)), Position(other)) == IsSet(ToByte(f), Position(other))
  {
  }
}
