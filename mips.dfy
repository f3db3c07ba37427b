/**
 * MIPS I word packing and instruction decoding (src/core/mips.h).
 *
 * Words are `bv32` and bytes `bv8`, matching the source's `uint32_t` and
 * `uint8_t`. Every field extractor returns a `bv32`, as the source's getters
 * return `uint32_t`.
 */
module Mips {

  /** Composes four bytes into a word, `a` least significant (little-endian). */
  function Build32(a: bv8, b: bv8, c: bv8, d: bv8): (w: bv32)
    ensures w == a as bv32 + 0x100 * b as bv32 + 0x1_0000 * c as bv32 + 0x100_0000 * d as bv32
  {
    (d as bv32 << 24) | (c as bv32 << 16) | (b as bv32 << 8) | a as bv32
  }

  /** Bits 7-0 of a word: its base-256 digit of weight 1. */
  function FirstByte(w: bv32): (r: bv8)
    ensures r as bv32 == w % 0x100
  {
    (w & 0xFF) as bv8
  }

  /** Bits 15-8 of a word: its base-256 digit of weight 0x100. */
  function SecondByte(w: bv32): (r: bv8)
    ensures r as bv32 == w / 0x100 % 0x100
  {
    ((w >> 8) & 0xFF) as bv8
  }

  /** Bits 23-16 of a word: its base-256 digit of weight 0x1_0000. */
  function ThirdByte(w: bv32): (r: bv8)
    ensures r as bv32 == w / 0x1_0000 % 0x100
  {
    ((w >> 16) & 0xFF) as bv8
  }

  /** Bits 31-24 of a word: its base-256 digit of weight 0x100_0000. */
  function FourthByte(w: bv32): (r: bv8)
    ensures r as bv32 == w / 0x100_0000
  {
    ((w >> 24) & 0xFF) as bv8
  }

  /** Splitting a word into its bytes and composing them again gives the word back. */
  lemma SplitThenBuild(w: bv32)
    ensures Build32(FirstByte(w), SecondByte(w), ThirdByte(w), FourthByte(w)) == w
  {
  }

  /** Composing four bytes and splitting the word gives each byte back in its place. */
  lemma BuildThenSplit(a: bv8, b: bv8, c: bv8, d: bv8)
    ensures FirstByte(Build32(a, b, c, d)) == a
    ensures SecondByte(Build32(a, b, c, d)) == b
    ensures ThirdByte(Build32(a, b, c, d)) == c
    ensures FourthByte(Build32(a, b, c, d)) == d
  {
  }

  /**
   * An instruction word. Constructing one from a word keeps the word as it is;
   * `FromBytes` composes it from four bytes first.
   */
  datatype Instruction = Instruction(whole: bv32)
  {
    /** Bits 31-26. */
    function Opcode(): (r: bv32)
      ensures r < 64 && r << 26 == whole & 0xFC00_0000
    {
      (whole >> 26) & 0x3F
    }

    /** Bits 25-21: the first source register. */
    function RS(): (r: bv32)
      ensures r < 32 && r << 21 == whole & 0x03E0_0000
    {
      (whole >> 21) & 0x1F
    }

    /** The base register of a load or store: the same bits as `RS`. */
    function Base(): (r: bv32)
      ensures r < 32 && r << 21 == whole & 0x03E0_0000
    {
      RS()
    }

    /** Bits 20-16: the second source register, or the target of an I-type instruction. */
    function RT(): (r: bv32)
      ensures r < 32 && r << 16 == whole & 0x001F_0000
    {
      (whole >> 16) & 0x1F
    }

    /** Bits 15-11: the destination register of an R-type instruction. */
    function RD(): (r: bv32)
      ensures r < 32 && r << 11 == whole & 0x0000_F800
    {
      (whole >> 11) & 0x1F
    }

    /** Bits 10-6: the shift amount. */
    function Shamt(): (r: bv32)
      ensures r < 32 && r << 6 == whole & 0x0000_07C0
    {
      (whole >> 6) & 0x1F
    }

    /** Bits 5-0: the function code of an R-type instruction. */
    function Funct(): (r: bv32)
      ensures r < 64 && ((whole >> 6) << 6) | r == whole
    {
      whole & 0x3F
    }

    /** Bits 15-0, zero-extended. */
    function Immediate(): (r: bv32)
      ensures r < 0x1_0000 && ((whole >> 16) << 16) | r == whole
    {
      whole & 0xFFFF
    }

    /**
     * The offset of a load, store or branch as the source computes it: the
     * immediate, zero-extended, so it is never negative.
     */
    function Offset(): (r: bv32)
      ensures r < 0x1_0000 && ((whole >> 16) << 16) | r == whole
    {
      Immediate()
    }

    /**
     * The offset as a signed 16-bit value (sign-extended): the only value in
     * [-0x8000, 0x8000) that is congruent to the immediate modulo 0x1_0000.
     */
    function SignedOffset(): (r: int)
      ensures -0x8000 <= r < 0x8000
      ensures r % 0x1_0000 == Immediate() as int
    {
      SignExtend16(Immediate() as int)
    }

    /** Bits 25-0: the jump target of a J-type instruction. */
    function Address(): (r: bv32)
      ensures r < 0x400_0000 && ((whole >> 26) << 26) | r == whole
    {
      whole & 0x3FF_FFFF
    }
  }

  /** A five-bit register field as a register number. */
  function RegisterNumber(field: bv32): (n: nat)
    requires field < 32
    ensures n < 32
    ensures n == 0 <==> field == 0
    ensures n as bv32 == field
  {
    (field as bv5) as int
  }

  /** Reads a 16-bit pattern as a two's complement number. */
  function SignExtend16(h: nat): (r: int)
    requires h < 0x1_0000
    ensures -0x8000 <= r < 0x8000
    ensures r % 0x1_0000 == h
  {
    if h < 0x8000 then h else h - 0x1_0000
  }

  /** The instruction whose word is composed little-endian from `a`, `b`, `c`, `d`. */
  function FromBytes(a: bv8, b: bv8, c: bv8, d: bv8): (i: Instruction)
    ensures FirstByte(i.whole) == a && SecondByte(i.whole) == b
    ensures ThirdByte(i.whole) == c && FourthByte(i.whole) == d
  {
    Instruction(Build32(a, b, c, d))
  }

  /** An I-type word is its opcode, rs, rt and immediate fields laid side by side. */
  lemma ITypeRecomposes(i: Instruction)
    ensures (i.Opcode() << 26) | (i.RS() << 21) | (i.RT() << 16) | i.Immediate() == i.whole
  {
  }

  /** An R-type word is its opcode, rs, rt, rd, shamt and funct fields laid side by side. */
  lemma RTypeRecomposes(i: Instruction)
    ensures (i.Opcode() << 26) | (i.RS() << 21) | (i.RT() << 16) | (i.RD() << 11)
            | (i.Shamt() << 6) | i.Funct() == i.whole
  {
  }

  /** A J-type word is its opcode and jump target laid side by side. */
  lemma JTypeRecomposes(i: Instruction)
    ensures (i.Opcode() << 26) | i.Address() == i.whole
  {
  }

  /** The two names the source gives the same fields agree. */
  lemma AliasedFieldsAgree(i: Instruction)
    ensures i.Base() == i.RS() && i.Offset() == i.Immediate()
  {
  }

  /** The value a `uint32_t` takes when it is converted to `int32_t` (two's complement). */
  function ToInt32(w: bv32): (r: int)
    ensures -0x8000_0000 <= r < 0x8000_0000
    ensures r % 0x1_0000_0000 == w as int
  {
    var n := w as int;
    if n < 0x8000_0000 then n else n - 0x1_0000_0000
  }

  /**
   * As written, the offset of an all-ones immediate is 0xFFFF, which as an
   * `int32_t` is 65535 and not -1.
   */
  lemma OffsetIsNotSignExtended()
    ensures ToInt32(Instruction(0xFFFF).Offset()) == 0xFFFF
    ensures ToInt32(Instruction(0x8000).Offset()) == 0x8000
  {
  }

  /** Sign extension maps 0xFFFF to -1, 0x8000 to -32768 and 0 to 0. */
  lemma SignedOffsetExamples()
    ensures Instruction(0xFFFF).SignedOffset() == -1
    ensures Instruction(0x8000).SignedOffset() == -0x8000
    ensures Instruction(0x0000).SignedOffset() == 0
  {
  }

  /** The bit-mask test vectors: each all-ones field reads back as all ones. */
  lemma AllOnesFields()
    ensures Instruction(0xFC00_0000).Opcode() == 0x3F
    ensures Instruction(0x03E0_0000).RS() == 0x1F
    ensures Instruction(0x001F_0000).RT() == 0x1F
    ensures Instruction(0x0000_F800).RD() == 0x1F
    ensures Instruction(0x0000_07C0).Shamt() == 0x1F
    ensures Instruction(0x0000_003F).Funct() == 0x3F
    ensures Instruction(0x0000_FFFF).Immediate() == 0xFFFF
    ensures Instruction(0x03FF_FFFF).Address() == 0x3FF_FFFF
  {
  }
}
