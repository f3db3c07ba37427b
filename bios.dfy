/**
 * The BIOS ROM (src/core/bios.cpp, src/core/bios.h): a fixed 512 KiB byte
 * array, all zero unless the image handed to the constructor has exactly
 * that size, read as little-endian words.
 */
module Firmware {
  import opened Mips

  const BIOS_SIZE := 512 * 1024

  class Bios {
    const memory: array<bv8>

    ghost predicate Valid()
      reads this
    {
      memory.Length == BIOS_SIZE
    }

    /**
     * The ROM of the image: installed byte for byte when its length is
     * exactly `BIOS_SIZE`, all zero otherwise. The file the source opens is
     * given here as its contents.
     */
    constructor (image: seq<bv8>)
      ensures Valid()
      ensures |image| == BIOS_SIZE ==> memory[..] == image
      ensures |image| != BIOS_SIZE ==> forall i :: 0 <= i < BIOS_SIZE ==> memory[i] == 0
    {
      var rom := LoadImage(image);
      memory := rom;
    }

    /**
     * The word whose bytes, least significant first, are the four ROM bytes
     * starting at `offset`. The source checks neither bounds nor alignment,
     * so the four bytes must lie inside the ROM.
     */
    function Load32(offset: nat): (w: bv32)
      reads this, memory
      requires Valid() && offset + 3 < BIOS_SIZE
      ensures FirstByte(w) == memory[offset] && SecondByte(w) == memory[offset + 1]
      ensures ThirdByte(w) == memory[offset + 2] && FourthByte(w) == memory[offset + 3]
    {
      BuildThenSplit(memory[offset], memory[offset + 1], memory[offset + 2], memory[offset + 3]);
      Build32(memory[offset], memory[offset + 1], memory[offset + 2], memory[offset + 3])
    }
  }

  /**
   * A zero-filled ROM array into which an image of exactly `BIOS_SIZE` bytes
   * is read, one byte after another; an image of any other length is not read.
   */
  method LoadImage(image: seq<bv8>) returns (rom: array<bv8>)
    ensures rom.Length == BIOS_SIZE
    ensures |image| == BIOS_SIZE ==> rom[..] == image
    ensures |image| != BIOS_SIZE ==> forall i :: 0 <= i < BIOS_SIZE ==> rom[i] == 0
  {
    rom := new bv8[BIOS_SIZE](_ => 0);
    if |image| == BIOS_SIZE {
      var n := 0;
      while n < BIOS_SIZE
        invariant 0 <= n <= BIOS_SIZE
        invariant forall i :: 0 <= i < n ==> rom[i] == image[i]
      {
        rom[n] := image[n];
        n := n + 1;
      }
    }
  }

  /** A ROM left all zero, as a wrong-size image leaves it, reads 0 at every offset. */
  lemma ZeroRomReadsZero(b: Bios, offset: nat)
    requires b.Valid() && offset + 3 < BIOS_SIZE
    requires forall i :: 0 <= i < BIOS_SIZE ==> b.memory[i] == 0
    ensures b.Load32(offset) == 0
  {
    SplitThenBuild(b.Load32(offset));
  }
}
