/**
 * The address arithmetic of `CPU::load32` (src/core/cpu.cpp): folding a
 * virtual address onto a physical one with the region mask table, and
 * classifying the physical address by its ordered chain of range checks.
 * Both are pure functions of the address.
 */
module AddressMap {

  /** The mask table, indexed by the top three bits of a virtual address. */
  const REGION_MASKS: seq<bv32> := [
    0xFFFF_FFFF, 0xFFFF_FFFF, 0xFFFF_FFFF, 0xFFFF_FFFF, // KUSEG, 2 GiB
    0x7FFF_FFFF,                                        // KSEG0, 512 MiB
    0x1FFF_FFFF,                                        // KSEG1, 512 MiB
    0xFFFF_FFFF, 0xFFFF_FFFF                            // KSEG2, 1 GiB
  ]

  /** The four segments of the R3000 virtual address space. */
  datatype Segment = Kuseg | Kseg0 | Kseg1 | Kseg2

  /** The segment an address lies in, by unsigned range. */
  function SegmentOf(addr: bv32): Segment
  {
    if addr < 0x8000_0000 then Kuseg
    else if addr < 0xA000_0000 then Kseg0
    else if addr < 0xC000_0000 then Kseg1
    else Kseg2
  }

  /** The top three bits of an address (`region_bits`), as a table index. */
  function RegionIndex(addr: bv32): (k: nat)
    ensures k < |REGION_MASKS|
    ensures k as bv32 == addr >> 29
  {
    ((addr >> 29) as bv3) as int
  }

  /** The physical address of a virtual one: the address masked by its table entry. */
  function Translate(addr: bv32): (p: bv32)
    ensures p <= addr
  {
    addr & REGION_MASKS[RegionIndex(addr)]
  }

  /** The table entry an address selects depends only on its segment. */
  lemma MaskOfSegment(addr: bv32)
    ensures SegmentOf(addr) in {Kuseg, Kseg2} ==> REGION_MASKS[RegionIndex(addr)] == 0xFFFF_FFFF
    ensures SegmentOf(addr) == Kseg0 ==> REGION_MASKS[RegionIndex(addr)] == 0x7FFF_FFFF
    ensures SegmentOf(addr) == Kseg1 ==> REGION_MASKS[RegionIndex(addr)] == 0x1FFF_FFFF
  {
  }

  /** KUSEG and KSEG2 map one to one. */
  lemma TranslateUnmapped(addr: bv32)
    requires SegmentOf(addr) in {Kuseg, Kseg2}
    ensures Translate(addr) == addr
  {
    MaskOfSegment(addr);
  }

  /** KSEG0 is folded onto the bottom 512 MiB by clearing bit 31. */
  lemma TranslateKseg0(addr: bv32)
    requires SegmentOf(addr) == Kseg0
    ensures Translate(addr) == addr - 0x8000_0000
  {
    MaskOfSegment(addr);
  }

  /** KSEG1 is folded onto the bottom 512 MiB by clearing bits 31-29. */
  lemma TranslateKseg1(addr: bv32)
    requires SegmentOf(addr) == Kseg1
    ensures Translate(addr) == addr - 0xA000_0000
  {
    MaskOfSegment(addr);
  }

  /** Translation in closed form, segment by segment. */
  lemma TranslateBySegment(addr: bv32)
    ensures SegmentOf(addr) in {Kuseg, Kseg2} ==> Translate(addr) == addr
    ensures SegmentOf(addr) == Kseg0 ==> Translate(addr) == addr - 0x8000_0000
    ensures SegmentOf(addr) == Kseg1 ==> Translate(addr) == addr - 0xA000_0000
  {
    match SegmentOf(addr)
    case Kuseg => TranslateUnmapped(addr);
    case Kseg0 => TranslateKseg0(addr);
    case Kseg1 => TranslateKseg1(addr);
    case Kseg2 => TranslateUnmapped(addr);
  }

  /** Translation never touches the low 29 bits of an address, the offset within a segment. */
  lemma TranslateKeepsOffset(addr: bv32)
    ensures Translate(addr) & 0x1FFF_FFFF == addr & 0x1FFF_FFFF
  {
    MaskOfSegment(addr);
  }

  /** A translated address is physical already: translating it again changes nothing. */
  lemma TranslateIdempotent(addr: bv32)
    ensures Translate(Translate(addr)) == Translate(addr)
  {
    TranslateBySegment(addr);
    TranslateUnmapped(Translate(addr));
  }

  /** The memory region tags, in the order the source tests them. */
  datatype Region =
    | Main
    | Expansion1
    | Scratchpad
    | HardwareRegisters
    | BiosRom
    | IoPorts
    | Unhandled

  /** First-match classification of a physical address, in the source's order. */
  function Classify(p: bv32): (r: Region)
    ensures r == Main <==> p < 0x0080_0000
    ensures r == BiosRom <==> 0x1FC0_0000 <= p < 0x1FC8_0000
  {
    if p < 0x0080_0000 then Main
    else if p >= 0x1F00_0000 && p < 0x1F80_0000 then Expansion1
    else if p < 0x1F80_1000 then Scratchpad
    else if p < 0x1F80_3000 then HardwareRegisters
    else if p >= 0x1FC0_0000 && p < 0x1FC8_0000 then BiosRom
    else if p >= 0xFFFE_0000 && p < 0xFFFE_1000 then IoPorts
    else Unhandled
  }

  /**
   * The address set of each tag as a union of disjoint ranges. Because the
   * scratchpad test only bounds the address from above, the scratchpad tag
   * also takes [0x0080_0000, 0x1F00_0000), the gap between main RAM and
   * expansion region 1.
   */
  lemma ClassifyRanges(p: bv32)
    ensures Classify(p) == Main <==> p < 0x0080_0000
    ensures Classify(p) == Expansion1 <==> 0x1F00_0000 <= p < 0x1F80_0000
    ensures Classify(p) == Scratchpad <==>
              (0x0080_0000 <= p < 0x1F00_0000) || (0x1F80_0000 <= p < 0x1F80_1000)
    ensures Classify(p) == HardwareRegisters <==> 0x1F80_1000 <= p < 0x1F80_3000
    ensures Classify(p) == BiosRom <==> 0x1FC0_0000 <= p < 0x1FC8_0000
    ensures Classify(p) == IoPorts <==> 0xFFFE_0000 <= p < 0xFFFE_1000
    ensures Classify(p) == Unhandled <==>
              (0x1F80_3000 <= p < 0x1FC0_0000) || (0x1FC8_0000 <= p < 0xFFFE_0000)
              || 0xFFFE_1000 <= p
  {
  }

  /** The classification boundaries named for main RAM and the BIOS. */
  lemma ClassifyBoundaries()
    ensures Classify(0x007F_FFFF) == Main && Classify(0x0080_0000) != Main
    ensures Classify(0x1FC0_0000) == BiosRom && Classify(0x1FC8_0000) != BiosRom
  {
  }

  /** Main RAM is visible through exactly three virtual windows: KUSEG, KSEG0 and KSEG1. */
  lemma MainWindows(addr: bv32)
    ensures Classify(Translate(addr)) == Main <==>
              addr < 0x0080_0000
              || (0x8000_0000 <= addr < 0x8080_0000)
              || (0xA000_0000 <= addr < 0xA080_0000)
  {
  }

  /** The BIOS is visible through exactly three virtual windows: KUSEG, KSEG0 and KSEG1. */
  lemma BiosWindows(addr: bv32)
    ensures Classify(Translate(addr)) == BiosRom <==>
              (0x1FC0_0000 <= addr < 0x1FC8_0000)
              || (0x9FC0_0000 <= addr < 0x9FC8_0000)
              || (0xBFC0_0000 <= addr < 0xBFC8_0000)
  {
  }

  /** The reset vector 0xBFC0_0000 is the first byte of the BIOS. */
  lemma ResetVectorIsBiosStart()
    ensures Translate(0xBFC0_0000) == 0x1FC0_0000
    ensures Classify(0x1FC0_0000) == BiosRom
    ensures Translate(0xBFC0_0000) & 0x7_FFFF == 0
  {
  }
}
