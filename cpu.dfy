/**
 * The execution engine (src/core/cpu.h, src/core/cpu.cpp): a CPU object that
 * owns the register file, the program counter, 2 MiB of main RAM and the BIOS
 * ROM, reads words through the address map, and executes LUI and ORI.
 */
module Processor {
  import opened Mips
  import opened AddressMap
  import opened Registers
  import opened Firmware

  const MEMORY_SIZE := 2 * 1024 * 1024

  /** The reset vector: the program counter's initial value. */
  const BIOS_ADDR: bv32 := 0xBFC0_0000

  /** The register value the constructor fills the file with. */
  const FILL: bv32 := 0xDEAD_BEEF

  const OP_LUI: bv32 := 0x0F
  const OP_ORI: bv32 := 0x0D

  datatype Option<T> = None | Some(value: T)

  /** How one step ends: the instruction retired, or the CPU stopped. */
  datatype Outcome =
    | Retired
    | UnhandledInstruction // the source aborts with `throw;` outside any handler
    | UnhandledFetch       // the source's load32 returns no value for the address

  /** The RAM index of a main-region physical address: its low 21 bits. */
  function MainOffset(p: bv32): (o: nat)
    ensures o < MEMORY_SIZE
  {
    ((p & 0x1F_FFFF) as bv21) as int
  }

  /** The ROM index of a BIOS-region physical address: its low 19 bits. */
  function BiosOffset(p: bv32): (o: nat)
    ensures o < BIOS_SIZE
  {
    ((p & 0x7_FFFF) as bv19) as int
  }

  /**
   * Whether the source's unchecked word read at `addr` stays inside its array.
   * Neither offset mask clears the low two bits, so an address within three
   * bytes of the end of either window reads past it. Other regions read nothing.
   */
  predicate FetchInBounds(addr: bv32)
  {
    var p := Translate(addr);
    && (Classify(p) == Main ==> MainOffset(p) + 3 < MEMORY_SIZE)
    && (Classify(p) == BiosRom ==> BiosOffset(p) + 3 < BIOS_SIZE)
  }

  /** An aligned address leaves four bytes before the end of either window. */
  lemma AlignedOffsetsLeaveRoom(p: bv32)
    requires p & 3 == 0
    ensures MainOffset(p) + 3 < MEMORY_SIZE
    ensures BiosOffset(p) + 3 < BIOS_SIZE
  {
    assert (p & 0x1F_FFFF) as bv21 <= 0x1F_FFFC;
    assert (p & 0x7_FFFF) as bv19 <= 0x7_FFFC;
  }

  /** Every aligned address can be read: the program counter only ever holds such addresses. */
  lemma AlignedFetchInBounds(addr: bv32)
    requires addr & 3 == 0
    ensures FetchInBounds(addr)
  {
    TranslateKeepsOffset(addr);
    AlignedOffsetsLeaveRoom(Translate(addr));
  }

  /**
   * An unaligned address near the end of the BIOS window makes the source read
   * past the ROM: 0xBFC7_FFFD lands on offset 0x7_FFFD.
   */
  lemma UnalignedBiosFetchOverruns()
    ensures Classify(Translate(0xBFC7_FFFD)) == BiosRom
    ensures !FetchInBounds(0xBFC7_FFFD)
  {
    TranslateKseg1(0xBFC7_FFFD);
  }

  /**
   * The effect of `decodeExecute` on the register file: LUI writes the
   * immediate shifted into the upper half, ORI writes rs or-ed with the
   * zero-extended immediate, both through the register-0 discipline of
   * `setR`; any other opcode has no effect (the source aborts).
   */
  function Execute(regs: seq<bv32>, instr: Instruction): (r: Option<seq<bv32>>)
    requires |regs| == REGISTER_COUNT
    ensures r.Some? <==> instr.Opcode() == OP_LUI || instr.Opcode() == OP_ORI
    ensures r.Some? ==> |r.value| == REGISTER_COUNT && r.value[0] == regs[0]
    ensures r.Some? ==>
              forall j :: 0 <= j < REGISTER_COUNT && j != RegisterNumber(instr.RT()) ==> r.value[j] == regs[j]
  {
    var rt := RegisterNumber(instr.RT());
    if instr.Opcode() == OP_LUI then
      Some(WriteReg(regs, rt, instr.Immediate() << 16))
    else if instr.Opcode() == OP_ORI then
      Some(WriteReg(regs, rt, instr.Immediate() | ReadReg(regs, RegisterNumber(instr.RS()))))
    else
      None
  }

  /** LUI puts its immediate in the upper half of rt and clears the lower half. */
  lemma LuiLoadsUpperHalf(regs: seq<bv32>, instr: Instruction)
    requires |regs| == REGISTER_COUNT
    requires instr.Opcode() == OP_LUI && instr.RT() != 0
    ensures Execute(regs, instr).Some?
    ensures ReadReg(Execute(regs, instr).value, RegisterNumber(instr.RT())) >> 16 == instr.Immediate()
    ensures ReadReg(Execute(regs, instr).value, RegisterNumber(instr.RT())) & 0xFFFF == 0
  {
    var rt := RegisterNumber(instr.RT());
    ReadAfterWrite(regs, rt, instr.Immediate() << 16, rt);
    UpperHalfShift(instr.Immediate());
  }

  /** Shifting a 16-bit value into the upper half loses nothing and leaves the lower half zero. */
  lemma UpperHalfShift(imm: bv32)
    requires imm < 0x1_0000
    ensures (imm << 16) >> 16 == imm
    ensures (imm << 16) & 0xFFFF == 0
  {
  }

  /** ORI writes rs or-ed with the zero-extended immediate into rt. */
  lemma OriWritesOr(regs: seq<bv32>, instr: Instruction)
    requires |regs| == REGISTER_COUNT
    requires instr.Opcode() == OP_ORI && instr.RT() != 0
    ensures Execute(regs, instr).Some?
    ensures ReadReg(Execute(regs, instr).value, RegisterNumber(instr.RT()))
            == instr.Immediate() | ReadReg(regs, RegisterNumber(instr.RS()))
  {
    var rt := RegisterNumber(instr.RT());
    ReadAfterWrite(regs, rt, instr.Immediate() | ReadReg(regs, RegisterNumber(instr.RS())), rt);
  }

  /** ORI keeps the upper half of rs and or-s the immediate into the lower half. */
  lemma OriMergesImmediate(regs: seq<bv32>, instr: Instruction)
    requires |regs| == REGISTER_COUNT
    requires instr.Opcode() == OP_ORI && instr.RT() != 0
    ensures Execute(regs, instr).Some?
    ensures ReadReg(Execute(regs, instr).value, RegisterNumber(instr.RT())) >> 16
            == ReadReg(regs, RegisterNumber(instr.RS())) >> 16
    ensures ReadReg(Execute(regs, instr).value, RegisterNumber(instr.RT())) & 0xFFFF
            == (ReadReg(regs, RegisterNumber(instr.RS())) & 0xFFFF) | instr.Immediate()
  {
    OriWritesOr(regs, instr);
    LowerHalfOr(ReadReg(regs, RegisterNumber(instr.RS())), instr.Immediate());
  }

  /** Or-ing a 16-bit value into a word leaves its upper half and merges into its lower half. */
  lemma LowerHalfOr(x: bv32, imm: bv32)
    requires imm < 0x1_0000
    ensures (imm | x) >> 16 == x >> 16
    ensures (imm | x) & 0xFFFF == (x & 0xFFFF) | imm
  {
  }

  /** With rt = 0 a handled instruction changes no register. */
  lemma ZeroTargetIsNoOp(regs: seq<bv32>, instr: Instruction)
    requires |regs| == REGISTER_COUNT
    requires instr.Opcode() == OP_LUI || instr.Opcode() == OP_ORI
    requires instr.RT() == 0
    ensures Execute(regs, instr) == Some(regs)
  {
  }

  /**
   * The idiom for loading a 32-bit constant: `lui rt, hi` followed by
   * `ori rt, rt, lo` leaves `hi * 0x1_0000 + lo` in rt.
   */
  lemma LuiThenOriLoadsConstant(regs: seq<bv32>, lui: Instruction, ori: Instruction)
    requires |regs| == REGISTER_COUNT
    requires lui.Opcode() == OP_LUI && ori.Opcode() == OP_ORI
    requires lui.RT() != 0 && ori.RT() == lui.RT() && ori.RS() == lui.RT()
    ensures Execute(regs, lui).Some?
    ensures Execute(Execute(regs, lui).value, ori).Some?
    ensures ReadReg(Execute(Execute(regs, lui).value, ori).value, RegisterNumber(lui.RT()))
            == lui.Immediate() * 0x1_0000 + ori.Immediate()
  {
    var rt := RegisterNumber(lui.RT());
    var mid := Execute(regs, lui).value;
    ReadAfterWrite(regs, rt, lui.Immediate() << 16, rt);
    var last := Execute(mid, ori).value;
    ReadAfterWrite(mid, rt, ori.Immediate() | ReadReg(mid, rt), rt);
    HalvesCombine(lui.Immediate(), ori.Immediate());
  }

  /** Or-ing a 16-bit value into the zero lower half of a word is adding it. */
  lemma HalvesCombine(hi: bv32, lo: bv32)
    requires hi < 0x1_0000 && lo < 0x1_0000
    ensures lo | (hi << 16) == hi * 0x1_0000 + lo
  {
  }

  /** `lui $t0, 0x1234` then `ori $t0, $t0, 0x5678` leaves 0x1234_5678 in $t0. */
  lemma LoadConstantExample(regs: seq<bv32>)
    requires |regs| == REGISTER_COUNT
    ensures Execute(regs, Instruction(0x3C08_1234)).Some?
    ensures Execute(Execute(regs, Instruction(0x3C08_1234)).value, Instruction(0x3508_5678)).Some?
    ensures ReadReg(Execute(Execute(regs, Instruction(0x3C08_1234)).value,
                            Instruction(0x3508_5678)).value, ALIASES["t0"]) == 0x1234_5678
  {
    LuiThenOriLoadsConstant(regs, Instruction(0x3C08_1234), Instruction(0x3508_5678));
  }

  class Cpu {
    var pc: bv32
    const R: array<bv32>
    const memory: array<bv8>
    const bios: Bios

    /** The object invariant: register 0 holds zero and the program counter stays aligned. */
    ghost predicate Valid()
      reads this, R, bios
    {
      R.Length == REGISTER_COUNT && R[0] == 0
      && memory.Length == MEMORY_SIZE && bios.Valid()
      && pc & 3 == 0 && FetchInBounds(pc)
    }

    /**
     * The power-on state: the ROM built from `image`, all RAM zero, every
     * register 0xDEAD_BEEF except register 0, and the program counter at the
     * reset vector.
     */
    constructor (image: seq<bv8>)
      ensures Valid()
      ensures fresh(R) && fresh(memory) && fresh(bios)
      ensures pc == BIOS_ADDR
      ensures forall i :: 1 <= i < REGISTER_COUNT ==> R[i] == FILL
      ensures forall i :: 0 <= i < MEMORY_SIZE ==> memory[i] == 0
      ensures |image| == BIOS_SIZE ==> bios.memory[..] == image
      ensures |image| != BIOS_SIZE ==> forall i :: 0 <= i < BIOS_SIZE ==> bios.memory[i] == 0
    {
      pc := BIOS_ADDR;
      memory := new bv8[MEMORY_SIZE](_ => 0);
      bios := new Bios(image);
      R := new bv32[REGISTER_COUNT];
      new;
      forall i | 0 <= i < REGISTER_COUNT {
        R[i] := FILL;
      }
      R[0] := 0;
      AlignedFetchInBounds(BIOS_ADDR);
    }

    /** `getR`: agrees with `ReadReg`, and, since register 0 holds zero, with the array itself. */
    function GetR(i: nat): (v: bv32)
      reads this, R, bios
      requires Valid() && i < REGISTER_COUNT
      ensures i == 0 ==> v == 0
      ensures v == R[i]
    {
      if i != 0 then R[i] else 0
    }

    /** `setR`: the register file becomes `WriteReg` of the old one; nothing else changes. */
    method SetR(i: nat, v: bv32)
      requires Valid() && i < REGISTER_COUNT
      modifies R
      ensures Valid()
      ensures R[..] == WriteReg(old(R[..]), i, v)
    {
      if i != 0 {
        R[i] := v;
      }
    }

    /** The word whose bytes, least significant first, are the four RAM bytes at `o`. */
    function RamWord(o: nat): (w: bv32)
      reads this, memory
      requires memory.Length == MEMORY_SIZE && o + 3 < MEMORY_SIZE
      ensures FirstByte(w) == memory[o] && SecondByte(w) == memory[o + 1]
      ensures ThirdByte(w) == memory[o + 2] && FourthByte(w) == memory[o + 3]
    {
      BuildThenSplit(memory[o], memory[o + 1], memory[o + 2], memory[o + 3]);
      Build32(memory[o], memory[o + 1], memory[o + 2], memory[o + 3])
    }

    /**
     * `load32`: translates and classifies the address; a main-RAM address
     * yields the little-endian word at its offset in RAM, a BIOS address the
     * ROM word at its offset in the ROM, and every other region no value.
     */
    function Load32(addr: bv32): (r: Option<bv32>)
      reads this, memory, bios, bios.memory
      requires memory.Length == MEMORY_SIZE && bios.Valid() && FetchInBounds(addr)
      ensures r.Some? <==> Classify(Translate(addr)) in {Main, BiosRom}
    {
      var paddr := Translate(addr);
      match Classify(paddr)
      case Main =>
        Some(RamWord(MainOffset(paddr)))
      case BiosRom =>
        Some(bios.Load32(BiosOffset(paddr)))
      case _ =>
        None
    }

    /**
     * `decodeExecute`: a handled instruction updates the registers as
     * `Execute` says and advances the program counter by 4 (wrapping at
     * 2^32); an unhandled one stops the CPU before anything changes.
     */
    method DecodeExecute(instr: Instruction) returns (outcome: Outcome)
      requires Valid()
      modifies this, R
      ensures Valid()
      ensures Execute(old(R[..]), instr).Some? ==>
                && outcome == Retired
                && R[..] == Execute(old(R[..]), instr).value
                && pc == old(pc) + 4
      ensures Execute(old(R[..]), instr).None? ==>
                outcome == UnhandledInstruction && R[..] == old(R[..]) && pc == old(pc)
    {
      if instr.Opcode() != OP_LUI && instr.Opcode() != OP_ORI {
        return UnhandledInstruction;
      }
      WriteBack(instr);
      AdvancePc();
      return Retired;
    }

    /** The register write of a handled instruction, through `GetR` and `SetR`. */
    method WriteBack(instr: Instruction)
      requires Valid() && (instr.Opcode() == OP_LUI || instr.Opcode() == OP_ORI)
      modifies R
      ensures Valid()
      ensures R[..] == Execute(old(R[..]), instr).value
    {
      if instr.Opcode() == OP_LUI {
        var imm := instr.Immediate() << 16;
        SetR(RegisterNumber(instr.RT()), imm);
      } else {
        var imm := instr.Immediate();
        var rsValue := GetR(RegisterNumber(instr.RS()));
        SetR(RegisterNumber(instr.RT()), imm | rsValue);
      }
    }

    /** The program counter moves to the next word, wrapping at 2^32; it stays aligned. */
    method AdvancePc()
      requires Valid()
      modifies this
      ensures Valid() && pc == old(pc) + 4
    {
      pc := pc + 4;
      AlignedFetchInBounds(pc);
    }

    /** `mainLoop`: one fetch at the program counter and one execute of the fetched word. */
    method MainLoop() returns (outcome: Outcome)
      requires Valid()
      modifies this, R
      ensures Valid()
      ensures old(Load32(pc)).None? ==>
                outcome == UnhandledFetch && R[..] == old(R[..]) && pc == old(pc)
      ensures old(Load32(pc)).Some? ==>
                var next := Execute(old(R[..]), Instruction(old(Load32(pc)).value));
                && (next.Some? ==> outcome == Retired && R[..] == next.value && pc == old(pc) + 4)
                && (next.None? ==>
                      outcome == UnhandledInstruction && R[..] == old(R[..]) && pc == old(pc))
    {
      var word := Load32(pc);
      if word.None? {
        return UnhandledFetch;
      }
      outcome := DecodeExecute(Instruction(word.value));
    }
  }

  /** A main-RAM address reads the four RAM bytes at its offset, least significant first. */
  lemma FetchFromRam(cpu: Cpu, addr: bv32)
    requires cpu.memory.Length == MEMORY_SIZE && cpu.bios.Valid() && FetchInBounds(addr)
    requires Classify(Translate(addr)) == Main
    ensures cpu.Load32(addr).Some?
    ensures var o := MainOffset(Translate(addr));
            var w := cpu.Load32(addr).value;
            && FirstByte(w) == cpu.memory[o] && SecondByte(w) == cpu.memory[o + 1]
            && ThirdByte(w) == cpu.memory[o + 2] && FourthByte(w) == cpu.memory[o + 3]
  {
    var p := Translate(addr);
    assert MainOffset(p) + 3 < MEMORY_SIZE;
    assert cpu.Load32(addr) == Some(cpu.RamWord(MainOffset(p)));
  }

  /** A BIOS address reads the four ROM bytes at its offset, least significant first. */
  lemma FetchFromBios(cpu: Cpu, addr: bv32)
    requires cpu.memory.Length == MEMORY_SIZE && cpu.bios.Valid() && FetchInBounds(addr)
    requires Classify(Translate(addr)) == BiosRom
    ensures cpu.Load32(addr).Some?
    ensures var o := BiosOffset(Translate(addr));
            var w := cpu.Load32(addr).value;
            && FirstByte(w) == cpu.bios.memory[o] && SecondByte(w) == cpu.bios.memory[o + 1]
            && ThirdByte(w) == cpu.bios.memory[o + 2] && FourthByte(w) == cpu.bios.memory[o + 3]
  {
    var p := Translate(addr);
    assert BiosOffset(p) + 3 < BIOS_SIZE;
    assert cpu.Load32(addr) == Some(cpu.bios.Load32(BiosOffset(p)));
  }

  /** At reset the CPU fetches the first word of the ROM. */
  lemma ResetFetchesBiosStart(cpu: Cpu)
    requires cpu.Valid() && cpu.pc == BIOS_ADDR
    ensures cpu.Load32(cpu.pc) == Some(cpu.bios.Load32(0))
  {
    ResetVectorIsBiosStart();
  }

  /**
   * The program's start-up: build a CPU from the image and run one step.
   * With a wrong-size image the ROM is all zero, so the CPU fetches 0 (opcode
   * 0, not handled) and stops with every register as the constructor left it.
   */
  method BootWithWrongSizeImage(image: seq<bv8>) returns (outcome: Outcome, t0: bv32)
    requires |image| != BIOS_SIZE
    ensures outcome == UnhandledInstruction && t0 == FILL
  {
    var cpu := new Cpu(image);
    ResetFetchesBiosStart(cpu);
    ZeroRomReadsZero(cpu.bios, 0);
    outcome := cpu.MainLoop();
    t0 := cpu.GetR(ALIASES["t0"]);
  }

  /**
   * The program's start-up with a good image whose first word is
   * `lui $t0, 0x1234`: one step retires it and $t0 holds 0x1234_0000.
   */
  method BootRunsFirstInstruction(image: seq<bv8>) returns (outcome: Outcome, t0: bv32)
    requires |image| == BIOS_SIZE
    requires image[0] == 0x34 && image[1] == 0x12 && image[2] == 0x08 && image[3] == 0x3C
    ensures outcome == Retired && t0 == 0x1234_0000
  {
    var cpu := new Cpu(image);
    ResetFetchesBiosStart(cpu);
    SplitThenBuild(cpu.bios.Load32(0));
    outcome := cpu.MainLoop();
    t0 := cpu.GetR(ALIASES["t0"]);
  }
}
