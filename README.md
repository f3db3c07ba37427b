# A verified model of the probable-survival MIPS R3000 core

This project models the core of an early PlayStation-1 CPU emulator in Dafny. The emulator is written in C++.

- **Word packing and decoding** (`src/core/mips.h`). Four bytes are composed into a little-endian word and split back. Every field of the R-, I- and J-type MIPS I encodings is extracted from an instruction word.
- **Register file** (`src/core/cpu.h`). `setR` and `getR` work over 32 registers, and register 0 is hard-wired to zero.
- **Address map** (`src/core/cpu.cpp`, `CPU::load32`). A virtual address is folded onto a physical one through the four-segment mask table (KUSEG, KSEG0, KSEG1, KSEG2). The physical address is then classified by the source's ordered range checks.
- **BIOS ROM** (`src/core/bios.cpp`). A 512 KiB byte array that is filled only when the image has exactly that size. It is read as little-endian words.
- **Execution engine** (`src/core/cpu.cpp`). The CPU object owns the registers, the program counter, 2 MiB of RAM and the ROM. It fetches one word, executes LUI or ORI, and stops on any other opcode.

Values are `bv32` words and `bv8` bytes, as the source uses `uint32_t` and `uint8_t`. Wrap-around therefore comes from the type: `pc + 4` wraps at 2^32.

The modules are:

- `Mips` (`mips.dfy`): pure functions and lemmas.
- `AddressMap` (`address_map.dfy`): pure translation and classification.
- `Registers` (`registers.dfy`): the pure specification of `setR` and `getR`.
- `Firmware` (`bios.dfy`): the class `Bios` over a byte array.
- `Processor` (`cpu.dfy`): the class `Cpu`, and the pure function `Execute` that specifies `decodeExecute`.

The state-changing parts are classes with arrays and `modifies` clauses.

- `Cpu.Valid()` is the object invariant: register 0 is zero and the program counter is word-aligned. Every method preserves it.
- Alignment matters because the source never checks bounds. When an aligned address lands in RAM or the ROM, its four-byte read stays inside that array (`AlignedFetchInBounds`).

Facts about the code that shape the model:

- The main-RAM offset mask is `0x1fffff` and the BIOS mask is `0x7ffff`. Neither clears the low two bits.
- No read checks alignment or bounds.
- `getOffset` returns the zero-extended immediate (see Findings).
- The code has no delay slots, no coprocessor 0, and no stores, jumps, branches or ADDI/ADDIU.

## Model

| member | source | states |
|---|---|---|
| Mips.Build32 | src/core/mips.h:6-8 | the word is `a + 0x100*b + 0x1_0000*c + 0x100_0000*d`: `a` in bits 7-0, `d` in bits 31-24 (little-endian) |
| Mips.FirstByte | src/core/mips.h:10-12 | the byte is the word's base-256 digit of weight 1 |
| Mips.SecondByte | src/core/mips.h:13-15 | the byte is the word's base-256 digit of weight 0x100 |
| Mips.ThirdByte | src/core/mips.h:16-18 | the byte is the word's base-256 digit of weight 0x1_0000 |
| Mips.FourthByte | src/core/mips.h:19-21 | the byte is the word's base-256 digit of weight 0x100_0000 |
| Mips.SplitThenBuild | src/core/mips.h:6-21 | splitting a word into its four bytes and composing them again gives the word back |
| Mips.BuildThenSplit | src/core/mips.h:6-21 | composing four bytes and splitting the word gives each byte back in its place |
| Mips.FromBytes | src/core/mips.h:26-28 | the instruction built from four bytes has exactly those bytes, least significant first |
| Mips.Instruction.Opcode | src/core/mips.h:33-35 | the result is below 64 and is bits 31-26 of the word |
| Mips.Instruction.RS | src/core/mips.h:36-38 | the result is below 32 and is bits 25-21 of the word |
| Mips.Instruction.Base | src/core/mips.h:39-41 | the base register is bits 25-21 of the word, below 32 |
| Mips.Instruction.RT | src/core/mips.h:42-44 | the result is below 32 and is bits 20-16 of the word |
| Mips.Instruction.RD | src/core/mips.h:45-47 | the result is below 32 and is bits 15-11 of the word |
| Mips.Instruction.Shamt | src/core/mips.h:48-50 | the result is below 32 and is bits 10-6 of the word |
| Mips.Instruction.Funct | src/core/mips.h:51-53 | the result is below 64, and with bits 31-6 of the word it makes up the whole word |
| Mips.Instruction.Immediate | src/core/mips.h:54-56 | the result is below 0x1_0000, and with bits 31-16 of the word it makes up the whole word |
| Mips.Instruction.Offset | src/core/mips.h:57-59 | as written: the offset is the zero-extended immediate, so it is never negative |
| Mips.Instruction.SignedOffset | src/test/bit_tests.cpp:32-36 | corrected: the offset is the unique value in [-0x8000, 0x8000) congruent to the immediate modulo 0x1_0000 |
| Mips.Instruction.Address | src/core/mips.h:60-62 | the result is below 2^26, and with bits 31-26 of the word it makes up the whole word |
| Mips.RegisterNumber | src/core/cpu.h:111-119 | a five-bit register field is the register index of the same value, below 32, and it is index 0 exactly when the field is 0 |
| Mips.SignExtend16 | src/test/bit_tests.cpp:32-36 | a 16-bit pattern read as two's complement lies in [-0x8000, 0x8000) and agrees with the pattern modulo 0x1_0000 |
| Mips.ITypeRecomposes | src/core/mips.h:33-56 | opcode, rs, rt and immediate laid side by side give back the whole instruction word |
| Mips.RTypeRecomposes | src/core/mips.h:33-53 | opcode, rs, rt, rd, shamt and funct laid side by side give back the whole instruction word |
| Mips.JTypeRecomposes | src/core/mips.h:33-62 | opcode and jump target laid side by side give back the whole instruction word |
| Mips.AliasedFieldsAgree | src/core/mips.h:39-59 | `getBase` equals `getRS`, and `getOffset` equals `getImmediate` |
| Mips.ToInt32 | src/test/bit_tests.cpp:34 | a `uint32_t` converted to `int32_t` lies in [-2^31, 2^31) and agrees with the word modulo 2^32 |
| Mips.OffsetIsNotSignExtended | src/test/bit_tests.cpp:32-36 | as written, the offset of immediate 0xFFFF is 65535 as an `int32_t`, not -1, and the offset of 0x8000 is 32768, not -32768 |
| Mips.SignedOffsetExamples | src/test/bit_tests.cpp:32-36 | the corrected offset of 0xFFFF is -1, of 0x8000 is -32768, and of 0 is 0 |
| Mips.AllOnesFields | src/test/bit_tests.cpp:6-30 | each all-ones field pattern reads back as all ones from its extractor |
| AddressMap.RegionIndex | src/core/cpu.cpp:22 | the index is `addr >> 29`, the top three address bits, and so selects an entry inside the eight-entry mask table |
| AddressMap.Translate | src/core/cpu.cpp:14-23 | the physical address is never above the virtual one |
| AddressMap.MaskOfSegment | src/core/cpu.cpp:15-23 | KUSEG and KSEG2 select the identity mask, KSEG0 selects `0x7FFFFFFF`, KSEG1 selects `0x1FFFFFFF` |
| AddressMap.TranslateUnmapped | src/core/cpu.cpp:16-23 | KUSEG and KSEG2 addresses translate to themselves |
| AddressMap.TranslateKseg0 | src/core/cpu.cpp:17-23 | a KSEG0 address translates to itself minus 0x8000_0000 |
| AddressMap.TranslateKseg1 | src/core/cpu.cpp:18-23 | a KSEG1 address translates to itself minus 0xA000_0000 |
| AddressMap.TranslateBySegment | src/core/cpu.cpp:15-23 | translation in closed form for each of the four segments |
| AddressMap.TranslateKeepsOffset | src/core/cpu.cpp:15-23 | translation never changes the low 29 bits, the offset within a segment |
| AddressMap.TranslateIdempotent | src/core/cpu.cpp:15-23 | translating a physical address again changes nothing |
| AddressMap.Classify | src/core/cpu.cpp:27-50 | the first-match chain gives main RAM exactly to addresses below 0x0080_0000, and the BIOS exactly to [0x1FC0_0000, 0x1FC8_0000) |
| AddressMap.ClassifyRanges | src/core/cpu.cpp:27-50 | for each of the seven region tags, an address gets that tag if and only if it lies in the tag's ranges; the scratchpad tag also takes the gap [0x0080_0000, 0x1F00_0000) |
| AddressMap.ClassifyBoundaries | src/core/cpu.cpp:27-44 | the last main-RAM byte is 0x007F_FFFF, and the BIOS spans 0x1FC0_0000 up to but not including 0x1FC8_0000 |
| AddressMap.MainWindows | src/core/cpu.cpp:14-31 | a virtual address reaches main RAM if and only if it lies in one of three windows: KUSEG, KSEG0 or KSEG1 |
| AddressMap.BiosWindows | src/core/cpu.cpp:14-44 | a virtual address reaches the BIOS if and only if it lies in one of three windows: KUSEG, KSEG0 or KSEG1 |
| AddressMap.ResetVectorIsBiosStart | src/core/cpu.h:13 | `bios_addr` 0xBFC0_0000 translates to 0x1FC0_0000, which is classified as BIOS at ROM offset 0 |
| Registers.ReadReg | src/core/cpu.h:115-119 | `getR(0)` is 0 whatever register 0 holds; every other register reads as stored |
| Registers.WriteReg | src/core/cpu.h:111-114 | after `setR(i, v)`, register i holds v unless i is 0; every other register, and register 0, keeps its value |
| Registers.WriteZeroIsDiscarded | src/core/cpu.h:111-114 | `setR(0, v)` leaves the whole register file unchanged |
| Registers.ReadAfterWrite | src/core/cpu.h:111-119 | after `setR(i, v)`, `getR(i)` is v for i != 0, and every other `getR(j)` is unchanged |
| Registers.ZeroRegisterInvariant | src/core/cpu.h:111-119 | writes keep register 0 at zero, and then `getR` is plain indexing |
| Registers.AliasesNameRegisters | src/core/cpu.h:33-98 | every alias names one of the 32 registers; `zero` is 0, and `fp` and `s8` are both 30 |
| Firmware.Bios.constructor | src/core/bios.cpp:7-32 | an image of exactly `bios_size` bytes is installed byte for byte; any other image leaves the ROM all zero |
| Firmware.LoadImage | src/core/bios.cpp:15-28 | the image is read into a zero-filled 512 KiB array; afterwards the array equals an image of exactly `bios_size` bytes, and it is all zero for any other image |
| Firmware.Bios.Load32 | src/core/bios.cpp:34-37 | the word's bytes, least significant first, are the four ROM bytes from the offset; the ROM is only read |
| Firmware.ZeroRomReadsZero | src/core/bios.cpp:26-37 | an all-zero ROM, as a wrong-size image leaves it, reads 0 at every in-range offset |
| Processor.MainOffset | src/core/cpu.cpp:29 | `paddr & 0x1fffff` is an index below `memory_size` |
| Processor.BiosOffset | src/core/cpu.cpp:43 | `paddr & 0x7ffff` is an index below `bios_size` |
| Processor.AlignedOffsetsLeaveRoom | src/core/cpu.cpp:29-43 | an aligned physical address leaves four bytes before the end of both RAM and ROM |
| Processor.AlignedFetchInBounds | src/core/cpu.cpp:14-44 | every word-aligned virtual address is read inside the array it selects |
| Processor.UnalignedBiosFetchOverruns | src/core/cpu.cpp:41-43 | 0xBFC7_FFFD is a BIOS address whose unchecked word read runs past the end of the ROM |
| Processor.Execute | src/core/cpu.cpp:53-77 | an instruction has an effect if and only if its opcode is LUI (0x0f) or ORI (0x0d); such an effect writes at most register rt, and register 0 keeps its value |
| Processor.LuiLoadsUpperHalf | src/core/cpu.cpp:56-62 | LUI with rt != 0 puts the immediate in the upper half of rt and clears the lower half |
| Processor.UpperHalfShift | src/core/cpu.cpp:59 | shifting a 16-bit immediate left by 16 loses nothing and leaves the lower half zero |
| Processor.OriWritesOr | src/core/cpu.cpp:63-70 | ORI with rt != 0 leaves rt holding the immediate or-ed with `getR(rs)` |
| Processor.OriMergesImmediate | src/core/cpu.cpp:63-70 | ORI with rt != 0 keeps the upper half of rs in rt and or-s the immediate into the lower half |
| Processor.LowerHalfOr | src/core/cpu.cpp:66-68 | or-ing a 16-bit value into a word keeps the upper half and merges into the lower half |
| Processor.ZeroTargetIsNoOp | src/core/cpu.cpp:56-70 | LUI or ORI with rt = 0 changes no register |
| Processor.LuiThenOriLoadsConstant | src/core/cpu.cpp:56-70 | `lui rt, hi` then `ori rt, rt, lo` leaves `hi * 0x1_0000 + lo` in rt |
| Processor.HalvesCombine | src/core/cpu.cpp:68 | or-ing a 16-bit value into a word with a zero lower half adds it |
| Processor.LoadConstantExample | src/core/cpu.cpp:56-70 | the words 0x3C08_1234 and 0x3508_5678 leave 0x1234_5678 in $t0 |
| Processor.Cpu.constructor | src/core/cpu.cpp:7-12 | the CPU starts with pc = `bios_addr`, all RAM zero, registers 1-31 set to 0xdeadbeef, register 0 set to 0, and the ROM built from the image |
| Processor.Cpu.GetR | src/core/cpu.h:115-119 | `getR(0)` is 0, and under the invariant `getR(i)` is `R[i]` for every register |
| Processor.Cpu.SetR | src/core/cpu.h:111-114 | the register array becomes `WriteReg` of the old one, and the invariant is kept |
| Processor.Cpu.RamWord | src/core/cpu.cpp:29-30 | the word's bytes, least significant first, are the four RAM bytes from the offset |
| Processor.Cpu.Load32 | src/core/cpu.cpp:14-51 | `load32` yields a value if and only if the physical address is in main RAM or the BIOS |
| Processor.FetchFromRam | src/core/cpu.cpp:27-31 | a main-RAM read yields the little-endian word at `paddr & 0x1fffff` in RAM |
| Processor.FetchFromBios | src/core/cpu.cpp:41-44 | a BIOS read yields a word whose bytes, least significant first, are the four ROM bytes at `paddr & 0x7ffff` |
| Processor.ResetFetchesBiosStart | src/core/cpu.h:25 | from the reset `pc` the CPU fetches the word at ROM offset 0 |
| Processor.Cpu.DecodeExecute | src/core/cpu.cpp:53-77 | a handled instruction updates the registers as `Execute` says and advances pc by 4; an unhandled one stops with nothing changed; the invariant is kept |
| Processor.Cpu.WriteBack | src/core/cpu.cpp:54-70 | the LUI and ORI branches, through `setR` and `getR`, leave the registers as `Execute` says |
| Processor.Cpu.AdvancePc | src/core/cpu.cpp:76 | pc advances by 4, modulo 2^32, and stays aligned |
| Processor.Cpu.MainLoop | src/core/cpu.cpp:79-81 | one fetch at pc and one execute of the fetched word, with each outcome's new state stated |
| Processor.BootWithWrongSizeImage | src/prosur/main.cpp:90-92 | starting up with a wrong-size image fetches 0, an unhandled opcode, so the CPU stops with $t0 still 0xdeadbeef |
| Processor.BootRunsFirstInstruction | src/prosur/main.cpp:90-92 | starting up with an image that begins with `lui $t0, 0x1234` retires it, leaving $t0 = 0x1234_0000 |

## Left out

- Every `fmt::print` diagnostic and the logging facility of `src/core/log.h` are left out. Neither has any effect on state.
- Command-line parsing and process start-up in `src/prosur/main.cpp` are left out. The two boot methods model only the construction of the CPU and the one `mainLoop` call.
- Firmware.Bios.constructor: takes the image as bytes instead of a file path. A file that cannot be opened reads as an empty image, so the ROM stays zero.
- Firmware.Bios.constructor: a read that fails part-way through a file of the right length is not modelled. The model installs the whole image.
- The `hi` and `lo` registers are left out because nothing in the code uses them.
- The register alias references are modelled as a constant name-to-index map (`Registers.ALIASES`), not as C++ references.
- Processor.Cpu.GetR: requires an index below 32. The source does not check, and every register field the decoder produces is below 32.
- Processor.Cpu.SetR: requires an index below 32, for the same reason.
- Processor.Cpu.Load32: requires `FetchInBounds`. The source reads four bytes without a bounds or alignment check, and reading past the array is undefined behaviour in C++. The program counter is always aligned, so its fetches satisfy this (`AlignedFetchInBounds`).
- Processor.Cpu.Load32: returns `None` for expansion region 1, the scratchpad, the hardware registers, the I/O ports and unhandled addresses. The source falls off the end of a non-void function there, which is undefined behaviour.
- Processor.Cpu.MainLoop: stops with `UnhandledFetch` when `load32` yields no value. The source would go on to decode an indeterminate word.
- Processor.Cpu.DecodeExecute: models the bare `throw;` of the default branch, which calls `std::terminate`, as the outcome `UnhandledInstruction` with the state unchanged.
- `getOffset` has no caller in the core, because the code has no loads, stores or branches. The corrected `SignedOffset` is therefore used only by its own lemmas.

## Findings

| source | as written | input that shows it | evidently intended | confidence | as-written member | corrected member |
|---|---|---|---|---|---|---|
| src/core/mips.h:57-59 | `getOffset` returns `getImmediate()`, the zero-extended immediate | instruction word 0x0000FFFF: the offset converted to `int32_t` is 65535 | a sign-extended 16-bit offset, -1 for 0xFFFF, as the test at src/test/bit_tests.cpp:32-36 expects | not executed | Mips.OffsetIsNotSignExtended | Mips.Instruction.SignedOffset |
