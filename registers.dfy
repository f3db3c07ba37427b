/**
 * The general-purpose register file of `CPU` (src/core/cpu.h) as a value: 32
 * words, of which register 0 is hard-wired to zero. `ReadReg` and `WriteReg`
 * are the specifications of `getR` and `setR`; the class `Processor.Cpu`
 * implements them over its array.
 */
module Registers {

  const REGISTER_COUNT := 32

  /** What `getR` yields: register 0 reads as zero whatever the file holds. */
  function ReadReg(regs: seq<bv32>, i: nat): (r: bv32)
    requires |regs| == REGISTER_COUNT && i < REGISTER_COUNT
    ensures i == 0 ==> r == 0
    ensures i != 0 ==> r == regs[i]
  {
    if i != 0 then regs[i] else 0
  }

  /**
   * What `setR` leaves behind: register `i` holds `v`, unless `i` is 0, whose
   * write is discarded; every other register keeps its value.
   */
  function WriteReg(regs: seq<bv32>, i: nat, v: bv32): (r: seq<bv32>)
    requires |regs| == REGISTER_COUNT && i < REGISTER_COUNT
    ensures |r| == REGISTER_COUNT
    ensures i != 0 ==> r[i] == v
    ensures forall j :: 0 <= j < REGISTER_COUNT && (j == 0 || j != i) ==> r[j] == regs[j]
  {
    if i != 0 then regs[i := v] else regs
  }

  /** A write to register 0 leaves the whole file as it was. */
  lemma WriteZeroIsDiscarded(regs: seq<bv32>, v: bv32)
    requires |regs| == REGISTER_COUNT
    ensures WriteReg(regs, 0, v) == regs
  {
  }

  /** Reading back: the written register yields the value written, every other one is unchanged. */
  lemma ReadAfterWrite(regs: seq<bv32>, i: nat, v: bv32, j: nat)
    requires |regs| == REGISTER_COUNT && i < REGISTER_COUNT && j < REGISTER_COUNT
    ensures ReadReg(WriteReg(regs, i, v), j) == if i != 0 && j == i then v else ReadReg(regs, j)
  {
  }

  /**
   * Writes never make register 0 non-zero, so a file that starts with a zero
   * register 0 keeps it, and then reading any register is plain indexing.
   */
  lemma ZeroRegisterInvariant(regs: seq<bv32>, i: nat, v: bv32, j: nat)
    requires |regs| == REGISTER_COUNT && regs[0] == 0
    requires i < REGISTER_COUNT && j < REGISTER_COUNT
    ensures WriteReg(regs, i, v)[0] == 0
    ensures ReadReg(regs, j) == regs[j]
  {
  }

  /** The conventional names of the registers, as the source's alias references give them. */
  const ALIASES: map<string, nat> := map[
    "zero" := 0, "at" := 1, "v0" := 2, "v1" := 3,
    "a0" := 4, "a1" := 5, "a2" := 6, "a3" := 7,
    "t0" := 8, "t1" := 9, "t2" := 10, "t3" := 11,
    "t4" := 12, "t5" := 13, "t6" := 14, "t7" := 15,
    "s0" := 16, "s1" := 17, "s2" := 18, "s3" := 19,
    "s4" := 20, "s5" := 21, "s6" := 22, "s7" := 23,
    "t8" := 24, "t9" := 25, "k0" := 26, "k1" := 27,
    "gp" := 28, "sp" := 29, "fp" := 30, "s8" := 30, "ra" := 31
  ]

  /** Every alias names a register of the file, and `fp` and `s8` name the same one. */
  lemma AliasesNameRegisters()
    ensures forall name :: name in ALIASES ==> ALIASES[name] < REGISTER_COUNT
    ensures ALIASES["zero"] == 0 && ALIASES["fp"] == ALIASES["s8"] == 30
  {
  }
}
