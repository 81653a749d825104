/**
 * The version-information fields of CPUID leaf 01H, as printed by asm/cpuid.c.
 *
 * Register EAX returned by leaf 01H packs the processor signature (Intel 64 and
 * IA-32 Architectures Software Developer's Manual, Volume 2A, instruction
 * CPUID, "Version Information"): stepping in bits 0-3, model in bits 4-7,
 * family in bits 8-11, processor type in bits 12-13, extended model in bits
 * 16-19 and extended family in bits 20-27; bits 14-15 and 28-31 are reserved.
 * Only the field extraction is modelled: EAX is an input.
 */
module Cpuid {

  /** The six fields; each type is as wide as the field's bit range. */
  datatype VersionInfo = VersionInfo(
    stepping: bv4,
    model: bv4,
    family: bv4,
    processorType: bv2,
    extendedModel: bv4,
    extendedFamily: bv8)

  /** Bits 14-15 and 28-31, which no field covers. */
  const ReservedBits: bv32 := 0xF000_C000

  /** Lines 22-27: each field is the value of its bit range of `eax`. */
  function DecodeVersion(eax: bv32): (v: VersionInfo)
    ensures v.stepping as bv32 == eax % 0x10
    ensures v.model as bv32 == eax / 0x10 % 0x10
    ensures v.family as bv32 == eax / 0x100 % 0x10
    ensures v.processorType as bv32 == eax / 0x1000 % 0x4
    ensures v.extendedModel as bv32 == eax / 0x1_0000 % 0x10
    ensures v.extendedFamily as bv32 == eax / 0x10_0000 % 0x100
  {
    VersionInfo(
      (eax & 0xF) as bv4,
      ((eax >> 4) & 0xF) as bv4,
      ((eax >> 8) & 0xF) as bv4,
      ((eax >> 12) & 0x3) as bv2,
      ((eax >> 16) & 0xF) as bv4,
      ((eax >> 20) & 0xFF) as bv8)
  }

  /** The signature whose fields are those of `v` and whose reserved bits are zero. */
  function EncodeVersion(v: VersionInfo): (eax: bv32)
    ensures eax & ReservedBits == 0
  {
    (v.stepping as bv32)
    | ((v.model as bv32) << 4)
    | ((v.family as bv32) << 8)
    | ((v.processorType as bv32) << 12)
    | ((v.extendedModel as bv32) << 16)
    | ((v.extendedFamily as bv32) << 20)
  }

  /** The fields cover disjoint bit ranges: encoding a decoded signature gives it back when its reserved bits are zero. */
  lemma EncodeDecode(eax: bv32)
    requires eax & ReservedBits == 0
    ensures EncodeVersion(DecodeVersion(eax)) == eax
  {
  }

  /** Decoding an encoded signature gives back every field. */
  lemma DecodeEncode(v: VersionInfo)
    ensures DecodeVersion(EncodeVersion(v)) == v
  {
  }
}
