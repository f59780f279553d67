/**
 * Hashable f64 keys (src/utils/hashable_float.rs). `integer_decode`
 * splits the bit pattern of an IEEE 754 binary64 value (IEEE 754-2019,
 * section 3.4) into (mantissa, unbiased exponent, sign); `HF64` wraps that
 * triple so it can be hashed and compared. The input is a `bv64` because the
 * `transmute` only reinterprets the bits.
 *
 * Masks used below: 0xf_ffff_ffff_ffff selects the 52 fraction bits,
 * 0x10_0000_0000_0000 is the implicit leading bit (bit 52) of a normal
 * number, and 1075 is the exponent bias 1023 plus the fraction width 52.
 */
module HashableFloat {

  /** The (u64, i16, i8) triple. The i16 and i8 are kept as ints: the ranges below show they fit. */
  datatype Decoded = Decoded(mantissa: bv64, exponent: int, sign: int)

  /** The biased exponent field, bits 52..62. */
  function ExponentField(bits: bv64): (f: bv64)
    ensures f < 0x800
  {
    (bits >> 52) & 0x7ff
  }

  function IntegerDecode(bits: bv64): (r: Decoded)
    ensures r.sign == 1 <==> bits & 0x8000_0000_0000_0000 == 0
    ensures r.sign == 1 || r.sign == -1
    ensures r.exponent == ExponentField(bits) as int - 1075
    ensures -1075 <= r.exponent <= 972
    ensures ExponentField(bits) == 0 ==>
      r.mantissa == (bits & 0xf_ffff_ffff_ffff) * 2 && r.mantissa & 1 == 0 && r.mantissa < 0x20_0000_0000_0000
    ensures ExponentField(bits) != 0 ==>
      r.mantissa & 0xf_ffff_ffff_ffff == bits & 0xf_ffff_ffff_ffff &&
      0x10_0000_0000_0000 <= r.mantissa < 0x20_0000_0000_0000
  {
    var sign := if bits >> 63 == 0 then 1 else -1;
    var field := ExponentField(bits);
    var mantissa := if field == 0 then (bits & 0xf_ffff_ffff_ffff) << 1
                    else (bits & 0xf_ffff_ffff_ffff) | 0x10_0000_0000_0000;
    Decoded(mantissa, field as int - 1075, sign)
  }

  /** Bit 63 for a sign of -1, no bit for +1. */
  function SignBit(sign: int): bv64 {
    if sign == 1 then 0 else 0x8000_0000_0000_0000
  }

  /** The biased exponent field for an unbiased exponent. */
  function FieldBits(exponent: int): bv64
    requires -1075 <= exponent <= 972
  {
    (exponent + 1075) as bv64
  }

  /** The 52 stored fraction bits: undo the shift of a subnormal, drop the hidden bit of a normal number. */
  function FractionBits(field: bv64, mantissa: bv64): bv64 {
    if field == 0 then mantissa >> 1 else mantissa & 0xf_ffff_ffff_ffff
  }

  function Assemble(signBit: bv64, field: bv64, fraction: bv64): bv64 {
    signBit | (field << 52) | fraction
  }

  /** The inverse of IntegerDecode: puts sign, exponent field and fraction back in their places. */
  function Encode(d: Decoded): bv64
    requires -1075 <= d.exponent <= 972
  {
    var field := FieldBits(d.exponent);
    Assemble(SignBit(d.sign), field, FractionBits(field, d.mantissa))
  }

  lemma SignRoundTrip(bits: bv64)
    ensures SignBit(IntegerDecode(bits).sign) == bits & 0x8000_0000_0000_0000
  {
  }

  lemma FieldRoundTrip(bits: bv64)
    ensures FieldBits(IntegerDecode(bits).exponent) == ExponentField(bits)
  {
    FieldBitsInverse(ExponentField(bits));
  }

  /** FieldBits undoes the unbiasing of an exponent field. */
  lemma FieldBitsInverse(field: bv64)
    requires field < 0x800
    ensures FieldBits(field as int - 1075) == field
  {
  }

  lemma FractionRoundTrip(bits: bv64)
    ensures FractionBits(ExponentField(bits), IntegerDecode(bits).mantissa) == bits & 0xf_ffff_ffff_ffff
  {
    if ExponentField(bits) == 0 {
      ShiftBack(bits & 0xf_ffff_ffff_ffff);
    }
  }

  lemma ShiftBack(fraction: bv64)
    requires fraction <= 0xf_ffff_ffff_ffff
    ensures (fraction * 2) >> 1 == fraction
  {
  }

  /** The sign bit, the exponent field and the fraction, each put back in place, rebuild the pattern. */
  lemma PartsRebuildPattern(bits: bv64)
    ensures Assemble(bits & 0x8000_0000_0000_0000, ExponentField(bits), bits & 0xf_ffff_ffff_ffff) == bits
  {
  }

  lemma EncodeInvertsDecode(bits: bv64)
    ensures Encode(IntegerDecode(bits)) == bits
  {
    SignRoundTrip(bits);
    FieldRoundTrip(bits);
    FractionRoundTrip(bits);
    PartsRebuildPattern(bits);
  }

  /** Two bit patterns decode to the same triple exactly when they are the same pattern. */
  lemma DecodeInjective(a: bv64, b: bv64)
    ensures IntegerDecode(a) == IntegerDecode(b) <==> a == b
  {
    if IntegerDecode(a) == IntegerDecode(b) {
      EncodeInvertsDecode(a);
      EncodeInvertsDecode(b);
    }
  }

  /** `HF64`: the derived Hash and Eq compare the decoded triple. */
  datatype HF64 = HF64(key: Decoded)

  /** `HF64::new`: the key is the decoded triple, whose exponent stays in the range Encode accepts. */
  function NewHF64(bits: bv64): (h: HF64)
    ensures -1075 <= h.key.exponent <= 972
  {
    HF64(IntegerDecode(bits))
  }

  /** The key of `HF64::new` loses nothing: encoding it gives back the bit pattern. */
  lemma NewHF64RoundTrip(bits: bv64)
    ensures Encode(NewHF64(bits).key) == bits
  {
    EncodeInvertsDecode(bits);
  }

  /** HF64 equality is bitwise equality of the wrapped f64. */
  lemma HF64EqualIffSameBits(a: bv64, b: bv64)
    ensures NewHF64(a) == NewHF64(b) <==> a == b
  {
    DecodeInjective(a, b);
  }

  /** +0.0 and -0.0 are different keys, although they compare equal as floats. */
  lemma SignedZerosDiffer()
    ensures NewHF64(0x0000_0000_0000_0000) != NewHF64(0x8000_0000_0000_0000)
    ensures NewHF64(0x8000_0000_0000_0000).key == Decoded(0, -1075, -1)
  {
  }
}
