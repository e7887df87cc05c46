/**
 * The STM32F1 GPIO port registers the pin set-up writes, as plain 32-bit words.
 *
 * CRL holds the 4-bit configuration fields of pins 0-7 and CRH those of pins 8-15:
 * the field of a pin sits at bit 4 * slot, where slot is the pin number (CRL) or the pin
 * number minus 8 (CRH). Within a field, MODE is bits 0-1 and CNF bits 2-3
 * (STM32F10x reference manual RM0008, sections 9.2.1 and 9.2.2).
 *
 * A write to BSRR changes ODR: a one in bits 0-15 sets the matching output bit, a one
 * in bits 16-31 resets it, and where both are written the set wins (RM0008, section 9.2.5).
 */
module Gpio {

  /** The position of a pin's field within CRL or CRH. */
  type Slot = s: bv32 | s < 8

  /** The four bits MODEx | CNFx of a slot. */
  function FieldMask(slot: Slot): bv32
  {
    0xF << (4 * slot)
  }

  /** The 4-bit field of a slot, CNF in bits 2-3 and MODE in bits 0-1. */
  function Field(w: bv32, slot: Slot): (f: bv32)
    ensures f < 16
  {
    (w >> (4 * slot)) & 0xF
  }

  function Mode(w: bv32, slot: Slot): bv32
  {
    Field(w, slot) & 0x3
  }

  function Cnf(w: bv32, slot: Slot): bv32
  {
    Field(w, slot) >> 2
  }

  /** The value `(mode << MODEx_Pos) | (cnf << CNFx_Pos)` ORed into a cleared field. */
  function FieldBits(slot: Slot, mode: bv32, cnf: bv32): (b: bv32)
    requires mode < 4 && cnf < 4
    ensures b & !FieldMask(slot) == 0
    ensures Mode(b, slot) == mode && Cnf(b, slot) == cnf
  {
    (mode << (4 * slot)) | (cnf << (4 * slot + 2))
  }

  /** Clearing a field and ORing in new MODE and CNF values: the field reads back exactly those
      values and every bit outside it keeps its value. */
  function Configure(w: bv32, slot: Slot, mode: bv32, cnf: bv32): (r: bv32)
    requires mode < 4 && cnf < 4
    ensures Mode(r, slot) == mode && Cnf(r, slot) == cnf
    ensures r & !FieldMask(slot) == w & !FieldMask(slot)
  {
    (w & !FieldMask(slot)) | FieldBits(slot, mode, cnf)
  }

  /** Configuring one field leaves the field of one other slot as it was. */
  lemma ConfigureKeepsOtherField(w: bv32, slot: Slot, other: Slot, mode: bv32, cnf: bv32)
    requires mode < 4 && cnf < 4 && slot != other
    ensures Field(Configure(w, slot, mode, cnf), other) == Field(w, other)
  {
  }

  /** Configuring one field leaves the fields of all other slots as they were. */
  lemma ConfigureKeepsOtherFields(w: bv32, slot: Slot, mode: bv32, cnf: bv32)
    requires mode < 4 && cnf < 4
    ensures forall other: Slot :: other != slot ==>
      Field(Configure(w, slot, mode, cnf), other) == Field(w, other)
  {
    forall other: Slot | other != slot
      ensures Field(Configure(w, slot, mode, cnf), other) == Field(w, other)
    {
      ConfigureKeepsOtherField(w, slot, other, mode, cnf);
    }
  }

  /** The eight fields cover the whole word: two words with the same fields are equal. */
  lemma SameFields(a: bv32, b: bv32)
    requires forall slot: Slot :: Field(a, slot) == Field(b, slot)
    ensures a == b
  {
    assert Field(a, 0) == Field(b, 0) && Field(a, 1) == Field(b, 1);
    assert Field(a, 2) == Field(b, 2) && Field(a, 3) == Field(b, 3);
    assert Field(a, 4) == Field(b, 4) && Field(a, 5) == Field(b, 5);
    assert Field(a, 6) == Field(b, 6) && Field(a, 7) == Field(b, 7);
  }

  /** A pin number within one port. */
  type Pin = p: bv32 | p < 16

  /** The output bit of a pin in ODR. */
  predicate Bit(w: bv32, p: Pin)
  {
    (w >> p) & 1 == 1
  }

  /** ODR after a write of v to BSRR: every ODR bit that v neither sets nor resets keeps its
      value. */
  function ApplyBsrr(odr: bv32, v: bv32): (r: bv32)
    ensures r & !((v & 0xFFFF) | (v >> 16)) == odr & !((v & 0xFFFF) | (v >> 16))
  {
    (odr & !(v >> 16)) | (v & 0xFFFF)
  }

  /** The pins set by bits 0-15 of v read one, and the pins reset by bits 16-31 of v and not
      also set read zero. */
  lemma BsrrSetsAndResets(odr: bv32, v: bv32)
    ensures ApplyBsrr(odr, v) & (v & 0xFFFF) == v & 0xFFFF
    ensures ApplyBsrr(odr, v) & ((v >> 16) & !(v & 0xFFFF)) == 0
  {
  }

  /** Writing the single bit BSx drives pin x high and nothing else. */
  lemma BsrrSetPin(odr: bv32, p: Pin)
    ensures ApplyBsrr(odr, 1 << p) == odr | (1 << p)
    ensures Bit(ApplyBsrr(odr, 1 << p), p)
  {
  }

  /** Writing the single bit BRx drives pin x low and nothing else. */
  lemma BsrrResetPin(odr: bv32, p: Pin)
    ensures ApplyBsrr(odr, 1 << (p + 16)) == odr & !(1 << p)
    ensures !Bit(ApplyBsrr(odr, 1 << (p + 16)), p)
  {
  }

  /** One GPIO port: the two configuration words and the output data word. */
  class GpioPort {
    var crl: bv32
    var crh: bv32
    var odr: bv32

    constructor (crl0: bv32, crh0: bv32, odr0: bv32)
      ensures crl == crl0 && crh == crh0 && odr == odr0
    {
      crl, crh, odr := crl0, crh0, odr0;
    }

    /** `BSRR = v`: only ODR changes. */
    method WriteBsrr(v: bv32)
      modifies this
      ensures odr == ApplyBsrr(old(odr), v)
      ensures crl == old(crl) && crh == old(crh)
    {
      odr := ApplyBsrr(odr, v);
    }
  }
}
