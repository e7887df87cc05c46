/**
 * Pin set-up of the board that listens on the Mikrosha's buses: `addressBusInit`,
 * `dataBusInit` and `systemPinsInit` in src/initDevice.c.
 *
 * Each routine clears the MODE/CNF field of every pin it owns, ORs in the new MODE and
 * CNF values, and then drives some outputs through BSRR. The net effect on each register
 * word is stated as a function of the word before; the methods replay the routines'
 * writes one by one and are proved to have exactly that effect.
 *
 * Pins and their fields:
 *   PB3, PB4      address segment select, outputs     GPIOB CRL slots 3, 4
 *   PA8 .. PA11   address lines, floating inputs      GPIOA CRH slots 0 .. 3
 *   PB8 .. PB15   data bus, outputs                   GPIOB CRH slots 0 .. 7
 *   PB0 (EZ), PB1 (SED0/D1)  transceiver control      GPIOB CRL slots 0, 1
 *   PB6 (/32K), PB7 (/RD)    system signals, inputs   GPIOB CRL slots 6, 7
 */
module PinInit {
  import opened Gpio

  // MODE values.
  const INPUT: bv32 := 0x0
  const OUTPUT_50MHZ: bv32 := 0x3

  // CNF values; their meaning depends on MODE.
  const PUSH_PULL: bv32 := 0x0
  const FLOATING: bv32 := 0x1
  const PULL_UP_DOWN: bv32 := 0x2

  /** Transceiver output enable (active low: one keeps the transceiver off the bus). */
  const EZ: Pin := 0
  /** Transceiver direction select. */
  const SED: Pin := 1
  /** The /32K system signal. */
  const SIGNAL_32K: Pin := 6
  /** The /RD system signal. */
  const SIGNAL_RD: Pin := 7

  // The BSRR values the routines write.
  const BS0: bv32 := 1 << 0
  const BS1: bv32 := 1 << 1
  const BR6: bv32 := 1 << 22
  const BR7: bv32 := 1 << 23

  /** A pin's field holds the given MODE and CNF. */
  predicate ConfiguredAs(w: bv32, slot: Slot, mode: bv32, cnf: bv32)
  {
    Mode(w, slot) == mode && Cnf(w, slot) == cnf
  }

  /** GPIOB CRL after `addressBusInit`: PB3 and PB4 are 50 MHz push-pull outputs; the
      fields of all other pins are as before. */
  function AddressSelectCrl(crl: bv32): (r: bv32)
    ensures ConfiguredAs(r, 3, OUTPUT_50MHZ, PUSH_PULL)
    ensures ConfiguredAs(r, 4, OUTPUT_50MHZ, PUSH_PULL)
    ensures forall other: Slot :: other != 3 && other != 4 ==> Field(r, other) == Field(crl, other)
  {
    ConfigureKeepsOtherFields(crl, 3, OUTPUT_50MHZ, PUSH_PULL);
    ConfigureKeepsOtherFields(Configure(crl, 3, OUTPUT_50MHZ, PUSH_PULL), 4, OUTPUT_50MHZ, PUSH_PULL);
    Configure(Configure(crl, 3, OUTPUT_50MHZ, PUSH_PULL), 4, OUTPUT_50MHZ, PUSH_PULL)
  }

  /** GPIOA CRH after `addressBusInit`: PA8 .. PA11 are floating inputs; every other bit is
      as before. */
  function AddressLinesCrh(crh: bv32): (r: bv32)
    ensures ConfiguredAs(r, 0, INPUT, FLOATING) && ConfiguredAs(r, 1, INPUT, FLOATING)
    ensures ConfiguredAs(r, 2, INPUT, FLOATING) && ConfiguredAs(r, 3, INPUT, FLOATING)
    ensures r & 0xFFFF_0000 == crh & 0xFFFF_0000
  {
    Configure(Configure(Configure(Configure(crh,
      0, INPUT, FLOATING), 1, INPUT, FLOATING), 2, INPUT, FLOATING), 3, INPUT, FLOATING)
  }

  /** GPIOB CRH after `dataBusInit`: all eight data lines PB8 .. PB15 are 50 MHz push-pull
      outputs, so the word no longer depends on what it held before. */
  function DataBusCrh(crh: bv32): (r: bv32)
    ensures forall slot: Slot :: ConfiguredAs(r, slot, OUTPUT_50MHZ, PUSH_PULL)
  {
    Configure(Configure(Configure(Configure(Configure(Configure(Configure(Configure(crh,
      0, OUTPUT_50MHZ, PUSH_PULL), 1, OUTPUT_50MHZ, PUSH_PULL), 2, OUTPUT_50MHZ, PUSH_PULL),
      3, OUTPUT_50MHZ, PUSH_PULL), 4, OUTPUT_50MHZ, PUSH_PULL), 5, OUTPUT_50MHZ, PUSH_PULL),
      6, OUTPUT_50MHZ, PUSH_PULL), 7, OUTPUT_50MHZ, PUSH_PULL)
  }

  /** GPIOB CRL after `dataBusInit`: the transceiver lines EZ (PB0) and SED0/D1 (PB1) are
      50 MHz push-pull outputs; the fields of all other pins are as before. */
  function TransceiverCrl(crl: bv32): (r: bv32)
    ensures ConfiguredAs(r, 0, OUTPUT_50MHZ, PUSH_PULL)
    ensures ConfiguredAs(r, 1, OUTPUT_50MHZ, PUSH_PULL)
    ensures forall other: Slot :: other != 0 && other != 1 ==> Field(r, other) == Field(crl, other)
  {
    ConfigureKeepsOtherFields(crl, 0, OUTPUT_50MHZ, PUSH_PULL);
    ConfigureKeepsOtherFields(Configure(crl, 0, OUTPUT_50MHZ, PUSH_PULL), 1, OUTPUT_50MHZ, PUSH_PULL);
    Configure(Configure(crl, 0, OUTPUT_50MHZ, PUSH_PULL), 1, OUTPUT_50MHZ, PUSH_PULL)
  }

  /** GPIOB ODR after `dataBusInit`: EZ and SED0/D1 are driven high, so the transceiver is
      off the bus; every other output bit is as before. */
  function TransceiverOdr(odr: bv32): (r: bv32)
    ensures Bit(r, EZ) && Bit(r, SED)
    ensures r & !0x3 == odr & !0x3
  {
    ApplyBsrr(ApplyBsrr(odr, BS0), BS1)
  }

  /** GPIOB CRL after `systemPinsInit`: /32K (PB6) and /RD (PB7) are inputs with pull
      resistors; the fields of all other pins are as before. */
  function SystemPinsCrl(crl: bv32): (r: bv32)
    ensures ConfiguredAs(r, 6, INPUT, PULL_UP_DOWN)
    ensures ConfiguredAs(r, 7, INPUT, PULL_UP_DOWN)
    ensures forall other: Slot :: other != 6 && other != 7 ==> Field(r, other) == Field(crl, other)
  {
    ConfigureKeepsOtherFields(crl, 6, INPUT, PULL_UP_DOWN);
    ConfigureKeepsOtherFields(Configure(crl, 6, INPUT, PULL_UP_DOWN), 7, INPUT, PULL_UP_DOWN);
    Configure(Configure(crl, 6, INPUT, PULL_UP_DOWN), 7, INPUT, PULL_UP_DOWN)
  }

  /** GPIOB ODR after `systemPinsInit`: bits 6 and 7 are cleared, which selects pull-down for
      the two inputs; every other output bit is as before. */
  function SystemPinsOdr(odr: bv32): (r: bv32)
    ensures !Bit(r, SIGNAL_32K) && !Bit(r, SIGNAL_RD)
    ensures r & !0xC0 == odr & !0xC0
  {
    ApplyBsrr(ApplyBsrr(odr, BR6), BR7)
  }

  /** The data bus configuration does not depend on what GPIOB CRH held before. */
  lemma DataBusCrhFixed(crh: bv32)
    ensures DataBusCrh(crh) == 0x3333_3333
  {
  }

  // The three routines share GPIOB CRL but own disjoint pins, so each pair can run in
  // either order with the same result, and none undoes another's pins.

  lemma AddressSelectAndTransceiverCommute(crl: bv32)
    ensures AddressSelectCrl(TransceiverCrl(crl)) == TransceiverCrl(AddressSelectCrl(crl))
  {
  }

  lemma AddressSelectAndSystemPinsCommute(crl: bv32)
    ensures AddressSelectCrl(SystemPinsCrl(crl)) == SystemPinsCrl(AddressSelectCrl(crl))
  {
  }

  lemma TransceiverAndSystemPinsCommute(crl: bv32)
    ensures TransceiverCrl(SystemPinsCrl(crl)) == SystemPinsCrl(TransceiverCrl(crl))
  {
  }

  /** Running `systemPinsInit` after `dataBusInit` keeps the transceiver released: EZ stays an
      output driven high. */
  lemma SystemPinsKeepBusReleased(crl: bv32, odr: bv32)
    ensures ConfiguredAs(SystemPinsCrl(TransceiverCrl(crl)), 0, OUTPUT_50MHZ, PUSH_PULL)
    ensures Bit(SystemPinsOdr(TransceiverOdr(odr)), EZ)
  {
  }

  /** `addressBusInit`: the writes to GPIOB CRL and GPIOA CRH, in the routine's order. */
  method AddressBusInit(gpioa: GpioPort, gpiob: GpioPort)
    requires gpioa != gpiob
    modifies gpioa, gpiob
    ensures gpiob.crl == AddressSelectCrl(old(gpiob.crl))
    ensures gpioa.crh == AddressLinesCrh(old(gpioa.crh))
    ensures gpiob.crh == old(gpiob.crh) && gpiob.odr == old(gpiob.odr)
    ensures gpioa.crl == old(gpioa.crl) && gpioa.odr == old(gpioa.odr)
  {
    gpiob.crl := gpiob.crl & !FieldMask(3);
    gpiob.crl := gpiob.crl & !FieldMask(4);

    gpioa.crh := gpioa.crh & !FieldMask(0);
    gpioa.crh := gpioa.crh & !FieldMask(1);
    gpioa.crh := gpioa.crh & !FieldMask(2);
    gpioa.crh := gpioa.crh & !FieldMask(3);

    var mode := OUTPUT_50MHZ;
    var cnf := PUSH_PULL;
    gpiob.crl := gpiob.crl | FieldBits(3, mode, cnf);
    gpiob.crl := gpiob.crl | FieldBits(4, mode, cnf);

    mode := INPUT;
    cnf := FLOATING;
    gpioa.crh := gpioa.crh | FieldBits(0, mode, cnf);
    gpioa.crh := gpioa.crh | FieldBits(1, mode, cnf);
    gpioa.crh := gpioa.crh | FieldBits(2, mode, cnf);
    gpioa.crh := gpioa.crh | FieldBits(3, mode, cnf);
  }

  /** `dataBusInit`: the writes to GPIOB CRH, CRL and BSRR, in the routine's order. */
  method DataBusInit(gpiob: GpioPort)
    modifies gpiob
    ensures gpiob.crh == DataBusCrh(old(gpiob.crh))
    ensures gpiob.crl == TransceiverCrl(old(gpiob.crl))
    ensures gpiob.odr == TransceiverOdr(old(gpiob.odr))
  {
    gpiob.crh := gpiob.crh & !FieldMask(0);
    gpiob.crh := gpiob.crh & !FieldMask(1);
    gpiob.crh := gpiob.crh & !FieldMask(2);
    gpiob.crh := gpiob.crh & !FieldMask(3);
    gpiob.crh := gpiob.crh & !FieldMask(4);
    gpiob.crh := gpiob.crh & !FieldMask(5);
    gpiob.crh := gpiob.crh & !FieldMask(6);
    gpiob.crh := gpiob.crh & !FieldMask(7);

    gpiob.crl := gpiob.crl & !FieldMask(0);
    gpiob.crl := gpiob.crl & !FieldMask(1);

    var mode := OUTPUT_50MHZ;
    var cnf := PUSH_PULL;
    gpiob.crh := gpiob.crh | FieldBits(0, mode, cnf);
    gpiob.crh := gpiob.crh | FieldBits(1, mode, cnf);
    gpiob.crh := gpiob.crh | FieldBits(2, mode, cnf);
    gpiob.crh := gpiob.crh | FieldBits(3, mode, cnf);
    gpiob.crh := gpiob.crh | FieldBits(4, mode, cnf);
    gpiob.crh := gpiob.crh | FieldBits(5, mode, cnf);
    gpiob.crh := gpiob.crh | FieldBits(6, mode, cnf);
    gpiob.crh := gpiob.crh | FieldBits(7, mode, cnf);

    mode := OUTPUT_50MHZ;
    cnf := PUSH_PULL;
    gpiob.crl := gpiob.crl | FieldBits(0, mode, cnf);
    gpiob.crl := gpiob.crl | FieldBits(1, mode, cnf);

    gpiob.WriteBsrr(BS0);
    gpiob.WriteBsrr(BS1);
  }

  /** `systemPinsInit`: the writes to GPIOB CRL and BSRR, in the routine's order. */
  method SystemPinsInit(gpiob: GpioPort)
    modifies gpiob
    ensures gpiob.crl == SystemPinsCrl(old(gpiob.crl))
    ensures gpiob.odr == SystemPinsOdr(old(gpiob.odr))
    ensures gpiob.crh == old(gpiob.crh)
  {
    gpiob.crl := gpiob.crl & !FieldMask(6);
    gpiob.crl := gpiob.crl & !FieldMask(7);

    var mode := INPUT;
    var cnf := PULL_UP_DOWN;
    gpiob.crl := gpiob.crl | FieldBits(6, mode, cnf);
    gpiob.crl := gpiob.crl | FieldBits(7, mode, cnf);

    gpiob.WriteBsrr(BR6);
    gpiob.WriteBsrr(BR7);
  }
}
