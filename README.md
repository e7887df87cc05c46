# Boot-time device set-up of the Mikrosha ROM-emulator board (STM32F103)

This project models, in Dafny, the part of the firmware that brings the microcontroller
up before it starts serving the Mikrosha computer's bus:

* the clock bring-up `clockInit` (src/initDevice.c) and its twin `ClockInit` (src/main.c):
  start the external oscillator (HSE), start the PLL from it, add flash wait states, set
  the bus dividers, switch the system clock to the PLL and turn the internal RC oscillator
  (HSI) off — with a bounded wait and a rollback on each oscillator that fails to start;
* the pin set-up `addressBusInit`, `dataBusInit` and `systemPinsInit` (src/initDevice.c):
  read-modify-write of the 4-bit MODE/CNF fields in the GPIO CRL/CRH words and output
  writes through BSRR.

Files:

* `clock.dfy` — module `Clock`. The registers RCC->CR, RCC->CFGR and FLASH->ACR are `bv32`
  fields of the class `ClockRegisters`; the routine is the method `ClockInit`, split into
  its stages (`StartHse`, `ConfigurePll`, `StartPll`, `SwitchToPll`) as the source's
  commented sections are. The pure function `ClockInitSpec` states the outcome and the
  final register words from the starting words and the environment; `ClockInit` is proved
  to produce exactly that, and the lemmas state the timeout, rollback, ordering and
  success properties about `ClockInitSpec`.
* `gpio.dfy` — module `Gpio`. Field layout of CRL/CRH, `Configure` (clear a field, OR in
  MODE and CNF), the effect of a BSRR write on ODR, and the class `GpioPort`.
* `pin_init.dfy` — module `PinInit`. The net effect of each pin routine on each register
  word as a function with its "these fields become X, everything else is unchanged"
  contract; methods replaying the routines' writes one by one and proved to have that
  effect; lemmas that the bus transceiver is left released and that the three routines
  sharing GPIOB CRL do not disturb each other.

How the hardware is represented:

* Register bit positions are those of the STM32F10x reference manual (RM0008): HSION bit 0,
  HSEON 16, HSERDY 17, PLLON 24, PLLRDY 25 in RCC_CR; SW bits 0-1, SWS bits 2-3, HPRE 4,
  PPRE1 8, PPRE2 11, PLLSRC 16, PLLMULL 18 in RCC_CFGR; LATENCY bits 0-2 in FLASH_ACR;
  MODE at bit 4·slot and CNF at 4·slot + 2 in GPIO CRL/CRH; BSRR set bits 0-15 and reset
  bits 16-31, set winning when both are written. The device header stm32f1xx.h is not part
  of this model.
* The register words hold what the firmware writes. The bits the hardware drives on its own
  (HSERDY, PLLRDY, SWS) are not stored: each read of CR or CFGR returns the stored word with
  that flag or field taken from an `Environment` — one boolean per HSERDY read, one per
  PLLRDY read, one 2-bit SWS value per CFGR read in the final wait. A trace shorter than
  the number of reads reads the flag as clear from then on.
* The final wait for SWS to report the PLL has no bound in the source. `ClockInit` and
  `SwitchToPll` therefore require that the SWS trace reports the PLL at some read whenever
  both oscillators came up.
* `clockInit` (src/initDevice.c:15-103) and `ClockInit` (src/main.c:14-104) perform the
  same writes, tests and return codes with the same constants; they differ only in comments
  and the counter's name. They are modelled once. Rows below cite whichever copy
  documents the stated behaviour; the matching lines of the other copy are one line apart
  (for instance the HSE poll loop is src/initDevice.c:26-39 and src/main.c:25-40).

## Model

| member | source | states |
|---|---|---|
| Clock.ClockRegisters.ClockInit | src/initDevice.c:15-103 | The return code and all three register words after the routine are exactly those of `ClockInitSpec` for the starting words; the HSE poll makes at most 0x1002 HSERDY reads, the PLL poll at most 0x1002 PLLRDY reads, and no PLLRDY read happens when HSE timed out; code 0 is returned only after the final wait's CFGR read that first reports SWS = PLL (read number `FirstReport` + 1), every earlier read of that wait having failed the SWS test, and no CFGR status read happens on a timeout. |
| Clock.ClockInitSpec | src/main.c:14-104 | The outcome of the bring-up from the starting words and the hardware's answers; the return code is always 0, 1 or 2. |
| Clock.StatusCodes | src/main.c:9-13 | Code 1 exactly when HSERDY is not seen within the 0x1002 reads; code 2 exactly when HSE came up but PLLRDY is not seen within its 0x1002 reads; code 0 exactly when both came up. |
| Clock.HseTimeoutRollsBack | src/initDevice.c:23-38 | HSE never ready: returns 1, HSEON is clear, every other CR bit is as at entry, CFGR and FLASH_ACR are unchanged (the PLL is never touched). |
| Clock.PllTimeoutRollsBack | src/initDevice.c:50-68 | HSE ready but PLL never ready: returns 2, HSEON and PLLON are both clear, every other CR bit is as at entry, CFGR holds only the added PLL set-up (no switch request, no dividers), FLASH_ACR is unchanged. |
| Clock.PllOnlyAfterHseReady | src/main.c:29-51 | When HSERDY is never seen, CFGR and the PLLON bit end exactly as at entry; when it is seen, the PLL multiplier and source bits are in CFGR. |
| Clock.SuccessState | src/main.c:78-103 | Both ready: returns 0, CFGR has the SW = PLL request, the PLL set-up and the APB1 divider ORed in and no other CFGR bit changed, FLASH_ACR has latency 2 ORed in, HSE and PLL are on, HSION is clear and no other CR bit changed. |
| Clock.PollFromBounds | src/initDevice.c:26-39 | A poll loop stops at the first read that sees the flag: no read before its last one sees it, and it reports ready exactly when its last read sees the flag. |
| Clock.PollFrom | src/initDevice.c:26-39 | A poll loop entered with counter value c makes at least one read and at most 0x1002 − c reads, and gives up only after exactly 0x1002 reads in all (the read at counter 0x1001 being the last). |
| Clock.PollBounds | src/initDevice.c:53-69 | A whole poll loop makes between 1 and 0x1002 flag reads and stops at its first read that sees the flag. |
| Clock.PollReadyIff | src/main.c:25-40 | A poll loop succeeds exactly when one of the first 0x1002 reads sees the flag. |
| Clock.WithFlag | src/initDevice.c:29 | A read of CR shows the hardware's ready flag as reported and every other bit as last written. |
| Clock.WithSws | src/initDevice.c:88 | A read of CFGR passes the test `(CFGR & SWS_Msk) == 0b10 << SWS_Pos` exactly when the hardware reports 0b10 (PLL) in SWS, and shows every other bit as last written. |
| Clock.ReadsPllIff | src/initDevice.c:88 | The final wait's test on a CFGR read passes exactly when the hardware reports 0b10 (PLL) in SWS, whatever the rest of CFGR holds. |
| Clock.FirstReport | src/main.c:89-91 | The index of the first read at which the hardware reports the PLL as system clock: it reports the PLL there and at no earlier read. |
| Clock.ClockRegisters.StartHse | src/initDevice.c:23-39 | Sets HSEON and polls HSERDY: reports ready exactly as the poll loop does, with the same read count; on timeout clears HSEON again, so CR ends as at entry without HSEON; CFGR and FLASH_ACR untouched. |
| Clock.ClockRegisters.ConfigurePll | src/initDevice.c:45-47 | ORs PLLMULL = 0b0111 and PLLSRC = HSE into CFGR and changes nothing else. |
| Clock.ClockRegisters.StartPll | src/initDevice.c:50-69 | Sets PLLON and polls PLLRDY: reports ready exactly as the poll loop does; on timeout CR ends with both HSEON and PLLON clear and every other bit as at entry. |
| Clock.ClockRegisters.StopHseAndPll | src/initDevice.c:65-66 | Clears HSEON, then PLLON, and nothing else. |
| Clock.ClockRegisters.SwitchToPll | src/initDevice.c:75-96 | ORs latency 2 into FLASH_ACR and the dividers and SW = PLL into CFGR, waits until a CFGR read reports SWS = PLL — returning after exactly the first such read, every earlier read having failed the test — then clears HSION and nothing else. |
| Gpio.FieldBits | src/initDevice.c:160 | The value ORed in for a pin, `mode` shifted to MODEx_Pos combined with `cnf` shifted to CNFx_Pos, reads back the given MODE and CNF in the pin's field and has no bit outside it. |
| Gpio.Configure | src/initDevice.c:145-161 | Clearing a pin's field and ORing in MODE and CNF leaves exactly those values in the field and every bit outside it unchanged. |
| Gpio.ConfigureKeepsOtherField | src/initDevice.c:145-146 | Clearing and refilling one pin's field leaves the field of any other pin as it was. |
| Gpio.ConfigureKeepsOtherFields | src/initDevice.c:145-161 | Clearing and refilling one pin's field leaves the fields of all other pins as they were. |
| Gpio.SameFields | src/initDevice.c:145-146 | CRL and CRH consist of the eight 4-bit pin fields and nothing else: two words whose fields all agree are equal, so "every other pin's field is unchanged" means "every other bit is unchanged". |
| Gpio.BsrrSetsAndResets | src/initDevice.c:215-216 | After a BSRR write the pins it sets read one and the pins it only resets read zero. |
| Gpio.ApplyBsrr | src/initDevice.c:215-216 | A BSRR write leaves every ODR bit it neither sets nor resets unchanged. |
| Gpio.BsrrSetPin | src/initDevice.c:215 | Writing the single bit BSx sets ODR bit x and changes no other bit. |
| Gpio.BsrrResetPin | src/initDevice.c:280 | Writing the single bit BRx clears ODR bit x and changes no other bit. |
| Gpio.GpioPort.WriteBsrr | src/initDevice.c:280-281 | A BSRR write changes ODR as the reference manual defines and leaves CRL and CRH alone. |
| PinInit.AddressSelectCrl | src/initDevice.c:145-161 | In GPIOB CRL, PB3 and PB4 become MODE = 0b11, CNF = 0b00 (50 MHz push-pull outputs); the fields of all other pins (so all other bits) are unchanged. |
| PinInit.AddressLinesCrh | src/initDevice.c:148-170 | In GPIOA CRH, PA8 .. PA11 become MODE = 0b00, CNF = 0b01 (floating inputs); bits 16-31 (PA12 .. PA15) are unchanged. |
| PinInit.DataBusCrh | src/initDevice.c:180-205 | In GPIOB CRH, every one of PB8 .. PB15 becomes MODE = 0b11, CNF = 0b00. |
| PinInit.DataBusCrhFixed | src/initDevice.c:180-205 | The data-bus CRH word is 0x33333333 whatever CRH held before. |
| PinInit.TransceiverCrl | src/initDevice.c:190-210 | In GPIOB CRL, EZ (PB0) and SED0/D1 (PB1) become 50 MHz push-pull outputs; the fields of all other pins (so all other bits) are unchanged. |
| PinInit.TransceiverOdr | src/initDevice.c:212-216 | After `dataBusInit` ODR bits 0 and 1 are set (EZ = 1, the transceiver is off the bus) and every other ODR bit is unchanged. |
| PinInit.SystemPinsCrl | src/initDevice.c:270-277 | In GPIOB CRL, PB6 and PB7 become MODE = 0b00, CNF = 0b10 (inputs with pull resistor); the fields of all other pins (so all other bits) are unchanged. |
| PinInit.SystemPinsOdr | src/initDevice.c:279-281 | After `systemPinsInit` ODR bits 6 and 7 are clear (pull-down selected) and every other ODR bit is unchanged. |
| PinInit.AddressSelectAndTransceiverCommute | src/initDevice.c:145-210 | The GPIOB CRL updates of `addressBusInit` and `dataBusInit` give the same word in either order. |
| PinInit.AddressSelectAndSystemPinsCommute | src/initDevice.c:145-277 | The GPIOB CRL updates of `addressBusInit` and `systemPinsInit` give the same word in either order. |
| PinInit.TransceiverAndSystemPinsCommute | src/initDevice.c:190-277 | The GPIOB CRL updates of `dataBusInit` and `systemPinsInit` give the same word in either order. |
| PinInit.SystemPinsKeepBusReleased | src/initDevice.c:209-281 | Running `systemPinsInit` after `dataBusInit` keeps EZ a push-pull output driven high, so the bus stays released. |
| PinInit.AddressBusInit | src/initDevice.c:136-171 | The routine's writes, in order, turn GPIOB CRL into `AddressSelectCrl` and GPIOA CRH into `AddressLinesCrh` of their old values and change no other register of either port. |
| PinInit.DataBusInit | src/initDevice.c:175-216 | The routine's writes, in order, turn GPIOB CRH into `DataBusCrh`, CRL into `TransceiverCrl` and ODR into `TransceiverOdr` of their old values. |
| PinInit.SystemPinsInit | src/initDevice.c:263-282 | The routine's writes, in order, turn GPIOB CRL into `SystemPinsCrl` and ODR into `SystemPinsOdr` of their old values and leave CRH alone. |

## Left out

- `msDelay` (src/main.c:107-114): a calibrated busy-wait whose only meaning is timing.
- `main` (src/main.c:117-149): a non-terminating LED demo; it writes `1<<LED1` to BSRR and BRR (src/main.c:144-145), and src/main.c never defines `LED1`.
- `disableGlobalInterrupt`: one inline assembly instruction that masks interrupts; nothing in the register model changes.
- `portClockInit`, `disableJtag` and `debugLedInit`: single peripheral-enable and LED-pin writes with nothing to state beyond the bit they set.
- `dataBusPullDown`: sample code that nothing calls.
- src/initDevice.h holds declarations only.
- Clock frequencies, the duration of each poll iteration and the volatile access semantics are not modelled; the hardware's answers are the `Environment` traces.
- Clock.ClockRegisters.ClockInit and Clock.ClockRegisters.SwitchToPll: the run in which both oscillators start but SWS never reports the PLL (the source then waits forever) is excluded by their precondition rather than modelled as non-termination.
- The status bits are not kept in the register words between reads, so the model does not say what HSERDY, PLLRDY or SWS read after the routine returns.
- The bus poll loop, address capture and ROM lookup of the firmware are not part of this model.
