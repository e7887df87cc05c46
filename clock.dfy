/**
 * Boot-time clock bring-up of the STM32F1 firmware: `clockInit` in
 * src/initDevice.c and its twin `ClockInit` in src/main.c, which run the same
 * sequence with the same constants.
 *
 * The registers RCC->CR, RCC->CFGR and FLASH->ACR are plain 32-bit words holding what
 * the firmware wrote. The bits the hardware drives on its own (HSERDY, PLLRDY and the
 * SWS field) come from an environment trace instead: the i-th read of a ready flag sees
 * the i-th entry of its trace, and the k-th read of CFGR in the final wait sees the k-th
 * entry of the switch-status trace in its SWS field.
 */
module Clock {

  // RCC->CR bits (STM32F10x reference manual RM0008, section 7.3.1).
  const HSION: bv32 := 1 << 0
  const HSEON: bv32 := 1 << 16
  const HSERDY: bv32 := 1 << 17
  const PLLON: bv32 := 1 << 24
  const PLLRDY: bv32 := 1 << 25

  // RCC->CFGR fields (RM0008, section 7.3.2).
  const SW_PLL: bv32 := 0x02 << 0
  const SWS_MASK: bv32 := 0x3 << 2
  const SWS_PLL: bv32 := 0x02 << 2
  /** PLLMULL = 0b0111 (input times 9) and PLLSRC = HSE. */
  const PLL_CONFIG: bv32 := (0x07 << 18) | (0x01 << 16)
  /** PPRE2 = 0 (APB2 undivided), PPRE1 = 0b100 (APB1 halved), HPRE = 0 (AHB undivided). */
  const BUS_DIVIDERS: bv32 := (0x00 << 11) | (0x04 << 8) | (0x00 << 4)

  /** FLASH->ACR LATENCY = 2 wait states (RM0008, section 3.3.3). */
  const LATENCY_2: bv32 := 0x02 << 0

  /** A poll loop gives up once its counter is greater than this. */
  const CEILING: nat := 0x1000
  /** Reads one poll loop makes at most: one for each counter value 0 .. CEILING + 1. */
  const MAX_READS: nat := CEILING + 2

  // Return codes documented above both copies of the routine.
  const OK: int := 0
  const HSE_TIMEOUT: int := 1
  const PLL_TIMEOUT: int := 2

  /** What the hardware answers to the firmware's status reads, read by read. */
  datatype Environment = Environment(hseReady: seq<bool>, pllReady: seq<bool>, switchStatus: seq<bv2>)

  /** The i-th read of a ready flag; reads beyond the end of the trace see the flag clear. */
  predicate FlagAt(trace: seq<bool>, i: nat)
  {
    i < |trace| && trace[i]
  }

  /** The flag is seen set by one of the reads a poll loop makes before giving up. */
  ghost predicate ReadyWithinCeiling(trace: seq<bool>)
  {
    exists i :: 0 <= i < MAX_READS && FlagAt(trace, i)
  }

  /** The switch-status trace reports the PLL (SWS = 0b10) at some read. */
  ghost predicate SwitchReported(trace: seq<bv2>)
  {
    exists k :: 0 <= k < |trace| && trace[k] == 2
  }

  /** The read of the switch-status trace that first reports the PLL. */
  ghost function FirstReport(trace: seq<bv2>): (k: nat)
    requires SwitchReported(trace)
    ensures k < |trace| && trace[k] == 2
    ensures forall j :: 0 <= j < k ==> trace[j] != 2
  {
    if trace[0] == 2 then 0
    else
      var k :| 0 <= k < |trace| && trace[k] == 2;
      assert trace[1..][k - 1] == 2;
      1 + FirstReport(trace[1..])
  }

  /** How a poll loop ended and how many flag reads it made. */
  datatype Poll = Poll(ready: bool, readCount: nat)

  /** The counter loop `for (counter = 0; ; counter++)`, entered at the given counter value:
      it reads at least once and at most up to the read at counter CEILING + 1, and it gives
      up only after that last read. */
  function PollFrom(trace: seq<bool>, counter: nat): (p: Poll)
    requires counter <= CEILING + 1
    ensures counter < p.readCount <= MAX_READS
    ensures !p.ready ==> p.readCount == MAX_READS
    decreases CEILING + 1 - counter
  {
    if FlagAt(trace, counter) then Poll(true, counter + 1)
    else if counter > CEILING then Poll(false, counter + 1)
    else PollFrom(trace, counter + 1)
  }

  function PollReady(trace: seq<bool>): Poll
  {
    PollFrom(trace, 0)
  }

  /** A poll loop entered at `counter` stops at the first read that sees the flag, and reports
      ready exactly when its last read saw the flag. */
  lemma {:induction false} PollFromBounds(trace: seq<bool>, counter: nat)
    requires counter <= CEILING + 1
    ensures forall i :: counter <= i < PollFrom(trace, counter).readCount - 1 ==> !FlagAt(trace, i)
    ensures PollFrom(trace, counter).ready <==> FlagAt(trace, PollFrom(trace, counter).readCount - 1)
    decreases CEILING + 1 - counter
  {
    if !FlagAt(trace, counter) && counter <= CEILING {
      PollFromBounds(trace, counter + 1);
    }
  }

  /** A whole poll loop reads the flag at most MAX_READS times, and stops at its first set read. */
  lemma PollBounds(trace: seq<bool>)
    ensures 1 <= PollReady(trace).readCount <= MAX_READS
    ensures forall i :: 0 <= i < PollReady(trace).readCount - 1 ==> !FlagAt(trace, i)
    ensures PollReady(trace).ready <==> FlagAt(trace, PollReady(trace).readCount - 1)
  {
    PollFromBounds(trace, 0);
  }

  /** A poll loop succeeds exactly when one of its MAX_READS reads sees the flag. */
  lemma PollReadyIff(trace: seq<bool>)
    ensures PollReady(trace).ready <==> ReadyWithinCeiling(trace)
  {
    PollFromBounds(trace, 0);
    var p := PollReady(trace);
    if p.ready {
      assert 0 <= p.readCount - 1 < MAX_READS && FlagAt(trace, p.readCount - 1);
    }
  }

  /** The three register words the routine touches. */
  datatype ClockWords = ClockWords(cr: bv32, cfgr: bv32, flashAcr: bv32)

  datatype Outcome = Outcome(status: int, words: ClockWords)

  /** A read of a word whose hardware-owned flag bit shows the value the hardware reports. */
  function WithFlag(w: bv32, bit: bv32, isSet: bool): (r: bv32)
    requires bit != 0
    ensures (r & bit != 0) == isSet
    ensures r & !bit == w & !bit
  {
    if isSet then w | bit else w & !bit
  }

  /** A read of CFGR whose hardware-owned SWS field shows the value the hardware reports: it
      differs from the written word only in the SWS field, and that field reads PLL exactly
      when the hardware reports 0b10. */
  function WithSws(cfgr: bv32, sws: bv2): (r: bv32)
    ensures r & SWS_MASK == SWS_PLL <==> sws == 2
    ensures r & !SWS_MASK == cfgr & !SWS_MASK
  {
    (cfgr & !SWS_MASK) | ((sws as bv32) << 2)
  }

  /** The test of the final wait, `(CFGR & SWS_MASK) == SWS_PLL`, on a read of CFGR. */
  predicate ReadsPll(cfgr: bv32, sws: bv2)
  {
    WithSws(cfgr, sws) & SWS_MASK == SWS_PLL
  }

  /** The test of the final wait passes exactly when the hardware reports the PLL. */
  lemma ReadsPllIff(cfgr: bv32, sws: bv2)
    ensures ReadsPll(cfgr, sws) <==> sws == 2
  {
  }

  /** The clock bring-up, from the register words it starts with and the environment's answers,
      for the case where the switch to the PLL is reported whenever the routine waits for it. */
  function ClockInitSpec(w: ClockWords, env: Environment): (out: Outcome)
    ensures out.status == OK || out.status == HSE_TIMEOUT || out.status == PLL_TIMEOUT
  {
    var cr1 := w.cr | HSEON;
    if !PollReady(env.hseReady).ready then
      Outcome(HSE_TIMEOUT, w.(cr := cr1 & !HSEON))
    else
      var cfgr1 := w.cfgr | PLL_CONFIG;
      var cr2 := cr1 | PLLON;
      if !PollReady(env.pllReady).ready then
        Outcome(PLL_TIMEOUT, ClockWords(cr2 & !HSEON & !PLLON, cfgr1, w.flashAcr))
      else
        Outcome(OK, ClockWords(cr2 & !HSION, cfgr1 | BUS_DIVIDERS | SW_PLL, w.flashAcr | LATENCY_2))
  }

  /** The result code says which oscillator, if any, failed to come up within the ceiling. */
  lemma StatusCodes(w: ClockWords, env: Environment)
    ensures ClockInitSpec(w, env).status == HSE_TIMEOUT <==> !ReadyWithinCeiling(env.hseReady)
    ensures ClockInitSpec(w, env).status == PLL_TIMEOUT
        <==> ReadyWithinCeiling(env.hseReady) && !ReadyWithinCeiling(env.pllReady)
    ensures ClockInitSpec(w, env).status == OK
        <==> ReadyWithinCeiling(env.hseReady) && ReadyWithinCeiling(env.pllReady)
  {
    PollReadyIff(env.hseReady);
    PollReadyIff(env.pllReady);
  }

  /** HSE never ready: code 1, HSE switched off again, every other CR bit and the other two
      registers as they were; the PLL is left alone. */
  lemma HseTimeoutRollsBack(w: ClockWords, env: Environment)
    requires !ReadyWithinCeiling(env.hseReady)
    ensures ClockInitSpec(w, env).status == HSE_TIMEOUT
    ensures ClockInitSpec(w, env).words.cr & HSEON == 0
    ensures ClockInitSpec(w, env).words.cr & !HSEON == w.cr & !HSEON
    ensures ClockInitSpec(w, env).words.cfgr == w.cfgr
    ensures ClockInitSpec(w, env).words.flashAcr == w.flashAcr
  {
    PollReadyIff(env.hseReady);
  }

  /** HSE ready but PLL never ready: code 2, both HSE and PLL switched off again, every other
      CR bit as it was, the PLL setup left in CFGR and the flash wait states untouched. */
  lemma PllTimeoutRollsBack(w: ClockWords, env: Environment)
    requires ReadyWithinCeiling(env.hseReady) && !ReadyWithinCeiling(env.pllReady)
    ensures ClockInitSpec(w, env).status == PLL_TIMEOUT
    ensures ClockInitSpec(w, env).words.cr & (HSEON | PLLON) == 0
    ensures ClockInitSpec(w, env).words.cr & !(HSEON | PLLON) == w.cr & !(HSEON | PLLON)
    ensures ClockInitSpec(w, env).words.cfgr == w.cfgr | PLL_CONFIG
    ensures ClockInitSpec(w, env).words.cfgr & (SW_PLL | BUS_DIVIDERS) == w.cfgr & (SW_PLL | BUS_DIVIDERS)
    ensures ClockInitSpec(w, env).words.flashAcr == w.flashAcr
  {
    PollReadyIff(env.hseReady);
    PollReadyIff(env.pllReady);
  }

  /** The PLL is configured and started only on the paths where HSE was seen ready:
      otherwise CFGR and the PLLON bit are exactly as before. */
  lemma PllOnlyAfterHseReady(w: ClockWords, env: Environment)
    ensures !ReadyWithinCeiling(env.hseReady) ==>
      ClockInitSpec(w, env).words.cfgr == w.cfgr &&
      ClockInitSpec(w, env).words.cr & PLLON == w.cr & PLLON
    ensures ReadyWithinCeiling(env.hseReady) ==>
      ClockInitSpec(w, env).words.cfgr & PLL_CONFIG == PLL_CONFIG
  {
    PollReadyIff(env.hseReady);
  }

  /** Both oscillators ready: code 0, the switch request, dividers and PLL setup are in CFGR,
      flash has two wait states added, HSE and PLL run and the internal RC oscillator is off;
      no other bit of CR changes. */
  lemma SuccessState(w: ClockWords, env: Environment)
    requires ReadyWithinCeiling(env.hseReady) && ReadyWithinCeiling(env.pllReady)
    ensures ClockInitSpec(w, env).status == OK
    ensures ClockInitSpec(w, env).words.cfgr & SW_PLL == SW_PLL
    ensures ClockInitSpec(w, env).words.cfgr & (PLL_CONFIG | BUS_DIVIDERS) == PLL_CONFIG | BUS_DIVIDERS
    ensures ClockInitSpec(w, env).words.cfgr & !(PLL_CONFIG | BUS_DIVIDERS | SW_PLL)
        == w.cfgr & !(PLL_CONFIG | BUS_DIVIDERS | SW_PLL)
    ensures ClockInitSpec(w, env).words.flashAcr == w.flashAcr | LATENCY_2
    ensures ClockInitSpec(w, env).words.cr & HSION == 0
    ensures ClockInitSpec(w, env).words.cr & (HSEON | PLLON) == HSEON | PLLON
    ensures ClockInitSpec(w, env).words.cr & !(HSION | HSEON | PLLON) == w.cr & !(HSION | HSEON | PLLON)
  {
    PollReadyIff(env.hseReady);
    PollReadyIff(env.pllReady);
  }

  /** The RCC and FLASH registers the routine reads and writes in place. */
  class ClockRegisters {
    var cr: bv32
    var cfgr: bv32
    var flashAcr: bv32

    constructor (cr0: bv32, cfgr0: bv32, flashAcr0: bv32)
      ensures cr == cr0 && cfgr == cfgr0 && flashAcr == flashAcr0
    {
      cr, cfgr, flashAcr := cr0, cfgr0, flashAcr0;
    }

    function Words(): ClockWords
      reads this
    {
      ClockWords(cr, cfgr, flashAcr)
    }

    /** First stage: start HSE and poll HSERDY; on timeout switch HSE off again. */
    method StartHse(env: Environment) returns (ready: bool, ghost readCount: nat)
      modifies this
      ensures ready == PollReady(env.hseReady).ready && readCount == PollReady(env.hseReady).readCount
      ensures cr == if ready then old(cr) | HSEON else (old(cr) | HSEON) & !HSEON
      ensures cfgr == old(cfgr) && flashAcr == old(flashAcr)
    {
      cr := cr | HSEON;
      var counter: nat := 0;
      while true
        invariant counter <= CEILING + 1
        invariant PollFrom(env.hseReady, counter) == PollReady(env.hseReady)
        invariant cr == old(cr) | HSEON
        invariant cfgr == old(cfgr) && flashAcr == old(flashAcr)
        decreases CEILING + 1 - counter
      {
        if WithFlag(cr, HSERDY, FlagAt(env.hseReady, counter)) & HSERDY != 0 {
          break;
        }
        if counter > CEILING {
          cr := cr & !HSEON;
          ready, readCount := false, counter + 1;
          return;
        }
        counter := counter + 1;
      }
      ready, readCount := true, counter + 1;
    }

    /** The PLL timeout path: clear HSEON, then clear PLLON. */
    method StopHseAndPll()
      modifies this
      ensures cr == old(cr) & !HSEON & !PLLON
      ensures cfgr == old(cfgr) && flashAcr == old(flashAcr)
    {
      cr := cr & !HSEON;
      cr := cr & !PLLON;
    }

    /** Second stage, first step: PLL input is HSE, multiplied by 9. */
    method ConfigurePll()
      modifies this
      ensures cfgr == old(cfgr) | PLL_CONFIG
      ensures cr == old(cr) && flashAcr == old(flashAcr)
    {
      cfgr := cfgr | PLL_CONFIG;
    }

    /** Second stage, second step: start the PLL and poll PLLRDY; on timeout switch both HSE
        and the PLL off again. */
    method StartPll(env: Environment) returns (ready: bool, ghost readCount: nat)
      modifies this
      ensures ready == PollReady(env.pllReady).ready && readCount == PollReady(env.pllReady).readCount
      ensures ready ==> cr == old(cr) | PLLON
      ensures !ready ==> cr == (old(cr) | PLLON) & !HSEON & !PLLON
      ensures cfgr == old(cfgr) && flashAcr == old(flashAcr)
    {
      cr := cr | PLLON;
      var counter: nat := 0;
      while true
        invariant counter <= CEILING + 1
        invariant PollFrom(env.pllReady, counter) == PollReady(env.pllReady)
        invariant cr == old(cr) | PLLON
        invariant cfgr == old(cfgr) && flashAcr == old(flashAcr)
        decreases CEILING + 1 - counter
      {
        if WithFlag(cr, PLLRDY, FlagAt(env.pllReady, counter)) & PLLRDY != 0 {
          break;
        }
        if counter > CEILING {
          StopHseAndPll();
          ready, readCount := false, counter + 1;
          return;
        }
        counter := counter + 1;
      }
      ready, readCount := true, counter + 1;
    }

    /** Last stage: two flash wait states, bus dividers, request the PLL as system clock,
        wait until a read of SWS reports it, then switch the internal RC oscillator off. */
    method SwitchToPll(env: Environment) returns (ghost readCount: nat)
      requires SwitchReported(env.switchStatus)
      modifies this
      ensures readCount == FirstReport(env.switchStatus) + 1
      ensures forall j :: 0 <= j < readCount - 1 ==> !ReadsPll(cfgr, env.switchStatus[j])
      ensures ReadsPll(cfgr, env.switchStatus[readCount - 1])
      ensures cr == old(cr) & !HSION
      ensures cfgr == old(cfgr) | BUS_DIVIDERS | SW_PLL
      ensures flashAcr == old(flashAcr) | LATENCY_2
    {
      flashAcr := flashAcr | LATENCY_2;
      cfgr := cfgr | BUS_DIVIDERS;
      cfgr := cfgr | SW_PLL;
      ghost var reported := FirstReport(env.switchStatus);

      var k := 0;
      while !ReadsPll(cfgr, env.switchStatus[k])
        invariant k <= reported
        invariant forall j :: 0 <= j < k ==> !ReadsPll(cfgr, env.switchStatus[j])
        invariant cr == old(cr) && flashAcr == old(flashAcr) | LATENCY_2
        invariant cfgr == old(cfgr) | BUS_DIVIDERS | SW_PLL
        decreases reported - k
      {
        ReadsPllIff(cfgr, env.switchStatus[k]);
        k := k + 1;
      }
      ReadsPllIff(cfgr, env.switchStatus[k]);
      readCount := k + 1;

      cr := cr & !HSION;
    }

    /** The whole bring-up. The final wait for the switch has no bound in the firmware, so
        the environment must report the switch whenever the routine reaches that wait. The
        ghost results count the reads of each ready-poll loop. */
    method ClockInit(env: Environment)
      returns (status: int, ghost hseReads: nat, ghost pllReads: nat, ghost swsReads: nat)
      requires PollReady(env.hseReady).ready && PollReady(env.pllReady).ready ==>
        SwitchReported(env.switchStatus)
      modifies this
      ensures status == ClockInitSpec(old(Words()), env).status
      ensures Words() == ClockInitSpec(old(Words()), env).words
      ensures hseReads == PollReady(env.hseReady).readCount && hseReads <= MAX_READS
      ensures pllReads <= MAX_READS
      ensures status != HSE_TIMEOUT ==> pllReads == PollReady(env.pllReady).readCount
      ensures status == HSE_TIMEOUT ==> pllReads == 0
      ensures status == OK ==> SwitchReported(env.switchStatus)
      ensures status == OK ==> swsReads == FirstReport(env.switchStatus) + 1
      ensures status == OK ==> ReadsPll(cfgr, env.switchStatus[swsReads - 1])
      ensures status == OK ==> forall j :: 0 <= j < swsReads - 1 ==> !ReadsPll(cfgr, env.switchStatus[j])
      ensures status != OK ==> swsReads == 0
    {
      pllReads, swsReads := 0, 0;

      var hseReady;
      hseReady, hseReads := StartHse(env);
      if !hseReady {
        return HSE_TIMEOUT, hseReads, pllReads, swsReads;
      }

      ConfigurePll();
      var pllReady;
      pllReady, pllReads := StartPll(env);
      if !pllReady {
        return PLL_TIMEOUT, hseReads, pllReads, swsReads;
      }

      swsReads := SwitchToPll(env);
      status := OK;
    }
  }
}
