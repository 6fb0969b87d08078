/** The firmware header `canary.h`: the relay and LED macros built from the
    bit macros, the watchdog prescaler codes, and the short flash delay of the
    diagnostic relay flashing. */
module CanaryHeader {
  import opened Bits
  import opened AvrIo

  /** The solid-state relay across the host's power/reset switch is driven
      by PB3 and is active-low: it conducts while PB3 outputs 0. */
  predicate RelayClosed(portb: bv8) {
    !IsSet(portb, PB3)
  }

  /** `mobo_reset_on()`: drive PB3 low, closing the relay. */
  function MoboResetOn(portb: bv8): (r: bv8)
    ensures RelayClosed(r)
    ensures SameExcept(r, portb, PB3)
  {
    ClrBit(portb, PB3)
  }

  /** `mobo_reset_off()`: drive PB3 high, releasing the relay. */
  function MoboResetOff(portb: bv8): (r: bv8)
    ensures !RelayClosed(r)
    ensures SameExcept(r, portb, PB3)
  {
    SetBit(portb, PB3)
  }

  /** Closing and then releasing the relay leaves PORTB as releasing it
      alone would; releasing it again changes nothing. */
  lemma RelayPulseRestores(portb: bv8)
    ensures MoboResetOff(MoboResetOn(portb)) == MoboResetOff(portb)
    ensures MoboResetOff(MoboResetOff(portb)) == MoboResetOff(portb)
  {
    LastWriteWins(portb, PB3);
    SetBitIdempotent(portb, PB3);
  }

  /** The green LED on PB0 and the red LED on PB1 are active-low too. */
  predicate GreenLit(portb: bv8) {
    !IsSet(portb, PB0)
  }

  predicate RedLit(portb: bv8) {
    !IsSet(portb, PB1)
  }

  /** `led_green_on()` */
  function LedGreenOn(portb: bv8): (r: bv8)
    ensures GreenLit(r)
    ensures SameExcept(r, portb, PB0)
  {
    ClrBit(portb, PB0)
  }

  /** `led_green_off()` */
  function LedGreenOff(portb: bv8): (r: bv8)
    ensures !GreenLit(r)
    ensures SameExcept(r, portb, PB0)
  {
    SetBit(portb, PB0)
  }

  /** `led_red_on()` */
  function LedRedOn(portb: bv8): (r: bv8)
    ensures RedLit(r)
    ensures SameExcept(r, portb, PB1)
  {
    ClrBit(portb, PB1)
  }

  /** `led_red_off()` */
  function LedRedOff(portb: bv8): (r: bv8)
    ensures !RedLit(r)
    ensures SameExcept(r, portb, PB1)
  {
    SetBit(portb, PB1)
  }

  /** The LED macros never move the relay, and the relay macros never change
      an LED. */
  lemma LedsAndRelayIndependent(portb: bv8)
    ensures RelayClosed(LedGreenOn(portb)) == RelayClosed(portb)
    ensures RelayClosed(LedGreenOff(portb)) == RelayClosed(portb)
    ensures RelayClosed(LedRedOn(portb)) == RelayClosed(portb)
    ensures RelayClosed(LedRedOff(portb)) == RelayClosed(portb)
    ensures GreenLit(MoboResetOn(portb)) == GreenLit(portb) && RedLit(MoboResetOn(portb)) == RedLit(portb)
    ensures GreenLit(MoboResetOff(portb)) == GreenLit(portb) && RedLit(MoboResetOff(portb)) == RedLit(portb)
  {
  }

  // The watchdog prescaler codes `WDT_TIMEOUT_*`, exactly as the header
  // writes them.
  const WdtTimeout16ms: bv8 := 0
  const WdtTimeout32ms: bv8 := BitVal(WDP0)
  const WdtTimeout64ms: bv8 := BitVal(WDP1)
  const WdtTimeout128ms: bv8 := BitVal(WDP1) | BitVal(WDP0)
  const WdtTimeout256ms: bv8 := BitVal(WDP2)
  const WdtTimeout512ms: bv8 := BitVal(WDP0) | BitVal(WDP0)
  const WdtTimeout1s: bv8 := BitVal(WDP2) | BitVal(WDP1)
  const WdtTimeout2s: bv8 := BitVal(WDP2) | BitVal(WDP1) | BitVal(WDP0)
  const WdtTimeout4s: bv8 := BitVal(WDP3)
  const WdtTimeout8s: bv8 := BitVal(WDP3) | BitVal(WDP0)

  /** `WDT_TIMEOUT_512MS` with the prescaler bits WDP2 and WDP0 that the
      datasheet gives for a 0.5 s time-out. */
  const WdtTimeout512msCorrected: bv8 := BitVal(WDP2) | BitVal(WDP0)

  /** The four prescaler bits WDP3..WDP0 of WDTCR. */
  const PrescalerMask: bv8 := BitVal(WDP3) | BitVal(WDP2) | BitVal(WDP1) | BitVal(WDP0)

  predicate OnlyPrescalerBits(code: bv8) {
    code & !PrescalerMask == 0
  }

  /** The prescaler setting 0..15 that the bits WDP3:WDP0 of a WDTCR value
      select (WDP3 is the most significant). */
  function PrescalerOf(wdtcr: bv8): (n: nat)
    ensures n < 16
  {
    8 * ReadBit(wdtcr, WDP3) as int + 4 * ReadBit(wdtcr, WDP2) as int
      + 2 * ReadBit(wdtcr, WDP1) as int + ReadBit(wdtcr, WDP0) as int
  }

  /** The WDTCR bits that select prescaler setting n. */
  function PrescalerCode(n: nat): (code: bv8)
    requires n < 16
    ensures OnlyPrescalerBits(code)
  {
    (if n / 8 == 1 then BitVal(WDP3) else 0)
      | (if (n / 4) % 2 == 1 then BitVal(WDP2) else 0)
      | (if (n / 2) % 2 == 1 then BitVal(WDP1) else 0)
      | (if n % 2 == 1 then BitVal(WDP0) else 0)
  }

  /** Encoding a setting and reading it back gives the same setting. */
  lemma PrescalerRoundTrip(n: nat)
    requires n < 16
    ensures PrescalerOf(PrescalerCode(n)) == n
  {
  }

  /** A code made only of prescaler bits is the encoding of the setting it
      selects. */
  lemma PrescalerCodeOfSetting(code: bv8)
    requires OnlyPrescalerBits(code)
    ensures PrescalerCode(PrescalerOf(code)) == code
  {
  }

  /** Nominal watchdog time-out in milliseconds at VCC = 5 V for the settings
      0..9 (datasheet Table 8-3); settings 10..15 are reserved. */
  const NominalTimeoutMs: seq<nat> := [16, 32, 64, 125, 250, 500, 1000, 2000, 4000, 8000]

  /** Every `WDT_TIMEOUT_*` code is made of prescaler bits only, `16MS` is 0,
      and each selects the setting its name stands for, except `512MS`. */
  lemma TimeoutCodes()
    ensures WdtTimeout16ms == 0
    ensures OnlyPrescalerBits(WdtTimeout16ms) && OnlyPrescalerBits(WdtTimeout32ms)
    ensures OnlyPrescalerBits(WdtTimeout64ms) && OnlyPrescalerBits(WdtTimeout128ms)
    ensures OnlyPrescalerBits(WdtTimeout256ms) && OnlyPrescalerBits(WdtTimeout512ms)
    ensures OnlyPrescalerBits(WdtTimeout1s) && OnlyPrescalerBits(WdtTimeout2s)
    ensures OnlyPrescalerBits(WdtTimeout4s) && OnlyPrescalerBits(WdtTimeout8s)
    ensures NominalTimeoutMs[PrescalerOf(WdtTimeout16ms)] == 16
    ensures NominalTimeoutMs[PrescalerOf(WdtTimeout32ms)] == 32
    ensures NominalTimeoutMs[PrescalerOf(WdtTimeout64ms)] == 64
    ensures NominalTimeoutMs[PrescalerOf(WdtTimeout128ms)] == 125
    ensures NominalTimeoutMs[PrescalerOf(WdtTimeout256ms)] == 250
    ensures NominalTimeoutMs[PrescalerOf(WdtTimeout1s)] == 1000
    ensures NominalTimeoutMs[PrescalerOf(WdtTimeout2s)] == 2000
    ensures NominalTimeoutMs[PrescalerOf(WdtTimeout4s)] == 4000
    ensures NominalTimeoutMs[PrescalerOf(WdtTimeout8s)] == 8000
  {
  }

  /** As written, `WDT_TIMEOUT_512MS` or-s WDP0 with itself: it is the
      32 ms code and selects a 32 ms time-out, not 0.5 s. */
  lemma Timeout512msAsWritten()
    ensures WdtTimeout512ms == WdtTimeout32ms
    ensures NominalTimeoutMs[PrescalerOf(WdtTimeout512ms)] == 32
  {
  }

  /** The corrected code selects setting 5, the 0.5 s time-out. */
  lemma Timeout512msCorrected()
    ensures OnlyPrescalerBits(WdtTimeout512msCorrected)
    ensures PrescalerOf(WdtTimeout512msCorrected) == 5
    ensures NominalTimeoutMs[PrescalerOf(WdtTimeout512msCorrected)] == 500
  {
  }

  // `FLASH_DELAY_SHORT_MS`, the pause of the diagnostic relay flashing, in milliseconds.
  const FlashDelayShortMs: nat := 200
}
