# Canary watchdog firmware: a Dafny model

Canary is a hardware watchdog for a host machine. An ATtiny microcontroller
watches the host's hard-disk LED line on PB4 and drives a solid-state relay
on PB3, wired across the host's power/reset switch. This model covers the
firmware's register logic:

- the header's bit macros (`bitval`, `setbit`, `clrbit`, `readbit`);
- the active-low relay and LED macros built from them;
- the watchdog prescaler codes `WDT_TIMEOUT_*`;
- the interrupt handshake between the pin-change and watchdog handlers;
- `setup_wdtcr`, `go_to_sleep`, the counting loops of `delay_ms` and
  `tester_flash`, and the register initialisation at the start of `main`.

Files and modules:

- `bits.dfy`, module `Bits`: the bit macros as functions on `bv8`. Each is
  specified against `IsSet`, the reading of one bit, and against
  `SameExcept`, "no other bit changed". Lemmas give idempotence,
  last-write-wins and the numeric effect of setting or clearing a bit.
- `avr_io.dfy`, module `AvrIo`: register bit positions of the
  ATtiny25/45/85 that the firmware uses. `<avr/io.h>` and `<avr/sleep.h>`
  are not part of this model. The positions are the ones the device
  datasheet gives for each register: WDP0..WDP2 = 0..2, WDE = 3, WDP3 = 5
  and WDIE = 6 in WDTCR (section 8.5.2); PCINT4 = 4 in PCMSK; PCIE = 5 in
  GIMSK; SE = 5 and SM1 = 4 in MCUCR; ADEN = 7 in ADCSRA; PB0..PB5 = 0..5.
  "Power-down" mode is SM1:SM0 = 10.
- `canary_h.dfy`, module `CanaryHeader`: the relay and LED macros, the
  `WDT_TIMEOUT_*` codes, how a WDTCR value is decoded to its prescaler
  setting, the datasheet's nominal time-outs, and the short flash delay.
- `handshake.dfy`, module `Handshake`: the two interrupt handlers as atomic
  steps on the state they share, which is PCMSK, WDTCR and
  `hd_led_changed`. `Run` applies a sequence of handler runs. The lemmas
  state the handshake invariant over every such sequence.
- `firmware.dfy`, module `Firmware`: class `Canary`. Its fields are the
  registers and the globals. Its methods are `delay_ms`, `tester_flash`,
  the two handlers, `setup_wdtcr`, `go_to_sleep` and the start of `main`.
  The `trace` field records, as `Event`s, the relay switching of
  `tester_flash` (relay on, relay off), every one-millisecond wait, and the
  sleep instruction with the MCUCR value at that point. The DDRB and PORTB
  writes at the start of `main` are not traced. Lemmas give the relay
  pattern and total duration of `tester_flash`.

Modelling decisions:

- The build variants `SIM` and `TESTER` are constant fields of `Canary`,
  fixed at construction.
- Power-on register values are constructor parameters. `hd_led_changed`
  starts false (`Canary/main.cpp:17`). `idle_multiplier` is a plain field
  that `setup_wdtcr` writes; its declaration is not in the source.
- AVR `int` is 16 bits and `unsigned long` is 32 bits. The conversion of
  `tester_flash`'s `int howlong` to `delay_ms`'s `unsigned long` wraps
  negative values (`ToUnsignedLong`).
- The interrupt handshake is stated *without* assuming that the pin-change
  handler runs only while PCINT4 is enabled. The pin-change handler leaves
  the flag up and the interrupt masked from any state. So the invariant
  holds for every sequence of handler runs from the initial state.

## Model

| member | source | states |
|---|---|---|
| `Bits.BitVal` | Canary/canary.h:7 | the mask has bit b set and every other bit clear |
| `Bits.BitValWeight` | Canary/canary.h:7 | the mask's unsigned value is 2^b |
| `Bits.SetBit` | Canary/canary.h:5 | afterwards bit b is set and every other bit equals the old register's |
| `Bits.ClrBit` | Canary/canary.h:4 | afterwards bit b is clear and every other bit equals the old register's |
| `Bits.ReadBit` | Canary/canary.h:6 | the result is 0 or 1, and it is 1 exactly when bit b of the register is set |
| `Bits.SetBitIdempotent` | Canary/canary.h:5 | setting a bit twice gives the register of setting it once |
| `Bits.ClrBitIdempotent` | Canary/canary.h:4 | clearing a bit twice gives the register of clearing it once |
| `Bits.LastWriteWins` | Canary/canary.h:4-5 | set after clear is set alone; clear after set is clear alone |
| `Bits.SetBitValue` | Canary/canary.h:5 | numerically, setbit adds 2^b if the bit was clear and nothing otherwise |
| `Bits.ClrBitValue` | Canary/canary.h:4 | numerically, clrbit subtracts 2^b if the bit was set and nothing otherwise |
| `CanaryHeader.MoboResetOn` | Canary/canary.h:9-10 | PB3 driven low (relay closed, since it is active-low), no other PORTB bit changed |
| `CanaryHeader.MoboResetOff` | Canary/canary.h:9-11 | PB3 driven high (relay released), no other PORTB bit changed |
| `CanaryHeader.RelayPulseRestores` | Canary/canary.h:9-11 | closing then releasing the relay leaves PORTB as releasing it alone would; releasing twice is releasing once |
| `CanaryHeader.LedGreenOn` | Canary/canary.h:32 | PB0 cleared (green lit, active-low), no other PORTB bit changed |
| `CanaryHeader.LedGreenOff` | Canary/canary.h:33 | PB0 set (green dark), no other PORTB bit changed |
| `CanaryHeader.LedRedOn` | Canary/canary.h:34 | PB1 cleared (red lit, active-low), no other PORTB bit changed |
| `CanaryHeader.LedRedOff` | Canary/canary.h:35 | PB1 set (red dark), no other PORTB bit changed |
| `CanaryHeader.LedsAndRelayIndependent` | Canary/canary.h:32-35 | the LED macros never move the relay; the relay macros never change an LED |
| `CanaryHeader.PrescalerRoundTrip` | Canary/canary.h:13-22 | encoding a prescaler setting 0..15 into WDP3:WDP0 and decoding it gives the setting back |
| `CanaryHeader.PrescalerCodeOfSetting` | Canary/canary.h:13-22 | a code made of WDP bits only is the encoding of the setting it decodes to |
| `CanaryHeader.TimeoutCodes` | Canary/canary.h:13-22 | every `WDT_TIMEOUT_*` is made of WDP bits only; `16MS` is 0; each code except `512MS` selects the datasheet time-out its name says |
| `CanaryHeader.Timeout512msAsWritten` | Canary/canary.h:18 | as written, `WDT_TIMEOUT_512MS` equals `WDT_TIMEOUT_32MS` and selects a 32 ms time-out |
| `CanaryHeader.Timeout512msCorrected` | Canary/canary.h:18 | WDP2 with WDP0 is a WDP-only code that selects setting 5, the 0.5 s time-out |
| `Handshake.OnPinChange` | Canary/main.cpp:38-40 | the pin-change handler clears PCINT4, changes no other PCMSK bit, raises the flag, leaves WDTCR alone |
| `Handshake.OnWatchdog` | Canary/main.cpp:47-59 | the watchdog handler always sets WDIE (no other WDTCR bit changes); with the flag up it lowers it and sets PCINT4 alone; with the flag down PCMSK and the flag are unchanged |
| `Handshake.StepKeepsInvariant` | Canary/main.cpp:38-59 | each handler preserves "flag up exactly when PCINT4 is masked"; the pin-change handler establishes it from any state |
| `Handshake.RunKeepsInvariant` | Canary/main.cpp:38-59 | from the initial state (flag false, PCINT4 set), after any sequence of handler runs the flag is up exactly when PCINT4 is clear |
| `Handshake.RunTouchesOnlyHandshakeBits` | Canary/main.cpp:38-59 | no sequence of handler runs changes a PCMSK bit other than PCINT4 or a WDTCR bit other than WDIE |
| `Handshake.WatchdogStaysArmed` | Canary/main.cpp:47-48 | after any run that contains a watchdog time-out, or that starts with WDIE set, WDIE is set |
| `Handshake.EdgeHeldUntilWatchdog` | Canary/main.cpp:38-40 | after a pin change, whatever preceded it, the flag stays up and PCINT4 masked until a watchdog time-out runs |
| `Handshake.WatchdogRearmsPinChange` | Canary/main.cpp:52-59 | from the initial state, right after any watchdog time-out no edge is pending and PCINT4 is enabled |
| `Handshake.PinChangeIdempotent` | Canary/main.cpp:38-40 | a second edge while one is pending changes nothing, so at most one notification is outstanding |
| `Firmware.ToUnsignedLong` | Canary/main.cpp:27-31 | the 32-bit conversion is congruent to its argument modulo 2^32, leaves non-negative values alone and wraps negative ones |
| `Firmware.WaitsContents` | Canary/main.cpp:20-24 | `delay_ms(ms)`'s trace has no relay event and exactly ms one-millisecond waits |
| `Firmware.FlashPulseRelay` | Canary/main.cpp:29-34 | one round of `tester_flash` switches the relay on, then off, and does nothing else to it |
| `Firmware.FlashPulseWaits` | Canary/main.cpp:29-34 | one round of `tester_flash` waits howlong + 200 ms |
| `Firmware.FlashTraceRelayPairs` | Canary/main.cpp:27-35 | `times` rounds give exactly `times` on/off pairs of relay events, strictly alternating from "on" and ending "off" |
| `Firmware.FlashTraceDuration` | Canary/main.cpp:27-35 | `times` rounds wait `times` × (howlong + 200) ms in total |
| `Firmware.WdtSetup` | Canary/main.cpp:73-89 | the build's code is WDP-only; the returned period (32 in SIM, 8000 otherwise) is the datasheet's nominal time-out of the setting the code selects and fits 16 bits |
| `Firmware.SetupWdtcrValue` | Canary/main.cpp:87 | or-ing WDE, WDIE and the code clears no bit, sets WDE and WDIE, and selects the returned period when the WDP bits were clear |
| `Firmware.Canary.constructor` | Canary/main.cpp:17 | registers as given at power-on, interrupts disabled, `hd_led_changed` false, empty trace |
| `Firmware.Canary.DelayMs` | Canary/main.cpp:20-24 | the trace grows by exactly ms one-millisecond waits |
| `Firmware.Canary.TesterFlash` | Canary/main.cpp:27-35 | the trace grows by the rounds' trace for max(times, 0) rounds with the wrapped howlong; PORTB ends with PB3 high when times > 0 and unchanged otherwise |
| `Firmware.Canary.FlashRound` | Canary/main.cpp:29-34 | one pass of the loop body appends one round's trace and leaves PORTB as closing and then releasing the relay makes it |
| `Firmware.Canary.PinChangeIsr` | Canary/main.cpp:38-44 | the shared state becomes `OnPinChange` of the old one, and the handshake invariant holds afterwards |
| `Firmware.Canary.WatchdogIsr` | Canary/main.cpp:47-60 | the shared state becomes `OnWatchdog` of the old one; the handler keeps the handshake invariant |
| `Firmware.Canary.SetupWdtcr` | Canary/main.cpp:63-90 | WDTCR gets WDE, WDIE and the code or-ed in; `idle_multiplier` is 5 in SIM and 60000 otherwise; the result is 32 in SIM and 8000 otherwise, and matches the selected prescaler when the WDP bits were clear |
| `Firmware.Canary.GoToSleep` | Canary/main.cpp:92-98 | at the sleep point MCUCR has SE and the power-down bit set; on return SE is clear; interrupts are enabled |
| `Firmware.StartupPins` | Canary/main.cpp:114-115 | DDRB = 0x08 makes PB3 the only output; PORTB = 0x2F turns on the pull-up of every pin PB0..PB5 except PB4 and drives PB3 high, so the relay starts released |
| `Firmware.Canary.InitializeRegisters` | Canary/main.cpp:114-122 | DDRB = 0x08 and PORTB = 0x2F; ADEN cleared in ADCSRA; WDTCR and `idle_multiplier` as `setup_wdtcr` leaves them; PCIE set in GIMSK; PCINT4 set in PCMSK; the flag, MCUCR and the trace unchanged |
| `Firmware.Canary.Initialize` | Canary/main.cpp:114-126 | the register set-up, then in the TESTER build one diagnostic flash (the relay ends released, so PORTB is still 0x2F); with the flag false the handshake starts in its initial state and its invariant holds |

## Left out

- The START/WAIT/SHUTDOWN/BOOT controller, the DIP-switch timeout table and the power-cycle pulse sequence: none is implemented in these files. The unused constants `STATE_*`, `INTERRUPT_*`, `IDLE_MULTIPLIER`, `POWER_CYCLE_*_MS`, `FLASH_DELAY_BLINK_MS` and `LED_GREEN`/`LED_RED`/`LED_ORANGE` (`Canary/canary.h:24-26,30,37-51`) are not modelled, so no behaviour is invented for them.
- The endless `while (1)` loop of `main` (`Canary/main.cpp:128-132`): each iteration calls `go_to_sleep()` and then increments `main_loop_counter`, which is not declared in these files and which nothing reads. The model has `GoToSleep`, the first half of one iteration; the counter increment is not modelled. Interrupt handlers that run while asleep are separate method calls.
- The relay line during the pin set-up of `main` (`Canary/main.cpp:114-115`): `DDRB = 0b00001000` runs before `PORTB = 0b00101111`, so if PORTB still holds its reset value 0, PB3 drives low, the relay's closing level, for the instant between the two writes. `Canary.InitializeRegisters` gives only the register values after both writes and records no relay event for that instant; the trace holds relay events of `tester_flash` alone.
- Hardware timing: `_delay_ms(1)` is a trace event. `sei()` sets a flag, and `sleep_cpu()` records a `Sleep` event. The watchdog doing a system reset when WDIE is not re-armed is not modelled. Neither is the hardware clearing WDIE when the interrupt fires; the handler's end state is the same either way.
- Interrupt preemption and interleavings: each handler is one atomic step.
- The `#ifdef TESTER` diagnostic `tester_flash` calls inside the two handlers (`Canary/main.cpp:41-43,49-51,53-56`). The one in `main` is modelled. `FLASH_DELAY_LONG_MS` (`Canary/canary.h:28`) is the delay of the left-out flash at `Canary/main.cpp:50`, so the model does not declare it.
- `Canary/Examples/wdt_example.c`: it is entirely a comment, with no live code.
- The C integer promotion in `1 << bit` happens in 16-bit `int`. It is not modelled, because the value stored back into an 8-bit register is the same.

## Findings

| source | as written | input that shows it | evidently intended | confidence | as-written member | corrected member |
|---|---|---|---|---|---|---|
| Canary/canary.h:18 | `WDT_TIMEOUT_512MS` is `bitval(WDP0) \| bitval(WDP0)` | configuring the watchdog with `WDT_TIMEOUT_512MS` selects setting 1, a 32 ms time-out, the same as `WDT_TIMEOUT_32MS` | `bitval(WDP2) \| bitval(WDP0)`, setting 5, 0.5 s | high; not executed | `CanaryHeader.Timeout512msAsWritten` | `CanaryHeader.Timeout512msCorrected` |

The firmware uses neither code. The model defines `WdtTimeout512ms` exactly as written and gives `WdtTimeout512msCorrected` beside it.
