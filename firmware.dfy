/** The firmware `main.cpp`: the delay and relay-flash loops, the watchdog
    set-up, the sleep bracket, the two interrupt handlers and the register
    initialisation that `main` performs before its endless sleep loop.

    The microcontroller's registers and the firmware's globals are the fields
    of one object of class `Canary`. The field `trace` records, in order, the
    relay switching of `tester_flash`, the one-millisecond busy waits and the
    sleep instruction. The pin set-up at the start of `main` writes DDRB and
    PORTB without recording an event. */
module Firmware {
  import opened Bits
  import opened AvrIo
  import opened CanaryHeader
  import opened Handshake

  /** An observable effect of the firmware. */
  datatype Event =
    | RelayOn            // PB3 driven low: the relay shorts the host's switch
    | RelayOff           // PB3 driven high: the relay is released
    | WaitOneMs          // one `_delay_ms(1)` busy wait
    | Sleep(mcucr: bv8)  // `sleep_cpu()`, with MCUCR as it is at that point

  // ---------------------------------------------------------------
  // Integer widths of the AVR C compiler
  // ---------------------------------------------------------------

  /** A value of the 16-bit AVR `int`. */
  predicate IsInt(x: int) {
    -0x8000 <= x < 0x8000
  }

  const UnsignedLongModulus: nat := 0x1_0000_0000

  /** The conversion of an `int` argument to the 32-bit `unsigned long`
      parameter of `delay_ms`: negative values wrap around. */
  function ToUnsignedLong(x: int): (r: nat)
    ensures r < UnsignedLongModulus
    ensures (r - x) % UnsignedLongModulus == 0
    ensures 0 <= x < UnsignedLongModulus ==> r == x
    ensures -0x1_0000_0000 <= x < 0 ==> r == x + UnsignedLongModulus
  {
    x % UnsignedLongModulus
  }

  // ---------------------------------------------------------------
  // Traces of `delay_ms` and `tester_flash`
  // ---------------------------------------------------------------

  /** The trace of `delay_ms(ms)`: ms one-millisecond waits. */
  function Waits(ms: nat): seq<Event> {
    seq(ms, _ => WaitOneMs)
  }

  /** One round of the `tester_flash` loop: relay on, `howlong` ms, relay
      off, `FLASH_DELAY_SHORT_MS` ms. */
  function FlashPulse(howlongMs: nat): seq<Event> {
    [RelayOn] + Waits(howlongMs) + [RelayOff] + Waits(FlashDelayShortMs)
  }

  /** The trace of `tester_flash` after `times` rounds. */
  function FlashTrace(times: nat, howlongMs: nat): seq<Event> {
    if times == 0 then [] else FlashTrace(times - 1, howlongMs) + FlashPulse(howlongMs)
  }

  /** The relay events of a trace, in order. */
  function RelayEvents(t: seq<Event>): seq<Event> {
    if t == [] then []
    else RelayEvents(t[..|t| - 1]) + (if t[|t| - 1] in {RelayOn, RelayOff} then [t[|t| - 1]] else [])
  }

  /** The number of one-millisecond waits in a trace. */
  function WaitCount(t: seq<Event>): nat {
    if t == [] then 0
    else WaitCount(t[..|t| - 1]) + (if t[|t| - 1] == WaitOneMs then 1 else 0)
  }

  /** The relay goes on, off, on, off, ... */
  predicate Alternating(relay: seq<Event>) {
    forall i :: 0 <= i < |relay| ==> relay[i] == if i % 2 == 0 then RelayOn else RelayOff
  }

  lemma {:induction false} RelayEventsAppend(a: seq<Event>, b: seq<Event>)
    ensures RelayEvents(a + b) == RelayEvents(a) + RelayEvents(b)
    decreases |b|
  {
    if b != [] {
      assert (a + b)[..|a + b| - 1] == a + b[..|b| - 1];
      RelayEventsAppend(a, b[..|b| - 1]);
    } else {
      assert a + b == a;
    }
  }

  lemma {:induction false} WaitCountAppend(a: seq<Event>, b: seq<Event>)
    ensures WaitCount(a + b) == WaitCount(a) + WaitCount(b)
    decreases |b|
  {
    if b != [] {
      assert (a + b)[..|a + b| - 1] == a + b[..|b| - 1];
      WaitCountAppend(a, b[..|b| - 1]);
    } else {
      assert a + b == a;
    }
  }

  /** A delay has no relay events and exactly ms one-millisecond waits. */
  lemma {:induction false} WaitsContents(ms: nat)
    ensures RelayEvents(Waits(ms)) == []
    ensures WaitCount(Waits(ms)) == ms
  {
    if ms > 0 {
      assert Waits(ms)[..ms - 1] == Waits(ms - 1);
      WaitsContents(ms - 1);
    }
  }

  /** One round of `tester_flash` switches the relay on, then off. */
  lemma FlashPulseRelay(howlongMs: nat)
    ensures RelayEvents(FlashPulse(howlongMs)) == [RelayOn, RelayOff]
  {
    var on, off := [RelayOn], [RelayOff];
    var w, s := Waits(howlongMs), Waits(FlashDelayShortMs);
    assert FlashPulse(howlongMs) == ((on + w) + off) + s;
    WaitsContents(howlongMs);
    WaitsContents(FlashDelayShortMs);
    assert RelayEvents(on) == [RelayOn] by { assert on[..0] == []; }
    assert RelayEvents(off) == [RelayOff] by { assert off[..0] == []; }
    RelayEventsAppend(on, w);
    RelayEventsAppend(on + w, off);
    RelayEventsAppend((on + w) + off, s);
  }

  /** One round of `tester_flash` waits `howlong` plus
      `FLASH_DELAY_SHORT_MS` milliseconds. */
  lemma FlashPulseWaits(howlongMs: nat)
    ensures WaitCount(FlashPulse(howlongMs)) == howlongMs + FlashDelayShortMs
  {
    var on, off := [RelayOn], [RelayOff];
    var w, s := Waits(howlongMs), Waits(FlashDelayShortMs);
    assert FlashPulse(howlongMs) == ((on + w) + off) + s;
    WaitsContents(howlongMs);
    WaitsContents(FlashDelayShortMs);
    assert WaitCount(on) == 0 by { assert on[..0] == []; }
    assert WaitCount(off) == 0 by { assert off[..0] == []; }
    WaitCountAppend(on, w);
    WaitCountAppend(on + w, off);
    WaitCountAppend((on + w) + off, s);
  }

  /** `tester_flash(times, howlong)` switches the relay on and off exactly
      `times` times, strictly alternating and starting with "on"; so it
      leaves the relay released. */
  lemma {:induction false} FlashTraceRelayPairs(times: nat, howlongMs: nat)
    ensures |RelayEvents(FlashTrace(times, howlongMs))| == 2 * times
    ensures Alternating(RelayEvents(FlashTrace(times, howlongMs)))
    ensures times > 0 ==> RelayEvents(FlashTrace(times, howlongMs))[2 * times - 1] == RelayOff
  {
    if times > 0 {
      FlashTraceRelayPairs(times - 1, howlongMs);
      RelayEventsAppend(FlashTrace(times - 1, howlongMs), FlashPulse(howlongMs));
      FlashPulseRelay(howlongMs);
      var r := RelayEvents(FlashTrace(times, howlongMs));
      assert r == RelayEvents(FlashTrace(times - 1, howlongMs)) + [RelayOn, RelayOff];
      forall i | 0 <= i < |r|
        ensures r[i] == if i % 2 == 0 then RelayOn else RelayOff
      {
        if i >= 2 * (times - 1) {
          assert i == 2 * times - 2 || i == 2 * times - 1;
        }
      }
    }
  }

  /** `tester_flash(times, howlong)` waits `howlong` plus
      `FLASH_DELAY_SHORT_MS` milliseconds per round, in total. */
  lemma {:induction false} FlashTraceDuration(times: nat, howlongMs: nat)
    ensures WaitCount(FlashTrace(times, howlongMs)) == times * (howlongMs + FlashDelayShortMs)
  {
    if times > 0 {
      FlashTraceDuration(times - 1, howlongMs);
      WaitCountAppend(FlashTrace(times - 1, howlongMs), FlashPulse(howlongMs));
      FlashPulseWaits(howlongMs);
    }
  }

  // ---------------------------------------------------------------
  // Watchdog configuration of `setup_wdtcr`
  // ---------------------------------------------------------------

  /** What `setup_wdtcr` selects: the prescaler code it ors into WDTCR, the
      tick period in milliseconds it returns, and the value it gives
      `idle_multiplier`. */
  datatype WdtSettings = WdtSettings(timeout: bv8, periodMs: nat, idleMultiplier: nat)

  /** The build-variant constants of `setup_wdtcr`: 32 ms ticks in the SIM
      build, 8 s ticks otherwise. The returned period is the nominal
      time-out of the prescaler setting the code selects, and it fits the
      function's 16-bit `unsigned int` result. */
  function WdtSetup(sim: bool): (w: WdtSettings)
    ensures OnlyPrescalerBits(w.timeout)
    ensures PrescalerOf(w.timeout) < |NominalTimeoutMs|
    ensures w.periodMs == NominalTimeoutMs[PrescalerOf(w.timeout)]
    ensures 0 < w.periodMs < 0x1_0000
    ensures w.idleMultiplier > 0
  {
    if sim then WdtSettings(WdtTimeout32ms, 32, 5)
    else WdtSettings(WdtTimeout8s, 8000, 60000)
  }

  /** `WDTCR |= bitval(WDE) | bitval(WDIE) | timeout` clears no bit, enables
      the watchdog and its interrupt, and selects the chosen prescaler when
      the prescaler bits were clear before. */
  lemma SetupWdtcrValue(wdtcr: bv8, sim: bool)
    ensures var r := wdtcr | BitVal(WDE) | BitVal(WDIE) | WdtSetup(sim).timeout;
      && r & wdtcr == wdtcr
      && IsSet(r, WDE) && IsSet(r, WDIE)
      && (wdtcr & PrescalerMask == 0 ==>
            PrescalerOf(r) < |NominalTimeoutMs| &&
            NominalTimeoutMs[PrescalerOf(r)] == WdtSetup(sim).periodMs)
  {
  }

  /** The values `main` writes to DDRB and PORTB: PB3 is the only output
      and is driven high, so the relay starts released; every other pin but
      PB4 has its pull-up on. */
  lemma StartupPins()
    ensures forall k: BitIndex :: IsSet(0x08, k) <==> k == PB3
    ensures forall k: BitIndex :: IsSet(0x2F, k) <==> k <= PB5 && k != PB4
    ensures !RelayClosed(0x2F)
  {
  }

  // ---------------------------------------------------------------
  // The machine
  // ---------------------------------------------------------------

  class Canary {
    /** Build variants: `SIM` (short watchdog period) and `TESTER`
        (diagnostic relay flashing). */
    const sim: bool
    const tester: bool

    var DDRB: bv8
    var PORTB: bv8
    var PCMSK: bv8
    var GIMSK: bv8
    var WDTCR: bv8
    var MCUCR: bv8
    var ADCSRA: bv8
    /** The global interrupt enable (the I bit of SREG). */
    var interruptsEnabled: bool
    /** The global `hd_led_changed`. */
    var hdLedChanged: bool
    /** The global `idle_multiplier`. */
    var idleMultiplier: nat
    var trace: seq<Event>

    /** Power-on: the registers hold the values given, interrupts are
        disabled, and the globals hold their initial values. */
    constructor (sim: bool, tester: bool,
                 ddrb: bv8, portb: bv8, pcmsk: bv8, gimsk: bv8,
                 wdtcr: bv8, mcucr: bv8, adcsra: bv8)
      ensures this.sim == sim && this.tester == tester
      ensures DDRB == ddrb && PORTB == portb && PCMSK == pcmsk && GIMSK == gimsk
      ensures WDTCR == wdtcr && MCUCR == mcucr && ADCSRA == adcsra
      ensures !interruptsEnabled && !hdLedChanged && idleMultiplier == 0
      ensures trace == []
    {
      this.sim, this.tester := sim, tester;
      DDRB, PORTB, PCMSK, GIMSK := ddrb, portb, pcmsk, gimsk;
      WDTCR, MCUCR, ADCSRA := wdtcr, mcucr, adcsra;
      interruptsEnabled, hdLedChanged, idleMultiplier := false, false, 0;
      trace := [];
    }

    /** The state the two interrupt handlers share. */
    function SharedState(): HandshakeState
      reads this
    {
      HandshakeState(PCMSK, WDTCR, hdLedChanged)
    }

    /** `delay_ms(ms)`: `while (ms--) _delay_ms(1);` */
    method DelayMs(ms: nat)
      requires ms < UnsignedLongModulus
      modifies this`trace
      ensures trace == old(trace) + Waits(ms)
    {
      var n: nat := ms;
      while n != 0
        invariant n <= ms
        invariant trace == old(trace) + Waits(ms - n)
      {
        n := n - 1;
        assert Waits(ms - n) == Waits(ms - n - 1) + [WaitOneMs];
        trace := trace + [WaitOneMs];
      }
    }

    /** `tester_flash(times, howlong)`: `times` rounds of relay on,
        `delay_ms(howlong)`, relay off, `delay_ms(FLASH_DELAY_SHORT_MS)`.
        No round runs when `times <= 0`; otherwise the relay ends released
        and no other PORTB bit has changed. */
    method TesterFlash(times: int, howlong: int)
      requires IsInt(times) && IsInt(howlong)
      modifies this`PORTB, this`trace
      ensures trace == old(trace) + FlashTrace(if times > 0 then times else 0, ToUnsignedLong(howlong))
      ensures PORTB == if times > 0 then MoboResetOff(old(PORTB)) else old(PORTB)
    {
      var i := 0;
      while i < times
        invariant 0 <= i <= if times > 0 then times else 0
        invariant trace == old(trace) + FlashTrace(i, ToUnsignedLong(howlong))
        invariant PORTB == if i == 0 then old(PORTB) else MoboResetOff(old(PORTB))
      {
        RelayPulseRestores(old(PORTB));
        FlashRound(ToUnsignedLong(howlong));
        i := i + 1;
      }
    }

    /** One pass of the loop body of `tester_flash`: close the relay, wait
        `howlongMs`, release it, wait `FLASH_DELAY_SHORT_MS`. */
    method FlashRound(howlongMs: nat)
      requires howlongMs < UnsignedLongModulus
      modifies this`PORTB, this`trace
      ensures trace == old(trace) + FlashPulse(howlongMs)
      ensures PORTB == MoboResetOff(MoboResetOn(old(PORTB)))
    {
      PORTB := MoboResetOn(PORTB);
      trace := trace + [RelayOn];
      DelayMs(howlongMs);
      PORTB := MoboResetOff(PORTB);
      trace := trace + [RelayOff];
      DelayMs(FlashDelayShortMs);
    }

    /** `ISR(PCINT0_vect)`: mask PCINT4, raise `hd_led_changed`. */
    method PinChangeIsr()
      modifies this`PCMSK, this`hdLedChanged
      ensures SharedState() == OnPinChange(old(SharedState()))
      ensures FlagMatchesMask(SharedState())
    {
      PCMSK := ClrBit(PCMSK, PCINT4);
      hdLedChanged := true;
    }

    /** `ISR(WDT_vect)`: re-arm WDIE; consume a pending edge and unmask
        PCINT4. */
    method WatchdogIsr()
      modifies this`WDTCR, this`PCMSK, this`hdLedChanged
      ensures SharedState() == OnWatchdog(old(SharedState()))
      ensures old(FlagMatchesMask(SharedState())) ==> FlagMatchesMask(SharedState())
    {
      WDTCR := SetBit(WDTCR, WDIE);
      if hdLedChanged {
        hdLedChanged := false;
        PCMSK := SetBit(PCMSK, PCINT4);
      }
    }

    /** `setup_wdtcr()`: or WDE, WDIE and the build's prescaler code into
        WDTCR, set `idle_multiplier`, and return the tick period in ms. */
    method SetupWdtcr() returns (periodMs: nat)
      modifies this`WDTCR, this`idleMultiplier
      ensures WDTCR == old(WDTCR) | BitVal(WDE) | BitVal(WDIE) | WdtSetup(sim).timeout
      ensures periodMs == WdtSetup(sim).periodMs
      ensures idleMultiplier == WdtSetup(sim).idleMultiplier
      ensures periodMs == if sim then 32 else 8000
      ensures idleMultiplier == if sim then 5 else 60000
      ensures WDTCR & old(WDTCR) == old(WDTCR) && IsSet(WDTCR, WDE) && IsSet(WDTCR, WDIE)
      ensures old(WDTCR) & PrescalerMask == 0 ==>
                PrescalerOf(WDTCR) < |NominalTimeoutMs| && NominalTimeoutMs[PrescalerOf(WDTCR)] == periodMs
    {
      var w := WdtSetup(sim);
      idleMultiplier := w.idleMultiplier;
      SetupWdtcrValue(WDTCR, sim);
      WDTCR := WDTCR | BitVal(WDE) | BitVal(WDIE) | w.timeout;
      periodMs := w.periodMs;
    }

    /** `go_to_sleep()`: select power-down mode, set SE, enable interrupts,
        sleep, clear SE. SE is set at the sleep point and clear on return. */
    method GoToSleep()
      modifies this`MCUCR, this`interruptsEnabled, this`trace
      ensures trace == old(trace) + [Sleep(SetBit(old(MCUCR) | SleepModePowerDown, SE))]
      ensures IsSet(trace[|trace| - 1].mcucr, SE) && IsSet(trace[|trace| - 1].mcucr, SM1)
      ensures MCUCR == ClrBit(old(MCUCR) | SleepModePowerDown, SE)
      ensures !IsSet(MCUCR, SE) && IsSet(MCUCR, SM1)
      ensures interruptsEnabled
    {
      MCUCR := MCUCR | SleepModePowerDown;
      MCUCR := SetBit(MCUCR, SE);
      interruptsEnabled := true;
      trace := trace + [Sleep(MCUCR)];
      MCUCR := ClrBit(MCUCR, SE);
    }

    /** The register set-up at the start of `main`. DDRB and PORTB get the
        values `StartupPins` describes; the ADC is switched off; the watchdog
        is set up; pin-change interrupts are enabled for PB4. */
    method InitializeRegisters()
      modifies this
      ensures DDRB == 0x08 && PORTB == 0x2F
      ensures ADCSRA == ClrBit(old(ADCSRA), ADEN)
      ensures WDTCR == old(WDTCR) | BitVal(WDE) | BitVal(WDIE) | WdtSetup(sim).timeout
      ensures idleMultiplier == WdtSetup(sim).idleMultiplier
      ensures GIMSK == SetBit(old(GIMSK), PCIE)
      ensures PCMSK == SetBit(old(PCMSK), PCINT4)
      ensures hdLedChanged == old(hdLedChanged)
      ensures MCUCR == old(MCUCR) && interruptsEnabled == old(interruptsEnabled)
      ensures trace == old(trace)
    {
      DDRB := 0x08;
      PORTB := 0x2F;
      ADCSRA := ClrBit(ADCSRA, ADEN);
      var _ := SetupWdtcr();
      GIMSK := SetBit(GIMSK, PCIE);
      PCMSK := SetBit(PCMSK, PCINT4);
    }

    /** The start of `main` up to its sleep loop: the register set-up, then,
        in the TESTER build, one diagnostic relay flash. From the power-on
        value of the flag, the handshake starts in its initial state. */
    method Initialize()
      modifies this
      ensures DDRB == 0x08 && PORTB == 0x2F
      ensures ADCSRA == ClrBit(old(ADCSRA), ADEN)
      ensures WDTCR == old(WDTCR) | BitVal(WDE) | BitVal(WDIE) | WdtSetup(sim).timeout
      ensures idleMultiplier == WdtSetup(sim).idleMultiplier
      ensures GIMSK == SetBit(old(GIMSK), PCIE)
      ensures PCMSK == SetBit(old(PCMSK), PCINT4)
      ensures hdLedChanged == old(hdLedChanged)
      ensures MCUCR == old(MCUCR) && interruptsEnabled == old(interruptsEnabled)
      ensures trace == old(trace) + (if tester then FlashTrace(1, FlashDelayShortMs) else [])
      ensures !old(hdLedChanged) ==> Initial(SharedState()) && FlagMatchesMask(SharedState())
    {
      InitializeRegisters();
      if tester {
        RelayPulseRestores(0x2F);
        TesterFlash(1, FlashDelayShortMs as int);
      }
    }
  }
}
