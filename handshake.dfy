/** The handshake between the two interrupt handlers of `main.cpp`.

    The pin-change handler (`ISR(PCINT0_vect)`) records an edge of the HD LED
    line in the flag `hd_led_changed` and masks its own interrupt; the watchdog
    handler (`ISR(WDT_vect)`) re-arms the watchdog interrupt and, when the flag
    is up, consumes it and unmasks the pin-change interrupt again. An AVR
    handler runs to completion with interrupts disabled, so each handler is
    one atomic step on the state it touches. */
module Handshake {
  import opened Bits
  import opened AvrIo

  /** The part of the machine the two handlers read and write. */
  datatype HandshakeState = HandshakeState(pcmsk: bv8, wdtcr: bv8, hdLedChanged: bool)

  /** The interrupt whose handler runs. */
  datatype Interrupt = PinChange | WatchdogTimeout

  /** `ISR(PCINT0_vect)`: clear PCINT4 in PCMSK, then raise the flag. */
  function OnPinChange(s: HandshakeState): (t: HandshakeState)
    ensures t.hdLedChanged
    ensures !IsSet(t.pcmsk, PCINT4) && SameExcept(t.pcmsk, s.pcmsk, PCINT4)
    ensures t.wdtcr == s.wdtcr
  {
    s.(pcmsk := ClrBit(s.pcmsk, PCINT4), hdLedChanged := true)
  }

  /** `ISR(WDT_vect)`: set WDIE in WDTCR unconditionally; if the flag is up,
      lower it and set PCINT4 in PCMSK. */
  function OnWatchdog(s: HandshakeState): (t: HandshakeState)
    ensures IsSet(t.wdtcr, WDIE) && SameExcept(t.wdtcr, s.wdtcr, WDIE)
    ensures s.hdLedChanged ==> !t.hdLedChanged && IsSet(t.pcmsk, PCINT4) && SameExcept(t.pcmsk, s.pcmsk, PCINT4)
    ensures !s.hdLedChanged ==> !t.hdLedChanged && t.pcmsk == s.pcmsk
  {
    var armed := s.(wdtcr := SetBit(s.wdtcr, WDIE));
    if armed.hdLedChanged then
      armed.(hdLedChanged := false, pcmsk := SetBit(armed.pcmsk, PCINT4))
    else
      armed
  }

  function Step(s: HandshakeState, i: Interrupt): HandshakeState {
    match i
    case PinChange => OnPinChange(s)
    case WatchdogTimeout => OnWatchdog(s)
  }

  /** The state after the handlers for `isrs` have run one after another, in
      order. */
  function Run(s: HandshakeState, isrs: seq<Interrupt>): HandshakeState
    decreases |isrs|
  {
    if isrs == [] then s else Step(Run(s, isrs[..|isrs| - 1]), isrs[|isrs| - 1])
  }

  /** The state `main` leaves before its loop: the flag as initialised
      (false) and PCINT4 set in PCMSK. */
  predicate Initial(s: HandshakeState) {
    !s.hdLedChanged && IsSet(s.pcmsk, PCINT4)
  }

  /** The handshake invariant: an edge is pending exactly when the pin-change
      interrupt is masked. */
  predicate FlagMatchesMask(s: HandshakeState) {
    s.hdLedChanged <==> !IsSet(s.pcmsk, PCINT4)
  }

  /** Each handler keeps the invariant. The pin-change handler needs no
      assumption at all: whatever the state, it leaves the flag up and the
      interrupt masked. */
  lemma StepKeepsInvariant(s: HandshakeState, i: Interrupt)
    requires i == WatchdogTimeout ==> FlagMatchesMask(s)
    ensures FlagMatchesMask(Step(s, i))
  {
  }

  /** Over any sequence of handler runs from the initial state, the flag is
      up exactly when PCINT4 is masked. */
  lemma {:induction false} RunKeepsInvariant(s: HandshakeState, isrs: seq<Interrupt>)
    requires Initial(s)
    ensures FlagMatchesMask(Run(s, isrs))
  {
    if isrs != [] {
      RunKeepsInvariant(s, isrs[..|isrs| - 1]);
      StepKeepsInvariant(Run(s, isrs[..|isrs| - 1]), isrs[|isrs| - 1]);
    }
  }

  /** The handlers touch no PCMSK bit but PCINT4 and no WDTCR bit but WDIE. */
  lemma {:induction false} RunTouchesOnlyHandshakeBits(s: HandshakeState, isrs: seq<Interrupt>)
    ensures SameExcept(Run(s, isrs).pcmsk, s.pcmsk, PCINT4)
    ensures SameExcept(Run(s, isrs).wdtcr, s.wdtcr, WDIE)
  {
    if isrs != [] {
      RunTouchesOnlyHandshakeBits(s, isrs[..|isrs| - 1]);
    }
  }

  /** Once WDIE is set it stays set; and after any watchdog time-out it is
      set, whatever the flag held. */
  lemma {:induction false} WatchdogStaysArmed(s: HandshakeState, isrs: seq<Interrupt>)
    requires IsSet(s.wdtcr, WDIE) || WatchdogTimeout in isrs
    ensures IsSet(Run(s, isrs).wdtcr, WDIE)
  {
    if isrs != [] {
      var front := isrs[..|isrs| - 1];
      if isrs[|isrs| - 1] == PinChange {
        assert isrs == front + [PinChange];
        WatchdogStaysArmed(s, front);
      }
    }
  }

  /** A recorded edge is held until a watchdog time-out consumes it: after a
      pin change, whatever came before it, the flag stays up and the
      interrupt masked until a watchdog time-out runs. */
  lemma EdgeHeldUntilWatchdog(s: HandshakeState, before: seq<Interrupt>, after: seq<Interrupt>)
    requires WatchdogTimeout !in after
    ensures Run(s, before + [PinChange] + after).hdLedChanged
    ensures !IsSet(Run(s, before + [PinChange] + after).pcmsk, PCINT4)
  {
    // Only pin changes follow the edge, so the last handler to run is a pin change.
    if after != [] {
      assert after[|after| - 1] in after;
    }
  }

  /** After a watchdog time-out, from a state reached from the initial one,
      no edge is pending and the pin-change interrupt is enabled again. */
  lemma WatchdogRearmsPinChange(s: HandshakeState, isrs: seq<Interrupt>)
    requires Initial(s)
    requires isrs != [] && isrs[|isrs| - 1] == WatchdogTimeout
    ensures !Run(s, isrs).hdLedChanged
    ensures IsSet(Run(s, isrs).pcmsk, PCINT4)
  {
    RunKeepsInvariant(s, isrs[..|isrs| - 1]);
  }

  /** A second edge while one is pending changes nothing: at most one
      notification is ever outstanding. */
  lemma PinChangeIdempotent(s: HandshakeState)
    ensures OnPinChange(OnPinChange(s)) == OnPinChange(s)
  {
    ClrBitIdempotent(s.pcmsk, PCINT4);
  }
}
