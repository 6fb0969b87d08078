/** Register bit positions of the ATtiny25/45/85 that the firmware uses, as
    the device header `<avr/io.h>` defines them. That header is not part of
    this model; the positions are the ones the ATtiny25/45/85 datasheet gives
    for each register (the WDTCR layout, for example, in its section 8.5.2).
    Every position is below 8, and the positions that share a register are
    distinct. */
module AvrIo {
  import opened Bits

  // PORTB / DDRB pins
  const PB0: BitIndex := 0
  const PB1: BitIndex := 1
  const PB2: BitIndex := 2
  const PB3: BitIndex := 3
  const PB4: BitIndex := 4
  const PB5: BitIndex := 5

  // WDTCR: watchdog timer control register
  const WDP0: BitIndex := 0
  const WDP1: BitIndex := 1
  const WDP2: BitIndex := 2
  const WDE: BitIndex := 3
  const WDP3: BitIndex := 5
  const WDIE: BitIndex := 6

  // PCMSK: pin change mask register
  const PCINT4: BitIndex := 4

  // GIMSK: general interrupt mask register
  const PCIE: BitIndex := 5

  // MCUCR: MCU control register
  const SM1: BitIndex := 4
  const SE: BitIndex := 5

  // ADCSRA: ADC control and status register A
  const ADEN: BitIndex := 7

  /** The power-down sleep mode `SLEEP_MODE_PWR_DOWN` of `<avr/sleep.h>` for this device: the sleep-mode
      bits SM1:SM0 = 10. */
  const SleepModePowerDown: bv8 := BitVal(SM1)
}
