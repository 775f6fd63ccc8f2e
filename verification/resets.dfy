/** The reset controller: a peripheral is reset and released by setting,
    then clearing, its bit of the shared RESETS register through the atomic
    aliases. */
module Resets {
  import opened Bits
  import opened Registers

  /** Bits of the RESETS register used by the bring-up. */
  const RESET_IO_BANK0: BitIndex := 5
  const RESET_PADS_BANK0: BitIndex := 8
  const RESET_PLL_SYS: BitIndex := 12
  const RESET_PLL_USB: BitIndex := 13

  /** `set_bits(RESETS_BASE, 1 << bit); clear_bits(RESETS_BASE, 1 << bit)`:
      the peripheral passes through reset and is left released, no other
      bit of RESETS moves and no other register changes. */
  function ResetPulse(rf: Regs, bit: BitIndex): (r: Regs)
    ensures !Bit(Read(r, RESETS_BASE), bit)
    ensures forall i: BitIndex :: i != bit ==> (Bit(Read(r, RESETS_BASE), i) <==> Bit(Read(rf, RESETS_BASE), i))
    ensures Read(r, RESETS_BASE) == Read(rf, RESETS_BASE) & !Mask(bit)
    ensures Frame(rf, r, {RESETS_BASE})
  {
    var r := ClearBits(SetBits(rf, RESETS_BASE, Mask(bit)), RESETS_BASE, Mask(bit));
    ClearedBitOnly(Read(rf, RESETS_BASE), bit);
    r
  }

  /** Between the two writes of a pulse the peripheral is held in reset. */
  lemma ResetAssertedBetween(rf: Regs, bit: BitIndex)
    ensures Bit(Read(SetBits(rf, RESETS_BASE, Mask(bit)), RESETS_BASE), bit)
  {
  }

  /** A pulse on one bit leaves a bit already set elsewhere in RESETS set,
      for each of the four bits the bring-up pulses. */
  lemma PulsesKeepUnrelatedBits(rf: Regs, other: BitIndex)
    requires Bit(Read(rf, RESETS_BASE), other)
    ensures other != RESET_PLL_SYS ==> Bit(Read(ResetPulse(rf, RESET_PLL_SYS), RESETS_BASE), other)
    ensures other != RESET_PLL_USB ==> Bit(Read(ResetPulse(rf, RESET_PLL_USB), RESETS_BASE), other)
    ensures other != RESET_IO_BANK0 ==> Bit(Read(ResetPulse(rf, RESET_IO_BANK0), RESETS_BASE), other)
    ensures other != RESET_PADS_BANK0 ==> Bit(Read(ResetPulse(rf, RESET_PADS_BANK0), RESETS_BASE), other)
  {
  }
}
