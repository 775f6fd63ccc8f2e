/** `init_io`: release the GPIO banks from reset, make a pin's pad an
    output, hand the pin to the single-cycle I/O block and enable its output
    driver. */
module Io {
  import opened Bits
  import opened Registers
  import opened Resets

  /** FUNCSEL (bits 4:0 of a GPIO control register) value 5 selects SIO. */
  const FUNCSEL_SIO: u32 := 5

  /** Pad control bits: input enable and output disable. */
  const PAD_IE: BitIndex := 6
  const PAD_OD: BitIndex := 7

  /** The pad control register of `pin`: one word per pin after the
      voltage-select word at offset 0. The sum wraps as a `u32` does. */
  function PadAddr(pin: u32): u32 {
    PADS_BANK0_BASE + (pin + 1) * 4
  }

  /** The control register of `pin`: each pin has a status word and a
      control word. The sum wraps as a `u32` does. */
  function CtrlAddr(pin: u32): u32 {
    IO_BANK0_BASE + (pin * 8 + 4)
  }

  /** For every pin 0 to 31 the address sums do not wrap: they equal
      the sums over the integers. */
  lemma PinAddressesDoNotWrap(pin: BitIndex)
    ensures PadAddr(pin) as int == PADS_BANK0_BASE as int + (pin as int + 1) * 4
    ensures CtrlAddr(pin) as int == IO_BANK0_BASE as int + (pin as int * 8 + 4)
  {
  }

  /** The pin registers are ordinary peripheral registers of their banks,
      lie outside RESETS, and the two of one pin differ. */
  lemma PinAddressesAreRegisters(pin: BitIndex)
    ensures Aliased(PadAddr(pin)) && IsRegister(PadAddr(pin))
    ensures Aliased(CtrlAddr(pin)) && IsRegister(CtrlAddr(pin))
    ensures PADS_BANK0_BASE < PadAddr(pin) < PADS_BANK0_BASE + 0x1000
    ensures IO_BANK0_BASE < CtrlAddr(pin) < IO_BANK0_BASE + 0x1000
    ensures PadAddr(pin) != CtrlAddr(pin)
  {
  }

  /** Distinct pins have distinct pad and control registers. */
  lemma PinAddressesInjective(p: BitIndex, q: BitIndex)
    requires p != q
    ensures PadAddr(p) != PadAddr(q)
    ensures CtrlAddr(p) != CtrlAddr(q)
    ensures PadAddr(p) != CtrlAddr(q)
  {
  }

  /** The onboard LED's pin 25: pad at 0x4001_c068, control at
      0x4001_40cc. */
  lemma Pin25Addresses()
    ensures PadAddr(25) == 0x4001_c068
    ensures CtrlAddr(25) == 0x4001_40cc
  {
  }

  /** The first four lines: IO_BANK0 and PADS_BANK0 pass through reset. */
  function ResetGpioBanks(rf: Regs): (r: Regs)
    ensures Read(r, RESETS_BASE) == Read(rf, RESETS_BASE) & !(Mask(RESET_IO_BANK0) | Mask(RESET_PADS_BANK0))
    ensures Frame(rf, r, {RESETS_BASE})
  {
    ResetPulse(ResetPulse(rf, RESET_IO_BANK0), RESET_PADS_BANK0)
  }

  /** The pad of `pin` gets the word 0 and its control register FUNCSEL 5. */
  function RoutePinToSio(rf: Regs, pin: BitIndex): (r: Regs)
    ensures Read(r, PadAddr(pin)) == 0
    ensures Read(r, CtrlAddr(pin)) == FUNCSEL_SIO
    ensures Frame(rf, r, {PadAddr(pin), CtrlAddr(pin)})
  {
    PinAddressesAreRegisters(pin);
    var padded := WriteReg(rf, PadAddr(pin), 0);
    WriteReg(padded, CtrlAddr(pin), FUNCSEL_SIO)
  }

  /** `write_reg(SIO_BASE + 0x024, 1 << pin)`: OR bit `pin` into the output
      enables. */
  function EnableOutput(rf: Regs, pin: BitIndex): (r: Regs)
    ensures Read(r, SIO_GPIO_OE) == Read(rf, SIO_GPIO_OE) | Mask(pin)
    ensures Frame(rf, r, {SIO_GPIO_OE})
  {
    SioDecode();
    WriteReg(rf, SIO_GPIO_OE_SET, Mask(pin))
  }

  /** Enabling one output turns that pin's enable on and moves no other
      pin's. */
  lemma EnableOutputOnePin(rf: Regs, pin: BitIndex)
    ensures Bit(Read(EnableOutput(rf, pin), SIO_GPIO_OE), pin)
    ensures forall i: BitIndex :: i != pin ==>
              (Bit(Read(EnableOutput(rf, pin), SIO_GPIO_OE), i) <==> Bit(Read(rf, SIO_GPIO_OE), i))
  {
    var x := Read(rf, SIO_GPIO_OE);
    var y := Read(EnableOutput(rf, pin), SIO_GPIO_OE);
    assert y == x | Mask(pin);
    SetBitOnly(x, pin);
  }

  /** `init_io(pin)`. The type of `pin` is the range of `1 << pin`: a shift
      by 32 or more overflows. */
  function InitIo(rf: Regs, pin: BitIndex): (r: Regs)
    ensures Read(r, RESETS_BASE) == Read(rf, RESETS_BASE) & !(Mask(RESET_IO_BANK0) | Mask(RESET_PADS_BANK0))
    ensures Read(r, PadAddr(pin)) == 0
    ensures Read(r, CtrlAddr(pin)) == FUNCSEL_SIO
    ensures Read(r, SIO_GPIO_OE) == Read(rf, SIO_GPIO_OE) | Mask(pin)
    ensures Frame(rf, r, IoRegs(pin))
  {
    var s1 := ResetGpioBanks(rf);
    var s2 := RoutePinToSio(s1, pin);
    var s3 := EnableOutput(s2, pin);
    IoStepsCompose(rf, s1, s2, s3, pin);
    s3
  }

  /** The registers `init_io(pin)` writes. */
  function IoRegs(pin: BitIndex): set<u32> {
    {RESETS_BASE, PadAddr(pin), CtrlAddr(pin), SIO_GPIO_OE}
  }

  lemma IoStepsCompose(rf: Regs, s1: Regs, s2: Regs, s3: Regs, pin: BitIndex)
    requires Frame(rf, s1, {RESETS_BASE})
    requires Frame(s1, s2, {PadAddr(pin), CtrlAddr(pin)})
    requires Read(s2, PadAddr(pin)) == 0 && Read(s2, CtrlAddr(pin)) == FUNCSEL_SIO
    requires Frame(s2, s3, {SIO_GPIO_OE})
    ensures Read(s3, RESETS_BASE) == Read(s1, RESETS_BASE)
    ensures Read(s3, PadAddr(pin)) == 0 && Read(s3, CtrlAddr(pin)) == FUNCSEL_SIO
    ensures Read(s2, SIO_GPIO_OE) == Read(rf, SIO_GPIO_OE)
    ensures Frame(rf, s3, IoRegs(pin))
  {
    PinAddressesAreRegisters(pin);
    FrameTrans(rf, s1, s2, {RESETS_BASE}, {PadAddr(pin), CtrlAddr(pin)});
    FrameTrans(rf, s2, s3, {RESETS_BASE} + {PadAddr(pin), CtrlAddr(pin)}, {SIO_GPIO_OE});
    assert {RESETS_BASE} + {PadAddr(pin), CtrlAddr(pin)} + {SIO_GPIO_OE} == IoRegs(pin);
  }

  /** The pad word 0 clears output-disable and input-enable: the pad drives
      and does not sense. The control word selects SIO. */
  lemma PinConfigured(rf: Regs, pin: BitIndex)
    ensures !Bit(Read(InitIo(rf, pin), PadAddr(pin)), PAD_OD)
    ensures !Bit(Read(InitIo(rf, pin), PadAddr(pin)), PAD_IE)
    ensures Field(Read(InitIo(rf, pin), CtrlAddr(pin)), 0, 5) == FUNCSEL_SIO
  {
  }
}
