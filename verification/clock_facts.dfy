/** What the words `init_clocks` writes mean: the PLL dividers and the
    frequencies they give, the watchdog tick, the final power word of the
    system PLL, and the mux readbacks. */
module ClockFacts {
  import opened Bits
  import opened Registers
  import opened Poll
  import opened Clocks

  /** A post-divider pair packed as in a PLL's PRIM register: POSTDIV1 in
      bits 18:16, POSTDIV2 in bits 14:12. */
  function EncodePostDivs(pd1: u32, pd2: u32): (w: u32)
    requires pd1 < 8 && pd2 < 8
    ensures w & !((7 << 16) | (7 << 12)) == 0
  {
    (pd1 << 16) | (pd2 << 12)
  }

  /** The post-divider pair held in a PRIM word. */
  function DecodePostDivs(w: u32): (r: (u32, u32))
    ensures r.0 < 8 && r.1 < 8
  {
    (Field(w, 16, 3), Field(w, 12, 3))
  }

  /** Decoding an encoded pair gives the pair back. */
  lemma PostDivsRoundTrip(pd1: u32, pd2: u32)
    requires pd1 < 8 && pd2 < 8
    ensures DecodePostDivs(EncodePostDivs(pd1, pd2)) == (pd1, pd2)
  {
  }

  /** A PRIM word with nothing outside the two fields is the encoding of
      its decoded pair. */
  lemma PostDivsEncodeDecode(w: u32)
    requires w & !((7 << 16) | (7 << 12)) == 0
    ensures EncodePostDivs(DecodePostDivs(w).0, DecodePostDivs(w).1) == w
  {
  }

  /** The two PRIM words of the bring-up: 6 and 2 for the system PLL, 5 and
      5 for the USB PLL. */
  lemma PostDivWords()
    ensures PLL_SYS_POSTDIVS == EncodePostDivs(6, 2)
    ensures PLL_USB_POSTDIVS == EncodePostDivs(5, 5)
    ensures DecodePostDivs(PLL_SYS_POSTDIVS) == (6, 2)
    ensures DecodePostDivs(PLL_USB_POSTDIVS) == (5, 5)
  {
    PostDivsRoundTrip(6, 2);
    PostDivsRoundTrip(5, 5);
  }

  /** The voltage-controlled oscillator runs at the reference divided by
      REFDIV, times the feedback divider (section 2.18.2 of the RP2040
      datasheet). */
  function VcoHz(refHz: nat, refdiv: nat, fbdiv: nat): nat
    requires refdiv >= 1
  {
    refHz / refdiv * fbdiv
  }

  /** The PLL output: the VCO divided by both post dividers. */
  function PllOutputHz(refHz: nat, refdiv: nat, fbdiv: nat, pd1: nat, pd2: nat): nat
    requires refdiv >= 1 && pd1 >= 1 && pd2 >= 1
  {
    VcoHz(refHz, refdiv, fbdiv) / (pd1 * pd2)
  }

  /** REFDIV, bits 5:0 of a PLL's CS register. `init_clocks` never writes
      it: it keeps whatever the PLL's reset left there. */
  function RefDiv(rf: Regs, base: u32): u32 {
    Field(Read(rf, base + PLL_CS), 0, 6)
  }

  /** The output frequency a PLL's register block programs. */
  function ProgrammedHz(rf: Regs, base: u32): nat
    requires RefDiv(rf, base) >= 1
    requires Field(Read(rf, base + PLL_PRIM), 16, 3) >= 1
    requires Field(Read(rf, base + PLL_PRIM), 12, 3) >= 1
  {
    PllOutputHz(XOSC_HZ, RefDiv(rf, base) as nat, Read(rf, base + PLL_FBDIV_INT) as nat,
                Field(Read(rf, base + PLL_PRIM), 16, 3) as nat,
                Field(Read(rf, base + PLL_PRIM), 12, 3) as nat)
  }

  /** The configured post dividers are 6 and 2 for the system PLL and 5 and
      5 for the USB PLL. With REFDIV 1 (the value a PLL reset leaves, which
      the code relies on) and a 12 MHz crystal, the system PLL runs its VCO
      at 1500 MHz and outputs exactly 125 MHz, and the USB PLL runs its VCO
      at 1200 MHz and outputs exactly 48 MHz. Both VCOs lie in the 750 to
      1600 MHz range of section 2.18.2 of the RP2040 datasheet. */
  lemma ConfiguredFrequencies(rf: Regs)
    requires ClocksConfigured(rf)
    ensures Field(Read(rf, PLL_SYS_BASE + PLL_PRIM), 16, 3) == 6
    ensures Field(Read(rf, PLL_SYS_BASE + PLL_PRIM), 12, 3) == 2
    ensures Field(Read(rf, PLL_USB_BASE + PLL_PRIM), 16, 3) == 5
    ensures Field(Read(rf, PLL_USB_BASE + PLL_PRIM), 12, 3) == 5
    ensures RefDiv(rf, PLL_SYS_BASE) == 1 ==>
              && VcoHz(XOSC_HZ, RefDiv(rf, PLL_SYS_BASE) as nat, Read(rf, PLL_SYS_BASE + PLL_FBDIV_INT) as nat) == 1_500_000_000
              && VcoHz(XOSC_HZ, RefDiv(rf, PLL_SYS_BASE) as nat, Read(rf, PLL_SYS_BASE + PLL_FBDIV_INT) as nat) % (6 * 2) == 0
              && ProgrammedHz(rf, PLL_SYS_BASE) == 125_000_000
    ensures RefDiv(rf, PLL_USB_BASE) == 1 ==>
              && VcoHz(XOSC_HZ, RefDiv(rf, PLL_USB_BASE) as nat, Read(rf, PLL_USB_BASE + PLL_FBDIV_INT) as nat) == 1_200_000_000
              && VcoHz(XOSC_HZ, RefDiv(rf, PLL_USB_BASE) as nat, Read(rf, PLL_USB_BASE + PLL_FBDIV_INT) as nat) % (5 * 5) == 0
              && ProgrammedHz(rf, PLL_USB_BASE) == 48_000_000
  {
    PostDivWords();
  }

  /** The watchdog tick word: CYCLES (bits 8:0) is 12, ENABLE (bit 9) is
      set, nothing else is. */
  lemma TickWord()
    ensures Field(WATCHDOG_TICK_WORD, 0, 9) == 12
    ensures Bit(WATCHDOG_TICK_WORD, WATCHDOG_TICK_ENABLE)
    ensures WATCHDOG_TICK_WORD & !((1 << 9) | 0x1ff) == 0
  {
  }

  /** After `init_clocks` the tick generator divides the 12 MHz reference
      by 12 with no remainder: one tick per microsecond. */
  lemma OneTickPerMicrosecond(rf: Regs)
    requires ClocksConfigured(rf)
    ensures Bit(Read(rf, WATCHDOG_TICK), WATCHDOG_TICK_ENABLE)
    ensures Field(Read(rf, WATCHDOG_TICK), 0, 9) == 12
    ensures XOSC_HZ % Field(Read(rf, WATCHDOG_TICK), 0, 9) as nat == 0
    ensures XOSC_HZ / Field(Read(rf, WATCHDOG_TICK), 0, 9) as nat == 1_000_000
  {
    TickWord();
  }

  /** The crystal control word: ENABLE (bits 23:12) holds the magic 0xfab
      and FREQ_RANGE (bits 11:0) holds 0xaa0, the 1 to 15 MHz range. */
  lemma XoscWord()
    ensures Field(XOSC_ENABLE_1_15MHZ, 12, 12) == 0xfab
    ensures Field(XOSC_ENABLE_1_15MHZ, 0, 12) == 0xaa0
    ensures XOSC_ENABLE_1_15MHZ >> 24 == 0
  {
  }

  /** The system PLL's power word is written as PD | VCOPD (0x21) and then
      has the mask 0x11 (bits 0 and 4) cleared: PD ends clear, but VCOPD
      (bit 5) is outside the mask and stays set, so the word is 0x20. */
  lemma SysPllPowerWord(rf: Regs)
    requires ClocksConfigured(rf)
    ensures !Bit(Read(rf, PLL_SYS_BASE + PLL_PWR), PLL_PWR_PD)
    ensures Bit(Read(rf, PLL_SYS_BASE + PLL_PWR), PLL_PWR_VCOPD)
    ensures PLL_PWR_OFF & !PLL_PWR_ON_MASK == Read(rf, PLL_SYS_BASE + PLL_PWR)
    ensures !Bit(PLL_PWR_ON_MASK, PLL_PWR_VCOPD)
  {
  }

  /** The two-step update of CLK_SYS_CTRL clears exactly AUXSRC (bits 7:5)
      and then sets exactly SRC (bit 0). */
  lemma SysCtrlUpdate(rf: Regs)
    requires !Bit(Read(rf, CLK_SYS_CTRL), CLK_SYS_SRC)
    requires Bit(Read(rf, PLL_SYS_BASE + PLL_CS), PLL_CS_LOCK)
    ensures Read(SwitchSysToAux(SelectPllAux(rf)), CLK_SYS_CTRL)
            == (Read(rf, CLK_SYS_CTRL) & !CLK_SYS_AUXSRC_MASK) | CLK_SYS_SRC_AUX
  {
    ClockRegistersDecode();
    assert PLL_SYS_BASE + PLL_CS != CLK_SYS_CTRL;
    SetAliasDecodes(CLK_SYS_CTRL);
  }

  /** The CLK_REF wait reads back the control register that was just
      written: a read returning the stored word ends it at once. */
  lemma RefReadbackExitsAtOnce(rf: Regs, observed: seq<u32>)
    requires |observed| > 0
    requires observed[0] == Read(WriteReg(rf, CLK_REF_CTRL, CLK_REF_SRC_XOSC), CLK_REF_CTRL)
    ensures Spin(WriteReg(rf, CLK_REF_CTRL, CLK_REF_SRC_XOSC), CLK_REF_CTRL, REF_ON_XOSC, observed).Some?
    ensures Spin(WriteReg(rf, CLK_REF_CTRL, CLK_REF_SRC_XOSC), CLK_REF_CTRL, REF_ON_XOSC, observed).value.count == 1
  {
    ClockRegistersDecode();
    SpinCountsReads(WriteReg(rf, CLK_REF_CTRL, CLK_REF_SRC_XOSC), CLK_REF_CTRL, REF_ON_XOSC, observed, 0);
  }

  /** Likewise for the CLK_SYS wait after clearing SRC. */
  lemma SysReadbackExitsAtOnce(rf: Regs, observed: seq<u32>)
    requires |observed| > 0
    requires observed[0] == Read(ClearBits(rf, CLK_SYS_CTRL, CLK_SYS_SRC_AUX), CLK_SYS_CTRL)
    ensures Spin(ClearBits(rf, CLK_SYS_CTRL, CLK_SYS_SRC_AUX), CLK_SYS_CTRL, SYS_ON_REF, observed).Some?
    ensures Spin(ClearBits(rf, CLK_SYS_CTRL, CLK_SYS_SRC_AUX), CLK_SYS_CTRL, SYS_ON_REF, observed).value.count == 1
  {
    ClockRegistersDecode();
    SpinCountsReads(ClearBits(rf, CLK_SYS_CTRL, CLK_SYS_SRC_AUX), CLK_SYS_CTRL, SYS_ON_REF, observed, 0);
  }
}
