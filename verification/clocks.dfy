/** `init_clocks`: bring the clock tree from the power-on sources to the
    12 MHz crystal, the 125 MHz system PLL and the 48 MHz USB PLL, then set
    up the peripheral clock and the watchdog tick. Each step is a pure
    transformer of the register file; the five busy-waits are environment
    steps (`Poll.Spin`) fed by a `ClockEnv`.

    The steps, in the order of src/main.rs:
      1. start the crystal oscillator and wait for it (lines 98-102);
      2. put clk_ref on the crystal and wait for the readback (104-108);
      3. put clk_sys's glitchless mux on clk_ref and wait (110-115);
      4. pulse the resets of both PLLs (117-125);
      5. power the system PLL down (127-128);
      6. program a PLL's dividers (130-132 and 138-140);
      7. clear a PLL's power mask and wait for lock (133-136 and 141-144);
      8. select the system PLL on clk_sys's auxiliary mux (a), then switch
         the glitchless mux to it (b) (146-155);
      9. restart clk_peri from clk_sys (157-162);
     10. start the watchdog tick and clear the timer's debug pause (164-173). */
module Clocks {
  import opened Wrappers
  import opened Bits
  import opened Registers
  import opened Poll
  import opened Resets

  /** Register addresses. */
  const XOSC_CTRL: u32 := XOSC_BASE + 0x00
  const XOSC_STATUS: u32 := XOSC_BASE + 0x04
  const CLK_REF_CTRL: u32 := CLOCKS_BASE + 0x30
  const CLK_SYS_CTRL: u32 := CLOCKS_BASE + 0x3c
  const CLK_PERI_CTRL: u32 := CLOCKS_BASE + 0x48
  const WATCHDOG_TICK: u32 := WATCHDOG_BASE + 0x2c
  const TIMER_DBGPAUSE: u32 := TIMER_BASE + 0x2c

  /** Offsets of a PLL's control / status, power, feedback-divider and
      post-divider registers. */
  const PLL_CS: u32 := 0x00
  const PLL_PWR: u32 := 0x04
  const PLL_FBDIV_INT: u32 := 0x08
  const PLL_PRIM: u32 := 0x0c

  /** One of the two PLL blocks. */
  predicate IsPll(base: u32) {
    base == PLL_SYS_BASE || base == PLL_USB_BASE
  }

  /** Words the bring-up writes. */
  const XOSC_ENABLE_1_15MHZ: u32 := 0x00fa_baa0
  const CLK_REF_SRC_XOSC: u32 := 2
  const PLL_PWR_OFF: u32 := (1 << 5) | 1
  const PLL_PWR_ON_MASK: u32 := 0x0000_0011
  const PLL_SYS_FBDIV: u32 := 125
  const PLL_SYS_POSTDIVS: u32 := 0x0006_2000
  const PLL_USB_FBDIV: u32 := 100
  const PLL_USB_POSTDIVS: u32 := 0x0005_5000
  const CLK_SYS_AUXSRC_MASK: u32 := 7 << 5
  const CLK_SYS_SRC_AUX: u32 := 0x0000_0001
  const CLK_PERI_ENABLE: u32 := 1 << 11
  const WATCHDOG_TICK_WORD: u32 := 12 | (1 << 9)

  /** Bit positions and fields named by the datasheet. */
  const XOSC_STATUS_STABLE: BitIndex := 31
  const PLL_CS_LOCK: BitIndex := 31
  const PLL_PWR_PD: BitIndex := 0
  const PLL_PWR_VCOPD: BitIndex := 5
  const CLK_SYS_SRC: BitIndex := 0
  const CLK_PERI_ENABLE_BIT: BitIndex := 11
  const WATCHDOG_TICK_ENABLE: BitIndex := 9

  /** The board's crystal frequency. */
  const XOSC_HZ: nat := 12_000_000

  /** The five wait conditions, in program order. */
  const XOSC_STABLE: Cond := BitSet(XOSC_STATUS_STABLE)
  const REF_ON_XOSC: Cond := Equals(CLK_REF_SRC_XOSC)
  const SYS_ON_REF: Cond := BitClear(CLK_SYS_SRC)
  const PLL_LOCKED: Cond := BitSet(PLL_CS_LOCK)

  /** What the hardware returns to each busy-wait, one word per read. */
  datatype ClockEnv = ClockEnv(
    xoscStatus: seq<u32>,
    refCtrl: seq<u32>,
    sysCtrl: seq<u32>,
    pllSysCs: seq<u32>,
    pllUsbCs: seq<u32>)

  /** Every wait of the bring-up eventually sees its condition. */
  ghost predicate Responsive(env: ClockEnv) {
    && Eventually(XOSC_STABLE, env.xoscStatus)
    && Eventually(REF_ON_XOSC, env.refCtrl)
    && Eventually(SYS_ON_REF, env.sysCtrl)
    && Eventually(PLL_LOCKED, env.pllSysCs)
    && Eventually(PLL_LOCKED, env.pllUsbCs)
  }

  /** The registers of a PLL block. */
  function PllRegs(base: u32): set<u32> {
    {base + PLL_CS, base + PLL_PWR, base + PLL_FBDIV_INT, base + PLL_PRIM}
  }

  /** The registers steps 1 to 3 touch. */
  function RefRegs(): set<u32> {
    {XOSC_CTRL, XOSC_STATUS, CLK_REF_CTRL, CLK_SYS_CTRL}
  }

  /** The registers steps 8 to 10 touch. */
  function MuxRegs(): set<u32> {
    {CLK_SYS_CTRL, CLK_PERI_CTRL, WATCHDOG_TICK, TIMER_DBGPAUSE}
  }

  /** All registers `init_clocks` writes or waits on. */
  function ClockRegs(): set<u32> {
    RefRegs() + {RESETS_BASE} + PllRegs(PLL_SYS_BASE) + PllRegs(PLL_USB_BASE) + MuxRegs()
  }

  /** The clock registers are ordinary peripheral registers: a write to one
      replaces it. */
  lemma ClockRegistersDecode()
    ensures Decode(XOSC_CTRL) == Plain(XOSC_CTRL)
    ensures Decode(CLK_REF_CTRL) == Plain(CLK_REF_CTRL)
    ensures Decode(CLK_SYS_CTRL) == Plain(CLK_SYS_CTRL)
    ensures Aliased(CLK_SYS_CTRL) && IsRegister(CLK_SYS_CTRL)
    ensures Decode(CLK_PERI_CTRL) == Plain(CLK_PERI_CTRL)
    ensures Decode(WATCHDOG_TICK) == Plain(WATCHDOG_TICK)
    ensures Decode(TIMER_DBGPAUSE) == Plain(TIMER_DBGPAUSE)
    ensures Decode(PLL_SYS_BASE + PLL_PWR) == Plain(PLL_SYS_BASE + PLL_PWR)
  {
  }

  /** The PLL registers are ordinary peripheral registers. */
  lemma PllRegistersDecode(base: u32)
    requires IsPll(base)
    ensures Aliased(base + PLL_PWR) && IsRegister(base + PLL_PWR)
    ensures Decode(base + PLL_FBDIV_INT) == Plain(base + PLL_FBDIV_INT)
    ensures Decode(base + PLL_PRIM) == Plain(base + PLL_PRIM)
  {
  }

  /** Step 1: enable the crystal oscillator and wait until it is stable. */
  function StartXosc(rf: Regs, observed: seq<u32>): (r: Option<Regs>)
    ensures r.Some? <==> Eventually(XOSC_STABLE, observed)
    ensures r.Some? ==>
              && Read(r.value, XOSC_CTRL) == XOSC_ENABLE_1_15MHZ
              && Bit(Read(r.value, XOSC_STATUS), XOSC_STATUS_STABLE)
              && Frame(rf, r.value, {XOSC_CTRL, XOSC_STATUS})
  {
    ClockRegistersDecode();
    var e :- Spin(WriteReg(rf, XOSC_CTRL, XOSC_ENABLE_1_15MHZ), XOSC_STATUS, XOSC_STABLE, observed);
    Some(e.rf)
  }

  /** Step 2: select the crystal for clk_ref and wait until CLK_REF_CTRL
      reads back 2. The switch is made only once the crystal reports
      stable. */
  function SelectRefXosc(rf: Regs, observed: seq<u32>): (r: Option<Regs>)
    requires Bit(Read(rf, XOSC_STATUS), XOSC_STATUS_STABLE)
    ensures r.Some? <==> Eventually(REF_ON_XOSC, observed)
    ensures r.Some? ==>
              && Read(r.value, CLK_REF_CTRL) == CLK_REF_SRC_XOSC
              && Frame(rf, r.value, {CLK_REF_CTRL})
  {
    ClockRegistersDecode();
    var e :- Spin(WriteReg(rf, CLK_REF_CTRL, CLK_REF_SRC_XOSC), CLK_REF_CTRL, REF_ON_XOSC, observed);
    Some(e.rf)
  }

  /** Step 3: put clk_sys's glitchless mux on clk_ref and wait until its
      SRC bit reads back clear. */
  function SysOnRef(rf: Regs, observed: seq<u32>): (r: Option<Regs>)
    ensures r.Some? <==> Eventually(SYS_ON_REF, observed)
    ensures r.Some? ==>
              && !Bit(Read(r.value, CLK_SYS_CTRL), CLK_SYS_SRC)
              && Frame(rf, r.value, {CLK_SYS_CTRL})
  {
    ClockRegistersDecode();
    var e :- Spin(ClearBits(rf, CLK_SYS_CTRL, CLK_SYS_SRC_AUX), CLK_SYS_CTRL, SYS_ON_REF, observed);
    Some(e.rf)
  }

  /** Step 4: reset and release both PLLs. */
  function ResetPlls(rf: Regs): (r: Regs)
    ensures Read(r, RESETS_BASE) == Read(rf, RESETS_BASE) & !(Mask(RESET_PLL_SYS) | Mask(RESET_PLL_USB))
    ensures Frame(rf, r, {RESETS_BASE})
  {
    ResetPulse(ResetPulse(rf, RESET_PLL_SYS), RESET_PLL_USB)
  }

  /** Step 5: write PD and VCOPD to the system PLL's power register. */
  function PowerDownSysPll(rf: Regs): (r: Regs)
    ensures Bit(Read(r, PLL_SYS_BASE + PLL_PWR), PLL_PWR_PD)
    ensures Bit(Read(r, PLL_SYS_BASE + PLL_PWR), PLL_PWR_VCOPD)
    ensures Read(r, PLL_SYS_BASE + PLL_PWR) == 0x21
    ensures Frame(rf, r, {PLL_SYS_BASE + PLL_PWR})
  {
    ClockRegistersDecode();
    WriteReg(rf, PLL_SYS_BASE + PLL_PWR, PLL_PWR_OFF)
  }

  /** Step 6 for one PLL: program the feedback divider and the post
      dividers. The system PLL is reprogrammed only while it is disabled:
      its power register holds PD and VCOPD. */
  function ProgramPll(rf: Regs, base: u32, fbdiv: u32, postdivs: u32): (r: Regs)
    requires IsPll(base)
    requires base == PLL_SYS_BASE ==>
               Bit(Read(rf, base + PLL_PWR), PLL_PWR_PD) && Bit(Read(rf, base + PLL_PWR), PLL_PWR_VCOPD)
    ensures Read(r, base + PLL_FBDIV_INT) == fbdiv
    ensures Read(r, base + PLL_PRIM) == postdivs
    ensures Frame(rf, r, {base + PLL_FBDIV_INT, base + PLL_PRIM})
  {
    PllRegistersDecode(base);
    WriteReg(WriteReg(rf, base + PLL_FBDIV_INT, fbdiv), base + PLL_PRIM, postdivs)
  }

  /** Step 7 for one PLL: clear the power-register mask 0x11 and wait for
      lock. */
  function EnablePll(rf: Regs, base: u32, observed: seq<u32>): (r: Option<Regs>)
    requires IsPll(base)
    ensures r.Some? <==> Eventually(PLL_LOCKED, observed)
    ensures r.Some? ==>
              && Read(r.value, base + PLL_PWR) == Read(rf, base + PLL_PWR) & !PLL_PWR_ON_MASK
              && Bit(Read(r.value, base + PLL_CS), PLL_CS_LOCK)
              && Frame(rf, r.value, {base + PLL_CS, base + PLL_PWR})
  {
    PllRegistersDecode(base);
    var e :- Spin(ClearBits(rf, base + PLL_PWR, PLL_PWR_ON_MASK), base + PLL_CS, PLL_LOCKED, observed);
    Some(e.rf)
  }

  /** Step 8a: read-modify-write of CLK_SYS_CTRL selecting the system PLL
      (AUXSRC = 0, bits 7:5) as clk_sys's auxiliary source. Changing the
      auxiliary mux is only safe while the glitchless mux (SRC, bit 0) has
      clk_sys on clk_ref, as step 3 left it. */
  function SelectPllAux(rf: Regs): (r: Regs)
    requires !Bit(Read(rf, CLK_SYS_CTRL), CLK_SYS_SRC)
    ensures Field(Read(r, CLK_SYS_CTRL), 5, 3) == 0
    ensures SameOutside(Read(r, CLK_SYS_CTRL), Read(rf, CLK_SYS_CTRL), CLK_SYS_AUXSRC_MASK)
    ensures Frame(rf, r, {CLK_SYS_CTRL})
  {
    ClockRegistersDecode();
    var w := Read(rf, CLK_SYS_CTRL) & !CLK_SYS_AUXSRC_MASK;
    AuxsrcCleared(Read(rf, CLK_SYS_CTRL));
    WriteReg(rf, CLK_SYS_CTRL, w)
  }

  lemma AuxsrcCleared(x: u32)
    ensures Field(x & !CLK_SYS_AUXSRC_MASK, 5, 3) == 0
    ensures SameOutside(x & !CLK_SYS_AUXSRC_MASK, x, CLK_SYS_AUXSRC_MASK)
  {
  }

  /** Step 8b: switch clk_sys's glitchless mux to the auxiliary path. No
      readback wait follows. It is made once the auxiliary mux selects the
      system PLL and that PLL has locked. */
  function SwitchSysToAux(rf: Regs): (r: Regs)
    requires Field(Read(rf, CLK_SYS_CTRL), 5, 3) == 0
    requires Bit(Read(rf, PLL_SYS_BASE + PLL_CS), PLL_CS_LOCK)
    ensures Bit(Read(r, CLK_SYS_CTRL), CLK_SYS_SRC)
    ensures SameOutside(Read(r, CLK_SYS_CTRL), Read(rf, CLK_SYS_CTRL), Mask(CLK_SYS_SRC))
    ensures Frame(rf, r, {CLK_SYS_CTRL})
  {
    ClockRegistersDecode();
    SetBits(rf, CLK_SYS_CTRL, CLK_SYS_SRC_AUX)
  }

  /** Step 9, first write: stop clk_peri by clearing ENABLE (bit 11); the
      same word 0 selects clk_sys (AUXSRC 0, bits 7:5) as its source. */
  function StopPeriClock(rf: Regs): (r: Regs)
    ensures !Bit(Read(r, CLK_PERI_CTRL), CLK_PERI_ENABLE_BIT)
    ensures Field(Read(r, CLK_PERI_CTRL), 5, 3) == 0
    ensures Frame(rf, r, {CLK_PERI_CTRL})
  {
    ClockRegistersDecode();
    WriteReg(rf, CLK_PERI_CTRL, 0)
  }

  /** Step 9, second write: start the stopped clk_peri again, keeping
      AUXSRC 0. */
  function StartPeriClock(rf: Regs): (r: Regs)
    requires !Bit(Read(rf, CLK_PERI_CTRL), CLK_PERI_ENABLE_BIT)
    ensures Bit(Read(r, CLK_PERI_CTRL), CLK_PERI_ENABLE_BIT)
    ensures Field(Read(r, CLK_PERI_CTRL), 5, 3) == 0
    ensures Read(r, CLK_PERI_CTRL) == 0x800
    ensures Frame(rf, r, {CLK_PERI_CTRL})
  {
    ClockRegistersDecode();
    WriteReg(rf, CLK_PERI_CTRL, CLK_PERI_ENABLE)
  }

  /** Step 9: stop clk_peri, then start it again from clk_sys. The stalling
      read of CLOCKS_BASE between the two writes changes no register and is
      not modelled. */
  function RestartPeriClock(rf: Regs): (r: Regs)
    ensures Bit(Read(r, CLK_PERI_CTRL), CLK_PERI_ENABLE_BIT)
    ensures Field(Read(r, CLK_PERI_CTRL), 5, 3) == 0
    ensures Read(r, CLK_PERI_CTRL) == 0x800
    ensures Frame(rf, r, {CLK_PERI_CTRL})
  {
    StartPeriClock(StopPeriClock(rf))
  }

  /** Step 10: start the watchdog tick generator dividing by 12 and stop the
      timer from pausing while a debugger halts the cores. */
  function ConfigureTicks(rf: Regs): (r: Regs)
    ensures Field(Read(r, WATCHDOG_TICK), 0, 9) == 12
    ensures Bit(Read(r, WATCHDOG_TICK), WATCHDOG_TICK_ENABLE)
    ensures Read(r, TIMER_DBGPAUSE) == 0
    ensures Frame(rf, r, {WATCHDOG_TICK, TIMER_DBGPAUSE})
  {
    ClockRegistersDecode();
    WriteReg(WriteReg(rf, WATCHDOG_TICK, WATCHDOG_TICK_WORD), TIMER_DBGPAUSE, 0)
  }

  /** Steps 1 to 3: the crystal is stable and drives clk_ref, and clk_sys
      runs from clk_ref. */
  function StartReference(rf: Regs, env: ClockEnv): (r: Option<Regs>)
    ensures r.Some? <==>
              && Eventually(XOSC_STABLE, env.xoscStatus)
              && Eventually(REF_ON_XOSC, env.refCtrl)
              && Eventually(SYS_ON_REF, env.sysCtrl)
    ensures r.Some? ==>
              && ReferenceReady(r.value)
              && !Bit(Read(r.value, CLK_SYS_CTRL), CLK_SYS_SRC)
              && Frame(rf, r.value, RefRegs())
  {
    var s1 :- StartXosc(rf, env.xoscStatus);
    var s2 :- SelectRefXosc(s1, env.refCtrl);
    SysOnRef(s2, env.sysCtrl)
  }

  /** Steps 5 to 7 for the system PLL: power it down, program 125 / (6 * 2)
      and wait for lock. */
  function StartPllSys(rf: Regs, observed: seq<u32>): (r: Option<Regs>)
    ensures r.Some? <==> Eventually(PLL_LOCKED, observed)
    ensures r.Some? ==>
              && PllSysReady(r.value)
              && Frame(rf, r.value, PllRegs(PLL_SYS_BASE))
  {
    var programmed := ProgramPll(PowerDownSysPll(rf), PLL_SYS_BASE, PLL_SYS_FBDIV, PLL_SYS_POSTDIVS);
    EnablePll(programmed, PLL_SYS_BASE, observed)
  }

  /** Steps 6 and 7 for the USB PLL: program 100 / (5 * 5) and wait for
      lock. Its power register is not written first. */
  function StartPllUsb(rf: Regs, observed: seq<u32>): (r: Option<Regs>)
    ensures r.Some? <==> Eventually(PLL_LOCKED, observed)
    ensures r.Some? ==>
              && Read(r.value, PLL_USB_BASE + PLL_PWR) == Read(rf, PLL_USB_BASE + PLL_PWR) & !PLL_PWR_ON_MASK
              && PllUsbReady(r.value)
              && Frame(rf, r.value, PllRegs(PLL_USB_BASE))
  {
    var programmed := ProgramPll(rf, PLL_USB_BASE, PLL_USB_FBDIV, PLL_USB_POSTDIVS);
    EnablePll(programmed, PLL_USB_BASE, observed)
  }

  /** Steps 8 to 10: clk_sys moves to the system PLL, clk_peri is
      restarted from clk_sys, and the watchdog tick and timer are set up.
      They start with clk_sys still on clk_ref and the system PLL locked. */
  function MoveToPll(rf: Regs): (r: Regs)
    requires !Bit(Read(rf, CLK_SYS_CTRL), CLK_SYS_SRC)
    requires PllSysReady(rf)
    ensures SysOnPll(r)
    ensures Frame(rf, r, MuxRegs())
  {
    var aux := SelectPllAux(rf);
    assert PLL_SYS_BASE + PLL_CS != CLK_SYS_CTRL;
    var s7 := SwitchSysToAux(aux);
    AuxSwitchKeepsAuxsrc(Read(aux, CLK_SYS_CTRL), Read(s7, CLK_SYS_CTRL));
    ConfigureTicks(RestartPeriClock(s7))
  }

  /** Setting only bit 0 keeps a zero AUXSRC field zero. */
  lemma AuxSwitchKeepsAuxsrc(x: u32, y: u32)
    requires Field(x, 5, 3) == 0
    requires SameOutside(y, x, Mask(CLK_SYS_SRC))
    ensures Field(y, 5, 3) == 0
  {
  }

  /** After steps 1 to 3: the crystal runs and drives clk_ref. */
  predicate ReferenceReady(rf: Regs) {
    && Read(rf, XOSC_CTRL) == XOSC_ENABLE_1_15MHZ
    && Bit(Read(rf, XOSC_STATUS), XOSC_STATUS_STABLE)
    && Read(rf, CLK_REF_CTRL) == CLK_REF_SRC_XOSC
  }

  /** After the system PLL's steps: 125 / (6 * 2), powered, locked. */
  predicate PllSysReady(rf: Regs) {
    && Read(rf, PLL_SYS_BASE + PLL_PWR) == 0x20
    && Read(rf, PLL_SYS_BASE + PLL_FBDIV_INT) == PLL_SYS_FBDIV
    && Read(rf, PLL_SYS_BASE + PLL_PRIM) == PLL_SYS_POSTDIVS
    && Bit(Read(rf, PLL_SYS_BASE + PLL_CS), PLL_CS_LOCK)
  }

  /** After the USB PLL's steps: 100 / (5 * 5), locked. */
  predicate PllUsbReady(rf: Regs) {
    && Read(rf, PLL_USB_BASE + PLL_FBDIV_INT) == PLL_USB_FBDIV
    && Read(rf, PLL_USB_BASE + PLL_PRIM) == PLL_USB_POSTDIVS
    && Bit(Read(rf, PLL_USB_BASE + PLL_CS), PLL_CS_LOCK)
  }

  /** After steps 8 to 10: clk_sys on the system PLL, clk_peri running,
      the tick generator and timer set up. */
  predicate SysOnPll(rf: Regs) {
    && Bit(Read(rf, CLK_SYS_CTRL), CLK_SYS_SRC)
    && Field(Read(rf, CLK_SYS_CTRL), 5, 3) == 0
    && Read(rf, CLK_PERI_CTRL) == CLK_PERI_ENABLE
    && Read(rf, WATCHDOG_TICK) == WATCHDOG_TICK_WORD
    && Read(rf, TIMER_DBGPAUSE) == 0
  }

  /** The register values `init_clocks` leaves behind. */
  predicate ClocksConfigured(rf: Regs) {
    ReferenceReady(rf) && PllSysReady(rf) && PllUsbReady(rf) && SysOnPll(rf)
  }

  /** A phase's result survives the later phases, which touch none of its
      registers. */
  lemma PhasesCompose(s3: Regs, s4: Regs, s5: Regs, s6: Regs, s7: Regs)
    requires ReferenceReady(s3)
    requires Frame(s3, s4, {RESETS_BASE})
    requires PllSysReady(s5) && Frame(s4, s5, PllRegs(PLL_SYS_BASE))
    requires PllUsbReady(s6) && Frame(s5, s6, PllRegs(PLL_USB_BASE))
    requires SysOnPll(s7) && Frame(s6, s7, MuxRegs())
    ensures ClocksConfigured(s7)
  {
    ReferenceSurvives(s3, s4, s5, s6, s7);
    PllsSurvive(s5, s6, s7);
  }

  lemma ReferenceSurvives(s3: Regs, s4: Regs, s5: Regs, s6: Regs, s7: Regs)
    requires ReferenceReady(s3)
    requires Frame(s3, s4, {RESETS_BASE})
    requires Frame(s4, s5, PllRegs(PLL_SYS_BASE))
    requires Frame(s5, s6, PllRegs(PLL_USB_BASE))
    requires Frame(s6, s7, MuxRegs())
    ensures ReferenceReady(s7)
  {
    ReferenceKept(s3, s4, {RESETS_BASE});
    ReferenceKept(s4, s5, PllRegs(PLL_SYS_BASE));
    ReferenceKept(s5, s6, PllRegs(PLL_USB_BASE));
    ReferenceKept(s6, s7, MuxRegs());
  }

  lemma PllsSurvive(s5: Regs, s6: Regs, s7: Regs)
    requires PllSysReady(s5)
    requires PllUsbReady(s6) && Frame(s5, s6, PllRegs(PLL_USB_BASE))
    requires Frame(s6, s7, MuxRegs())
    ensures PllSysReady(s7) && PllUsbReady(s7)
  {
    PllSysKept(s5, s6, PllRegs(PLL_USB_BASE));
    PllSysKept(s6, s7, MuxRegs());
    PllUsbKept(s6, s7, MuxRegs());
  }

  lemma ReferenceKept(a: Regs, b: Regs, touched: set<u32>)
    requires ReferenceReady(a) && Frame(a, b, touched)
    requires XOSC_CTRL !in touched && XOSC_STATUS !in touched && CLK_REF_CTRL !in touched
    ensures ReferenceReady(b)
  {
  }

  lemma PllSysKept(a: Regs, b: Regs, touched: set<u32>)
    requires PllSysReady(a) && Frame(a, b, touched)
    requires touched !! PllRegs(PLL_SYS_BASE)
    ensures PllSysReady(b)
  {
    assert PLL_SYS_BASE + PLL_PWR in PllRegs(PLL_SYS_BASE);
    assert PLL_SYS_BASE + PLL_FBDIV_INT in PllRegs(PLL_SYS_BASE);
    assert PLL_SYS_BASE + PLL_PRIM in PllRegs(PLL_SYS_BASE);
    assert PLL_SYS_BASE + PLL_CS in PllRegs(PLL_SYS_BASE);
  }

  lemma PllUsbKept(a: Regs, b: Regs, touched: set<u32>)
    requires PllUsbReady(a) && Frame(a, b, touched)
    requires touched !! PllRegs(PLL_USB_BASE)
    ensures PllUsbReady(b)
  {
    assert PLL_USB_BASE + PLL_FBDIV_INT in PllRegs(PLL_USB_BASE);
    assert PLL_USB_BASE + PLL_PRIM in PllRegs(PLL_USB_BASE);
    assert PLL_USB_BASE + PLL_CS in PllRegs(PLL_USB_BASE);
  }

  /** When the PLLs are up, clk_sys is still on clk_ref and the system PLL
      is still locked: the order `MoveToPll` needs. */
  lemma ReadyToSwitch(s3: Regs, s4: Regs, s5: Regs, s6: Regs)
    requires !Bit(Read(s3, CLK_SYS_CTRL), CLK_SYS_SRC)
    requires Frame(s3, s4, {RESETS_BASE})
    requires Frame(s4, s5, PllRegs(PLL_SYS_BASE))
    requires PllSysReady(s5) && Frame(s5, s6, PllRegs(PLL_USB_BASE))
    ensures !Bit(Read(s6, CLK_SYS_CTRL), CLK_SYS_SRC)
    ensures PllSysReady(s6)
  {
    assert CLK_SYS_CTRL !in PllRegs(PLL_SYS_BASE);
    assert CLK_SYS_CTRL !in PllRegs(PLL_USB_BASE);
    PllSysKept(s5, s6, PllRegs(PLL_USB_BASE));
  }

  /** `init_clocks`. It returns exactly when every wait eventually sees its
      condition, and then leaves the clock registers configured. */
  function InitClocks(rf: Regs, env: ClockEnv): (r: Option<Regs>)
    ensures r.Some? <==> Responsive(env)
    ensures r.Some? ==> ClocksConfigured(r.value)
  {
    var s3 :- StartReference(rf, env);
    var s4 := ResetPlls(s3);
    var s5 :- StartPllSys(s4, env.pllSysCs);
    var s6 :- StartPllUsb(s5, env.pllUsbCs);
    ReadyToSwitch(s3, s4, s5, s6);
    var s7 := MoveToPll(s6);
    PhasesCompose(s3, s4, s5, s6, s7);
    Some(s7)
  }

  /** The rest of what `init_clocks` does: both PLLs are released from
      reset with every other RESETS bit as it was, the USB PLL's power
      register ends with bits 0 and 4 cleared, and no register outside the
      clock registers changes. */
  lemma InitClocksEffects(rf: Regs, env: ClockEnv)
    requires Responsive(env)
    ensures InitClocks(rf, env).Some?
    ensures var r := InitClocks(rf, env).value;
            && Read(r, RESETS_BASE) == Read(rf, RESETS_BASE) & !(Mask(RESET_PLL_SYS) | Mask(RESET_PLL_USB))
            && Read(r, PLL_USB_BASE + PLL_PWR) == Read(rf, PLL_USB_BASE + PLL_PWR) & !PLL_PWR_ON_MASK
            && Frame(rf, r, ClockRegs())
  {
    var s3 := StartReference(rf, env).value;
    var s4 := ResetPlls(s3);
    var s5 := StartPllSys(s4, env.pllSysCs).value;
    var s6 := StartPllUsb(s5, env.pllUsbCs).value;
    ReadyToSwitch(s3, s4, s5, s6);
    var s7 := MoveToPll(s6);
    assert InitClocks(rf, env) == Some(s7);
    ResetsSurvive(rf, s3, s4, s5, s6, s7);
    UsbPowerSurvives(rf, s3, s4, s5, s6, s7);
    FrameTrans(rf, s3, s4, RefRegs(), {RESETS_BASE});
    FrameTrans(rf, s4, s5, RefRegs() + {RESETS_BASE}, PllRegs(PLL_SYS_BASE));
    FrameTrans(rf, s5, s6, RefRegs() + {RESETS_BASE} + PllRegs(PLL_SYS_BASE), PllRegs(PLL_USB_BASE));
    FrameTrans(rf, s6, s7, RefRegs() + {RESETS_BASE} + PllRegs(PLL_SYS_BASE) + PllRegs(PLL_USB_BASE), MuxRegs());
  }

  lemma ResetsSurvive(rf: Regs, s3: Regs, s4: Regs, s5: Regs, s6: Regs, s7: Regs)
    requires Frame(rf, s3, RefRegs())
    requires Read(s4, RESETS_BASE) == Read(s3, RESETS_BASE) & !(Mask(RESET_PLL_SYS) | Mask(RESET_PLL_USB))
    requires Frame(s4, s5, PllRegs(PLL_SYS_BASE))
    requires Frame(s5, s6, PllRegs(PLL_USB_BASE))
    requires Frame(s6, s7, MuxRegs())
    ensures Read(s7, RESETS_BASE) == Read(rf, RESETS_BASE) & !(Mask(RESET_PLL_SYS) | Mask(RESET_PLL_USB))
  {
    assert RESETS_BASE !in RefRegs();
    assert RESETS_BASE !in PllRegs(PLL_SYS_BASE);
    assert RESETS_BASE !in PllRegs(PLL_USB_BASE);
    assert RESETS_BASE !in MuxRegs();
  }

  lemma UsbPowerSurvives(rf: Regs, s3: Regs, s4: Regs, s5: Regs, s6: Regs, s7: Regs)
    requires Frame(rf, s3, RefRegs())
    requires Frame(s3, s4, {RESETS_BASE})
    requires Frame(s4, s5, PllRegs(PLL_SYS_BASE))
    requires Read(s6, PLL_USB_BASE + PLL_PWR) == Read(s5, PLL_USB_BASE + PLL_PWR) & !PLL_PWR_ON_MASK
    requires Frame(s6, s7, MuxRegs())
    ensures Read(s7, PLL_USB_BASE + PLL_PWR) == Read(rf, PLL_USB_BASE + PLL_PWR) & !PLL_PWR_ON_MASK
  {
    assert PLL_USB_BASE + PLL_PWR !in RefRegs();
    assert PLL_USB_BASE + PLL_PWR !in PllRegs(PLL_SYS_BASE);
    assert PLL_USB_BASE + PLL_PWR !in MuxRegs();
  }
}
