/** `main`: bring up the clocks and the LED pin, then blink. The loop
    never ends; the model runs it a given number of times and records the
    level of the LED pin after every write. */
module Blink {
  import opened Wrappers
  import opened Bits
  import opened Registers
  import opened Clocks
  import opened Io

  /** The onboard LED of the Pico board. */
  const PIN: BitIndex := 25

  /** `write_reg(SIO_BASE + 0x014, 1 << PIN)`: drive the LED pin high. */
  function LedOn(rf: Regs): (r: Regs)
    ensures Read(r, SIO_GPIO_OUT) == Read(rf, SIO_GPIO_OUT) | Mask(PIN)
    ensures Frame(rf, r, {SIO_GPIO_OUT})
  {
    SioDecode();
    WriteReg(rf, SIO_GPIO_OUT_SET, Mask(PIN))
  }

  /** `write_reg(SIO_BASE + 0x018, 1 << PIN)`: drive the LED pin low. */
  function LedOff(rf: Regs): (r: Regs)
    ensures Read(r, SIO_GPIO_OUT) == Read(rf, SIO_GPIO_OUT) & !Mask(PIN)
    ensures Frame(rf, r, {SIO_GPIO_OUT})
  {
    SioDecode();
    WriteReg(rf, SIO_GPIO_OUT_CLR, Mask(PIN))
  }

  /** The LED pin's output level in a register file. */
  predicate LedHigh(rf: Regs) {
    Bit(Read(rf, SIO_GPIO_OUT), PIN)
  }

  /** One pass of the loop: the pin's output bit is cleared in the end;
      the other pins' outputs and every other register stay as they were. */
  function Iteration(rf: Regs): (r: Regs)
    ensures Read(r, SIO_GPIO_OUT) == Read(rf, SIO_GPIO_OUT) & !Mask(PIN)
    ensures Frame(rf, r, {SIO_GPIO_OUT})
  {
    SetThenClearMask(Read(rf, SIO_GPIO_OUT), Mask(PIN));
    LedOff(LedOn(rf))
  }

  /** Within one pass the LED is high after the first write and low after
      the second. */
  lemma IterationLevels(rf: Regs)
    ensures LedHigh(LedOn(rf))
    ensures !LedHigh(Iteration(rf))
  {
    var x := Read(rf, SIO_GPIO_OUT);
    SetMaskIsSet(x, Mask(PIN));
    ClearMaskIsClear(x, Mask(PIN));
  }

  /** The LED level right after the set write and right after the clear
      write of one pass. */
  datatype Pass = Pass(afterOn: bool, afterOff: bool)

  /** The register file after the passes run so far, and one record per
      pass. */
  datatype Trace = Trace(rf: Regs, passes: seq<Pass>)

  /** A pass that lights the LED and then puts it out. */
  const BLINK: Pass := Pass(true, false)

  /** The register file after `n` passes of the loop: after at least one
      pass the LED pin's output bit is clear and the other pins' outputs are
      as before the first; nothing but the output register changes. */
  function After(rf: Regs, n: nat): (r: Regs)
    ensures n > 0 ==> Read(r, SIO_GPIO_OUT) == Read(rf, SIO_GPIO_OUT) & !Mask(PIN)
    ensures Frame(rf, r, {SIO_GPIO_OUT})
    decreases n
  {
    if n == 0 then rf
    else
      var prev := After(rf, n - 1);
      ClearTwice(Read(rf, SIO_GPIO_OUT), Mask(PIN));
      FrameTrans(rf, prev, Iteration(prev), {SIO_GPIO_OUT}, {SIO_GPIO_OUT});
      assert {SIO_GPIO_OUT} + {SIO_GPIO_OUT} == {SIO_GPIO_OUT};
      Iteration(prev)
  }

  /** `n` passes of the loop, recording the LED levels of each: every pass
      drives the LED high and then low. */
  method RunLoop(rf: Regs, n: nat) returns (t: Trace)
    ensures |t.passes| == n
    ensures forall i :: 0 <= i < n ==> t.passes[i] == BLINK
    ensures t.rf == After(rf, n)
  {
    var r := rf;
    var passes: seq<Pass> := [];
    var k := 0;
    while k < n
      invariant k <= n
      invariant |passes| == k
      invariant forall i :: 0 <= i < k ==> passes[i] == BLINK
      invariant r == After(rf, k)
    {
      var on := LedOn(r);
      var off := Iteration(r);
      IterationLevels(r);
      passes := passes + [Pass(LedHigh(on), LedHigh(off))];
      r := off;
      k := k + 1;
    }
    t := Trace(r, passes);
  }

  /** The LED levels of a run of passes in write order. */
  function Levels(passes: seq<Pass>): seq<bool> {
    if |passes| == 0 then []
    else [passes[0].afterOn, passes[0].afterOff] + Levels(passes[1..])
  }

  /** A run of blinking passes shows the levels high, low, high, low, …:
      the level after write `i` is high exactly when `i` is even. */
  lemma {:induction false} BlinksAlternate(passes: seq<Pass>)
    requires forall i :: 0 <= i < |passes| ==> passes[i] == BLINK
    ensures |Levels(passes)| == 2 * |passes|
    ensures forall i :: 0 <= i < |Levels(passes)| ==> (Levels(passes)[i] <==> i % 2 == 0)
  {
    if |passes| > 0 {
      var rest := passes[1..];
      BlinksAlternate(rest);
      var all := Levels(passes);
      assert all == [true, false] + Levels(rest);
      forall i | 0 <= i < |all|
        ensures all[i] <==> i % 2 == 0
      {
        if i >= 2 {
          assert all[i] == Levels(rest)[i - 2];
        }
      }
    }
  }

  /** The blink program: `init_clocks`, `init_io(PIN)`, then `n` passes of
      the loop. It gets to the loop exactly when every clock wait is
      eventually satisfied, and then the clocks stay configured, the LED pin
      stays routed to SIO with its output driver on, and every pass lights
      the LED and puts it out. */
  method RunProgram(rf: Regs, env: ClockEnv, n: nat) returns (r: Option<Trace>)
    ensures r.Some? <==> Responsive(env)
    ensures r.Some? ==>
              && ClocksConfigured(r.value.rf)
              && Read(r.value.rf, PadAddr(PIN)) == 0
              && Read(r.value.rf, CtrlAddr(PIN)) == FUNCSEL_SIO
              && Bit(Read(r.value.rf, SIO_GPIO_OE), PIN)
              && |r.value.passes| == n
              && (forall i :: 0 <= i < n ==> r.value.passes[i] == BLINK)
  {
    var clocked := InitClocks(rf, env);
    if clocked.None? {
      return None;
    }
    var pinned := InitIo(clocked.value, PIN);
    var t := RunLoop(pinned, n);
    MainCompose(clocked.value, pinned, t.rf);
    r := Some(t);
  }

  /** Neither `init_io` nor the loop touches a clock register, and the loop
      leaves the pin set-up alone. */
  lemma MainCompose(clocked: Regs, pinned: Regs, last: Regs)
    requires ClocksConfigured(clocked)
    requires Frame(clocked, pinned, IoRegs(PIN))
    requires Read(pinned, PadAddr(PIN)) == 0 && Read(pinned, CtrlAddr(PIN)) == FUNCSEL_SIO
    requires Read(pinned, SIO_GPIO_OE) == Read(clocked, SIO_GPIO_OE) | Mask(PIN)
    requires Frame(pinned, last, {SIO_GPIO_OUT})
    ensures ClocksConfigured(last)
    ensures Read(last, PadAddr(PIN)) == 0 && Read(last, CtrlAddr(PIN)) == FUNCSEL_SIO
    ensures Bit(Read(last, SIO_GPIO_OE), PIN)
  {
    Pin25Addresses();
    FrameTrans(clocked, pinned, last, IoRegs(PIN), {SIO_GPIO_OUT});
    ClocksUntouched(clocked, last);
    SetBitOnly(Read(clocked, SIO_GPIO_OE), PIN);
  }

  /** The registers `init_io(PIN)` and the loop write are none of the
      clock registers. */
  lemma ClocksUntouched(a: Regs, b: Regs)
    requires ClocksConfigured(a) && Frame(a, b, IoRegs(PIN) + {SIO_GPIO_OUT})
    ensures ClocksConfigured(b)
  {
    Pin25Addresses();
    var touched := IoRegs(PIN) + {SIO_GPIO_OUT};
    assert touched == {RESETS_BASE, 0x4001_c068, 0x4001_40cc, SIO_GPIO_OE, SIO_GPIO_OUT};
    ReferenceKept(a, b, touched);
    PllSysKept(a, b, touched);
    PllUsbKept(a, b, touched);
  }
}
