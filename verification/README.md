# rp2040-blinky-rust in Dafny

A model of the bare-metal blink program for the RP2040 (Raspberry Pi Pico):
the four register helpers `read_reg`, `write_reg`, `set_bits` and
`clear_bits`, the peripheral base addresses, `init_clocks` (crystal
oscillator, clk_ref and clk_sys glitchless muxes, both PLLs, clk_peri, the
watchdog tick and the timer), `init_io(pin)` and the passes of the `main`
loop that drive GPIO25 high and low.

The hardware is a register file: a map from 32-bit bus addresses to 32-bit
words, where a register never written reads as 0. Every helper is a pure
function from register file to register file.

- `write_reg` is a bus store decoded with the atomic register aliases of
  section 2.1.2 of the RP2040 datasheet, as far as the APB peripheral
  space (0x4000_0000 up to 0x5000_0000) goes: there, address bits 13:12
  select the register itself or its XOR, SET or CLR alias. So `set_bits` (address + 0x2000) ORs the mask into the
  register and `clear_bits` (address + 0x3000) AND-NOTs it out.
- The single-cycle I/O block is not aliased. Its GPIO_OUT_SET/CLR/XOR and
  GPIO_OE_SET/CLR/XOR registers act on GPIO_OUT and GPIO_OE.
- Every busy-wait is an environment step (`Poll.Spin`). The hardware
  supplies the sequence of words the successive reads observe. The wait
  ends at the first word that satisfies its condition, and it never ends
  (`None`) if no word does. `init_clocks` therefore returns exactly when
  each of its five waits is eventually satisfied.
- `u32` is `bv32`, so address and mask arithmetic wraps the way the
  release build's does. Lemmas show that the addresses actually used never
  wrap.

The modules follow the program's structure:

- `Registers`: the helpers and base addresses.
- `Poll`: the waits.
- `Resets`: the set-then-clear reset pulses.
- `Clocks`: `init_clocks`, one function per step.
- `ClockFacts`: what the written words mean (dividers, frequencies, the
  tick, the power word, the readbacks).
- `Io`: `init_io`.
- `Blink`: `main`.
- `Bits` and `Wrappers`: shared vocabulary.

Where the program's comments and its code differ, the model follows the
code:

- No write to the USB PLL's power register comes before the clear of the
  mask 0x11 at `src/main.rs:141`; the power-down write at
  `src/main.rs:127-128` is made to the system PLL only. The USB PLL's power
  word is therefore whatever the reset pulse at `src/main.rs:124-125` left
  there, with bits 0 and 4 cleared. Because the model does not model a
  reset's effect on the peripheral's own registers, it states that word
  relative to the word before `init_clocks`.
- The comments at `src/main.rs:133` and `src/main.rs:141` say "Clear the PD
  and VCO bits", but the mask 0x11 covers bits 0 (PD) and 4. VCOPD is
  bit 5, and it was set by the earlier write of `1 << 5 | 1`. So the
  system PLL's power word ends at 0x20 with VCOPD still set, and that is
  the value the model computes.
- The comments at `src/main.rs:107` and `src/main.rs:114` say "Wait for
  the glitchless mux to be set", but the waits at `src/main.rs:106` and
  `src/main.rs:113` read back CLK_REF_CTRL and CLK_SYS_CTRL, the control
  registers just written. They never read the CLK_REF_SELECTED or
  CLK_SYS_SELECTED status registers. The model polls the control registers
  as the code does: `ClockFacts.RefReadbackExitsAtOnce` and
  `ClockFacts.SysReadbackExitsAtOnce` state that a read returning the
  stored word ends each wait after one read.

`set_bits`/`clear_bits` are applied to RESETS, CLK_SYS_CTRL and the PLL
power registers (`src/main.rs:112`, `119-125`, `133`, `141`, `154` in
`init_clocks`, and `182-188` in `init_io`), all of
them APB registers, while the pin is driven through the single-cycle I/O
block's own SET/CLR registers. The model decodes all of these as the
hardware does.

## Model

| member | source | states |
|---|---|---|
| Registers.Read | src/main.rs:48-50 | the stored word, and 0 for a register never written; after a store the register reads back the stored word (`Registers.Store`) |
| Registers.WriteReg | src/main.rs:52-56 | a store through any bus address changes only the register the address decodes to, and that register's new word is the written word combined by the access kind (replace, XOR, OR, AND-NOT) |
| Registers.WriteRegPlain | src/main.rs:52-56 | a store to an ordinary register address replaces exactly that register's word and nothing else |
| Registers.SetBits | src/main.rs:58-63 | on a peripheral register, writing the mask to address + 0x2000 ORs the mask into the register and leaves every other register unchanged |
| Registers.ClearBits | src/main.rs:65-70 | on a peripheral register, writing the mask to address + 0x3000 clears the mask's bits in the register and leaves every other register unchanged |
| Registers.SetAliasDecodes | src/main.rs:61 | the address + 0x2000 of a peripheral register is that register's SET alias |
| Registers.ClearAliasDecodes | src/main.rs:68 | the address + 0x3000 of a peripheral register is that register's CLR alias |
| Registers.AliasWindow | src/main.rs:58-70 | adding an alias offset to a register address stays in the APB space, lands in the chosen window, and strips back to the register |
| Registers.SioDecode | src/main.rs:201-206 | SIO_BASE + 0x014 and + 0x018 act as OR and AND-NOT on GPIO_OUT; SIO_BASE + 0x024 acts as OR on GPIO_OE |
| Registers.SetThenClear | src/main.rs:119-120 | after the set the mask's bits are all 1; after set-then-clear they are all 0; every other bit of the register and every other register are as before |
| Poll.Spin | src/main.rs:100-102 | a wait ends if and only if some observed word satisfies the condition; it ends at the first such read, having consumed exactly that many reads; the polled register then holds that word and nothing else changed |
| Poll.SpinCountsReads | src/main.rs:134-136 | a condition that first holds at read n + 1 makes the wait take exactly n + 1 reads |
| Poll.SpinExitsOnCondition | src/main.rs:113-115 | when a wait ends, its condition holds of the register it polled |
| Resets.ResetPulse | src/main.rs:119-120 | a reset pulse leaves the peripheral's RESETS bit clear, every other RESETS bit as it was, and every other register untouched |
| Resets.ResetAssertedBetween | src/main.rs:119 | between the set and the clear, the peripheral's RESETS bit is set (held in reset) |
| Resets.PulsesKeepUnrelatedBits | src/main.rs:117-125 | pulsing any of bits 12, 13, 5 or 8 keeps every other RESETS bit that was set still set |
| Clocks.StartXosc | src/main.rs:98-102 | returns if and only if the XOSC status eventually reads with bit 31 set; then XOSC_CTRL holds 0x00fabaa0, the status word has the stable bit, and only those two registers changed |
| Clocks.SelectRefXosc | src/main.rs:104-108 | allowed only once the crystal reports stable (XOSC STATUS bit 31 set); returns if and only if CLK_REF_CTRL eventually reads back 2; then it holds 2 and nothing else changed |
| Clocks.SysOnRef | src/main.rs:110-115 | returns if and only if CLK_SYS_CTRL eventually reads back with bit 0 clear; then clk_sys is on clk_ref and nothing else changed |
| Clocks.ResetPlls | src/main.rs:117-125 | RESETS ends with bits 12 and 13 cleared and every other bit as it was; no other register changes |
| Clocks.PowerDownSysPll | src/main.rs:127-128 | the system PLL's power word becomes 0x21: PD (bit 0) and VCOPD (bit 5) set |
| Clocks.ProgramPll | src/main.rs:130-132 | for the system PLL, allowed only while its power word holds PD (bit 0) and VCOPD (bit 5), i.e. while it is disabled; either PLL's feedback-divider and post-divider registers hold the given words; only those two change |
| Clocks.EnablePll | src/main.rs:133-136 | returns if and only if the PLL's CS register eventually reads with LOCK (bit 31) set; then the power word is its old value with bits 0 and 4 cleared, the lock bit is set, and only CS and PWR changed |
| Clocks.StartPllSys | src/main.rs:127-136 | the dividers are written after the power-down write, while the PLL is disabled; returns if and only if the system PLL eventually locks; then it holds power word 0x20, feedback divider 125, post-divider word 0x62000 and the lock bit, and only its four registers changed |
| Clocks.StartPllUsb | src/main.rs:138-144 | returns if and only if the USB PLL eventually locks; then its power word is the old one with bits 0 and 4 cleared, it holds feedback divider 100, post-divider word 0x55000 and the lock bit, and only its four registers changed |
| Clocks.SelectPllAux | src/main.rs:146-153 | allowed only while the glitchless mux has clk_sys on clk_ref (SRC clear); the read-modify-write zeroes AUXSRC (bits 7:5) of CLK_SYS_CTRL and keeps every other bit |
| Clocks.SwitchSysToAux | src/main.rs:154-155 | allowed only once AUXSRC selects the system PLL and that PLL is locked; SRC (bit 0) of CLK_SYS_CTRL becomes 1 and every other bit is kept |
| Clocks.StopPeriClock | src/main.rs:157-159 | the write of 0 stops clk_peri (ENABLE, bit 11, clear) and selects clk_sys (AUXSRC 0); nothing else changes |
| Clocks.StartPeriClock | src/main.rs:162 | on a stopped clk_peri, the write of 1 << 11 starts it again with AUXSRC 0; nothing else changes |
| Clocks.RestartPeriClock | src/main.rs:157-162 | clk_peri is stopped and then started: CLK_PERI_CTRL ends as 0x800, ENABLE (bit 11) set and AUXSRC 0 (clk_sys) |
| Clocks.ConfigureTicks | src/main.rs:164-173 | the watchdog TICK register gets CYCLES 12 with ENABLE set, and the timer's DBGPAUSE gets 0 |
| Clocks.StartReference | src/main.rs:98-115 | clk_ref is switched to the crystal only after the crystal reports stable; the crystal start-up and the two mux switches complete if and only if all three of their waits are eventually satisfied; then the crystal runs and drives clk_ref, clk_sys is on clk_ref, and only those four registers changed |
| Clocks.ReadyToSwitch | src/main.rs:110-149 | after both PLLs are set up, clk_sys is still on clk_ref and the system PLL is still locked, which is what makes the auxiliary-mux rewrite and the switch safe |
| Clocks.MoveToPll | src/main.rs:146-173 | starting from clk_sys on clk_ref and a locked system PLL, clk_sys selects the auxiliary path with AUXSRC 0 (the system PLL), clk_peri is enabled from clk_sys, the tick and DBGPAUSE are set, and only those four registers changed |
| Clocks.PhasesCompose | src/main.rs:97-174 | the result of each phase survives the later phases, because they write none of its registers |
| Clocks.InitClocks | src/main.rs:97-174 | `init_clocks` returns if and only if all five waits are eventually satisfied, and then every clock register holds its configured value |
| Clocks.InitClocksEffects | src/main.rs:117-144 | after `init_clocks` RESETS has bits 12 and 13 cleared and the rest as before, the USB PLL's power word is the old one with bits 0 and 4 cleared, and no register outside the clock registers changed |
| ClockFacts.EncodePostDivs | src/main.rs:132 | a post-divider pair packs into bits 18:16 and 14:12 and sets nothing else |
| ClockFacts.DecodePostDivs | src/main.rs:132 | both extracted post-dividers are 3-bit values |
| ClockFacts.PostDivsRoundTrip | src/main.rs:132 | decoding an encoded pair returns the pair |
| ClockFacts.PostDivsEncodeDecode | src/main.rs:140 | a word with nothing outside the two fields is the encoding of its decoded pair |
| ClockFacts.PostDivWords | src/main.rs:131-140 | 0x0006_2000 is the pair (6, 2) and 0x0005_5000 the pair (5, 5), in both directions |
| ClockFacts.ConfiguredFrequencies | src/main.rs:130-140 | the configured post dividers are (6, 2) and (5, 5); with REFDIV (PLL CS bits 5:0) at 1 and a 12 MHz crystal, the system PLL has a 1500 MHz VCO and outputs exactly 125 MHz, and the USB PLL has a 1200 MHz VCO and outputs exactly 48 MHz |
| ClockFacts.TickWord | src/main.rs:167 | the word 12 with bit 9 ORed in has CYCLES 12, ENABLE set and nothing else |
| ClockFacts.OneTickPerMicrosecond | src/main.rs:164-167 | after `init_clocks` the tick divides 12 MHz by 12 with no remainder: 1 000 000 ticks per second |
| ClockFacts.XoscWord | src/main.rs:99 | 0x00fabaa0 carries the enable magic 0xfab in bits 23:12 and the 1-15 MHz range 0xaa0 in bits 11:0 |
| ClockFacts.SysPllPowerWord | src/main.rs:127-133 | after `init_clocks` the system PLL's PD bit is clear but VCOPD is set, because the mask 0x11 does not cover bit 5; the word is 0x21 with 0x11 cleared |
| ClockFacts.SysCtrlUpdate | src/main.rs:146-154 | the two writes turn CLK_SYS_CTRL into its old word with bits 7:5 cleared and bit 0 set |
| ClockFacts.RefReadbackExitsAtOnce | src/main.rs:104-108 | the CLK_REF wait polls the register just written, so a read returning the stored word ends it after one read |
| ClockFacts.SysReadbackExitsAtOnce | src/main.rs:112-115 | likewise the CLK_SYS wait ends after one read when the read returns the stored word |
| Io.PinAddressesDoNotWrap | src/main.rs:192-199 | for pins 0 to 31 the pad and control address sums do not wrap around 2^32 |
| Io.PinAddressesAreRegisters | src/main.rs:192-199 | each pin's pad and control addresses are ordinary registers inside their banks, and they differ from each other |
| Io.PinAddressesInjective | src/main.rs:192-199 | different pins have different pad and control registers |
| Io.Pin25Addresses | src/main.rs:192-199 | pin 25's pad register is 0x4001_c068 and its control register is 0x4001_40cc |
| Io.ResetGpioBanks | src/main.rs:180-188 | RESETS ends with bits 5 and 8 cleared and every other bit as it was; no other register changes |
| Io.RoutePinToSio | src/main.rs:190-199 | the pin's pad word becomes 0, its control word becomes FUNCSEL 5, and nothing else changes |
| Io.EnableOutput | src/main.rs:201-206 | GPIO_OE becomes its old word with bit `pin` ORed in; nothing else changes |
| Io.EnableOutputOnePin | src/main.rs:206 | the pin's output enable is on, and every other pin's output enable is unchanged |
| Io.InitIo | src/main.rs:179-207 | after `init_io(pin)`: RESETS has bits 5 and 8 cleared, the pad is 0, FUNCSEL is 5, GPIO_OE has bit `pin` ORed in, and nothing outside those four registers changed |
| Io.PinConfigured | src/main.rs:190-199 | the pad's output-disable (bit 7) and input-enable (bit 6) are clear, and FUNCSEL (bits 4:0) selects SIO |
| Blink.LedOn | src/main.rs:223 | GPIO_OUT gets bit 25 ORed in, and nothing else changes |
| Blink.LedOff | src/main.rs:231 | GPIO_OUT gets bit 25 cleared, and nothing else changes |
| Blink.Iteration | src/main.rs:219-237 | one pass leaves GPIO_OUT as before with bit 25 cleared, and touches nothing else |
| Blink.IterationLevels | src/main.rs:223-231 | within a pass the LED is high after the set write and low after the clear write |
| Blink.After | src/main.rs:219-237 | after one or more passes, GPIO_OUT is its value before the loop with bit 25 cleared; no other register changes |
| Blink.RunLoop | src/main.rs:219-237 | n passes record n (high, low) level pairs, and leave the register file that `After` describes |
| Blink.BlinksAlternate | src/main.rs:219-237 | the levels in write order alternate high, low, high, low, …: write i is high exactly when i is even |
| Blink.RunProgram | src/main.rs:213-238 | the program reaches the loop if and only if every clock wait is eventually satisfied; after any number of passes the clocks are still configured, pin 25 is still routed to SIO with its driver enabled, and every pass lit and then cleared the LED |

## Left out

- The stage-2 boot block `BOOT2_FIRMWARE` is a byte blob that the boot ROM copies and runs. It is not part of this model.
- defmt logging (`info!`), the RTT transport, the panic handler and the `#[entry]` attribute have no effect on the registers, so they are not modelled.
- The `nop` delay loops only take time, so they are not modelled.
- The loop counter `x` feeds only the log message, so it is not modelled. Neither is its `i32` overflow after 2^31 passes.
- Volatile semantics and access ordering are not modelled. The model is a sequential register file, and every access happens in program order.
- What the hardware returns to a wait is not modelled. It is a parameter: one sequence of observed words per wait.
- Registers that are never written read as 0. Reset values and a reset's effect on a peripheral's own registers are not modelled.
- Clocks.InitClocksEffects: the USB PLL's power word is stated relative to the word before `init_clocks` only because the model does not model a reset's effect on the PLL's own registers; on the hardware the pulse at src/main.rs:124-125 first returns it to its reset value. The frame over the clock registers does not depend on this: the four registers of each PLL are all clock registers.
- Io.InitIo: the frame holds only because the model does not model a reset's effect on the GPIO banks' own registers. On the hardware the pulses at src/main.rs:180-188 return every pad and control register of bank 0 to its reset value, not only those of `pin`.
- Clocks.RestartPeriClock: the stalling read of CLOCKS_BASE between the two writes is not modelled, because it changes no register.
- Blink.RunProgram: the loop never ends. The model runs it n times for any n, so a property of the endless loop is a property of every n.
- ClockFacts.ConfiguredFrequencies: assumes REFDIV = 1, the reset value of PLL CS bits 5:0 that the reset pulses at src/main.rs:117-125 restore. The code never writes CS, and the model does not model reset values, so the frequencies are stated only for REFDIV = 1.
- Registers.WriteReg: aliases outside the APB space are decoded as plain stores. Section 2.1.2 of the RP2040 datasheet also gives the AHB-Lite peripherals (DMA, USB, PIO, from 0x5000_0000) XOR, SET and CLR aliases, but the program writes none of those addresses.
- Registers.SetBits: the effect is stated only for APB peripheral register addresses. Every call in the program uses such an address.
- Registers.ClearBits: the effect is stated only for APB peripheral register addresses. Every call in the program uses such an address.
- Io.InitIo: `pin` ranges over 0 to 31, the range in which `1 << pin` does not overflow. The program calls it with 25 only.
- Whether the PLLs physically lock with the words written, frequency drift and other analogue behaviour are not modelled.
