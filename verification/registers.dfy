/** The register access layer: a flat file of 32-bit registers addressed by
    32-bit bus addresses, the bus-level decoding of the RP2040 atomic alias
    addresses, and the four helpers `read_reg`, `write_reg`, `set_bits` and
    `clear_bits`. */
module Registers {
  import opened Bits

  /** A Rust `u32`: an address, an offset or a register word. Arithmetic on
      it wraps modulo 2^32, as the target build's `u32` arithmetic does. */
  type u32 = bv32

  /** Peripheral base addresses. */
  const RESETS_BASE: u32 := 0x4000_c000
  const PADS_BANK0_BASE: u32 := 0x4001_c000
  const IO_BANK0_BASE: u32 := 0x4001_4000
  const SIO_BASE: u32 := 0xd000_0000
  const XOSC_BASE: u32 := 0x4002_4000
  const CLOCKS_BASE: u32 := 0x4000_8000
  const PLL_SYS_BASE: u32 := 0x4002_8000
  const PLL_USB_BASE: u32 := 0x4002_c000
  const WATCHDOG_BASE: u32 := 0x4005_8000
  const TIMER_BASE: u32 := 0x4005_4000

  /** Single-cycle I/O pin registers and their write-only set / clear / xor
      companions. */
  const SIO_GPIO_OUT: u32 := SIO_BASE + 0x010
  const SIO_GPIO_OUT_SET: u32 := SIO_BASE + 0x014
  const SIO_GPIO_OUT_CLR: u32 := SIO_BASE + 0x018
  const SIO_GPIO_OUT_XOR: u32 := SIO_BASE + 0x01c
  const SIO_GPIO_OE: u32 := SIO_BASE + 0x020
  const SIO_GPIO_OE_SET: u32 := SIO_BASE + 0x024
  const SIO_GPIO_OE_CLR: u32 := SIO_BASE + 0x028
  const SIO_GPIO_OE_XOR: u32 := SIO_BASE + 0x02c

  /** Offsets of the atomic SET and CLR alias windows (section 2.1.2 of
      the RP2040 datasheet). */
  const SET_ALIAS: u32 := 0x2000
  const CLR_ALIAS: u32 := 0x3000

  /** The register at an address, used as the key of the register file. */
  datatype Reg = Reg(addr: u32)

  /** The register file: the current word of every register the program has
      touched. A register absent from the map holds the zero word. */
  type Regs = map<Reg, u32>

  /** `read_reg`: the word currently held at `a`; a register the program
      never wrote reads as zero. */
  function Read(rf: Regs, a: u32): (w: u32)
    ensures Reg(a) !in rf ==> w == 0
    ensures Reg(a) in rf ==> w == rf[Reg(a)]
  {
    if Reg(a) in rf then rf[Reg(a)] else 0
  }

  /** A store of `v` into the register at `a`, replacing its contents. */
  function Store(rf: Regs, a: u32, v: u32): (r: Regs)
    ensures Read(r, a) == v
    ensures forall x: u32 :: x != a ==> Read(r, x) == Read(rf, x)
  {
    rf[Reg(a) := v]
  }

  /** Every register outside `touched` reads the same in `rf` and `rf'`. */
  ghost predicate Frame(rf: Regs, rf': Regs, touched: set<u32>) {
    forall x: u32 :: x !in touched ==> Read(rf', x) == Read(rf, x)
  }

  /** Frames compose: what two steps leave alone, their sequence leaves
      alone. */
  lemma FrameTrans(a: Regs, b: Regs, c: Regs, s: set<u32>, t: set<u32>)
    requires Frame(a, b, s) && Frame(b, c, t)
    ensures Frame(a, c, s + t)
  {
  }

  /** Addresses that decode through the atomic alias windows: the APB
      peripheral space, where every block owns 16 KiB of which the upper
      three 4 KiB windows are the XOR, SET and CLR aliases of the first. */
  predicate Aliased(b: u32) {
    0x4000_0000 <= b < 0x5000_0000
  }

  /** Which 4 KiB window of its block an address lies in (bits 13:12). */
  function Window(b: u32): u32 {
    (b >> 12) & 3
  }

  /** A register address proper: not inside an alias window. */
  predicate IsRegister(a: u32) {
    !Aliased(a) || Window(a) == 0
  }

  /** What a bus write does to the register file. */
  datatype Access =
    | Plain(target: u32)      // replace the word
    | Toggle(target: u32)     // XOR the written word in
    | SetMask(target: u32)    // OR the written word in
    | ClearMask(target: u32)  // AND-NOT the written word out

  /** Bus decoding of a write address. */
  function Decode(b: u32): (r: Access)
    ensures IsRegister(r.target)
  {
    if Aliased(b) then
      var target := b & !0x3000;
      if Window(b) == 0 then Plain(b)
      else if Window(b) == 1 then Toggle(target)
      else if Window(b) == 2 then SetMask(target)
      else ClearMask(target)
    else if b == SIO_GPIO_OUT_SET then SetMask(SIO_GPIO_OUT)
    else if b == SIO_GPIO_OUT_CLR then ClearMask(SIO_GPIO_OUT)
    else if b == SIO_GPIO_OUT_XOR then Toggle(SIO_GPIO_OUT)
    else if b == SIO_GPIO_OE_SET then SetMask(SIO_GPIO_OE)
    else if b == SIO_GPIO_OE_CLR then ClearMask(SIO_GPIO_OE)
    else if b == SIO_GPIO_OE_XOR then Toggle(SIO_GPIO_OE)
    else Plain(b)
  }

  /** The SET window of a peripheral register decodes back to an OR on
      that register. */
  lemma SetAliasDecodes(a: u32)
    requires Aliased(a) && IsRegister(a)
    ensures Decode(a + SET_ALIAS) == SetMask(a)
  {
    AliasWindow(a, SET_ALIAS, 2);
  }

  /** The CLR window of a peripheral register decodes back to an AND-NOT on
      that register. */
  lemma ClearAliasDecodes(a: u32)
    requires Aliased(a) && IsRegister(a)
    ensures Decode(a + CLR_ALIAS) == ClearMask(a)
  {
    AliasWindow(a, CLR_ALIAS, 3);
  }

  /** Adding a window offset to a register address moves it into that
      window of the same block. */
  lemma AliasWindow(a: u32, offset: u32, w: u32)
    requires Aliased(a) && IsRegister(a)
    requires offset == w << 12 && 1 <= w <= 3
    ensures Aliased(a + offset)
    ensures Window(a + offset) == w
    ensures (a + offset) & !0x3000 == a
  {
  }

  /** The new word of the target register when `v` is written through
      `acc` onto the word `w`. */
  function Combine(acc: Access, w: u32, v: u32): u32 {
    match acc
    case Plain(_) => v
    case Toggle(_) => w ^ v
    case SetMask(_) => w | v
    case ClearMask(_) => w & !v
  }

  /** `write_reg`: a 32-bit store of `v` to bus address `b`. Only the decoded
      target register changes. */
  function WriteReg(rf: Regs, b: u32, v: u32): (r: Regs)
    ensures Frame(rf, r, {Decode(b).target})
    ensures Read(r, Decode(b).target) == Combine(Decode(b), Read(rf, Decode(b).target), v)
  {
    var acc := Decode(b);
    Store(rf, acc.target, Combine(acc, Read(rf, acc.target), v))
  }

  /** A plain write to a register address replaces exactly that register. */
  lemma WriteRegPlain(rf: Regs, a: u32, v: u32)
    requires IsRegister(a)
    requires a != SIO_GPIO_OUT_SET && a != SIO_GPIO_OUT_CLR && a != SIO_GPIO_OUT_XOR
    requires a != SIO_GPIO_OE_SET && a != SIO_GPIO_OE_CLR && a != SIO_GPIO_OE_XOR
    ensures Read(WriteReg(rf, a, v), a) == v
    ensures Frame(rf, WriteReg(rf, a, v), {a})
  {
  }

  /** `set_bits`: write `mask` to the SET alias of `addr`. On a peripheral
      register this ORs `mask` into it and changes nothing else. */
  function SetBits(rf: Regs, addr: u32, mask: u32): (r: Regs)
    ensures Aliased(addr) && IsRegister(addr) ==>
              && Read(r, addr) == Read(rf, addr) | mask
              && Frame(rf, r, {addr})
  {
    var r := WriteReg(rf, addr + SET_ALIAS, mask);
    if Aliased(addr) && IsRegister(addr) then SetAliasDecodes(addr); r else r
  }

  /** `clear_bits`: write `mask` to the CLR alias of `addr`. On a peripheral
      register this clears the bits of `mask` in it and changes nothing else. */
  function ClearBits(rf: Regs, addr: u32, mask: u32): (r: Regs)
    ensures Aliased(addr) && IsRegister(addr) ==>
              && Read(r, addr) == Read(rf, addr) & !mask
              && Frame(rf, r, {addr})
  {
    var r := WriteReg(rf, addr + CLR_ALIAS, mask);
    if Aliased(addr) && IsRegister(addr) then ClearAliasDecodes(addr); r else r
  }

  /** The single-cycle I/O set and clear registers decode to OR and AND-NOT
      on the pin output and output-enable registers. */
  lemma SioDecode()
    ensures Decode(SIO_GPIO_OUT_SET) == SetMask(SIO_GPIO_OUT)
    ensures Decode(SIO_GPIO_OUT_CLR) == ClearMask(SIO_GPIO_OUT)
    ensures Decode(SIO_GPIO_OE_SET) == SetMask(SIO_GPIO_OE)
  {
  }

  /** Setting then clearing the same mask on a peripheral register leaves
      the mask's bits clear and every other bit as it was. */
  lemma SetThenClear(rf: Regs, addr: u32, mask: u32)
    requires Aliased(addr) && IsRegister(addr)
    ensures Read(SetBits(rf, addr, mask), addr) & mask == mask
    ensures Read(ClearBits(SetBits(rf, addr, mask), addr, mask), addr) & mask == 0
    ensures SameOutside(Read(ClearBits(SetBits(rf, addr, mask), addr, mask), addr), Read(rf, addr), mask)
    ensures Frame(rf, ClearBits(SetBits(rf, addr, mask), addr, mask), {addr})
  {
  }
}
