/** Busy-wait polls. The program spins on a status register until a
    condition holds; the hardware decides what each read returns. A poll is
    therefore an environment step: the environment supplies the words that
    successive reads observe, and the program gets past the poll at the
    first word satisfying the condition. If no supplied word satisfies it,
    the poll never returns. */
module Poll {
  import opened Wrappers
  import opened Bits
  import opened Registers

  /** The exit condition of a wait loop. */
  datatype Cond =
    | BitSet(bit: BitIndex)     // `read & (1 << bit) != 0`
    | BitClear(bit: BitIndex)   // `read & (1 << bit) == 0`
    | Equals(word: bv32)        // `read == word`

  predicate Holds(c: Cond, v: bv32) {
    match c
    case BitSet(i) => Bit(v, i)
    case BitClear(i) => !Bit(v, i)
    case Equals(w) => v == w
  }

  /** Some read in `observed` satisfies `c`. */
  ghost predicate Eventually(c: Cond, observed: seq<bv32>) {
    exists i :: 0 <= i < |observed| && Holds(c, observed[i])
  }

  /** How a poll ended: the register file after the exiting read and the
      number of reads it took. */
  datatype Exit = Exit(rf: Regs, count: nat)

  /** `while !c(read_reg(a)) {}` against the words the environment supplies. */
  function Spin(rf: Regs, a: u32, c: Cond, observed: seq<bv32>): (r: Option<Exit>)
    ensures r.Some? <==> Eventually(c, observed)
    ensures r.Some? ==>
              && 1 <= r.value.count <= |observed|
              && Holds(c, observed[r.value.count - 1])
              && (forall i :: 0 <= i < r.value.count - 1 ==> !Holds(c, observed[i]))
              && Read(r.value.rf, a) == observed[r.value.count - 1]
              && Frame(rf, r.value.rf, {a})
    decreases |observed|
  {
    if |observed| == 0 then None
    else if Holds(c, observed[0]) then Some(Exit(Store(rf, a, observed[0]), 1))
    else
      var rest := Spin(rf, a, c, observed[1..]);
      if rest.None? then None
      else Some(Exit(rest.value.rf, rest.value.count + 1))
  }

  /** A register whose condition comes true after `n` failing reads is read
      exactly `n + 1` times. */
  lemma SpinCountsReads(rf: Regs, a: u32, c: Cond, observed: seq<bv32>, n: nat)
    requires n < |observed|
    requires forall i :: 0 <= i < n ==> !Holds(c, observed[i])
    requires Holds(c, observed[n])
    ensures Spin(rf, a, c, observed).Some?
    ensures Spin(rf, a, c, observed).value.count == n + 1
  {
    assert Eventually(c, observed);
  }

  /** Every poll exits in a state where its own condition holds of the
      polled register. */
  lemma SpinExitsOnCondition(rf: Regs, a: u32, c: Cond, observed: seq<bv32>)
    requires Spin(rf, a, c, observed).Some?
    ensures Holds(c, Read(Spin(rf, a, c, observed).value.rf, a))
  {
  }
}
