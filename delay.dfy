/** The busy-wait delay of src/delay.rs: count from 0 up to `cycles`. */
module Delay {
  import opened MachineInts

  /**
    How many times the guard `i < cycles` holds when the counter starts at
    `i` and goes up by one each time: the number of loop-body runs.
  */
  function LoopRuns(i: nat, cycles: nat): nat
    decreases cycles - i
  {
    if i < cycles then 1 + LoopRuns(i + 1, cycles) else 0
  }

  /** From counter `i`, the loop body runs `cycles - i` times, or none at all. */
  lemma {:induction false} LoopRunsCount(i: nat, cycles: nat)
    ensures LoopRuns(i, cycles) == if i < cycles then cycles - i else 0
    decreases cycles - i
  {
    if i < cycles {
      LoopRunsCount(i + 1, cycles);
    }
  }

  /** A strictly larger cycle count runs the loop body strictly more often. */
  lemma DelayMonotone(a: u32, b: u32)
    requires a < b
    ensures LoopRuns(0, a) < LoopRuns(0, b)
  {
    LoopRunsCount(0, a);
    LoopRunsCount(0, b);
  }

  /**
    Busy-waits by counting. Returns the final counter `i` and the number of
    loop-body runs; `i` is a 32-bit counter, so `i + 1` must stay in range.
  */
  method Delay(cycles: u32) returns (i: u32, iterations: nat)
    ensures i == cycles
    ensures iterations == LoopRuns(0, cycles)
    ensures iterations == cycles
  {
    i := 0;
    iterations := 0;
    while i < cycles
      invariant i <= cycles
      invariant iterations + LoopRuns(i, cycles) == LoopRuns(0, cycles)
      decreases cycles - i
    {
      i := i + 1;
      iterations := iterations + 1;
    }
    LoopRunsCount(0, cycles);
  }
}
