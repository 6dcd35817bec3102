/**
  The blink program of src/main.rs: configure pin 5 of port B as an output,
  drive it high, then repeatedly set it to the opposite of its sensed level
  and busy-wait. The endless outer loop is modelled one iteration at a time.
*/
module Blink {
  import opened MachineInts
  import opened Bits
  import opened Port
  import Delay

  /** The pin the program blinks. */
  const LED: bv8 := 5

  /** The cycle count each loop iteration waits for. */
  const BLINK_CYCLES: u32 := 100000

  /**
    The program's own copy of the busy-wait (src/main.rs keeps one beside
    src/delay.rs). Same loop, same final counter and number of runs.
  */
  method LocalDelay(cycles: u32) returns (i: u32, iterations: nat)
    ensures i == cycles
    ensures iterations == Delay.LoopRuns(0, cycles)
    ensures iterations == cycles
  {
    i := 0;
    iterations := 0;
    while i < cycles
      invariant i <= cycles
      invariant iterations + Delay.LoopRuns(i, cycles) == Delay.LoopRuns(0, cycles)
      decreases cycles - i
    {
      i := i + 1;
      iterations := iterations + 1;
    }
    Delay.LoopRunsCount(0, cycles);
  }

  /**
    Set-up before the loop: bind port B, make LED an output, drive it high.
    `ddr0`, `port0` and `pin0` are the registers' contents beforehand.
  */
  method Setup(ddr0: bv8, port0: bv8, pin0: bv8) returns (p: Port)
    ensures fresh(p)
    ensures p.ddrAddr == DDRB && p.portAddr == PORTB && p.pinAddr == PINB
    ensures p.ddr == WithBit(ddr0, LED, true) && p.port == WithBit(port0, LED, true)
    ensures p.pinReg == pin0
    ensures ddr0 == 0 && port0 == 0 ==> p.ddr == 0x20 && p.port == 0x20  // 0b0010_0000
  {
    p := PortBInit(ddr0, port0, pin0);
    p.SetPinMode(LED, true);
    p.SetPinState(LED, true);
  }

  /** The output register after one iteration, given the registers at its start. */
  function Toggled(out: bv8, input: bv8): (r: bv8)
    ensures IsSet(r, LED) == !IsSet(input, LED)
  {
    WithBit(out, LED, !IsSet(input, LED))
  }

  /**
    One iteration of the loop body: read LED's sensed level, drive the
    opposite level, then wait `BLINK_CYCLES` counts with the local delay.
  */
  method LoopBody(p: Port) returns (i: u32, iterations: nat)
    modifies p
    ensures IsSet(p.port, LED) == !IsSet(old(p.pinReg), LED)
    ensures forall q: bv8 :: q < 8 && q != LED ==> IsSet(p.port, q) == IsSet(old(p.port), q)
    ensures p.port == Toggled(old(p.port), old(p.pinReg))
    ensures p.ddr == old(p.ddr) && p.pinReg == old(p.pinReg)
    ensures i == BLINK_CYCLES && iterations == BLINK_CYCLES
  {
    var level := p.ReadPin(LED);
    p.SetPinState(LED, !level);
    i, iterations := LocalDelay(BLINK_CYCLES);
  }

  /**
    Bit by bit, one iteration drives LED to the opposite of its sensed level
    and leaves every other output bit as it was.
  */
  lemma ToggledAt(out: bv8, input: bv8, q: bv8)
    requires q < 8
    ensures IsSet(Toggled(out, input), q) == if q == LED then !IsSet(input, LED) else IsSet(out, q)
  {
    WithBitAt(out, LED, !IsSet(input, LED), q);
  }

  /** With the input wired back to the output, two iterations restore the register. */
  lemma LoopbackTwoIterations(x: bv8)
    ensures Toggled(Toggled(x, x), Toggled(x, x)) == x
  {
    var b := IsSet(x, LED);
    var y := Toggled(x, x);
    assert y == WithBit(x, LED, !b);
    assert Toggled(y, y) == WithBit(y, LED, b);
    WithBitLastWins(x, LED, !b, b);
    WithBitOwnValue(x, LED);
  }

  /**
    Two iterations on a loopback-wired port, where before each one the input
    register shows what the output register drives: LED is inverted once
    (`midLevel`), then restored; the direction register is untouched and
    both iterations wait the same number of counts.
  */
  method LoopbackTwice(p: Port) returns (midLevel: bool, firstWait: nat, secondWait: nat)
    requires p.pinReg == p.port
    modifies p
    ensures midLevel == !IsSet(old(p.port), LED)
    ensures p.port == old(p.port) && p.ddr == old(p.ddr)
    ensures firstWait == secondWait == BLINK_CYCLES
  {
    var _, w1 := LoopBody(p);
    midLevel := IsSet(p.port, LED);
    p.pinReg := p.port;
    var _, w2 := LoopBody(p);
    firstWait, secondWait := w1, w2;
    LoopbackTwoIterations(old(p.port));
  }
}
