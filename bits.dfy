/**
  Bit-level view of an 8-bit AVR register (src/port.rs): the bit test and
  the read-modify-write value that sets or clears one bit. Pins are numbered
  from the least significant bit, 0 to 7.
*/
module Bits {
  /** Bit `pin` of the register value `v`: shift it down and look at bit 0. */
  predicate IsSet(v: bv8, pin: bv8)
    requires pin < 8
  {
    (v >> pin) & 1 == 1
  }

  /**
    The read-modify-write value: `v` with bit `pin` forced to `value`, by OR
    with the singleton mask `1 << pin` or AND with its complement.
  */
  function WithBit(v: bv8, pin: bv8, value: bool): (r: bv8)
    requires pin < 8
    ensures IsSet(r, pin) == value
  {
    if value then v | (1 << pin) else v & !(1 << pin)
  }

  /** Bit by bit: the written bit takes the new value, every other bit keeps its old one. */
  lemma WithBitAt(v: bv8, pin: bv8, value: bool, q: bv8)
    requires pin < 8 && q < 8
    ensures IsSet(WithBit(v, pin, value), q) == if q == pin then value else IsSet(v, q)
  {
  }

  /** Of two writes to the same bit, only the last one is visible. */
  lemma WithBitLastWins(v: bv8, pin: bv8, first: bool, second: bool)
    requires pin < 8
    ensures WithBit(WithBit(v, pin, first), pin, second) == WithBit(v, pin, second)
  {
  }

  /** Writing the same bit value twice is the same as writing it once. */
  lemma WithBitIdempotent(v: bv8, pin: bv8, value: bool)
    requires pin < 8
    ensures WithBit(WithBit(v, pin, value), pin, value) == WithBit(v, pin, value)
  {
    WithBitLastWins(v, pin, value, value);
  }

  /** Writing a bit's current value back leaves the register as it was. */
  lemma WithBitOwnValue(v: bv8, pin: bv8)
    requires pin < 8
    ensures WithBit(v, pin, IsSet(v, pin)) == v
  {
  }
}
