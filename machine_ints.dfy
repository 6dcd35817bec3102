/** Fixed-width unsigned integers of the target, as ranges of `int`. */
module MachineInts {
  /** A 16-bit unsigned value: the width of an AVR data-space address. */
  type u16 = x: int | 0 <= x < 0x1_0000

  /** A 32-bit unsigned value: the width of the busy-wait counter. */
  type u32 = x: int | 0 <= x < 0x1_0000_0000
}
