# avr-flight GPIO port model

A Dafny model of the GPIO layer of a small ATmega328p program: the register
`Port` of `src/port.rs` (three 8-bit registers — data direction DDR, output
PORT and input PIN — with one-bit read-modify-write operations), the
busy-wait `delay` of `src/delay.rs`, and the blink program of `src/main.rs`
(set-up of pin 5 of port B, then one iteration of its endless toggle loop).

Modules, one per concern:

- `MachineInts` (`machine_ints.dfy`): the `u16` and `u32` ranges.
- `Bits` (`bits.dfy`): the bit test `IsSet` (shift right, look at bit 0) and
  `WithBit`, the value a read-modify-write stores (OR with `1 << pin` to set,
  AND with its complement to clear), with per-bit and overwrite lemmas.
- `Port` (`port.dfy`): the `Port` class. Its three addresses are `const`
  fields, so no method can reassign them; the register contents are three
  `bv8` fields standing for the memory at those addresses. `SetPinMode`
  and `SetPinState` read the register, compute `WithBit`, write it back;
  `ReadPin` has no `modifies` clause, so it provably changes no register.
  `PortBInit` binds DDRB = 0x24, PORTB = 0x25, PINB = 0x23.
- `Delay` (`delay.rs`'s loop in `delay.dfy`): the counter `i` is a `u32`,
  so every `i += 1` is checked to stay in range; `LoopRuns` counts how often
  the loop guard holds, and the method returns the final counter and the
  number of body runs.
- `Blink` (`blink.dfy`): `src/main.rs` declares only `mod port`, so the
  program uses its own copy of the delay loop (`LocalDelay`), not
  `src/delay.rs`. `Setup` and `LoopBody` are the set-up calls and one
  iteration of the loop body; `Toggled` is the output register an iteration
  produces; `LoopbackTwice` runs two iterations with the input wired to the
  output.

Pins are `bv8` values, like the source's `u8`, and every pin operation
requires `pin < 8`. The hardware register contents at construction time are
parameters of `Port.New`, `PortBInit` and `Setup`.

## Model

| member | source | states |
|---|---|---|
| `Bits.WithBit` | src/port.rs:29-33 | the stored value has bit `pin` equal to the requested value |
| `Bits.WithBitAt` | src/port.rs:29-33 | bit by bit: bit `pin` takes the requested value, every other bit keeps its old value |
| `Bits.WithBitLastWins` | src/port.rs:29-33 | two writes to one bit leave the register as the second write alone would |
| `Bits.WithBitIdempotent` | src/port.rs:42-46 | writing the same bit value twice gives the same register as writing it once; `SetPinState` and `SetPinMode` both store `WithBit`, so both are idempotent |
| `Bits.WithBitOwnValue` | src/port.rs:29-33 | writing back a bit's current value leaves the register unchanged |
| `Port.Port.New` | src/port.rs:17-23 | stores the three addresses as given; the register contents are those the hardware holds, passed in |
| `Port.Port.SetPinMode` | src/port.rs:26-35 | direction bit `pin` becomes 1 for output and 0 for input, every other direction bit is kept, output and input registers and all addresses are unchanged |
| `Port.Port.SetPinState` | src/port.rs:39-48 | output bit `pin` becomes 1 for high and 0 for low, every other output bit is kept, direction and input registers and all addresses are unchanged |
| `Port.Port.ReadPin` | src/port.rs:52-56 | returns true exactly when bit `pin` of the input register is set; changes no register |
| `Port.PortBInit` | src/port.rs:65-71 | the port is bound to DDR 0x24, PORT 0x25, PIN 0x23 |
| `Delay.LoopRunsCount` | src/delay.rs:5-7 | from counter `i` the loop body runs `cycles - i` times when `i < cycles`, otherwise zero times |
| `Delay.DelayMonotone` | src/delay.rs:5-7 | a strictly larger cycle count runs the loop body strictly more often |
| `Delay.Delay` | src/delay.rs:3-8 | the loop terminates with the counter exactly at `cycles`, the body has run exactly `cycles` times (zero for `cycles == 0`), and the 32-bit counter never overflows |
| `Blink.LocalDelay` | src/main.rs:11-16 | the program's copy of the delay ends the same way: counter at `cycles`, exactly `cycles` body runs, no overflow |
| `Blink.Setup` | src/main.rs:20-22 | port B is bound, DDR and PORT get bit 5 set with their other bits kept; from all-zero registers both become 0x20 (0b0010_0000) |
| `Blink.Toggled` | src/main.rs:24 | output bit 5 after an iteration is the negation of input bit 5 at its start |
| `Blink.ToggledAt` | src/main.rs:24 | bit by bit: bit 5 is the negated input bit, every other output bit is kept |
| `Blink.LoopBody` | src/main.rs:24-25 | one iteration sets output bit 5 to the negation of input bit 5 as read at its start, keeps the other output bits, the direction and input registers, and waits through a delay of exactly 100000 counts |
| `Blink.LoopbackTwoIterations` | src/main.rs:24 | with the input mirroring the output, two iterations return the output register to its starting value |
| `Blink.LoopbackTwice` | src/main.rs:23-25 | on a loopback-wired port, the first iteration inverts pin 5, the second restores the whole output register, the direction register is kept, and both iterations wait the same 100000 counts |

## Left out

- Volatile access and raw-pointer validity: registers are plain fields updated in program order; that the compiler neither elides nor reorders the accesses is a hardware contract, not modelled.
- Address aliasing: the three registers are separate fields, so the model assumes the three addresses are distinct, as they are for port B.
- The input register is driven by the pins, not by software; the model changes it only where a test harness wires input to output (`LoopbackTwice`).
- Pin indices of 8 or more: every operation requires `pin < 8` (in the source `1 << pin` then panics in debug builds and masks the shift amount in release builds).
- Elapsed time of the busy-wait: only the number of loop iterations is modelled.
- The panic handler's idle loop (src/main.rs:6-9), the endless outer `loop` (src/main.rs:23), which is modelled one iteration at a time, and the `no_mangle`/`extern "C"` entry point.
- A patterned blink burst and a trait-based output-pin/delay integration: neither is part of src/port.rs, src/delay.rs or src/main.rs, so they are not part of this model.
