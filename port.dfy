/**
  One 8-bit GPIO port group of the ATmega328p (src/port.rs).

  The hardware registers behind the three addresses are modelled as an
  in-memory register file: the `Port` object holds the addresses it was
  built with and the current contents of the direction (DDR), output (PORT)
  and input (PIN) registers. Pins are numbered from the least significant
  bit, 0 to 7.
*/
module Port {
  import opened MachineInts
  import opened Bits

  /**
    A port group: the three register addresses bound at construction, which
    no method reassigns, and the register file they refer to.
  */
  class Port {
    /** Address of the data direction register (1 = output, 0 = input). */
    const ddrAddr: u16
    /** Address of the output register (the level driven on output pins). */
    const portAddr: u16
    /** Address of the input register (the level sensed on every pin). */
    const pinAddr: u16

    /** Contents of the data direction register. */
    var ddr: bv8
    /** Contents of the output register. */
    var port: bv8
    /** Contents of the input register; software only reads it. */
    var pinReg: bv8

    /**
      Binds the three addresses. The register contents are whatever the
      hardware holds at that moment, so they are parameters here.
    */
    constructor New(ddrAddr: u16, portAddr: u16, pinAddr: u16, ddr0: bv8, port0: bv8, pin0: bv8)
      ensures this.ddrAddr == ddrAddr && this.portAddr == portAddr && this.pinAddr == pinAddr
      ensures ddr == ddr0 && port == port0 && pinReg == pin0
    {
      this.ddrAddr := ddrAddr;
      this.portAddr := portAddr;
      this.pinAddr := pinAddr;
      ddr, port, pinReg := ddr0, port0, pin0;
    }

    /** Makes `pin` an output (sets its direction bit) or an input (clears it). */
    method SetPinMode(pin: bv8, isOutput: bool)
      requires pin < 8
      modifies this`ddr
      ensures IsSet(ddr, pin) == isOutput
      ensures forall q: bv8 :: q < 8 && q != pin ==> IsSet(ddr, q) == IsSet(old(ddr), q)
      ensures ddr == WithBit(old(ddr), pin, isOutput)
      ensures port == old(port) && pinReg == old(pinReg)
    {
      var current := ddr;
      var next := WithBit(current, pin, isOutput);
      ddr := next;
      forall q: bv8 | q < 8 && q != pin
        ensures IsSet(ddr, q) == IsSet(current, q)
      {
        WithBitAt(current, pin, isOutput, q);
      }
    }

    /** Drives `pin` high (sets its output bit) or low (clears it). */
    method SetPinState(pin: bv8, isHigh: bool)
      requires pin < 8
      modifies this`port
      ensures IsSet(port, pin) == isHigh
      ensures forall q: bv8 :: q < 8 && q != pin ==> IsSet(port, q) == IsSet(old(port), q)
      ensures port == WithBit(old(port), pin, isHigh)
      ensures ddr == old(ddr) && pinReg == old(pinReg)
    {
      var current := port;
      var next := WithBit(current, pin, isHigh);
      port := next;
      forall q: bv8 | q < 8 && q != pin
        ensures IsSet(port, q) == IsSet(current, q)
      {
        WithBitAt(current, pin, isHigh, q);
      }
    }

    /** The sensed level of `pin`: whether its bit of the input register is set. */
    method ReadPin(pin: bv8) returns (high: bool)
      requires pin < 8
      ensures high == IsSet(pinReg, pin)
    {
      var value := pinReg;
      high := value & (1 << pin) != 0;
    }
  }

  /** Register addresses of port group B on the ATmega328p. */
  const DDRB: u16 := 0x24
  const PORTB: u16 := 0x25
  const PINB: u16 := 0x23

  /** A port bound to the port-B registers, whose contents are given. */
  method PortBInit(ddr0: bv8, port0: bv8, pin0: bv8) returns (p: Port)
    ensures fresh(p)
    ensures p.ddrAddr == 0x24 && p.portAddr == 0x25 && p.pinAddr == 0x23
    ensures p.ddr == ddr0 && p.port == port0 && p.pinReg == pin0
  {
    p := new Port.New(DDRB, PORTB, PINB, ddr0, port0, pin0);
  }
}
