/** The MCP23017 register file as a value, and the driver's register and
    pin operations as functions on it.

    A register file is the sequence of the 22 register bytes, indexed by
    address.  The driver's view of a pin is three bits at the same position
    in three registers of the pin's port: IODIR (1 = input), GPPU (1 = weak
    pull-up on) and GPIO (the level).  `Pins` collects the 16 pins' views;
    `SameOutsidePins` says the other 16 registers are equal.  Together they
    determine a register file (`PinsDetermineFile`), so the pin operations
    are specified completely by their effect on `Pins`. */
module Mcp23017 {
  import opened ShieldDefs

  /** Arduino's pin mode and level constants (Arduino.h is not part of this model). */
  const INPUT: bv8 := 0x0
  const OUTPUT: bv8 := 0x1
  const INPUT_PULLUP: bv8 := 0x2
  const LOW: bv8 := 0x0
  const HIGH: bv8 := 0x1

  predicate IsRegisterFile(file: seq<bv8>) {
    |file| == REGISTER_COUNT
  }

  /** The byte with only bit i set, i.e. 1 << i. */
  function Mask(i: nat): (m: bv8)
    requires i < 8
  {
    if i == 0 then 0x01 else if i == 1 then 0x02 else if i == 2 then 0x04 else if i == 3 then 0x08
    else if i == 4 then 0x10 else if i == 5 then 0x20 else if i == 6 then 0x40 else 0x80
  }

  /** The table agrees with the shift Arduino's `bitWrite` uses. */
  lemma MaskIsShift(i: nat)
    requires i < 8
    ensures Mask(i) == 1 << i
  {
  }

  /** Distinct bits have disjoint masks. */
  lemma MasksDisjoint(i: nat, j: nat)
    requires i < 8 && j < 8 && i != j
    ensures Mask(i) & Mask(j) == 0
  {
  }

  /** Bit i of v. */
  predicate Bit(v: bv8, i: nat)
    requires i < 8
  {
    v & Mask(i) != 0
  }

  /** Two bytes that agree on all eight bits are equal. */
  lemma BitsDetermine(a: bv8, b: bv8)
    requires forall j :: 0 <= j < 8 ==> Bit(a, j) == Bit(b, j)
    ensures a == b
  {
    assert Bit(a, 0) == Bit(b, 0) && Bit(a, 1) == Bit(b, 1) && Bit(a, 2) == Bit(b, 2) && Bit(a, 3) == Bit(b, 3);
    assert Bit(a, 4) == Bit(b, 4) && Bit(a, 5) == Bit(b, 5) && Bit(a, 6) == Bit(b, 6) && Bit(a, 7) == Bit(b, 7);
  }

  /** Arduino's `bitWrite(v, bit, value)`: set the bit (OR with `1UL << bit`,
      which is `Mask(bit)` by `MaskIsShift`) when value is non-zero, clear it
      otherwise. */
  function BitWrite(v: bv8, bit: nat, value: bv8): (r: bv8)
    requires bit < 8
    ensures Bit(r, bit) == (value != 0)
    ensures forall j :: 0 <= j < 8 && j != bit ==> Bit(r, j) == Bit(v, j)
  {
    BitWriteOthers(v, bit, value);
    if value != 0 then v | Mask(bit) else v & !Mask(bit)
  }

  lemma BitWriteOthers(v: bv8, bit: nat, value: bv8)
    requires bit < 8
    ensures forall j :: 0 <= j < 8 && j != bit ==>
              Bit(if value != 0 then v | Mask(bit) else v & !Mask(bit), j) == Bit(v, j)
  {
    forall j | 0 <= j < 8 && j != bit
      ensures Bit(if value != 0 then v | Mask(bit) else v & !Mask(bit), j) == Bit(v, j)
    {
      MasksDisjoint(bit, j);
    }
  }

  /** `writeRegister`: the register at `address` becomes `value`. */
  function WriteRegister(file: seq<bv8>, address: bv8, value: bv8): (f: seq<bv8>)
    requires IsRegisterFile(file) && address as nat < REGISTER_COUNT
    ensures IsRegisterFile(f) && f[address] == value
    ensures forall k :: 0 <= k < REGISTER_COUNT && k != address as nat ==> f[k] == file[k]
  {
    file[address := value]
  }

  /** `writeRegisterBit`: read the register, change one bit, write it back. */
  function WriteRegisterBit(file: seq<bv8>, address: bv8, bit: nat, value: bv8): (f: seq<bv8>)
    requires IsRegisterFile(file) && address as nat < REGISTER_COUNT && bit < 8
    ensures IsRegisterFile(f)
    ensures Bit(f[address], bit) == (value != 0)
    ensures forall j :: 0 <= j < 8 && j != bit ==> Bit(f[address], j) == Bit(file[address], j)
    ensures forall k :: 0 <= k < REGISTER_COUNT && k != address as nat ==> f[k] == file[k]
  {
    WriteRegister(file, address, BitWrite(file[address], bit, value))
  }

  // -----------------------------------------------------------------------
  // Pins
  // -----------------------------------------------------------------------

  /** The configuration and level of one expander pin. */
  datatype PinState = PinState(input: bool, pullUp: bool, high: bool)

  /** A pin driven as an output at the given level, with its pull-up off. */
  function Driven(high: bool): PinState {
    PinState(false, false, high)
  }

  /** The three per-pin registers. */
  datatype Field = Direction | PullUp | Level

  /** The physical pin (0..15) a pin number addresses: numbers above 7 select
      port B, and the bit within the port is the number modulo 8. */
  function PinIndex(pin: bv8): (p: nat)
    ensures p < 16
    ensures (p >= 8) == (pin > 7)
    ensures p % 8 == (pin % 8) as nat
  {
    if pin > 7 then 8 + (pin % 8) as nat else pin as nat
  }

  /** The register holding `field` for the port of physical pin p. */
  function FieldRegister(p: nat, field: Field): (address: bv8)
    requires p < 16
    ensures address as nat < REGISTER_COUNT
  {
    match field
    case Direction => if p < 8 then MCP23017_IODIRA else MCP23017_IODIRB
    case PullUp => if p < 8 then MCP23017_GPPUA else MCP23017_GPPUB
    case Level => if p < 8 then MCP23017_GPIOA else MCP23017_GPIOB
  }

  /** The registers that hold pin bits; the other 16 are never touched by pin operations. */
  const PIN_REGISTERS: set<nat> := {MCP23017_IODIRA as nat, MCP23017_IODIRB as nat,
                                    MCP23017_GPPUA as nat, MCP23017_GPPUB as nat,
                                    MCP23017_GPIOA as nat, MCP23017_GPIOB as nat}

  function PinAt(file: seq<bv8>, p: nat): PinState
    requires IsRegisterFile(file) && p < 16
  {
    PinState(Bit(file[FieldRegister(p, Direction)], p % 8),
             Bit(file[FieldRegister(p, PullUp)], p % 8),
             Bit(file[FieldRegister(p, Level)], p % 8))
  }

  /** The state of all 16 pins held in a register file. */
  function Pins(file: seq<bv8>): seq<PinState>
    requires IsRegisterFile(file)
  {
    seq(16, p requires 0 <= p < 16 => PinAt(file, p))
  }

  predicate SameOutsidePins(file: seq<bv8>, file': seq<bv8>)
    requires IsRegisterFile(file) && IsRegisterFile(file')
  {
    forall k :: 0 <= k < REGISTER_COUNT && k !in PIN_REGISTERS ==> file'[k] == file[k]
  }

  /** Equal pin views give equal bytes in each pin register. */
  lemma PinRegisterDetermined(file: seq<bv8>, file': seq<bv8>, port: nat, field: Field)
    requires IsRegisterFile(file) && IsRegisterFile(file') && port < 2
    requires Pins(file) == Pins(file')
    ensures file[FieldRegister(8 * port, field)] == file'[FieldRegister(8 * port, field)]
  {
    var address := FieldRegister(8 * port, field);
    forall j | 0 <= j < 8 ensures Bit(file[address], j) == Bit(file'[address], j) {
      PinBitDetermined(file, file', 8 * port + j, field);
    }
    BitsDetermine(file[address], file'[address]);
  }

  lemma PinBitDetermined(file: seq<bv8>, file': seq<bv8>, p: nat, field: Field)
    requires IsRegisterFile(file) && IsRegisterFile(file') && p < 16
    requires Pins(file) == Pins(file')
    ensures Bit(file[FieldRegister(p, field)], p % 8) == Bit(file'[FieldRegister(p, field)], p % 8)
    ensures FieldRegister(p, field) == FieldRegister(8 * (p / 8), field)
  {
    assert Pins(file)[p] == PinAt(file, p);
    assert Pins(file')[p] == PinAt(file', p);
  }

  /** The pin view and the other registers determine the register file. */
  lemma PinsDetermineFile(file: seq<bv8>, file': seq<bv8>)
    requires IsRegisterFile(file) && IsRegisterFile(file')
    requires SameOutsidePins(file, file') && Pins(file) == Pins(file')
    ensures file == file'
  {
    PinRegisterDetermined(file, file', 0, Direction);
    PinRegisterDetermined(file, file', 1, Direction);
    PinRegisterDetermined(file, file', 0, PullUp);
    PinRegisterDetermined(file, file', 1, PullUp);
    PinRegisterDetermined(file, file', 0, Level);
    PinRegisterDetermined(file, file', 1, Level);
    assert forall k :: 0 <= k < REGISTER_COUNT ==> file[k] == file'[k];
  }

  lemma SameOutsidePinsTrans(f: seq<bv8>, g: seq<bv8>, h: seq<bv8>)
    requires IsRegisterFile(f) && IsRegisterFile(g) && IsRegisterFile(h)
    requires SameOutsidePins(f, g) && SameOutsidePins(g, h)
    ensures SameOutsidePins(f, h)
  {
  }

  /** The pin view after one pin's field has been set to b. */
  function WithField(s: PinState, field: Field, b: bool): PinState {
    match field
    case Direction => s.(input := b)
    case PullUp => s.(pullUp := b)
    case Level => s.(high := b)
  }

  /** Writing one field bit of one pin changes that field of that pin and nothing else. */
  lemma WriteBitOnPin(file: seq<bv8>, p: nat, field: Field, value: bv8)
    requires IsRegisterFile(file) && p < 16
    ensures var file' := WriteRegisterBit(file, FieldRegister(p, field), p % 8, value);
            SameOutsidePins(file, file') &&
            Pins(file') == Pins(file)[p := WithField(Pins(file)[p], field, value != 0)]
  {
    var file' := WriteRegisterBit(file, FieldRegister(p, field), p % 8, value);
    forall q | 0 <= q < 16
      ensures Pins(file')[q] == Pins(file)[p := WithField(Pins(file)[p], field, value != 0)][q]
    {
      assert Pins(file')[q] == PinAt(file', q);
    }
  }

  // -----------------------------------------------------------------------
  // The virtual GPIO layer
  // -----------------------------------------------------------------------

  /** A pin's state after `_pinMode` with `mode`: OUTPUT turns the pull-up and
      the input direction off, INPUT turns the direction to input and the
      pull-up off, INPUT_PULLUP turns both on, any other mode changes nothing.
      The level is never touched. */
  function ModeApplied(s: PinState, mode: bv8): PinState {
    if mode == OUTPUT then s.(input := false, pullUp := false)
    else if mode == INPUT then s.(input := true, pullUp := false)
    else if mode == INPUT_PULLUP then s.(input := true, pullUp := true)
    else s
  }

  /** `_pinMode(pin, mode)`: OUTPUT clears the pull-up bit then the direction
      bit, INPUT sets the direction bit then clears the pull-up bit,
      INPUT_PULLUP sets both; any other mode value leaves the register file
      as it was. */
  function PinMode(file: seq<bv8>, pin: bv8, mode: bv8): (file': seq<bv8>)
    requires IsRegisterFile(file)
    ensures IsRegisterFile(file') && SameOutsidePins(file, file')
    ensures Pins(file') == Pins(file)[PinIndex(pin) := ModeApplied(Pins(file)[PinIndex(pin)], mode)]
    ensures !(mode in {OUTPUT, INPUT, INPUT_PULLUP}) ==> file' == file
  {
    var p := PinIndex(pin);
    var regIodir := if pin > 7 then MCP23017_IODIRB else MCP23017_IODIRA;
    var regGppu := if pin > 7 then MCP23017_GPPUB else MCP23017_GPPUA;
    assert regIodir == FieldRegister(p, Direction) && regGppu == FieldRegister(p, PullUp);
    var bit := (pin % 8) as nat;
    if mode == OUTPUT then
      var f1 := WriteRegisterBit(file, regGppu, bit, 0);
      WriteBitOnPin(file, p, PullUp, 0);
      WriteBitOnPin(f1, p, Direction, 0);
      WriteRegisterBit(f1, regIodir, bit, 0)
    else if mode == INPUT then
      var f1 := WriteRegisterBit(file, regIodir, bit, 1);
      WriteBitOnPin(file, p, Direction, 1);
      WriteBitOnPin(f1, p, PullUp, 0);
      WriteRegisterBit(f1, regGppu, bit, 0)
    else if mode == INPUT_PULLUP then
      var f1 := WriteRegisterBit(file, regIodir, bit, 1);
      WriteBitOnPin(file, p, Direction, 1);
      WriteBitOnPin(f1, p, PullUp, 1);
      WriteRegisterBit(f1, regGppu, bit, 1)
    else
      file
  }

  /** `_digitalWrite(pin, state)`: the pin becomes an output without pull-up
      (whatever it was configured as before) and its level becomes state != 0. */
  function DigitalWrite(file: seq<bv8>, pin: bv8, state: bv8): (file': seq<bv8>)
    requires IsRegisterFile(file)
    ensures IsRegisterFile(file') && SameOutsidePins(file, file')
    ensures Pins(file') == Pins(file)[PinIndex(pin) := Driven(state != 0)]
  {
    var p := PinIndex(pin);
    var regIodir := if pin > 7 then MCP23017_IODIRB else MCP23017_IODIRA;
    var regGppu := if pin > 7 then MCP23017_GPPUB else MCP23017_GPPUA;
    var regGpio := if pin > 7 then MCP23017_GPIOB else MCP23017_GPIOA;
    assert regIodir == FieldRegister(p, Direction) && regGppu == FieldRegister(p, PullUp)
        && regGpio == FieldRegister(p, Level);
    var bit := (pin % 8) as nat;
    var f1 := WriteRegisterBit(file, regGppu, bit, 0);
    var f2 := WriteRegisterBit(f1, regIodir, bit, 0);
    WriteBitOnPin(file, p, PullUp, 0);
    WriteBitOnPin(f1, p, Direction, 0);
    WriteBitOnPin(f2, p, Level, state);
    WriteRegisterBit(f2, regGpio, bit, state)
  }

  /** `_digitalRead(pin)`: 1 when the pin's GPIO bit is set, 0 otherwise. */
  function DigitalRead(file: seq<bv8>, pin: bv8): (r: bv8)
    requires IsRegisterFile(file)
    ensures r <= 1
    ensures r == 1 <==> Pins(file)[PinIndex(pin)].high
  {
    var regGpio := if pin > 7 then MCP23017_GPIOB else MCP23017_GPIOA;
    assert regGpio == FieldRegister(PinIndex(pin), Level);
    (file[regGpio] >> (pin % 8)) & 0x01
  }

  /** In the register-file model, reading a pin right after writing it gives back what was written. */
  lemma ReadAfterWrite(file: seq<bv8>, pin: bv8, state: bv8)
    requires IsRegisterFile(file)
    ensures DigitalRead(DigitalWrite(file, pin, state), pin) == if state != 0 then HIGH else LOW
  {
  }

  /** Writing one pin leaves the mode and level of every other pin as they were. */
  lemma WriteLeavesOtherPins(file: seq<bv8>, pin: bv8, other: bv8, state: bv8)
    requires IsRegisterFile(file) && PinIndex(other) != PinIndex(pin)
    ensures Pins(DigitalWrite(file, pin, state))[PinIndex(other)] == Pins(file)[PinIndex(other)]
    ensures DigitalRead(DigitalWrite(file, pin, state), other) == DigitalRead(file, other)
  {
  }
}
