/** Constants of the shield's header: HD44780 instruction opcodes and their
    flag bits, the backlight colour codes, the button masks and the MCP23017
    register map (IOCON.BANK = 0).  All of them are 8-bit values, because the
    driver passes every one of them as a `uint8_t`. */
module ShieldDefs {

  // ---------------------------------------------------------------------
  // HD44780 instruction opcodes: one bit each
  // ---------------------------------------------------------------------

  const LCD_CLEARDISPLAY: bv8 := 0x01
  const LCD_RETURNHOME: bv8 := 0x02
  const LCD_ENTRYMODESET: bv8 := 0x04
  const LCD_DISPLAYCONTROL: bv8 := 0x08
  const LCD_CURSORSHIFT: bv8 := 0x10
  const LCD_FUNCTIONSET: bv8 := 0x20
  const LCD_SETCGRAMADDR: bv8 := 0x40
  const LCD_SETDDRAMADDR: bv8 := 0x80

  /** The opcodes in increasing order: opcode k is bit k. */
  const OPCODES: seq<bv8> := [LCD_CLEARDISPLAY, LCD_RETURNHOME, LCD_ENTRYMODESET,
                              LCD_DISPLAYCONTROL, LCD_CURSORSHIFT, LCD_FUNCTIONSET,
                              LCD_SETCGRAMADDR, LCD_SETDDRAMADDR]

  // flags for the entry mode set instruction
  const LCD_ENTRYRIGHT: bv8 := 0x00
  const LCD_ENTRYLEFT: bv8 := 0x02
  const LCD_ENTRYSHIFTINCREMENT: bv8 := 0x01
  const LCD_ENTRYSHIFTDECREMENT: bv8 := 0x00

  // flags for the display on/off control instruction
  const LCD_DISPLAYON: bv8 := 0x04
  const LCD_DISPLAYOFF: bv8 := 0x00
  const LCD_CURSORON: bv8 := 0x02
  const LCD_CURSOROFF: bv8 := 0x00
  const LCD_BLINKON: bv8 := 0x01
  const LCD_BLINKOFF: bv8 := 0x00

  // flags for the cursor or display shift instruction
  const LCD_DISPLAYMOVE: bv8 := 0x08
  const LCD_CURSORMOVE: bv8 := 0x00
  const LCD_MOVERIGHT: bv8 := 0x04
  const LCD_MOVELEFT: bv8 := 0x00

  // flags for the function set instruction
  const LCD_8BITMODE: bv8 := 0x10
  const LCD_4BITMODE: bv8 := 0x00
  const LCD_2LINE: bv8 := 0x08
  const LCD_1LINE: bv8 := 0x00
  const LCD_5x10DOTS: bv8 := 0x04
  const LCD_5x8DOTS: bv8 := 0x00

  /** Every flag constant of each opcode, ON and OFF values alike, paired with the opcode. */
  const OPCODE_FLAGS: seq<(bv8, bv8)> := [
    (LCD_ENTRYMODESET, LCD_ENTRYRIGHT), (LCD_ENTRYMODESET, LCD_ENTRYLEFT),
    (LCD_ENTRYMODESET, LCD_ENTRYSHIFTINCREMENT), (LCD_ENTRYMODESET, LCD_ENTRYSHIFTDECREMENT),
    (LCD_DISPLAYCONTROL, LCD_DISPLAYON), (LCD_DISPLAYCONTROL, LCD_DISPLAYOFF),
    (LCD_DISPLAYCONTROL, LCD_CURSORON), (LCD_DISPLAYCONTROL, LCD_CURSOROFF),
    (LCD_DISPLAYCONTROL, LCD_BLINKON), (LCD_DISPLAYCONTROL, LCD_BLINKOFF),
    (LCD_CURSORSHIFT, LCD_DISPLAYMOVE), (LCD_CURSORSHIFT, LCD_CURSORMOVE),
    (LCD_CURSORSHIFT, LCD_MOVERIGHT), (LCD_CURSORSHIFT, LCD_MOVELEFT),
    (LCD_FUNCTIONSET, LCD_8BITMODE), (LCD_FUNCTIONSET, LCD_4BITMODE),
    (LCD_FUNCTIONSET, LCD_2LINE), (LCD_FUNCTIONSET, LCD_1LINE),
    (LCD_FUNCTIONSET, LCD_5x10DOTS), (LCD_FUNCTIONSET, LCD_5x8DOTS)]

  // ---------------------------------------------------------------------
  // Backlight colours: bit 0 red, bit 1 green, bit 2 blue
  // ---------------------------------------------------------------------

  const LCD_BL_OFF: bv8 := 0x00
  const LCD_BL_ON: bv8 := 0x01
  const LCD_BL_RED: bv8 := 0x01
  const LCD_BL_GREEN: bv8 := 0x02
  const LCD_BL_YELLOW: bv8 := 0x03
  const LCD_BL_BLUE: bv8 := 0x04
  const LCD_BL_PURPLE: bv8 := 0x05
  const LCD_BL_TEAL: bv8 := 0x06
  const LCD_BL_WHITE: bv8 := 0x07

  // ---------------------------------------------------------------------
  // Button masks, in the order of the button pins
  // ---------------------------------------------------------------------

  const BUTTON_A: bv8 := 0x01
  const BUTTON_RIGHT: bv8 := 0x02
  const BUTTON_DOWN: bv8 := 0x04
  const BUTTON_UP: bv8 := 0x08
  const BUTTON_LEFT: bv8 := 0x10
  const BUTTON_B: bv8 := 0x20

  /** The masks indexed by button number 0..5. */
  const BUTTONS: seq<bv8> := [BUTTON_A, BUTTON_RIGHT, BUTTON_DOWN, BUTTON_UP, BUTTON_LEFT, BUTTON_B]

  // ---------------------------------------------------------------------
  // MCP23017
  // ---------------------------------------------------------------------

  const MCP23017_ADDRESS: bv8 := 0x20

  // port A registers
  const MCP23017_IODIRA: bv8 := 0x00
  const MCP23017_IPOLA: bv8 := 0x02
  const MCP23017_GPINTENA: bv8 := 0x04
  const MCP23017_DEFVALA: bv8 := 0x06
  const MCP23017_INTCONA: bv8 := 0x08
  const MCP23017_IOCONA: bv8 := 0x0A
  const MCP23017_GPPUA: bv8 := 0x0C
  const MCP23017_INTFA: bv8 := 0x0E
  const MCP23017_INTCAPA: bv8 := 0x10
  const MCP23017_GPIOA: bv8 := 0x12
  const MCP23017_OLATA: bv8 := 0x14

  // port B registers
  const MCP23017_IODIRB: bv8 := 0x01
  const MCP23017_IPOLB: bv8 := 0x03
  const MCP23017_GPINTENB: bv8 := 0x05
  const MCP23017_DEFVALB: bv8 := 0x07
  const MCP23017_INTCONB: bv8 := 0x09
  const MCP23017_IOCONB: bv8 := 0x0B
  const MCP23017_GPPUB: bv8 := 0x0D
  const MCP23017_INTFB: bv8 := 0x0F
  const MCP23017_INTCAPB: bv8 := 0x11
  const MCP23017_GPIOB: bv8 := 0x13
  const MCP23017_OLATB: bv8 := 0x15

  /** The eleven register kinds, port A then port B at the same position. */
  const PORT_A_REGISTERS: seq<bv8> := [MCP23017_IODIRA, MCP23017_IPOLA, MCP23017_GPINTENA,
                                       MCP23017_DEFVALA, MCP23017_INTCONA, MCP23017_IOCONA,
                                       MCP23017_GPPUA, MCP23017_INTFA, MCP23017_INTCAPA,
                                       MCP23017_GPIOA, MCP23017_OLATA]
  const PORT_B_REGISTERS: seq<bv8> := [MCP23017_IODIRB, MCP23017_IPOLB, MCP23017_GPINTENB,
                                       MCP23017_DEFVALB, MCP23017_INTCONB, MCP23017_IOCONB,
                                       MCP23017_GPPUB, MCP23017_INTFB, MCP23017_INTCAPB,
                                       MCP23017_GPIOB, MCP23017_OLATB]

  /** Number of registers in the IOCON.BANK = 0 map (0x00..0x15). */
  const REGISTER_COUNT: nat := 22

  // ---------------------------------------------------------------------
  // Facts about the constants
  // ---------------------------------------------------------------------

  /** With IOCON.BANK = 0 the two ports' registers are interleaved: every
      port B register sits right after its port A counterpart and port A
      holds the even addresses, so together they fill 0x00..0x15 exactly once. */
  lemma RegisterMap()
    ensures |PORT_A_REGISTERS| == |PORT_B_REGISTERS| == 11
    ensures forall k :: 0 <= k < 11 ==>
              PORT_A_REGISTERS[k] == 2 * k as bv8 && PORT_B_REGISTERS[k] == PORT_A_REGISTERS[k] + 1
    ensures forall k :: 0 <= k < 11 ==> PORT_B_REGISTERS[k] as nat < REGISTER_COUNT
  {
  }

  /** The eight opcodes are the eight distinct single bits, in order. */
  lemma OpcodesAreBits()
    ensures |OPCODES| == 8
    ensures forall k :: 0 <= k < 8 ==> OPCODES[k] == 1 << k
    ensures forall j, k :: 0 <= j < k < 8 ==> OPCODES[j] & OPCODES[k] == 0
  {
  }

  /** Each flag constant lies strictly below its opcode's bit. */
  lemma FlagsBelowOpcode()
    ensures forall k :: 0 <= k < |OPCODE_FLAGS| ==> OPCODE_FLAGS[k].1 < OPCODE_FLAGS[k].0
  {
  }

  /** So OR-ing a flag into its opcode leaves the opcode bit set and every
      higher bit clear. */
  lemma FlagsKeepOpcode()
    ensures forall k :: 0 <= k < |OPCODE_FLAGS| ==>
              (OPCODE_FLAGS[k].0 | OPCODE_FLAGS[k].1) & !(OPCODE_FLAGS[k].0 - 1) == OPCODE_FLAGS[k].0
  {
  }

  /** The display-control ON flags are three distinct bits; the OFF flags are 0. */
  lemma DisplayControlFlags()
    ensures LCD_DISPLAYON == 1 << 2 && LCD_CURSORON == 1 << 1 && LCD_BLINKON == 1 << 0
    ensures LCD_DISPLAYOFF == LCD_CURSOROFF == LCD_BLINKOFF == 0
    ensures LCD_DISPLAYON | LCD_CURSORON | LCD_BLINKON == LCD_DISPLAYCONTROL - 1
  {
  }

  /** Button k has mask 1 << k, and the six masks together are 0x3F. */
  lemma ButtonMasks()
    ensures |BUTTONS| == 6
    ensures forall k :: 0 <= k < 6 ==> BUTTONS[k] == 1 << k
    ensures BUTTON_A | BUTTON_RIGHT | BUTTON_DOWN | BUTTON_UP | BUTTON_LEFT | BUTTON_B == 0x3F
  {
  }

  /** The colour codes are the 3-bit combinations of red, green and blue. */
  lemma BacklightColours()
    ensures LCD_BL_RED == 1 << 0 && LCD_BL_GREEN == 1 << 1 && LCD_BL_BLUE == 1 << 2
    ensures LCD_BL_WHITE == LCD_BL_RED | LCD_BL_GREEN | LCD_BL_BLUE == 0x07
    ensures LCD_BL_YELLOW == LCD_BL_RED | LCD_BL_GREEN
    ensures LCD_BL_PURPLE == LCD_BL_RED | LCD_BL_BLUE
    ensures LCD_BL_TEAL == LCD_BL_GREEN | LCD_BL_BLUE
    ensures LCD_BL_ON == LCD_BL_RED && LCD_BL_OFF == 0
  {
  }
}
