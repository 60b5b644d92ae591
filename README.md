# CAROBOT LCD shield driver, modelled in Dafny

The CAROBOT LCD shield puts three things on one MCP23017 I2C port expander:
- an HD44780 character display, wired in 4-bit mode;
- six push buttons;
- an RGB backlight.

The `CAROBOT_LCDShield` class drives all three through the expander's registers.

This project models that class in four modules.

- `ShieldDefs` (`defs.dfy`) holds the header's constants as 8-bit values:
  - the HD44780 opcodes and their flag bits;
  - the backlight colour codes and the button masks;
  - the MCP23017 register map for IOCON.BANK = 0.

  It also proves lemmas about the bit structure of these constants.
- `Mcp23017` (`mcp23017.dfy`) treats the expander's 22 registers as a value, `seq<bv8>`. On that value it defines:
  - the driver's register operations: `writeRegister` and `writeRegisterBit` with Arduino's `bitWrite`;
  - its virtual GPIO layer: `_pinMode`, `_digitalWrite` and `_digitalRead`.

  `Pins(file)` is the driver's view of the 16 pins. Each pin is the direction, pull-up and level bit at the same position in IODIR, GPPU and GPIO of its port. Every pin operation is specified by its effect on that view, plus "the 16 other registers are unchanged". `PinsDetermineFile` shows that these two facts fix the register file completely.
- `Hd44780` (`hd44780.dfy`) covers the display side.
  - In 4-bit mode every byte crosses the bus as two latches, high nibble first.
  - `Encode` is what the driver puts on the bus.
  - `Decode` is how the controller pairs the latches back into bytes. The two are inverses in both directions.
  - The module also builds the instruction bytes of `setCursor` (set DDRAM address) and `createChar` (set CGRAM address), and the flag-byte update used by the display-control and entry-mode mutators.
- `LCDShield` (`shield.dfy`) is the driver object itself, the class `Shield`.
  - Its fields:
    - the register file `regs`;
    - `_row_offsets[4]` as an `array<bv8>`;
    - the `_displayfunction`, `_displaycontrol` and `_displaymode` flag bytes;
    - `_numlines`;
    - a ghost `trace` of every nibble the display has latched. A latch is taken on the falling edge of Enable in `pulseEnable`, and records the RS, R/W and D7..D4 levels at that moment.
  - The methods follow the source statement by statement.
  - Every byte-sending method is proved to append exactly the 4-bit encoding of its bytes to `trace`. It also leaves the bus pins as the last byte leaves them and changes no other register. This is the `Transmitted` predicate.
  - `TransmittedDecodes` shows the display reads back exactly those bytes.

The pin roles (`_rs_pin`, `_data_pins`, …) are assigned once in `begin` and never changed. They are modelled as constants: `WiringIsDirect`.

The ghost flag `wired` records whether `begin` has assigned those roles; the constructor leaves it false.
- `Ready()` is the state `begin` leaves: roles assigned, Enable (GPB5) low, and at least one display line configured.
- Every public operation after `begin` requires `Ready()` and keeps it.
- The bus methods (`pulseEnable`, `write4bits`, `send`, `command`, `write`) require and keep `BusReady()`, which is `Ready()` without the line count.
- `IdleBus` drives Enable low in `begin`, and every pulse ends with Enable low. So the `LOW` write at the start of `pulseEnable` never makes a falling edge, and each pulse gives the display exactly one latch.

`begin` is split, in source order, into six methods that `Begin` calls:
- `ResetPinRegisters`;
- `SetRowOffsets`;
- `ConfigurePins`, the pin-mode calls and loops;
- `IdleBus`, which drives RS, Enable and R/W low;
- `EnterFourBitMode`, the nibbles 3, 3, 3, 2;
- `SendInitInstructions`.

The two code comments that disagree with the code:
- The comment at CAROBOT_LCDShield.cpp:92 calls pin 8 "GPA6", but pin 8 is GPB0. The model follows the code: pin 8 is physical pin 8, on port B.
- The comment at CAROBOT_LCDShield.cpp:129 points to the HD44780 datasheet's procedure for 4-bit initialisation by instruction. After the 4-bit switch, that procedure sends function set, display off, display clear and entry mode set. `begin` sends the same four instructions, except that it sends display on (0x0C) where the procedure sends display off. The model follows the code.

## Model

| member | source | states |
|---|---|---|
| ShieldDefs.RegisterMap | CAROBOT_LCDShield.h:68-91 | register k of port A is at address 2k and its port B counterpart at 2k + 1, so every address lies below 22 (0x00..0x15) |
| ShieldDefs.OpcodesAreBits | CAROBOT_LCDShield.h:9-16 | the eight opcodes are 1 << k for k = 0..7 and pairwise disjoint |
| ShieldDefs.FlagsBelowOpcode | CAROBOT_LCDShield.h:18-44 | every flag constant lies strictly below the bit of the opcode it belongs to |
| ShieldDefs.FlagsKeepOpcode | CAROBOT_LCDShield.h:9-44 | OR-ing a flag into its opcode leaves the opcode bit set and every higher bit clear |
| ShieldDefs.DisplayControlFlags | CAROBOT_LCDShield.h:25-30 | DISPLAYON, CURSORON and BLINKON are bits 2, 1 and 0, the OFF values are 0, and together the ON bits are every bit below the display-control opcode |
| ShieldDefs.ButtonMasks | CAROBOT_LCDShield.h:57-62 | button k's mask is 1 << k and the six masks OR to 0x3F |
| ShieldDefs.BacklightColours | CAROBOT_LCDShield.h:47-55 | red, green and blue are bits 0, 1 and 2; yellow, purple, teal and white are their ORs; ON is red and OFF is 0 |
| Mcp23017.BitWrite | CAROBOT_LCDShield.cpp:410 | the chosen bit becomes (value != 0) and the other seven bits keep their value |
| Mcp23017.WriteRegister | CAROBOT_LCDShield.cpp:384-389 | the addressed register holds the value and every other register is unchanged |
| Mcp23017.WriteRegisterBit | CAROBOT_LCDShield.cpp:407-413 | bit `bit` of the addressed register becomes (value != 0); its other seven bits and every other register are unchanged |
| Mcp23017.PinIndex | CAROBOT_LCDShield.cpp:418-430 | a pin number above 7 selects port B, and the bit within the port is the number mod 8 |
| Mcp23017.PinsDetermineFile | CAROBOT_LCDShield.h:68-91 | two register files with the same pin view and the same 16 non-pin registers are equal |
| Mcp23017.WriteBitOnPin | CAROBOT_LCDShield.cpp:407-413 | writing one field bit of one pin changes that field of that pin and nothing else in the pin view or the other registers |
| Mcp23017.PinMode | CAROBOT_LCDShield.cpp:418-439 | OUTPUT clears the pin's pull-up and direction bits, INPUT sets direction and clears pull-up, INPUT_PULLUP sets both, other modes leave the register file unchanged; other pins, the level and the non-pin registers are untouched |
| Mcp23017.DigitalWrite | CAROBOT_LCDShield.cpp:444-458 | the pin becomes an output without pull-up driven to (state != 0), whatever it was before; nothing else changes |
| Mcp23017.DigitalRead | CAROBOT_LCDShield.cpp:463-470 | the result is 0 or 1, and 1 exactly when the pin's GPIO bit is set |
| Mcp23017.ReadAfterWrite | CAROBOT_LCDShield.cpp:444-470 | reading a pin right after writing it returns HIGH when the state was non-zero and LOW otherwise |
| Mcp23017.WriteLeavesOtherPins | CAROBOT_LCDShield.cpp:444-470 | writing one pin leaves the mode and level, and the value read, of every other pin unchanged |
| Hd44780.Encode | CAROBOT_LCDShield.cpp:333-339 | n bytes become 2n write latches, each carrying a nibble at most 0xF |
| Hd44780.DecodeEncode | CAROBOT_LCDShield.cpp:333-356 | the controller decodes the latches of any byte sequence back into exactly that sequence |
| Hd44780.EncodeDecode | CAROBOT_LCDShield.cpp:333-356 | every latch stream that decodes to bytes is the encoding of those bytes |
| Hd44780.EncodeAppend | CAROBOT_LCDShield.cpp:333-339 | the encoding of two byte sequences in a row is the two encodings in a row |
| Hd44780.CommandDecodes | CAROBOT_LCDShield.h:9-16 | an opcode OR-ed with operand bits below its own bit decodes as that opcode with exactly those operand bits |
| Hd44780.ClampRow | CAROBOT_LCDShield.cpp:190-196 | the row used is below both the table size and the line count, equals the requested row when that one is valid, and otherwise is the smaller limit minus one |
| Hd44780.SetDdramCommand | CAROBOT_LCDShield.cpp:198 | the command byte has the set-DDRAM opcode bit set, its address bits are the 8-bit sum col + offset mod 128, and it decodes as set-DDRAM with that address |
| Hd44780.SetCgramCommand | CAROBOT_LCDShield.cpp:284-285 | the command byte is 0x40 + 8 × (location mod 8) and decodes as set-CGRAM |
| Hd44780.WithFlag | CAROBOT_LCDShield.cpp:204-235 | the flag's bits are set (on) or cleared (off) and every other bit of the flag byte is kept |
| Hd44780.WithFlagIdempotent | CAROBOT_LCDShield.cpp:204-277 | applying a flag mutator twice is the same as applying it once |
| Hd44780.WithFlagBelow | CAROBOT_LCDShield.cpp:204-277 | a flag update keeps a flag byte below its opcode bit, so the byte sent never disturbs the opcode |
| LCDShield.WiringIsDirect | CAROBOT_LCDShield.cpp:74-92 | RS, R/W and Enable are physical pins 15, 14 and 13; data pins 12..9; buttons 0..5; LEDs 6..8 |
| LCDShield.AfterSendPins | CAROBOT_LCDShield.cpp:333-356 | after a byte is sent, RS is driven to the mode, R/W and Enable are low, data pin i carries bit i of the low nibble, and pins 0..8 are unchanged |
| LCDShield.AfterSendOverrides | CAROBOT_LCDShield.cpp:333-356 | a send overrides whatever the previous byte or nibble left on the bus pins |
| LCDShield.LatchCarriesNibble | CAROBOT_LCDShield.cpp:350-356 | with the nibble's bits on data pins 12..9, the latch the display takes carries exactly that nibble and the current RS and R/W levels |
| LCDShield.TransmittedDecodes | CAROBOT_LCDShield.cpp:333-356 | the latches appended by a transmission decode to exactly the bytes sent, and the earlier trace is kept as a prefix |
| LCDShield.TransmittedChain | CAROBOT_LCDShield.cpp:314-339 | sending ts and then us is sending ts + us |
| LCDShield.ButtonsPressed | CAROBOT_LCDShield.cpp:294-301 | the button byte is at most 0x3F; button k's bit is set exactly when GPIOA bit k is clear, and bits 6 and 7 are clear |
| LCDShield.ButtonStep | CAROBOT_LCDShield.cpp:298 | one loop step records button i and keeps the bits already recorded |
| LCDShield.ButtonsMeaning | CAROBOT_LCDShield.cpp:294-301 | the button byte reports button k pressed exactly when its pin reads low |
| LCDShield.BacklightColour | CAROBOT_LCDShield.cpp:306-310 | LED k is driven to the inverse of colour bit k, colour and colour & 7 act the same, no other pin changes, white drives all three low and off all three high |
| LCDShield.ResetPins | CAROBOT_LCDShield.cpp:97-107 | IODIR = 0xFF, GPIO = 0 and GPPU = 0 on both ports make every pin an input, low, without pull-up, and touch no other register |
| LCDShield.ControlSetupOrder | CAROBOT_LCDShield.cpp:113-115 | the first three pin-mode calls set RS, R/W and Enable as outputs |
| LCDShield.DataSetupOrder | CAROBOT_LCDShield.cpp:117-119 | the data-pin loop sets data pin i as an output, as call 3 + i |
| LCDShield.ButtonSetupOrder | CAROBOT_LCDShield.cpp:121-123 | the button loop sets button i as an input with pull-up, as call 7 + i |
| LCDShield.BacklightSetupOrder | CAROBOT_LCDShield.cpp:125-127 | the LED loop sets LED i as an output, as call 13 + i |
| LCDShield.SetupStep | CAROBOT_LCDShield.cpp:113-127 | each pin-mode call moves the configuration one call forward, and after all sixteen every pin has its final mode |
| LCDShield.ConfiguredFromReset | CAROBOT_LCDShield.cpp:97-127 | from the reset pins, the buttons become inputs with pull-up and every other pin an output driven low |
| LCDShield.InitPins | CAROBOT_LCDShield.cpp:133-167 | whatever the 4-bit switch leaves on the bus, the last instruction of begin fixes the bus pins |
| LCDShield.EnableLevel | CAROBOT_LCDShield.cpp:444-458 | Enable's level in the pin view is bit 5 of GPIOB |
| LCDShield.Shield.constructor | CAROBOT_LCDShield.h:128-142 | a new driver has zero flag bytes, zero row offsets and an empty trace over the given register contents, and its pin roles are not yet assigned |
| LCDShield.Shield.Begin | CAROBOT_LCDShield.cpp:66-169 | leaves the driver ready (roles assigned, Enable low, two lines); sets the function, control and mode bytes, two lines and row offsets 0x00, 0x40, 0x10, 0x50; buttons end as inputs with pull-up, every other pin an output with the bus as the last instruction left it; the display latched 3, 3, 3, 2 and then the four instructions; the non-pin registers are unchanged |
| LCDShield.Shield.ResetPinRegisters | CAROBOT_LCDShield.cpp:97-107 | every pin becomes an input, low, without pull-up; no non-pin register changes |
| LCDShield.Shield.ConfigurePins | CAROBOT_LCDShield.cpp:113-127 | every pin gets the mode of its role and keeps its level; no non-pin register changes |
| LCDShield.Shield.IdleBus | CAROBOT_LCDShield.cpp:133-136 | RS, Enable and R/W are driven low, which makes the bus ready, and nothing else changes |
| LCDShield.Shield.EnterFourBitMode | CAROBOT_LCDShield.cpp:138-152 | with RS and R/W low, the display latches the instruction nibbles 3, 3, 3, 2 and the data pins carry the last of them |
| LCDShield.Shield.SendInitInstructions | CAROBOT_LCDShield.cpp:154-168 | transmits function set, display on, clear and entry mode, and sets the control and mode bytes to the values sent |
| LCDShield.Shield.WriteRegister | CAROBOT_LCDShield.cpp:384-389 | the register file becomes the one with that register set |
| LCDShield.Shield.ReadRegister | CAROBOT_LCDShield.cpp:394-402 | returns the register's current value and changes nothing |
| LCDShield.Shield.WriteRegisterBit | CAROBOT_LCDShield.cpp:407-413 | the register file becomes the one with that bit written |
| LCDShield.Shield.PinMode | CAROBOT_LCDShield.cpp:418-439 | the pin takes the mode's direction and pull-up, every other pin and every non-pin register is unchanged |
| LCDShield.Shield.DigitalWrite | CAROBOT_LCDShield.cpp:444-458 | the pin becomes an output without pull-up at the given level; nothing else changes, so a ready bus stays ready unless the pin is Enable |
| LCDShield.Shield.DigitalRead | CAROBOT_LCDShield.cpp:463-470 | returns 1 exactly when the pin's level bit is set, else 0 |
| LCDShield.Shield.PulseEnable | CAROBOT_LCDShield.cpp:341-348 | with Enable low on entry, the display latches the bus once, as it was, and Enable ends low |
| LCDShield.Shield.Write4Bits | CAROBOT_LCDShield.cpp:350-356 | data pin i carries bit i of the nibble, Enable ends low, and the display latches the nibble with the current RS and R/W |
| LCDShield.Shield.Send | CAROBOT_LCDShield.cpp:333-339 | transmits the byte with RS = (mode != 0): high nibble then low nibble |
| LCDShield.Shield.Command | CAROBOT_LCDShield.cpp:314-316 | transmits the byte as an instruction |
| LCDShield.Shield.Write | CAROBOT_LCDShield.cpp:318-322 | transmits the byte as a character and reports one byte written |
| LCDShield.Shield.Clear | CAROBOT_LCDShield.cpp:179-182 | transmits the clear-display instruction |
| LCDShield.Shield.Home | CAROBOT_LCDShield.cpp:184-187 | transmits the return-home instruction |
| LCDShield.Shield.SetRowOffsets | CAROBOT_LCDShield.cpp:171-176 | the offset table holds the four arguments in order |
| LCDShield.Shield.SetCursor | CAROBOT_LCDShield.cpp:189-199 | transmits the set-DDRAM instruction for the column and the offset of the clamped row |
| LCDShield.Shield.NoDisplay | CAROBOT_LCDShield.cpp:204-207 | clears the display-on bit, keeps the others, and transmits 0x08 with the new control byte |
| LCDShield.Shield.Display | CAROBOT_LCDShield.cpp:208-211 | sets the display-on bit, keeps the others, and transmits 0x08 with the new control byte |
| LCDShield.Shield.NoCursor | CAROBOT_LCDShield.cpp:216-219 | clears the cursor bit, keeps the others, and transmits the new control instruction |
| LCDShield.Shield.Cursor | CAROBOT_LCDShield.cpp:220-223 | sets the cursor bit, keeps the others, and transmits the new control instruction |
| LCDShield.Shield.NoBlink | CAROBOT_LCDShield.cpp:228-231 | clears the blink bit, keeps the others, and transmits the new control instruction |
| LCDShield.Shield.Blink | CAROBOT_LCDShield.cpp:232-235 | sets the blink bit, keeps the others, and transmits the new control instruction |
| LCDShield.Shield.ScrollDisplayLeft | CAROBOT_LCDShield.cpp:240-242 | transmits the shift instruction 0x18 (display move, left) |
| LCDShield.Shield.ScrollDisplayRight | CAROBOT_LCDShield.cpp:243-245 | transmits the shift instruction 0x1C (display move, right) |
| LCDShield.Shield.LeftToRight | CAROBOT_LCDShield.cpp:250-253 | sets the entry-left bit, keeps the others, and transmits 0x04 with the new mode byte |
| LCDShield.Shield.RightToLeft | CAROBOT_LCDShield.cpp:258-261 | clears the entry-left bit, keeps the others, and transmits the new entry-mode instruction |
| LCDShield.Shield.Autoscroll | CAROBOT_LCDShield.cpp:266-269 | sets the shift-increment bit, keeps the others, and transmits the new entry-mode instruction |
| LCDShield.Shield.NoAutoscroll | CAROBOT_LCDShield.cpp:274-277 | clears the shift-increment bit, keeps the others, and transmits the new entry-mode instruction |
| LCDShield.Shield.CreateChar | CAROBOT_LCDShield.cpp:283-289 | transmits the set-CGRAM instruction for location mod 8 and then the eight rows as characters |
| LCDShield.Shield.ReadButtons | CAROBOT_LCDShield.cpp:294-301 | returns the button byte of GPIOA: bit k set exactly when button k's pin reads low |
| LCDShield.Shield.SetBacklight | CAROBOT_LCDShield.cpp:306-310 | LEDs 6, 7 and 8 are driven to the inverse of colour bits 0, 1 and 2; nothing else changes |

## Left out

- The I2C transport is not modelled. This covers `Wire.begin`, the transactions of `writeRegister`/`readRegister`, and the `wire_write`/`wire_read` helpers. The register file is a field that those methods read and assign.
- Every `delayMicroseconds` call is left out. They affect timing only.
- The MCP23017's electrical behaviour is not modelled. A GPIO read returns the register cell, not the pin level, and the button levels are whatever GPIOA holds when `readButtons` runs.
- The `Print` base class and `using Print::write` are not part of this model. Neither is the pre-Arduino-1.0 `write`, which returns no value.
- The unused `_initialized` field is left out.
- The pin-role fields are not modelled as fields. `begin` assigns them and nothing changes them afterwards, so they are module constants.
- Arduino.h is not part of this model. Its INPUT = 0, OUTPUT = 1, INPUT_PULLUP = 2, LOW = 0 and HIGH = 1 are declared in `Mcp23017`.
- `setBacklight` shifts the negative `int` that `~colour` produces. C leaves the fill bits of that shift to the implementation. Each of `~colour & 0x1`, `(~colour >> 1) & 0x1` and `(~colour >> 2) & 0x1` keeps only bit 0 of the shifted value, so the result is the inverted colour bit whichever way the shift fills. The model shifts the 8-bit `!colour`.
- Calling any display, backlight or button operation before `begin` is not modelled. Those methods require `Ready()`. Before `begin` every pin role is 0, so the source would drive GPA0 for RS, R/W, Enable and the data bits. With `_numlines` = 0, `setCursor`'s second clamp gives row 255 and reads past `_row_offsets`, which has no defined result.
- LCDShield.Shield.WriteRegister, ReadRegister, WriteRegisterBit: require an address below 22 and a bit below 8. Every call in the driver meets this, and the chip has no other registers.
- LCDShield.Shield.constructor: models the driver object before `begin` as zero flag bytes and zero offsets, as a zero-initialised global object has. Its pin roles are unassigned (`wired` is false), so only `Begin` may follow. The expander's contents are a parameter.
- LCDShield.Shield.EnterFourBitMode: requires RS and R/W to be low on entry, as `IdleBus` leaves them. It is only a block of `begin`.
