/** The CAROBOT LCD shield driver: an HD44780 display in 4-bit mode, six
    buttons and an RGB backlight, all on the pins of one MCP23017.

    The expander's registers are the field `regs`; the I2C transactions that
    reach them are reduced to reading and assigning that sequence.  What the
    display receives is the ghost field `trace`: one `Latch` per
    `pulseEnable`, with the RS, R/W and D7..D4 levels of that moment.  Every
    method that pulses Enable requires Enable to be low on entry, so the
    falling edge at the end of the pulse is the only one it makes. */
module LCDShield {
  import opened ShieldDefs
  import opened Mcp23017
  import opened Hd44780

  // -----------------------------------------------------------------------
  // The shield's wiring, as begin() assigns it
  // -----------------------------------------------------------------------

  const RS_PIN: bv8 := 15      // GPB7, LOW: instruction, HIGH: character
  const RW_PIN: bv8 := 14      // GPB6, LOW: write
  const ENABLE_PIN: bv8 := 13  // GPB5, active on a HIGH pulse
  /** D4, D5, D6, D7 of the display: data pin i carries bit i of a nibble. */
  const DATA_PINS: seq<bv8> := [12, 11, 10, 9]
  /** A, RIGHT, DOWN, UP, LEFT, B: active low, on GPA0..GPA5. */
  const BUTTON_PINS: seq<bv8> := [0, 1, 2, 3, 4, 5]
  /** Red, green and blue LEDs of the backlight: active low. */
  const BACKLIGHT_PINS: seq<bv8> := [6, 7, 8]

  /** Pin numbers below 16 address themselves. */
  lemma WiringIsDirect()
    ensures PinIndex(RS_PIN) == 15 && PinIndex(RW_PIN) == 14 && PinIndex(ENABLE_PIN) == 13
    ensures forall i :: 0 <= i < 4 ==> PinIndex(DATA_PINS[i]) == 12 - i
    ensures forall i :: 0 <= i < 6 ==> PinIndex(BUTTON_PINS[i]) == i
    ensures forall i :: 0 <= i < 3 ==> PinIndex(BACKLIGHT_PINS[i]) == 6 + i
  {
  }

  // -----------------------------------------------------------------------
  // The display bus seen through the pins
  // -----------------------------------------------------------------------

  /** The bytes of `bs` sent as characters. */
  function Characters(bs: seq<bv8>): seq<Transfer>
  {
    seq(|bs|, k requires 0 <= k < |bs| => Transfer(true, bs[k]))
  }

  /** The latch the display takes when Enable falls with the pins in state ps. */
  function BusLatch(ps: seq<PinState>): Latch
    requires |ps| == 16
  {
    Latch(ps[15].high, ps[14].high,
          (if ps[12].high then 1 else 0) | (if ps[11].high then 2 else 0) |
          (if ps[10].high then 4 else 0) | (if ps[9].high then 8 else 0))
  }

  /** The first k data pins driven with the bits of nibble n, the other pins as in ps. */
  function DataDriven(ps: seq<PinState>, n: bv8, k: nat): (ps': seq<PinState>)
    requires |ps| == 16 && k <= 4
    ensures |ps'| == 16
  {
    seq(16, p requires 0 <= p < 16 => if 12 - k < p <= 12 then Driven(Bit(n, 12 - p)) else ps[p])
  }

  /** The pins after `write4bits(n)`: the data pins carry n, Enable is low. */
  function AfterNibble(ps: seq<PinState>, n: bv8): seq<PinState>
    requires |ps| == 16
  {
    DataDriven(ps, n, 4)[13 := Driven(false)]
  }

  /** A nibble leaves RS and R/W as they were. */
  lemma AfterNibbleKeepsControl(ps: seq<PinState>, n: bv8)
    requires |ps| == 16
    ensures |AfterNibble(ps, n)| == 16
    ensures AfterNibble(ps, n)[15] == ps[15] && AfterNibble(ps, n)[14] == ps[14]
  {
  }

  /** The pins after `send(v, mode)` with rs = (mode != 0). */
  function AfterSend(ps: seq<PinState>, v: bv8, rs: bool): seq<PinState>
    requires |ps| == 16
  {
    AfterNibble(ps[15 := Driven(rs)][14 := Driven(false)], v)
  }

  /** After sending a byte, RS is driven to the mode, R/W and Enable are
      driven low, data pin i is driven to bit i of the byte's LOW nibble
      (the one sent last), and every other pin keeps its mode and level. */
  lemma AfterSendPins(ps: seq<PinState>, v: bv8, rs: bool)
    requires |ps| == 16
    ensures var ps' := AfterSend(ps, v, rs);
            |ps'| == 16 &&
            ps'[PinIndex(RS_PIN)] == Driven(rs) &&
            ps'[PinIndex(RW_PIN)] == Driven(false) &&
            ps'[PinIndex(ENABLE_PIN)] == Driven(false) &&
            (forall i :: 0 <= i < 4 ==> ps'[PinIndex(DATA_PINS[i])] == Driven(Bit(v & 0x0F, i))) &&
            (forall p :: 0 <= p < 9 ==> ps'[p] == ps[p])
  {
    var ps' := AfterSend(ps, v, rs);
    forall i | 0 <= i < 4 ensures ps'[PinIndex(DATA_PINS[i])] == Driven(Bit(v & 0x0F, i)) {
      assert PinIndex(DATA_PINS[i]) == 12 - i;
      assert Bit(v & 0x0F, i) == Bit(v, i);
    }
  }

  /** Sending a byte overrides whatever the previous byte or nibble left on the bus pins. */
  lemma AfterSendOverrides(ps: seq<PinState>, n: bv8, v: bv8, rs: bool, w: bv8, rs': bool)
    requires |ps| == 16
    ensures AfterSend(AfterNibble(ps, n), v, rs) == AfterSend(ps, v, rs)
    ensures AfterSend(AfterSend(ps, w, rs'), v, rs) == AfterSend(ps, v, rs)
  {
    assert AfterSend(AfterNibble(ps, n), v, rs) == AfterSend(ps, v, rs);
    assert AfterSend(AfterSend(ps, w, rs'), v, rs) == AfterSend(ps, v, rs);
  }

  /** The latch taken with nibble n on the data pins carries n. */
  lemma LatchCarriesNibble(ps: seq<PinState>, n: bv8)
    requires |ps| == 16
    ensures BusLatch(DataDriven(ps, n, 4)) == Latch(ps[15].high, ps[14].high, n & 0x0F)
  {
    var ps' := DataDriven(ps, n, 4);
    assert ps'[12].high == Bit(n, 0) && ps'[11].high == Bit(n, 1);
    assert ps'[10].high == Bit(n, 2) && ps'[9].high == Bit(n, 3);
  }

  /** Enable is pin 13, bit 5 of GPIOB. */
  lemma EnableLevel(file: seq<bv8>)
    requires IsRegisterFile(file)
    ensures Pins(file)[PinIndex(ENABLE_PIN)].high <==> Bit(file[MCP23017_GPIOB], 5)
  {
    assert Pins(file)[13] == PinAt(file, 13);
  }

  /** The register file went from regs0 to regs1 and the display's trace from
      trace0 to trace1 by sending the bytes ts: the latches appended are
      exactly their 4-bit encoding, the bus pins are as the last byte leaves
      them, and no other register changed. */
  ghost predicate Transmitted(regs0: seq<bv8>, trace0: seq<Latch>, regs1: seq<bv8>, trace1: seq<Latch>,
                              ts: seq<Transfer>)
  {
    IsRegisterFile(regs0) && IsRegisterFile(regs1) && ts != [] &&
    SameOutsidePins(regs0, regs1) &&
    Pins(regs1) == AfterSend(Pins(regs0), ts[|ts| - 1].value, ts[|ts| - 1].rs) &&
    trace1 == trace0 + Encode(ts)
  }

  /** What the display makes of a transmission: the latches it took since
      trace0 pair up into exactly the bytes ts. */
  lemma TransmittedDecodes(regs0: seq<bv8>, trace0: seq<Latch>, regs1: seq<bv8>, trace1: seq<Latch>,
                           ts: seq<Transfer>)
    requires Transmitted(regs0, trace0, regs1, trace1, ts)
    ensures |trace0| <= |trace1| && trace1[..|trace0|] == trace0
    ensures Decode(trace1[|trace0|..]) == Some(ts)
  {
    assert trace1[|trace0|..] == Encode(ts);
    DecodeEncode(ts);
  }

  /** Sending ts and then us is sending ts + us. */
  lemma TransmittedChain(regs0: seq<bv8>, trace0: seq<Latch>, regs1: seq<bv8>, trace1: seq<Latch>,
                         regs2: seq<bv8>, trace2: seq<Latch>, ts: seq<Transfer>, us: seq<Transfer>)
    requires Transmitted(regs0, trace0, regs1, trace1, ts)
    requires Transmitted(regs1, trace1, regs2, trace2, us)
    ensures Transmitted(regs0, trace0, regs2, trace2, ts + us)
  {
    EncodeAppend(ts, us);
    var t := ts[|ts| - 1];
    AfterSendOverrides(Pins(regs0), 0, us[|us| - 1].value, us[|us| - 1].rs, t.value, t.rs);
    assert (ts + us)[|ts + us| - 1] == us[|us| - 1];
  }

  // -----------------------------------------------------------------------
  // Buttons and backlight
  // -----------------------------------------------------------------------

  /** The button byte for the GPIOA value `port`: button k is pressed when
      its pin reads low, and bits 6 and 7 are always clear. */
  function ButtonsPressed(port: bv8): (r: bv8)
    ensures r <= 0x3F
    ensures forall k :: 0 <= k < 6 ==> (r & BUTTONS[k] != 0 <==> !Bit(port, k))
    ensures forall k :: 0 <= k < 8 ==> (Bit(r, k) <==> k < 6 && !Bit(port, k))
  {
    !port & 0x3F
  }

  /** The button byte once buttons 0..i-1 have been read: their bits are
      cleared where the pin reads high, bits i..5 are still set. */
  function ButtonsRead(port: bv8, i: nat): bv8
    requires i <= 6
  {
    0x3F & !(port & ((1 << i) - 1))
  }

  /** One step of `readButtons`: AND-ing in the inverse of button i's level,
      shifted to bit i, records button i and keeps the others. */
  lemma ButtonStep(port: bv8, i: nat)
    requires i < 6
    ensures ButtonsRead(port, i) & !(((port >> i) & 0x01) << i) == ButtonsRead(port, i + 1)
  {
  }

  /** Before the first step all six bits are set; after the last the byte is ButtonsPressed. */
  lemma ButtonsReadEnds(port: bv8)
    ensures ButtonsRead(port, 0) == 0x3F && ButtonsRead(port, 6) == ButtonsPressed(port)
  {
  }

  /** Reading button i's pin gives bit i of GPIOA. */
  lemma ButtonLevel(file: seq<bv8>, i: nat)
    requires IsRegisterFile(file) && i < 6
    ensures Mcp23017.DigitalRead(file, BUTTON_PINS[i]) == (file[MCP23017_GPIOA] >> i) & 0x01
  {
    assert BUTTON_PINS[i] as nat == i;
  }

  /** The button byte of a register file reports button k pressed exactly when its pin reads low. */
  lemma ButtonsMeaning(file: seq<bv8>)
    requires IsRegisterFile(file)
    ensures forall k :: 0 <= k < 6 ==>
              (ButtonsPressed(file[MCP23017_GPIOA]) & BUTTONS[k] != 0 <==> !Pins(file)[PinIndex(BUTTON_PINS[k])].high)
  {
    WiringIsDirect();
    forall k | 0 <= k < 6
      ensures ButtonsPressed(file[MCP23017_GPIOA]) & BUTTONS[k] != 0 <==> !Pins(file)[PinIndex(BUTTON_PINS[k])].high
    {
      assert Pins(file)[k] == PinAt(file, k);
    }
  }

  /** The pins after `setBacklight(colour)`: LED k is driven to the inverse of
      bit k of the colour. */
  function WithBacklight(ps: seq<PinState>, colour: bv8): seq<PinState>
    requires |ps| == 16
  {
    ps[6 := Driven(!Bit(colour, 0))][7 := Driven(!Bit(colour, 1))][8 := Driven(!Bit(colour, 2))]
  }

  /** Only the low three bits of a colour matter: an LED is lit (its pin low)
      exactly when its bit is set.  White lights all three, 0 none. */
  lemma BacklightColour(ps: seq<PinState>, colour: bv8)
    requires |ps| == 16
    ensures WithBacklight(ps, colour) == WithBacklight(ps, colour & 0x07)
    ensures forall k :: 0 <= k < 3 ==>
              WithBacklight(ps, colour)[PinIndex(BACKLIGHT_PINS[k])] == Driven(!Bit(colour, k))
    ensures forall p :: 0 <= p < 16 && p !in {6, 7, 8} ==> WithBacklight(ps, colour)[p] == ps[p]
    ensures WithBacklight(ps, LCD_BL_WHITE)[6..9] == [Driven(false), Driven(false), Driven(false)]
    ensures WithBacklight(ps, LCD_BL_OFF)[6..9] == [Driven(true), Driven(true), Driven(true)]
  {
    assert Bit(colour & 0x07, 0) == Bit(colour, 0);
    assert Bit(colour & 0x07, 1) == Bit(colour, 1);
    assert Bit(colour & 0x07, 2) == Bit(colour, 2);
  }

  // -----------------------------------------------------------------------
  // Begin
  // -----------------------------------------------------------------------

  /** The nibbles `begin` sends before the display is in 4-bit mode: 0x3
      three times to force 8-bit mode from any state, then 0x2. */
  const INIT_NIBBLES: seq<Latch> := [Latch(false, false, 0x03), Latch(false, false, 0x03),
                                     Latch(false, false, 0x03), Latch(false, false, 0x02)]

  /** The pins once RS, Enable and R/W are driven low, before the first instruction. */
  function BusIdle(ps: seq<PinState>): seq<PinState>
    requires |ps| == 16
  {
    ps[15 := Driven(false)][13 := Driven(false)][14 := Driven(false)]
  }

  /** The instructions `begin` sends once the display is in 4-bit mode:
      function set (4-bit, two lines, 5x8 dots), display on without cursor
      or blink, clear, and entry mode left-to-right without shift. */
  const INIT_INSTRUCTIONS: seq<Transfer> :=
    [Transfer(false, LCD_FUNCTIONSET | LCD_4BITMODE | LCD_2LINE | LCD_5x8DOTS),
     Transfer(false, LCD_DISPLAYCONTROL | LCD_DISPLAYON | LCD_CURSOROFF | LCD_BLINKOFF),
     Transfer(false, LCD_CLEARDISPLAY),
     Transfer(false, LCD_ENTRYMODESET | LCD_ENTRYLEFT | LCD_ENTRYSHIFTDECREMENT)]

  /** Every pin an input, low, without pull-up. */
  const RESET_PINS: seq<PinState> := seq(16, p => PinState(true, false, false))

  /** The pins as `begin` configures them: buttons are inputs with pull-up,
      every other pin an output driven low. */
  const CONFIGURED_PINS: seq<PinState> :=
    seq(16, p => if p < 6 then PinState(true, true, false) else Driven(false))

  /** Writing IODIR = 0xFF, GPIO = 0 and GPPU = 0 on both ports makes every pin an input, low, without pull-up. */
  lemma ResetPins(file: seq<bv8>)
    requires IsRegisterFile(file)
    ensures var file' := file[MCP23017_IODIRA := 0xFF][MCP23017_IODIRB := 0xFF]
                             [MCP23017_GPIOA := 0x00][MCP23017_GPIOB := 0x00]
                             [MCP23017_GPPUA := 0x00][MCP23017_GPPUB := 0x00];
            IsRegisterFile(file') && SameOutsidePins(file, file') && Pins(file') == RESET_PINS
  {
    var file' := file[MCP23017_IODIRA := 0xFF][MCP23017_IODIRB := 0xFF]
                     [MCP23017_GPIOA := 0x00][MCP23017_GPIOB := 0x00]
                     [MCP23017_GPPUA := 0x00][MCP23017_GPPUB := 0x00];
    forall p | 0 <= p < 16 ensures Pins(file')[p] == PinState(true, false, false) {
      assert Pins(file')[p] == PinAt(file', p);
    }
  }

  /** The mode `begin` gives physical pin p: buttons are inputs with
      pull-up, every other pin an output. */
  function SetupMode(p: nat): bv8
    requires p < 16
  {
    if p < 6 then INPUT_PULLUP else OUTPUT
  }

  /** The physical pin of the k-th `_pinMode` call of `begin`: RS, R/W,
      Enable, the data pins, the buttons, then the LEDs. */
  function SetupPin(k: nat): (p: nat)
    requires k < 16
    ensures p < 16
  {
    if k < 7 then 15 - k else k - 7
  }

  /** The position of physical pin p in that order. */
  function SetupPosition(p: nat): (k: nat)
    requires p < 16
    ensures k < 16 && SetupPin(k) == p
  {
    if p < 9 then p + 7 else 15 - p
  }

  /** The calls `begin` makes, as three calls and three loops, follow that
      order, each with the mode SetupMode gives its pin: first RS, R/W and
      Enable as outputs, ... */
  lemma ControlSetupOrder()
    ensures PinIndex(RS_PIN) == SetupPin(0) && PinIndex(RW_PIN) == SetupPin(1) && PinIndex(ENABLE_PIN) == SetupPin(2)
    ensures SetupMode(SetupPin(0)) == SetupMode(SetupPin(1)) == SetupMode(SetupPin(2)) == OUTPUT
  {
  }

  /** ... then data pin i as an output, ... */
  lemma DataSetupOrder(i: nat)
    requires i < 4
    ensures PinIndex(DATA_PINS[i]) == SetupPin(3 + i) && SetupMode(SetupPin(3 + i)) == OUTPUT
  {
    assert DATA_PINS[i] as nat == 12 - i;
  }

  /** ... then button i as an input with pull-up, ... */
  lemma ButtonSetupOrder(i: nat)
    requires i < 6
    ensures PinIndex(BUTTON_PINS[i]) == SetupPin(7 + i) && SetupMode(SetupPin(7 + i)) == INPUT_PULLUP
  {
    assert BUTTON_PINS[i] as nat == i;
  }

  /** ... and last backlight LED i as an output. */
  lemma BacklightSetupOrder(i: nat)
    requires i < 3
    ensures PinIndex(BACKLIGHT_PINS[i]) == SetupPin(13 + i) && SetupMode(SetupPin(13 + i)) == OUTPUT
  {
    assert BACKLIGHT_PINS[i] as nat == 6 + i;
  }

  /** Every pin in the mode `begin` gives it, levels unchanged. */
  function Configured(ps: seq<PinState>): (ps': seq<PinState>)
    requires |ps| == 16
    ensures |ps'| == 16
  {
    seq(16, p requires 0 <= p < 16 => ModeApplied(ps[p], SetupMode(p)))
  }

  /** The pins once the first k calls have been made, starting from ps. */
  function SetupStage(ps: seq<PinState>, k: nat): (ps': seq<PinState>)
    requires |ps| == 16
    ensures |ps'| == 16
  {
    seq(16, p requires 0 <= p < 16 => if SetupPosition(p) < k then ModeApplied(ps[p], SetupMode(p)) else ps[p])
  }

  /** Call k takes stage k to stage k + 1; no call is stage 0 and all sixteen are Configured. */
  lemma SetupStep(ps: seq<PinState>, k: nat)
    requires |ps| == 16 && k < 16
    ensures SetupStage(ps, 0) == ps && SetupStage(ps, 16) == Configured(ps)
    ensures var p := SetupPin(k);
            SetupStage(ps, k)[p := ModeApplied(SetupStage(ps, k)[p], SetupMode(p))] == SetupStage(ps, k + 1)
  {
    var p := SetupPin(k);
    assert SetupPosition(p) == k;
    forall q | 0 <= q < 16 && q != p ensures SetupStage(ps, k)[q] == SetupStage(ps, k + 1)[q] {
      assert SetupPosition(q) != k;
    }
  }

  /** From reset pins, `begin` configures buttons as inputs with pull-up and every other pin as an output driven low. */
  lemma ConfiguredFromReset()
    ensures Configured(RESET_PINS) == CONFIGURED_PINS
  {
    forall p | 0 <= p < 16 ensures Configured(RESET_PINS)[p] == CONFIGURED_PINS[p] {
      assert RESET_PINS[p] == PinState(true, false, false);
      assert CONFIGURED_PINS[p] == if p < 6 then PinState(true, true, false) else Driven(false);
      assert Configured(RESET_PINS)[p] == ModeApplied(RESET_PINS[p], SetupMode(p));
    }
  }

  /** Whatever the 4-bit switch left on the bus pins, the last instruction of
      `begin` leaves the configured pins with RS, R/W and Enable low and its
      low nibble on the data pins. */
  lemma InitPins()
    ensures AfterSend(AfterNibble(AfterNibble(AfterNibble(AfterNibble(BusIdle(CONFIGURED_PINS), 3), 3), 3), 2), 0x06, false)
            == AfterSend(CONFIGURED_PINS, 0x06, false)
  {
    assert BusIdle(CONFIGURED_PINS) == CONFIGURED_PINS;
    AfterSendOverrides(AfterNibble(AfterNibble(AfterNibble(CONFIGURED_PINS, 3), 3), 3), 2, 0x06, false, 0, false);
    AfterSendOverrides(AfterNibble(AfterNibble(CONFIGURED_PINS, 3), 3), 3, 0x06, false, 0, false);
    AfterSendOverrides(AfterNibble(CONFIGURED_PINS, 3), 3, 0x06, false, 0, false);
    AfterSendOverrides(CONFIGURED_PINS, 3, 0x06, false, 0, false);
  }

  // -----------------------------------------------------------------------
  // The driver object
  // -----------------------------------------------------------------------

  class Shield {
    /** The expander's 22 registers. */
    var regs: seq<bv8>
    /** DDRAM address of the first column of each row. */
    const rowOffsets: array<bv8>
    var displayFunction: bv8
    var displayControl: bv8
    var displayMode: bv8
    var numLines: bv8
    /** Every nibble the display has latched, oldest first. */
    ghost var trace: seq<Latch>
    /** Whether `begin` has assigned the pin roles; until then the source's
        `_rs_pin`, `_data_pins`, ... are all 0. */
    ghost var wired: bool

    /** The flag bytes only ever hold flag bits of their instruction. */
    ghost predicate Valid()
      reads this
    {
      IsRegisterFile(regs) && rowOffsets.Length == 4 &&
      displayControl < LCD_DISPLAYCONTROL && displayMode < LCD_ENTRYMODESET
    }

    /** The pin roles are assigned and Enable (GPB5) is low: the bus can carry a nibble. */
    ghost predicate BusReady()
      reads this
    {
      Valid() && wired && !Bit(regs[MCP23017_GPIOB], 5)
    }

    /** The state `begin` leaves and every public operation keeps: the bus is
        ready and at least one line is configured. */
    ghost predicate Ready()
      reads this
    {
      BusReady() && numLines >= 1
    }

    /** The driver object before `begin`: its fields are zero; the expander
        holds whatever it held. */
    constructor (initial: seq<bv8>)
      requires IsRegisterFile(initial)
      ensures Valid() && fresh(rowOffsets)
      ensures regs == initial && trace == [] && rowOffsets[..] == [0, 0, 0, 0]
      ensures displayFunction == 0 && displayControl == 0 && displayMode == 0 && numLines == 0
      ensures !wired
    {
      regs := initial;
      rowOffsets := new bv8[4](_ => 0);
      displayFunction, displayControl, displayMode, numLines := 0, 0, 0, 0;
      trace := [];
      wired := false;
    }

    /** `begin`: resets the expander's pin registers, configures every pin,
        then brings the display into 4-bit mode by instruction (three 0x3
        nibbles, then 0x2) and sends function set (4-bit, two lines, 5x8
        dots), display on, clear, and entry mode left-to-right without shift. */
    method Begin()
      requires Valid()
      modifies this, rowOffsets
      ensures Ready()
      ensures displayFunction == LCD_4BITMODE | LCD_2LINE | LCD_5x8DOTS
      ensures displayControl == LCD_DISPLAYON | LCD_CURSOROFF | LCD_BLINKOFF
      ensures displayMode == LCD_ENTRYLEFT | LCD_ENTRYSHIFTDECREMENT
      ensures numLines == 2 && rowOffsets[..] == [0x00, 0x40, 0x10, 0x50]
      ensures SameOutsidePins(old(regs), regs)
      ensures Pins(regs) == AfterSend(CONFIGURED_PINS, 0x06, false)
      ensures trace == old(trace) + INIT_NIBBLES + Encode(INIT_INSTRUCTIONS)
    {
      var cols: bv8 := 16;
      var lines: bv8 := 2;
      displayFunction := LCD_4BITMODE | LCD_2LINE | LCD_5x8DOTS;
      wired := true;
      ResetPinRegisters();
      ghost var r1 := regs;
      numLines := lines;
      SetRowOffsets(0x00, 0x40, 0x00 + cols, 0x40 + cols);
      ConfigurePins();
      ConfiguredFromReset();
      ghost var r2 := regs;
      IdleBus();
      ghost var r2' := regs;
      EnterFourBitMode();
      ghost var r3 := regs;
      SendInitInstructions();
      InitPins();
      SameOutsidePinsTrans(old(regs), r1, r2);
      SameOutsidePinsTrans(old(regs), r2, r2');
      SameOutsidePinsTrans(old(regs), r2', r3);
      SameOutsidePinsTrans(old(regs), r3, regs);
    }

    /** The first block of `begin`: IODIR = 0xFF, GPIO = 0 and GPPU = 0 on both ports. */
    method ResetPinRegisters()
      requires Valid()
      modifies this`regs
      ensures Valid() && SameOutsidePins(old(regs), regs) && Pins(regs) == RESET_PINS
    {
      WriteRegister(MCP23017_IODIRA, 0xFF);
      WriteRegister(MCP23017_IODIRB, 0xFF);
      WriteRegister(MCP23017_GPIOA, 0x00);
      WriteRegister(MCP23017_GPIOB, 0x00);
      WriteRegister(MCP23017_GPPUA, 0x00);
      WriteRegister(MCP23017_GPPUB, 0x00);
      ResetPins(old(regs));
    }

    /** The pin-mode block of `begin`: RS, R/W and Enable, then loops over
        the data pins, the buttons and the LEDs. */
    method ConfigurePins()
      requires Valid() && wired
      modifies this`regs
      ensures Valid() && SameOutsidePins(old(regs), regs)
      ensures Pins(regs) == Configured(Pins(old(regs)))
    {
      ControlSetupOrder();
      ghost var start := Pins(regs);
      SetupStep(start, 0);
      ghost var r0 := regs;
      PinMode(RS_PIN, OUTPUT);
      ghost var r1 := regs;
      PinMode(RW_PIN, OUTPUT);
      SetupStep(start, 1);
      ghost var r2 := regs;
      PinMode(ENABLE_PIN, OUTPUT);
      SetupStep(start, 2);
      SameOutsidePinsTrans(r0, r1, r2);
      SameOutsidePinsTrans(r0, r2, regs);
      for i := 0 to 4
        invariant Valid() && SameOutsidePins(old(regs), regs)
        invariant Pins(regs) == SetupStage(start, 3 + i)
      {
        ghost var before := regs;
        DataSetupOrder(i);
        PinMode(DATA_PINS[i], OUTPUT);
        SetupStep(start, 3 + i);
        SameOutsidePinsTrans(old(regs), before, regs);
      }
      for i := 0 to 6
        invariant Valid() && SameOutsidePins(old(regs), regs)
        invariant Pins(regs) == SetupStage(start, 7 + i)
      {
        ghost var before := regs;
        ButtonSetupOrder(i);
        PinMode(BUTTON_PINS[i], INPUT_PULLUP);
        SetupStep(start, 7 + i);
        SameOutsidePinsTrans(old(regs), before, regs);
      }
      for i := 0 to 3
        invariant Valid() && SameOutsidePins(old(regs), regs)
        invariant Pins(regs) == SetupStage(start, 13 + i)
      {
        ghost var before := regs;
        BacklightSetupOrder(i);
        PinMode(BACKLIGHT_PINS[i], OUTPUT);
        SetupStep(start, 13 + i);
        SameOutsidePinsTrans(old(regs), before, regs);
      }
    }

    /** RS, Enable and R/W driven low before the first nibble of `begin`. */
    method IdleBus()
      requires Valid() && wired
      modifies this`regs
      ensures BusReady() && SameOutsidePins(old(regs), regs)
      ensures Pins(regs) == BusIdle(Pins(old(regs)))
    {
      ghost var r0 := regs;
      DigitalWrite(RS_PIN, LOW);
      ghost var r1 := regs;
      DigitalWrite(ENABLE_PIN, LOW);
      ghost var r2 := regs;
      DigitalWrite(RW_PIN, LOW);
      SameOutsidePinsTrans(r0, r1, r2);
      SameOutsidePinsTrans(r0, r2, regs);
      EnableLevel(regs);
    }

    /** The 4-bit mode entry of `begin`: the nibbles 3, 3, 3 and 2 as
        instruction nibbles, with the controller's waits left out. */
    method EnterFourBitMode()
      requires BusReady() && Pins(regs)[15] == Pins(regs)[14] == Driven(false)
      modifies this`regs, this`trace
      ensures BusReady() && SameOutsidePins(old(regs), regs)
      ensures Pins(regs) == AfterNibble(AfterNibble(AfterNibble(AfterNibble(Pins(old(regs)), 3), 3), 3), 2)
      ensures trace == old(trace) + INIT_NIBBLES
    {
      ghost var r3 := regs;
      Write4Bits(0x03);
      AfterNibbleKeepsControl(Pins(r3), 0x03);
      ghost var r4 := regs;
      Write4Bits(0x03);
      AfterNibbleKeepsControl(Pins(r4), 0x03);
      ghost var r5 := regs;
      Write4Bits(0x03);
      AfterNibbleKeepsControl(Pins(r5), 0x03);
      ghost var r6 := regs;
      Write4Bits(0x02);
      SameOutsidePinsTrans(r3, r4, r5);
      SameOutsidePinsTrans(r3, r5, r6);
      SameOutsidePinsTrans(r3, r6, regs);
    }

    /** The last block of `begin`: function set with the display function
        set above, display on without cursor or blink, clear, and entry mode
        left-to-right without shift. */
    method SendInitInstructions()
      requires Ready() && displayFunction == LCD_4BITMODE | LCD_2LINE | LCD_5x8DOTS
      modifies this`regs, this`trace, this`displayControl, this`displayMode
      ensures Ready()
      ensures displayControl == LCD_DISPLAYON | LCD_CURSOROFF | LCD_BLINKOFF
      ensures displayMode == LCD_ENTRYLEFT | LCD_ENTRYSHIFTDECREMENT
      ensures Transmitted(old(regs), old(trace), regs, trace, INIT_INSTRUCTIONS)
    {
      Command(LCD_FUNCTIONSET | displayFunction);
      ghost var (regs1, trace1) := (regs, trace);

      displayControl := LCD_DISPLAYON | LCD_CURSOROFF | LCD_BLINKOFF;
      Display();
      TransmittedChain(old(regs), old(trace), regs1, trace1, regs, trace, INIT_INSTRUCTIONS[..1], INIT_INSTRUCTIONS[1..2]);
      ghost var (regs2, trace2) := (regs, trace);

      Clear();
      TransmittedChain(old(regs), old(trace), regs2, trace2, regs, trace, INIT_INSTRUCTIONS[..2], INIT_INSTRUCTIONS[2..3]);
      ghost var (regs3, trace3) := (regs, trace);

      displayMode := LCD_ENTRYLEFT | LCD_ENTRYSHIFTDECREMENT;
      Command(LCD_ENTRYMODESET | displayMode);
      TransmittedChain(old(regs), old(trace), regs3, trace3, regs, trace, INIT_INSTRUCTIONS[..3], INIT_INSTRUCTIONS[3..]);
      assert INIT_INSTRUCTIONS[..3] + INIT_INSTRUCTIONS[3..] == INIT_INSTRUCTIONS;
    }

    // ---------------------------------------------------------------------
    // Register access
    // ---------------------------------------------------------------------

    method WriteRegister(address: bv8, value: bv8)
      requires Valid() && address as nat < REGISTER_COUNT
      modifies this`regs
      ensures Valid() && regs == Mcp23017.WriteRegister(old(regs), address, value)
    {
      regs := regs[address := value];
    }

    method ReadRegister(address: bv8) returns (value: bv8)
      requires Valid() && address as nat < REGISTER_COUNT
      ensures value == regs[address]
    {
      value := regs[address];
    }

    method WriteRegisterBit(address: bv8, bit: nat, pinValue: bv8)
      requires Valid() && address as nat < REGISTER_COUNT && bit < 8
      modifies this`regs
      ensures Valid() && regs == Mcp23017.WriteRegisterBit(old(regs), address, bit, pinValue)
    {
      var regValue := ReadRegister(address);
      regValue := BitWrite(regValue, bit, pinValue);
      WriteRegister(address, regValue);
    }

    // ---------------------------------------------------------------------
    // Pins
    // ---------------------------------------------------------------------

    method PinMode(pin: bv8, mode: bv8)
      requires Valid()
      modifies this`regs
      ensures Valid() && SameOutsidePins(old(regs), regs)
      ensures Pins(regs) == Pins(old(regs))[PinIndex(pin) := ModeApplied(Pins(old(regs))[PinIndex(pin)], mode)]
    {
      ghost var file := regs;
      var regIodir := MCP23017_IODIRA;
      var regGppu := MCP23017_GPPUA;
      if pin > 7 {
        regIodir := MCP23017_IODIRB;
        regGppu := MCP23017_GPPUB;
      }
      if mode == OUTPUT {
        WriteRegisterBit(regGppu, (pin % 8) as nat, 0);
        WriteRegisterBit(regIodir, (pin % 8) as nat, 0);
      } else if mode == INPUT {
        WriteRegisterBit(regIodir, (pin % 8) as nat, 1);
        WriteRegisterBit(regGppu, (pin % 8) as nat, 0);
      } else if mode == INPUT_PULLUP {
        WriteRegisterBit(regIodir, (pin % 8) as nat, 1);
        WriteRegisterBit(regGppu, (pin % 8) as nat, 1);
      }
      assert regs == Mcp23017.PinMode(file, pin, mode);
    }

    method DigitalWrite(pin: bv8, state: bv8)
      requires Valid()
      modifies this`regs
      ensures Valid() && SameOutsidePins(old(regs), regs)
      ensures Pins(regs) == Pins(old(regs))[PinIndex(pin) := Driven(state != 0)]
      ensures old(BusReady()) && PinIndex(pin) != PinIndex(ENABLE_PIN) ==> BusReady()
    {
      ghost var file := regs;
      var regIodir := MCP23017_IODIRA;
      var regGppu := MCP23017_GPPUA;
      var regGpio := MCP23017_GPIOA;
      if pin > 7 {
        regIodir := MCP23017_IODIRB;
        regGppu := MCP23017_GPPUB;
        regGpio := MCP23017_GPIOB;
      }
      WriteRegisterBit(regGppu, (pin % 8) as nat, 0);
      WriteRegisterBit(regIodir, (pin % 8) as nat, 0);
      WriteRegisterBit(regGpio, (pin % 8) as nat, state);
      assert regs == Mcp23017.DigitalWrite(file, pin, state);
      EnableLevel(file);
      EnableLevel(regs);
    }

    method DigitalRead(pin: bv8) returns (level: bv8)
      requires Valid()
      ensures level == Mcp23017.DigitalRead(regs, pin)
      ensures level <= 1 && (level == 1 <==> Pins(regs)[PinIndex(pin)].high)
    {
      var regValue;
      if pin > 7 {
        regValue := ReadRegister(MCP23017_GPIOB);
      } else {
        regValue := ReadRegister(MCP23017_GPIOA);
      }
      level := (regValue >> (pin % 8)) & 0x01;
    }

    // ---------------------------------------------------------------------
    // The 4-bit bus
    // ---------------------------------------------------------------------

    method PulseEnable()
      requires BusReady()
      modifies this`regs, this`trace
      ensures BusReady() && SameOutsidePins(old(regs), regs)
      ensures Pins(regs) == Pins(old(regs))[13 := Driven(false)]
      ensures trace == old(trace) + [BusLatch(Pins(old(regs)))]
    {
      DigitalWrite(ENABLE_PIN, LOW);
      DigitalWrite(ENABLE_PIN, HIGH);
      DigitalWrite(ENABLE_PIN, LOW);
      // the display latches on the falling edge
      trace := trace + [BusLatch(Pins(regs))];
      EnableLevel(regs);
    }

    method Write4Bits(value: bv8)
      requires BusReady()
      modifies this`regs, this`trace
      ensures BusReady() && SameOutsidePins(old(regs), regs)
      ensures Pins(regs) == AfterNibble(Pins(old(regs)), value)
      ensures trace == old(trace) + [Latch(Pins(old(regs))[15].high, Pins(old(regs))[14].high, value & 0x0F)]
    {
      for i := 0 to 4
        invariant BusReady() && SameOutsidePins(old(regs), regs) && trace == old(trace)
        invariant Pins(regs) == DataDriven(Pins(old(regs)), value, i)
      {
        DigitalWrite(DATA_PINS[i], (value >> i) & 0x01);
        assert Pins(regs) == DataDriven(Pins(old(regs)), value, i + 1);
      }
      LatchCarriesNibble(Pins(old(regs)), value);
      PulseEnable();
    }

    method Send(value: bv8, mode: bv8)
      requires BusReady()
      modifies this`regs, this`trace
      ensures BusReady() && Transmitted(old(regs), old(trace), regs, trace, [Transfer(mode != 0, value)])
    {
      DigitalWrite(RS_PIN, mode);
      DigitalWrite(RW_PIN, LOW);
      ghost var ps := Pins(regs);
      Write4Bits(value >> 4);
      assert (value >> 4) & 0x0F == value >> 4;
      Write4Bits(value);
      assert Pins(regs) == AfterSend(Pins(old(regs)), value, mode != 0);
    }

    method Command(value: bv8)
      requires BusReady()
      modifies this`regs, this`trace
      ensures BusReady() && Transmitted(old(regs), old(trace), regs, trace, [Transfer(false, value)])
    {
      Send(value, LOW);
    }

    /** Writes one character; always reports one byte written. */
    method Write(value: bv8) returns (written: nat)
      requires BusReady()
      modifies this`regs, this`trace
      ensures BusReady() && Transmitted(old(regs), old(trace), regs, trace, [Transfer(true, value)])
      ensures written == 1
    {
      Send(value, HIGH);
      written := 1;
    }

    // ---------------------------------------------------------------------
    // High-level commands
    // ---------------------------------------------------------------------

    method Clear()
      requires Ready()
      modifies this`regs, this`trace
      ensures Ready() && Transmitted(old(regs), old(trace), regs, trace, [Transfer(false, LCD_CLEARDISPLAY)])
    {
      Command(LCD_CLEARDISPLAY);
    }

    method Home()
      requires Ready()
      modifies this`regs, this`trace
      ensures Ready() && Transmitted(old(regs), old(trace), regs, trace, [Transfer(false, LCD_RETURNHOME)])
    {
      Command(LCD_RETURNHOME);
    }

    method SetRowOffsets(row0: bv8, row1: bv8, row2: bv8, row3: bv8)
      requires Valid()
      modifies rowOffsets
      ensures Valid() && rowOffsets[..] == [row0, row1, row2, row3]
    {
      rowOffsets[0] := row0;
      rowOffsets[1] := row1;
      rowOffsets[2] := row2;
      rowOffsets[3] := row3;
    }

    /** Moves the cursor to column `col` of row `row`, clamped to the last
        row the offset table and the configured line count allow. */
    method SetCursor(col: bv8, row: bv8)
      requires Ready()
      modifies this`regs, this`trace
      ensures Transmitted(old(regs), old(trace), regs, trace,
                [Transfer(false, old(SetDdramCommand(col, rowOffsets[ClampRow(row, rowOffsets.Length, numLines)])))])
      ensures Ready()
    {
      var maxLines := rowOffsets.Length;
      var r := ClampRow(row, maxLines, numLines);
      var command := SetDdramCommand(col, rowOffsets[r]);
      Command(command);
    }

    method NoDisplay()
      requires Ready()
      modifies this`regs, this`trace, this`displayControl
      ensures Ready() && displayControl == WithFlag(old(displayControl), LCD_DISPLAYON, false)
      ensures Transmitted(old(regs), old(trace), regs, trace, [Transfer(false, LCD_DISPLAYCONTROL | displayControl)])
    {
      displayControl := WithFlag(displayControl, LCD_DISPLAYON, false);
      Command(LCD_DISPLAYCONTROL | displayControl);
    }

    method Display()
      requires Ready()
      modifies this`regs, this`trace, this`displayControl
      ensures Ready() && displayControl == WithFlag(old(displayControl), LCD_DISPLAYON, true)
      ensures Transmitted(old(regs), old(trace), regs, trace, [Transfer(false, LCD_DISPLAYCONTROL | displayControl)])
    {
      displayControl := WithFlag(displayControl, LCD_DISPLAYON, true);
      Command(LCD_DISPLAYCONTROL | displayControl);
    }

    method NoCursor()
      requires Ready()
      modifies this`regs, this`trace, this`displayControl
      ensures Ready() && displayControl == WithFlag(old(displayControl), LCD_CURSORON, false)
      ensures Transmitted(old(regs), old(trace), regs, trace, [Transfer(false, LCD_DISPLAYCONTROL | displayControl)])
    {
      displayControl := WithFlag(displayControl, LCD_CURSORON, false);
      Command(LCD_DISPLAYCONTROL | displayControl);
    }

    method Cursor()
      requires Ready()
      modifies this`regs, this`trace, this`displayControl
      ensures Ready() && displayControl == WithFlag(old(displayControl), LCD_CURSORON, true)
      ensures Transmitted(old(regs), old(trace), regs, trace, [Transfer(false, LCD_DISPLAYCONTROL | displayControl)])
    {
      displayControl := WithFlag(displayControl, LCD_CURSORON, true);
      Command(LCD_DISPLAYCONTROL | displayControl);
    }

    method NoBlink()
      requires Ready()
      modifies this`regs, this`trace, this`displayControl
      ensures Ready() && displayControl == WithFlag(old(displayControl), LCD_BLINKON, false)
      ensures Transmitted(old(regs), old(trace), regs, trace, [Transfer(false, LCD_DISPLAYCONTROL | displayControl)])
    {
      displayControl := WithFlag(displayControl, LCD_BLINKON, false);
      Command(LCD_DISPLAYCONTROL | displayControl);
    }

    method Blink()
      requires Ready()
      modifies this`regs, this`trace, this`displayControl
      ensures Ready() && displayControl == WithFlag(old(displayControl), LCD_BLINKON, true)
      ensures Transmitted(old(regs), old(trace), regs, trace, [Transfer(false, LCD_DISPLAYCONTROL | displayControl)])
    {
      displayControl := WithFlag(displayControl, LCD_BLINKON, true);
      Command(LCD_DISPLAYCONTROL | displayControl);
    }

    method ScrollDisplayLeft()
      requires Ready()
      modifies this`regs, this`trace
      ensures Ready()
      ensures Transmitted(old(regs), old(trace), regs, trace, [Transfer(false, 0x18)])
    {
      Command(LCD_CURSORSHIFT | LCD_DISPLAYMOVE | LCD_MOVELEFT);
    }

    method ScrollDisplayRight()
      requires Ready()
      modifies this`regs, this`trace
      ensures Ready()
      ensures Transmitted(old(regs), old(trace), regs, trace, [Transfer(false, 0x1C)])
    {
      Command(LCD_CURSORSHIFT | LCD_DISPLAYMOVE | LCD_MOVERIGHT);
    }

    method LeftToRight()
      requires Ready()
      modifies this`regs, this`trace, this`displayMode
      ensures Ready() && displayMode == WithFlag(old(displayMode), LCD_ENTRYLEFT, true)
      ensures Transmitted(old(regs), old(trace), regs, trace, [Transfer(false, LCD_ENTRYMODESET | displayMode)])
    {
      displayMode := WithFlag(displayMode, LCD_ENTRYLEFT, true);
      Command(LCD_ENTRYMODESET | displayMode);
    }

    method RightToLeft()
      requires Ready()
      modifies this`regs, this`trace, this`displayMode
      ensures Ready() && displayMode == WithFlag(old(displayMode), LCD_ENTRYLEFT, false)
      ensures Transmitted(old(regs), old(trace), regs, trace, [Transfer(false, LCD_ENTRYMODESET | displayMode)])
    {
      displayMode := WithFlag(displayMode, LCD_ENTRYLEFT, false);
      Command(LCD_ENTRYMODESET | displayMode);
    }

    method Autoscroll()
      requires Ready()
      modifies this`regs, this`trace, this`displayMode
      ensures Ready() && displayMode == WithFlag(old(displayMode), LCD_ENTRYSHIFTINCREMENT, true)
      ensures Transmitted(old(regs), old(trace), regs, trace, [Transfer(false, LCD_ENTRYMODESET | displayMode)])
    {
      displayMode := WithFlag(displayMode, LCD_ENTRYSHIFTINCREMENT, true);
      Command(LCD_ENTRYMODESET | displayMode);
    }

    method NoAutoscroll()
      requires Ready()
      modifies this`regs, this`trace, this`displayMode
      ensures Ready() && displayMode == WithFlag(old(displayMode), LCD_ENTRYSHIFTINCREMENT, false)
      ensures Transmitted(old(regs), old(trace), regs, trace, [Transfer(false, LCD_ENTRYMODESET | displayMode)])
    {
      displayMode := WithFlag(displayMode, LCD_ENTRYSHIFTINCREMENT, false);
      Command(LCD_ENTRYMODESET | displayMode);
    }

    /** Stores the 8 rows of `charmap` as custom character `location` (only its low three bits count). */
    method CreateChar(location: bv8, charmap: array<bv8>)
      requires Ready() && charmap.Length >= 8
      modifies this`regs, this`trace
      ensures Ready()
      ensures Transmitted(old(regs), old(trace), regs, trace,
                [Transfer(false, SetCgramCommand(location))] + Characters(charmap[..8]))
    {
      Command(SetCgramCommand(location));
      for i := 0 to 8
        invariant BusReady()
        invariant Transmitted(old(regs), old(trace), regs, trace,
                    [Transfer(false, SetCgramCommand(location))] + Characters(charmap[..i]))
      {
        ghost var (regs0, trace0) := (regs, trace);
        var _ := Write(charmap[i]);
        TransmittedChain(old(regs), old(trace), regs0, trace0, regs, trace,
          [Transfer(false, SetCgramCommand(location))] + Characters(charmap[..i]), [Transfer(true, charmap[i])]);
        assert Characters(charmap[..i]) + [Transfer(true, charmap[i])] == Characters(charmap[..i + 1]);
        assert [Transfer(false, SetCgramCommand(location))] + Characters(charmap[..i]) + [Transfer(true, charmap[i])]
            == [Transfer(false, SetCgramCommand(location))] + Characters(charmap[..i + 1]);
      }
    }

    /** Bit k of the result is set exactly when button k is pressed (its pin reads low). */
    method ReadButtons() returns (reply: bv8)
      requires Ready()
      ensures reply == ButtonsPressed(regs[MCP23017_GPIOA])
      ensures forall k :: 0 <= k < 6 ==> (reply & BUTTONS[k] != 0 <==> !Pins(regs)[PinIndex(BUTTON_PINS[k])].high)
    {
      reply := 0x3F;
      ButtonsReadEnds(regs[MCP23017_GPIOA]);
      for i := 0 to 6
        invariant reply == ButtonsRead(regs[MCP23017_GPIOA], i)
      {
        var level := DigitalRead(BUTTON_PINS[i]);
        ButtonLevel(regs, i);
        ButtonStep(regs[MCP23017_GPIOA], i);
        reply := reply & !(level << i);
      }
      ButtonsMeaning(regs);
    }

    method SetBacklight(colour: bv8)
      requires Ready()
      modifies this`regs
      ensures Ready() && SameOutsidePins(old(regs), regs)
      ensures Pins(regs) == WithBacklight(Pins(old(regs)), colour)
    {
      DigitalWrite(BACKLIGHT_PINS[0], !colour & 0x1);  // red
      DigitalWrite(BACKLIGHT_PINS[1], (!colour >> 1) & 0x1);  // green
      DigitalWrite(BACKLIGHT_PINS[2], (!colour >> 2) & 0x1);  // blue
    }
  }
}
