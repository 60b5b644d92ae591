/** The HD44780 side of the driver: bytes sent over the 4-bit interface, the
    instruction bytes the driver builds, and how the controller reads them
    back.

    In 4-bit mode every byte crosses the bus as two nibbles on D7..D4, high
    nibble first; the controller latches each on the falling edge of E, with
    RS (0 = instruction, 1 = data) and R/W (0 = write).  `Encode` gives the
    latches the driver produces for a sequence of bytes; `Decode` is how the
    controller pairs them back into bytes. */
module Hd44780 {
  import opened ShieldDefs

  datatype Option<T> = None | Some(value: T)

  /** One nibble latched by the controller: the RS and R/W levels and D7..D4 as bits 3..0. */
  datatype Latch = Latch(rs: bool, rw: bool, data: bv8)

  /** One byte for the controller: an instruction (rs = false) or a character (rs = true). */
  datatype Transfer = Transfer(rs: bool, value: bv8)

  /** The two latches of one byte written in 4-bit mode. */
  function Nibbles(t: Transfer): seq<Latch> {
    [Latch(t.rs, false, t.value >> 4), Latch(t.rs, false, t.value & 0x0F)]
  }

  function Encode(ts: seq<Transfer>): (ls: seq<Latch>)
    ensures |ls| == 2 * |ts|
    ensures forall k :: 0 <= k < |ls| ==> !ls[k].rw && ls[k].data <= 0x0F
  {
    if ts == [] then [] else Nibbles(ts[0]) + Encode(ts[1..])
  }

  /** The controller's reading of a latch stream: consecutive pairs of write
      latches with the same RS make one byte, high nibble first. */
  function Decode(ls: seq<Latch>): Option<seq<Transfer>>
    decreases |ls|
  {
    if ls == [] then Some([])
    else if |ls| == 1 then None
    else if ls[0].rw || ls[1].rw || ls[0].rs != ls[1].rs || ls[0].data > 0x0F || ls[1].data > 0x0F then None
    else match Decode(ls[2..])
      case None => None
      case Some(rest) => Some([Transfer(ls[0].rs, (ls[0].data << 4) | ls[1].data)] + rest)
  }

  /** A byte is the join of its high and low nibble. */
  lemma NibblesJoin(v: bv8)
    ensures ((v >> 4) << 4) | (v & 0x0F) == v
  {
  }

  /** The controller reassembles exactly the bytes the driver sent. */
  lemma {:induction false} DecodeEncode(ts: seq<Transfer>)
    ensures Decode(Encode(ts)) == Some(ts)
  {
    if ts != [] {
      var ls := Encode(ts);
      assert ls == Nibbles(ts[0]) + Encode(ts[1..]);
      assert ls[2..] == Encode(ts[1..]);
      DecodeEncode(ts[1..]);
      NibblesJoin(ts[0].value);
      assert [ts[0]] + ts[1..] == ts;
    }
  }

  /** Two nibbles joined into a byte split back into the same two nibbles. */
  lemma JoinNibbles(hi: bv8, lo: bv8)
    requires hi <= 0x0F && lo <= 0x0F
    ensures ((hi << 4) | lo) >> 4 == hi && ((hi << 4) | lo) & 0x0F == lo
  {
  }

  /** Conversely, every latch stream the controller reads as bytes is the
      encoding of those bytes. */
  lemma {:induction false} EncodeDecode(ls: seq<Latch>, ts: seq<Transfer>)
    requires Decode(ls) == Some(ts)
    ensures Encode(ts) == ls
    decreases |ls|
  {
    if ls != [] {
      var rest := Decode(ls[2..]).value;
      EncodeDecode(ls[2..], rest);
      var t := Transfer(ls[0].rs, (ls[0].data << 4) | ls[1].data);
      assert ts == [t] + rest;
      JoinNibbles(ls[0].data, ls[1].data);
      assert Nibbles(t) == [ls[0], ls[1]];
      calc {
        Encode(ts);
        Nibbles(t) + Encode(rest);
        [ls[0], ls[1]] + ls[2..];
        ls;
      }
    }
  }

  lemma {:induction false} EncodeAppend(ts: seq<Transfer>, us: seq<Transfer>)
    ensures Encode(ts + us) == Encode(ts) + Encode(us)
  {
    if ts != [] {
      assert (ts + us)[0] == ts[0] && (ts + us)[1..] == ts[1..] + us;
      EncodeAppend(ts[1..], us);
      calc {
        Encode(ts + us);
        Nibbles(ts[0]) + Encode(ts[1..] + us);
        Nibbles(ts[0]) + (Encode(ts[1..]) + Encode(us));
        (Nibbles(ts[0]) + Encode(ts[1..])) + Encode(us);
      }
    } else {
      assert ts + us == us;
    }
  }

  // -----------------------------------------------------------------------
  // Instruction bytes
  // -----------------------------------------------------------------------

  /** An instruction as the controller decodes it: the opcode is the highest
      set bit of the byte, the operand the bits below it. */
  datatype Instruction = Instruction(opcode: bv8, operand: bv8)

  function HighestBit(b: bv8): (h: bv8)
    requires b != 0
    ensures h in OPCODES && h <= b && b as int < 2 * h as int
  {
    if b >= 0x80 then 0x80 else if b >= 0x40 then 0x40 else if b >= 0x20 then 0x20
    else if b >= 0x10 then 0x10 else if b >= 0x08 then 0x08 else if b >= 0x04 then 0x04
    else if b >= 0x02 then 0x02 else 0x01
  }

  function InstructionOf(b: bv8): Option<Instruction> {
    if b == 0 then None else var h := HighestBit(b); Some(Instruction(h, b & (h - 1)))
  }

  /** OR-ing operand bits below an opcode's bit into the opcode never alters
      the opcode: the controller decodes the byte as that opcode with exactly
      those operand bits. */
  lemma CommandDecodes(k: nat, operand: bv8)
    requires k < 8 && operand < OPCODES[k]
    ensures InstructionOf(OPCODES[k] | operand) == Some(Instruction(OPCODES[k], operand))
  {
    var op := OPCODES[k];
    assert op == 1 << k;
    assert HighestBit(op | operand) == op;
  }

  /** The row `setCursor` uses: a row at or past the end of the offset table
      becomes its last entry, then a row at or past the configured line count
      becomes the last line.  The result is always a valid row, and it is the
      requested row whenever that one is valid. */
  function ClampRow(row: bv8, maxLines: nat, numLines: bv8): (r: nat)
    requires maxLines >= 1 && numLines >= 1
    ensures r < maxLines && r < numLines as nat
    ensures row as nat < maxLines && row < numLines ==> r == row as nat
    ensures !(row as nat < maxLines && row < numLines) ==>
              r == (if maxLines < numLines as nat then maxLines else numLines as nat) - 1
  {
    var r := if row as nat >= maxLines then maxLines - 1 else row as nat;
    if r >= numLines as nat then numLines as nat - 1 else r
  }

  /** The set-DDRAM-address instruction for column `col` of the row starting
      at `offset`.  The driver adds the two as integers and the sum is cut to
      8 bits when passed as the command byte, which is the 8-bit sum
      `col + offset`: the result always carries the opcode bit and addresses
      the low seven bits of that sum, i.e. (col + offset) mod 128. */
  function SetDdramCommand(col: bv8, offset: bv8): (c: bv8)
    ensures c & 0x80 == LCD_SETDDRAMADDR && c & 0x7F == (col + offset) & 0x7F
    ensures InstructionOf(c) == Some(Instruction(LCD_SETDDRAMADDR, (col + offset) & 0x7F))
  {
    TopBitDecodes(LCD_SETDDRAMADDR | (col + offset));
    LCD_SETDDRAMADDR | (col + offset)
  }

  lemma TopBitDecodes(c: bv8)
    requires c >= 0x80
    ensures InstructionOf(c) == Some(Instruction(LCD_SETDDRAMADDR, c & 0x7F))
  {
  }

  lemma SlotBits(location: bv8)
    ensures (location & 0x7) as int == location as int % 8
    ensures ((location & 0x7) << 3) as int == 8 * (location & 0x7) as int
    ensures (0x40 | ((location & 0x7) << 3)) as int == 0x40 + ((location & 0x7) << 3) as int
  {
  }

  /** The set-CGRAM-address instruction for custom character `location`:
      only the low three bits of the location count, and each character
      occupies eight CGRAM addresses. */
  function SetCgramCommand(location: bv8): (c: bv8)
    ensures c as int == LCD_SETCGRAMADDR as int + 8 * (location as int % 8)
    ensures InstructionOf(c) == Some(Instruction(LCD_SETCGRAMADDR, c & 0x3F))
  {
    var slot := location & 0x7;
    SlotBits(location);
    LCD_SETCGRAMADDR | (slot << 3)
  }

  /** One flag bit of a flag byte turned on or off, the others kept. */
  function WithFlag(flags: bv8, flag: bv8, on: bool): (r: bv8)
    ensures r & flag == (if on then flag else 0)
    ensures r & !flag == flags & !flag
  {
    if on then flags | flag else flags & !flag
  }

  /** Turning a flag on (or off) twice is the same as doing it once. */
  lemma WithFlagIdempotent(flags: bv8, flag: bv8, on: bool)
    ensures WithFlag(WithFlag(flags, flag, on), flag, on) == WithFlag(flags, flag, on)
  {
  }

  /** A flag update keeps a flag byte below a bound that is a power of two above the flag. */
  lemma WithFlagBelow(flags: bv8, flag: bv8, on: bool, bound: bv8)
    requires bound in OPCODES && flags < bound && flag < bound
    ensures WithFlag(flags, flag, on) < bound
  {
  }
}
