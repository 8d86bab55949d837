/** The controller's command set and the bus traffic it produces. The native
    bus engine is an abstract recorder: each of its primitives appends one
    BusEvent, and every logical operation of the controller is a fixed,
    ordered sequence of such events. */
module Protocol {
  import opened Encoding
  import opened Outcomes

  // Opcodes (RA6963.py:116-142). Two pairs collide as written: write- and
  // read-decrement are both 0xC2, write- and read-non-variable both 0xC4.
  const SET_CURSOR_POINTER: bv8 := 0x21
  const SET_OFFSET_REGISTER: bv8 := 0x22
  const SET_ADDRESS_POINTER: bv8 := 0x24
  const SET_TEXT_HOME_ADDRESS: bv8 := 0x40
  const SET_TEXT_AREA: bv8 := 0x41
  const SET_GRAPHIC_HOME_ADDRESS: bv8 := 0x42
  const SET_GRAPHIC_AREA: bv8 := 0x43
  const MODE_SET: bv8 := 0x80
  const DISPLAY_MODE: bv8 := 0x90
  const CURSOR_PATTERN_SELECT: bv8 := 0xA0
  const DATA_WRITE_INCREMENT: bv8 := 0xC0
  const DATA_READ_INCREMENT: bv8 := 0xC1
  const DATA_WRITE_DECREMENT: bv8 := 0xC2
  const DATA_EREAD_DECREMENT: bv8 := 0xC2
  const DATA_WRITE_NON_VARIABLE: bv8 := 0xC4
  const DATA_READ_NON_VARIABLE: bv8 := 0xC4
  const SET_DATA_AUTO_WRITE: bv8 := 0xB0
  const SET_DATA_AUTO_READ: bv8 := 0xB1
  const AUTO_RESET: bv8 := 0xB2
  const SCREEN_PEEK: bv8 := 0xE0
  const SCREEN_COPY: bv8 := 0xE8
  const BIT_RESET: bv8 := 0xF0
  const BIT_SET: bv8 := 0xF8
  const BLINK_TIME: bv8 := 0x50
  const CG_ROM_FONT_SELECT: bv8 := 0x70

  /** One call into the bus engine: a block of data bytes, one command byte,
      a block read of `count` bytes, or a read of the status register. */
  datatype BusEvent = Data(bytes: seq<Byte>) | Cmd(op: bv8) | Read(count: nat) | Status

  /** A command with a 16-bit operand, as the chip receives it. */
  datatype Operand = Operand(op: bv8, word: int)

  /** A 16-bit operand on the bus: its two little-endian bytes, then the opcode. */
  function OperandWrite(v: int, op: bv8): (r: seq<BusEvent>)
    ensures |r| == 2 && r[1] == Cmd(op) && r[0].Data?
    ensures |r[0].bytes| == 2 && FromLe16(r[0].bytes) == v % WORD16
  {
    [Data(Le16(v)), Cmd(op)]
  }

  /** A run of operand commands, each sent as OperandWrite. */
  function EmitOperands(cmds: seq<Operand>): (r: seq<BusEvent>)
    ensures |r| == 2 * |cmds|
  {
    if cmds == [] then []
    else OperandWrite(cmds[0].word, cmds[0].op) + EmitOperands(cmds[1..])
  }

  /** What the chip reads back from a trace of operand writes: each two-byte
      data block followed by a command is one operand command; anything else
      is not operand traffic. */
  function ParseOperands(t: seq<BusEvent>): Option<seq<Operand>>
    decreases |t|
  {
    if t == [] then Some([])
    else if |t| >= 2 && t[0].Data? && |t[0].bytes| == 2 && t[1].Cmd? then
      match ParseOperands(t[2..])
      case Some(rest) => Some([Operand(t[1].op, FromLe16(t[0].bytes))] + rest)
      case None => None
    else None
  }

  /** Each command's operand truncated to 16 bits, as `c_uint16` stores it. */
  function Truncated(cmds: seq<Operand>): (r: seq<Operand>)
    ensures |r| == |cmds|
  {
    seq(|cmds|, i requires 0 <= i < |cmds| => Operand(cmds[i].op, cmds[i].word % WORD16))
  }

  /** The chip recovers every opcode, in order, with its operand truncated to
      16 bits: operand framing loses nothing but the high bits. */
  lemma {:induction false} ParseEmitOperands(cmds: seq<Operand>)
    ensures ParseOperands(EmitOperands(cmds)) == Some(Truncated(cmds))
  {
    if cmds != [] {
      var t := EmitOperands(cmds);
      assert t[2..] == EmitOperands(cmds[1..]);
      ParseEmitOperands(cmds[1..]);
      assert Truncated(cmds) == [Operand(cmds[0].op, cmds[0].word % WORD16)] + Truncated(cmds[1..]);
    }
  }

  /** A bulk transfer framed by the auto-write opcode and the auto-reset opcode. */
  function AutoWrite(data: seq<Byte>): (r: seq<BusEvent>)
    ensures |r| == 3 && r[1] == Data(data)
    ensures r[0] == Cmd(SET_DATA_AUTO_WRITE) && r[2] == Cmd(AUTO_RESET)
    ensures ParseOperands(r) == None
  {
    [Cmd(SET_DATA_AUTO_WRITE), Data(data), Cmd(AUTO_RESET)]
  }

  /** `n` zero bytes: the numpy buffer `clearall` sends. */
  function Zeros(n: nat): (z: seq<Byte>)
    ensures |z| == n && forall i :: 0 <= i < n ==> z[i] == 0
  {
    seq(n, _ => 0)
  }

  /** One eight-byte block per glyph, in list order; each block decodes,
      most significant byte first, to the glyph truncated to 64 bits. */
  function GlyphBlocks(glyphs: seq<int>): (r: seq<BusEvent>)
    ensures |r| == |glyphs|
    ensures forall k :: 0 <= k < |glyphs| ==>
      r[k].Data? && |r[k].bytes| == 8 && FromBigEndian(r[k].bytes) == glyphs[k] % Pow256(8)
  {
    seq(|glyphs|, k requires 0 <= k < |glyphs| => Data(Be64(glyphs[k])))
  }

  /** Character-generator RAM address of custom character `location`: the
      first 128 character codes (8 bytes each) are the built-in ones, so the
      custom characters 0 to 127 fill the upper half of the 2 KiB CG block,
      each in its own 8-byte slot. */
  function GlyphAddress(cgAddress: int, location: int): (r: int)
    ensures r % 8 == cgAddress % 8
    ensures 0 <= location < 128 ==> cgAddress + 0x400 <= r && r + 8 <= cgAddress + 0x800
  {
    cgAddress + 128 * 8 + location * 8
  }

  /** Different custom characters get disjoint 8-byte slots. */
  lemma GlyphSlotsDisjoint(cgAddress: int, a: int, b: int)
    requires a != b
    ensures GlyphAddress(cgAddress, a) + 8 <= GlyphAddress(cgAddress, b)
         || GlyphAddress(cgAddress, b) + 8 <= GlyphAddress(cgAddress, a)
  {
  }

  /** With the default CG home 0x7800, the first custom character is written
      from 0x7C00, so the pointer bytes are [0x00, 0x7C]. */
  lemma DefaultGlyphAddress()
    ensures GlyphAddress(0x7800, 0) == 0x7C00
    ensures OperandWrite(GlyphAddress(0x7800, 0), SET_ADDRESS_POINTER) == [Data([0x00, 0x7C]), Cmd(0x24)]
  {
  }

  /** The text, graphic and character-generator home addresses. */
  datatype Homes = Homes(text: int, graphic: int, cg: int)

  /** The addresses `startup` uses: the caller's `addr` triple, or the
      defaults 0x0000, 0x1000 and 0x7800. */
  function HomesOf(addr: Option<Homes>): (h: Homes)
    ensures addr.Some? ==> h == addr.value
    ensures addr.None? ==> h.text < h.graphic < h.cg && !CgMisaligned(h.cg) && CgOffset(h.cg) == 15
  {
    match addr
    case None => Homes(0x0000, 0x1000, 0x7800)
    case Some(h) => h
  }

  /** Whether `startup` must round a character-generator address: `cg & 0x07FF`
      is non-zero (Python's `&` on a negative int sees two's complement, which
      Dafny's Euclidean `%` reproduces). */
  predicate CgMisaligned(cg: int)
  {
    cg % 0x800 != 0
  }

  /** The character-generator address after `startup`: a misaligned address
      becomes `cg & 0xF800`, that is its 16-bit truncation rounded down to a
      2 KiB boundary; an aligned one is kept as it is, however large. */
  function AlignCg(cg: int): (r: int)
    ensures r % 0x800 == 0
    ensures !CgMisaligned(cg) ==> r == cg
    ensures CgMisaligned(cg) ==> 0 <= r <= cg % WORD16 < r + 0x800
  {
    if CgMisaligned(cg) then cg % WORD16 - cg % 0x800 else cg
  }

  /** The operand of the offset register: `cgaddress >> 11`, the number of the
      2 KiB block. */
  function CgOffset(cg: int): (o: int)
    ensures o * 0x800 <= cg < (o + 1) * 0x800
  {
    cg / 0x800
  }

  /** An aligned 16-bit address is recovered from its offset register value,
      which is below 32 and so is sent as the bytes [offset, 0]. */
  lemma CgOffsetRoundTrip(cg: int)
    requires 0 <= cg < WORD16 && cg % 0x800 == 0
    ensures 0 <= CgOffset(cg) < 32
    ensures CgOffset(cg) * 0x800 == cg
    ensures Le16(CgOffset(cg)) == [CgOffset(cg), 0]
  {
  }

  /** The five operand commands `startup` sends, in order: text home, text
      area width, graphic home, graphic area width, CG offset. */
  function StartupOperands(pixx: int, h: Homes): seq<Operand>
  {
    [ Operand(SET_TEXT_HOME_ADDRESS, h.text),
      Operand(SET_TEXT_AREA, pixx / 8),
      Operand(SET_GRAPHIC_HOME_ADDRESS, h.graphic),
      Operand(SET_GRAPHIC_AREA, pixx / 8),
      Operand(SET_OFFSET_REGISTER, CgOffset(h.cg)) ]
  }

  /** The bus traffic of `startup` for screen width `pixx` and homes `h`. */
  function StartupEvents(pixx: int, h: Homes): (r: seq<BusEvent>)
    ensures |r| == 10
    ensures r[1] == Cmd(SET_TEXT_HOME_ADDRESS) && r[3] == Cmd(SET_TEXT_AREA)
    ensures r[5] == Cmd(SET_GRAPHIC_HOME_ADDRESS) && r[7] == Cmd(SET_GRAPHIC_AREA)
    ensures r[9] == Cmd(SET_OFFSET_REGISTER)
    ensures forall k :: 0 <= k < 5 ==> r[2 * k].Data? && |r[2 * k].bytes| == 2
  {
    OperandWrite(h.text, SET_TEXT_HOME_ADDRESS)
    + OperandWrite(pixx / 8, SET_TEXT_AREA)
    + OperandWrite(h.graphic, SET_GRAPHIC_HOME_ADDRESS)
    + OperandWrite(pixx / 8, SET_GRAPHIC_AREA)
    + OperandWrite(CgOffset(h.cg), SET_OFFSET_REGISTER)
  }

  /** The chip reads from `startup`'s traffic exactly five operand commands,
      opcodes 0x40, 0x41, 0x42, 0x43, 0x22, with their operands truncated to
      16 bits; both area widths are `pixx // 8`. */
  lemma StartupDecodes(pixx: int, h: Homes)
    ensures |StartupEvents(pixx, h)| == 10
    ensures ParseOperands(StartupEvents(pixx, h)) == Some([
      Operand(0x40, h.text % WORD16),
      Operand(0x41, pixx / 8 % WORD16),
      Operand(0x42, h.graphic % WORD16),
      Operand(0x43, pixx / 8 % WORD16),
      Operand(0x22, h.cg / 0x800 % WORD16)])
  {
    var ops := StartupOperands(pixx, h);
    calc {
      EmitOperands(ops);
      OperandWrite(h.text, SET_TEXT_HOME_ADDRESS) + EmitOperands(ops[1..]);
      OperandWrite(h.text, SET_TEXT_HOME_ADDRESS) + OperandWrite(pixx / 8, SET_TEXT_AREA)
        + EmitOperands(ops[2..]);
      OperandWrite(h.text, SET_TEXT_HOME_ADDRESS) + OperandWrite(pixx / 8, SET_TEXT_AREA)
        + OperandWrite(h.graphic, SET_GRAPHIC_HOME_ADDRESS) + EmitOperands(ops[3..]);
      OperandWrite(h.text, SET_TEXT_HOME_ADDRESS) + OperandWrite(pixx / 8, SET_TEXT_AREA)
        + OperandWrite(h.graphic, SET_GRAPHIC_HOME_ADDRESS) + OperandWrite(pixx / 8, SET_GRAPHIC_AREA)
        + EmitOperands(ops[4..]);
      StartupEvents(pixx, h) + EmitOperands([]);
      StartupEvents(pixx, h);
    }
    ParseEmitOperands(ops);
    var expected := [
      Operand(0x40, h.text % WORD16),
      Operand(0x41, pixx / 8 % WORD16),
      Operand(0x42, h.graphic % WORD16),
      Operand(0x43, pixx / 8 % WORD16),
      Operand(0x22, h.cg / 0x800 % WORD16)];
    forall i | 0 <= i < 5 ensures Truncated(ops)[i] == expected[i] {
    }
    assert Truncated(ops) == expected;
  }
}
