/** The RA6963 controller façade: the chip state the driver remembers (the
    display-mode and mode-set flag bytes and the three home addresses) and,
    for every operation, the ordered bus traffic it produces. `trace` is the
    history of calls into the native bus engine, which is not modelled
    beyond that. */
module Controller {
  import opened Encoding
  import opened Outcomes
  import opened Flags
  import opened Protocol
  import Text

  class RA6963 {
    /** Screen width and height in pixels. */
    const pixx: int
    const pixy: int
    /** Caller-chosen text, graphic and CG home addresses, if any. */
    const addr: Option<Homes>

    /** `_displaymode`: cursor blink, cursor on, text on, graphic on. */
    var displayMode: bv8
    /** `_modeset`: combination mode bits and the external-CG bit. */
    var modeSet: bv8
    var textAddress: int
    var graphicAddress: int
    var cgAddress: int
    /** Every call made into the bus engine, oldest first. */
    var trace: seq<BusEvent>

    /** The flag bytes only ever hold their four defined flags, so the
        commands built from them stay within 0x80-0x8F and 0x90-0x9F; the CG
        address is always on a 2 KiB boundary. */
    ghost predicate Valid()
      reads this`displayMode, this`modeSet, this`cgAddress
    {
      displayMode & 0xF0 == 0 && modeSet & 0xF0 == 0 && cgAddress % 0x800 == 0
    }

    /** `__init__` without the backlight and GPIO set-up: both flag bytes
        start at zero and `startup` runs once. */
    constructor (pixx: int, pixy: int, addr: Option<Homes>)
      ensures Valid()
      ensures this.pixx == pixx && this.pixy == pixy && this.addr == addr
      ensures displayMode == 0 && modeSet == 0
      ensures textAddress == HomesOf(addr).text && graphicAddress == HomesOf(addr).graphic
      ensures cgAddress == AlignCg(HomesOf(addr).cg)
      ensures trace == StartupEvents(pixx, Homes(textAddress, graphicAddress, cgAddress))
    {
      this.pixx := pixx;
      this.pixy := pixy;
      this.addr := addr;
      displayMode := 0;
      modeSet := 0;
      textAddress, graphicAddress, cgAddress := 0, 0, 0;
      trace := [];
      new;
      var _ := Startup();
    }

    /** `startup`: re-derives all three homes from `addr` or the defaults,
        discarding earlier `settexthome`/`setgraphichome` values, rounds a
        misaligned CG address down (`rounded` reports the console message)
        and sends the five set-up commands. */
    method Startup() returns (rounded: bool)
      requires Valid()
      modifies this`textAddress, this`graphicAddress, this`cgAddress, this`trace
      ensures Valid()
      ensures textAddress == HomesOf(addr).text && graphicAddress == HomesOf(addr).graphic
      ensures cgAddress == AlignCg(HomesOf(addr).cg)
      ensures rounded == CgMisaligned(HomesOf(addr).cg)
      ensures trace == old(trace) + StartupEvents(pixx, Homes(textAddress, graphicAddress, cgAddress))
    {
      var h := HomesOf(addr);
      textAddress := h.text;
      graphicAddress := h.graphic;
      cgAddress := h.cg;
      trace := trace + OperandWrite(textAddress, SET_TEXT_HOME_ADDRESS);
      trace := trace + OperandWrite(pixx / 8, SET_TEXT_AREA);
      trace := trace + OperandWrite(graphicAddress, SET_GRAPHIC_HOME_ADDRESS);
      trace := trace + OperandWrite(pixx / 8, SET_GRAPHIC_AREA);
      rounded := CgMisaligned(cgAddress);
      if rounded {
        cgAddress := cgAddress % WORD16 - cgAddress % 0x800;
      }
      trace := trace + OperandWrite(CgOffset(cgAddress), SET_OFFSET_REGISTER);
    }

    /** `bitreset(num)`: one command, 0xF0 with the low byte of `num` ORed in. */
    method BitReset(num: int)
      modifies this`trace
      ensures trace == old(trace) + [Cmd(Compose(BIT_RESET, LowByte(num)))]
    {
      trace := trace + [Cmd(BIT_RESET | LowByte(num))];
    }

    /** `bitset(num)`: one command, 0xF8 with the low byte of `num` ORed in. */
    method BitSet(num: int)
      modifies this`trace
      ensures trace == old(trace) + [Cmd(Compose(BIT_SET, LowByte(num)))]
    {
      trace := trace + [Cmd(BIT_SET | LowByte(num))];
    }

    /** `blinktime(num)`: the 16-bit operand, then 0x50. */
    method BlinkTime(num: int)
      modifies this`trace
      ensures trace == old(trace) + OperandWrite(num, BLINK_TIME)
    {
      trace := trace + OperandWrite(num, BLINK_TIME);
    }

    /** `cghome`: points the address pointer at the CG home and returns it. */
    method CgHome() returns (a: int)
      requires Valid()
      modifies this`trace
      ensures a == cgAddress && a % 0x800 == 0
      ensures trace == old(trace) + OperandWrite(cgAddress, SET_ADDRESS_POINTER)
    {
      trace := trace + OperandWrite(cgAddress, SET_ADDRESS_POINTER);
      a := cgAddress;
    }

    /** `graphichome`: points the address pointer at the graphic home and returns it. */
    method GraphicHome() returns (a: int)
      modifies this`trace
      ensures a == graphicAddress
      ensures trace == old(trace) + OperandWrite(graphicAddress, SET_ADDRESS_POINTER)
    {
      trace := trace + OperandWrite(graphicAddress, SET_ADDRESS_POINTER);
      a := graphicAddress;
    }

    /** `texthome`: points the address pointer at the text home and returns it. */
    method TextHome() returns (a: int)
      modifies this`trace
      ensures a == textAddress
      ensures trace == old(trace) + OperandWrite(textAddress, SET_ADDRESS_POINTER)
    {
      trace := trace + OperandWrite(textAddress, SET_ADDRESS_POINTER);
      a := textAddress;
    }

    /** `cgromfont(num)`: font 1 sends the word 2, anything else the word 3,
        then 0x70. */
    method CgRomFont(num: int)
      modifies this`trace
      ensures trace == old(trace) + OperandWrite(if num == 1 then 2 else 3, CG_ROM_FONT_SELECT)
    {
      var font := if num == 1 then 0x0002 else 0x0003;
      trace := trace + OperandWrite(font, CG_ROM_FONT_SELECT);
    }

    /** `clearall`: zero-fills graphic memory (pixx*pixy//8 bytes), text memory
        (pixx*pixy//64 bytes) and CG memory (2048 bytes), each as a pointer
        move followed by one auto-write block. The three blocks are prefixes
        of one zero buffer of pixx*pixy//8 bytes, which must therefore hold
        the 2048 bytes of the last one. */
    method ClearAll()
      requires Valid() && pixx * pixy / 8 >= 2048
      modifies this`trace
      ensures trace == old(trace)
        + OperandWrite(graphicAddress, SET_ADDRESS_POINTER) + AutoWrite(Zeros(pixx * pixy / 8))
        + OperandWrite(textAddress, SET_ADDRESS_POINTER) + AutoWrite(Zeros(pixx * pixy / 64))
        + OperandWrite(cgAddress, SET_ADDRESS_POINTER) + AutoWrite(Zeros(2048))
    {
      var area := pixx * pixy;
      var zeros := Zeros(area / 8);
      assert zeros[..area / 64] == Zeros(area / 64);
      assert zeros[..2048] == Zeros(2048);
      var _ := GraphicHome();
      trace := trace + [Cmd(SET_DATA_AUTO_WRITE), Data(zeros), Cmd(AUTO_RESET)];
      var _ := TextHome();
      trace := trace + [Cmd(SET_DATA_AUTO_WRITE), Data(zeros[..area / 64]), Cmd(AUTO_RESET)];
      var _ := CgHome();
      trace := trace + [Cmd(SET_DATA_AUTO_WRITE), Data(zeros[..2048]), Cmd(AUTO_RESET)];
    }

    /** `cursorblink(blink)`: sets or clears bit 0x01 only, then sends the
        whole display-mode byte. */
    method CursorBlink(blink: bool)
      requires Valid()
      modifies this`displayMode, this`trace
      ensures Valid()
      ensures displayMode == SetFlag(old(displayMode), CURSOR_BLINK, blink)
      ensures trace == old(trace) + [Cmd(Compose(DISPLAY_MODE, displayMode))]
      ensures trace[|trace| - 1].op & 0xF0 == DISPLAY_MODE && trace[|trace| - 1].op & 0x0F == displayMode
    {
      if blink { displayMode := displayMode | CURSOR_BLINK; }
      else { displayMode := displayMode & !CURSOR_BLINK; }
      FlagCommand(DISPLAY_MODE, displayMode);
      trace := trace + [Cmd(DISPLAY_MODE | displayMode)];
    }

    /** `cursordisplay(display)`: sets or clears bit 0x02 only, then sends the
        whole display-mode byte. */
    method CursorDisplay(display: bool)
      requires Valid()
      modifies this`displayMode, this`trace
      ensures Valid()
      ensures displayMode == SetFlag(old(displayMode), CURSOR_ON, display)
      ensures trace == old(trace) + [Cmd(Compose(DISPLAY_MODE, displayMode))]
      ensures trace[|trace| - 1].op & 0xF0 == DISPLAY_MODE && trace[|trace| - 1].op & 0x0F == displayMode
    {
      if display { displayMode := displayMode | CURSOR_ON; }
      else { displayMode := displayMode & !CURSOR_ON; }
      FlagCommand(DISPLAY_MODE, displayMode);
      trace := trace + [Cmd(DISPLAY_MODE | displayMode)];
    }

    /** `displaymode(text, graphic)`: sets or clears bits 0x04 and 0x08 only,
        then sends the whole display-mode byte. */
    method DisplayMode(text: bool, graphic: bool)
      requires Valid()
      modifies this`displayMode, this`trace
      ensures Valid()
      ensures displayMode == SetFlag(SetFlag(old(displayMode), TEXT_ON, text), GRAPHIC_ON, graphic)
      ensures trace == old(trace) + [Cmd(Compose(DISPLAY_MODE, displayMode))]
      ensures trace[|trace| - 1].op & 0xF0 == DISPLAY_MODE && trace[|trace| - 1].op & 0x0F == displayMode
    {
      if text { displayMode := displayMode | TEXT_ON; }
      else { displayMode := displayMode & !TEXT_ON; }
      if graphic { displayMode := displayMode | GRAPHIC_ON; }
      else { displayMode := displayMode & !GRAPHIC_ON; }
      FlagCommand(DISPLAY_MODE, displayMode);
      trace := trace + [Cmd(DISPLAY_MODE | displayMode)];
    }

    /** `cursorpattern(patt)`: one command, 0xA0 with the low byte of `patt` ORed in. */
    method CursorPattern(patt: int)
      modifies this`trace
      ensures trace == old(trace) + [Cmd(Compose(CURSOR_PATTERN_SELECT, LowByte(patt)))]
    {
      trace := trace + [Cmd(CURSOR_PATTERN_SELECT | LowByte(patt))];
    }

    /** `definechars(chars, location)`: points at CG slot 128 + location, then
        one auto-write run of one big-endian 8-byte block per glyph. */
    method DefineChars(glyphs: seq<int>, location: int)
      modifies this`trace
      ensures trace == old(trace)
        + OperandWrite(GlyphAddress(cgAddress, location), SET_ADDRESS_POINTER)
        + [Cmd(SET_DATA_AUTO_WRITE)] + GlyphBlocks(glyphs) + [Cmd(AUTO_RESET)]
    {
      SetAddress(GlyphAddress(cgAddress, location));
      trace := trace + [Cmd(SET_DATA_AUTO_WRITE)];
      ghost var before := trace;
      var i := 0;
      while i < |glyphs|
        invariant 0 <= i <= |glyphs|
        invariant trace == before + GlyphBlocks(glyphs[..i])
      {
        assert GlyphBlocks(glyphs[..i + 1]) == GlyphBlocks(glyphs[..i]) + [Data(Be64(glyphs[i]))];
        trace := trace + [Data(Be64(glyphs[i]))];
        i := i + 1;
      }
      assert glyphs[..i] == glyphs;
      trace := trace + [Cmd(AUTO_RESET)];
    }

    /** `externalcg(on)`: sets or clears bit 0x08 only, then sends the whole
        mode-set byte. */
    method ExternalCg(on: bool)
      requires Valid()
      modifies this`modeSet, this`trace
      ensures Valid()
      ensures modeSet == SetFlag(old(modeSet), EXTERNAL_CG_ROM, on)
      ensures trace == old(trace) + [Cmd(Compose(MODE_SET, modeSet))]
      ensures trace[|trace| - 1].op & 0xF0 == MODE_SET && trace[|trace| - 1].op & 0x0F == modeSet
    {
      if on { modeSet := modeSet | EXTERNAL_CG_ROM; }
      else { modeSet := modeSet & !EXTERNAL_CG_ROM; }
      FlagCommand(MODE_SET, modeSet);
      trace := trace + [Cmd(MODE_SET | modeSet)];
    }

    /** `modeset(mode)`: clears the three combination bits, sets those of
        `mode`, keeps the external-CG bit, then sends the whole mode-set byte. */
    method ModeSet(mode: int)
      requires Valid()
      modifies this`modeSet, this`trace
      ensures Valid()
      ensures modeSet == ModeSetAfter(old(modeSet), mode)
      ensures trace == old(trace) + [Cmd(Compose(MODE_SET, modeSet))]
      ensures trace[|trace| - 1].op & 0xF0 == MODE_SET && trace[|trace| - 1].op & 0x0F == modeSet
    {
      modeSet := modeSet & !(MODE_OR | MODE_EXOR | MODE_AND | MODE_TEXT_ATTRIBUTE);
      if mode == 1 { modeSet := modeSet | MODE_OR; }
      if mode == 2 { modeSet := modeSet | MODE_EXOR; }
      if mode == 3 { modeSet := modeSet | MODE_AND; }
      if mode == 4 { modeSet := modeSet | MODE_TEXT_ATTRIBUTE; }
      FlagCommand(MODE_SET, modeSet);
      trace := trace + [Cmd(MODE_SET | modeSet)];
    }

    /** `readdata(datapos, datanum)`: an auto-read run of `count` bytes;
        `incoming` is what the chip drives onto the data lines. */
    method ReadData(count: nat, incoming: seq<Byte>) returns (r: seq<Byte>)
      requires |incoming| == count
      modifies this`trace
      ensures r == incoming
      ensures trace == old(trace) + [Cmd(SET_DATA_AUTO_READ), Read(count), Cmd(AUTO_RESET)]
    {
      trace := trace + [Cmd(SET_DATA_AUTO_READ), Read(count), Cmd(AUTO_RESET)];
      r := incoming;
    }

    /** `readdecrement`: looks up `LCD_DATAREADDECREMENT`, which is never
        defined, so it raises NameError before reaching the bus. */
    method ReadDecrement() returns (r: Result<Byte>)
      ensures r == Err(NameError)
    {
      r := Err(NameError);
    }

    /** `readincrement`: opcode 0xC1, then a one-byte read. */
    method ReadIncrement(answer: Byte) returns (r: Byte)
      modifies this`trace
      ensures r == answer
      ensures trace == old(trace) + [Cmd(DATA_READ_INCREMENT), Read(1)]
    {
      trace := trace + [Cmd(DATA_READ_INCREMENT)];
      var bytes := [answer];
      trace := trace + [Read(1)];
      r := bytes[0];
    }

    /** `readonvariable`: opcode 0xC4 (the same value as write-non-variable),
        then a one-byte read. */
    method ReadNonVariable(answer: Byte) returns (r: Byte)
      modifies this`trace
      ensures r == answer
      ensures trace == old(trace) + [Cmd(DATA_READ_NON_VARIABLE), Read(1)]
    {
      trace := trace + [Cmd(DATA_READ_NON_VARIABLE)];
      var bytes := [answer];
      trace := trace + [Read(1)];
      r := bytes[0];
    }

    /** `screenpeek`: opcode 0xE0, then a one-byte read. */
    method ScreenPeek(answer: Byte) returns (r: Byte)
      modifies this`trace
      ensures r == answer
      ensures trace == old(trace) + [Cmd(SCREEN_PEEK), Read(1)]
    {
      trace := trace + [Cmd(SCREEN_PEEK)];
      var bytes := [answer];
      trace := trace + [Read(1)];
      r := bytes[0];
    }

    /** `readstatus`: one read of the status register; `status` is what the
        register holds. */
    method ReadStatus(status: int) returns (r: int)
      modifies this`trace
      ensures r == status
      ensures trace == old(trace) + [Status]
    {
      trace := trace + [Status];
      r := status;
    }

    /** `screencopy`: the single command 0xE8. */
    method ScreenCopy()
      modifies this`trace
      ensures trace == old(trace) + [Cmd(SCREEN_COPY)]
    {
      trace := trace + [Cmd(SCREEN_COPY)];
    }

    /** `setaddress(value)`: the 16-bit address, then 0x24. */
    method SetAddress(value: int)
      modifies this`trace
      ensures trace == old(trace) + OperandWrite(value, SET_ADDRESS_POINTER)
    {
      trace := trace + OperandWrite(value, SET_ADDRESS_POINTER);
    }

    /** `setcursor(x, y)`: the single word 256*y + x, then 0x21. */
    method SetCursor(x: int, y: int)
      modifies this`trace
      ensures trace == old(trace) + OperandWrite(256 * y + x, SET_CURSOR_POINTER)
    {
      trace := trace + OperandWrite(256 * y + x, SET_CURSOR_POINTER);
    }

    /** `settexthome(value)`: stores the address, then sends it with 0x40. */
    method SetTextHome(value: int)
      modifies this`textAddress, this`trace
      ensures textAddress == value
      ensures trace == old(trace) + OperandWrite(value, SET_TEXT_HOME_ADDRESS)
    {
      textAddress := value;
      trace := trace + OperandWrite(value, SET_TEXT_HOME_ADDRESS);
    }

    /** `setgraphichome(value)`: stores the address, then sends it with 0x42. */
    method SetGraphicHome(value: int)
      modifies this`graphicAddress, this`trace
      ensures graphicAddress == value
      ensures trace == old(trace) + OperandWrite(value, SET_GRAPHIC_HOME_ADDRESS)
    {
      graphicAddress := value;
      trace := trace + OperandWrite(value, SET_GRAPHIC_HOME_ADDRESS);
    }

    /** `writedata(datapos, datanum)`: one auto-write run of the given bytes. */
    method WriteData(data: seq<Byte>)
      modifies this`trace
      ensures trace == old(trace) + AutoWrite(data)
    {
      trace := trace + [Cmd(SET_DATA_AUTO_WRITE), Data(data), Cmd(AUTO_RESET)];
    }

    /** `writedecrement(value)`: the low byte of `value`, then 0xC2. */
    method WriteDecrement(value: int)
      modifies this`trace
      ensures trace == old(trace) + [Data([value % 256]), Cmd(DATA_WRITE_DECREMENT)]
    {
      trace := trace + [Data([value % 256]), Cmd(DATA_WRITE_DECREMENT)];
    }

    /** `writeincrement(value)`: the low byte of `value`, then 0xC0. */
    method WriteIncrement(value: int)
      modifies this`trace
      ensures trace == old(trace) + [Data([value % 256]), Cmd(DATA_WRITE_INCREMENT)]
    {
      trace := trace + [Data([value % 256]), Cmd(DATA_WRITE_INCREMENT)];
    }

    /** `writeonvariable(value)`: the low byte of `value`, then 0xC4. */
    method WriteNonVariable(value: int)
      modifies this`trace
      ensures trace == old(trace) + [Data([value % 256]), Cmd(DATA_WRITE_NON_VARIABLE)]
    {
      trace := trace + [Data([value % 256]), Cmd(DATA_WRITE_NON_VARIABLE)];
    }

    /** `writetext(text)`: when every non-newline byte is at least 32, points
        at the text home and auto-writes the character codes; otherwise
        raises ValueError before any bus traffic. */
    method WriteText(text: seq<Byte>) returns (r: Result<()>)
      modifies this`trace
      ensures Text.TextCodes(text).Err? ==> r == Err(ValueError) && trace == old(trace)
      ensures Text.TextCodes(text).Ok? ==>
        r == Ok(()) &&
        trace == old(trace) + OperandWrite(textAddress, SET_ADDRESS_POINTER)
                 + AutoWrite(Text.TextCodes(text).value)
    {
      var codes := Text.EncodeText(text);
      if codes.Err? {
        return Err(codes.error);
      }
      var _ := TextHome();
      WriteData(codes.value);
      r := Ok(());
    }
  }

  /** Whatever homes were set since, `startup` brings back those derived from
      `addr`, and running it again changes none of them. */
  method StartupIsIdempotent(lcd: RA6963, text: int, graphic: int)
    requires lcd.Valid()
    modifies lcd`textAddress, lcd`graphicAddress, lcd`cgAddress, lcd`trace
    ensures lcd.Valid()
    ensures lcd.textAddress == HomesOf(lcd.addr).text
    ensures lcd.graphicAddress == HomesOf(lcd.addr).graphic
    ensures lcd.cgAddress == AlignCg(HomesOf(lcd.addr).cg)
  {
    lcd.SetTextHome(text);
    lcd.SetGraphicHome(graphic);
    var _ := lcd.Startup();
    var t, g, c := lcd.textAddress, lcd.graphicAddress, lcd.cgAddress;
    var _ := lcd.Startup();
    assert lcd.textAddress == t && lcd.graphicAddress == g && lcd.cgAddress == c;
  }
}
