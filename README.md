# RA6963 graphic LCD controller driver — Dafny model

This project models the controller façade of a Raspberry Pi driver for
RA6963 (T6963C-class) graphic LCD controllers: the `RA6963` class, which
keeps a little chip state and turns every logical operation into a fixed,
ordered sequence of calls into a native parallel-bus engine.

- **Chip state** (`Controller.RA6963`): the display-mode flag byte
  (`_displaymode`), the mode-set flag byte (`_modeset`) and the text, graphic
  and character-generator (CG) home addresses. The screen size and the
  optional `addr` triple are fixed at construction.
- **Bus traffic**: the bus engine is an abstract recorder. Each of its
  primitives appends one `BusEvent` to `trace`: `Data(bytes)` for
  `writedata`, `Cmd(op)` for `writecommand`, `Read(n)` for `readdata` and
  `Status` for `readregister`. Every method states exactly which events it
  appends and how the fields change.
- **Encodings** (`Encoding`): operands are little-endian 16-bit words
  (`c_uint16.__ctype_le__`), glyph rows big-endian 64-bit words
  (`c_uint64.__ctype_be__`). ctypes truncates silently; the model truncates
  explicitly with `%`, which is two's-complement truncation for negative
  values too. Each encoder has a decoder, and round trips are proved both
  ways.
- **Operand framing** (`Protocol`): `ParseOperands` is what the chip reads
  from the bus. `ParseEmitOperands` proves that every opcode is recovered in
  order, with its operand truncated to 16 bits. `StartupDecodes` applies this
  to `startup`'s five set-up commands.
- **Flags** (`Flags`): flag bytes are `bv8`, so the source's `|`, `&` and `~`
  are Dafny's own operators. `SetFlag` and `ModeSetAfter` state which bits
  change and that all other bits are kept. The class invariant `Valid()`
  says that both flag bytes use only their low nibble and that the CG
  address is on a 2 KiB boundary. The constructor establishes it and every
  method keeps it. The flag methods use it to state that the whole flag byte
  travels in the command's low nibble (`Flags.FlagCommand`), and `cghome`
  uses it to return an aligned address.
- **Text** (`Text`): `writetext` (Python 2) removes newlines and lowers each
  byte by 32 in a `bytearray`. A byte below 32 makes the store raise
  `ValueError`. `EncodeText` is that loop, proved against `TextCodes`.

Points of the code's behaviour that the model keeps as written:

- The CG base is rounded down to a 2 KiB boundary (mask `0xF800`) when its
  low eleven bits are not all zero. An already aligned address is kept even
  above 0xFFFF. A misaligned one also loses its bits above 16.
- `startup` does not resend the current addresses. It re-derives all three
  from `addr` or from the defaults 0x0000/0x1000/0x7800, discarding whatever
  `settexthome`/`setgraphichome` stored.
- The opcode table is modelled as written. Write- and read-decrement are
  both 0xC2, and write- and read-non-variable are both 0xC4. `readdecrement`
  names the undefined `LCD_DATAREADDECREMENT`, so it always raises
  `NameError` before touching the bus.

Python's `//` and `>>` by a positive constant are Dafny's `/`. Python's `&`
with a small positive mask is Dafny's `%`: both are floor-based on negative
integers.

## Model

| member | source | states |
|---|---|---|
| `Encoding.Le16` | RA6963.py:233-234 | an operand is sent as exactly two bytes which, read least significant first, give the value truncated to 16 bits (c_uint16) |
| `Encoding.Le16Bytes` | RA6963.py:237-238 | the two operand bytes are `[v mod 256, (v div 256) mod 256]` for every integer v |
| `Encoding.Le16OfFromLe16` | RA6963.py:417-418 | encoding inverts decoding: any two bytes are the encoding of the word they form |
| `Encoding.Le16OfCursor` | RA6963.py:435-438 | the cursor word `256*y + x` is sent as the bytes `[x, y]` when both are below 256 |
| `Encoding.BigEndian` | RA6963.py:333-334 | the packing of a word into n bytes: exactly n bytes, the last being the low byte `w mod 256` |
| `Encoding.BigEndianRoundTrip` | RA6963.py:333-334 | decoding the n most-significant-first bytes of w gives w mod 256^n |
| `Encoding.BigEndianOfFromBigEndian` | RA6963.py:333-334 | re-encoding a decoded byte sequence gives the same bytes |
| `Encoding.Be64` | RA6963.py:333-334 | a glyph is eight bytes, most significant first, of its value truncated to 64 bits |
| `Flags.SetFlag` | RA6963.py:308-310 | setting or clearing a flag makes its bits all set or all clear and keeps every other bit of the byte |
| `Flags.ModeBits` | RA6963.py:361-364 | the combination bits `modeset` ORs in lie within mask 0x07 (0x00/0x01/0x03/0x04 for modes 1-4, none otherwise) |
| `Flags.ModeSetAfter` | RA6963.py:359-364 | after `modeset(m)` the low three bits are ModeBits(m) and all other bits, the external-CG bit included, are kept |
| `Flags.FlagCommand` | RA6963.py:311 | a flag byte within its low nibble ORed into 0x80 or 0x90 gives a command whose high nibble is the opcode's and whose low nibble is exactly the flag byte |
| `Flags.Compose` | RA6963.py:264-269 | `base OR operand` keeps the base's bits and is `base + operand` when they share no bit |
| `Protocol.HomesOf` | RA6963.py:224-231 | the `addr` triple when given; otherwise defaults in the order text < graphic < CG, with the CG home 2 KiB aligned at offset block 15 |
| `Protocol.CgOffset` | RA6963.py:252 | `cg >> 11` is the number of the 2 KiB block holding `cg`: `o*2048 <= cg < (o+1)*2048` |
| `Protocol.StartupEvents` | RA6963.py:233-254 | ten events: five two-byte data blocks, each followed by its opcode 0x40, 0x41, 0x42, 0x43, 0x22 in that order |
| `Protocol.AutoWrite` | RA6963.py:462-465 | a bulk transfer is three events, the data block between 0xB0 and 0xB2, and is never read as operand traffic |
| `Protocol.GlyphAddress` | RA6963.py:330 | custom character `location` keeps the CG home's 8-byte phase, and characters 0-127 fall in the upper kilobyte of the CG home's 2 KiB block |
| `Protocol.GlyphSlotsDisjoint` | RA6963.py:330 | two different character locations get non-overlapping 8-byte slots |
| `Protocol.OperandWrite` | RA6963.py:416-419 | a 16-bit operand is one two-byte data block decoding to the value mod 2^16, immediately followed by its opcode |
| `Protocol.ParseEmitOperands` | RA6963.py:233-254 | from a run of operand writes the chip recovers every opcode in order, each with its operand truncated to 16 bits |
| `Protocol.StartupDecodes` | RA6963.py:233-254 | `startup` sends ten events that decode to exactly five commands 0x40, 0x41, 0x42, 0x43, 0x22 with operands text home, `pixx//8`, graphic home, `pixx//8`, `cg >> 11` |
| `Protocol.AlignCg` | RA6963.py:249-251 | the CG address after `startup` is 2 KiB aligned; an aligned address is unchanged; a misaligned one becomes its 16-bit truncation rounded down to a 2 KiB boundary |
| `Protocol.CgOffsetRoundTrip` | RA6963.py:252-254 | for an aligned 16-bit CG address the offset register value `cg >> 11` is below 32, is sent as `[offset, 0]`, and times 2048 gives the address back |
| `Protocol.Zeros` | RA6963.py:294 | the clearing buffer holds n bytes, all zero |
| `Protocol.GlyphBlocks` | RA6963.py:332-334 | one 8-byte block per glyph, in list order, each decoding most significant byte first to the glyph mod 2^64 |
| `Protocol.DefaultGlyphAddress` | RA6963.py:329-330 | with the default CG home 0x7800 the first custom character goes to 0x7C00, pointer bytes `[0x00, 0x7C]` |
| `Text.StripNewlines` | RA6963.py:487 | removing newlines leaves no newline, never lengthens the text, and keeps every other byte with its count (the multiset of the text with the newline count set to zero) |
| `Text.StripNewlinesAppend` | RA6963.py:487 | newline removal distributes over concatenation, so the surviving bytes keep their order |
| `Text.StripNewlinesLength` | RA6963.py:487 | the result is exactly as much shorter as the text has newlines |
| `Text.StripNewlinesMembers` | RA6963.py:487 | a byte survives the newline removal exactly when it occurs in the text and is not a newline |
| `Text.StripNewlinesIdentity` | RA6963.py:487 | text without a newline is left unchanged |
| `Text.TextCodes` | RA6963.py:487-489 | the whole `writetext` transform: failure is always ValueError; on success there is one code per non-newline byte, each below 224 |
| `Text.TextCodesFails` | RA6963.py:487-489 | `writetext` raises exactly when the text holds a byte below 32 that is not a newline |
| `Text.TextCodesInverse` | RA6963.py:488-489 | adding 32 back to each character code gives the text with its newlines removed |
| `Text.EncodeText` | RA6963.py:487-489 | the in-place loop over the `bytearray` computes TextCodes, failing with ValueError at the first byte that would go negative |
| `Controller.RA6963.constructor` | RA6963.py:168-214 | both flag bytes start at zero, the homes come from `addr` or the defaults, and the trace is exactly one `startup` |
| `Controller.RA6963.Startup` | RA6963.py:217-254 | homes re-derived from `addr`/defaults, CG aligned, `rounded` iff the CG address was misaligned, five operand pairs appended, flag bytes untouched |
| `Controller.StartupIsIdempotent` | RA6963.py:224-231 | after `settexthome`/`setgraphichome` and two `startup`s the homes are those derived from `addr` |
| `Controller.RA6963.BitReset` | RA6963.py:264-265 | appends the single command `0xF0 OR num` (low byte) |
| `Controller.RA6963.BitSet` | RA6963.py:268-269 | appends the single command `0xF8 OR num` (low byte) |
| `Controller.RA6963.BlinkTime` | RA6963.py:272-275 | appends the 16-bit operand then 0x50 |
| `Controller.RA6963.CgHome` | RA6963.py:278-282 | appends the CG home with 0x24 and returns it, a 2 KiB aligned address; no field but the trace changes |
| `Controller.RA6963.CgRomFont` | RA6963.py:285-289 | font 1 sends word 2, any other value word 3, then 0x70 |
| `Controller.RA6963.ClearAll` | RA6963.py:292-305 | zero blocks of `pixx*pixy//8` bytes at graphic home, `pixx*pixy//64` at text home and 2048 at CG home, each framed by 0xB0 and 0xB2 |
| `Controller.RA6963.CursorBlink` | RA6963.py:308-311 | only bit 0x01 of the display-mode byte changes; the whole byte is sent as `0x90 OR mode`, whose high nibble is 0x9 and whose low nibble is the new byte |
| `Controller.RA6963.CursorDisplay` | RA6963.py:314-317 | only bit 0x02 of the display-mode byte changes; the whole byte is sent as `0x90 OR mode`, whose high nibble is 0x9 and whose low nibble is the new byte |
| `Controller.RA6963.CursorPattern` | RA6963.py:325-326 | appends the single command `0xA0 OR patt` (low byte) |
| `Controller.RA6963.DefineChars` | RA6963.py:329-335 | pointer to `cg + 128*8 + 8*location` with 0x24, then 0xB0, one big-endian 8-byte block per glyph in order, then 0xB2 |
| `Controller.RA6963.DisplayMode` | RA6963.py:338-343 | only bits 0x04 and 0x08 of the display-mode byte change; the whole byte is sent as `0x90 OR mode`, whose low nibble is the new byte |
| `Controller.RA6963.ExternalCg` | RA6963.py:346-349 | only bit 0x08 of the mode-set byte changes; the whole byte is sent as `0x80 OR modeset`, whose low nibble is the new byte |
| `Controller.RA6963.GraphicHome` | RA6963.py:352-356 | appends the graphic home with 0x24 and returns it |
| `Controller.RA6963.ModeSet` | RA6963.py:359-365 | mode-set byte becomes ModeSetAfter(old, m) and is sent as `0x80 OR modeset`, whose high nibble is 0x8 and whose low nibble is the new byte |
| `Controller.RA6963.ReadData` | RA6963.py:368-371 | bulk read framed as 0xB1, a read of n bytes, 0xB2 |
| `Controller.RA6963.ReadDecrement` | RA6963.py:374-378 | always raises NameError, with no bus traffic |
| `Controller.RA6963.ReadIncrement` | RA6963.py:381-385 | opcode 0xC1, then a one-byte read, whose byte is returned |
| `Controller.RA6963.ReadStatus` | RA6963.py:388-390 | one status-register read, whose value is returned |
| `Controller.RA6963.ReadNonVariable` | RA6963.py:393-397 | opcode 0xC4, then a one-byte read, whose byte is returned |
| `Controller.RA6963.ScreenCopy` | RA6963.py:400-401 | appends the single command 0xE8 |
| `Controller.RA6963.ScreenPeek` | RA6963.py:404-408 | opcode 0xE0, then a one-byte read, whose byte is returned |
| `Controller.RA6963.SetAddress` | RA6963.py:416-419 | appends the 16-bit address then 0x24 |
| `Controller.RA6963.SetCursor` | RA6963.py:435-438 | appends the word `256*y + x` then 0x21 |
| `Controller.RA6963.SetTextHome` | RA6963.py:441-445 | stores the text home and appends it with 0x40 |
| `Controller.RA6963.SetGraphicHome` | RA6963.py:448-452 | stores the graphic home and appends it with 0x42 |
| `Controller.RA6963.TextHome` | RA6963.py:455-459 | appends the text home with 0x24 and returns it |
| `Controller.RA6963.WriteData` | RA6963.py:462-465 | bulk write framed as 0xB0, the data block, 0xB2 |
| `Controller.RA6963.WriteDecrement` | RA6963.py:468-471 | one data byte (value mod 256), then 0xC2 |
| `Controller.RA6963.WriteIncrement` | RA6963.py:474-477 | one data byte (value mod 256), then 0xC0 |
| `Controller.RA6963.WriteNonVariable` | RA6963.py:480-483 | one data byte (value mod 256), then 0xC4 |
| `Controller.RA6963.WriteText` | RA6963.py:486-494 | on printable text: pointer to text home, then an auto-write of the character codes; otherwise ValueError and no bus traffic |

## Left out

- The native bus engine `parallel.so` (`initialise`, `writedata`, `writecommand`, `readdata`, `readregister`, `deinitialise`). Its timing, 4-bit nibble splitting and write-only detection are foreign code that is not part of this model. It appears only as the event trace.
- Bytes the chip returns: they come from hardware, so the read methods take them as a parameter (`answer`, `incoming`, `status`) and return them. Whether a write-only bus fails a read is decided by the engine and is not modelled.
- Backlight set-up and `setbacklight`: sysfs file I/O, `time.sleep`, a floating-point duty cycle and checks for whether directories exist.
- GPIO pin-mode and reset-pin writes in `__init__` and `startup`, and `close`: hardware and file side effects with no observable result beyond the call itself.
- `cursormove`: it stores the return value of the foreign `writecommand` into `_displaymode`, so its effect depends on the foreign call.
- `screenreverse`: it passes four arguments to a two-argument foreign function, so its behaviour depends on ctypes.
- The console message `startup` prints when it rounds the CG address is returned as the flag `rounded`.
- `Controller.RA6963.ClearAll`: requires `pixx*pixy//8 >= 2048`. Below that, the final 2048-byte write reads past the end of the numpy zero buffer, and what it sends is undefined.
- `Flags.LowByte` (the `c_ubyte` argument of `writecommand`): its value `n mod 256` is its definition only, not an `ensures`, because the solver does not prove the integer-to-`bv8` conversion reliably. The commands built from it are stated through `Flags.Compose`.
- `Controller.RA6963.DefineChars`: the Python default `location = 0` is not modelled, so callers pass the location explicitly.
- `Controller.RA6963.WriteData`: the pointer and byte count become one byte sequence of that length. `Controller.RA6963.ReadData` likewise returns the bytes instead of filling a caller's buffer.
- `Controller.RA6963.WriteText`: models Python 2, where `bytearray(str)` takes the string's bytes and `str(bytearray)` gives them back. Under Python 3 the call raises before any bus traffic.
- The `addr` triple is a constant of the object. The source keeps it as a public attribute that callers could reassign between `startup` calls.
- `Controller.RA6963.CgHome`, `GraphicHome`, `TextHome` and the other trace-only methods state "no other field changes" through their `modifies this`trace` frame, not through an `ensures` clause.
