/** The two flag bytes the controller remembers, the display-mode byte and the
    mode-set byte, and the way a flag byte or a small operand is merged into
    an opcode (`LCD_DISPLAYMODE | _displaymode`, `LCD_BITSET | num`). Flag
    bytes are `bv8` so that the source's `|`, `&` and `~` are Dafny's own. */
module Flags {

  // Display-mode flags (RA6963.py:152-155)
  const CURSOR_BLINK: bv8 := 0x01
  const CURSOR_ON: bv8 := 0x02
  const TEXT_ON: bv8 := 0x04
  const GRAPHIC_ON: bv8 := 0x08

  // Mode-set options (RA6963.py:145-149)
  const MODE_OR: bv8 := 0x00
  const MODE_EXOR: bv8 := 0x01
  const MODE_AND: bv8 := 0x03
  const MODE_TEXT_ATTRIBUTE: bv8 := 0x04
  const EXTERNAL_CG_ROM: bv8 := 0x08

  /** The bits `modeset` clears first: `~(LCD_OR | LCD_EXOR | LCD_AND | LCD_TEXTATTRIBUTE)`. */
  const MODE_MASK: bv8 := MODE_OR | MODE_EXOR | MODE_AND | MODE_TEXT_ATTRIBUTE

  /** `b | mask` when `on`, `b & ~mask` otherwise: the bits of `mask` become
      all set or all clear and every other bit of `b` is kept. */
  function SetFlag(b: bv8, mask: bv8, on: bool): (r: bv8)
    ensures r & mask == (if on then mask else 0)
    ensures r & !mask == b & !mask
  {
    if on then b | mask else b & !mask
  }

  /** The combination bits `modeset(mode)` ORs in after clearing MODE_MASK:
      OR, EXOR, AND and text attribute for modes 1 to 4; any other mode
      matches none of the source's `if`s and adds nothing. */
  function ModeBits(mode: int): (r: bv8)
    ensures r & !MODE_MASK == 0
  {
    if mode == 1 then MODE_OR
    else if mode == 2 then MODE_EXOR
    else if mode == 3 then MODE_AND
    else if mode == 4 then MODE_TEXT_ATTRIBUTE
    else 0
  }

  /** The mode-set byte after `modeset(mode)`: the combination bits are
      replaced by ModeBits(mode) and every other bit, the external-CG bit
      included, is kept. */
  function ModeSetAfter(modeSet: bv8, mode: int): (r: bv8)
    ensures r & MODE_MASK == ModeBits(mode)
    ensures r & !MODE_MASK == modeSet & !MODE_MASK
  {
    (modeSet & !MODE_MASK) | ModeBits(mode)
  }

  /** The opcode byte `base | operand`. When the operand uses none of the
      base's bits the opcode is their sum, and the base's bits always survive. */
  function Compose(base: bv8, operand: bv8): (r: bv8)
    ensures r & base == base
    ensures base & operand == 0 ==> r == base + operand
  {
    base | operand
  }

  /** A flag byte that keeps to its low nibble, merged into an opcode whose
      low nibble is clear, travels intact: the command's high nibble is the
      opcode's and its low nibble is the flag byte. */
  lemma FlagCommand(base: bv8, flags: bv8)
    requires base & 0x0F == 0 && flags & 0xF0 == 0
    ensures Compose(base, flags) & 0xF0 == base
    ensures Compose(base, flags) & 0x0F == flags
  {
  }

  /** The low byte of an integer operand, as `c_ubyte` truncates it. */
  function LowByte(n: int): bv8
  {
    (n % 256) as bv8
  }
}
