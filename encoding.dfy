/** Byte-level encodings the controller hands to the bus: operands as
    little-endian 16-bit words (ctypes `c_uint16.__ctype_le__`) and glyph
    bitmaps as big-endian 64-bit words (ctypes `c_uint64.__ctype_be__`).
    ctypes truncates silently, so every encoder takes an unbounded `int` and
    keeps only its low bits; Dafny's `%` by a positive power of two is the
    two's-complement truncation ctypes performs, for negative values too. */
module Encoding {

  /** One byte on the data lines. */
  type Byte = b: int | 0 <= b < 256

  /** The range of a `c_uint16`. */
  const WORD16: int := 0x1_0000

  /** The value of two bytes read least significant first. */
  function FromLe16(b: seq<Byte>): (v: int)
    requires |b| == 2
    ensures 0 <= v < WORD16
  {
    b[0] as int + 256 * (b[1] as int)
  }

  /** The two bytes of `v` truncated to 16 bits, least significant first. */
  function Le16(v: int): (r: seq<Byte>)
    ensures |r| == 2
    ensures FromLe16(r) == v % WORD16
  {
    var w := v % WORD16;
    [w % 256, w / 256]
  }

  /** Encoding is the inverse of decoding: two bytes survive the round trip. */
  lemma Le16OfFromLe16(b: seq<Byte>)
    requires |b| == 2
    ensures Le16(FromLe16(b)) == b
  {
  }

  /** The bytes of an operand are its low byte and its second-lowest byte. */
  lemma Le16Bytes(v: int)
    ensures Le16(v) == [v % 256, v / 256 % 256]
  {
    ModSplit(v, 256);
    DivModUnique(v % WORD16, 256, v / 256 % 256, v % 256);
  }

  /** A cursor position (x, y) with both coordinates below 256 is sent as the
      word 256*y + x, whose bytes are exactly [x, y]. */
  lemma Le16OfCursor(x: int, y: int)
    requires 0 <= x < 256 && 0 <= y < 256
    ensures Le16(256 * y + x) == [x, y]
  {
  }

  /** 256 to the power n: the range of an n-byte word. */
  function Pow256(n: nat): (p: int)
    ensures p >= 1
  {
    if n == 0 then 1 else 256 * Pow256(n - 1)
  }

  /** The value of a byte sequence read most significant byte first. */
  function FromBigEndian(s: seq<Byte>): (v: int)
    ensures 0 <= v < Pow256(|s|)
  {
    if s == [] then 0
    else
      var hi := FromBigEndian(s[..|s| - 1]);
      assert hi * 256 <= (Pow256(|s| - 1) - 1) * 256;
      hi * 256 + s[|s| - 1]
  }

  /** The n low bytes of w, most significant first. */
  function BigEndian(w: int, n: nat): (r: seq<Byte>)
    ensures |r| == n
    ensures n > 0 ==> r[n - 1] == w % 256
    decreases n
  {
    if n == 0 then [] else BigEndian(w / 256, n - 1) + [w % 256]
  }

  /** Euclidean division is unique: a quotient and remainder that satisfy
      the defining equation are the ones `/` and `%` return. */
  lemma DivModUnique(a: int, d: int, q: int, m: int)
    requires d > 0 && 0 <= m < d && a == d * q + m
    ensures a / d == q && a % d == m
  {
    var q', m' := a / d, a % d;
    assert d * q + m == d * q' + m';
    if q > q' {
      MulAtLeast(d, q - q');
    } else if q < q' {
      MulAtLeast(d, q' - q);
    }
  }

  lemma MulAtLeast(d: int, x: int)
    requires d > 0 && x >= 1
    ensures d * x >= d
  {
  }

  /** Splitting off the lowest byte of a value truncated to 256*p. */
  lemma ModSplit(w: int, p: int)
    requires p > 0
    ensures (w / 256 % p) * 256 + w % 256 == w % (256 * p)
  {
    var q, r := w / 256, w % 256;
    var k, m := q / p, q % p;
    assert w == 256 * q + r;
    assert q == p * k + m;
    assert w == (256 * p) * k + (256 * m + r);
    assert 256 * m <= 256 * (p - 1);
    DivModUnique(w, 256 * p, k, 256 * m + r);
  }

  /** Decoding the n big-endian bytes of w gives back w truncated to n bytes. */
  lemma {:induction false} BigEndianRoundTrip(w: int, n: nat)
    ensures FromBigEndian(BigEndian(w, n)) == w % Pow256(n)
    decreases n
  {
    if n > 0 {
      var s := BigEndian(w, n);
      assert s[..n - 1] == BigEndian(w / 256, n - 1);
      BigEndianRoundTrip(w / 256, n - 1);
      ModSplit(w, Pow256(n - 1));
    }
  }

  /** Encoding a decoded byte sequence gives back the same bytes. */
  lemma {:induction false} BigEndianOfFromBigEndian(s: seq<Byte>)
    ensures BigEndian(FromBigEndian(s), |s|) == s
  {
    if s != [] {
      var init, last := s[..|s| - 1], s[|s| - 1];
      var v := FromBigEndian(s);
      DivModUnique(v, 256, FromBigEndian(init), last);
      BigEndianOfFromBigEndian(init);
      assert s == init + [last];
    }
  }

  /** A glyph row word as sent by `definechars`: eight bytes, most significant
      first, of the value truncated to 64 bits. */
  function Be64(g: int): (r: seq<Byte>)
    ensures |r| == 8
    ensures FromBigEndian(r) == g % Pow256(8)
  {
    BigEndianRoundTrip(g, 8);
    BigEndian(g, 8)
  }
}
