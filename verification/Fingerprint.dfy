/** 64-bit FNV-1a over the UTF-8 bytes of a text. */
module Fingerprint {

  type Byte = b: int | 0 <= b < 256

  /** UTF-8 encoding of one code point. */
  function Utf8Char(c: char): seq<Byte> {
    var n := c as int;
    if n < 0x80 then [n]
    else if n < 0x800 then [0xC0 + n / 0x40, 0x80 + n % 0x40]
    else if n < 0x1_0000 then [0xE0 + n / 0x1000, 0x80 + n / 0x40 % 0x40, 0x80 + n % 0x40]
    else [0xF0 + n / 0x4_0000 % 8, 0x80 + n / 0x1000 % 0x40, 0x80 + n / 0x40 % 0x40, 0x80 + n % 0x40]
  }

  function Utf8(s: string): seq<Byte> {
    if s == "" then [] else Utf8(s[..|s| - 1]) + Utf8Char(s[|s| - 1])
  }

  const OFFSET_BASIS: int := 14695981039346656037
  const PRIME: int := 1099511628211
  const TWO_TO_64: int := 0x1_0000_0000_0000_0000

  type Word64 = h: int | 0 <= h < 0x1_0000_0000_0000_0000

  /** h ^ b: only the low byte of `h` changes. */
  function XorByte(h: Word64, b: Byte): Word64 {
    var low := ((h % 256) as bv8 ^ b as bv8) as int;
    assert h / 256 <= 0xFF_FFFF_FFFF_FFFF;
    h / 256 * 256 + low
  }

  function Mix(h: Word64, b: Byte): Word64 {
    XorByte(h, b) * PRIME % TWO_TO_64
  }

  function Fnv(bytes: seq<Byte>): Word64 {
    if bytes == [] then OFFSET_BASIS else Mix(Fnv(bytes[..|bytes| - 1]), bytes[|bytes| - 1])
  }

  method Fingerprint64(bytes: seq<Byte>) returns (h: Word64)
    ensures h == Fnv(bytes)
  {
    h := OFFSET_BASIS;
    for i := 0 to |bytes|
      invariant h == Fnv(bytes[..i])
    {
      assert bytes[..i + 1][..i] == bytes[..i];
      h := Mix(h, bytes[i]);
    }
    assert bytes[..|bytes|] == bytes;
  }

  /** Encodings of one to four bytes. */
  lemma Utf8Examples()
    ensures Utf8Char('A') == [0x41] && Utf8Char('\U{E9}') == [0xC3, 0xA9]
    ensures Utf8Char('\U{6587}') == [0xE6, 0x96, 0x87] && Utf8Char('\U{1F600}') == [0xF0, 0x9F, 0x98, 0x80]
  {
  }

  /** The code point that one to four bytes encode. */
  function Decoded(b: seq<Byte>): int {
    if |b| == 1 then b[0] as int
    else if |b| == 2 then (b[0] as int - 0xC0) * 0x40 + (b[1] as int - 0x80)
    else if |b| == 3 then (b[0] as int - 0xE0) * 0x1000 + (b[1] as int - 0x80) * 0x40 + (b[2] as int - 0x80)
    else if |b| == 4 then
      (b[0] as int - 0xF0) * 0x4_0000 + (b[1] as int - 0x80) * 0x1000 + (b[2] as int - 0x80) * 0x40
        + (b[3] as int - 0x80)
    else 0
  }

  /** Decoding gives back the character. */
  lemma Utf8RoundTrip(c: char)
    ensures Decoded(Utf8Char(c)) == c as int
  {
    var n := c as int;
    var high, top := n / 0x40, n / 0x1000;
    assert top == high / 0x40 && n / 0x4_0000 == top / 0x40;
    assert n == high * 0x40 + n % 0x40 && high == top * 0x40 + high % 0x40;
    assert top == n / 0x4_0000 * 0x40 + top % 0x40;
  }

  /** The published values for the empty text and for "a". */
  lemma FnvExamples()
    ensures Fnv([]) == 0xCBF2_9CE4_8422_2325 && Fnv([0x61]) == 0xAF63_DC4C_8601_EC8C
  {
    assert [0x61][..0] == [];
    assert XorByte(0xCBF2_9CE4_8422_2325, 0x61) == 0xCBF2_9CE4_8422_2344;
  }
}
