/**
 * The byte image of an `f32` on the serial line: `f32::to_le_bytes` and
 * `f32::from_le_bytes`.
 *
 * A float is first turned into its 32-bit IEEE-754 pattern and that word is
 * then split into four bytes, least significant first.  The second step is
 * exact and is modelled here in full; the first (rounding a real to single
 * precision, and reading a pattern back as a real) is the pair of functions
 * in a `FloatCodec`, which the model keeps abstract.
 */
module Float32 {

  /** One octet on the wire. */
  type Byte = bv8

  /** The IEEE-754 single-precision encoding, kept abstract. */
  datatype FloatCodec = FloatCodec(toBits: real -> bv32, fromBits: bv32 -> real)

  /** `x` survives the trip through its single-precision pattern. */
  predicate Representable(c: FloatCodec, x: real) {
    c.fromBits(c.toBits(x)) == x
  }

  /** The four bytes of a 32-bit word, least significant first. */
  function WordToLe(w: bv32): (r: seq<Byte>)
    ensures |r| == 4
  {
    [(w & 0xFF) as Byte, ((w >> 8) & 0xFF) as Byte, ((w >> 16) & 0xFF) as Byte, (w >> 24) as Byte]
  }

  /** The 32-bit word whose little-endian bytes are `s`. */
  function LeToWord(s: seq<Byte>): bv32
    requires |s| == 4
  {
    (s[0] as bv32) | ((s[1] as bv32) << 8) | ((s[2] as bv32) << 16) | ((s[3] as bv32) << 24)
  }

  /** Reading back the bytes of a word gives the word. */
  lemma LeToWordOfWordToLe(w: bv32)
    ensures LeToWord(WordToLe(w)) == w
  {
  }

  /** Every 4-byte group is the image of exactly one word. */
  lemma WordToLeOfLeToWord(s: seq<Byte>)
    requires |s| == 4
    ensures WordToLe(LeToWord(s)) == s
  {
    BytesOfWord(s[0], s[1], s[2], s[3]);
    assert s == [s[0], s[1], s[2], s[3]];
  }

  /** The shifts and masks of `WordToLe` recover the bytes `LeToWord` packed. */
  lemma BytesOfWord(b0: Byte, b1: Byte, b2: Byte, b3: Byte)
    ensures var w: bv32 := (b0 as bv32) | ((b1 as bv32) << 8) | ((b2 as bv32) << 16) | ((b3 as bv32) << 24);
      && (w & 0xFF) as Byte == b0 && ((w >> 8) & 0xFF) as Byte == b1
      && ((w >> 16) & 0xFF) as Byte == b2 && (w >> 24) as Byte == b3
  {
  }

  /** `f32::to_le_bytes`. */
  function ToLeBytes(c: FloatCodec, x: real): (r: seq<Byte>)
    ensures |r| == 4
    ensures LeToWord(r) == c.toBits(x)
  {
    LeToWordOfWordToLe(c.toBits(x));
    WordToLe(c.toBits(x))
  }

  /** `f32::from_le_bytes`. */
  function FromLeBytes(c: FloatCodec, s: seq<Byte>): real
    requires |s| == 4
  {
    c.fromBits(LeToWord(s))
  }

  /** Decoding the bytes of `x` gives the float whose pattern `x` was rounded to. */
  lemma FromLeBytesOfToLeBytes(c: FloatCodec, x: real)
    ensures FromLeBytes(c, ToLeBytes(c, x)) == c.fromBits(c.toBits(x))
    ensures Representable(c, x) ==> FromLeBytes(c, ToLeBytes(c, x)) == x
  {
  }
}
