/** Bytes and 16-bit words of the Z80 address space, and the little-endian
    encoding the CP/M tables store their pointers in. */
module Bytes {

  /** An 8-bit cell (`uint8_t`). */
  type Byte = b: int | 0 <= b < 0x100

  /** A 16-bit address or word (`uint16_t`). */
  type Word = w: int | 0 <= w < 0x1_0000

  datatype Option<T> = None | Some(value: T)

  /** The low byte of a word, `w & 0xFF`. */
  function Lo(w: Word): Byte {
    w % 0x100
  }

  /** The high byte of a word, `w >> 8`. */
  function Hi(w: Word): Byte {
    w / 0x100
  }

  /** The word stored little-endian as the byte pair `lo`, `hi`. */
  function LeWord(lo: Byte, hi: Byte): Word {
    lo + 0x100 * hi
  }

  /** Splitting a word into its two bytes and reading them back is lossless. */
  lemma WordRoundTrip(w: Word)
    ensures LeWord(Lo(w), Hi(w)) == w
  {
  }

  /** Reading a byte pair as a word and splitting it again is lossless. */
  lemma PairRoundTrip(lo: Byte, hi: Byte)
    ensures Lo(LeWord(lo, hi)) == lo && Hi(LeWord(lo, hi)) == hi
  {
  }
}
