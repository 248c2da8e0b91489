/**
 * The seven bytes thread creation writes onto a new thread's stack so that the
 * scheduler can "return" into the bootstrap routine as if the thread had
 * yielded, and the bootstrap routine can then pop the thread id and argument
 * and jump to the entry point.
 *
 * Code addresses and the argument pointer are 16-bit values; each is stored as
 * two bytes, the high byte at the lower address.
 */
module Frame {
  import opened Masks

  /** An unsigned 16-bit value: a code address or a data pointer. */
  type Uint16 = x: int | 0 <= x < 0x1_0000

  /** Offset, from the saved stack pointer, of the first byte written. */
  const FRAME_FIRST: nat := 19

  /** Offset, from the saved stack pointer, of the last byte written. */
  const FRAME_LAST: nat := 25

  /** The number of bytes written. */
  const FRAME_BYTES: nat := FRAME_LAST - FRAME_FIRST + 1

  /** `x & 0x00FF`, stored in a byte. */
  function Lo(x: Uint16): Uint8 {
    x % 0x100
  }

  /** `x >> 8`, stored in a byte. */
  function Hi(x: Uint16): Uint8 {
    x / 0x100
  }

  /** The 16-bit value whose high and low bytes are given. */
  function Word(hi: Uint8, lo: Uint8): Uint16 {
    hi * 0x100 + lo
  }

  /**
   * The bytes at offsets 19..25 of a new thread's stack, in address order:
   * bootstrap address high and low, thread id, argument high and low, entry
   * point high and low. The 18 bytes below them are popped into callee-saved
   * registers and their values do not matter, so they are not written.
   */
  function InitialFrame(t: Uint8, entry: Uint16, arg: Uint16, bootstrap: Uint16): (f: seq<Uint8>)
    ensures |f| == FRAME_BYTES
  {
    [Hi(bootstrap), Lo(bootstrap), t, Hi(arg), Lo(arg), Hi(entry), Lo(entry)]
  }

  /** What the bootstrap path reads back out of a frame. */
  datatype FrameFields = FrameFields(entry: Uint16, arg: Uint16, id: Uint8, bootstrap: Uint16)

  /** Reads the fields back out of the seven frame bytes. */
  function DecodeFrame(f: seq<Uint8>): FrameFields
    requires |f| == FRAME_BYTES
  {
    FrameFields(Word(f[5], f[6]), Word(f[3], f[4]), f[2], Word(f[0], f[1]))
  }

  /** Splitting a 16-bit value into its two bytes loses nothing. */
  lemma WordOfHalves(x: Uint16)
    ensures Word(Hi(x), Lo(x)) == x
  {
  }

  /** Joining two bytes and splitting the result gives the same two bytes. */
  lemma HalvesOfWord(hi: Uint8, lo: Uint8)
    ensures Hi(Word(hi, lo)) == hi && Lo(Word(hi, lo)) == lo
  {
  }

  /** Every field written into the frame can be read back unchanged. */
  lemma DecodeInitialFrame(t: Uint8, entry: Uint16, arg: Uint16, bootstrap: Uint16)
    ensures DecodeFrame(InitialFrame(t, entry, arg, bootstrap)) == FrameFields(entry, arg, t, bootstrap)
  {
    WordOfHalves(entry);
    WordOfHalves(arg);
    WordOfHalves(bootstrap);
  }
}
