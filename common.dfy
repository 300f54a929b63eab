/** Small types and byte helpers shared by the firmware model. */
module Common {

  /** A value that may be absent. */
  datatype Option<T> = None | Some(value: T)

  /** The most significant byte of a 16-bit word, `(w >> 8) & 0xff` in C. */
  function Hi(w: bv16): (r: bv8)
  {
    (w >> 8) as bv8
  }

  /** The least significant byte of a 16-bit word, `w & 0xff` in C. */
  function Lo(w: bv16): (r: bv8)
  {
    (w & 0xff) as bv8
  }

  /** The 16-bit word `(hi << 8) | lo`. */
  function Word(hi: bv8, lo: bv8): (r: bv16)
    ensures Hi(r) == hi && Lo(r) == lo
  {
    (hi as bv16 << 8) | lo as bv16
  }

  /** Splitting a word into its bytes and joining them again gives the word back. */
  lemma WordOfBytes(w: bv16)
    ensures Word(Hi(w), Lo(w)) == w
  {
  }

  /** Proof step: concatenation of sequences is associative, with the three parts named. */
  lemma AppendAssoc<T>(a: seq<T>, b: seq<T>, c: seq<T>)
    ensures (a + b) + c == a + (b + c)
  {
  }
}
