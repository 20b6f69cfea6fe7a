/** Words and word triples: the 32-bit unsigned words (Go's uint32, modelled as bv32,
    whose shifts drop the bits that leave the word exactly as Go's do) and the ordered
    triples of words that carry every block and every key of the cipher. */
module Words {

  /** Exclusive or of two words. Blocks are combined through this function rather than
      through the operator directly, so that a law about words becomes a law about triples
      by plain substitution. */
  function XorWord(a: bv32, b: bv32): bv32 {
    a ^ b
  }

  /** An ordered triple of 32-bit words: a block, a key or a round key. */
  datatype Triple = Triple(w0: bv32, w1: bv32, w2: bv32)
  {
    /** Word-wise exclusive or, the only way key material enters the state. */
    function Xor(that: Triple): Triple {
      Triple(XorWord(w0, that.w0), XorWord(w1, that.w1), XorWord(w2, that.w2))
    }
  }

  const Zero := Triple(0, 0, 0)

  /** The triple with its words moved down one place, word 0 going to the top: the
      symmetry that gamma and theta share. */
  function Rotate(a: Triple): Triple {
    Triple(a.w1, a.w2, a.w0)
  }

  /** Adding the same word twice adds nothing. */
  lemma XorWordCancel(x: bv32, y: bv32)
    ensures XorWord(XorWord(x, y), y) == x
  {
  }

  /** Adding the same triple twice adds nothing: the law that lets decryption strip the
      round keys that encryption added. */
  lemma XorCancel(a: Triple, b: Triple)
    ensures a.Xor(b).Xor(b) == a
  {
    XorWordCancel(a.w0, b.w0);
    XorWordCancel(a.w1, b.w1);
    XorWordCancel(a.w2, b.w2);
  }

  /** Bit i of x, counted from the least significant bit. */
  predicate Bit(x: bv32, i: bv32)
    requires i < 32
  {
    (x >> i) & 1 == 1
  }

  /** The bit-reversal of a word, computed by the usual network that swaps ever larger
      groups of bits (adjacent bits, then pairs, nibbles, bytes and half-words), a
      different algorithm from the loop of mu; ReverseBitAt states what it computes bit
      by bit. */
  function BitReverse(x: bv32): bv32 {
    var x1 := ((x >> 1) & 0x5555_5555) | ((x & 0x5555_5555) << 1);
    var x2 := ((x1 >> 2) & 0x3333_3333) | ((x1 & 0x3333_3333) << 2);
    var x3 := ((x2 >> 4) & 0x0f0f_0f0f) | ((x2 & 0x0f0f_0f0f) << 4);
    var x4 := ((x3 >> 8) & 0x00ff_00ff) | ((x3 & 0x00ff_00ff) << 8);
    (x4 >> 16) | (x4 << 16)
  }

  /** Bit i of the reversal is bit 31 - i of the word. */
  lemma ReverseBitAt(x: bv32, i: bv32)
    requires i < 32
    ensures Bit(BitReverse(x), i) == Bit(x, 31 - i)
  {
  }

  /** Reversing twice gives the word back. */
  lemma ReverseInvolution(x: bv32)
    ensures BitReverse(BitReverse(x)) == x
  {
  }

  /** Reversal distributes over exclusive or. */
  lemma ReverseXor(x: bv32, y: bv32)
    ensures BitReverse(x ^ y) == BitReverse(x) ^ BitReverse(y)
  {
  }

  /** ReverseXor, stated through XorWord. */
  lemma ReverseXorWord(x: bv32, y: bv32)
    ensures BitReverse(XorWord(x, y)) == XorWord(BitReverse(x), BitReverse(y))
  {
    ReverseXor(x, y);
  }
}
