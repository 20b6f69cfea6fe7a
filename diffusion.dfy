/** The word formula of theta and the proof that it is linear over exclusive or.

    Output word j of theta is the exclusive or of 13 shifted copies of the input words,
    taken in the order j, j + 1, j + 2 (mod 3); ThetaWord is that formula for the word
    order 0, 1, 2. Linearity is shown one bit at a time: bit i of ThetaWord is the parity of
    seven input bits (ThetaWordBits), the same seven whether the inputs are x, y or x ^ y,
    so every output bit of the sum is the sum of the output bits (XorBit0 to XorBit31), and
    32 agreeing bits make equal words (WordFromBits). Bit i of a word w is written
    ((w << (31 - i)) >> 31) as bv1 throughout: a single bit extracted from w. */
module Diffusion {
  import opened Words

  /** Word 0 of theta on the words a0, a1, a2. */
  function ThetaWord(a0: bv32, a1: bv32, a2: bv32): bv32 {
    a0 ^ (a0 >> 16) ^ (a1 << 16) ^ (a1 >> 16) ^ (a2 << 16) ^ (a1 >> 24) ^
      (a2 << 8) ^ (a2 >> 8) ^ (a0 << 24) ^ (a2 >> 16) ^ (a0 << 16) ^ (a2 >> 24) ^ (a0 << 8)
  }

  /** Each output bit of the formula is the parity of seven input bits. */
  lemma ThetaWordBits(w: bv32, a0: bv32, a1: bv32, a2: bv32)
    requires w == a0 ^ (a0 >> 16) ^ (a1 << 16) ^ (a1 >> 16) ^ (a2 << 16) ^ (a1 >> 24) ^
      (a2 << 8) ^ (a2 >> 8) ^ (a0 << 24) ^ (a2 >> 16) ^ (a0 << 16) ^ (a2 >> 24) ^ (a0 << 8)
    ensures (((w << 31) >> 31) as bv1) ==
            ((((a0 << 31) >> 31) as bv1) ^ (((a0 << 15) >> 31) as bv1) ^ (((a1 << 15) >> 31) as bv1) ^ (((a1 << 7) >> 31) as bv1) ^ (((a2 << 23) >> 31) as bv1) ^ (((a2 << 15) >> 31) as bv1) ^ (((a2 << 7) >> 31) as bv1))
    ensures (((w << 30) >> 31) as bv1) ==
            ((((a0 << 30) >> 31) as bv1) ^ (((a0 << 14) >> 31) as bv1) ^ (((a1 << 14) >> 31) as bv1) ^ (((a1 << 6) >> 31) as bv1) ^ (((a2 << 22) >> 31) as bv1) ^ (((a2 << 14) >> 31) as bv1) ^ (((a2 << 6) >> 31) as bv1))
    ensures (((w << 29) >> 31) as bv1) ==
            ((((a0 << 29) >> 31) as bv1) ^ (((a0 << 13) >> 31) as bv1) ^ (((a1 << 13) >> 31) as bv1) ^ (((a1 << 5) >> 31) as bv1) ^ (((a2 << 21) >> 31) as bv1) ^ (((a2 << 13) >> 31) as bv1) ^ (((a2 << 5) >> 31) as bv1))
    ensures (((w << 28) >> 31) as bv1) ==
            ((((a0 << 28) >> 31) as bv1) ^ (((a0 << 12) >> 31) as bv1) ^ (((a1 << 12) >> 31) as bv1) ^ (((a1 << 4) >> 31) as bv1) ^ (((a2 << 20) >> 31) as bv1) ^ (((a2 << 12) >> 31) as bv1) ^ (((a2 << 4) >> 31) as bv1))
    ensures (((w << 27) >> 31) as bv1) ==
            ((((a0 << 27) >> 31) as bv1) ^ (((a0 << 11) >> 31) as bv1) ^ (((a1 << 11) >> 31) as bv1) ^ (((a1 << 3) >> 31) as bv1) ^ (((a2 << 19) >> 31) as bv1) ^ (((a2 << 11) >> 31) as bv1) ^ (((a2 << 3) >> 31) as bv1))
    ensures (((w << 26) >> 31) as bv1) ==
            ((((a0 << 26) >> 31) as bv1) ^ (((a0 << 10) >> 31) as bv1) ^ (((a1 << 10) >> 31) as bv1) ^ (((a1 << 2) >> 31) as bv1) ^ (((a2 << 18) >> 31) as bv1) ^ (((a2 << 10) >> 31) as bv1) ^ (((a2 << 2) >> 31) as bv1))
    ensures (((w << 25) >> 31) as bv1) ==
            ((((a0 << 25) >> 31) as bv1) ^ (((a0 << 9) >> 31) as bv1) ^ (((a1 << 9) >> 31) as bv1) ^ (((a1 << 1) >> 31) as bv1) ^ (((a2 << 17) >> 31) as bv1) ^ (((a2 << 9) >> 31) as bv1) ^ (((a2 << 1) >> 31) as bv1))
    ensures (((w << 24) >> 31) as bv1) ==
            ((((a0 << 24) >> 31) as bv1) ^ (((a0 << 8) >> 31) as bv1) ^ (((a1 << 8) >> 31) as bv1) ^ (((a1 << 0) >> 31) as bv1) ^ (((a2 << 16) >> 31) as bv1) ^ (((a2 << 8) >> 31) as bv1) ^ (((a2 << 0) >> 31) as bv1))
    ensures (((w << 23) >> 31) as bv1) ==
            ((((a0 << 23) >> 31) as bv1) ^ (((a0 << 7) >> 31) as bv1) ^ (((a1 << 7) >> 31) as bv1) ^ (((a2 << 31) >> 31) as bv1) ^ (((a2 << 15) >> 31) as bv1) ^ (((a2 << 7) >> 31) as bv1) ^ (((a0 << 31) >> 31) as bv1))
    ensures (((w << 22) >> 31) as bv1) ==
            ((((a0 << 22) >> 31) as bv1) ^ (((a0 << 6) >> 31) as bv1) ^ (((a1 << 6) >> 31) as bv1) ^ (((a2 << 30) >> 31) as bv1) ^ (((a2 << 14) >> 31) as bv1) ^ (((a2 << 6) >> 31) as bv1) ^ (((a0 << 30) >> 31) as bv1))
    ensures (((w << 21) >> 31) as bv1) ==
            ((((a0 << 21) >> 31) as bv1) ^ (((a0 << 5) >> 31) as bv1) ^ (((a1 << 5) >> 31) as bv1) ^ (((a2 << 29) >> 31) as bv1) ^ (((a2 << 13) >> 31) as bv1) ^ (((a2 << 5) >> 31) as bv1) ^ (((a0 << 29) >> 31) as bv1))
    ensures (((w << 20) >> 31) as bv1) ==
            ((((a0 << 20) >> 31) as bv1) ^ (((a0 << 4) >> 31) as bv1) ^ (((a1 << 4) >> 31) as bv1) ^ (((a2 << 28) >> 31) as bv1) ^ (((a2 << 12) >> 31) as bv1) ^ (((a2 << 4) >> 31) as bv1) ^ (((a0 << 28) >> 31) as bv1))
    ensures (((w << 19) >> 31) as bv1) ==
            ((((a0 << 19) >> 31) as bv1) ^ (((a0 << 3) >> 31) as bv1) ^ (((a1 << 3) >> 31) as bv1) ^ (((a2 << 27) >> 31) as bv1) ^ (((a2 << 11) >> 31) as bv1) ^ (((a2 << 3) >> 31) as bv1) ^ (((a0 << 27) >> 31) as bv1))
    ensures (((w << 18) >> 31) as bv1) ==
            ((((a0 << 18) >> 31) as bv1) ^ (((a0 << 2) >> 31) as bv1) ^ (((a1 << 2) >> 31) as bv1) ^ (((a2 << 26) >> 31) as bv1) ^ (((a2 << 10) >> 31) as bv1) ^ (((a2 << 2) >> 31) as bv1) ^ (((a0 << 26) >> 31) as bv1))
    ensures (((w << 17) >> 31) as bv1) ==
            ((((a0 << 17) >> 31) as bv1) ^ (((a0 << 1) >> 31) as bv1) ^ (((a1 << 1) >> 31) as bv1) ^ (((a2 << 25) >> 31) as bv1) ^ (((a2 << 9) >> 31) as bv1) ^ (((a2 << 1) >> 31) as bv1) ^ (((a0 << 25) >> 31) as bv1))
    ensures (((w << 16) >> 31) as bv1) ==
            ((((a0 << 16) >> 31) as bv1) ^ (((a0 << 0) >> 31) as bv1) ^ (((a1 << 0) >> 31) as bv1) ^ (((a2 << 24) >> 31) as bv1) ^ (((a2 << 8) >> 31) as bv1) ^ (((a2 << 0) >> 31) as bv1) ^ (((a0 << 24) >> 31) as bv1))
    ensures (((w << 15) >> 31) as bv1) ==
            ((((a0 << 15) >> 31) as bv1) ^ (((a1 << 31) >> 31) as bv1) ^ (((a2 << 31) >> 31) as bv1) ^ (((a2 << 23) >> 31) as bv1) ^ (((a2 << 7) >> 31) as bv1) ^ (((a0 << 31) >> 31) as bv1) ^ (((a0 << 23) >> 31) as bv1))
    ensures (((w << 14) >> 31) as bv1) ==
            ((((a0 << 14) >> 31) as bv1) ^ (((a1 << 30) >> 31) as bv1) ^ (((a2 << 30) >> 31) as bv1) ^ (((a2 << 22) >> 31) as bv1) ^ (((a2 << 6) >> 31) as bv1) ^ (((a0 << 30) >> 31) as bv1) ^ (((a0 << 22) >> 31) as bv1))
    ensures (((w << 13) >> 31) as bv1) ==
            ((((a0 << 13) >> 31) as bv1) ^ (((a1 << 29) >> 31) as bv1) ^ (((a2 << 29) >> 31) as bv1) ^ (((a2 << 21) >> 31) as bv1) ^ (((a2 << 5) >> 31) as bv1) ^ (((a0 << 29) >> 31) as bv1) ^ (((a0 << 21) >> 31) as bv1))
    ensures (((w << 12) >> 31) as bv1) ==
            ((((a0 << 12) >> 31) as bv1) ^ (((a1 << 28) >> 31) as bv1) ^ (((a2 << 28) >> 31) as bv1) ^ (((a2 << 20) >> 31) as bv1) ^ (((a2 << 4) >> 31) as bv1) ^ (((a0 << 28) >> 31) as bv1) ^ (((a0 << 20) >> 31) as bv1))
    ensures (((w << 11) >> 31) as bv1) ==
            ((((a0 << 11) >> 31) as bv1) ^ (((a1 << 27) >> 31) as bv1) ^ (((a2 << 27) >> 31) as bv1) ^ (((a2 << 19) >> 31) as bv1) ^ (((a2 << 3) >> 31) as bv1) ^ (((a0 << 27) >> 31) as bv1) ^ (((a0 << 19) >> 31) as bv1))
    ensures (((w << 10) >> 31) as bv1) ==
            ((((a0 << 10) >> 31) as bv1) ^ (((a1 << 26) >> 31) as bv1) ^ (((a2 << 26) >> 31) as bv1) ^ (((a2 << 18) >> 31) as bv1) ^ (((a2 << 2) >> 31) as bv1) ^ (((a0 << 26) >> 31) as bv1) ^ (((a0 << 18) >> 31) as bv1))
    ensures (((w << 9) >> 31) as bv1) ==
            ((((a0 << 9) >> 31) as bv1) ^ (((a1 << 25) >> 31) as bv1) ^ (((a2 << 25) >> 31) as bv1) ^ (((a2 << 17) >> 31) as bv1) ^ (((a2 << 1) >> 31) as bv1) ^ (((a0 << 25) >> 31) as bv1) ^ (((a0 << 17) >> 31) as bv1))
    ensures (((w << 8) >> 31) as bv1) ==
            ((((a0 << 8) >> 31) as bv1) ^ (((a1 << 24) >> 31) as bv1) ^ (((a2 << 24) >> 31) as bv1) ^ (((a2 << 16) >> 31) as bv1) ^ (((a2 << 0) >> 31) as bv1) ^ (((a0 << 24) >> 31) as bv1) ^ (((a0 << 16) >> 31) as bv1))
    ensures (((w << 7) >> 31) as bv1) ==
            ((((a0 << 7) >> 31) as bv1) ^ (((a1 << 23) >> 31) as bv1) ^ (((a2 << 23) >> 31) as bv1) ^ (((a2 << 15) >> 31) as bv1) ^ (((a0 << 31) >> 31) as bv1) ^ (((a0 << 23) >> 31) as bv1) ^ (((a0 << 15) >> 31) as bv1))
    ensures (((w << 6) >> 31) as bv1) ==
            ((((a0 << 6) >> 31) as bv1) ^ (((a1 << 22) >> 31) as bv1) ^ (((a2 << 22) >> 31) as bv1) ^ (((a2 << 14) >> 31) as bv1) ^ (((a0 << 30) >> 31) as bv1) ^ (((a0 << 22) >> 31) as bv1) ^ (((a0 << 14) >> 31) as bv1))
    ensures (((w << 5) >> 31) as bv1) ==
            ((((a0 << 5) >> 31) as bv1) ^ (((a1 << 21) >> 31) as bv1) ^ (((a2 << 21) >> 31) as bv1) ^ (((a2 << 13) >> 31) as bv1) ^ (((a0 << 29) >> 31) as bv1) ^ (((a0 << 21) >> 31) as bv1) ^ (((a0 << 13) >> 31) as bv1))
    ensures (((w << 4) >> 31) as bv1) ==
            ((((a0 << 4) >> 31) as bv1) ^ (((a1 << 20) >> 31) as bv1) ^ (((a2 << 20) >> 31) as bv1) ^ (((a2 << 12) >> 31) as bv1) ^ (((a0 << 28) >> 31) as bv1) ^ (((a0 << 20) >> 31) as bv1) ^ (((a0 << 12) >> 31) as bv1))
    ensures (((w << 3) >> 31) as bv1) ==
            ((((a0 << 3) >> 31) as bv1) ^ (((a1 << 19) >> 31) as bv1) ^ (((a2 << 19) >> 31) as bv1) ^ (((a2 << 11) >> 31) as bv1) ^ (((a0 << 27) >> 31) as bv1) ^ (((a0 << 19) >> 31) as bv1) ^ (((a0 << 11) >> 31) as bv1))
    ensures (((w << 2) >> 31) as bv1) ==
            ((((a0 << 2) >> 31) as bv1) ^ (((a1 << 18) >> 31) as bv1) ^ (((a2 << 18) >> 31) as bv1) ^ (((a2 << 10) >> 31) as bv1) ^ (((a0 << 26) >> 31) as bv1) ^ (((a0 << 18) >> 31) as bv1) ^ (((a0 << 10) >> 31) as bv1))
    ensures (((w << 1) >> 31) as bv1) ==
            ((((a0 << 1) >> 31) as bv1) ^ (((a1 << 17) >> 31) as bv1) ^ (((a2 << 17) >> 31) as bv1) ^ (((a2 << 9) >> 31) as bv1) ^ (((a0 << 25) >> 31) as bv1) ^ (((a0 << 17) >> 31) as bv1) ^ (((a0 << 9) >> 31) as bv1))
    ensures (((w << 0) >> 31) as bv1) ==
            ((((a0 << 0) >> 31) as bv1) ^ (((a1 << 16) >> 31) as bv1) ^ (((a2 << 16) >> 31) as bv1) ^ (((a2 << 8) >> 31) as bv1) ^ (((a0 << 24) >> 31) as bv1) ^ (((a0 << 16) >> 31) as bv1) ^ (((a0 << 8) >> 31) as bv1))
  {
  }

  /** ThetaWordBits for inputs that are sums x ^ y. */
  lemma ThetaWordSumBits(w: bv32, x0: bv32, x1: bv32, x2: bv32, y0: bv32, y1: bv32, y2: bv32)
    requires w == (x0 ^ y0) ^ ((x0 ^ y0) >> 16) ^ ((x1 ^ y1) << 16) ^ ((x1 ^ y1) >> 16) ^ ((x2 ^ y2) << 16) ^ ((x1 ^ y1) >> 24) ^
      ((x2 ^ y2) << 8) ^ ((x2 ^ y2) >> 8) ^ ((x0 ^ y0) << 24) ^ ((x2 ^ y2) >> 16) ^ ((x0 ^ y0) << 16) ^ ((x2 ^ y2) >> 24) ^ ((x0 ^ y0) << 8)
    ensures (((w << 31) >> 31) as bv1) ==
            (((((x0 ^ y0) << 31) >> 31) as bv1) ^ ((((x0 ^ y0) << 15) >> 31) as bv1) ^ ((((x1 ^ y1) << 15) >> 31) as bv1) ^ ((((x1 ^ y1) << 7) >> 31) as bv1) ^ ((((x2 ^ y2) << 23) >> 31) as bv1) ^ ((((x2 ^ y2) << 15) >> 31) as bv1) ^ ((((x2 ^ y2) << 7) >> 31) as bv1))
    ensures (((w << 30) >> 31) as bv1) ==
            (((((x0 ^ y0) << 30) >> 31) as bv1) ^ ((((x0 ^ y0) << 14) >> 31) as bv1) ^ ((((x1 ^ y1) << 14) >> 31) as bv1) ^ ((((x1 ^ y1) << 6) >> 31) as bv1) ^ ((((x2 ^ y2) << 22) >> 31) as bv1) ^ ((((x2 ^ y2) << 14) >> 31) as bv1) ^ ((((x2 ^ y2) << 6) >> 31) as bv1))
    ensures (((w << 29) >> 31) as bv1) ==
            (((((x0 ^ y0) << 29) >> 31) as bv1) ^ ((((x0 ^ y0) << 13) >> 31) as bv1) ^ ((((x1 ^ y1) << 13) >> 31) as bv1) ^ ((((x1 ^ y1) << 5) >> 31) as bv1) ^ ((((x2 ^ y2) << 21) >> 31) as bv1) ^ ((((x2 ^ y2) << 13) >> 31) as bv1) ^ ((((x2 ^ y2) << 5) >> 31) as bv1))
    ensures (((w << 28) >> 31) as bv1) ==
            (((((x0 ^ y0) << 28) >> 31) as bv1) ^ ((((x0 ^ y0) << 12) >> 31) as bv1) ^ ((((x1 ^ y1) << 12) >> 31) as bv1) ^ ((((x1 ^ y1) << 4) >> 31) as bv1) ^ ((((x2 ^ y2) << 20) >> 31) as bv1) ^ ((((x2 ^ y2) << 12) >> 31) as bv1) ^ ((((x2 ^ y2) << 4) >> 31) as bv1))
    ensures (((w << 27) >> 31) as bv1) ==
            (((((x0 ^ y0) << 27) >> 31) as bv1) ^ ((((x0 ^ y0) << 11) >> 31) as bv1) ^ ((((x1 ^ y1) << 11) >> 31) as bv1) ^ ((((x1 ^ y1) << 3) >> 31) as bv1) ^ ((((x2 ^ y2) << 19) >> 31) as bv1) ^ ((((x2 ^ y2) << 11) >> 31) as bv1) ^ ((((x2 ^ y2) << 3) >> 31) as bv1))
    ensures (((w << 26) >> 31) as bv1) ==
            (((((x0 ^ y0) << 26) >> 31) as bv1) ^ ((((x0 ^ y0) << 10) >> 31) as bv1) ^ ((((x1 ^ y1) << 10) >> 31) as bv1) ^ ((((x1 ^ y1) << 2) >> 31) as bv1) ^ ((((x2 ^ y2) << 18) >> 31) as bv1) ^ ((((x2 ^ y2) << 10) >> 31) as bv1) ^ ((((x2 ^ y2) << 2) >> 31) as bv1))
    ensures (((w << 25) >> 31) as bv1) ==
            (((((x0 ^ y0) << 25) >> 31) as bv1) ^ ((((x0 ^ y0) << 9) >> 31) as bv1) ^ ((((x1 ^ y1) << 9) >> 31) as bv1) ^ ((((x1 ^ y1) << 1) >> 31) as bv1) ^ ((((x2 ^ y2) << 17) >> 31) as bv1) ^ ((((x2 ^ y2) << 9) >> 31) as bv1) ^ ((((x2 ^ y2) << 1) >> 31) as bv1))
    ensures (((w << 24) >> 31) as bv1) ==
            (((((x0 ^ y0) << 24) >> 31) as bv1) ^ ((((x0 ^ y0) << 8) >> 31) as bv1) ^ ((((x1 ^ y1) << 8) >> 31) as bv1) ^ ((((x1 ^ y1) << 0) >> 31) as bv1) ^ ((((x2 ^ y2) << 16) >> 31) as bv1) ^ ((((x2 ^ y2) << 8) >> 31) as bv1) ^ ((((x2 ^ y2) << 0) >> 31) as bv1))
    ensures (((w << 23) >> 31) as bv1) ==
            (((((x0 ^ y0) << 23) >> 31) as bv1) ^ ((((x0 ^ y0) << 7) >> 31) as bv1) ^ ((((x1 ^ y1) << 7) >> 31) as bv1) ^ ((((x2 ^ y2) << 31) >> 31) as bv1) ^ ((((x2 ^ y2) << 15) >> 31) as bv1) ^ ((((x2 ^ y2) << 7) >> 31) as bv1) ^ ((((x0 ^ y0) << 31) >> 31) as bv1))
    ensures (((w << 22) >> 31) as bv1) ==
            (((((x0 ^ y0) << 22) >> 31) as bv1) ^ ((((x0 ^ y0) << 6) >> 31) as bv1) ^ ((((x1 ^ y1) << 6) >> 31) as bv1) ^ ((((x2 ^ y2) << 30) >> 31) as bv1) ^ ((((x2 ^ y2) << 14) >> 31) as bv1) ^ ((((x2 ^ y2) << 6) >> 31) as bv1) ^ ((((x0 ^ y0) << 30) >> 31) as bv1))
    ensures (((w << 21) >> 31) as bv1) ==
            (((((x0 ^ y0) << 21) >> 31) as bv1) ^ ((((x0 ^ y0) << 5) >> 31) as bv1) ^ ((((x1 ^ y1) << 5) >> 31) as bv1) ^ ((((x2 ^ y2) << 29) >> 31) as bv1) ^ ((((x2 ^ y2) << 13) >> 31) as bv1) ^ ((((x2 ^ y2) << 5) >> 31) as bv1) ^ ((((x0 ^ y0) << 29) >> 31) as bv1))
    ensures (((w << 20) >> 31) as bv1) ==
            (((((x0 ^ y0) << 20) >> 31) as bv1) ^ ((((x0 ^ y0) << 4) >> 31) as bv1) ^ ((((x1 ^ y1) << 4) >> 31) as bv1) ^ ((((x2 ^ y2) << 28) >> 31) as bv1) ^ ((((x2 ^ y2) << 12) >> 31) as bv1) ^ ((((x2 ^ y2) << 4) >> 31) as bv1) ^ ((((x0 ^ y0) << 28) >> 31) as bv1))
    ensures (((w << 19) >> 31) as bv1) ==
            (((((x0 ^ y0) << 19) >> 31) as bv1) ^ ((((x0 ^ y0) << 3) >> 31) as bv1) ^ ((((x1 ^ y1) << 3) >> 31) as bv1) ^ ((((x2 ^ y2) << 27) >> 31) as bv1) ^ ((((x2 ^ y2) << 11) >> 31) as bv1) ^ ((((x2 ^ y2) << 3) >> 31) as bv1) ^ ((((x0 ^ y0) << 27) >> 31) as bv1))
    ensures (((w << 18) >> 31) as bv1) ==
            (((((x0 ^ y0) << 18) >> 31) as bv1) ^ ((((x0 ^ y0) << 2) >> 31) as bv1) ^ ((((x1 ^ y1) << 2) >> 31) as bv1) ^ ((((x2 ^ y2) << 26) >> 31) as bv1) ^ ((((x2 ^ y2) << 10) >> 31) as bv1) ^ ((((x2 ^ y2) << 2) >> 31) as bv1) ^ ((((x0 ^ y0) << 26) >> 31) as bv1))
    ensures (((w << 17) >> 31) as bv1) ==
            (((((x0 ^ y0) << 17) >> 31) as bv1) ^ ((((x0 ^ y0) << 1) >> 31) as bv1) ^ ((((x1 ^ y1) << 1) >> 31) as bv1) ^ ((((x2 ^ y2) << 25) >> 31) as bv1) ^ ((((x2 ^ y2) << 9) >> 31) as bv1) ^ ((((x2 ^ y2) << 1) >> 31) as bv1) ^ ((((x0 ^ y0) << 25) >> 31) as bv1))
    ensures (((w << 16) >> 31) as bv1) ==
            (((((x0 ^ y0) << 16) >> 31) as bv1) ^ ((((x0 ^ y0) << 0) >> 31) as bv1) ^ ((((x1 ^ y1) << 0) >> 31) as bv1) ^ ((((x2 ^ y2) << 24) >> 31) as bv1) ^ ((((x2 ^ y2) << 8) >> 31) as bv1) ^ ((((x2 ^ y2) << 0) >> 31) as bv1) ^ ((((x0 ^ y0) << 24) >> 31) as bv1))
    ensures (((w << 15) >> 31) as bv1) ==
            (((((x0 ^ y0) << 15) >> 31) as bv1) ^ ((((x1 ^ y1) << 31) >> 31) as bv1) ^ ((((x2 ^ y2) << 31) >> 31) as bv1) ^ ((((x2 ^ y2) << 23) >> 31) as bv1) ^ ((((x2 ^ y2) << 7) >> 31) as bv1) ^ ((((x0 ^ y0) << 31) >> 31) as bv1) ^ ((((x0 ^ y0) << 23) >> 31) as bv1))
    ensures (((w << 14) >> 31) as bv1) ==
            (((((x0 ^ y0) << 14) >> 31) as bv1) ^ ((((x1 ^ y1) << 30) >> 31) as bv1) ^ ((((x2 ^ y2) << 30) >> 31) as bv1) ^ ((((x2 ^ y2) << 22) >> 31) as bv1) ^ ((((x2 ^ y2) << 6) >> 31) as bv1) ^ ((((x0 ^ y0) << 30) >> 31) as bv1) ^ ((((x0 ^ y0) << 22) >> 31) as bv1))
    ensures (((w << 13) >> 31) as bv1) ==
            (((((x0 ^ y0) << 13) >> 31) as bv1) ^ ((((x1 ^ y1) << 29) >> 31) as bv1) ^ ((((x2 ^ y2) << 29) >> 31) as bv1) ^ ((((x2 ^ y2) << 21) >> 31) as bv1) ^ ((((x2 ^ y2) << 5) >> 31) as bv1) ^ ((((x0 ^ y0) << 29) >> 31) as bv1) ^ ((((x0 ^ y0) << 21) >> 31) as bv1))
    ensures (((w << 12) >> 31) as bv1) ==
            (((((x0 ^ y0) << 12) >> 31) as bv1) ^ ((((x1 ^ y1) << 28) >> 31) as bv1) ^ ((((x2 ^ y2) << 28) >> 31) as bv1) ^ ((((x2 ^ y2) << 20) >> 31) as bv1) ^ ((((x2 ^ y2) << 4) >> 31) as bv1) ^ ((((x0 ^ y0) << 28) >> 31) as bv1) ^ ((((x0 ^ y0) << 20) >> 31) as bv1))
    ensures (((w << 11) >> 31) as bv1) ==
            (((((x0 ^ y0) << 11) >> 31) as bv1) ^ ((((x1 ^ y1) << 27) >> 31) as bv1) ^ ((((x2 ^ y2) << 27) >> 31) as bv1) ^ ((((x2 ^ y2) << 19) >> 31) as bv1) ^ ((((x2 ^ y2) << 3) >> 31) as bv1) ^ ((((x0 ^ y0) << 27) >> 31) as bv1) ^ ((((x0 ^ y0) << 19) >> 31) as bv1))
    ensures (((w << 10) >> 31) as bv1) ==
            (((((x0 ^ y0) << 10) >> 31) as bv1) ^ ((((x1 ^ y1) << 26) >> 31) as bv1) ^ ((((x2 ^ y2) << 26) >> 31) as bv1) ^ ((((x2 ^ y2) << 18) >> 31) as bv1) ^ ((((x2 ^ y2) << 2) >> 31) as bv1) ^ ((((x0 ^ y0) << 26) >> 31) as bv1) ^ ((((x0 ^ y0) << 18) >> 31) as bv1))
    ensures (((w << 9) >> 31) as bv1) ==
            (((((x0 ^ y0) << 9) >> 31) as bv1) ^ ((((x1 ^ y1) << 25) >> 31) as bv1) ^ ((((x2 ^ y2) << 25) >> 31) as bv1) ^ ((((x2 ^ y2) << 17) >> 31) as bv1) ^ ((((x2 ^ y2) << 1) >> 31) as bv1) ^ ((((x0 ^ y0) << 25) >> 31) as bv1) ^ ((((x0 ^ y0) << 17) >> 31) as bv1))
    ensures (((w << 8) >> 31) as bv1) ==
            (((((x0 ^ y0) << 8) >> 31) as bv1) ^ ((((x1 ^ y1) << 24) >> 31) as bv1) ^ ((((x2 ^ y2) << 24) >> 31) as bv1) ^ ((((x2 ^ y2) << 16) >> 31) as bv1) ^ ((((x2 ^ y2) << 0) >> 31) as bv1) ^ ((((x0 ^ y0) << 24) >> 31) as bv1) ^ ((((x0 ^ y0) << 16) >> 31) as bv1))
    ensures (((w << 7) >> 31) as bv1) ==
            (((((x0 ^ y0) << 7) >> 31) as bv1) ^ ((((x1 ^ y1) << 23) >> 31) as bv1) ^ ((((x2 ^ y2) << 23) >> 31) as bv1) ^ ((((x2 ^ y2) << 15) >> 31) as bv1) ^ ((((x0 ^ y0) << 31) >> 31) as bv1) ^ ((((x0 ^ y0) << 23) >> 31) as bv1) ^ ((((x0 ^ y0) << 15) >> 31) as bv1))
    ensures (((w << 6) >> 31) as bv1) ==
            (((((x0 ^ y0) << 6) >> 31) as bv1) ^ ((((x1 ^ y1) << 22) >> 31) as bv1) ^ ((((x2 ^ y2) << 22) >> 31) as bv1) ^ ((((x2 ^ y2) << 14) >> 31) as bv1) ^ ((((x0 ^ y0) << 30) >> 31) as bv1) ^ ((((x0 ^ y0) << 22) >> 31) as bv1) ^ ((((x0 ^ y0) << 14) >> 31) as bv1))
    ensures (((w << 5) >> 31) as bv1) ==
            (((((x0 ^ y0) << 5) >> 31) as bv1) ^ ((((x1 ^ y1) << 21) >> 31) as bv1) ^ ((((x2 ^ y2) << 21) >> 31) as bv1) ^ ((((x2 ^ y2) << 13) >> 31) as bv1) ^ ((((x0 ^ y0) << 29) >> 31) as bv1) ^ ((((x0 ^ y0) << 21) >> 31) as bv1) ^ ((((x0 ^ y0) << 13) >> 31) as bv1))
    ensures (((w << 4) >> 31) as bv1) ==
            (((((x0 ^ y0) << 4) >> 31) as bv1) ^ ((((x1 ^ y1) << 20) >> 31) as bv1) ^ ((((x2 ^ y2) << 20) >> 31) as bv1) ^ ((((x2 ^ y2) << 12) >> 31) as bv1) ^ ((((x0 ^ y0) << 28) >> 31) as bv1) ^ ((((x0 ^ y0) << 20) >> 31) as bv1) ^ ((((x0 ^ y0) << 12) >> 31) as bv1))
    ensures (((w << 3) >> 31) as bv1) ==
            (((((x0 ^ y0) << 3) >> 31) as bv1) ^ ((((x1 ^ y1) << 19) >> 31) as bv1) ^ ((((x2 ^ y2) << 19) >> 31) as bv1) ^ ((((x2 ^ y2) << 11) >> 31) as bv1) ^ ((((x0 ^ y0) << 27) >> 31) as bv1) ^ ((((x0 ^ y0) << 19) >> 31) as bv1) ^ ((((x0 ^ y0) << 11) >> 31) as bv1))
    ensures (((w << 2) >> 31) as bv1) ==
            (((((x0 ^ y0) << 2) >> 31) as bv1) ^ ((((x1 ^ y1) << 18) >> 31) as bv1) ^ ((((x2 ^ y2) << 18) >> 31) as bv1) ^ ((((x2 ^ y2) << 10) >> 31) as bv1) ^ ((((x0 ^ y0) << 26) >> 31) as bv1) ^ ((((x0 ^ y0) << 18) >> 31) as bv1) ^ ((((x0 ^ y0) << 10) >> 31) as bv1))
    ensures (((w << 1) >> 31) as bv1) ==
            (((((x0 ^ y0) << 1) >> 31) as bv1) ^ ((((x1 ^ y1) << 17) >> 31) as bv1) ^ ((((x2 ^ y2) << 17) >> 31) as bv1) ^ ((((x2 ^ y2) << 9) >> 31) as bv1) ^ ((((x0 ^ y0) << 25) >> 31) as bv1) ^ ((((x0 ^ y0) << 17) >> 31) as bv1) ^ ((((x0 ^ y0) << 9) >> 31) as bv1))
    ensures (((w << 0) >> 31) as bv1) ==
            (((((x0 ^ y0) << 0) >> 31) as bv1) ^ ((((x1 ^ y1) << 16) >> 31) as bv1) ^ ((((x2 ^ y2) << 16) >> 31) as bv1) ^ ((((x2 ^ y2) << 8) >> 31) as bv1) ^ ((((x0 ^ y0) << 24) >> 31) as bv1) ^ ((((x0 ^ y0) << 16) >> 31) as bv1) ^ ((((x0 ^ y0) << 8) >> 31) as bv1))
  {
  }

  /** Bit 0: the parity of the summed input bits is the sum of the parities. */
  lemma XorBit0(t: bv32, u: bv32, v: bv32, x0: bv32, x1: bv32, x2: bv32, y0: bv32, y1: bv32, y2: bv32)
    requires (((t << 31) >> 31) as bv1) ==
             (((((x0 ^ y0) << 31) >> 31) as bv1) ^ ((((x0 ^ y0) << 15) >> 31) as bv1) ^ ((((x1 ^ y1) << 15) >> 31) as bv1) ^ ((((x1 ^ y1) << 7) >> 31) as bv1) ^ ((((x2 ^ y2) << 23) >> 31) as bv1) ^ ((((x2 ^ y2) << 15) >> 31) as bv1) ^ ((((x2 ^ y2) << 7) >> 31) as bv1))
    requires (((u << 31) >> 31) as bv1) ==
             ((((x0 << 31) >> 31) as bv1) ^ (((x0 << 15) >> 31) as bv1) ^ (((x1 << 15) >> 31) as bv1) ^ (((x1 << 7) >> 31) as bv1) ^ (((x2 << 23) >> 31) as bv1) ^ (((x2 << 15) >> 31) as bv1) ^ (((x2 << 7) >> 31) as bv1))
    requires (((v << 31) >> 31) as bv1) ==
             ((((y0 << 31) >> 31) as bv1) ^ (((y0 << 15) >> 31) as bv1) ^ (((y1 << 15) >> 31) as bv1) ^ (((y1 << 7) >> 31) as bv1) ^ (((y2 << 23) >> 31) as bv1) ^ (((y2 << 15) >> 31) as bv1) ^ (((y2 << 7) >> 31) as bv1))
    ensures (((t << 31) >> 31) as bv1) == (((u << 31) >> 31) as bv1) ^ (((v << 31) >> 31) as bv1)
  {
  }

  lemma XorBit1(t: bv32, u: bv32, v: bv32, x0: bv32, x1: bv32, x2: bv32, y0: bv32, y1: bv32, y2: bv32)
    requires (((t << 30) >> 31) as bv1) ==
             (((((x0 ^ y0) << 30) >> 31) as bv1) ^ ((((x0 ^ y0) << 14) >> 31) as bv1) ^ ((((x1 ^ y1) << 14) >> 31) as bv1) ^ ((((x1 ^ y1) << 6) >> 31) as bv1) ^ ((((x2 ^ y2) << 22) >> 31) as bv1) ^ ((((x2 ^ y2) << 14) >> 31) as bv1) ^ ((((x2 ^ y2) << 6) >> 31) as bv1))
    requires (((u << 30) >> 31) as bv1) ==
             ((((x0 << 30) >> 31) as bv1) ^ (((x0 << 14) >> 31) as bv1) ^ (((x1 << 14) >> 31) as bv1) ^ (((x1 << 6) >> 31) as bv1) ^ (((x2 << 22) >> 31) as bv1) ^ (((x2 << 14) >> 31) as bv1) ^ (((x2 << 6) >> 31) as bv1))
    requires (((v << 30) >> 31) as bv1) ==
             ((((y0 << 30) >> 31) as bv1) ^ (((y0 << 14) >> 31) as bv1) ^ (((y1 << 14) >> 31) as bv1) ^ (((y1 << 6) >> 31) as bv1) ^ (((y2 << 22) >> 31) as bv1) ^ (((y2 << 14) >> 31) as bv1) ^ (((y2 << 6) >> 31) as bv1))
    ensures (((t << 30) >> 31) as bv1) == (((u << 30) >> 31) as bv1) ^ (((v << 30) >> 31) as bv1)
  {
  }

  lemma XorBit2(t: bv32, u: bv32, v: bv32, x0: bv32, x1: bv32, x2: bv32, y0: bv32, y1: bv32, y2: bv32)
    requires (((t << 29) >> 31) as bv1) ==
             (((((x0 ^ y0) << 29) >> 31) as bv1) ^ ((((x0 ^ y0) << 13) >> 31) as bv1) ^ ((((x1 ^ y1) << 13) >> 31) as bv1) ^ ((((x1 ^ y1) << 5) >> 31) as bv1) ^ ((((x2 ^ y2) << 21) >> 31) as bv1) ^ ((((x2 ^ y2) << 13) >> 31) as bv1) ^ ((((x2 ^ y2) << 5) >> 31) as bv1))
    requires (((u << 29) >> 31) as bv1) ==
             ((((x0 << 29) >> 31) as bv1) ^ (((x0 << 13) >> 31) as bv1) ^ (((x1 << 13) >> 31) as bv1) ^ (((x1 << 5) >> 31) as bv1) ^ (((x2 << 21) >> 31) as bv1) ^ (((x2 << 13) >> 31) as bv1) ^ (((x2 << 5) >> 31) as bv1))
    requires (((v << 29) >> 31) as bv1) ==
             ((((y0 << 29) >> 31) as bv1) ^ (((y0 << 13) >> 31) as bv1) ^ (((y1 << 13) >> 31) as bv1) ^ (((y1 << 5) >> 31) as bv1) ^ (((y2 << 21) >> 31) as bv1) ^ (((y2 << 13) >> 31) as bv1) ^ (((y2 << 5) >> 31) as bv1))
    ensures (((t << 29) >> 31) as bv1) == (((u << 29) >> 31) as bv1) ^ (((v << 29) >> 31) as bv1)
  {
  }

  lemma XorBit3(t: bv32, u: bv32, v: bv32, x0: bv32, x1: bv32, x2: bv32, y0: bv32, y1: bv32, y2: bv32)
    requires (((t << 28) >> 31) as bv1) ==
             (((((x0 ^ y0) << 28) >> 31) as bv1) ^ ((((x0 ^ y0) << 12) >> 31) as bv1) ^ ((((x1 ^ y1) << 12) >> 31) as bv1) ^ ((((x1 ^ y1) << 4) >> 31) as bv1) ^ ((((x2 ^ y2) << 20) >> 31) as bv1) ^ ((((x2 ^ y2) << 12) >> 31) as bv1) ^ ((((x2 ^ y2) << 4) >> 31) as bv1))
    requires (((u << 28) >> 31) as bv1) ==
             ((((x0 << 28) >> 31) as bv1) ^ (((x0 << 12) >> 31) as bv1) ^ (((x1 << 12) >> 31) as bv1) ^ (((x1 << 4) >> 31) as bv1) ^ (((x2 << 20) >> 31) as bv1) ^ (((x2 << 12) >> 31) as bv1) ^ (((x2 << 4) >> 31) as bv1))
    requires (((v << 28) >> 31) as bv1) ==
             ((((y0 << 28) >> 31) as bv1) ^ (((y0 << 12) >> 31) as bv1) ^ (((y1 << 12) >> 31) as bv1) ^ (((y1 << 4) >> 31) as bv1) ^ (((y2 << 20) >> 31) as bv1) ^ (((y2 << 12) >> 31) as bv1) ^ (((y2 << 4) >> 31) as bv1))
    ensures (((t << 28) >> 31) as bv1) == (((u << 28) >> 31) as bv1) ^ (((v << 28) >> 31) as bv1)
  {
  }

  lemma XorBit4(t: bv32, u: bv32, v: bv32, x0: bv32, x1: bv32, x2: bv32, y0: bv32, y1: bv32, y2: bv32)
    requires (((t << 27) >> 31) as bv1) ==
             (((((x0 ^ y0) << 27) >> 31) as bv1) ^ ((((x0 ^ y0) << 11) >> 31) as bv1) ^ ((((x1 ^ y1) << 11) >> 31) as bv1) ^ ((((x1 ^ y1) << 3) >> 31) as bv1) ^ ((((x2 ^ y2) << 19) >> 31) as bv1) ^ ((((x2 ^ y2) << 11) >> 31) as bv1) ^ ((((x2 ^ y2) << 3) >> 31) as bv1))
    requires (((u << 27) >> 31) as bv1) ==
             ((((x0 << 27) >> 31) as bv1) ^ (((x0 << 11) >> 31) as bv1) ^ (((x1 << 11) >> 31) as bv1) ^ (((x1 << 3) >> 31) as bv1) ^ (((x2 << 19) >> 31) as bv1) ^ (((x2 << 11) >> 31) as bv1) ^ (((x2 << 3) >> 31) as bv1))
    requires (((v << 27) >> 31) as bv1) ==
             ((((y0 << 27) >> 31) as bv1) ^ (((y0 << 11) >> 31) as bv1) ^ (((y1 << 11) >> 31) as bv1) ^ (((y1 << 3) >> 31) as bv1) ^ (((y2 << 19) >> 31) as bv1) ^ (((y2 << 11) >> 31) as bv1) ^ (((y2 << 3) >> 31) as bv1))
    ensures (((t << 27) >> 31) as bv1) == (((u << 27) >> 31) as bv1) ^ (((v << 27) >> 31) as bv1)
  {
  }

  lemma XorBit5(t: bv32, u: bv32, v: bv32, x0: bv32, x1: bv32, x2: bv32, y0: bv32, y1: bv32, y2: bv32)
    requires (((t << 26) >> 31) as bv1) ==
             (((((x0 ^ y0) << 26) >> 31) as bv1) ^ ((((x0 ^ y0) << 10) >> 31) as bv1) ^ ((((x1 ^ y1) << 10) >> 31) as bv1) ^ ((((x1 ^ y1) << 2) >> 31) as bv1) ^ ((((x2 ^ y2) << 18) >> 31) as bv1) ^ ((((x2 ^ y2) << 10) >> 31) as bv1) ^ ((((x2 ^ y2) << 2) >> 31) as bv1))
    requires (((u << 26) >> 31) as bv1) ==
             ((((x0 << 26) >> 31) as bv1) ^ (((x0 << 10) >> 31) as bv1) ^ (((x1 << 10) >> 31) as bv1) ^ (((x1 << 2) >> 31) as bv1) ^ (((x2 << 18) >> 31) as bv1) ^ (((x2 << 10) >> 31) as bv1) ^ (((x2 << 2) >> 31) as bv1))
    requires (((v << 26) >> 31) as bv1) ==
             ((((y0 << 26) >> 31) as bv1) ^ (((y0 << 10) >> 31) as bv1) ^ (((y1 << 10) >> 31) as bv1) ^ (((y1 << 2) >> 31) as bv1) ^ (((y2 << 18) >> 31) as bv1) ^ (((y2 << 10) >> 31) as bv1) ^ (((y2 << 2) >> 31) as bv1))
    ensures (((t << 26) >> 31) as bv1) == (((u << 26) >> 31) as bv1) ^ (((v << 26) >> 31) as bv1)
  {
  }

  lemma XorBit6(t: bv32, u: bv32, v: bv32, x0: bv32, x1: bv32, x2: bv32, y0: bv32, y1: bv32, y2: bv32)
    requires (((t << 25) >> 31) as bv1) ==
             (((((x0 ^ y0) << 25) >> 31) as bv1) ^ ((((x0 ^ y0) << 9) >> 31) as bv1) ^ ((((x1 ^ y1) << 9) >> 31) as bv1) ^ ((((x1 ^ y1) << 1) >> 31) as bv1) ^ ((((x2 ^ y2) << 17) >> 31) as bv1) ^ ((((x2 ^ y2) << 9) >> 31) as bv1) ^ ((((x2 ^ y2) << 1) >> 31) as bv1))
    requires (((u << 25) >> 31) as bv1) ==
             ((((x0 << 25) >> 31) as bv1) ^ (((x0 << 9) >> 31) as bv1) ^ (((x1 << 9) >> 31) as bv1) ^ (((x1 << 1) >> 31) as bv1) ^ (((x2 << 17) >> 31) as bv1) ^ (((x2 << 9) >> 31) as bv1) ^ (((x2 << 1) >> 31) as bv1))
    requires (((v << 25) >> 31) as bv1) ==
             ((((y0 << 25) >> 31) as bv1) ^ (((y0 << 9) >> 31) as bv1) ^ (((y1 << 9) >> 31) as bv1) ^ (((y1 << 1) >> 31) as bv1) ^ (((y2 << 17) >> 31) as bv1) ^ (((y2 << 9) >> 31) as bv1) ^ (((y2 << 1) >> 31) as bv1))
    ensures (((t << 25) >> 31) as bv1) == (((u << 25) >> 31) as bv1) ^ (((v << 25) >> 31) as bv1)
  {
  }

  lemma XorBit7(t: bv32, u: bv32, v: bv32, x0: bv32, x1: bv32, x2: bv32, y0: bv32, y1: bv32, y2: bv32)
    requires (((t << 24) >> 31) as bv1) ==
             (((((x0 ^ y0) << 24) >> 31) as bv1) ^ ((((x0 ^ y0) << 8) >> 31) as bv1) ^ ((((x1 ^ y1) << 8) >> 31) as bv1) ^ ((((x1 ^ y1) << 0) >> 31) as bv1) ^ ((((x2 ^ y2) << 16) >> 31) as bv1) ^ ((((x2 ^ y2) << 8) >> 31) as bv1) ^ ((((x2 ^ y2) << 0) >> 31) as bv1))
    requires (((u << 24) >> 31) as bv1) ==
             ((((x0 << 24) >> 31) as bv1) ^ (((x0 << 8) >> 31) as bv1) ^ (((x1 << 8) >> 31) as bv1) ^ (((x1 << 0) >> 31) as bv1) ^ (((x2 << 16) >> 31) as bv1) ^ (((x2 << 8) >> 31) as bv1) ^ (((x2 << 0) >> 31) as bv1))
    requires (((v << 24) >> 31) as bv1) ==
             ((((y0 << 24) >> 31) as bv1) ^ (((y0 << 8) >> 31) as bv1) ^ (((y1 << 8) >> 31) as bv1) ^ (((y1 << 0) >> 31) as bv1) ^ (((y2 << 16) >> 31) as bv1) ^ (((y2 << 8) >> 31) as bv1) ^ (((y2 << 0) >> 31) as bv1))
    ensures (((t << 24) >> 31) as bv1) == (((u << 24) >> 31) as bv1) ^ (((v << 24) >> 31) as bv1)
  {
  }

  lemma XorBit8(t: bv32, u: bv32, v: bv32, x0: bv32, x1: bv32, x2: bv32, y0: bv32, y1: bv32, y2: bv32)
    requires (((t << 23) >> 31) as bv1) ==
             (((((x0 ^ y0) << 23) >> 31) as bv1) ^ ((((x0 ^ y0) << 7) >> 31) as bv1) ^ ((((x1 ^ y1) << 7) >> 31) as bv1) ^ ((((x2 ^ y2) << 31) >> 31) as bv1) ^ ((((x2 ^ y2) << 15) >> 31) as bv1) ^ ((((x2 ^ y2) << 7) >> 31) as bv1) ^ ((((x0 ^ y0) << 31) >> 31) as bv1))
    requires (((u << 23) >> 31) as bv1) ==
             ((((x0 << 23) >> 31) as bv1) ^ (((x0 << 7) >> 31) as bv1) ^ (((x1 << 7) >> 31) as bv1) ^ (((x2 << 31) >> 31) as bv1) ^ (((x2 << 15) >> 31) as bv1) ^ (((x2 << 7) >> 31) as bv1) ^ (((x0 << 31) >> 31) as bv1))
    requires (((v << 23) >> 31) as bv1) ==
             ((((y0 << 23) >> 31) as bv1) ^ (((y0 << 7) >> 31) as bv1) ^ (((y1 << 7) >> 31) as bv1) ^ (((y2 << 31) >> 31) as bv1) ^ (((y2 << 15) >> 31) as bv1) ^ (((y2 << 7) >> 31) as bv1) ^ (((y0 << 31) >> 31) as bv1))
    ensures (((t << 23) >> 31) as bv1) == (((u << 23) >> 31) as bv1) ^ (((v << 23) >> 31) as bv1)
  {
  }

  lemma XorBit9(t: bv32, u: bv32, v: bv32, x0: bv32, x1: bv32, x2: bv32, y0: bv32, y1: bv32, y2: bv32)
    requires (((t << 22) >> 31) as bv1) ==
             (((((x0 ^ y0) << 22) >> 31) as bv1) ^ ((((x0 ^ y0) << 6) >> 31) as bv1) ^ ((((x1 ^ y1) << 6) >> 31) as bv1) ^ ((((x2 ^ y2) << 30) >> 31) as bv1) ^ ((((x2 ^ y2) << 14) >> 31) as bv1) ^ ((((x2 ^ y2) << 6) >> 31) as bv1) ^ ((((x0 ^ y0) << 30) >> 31) as bv1))
    requires (((u << 22) >> 31) as bv1) ==
             ((((x0 << 22) >> 31) as bv1) ^ (((x0 << 6) >> 31) as bv1) ^ (((x1 << 6) >> 31) as bv1) ^ (((x2 << 30) >> 31) as bv1) ^ (((x2 << 14) >> 31) as bv1) ^ (((x2 << 6) >> 31) as bv1) ^ (((x0 << 30) >> 31) as bv1))
    requires (((v << 22) >> 31) as bv1) ==
             ((((y0 << 22) >> 31) as bv1) ^ (((y0 << 6) >> 31) as bv1) ^ (((y1 << 6) >> 31) as bv1) ^ (((y2 << 30) >> 31) as bv1) ^ (((y2 << 14) >> 31) as bv1) ^ (((y2 << 6) >> 31) as bv1) ^ (((y0 << 30) >> 31) as bv1))
    ensures (((t << 22) >> 31) as bv1) == (((u << 22) >> 31) as bv1) ^ (((v << 22) >> 31) as bv1)
  {
  }

  lemma XorBit10(t: bv32, u: bv32, v: bv32, x0: bv32, x1: bv32, x2: bv32, y0: bv32, y1: bv32, y2: bv32)
    requires (((t << 21) >> 31) as bv1) ==
             (((((x0 ^ y0) << 21) >> 31) as bv1) ^ ((((x0 ^ y0) << 5) >> 31) as bv1) ^ ((((x1 ^ y1) << 5) >> 31) as bv1) ^ ((((x2 ^ y2) << 29) >> 31) as bv1) ^ ((((x2 ^ y2) << 13) >> 31) as bv1) ^ ((((x2 ^ y2) << 5) >> 31) as bv1) ^ ((((x0 ^ y0) << 29) >> 31) as bv1))
    requires (((u << 21) >> 31) as bv1) ==
             ((((x0 << 21) >> 31) as bv1) ^ (((x0 << 5) >> 31) as bv1) ^ (((x1 << 5) >> 31) as bv1) ^ (((x2 << 29) >> 31) as bv1) ^ (((x2 << 13) >> 31) as bv1) ^ (((x2 << 5) >> 31) as bv1) ^ (((x0 << 29) >> 31) as bv1))
    requires (((v << 21) >> 31) as bv1) ==
             ((((y0 << 21) >> 31) as bv1) ^ (((y0 << 5) >> 31) as bv1) ^ (((y1 << 5) >> 31) as bv1) ^ (((y2 << 29) >> 31) as bv1) ^ (((y2 << 13) >> 31) as bv1) ^ (((y2 << 5) >> 31) as bv1) ^ (((y0 << 29) >> 31) as bv1))
    ensures (((t << 21) >> 31) as bv1) == (((u << 21) >> 31) as bv1) ^ (((v << 21) >> 31) as bv1)
  {
  }

  lemma XorBit11(t: bv32, u: bv32, v: bv32, x0: bv32, x1: bv32, x2: bv32, y0: bv32, y1: bv32, y2: bv32)
    requires (((t << 20) >> 31) as bv1) ==
             (((((x0 ^ y0) << 20) >> 31) as bv1) ^ ((((x0 ^ y0) << 4) >> 31) as bv1) ^ ((((x1 ^ y1) << 4) >> 31) as bv1) ^ ((((x2 ^ y2) << 28) >> 31) as bv1) ^ ((((x2 ^ y2) << 12) >> 31) as bv1) ^ ((((x2 ^ y2) << 4) >> 31) as bv1) ^ ((((x0 ^ y0) << 28) >> 31) as bv1))
    requires (((u << 20) >> 31) as bv1) ==
             ((((x0 << 20) >> 31) as bv1) ^ (((x0 << 4) >> 31) as bv1) ^ (((x1 << 4) >> 31) as bv1) ^ (((x2 << 28) >> 31) as bv1) ^ (((x2 << 12) >> 31) as bv1) ^ (((x2 << 4) >> 31) as bv1) ^ (((x0 << 28) >> 31) as bv1))
    requires (((v << 20) >> 31) as bv1) ==
             ((((y0 << 20) >> 31) as bv1) ^ (((y0 << 4) >> 31) as bv1) ^ (((y1 << 4) >> 31) as bv1) ^ (((y2 << 28) >> 31) as bv1) ^ (((y2 << 12) >> 31) as bv1) ^ (((y2 << 4) >> 31) as bv1) ^ (((y0 << 28) >> 31) as bv1))
    ensures (((t << 20) >> 31) as bv1) == (((u << 20) >> 31) as bv1) ^ (((v << 20) >> 31) as bv1)
  {
  }

  lemma XorBit12(t: bv32, u: bv32, v: bv32, x0: bv32, x1: bv32, x2: bv32, y0: bv32, y1: bv32, y2: bv32)
    requires (((t << 19) >> 31) as bv1) ==
             (((((x0 ^ y0) << 19) >> 31) as bv1) ^ ((((x0 ^ y0) << 3) >> 31) as bv1) ^ ((((x1 ^ y1) << 3) >> 31) as bv1) ^ ((((x2 ^ y2) << 27) >> 31) as bv1) ^ ((((x2 ^ y2) << 11) >> 31) as bv1) ^ ((((x2 ^ y2) << 3) >> 31) as bv1) ^ ((((x0 ^ y0) << 27) >> 31) as bv1))
    requires (((u << 19) >> 31) as bv1) ==
             ((((x0 << 19) >> 31) as bv1) ^ (((x0 << 3) >> 31) as bv1) ^ (((x1 << 3) >> 31) as bv1) ^ (((x2 << 27) >> 31) as bv1) ^ (((x2 << 11) >> 31) as bv1) ^ (((x2 << 3) >> 31) as bv1) ^ (((x0 << 27) >> 31) as bv1))
    requires (((v << 19) >> 31) as bv1) ==
             ((((y0 << 19) >> 31) as bv1) ^ (((y0 << 3) >> 31) as bv1) ^ (((y1 << 3) >> 31) as bv1) ^ (((y2 << 27) >> 31) as bv1) ^ (((y2 << 11) >> 31) as bv1) ^ (((y2 << 3) >> 31) as bv1) ^ (((y0 << 27) >> 31) as bv1))
    ensures (((t << 19) >> 31) as bv1) == (((u << 19) >> 31) as bv1) ^ (((v << 19) >> 31) as bv1)
  {
  }

  lemma XorBit13(t: bv32, u: bv32, v: bv32, x0: bv32, x1: bv32, x2: bv32, y0: bv32, y1: bv32, y2: bv32)
    requires (((t << 18) >> 31) as bv1) ==
             (((((x0 ^ y0) << 18) >> 31) as bv1) ^ ((((x0 ^ y0) << 2) >> 31) as bv1) ^ ((((x1 ^ y1) << 2) >> 31) as bv1) ^ ((((x2 ^ y2) << 26) >> 31) as bv1) ^ ((((x2 ^ y2) << 10) >> 31) as bv1) ^ ((((x2 ^ y2) << 2) >> 31) as bv1) ^ ((((x0 ^ y0) << 26) >> 31) as bv1))
    requires (((u << 18) >> 31) as bv1) ==
             ((((x0 << 18) >> 31) as bv1) ^ (((x0 << 2) >> 31) as bv1) ^ (((x1 << 2) >> 31) as bv1) ^ (((x2 << 26) >> 31) as bv1) ^ (((x2 << 10) >> 31) as bv1) ^ (((x2 << 2) >> 31) as bv1) ^ (((x0 << 26) >> 31) as bv1))
    requires (((v << 18) >> 31) as bv1) ==
             ((((y0 << 18) >> 31) as bv1) ^ (((y0 << 2) >> 31) as bv1) ^ (((y1 << 2) >> 31) as bv1) ^ (((y2 << 26) >> 31) as bv1) ^ (((y2 << 10) >> 31) as bv1) ^ (((y2 << 2) >> 31) as bv1) ^ (((y0 << 26) >> 31) as bv1))
    ensures (((t << 18) >> 31) as bv1) == (((u << 18) >> 31) as bv1) ^ (((v << 18) >> 31) as bv1)
  {
  }

  lemma XorBit14(t: bv32, u: bv32, v: bv32, x0: bv32, x1: bv32, x2: bv32, y0: bv32, y1: bv32, y2: bv32)
    requires (((t << 17) >> 31) as bv1) ==
             (((((x0 ^ y0) << 17) >> 31) as bv1) ^ ((((x0 ^ y0) << 1) >> 31) as bv1) ^ ((((x1 ^ y1) << 1) >> 31) as bv1) ^ ((((x2 ^ y2) << 25) >> 31) as bv1) ^ ((((x2 ^ y2) << 9) >> 31) as bv1) ^ ((((x2 ^ y2) << 1) >> 31) as bv1) ^ ((((x0 ^ y0) << 25) >> 31) as bv1))
    requires (((u << 17) >> 31) as bv1) ==
             ((((x0 << 17) >> 31) as bv1) ^ (((x0 << 1) >> 31) as bv1) ^ (((x1 << 1) >> 31) as bv1) ^ (((x2 << 25) >> 31) as bv1) ^ (((x2 << 9) >> 31) as bv1) ^ (((x2 << 1) >> 31) as bv1) ^ (((x0 << 25) >> 31) as bv1))
    requires (((v << 17) >> 31) as bv1) ==
             ((((y0 << 17) >> 31) as bv1) ^ (((y0 << 1) >> 31) as bv1) ^ (((y1 << 1) >> 31) as bv1) ^ (((y2 << 25) >> 31) as bv1) ^ (((y2 << 9) >> 31) as bv1) ^ (((y2 << 1) >> 31) as bv1) ^ (((y0 << 25) >> 31) as bv1))
    ensures (((t << 17) >> 31) as bv1) == (((u << 17) >> 31) as bv1) ^ (((v << 17) >> 31) as bv1)
  {
  }

  lemma XorBit15(t: bv32, u: bv32, v: bv32, x0: bv32, x1: bv32, x2: bv32, y0: bv32, y1: bv32, y2: bv32)
    requires (((t << 16) >> 31) as bv1) ==
             (((((x0 ^ y0) << 16) >> 31) as bv1) ^ ((((x0 ^ y0) << 0) >> 31) as bv1) ^ ((((x1 ^ y1) << 0) >> 31) as bv1) ^ ((((x2 ^ y2) << 24) >> 31) as bv1) ^ ((((x2 ^ y2) << 8) >> 31) as bv1) ^ ((((x2 ^ y2) << 0) >> 31) as bv1) ^ ((((x0 ^ y0) << 24) >> 31) as bv1))
    requires (((u << 16) >> 31) as bv1) ==
             ((((x0 << 16) >> 31) as bv1) ^ (((x0 << 0) >> 31) as bv1) ^ (((x1 << 0) >> 31) as bv1) ^ (((x2 << 24) >> 31) as bv1) ^ (((x2 << 8) >> 31) as bv1) ^ (((x2 << 0) >> 31) as bv1) ^ (((x0 << 24) >> 31) as bv1))
    requires (((v << 16) >> 31) as bv1) ==
             ((((y0 << 16) >> 31) as bv1) ^ (((y0 << 0) >> 31) as bv1) ^ (((y1 << 0) >> 31) as bv1) ^ (((y2 << 24) >> 31) as bv1) ^ (((y2 << 8) >> 31) as bv1) ^ (((y2 << 0) >> 31) as bv1) ^ (((y0 << 24) >> 31) as bv1))
    ensures (((t << 16) >> 31) as bv1) == (((u << 16) >> 31) as bv1) ^ (((v << 16) >> 31) as bv1)
  {
  }

  lemma XorBit16(t: bv32, u: bv32, v: bv32, x0: bv32, x1: bv32, x2: bv32, y0: bv32, y1: bv32, y2: bv32)
    requires (((t << 15) >> 31) as bv1) ==
             (((((x0 ^ y0) << 15) >> 31) as bv1) ^ ((((x1 ^ y1) << 31) >> 31) as bv1) ^ ((((x2 ^ y2) << 31) >> 31) as bv1) ^ ((((x2 ^ y2) << 23) >> 31) as bv1) ^ ((((x2 ^ y2) << 7) >> 31) as bv1) ^ ((((x0 ^ y0) << 31) >> 31) as bv1) ^ ((((x0 ^ y0) << 23) >> 31) as bv1))
    requires (((u << 15) >> 31) as bv1) ==
             ((((x0 << 15) >> 31) as bv1) ^ (((x1 << 31) >> 31) as bv1) ^ (((x2 << 31) >> 31) as bv1) ^ (((x2 << 23) >> 31) as bv1) ^ (((x2 << 7) >> 31) as bv1) ^ (((x0 << 31) >> 31) as bv1) ^ (((x0 << 23) >> 31) as bv1))
    requires (((v << 15) >> 31) as bv1) ==
             ((((y0 << 15) >> 31) as bv1) ^ (((y1 << 31) >> 31) as bv1) ^ (((y2 << 31) >> 31) as bv1) ^ (((y2 << 23) >> 31) as bv1) ^ (((y2 << 7) >> 31) as bv1) ^ (((y0 << 31) >> 31) as bv1) ^ (((y0 << 23) >> 31) as bv1))
    ensures (((t << 15) >> 31) as bv1) == (((u << 15) >> 31) as bv1) ^ (((v << 15) >> 31) as bv1)
  {
  }

  lemma XorBit17(t: bv32, u: bv32, v: bv32, x0: bv32, x1: bv32, x2: bv32, y0: bv32, y1: bv32, y2: bv32)
    requires (((t << 14) >> 31) as bv1) ==
             (((((x0 ^ y0) << 14) >> 31) as bv1) ^ ((((x1 ^ y1) << 30) >> 31) as bv1) ^ ((((x2 ^ y2) << 30) >> 31) as bv1) ^ ((((x2 ^ y2) << 22) >> 31) as bv1) ^ ((((x2 ^ y2) << 6) >> 31) as bv1) ^ ((((x0 ^ y0) << 30) >> 31) as bv1) ^ ((((x0 ^ y0) << 22) >> 31) as bv1))
    requires (((u << 14) >> 31) as bv1) ==
             ((((x0 << 14) >> 31) as bv1) ^ (((x1 << 30) >> 31) as bv1) ^ (((x2 << 30) >> 31) as bv1) ^ (((x2 << 22) >> 31) as bv1) ^ (((x2 << 6) >> 31) as bv1) ^ (((x0 << 30) >> 31) as bv1) ^ (((x0 << 22) >> 31) as bv1))
    requires (((v << 14) >> 31) as bv1) ==
             ((((y0 << 14) >> 31) as bv1) ^ (((y1 << 30) >> 31) as bv1) ^ (((y2 << 30) >> 31) as bv1) ^ (((y2 << 22) >> 31) as bv1) ^ (((y2 << 6) >> 31) as bv1) ^ (((y0 << 30) >> 31) as bv1) ^ (((y0 << 22) >> 31) as bv1))
    ensures (((t << 14) >> 31) as bv1) == (((u << 14) >> 31) as bv1) ^ (((v << 14) >> 31) as bv1)
  {
  }

  lemma XorBit18(t: bv32, u: bv32, v: bv32, x0: bv32, x1: bv32, x2: bv32, y0: bv32, y1: bv32, y2: bv32)
    requires (((t << 13) >> 31) as bv1) ==
             (((((x0 ^ y0) << 13) >> 31) as bv1) ^ ((((x1 ^ y1) << 29) >> 31) as bv1) ^ ((((x2 ^ y2) << 29) >> 31) as bv1) ^ ((((x2 ^ y2) << 21) >> 31) as bv1) ^ ((((x2 ^ y2) << 5) >> 31) as bv1) ^ ((((x0 ^ y0) << 29) >> 31) as bv1) ^ ((((x0 ^ y0) << 21) >> 31) as bv1))
    requires (((u << 13) >> 31) as bv1) ==
             ((((x0 << 13) >> 31) as bv1) ^ (((x1 << 29) >> 31) as bv1) ^ (((x2 << 29) >> 31) as bv1) ^ (((x2 << 21) >> 31) as bv1) ^ (((x2 << 5) >> 31) as bv1) ^ (((x0 << 29) >> 31) as bv1) ^ (((x0 << 21) >> 31) as bv1))
    requires (((v << 13) >> 31) as bv1) ==
             ((((y0 << 13) >> 31) as bv1) ^ (((y1 << 29) >> 31) as bv1) ^ (((y2 << 29) >> 31) as bv1) ^ (((y2 << 21) >> 31) as bv1) ^ (((y2 << 5) >> 31) as bv1) ^ (((y0 << 29) >> 31) as bv1) ^ (((y0 << 21) >> 31) as bv1))
    ensures (((t << 13) >> 31) as bv1) == (((u << 13) >> 31) as bv1) ^ (((v << 13) >> 31) as bv1)
  {
  }

  lemma XorBit19(t: bv32, u: bv32, v: bv32, x0: bv32, x1: bv32, x2: bv32, y0: bv32, y1: bv32, y2: bv32)
    requires (((t << 12) >> 31) as bv1) ==
             (((((x0 ^ y0) << 12) >> 31) as bv1) ^ ((((x1 ^ y1) << 28) >> 31) as bv1) ^ ((((x2 ^ y2) << 28) >> 31) as bv1) ^ ((((x2 ^ y2) << 20) >> 31) as bv1) ^ ((((x2 ^ y2) << 4) >> 31) as bv1) ^ ((((x0 ^ y0) << 28) >> 31) as bv1) ^ ((((x0 ^ y0) << 20) >> 31) as bv1))
    requires (((u << 12) >> 31) as bv1) ==
             ((((x0 << 12) >> 31) as bv1) ^ (((x1 << 28) >> 31) as bv1) ^ (((x2 << 28) >> 31) as bv1) ^ (((x2 << 20) >> 31) as bv1) ^ (((x2 << 4) >> 31) as bv1) ^ (((x0 << 28) >> 31) as bv1) ^ (((x0 << 20) >> 31) as bv1))
    requires (((v << 12) >> 31) as bv1) ==
             ((((y0 << 12) >> 31) as bv1) ^ (((y1 << 28) >> 31) as bv1) ^ (((y2 << 28) >> 31) as bv1) ^ (((y2 << 20) >> 31) as bv1) ^ (((y2 << 4) >> 31) as bv1) ^ (((y0 << 28) >> 31) as bv1) ^ (((y0 << 20) >> 31) as bv1))
    ensures (((t << 12) >> 31) as bv1) == (((u << 12) >> 31) as bv1) ^ (((v << 12) >> 31) as bv1)
  {
  }

  lemma XorBit20(t: bv32, u: bv32, v: bv32, x0: bv32, x1: bv32, x2: bv32, y0: bv32, y1: bv32, y2: bv32)
    requires (((t << 11) >> 31) as bv1) ==
             (((((x0 ^ y0) << 11) >> 31) as bv1) ^ ((((x1 ^ y1) << 27) >> 31) as bv1) ^ ((((x2 ^ y2) << 27) >> 31) as bv1) ^ ((((x2 ^ y2) << 19) >> 31) as bv1) ^ ((((x2 ^ y2) << 3) >> 31) as bv1) ^ ((((x0 ^ y0) << 27) >> 31) as bv1) ^ ((((x0 ^ y0) << 19) >> 31) as bv1))
    requires (((u << 11) >> 31) as bv1) ==
             ((((x0 << 11) >> 31) as bv1) ^ (((x1 << 27) >> 31) as bv1) ^ (((x2 << 27) >> 31) as bv1) ^ (((x2 << 19) >> 31) as bv1) ^ (((x2 << 3) >> 31) as bv1) ^ (((x0 << 27) >> 31) as bv1) ^ (((x0 << 19) >> 31) as bv1))
    requires (((v << 11) >> 31) as bv1) ==
             ((((y0 << 11) >> 31) as bv1) ^ (((y1 << 27) >> 31) as bv1) ^ (((y2 << 27) >> 31) as bv1) ^ (((y2 << 19) >> 31) as bv1) ^ (((y2 << 3) >> 31) as bv1) ^ (((y0 << 27) >> 31) as bv1) ^ (((y0 << 19) >> 31) as bv1))
    ensures (((t << 11) >> 31) as bv1) == (((u << 11) >> 31) as bv1) ^ (((v << 11) >> 31) as bv1)
  {
  }

  lemma XorBit21(t: bv32, u: bv32, v: bv32, x0: bv32, x1: bv32, x2: bv32, y0: bv32, y1: bv32, y2: bv32)
    requires (((t << 10) >> 31) as bv1) ==
             (((((x0 ^ y0) << 10) >> 31) as bv1) ^ ((((x1 ^ y1) << 26) >> 31) as bv1) ^ ((((x2 ^ y2) << 26) >> 31) as bv1) ^ ((((x2 ^ y2) << 18) >> 31) as bv1) ^ ((((x2 ^ y2) << 2) >> 31) as bv1) ^ ((((x0 ^ y0) << 26) >> 31) as bv1) ^ ((((x0 ^ y0) << 18) >> 31) as bv1))
    requires (((u << 10) >> 31) as bv1) ==
             ((((x0 << 10) >> 31) as bv1) ^ (((x1 << 26) >> 31) as bv1) ^ (((x2 << 26) >> 31) as bv1) ^ (((x2 << 18) >> 31) as bv1) ^ (((x2 << 2) >> 31) as bv1) ^ (((x0 << 26) >> 31) as bv1) ^ (((x0 << 18) >> 31) as bv1))
    requires (((v << 10) >> 31) as bv1) ==
             ((((y0 << 10) >> 31) as bv1) ^ (((y1 << 26) >> 31) as bv1) ^ (((y2 << 26) >> 31) as bv1) ^ (((y2 << 18) >> 31) as bv1) ^ (((y2 << 2) >> 31) as bv1) ^ (((y0 << 26) >> 31) as bv1) ^ (((y0 << 18) >> 31) as bv1))
    ensures (((t << 10) >> 31) as bv1) == (((u << 10) >> 31) as bv1) ^ (((v << 10) >> 31) as bv1)
  {
  }

  lemma XorBit22(t: bv32, u: bv32, v: bv32, x0: bv32, x1: bv32, x2: bv32, y0: bv32, y1: bv32, y2: bv32)
    requires (((t << 9) >> 31) as bv1) ==
             (((((x0 ^ y0) << 9) >> 31) as bv1) ^ ((((x1 ^ y1) << 25) >> 31) as bv1) ^ ((((x2 ^ y2) << 25) >> 31) as bv1) ^ ((((x2 ^ y2) << 17) >> 31) as bv1) ^ ((((x2 ^ y2) << 1) >> 31) as bv1) ^ ((((x0 ^ y0) << 25) >> 31) as bv1) ^ ((((x0 ^ y0) << 17) >> 31) as bv1))
    requires (((u << 9) >> 31) as bv1) ==
             ((((x0 << 9) >> 31) as bv1) ^ (((x1 << 25) >> 31) as bv1) ^ (((x2 << 25) >> 31) as bv1) ^ (((x2 << 17) >> 31) as bv1) ^ (((x2 << 1) >> 31) as bv1) ^ (((x0 << 25) >> 31) as bv1) ^ (((x0 << 17) >> 31) as bv1))
    requires (((v << 9) >> 31) as bv1) ==
             ((((y0 << 9) >> 31) as bv1) ^ (((y1 << 25) >> 31) as bv1) ^ (((y2 << 25) >> 31) as bv1) ^ (((y2 << 17) >> 31) as bv1) ^ (((y2 << 1) >> 31) as bv1) ^ (((y0 << 25) >> 31) as bv1) ^ (((y0 << 17) >> 31) as bv1))
    ensures (((t << 9) >> 31) as bv1) == (((u << 9) >> 31) as bv1) ^ (((v << 9) >> 31) as bv1)
  {
  }

  lemma XorBit23(t: bv32, u: bv32, v: bv32, x0: bv32, x1: bv32, x2: bv32, y0: bv32, y1: bv32, y2: bv32)
    requires (((t << 8) >> 31) as bv1) ==
             (((((x0 ^ y0) << 8) >> 31) as bv1) ^ ((((x1 ^ y1) << 24) >> 31) as bv1) ^ ((((x2 ^ y2) << 24) >> 31) as bv1) ^ ((((x2 ^ y2) << 16) >> 31) as bv1) ^ ((((x2 ^ y2) << 0) >> 31) as bv1) ^ ((((x0 ^ y0) << 24) >> 31) as bv1) ^ ((((x0 ^ y0) << 16) >> 31) as bv1))
    requires (((u << 8) >> 31) as bv1) ==
             ((((x0 << 8) >> 31) as bv1) ^ (((x1 << 24) >> 31) as bv1) ^ (((x2 << 24) >> 31) as bv1) ^ (((x2 << 16) >> 31) as bv1) ^ (((x2 << 0) >> 31) as bv1) ^ (((x0 << 24) >> 31) as bv1) ^ (((x0 << 16) >> 31) as bv1))
    requires (((v << 8) >> 31) as bv1) ==
             ((((y0 << 8) >> 31) as bv1) ^ (((y1 << 24) >> 31) as bv1) ^ (((y2 << 24) >> 31) as bv1) ^ (((y2 << 16) >> 31) as bv1) ^ (((y2 << 0) >> 31) as bv1) ^ (((y0 << 24) >> 31) as bv1) ^ (((y0 << 16) >> 31) as bv1))
    ensures (((t << 8) >> 31) as bv1) == (((u << 8) >> 31) as bv1) ^ (((v << 8) >> 31) as bv1)
  {
  }

  lemma XorBit24(t: bv32, u: bv32, v: bv32, x0: bv32, x1: bv32, x2: bv32, y0: bv32, y1: bv32, y2: bv32)
    requires (((t << 7) >> 31) as bv1) ==
             (((((x0 ^ y0) << 7) >> 31) as bv1) ^ ((((x1 ^ y1) << 23) >> 31) as bv1) ^ ((((x2 ^ y2) << 23) >> 31) as bv1) ^ ((((x2 ^ y2) << 15) >> 31) as bv1) ^ ((((x0 ^ y0) << 31) >> 31) as bv1) ^ ((((x0 ^ y0) << 23) >> 31) as bv1) ^ ((((x0 ^ y0) << 15) >> 31) as bv1))
    requires (((u << 7) >> 31) as bv1) ==
             ((((x0 << 7) >> 31) as bv1) ^ (((x1 << 23) >> 31) as bv1) ^ (((x2 << 23) >> 31) as bv1) ^ (((x2 << 15) >> 31) as bv1) ^ (((x0 << 31) >> 31) as bv1) ^ (((x0 << 23) >> 31) as bv1) ^ (((x0 << 15) >> 31) as bv1))
    requires (((v << 7) >> 31) as bv1) ==
             ((((y0 << 7) >> 31) as bv1) ^ (((y1 << 23) >> 31) as bv1) ^ (((y2 << 23) >> 31) as bv1) ^ (((y2 << 15) >> 31) as bv1) ^ (((y0 << 31) >> 31) as bv1) ^ (((y0 << 23) >> 31) as bv1) ^ (((y0 << 15) >> 31) as bv1))
    ensures (((t << 7) >> 31) as bv1) == (((u << 7) >> 31) as bv1) ^ (((v << 7) >> 31) as bv1)
  {
  }

  lemma XorBit25(t: bv32, u: bv32, v: bv32, x0: bv32, x1: bv32, x2: bv32, y0: bv32, y1: bv32, y2: bv32)
    requires (((t << 6) >> 31) as bv1) ==
             (((((x0 ^ y0) << 6) >> 31) as bv1) ^ ((((x1 ^ y1) << 22) >> 31) as bv1) ^ ((((x2 ^ y2) << 22) >> 31) as bv1) ^ ((((x2 ^ y2) << 14) >> 31) as bv1) ^ ((((x0 ^ y0) << 30) >> 31) as bv1) ^ ((((x0 ^ y0) << 22) >> 31) as bv1) ^ ((((x0 ^ y0) << 14) >> 31) as bv1))
    requires (((u << 6) >> 31) as bv1) ==
             ((((x0 << 6) >> 31) as bv1) ^ (((x1 << 22) >> 31) as bv1) ^ (((x2 << 22) >> 31) as bv1) ^ (((x2 << 14) >> 31) as bv1) ^ (((x0 << 30) >> 31) as bv1) ^ (((x0 << 22) >> 31) as bv1) ^ (((x0 << 14) >> 31) as bv1))
    requires (((v << 6) >> 31) as bv1) ==
             ((((y0 << 6) >> 31) as bv1) ^ (((y1 << 22) >> 31) as bv1) ^ (((y2 << 22) >> 31) as bv1) ^ (((y2 << 14) >> 31) as bv1) ^ (((y0 << 30) >> 31) as bv1) ^ (((y0 << 22) >> 31) as bv1) ^ (((y0 << 14) >> 31) as bv1))
    ensures (((t << 6) >> 31) as bv1) == (((u << 6) >> 31) as bv1) ^ (((v << 6) >> 31) as bv1)
  {
  }

  lemma XorBit26(t: bv32, u: bv32, v: bv32, x0: bv32, x1: bv32, x2: bv32, y0: bv32, y1: bv32, y2: bv32)
    requires (((t << 5) >> 31) as bv1) ==
             (((((x0 ^ y0) << 5) >> 31) as bv1) ^ ((((x1 ^ y1) << 21) >> 31) as bv1) ^ ((((x2 ^ y2) << 21) >> 31) as bv1) ^ ((((x2 ^ y2) << 13) >> 31) as bv1) ^ ((((x0 ^ y0) << 29) >> 31) as bv1) ^ ((((x0 ^ y0) << 21) >> 31) as bv1) ^ ((((x0 ^ y0) << 13) >> 31) as bv1))
    requires (((u << 5) >> 31) as bv1) ==
             ((((x0 << 5) >> 31) as bv1) ^ (((x1 << 21) >> 31) as bv1) ^ (((x2 << 21) >> 31) as bv1) ^ (((x2 << 13) >> 31) as bv1) ^ (((x0 << 29) >> 31) as bv1) ^ (((x0 << 21) >> 31) as bv1) ^ (((x0 << 13) >> 31) as bv1))
    requires (((v << 5) >> 31) as bv1) ==
             ((((y0 << 5) >> 31) as bv1) ^ (((y1 << 21) >> 31) as bv1) ^ (((y2 << 21) >> 31) as bv1) ^ (((y2 << 13) >> 31) as bv1) ^ (((y0 << 29) >> 31) as bv1) ^ (((y0 << 21) >> 31) as bv1) ^ (((y0 << 13) >> 31) as bv1))
    ensures (((t << 5) >> 31) as bv1) == (((u << 5) >> 31) as bv1) ^ (((v << 5) >> 31) as bv1)
  {
  }

  lemma XorBit27(t: bv32, u: bv32, v: bv32, x0: bv32, x1: bv32, x2: bv32, y0: bv32, y1: bv32, y2: bv32)
    requires (((t << 4) >> 31) as bv1) ==
             (((((x0 ^ y0) << 4) >> 31) as bv1) ^ ((((x1 ^ y1) << 20) >> 31) as bv1) ^ ((((x2 ^ y2) << 20) >> 31) as bv1) ^ ((((x2 ^ y2) << 12) >> 31) as bv1) ^ ((((x0 ^ y0) << 28) >> 31) as bv1) ^ ((((x0 ^ y0) << 20) >> 31) as bv1) ^ ((((x0 ^ y0) << 12) >> 31) as bv1))
    requires (((u << 4) >> 31) as bv1) ==
             ((((x0 << 4) >> 31) as bv1) ^ (((x1 << 20) >> 31) as bv1) ^ (((x2 << 20) >> 31) as bv1) ^ (((x2 << 12) >> 31) as bv1) ^ (((x0 << 28) >> 31) as bv1) ^ (((x0 << 20) >> 31) as bv1) ^ (((x0 << 12) >> 31) as bv1))
    requires (((v << 4) >> 31) as bv1) ==
             ((((y0 << 4) >> 31) as bv1) ^ (((y1 << 20) >> 31) as bv1) ^ (((y2 << 20) >> 31) as bv1) ^ (((y2 << 12) >> 31) as bv1) ^ (((y0 << 28) >> 31) as bv1) ^ (((y0 << 20) >> 31) as bv1) ^ (((y0 << 12) >> 31) as bv1))
    ensures (((t << 4) >> 31) as bv1) == (((u << 4) >> 31) as bv1) ^ (((v << 4) >> 31) as bv1)
  {
  }

  lemma XorBit28(t: bv32, u: bv32, v: bv32, x0: bv32, x1: bv32, x2: bv32, y0: bv32, y1: bv32, y2: bv32)
    requires (((t << 3) >> 31) as bv1) ==
             (((((x0 ^ y0) << 3) >> 31) as bv1) ^ ((((x1 ^ y1) << 19) >> 31) as bv1) ^ ((((x2 ^ y2) << 19) >> 31) as bv1) ^ ((((x2 ^ y2) << 11) >> 31) as bv1) ^ ((((x0 ^ y0) << 27) >> 31) as bv1) ^ ((((x0 ^ y0) << 19) >> 31) as bv1) ^ ((((x0 ^ y0) << 11) >> 31) as bv1))
    requires (((u << 3) >> 31) as bv1) ==
             ((((x0 << 3) >> 31) as bv1) ^ (((x1 << 19) >> 31) as bv1) ^ (((x2 << 19) >> 31) as bv1) ^ (((x2 << 11) >> 31) as bv1) ^ (((x0 << 27) >> 31) as bv1) ^ (((x0 << 19) >> 31) as bv1) ^ (((x0 << 11) >> 31) as bv1))
    requires (((v << 3) >> 31) as bv1) ==
             ((((y0 << 3) >> 31) as bv1) ^ (((y1 << 19) >> 31) as bv1) ^ (((y2 << 19) >> 31) as bv1) ^ (((y2 << 11) >> 31) as bv1) ^ (((y0 << 27) >> 31) as bv1) ^ (((y0 << 19) >> 31) as bv1) ^ (((y0 << 11) >> 31) as bv1))
    ensures (((t << 3) >> 31) as bv1) == (((u << 3) >> 31) as bv1) ^ (((v << 3) >> 31) as bv1)
  {
  }

  lemma XorBit29(t: bv32, u: bv32, v: bv32, x0: bv32, x1: bv32, x2: bv32, y0: bv32, y1: bv32, y2: bv32)
    requires (((t << 2) >> 31) as bv1) ==
             (((((x0 ^ y0) << 2) >> 31) as bv1) ^ ((((x1 ^ y1) << 18) >> 31) as bv1) ^ ((((x2 ^ y2) << 18) >> 31) as bv1) ^ ((((x2 ^ y2) << 10) >> 31) as bv1) ^ ((((x0 ^ y0) << 26) >> 31) as bv1) ^ ((((x0 ^ y0) << 18) >> 31) as bv1) ^ ((((x0 ^ y0) << 10) >> 31) as bv1))
    requires (((u << 2) >> 31) as bv1) ==
             ((((x0 << 2) >> 31) as bv1) ^ (((x1 << 18) >> 31) as bv1) ^ (((x2 << 18) >> 31) as bv1) ^ (((x2 << 10) >> 31) as bv1) ^ (((x0 << 26) >> 31) as bv1) ^ (((x0 << 18) >> 31) as bv1) ^ (((x0 << 10) >> 31) as bv1))
    requires (((v << 2) >> 31) as bv1) ==
             ((((y0 << 2) >> 31) as bv1) ^ (((y1 << 18) >> 31) as bv1) ^ (((y2 << 18) >> 31) as bv1) ^ (((y2 << 10) >> 31) as bv1) ^ (((y0 << 26) >> 31) as bv1) ^ (((y0 << 18) >> 31) as bv1) ^ (((y0 << 10) >> 31) as bv1))
    ensures (((t << 2) >> 31) as bv1) == (((u << 2) >> 31) as bv1) ^ (((v << 2) >> 31) as bv1)
  {
  }

  lemma XorBit30(t: bv32, u: bv32, v: bv32, x0: bv32, x1: bv32, x2: bv32, y0: bv32, y1: bv32, y2: bv32)
    requires (((t << 1) >> 31) as bv1) ==
             (((((x0 ^ y0) << 1) >> 31) as bv1) ^ ((((x1 ^ y1) << 17) >> 31) as bv1) ^ ((((x2 ^ y2) << 17) >> 31) as bv1) ^ ((((x2 ^ y2) << 9) >> 31) as bv1) ^ ((((x0 ^ y0) << 25) >> 31) as bv1) ^ ((((x0 ^ y0) << 17) >> 31) as bv1) ^ ((((x0 ^ y0) << 9) >> 31) as bv1))
    requires (((u << 1) >> 31) as bv1) ==
             ((((x0 << 1) >> 31) as bv1) ^ (((x1 << 17) >> 31) as bv1) ^ (((x2 << 17) >> 31) as bv1) ^ (((x2 << 9) >> 31) as bv1) ^ (((x0 << 25) >> 31) as bv1) ^ (((x0 << 17) >> 31) as bv1) ^ (((x0 << 9) >> 31) as bv1))
    requires (((v << 1) >> 31) as bv1) ==
             ((((y0 << 1) >> 31) as bv1) ^ (((y1 << 17) >> 31) as bv1) ^ (((y2 << 17) >> 31) as bv1) ^ (((y2 << 9) >> 31) as bv1) ^ (((y0 << 25) >> 31) as bv1) ^ (((y0 << 17) >> 31) as bv1) ^ (((y0 << 9) >> 31) as bv1))
    ensures (((t << 1) >> 31) as bv1) == (((u << 1) >> 31) as bv1) ^ (((v << 1) >> 31) as bv1)
  {
  }

  lemma XorBit31(t: bv32, u: bv32, v: bv32, x0: bv32, x1: bv32, x2: bv32, y0: bv32, y1: bv32, y2: bv32)
    requires (((t << 0) >> 31) as bv1) ==
             (((((x0 ^ y0) << 0) >> 31) as bv1) ^ ((((x1 ^ y1) << 16) >> 31) as bv1) ^ ((((x2 ^ y2) << 16) >> 31) as bv1) ^ ((((x2 ^ y2) << 8) >> 31) as bv1) ^ ((((x0 ^ y0) << 24) >> 31) as bv1) ^ ((((x0 ^ y0) << 16) >> 31) as bv1) ^ ((((x0 ^ y0) << 8) >> 31) as bv1))
    requires (((u << 0) >> 31) as bv1) ==
             ((((x0 << 0) >> 31) as bv1) ^ (((x1 << 16) >> 31) as bv1) ^ (((x2 << 16) >> 31) as bv1) ^ (((x2 << 8) >> 31) as bv1) ^ (((x0 << 24) >> 31) as bv1) ^ (((x0 << 16) >> 31) as bv1) ^ (((x0 << 8) >> 31) as bv1))
    requires (((v << 0) >> 31) as bv1) ==
             ((((y0 << 0) >> 31) as bv1) ^ (((y1 << 16) >> 31) as bv1) ^ (((y2 << 16) >> 31) as bv1) ^ (((y2 << 8) >> 31) as bv1) ^ (((y0 << 24) >> 31) as bv1) ^ (((y0 << 16) >> 31) as bv1) ^ (((y0 << 8) >> 31) as bv1))
    ensures (((t << 0) >> 31) as bv1) == (((u << 0) >> 31) as bv1) ^ (((v << 0) >> 31) as bv1)
  {
  }

  /** A word whose 32 bits are those of q ^ r is q ^ r. */
  lemma WordFromBits(p: bv32, q: bv32, r: bv32)
    requires (((p << 31) >> 31) as bv1) == (((q << 31) >> 31) as bv1) ^ (((r << 31) >> 31) as bv1) &&
             (((p << 30) >> 31) as bv1) == (((q << 30) >> 31) as bv1) ^ (((r << 30) >> 31) as bv1) &&
             (((p << 29) >> 31) as bv1) == (((q << 29) >> 31) as bv1) ^ (((r << 29) >> 31) as bv1) &&
             (((p << 28) >> 31) as bv1) == (((q << 28) >> 31) as bv1) ^ (((r << 28) >> 31) as bv1) &&
             (((p << 27) >> 31) as bv1) == (((q << 27) >> 31) as bv1) ^ (((r << 27) >> 31) as bv1) &&
             (((p << 26) >> 31) as bv1) == (((q << 26) >> 31) as bv1) ^ (((r << 26) >> 31) as bv1) &&
             (((p << 25) >> 31) as bv1) == (((q << 25) >> 31) as bv1) ^ (((r << 25) >> 31) as bv1) &&
             (((p << 24) >> 31) as bv1) == (((q << 24) >> 31) as bv1) ^ (((r << 24) >> 31) as bv1) &&
             (((p << 23) >> 31) as bv1) == (((q << 23) >> 31) as bv1) ^ (((r << 23) >> 31) as bv1) &&
             (((p << 22) >> 31) as bv1) == (((q << 22) >> 31) as bv1) ^ (((r << 22) >> 31) as bv1) &&
             (((p << 21) >> 31) as bv1) == (((q << 21) >> 31) as bv1) ^ (((r << 21) >> 31) as bv1) &&
             (((p << 20) >> 31) as bv1) == (((q << 20) >> 31) as bv1) ^ (((r << 20) >> 31) as bv1) &&
             (((p << 19) >> 31) as bv1) == (((q << 19) >> 31) as bv1) ^ (((r << 19) >> 31) as bv1) &&
             (((p << 18) >> 31) as bv1) == (((q << 18) >> 31) as bv1) ^ (((r << 18) >> 31) as bv1) &&
             (((p << 17) >> 31) as bv1) == (((q << 17) >> 31) as bv1) ^ (((r << 17) >> 31) as bv1) &&
             (((p << 16) >> 31) as bv1) == (((q << 16) >> 31) as bv1) ^ (((r << 16) >> 31) as bv1) &&
             (((p << 15) >> 31) as bv1) == (((q << 15) >> 31) as bv1) ^ (((r << 15) >> 31) as bv1) &&
             (((p << 14) >> 31) as bv1) == (((q << 14) >> 31) as bv1) ^ (((r << 14) >> 31) as bv1) &&
             (((p << 13) >> 31) as bv1) == (((q << 13) >> 31) as bv1) ^ (((r << 13) >> 31) as bv1) &&
             (((p << 12) >> 31) as bv1) == (((q << 12) >> 31) as bv1) ^ (((r << 12) >> 31) as bv1) &&
             (((p << 11) >> 31) as bv1) == (((q << 11) >> 31) as bv1) ^ (((r << 11) >> 31) as bv1) &&
             (((p << 10) >> 31) as bv1) == (((q << 10) >> 31) as bv1) ^ (((r << 10) >> 31) as bv1) &&
             (((p << 9) >> 31) as bv1) == (((q << 9) >> 31) as bv1) ^ (((r << 9) >> 31) as bv1) &&
             (((p << 8) >> 31) as bv1) == (((q << 8) >> 31) as bv1) ^ (((r << 8) >> 31) as bv1) &&
             (((p << 7) >> 31) as bv1) == (((q << 7) >> 31) as bv1) ^ (((r << 7) >> 31) as bv1) &&
             (((p << 6) >> 31) as bv1) == (((q << 6) >> 31) as bv1) ^ (((r << 6) >> 31) as bv1) &&
             (((p << 5) >> 31) as bv1) == (((q << 5) >> 31) as bv1) ^ (((r << 5) >> 31) as bv1) &&
             (((p << 4) >> 31) as bv1) == (((q << 4) >> 31) as bv1) ^ (((r << 4) >> 31) as bv1) &&
             (((p << 3) >> 31) as bv1) == (((q << 3) >> 31) as bv1) ^ (((r << 3) >> 31) as bv1) &&
             (((p << 2) >> 31) as bv1) == (((q << 2) >> 31) as bv1) ^ (((r << 2) >> 31) as bv1) &&
             (((p << 1) >> 31) as bv1) == (((q << 1) >> 31) as bv1) ^ (((r << 1) >> 31) as bv1) &&
             (((p << 0) >> 31) as bv1) == (((q << 0) >> 31) as bv1) ^ (((r << 0) >> 31) as bv1)
    ensures p == q ^ r
  {
  }

  /** The formula is linear, for words named t, u and v. */
  lemma ThetaFormulaXor(t: bv32, u: bv32, v: bv32, x0: bv32, x1: bv32, x2: bv32, y0: bv32, y1: bv32, y2: bv32)
    requires t == (x0 ^ y0) ^ ((x0 ^ y0) >> 16) ^ ((x1 ^ y1) << 16) ^ ((x1 ^ y1) >> 16) ^ ((x2 ^ y2) << 16) ^ ((x1 ^ y1) >> 24) ^
      ((x2 ^ y2) << 8) ^ ((x2 ^ y2) >> 8) ^ ((x0 ^ y0) << 24) ^ ((x2 ^ y2) >> 16) ^ ((x0 ^ y0) << 16) ^ ((x2 ^ y2) >> 24) ^ ((x0 ^ y0) << 8)
    requires u == x0 ^ (x0 >> 16) ^ (x1 << 16) ^ (x1 >> 16) ^ (x2 << 16) ^ (x1 >> 24) ^
      (x2 << 8) ^ (x2 >> 8) ^ (x0 << 24) ^ (x2 >> 16) ^ (x0 << 16) ^ (x2 >> 24) ^ (x0 << 8)
    requires v == y0 ^ (y0 >> 16) ^ (y1 << 16) ^ (y1 >> 16) ^ (y2 << 16) ^ (y1 >> 24) ^
      (y2 << 8) ^ (y2 >> 8) ^ (y0 << 24) ^ (y2 >> 16) ^ (y0 << 16) ^ (y2 >> 24) ^ (y0 << 8)
    ensures t == u ^ v
  {
    ThetaWordBits(u, x0, x1, x2);
    ThetaWordBits(v, y0, y1, y2);
    ThetaWordSumBits(t, x0, x1, x2, y0, y1, y2);
    XorBit0(t, u, v, x0, x1, x2, y0, y1, y2);
    XorBit1(t, u, v, x0, x1, x2, y0, y1, y2);
    XorBit2(t, u, v, x0, x1, x2, y0, y1, y2);
    XorBit3(t, u, v, x0, x1, x2, y0, y1, y2);
    XorBit4(t, u, v, x0, x1, x2, y0, y1, y2);
    XorBit5(t, u, v, x0, x1, x2, y0, y1, y2);
    XorBit6(t, u, v, x0, x1, x2, y0, y1, y2);
    XorBit7(t, u, v, x0, x1, x2, y0, y1, y2);
    XorBit8(t, u, v, x0, x1, x2, y0, y1, y2);
    XorBit9(t, u, v, x0, x1, x2, y0, y1, y2);
    XorBit10(t, u, v, x0, x1, x2, y0, y1, y2);
    XorBit11(t, u, v, x0, x1, x2, y0, y1, y2);
    XorBit12(t, u, v, x0, x1, x2, y0, y1, y2);
    XorBit13(t, u, v, x0, x1, x2, y0, y1, y2);
    XorBit14(t, u, v, x0, x1, x2, y0, y1, y2);
    XorBit15(t, u, v, x0, x1, x2, y0, y1, y2);
    XorBit16(t, u, v, x0, x1, x2, y0, y1, y2);
    XorBit17(t, u, v, x0, x1, x2, y0, y1, y2);
    XorBit18(t, u, v, x0, x1, x2, y0, y1, y2);
    XorBit19(t, u, v, x0, x1, x2, y0, y1, y2);
    XorBit20(t, u, v, x0, x1, x2, y0, y1, y2);
    XorBit21(t, u, v, x0, x1, x2, y0, y1, y2);
    XorBit22(t, u, v, x0, x1, x2, y0, y1, y2);
    XorBit23(t, u, v, x0, x1, x2, y0, y1, y2);
    XorBit24(t, u, v, x0, x1, x2, y0, y1, y2);
    XorBit25(t, u, v, x0, x1, x2, y0, y1, y2);
    XorBit26(t, u, v, x0, x1, x2, y0, y1, y2);
    XorBit27(t, u, v, x0, x1, x2, y0, y1, y2);
    XorBit28(t, u, v, x0, x1, x2, y0, y1, y2);
    XorBit29(t, u, v, x0, x1, x2, y0, y1, y2);
    XorBit30(t, u, v, x0, x1, x2, y0, y1, y2);
    XorBit31(t, u, v, x0, x1, x2, y0, y1, y2);
    WordFromBits(t, u, v);
  }

  /** ThetaWord distributes over exclusive or. */
  lemma ThetaWordLinear(x0: bv32, x1: bv32, x2: bv32, y0: bv32, y1: bv32, y2: bv32)
    ensures ThetaWord(x0 ^ y0, x1 ^ y1, x2 ^ y2) == ThetaWord(x0, x1, x2) ^ ThetaWord(y0, y1, y2)
  {
    ThetaFormulaXor(ThetaWord(x0 ^ y0, x1 ^ y1, x2 ^ y2), ThetaWord(x0, x1, x2), ThetaWord(y0, y1, y2),
                    x0, x1, x2, y0, y1, y2);
  }

  /** ThetaWordLinear, stated through XorWord. */
  lemma ThetaWordXor(x0: bv32, x1: bv32, x2: bv32, y0: bv32, y1: bv32, y2: bv32)
    ensures ThetaWord(XorWord(x0, y0), XorWord(x1, y1), XorWord(x2, y2))
         == XorWord(ThetaWord(x0, x1, x2), ThetaWord(y0, y1, y2))
  {
    ThetaWordLinear(x0, x1, x2, y0, y1, y2);
  }
}
