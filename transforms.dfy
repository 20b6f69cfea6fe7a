/** The bit transforms of 3-Way (mu, gamma, theta, pi_1, pi_2) and the round function rho,
    all over triples of 32-bit words, each with the laws it obeys on its own. The laws that
    relate them to one another, on which decryption rests, are in Duality. */
module Transforms {
  import opened Words
  import opened Diffusion

  // ---------------------------------------------------------------------------
  // mu: reverse the bits of every word and swap words 0 and 2

  /** The specification of mu: output word j is the bit-reversal of input word 2 - j. */
  function Mu(a: Triple): Triple {
    Triple(BitReverse(a.w2), BitReverse(a.w1), BitReverse(a.w0))
  }

  /** mu as threeway.go computes it: 32 steps that shift each accumulator up by one and
      move the low bit of input word j into accumulator 2 - j, then shift the inputs down. */
  method ComputeMu(a0: bv32, a1: bv32, a2: bv32) returns (w0: bv32, w1: bv32, w2: bv32)
    ensures Triple(w0, w1, w2) == Mu(Triple(a0, a1, a2))
  {
    w0, w1, w2 := 0, 0, 0;
    var b0, b1, b2 := a0, a1, a2;
    var i := 0;
    ghost var n: nat := 32;
    while i < 32
      invariant i + n == 32
      invariant ShiftReverse(b0, w2, n) == ShiftReverse(a0, 0, 32)
      invariant ShiftReverse(b1, w1, n) == ShiftReverse(a1, 0, 32)
      invariant ShiftReverse(b2, w0, n) == ShiftReverse(a2, 0, 32)
    {
      ghost var c0, c1, c2, v0, v1, v2 := b0, b1, b2, w0, w1, w2;
      w0 := w0 << 1;
      w1 := w1 << 1;
      w2 := w2 << 1;
      if b0 & 1 > 0 {
        w2 := w2 | 1;
      }
      if b1 & 1 > 0 {
        w1 := w1 | 1;
      }
      if b2 & 1 > 0 {
        w0 := w0 | 1;
      }
      b0 := b0 >> 1;
      b1 := b1 >> 1;
      b2 := b2 >> 1;
      ghost var m: nat := n - 1;
      MuStep(c0, c1, c2, v0, v1, v2, n, m, b0, b1, b2, w0, w1, w2);
      i, n := i + 1, m;
    }
    ShiftReverseIsReverse(a0);
    ShiftReverseIsReverse(a1);
    ShiftReverseIsReverse(a2);
  }

  /** What n more steps of the loop of ComputeMu leave in an accumulator w whose input
      word still holds b. */
  function ShiftReverse(b: bv32, w: bv32, n: nat): bv32
    decreases n
  {
    if n == 0 then w else ShiftReverse(b >> 1, (w << 1) | (b & 1), n - 1)
  }

  /** One step of the loop, with the next input word and accumulator named b' and w'. */
  lemma ShiftReverseStep(b: bv32, w: bv32, n: nat, m: nat, b': bv32, w': bv32)
    requires m + 1 == n && b' == b >> 1 && w' == (w << 1) | (b & 1)
    ensures ShiftReverse(b, w, n) == ShiftReverse(b', w', m)
  {
  }

  lemma MuStep(c0: bv32, c1: bv32, c2: bv32, v0: bv32, v1: bv32, v2: bv32, n: nat, m: nat,
               b0: bv32, b1: bv32, b2: bv32, w0: bv32, w1: bv32, w2: bv32)
    requires m + 1 == n && b0 == c0 >> 1 && b1 == c1 >> 1 && b2 == c2 >> 1
    requires w2 == if c0 & 1 > 0 then (v2 << 1) | 1 else v2 << 1
    requires w1 == if c1 & 1 > 0 then (v1 << 1) | 1 else v1 << 1
    requires w0 == if c2 & 1 > 0 then (v0 << 1) | 1 else v0 << 1
    ensures ShiftReverse(c0, v2, n) == ShiftReverse(b0, w2, m)
    ensures ShiftReverse(c1, v1, n) == ShiftReverse(b1, w1, m)
    ensures ShiftReverse(c2, v0, n) == ShiftReverse(b2, w0, m)
  {
    ShiftReverseStep(c0, v2, n, m, b0, w2);
    ShiftReverseStep(c1, v1, n, m, b1, w1);
    ShiftReverseStep(c2, v0, n, m, b2, w0);
  }

  /** Eight steps of the loop: the low byte of b, reversed, enters the accumulator. */
  lemma ShiftReverseByte(b: bv32, w: bv32, n: nat, m: nat)
    requires m + 8 == n
    ensures ShiftReverse(b, w, n)
         == ShiftReverse(b >> 8, (w << 8) | (BitReverse(b & 0xff) >> 24), m)
  {
    var b1, w1 := b >> 1, (w << 1) | (b & 1);
    ShiftReverseStep(b, w, m + 8, m + 7, b1, w1);
    var b2, w2 := b1 >> 1, (w1 << 1) | (b1 & 1);
    ShiftReverseStep(b1, w1, m + 7, m + 6, b2, w2);
    var b3, w3 := b2 >> 1, (w2 << 1) | (b2 & 1);
    ShiftReverseStep(b2, w2, m + 6, m + 5, b3, w3);
    var b4, w4 := b3 >> 1, (w3 << 1) | (b3 & 1);
    ShiftReverseStep(b3, w3, m + 5, m + 4, b4, w4);
    var b5, w5 := b4 >> 1, (w4 << 1) | (b4 & 1);
    ShiftReverseStep(b4, w4, m + 4, m + 3, b5, w5);
    var b6, w6 := b5 >> 1, (w5 << 1) | (b5 & 1);
    ShiftReverseStep(b5, w5, m + 3, m + 2, b6, w6);
    var b7, w7 := b6 >> 1, (w6 << 1) | (b6 & 1);
    ShiftReverseStep(b6, w6, m + 2, m + 1, b7, w7);
    var b8, w8 := b7 >> 1, (w7 << 1) | (b7 & 1);
    ShiftReverseStep(b7, w7, m + 1, m, b8, w8);
    assert w8 == (w << 8) | (BitReverse(b & 0xff) >> 24);
  }

  /** The 32 steps of the loop, starting from an empty accumulator, reverse the word. */
  lemma ShiftReverseIsReverse(x: bv32)
    ensures ShiftReverse(x, 0, 32) == BitReverse(x)
  {
    var b0: bv32, w0: bv32 := x, 0;
    var b1, w1 := b0 >> 8, (w0 << 8) | (BitReverse(b0 & 0xff) >> 24);
    ShiftReverseByte(b0, w0, 32, 24);
    var b2, w2 := b1 >> 8, (w1 << 8) | (BitReverse(b1 & 0xff) >> 24);
    ShiftReverseByte(b1, w1, 24, 16);
    var b3, w3 := b2 >> 8, (w2 << 8) | (BitReverse(b2 & 0xff) >> 24);
    ShiftReverseByte(b2, w2, 16, 8);
    var w4 := (w3 << 8) | (BitReverse(b3 & 0xff) >> 24);
    ShiftReverseByte(b3, w3, 8, 0);
    assert w4 == BitReverse(x);
  }

  /** Bit i of each output word of mu is bit 31 - i of the input word at the opposite index. */
  lemma MuBits(a: Triple, i: bv32)
    requires i < 32
    ensures Bit(Mu(a).w0, i) == Bit(a.w2, 31 - i)
    ensures Bit(Mu(a).w1, i) == Bit(a.w1, 31 - i)
    ensures Bit(Mu(a).w2, i) == Bit(a.w0, 31 - i)
  {
    ReverseBitAt(a.w2, i);
    ReverseBitAt(a.w1, i);
    ReverseBitAt(a.w0, i);
  }

  /** mu is an involution. */
  lemma MuInvolution(a: Triple)
    ensures Mu(Mu(a)) == a
  {
    ReverseInvolution(a.w0);
    ReverseInvolution(a.w1);
    ReverseInvolution(a.w2);
  }

  /** mu distributes over exclusive or. */
  lemma MuXor(a: Triple, b: Triple)
    ensures Mu(a.Xor(b)) == Mu(a).Xor(Mu(b))
  {
    ReverseXorWord(a.w0, b.w0);
    ReverseXorWord(a.w1, b.w1);
    ReverseXorWord(a.w2, b.w2);
  }

  // ---------------------------------------------------------------------------
  // gamma: the nonlinear layer

  /** Word 0 of gamma on the words a0, a1, a2: the complement of a0, exclusive-or'ed with
      the complement of a1 masked by a2. */
  function GammaWord(a0: bv32, a1: bv32, a2: bv32): bv32 {
    !a0 ^ (!a1 & a2)
  }

  /** gamma: output word j is GammaWord of the input words j, j + 1, j + 2 (mod 3). */
  function Gamma(a: Triple): Triple {
    Triple(GammaWord(a.w0, a.w1, a.w2), GammaWord(a.w1, a.w2, a.w0), GammaWord(a.w2, a.w0, a.w1))
  }

  /** gamma works column by column: bit i of GammaWord, and so of every output word of
      gamma, is the same boolean function of bit i of its three inputs. */
  lemma GammaWordBit(a0: bv32, a1: bv32, a2: bv32, i: bv32)
    requires i < 32
    ensures Bit(GammaWord(a0, a1, a2), i) == (!Bit(a0, i) != (!Bit(a1, i) && Bit(a2, i)))
  {
  }

  /** The three output words of gamma follow one pattern: rotating the input rotates the
      output. */
  lemma GammaRotate(a: Triple)
    ensures Gamma(Rotate(a)) == Rotate(Gamma(a))
  {
  }

  // ---------------------------------------------------------------------------
  // theta: the linear diffusion layer

  /** theta: output word j is ThetaWord of the input words j, j + 1, j + 2 (mod 3). */
  function Theta(a: Triple): Triple {
    Triple(ThetaWord(a.w0, a.w1, a.w2), ThetaWord(a.w1, a.w2, a.w0), ThetaWord(a.w2, a.w0, a.w1))
  }

  /** The three output words of theta follow one pattern: rotating the input rotates the
      output. */
  lemma ThetaRotate(a: Triple)
    ensures Theta(Rotate(a)) == Rotate(Theta(a))
  {
  }

  /** theta maps the zero triple to itself. */
  lemma ThetaZero()
    ensures Theta(Zero) == Zero
  {
  }

  /** theta is linear: it distributes over exclusive or. */
  lemma ThetaXor(a: Triple, b: Triple)
    ensures Theta(a.Xor(b)) == Theta(a).Xor(Theta(b))
  {
    ThetaWordXor(a.w0, a.w1, a.w2, b.w0, b.w1, b.w2);
    ThetaWordXor(a.w1, a.w2, a.w0, b.w1, b.w2, b.w0);
    ThetaWordXor(a.w2, a.w0, a.w1, b.w2, b.w0, b.w1);
  }

  // ---------------------------------------------------------------------------
  // pi_1 and pi_2: word rotations

  /** A word rotated left by one place: the top bit comes round to the bottom. */
  function RotateLeft1(z: bv32): bv32 {
    (z << 1) ^ (z >> 31)
  }

  /** A word rotated right by ten places: the low ten bits come round to the top. */
  function RotateRight10(z: bv32): bv32 {
    (z >> 10) ^ (z << 22)
  }

  /** A word rotated right by nine places. */
  function RotateRight9(z: bv32): bv32 {
    (z >> 9) ^ (z << 23)
  }

  /** pi_1 rotates word 0 right by 10 and word 2 left by 1. */
  function Pi1(a: Triple): Triple {
    Triple(RotateRight10(a.w0), a.w1, RotateLeft1(a.w2))
  }

  /** pi_2 rotates word 0 left by 1 and word 2 right by 10. */
  function Pi2(a: Triple): Triple {
    Triple(RotateLeft1(a.w0), a.w1, RotateRight10(a.w2))
  }

  /** A rotation right by 10 followed by a rotation left by 1, in either order, is a
      rotation right by 9. */
  lemma RotateNet9(z: bv32)
    ensures RotateLeft1(RotateRight10(z)) == RotateRight9(z)
    ensures RotateRight10(RotateLeft1(z)) == RotateRight9(z)
  {
  }

  /** pi_2 does not undo pi_1: together they rotate words 0 and 2 right by 9 places. */
  lemma Pi2AfterPi1(a: Triple)
    ensures Pi2(Pi1(a)) == Triple(RotateRight9(a.w0), a.w1, RotateRight9(a.w2))
  {
    RotateNet9(a.w0);
    RotateNet9(a.w2);
  }

  /** A block that pi_2 after pi_1 does not give back: the single set bit of word 0 moves
      from position 0 to position 23. */
  lemma Pi2AfterPi1Differs()
    ensures Pi2(Pi1(Triple(1, 0, 0))) == Triple(0x80_0000, 0, 0)
    ensures Pi2(Pi1(Triple(1, 0, 0))) != Triple(1, 0, 0)
  {
  }

  // ---------------------------------------------------------------------------
  // rho: the round function

  /** rho applies theta, pi_1, gamma and pi_2, in that order. */
  function Rho(a: Triple): Triple {
    Pi2(Gamma(Pi1(Theta(a))))
  }
}
