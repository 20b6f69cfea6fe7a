/** The laws that tie the transforms to mu, on which decryption rests: theta, gamma and the
    pair pi_1, pi_2 each turn into their own inverse when mu is applied between two copies
    of them, and so does the whole round function rho once theta is added on each side. */
module Duality {
  import opened Words
  import opened Transforms

  // ---------------------------------------------------------------------------
  // theta(mu(theta(x))) == mu(x)

  /** The law for theta, for one triple x. */
  predicate ThetaMuThetaHolds(x: Triple) {
    Theta(Mu(Theta(x))) == Mu(x)
  }

  /** The blocks for which the law holds are closed under exclusive or: theta and mu are
      both linear. */
  lemma ThetaMuThetaXor(u: Triple, v: Triple)
    requires ThetaMuThetaHolds(u) && ThetaMuThetaHolds(v)
    ensures ThetaMuThetaHolds(u.Xor(v))
  {
    ThetaXor(u, v);
    MuXor(Theta(u), Theta(v));
    ThetaXor(Mu(Theta(u)), Mu(Theta(v)));
    MuXor(u, v);
  }

  // The law on each of the twelve byte lanes of a block: a block that is zero outside one
  // byte of one word. Each is a computation on eight free bits.

  lemma Lane00(v: bv32)
    ensures ThetaMuThetaHolds(Triple(v & 0xff, 0, 0))
  {
  }

  lemma Lane01(v: bv32)
    ensures ThetaMuThetaHolds(Triple(v & 0xff00, 0, 0))
  {
  }

  lemma Lane02(v: bv32)
    ensures ThetaMuThetaHolds(Triple(v & 0xff_0000, 0, 0))
  {
  }

  lemma Lane03(v: bv32)
    ensures ThetaMuThetaHolds(Triple(v & 0xff00_0000, 0, 0))
  {
  }

  lemma Lane10(v: bv32)
    ensures ThetaMuThetaHolds(Triple(0, v & 0xff, 0))
  {
  }

  lemma Lane11(v: bv32)
    ensures ThetaMuThetaHolds(Triple(0, v & 0xff00, 0))
  {
  }

  lemma Lane12(v: bv32)
    ensures ThetaMuThetaHolds(Triple(0, v & 0xff_0000, 0))
  {
  }

  lemma Lane13(v: bv32)
    ensures ThetaMuThetaHolds(Triple(0, v & 0xff00_0000, 0))
  {
  }

  lemma Lane20(v: bv32)
    ensures ThetaMuThetaHolds(Triple(0, 0, v & 0xff))
  {
  }

  lemma Lane21(v: bv32)
    ensures ThetaMuThetaHolds(Triple(0, 0, v & 0xff00))
  {
  }

  lemma Lane22(v: bv32)
    ensures ThetaMuThetaHolds(Triple(0, 0, v & 0xff_0000))
  {
  }

  lemma Lane23(v: bv32)
    ensures ThetaMuThetaHolds(Triple(0, 0, v & 0xff00_0000))
  {
  }

  /** A word is the exclusive or of its four bytes. */
  lemma WordOfBytes(v: bv32)
    ensures XorWord(XorWord(XorWord(v & 0xff, v & 0xff00), v & 0xff_0000), v & 0xff00_0000) == v
  {
  }

  /** The law for a block that is zero outside word 0. */
  lemma Word0(v: bv32)
    ensures ThetaMuThetaHolds(Triple(v, 0, 0))
  {
    Lane00(v);
    Lane01(v);
    Lane02(v);
    Lane03(v);
    var l0, l1, l2, l3 := Triple(v & 0xff, 0, 0), Triple(v & 0xff00, 0, 0),
                          Triple(v & 0xff_0000, 0, 0), Triple(v & 0xff00_0000, 0, 0);
    ThetaMuThetaXor(l0, l1);
    ThetaMuThetaXor(l0.Xor(l1), l2);
    ThetaMuThetaXor(l0.Xor(l1).Xor(l2), l3);
    WordOfBytes(v);
    assert l0.Xor(l1).Xor(l2).Xor(l3) == Triple(v, 0, 0);
  }

  /** The law for a block that is zero outside word 1. */
  lemma Word1(v: bv32)
    ensures ThetaMuThetaHolds(Triple(0, v, 0))
  {
    Lane10(v);
    Lane11(v);
    Lane12(v);
    Lane13(v);
    var l0, l1, l2, l3 := Triple(0, v & 0xff, 0), Triple(0, v & 0xff00, 0),
                          Triple(0, v & 0xff_0000, 0), Triple(0, v & 0xff00_0000, 0);
    ThetaMuThetaXor(l0, l1);
    ThetaMuThetaXor(l0.Xor(l1), l2);
    ThetaMuThetaXor(l0.Xor(l1).Xor(l2), l3);
    WordOfBytes(v);
    assert l0.Xor(l1).Xor(l2).Xor(l3) == Triple(0, v, 0);
  }

  /** The law for a block that is zero outside word 2. */
  lemma Word2(v: bv32)
    ensures ThetaMuThetaHolds(Triple(0, 0, v))
  {
    Lane20(v);
    Lane21(v);
    Lane22(v);
    Lane23(v);
    var l0, l1, l2, l3 := Triple(0, 0, v & 0xff), Triple(0, 0, v & 0xff00),
                          Triple(0, 0, v & 0xff_0000), Triple(0, 0, v & 0xff00_0000);
    ThetaMuThetaXor(l0, l1);
    ThetaMuThetaXor(l0.Xor(l1), l2);
    ThetaMuThetaXor(l0.Xor(l1).Xor(l2), l3);
    WordOfBytes(v);
    assert l0.Xor(l1).Xor(l2).Xor(l3) == Triple(0, 0, v);
  }

  /** Zero is neutral for exclusive or, on either side. */
  lemma XorWordZero(v: bv32)
    ensures XorWord(v, 0) == v && XorWord(0, v) == v
  {
  }

  /** mu undoes theta across it: theta(mu(theta(x))) == mu(x). */
  lemma ThetaMuTheta(x: Triple)
    ensures Theta(Mu(Theta(x))) == Mu(x)
  {
    var t0, t1, t2 := Triple(x.w0, 0, 0), Triple(0, x.w1, 0), Triple(0, 0, x.w2);
    Word0(x.w0);
    Word1(x.w1);
    Word2(x.w2);
    ThetaMuThetaXor(t0, t1);
    ThetaMuThetaXor(t0.Xor(t1), t2);
    XorWordZero(x.w0);
    XorWordZero(x.w1);
    XorWordZero(x.w2);
    XorWordZero(0);
    assert t0.Xor(t1).Xor(t2) == x;
  }

  // ---------------------------------------------------------------------------
  // gamma(mu(gamma(x))) == mu(x)

  /** Reversal commutes with the word function of gamma, which works bit by bit. */
  lemma ReverseGammaWord(a0: bv32, a1: bv32, a2: bv32)
    ensures BitReverse(GammaWord(a0, a1, a2)) == GammaWord(BitReverse(a0), BitReverse(a1), BitReverse(a2))
  {
  }

  /** gamma applied to the words of gamma(y) in reverse order gives back word 2 of y; with
      the words renamed, the same holds for words 1 and 0. */
  lemma GammaReversedGamma(y0: bv32, y1: bv32, y2: bv32)
    ensures GammaWord(GammaWord(y2, y0, y1), GammaWord(y1, y2, y0), GammaWord(y0, y1, y2)) == y2
  {
  }

  /** mu undoes gamma across it: gamma(mu(gamma(x))) == mu(x). */
  lemma GammaMuGamma(x: Triple)
    ensures Gamma(Mu(Gamma(x))) == Mu(x)
  {
    ReverseGammaWord(x.w0, x.w1, x.w2);
    ReverseGammaWord(x.w1, x.w2, x.w0);
    ReverseGammaWord(x.w2, x.w0, x.w1);
    var r0, r1, r2 := BitReverse(x.w0), BitReverse(x.w1), BitReverse(x.w2);
    GammaReversedGamma(r0, r1, r2);
    GammaReversedGamma(r2, r0, r1);
    GammaReversedGamma(r1, r2, r0);
  }

  // ---------------------------------------------------------------------------
  // pi_2(mu(pi_1(x))) == mu(x) and pi_1(mu(pi_2(x))) == mu(x)

  /** Reversal turns a rotation left by one into a rotation right by one, which the second
      rotation left by one undoes. */
  lemma ReverseRotateLeft1(z: bv32)
    ensures RotateLeft1(BitReverse(RotateLeft1(z))) == BitReverse(z)
  {
  }

  /** Reversal turns a rotation right by ten into a rotation left by ten, which the second
      rotation right by ten undoes. */
  lemma ReverseRotateRight10(z: bv32)
    ensures RotateRight10(BitReverse(RotateRight10(z))) == BitReverse(z)
  {
  }

  /** mu turns pi_1 into the inverse of pi_2: pi_2(mu(pi_1(x))) == mu(x). */
  lemma Pi2MuPi1(x: Triple)
    ensures Pi2(Mu(Pi1(x))) == Mu(x)
  {
    ReverseRotateLeft1(x.w2);
    ReverseRotateRight10(x.w0);
  }

  /** mu turns pi_2 into the inverse of pi_1: pi_1(mu(pi_2(x))) == mu(x). */
  lemma Pi1MuPi2(x: Triple)
    ensures Pi1(Mu(Pi2(x))) == Mu(x)
  {
    ReverseRotateLeft1(x.w0);
    ReverseRotateRight10(x.w2);
  }

  // ---------------------------------------------------------------------------
  // mu after theta, and the inverse of rho

  /** mu after theta: the map that turns an encryption key into its decryption key, and an
      encryption state into the matching decryption state. */
  function MuTheta(a: Triple): Triple {
    Mu(Theta(a))
  }

  /** MuTheta is linear. */
  lemma MuThetaXor(a: Triple, b: Triple)
    ensures MuTheta(a.Xor(b)) == MuTheta(a).Xor(MuTheta(b))
  {
    ThetaXor(a, b);
    MuXor(Theta(a), Theta(b));
  }

  /** MuTheta is an involution. */
  lemma MuThetaInvolution(a: Triple)
    ensures MuTheta(MuTheta(a)) == a
  {
    ThetaMuTheta(a);
    MuInvolution(a);
  }

  /** rho is undone by rho itself between two copies of MuTheta. */
  lemma RhoMuThetaRho(u: Triple)
    ensures Rho(MuTheta(Rho(u))) == MuTheta(u)
  {
    var t := Theta(u);
    var g := Gamma(Pi1(t));
    ThetaMuTheta(Pi2(g));
    Pi1MuPi2(g);
    GammaMuGamma(Pi1(t));
    Pi2MuPi1(t);
  }
}
