/** The cipher object of threeway.go: a key and its decryption key held in two arrays of
    three words, set together by the key generator and read by block encryption and
    decryption. */
module ThreeWay {
  import opened Words
  import opened Transforms
  import opened Duality
  import opened Schedule
  import opened Cipher

  /** The words of a block after its round key with constant c is added, word by word, as
      the loops of EncryptBlock and DecryptBlock compute it. */
  lemma KeyAddition(s: Triple, key: Triple, c: bv32, b0: bv32, b1: bv32, b2: bv32)
    requires b0 == XorWord(s.w0, XorWord(key.w0, c << 16))
    requires b1 == XorWord(s.w1, key.w1)
    requires b2 == XorWord(s.w2, XorWord(key.w2, c))
    ensures Triple(b0, b1, b2) == s.Xor(RoundKey(key, c))
  {
    XorWordZero(key.w1);
  }

  /** One round of the loops of EncryptBlock and DecryptBlock: the round key added to the
      state after i rounds, then rho, give the state after i + 1 rounds. */
  lemma LoopRound(k: Triple, rcon: seq<bv32>, x: Triple, i: nat, s: Triple, t: Triple, r: Triple)
    requires |rcon| == NumRounds + 1 && i < NumRounds
    requires s == AfterRounds(Rho, RoundKeys(k, rcon), x, i)
    requires t == s.Xor(RoundKey(k, rcon[i]))
    requires r == Rho(t)
    ensures r == AfterRounds(Rho, RoundKeys(k, rcon), x, i + 1)
  {
    var keys := RoundKeys(k, rcon);
    assert keys[i] == RoundKey(k, rcon[i]);
    AfterRoundsStep(Rho, keys, x, i + 1, i);
  }

  /** The last key addition and theta after the loop give the result of the schedule. */
  lemma LoopEnd(k: Triple, rcon: seq<bv32>, x: Triple, s: Triple, b0: bv32, b1: bv32, b2: bv32)
    requires |rcon| == NumRounds + 1
    requires s == AfterRounds(Rho, RoundKeys(k, rcon), x, NumRounds)
    requires b0 == XorWord(s.w0, XorWord(k.w0, rcon[NumRounds] << 16))
    requires b1 == XorWord(s.w1, k.w1)
    requires b2 == XorWord(s.w2, XorWord(k.w2, rcon[NumRounds]))
    ensures Theta(Triple(b0, b1, b2)) == Core(k, rcon, x)
  {
    KeyAddition(s, k, rcon[NumRounds], b0, b1, b2);
  }

  class ThreeWay {
    /** The key. */
    const k: array<bv32>
    /** The decryption key. */
    const ki: array<bv32>

    /** Both keys hold three words, in arrays of their own. */
    predicate Shaped()
      reads this
    {
      k.Length == 3 && ki.Length == 3 && k != ki
    }

    /** The key as a triple. */
    function Key(): Triple
      reads this, k
      requires k.Length == 3
    {
      Triple(k[0], k[1], k[2])
    }

    /** The decryption key as a triple. */
    function DecryptionKey(): Triple
      reads this, ki
      requires ki.Length == 3
    {
      Triple(ki[0], ki[1], ki[2])
    }

    /** The decryption key belongs to the key. */
    predicate Valid()
      reads this, k, ki
    {
      Shaped() && DecryptionKey() == InverseKey(Key())
    }

    /** A cipher with both keys zero, which already belong together. */
    constructor()
      ensures Valid() && fresh(k) && fresh(ki)
      ensures Key() == Zero && DecryptionKey() == Zero
    {
      k := new bv32[3](_ => 0);
      ki := new bv32[3](_ => 0);
      new;
      InverseKeyZero();
    }

    /** Stores the key and derives its decryption key, mu of theta of the key. */
    method KeyGenerator(k0: bv32, k1: bv32, k2: bv32)
      requires Shaped()
      modifies k, ki
      ensures Valid()
      ensures Key() == Triple(k0, k1, k2)
      ensures DecryptionKey() == InverseKey(Triple(k0, k1, k2))
    {
      k[0], k[1], k[2] := k0, k1, k2;
      var t := Theta(Triple(k0, k1, k2));
      var w0, w1, w2 := ComputeMu(t.w0, t.w1, t.w2);
      ki[0], ki[1], ki[2] := w0, w1, w2;
    }

    /** Encrypts one block under the key; with a decryption key that belongs to it, the
        result decrypts back to the block. */
    method EncryptBlock(a0: bv32, a1: bv32, a2: bv32) returns (w0: bv32, w1: bv32, w2: bv32)
      requires Shaped()
      ensures Triple(w0, w1, w2) == Encrypt(Key(), Triple(a0, a1, a2))
      ensures Valid() ==> Decrypt(DecryptionKey(), Triple(w0, w1, w2)) == Triple(a0, a1, a2)
    {
      ghost var x := Triple(a0, a1, a2);
      var b0, b1, b2 := a0, a1, a2;
      var i := 0;
      while i < NumRounds
        invariant 0 <= i <= NumRounds
        invariant Triple(b0, b1, b2) == AfterRounds(Rho, RoundKeys(Key(), EncryptionConstants), x, i)
      {
        ghost var s := Triple(b0, b1, b2);
        b0 := XorWord(b0, XorWord(k[0], EncryptionConstants[i] << 16));
        b1 := XorWord(b1, k[1]);
        b2 := XorWord(b2, XorWord(k[2], EncryptionConstants[i]));
        KeyAddition(s, Key(), EncryptionConstants[i], b0, b1, b2);
        var r := Rho(Triple(b0, b1, b2));
        LoopRound(Key(), EncryptionConstants, x, i, s, Triple(b0, b1, b2), r);
        b0, b1, b2 := r.w0, r.w1, r.w2;
        i := i + 1;
      }
      ghost var s := Triple(b0, b1, b2);
      b0 := XorWord(b0, XorWord(k[0], EncryptionConstants[NumRounds] << 16));
      b1 := XorWord(b1, k[1]);
      b2 := XorWord(b2, XorWord(k[2], EncryptionConstants[NumRounds]));
      LoopEnd(Key(), EncryptionConstants, x, s, b0, b1, b2);
      var r := Theta(Triple(b0, b1, b2));
      w0, w1, w2 := r.w0, r.w1, r.w2;
      DecryptEncrypt(Key(), x);
    }

    /** Decrypts one block under the decryption key; when it belongs to the key, the result
        encrypts back to the block. */
    method DecryptBlock(a0: bv32, a1: bv32, a2: bv32) returns (w0: bv32, w1: bv32, w2: bv32)
      requires Shaped()
      ensures Triple(w0, w1, w2) == Decrypt(DecryptionKey(), Triple(a0, a1, a2))
      ensures Valid() ==> Encrypt(Key(), Triple(w0, w1, w2)) == Triple(a0, a1, a2)
    {
      var b0, b1, b2 := ComputeMu(a0, a1, a2);
      ghost var x := Triple(b0, b1, b2);
      var i := 0;
      while i < NumRounds
        invariant 0 <= i <= NumRounds
        invariant Triple(b0, b1, b2) == AfterRounds(Rho, RoundKeys(DecryptionKey(), DecryptionConstants), x, i)
      {
        ghost var s := Triple(b0, b1, b2);
        b0 := XorWord(b0, XorWord(ki[0], DecryptionConstants[i] << 16));
        b1 := XorWord(b1, ki[1]);
        b2 := XorWord(b2, XorWord(ki[2], DecryptionConstants[i]));
        KeyAddition(s, DecryptionKey(), DecryptionConstants[i], b0, b1, b2);
        var r := Rho(Triple(b0, b1, b2));
        LoopRound(DecryptionKey(), DecryptionConstants, x, i, s, Triple(b0, b1, b2), r);
        b0, b1, b2 := r.w0, r.w1, r.w2;
        i := i + 1;
      }
      ghost var s := Triple(b0, b1, b2);
      b0 := XorWord(b0, XorWord(ki[0], DecryptionConstants[NumRounds] << 16));
      b1 := XorWord(b1, ki[1]);
      b2 := XorWord(b2, XorWord(ki[2], DecryptionConstants[NumRounds]));
      LoopEnd(DecryptionKey(), DecryptionConstants, x, s, b0, b1, b2);
      var t := Theta(Triple(b0, b1, b2));
      w0, w1, w2 := ComputeMu(t.w0, t.w1, t.w2);
      assert t == Core(DecryptionKey(), DecryptionConstants, x);
      assert Triple(w0, w1, w2) == Mu(t);
      EncryptDecrypt(Key(), Triple(a0, a1, a2));
    }
  }
}
