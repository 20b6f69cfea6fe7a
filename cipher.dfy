/** The 3-Way block cipher as functions of key and block: the round constants, the round
    keys, encryption and decryption, and the proof that decryption with the derived key
    undoes encryption, and encryption undoes decryption. */
module Cipher {
  import opened Words
  import opened Transforms
  import opened Duality
  import opened Schedule

  /** The number of full rounds; a last key addition and theta follow them. */
  const NumRounds := 11

  /** The round constants of encryption, one per round and one for the final key addition. */
  const EncryptionConstants: seq<bv32> :=
    [0x0b0b, 0x1616, 0x2c2c, 0x5858, 0xb0b0, 0x7171, 0xe2e2, 0xd5d5, 0xbbbb, 0x6767, 0xcece, 0x8d8d]

  /** The round constants of decryption. */
  const DecryptionConstants: seq<bv32> :=
    [0xb1b1, 0x7373, 0xe6e6, 0xdddd, 0xabab, 0x4747, 0x8e8e, 0x0d0d, 0x1a1a, 0x3434, 0x6868, 0xd0d0]

  /** Round constant c as it enters the state: shifted up 16 places into word 0, unchanged
      into word 2, not at all into word 1. */
  function RoundConstant(c: bv32): Triple {
    Triple(c << 16, 0, c)
  }

  /** The round key of a round with constant c. */
  function RoundKey(k: Triple, c: bv32): Triple {
    k.Xor(RoundConstant(c))
  }

  /** The round keys of key k under the constants rcon, in round order. */
  function RoundKeys(k: Triple, rcon: seq<bv32>): seq<Triple> {
    seq(|rcon|, i requires 0 <= i < |rcon| => RoundKey(k, rcon[i]))
  }

  /** The schedule shared by encryption and decryption: the rounds with rho, the last
      round key and theta. */
  function Core(k: Triple, rcon: seq<bv32>, x: Triple): Triple
    requires |rcon| == NumRounds + 1
  {
    Theta(Whitened(Rho, RoundKeys(k, rcon), x))
  }

  /** Encryption of block x with key k. */
  function Encrypt(k: Triple, x: Triple): Triple {
    Core(k, EncryptionConstants, x)
  }

  /** Decryption of block y with the decryption key ki: mu, the schedule with the
      decryption constants, and mu again. */
  function Decrypt(ki: Triple, y: Triple): Triple {
    Mu(Core(ki, DecryptionConstants, Mu(y)))
  }

  /** The decryption key of key k. */
  function InverseKey(k: Triple): Triple {
    MuTheta(k)
  }

  /** The key of all zeros is its own decryption key. */
  lemma InverseKeyZero()
    ensures InverseKey(Zero) == Zero
  {
  }

  // ---------------------------------------------------------------------------
  // Why decryption works

  /** rho undoes itself across MuTheta, for every state. */
  lemma RhoSelfInverse()
    ensures SelfInverseAcross(Rho, MuTheta)
  {
    forall u: Triple
      ensures Rho(MuTheta(Rho(u))) == MuTheta(u)
    {
      RhoMuThetaRho(u);
    }
  }

  /** MuTheta is linear, for every pair of triples. */
  lemma MuThetaLinear()
    ensures Linear(MuTheta)
  {
    forall a: Triple, b: Triple
      ensures MuTheta(a.Xor(b)) == MuTheta(a).Xor(MuTheta(b))
    {
      MuThetaXor(a, b);
    }
  }

  /** MuTheta carries the encryption round constant of round i to the decryption round
      constant of the mirror round j = 11 - i. */
  lemma ConstantsDual(i: nat, j: nat)
    requires i + j == NumRounds
    ensures MuTheta(RoundConstant(EncryptionConstants[i])) == RoundConstant(DecryptionConstants[j])
  {
  }

  /** And the decryption round constant of round i to the encryption round constant of
      the mirror round j. */
  lemma ConstantsDualInverse(i: nat, j: nat)
    requires i + j == NumRounds
    ensures MuTheta(RoundConstant(DecryptionConstants[i])) == RoundConstant(EncryptionConstants[j])
  {
    ConstantsDual(j, i);
    MuThetaInvolution(RoundConstant(EncryptionConstants[j]));
  }

  /** MuTheta takes the encryption round keys of k, in reverse order, to the decryption
      round keys of the decryption key. */
  lemma EncryptionKeysMirrored(k: Triple)
    ensures Mirrored(MuTheta, RoundKeys(k, EncryptionConstants), RoundKeys(InverseKey(k), DecryptionConstants))
  {
    var ks, ds := RoundKeys(k, EncryptionConstants), RoundKeys(InverseKey(k), DecryptionConstants);
    forall i, j | 0 <= i < |ks| && 0 <= j < |ds| && i + j == |ks| - 1
      ensures MuTheta(ks[i]) == ds[j]
    {
      ConstantsDual(i, j);
      MuThetaXor(k, RoundConstant(EncryptionConstants[i]));
    }
  }

  /** And the decryption round keys of the decryption key, in reverse order, to the
      encryption round keys of k. */
  lemma DecryptionKeysMirrored(k: Triple)
    ensures Mirrored(MuTheta, RoundKeys(InverseKey(k), DecryptionConstants), RoundKeys(k, EncryptionConstants))
  {
    var ki := InverseKey(k);
    var ds, ks := RoundKeys(ki, DecryptionConstants), RoundKeys(k, EncryptionConstants);
    MuThetaInvolution(k);
    forall i, j | 0 <= i < |ds| && 0 <= j < |ks| && i + j == |ds| - 1
      ensures MuTheta(ds[i]) == ks[j]
    {
      ConstantsDualInverse(i, j);
      MuThetaXor(ki, RoundConstant(DecryptionConstants[i]));
    }
  }

  /** Decryption with the decryption key undoes encryption. */
  lemma DecryptEncrypt(k: Triple, x: Triple)
    ensures Decrypt(InverseKey(k), Encrypt(k, x)) == x
  {
    RhoSelfInverse();
    MuThetaLinear();
    EncryptionKeysMirrored(k);
    Undone(Rho, MuTheta, RoundKeys(k, EncryptionConstants), RoundKeys(InverseKey(k), DecryptionConstants), x);
    MuThetaInvolution(x);
  }

  /** Encryption undoes decryption with the decryption key. */
  lemma EncryptDecrypt(k: Triple, y: Triple)
    ensures Encrypt(k, Decrypt(InverseKey(k), y)) == y
  {
    RhoSelfInverse();
    MuThetaLinear();
    DecryptionKeysMirrored(k);
    Undone(Rho, MuTheta, RoundKeys(InverseKey(k), DecryptionConstants), RoundKeys(k, EncryptionConstants), Mu(y));
    ThetaMuTheta(Mu(y));
    MuInvolution(y);
  }
}
