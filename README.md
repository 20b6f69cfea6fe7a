# 3-Way in Dafny

A model of the 3-Way block cipher (Joan Daemen's design) as implemented in
`threeway.go`. Blocks and keys are three 32-bit words; Go's `uint32` is modelled as
`bv32`, whose shifts drop the bits that leave the word just as Go's do.

- `words.dfy` (module `Words`): the word triple, word-wise exclusive or, and the
  bit-reversal of a word.
- `diffusion.dfy` (module `Diffusion`): the word formula of theta, and the proof that it
  is linear over exclusive or, one output bit at a time.
- `transforms.dfy` (module `Transforms`): mu, gamma, theta, pi_1, pi_2 and rho, each with
  its own laws. mu is specified as "reverse the bits of every word and swap words 0 and
  2". `ComputeMu` is the 32-step loop of the Go code, proved against that specification.
- `duality.dfy` (module `Duality`): the laws that relate each transform to mu:
  - theta(mu(theta(x))) = mu(x);
  - gamma(mu(gamma(x))) = mu(x);
  - pi_2(mu(pi_1(x))) = mu(x);
  - rho(mu(theta(rho(u)))) = mu(theta(u)).
- `schedule.dfy` (module `Schedule`): the key-alternating schedule of 3-Way, written for
  any round function: rounds that each add a round key and apply the round function, then
  a last key addition. It proves when a second schedule undoes the first. The round
  function must undo itself across a linear map p. The second schedule's keys must be p of
  the first's, in reverse order.
- `cipher.dfy` (module `Cipher`): the round constants, encryption and decryption as
  functions, and the decryption key mu(theta(k)). It proves that decryption with that key
  undoes encryption, and that encryption undoes decryption, for every key and every block.
- `threeway.dfy` (module `ThreeWay`): the `ThreeWay` struct as a class. It holds the key
  `k` and the decryption key `ki` in two arrays of three words. It has:
  - the constructor (Go's `New`), which zeroes both arrays;
  - `KeyGenerator`, which writes both arrays;
  - `EncryptBlock` and `DecryptBlock`, which read the arrays and run the round loops of
    the Go code.

`EncryptBlock` and `DecryptBlock` carry no `modifies` clause, so they cannot change `k`
or `ki`. `KeyGenerator` may change only the two arrays, and its contract gives every word
of both.

The pair pi_1 and pi_2 is not a pair of inverses in this code. pi_2 after pi_1 rotates
words 0 and 2 right by 9 places (`Pi2AfterPi1`). The block (1, 0, 0) comes back as
(0x800000, 0, 0) (`Pi2AfterPi1Differs`). The relation that does hold, and that decryption
relies on, is pi_2(mu(pi_1(x))) = mu(x) (`Pi2MuPi1`, `Pi1MuPi2`). The model follows the
code.

## Model

| member | source | states |
|---|---|---|
| Words.XorCancel | threeway.go:137-139 | adding the same key triple twice leaves a block unchanged |
| Words.ReverseBitAt | threeway.go:55-78 | bit i of the reversal of a word is bit 31 - i of the word |
| Words.ReverseInvolution | threeway.go:55-78 | reversing the bits of a word twice gives the word back |
| Words.ReverseXor | threeway.go:55-78 | bit reversal distributes over exclusive or |
| Transforms.ComputeMu | threeway.go:55-78 | the 32-step shift loop of mu returns, in word j, the bit-reversal of input word 2 - j |
| Transforms.ShiftReverseIsReverse | threeway.go:58-76 | 32 steps of shifting the low bit of a word into an empty accumulator reverse the word |
| Transforms.MuBits | threeway.go:55-78 | bit i of output word j of mu is bit 31 - i of input word 2 - j |
| Transforms.MuInvolution | threeway.go:55-78 | mu(mu(x)) = x |
| Transforms.MuXor | threeway.go:55-78 | mu distributes over word-wise exclusive or |
| Transforms.GammaWordBit | threeway.go:80-86 | bit i of each gamma output word is not a_j xor (not a_j+1 and a_j+2), on bit i of the inputs alone |
| Transforms.GammaRotate | threeway.go:80-86 | the three gamma outputs follow one formula, shifted by one word: rotating the input rotates the output |
| Diffusion.ThetaWordXor | threeway.go:89-95 | the 13-term word formula of theta distributes over exclusive or |
| Transforms.ThetaXor | threeway.go:88-114 | theta(x xor y) = theta(x) xor theta(y) |
| Transforms.ThetaZero | threeway.go:88-114 | theta(0, 0, 0) = (0, 0, 0) |
| Transforms.ThetaRotate | threeway.go:88-114 | the three theta outputs follow one formula, shifted by one word |
| Transforms.Pi2AfterPi1 | threeway.go:115-129 | pi_2 after pi_1 rotates words 0 and 2 right by 9 and keeps word 1 |
| Transforms.Pi2AfterPi1Differs | threeway.go:115-129 | pi_2(pi_1(1, 0, 0)) = (0x800000, 0, 0), so pi_2 does not invert pi_1 |
| Duality.ThetaMuTheta | threeway.go:88-114 | theta(mu(theta(x))) = mu(x): theta is its own inverse across mu |
| Duality.GammaMuGamma | threeway.go:80-86 | gamma(mu(gamma(x))) = mu(x): gamma is its own inverse across mu |
| Duality.Pi2MuPi1 | threeway.go:115-129 | pi_2(mu(pi_1(x))) = mu(x) |
| Duality.Pi1MuPi2 | threeway.go:115-129 | pi_1(mu(pi_2(x))) = mu(x) |
| Duality.MuThetaXor | threeway.go:52 | the map from a key to its decryption key, mu after theta, is linear |
| Duality.MuThetaInvolution | threeway.go:52 | applying mu after theta twice gives the key back |
| Duality.RhoMuThetaRho | threeway.go:131-133 | rho(mu(theta(rho(u)))) = mu(theta(u)): one decryption round undoes one encryption round |
| Schedule.AfterRoundsStep | threeway.go:136-141 | one more loop iteration adds the next round key to the state and then applies the round function |
| Schedule.StripKey | threeway.go:153-155 | for a linear p, adding p(key) to p(s xor key) gives p(s): a decryption key addition removes the matching encryption key |
| Schedule.Mirrors | threeway.go:149-163 | after j rounds of the second schedule, its state is p of the state of the first after round 11 - j and that round's key addition |
| Schedule.Undone | threeway.go:135-163 | when the round function undoes itself across a linear p and the second schedule's keys are p of the first's in reverse order, the second schedule run on p of the first's output gives p of its input |
| Cipher.InverseKeyZero | threeway.go:52 | the key (0, 0, 0) has decryption key (0, 0, 0) |
| Cipher.RhoSelfInverse | threeway.go:131-133 | rho undoes itself across mu(theta), for every state |
| Cipher.MuThetaLinear | threeway.go:52 | mu(theta), the map from a key to its decryption key, is linear for every pair of triples |
| Cipher.ConstantsDual | threeway.go:30-35 | mu(theta) of the encryption constant of round i is the decryption constant of round 11 - i |
| Cipher.ConstantsDualInverse | threeway.go:30-35 | mu(theta) of the decryption constant of round i is the encryption constant of round 11 - i |
| Cipher.EncryptionKeysMirrored | threeway.go:137-139 | for every key, mu(theta) takes the encryption round key of round i to the decryption round key of round 11 - i under the decryption key |
| Cipher.DecryptionKeysMirrored | threeway.go:153-155 | for every key, mu(theta) takes the decryption round key of round i to the encryption round key of round 11 - i |
| Cipher.DecryptEncrypt | threeway.go:135-163 | decrypting with mu(theta(k)) undoes encrypting with k, for every key and block |
| Cipher.EncryptDecrypt | threeway.go:135-163 | encrypting with k undoes decrypting with mu(theta(k)), for every key and block |
| ThreeWay.KeyAddition | threeway.go:137-139 | the three word updates of a round give the block xor (k0 xor c << 16, k1, k2 xor c) |
| ThreeWay.LoopRound | threeway.go:136-141 | one iteration of the block loop, key addition and rho, moves the state from round i to round i + 1 of the schedule |
| ThreeWay.LoopEnd | threeway.go:142-146 | the last key addition and theta after the loop give the cipher's core result |
| ThreeWay.ThreeWay.constructor | threeway.go:42-45 | a new cipher has k = ki = (0, 0, 0), and the two keys belong together |
| ThreeWay.ThreeWay.KeyGenerator | threeway.go:47-53 | stores k verbatim and sets ki = mu(theta(k)), changing nothing else |
| ThreeWay.ThreeWay.EncryptBlock | threeway.go:135-147 | returns the encryption of the block under k; when ki belongs to k, the result decrypts back to the block |
| ThreeWay.ThreeWay.DecryptBlock | threeway.go:149-163 | returns mu(theta(...)) of the decryption rounds under ki on mu of the block; when ki belongs to k, the result encrypts back to the block |

## Left out

- Byte and word marshalling, modes of operation, padding and key lifecycle are not part of
  the code and are not modelled.
- Concurrent use of one `ThreeWay` value is not modelled.
- Cryptographic strength and side channels are not properties of the code that a model
  can state.
- No known-answer vector is pinned. The round trip is proved for every key and block
  instead.
- Go's `[3]uint32` fields are modelled as two distinct arrays of length 3 that belong to
  the object. The class predicate `Shaped` states this layout, and every method requires
  it. The constructor establishes it.
- The pure Go functions `gamma`, `theta`, `pi_1`, `pi_2` and `rho` are single
  expressions, so the block methods and the key generator call their Dafny functions
  directly. Only `mu` has a loop, and `ComputeMu` models that loop.
