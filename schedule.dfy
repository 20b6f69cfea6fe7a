/** The key-alternating schedule that 3-Way runs, for an arbitrary round function: each
    round adds a round key and applies the round function, and a last key addition
    follows the rounds. The theorem here says when a second schedule undoes the first:
    when some linear map p turns the round function into its own inverse, and carries the
    round keys of the first schedule, in reverse order, to those of the second. */
module Schedule {
  import opened Words

  /** The state after n rounds from x: round i adds keys[i] and then applies round. */
  function AfterRounds(round: Triple -> Triple, keys: seq<Triple>, x: Triple, n: nat): Triple
    requires n <= |keys|
  {
    if n == 0 then x else round(AfterRounds(round, keys, x, n - 1).Xor(keys[n - 1]))
  }

  /** All the rounds, one per key but the last, and then the last key added. */
  function Whitened(round: Triple -> Triple, keys: seq<Triple>, x: Triple): Triple
    requires |keys| > 0
  {
    AfterRounds(round, keys, x, |keys| - 1).Xor(keys[|keys| - 1])
  }

  /** p distributes over exclusive or. */
  ghost predicate Linear(p: Triple -> Triple) {
    forall a: Triple, b: Triple {:trigger p(a.Xor(b))} :: p(a.Xor(b)) == p(a).Xor(p(b))
  }

  /** round undoes itself across p: round(p(round(u))) == p(u). */
  ghost predicate SelfInverseAcross(round: Triple -> Triple, p: Triple -> Triple) {
    forall u: Triple {:trigger round(p(round(u)))} :: round(p(round(u))) == p(u)
  }

  /** p carries key i of ks to key |ks| - 1 - i of ds. */
  ghost predicate Mirrored(p: Triple -> Triple, ks: seq<Triple>, ds: seq<Triple>) {
    |ks| == |ds| && forall i, j :: 0 <= i < |ks| && 0 <= j < |ds| && i + j == |ks| - 1 ==> p(ks[i]) == ds[j]
  }

  /** One more round from m rounds gives n = m + 1 rounds. */
  lemma AfterRoundsStep(round: Triple -> Triple, keys: seq<Triple>, x: Triple, n: nat, m: nat)
    requires n <= |keys| && m + 1 == n
    ensures AfterRounds(round, keys, x, n) == round(AfterRounds(round, keys, x, m).Xor(keys[m]))
  {
  }

  /** Adding p(key) to p(s xor key) gives p(s): the second schedule strips the key that the
      first added. */
  lemma StripKey(p: Triple -> Triple, s: Triple, key: Triple, t: Triple)
    requires Linear(p) && t == p(s.Xor(key))
    ensures t.Xor(p(key)) == p(s)
  {
    assert p(s.Xor(key)) == p(s).Xor(p(key));
    XorCancel(p(s), p(key));
  }

  /** The pairing of Mirrored, for one pair of positions i and j = |ks| - 1 - i. */
  lemma MirroredAt(p: Triple -> Triple, ks: seq<Triple>, ds: seq<Triple>, i: nat, j: nat)
    requires Mirrored(p, ks, ds) && i + j + 1 == |ks|
    ensures p(ks[i]) == ds[j]
  {
  }

  /** One round of the second schedule takes the state matching round n of the first to
      the state matching round m = n - 1. */
  lemma MirrorStep(round: Triple -> Triple, p: Triple -> Triple, ks: seq<Triple>, x: Triple, n: nat, m: nat,
                   t: Triple, dk: Triple)
    requires Linear(p) && SelfInverseAcross(round, p) && n < |ks| && m + 1 == n
    requires t == p(AfterRounds(round, ks, x, n).Xor(ks[n]))
    requires dk == p(ks[n])
    ensures round(t.Xor(dk)) == p(AfterRounds(round, ks, x, m).Xor(ks[m]))
  {
    StripKey(p, AfterRounds(round, ks, x, n), ks[n], t);
    AfterRoundsStep(round, ks, x, n, m);
  }

  /** Before any round of the second schedule, its state is p of the whole output of the
      first, which is the state after the last key addition of the first. */
  lemma MirrorsStart(round: Triple -> Triple, p: Triple -> Triple, ks: seq<Triple>, ds: seq<Triple>, x: Triple, n: nat)
    requires n + 1 == |ks|
    ensures AfterRounds(round, ds, p(Whitened(round, ks, x)), 0)
         == p(AfterRounds(round, ks, x, n).Xor(ks[n]))
  {
  }

  /** After j rounds of the second schedule, started from p of the output of the first,
      the state is p of the state of the first schedule in round n = |ks| - 1 - j, just
      after its key addition. */
  lemma {:induction false} Mirrors(round: Triple -> Triple, p: Triple -> Triple, ks: seq<Triple>, ds: seq<Triple>,
                                   x: Triple, j: nat, n: nat)
    requires Linear(p) && SelfInverseAcross(round, p) && Mirrored(p, ks, ds)
    requires j + n + 1 == |ks|
    ensures AfterRounds(round, ds, p(Whitened(round, ks, x)), j)
         == p(AfterRounds(round, ks, x, n).Xor(ks[n]))
  {
    if j == 0 {
      MirrorsStart(round, p, ks, ds, x, n);
    } else {
      var start := p(Whitened(round, ks, x));
      Mirrors(round, p, ks, ds, x, j - 1, n + 1);
      AfterRoundsStep(round, ds, start, j, j - 1);
      MirroredAt(p, ks, ds, n + 1, j - 1);
      MirrorStep(round, p, ks, x, n + 1, n, AfterRounds(round, ds, start, j - 1), ds[j - 1]);
    }
  }

  /** The second schedule, run on p of the output of the first, gives p of the input. */
  lemma Undone(round: Triple -> Triple, p: Triple -> Triple, ks: seq<Triple>, ds: seq<Triple>, x: Triple)
    requires Linear(p) && SelfInverseAcross(round, p) && Mirrored(p, ks, ds) && |ks| > 0
    ensures Whitened(round, ds, p(Whitened(round, ks, x))) == p(x)
  {
    var last := |ks| - 1;
    Mirrors(round, p, ks, ds, x, last, 0);
    MirroredAt(p, ks, ds, 0, last);
    StripKey(p, x, ks[0], AfterRounds(round, ds, p(Whitened(round, ks, x)), last));
  }
}
