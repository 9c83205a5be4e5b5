/** Python's random module and set iteration order, as oracles.
    A Stream is the sequence of values one call draws; every property of the model is
    stated for all streams, so it holds whatever the generator returns. */
module Random {
  import opened Common

  type Stream = nat -> nat

  /** random.choice(pool), made with the drawn value d */
  function Choice<T>(pool: seq<T>, d: nat): (x: T)
    requires |pool| > 0
    ensures x in pool
  {
    pool[Pick(d, |pool|)]
  }

  /** the position that a drawn value d selects among n candidates */
  function Pick(d: nat, n: nat): (i: nat)
    requires n > 0
    ensures i < n
  {
    d % n
  }

  /** random.sample(pool, k), drawing rnd(at), rnd(at + 1), ...: k picks without replacement.
      With k >= |pool| it is a shuffle, which also stands for the iteration order of a set. */
  function Sample<T>(pool: seq<T>, k: nat, rnd: Stream, at: nat): (r: seq<T>)
    ensures |r| == if k <= |pool| then k else |pool|
    ensures multiset(r) <= multiset(pool)
    decreases k
  {
    if k == 0 || |pool| == 0 then []
    else
      var i := Pick(rnd(at), |pool|);
      var rest := pool[..i] + pool[i + 1..];
      assert pool == pool[..i] + [pool[i]] + pool[i + 1..];
      [pool[i]] + Sample(rest, k - 1, rnd, at + 1)
  }

  /** A sample of distinct values has no repeats, whatever was drawn. */
  lemma SampleDistinct<T>(pool: seq<T>, k: nat, rnd: Stream, at: nat)
    requires Distinct(pool)
    ensures Distinct(Sample(pool, k, rnd, at))
  {
    MultisetDistinct(Sample(pool, k, rnd, at), pool);
  }

  /** Sampling every element is a permutation. */
  lemma {:induction false} ShuffleIsPermutation<T>(pool: seq<T>, rnd: Stream, at: nat)
    ensures multiset(Sample(pool, |pool|, rnd, at)) == multiset(pool)
    decreases |pool|
  {
    if |pool| > 0 {
      var i := Pick(rnd(at), |pool|);
      var rest := pool[..i] + pool[i + 1..];
      ShuffleIsPermutation(rest, rnd, at + 1);
      SampleCons(pool, |pool|, rnd, at);
      SplitAt(pool, i);
    }
  }

  /** Taking out the element at i leaves the rest of the multiset. */
  lemma SplitAt<T>(pool: seq<T>, i: nat)
    requires i < |pool|
    ensures multiset(pool) == multiset{pool[i]} + multiset(pool[..i] + pool[i + 1..])
  {
    assert pool == pool[..i] + [pool[i]] + pool[i + 1..];
  }

  /** one step of Sample: the drawn element, then a sample of the others */
  lemma SampleCons<T>(pool: seq<T>, k: nat, rnd: Stream, at: nat)
    requires k > 0 && |pool| > 0
    ensures var i := Pick(rnd(at), |pool|);
            Sample(pool, k, rnd, at) == [pool[i]] + Sample(pool[..i] + pool[i + 1..], k - 1, rnd, at + 1)
  {
  }
}
