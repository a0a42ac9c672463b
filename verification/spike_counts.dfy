/** The batch of modulatory spikes a volume transmitter hands to every
    connection at the end of a deliver interval. */
module SpikeCounts {

  /** One entry of the batch: a spike time and how many spikes arrived then. */
  datatype SpikeCounter = SpikeCounter(spikeTime: real, multiplicity: real)

  /** Every entry of the batch has a non-negative multiplicity. */
  predicate NonNegative(s: seq<SpikeCounter>) {
    forall i :: 0 <= i < |s| ==> s[i].multiplicity >= 0.0
  }

  /** The number of spikes in a batch: the sum of the multiplicities,
      accumulated from the first entry to the last. */
  function Total(s: seq<SpikeCounter>): (n: real)
    ensures s == [] ==> n == 0.0
    ensures NonNegative(s) ==> n >= 0.0
    decreases |s|
  {
    if s == [] then 0.0 else Total(s[..|s| - 1]) + s[|s| - 1].multiplicity
  }

  /** The total of a concatenation is the sum of the totals. */
  lemma {:induction false} TotalConcat(a: seq<SpikeCounter>, b: seq<SpikeCounter>)
    ensures Total(a + b) == Total(a) + Total(b)
    decreases |b|
  {
    if b == [] {
      assert a + b == a;
    } else {
      var b' := b[..|b| - 1];
      assert (a + b)[..|a + b| - 1] == a + b';
      TotalConcat(a, b');
    }
  }

  /** A single entry contributes exactly its multiplicity. */
  lemma TotalSingleton(x: SpikeCounter)
    ensures Total([x]) == x.multiplicity
  {
  }

  /** Removing the entry at index k lowers the total by its multiplicity. */
  lemma {:induction false} TotalRemove(s: seq<SpikeCounter>, k: int)
    requires 0 <= k < |s|
    ensures Total(s) == Total(s[..k] + s[k + 1..]) + s[k].multiplicity
  {
    var front, x, back := s[..k], s[k], s[k + 1..];
    assert s == front + ([x] + back);
    TotalConcat(front, [x] + back);
    TotalConcat([x], back);
    TotalSingleton(x);
    TotalConcat(front, back);
  }

  /** The total depends only on which entries the batch holds, not on
      their order. */
  lemma {:induction false} TotalPermutation(a: seq<SpikeCounter>, b: seq<SpikeCounter>)
    requires multiset(a) == multiset(b)
    ensures Total(a) == Total(b)
    decreases |a|
  {
    if a == [] {
      assert |b| == |multiset(b)| == 0;
    } else {
      var x := a[|a| - 1];
      var a' := a[..|a| - 1];
      assert a == a' + [x];
      assert x in multiset(b);
      var k :| 0 <= k < |b| && b[k] == x;
      var b' := b[..k] + b[k + 1..];
      assert b == b[..k] + [x] + b[k + 1..];
      assert multiset(b') == multiset(b) - multiset{x};
      assert multiset(a') == multiset(a) - multiset{x};
      TotalPermutation(a', b');
      TotalRemove(b, k);
    }
  }
}
