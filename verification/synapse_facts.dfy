/** Properties that relate several operations on a connection: updates are
    recomputed from the initial weight, depend on the batch only through its
    total, and feed the weight that `send` delivers. */
module SynapseFacts {
  import opened Results
  import opened Modulation
  import opened SpikeCounts
  import Common
  import opened Synapse

  /** The update ignores the previous effective weight: two connections that
      agree on initial weight and modulation agree after the update. */
  lemma UpdateNotCumulative(c1: Connection, c2: Connection, spikes: seq<SpikeCounter>, cp: Common.CommonProperties)
    requires CanUpdate(cp)
    requires c1.initialWeight == c2.initialWeight && c1.modulation == c2.modulation
    ensures UpdateWeight(c1, spikes, cp) == UpdateWeight(c2, spikes, cp)
  {
  }

  /** Applying the same batch twice gives the same connection as once. */
  lemma UpdateIdempotent(c: Connection, spikes: seq<SpikeCounter>, cp: Common.CommonProperties)
    requires CanUpdate(cp)
    ensures UpdateWeight(UpdateWeight(c, spikes, cp), spikes, cp) == UpdateWeight(c, spikes, cp)
  {
  }

  /** Reordering the batch does not change the update. */
  lemma UpdatePermutationInvariant(c: Connection, a: seq<SpikeCounter>, b: seq<SpikeCounter>, cp: Common.CommonProperties)
    requires CanUpdate(cp)
    requires multiset(a) == multiset(b)
    ensures UpdateWeight(c, a, cp) == UpdateWeight(c, b, cp)
  {
    TotalPermutation(a, b);
  }

  /** An empty batch gives the ratio 0: the D1 and D2 models return to the
      initial weight, the modulatory model drops to weight 0. */
  lemma EmptyBatch(c: Connection, cp: Common.CommonProperties)
    requires CanUpdate(cp)
    ensures c.modulation.HasAlpha() ==> UpdateWeight(c, [], cp).weight == c.initialWeight
    ensures c.modulation.Base? ==> UpdateWeight(c, [], cp).weight == 0.0
  {
  }

  /** For the modulatory model the weight is proportional to the spike
      total: it scales the initial weight by 2 N / (di * max_modulation). */
  lemma BaseProportional(c: Connection, spikes: seq<SpikeCounter>, cp: Common.CommonProperties)
    requires CanUpdate(cp)
    requires c.modulation.Base?
    ensures UpdateWeight(c, spikes, cp).weight
         == c.initialWeight * 2.0 * Total(spikes) / (cp.vt.value.deliverInterval * cp.maxModulation) as real
  {
  }

  /** The ratio of two batches together is the sum of their ratios. */
  lemma RatioConcat(a: seq<SpikeCounter>, b: seq<SpikeCounter>, cp: Common.CommonProperties)
    requires CanUpdate(cp)
    ensures Ratio(Total(a + b), cp) == Ratio(Total(a), cp) + Ratio(Total(b), cp)
  {
    TotalConcat(a, b);
    var q := (cp.vt.value.deliverInterval * cp.maxModulation) as real;
    DivideSum(2.0 * Total(a), 2.0 * Total(b), q);
    assert 2.0 * (Total(a) + Total(b)) == 2.0 * Total(a) + 2.0 * Total(b);
  }

  lemma DivideSum(x: real, y: real, q: real)
    requires q != 0.0
    ensures (x + y) / q == x / q + y / q
  {
  }

  /** The weight after one update with two batches joined is the sum of the
      weights after each batch alone, less the initial weight for the D1 and
      D2 models: the update is affine in the batch. */
  lemma UpdateConcat(c: Connection, a: seq<SpikeCounter>, b: seq<SpikeCounter>, cp: Common.CommonProperties)
    requires CanUpdate(cp)
    ensures c.modulation.HasAlpha() ==>
      UpdateWeight(c, a + b, cp).weight
        == UpdateWeight(c, a, cp).weight + UpdateWeight(c, b, cp).weight - c.initialWeight
    ensures c.modulation.Base? ==>
      UpdateWeight(c, a + b, cp).weight == UpdateWeight(c, a, cp).weight + UpdateWeight(c, b, cp).weight
  {
    var ma, mb, mab := Ratio(Total(a), cp), Ratio(Total(b), cp), Ratio(Total(a + b), cp);
    assert mab == ma + mb by {
      RatioConcat(a, b, cp);
    }
    ScaledAffine(c.initialWeight, c.modulation, ma, mb);
  }

  /** With a positive normaliser, more spikes give a larger ratio. */
  lemma RatioMonotone(n1: real, n2: real, cp: Common.CommonProperties)
    requires CanUpdate(cp) && cp.vt.value.deliverInterval * cp.maxModulation > 0
    requires n1 <= n2
    ensures Ratio(n1, cp) <= Ratio(n2, cp)
  {
    var q := (cp.vt.value.deliverInterval * cp.maxModulation) as real;
    assert 2.0 * n2 / q - 2.0 * n1 / q == 2.0 * (n2 - n1) / q;
  }

  /** More modulatory spikes never lower a D1 weight nor raise a D2 weight,
      when the gain, the initial weight, the multiplicities and the
      normaliser are all non-negative. */
  lemma MoreSpikesMonotone(c: Connection, a: seq<SpikeCounter>, b: seq<SpikeCounter>, cp: Common.CommonProperties)
    requires CanUpdate(cp) && cp.vt.value.deliverInterval * cp.maxModulation > 0
    requires c.modulation.HasAlpha() && c.modulation.alpha >= 0.0
    requires c.initialWeight >= 0.0 && NonNegative(b)
    ensures c.modulation.D1? ==> UpdateWeight(c, a + b, cp).weight >= UpdateWeight(c, a, cp).weight
    ensures c.modulation.D2? ==> UpdateWeight(c, a + b, cp).weight <= UpdateWeight(c, a, cp).weight
  {
    var m1, m2 := Ratio(Total(a), cp), Ratio(Total(a + b), cp);
    assert m1 <= m2 by {
      TotalConcat(a, b);
      RatioMonotone(Total(a), Total(a + b), cp);
    }
    ScaledMonotone(c.initialWeight, c.modulation, m1, m2);
  }

  /** Nothing clamps the D2 weight: once `alpha` times the ratio exceeds 1,
      a positive initial weight turns into a negative effective weight. */
  lemma D2WeightCanTurnNegative(c: Connection, spikes: seq<SpikeCounter>, cp: Common.CommonProperties)
    requires CanUpdate(cp)
    requires c.modulation.D2? && c.initialWeight > 0.0
    requires c.modulation.alpha * Ratio(Total(spikes), cp) > 1.0
    ensures UpdateWeight(c, spikes, cp).weight < 0.0
  {
    assert Eval(c.modulation, Ratio(Total(spikes), cp))
        == 1.0 - c.modulation.alpha * Ratio(Total(spikes), cp);
    assert Eval(c.modulation, Ratio(Total(spikes), cp)) < 0.0;
  }

  /** A weight written through the status dictionary lasts only until the
      next update, which recomputes it from the initial weight. */
  lemma StatusWeightOverwritten(c: Connection, w: real, spikes: seq<SpikeCounter>, cp: Common.CommonProperties)
    requires CanUpdate(cp)
    ensures UpdateWeight(SetStatus(c, ConnectionUpdate(Some(w), None, None)), spikes, cp)
         == UpdateWeight(c, spikes, cp)
  {
  }

  /** `set_weight` does not change what `send` delivers until the next
      update, after which the new initial weight is used. */
  lemma SetWeightDeferred(c: Connection, w: real, stampSteps: int, spikes: seq<SpikeCounter>, cp: Common.CommonProperties)
    requires CanUpdate(cp)
    ensures Send(SetWeight(c, w), stampSteps) == Send(c, stampSteps)
    ensures UpdateWeight(SetWeight(c, w), spikes, cp).weight
         == w * Eval(c.modulation, Ratio(Total(spikes), cp))
  {
  }

  /** After an update, an even-stamped event carries the initial weight
      rescaled by the modulation of the batch. */
  lemma SendAfterUpdate(c: Connection, spikes: seq<SpikeCounter>, cp: Common.CommonProperties, stampSteps: int)
    requires CanUpdate(cp)
    requires stampSteps % 2 == 0
    ensures Send(UpdateWeight(c, spikes, cp), stampSteps)
         == Delivered(c.initialWeight * Eval(c.modulation, Ratio(Total(spikes), cp)))
  {
  }

  /** Of two consecutive time stamps exactly one is delivered, and the
      outcome repeats every two steps. */
  lemma SendAlternates(c: Connection, stampSteps: int)
    ensures Send(c, stampSteps).Delivered? != Send(c, stampSteps + 1).Delivered?
    ensures Send(c, stampSteps) == Send(c, stampSteps + 2)
  {
  }

  /** Writing back what the getter reported leaves the connection as it was. */
  lemma StatusRoundTrip(c: Connection)
    ensures SetStatus(c, AsUpdate(GetStatus(c))) == c
  {
  }

  /** The getter reports every key the setter was given, and `alpha` only
      for the models that have one. */
  lemma StatusReflectsUpdate(c: Connection, d: ConnectionUpdate)
    ensures d.weight.Some? ==> GetStatus(SetStatus(c, d)).weight == d.weight.value
    ensures d.initialWeight.Some? ==> GetStatus(SetStatus(c, d)).initialWeight == d.initialWeight.value
    ensures c.modulation.HasAlpha() && d.alpha.Some? ==> GetStatus(SetStatus(c, d)).alpha == d.alpha
    ensures c.modulation.Base? ==> GetStatus(SetStatus(c, d)).alpha.None?
  {
  }

  /** The two example settings: 50 spikes over a deliver interval of 100
      with `max_modulation` 1 give ratio 1, so a D1 connection of initial
      weight 2 moves to 4 and a D2 connection to 0. */
  lemma ConcreteScenarios()
    ensures UpdateWeight(Connection(2.0, 1.0, D1(1.0)), [SpikeCounter(0.0, 50.0)],
                         Common.CommonProperties(Some(Common.VolumeTransmitter(7, 100)), 1)).weight == 4.0
    ensures UpdateWeight(Connection(2.0, 1.0, D2(1.0)), [SpikeCounter(0.0, 50.0)],
                         Common.CommonProperties(Some(Common.VolumeTransmitter(7, 100)), 1)).weight == 0.0
  {
  }
}
