/** One neuromodulated connection (ModulatoryConnection and its D1 and D2
    subclasses): the initial weight set by the user, the effective weight
    recomputed from each batch of modulatory spikes, and the modulation
    function of its synapse model. */
module Synapse {
  import opened Results
  import opened Modulation
  import opened SpikeCounts
  import opened Common

  /** The three registered synapse models. */
  datatype SynapseModel = ModulatorySynapse | D1Synapse | D2Synapse

  datatype Connection = Connection(initialWeight: real, weight: real, modulation: ModulationFunction)

  /** The modulation function a default-constructed connection of the given
      model carries: the identity, or a gain variant with `alpha` 1. */
  function DefaultModulation(model: SynapseModel): (f: ModulationFunction)
    ensures model == ModulatorySynapse <==> f == Base
    ensures model == D1Synapse <==> f == D1(DefaultAlpha)
    ensures model == D2Synapse <==> f == D2(DefaultAlpha)
    ensures f.HasAlpha() ==> f.alpha == 1.0
  {
    match model
    case ModulatorySynapse => Base
    case D1Synapse => D1(DefaultAlpha)
    case D2Synapse => D2(DefaultAlpha)
  }

  /** A default-constructed connection: initial and effective weight 1. */
  function New(model: SynapseModel): (c: Connection)
    ensures c.initialWeight == 1.0 && c.weight == 1.0
    ensures c.modulation == DefaultModulation(model)
  {
    Connection(1.0, 1.0, DefaultModulation(model))
  }

  /** Sets the initial weight only; the effective weight keeps its value
      until the next update. */
  function SetWeight(c: Connection, w: real): (r: Connection)
    ensures r.initialWeight == w
    ensures r.weight == c.weight && r.modulation == c.modulation
  {
    c.(initialWeight := w)
  }

  /** Sets the gain of a D1 or D2 connection and nothing else. */
  function SetAlpha(c: Connection, alpha: real): (r: Connection)
    requires c.modulation.HasAlpha()
    ensures r.modulation.HasAlpha() && r.modulation.alpha == alpha
    ensures r.modulation.D1? == c.modulation.D1?
    ensures r.initialWeight == c.initialWeight && r.weight == c.weight
  {
    c.(modulation := c.modulation.(alpha := alpha))
  }

  /** The status dictionary of a connection; `alpha` is reported by the D1
      and D2 models only. */
  datatype ConnectionStatus = ConnectionStatus(weight: real, initialWeight: real, alpha: Option<real>)

  /** A status dictionary handed to the setter; None marks an absent key. */
  datatype ConnectionUpdate = ConnectionUpdate(weight: Option<real>, initialWeight: Option<real>, alpha: Option<real>)

  function GetStatus(c: Connection): (s: ConnectionStatus)
    ensures s.weight == c.weight && s.initialWeight == c.initialWeight
    ensures s.alpha.Some? <==> c.modulation.HasAlpha()
    ensures s.alpha.Some? ==> s.alpha.value == c.modulation.alpha
  {
    var alpha := if c.modulation.HasAlpha() then Some(c.modulation.alpha) else None;
    ConnectionStatus(c.weight, c.initialWeight, alpha)
  }

  /** The dictionary that carries every reported key back to the setter. */
  function AsUpdate(s: ConnectionStatus): (d: ConnectionUpdate)
    ensures d.weight == Some(s.weight) && d.initialWeight == Some(s.initialWeight)
    ensures d.alpha == s.alpha
  {
    ConnectionUpdate(Some(s.weight), Some(s.initialWeight), s.alpha)
  }

  /** The value a present key sets, or the old value for an absent key. */
  function Update<T>(key: Option<T>, current: T): (v: T)
    ensures key.Some? ==> v == key.value
    ensures key.None? ==> v == current
  {
    if key.Some? then key.value else current
  }

  /** The setter: the base fields `weight` and `initial_weight` first, then
      `alpha` for the D1 and D2 models; each only when its key is present.
      The modulatory model ignores an `alpha` key. */
  function SetStatus(c: Connection, d: ConnectionUpdate): (r: Connection)
    ensures r.weight == (if d.weight.Some? then d.weight.value else c.weight)
    ensures r.initialWeight == (if d.initialWeight.Some? then d.initialWeight.value else c.initialWeight)
    ensures r.modulation.Base? <==> c.modulation.Base?
    ensures r.modulation.D1? <==> c.modulation.D1?
    ensures c.modulation.HasAlpha() ==>
      r.modulation.alpha == (if d.alpha.Some? then d.alpha.value else c.modulation.alpha)
  {
    var base := c.(weight := Update(d.weight, c.weight), initialWeight := Update(d.initialWeight, c.initialWeight));
    if c.modulation.HasAlpha() then SetAlpha(base, Update(d.alpha, c.modulation.alpha)) else base
  }

  /** What happens to one event offered to `send`. */
  datatype Delivery = Dropped | Delivered(weight: real)

  /** A positive factor of at least 1 does not shrink a positive number. */
  lemma MulAtLeast(b: int, d: int)
    requires b > 0 && d >= 1
    ensures b * d >= b
  {
  }

  /** A multiple of a positive divisor leaves remainder 0. */
  lemma MultipleMod(b: int, k: int)
    requires b > 0
    ensures (b * k) % b == 0
  {
    var x := b * k;
    var q, r := x / b, x % b;
    assert x == b * q + r && 0 <= r < b;
    var d := k - q;
    assert b * d == r;
    if d >= 1 {
      MulAtLeast(b, d);
      assert false;
    } else if d <= -1 {
      MulAtLeast(b, -d);
      assert false;
    }
  }

  /** C++'s `%` for a positive divisor: the remainder truncates toward zero,
      so it takes the sign of the dividend and differs from the dividend by
      a multiple of the divisor. */
  function CppRem(a: int, b: int): (r: int)
    requires b > 0
    ensures -b < r < b
    ensures a >= 0 ==> r == a % b
    ensures a < 0 ==> r <= 0 && (a - r) % b == 0
  {
    if a >= 0 then a % b
    else
      var q := (-a) / b;
      assert a - -((-a) % b) == b * (-q);
      MultipleMod(b, -q);
      -((-a) % b)
  }

  /** `send` drops an event whose time stamp is an odd number of steps and
      delivers every other event with the current effective weight. */
  function Send(c: Connection, stampSteps: int): (r: Delivery)
    ensures r.Delivered? <==> stampSteps % 2 == 0
    ensures r.Delivered? ==> r.weight == c.weight
  {
    if CppRem(stampSteps, 2) != 0 then Dropped else Delivered(c.weight)
  }

  /** The transmitter is bound and the normaliser `di * max_modulation` is
      not zero; the update dereferences the one and divides by the other
      without checking. */
  predicate CanUpdate(cp: CommonProperties) {
    cp.vt.Some? && cp.vt.value.deliverInterval * cp.maxModulation != 0
  }

  /** The modulation ratio for `n` spikes: twice the spike count divided by
      the deliver interval times `max_modulation`. */
  function Ratio(n: real, cp: CommonProperties): (m: real)
    requires CanUpdate(cp)
    ensures n == 0.0 ==> m == 0.0
    ensures cp.vt.value.deliverInterval * cp.maxModulation > 0 ==> (m >= 0.0 <==> n >= 0.0)
  {
    2.0 * n / (cp.vt.value.deliverInterval * cp.maxModulation) as real
  }

  /** The update applied to a whole batch: only the effective weight
      changes, and it is recomputed from the initial weight. */
  function UpdateWeight(c: Connection, spikes: seq<SpikeCounter>, cp: CommonProperties): (r: Connection)
    requires CanUpdate(cp)
    ensures r.initialWeight == c.initialWeight && r.modulation == c.modulation
  {
    c.(weight := c.initialWeight * Eval(c.modulation, Ratio(Total(spikes), cp)))
  }

  /** `trigger_update_weight` in modulatory_connection.h: sum the multiplicities
      in batch order, read the deliver interval of the bound transmitter,
      form the ratio and rescale the initial weight. */
  method TriggerUpdateWeight(c: Connection, spikes: seq<SpikeCounter>, cp: CommonProperties)
    returns (r: Connection)
    requires CanUpdate(cp)
    ensures r.weight == c.initialWeight * Eval(c.modulation, Ratio(Total(spikes), cp))
    ensures r == UpdateWeight(c, spikes, cp)
  {
    var numSpikes := 0.0;
    var i := 0;
    while i < |spikes|
      invariant 0 <= i <= |spikes|
      invariant numSpikes == Total(spikes[..i])
    {
      assert spikes[..i + 1][..i] == spikes[..i];
      numSpikes := numSpikes + spikes[i].multiplicity;
      i := i + 1;
    }
    assert spikes[..i] == spikes;
    var di := cp.vt.value.deliverInterval;
    var modulation := 2.0 * numSpikes / (di * cp.maxModulation) as real;
    r := c.(weight := c.initialWeight * Eval(c.modulation, modulation));
  }
}
