# Neuromodulated synapse weight update (modmodule)

A Dafny model of the weight-update engine of the NEST extension module
`modmodule`. Three synapse models are registered: `modulatory_synapse`,
`d1_synapse` and `d2_synapse`. Each connection keeps an initial weight and
an effective weight. At the end of every deliver interval the bound volume
transmitter hands each connection the batch of modulatory spike counters.
The connection then sums their multiplicities into N and forms the ratio
`2 N / (deliver_interval * max_modulation)`. Its new effective weight is the
initial weight times the modulation function of that ratio. That function is
the identity for the modulatory model, `1 + alpha m` for D1 and
`1 - alpha m` for D2. `send` drops events stamped with an odd step count and
delivers the others with the effective weight. The volume transmitter and
`max_modulation` live in the common properties shared by all connections
of a model.

Layout:

- `results.dfy` (`Results`): Option, Result and the BadProperty exception.
- `modulation.dfy` (`Modulation`): the three modulation functions as one
  tagged datatype `Base | D1(alpha) | D2(alpha)` with `Eval`, and their
  algebra.
- `spike_counts.dfy` (`SpikeCounts`): spike counters and the multiplicity
  total, with its concatenation and permutation lemmas.
- `common.dfy` (`Common`): the common properties: their defaults, `get_vt_gid`,
  `get_node`, and the status getter and setter. The network lookup followed
  by the cast to a volume transmitter is an oracle `int -> Option<VolumeTransmitter>`.
- `synapse.dfy` (`Synapse`): the connection: constructors, `set_weight`,
  `set_alpha`, the status getter and setter, `send` and `trigger_update_weight`.
  The update appears twice: as the function `UpdateWeight` and as the method
  `TriggerUpdateWeight`, which runs the summation loop of `trigger_update_weight`
  in modulatory_connection.h.
- `synapse_facts.dfy` (`SynapseFacts`): lemmas that relate several
  operations, such as idempotence, order independence, affinity in the
  batch, and what `send` delivers after an update.

Weights, ratios and multiplicities are exact `real`s. The deliver interval,
`max_modulation`, gids and time-stamp steps are `int`s.

Behaviour of the code that the model keeps on purpose:

- The update has no error result. `trigger_update_weight` dereferences
  `cp.vt_` (modulatory_connection.h:240) and divides by
  `di*max_modulation_` (modulatory_connection.h:244) without checking, so
  both conditions are the precondition `Synapse.CanUpdate`.
- The numerator constant is 2 for all three models
  (modulatory_connection.h:244). The modulatory model's `compute_modulation`
  returns the ratio itself (modulatory_connection.h:183-186), so an empty
  batch drives its weight to 0.
- `ModulatoryCommonProperties::set_status` does not validate
  `max_modulation` (modulatory_connection.cpp:40): any integer, including 0
  or a negative one, is accepted. It is also not atomic. `max_modulation` is
  written before the `vt` key is checked, so it persists when the check
  throws, and the old binding is lost (modulatory_connection.cpp:43-50).
- `alpha` is a private field of each D1/D2 instance (da_connection.h:21, 89).
  Nothing checks that it is non-negative.

## Model

| member | source | states |
|---|---|---|
| `Common.Default` | modmodule/modulatory_connection.cpp:15-20 | Default common properties have no transmitter bound and `max_modulation` 1 |
| `Common.VtGid` | modmodule/modulatory_connection.h:42-48 | The gid is -1 when no transmitter is bound, otherwise the bound transmitter's gid |
| `Common.GetNode` | modmodule/modulatory_connection.cpp:55-62 | Returns the bound transmitter exactly when one is bound; otherwise throws BadProperty with the message of `get_node` in modulatory_connection.cpp |
| `Common.GetStatus` | modmodule/modulatory_connection.cpp:22-33 | Reports `vt` as the bound gid or -1, together with `max_modulation` |
| `Common.SetStatus` | modmodule/modulatory_connection.cpp:35-53 | A present `max_modulation` is taken unvalidated, even when the call then throws. An absent `vt` keeps the binding. A present `vt` rebinds to the lookup result and throws BadProperty exactly when that result is not a volume transmitter, leaving nothing bound |
| `Common.StatusRoundTrip` | modmodule/modulatory_connection.cpp:22-53 | Writing back the reported status changes nothing and throws nothing, when the bound gid still resolves to the same transmitter |
| `Common.SetStatusBindsGid` | modmodule/modulatory_connection.cpp:43-46 | After a successful `vt` key, on a network that returns only nodes with the asked gid, the getter reports that gid and `get_node` returns that transmitter |
| `Common.RejectedVtLosesBinding` | modmodule/modulatory_connection.cpp:40-50 | A `vt` key that is not a volume transmitter leaves no binding, even if one existed, so a later `get_node` throws; the new `max_modulation` is kept |
| `Modulation.Eval` | modmodule/modulatory_connection.h:183-186 | The three `compute_modulation` overrides in one dispatch: identity for the modulatory model (here), `1 + alpha m` for D1 (da_connection.h lines 55-58) and `1 - alpha m` for D2 (da_connection.h lines 123-126); its properties are stated by `IncreasePlusDecrease`, `Affine`, `Monotone` and `ZeroRatio` |
| `Modulation.ZeroRatio` | modmodule/modulatory_connection.h:183-186 | Ratio 0 gives multiplier 1 for D1 and D2 with any alpha, and 0 for the identity |
| `Modulation.IncreasePlusDecrease` | modmodule/da_connection.h:123-126 | With equal alpha, the D1 and D2 multipliers sum to 2 for every ratio |
| `Modulation.Monotone` | modmodule/da_connection.h:55-58 | With alpha >= 0, D1 is non-decreasing and D2 non-increasing in the ratio |
| `Modulation.ScaledMonotone` | modmodule/da_connection.h:55-58 | Multiplying by a non-negative initial weight keeps D1 non-decreasing and D2 non-increasing for alpha >= 0 |
| `Modulation.Unclamped` | modmodule/da_connection.h:123-126 | No clamping: D2's multiplier is negative, and D1's exceeds 2, exactly when alpha times the ratio exceeds 1 |
| `Modulation.Affine` | modmodule/da_connection.h:55-58 | D1 and D2 multipliers are affine in the ratio (the multiplier of a sum is the sum less 1); the identity is additive |
| `SpikeCounts.Total` | modmodule/modulatory_connection.h:233-235 | The spike total of an empty batch is 0, and it is non-negative when every multiplicity is |
| `SpikeCounts.TotalConcat` | modmodule/modulatory_connection.h:233-235 | The total of two batches joined is the sum of their totals |
| `SpikeCounts.TotalPermutation` | modmodule/modulatory_connection.h:233-235 | Any two batches with the same multiset of counters have the same total |
| `Synapse.DefaultModulation` | modmodule/da_connection.h:29-31 | D1 and D2 connections start with alpha 1.0 (also da_connection.h lines 97-99); the modulatory model uses the identity |
| `Synapse.New` | modmodule/modulatory_connection.h:73-75 | A new connection has initial weight 1.0, weight 1.0, and its model's default modulation |
| `Synapse.SetWeight` | modmodule/modulatory_connection.h:178-181 | `set_weight` changes only the initial weight; the effective weight and modulation are untouched |
| `Synapse.SetAlpha` | modmodule/da_connection.h:50-53 | `set_alpha` changes only alpha and keeps the variant and both weights |
| `Synapse.GetStatus` | modmodule/modulatory_connection.h:209-215 | Reports weight and initial weight; `alpha` is reported exactly for D1 and D2 (da_connection.h lines 62-68) |
| `Synapse.SetStatus` | modmodule/modulatory_connection.h:218-224 | `weight` and `initial_weight` are set only when present. For D1 and D2, `alpha` is set only when present; the modulatory model ignores it. The variant is kept |
| `Synapse.CppRem` | modmodule/modulatory_connection.h:196 | C++ remainder by a positive divisor: bounded by the divisor, equal to the Euclidean one for non-negative dividends, and for negative dividends non-positive and congruent to the dividend modulo the divisor |
| `Synapse.Send` | modmodule/modulatory_connection.h:196-205 | An event is delivered exactly when its step count is even (for negative steps too), and it then carries the current effective weight |
| `Synapse.Ratio` | modmodule/modulatory_connection.h:244 | The ratio of zero spikes is 0; with a positive normaliser the ratio is non-negative exactly when the spike count is |
| `Synapse.UpdateWeight` | modmodule/modulatory_connection.h:240-245 | The update leaves the initial weight and the modulation untouched; it needs a bound transmitter and a non-zero normaliser |
| `Synapse.TriggerUpdateWeight` | modmodule/modulatory_connection.h:227-247 | The loop's sum equals the spike total, so the new weight is the initial weight times the modulation of 2 N / (di * max_modulation), and the result agrees with `UpdateWeight` |
| `SynapseFacts.UpdateNotCumulative` | modmodule/modulatory_connection.h:245 | The update does not depend on the previous effective weight |
| `SynapseFacts.UpdateIdempotent` | modmodule/modulatory_connection.h:245 | Applying the same batch twice gives the same connection as applying it once |
| `SynapseFacts.UpdatePermutationInvariant` | modmodule/modulatory_connection.h:233-245 | Reordering the batch does not change the update |
| `SynapseFacts.EmptyBatch` | modmodule/modulatory_connection.h:244-245 | An empty batch returns D1 and D2 to the initial weight and sets the modulatory model's weight to 0 |
| `SynapseFacts.BaseProportional` | modmodule/modulatory_connection.h:183-186 | For the modulatory model the weight is the initial weight times 2 N / (di * max_modulation), linear in N |
| `SynapseFacts.RatioConcat` | modmodule/modulatory_connection.h:233-244 | The ratio of two batches joined is the sum of their ratios |
| `SynapseFacts.UpdateConcat` | modmodule/modulatory_connection.h:233-245 | Joined batches give the sum of the separate weights, less the initial weight for D1 and D2 |
| `SynapseFacts.MoreSpikesMonotone` | modmodule/da_connection.h:55-58 | With non-negative alpha, initial weight, multiplicities and normaliser, more spikes never lower a D1 weight nor raise a D2 weight |
| `SynapseFacts.D2WeightCanTurnNegative` | modmodule/da_connection.h:123-126 | A D2 connection with positive initial weight and alpha times the ratio above 1 gets a negative effective weight |
| `SynapseFacts.StatusWeightOverwritten` | modmodule/modulatory_connection.h:222 | A weight written through `set_status` is discarded by the next update |
| `SynapseFacts.SetWeightDeferred` | modmodule/modulatory_connection.h:178-181 | `set_weight` does not change what `send` delivers until the next update; that update uses the new initial weight |
| `SynapseFacts.SendAfterUpdate` | modmodule/modulatory_connection.h:196-205 | After an update, an even-stamped event carries the initial weight times the batch's modulation |
| `SynapseFacts.SendAlternates` | modmodule/modulatory_connection.h:196-197 | Exactly one of two consecutive stamps is delivered, and the outcome repeats every two steps |
| `SynapseFacts.StatusRoundTrip` | modmodule/modulatory_connection.h:209-224 | Writing back the reported status leaves the connection unchanged |
| `SynapseFacts.StatusReflectsUpdate` | modmodule/da_connection.h:70-76 | The getter reports every key the setter was given; `alpha` is reported only for D1 and D2 |
| `SynapseFacts.ConcreteScenarios` | modmodule/modulatory_connection.h:244-245 | 50 spikes, deliver interval 100 and `max_modulation` 1 give ratio 1. Initial weight 2 then moves to 4 under D1 and to 0 under D2, both with alpha 1 |

## Left out

- Event emission in `send`: setting delay, receiver and receptor port, and firing the event, is host plumbing. Only the parity filter and the carried weight are modelled. `send` is a pure function, so it cannot modify the connection.
- `check_connection` and `ConnTestDummyNode`: connection-legality checks delegated to the host.
- Dictionary marshalling beyond key present/absent: type conversion errors, `size_of`, and the base-class `Connection`/`CommonSynapseProperties` status keys (delay, receptor) are not modelled. The transmitter's own status dictionary is reduced to the field `deliverInterval`.
- Common.SetStatus: binds a copy of the transmitter record taken at bind time, whereas `vt_` is a pointer to the live node and `trigger_update_weight` reads `deliver_interval` from it on every update (modulatory_connection.h:240-242). A later change to the transmitter's deliver interval does not reach the bound record; callers of `Synapse.UpdateWeight` and `Synapse.TriggerUpdateWeight` must pass common properties holding the transmitter's current record.
- Volume-transmitter internals and the network: the lookup and cast are an oracle. An exception thrown by the network lookup itself, for a gid that names no node, is not modelled: that code is not part of this model.
- Module registration and dynamic loading (modmodule.cpp, modmodule.h), and the example simulation script.
- The thread argument, the trigger time `t_trig` and the `t_lastspike` argument: none of them affects the result.
- IEEE-754 rounding: weights and ratios are exact reals, and summation order does not matter for them.
- Synapse.UpdateWeight: the product `deliver_interval * max_modulation` is a 64-bit `long` in `trigger_update_weight` (modulatory_connection.h:244). The model uses unbounded integers, so an overflow of that product, which is undefined behaviour in C++, is not modelled.
- Concurrency: each connection is updated by one thread at a time; no data races are modelled.
