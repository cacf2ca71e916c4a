# Well-mixed tank: a Dafny model

This project models the decision and record-building logic of MetaChem's
"well-mixed tank" experiment template. It takes a tank of particles, samples
some of them, and hands the sample to a bond subgraph. It records each
reaction in a ledger and loops through reactions and generations until a
three-way decision ends the run.

Pure functions and lemmas over immutable datatypes model the template's own
logic:

- **Decision** — `TimingsDecision.process`: the priority gate that keeps
  reacting, starts a new generation, or terminates.
- **Assembly** — the constructor:
  - the shape check on the bond subgraph (`ValueError`, here a `Failure`);
  - the fixed control-edge list and the two splice edges;
  - which containers the decision and the reaction recorder read.
- **Topology** — properties of the assembled control-flow graph. The graph is
  an ordered edge list, and a vertex's successors are listed in the order
  their edges were first added.
- **Observers** — the two recorders around the bond subgraph:
  - `SampleObserver.process` stages `id1, id2, obj1, obj2`;
  - `ReturnObserver.process` adds `Prods, Open_Spikes, Bonded_Spikes, Intensity, Generation`;
  - the nine-column ledger schema.
- **Export** — the path search of `results_to_csv`. It finds the least free
  suffix over a finite set of existing paths.
- **Loader** — the load-type dispatch of `LoadSampler.read`/`pull`.
  Randomness and factory output are parameters.
- **Particles** — sample items: `Raw(value) | Plain(id) | RBN(id, atoms, openSpikes, bonds)`.
  Each spike is a `(number, intensity)` pair.
- **Wrappers** — `Option` and `Result`.

Facts about the code that the model follows:

- For an unknown `load_type` string, `read` and `pull` set no sample
  (lines 178-203); `Loader.Load` returns `None`.
- The tank is generated in `pull`; `read` only reads the csv row.
- A badly shaped bond subgraph raises `ValueError` (line 48).
- The `Generation` column reads the container that `ReturnObserver` stores
  under its parameter named `VTime`. The constructor passes `VGen` there
  (line 86). `VGen` is the per-generation reaction counter: the one the
  decision reads first and compares against the `reactions` threshold
  (lines 84, 247, 261). It is not the generation clock `VTime`. The reaction
  tick `ogen` advances `VGen` between the recorder and the decision (lines
  83, 95-96), so the decision sees the recorded value plus one tick.
  `Assembly.GenerationColumnIsReactionCount` and
  `Topology.RecorderToDecision` state this.

## Model

| member | source | states |
|---|---|---|
| Decision.Process | MetaChem-networkxgraphs/metachem/templates/WellMixedTank.py:251-266 | the option is one of the 3 declared options. Option 0 implies the tank holds at least a sample, so the sampler that follows option 0 cannot over-draw (the sampler entered from the reset at the start of a generation is not behind this guard; see `Topology.SamplerEntries`). Option 2 implies the generation budget is spent |
| Decision.ProcessIsFirstMatch | MetaChem-networkxgraphs/metachem/templates/WellMixedTank.py:216-221 | the decision equals the first-match rule over its two guards, taken in priority order. The first-match rule is an independent reference definition |
| Decision.ProcessPriority | MetaChem-networkxgraphs/metachem/templates/WellMixedTank.py:261-266 | returns 0 iff `gen < gen_thresh` and `tank_size >= sample_size`; otherwise 1 iff `time < time_thresh`; otherwise 2 |
| Decision.ExhaustedTank | MetaChem-networkxgraphs/metachem/templates/WellMixedTank.py:261-266 | a tank smaller than a sample goes straight to a new generation or to termination, whatever the reaction count |
| Decision.ProcessMonotone | MetaChem-networkxgraphs/metachem/templates/WellMixedTank.py:261-266 | more reactions, more elapsed generations or a smaller tank never lower the chosen option |
| Decision.ThresholdExamples | MetaChem-networkxgraphs/metachem/templates/WellMixedTank.py:261-266 | with a reaction threshold of 3 and enough particles: count 2 gives 0; count 3 with time left gives 1; count 3 with time equal to the threshold gives 2 |
| Assembly.Assemble | MetaChem-networkxgraphs/metachem/templates/WellMixedTank.py:44-109 | construction succeeds iff the bond graph has exactly one control-in, one control-out and one link. On success: the start is the loader; the decision's time threshold is `generations`, its reaction threshold is `reactions`, and its sample size is `sample_size`; the decision reads `[VGen, VTime, TTank]`; the reaction recorder takes Generation from `VGen`, shares `VBond` with the sample recorder and appends to `VReaction`; the link is `SComposite`; the clock tick acts on `VTime`, the reset and the reaction tick on `VGen`; the sampler draws `sample_size` items from `TTank`, the container the decision measures, into `SComposite`; both recorders read their sample from `SComposite`, the sampler's output and the bond link; the edges are the fixed list, the bond subgraph's edges and the two splice edges |
| Assembly.GenerationColumnIsReactionCount | MetaChem-networkxgraphs/metachem/templates/WellMixedTank.py:76-86 | under the constructor's wiring, the recorder's Generation value and the decision's first reading come from the same container, `VGen`, which the reset zeroes and the reaction tick advances, and not from the clock `VTime`; in one snapshot of the counters they are equal. Between the recorder and the decision the reaction tick advances `VGen` once (see `Topology.RecorderToDecision`) |
| Assembly.SpliceEnds | MetaChem-networkxgraphs/metachem/templates/WellMixedTank.py:106-107 | the two splice edges leave only the sample recorder and the control-out vertex, and enter only the control-in vertex and the reaction recorder |
| Topology.DecisionSuccessors | MetaChem-networkxgraphs/metachem/templates/WellMixedTank.py:95-97 | the decision has exactly 3 successors, in the order sample, new generation, end of run: as many as the options it declares |
| Topology.TerminationVertex | MetaChem-networkxgraphs/metachem/templates/WellMixedTank.py:95-97 | the termination vertex's only predecessor is the end-of-run sampler, and it has no successors |
| Topology.LoaderRunsOnce | MetaChem-networkxgraphs/metachem/templates/WellMixedTank.py:95-101 | the loader has no predecessor, so it is never re-entered. Its only successor is the clock tick |
| Topology.RecordersJoinedByBondGraph | MetaChem-networkxgraphs/metachem/templates/WellMixedTank.py:95-107 | there is no edge from the sample recorder to the reaction recorder. The sample recorder's only successor is the control-in vertex, and the reaction recorder's only predecessor is the control-out vertex |
| Topology.BondEdgesPreserved | MetaChem-networkxgraphs/metachem/templates/WellMixedTank.py:103-104 | the edges between bond vertices in the composed graph are exactly the bond subgraph's own edges |
| Topology.GenerationLoop | MetaChem-networkxgraphs/metachem/templates/WellMixedTank.py:95-97 | a new generation goes to the logger and then back to the clock tick; the end-of-run sampler goes straight to termination |
| Topology.RecorderToDecision | MetaChem-networkxgraphs/metachem/templates/WellMixedTank.py:95-96 | the reaction recorder's only successor is the return sampler, whose only successor is the reaction tick, whose only successor is the decision; the decision's only predecessor is the reaction tick |
| Topology.SamplerEntries | MetaChem-networkxgraphs/metachem/templates/WellMixedTank.py:95-96 | the sampler's predecessors are exactly the reset and the decision, in that order |
| Topology.WiredDecision | MetaChem-networkxgraphs/metachem/templates/WellMixedTank.py:242-266 | the decision's read phase through its wired containers (line 84) and its process phase pick the successor: sampling iff the reaction counter < `reactions` and the tank holds a sample; a new generation iff not, and the clock < `generations`; termination otherwise |
| Observers.PreRecord | MetaChem-networkxgraphs/metachem/templates/WellMixedTank.py:327-342 | the record has exactly the keys `id1, id2, obj1, obj2`. `id1` is the first item's id when it is a particle, else `'n/a'`, and `obj1` is the first item. The same holds for the second item, or `'None'` for both when the sample has one item |
| Observers.PreRecordIgnoresTail | MetaChem-networkxgraphs/metachem/templates/WellMixedTank.py:332-341 | items beyond the second never change the record |
| Observers.PreRecordRoundTrip | MetaChem-networkxgraphs/metachem/templates/WellMixedTank.py:328-342 | reading the objects back from the record gives exactly the first one or two sampled items, in order |
| Observers.StageSample | MetaChem-networkxgraphs/metachem/templates/WellMixedTank.py:321-345 | one sample-recorder visit on the keyed store sets the four staging keys to the fresh record and leaves every other key unchanged |
| Observers.SpikePairs | MetaChem-networkxgraphs/metachem/templates/WellMixedTank.py:367-368 | one `(spike number, intensity)` pair per spike, in spike order |
| Observers.DescribeProducts | MetaChem-networkxgraphs/metachem/templates/WellMixedTank.py:360-376 | RBN branch: the four lists have one entry per product, in product order. Each entry holds the product's description, its open and bonded spike pairs, and the sum of its open plus bonded spike intensities |
| Observers.ReturnObserve | MetaChem-networkxgraphs/metachem/templates/WellMixedTank.py:358-387 | adds exactly the five product keys and changes no other staged key. `Generation` is the counter value. Each product column has `len(sample)` entries: all `"N/A"` unless every product is an RBN particle, and the per-product values otherwise |
| Observers.LedgerSchema | MetaChem-networkxgraphs/metachem/templates/WellMixedTank.py:62 | the four staged keys and the five added keys are disjoint, and together they are exactly the nine ledger columns |
| Observers.RecordReaction | MetaChem-networkxgraphs/metachem/templates/WellMixedTank.py:321-390 | the sample recorder stages into the keyed store and the reaction recorder appends the staged store: the ledger becomes the old rows plus exactly one row. That row carries the pre-reaction snapshot, the counter value and the store's other keys; its four product columns have one entry per product, all `"N/A"` unless every product is an RBN particle, and otherwise each product's description, spike pairs and open-plus-bonded intensity; a store holding only the staged and added keys yields a row with exactly those keys, which `Observers.LedgerSchema` shows are the nine ledger columns |
| Particles.IntensityConcat | MetaChem-networkxgraphs/metachem/templates/WellMixedTank.py:369 | the total over the open spikes followed by the bonded spikes is the sum of the two totals |
| Export.DecimalInjective | MetaChem-networkxgraphs/metachem/templates/WellMixedTank.py:138 | different suffixes have different decimal spellings |
| Export.CandidateInjective | MetaChem-networkxgraphs/metachem/templates/WellMixedTank.py:134-138 | different suffixes name different candidate paths, including the unsuffixed default |
| Export.ChoosePath | MetaChem-networkxgraphs/metachem/templates/WellMixedTank.py:132-141 | the chosen path never exists already. Every candidate with a smaller suffix exists, so it is the least free suffix. It is `Outputs/output.csv` when that path is free, and the suffix never exceeds the number of existing paths |
| Loader.Letters | MetaChem-networkxgraphs/metachem/templates/WellMixedTank.py:195-196 | an "scc" tank has the requested size, and every item is one uppercase letter |
| Loader.Integers | MetaChem-networkxgraphs/metachem/templates/WellMixedTank.py:197-198 | an "int" tank has the requested size, and every item is an integer in [0, 100] |
| Loader.Load | MetaChem-networkxgraphs/metachem/templates/WellMixedTank.py:178-203 | "int" and "scc" give `max(tank_size, 0)` generated items; "csv" gives the first row's values; "RBN" or a factory gives the factory's particles. No sample is set exactly when the load type is unset or an unknown string |

## Left out

- The NetworkX graph objects, `nx.compose`, the `Template` base class and the
  `Simulate` driver are foreign library code. The graph is an ordered edge
  list, and running it is not modelled.
- The `CoreContainer` and `CoreControl` classes are not part of this model:
  `ListTank`, `StackEnvironment`, `DictionaryEnvironment`,
  `DataFrameEnvironment`, `SimpleSampler`, `BruteSampler`, `ClockObserver`
  and `ClockResetObserver`. Their effects are taken as their names describe:
  - a counter read is its current integer;
  - a dictionary `remove`/`add` deletes or overwrites keys;
  - a data-frame `add` appends one row.
- The driver and the samplers are not modelled, so nothing is proved about a
  whole run: the particle count over a run, the ledger's length after a run,
  or when the counters are reset.
- Successor order is an assumption about the `Simulate` driver, which is not
  part of this model: `Topology.WiredDecision` takes option `k` of the
  decision to follow its `k`-th successor in edge-insertion order.
- `Loader.Load` returns `None` for an unknown `load_type`. What `push`
  (line 211) then adds to the tank is the base class's initial `sample`,
  which is not modelled.
- The product buffer `TNew`, the samplers that move particles through it,
  and `VLog` (created at line 69 and handed to no node) are not modelled.
  The constructor's `tank_size` only reaches the loader, so it is a
  parameter of `Loader.Load`.
- `count_control_in`, `count_control_out` and `count_links` are taken to be
  the lengths of the bond graph's `control_in`, `control_out` and `links`.
  That class is not part of this model.
- The `set_linknode` calls (lines 66-67 and 109) are modelled only as the
  `link` container recorded in the assembled `Tank`.
- The random draws of `LoadSampler.pull` are a `pick` parameter. The csv file
  is its first row, passed in. `WatsonRBNParticleFactory` and user factories
  are the particle list they return. Missing and empty csv files are file
  I/O and are not modelled.
- `TimeLoggerObserver`, `print_tank`, `print_reactions`, the file write in
  `results_to_csv` and the `__main__` block are console and disk I/O. A
  caller-supplied `log_node` and the default logger are the same vertex,
  `OLog`.
- `os.path.exists` is a finite set of existing paths. `os.path.splitext` of
  the default path is written out as base `Outputs/output` and extension
  `.csv`.
- Spike intensities are integers, not floats.
- The `RBNParticle(...)` description string of line 371 is an opaque token
  `Prod(id, |atoms|, |open|, |bonds|)`.
- The keyed store holds tagged values: a sampled object `Obj(x)` is distinct
  from the sentinel string `'None'`, even when a csv value is itself the text
  `None`. The round trip in `Observers.PreRecordRoundTrip` relies on this.
- `Observers.PreRecord` requires a non-empty sample. The source indexes
  `sample[0]` unconditionally, so an empty sample raises `IndexError` there.
- `Observers.ReturnObserve` returns the extended record. It does not model
  that the source mutates the dictionary held by the keyed store in place.
