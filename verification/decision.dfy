/** The three-way gate that closes every reaction attempt of the well-mixed tank. */
module Decision {

  /** The decision declares exactly three outgoing options. */
  const OptionCount: nat := 3
  /** Option 0: loop back to sampling for another reaction. */
  const KeepReacting: nat := 0
  /** Option 1: return the products to the tank and start a new generation. */
  const NextGeneration: nat := 1
  /** Option 2: return the products to the tank and terminate. */
  const Terminate: nat := 2

  /** The configured thresholds: generations before termination (timeThresh),
      reactions per generation (genThresh), and the particles one sample takes. */
  datatype TimingsDecision = TimingsDecision(timeThresh: int, genThresh: int, sampleSize: int)

  /** What the read phase takes from the three read containers: the
      per-generation reaction counter, the generation clock, and the tank size. */
  datatype Reading = Reading(gen: int, time: int, tankSize: nat)

  /** Index of the first guard that holds, or the number of guards when none does:
      "the first matching rule wins". */
  function FirstMatch(guards: seq<bool>): (k: nat)
    ensures k <= |guards|
    ensures k < |guards| ==> guards[k]
    ensures forall j :: 0 <= j < k ==> !guards[j]
    decreases |guards|
  {
    if |guards| == 0 then 0
    else if guards[0] then 0
    else 1 + FirstMatch(guards[1..])
  }

  /** The guard of option 0: the reaction quota of this generation is not met
      and the tank can supply a whole sample. */
  predicate CanReact(d: TimingsDecision, r: Reading) {
    r.gen < d.genThresh && r.tankSize >= d.sampleSize
  }

  /** The guard of option 1: the generation budget is not exhausted. */
  predicate HasTime(d: TimingsDecision, r: Reading) {
    r.time < d.timeThresh
  }

  /** The process phase: the option index the decision returns for one reading.
      Option 0 only when the tank holds a whole sample, so the sampler that
      follows option 0 cannot over-draw; option 2 only when the generation budget is spent. */
  function Process(d: TimingsDecision, r: Reading): (option: nat)
    ensures option < OptionCount
    ensures option == KeepReacting ==> r.tankSize >= d.sampleSize && r.gen < d.genThresh
    ensures option == Terminate ==> r.time >= d.timeThresh
  {
    if r.gen < d.genThresh && r.tankSize >= d.sampleSize then KeepReacting
    else if r.time < d.timeThresh then NextGeneration
    else Terminate
  }

  /** The decision is the first-match rule over its two guards, in priority order. */
  lemma ProcessIsFirstMatch(d: TimingsDecision, r: Reading)
    ensures Process(d, r) == FirstMatch([CanReact(d, r), HasTime(d, r)])
  {
  }

  /** Each option is selected exactly when its rule is the first one that holds. */
  lemma ProcessPriority(d: TimingsDecision, r: Reading)
    ensures Process(d, r) == KeepReacting <==> CanReact(d, r)
    ensures Process(d, r) == NextGeneration <==> !CanReact(d, r) && HasTime(d, r)
    ensures Process(d, r) == Terminate <==> !CanReact(d, r) && !HasTime(d, r)
  {
  }

  /** A tank too small for a sample short-circuits to a new generation or to
      termination, whatever the reaction count. */
  lemma ExhaustedTank(d: TimingsDecision, r: Reading)
    requires r.tankSize < d.sampleSize
    ensures Process(d, r) == (if r.time < d.timeThresh then NextGeneration else Terminate)
  {
  }

  /** More reactions, more elapsed generations or a smaller tank never move the
      decision to a lower option. */
  lemma ProcessMonotone(d: TimingsDecision, r: Reading, r': Reading)
    requires r.gen <= r'.gen && r.time <= r'.time && r.tankSize >= r'.tankSize
    ensures Process(d, r) <= Process(d, r')
  {
  }

  /** The cases for a reaction threshold of 3 and a tank that holds a sample:
      below the threshold, at it with time left, and at it with time spent. */
  lemma ThresholdExamples(timeThresh: int, sampleSize: int, tankSize: nat)
    requires tankSize >= sampleSize
    ensures Process(TimingsDecision(timeThresh, 3, sampleSize), Reading(2, timeThresh, tankSize)) == KeepReacting
    ensures Process(TimingsDecision(timeThresh, 3, sampleSize), Reading(3, timeThresh - 1, tankSize)) == NextGeneration
    ensures Process(TimingsDecision(timeThresh, 3, sampleSize), Reading(3, timeThresh, tankSize)) == Terminate
  {
  }
}
