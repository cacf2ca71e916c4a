/** Construction of the well-mixed tank: the bond subgraph's shape check, the
    container wiring of the nodes, and the control-flow edges, with the bond
    subgraph spliced in between the two recorders. */
module Assembly {
  import opened Wrappers
  import Decision

  /** Control vertices: the template's own nodes, and the vertices of the bond
      subgraph, which are distinct objects from every template node. */
  datatype Node =
    | SLoad | OTime | OReset | SSample | OSample | OReturn | SReturn
    | OGen | DGen | SGeneration | OLog | SSimulation | TTerm
    | Bond(v: nat)

  /** A control edge "control may pass from the first to the second". */
  type Edge = (Node, Node)

  /** Containers the constructor creates and hands to the nodes modelled here:
      the main tank, the generation clock, the per-generation reaction counter,
      the keyed store of the recorders, the reaction ledger and the sample list. */
  datatype Container = TTank | VTime | VGen | VBond | VReaction | SComposite

  /** The bond subgraph as the template sees it: its control-in and control-out
      vertices, its link points and its internal edges. */
  datatype BondGraph = BondGraph(controlIn: seq<nat>, controlOut: seq<nat>, links: seq<nat>, edges: seq<(nat, nat)>)

  /** Constructor arguments that shape the graph. */
  datatype Config = Config(sampleSize: int, reactions: int, generations: int)

  /** The assembled template: the start vertex, the control edges in insertion
      order, the decision's thresholds, the containers the decision reads, the
      container the reaction recorder reads its Generation value from, the
      container attached to the bond subgraph's link, the keyed store the two
      recorders share, the ledger the reaction recorder appends to, the counters
      the clock tick, the reset and the reaction tick act on, and the container
      the sampler draws from, the one it fills, and how many it draws, and the
      container both recorders read their sample from. */
  datatype Tank = Tank(
    start: Node,
    edges: seq<Edge>,
    decision: Decision.TimingsDecision,
    decisionReads: seq<Container>,
    generationSource: Container,
    link: Container,
    store: Container,
    ledger: Container,
    clock: Container,
    reset: Container,
    reactionClock: Container,
    sampleFrom: Container,
    sampleInto: Container,
    sampleCount: int,
    recorderReads: Container)

  /** The constructor's error: the bond subgraph has the wrong shape. */
  datatype ShapeError = ShapeError

  /** The fixed control edges, in the order the constructor lists them. */
  const FixedEdges: seq<Edge> := FirstEdges + MiddleEdges + LastEdges
  const FirstEdges: seq<Edge> := [(SLoad, OTime), (OTime, OReset), (OReset, SSample), (SSample, OSample), (OReturn, SReturn)]
  const MiddleEdges: seq<Edge> := [(SReturn, OGen), (OGen, DGen), (DGen, SSample), (DGen, SGeneration), (SGeneration, OLog)]
  const LastEdges: seq<Edge> := [(OLog, OTime), (DGen, SSimulation), (SSimulation, TTerm)]

  /** The bond subgraph's edges as edges of the composed graph. */
  function Lift(es: seq<(nat, nat)>): (r: seq<Edge>)
    ensures |r| == |es|
    ensures forall i :: 0 <= i < |es| ==> r[i] == (Bond(es[i].0), Bond(es[i].1))
  {
    seq(|es|, i requires 0 <= i < |es| => (Bond(es[i].0), Bond(es[i].1)))
  }

  /** Exactly one control-in vertex, one control-out vertex and one link. */
  predicate WellShaped(b: BondGraph) {
    |b.controlIn| == 1 && |b.controlOut| == 1 && |b.links| == 1
  }

  /** The two edges that splice the bond subgraph in between the recorders. */
  function Splice(b: BondGraph): seq<Edge>
    requires WellShaped(b)
  {
    [(OSample, Bond(b.controlIn[0])), (Bond(b.controlOut[0]), OReturn)]
  }

  /** The composed graph's edges in insertion order. */
  function ComposedEdges(b: BondGraph): seq<Edge>
    requires WellShaped(b)
  {
    FixedEdges + Lift(b.edges) + Splice(b)
  }

  /** The constructor. It fails unless the bond subgraph is well shaped, and then
      builds nothing; otherwise the edges are the fixed edges, the bond subgraph's
      own edges, and the two splice edges around the recorders. */
  function Assemble(cfg: Config, b: BondGraph): (r: Result<Tank, ShapeError>)
    ensures r.Success? <==> WellShaped(b)
    ensures r.Success? ==> r.value.start == SLoad
    ensures r.Success? ==> r.value.decision.timeThresh == cfg.generations
    ensures r.Success? ==> r.value.decision.genThresh == cfg.reactions
    ensures r.Success? ==> r.value.decision.sampleSize == cfg.sampleSize
    ensures r.Success? ==> r.value.decisionReads == [VGen, VTime, TTank] && r.value.generationSource == VGen
    ensures r.Success? ==> r.value.link == SComposite && r.value.store == VBond && r.value.ledger == VReaction
    ensures r.Success? ==> r.value.clock == VTime && r.value.reset == VGen && r.value.reactionClock == VGen
    ensures r.Success? ==> r.value.sampleFrom == TTank && r.value.sampleInto == SComposite
    ensures r.Success? ==> r.value.sampleCount == cfg.sampleSize
    ensures r.Success? ==> r.value.recorderReads == SComposite == r.value.sampleInto == r.value.link
    ensures r.Success? ==> r.value.decisionReads[2] == r.value.sampleFrom && r.value.decision.sampleSize == r.value.sampleCount
    ensures r.Success? ==> r.value.edges == ComposedEdges(b)
  {
    if !WellShaped(b) then Failure(ShapeError)
    else
      Success(Tank(
        start := SLoad,
        edges := ComposedEdges(b),
        decision := Decision.TimingsDecision(cfg.generations, cfg.reactions, cfg.sampleSize),
        decisionReads := [VGen, VTime, TTank],
        generationSource := VGen,
        link := SComposite,
        store := VBond,
        ledger := VReaction,
        clock := VTime,
        reset := VGen,
        reactionClock := VGen,
        sampleFrom := TTank,
        sampleInto := SComposite,
        sampleCount := cfg.sampleSize,
        recorderReads := SComposite))
  }

  /** The numbers the containers hold at one moment: the top of the generation
      clock, the top of the per-generation reaction counter, and the number of
      particles in the main tank. */
  datatype Counters = Counters(time: int, reactions: int, tankLength: nat)

  /** `read()[0]` of a counter container; the other containers hold no counter. */
  function CounterTop(v: Counters, c: Container): Option<int> {
    match c
    case VTime => Some(v.time)
    case VGen => Some(v.reactions)
    case _ => None
  }

  /** `len(read())` of the main tank; the other containers are not measured. */
  function TankLength(v: Counters, c: Container): Option<nat> {
    if c == TTank then Some(v.tankLength) else None
  }

  /** The decision's read phase over its three read containers: the first two
      are read as counters, the third is measured. */
  function DecisionReading(sources: seq<Container>, v: Counters): Option<Decision.Reading> {
    if |sources| != 3 then None
    else
      match (CounterTop(v, sources[0]), CounterTop(v, sources[1]), TankLength(v, sources[2]))
      case (Some(gen), Some(time), Some(size)) => Some(Decision.Reading(gen, time, size))
      case _ => None
  }

  /** The reaction recorder's Generation value and the decision's first reading
      come from the same container, the reaction counter `VGen` that the reset
      zeroes and the reaction tick advances, and not from the generation clock.
      On the way from the recorder to the decision the reaction tick advances
      that counter once (`Topology.RecorderToDecision`), so the decision sees
      the recorded value plus one; within one snapshot of the counters the two
      readings agree because they read the same container. */
  lemma GenerationColumnIsReactionCount(cfg: Config, b: BondGraph, v: Counters)
    requires WellShaped(b)
    ensures
      var t := Assemble(cfg, b).value;
      var reading := DecisionReading(t.decisionReads, v);
      && reading == Some(Decision.Reading(v.reactions, v.time, v.tankLength))
      && CounterTop(v, t.generationSource) == Some(reading.value.gen)
      && t.generationSource == t.decisionReads[0] == t.reset == t.reactionClock
      && t.generationSource != t.clock
      && (v.reactions != v.time ==> CounterTop(v, t.generationSource) != CounterTop(v, t.clock))
  {
  }

  /** Targets of the edges leaving n, from position i on, in edge order (with repeats). */
  function TargetsFrom(edges: seq<Edge>, n: Node, i: nat): seq<Node>
    requires i <= |edges|
    decreases |edges| - i
  {
    if i == |edges| then []
    else (if edges[i].0 == n then [edges[i].1] else []) + TargetsFrom(edges, n, i + 1)
  }

  /** Sources of the edges entering n, from position i on, in edge order (with repeats). */
  function SourcesFrom(edges: seq<Edge>, n: Node, i: nat): seq<Node>
    requires i <= |edges|
    decreases |edges| - i
  {
    if i == |edges| then []
    else (if edges[i].1 == n then [edges[i].0] else []) + SourcesFrom(edges, n, i + 1)
  }

  function Targets(edges: seq<Edge>, n: Node): seq<Node> {
    TargetsFrom(edges, n, 0)
  }

  function Sources(edges: seq<Edge>, n: Node): seq<Node> {
    SourcesFrom(edges, n, 0)
  }

  /** No element occurs twice. */
  predicate Distinct(s: seq<Node>) {
    forall i, j :: 0 <= i < j < |s| ==> s[i] != s[j]
  }

  /** First occurrences only, in order: adding an edge twice adds one neighbour. */
  function Dedup(s: seq<Node>): (r: seq<Node>)
    ensures forall x :: x in r <==> x in s
    ensures Distinct(r)
    ensures |r| <= |s|
    decreases |s|
  {
    if |s| == 0 then []
    else
      var d := Dedup(s[..|s| - 1]);
      if s[|s| - 1] in d then d else d + [s[|s| - 1]]
  }

  /** Successors of n in insertion order; a decision's option k takes the k-th. */
  function Successors(edges: seq<Edge>, n: Node): seq<Node> {
    Dedup(Targets(edges, n))
  }

  /** Predecessors of n in insertion order. */
  function Predecessors(edges: seq<Edge>, n: Node): seq<Node> {
    Dedup(Sources(edges, n))
  }

  lemma {:induction false} DedupDistinct(s: seq<Node>)
    requires Distinct(s)
    ensures Dedup(s) == s
    decreases |s|
  {
    if |s| > 0 {
      DedupDistinct(s[..|s| - 1]);
    }
  }

  /** Walking a concatenation walks the first part, then the second. */
  lemma {:induction false} TargetsFromConcat(a: seq<Edge>, b: seq<Edge>, n: Node, i: nat)
    requires i <= |a| + |b|
    ensures TargetsFrom(a + b, n, i) ==
      if i <= |a| then TargetsFrom(a, n, i) + TargetsFrom(b, n, 0) else TargetsFrom(b, n, i - |a|)
    decreases |a| + |b| - i
  {
    if i < |a| + |b| {
      TargetsFromConcat(a, b, n, i + 1);
      var head := if (a + b)[i].0 == n then [(a + b)[i].1] else [];
      assert TargetsFrom(a + b, n, i) == head + TargetsFrom(a + b, n, i + 1);
      if i < |a| {
        assert (a + b)[i] == a[i];
        assert TargetsFrom(a, n, i) == head + TargetsFrom(a, n, i + 1);
        assert head + (TargetsFrom(a, n, i + 1) + TargetsFrom(b, n, 0))
            == (head + TargetsFrom(a, n, i + 1)) + TargetsFrom(b, n, 0);
      } else {
        assert (a + b)[i] == b[i - |a|];
        assert TargetsFrom(b, n, i - |a|) == head + TargetsFrom(b, n, i - |a| + 1);
      }
    }
  }

  lemma {:induction false} SourcesFromConcat(a: seq<Edge>, b: seq<Edge>, n: Node, i: nat)
    requires i <= |a| + |b|
    ensures SourcesFrom(a + b, n, i) ==
      if i <= |a| then SourcesFrom(a, n, i) + SourcesFrom(b, n, 0) else SourcesFrom(b, n, i - |a|)
    decreases |a| + |b| - i
  {
    if i < |a| + |b| {
      SourcesFromConcat(a, b, n, i + 1);
      var head := if (a + b)[i].1 == n then [(a + b)[i].0] else [];
      assert SourcesFrom(a + b, n, i) == head + SourcesFrom(a + b, n, i + 1);
      if i < |a| {
        assert (a + b)[i] == a[i];
        assert SourcesFrom(a, n, i) == head + SourcesFrom(a, n, i + 1);
        assert head + (SourcesFrom(a, n, i + 1) + SourcesFrom(b, n, 0))
            == (head + SourcesFrom(a, n, i + 1)) + SourcesFrom(b, n, 0);
      } else {
        assert (a + b)[i] == b[i - |a|];
        assert SourcesFrom(b, n, i - |a|) == head + SourcesFrom(b, n, i - |a| + 1);
      }
    }
  }

  lemma TargetsConcat(a: seq<Edge>, b: seq<Edge>, n: Node)
    ensures Targets(a + b, n) == Targets(a, n) + Targets(b, n)
    ensures Sources(a + b, n) == Sources(a, n) + Sources(b, n)
  {
    TargetsFromConcat(a, b, n, 0);
    SourcesFromConcat(a, b, n, 0);
  }

  /** The splice edges leave only the sample recorder and the control-out vertex,
      and enter only the control-in vertex and the reaction recorder. */
  lemma SpliceEnds(b: BondGraph, n: Node)
    requires WellShaped(b)
    ensures Targets(Splice(b), n) ==
      (if n == OSample then [Bond(b.controlIn[0])] else []) + (if n == Bond(b.controlOut[0]) then [OReturn] else [])
    ensures Sources(Splice(b), n) ==
      (if n == Bond(b.controlIn[0]) then [OSample] else []) + (if n == OReturn then [Bond(b.controlOut[0])] else [])
  {
    var s := Splice(b);
    assert TargetsFrom(s, n, 2) == [] && SourcesFrom(s, n, 2) == [];
    assert TargetsFrom(s, n, 1) == (if n == Bond(b.controlOut[0]) then [OReturn] else []);
    assert SourcesFrom(s, n, 1) == (if n == OReturn then [Bond(b.controlOut[0])] else []);
  }

  /** Edges of the bond subgraph neither leave nor enter a template node. */
  lemma {:induction false} LiftAvoidsTemplate(es: seq<(nat, nat)>, n: Node, i: nat)
    requires !n.Bond? && i <= |es|
    ensures TargetsFrom(Lift(es), n, i) == [] && SourcesFrom(Lift(es), n, i) == []
    decreases |es| - i
  {
    if i < |es| {
      LiftAvoidsTemplate(es, n, i + 1);
    }
  }
}

/** Properties of the assembled control-flow graph. */
module Topology {
  import opened Assembly
  import Decision

  /** Spliced bond edges change neither the outgoing nor the incoming edges of a
      template node. */
  lemma {:induction false} AroundLift(a: seq<Edge>, es: seq<(nat, nat)>, c: seq<Edge>, n: Node)
    requires !n.Bond?
    ensures Targets(a + Lift(es) + c, n) == Targets(a, n) + Targets(c, n)
    ensures Sources(a + Lift(es) + c, n) == Sources(a, n) + Sources(c, n)
  {
    TargetsConcat(a + Lift(es), c, n);
    TargetsConcat(a, Lift(es), n);
    LiftAvoidsTemplate(es, n, 0);
  }

  /** Outside the bond subgraph, the composed graph is the fixed edge list plus
      the two splice edges. */
  lemma TemplateEdges(b: BondGraph, n: Node)
    requires WellShaped(b) && !n.Bond?
    ensures Targets(ComposedEdges(b), n) ==
      Targets(FirstEdges, n) + Targets(MiddleEdges, n) + Targets(LastEdges, n) + Targets(Splice(b), n)
    ensures Sources(ComposedEdges(b), n) ==
      Sources(FirstEdges, n) + Sources(MiddleEdges, n) + Sources(LastEdges, n) + Sources(Splice(b), n)
  {
    AroundLift(FixedEdges, b.edges, Splice(b), n);
    TargetsConcat(FirstEdges + MiddleEdges, LastEdges, n);
    TargetsConcat(FirstEdges, MiddleEdges, n);
  }

  /** Neighbours, in edge order, of single template nodes in the composed graph. */
  lemma AdjacencyDGen(b: BondGraph)
    requires WellShaped(b)
    ensures Targets(ComposedEdges(b), DGen) == [SSample, SGeneration, SSimulation]
  {
    TemplateEdges(b, DGen);
    SpliceEnds(b, DGen);
  }

  lemma AdjacencyTTerm(b: BondGraph)
    requires WellShaped(b)
    ensures Targets(ComposedEdges(b), TTerm) == [] && Sources(ComposedEdges(b), TTerm) == [SSimulation]
  {
    TemplateEdges(b, TTerm);
    SpliceEnds(b, TTerm);
  }

  lemma AdjacencySLoad(b: BondGraph)
    requires WellShaped(b)
    ensures Targets(ComposedEdges(b), SLoad) == [OTime] && Sources(ComposedEdges(b), SLoad) == []
  {
    TemplateEdges(b, SLoad);
    SpliceEnds(b, SLoad);
  }

  lemma AdjacencyOSample(b: BondGraph)
    requires WellShaped(b)
    ensures Targets(ComposedEdges(b), OSample) == [Bond(b.controlIn[0])]
  {
    TemplateEdges(b, OSample);
    SpliceEnds(b, OSample);
  }

  lemma AdjacencyOReturn(b: BondGraph)
    requires WellShaped(b)
    ensures Sources(ComposedEdges(b), OReturn) == [Bond(b.controlOut[0])]
  {
    TemplateEdges(b, OReturn);
    SpliceEnds(b, OReturn);
  }

  lemma AdjacencyOReturnOut(b: BondGraph)
    requires WellShaped(b)
    ensures Targets(ComposedEdges(b), OReturn) == [SReturn]
  {
    TemplateEdges(b, OReturn);
    SpliceEnds(b, OReturn);
  }

  lemma AdjacencySReturn(b: BondGraph)
    requires WellShaped(b)
    ensures Targets(ComposedEdges(b), SReturn) == [OGen]
  {
    TemplateEdges(b, SReturn);
    SpliceEnds(b, SReturn);
  }

  lemma AdjacencyOGen(b: BondGraph)
    requires WellShaped(b)
    ensures Targets(ComposedEdges(b), OGen) == [DGen] && Sources(ComposedEdges(b), DGen) == [OGen]
  {
    TemplateEdges(b, OGen);
    SpliceEnds(b, OGen);
    TemplateEdges(b, DGen);
    SpliceEnds(b, DGen);
  }

  lemma AdjacencySSample(b: BondGraph)
    requires WellShaped(b)
    ensures Sources(ComposedEdges(b), SSample) == [OReset, DGen]
  {
    TemplateEdges(b, SSample);
    SpliceEnds(b, SSample);
  }

  lemma AdjacencySGeneration(b: BondGraph)
    requires WellShaped(b)
    ensures Targets(ComposedEdges(b), SGeneration) == [OLog]
  {
    TemplateEdges(b, SGeneration);
    SpliceEnds(b, SGeneration);
  }

  lemma AdjacencyOLog(b: BondGraph)
    requires WellShaped(b)
    ensures Targets(ComposedEdges(b), OLog) == [OTime]
  {
    TemplateEdges(b, OLog);
    SpliceEnds(b, OLog);
  }

  lemma AdjacencySSimulation(b: BondGraph)
    requires WellShaped(b)
    ensures Targets(ComposedEdges(b), SSimulation) == [TTerm]
  {
    TemplateEdges(b, SSimulation);
    SpliceEnds(b, SSimulation);
  }

  /** The decision has exactly as many successors as it declares options, in the
      order sample, new generation, end of run. */
  lemma DecisionSuccessors(b: BondGraph)
    requires WellShaped(b)
    ensures Successors(ComposedEdges(b), DGen) == [SSample, SGeneration, SSimulation]
    ensures |Successors(ComposedEdges(b), DGen)| == Decision.OptionCount
  {
    AdjacencyDGen(b);
    DedupDistinct([SSample, SGeneration, SSimulation]);
  }

  /** The run ends only through the end-of-run sampler, and nothing follows the
      termination vertex. */
  lemma TerminationVertex(b: BondGraph)
    requires WellShaped(b)
    ensures Predecessors(ComposedEdges(b), TTerm) == [SSimulation]
    ensures Successors(ComposedEdges(b), TTerm) == []
  {
    AdjacencyTTerm(b);
    DedupDistinct([SSimulation]);
  }

  /** The loader starts the run and is never re-entered. */
  lemma LoaderRunsOnce(b: BondGraph)
    requires WellShaped(b)
    ensures Predecessors(ComposedEdges(b), SLoad) == []
    ensures Successors(ComposedEdges(b), SLoad) == [OTime]
  {
    AdjacencySLoad(b);
    DedupDistinct([OTime]);
  }

  /** An edge from n to m exists exactly when m is among n's targets. */
  lemma {:induction false} TargetsMember(edges: seq<Edge>, n: Node, m: Node, i: nat)
    requires i <= |edges|
    ensures (n, m) in edges[i..] <==> m in TargetsFrom(edges, n, i)
    decreases |edges| - i
  {
    if i < |edges| {
      TargetsMember(edges, n, m, i + 1);
      assert edges[i..] == [edges[i]] + edges[i + 1..];
    }
  }

  /** The sample recorder hands control only to the bond subgraph's control-in
      vertex, and the reaction recorder receives it only from the control-out
      vertex: there is no direct edge between the two recorders. */
  lemma RecordersJoinedByBondGraph(b: BondGraph)
    requires WellShaped(b)
    ensures (OSample, OReturn) !in ComposedEdges(b)
    ensures Successors(ComposedEdges(b), OSample) == [Bond(b.controlIn[0])]
    ensures Predecessors(ComposedEdges(b), OReturn) == [Bond(b.controlOut[0])]
  {
    AdjacencyOSample(b);
    AdjacencyOReturn(b);
    DedupDistinct([Bond(b.controlIn[0])]);
    DedupDistinct([Bond(b.controlOut[0])]);
    TargetsMember(ComposedEdges(b), OSample, OReturn, 0);
    assert ComposedEdges(b)[0..] == ComposedEdges(b);
  }

  /** From the reaction recorder control reaches the decision only through the
      return sampler and the reaction tick: the reaction counter the recorder
      read is advanced once before the decision reads it. */
  lemma RecorderToDecision(b: BondGraph)
    requires WellShaped(b)
    ensures Successors(ComposedEdges(b), OReturn) == [SReturn]
    ensures Successors(ComposedEdges(b), SReturn) == [OGen]
    ensures Successors(ComposedEdges(b), OGen) == [DGen]
    ensures Predecessors(ComposedEdges(b), DGen) == [OGen]
  {
    AdjacencyOReturnOut(b);
    AdjacencySReturn(b);
    AdjacencyOGen(b);
    DedupDistinct([SReturn]);
    DedupDistinct([OGen]);
    DedupDistinct([DGen]);
  }

  /** The sampler is entered from the reset, at the start of each generation,
      and from the decision's option 0. Only the second entry is behind the
      decision's tank-size guard. */
  lemma SamplerEntries(b: BondGraph)
    requires WellShaped(b)
    ensures Predecessors(ComposedEdges(b), SSample) == [OReset, DGen]
  {
    AdjacencySSample(b);
    DedupDistinct([OReset, DGen]);
  }

  /** The composition adds no edge between bond vertices: the bond subgraph's
      own edges are exactly the assembled edges between bond vertices. */
  lemma BondEdgesPreserved(b: BondGraph)
    requires WellShaped(b)
    ensures forall e :: e in ComposedEdges(b) && e.0.Bond? && e.1.Bond? <==> e in Lift(b.edges)
  {
  }

  /** After the decision: a new generation logs and returns to the clock tick,
      the end of run goes straight to termination. */
  lemma GenerationLoop(b: BondGraph)
    requires WellShaped(b)
    ensures Successors(ComposedEdges(b), SGeneration) == [OLog]
    ensures Successors(ComposedEdges(b), OLog) == [OTime]
    ensures Successors(ComposedEdges(b), SSimulation) == [TTerm]
  {
    AdjacencySGeneration(b);
    AdjacencyOLog(b);
    AdjacencySSimulation(b);
    DedupDistinct([OLog]);
    DedupDistinct([OTime]);
    DedupDistinct([TTerm]);
  }

  /** The decision read through the constructor's wiring: it returns to sampling
      exactly when the reaction counter is below `reactions` and the tank holds a
      sample; otherwise it starts a new generation while the generation clock is
      below `generations`, and ends the run after. */
  lemma WiredDecision(cfg: Config, b: BondGraph, v: Counters)
    requires WellShaped(b)
    ensures
      var t := Assemble(cfg, b).value;
      var reading := DecisionReading(t.decisionReads, v);
      reading.Some? &&
      var option := Decision.Process(t.decision, reading.value);
      var next := Successors(t.edges, DGen);
      && option < |next|
      && (next[option] == SSample <==> v.reactions < cfg.reactions && v.tankLength >= cfg.sampleSize)
      && (next[option] == SGeneration <==>
            !(v.reactions < cfg.reactions && v.tankLength >= cfg.sampleSize) && v.time < cfg.generations)
      && (next[option] == SSimulation <==>
            !(v.reactions < cfg.reactions && v.tankLength >= cfg.sampleSize) && v.time >= cfg.generations)
  {
    DecisionSuccessors(b);
  }
}
