/** The loader's read and pull phases: what the initial tank is filled with for
    each load type. Randomness, the csv file and the particle factories are
    parameters. */
module Loader {
  import opened Wrappers
  import opened Particles

  /** The load_type argument: a string, an initialised particle factory, or none. */
  datatype LoadType = Named(name: string) | Factory | Unset

  /** Number of items a generator produces for a requested tank size: a range
      up to a negative size is empty. */
  function Count(tankSize: int): nat {
    if tankSize < 0 then 0 else tankSize
  }

  /** The uppercase letter chosen by a draw. */
  function Letter(draw: nat): (c: char)
    ensures 'A' <= c <= 'Z'
  {
    ('A' as int + draw % 26) as char
  }

  /** A generated "scc" tank: one random uppercase letter per item. */
  function Letters(count: nat, pick: nat -> nat): (r: seq<Item>)
    ensures |r| == count
    ensures forall i :: 0 <= i < count ==>
      r[i].Raw? && r[i].value.Sym? && |r[i].value.s| == 1 && 'A' <= r[i].value.s[0] <= 'Z'
  {
    var r := seq(count, i requires 0 <= i < count => Raw(Sym([Letter(pick(i))])));
    assert forall i :: 0 <= i < count ==> r[i].value.s[0] == Letter(pick(i));
    r
  }

  /** A generated "int" tank: one random integer in [0, 100] per item. */
  function Integers(count: nat, pick: nat -> nat): (r: seq<Item>)
    ensures |r| == count
    ensures forall i :: 0 <= i < count ==> r[i].Raw? && r[i].value.Num? && 0 <= r[i].value.n <= 100
  {
    seq(count, i requires 0 <= i < count => Raw(Num(pick(i) % 101)))
  }

  /** The sample the loader pushes into the tank, or None when no branch of read
      or pull sets it (an unknown string or no load type at all raises nothing).
      `pick` stands for the random draws, `csvRow` for the first row of the csv
      file, `factoryMade` for what the chosen particle factory returns. */
  function Load(mode: LoadType, tankSize: int, pick: nat -> nat, csvRow: seq<string>, factoryMade: seq<Item>)
    : (r: Option<seq<Item>>)
    ensures mode == Named("int") ==>
      r.Some? && |r.value| == Count(tankSize)
      && forall i :: 0 <= i < |r.value| ==> r.value[i].Raw? && r.value[i].value.Num? && 0 <= r.value[i].value.n <= 100
    ensures mode == Named("scc") ==>
      r.Some? && |r.value| == Count(tankSize)
      && forall i :: 0 <= i < |r.value| ==>
           r.value[i].Raw? && r.value[i].value.Sym? && |r.value[i].value.s| == 1 && 'A' <= r.value[i].value.s[0] <= 'Z'
    ensures mode == Named("csv") ==>
      r.Some? && |r.value| == |csvRow| && forall i :: 0 <= i < |csvRow| ==> r.value[i] == Raw(Sym(csvRow[i]))
    ensures mode == Named("RBN") || mode == Factory ==> r == Some(factoryMade)
    ensures r.None? <==> mode == Unset || (mode.Named? && mode.name !in {"int", "scc", "csv", "RBN"})
  {
    match mode
    case Named(name) =>
      if name == "csv" then Some(seq(|csvRow|, i requires 0 <= i < |csvRow| => Raw(Sym(csvRow[i]))))
      else if name == "scc" then Some(Letters(Count(tankSize), pick))
      else if name == "int" then Some(Integers(Count(tankSize), pick))
      else if name == "RBN" then Some(factoryMade)
      else None
    case Factory => Some(factoryMade)
    case Unset => None
  }
}
