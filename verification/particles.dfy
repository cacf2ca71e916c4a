/** The items a sample or a tank can hold. */
module Particles {

  /** A raw tank value: "int" tanks hold integers, "scc" tanks and csv rows hold strings. */
  datatype Atom = Num(n: int) | Sym(s: string)

  /** One spike of an RBN particle as the reaction recorder reads it:
      its spike number and its intensity (a float in the library, an int here). */
  datatype Spike = Spike(number: int, intensity: int)

  /** A sample item: a raw value that is no particle at all, a particle without
      spike structure, or an RBN particle with its atom count, its open
      (unbonded) spikes and its bonded spikes. */
  datatype Item =
    | Raw(value: Atom)
    | Plain(id: int)
    | RBN(id: int, atoms: nat, openSpikes: seq<Spike>, bonds: seq<Spike>)

  /** "is an instance of Particle": every RBN particle is a particle too. */
  predicate IsParticle(x: Item) {
    x.Plain? || x.RBN?
  }

  /** "every product is an RBNParticle" (vacuously true of an empty sample). */
  predicate AllRBN(s: seq<Item>) {
    forall i :: 0 <= i < |s| ==> s[i].RBN?
  }

  /** Sum of the intensities of a list of spikes (0 for none). */
  function Intensity(spikes: seq<Spike>): int
    decreases |spikes|
  {
    if |spikes| == 0 then 0 else spikes[0].intensity + Intensity(spikes[1..])
  }

  /** Summing over a concatenation is summing the parts: the intensity of the
      open spikes followed by the bonded spikes is the two sums added. */
  lemma {:induction false} IntensityConcat(a: seq<Spike>, b: seq<Spike>)
    ensures Intensity(a + b) == Intensity(a) + Intensity(b)
    decreases |a|
  {
    if |a| == 0 {
      assert a + b == b;
    } else {
      assert (a + b)[1..] == a[1..] + b;
      IntensityConcat(a[1..], b);
    }
  }
}
