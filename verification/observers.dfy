/** The two recorders around the reaction subgraph: the sample recorder stages
    the pre-reaction record in the keyed store, the reaction recorder extends it
    with the products and appends it to the reaction ledger. */
module Observers {
  import opened Particles

  /** A cell of the keyed store or of a ledger row. */
  datatype Val =
    | Int(i: int)
    | Str(s: string)
    | Obj(item: Item)
    | Pair(number: int, intensity: int)
    | Prod(id: int, atoms: nat, open: nat, bonded: nat)
    | List(elems: seq<Val>)

  /** The keyed scalar store, and one ledger row. */
  type Record = map<string, Val>

  /** Identity of an item that is not a particle. */
  const NoId := "n/a"
  /** Identity and object of the missing second item of a one-item sample. */
  const Missing := "None"
  /** Derived product field when some product is not an RBN particle. */
  const NotRBN := "N/A"

  /** The four keys the sample recorder stages. */
  const PreKeys: set<string> := {"id1", "id2", "obj1", "obj2"}
  /** The five keys the reaction recorder adds. */
  const ReturnKeys: set<string> := {"Prods", "Open_Spikes", "Bonded_Spikes", "Intensity", "Generation"}
  /** The reaction ledger's columns, in export order. */
  const Columns: seq<string> :=
    ["id1", "id2", "obj1", "obj2", "Prods", "Open_Spikes", "Bonded_Spikes", "Intensity", "Generation"]

  /** Recorded identity of one sampled item. */
  function IdOf(x: Item): Val {
    if IsParticle(x) then Int(x.id) else Str(NoId)
  }

  /** The process phase of the sample recorder: identities and objects of the
      first two sampled items. The first item is read unconditionally, so the
      sample must not be empty. */
  function PreRecord(sample: seq<Item>): (r: Record)
    requires |sample| > 0
    ensures r.Keys == PreKeys
    ensures r["obj1"] == Obj(sample[0])
    ensures IsParticle(sample[0]) ==> r["id1"] == Int(sample[0].id)
    ensures !IsParticle(sample[0]) ==> r["id1"] == Str(NoId)
    ensures |sample| == 1 ==> r["id2"] == Str(Missing) && r["obj2"] == Str(Missing)
    ensures |sample| > 1 ==> r["obj2"] == Obj(sample[1])
    ensures |sample| > 1 && IsParticle(sample[1]) ==> r["id2"] == Int(sample[1].id)
    ensures |sample| > 1 && !IsParticle(sample[1]) ==> r["id2"] == Str(NoId)
  {
    var id2 := if |sample| > 1 then IdOf(sample[1]) else Str(Missing);
    var obj2 := if |sample| > 1 then Obj(sample[1]) else Str(Missing);
    map["id1" := IdOf(sample[0]), "id2" := id2, "obj1" := Obj(sample[0]), "obj2" := obj2]
  }

  /** Items beyond the second never reach the record. */
  lemma PreRecordIgnoresTail(sample: seq<Item>)
    requires |sample| >= 2
    ensures PreRecord(sample) == PreRecord(sample[..2])
  {
  }

  /** The sampled items a staged record still holds: obj1, and obj2 unless it is
      the missing-item sentinel. */
  function RecordedItems(r: Record): seq<Item>
    requires PreKeys <= r.Keys
  {
    var first := if r["obj1"].Obj? then [r["obj1"].item] else [];
    var second := if r["obj2"].Obj? then [r["obj2"].item] else [];
    first + second
  }

  /** The pre-reaction record is a faithful snapshot: exactly the first one or
      two sampled items can be read back from it, in order. */
  lemma PreRecordRoundTrip(sample: seq<Item>)
    requires |sample| > 0
    ensures RecordedItems(PreRecord(sample)) == sample[..if |sample| > 1 then 2 else 1]
  {
  }

  /** A visit of the sample recorder on the keyed store: pull clears the four
      staging keys, push writes the fresh record; every other key is untouched. */
  function StageSample(store: Record, sample: seq<Item>): (r: Record)
    requires |sample| > 0
    ensures r.Keys == store.Keys + PreKeys
    ensures forall k :: k in PreKeys ==> r[k] == PreRecord(sample)[k]
    ensures forall k :: k in store && k !in PreKeys ==> r[k] == store[k]
  {
    (store - PreKeys) + PreRecord(sample)
  }

  /** Per-product spike list as the recorder writes it: (spike number, intensity) pairs. */
  function SpikePairs(spikes: seq<Spike>): (r: Val)
    ensures r.List? && |r.elems| == |spikes|
    ensures forall i :: 0 <= i < |spikes| ==> r.elems[i] == Pair(spikes[i].number, spikes[i].intensity)
  {
    List(seq(|spikes|, i requires 0 <= i < |spikes| => Pair(spikes[i].number, spikes[i].intensity)))
  }

  /** The four derived per-product columns of one reaction. */
  datatype ProductColumns = ProductColumns(prods: seq<Val>, open: seq<Val>, bonded: seq<Val>, intensity: seq<Val>)

  /** The RBN branch of the reaction recorder: per product, in product order, its
      description, its open and bonded spike pairs and its total intensity. */
  method DescribeProducts(products: seq<Item>) returns (c: ProductColumns)
    requires AllRBN(products)
    ensures |c.prods| == |c.open| == |c.bonded| == |c.intensity| == |products|
    ensures forall i :: 0 <= i < |products| ==>
      var p := products[i];
      && c.prods[i] == Prod(p.id, p.atoms, |p.openSpikes|, |p.bonds|)
      && c.open[i] == SpikePairs(p.openSpikes)
      && c.bonded[i] == SpikePairs(p.bonds)
      && c.intensity[i] == Int(Intensity(p.openSpikes) + Intensity(p.bonds))
  {
    var prods, open, bonded, intensities := [], [], [], [];
    var k := 0;
    while k < |products|
      invariant 0 <= k <= |products|
      invariant |prods| == |open| == |bonded| == |intensities| == k
      invariant forall i :: 0 <= i < k ==>
        var p := products[i];
        && prods[i] == Prod(p.id, p.atoms, |p.openSpikes|, |p.bonds|)
        && open[i] == SpikePairs(p.openSpikes)
        && bonded[i] == SpikePairs(p.bonds)
        && intensities[i] == Int(Intensity(p.openSpikes) + Intensity(p.bonds))
    {
      var part := products[k];
      // the total is taken over the open pairs followed by the bonded pairs
      var total := Intensity(part.openSpikes + part.bonds);
      IntensityConcat(part.openSpikes, part.bonds);
      prods := prods + [Prod(part.id, part.atoms, |part.openSpikes|, |part.bonds|)];
      open := open + [SpikePairs(part.openSpikes)];
      bonded := bonded + [SpikePairs(part.bonds)];
      intensities := intensities + [Int(total)];
      k := k + 1;
    }
    c := ProductColumns(prods, open, bonded, intensities);
  }

  /** The process phase of the reaction recorder: extends the staged record with
      the five product keys. Generation is the value read from the counter the
      recorder was given. */
  method ReturnObserve(staged: Record, products: seq<Item>, generation: int) returns (row: Record)
    ensures row.Keys == staged.Keys + ReturnKeys
    ensures forall k :: k in staged && k !in ReturnKeys ==> row[k] == staged[k]
    ensures row["Generation"] == Int(generation)
    ensures forall c :: c in ReturnKeys - {"Generation"} ==> row[c].List? && |row[c].elems| == |products|
    ensures !AllRBN(products) ==>
      forall c, i :: c in ReturnKeys - {"Generation"} && 0 <= i < |row[c].elems| ==> row[c].elems[i] == Str(NotRBN)
    ensures AllRBN(products) ==> forall i :: 0 <= i < |products| ==>
      var p := products[i];
      && row["Prods"].elems[i] == Prod(p.id, p.atoms, |p.openSpikes|, |p.bonds|)
      && row["Open_Spikes"].elems[i] == SpikePairs(p.openSpikes)
      && row["Bonded_Spikes"].elems[i] == SpikePairs(p.bonds)
      && row["Intensity"].elems[i] == Int(Intensity(p.openSpikes) + Intensity(p.bonds))
    ensures ProductColumnsOf(row, products)
  {
    if AllRBN(products) {
      var c := DescribeProducts(products);
      row := staged["Prods" := List(c.prods)]["Open_Spikes" := List(c.open)]
        ["Bonded_Spikes" := List(c.bonded)]["Intensity" := List(c.intensity)]["Generation" := Int(generation)];
    } else {
      var na := seq(|products|, _ => Str(NotRBN));
      row := staged["Prods" := List(na)]["Open_Spikes" := List(na)]
        ["Bonded_Spikes" := List(na)]["Intensity" := List(na)]["Generation" := Int(generation)];
    }
  }

  /** The four derived product columns of a row: one entry per product, all
      "N/A" unless every product is an RBN particle, and otherwise each product's
      description, spike pairs and total intensity. */
  predicate ProductColumnsOf(row: Record, products: seq<Item>)
    requires ReturnKeys <= row.Keys
  {
    && (forall c :: c in ReturnKeys - {"Generation"} ==> row[c].List? && |row[c].elems| == |products|)
    && (!AllRBN(products) ==>
          forall c, i :: c in ReturnKeys - {"Generation"} && 0 <= i < |row[c].elems| ==> row[c].elems[i] == Str(NotRBN))
    && (AllRBN(products) ==> forall i :: 0 <= i < |products| ==>
          var p := products[i];
          && row["Prods"].elems[i] == Prod(p.id, p.atoms, |p.openSpikes|, |p.bonds|)
          && row["Open_Spikes"].elems[i] == SpikePairs(p.openSpikes)
          && row["Bonded_Spikes"].elems[i] == SpikePairs(p.bonds)
          && row["Intensity"].elems[i] == Int(Intensity(p.openSpikes) + Intensity(p.bonds)))
  }

  /** The staged keys and the added keys are disjoint and together are exactly
      the nine ledger columns. */
  lemma LedgerSchema()
    ensures PreKeys !! ReturnKeys
    ensures (set c | c in Columns) == PreKeys + ReturnKeys
    ensures |Columns| == 9
  {
  }

  /** One reaction as both recorders see it: the sample recorder stages the
      pre-reaction record in the keyed store, the reaction recorder extends the
      staged store and appends it to the ledger. The ledger only grows by that
      row, which carries the snapshot, the counter value and the four product
      columns; a store that holds only ledger columns (the staged and the added
      keys, which `LedgerSchema` shows are exactly the nine columns) yields a
      row with exactly those keys. */
  method RecordReaction(ledger: seq<Record>, store: Record, sample: seq<Item>, products: seq<Item>, generation: int)
    returns (ledger': seq<Record>, row: Record)
    requires |sample| > 0
    ensures ledger' == ledger + [row]
    ensures row.Keys == store.Keys + (PreKeys + ReturnKeys)
    ensures store.Keys <= PreKeys + ReturnKeys ==> row.Keys == PreKeys + ReturnKeys
    ensures forall k :: k in PreKeys ==> row[k] == PreRecord(sample)[k]
    ensures forall k :: k in store && k !in PreKeys + ReturnKeys ==> row[k] == store[k]
    ensures row["Generation"] == Int(generation)
    ensures ReturnKeys <= row.Keys && ProductColumnsOf(row, products)
  {
    var staged := StageSample(store, sample);
    row := ReturnObserve(staged, products, generation);
    forall k | k in PreKeys
      ensures row[k] == PreRecord(sample)[k]
    {
      assert k !in ReturnKeys;
    }
    assert row.Keys == store.Keys + PreKeys + ReturnKeys;
    ledger' := ledger + [row];
  }

}
