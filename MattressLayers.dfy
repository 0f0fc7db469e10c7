// src/data/mattressLayers.ts as a constant table, its lookup, and the
// count-and-join layer summary that the production label
// (src/components/ProductionLabel.tsx) and the layer guide
// (src/components/LayerGuide.tsx) both build with a counting loop.

module MattressLayers {
  import opened Wrappers
  import opened Text

  /** One row of the layer table: a range, a firmness and its build. */
  datatype LayerRow = LayerRow(
    model: string,
    firmness: nat,
    layer5: string,
    layer4: string,
    layer3: string,
    layer2: string,
    springsPosition: string,
    mainSpringLayer: string,
    underSprings1: string,
    underSprings2: string,
    underSprings3: string)

  const Layers: seq<LayerRow> := [
      LayerRow("cloud", 2, "-", "soft latex", "micro", "micro", "soft side up", "soft spring - 13cm", "felt", "-", "-"),
      LayerRow("cloud", 3, "soft latex", "micro", "micro", "felt", "soft side up", "soft spring - 13cm", "-", "-", "-"),
      LayerRow("cloud", 4, "soft latex", "micro", "micro", "felt", "firm side up", "soft spring - 13cm", "-", "-", "-"),
      LayerRow("cloud", 5, "-", "soft latex", "micro", "micro", "soft side up", "medium spring - 13cm", "felt", "-", "-"),
      LayerRow("cloud", 6, "soft latex", "micro", "micro", "felt", "soft side up", "medium spring - 13cm", "-", "-", "-"),
      LayerRow("cloud", 7, "soft latex", "micro", "micro", "felt", "firm side up", "medium spring - 13cm", "-", "-", "-"),
      LayerRow("cloud", 8, "-", "medium latex", "micro", "micro", "soft side up", "medium spring - 13cm", "felt", "-", "-"),
      LayerRow("cloud", 9, "medium latex", "micro", "micro", "felt", "soft side up", "medium spring - 13cm", "-", "-", "-"),
      LayerRow("cloud", 10, "medium latex", "micro", "micro", "felt", "firm side up", "medium spring - 13cm", "-", "-", "-"),
      LayerRow("cloud", 11, "-", "medium latex", "micro", "micro", "soft side up", "firm spring - 13cm", "felt", "-", "-"),
      LayerRow("cloud", 12, "medium latex", "micro", "micro", "felt", "soft side up", "firm spring - 13cm", "-", "-", "-"),
      LayerRow("cloud", 13, "medium latex", "micro", "micro", "felt", "firm side up", "firm spring - 13cm", "-", "-", "-"),
      LayerRow("aurora", 2, "-", "-", "soft latex", "micro", "soft side up", "soft spring - 13cm", "purple", "felt", "-"),
      LayerRow("aurora", 3, "-", "soft latex", "micro", "felt", "soft side up", "soft spring - 13cm", "purple", "-", "-"),
      LayerRow("aurora", 4, "soft latex", "micro", "blue", "felt", "firm side up", "soft spring - 13cm", "purple", "-", "-"),
      LayerRow("aurora", 5, "-", "-", "soft latex", "micro", "soft side up", "medium spring - 13cm", "purple", "blue", "felt"),
      LayerRow("aurora", 6, "-", "soft latex", "micro", "felt", "soft side up", "medium spring - 13cm", "purple", "blue", "-"),
      LayerRow("aurora", 7, "soft latex", "micro", "blue", "felt", "firm side up", "medium spring - 13cm", "purple", "-", "-"),
      LayerRow("aurora", 8, "-", "-", "medium latex", "micro", "soft side up", "medium spring - 13cm", "purple", "felt", "-"),
      LayerRow("aurora", 9, "-", "medium latex", "micro", "felt", "soft side up", "medium spring - 13cm", "purple", "-", "-"),
      LayerRow("aurora", 10, "-", "medium latex", "micro", "felt", "firm side up", "medium spring - 13cm", "purple", "-", "-"),
      LayerRow("aurora", 11, "-", "-", "medium latex", "micro", "soft side up", "firm spring - 13cm", "purple", "felt", "-"),
      LayerRow("aurora", 12, "-", "medium latex", "micro", "felt", "soft side up", "firm spring - 13cm", "purple", "-", "-"),
      LayerRow("aurora", 13, "-", "medium latex", "micro", "felt", "firm side up", "firm spring - 13cm", "purple", "-", "-"),
      LayerRow("aurora", 14, "-", "-", "firm latex", "micro", "soft side up", "firm spring - 13cm", "purple", "felt", "-"),
      LayerRow("aurora", 15, "-", "firm latex", "micro", "felt", "soft side up", "firm spring - 13cm", "purple", "-", "-"),
      LayerRow("aurora", 16, "-", "firm latex", "micro", "felt", "firm side up", "firm spring - 13cm", "purple", "-", "-"),
      LayerRow("cooper", 5, "-", "white", "white", "white", "soft side up", "medium spring - 13cm", "purple", "felt", "-"),
      LayerRow("cooper", 6, "white", "white", "white", "felt", "soft side up", "medium spring - 13cm", "purple", "-", "-"),
      LayerRow("cooper", 7, "white", "white", "purple", "felt", "firm side up", "medium spring - 13cm", "purple", "-", "-"),
      LayerRow("cooper", 8, "-", "white", "white", "purple", "soft side up", "medium spring - 13cm", "purple", "felt", "-"),
      LayerRow("cooper", 9, "white", "white", "purple", "felt", "soft side up", "medium spring - 13cm", "purple", "-", "-"),
      LayerRow("cooper", 10, "white", "white", "purple", "felt", "firm side up", "medium spring - 13cm", "purple", "-", "-")
    ]

  /** `mattressLayers.find(m => m.model === model && m.firmness === firmness)` */
  function FindRow(table: seq<LayerRow>, model: string, firmness: int): (r: Option<LayerRow>)
    ensures r.Some? ==> r.value in table && r.value.model == model && r.value.firmness == firmness
    ensures r.None? ==> forall k :: 0 <= k < |table| ==> !(table[k].model == model && table[k].firmness == firmness)
    decreases |table|
  {
    if |table| == 0 then None
    else if table[0].model == model && table[0].firmness == firmness then Some(table[0])
    else FindRow(table[1..], model, firmness)
  }

  /** The position of the row `FindRow` returns. */
  lemma {:induction false} FindRowIndex(table: seq<LayerRow>, model: string, firmness: int) returns (k: nat)
    requires FindRow(table, model, firmness).Some?
    ensures k < |table| && table[k] == FindRow(table, model, firmness).value
    decreases |table|
  {
    if table[0].model == model && table[0].firmness == firmness {
      k := 0;
    } else {
      var j := FindRowIndex(table[1..], model, firmness);
      k := j + 1;
    }
  }

  /** A layer value that is shown: neither empty nor the placeholder '-'. */
  predicate Shown(v: string) { v != "" && v != "-" }

  /** The shown values among `vs`, in order. */
  function ShownOnly(vs: seq<string>): seq<string>
    decreases |vs|
  {
    if |vs| == 0 then []
    else if Shown(vs[0]) then [vs[0]] + ShownOnly(vs[1..])
    else ShownOnly(vs[1..])
  }

  /** layer5 down to layer2, the layers above the springs. */
  function UpperLayers(row: LayerRow): seq<string>
  {
    [row.layer5, row.layer4, row.layer3, row.layer2]
  }

  /** A layer as the four pushes keep it: itself when shown, nothing otherwise. */
  function Keep(v: string): (r: seq<string>)
    ensures Shown(v) ==> r == [v]
    ensures !Shown(v) ==> r == []
  {
    if Shown(v) then [v] else []
  }

  /** The upper layers that are shown, layer5 first: what the four pushes collect. */
  function ShownUpper(row: LayerRow): seq<string>
  {
    Keep(row.layer5) + (Keep(row.layer4) + (Keep(row.layer3) + Keep(row.layer2)))
  }

  /** `if (v && v !== '-') layers.push(v)` */
  method PushIfShown(layers: seq<string>, v: string) returns (r: seq<string>)
    ensures r == layers + Keep(v)
  {
    r := layers;
    if Shown(v) {
      r := r + [v];
    }
  }

  /** The filter keeps the shown values and only those, and never lengthens. */
  lemma {:induction false} ShownOnlySpec(vs: seq<string>)
    ensures forall k :: 0 <= k < |ShownOnly(vs)| ==> Shown(ShownOnly(vs)[k]) && ShownOnly(vs)[k] in vs
    ensures forall v :: v in vs && Shown(v) ==> v in ShownOnly(vs)
    ensures |ShownOnly(vs)| <= |vs|
    decreases |vs|
  {
    if |vs| > 0 {
      ShownOnlySpec(vs[1..]);
      assert forall v :: v in vs ==> v == vs[0] || v in vs[1..];
    }
  }

  lemma ShownOnlyStep(vs: seq<string>)
    requires |vs| > 0
    ensures ShownOnly(vs) == Keep(vs[0]) + ShownOnly(vs[1..])
  {
  }

  /** The four pushes keep exactly the shown upper layers, in order. */
  lemma ShownUpperIsShownOnly(row: LayerRow)
    ensures ShownUpper(row) == ShownOnly(UpperLayers(row))
  {
    var v4 := [row.layer2];
    var v3 := [row.layer3] + v4;
    var v2 := [row.layer4] + v3;
    var v1 := [row.layer5] + v2;
    assert v1 == UpperLayers(row);
    ShownOnlyStep(v4);
    assert v4[1..] == [];
    ShownOnlyStep(v3);
    assert v3[1..] == v4;
    ShownOnlyStep(v2);
    assert v2[1..] == v3;
    ShownOnlyStep(v1);
    assert v1[1..] == v2;
  }

  // ---------------------------------------------------------------------
  // Counting and joining

  /** The distinct values of `xs` in order of first appearance (the keys of the counts object). */
  function FirstAppearances(xs: seq<string>): seq<string>
    decreases |xs|
  {
    if |xs| == 0 then []
    else
      var p := FirstAppearances(xs[..|xs| - 1]);
      if xs[|xs| - 1] in p then p else p + [xs[|xs| - 1]]
  }

  function Occurrences(xs: seq<string>, x: string): nat
    decreases |xs|
  {
    if |xs| == 0 then 0
    else Occurrences(xs[..|xs| - 1], x) + (if xs[|xs| - 1] == x then 1 else 0)
  }

  /** `count > 1 ? `${count} ${layer}` : layer` */
  function CountLabel(count: nat, layer: string): string
  {
    if count > 1 then NatToString(count) + " " + layer else layer
  }

  /** The labels of `order`, each with its count in `xs`. */
  function Labels(order: seq<string>, xs: seq<string>): (r: seq<string>)
    ensures |r| == |order|
    decreases |order|
  {
    if |order| == 0 then []
    else Labels(order[..|order| - 1], xs) + [CountLabel(Occurrences(xs, order[|order| - 1]), order[|order| - 1])]
  }

  /** Each distinct layer once, in order of first appearance, with its count, joined by " + ". */
  function Summary(xs: seq<string>): string
  {
    Join(Labels(FirstAppearances(xs), xs), " + ")
  }

  /**
   * The counting loop of `getLayerConfiguration` and `getLayerSummary`:
   * tally each layer in a dictionary whose keys keep their insertion order,
   * then format and join the entries.
   */
  method CountAndJoin(xs: seq<string>) returns (s: string)
    ensures s == Summary(xs)
  {
    var order: seq<string> := [];
    var counts: map<string, nat> := map[];
    for i := 0 to |xs|
      invariant order == FirstAppearances(xs[..i])
      invariant forall x :: x in counts <==> x in order
      invariant forall x :: x in counts ==> counts[x] == Occurrences(xs[..i], x)
    {
      var x := xs[i];
      assert xs[..i + 1][..i] == xs[..i];
      assert forall z :: Occurrences(xs[..i + 1], z) == Occurrences(xs[..i], z) + (if x == z then 1 else 0);
      if x in counts {
        counts := counts[x := counts[x] + 1];
      } else {
        FirstAppearancesSpec(xs[..i]);
        OccurrencesAbsent(xs[..i], x);
        order := order + [x];
        counts := counts[x := 1];
      }
    }
    assert xs[..|xs|] == xs;
    var parts: seq<string> := [];
    for j := 0 to |order|
      invariant parts == Labels(order[..j], xs)
    {
      assert order[..j + 1][..j] == order[..j];
      parts := parts + [CountLabel(counts[order[j]], order[j])];
    }
    assert order[..|order|] == order;
    s := Join(parts, " + ");
  }

  // ---------------------------------------------------------------------
  // What the summary holds

  predicate Distinct(xs: seq<string>)
  {
    forall i, j :: 0 <= i < j < |xs| ==> xs[i] != xs[j]
  }

  /** Every layer is listed exactly once. */
  lemma {:induction false} FirstAppearancesSpec(xs: seq<string>)
    ensures Distinct(FirstAppearances(xs))
    ensures forall x :: x in FirstAppearances(xs) <==> x in xs
    decreases |xs|
  {
    if |xs| > 0 {
      var init := xs[..|xs| - 1];
      FirstAppearancesSpec(init);
      assert xs == init + [xs[|xs| - 1]];
    }
  }

  /** The sum of the counts of `order` in `xs`. */
  function SumCounts(order: seq<string>, xs: seq<string>): nat
    decreases |order|
  {
    if |order| == 0 then 0
    else SumCounts(order[..|order| - 1], xs) + Occurrences(xs, order[|order| - 1])
  }

  lemma {:induction false} SumCountsStep(order: seq<string>, xs: seq<string>, y: string)
    requires Distinct(order)
    ensures SumCounts(order, xs + [y]) == SumCounts(order, xs) + (if y in order then 1 else 0)
    decreases |order|
  {
    assert (xs + [y])[..|xs|] == xs;
    if |order| > 0 {
      var init := order[..|order| - 1];
      assert Distinct(init);
      SumCountsStep(init, xs, y);
      assert order == init + [order[|order| - 1]];
    }
  }

  /** The counts add up to the number of layers counted. */
  lemma {:induction false} CountsAddUp(xs: seq<string>)
    ensures SumCounts(FirstAppearances(xs), xs) == |xs|
    decreases |xs|
  {
    if |xs| > 0 {
      var init := xs[..|xs| - 1];
      var y := xs[|xs| - 1];
      assert xs == init + [y];
      CountsAddUp(init);
      FirstAppearancesSpec(init);
      var p := FirstAppearances(init);
      SumCountsStep(p, init, y);
      if y !in p {
        assert (p + [y])[..|p|] == p;
        assert SumCounts(p + [y], xs) == SumCounts(p, xs) + Occurrences(xs, y);
        OccurrencesAbsent(init, y);
      }
    }
  }

  lemma {:induction false} OccurrencesAbsent(xs: seq<string>, y: string)
    requires y !in xs
    ensures Occurrences(xs, y) == 0
    decreases |xs|
  {
    if |xs| > 0 {
      assert xs[|xs| - 1] in xs;
      var init := xs[..|xs| - 1];
      assert forall v :: v in init ==> v in xs;
      OccurrencesAbsent(init, y);
    }
  }

  /** A layer that occurs once is listed bare; one that repeats carries its count. */
  lemma CountLabelShape(count: nat, layer: string)
    ensures count <= 1 ==> CountLabel(count, layer) == layer
    ensures count > 1 ==> EndsWith(CountLabel(count, layer), " " + layer)
  {
    if count > 1 {
      var r := CountLabel(count, layer);
      assert r == NatToString(count) + (" " + layer);
    }
  }

  /** Every firmness in the table lies between 2 and 16. */
  lemma LayersFirmnessRange()
    ensures forall k :: 0 <= k < |Layers| ==> 2 <= Layers[k].firmness <= 16
  {
  }

  /** Every row has a layer2 to show. */
  lemma LayerTwoShown()
    ensures forall k :: 0 <= k < |Layers| ==> Shown(Layers[k].layer2)
  {
  }

  /** Label `k` of the summary is the `k`-th distinct layer with its count. */
  lemma {:induction false} LabelsAt(order: seq<string>, xs: seq<string>, k: nat)
    requires k < |order|
    ensures Labels(order, xs)[k] == CountLabel(Occurrences(xs, order[k]), order[k])
    decreases |order|
  {
    if k < |order| - 1 {
      LabelsAt(order[..|order| - 1], xs, k);
    }
  }

  /** The summary is empty exactly when there is no layer to show. */
  lemma SummaryEmpty(xs: seq<string>)
    requires forall k :: 0 <= k < |xs| ==> xs[k] != ""
    ensures Summary(xs) == "" <==> xs == []
  {
    if xs != [] {
      FirstAppearancesSpec(xs);
      var order := FirstAppearances(xs);
      assert xs[0] in order;
      var parts := Labels(order, xs);
      LabelsAt(order, xs, 0);
      assert order[0] in xs;
      assert |parts[0]| >= |order[0]| > 0;
      assert |Join(parts, " + ")| >= |parts[0]|;
    }
  }
}
