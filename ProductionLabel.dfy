// src/components/ProductionLabel.tsx: the layer configuration printed on
// a production label, in capitals, with the spring line under it.

module ProductionLabel {
  import opened Wrappers
  import opened Text
  import opened MattressLayers

  const NotFound: string := "CONFIGURATION NOT FOUND"

  /** `${mainSpringLayer} (${springsPosition})` in capitals. */
  function SpringInfo(row: LayerRow): string
  {
    Upper(row.mainSpringLayer) + " (" + Upper(row.springsPosition) + ")"
  }

  /** What the label shows: the shown upper layers, capitalised and counted, then the spring line. */
  function LabelConfiguration(range: string, model: int): (r: string)
    ensures r == NotFound ||
      (exists row :: row in Layers && row.model == Lower(range) && row.firmness == model && r == RowLabel(row))
  {
    var found := FindRow(Layers, Lower(range), model);
    if found.None? then NotFound
    else
      var row := found.value;
      assert row in Layers && row.model == Lower(range) && row.firmness == model;
      RowLabel(row)
  }

  /** `getLayerConfiguration(range, model)` */
  method GetLayerConfiguration(range: string, model: int) returns (config: string)
    ensures config == LabelConfiguration(range, model)
  {
    var rangeLower := Lower(range);
    var found := FindRow(Layers, rangeLower, model);
    if found.None? {
      return NotFound;
    }
    var row := found.value;
    var layers := ShownUpperLayers(row);
    var formatted := CountAndJoin(layers);
    config := formatted + "\n" + SpringInfo(row);
    assert config == RowLabel(row);
  }

  /** An upper layer as the label lists it: in capitals, or not at all when it is empty or "-". */
  function Kept(v: string): (r: seq<string>)
    ensures Shown(v) ==> r == [Upper(v)]
    ensures !Shown(v) ==> r == []
  {
    if Shown(v) then [Upper(v)] else []
  }

  /** The layers the label counts, layer5 first. */
  function LabelLayers(row: LayerRow): seq<string>
  {
    Kept(row.layer5) + Kept(row.layer4) + Kept(row.layer3) + Kept(row.layer2)
  }

  /** The four pushes of `getLayerConfiguration`. */
  method ShownUpperLayers(row: LayerRow) returns (layers: seq<string>)
    ensures layers == LabelLayers(row)
  {
    layers := PushShown([], row.layer5);
    layers := PushShown(layers, row.layer4);
    layers := PushShown(layers, row.layer3);
    layers := PushShown(layers, row.layer2);
  }

  /** `if (v && v !== '-') layers.push(v.toUpperCase())` */
  method PushShown(layers: seq<string>, v: string) returns (r: seq<string>)
    ensures r == layers + Kept(v)
  {
    r := layers;
    if Shown(v) {
      r := r + [Upper(v)];
    }
  }

  /** `toUpperCase` on each element. */
  function UpperAll(xs: seq<string>): (r: seq<string>)
    ensures |r| == |xs|
    decreases |xs|
  {
    if |xs| == 0 then [] else [Upper(xs[0])] + UpperAll(xs[1..])
  }

  lemma {:induction false} UpperAllAppend(xs: seq<string>, ys: seq<string>)
    ensures UpperAll(xs + ys) == UpperAll(xs) + UpperAll(ys)
    decreases |xs|
  {
    if |xs| > 0 {
      assert (xs + ys)[1..] == xs[1..] + ys;
      UpperAllAppend(xs[1..], ys);
    } else {
      assert xs + ys == ys;
    }
  }

  /** The label counts the same layers as the layer guide, in capitals. */
  lemma LabelIsGuideInCapitals(row: LayerRow)
    ensures LabelLayers(row) == UpperAll(ShownUpper(row))
  {
    var a, b, c, d := Keep(row.layer5), Keep(row.layer4), Keep(row.layer3), Keep(row.layer2);
    assert UpperAll(a) == Kept(row.layer5) && UpperAll(b) == Kept(row.layer4);
    assert UpperAll(c) == Kept(row.layer3) && UpperAll(d) == Kept(row.layer2);
    UpperAllAppend(c, d);
    UpperAllAppend(b, c + d);
    UpperAllAppend(a, b + (c + d));
    var ka, kb, kc, kd := Kept(row.layer5), Kept(row.layer4), Kept(row.layer3), Kept(row.layer2);
    assert ka + (kb + (kc + kd)) == ka + kb + kc + kd;
  }

  /** The label of a found row, which always holds a line break. */
  function RowLabel(row: LayerRow): string
  {
    Summary(LabelLayers(row)) + "\n" + SpringInfo(row)
  }

  lemma RowLabelIsNotNotFound(row: LayerRow)
    ensures RowLabel(row) != NotFound
  {
    var head := Summary(LabelLayers(row));
    assert RowLabel(row)[|head|] == '\n';
    NotFoundHasNoBreak();
  }

  lemma NotFoundHasNoBreak()
    ensures forall i :: 0 <= i < |NotFound| ==> NotFound[i] != '\n'
  {
  }

  /** The label says "CONFIGURATION NOT FOUND" exactly when the table has no such range and firmness. */
  lemma NotFoundExactly(range: string, model: int)
    ensures LabelConfiguration(range, model) == NotFound <==>
      forall k :: 0 <= k < |Layers| ==> !(Layers[k].model == Lower(range) && Layers[k].firmness == model)
  {
    var found := FindRow(Layers, Lower(range), model);
    if found.Some? {
      RowLabelIsNotNotFound(found.value);
      var k := FindRowIndex(Layers, Lower(range), model);
      assert Layers[k].model == Lower(range) && Layers[k].firmness == model;
    }
  }

  /** The range is matched without regard to case. */
  lemma RangeCaseIgnored(range: string, model: int)
    ensures LabelConfiguration(range, model) == LabelConfiguration(Lower(range), model)
  {
    LowerIdempotent(range);
  }

  /** A row with a layer2 to show has a summary that is not empty. */
  lemma SummaryOfShownLayers(row: LayerRow)
    requires Shown(row.layer2)
    ensures Summary(LabelLayers(row)) != ""
  {
    var shown := LabelLayers(row);
    assert shown[|shown| - 1] == Upper(row.layer2);
    assert forall k :: 0 <= k < |shown| ==> |shown[k]| > 0;
    SummaryEmpty(shown);
  }

  /** A configuration that is found always lists at least one layer above the springs. */
  lemma FoundHasLayers(range: string, model: int)
    requires LabelConfiguration(range, model) != NotFound
    ensures exists k :: (0 <= k < |Layers| && LabelConfiguration(range, model) == RowLabel(Layers[k]) &&
      Summary(LabelLayers(Layers[k])) != "")
  {
    var k := FindRowIndex(Layers, Lower(range), model);
    LayerTwoShown();
    SummaryOfShownLayers(Layers[k]);
    assert LabelConfiguration(range, model) == RowLabel(Layers[k]);
  }
}
