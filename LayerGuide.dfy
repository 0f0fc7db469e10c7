// src/components/LayerGuide.tsx: the searchable table of layer builds,
// its expandable rows and the per-row layer summary.

module LayerGuide {
  import opened Wrappers
  import opened Text
  import opened MattressLayers

  /** The choices of the range filter. */
  const Models: seq<string> := ["all", "cloud", "aurora", "cooper"]

  /** `Object.values(layer)` as text, the firmness written in decimal. */
  function FieldTexts(row: LayerRow): (r: seq<string>)
    ensures |r| == 11 && r[0] == row.model && r[1] == NatToString(row.firmness)
  {
    [row.model, NatToString(row.firmness), row.layer5, row.layer4, row.layer3, row.layer2,
     row.springsPosition, row.mainSpringLayer, row.underSprings1, row.underSprings2, row.underSprings3]
  }

  predicate ModelMatch(row: LayerRow, selected: string)
  {
    selected == "all" || row.model == selected
  }

  /** Some value, lower-cased, contains the lower-cased term. */
  predicate SomeValueContains(values: seq<string>, term: string)
  {
    exists k :: 0 <= k < |values| && Contains(Lower(values[k]), Lower(term))
  }

  /** The three tests of the search box, in the order they are written. */
  predicate SearchMatch(row: LayerRow, term: string)
  {
    term == "" ||
    Contains(Lower(row.model), Lower(term)) ||
    Contains(NatToString(row.firmness), term) ||
    SomeValueContains(FieldTexts(row), term)
  }

  /** `filteredLayers`: the rows passing both the range filter and the search. */
  function FilteredLayers(table: seq<LayerRow>, selected: string, term: string): (r: seq<LayerRow>)
    ensures |r| <= |table|
    decreases |table|
  {
    if |table| == 0 then []
    else
      (if ModelMatch(table[0], selected) && SearchMatch(table[0], term) then [table[0]] else []) +
      FilteredLayers(table[1..], selected, term)
  }

  /** A row is listed exactly when it is in the table and passes both tests. */
  lemma {:induction false} FilteredMembers(table: seq<LayerRow>, selected: string, term: string)
    ensures forall row :: row in FilteredLayers(table, selected, term) <==>
      row in table && ModelMatch(row, selected) && SearchMatch(row, term)
    decreases |table|
  {
    if |table| > 0 {
      FilteredMembers(table[1..], selected, term);
      assert forall row :: row in table <==> row == table[0] || row in table[1..];
    }
  }

  /** Filtering keeps the table's order: it distributes over concatenation. */
  lemma {:induction false} FilteredLayersAppend(a: seq<LayerRow>, b: seq<LayerRow>, selected: string, term: string)
    ensures FilteredLayers(a + b, selected, term) == FilteredLayers(a, selected, term) + FilteredLayers(b, selected, term)
    decreases |a|
  {
    if |a| == 0 {
      assert a + b == b;
    } else {
      assert (a + b)[0] == a[0] && (a + b)[1..] == a[1..] + b;
      FilteredLayersAppend(a[1..], b, selected, term);
      var head := if ModelMatch(a[0], selected) && SearchMatch(a[0], term) then [a[0]] else [];
      assert head + (FilteredLayers(a[1..], selected, term) + FilteredLayers(b, selected, term)) ==
        (head + FilteredLayers(a[1..], selected, term)) + FilteredLayers(b, selected, term);
    }
  }

  /** With "all" and an empty search the whole table is listed, in order. */
  lemma {:induction false} NoFilterListsAll(table: seq<LayerRow>)
    ensures FilteredLayers(table, "all", "") == table
    decreases |table|
  {
    if |table| > 0 {
      NoFilterListsAll(table[1..]);
    }
  }

  /**
   * The first two search tests add nothing to the third: a row matches
   * exactly when the term is empty or some value contains it, ignoring case.
   */
  lemma SearchIsAnyValue(row: LayerRow, term: string)
    ensures SearchMatch(row, term) <==> term == "" || SomeValueContains(FieldTexts(row), term)
  {
    var values := FieldTexts(row);
    if Contains(NatToString(row.firmness), term) {
      ContainsLower(NatToString(row.firmness), term);
      NatToStringDigits(row.firmness);
      LowerOfDigits(NatToString(row.firmness));
      assert Contains(Lower(values[1]), Lower(term));
    }
    if Contains(Lower(row.model), Lower(term)) {
      assert Contains(Lower(values[0]), Lower(term));
    }
  }

  /** `toggleRow(index)` on the set of expanded rows. */
  function ToggleRow(expanded: set<int>, index: int): (r: set<int>)
    ensures index in r <==> index !in expanded
    ensures forall j :: j != index ==> (j in r <==> j in expanded)
  {
    if index in expanded then expanded - {index} else expanded + {index}
  }

  /** Toggling a row twice leaves the expanded rows as they were. */
  lemma ToggleTwice(expanded: set<int>, index: int)
    ensures ToggleRow(ToggleRow(expanded, index), index) == expanded
  {
  }

  /** `getLayerDisplay(layer)`: the value, or nothing for an empty value or "-". */
  function GetLayerDisplay(layer: string): (r: Option<string>)
    ensures r.Some? <==> Shown(layer)
    ensures r.Some? ==> r.value == layer
  {
    if layer == "-" || layer == "" then None else Some(layer)
  }

  /** The cells that display a value are exactly the layers the summary counts. */
  lemma DisplayMatchesSummary(row: LayerRow, v: string)
    requires v in UpperLayers(row)
    ensures GetLayerDisplay(v).Some? <==> v in ShownUpper(row)
  {
    ShownUpperIsShownOnly(row);
    ShownOnlySpec(UpperLayers(row));
  }

  /** `getLayerSummary(layer)` */
  method GetLayerSummary(row: LayerRow) returns (summary: string)
    ensures summary == Summary(ShownUpper(row))
  {
    var layers := PushIfShown([], row.layer5);
    layers := PushIfShown(layers, row.layer4);
    layers := PushIfShown(layers, row.layer3);
    layers := PushIfShown(layers, row.layer2);
    assert layers == ShownUpper(row);
    summary := CountAndJoin(layers);
  }

  /** Every row of the table has a summary that is not empty. */
  lemma TableSummariesNotEmpty(k: nat)
    requires k < |Layers|
    ensures Summary(ShownUpper(Layers[k])) != ""
  {
    LayerTwoShown();
    GuideSummaryNotEmpty(Layers[k]);
  }

  lemma GuideSummaryNotEmpty(row: LayerRow)
    requires Shown(row.layer2)
    ensures Summary(ShownUpper(row)) != ""
  {
    var shown := ShownUpper(row);
    assert shown[|shown| - 1] == row.layer2;
    SummaryEmpty(shown);
  }
}
