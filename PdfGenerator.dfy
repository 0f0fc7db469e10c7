// src/utils/pdfGenerator.ts: the layer lookup of the invoice PDF, the
// "Layers:" line it prints under a mattress, and the fallbacks for a
// missing subtotal or GST.

module PdfGenerator {
  import opened Wrappers
  import opened Text
  import opened MattressLayers
  import opened Calculations
  import ProductDetails

  /** An invoice item as the PDF reads it; an empty string stands for a missing or empty field. */
  datatype PdfItem = PdfItem(name: string, description: string, sku: string)

  /** `(item.name || item.description || '').toLowerCase()` */
  function ItemText(item: PdfItem): string
  {
    Lower(if item.name != "" then item.name else item.description)
  }

  /** The range named by the SKU or by the text; "cloud" wins over "aurora", which wins over "cooper". */
  function PdfRange(sku: string, text: string): (r: Option<string>)
    ensures r.Some? ==> Contains(sku, r.value) || Contains(text, r.value)
    ensures r.None? <==> forall m :: m in ["cloud", "aurora", "cooper"] ==> !Contains(sku, m) && !Contains(text, m)
    ensures Contains(sku, "cloud") || Contains(text, "cloud") ==> r == Some("cloud")
    ensures r == Some("cooper") ==> !Contains(sku, "aurora") && !Contains(text, "aurora")
  {
    if Contains(sku, "cloud") || Contains(text, "cloud") then Some("cloud")
    else if Contains(sku, "aurora") || Contains(text, "aurora") then Some("aurora")
    else if Contains(sku, "cooper") || Contains(text, "cooper") then Some("cooper")
    else None
  }

  /** `extractLayerInfo(item)`: the firmness is the first standalone number, 0 when there is none. */
  function ExtractLayerInfo(item: PdfItem): Option<LayerRow>
  {
    var text := ItemText(item);
    match PdfRange(Lower(item.sku), text)
    case None => None
    case Some(model) =>
      match FirstNumber(text)
      case Some(firmness) => FindRow(Layers, model, firmness)
      case None => FindRow(Layers, model, 0)
  }

  /** A row found is of a range the SKU or the text names. */
  lemma ExtractedRangeNamed(item: PdfItem)
    ensures ExtractLayerInfo(item).Some? ==>
      Contains(Lower(item.sku), ExtractLayerInfo(item).value.model) ||
      Contains(ItemText(item), ExtractLayerInfo(item).value.model)
  {
    var text := ItemText(item);
    var range := PdfRange(Lower(item.sku), text);
    if range.Some? {
      var number := FirstNumber(text);
      if number.None? {
        FindOutsideRange(range.value, 0);
      } else {
        assert ExtractLayerInfo(item) == FindRow(Layers, range.value, number.value);
      }
    }
  }

  /** The firmness of a row found is the first standalone number of the text. */
  lemma ExtractedFirmnessRead(item: PdfItem)
    ensures ExtractLayerInfo(item).Some? ==>
      FirstNumber(ItemText(item)) == Some(ExtractLayerInfo(item).value.firmness as int)
  {
    var text := ItemText(item);
    var range := PdfRange(Lower(item.sku), text);
    if range.Some? {
      var number := FirstNumber(text);
      if number.None? {
        FindOutsideRange(range.value, 0);
      } else {
        assert ExtractLayerInfo(item) == FindRow(Layers, range.value, number.value);
      }
    }
  }

  /** No table row has firmness 0, so an item whose text holds no standalone number has no layer data. */
  lemma NoNumberNoLayers(item: PdfItem)
    requires FirstNumber(ItemText(item)).None?
    ensures ExtractLayerInfo(item).None?
  {
    var range := PdfRange(Lower(item.sku), ItemText(item));
    if range.Some? {
      FindOutsideRange(range.value, 0);
    }
  }

  /** No table row lies outside firmness 1 to 16. */
  lemma FindOutsideRange(model: string, firmness: int)
    requires firmness < 1 || firmness > 16
    ensures FindRow(Layers, model, firmness).None?
  {
    if FindRow(Layers, model, firmness).Some? {
      LayersFirmnessRange();
      var k := FindRowIndex(Layers, model, firmness);
      assert false;
    }
  }

  /**
   * When the name is given and mentions no range, the PDF finds the same
   * layer data as the checkout's `getMattressLayerInfo`: the missing 1..16
   * check makes no difference on this table.
   */
  lemma AgreesWithCheckout(name: string, description: string, sku: string)
    requires name != "" && sku != ""
    requires !Contains(Lower(name), "cloud") && !Contains(Lower(name), "aurora") && !Contains(Lower(name), "cooper")
    ensures ExtractLayerInfo(PdfItem(name, description, sku)) == ProductDetails.GetMattressLayerInfo(sku, name)
  {
    var item := PdfItem(name, description, sku);
    assert PdfRange(Lower(sku), ItemText(item)) == ProductDetails.RangeOfSku(Lower(sku));
    var number := FirstNumber(Lower(name));
    var range := ProductDetails.RangeOfSku(Lower(sku));
    if range.Some? {
      if number.None? {
        FindOutsideRange(range.value, 0);
      } else if number.value < 1 || number.value > 16 {
        FindOutsideRange(range.value, number.value);
      }
    }
  }

  /** The layers the "Layers:" line lists: layer5, layer4 and layer3 when shown. */
  function TopLayers(row: LayerRow): seq<string>
  {
    Keep(row.layer5) + (Keep(row.layer4) + Keep(row.layer3))
  }

  /** The "Layers:" line, when there is a layer to list. */
  function LayersLine(row: LayerRow): Option<string>
  {
    var top := TopLayers(row);
    if |top| > 0 then Some("  Layers: " + Join(top, ", ")) else None
  }

  /** The three pushes into `topLayers` and the line printed from them. */
  method TopLayersLine(row: LayerRow) returns (line: Option<string>)
    ensures line == LayersLine(row)
  {
    var top := PushIfShown([], row.layer5);
    top := PushIfShown(top, row.layer4);
    top := PushIfShown(top, row.layer3);
    assert top == TopLayers(row);
    if |top| > 0 {
      line := Some("  Layers: " + Join(top, ", "));
    } else {
      line := None;
    }
  }

  /** The line lists the layer guide's layers without layer2. */
  lemma TopLayersDropLayerTwo(row: LayerRow)
    ensures ShownUpper(row) == TopLayers(row) + Keep(row.layer2)
  {
    var a, b, c, d := Keep(row.layer5), Keep(row.layer4), Keep(row.layer3), Keep(row.layer2);
    assert a + (b + (c + d)) == (a + (b + c)) + d;
  }

  /** layer2 never reaches the PDF. */
  lemma LayerTwoIgnored(row: LayerRow, v: string)
    ensures LayersLine(row) == LayersLine(row.(layer2 := v))
  {
    assert TopLayers(row) == TopLayers(row.(layer2 := v));
  }

  /** The layer lines under one item: none without a SKU or layer data. */
  function ItemLayerLines(item: PdfItem): (lines: seq<string>)
    ensures item.sku == "" ==> lines == []
    ensures ExtractLayerInfo(item).None? ==> lines == []
    ensures |lines| <= 2
    ensures item.sku != "" && ExtractLayerInfo(item).Some? ==>
      var row := ExtractLayerInfo(item).value;
      |lines| >= 1 &&
      lines[0] == "  Firmness: " + NatToString(row.firmness) + " | Spring: " + row.mainSpringLayer &&
      lines[1..] == (match LayersLine(row) case None => [] case Some(l) => [l])
  {
    if item.sku == "" then []
    else
      match ExtractLayerInfo(item)
      case None => []
      case Some(row) =>
        ["  Firmness: " + NatToString(row.firmness) + " | Spring: " + row.mainSpringLayer] +
        (match LayersLine(row) case None => [] case Some(l) => [l])
  }

  /** The amounts on an invoice; 0.0 stands for a missing amount as well, both being falsy. */
  datatype Amounts = Amounts(subtotal: real, gst: real, total: real)

  /** The subtotal printed: the stored one, or total·10/11. */
  function ShownSubtotal(a: Amounts): real
  {
    if a.subtotal != 0.0 then a.subtotal else a.total * 10.0 / 11.0
  }

  /** The GST printed: the stored one, or total/11. */
  function ShownGst(a: Amounts): real
  {
    if a.gst != 0.0 then a.gst else a.total / 11.0
  }

  /** Without stored subtotal and GST, the printed ones are the GST split of the total and add up to it. */
  lemma FallbacksSplitTotal(a: Amounts)
    requires a.subtotal == 0.0 && a.gst == 0.0
    ensures ShownGst(a) == GstComponent(a.total)
    ensures ShownSubtotal(a) == ExGst(a.total)
    ensures ShownSubtotal(a) + ShownGst(a) == a.total
  {
    var g := GstComponent(a.total);
    assert g * 11.0 == a.total;
    assert ShownGst(a) == g;
    assert ShownSubtotal(a) == g * 10.0;
  }

  /** Stored amounts are printed as they are. */
  lemma StoredAmountsKept(a: Amounts)
    requires a.subtotal != 0.0 && a.gst != 0.0
    ensures ShownSubtotal(a) == a.subtotal && ShownGst(a) == a.gst
  {
  }
}
