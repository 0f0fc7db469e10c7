// src/services/productDetails.ts: which layer build a checkout line item
// has, read off its SKU (the range) and its name (the firmness), and the
// line item normalised for the checkout page.

module ProductDetails {
  import opened Wrappers
  import opened Text
  import opened MattressLayers

  /** The range a lower-cased SKU names; "cloud" wins over "aurora", which wins over "cooper". */
  function RangeOfSku(lowerSku: string): Option<string>
  {
    if Contains(lowerSku, "cloud") then Some("cloud")
    else if Contains(lowerSku, "aurora") then Some("aurora")
    else if Contains(lowerSku, "cooper") then Some("cooper")
    else None
  }

  /**
   * `getMattressLayerInfo(sku, name)`: the table row for the range in the
   * SKU and the first standalone number of the name, when that number is
   * a firmness from 1 to 16 and the table has the pair.
   */
  function GetMattressLayerInfo(sku: string, name: string): (r: Option<LayerRow>)
    ensures r.Some? ==> sku != "" && name != ""
    ensures r.Some? ==> r.value in Layers && 1 <= r.value.firmness <= 16
    ensures r.Some? ==> Contains(Lower(sku), r.value.model)
    ensures r.Some? ==> FirstNumber(Lower(name)) == Some(r.value.firmness as int)
    ensures r.Some? && Contains(Lower(sku), "cloud") ==> r.value.model == "cloud"
    ensures r.Some? && r.value.model == "cooper" ==> !Contains(Lower(sku), "aurora")
  {
    if sku == "" || name == "" then None
    else
      match RangeOfSku(Lower(sku))
      case None => None
      case Some(model) =>
        match FirstNumber(Lower(name))
        case None => None
        case Some(firmness) =>
          if firmness < 1 || firmness > 16 then None
          else FindRow(Layers, model, firmness)
  }

  /**
   * Conversely, a SKU naming a range and a name whose first standalone
   * number is a firmness of that range always find its row.
   */
  lemma LayerInfoFound(sku: string, name: string, k: nat)
    requires sku != "" && name != "" && k < |Layers|
    requires RangeOfSku(Lower(sku)) == Some(Layers[k].model)
    requires FirstNumber(Lower(name)) == Some(Layers[k].firmness as int)
    ensures GetMattressLayerInfo(sku, name).Some?
    ensures GetMattressLayerInfo(sku, name).value.model == Layers[k].model
    ensures GetMattressLayerInfo(sku, name).value.firmness == Layers[k].firmness
  {
    LayersFirmnessRange();
  }

  /** A SKU that names no range never has a layer build, whatever the name says. */
  lemma NameAloneIsNotEnough(sku: string, name: string)
    requires RangeOfSku(Lower(sku)).None?
    ensures GetMattressLayerInfo(sku, name).None?
  {
  }

  /** A checkout line item as it arrives; falsy values are `None` or empty. */
  datatype RawItem = RawItem(name: string, sku: string, quantity: Option<string>, price: Option<real>)

  /** The normalised line item; a quantity that does not parse is `None` (NaN). */
  datatype ProductDetail = ProductDetail(
    name: string,
    sku: string,
    quantity: Option<int>,
    price: real,
    layerInfo: Option<LayerRow>)

  /** `enrichProductWithLayers(item)` */
  function EnrichProductWithLayers(item: RawItem): (p: ProductDetail)
    ensures p.name == item.name && p.sku == item.sku
    ensures item.quantity.None? ==> p.quantity == Some(1)
    ensures item.price.None? ==> p.price == 0.0
    ensures p.layerInfo == GetMattressLayerInfo(item.sku, item.name)
  {
    ParseOne();
    var quantity := ParseInt(if item.quantity.Some? then item.quantity.value else "1");
    var price := if item.price.Some? then item.price.value else 0.0;
    ProductDetail(item.name, item.sku, quantity, price, GetMattressLayerInfo(item.sku, item.name))
  }

  lemma ParseOne()
    ensures ParseInt("1") == Some(1)
  {
    assert NatToString(1) == "1";
    assert PadStart("1", 0, '0') == "1";
    ParsePadded(1, 0);
  }

  /** A quantity written as a whole number, zero-padded or not, is read back as that number. */
  lemma EnrichReadsQuantity(item: RawItem, n: nat, w: nat)
    requires item.quantity == Some(PadStart(NatToString(n), w, '0'))
    ensures EnrichProductWithLayers(item).quantity == Some(n)
  {
    ParsePadded(n, w);
  }
}
