// src/components/MattressInvoiceApp.tsx: the line-item editor of the
// invoice form, the checkbox selection of the invoice list, and how a
// production label reads its range, model and size from the SKU.  The
// editor's state is a class; each handler builds the new item list from
// the old one.  The fresh item id (`Date.now()` and `Math.random()`) is a
// parameter.

module MattressInvoiceApp {
  import opened Wrappers
  import opened Text
  import Products
  import Selection
  import opened Labels

  /** A line item of the invoice being edited. */
  datatype Item = Item(id: string, sku: string, name: string, quantity: int, price: real)

  /** The blank item `addItem` appends. */
  function BlankItem(id: string): Item
  {
    Item(id, "", "", 1, 0.0)
  }

  /** What one of the item inputs writes through `updateItem(index, field, value)`. */
  datatype ItemEdit = NameEdit(name: string) | QuantityEdit(quantity: int) | PriceEdit(price: real)

  /** The one field an edit sets. */
  function Edited(item: Item, edit: ItemEdit): Item
  {
    match edit
    case NameEdit(n) => item.(name := n)
    case QuantityEdit(q) => item.(quantity := q)
    case PriceEdit(p) => item.(price := p)
  }

  /** The quantity input: `parseInt(value) || 1`, so NaN and 0 become 1 while a negative number is kept. */
  function QuantityInput(parsed: Option<int>): (q: int)
    ensures q != 0
    ensures parsed.Some? && parsed.value != 0 ==> q == parsed.value
    ensures parsed.None? || parsed == Some(0) ==> q == 1
  {
    if parsed.Some? && parsed.value != 0 then parsed.value else 1
  }

  /** The price input: `parseFloat(value) || 0`. */
  function PriceInput(parsed: Option<real>): (p: real)
    ensures parsed.Some? ==> p == parsed.value
    ensures parsed.None? ==> p == 0.0
  {
    if parsed.Some? && parsed.value != 0.0 then parsed.value else 0.0
  }

  /** The item `selectProduct` puts in place: the product at quantity 1, keeping the old id when it has one. */
  function SelectedItem(old_: Item, product: Products.Product, freshId: string): (r: Item)
    ensures r.sku == product.sku && r.name == product.name && r.price == product.price && r.quantity == 1
    ensures old_.id != "" ==> r.id == old_.id
    ensures old_.id == "" ==> r.id == freshId
  {
    Item(if old_.id != "" then old_.id else freshId, product.sku, product.name, 1, product.price)
  }

  /** `items.filter((_, i) => i !== index)`: the items at every other position, in order. */
  function WithoutIndex(items: seq<Item>, index: int): seq<Item>
    decreases |items|
  {
    if |items| == 0 then []
    else
      var last := |items| - 1;
      WithoutIndex(items[..last], index) + (if last == index then [] else [items[last]])
  }

  /** The filter drops exactly the item at the index, and nothing when the index is not a position. */
  lemma {:induction false} WithoutIndexSlices(items: seq<Item>, index: int)
    ensures 0 <= index < |items| ==> WithoutIndex(items, index) == items[..index] + items[index + 1..]
    ensures !(0 <= index < |items|) ==> WithoutIndex(items, index) == items
    decreases |items|
  {
    if |items| > 0 {
      var last := |items| - 1;
      var init := items[..last];
      WithoutIndexSlices(init, index);
      if index == last {
        assert items[..index] == init && items[index + 1..] == [];
      } else if 0 <= index < last {
        assert init[..index] == items[..index];
        assert init[index + 1..] + [items[last]] == items[index + 1..];
      } else {
        assert init + [items[last]] == items;
      }
    }
  }

  /** Removing the item just added gives the list back. */
  lemma RemoveUndoesAdd(items: seq<Item>, id: string)
    ensures WithoutIndex(items + [BlankItem(id)], |items|) == items
  {
    WithoutIndexSlices(items + [BlankItem(id)], |items|);
    assert (items + [BlankItem(id)])[..|items|] == items;
  }

  /** The line-item editor's state. */
  class InvoiceEditor {
    var items: seq<Item>
    var activeItemIndex: Option<nat>
    var showProductSearch: bool
    var productSearch: string

    constructor(items0: seq<Item>)
      ensures items == items0 && activeItemIndex.None? && !showProductSearch && productSearch == ""
    {
      items := items0;
      activeItemIndex := None;
      showProductSearch := false;
      productSearch := "";
    }

    /** `addItem`: one blank item at the end, made the active row with an empty product search open. */
    method AddItem(freshId: string)
      modifies this
      ensures items == old(items) + [BlankItem(freshId)]
      ensures activeItemIndex == Some(|items| - 1) && showProductSearch && productSearch == ""
    {
      var newItems := items + [BlankItem(freshId)];
      items := newItems;
      activeItemIndex := Some(|newItems| - 1);
      showProductSearch := true;
      productSearch := "";
    }

    /** `updateItem(index, field, value)`: the one field of the one item; the rows and the search stay. */
    method UpdateItem(index: nat, edit: ItemEdit)
      requires index < |items|
      modifies this
      ensures items == old(items)[index := Edited(old(items)[index], edit)]
      ensures activeItemIndex == old(activeItemIndex) && showProductSearch == old(showProductSearch)
      ensures productSearch == old(productSearch)
    {
      var newItems := items;
      newItems := newItems[index := Edited(newItems[index], edit)];
      items := newItems;
    }

    /** `selectProduct(product, index)`: the row becomes the product and the search closes. */
    method SelectProduct(product: Products.Product, index: nat, freshId: string)
      requires index < |items|
      modifies this
      ensures items == old(items)[index := SelectedItem(old(items)[index], product, freshId)]
      ensures !showProductSearch && productSearch == "" && activeItemIndex == old(activeItemIndex)
    {
      var newItems := items;
      newItems := newItems[index := SelectedItem(newItems[index], product, freshId)];
      items := newItems;
      showProductSearch := false;
      productSearch := "";
    }

    /** `removeItem(index)`: the filter above. */
    method RemoveItem(index: int)
      modifies this
      ensures items == WithoutIndex(old(items), index)
      ensures activeItemIndex == old(activeItemIndex) && showProductSearch == old(showProductSearch)
      ensures productSearch == old(productSearch)
    {
      items := WithoutIndex(items, index);
    }
  }

  /** Adding a row, choosing a product for it and removing it again leaves the list as it was. */
  method AddChooseRemove(e: InvoiceEditor, product: Products.Product, freshId: string)
    modifies e
    ensures e.items == old(e.items)
  {
    e.AddItem(freshId);
    var added := |e.items| - 1;
    e.SelectProduct(product, added, freshId);
    assert e.items == old(e.items) + [SelectedItem(BlankItem(freshId), product, freshId)];
    e.RemoveItem(added);
    WithoutIndexSlices(old(e.items) + [SelectedItem(BlankItem(freshId), product, freshId)], added);
    assert (old(e.items) + [SelectedItem(BlankItem(freshId), product, freshId)])[..added] == old(e.items);
  }

  // ---------------------------------------------------------------------
  // Selection of invoices

  /**
   * `toggleSelectAll` compares against every invoice of the page and
   * selects their `quote_number`s as they are, so an invoice without one
   * adds `undefined` (`None` here).
   */
  function ToggleSelectAll(selected: set<Option<string>>, pageNumbers: seq<Option<string>>): set<Option<string>>
  {
    Selection.ToggleAll(selected, pageNumbers)
  }

  /** Two invoices on the page without a quote number keep the header checkbox from ever clearing. */
  lemma TwoUnnumberedKeepSelection(pageNumbers: seq<Option<string>>, i: nat, j: nat)
    requires i < j < |pageNumbers| && pageNumbers[i].None? && pageNumbers[j].None?
    ensures ToggleSelectAll(Selection.Elements(pageNumbers), pageNumbers) == Selection.Elements(pageNumbers)
  {
    Selection.SharedNumberNeverClears(pageNumbers, i, j);
  }

  /** With distinct quote numbers the header checkbox selects the page, then clears it. */
  lemma SelectPageThenClear(pageNumbers: seq<Option<string>>)
    requires Selection.Distinct(pageNumbers) && |pageNumbers| > 0
    ensures ToggleSelectAll({}, pageNumbers) == Selection.Elements(pageNumbers)
    ensures ToggleSelectAll(ToggleSelectAll({}, pageNumbers), pageNumbers) == {}
  {
    Selection.SelectAllThenClear(pageNumbers);
  }

  // ---------------------------------------------------------------------
  // Production labels read from the SKU

  /** The item as the label code reads it. */
  function LabelItemOf(item: Item): (r: LabelItem)
    ensures r.sku == item.sku && r.name == item.name && r.quantity == item.quantity
  {
    LabelItem(item.sku, item.name, item.quantity)
  }

  /** `/cloud(\d+)/i` or `/aurora(\d+)/i` can match at `i` of the lower-cased SKU: the word, then a digit. */
  predicate MatchesAt(low: string, word: string, i: nat)
  {
    i + |word| < |low| && low[i..i + |word|] == word && IsDigit(low[i + |word|])
  }

  /** The leftmost match from `i` on. */
  function FirstMatchFrom(low: string, word: string, i: nat): (r: Option<nat>)
    requires i <= |low|
    ensures r.Some? ==> i <= r.value < |low| && MatchesAt(low, word, r.value)
    ensures r.Some? ==> forall k :: i <= k < r.value ==> !MatchesAt(low, word, k)
    ensures r.None? ==> forall k :: i <= k < |low| ==> !MatchesAt(low, word, k)
    decreases |low| - i
  {
    if i == |low| then None
    else if MatchesAt(low, word, i) then Some(i)
    else FirstMatchFrom(low, word, i + 1)
  }

  /** The range, from the lower-cased SKU's start: Cloud or Aurora, '' otherwise. */
  function RangeOf(low: string): string
  {
    if StartsWith(low, "cloud") then "Cloud" else if StartsWith(low, "aurora") then "Aurora" else ""
  }

  /**
   * The model: the digits right after the leftmost `cloud` (or `aurora`)
   * that is followed by a digit, anywhere in the SKU and in any case; 0
   * when there is none.  `parseInt` of a digit run is its value.
   */
  function ModelOf(low: string): int
  {
    var word := if StartsWith(low, "cloud") then "cloud" else if StartsWith(low, "aurora") then "aurora" else "";
    if word == "" then 0
    else match FirstMatchFrom(low, word, 0)
      case None => 0
      case Some(i) => DigitsValue(LeadingDigits(low[i + |word|..]))
  }

  /** The size: King for a King SKU that is not a King Single, else Queen for a Queen SKU, else ''. */
  function SizeOf(low: string): string
  {
    if Contains(low, "king") && !Contains(low, "kingsingle") then "King"
    else if Contains(low, "queen") then "Queen"
    else ""
  }

  /** The label of one unit of an item, for the invoice's customer; the SKU is read in lower case. */
  function AppLabel(customerName: string, customerAddress: string, item: LabelItem): (l: Label)
    ensures l.productName == item.name && l.customerName == customerName && l.customerAddress == customerAddress
    ensures l.range == "Cloud" <==> StartsWith(Lower(item.sku), "cloud")
    ensures l.range == "Aurora" <==> StartsWith(Lower(item.sku), "aurora") && !StartsWith(Lower(item.sku), "cloud")
    ensures l.range == "" ==> l.model == 0
    ensures l.size == "King" <==> Contains(Lower(item.sku), "king") && !Contains(Lower(item.sku), "kingsingle")
    ensures l.size == "King" || l.size == "Queen" || l.size == ""
  {
    var low := Lower(item.sku);
    Label(item.name, customerName, customerAddress, SizeOf(low), ModelOf(low), RangeOf(low))
  }

  /** A King Single SKU needs labels (it names "king") but its labels carry no size. */
  lemma KingSingleHasNoSize(sku: string)
    requires Contains(Lower(sku), "kingsingle") && !Contains(Lower(sku), "queen")
    ensures SizeOf(Lower(sku)) == ""
    ensures StartsWith(Lower(sku), "cloud") ==> NeedsLabel(sku)
  {
    var low := Lower(sku);
    var w := ContainsWitness(low, "kingsingle");
    KingInKingSingle(low, w);
  }

  lemma KingInKingSingle(low: string, w: nat)
    requires w + 10 <= |low| && low[w..w + 10] == "kingsingle"
    ensures Contains(low, "king")
  {
    assert low[w..w + 4] == low[w..w + 10][..4];
    ContainsAt(low, "king", w);
  }

  /** A string without some character of a word does not contain the word. */
  lemma {:induction false} MissingLetter(s: string, p: string, j: nat)
    requires j < |p| && forall i :: 0 <= i < |s| ==> s[i] != p[j]
    ensures !Contains(s, p)
    decreases |s|
  {
    if |p| <= |s| {
      assert s[..|p|][j] != p[j];
    }
    if |s| > 0 {
      MissingLetter(s[1..], p, j);
    }
  }

  /** The model is read back from a lower-cased SKU of a range word, the model digits and a size. */
  lemma ModelReadBack(word: string, d: string, tail: string)
    requires AllDigits(d) && |d| > 0
    requires |tail| > 0 && !IsDigit(tail[0])
    ensures FirstMatchFrom(word + d + tail, word, 0) == Some(0)
    ensures LeadingDigits((word + d + tail)[|word|..]) == d
  {
    var low := word + d + tail;
    assert low[..|word|] == word && low[|word|] == d[0];
    assert MatchesAt(low, word, 0);
    assert low[|word|..] == d + tail;
    LeadingDigitsBefore(d, tail);
  }

  /** The range word at the start of a lower-cased SKU decides the range and the word the model follows. */
  lemma RangeOfCatalogue(word: string, d: string, tail: string)
    requires word == "cloud" || word == "aurora"
    ensures RangeOf(word + d + tail) == (if word == "cloud" then "Cloud" else "Aurora")
    ensures StartsWith(word + d + tail, word)
    ensures StartsWith(word + d + tail, "cloud") <==> word == "cloud"
  {
    var low := word + d + tail;
    assert low[..|word|] == word;
    if word == "aurora" {
      assert low[0] == 'a';
    }
  }

  /** The size word at the end of a lower-cased SKU whose head has no k, q or s. */
  lemma SizeOfCatalogue(head: string, tail: string)
    requires tail == "king" || tail == "queen" || tail == "kingsingle"
    requires forall i :: 0 <= i < |head| ==> head[i] != 'k' && head[i] != 'q' && head[i] != 's'
    ensures SizeOf(head + tail) == (if tail == "king" then "King" else if tail == "queen" then "Queen" else "")
    ensures Contains(head + tail, "king") || Contains(head + tail, "queen")
  {
    var low := head + tail;
    assert low[|head|..|head| + |tail|] == tail;
    ContainsAt(low, tail, |head|);
    if tail == "king" {
      MissingLetter(low, "kingsingle", 4);
    } else if tail == "queen" {
      MissingLetter(low, "king", 0);
    } else {
      KingInKingSingle(low, |head|);
      MissingLetter(low, "queen", 0);
    }
  }

  /** The model read from a lower-cased SKU of a range word, a model's digits and a size word. */
  lemma ModelOfCatalogue(word: string, d: string, tail: string)
    requires word == "cloud" || word == "aurora"
    requires AllDigits(d) && |d| > 0
    requires |tail| > 0 && !IsDigit(tail[0])
    ensures ModelOf(word + d + tail) == DigitsValue(d)
  {
    RangeOfCatalogue(word, d, tail);
    ModelReadBack(word, d, tail);
  }

  /** Neither range word nor a digit is a k, a q or an s. */
  lemma HeadHasNoSizeLetter(word: string, d: string)
    requires word == "cloud" || word == "aurora"
    requires AllDigits(d)
    ensures forall i :: 0 <= i < |word + d| ==> (word + d)[i] != 'k' && (word + d)[i] != 'q' && (word + d)[i] != 's'
  {
    forall i | 0 <= i < |word + d|
      ensures (word + d)[i] != 'k' && (word + d)[i] != 'q' && (word + d)[i] != 's'
    {
      if i < |word| {
        assert (word + d)[i] == word[i];
      } else {
        assert (word + d)[i] == d[i - |word|];
      }
    }
  }

  /**
   * The labels of a catalogue Cloud or Aurora mattress (its SKU built by
   * `generateProducts`) read back its range and model, and its size for a
   * King or a Queen; a King Single ("kingsingle" once lower-cased without
   * its space) needs labels but gets an empty size.
   */
  lemma CatalogueSkuLabel(range: string, model: nat, size: string, word: string, tail: string)
    requires Lower(range) == word && (word == "cloud" || word == "aurora")
    requires Products.RemoveSpaces(Lower(size)) == tail && (tail == "king" || tail == "queen" || tail == "kingsingle")
    ensures NeedsLabel(Products.Sku(range, model, size))
    ensures RangeOf(Lower(Products.Sku(range, model, size))) == (if word == "cloud" then "Cloud" else "Aurora")
    ensures ModelOf(Lower(Products.Sku(range, model, size))) == model
    ensures SizeOf(Lower(Products.Sku(range, model, size))) ==
      (if tail == "king" then "King" else if tail == "queen" then "Queen" else "")
  {
    var sku := Products.Sku(range, model, size);
    Products.LowerSku(range, model, size);
    NatToStringDigits(model);
    var d := NatToString(model);
    assert Lower(sku) == word + d + tail;
    assert |sku| == |Lower(sku)| > 0;
    RangeOfCatalogue(word, d, tail);
    ModelOfCatalogue(word, d, tail);
    HeadHasNoSizeLetter(word, d);
    SizeOfCatalogue(word + d, tail);
  }

  // ---------------------------------------------------------------------
  // `getLabelItems(invoice)`: the labels the app prints for an invoice

  /** The invoice's items as the label code reads them, one for one. */
  function LabelItems(items: seq<Item>): (r: seq<LabelItem>)
    ensures |r| == |items|
    ensures forall k :: 0 <= k < |items| ==> r[k] == LabelItemOf(items[k])
  {
    seq(|items|, k requires 0 <= k < |items| => LabelItemOf(items[k]))
  }

  /** The app's reading of one label item, for the invoice's customer. */
  function Describe(customerName: string, customerAddress: string): LabelItem -> Label
  {
    it => AppLabel(customerName, customerAddress, it)
  }

  /** The labels of an invoice: the shared filter-and-copies loop with the app's reading of the SKU. */
  function InvoiceLabels(customerName: string, customerAddress: string, items: seq<Item>): seq<Label>
  {
    LabelsFor(LabelItems(items), Describe(customerName, customerAddress))
  }

  /** `getLabelItems(invoice)`. */
  method GetInvoiceLabelItems(customerName: string, customerAddress: string, items: seq<Item>) returns (printed: seq<Label>)
    ensures printed == InvoiceLabels(customerName, customerAddress, items)
  {
    printed := Labels.GetLabelItems(LabelItems(items), Describe(customerName, customerAddress));
  }

  /** Reading the items is compatible with splitting the list around one item. */
  lemma LabelItemsSplit(before: seq<Item>, item: Item, after: seq<Item>)
    ensures LabelItems(before + [item] + after) == LabelItems(before) + [LabelItemOf(item)] + LabelItems(after)
  {
    var whole := before + [item] + after;
    assert forall k :: 0 <= k < |whole| ==>
      LabelItems(whole)[k] == (LabelItems(before) + [LabelItemOf(item)] + LabelItems(after))[k];
  }

  /**
   * Each item of an invoice contributes, in place, `quantity` identical
   * labels when its SKU passes the label rule (none for a quantity of 0 or
   * less), each with the item's name, the invoice's customer and the range,
   * model and size read off the lower-cased SKU; any other item contributes
   * none.
   */
  lemma InvoiceLabelsOfOneItem(customerName: string, customerAddress: string, before: seq<Item>, item: Item, after: seq<Item>)
    ensures var mid := ItemLabels(LabelItemOf(item), Describe(customerName, customerAddress));
      InvoiceLabels(customerName, customerAddress, before + [item] + after) ==
      InvoiceLabels(customerName, customerAddress, before) + mid + InvoiceLabels(customerName, customerAddress, after)
    ensures var mid := ItemLabels(LabelItemOf(item), Describe(customerName, customerAddress));
      var low := Lower(item.sku);
      NeedsLabel(item.sku) ==>
        |mid| == MaxInt(item.quantity, 0) &&
        forall i :: 0 <= i < |mid| ==>
          mid[i] == Label(item.name, customerName, customerAddress, SizeOf(low), ModelOf(low), RangeOf(low))
    ensures !NeedsLabel(item.sku) ==> ItemLabels(LabelItemOf(item), Describe(customerName, customerAddress)) == []
  {
    var describe := Describe(customerName, customerAddress);
    LabelItemsSplit(before, item, after);
    Labels.LabelsOfOneItem(LabelItems(before), LabelItemOf(item), LabelItems(after), describe);
  }

  /**
   * Every label printed for an invoice is that of an item whose SKU passes
   * the label rule, and so names the Cloud or the Aurora range.
   */
  lemma InvoiceLabelOrigin(customerName: string, customerAddress: string, items: seq<Item>, i: nat)
    requires i < |InvoiceLabels(customerName, customerAddress, items)|
    ensures var l := InvoiceLabels(customerName, customerAddress, items)[i];
      exists k :: 0 <= k < |items| && NeedsLabel(items[k].sku) &&
        l == Label(items[k].name, customerName, customerAddress,
                   SizeOf(Lower(items[k].sku)), ModelOf(Lower(items[k].sku)), RangeOf(Lower(items[k].sku)))
    ensures var l := InvoiceLabels(customerName, customerAddress, items)[i];
      l.range == "Cloud" || l.range == "Aurora"
  {
    var describe := Describe(customerName, customerAddress);
    Labels.LabelOrigin(LabelItems(items), describe, i);
    var k :| 0 <= k < |items| && NeedsLabel(LabelItems(items)[k].sku) &&
      LabelsFor(LabelItems(items), describe)[i] == describe(LabelItems(items)[k]);
    assert LabelItems(items)[k] == LabelItemOf(items[k]);
  }
}
