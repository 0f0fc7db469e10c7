// The production labels printed for an invoice.  Both
// src/components/MattressInvoiceApp.tsx and src/components/InvoicePreview.tsx
// pick the items that need a label with the same SKU rule and push one label
// per unit in an inner `for` loop; they differ only in how a label's range,
// model and size are read, which is the parameter `describe` here.

module Labels {
  import opened Text

  /** The item fields the labels read. */
  datatype LabelItem = LabelItem(sku: string, name: string, quantity: int)

  /** One printed label. */
  datatype Label = Label(productName: string, customerName: string, customerAddress: string,
                         size: string, model: int, range: string)

  /** A Cloud or Aurora SKU that names a King or Queen size, compared in lower case. */
  predicate NeedsLabel(sku: string)
  {
    sku != "" && LabelRule(Lower(sku))
  }

  /** The rule on the lower-cased SKU. */
  predicate LabelRule(low: string)
  {
    (StartsWith(low, "cloud") || StartsWith(low, "aurora")) && (Contains(low, "king") || Contains(low, "queen"))
  }

  /** `hasLabelProducts`: `items.some(...)` with the rule above. */
  predicate HasLabelProducts(items: seq<LabelItem>)
    decreases |items|
  {
    |items| > 0 && (NeedsLabel(items[0].sku) || HasLabelProducts(items[1..]))
  }

  /** The invoice has label products exactly when one of its items needs a label. */
  lemma {:induction false} HasLabelProductsExactly(items: seq<LabelItem>)
    ensures HasLabelProducts(items) <==> exists k :: 0 <= k < |items| && NeedsLabel(items[k].sku)
    decreases |items|
  {
    if |items| > 0 {
      HasLabelProductsExactly(items[1..]);
      if NeedsLabel(items[0].sku) {
        assert NeedsLabel(items[0].sku);
      } else if exists k :: 0 <= k < |items| && NeedsLabel(items[k].sku) {
        var k :| 0 <= k < |items| && NeedsLabel(items[k].sku);
        assert items[1..][k - 1] == items[k];
      }
      if HasLabelProducts(items[1..]) {
        var k :| 0 <= k < |items[1..]| && NeedsLabel(items[1..][k].sku);
        assert items[k + 1] == items[1..][k];
      }
    }
  }

  /** `quantity` copies of a label; none for a quantity of 0 or less, as the `for` loop runs no round. */
  function Copies(one: Label, quantity: int): (r: seq<Label>)
    ensures |r| == MaxInt(quantity, 0)
    decreases MaxInt(quantity, 0)
  {
    if quantity <= 0 then [] else Copies(one, quantity - 1) + [one]
  }

  lemma {:induction false} CopiesAreTheLabel(one: Label, quantity: int)
    ensures forall i :: 0 <= i < |Copies(one, quantity)| ==> Copies(one, quantity)[i] == one
    decreases MaxInt(quantity, 0)
  {
    if quantity > 0 {
      CopiesAreTheLabel(one, quantity - 1);
    }
  }

  /** The inner loop: one label pushed per unit of the item. */
  method PushCopies(printed: seq<Label>, one: Label, quantity: int) returns (r: seq<Label>)
    ensures r == printed + Copies(one, quantity)
  {
    r := printed;
    var i := 0;
    while i < quantity
      invariant 0 <= i <= MaxInt(quantity, 0)
      invariant r == printed + Copies(one, i)
    {
      r := r + [one];
      i := i + 1;
    }
  }

  /** The labels of one item: its copies when it needs labels, none otherwise. */
  function ItemLabels(item: LabelItem, describe: LabelItem -> Label): seq<Label>
  {
    if NeedsLabel(item.sku) then Copies(describe(item), item.quantity) else []
  }

  /** `getLabelItems`: `filter` by the rule, then `flatMap` each item to its labels, in item order. */
  function LabelsFor(items: seq<LabelItem>, describe: LabelItem -> Label): seq<Label>
    decreases |items|
  {
    if |items| == 0 then []
    else LabelsFor(items[..|items| - 1], describe) + ItemLabels(items[|items| - 1], describe)
  }

  /** The filter and the flat map as one loop over the items, each pushing its copies. */
  method GetLabelItems(items: seq<LabelItem>, describe: LabelItem -> Label) returns (printed: seq<Label>)
    ensures printed == LabelsFor(items, describe)
  {
    printed := [];
    var k := 0;
    while k < |items|
      invariant 0 <= k <= |items|
      invariant printed == LabelsFor(items[..k], describe)
    {
      assert items[..k + 1][..k] == items[..k];
      if NeedsLabel(items[k].sku) {
        printed := PushCopies(printed, describe(items[k]), items[k].quantity);
      }
      k := k + 1;
    }
    assert items[..|items|] == items;
  }

  /** The labels of a list of items are those of its parts, in order. */
  lemma {:induction false} LabelsForConcat(a: seq<LabelItem>, b: seq<LabelItem>, describe: LabelItem -> Label)
    ensures LabelsFor(a + b, describe) == LabelsFor(a, describe) + LabelsFor(b, describe)
    decreases |b|
  {
    if |b| == 0 {
      assert a + b == a;
    } else {
      var b' := b[..|b| - 1];
      var tail := ItemLabels(b[|b| - 1], describe);
      assert (a + b)[..|a + b| - 1] == a + b';
      assert (a + b)[|a + b| - 1] == b[|b| - 1];
      assert LabelsFor(a + b, describe) == LabelsFor(a + b', describe) + tail;
      LabelsForConcat(a, b', describe);
      assert LabelsFor(b, describe) == LabelsFor(b', describe) + tail;
    }
  }

  /**
   * One item among others contributes exactly `quantity` copies of its
   * label, at its place, when it needs labels, and nothing otherwise.
   */
  lemma LabelsOfOneItem(before: seq<LabelItem>, item: LabelItem, after: seq<LabelItem>, describe: LabelItem -> Label)
    ensures LabelsFor(before + [item] + after, describe) ==
      LabelsFor(before, describe) + ItemLabels(item, describe) + LabelsFor(after, describe)
    ensures NeedsLabel(item.sku) ==> |ItemLabels(item, describe)| == MaxInt(item.quantity, 0)
    ensures NeedsLabel(item.sku) ==> forall i :: 0 <= i < |ItemLabels(item, describe)| ==> ItemLabels(item, describe)[i] == describe(item)
    ensures !NeedsLabel(item.sku) ==> ItemLabels(item, describe) == []
  {
    LabelsForConcat(before + [item], after, describe);
    LabelsForConcat(before, [item], describe);
    assert [item][..0] == [];
    CopiesAreTheLabel(describe(item), item.quantity);
  }

  /** Every label comes from an item that needs one, described by `describe`. */
  lemma {:induction false} LabelOrigin(items: seq<LabelItem>, describe: LabelItem -> Label, i: nat)
    requires i < |LabelsFor(items, describe)|
    ensures exists k :: 0 <= k < |items| && NeedsLabel(items[k].sku) && LabelsFor(items, describe)[i] == describe(items[k])
    decreases |items|
  {
    var init := items[..|items| - 1];
    var last := items[|items| - 1];
    if i < |LabelsFor(init, describe)| {
      LabelOrigin(init, describe, i);
      var k :| 0 <= k < |init| && NeedsLabel(init[k].sku) && LabelsFor(init, describe)[i] == describe(init[k]);
      assert items[k] == init[k];
    } else {
      CopiesAreTheLabel(describe(last), last.quantity);
      assert LabelsFor(items, describe)[i] == ItemLabels(last, describe)[i - |LabelsFor(init, describe)|];
      assert NeedsLabel(items[|items| - 1].sku);
    }
  }

  /** An invoice without label products prints no labels; any label printed means it has some. */
  lemma NoLabelProductsNoLabels(items: seq<LabelItem>, describe: LabelItem -> Label)
    ensures !HasLabelProducts(items) ==> LabelsFor(items, describe) == []
    ensures LabelsFor(items, describe) != [] ==> HasLabelProducts(items)
  {
    HasLabelProductsExactly(items);
    if LabelsFor(items, describe) != [] {
      LabelOrigin(items, describe, 0);
    }
  }
}
