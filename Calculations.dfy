// src/utils/calculations.ts: GST arithmetic on GST-inclusive prices and the
// line-item subtotal.  Money is a real number of dollars.

module Calculations {
  /** A line item of a quote or invoice. */
  datatype LineItem = LineItem(id: int, sku: string, name: string, quantity: int, price: real)

  const GstRate := 10

  /**
   * `calculateGSTComponent(total)`: the GST inside a GST-inclusive price is
   * one eleventh of it (sections 9-70 and 9-75 of A New Tax System (Goods and
   * Services Tax) Act 1999, at a rate of 10%).
   */
  function GstComponent(total: real): (gst: real)
    ensures gst * 11.0 == total
  {
    total / 11.0
  }

  /** `calculateExGST(total)`: the price without its GST, ten elevenths of it. */
  function ExGst(total: real): (ex: real)
    ensures ex + GstComponent(total) == total
    ensures ex * 11.0 == total * 10.0
    ensures ex == GstComponent(total) * GstRate as real
  {
    total - GstComponent(total)
  }

  function LineAmount(item: LineItem): real { item.quantity as real * item.price }

  /** `calculateSubtotal(items)`: the left-to-right sum of quantity × price. */
  function Subtotal(items: seq<LineItem>): real
  {
    SumFrom(0.0, items)
  }

  /** The running sum of `reduce`, starting from `acc`. */
  function SumFrom(acc: real, items: seq<LineItem>): real
    decreases |items|
  {
    if |items| == 0 then acc else SumFrom(acc + LineAmount(items[0]), items[1..])
  }

  /** `calculateTotal(items)`: prices include GST, so the total is the subtotal. */
  function Total(items: seq<LineItem>): real
  {
    Subtotal(items)
  }

  /** The accumulator only shifts the sum. */
  lemma {:induction false} SumFromShift(acc: real, items: seq<LineItem>)
    ensures SumFrom(acc, items) == acc + SumFrom(0.0, items)
    decreases |items|
  {
    if |items| > 0 {
      SumFromShift(acc + LineAmount(items[0]), items[1..]);
      SumFromShift(LineAmount(items[0]), items[1..]);
    }
  }

  /** Appending an item raises the subtotal by exactly its amount. */
  lemma {:induction false} SubtotalAppend(items: seq<LineItem>, item: LineItem)
    ensures Subtotal(items + [item]) == Subtotal(items) + LineAmount(item)
    decreases |items|
  {
    if |items| == 0 {
      assert items + [item] == [item];
      assert [item][1..] == [];
      assert SumFrom(0.0, [item]) == SumFrom(0.0 + LineAmount(item), []);
    } else {
      assert (items + [item])[1..] == items[1..] + [item];
      SubtotalAppend(items[1..], item);
      SumFromShift(LineAmount(items[0]), items[1..] + [item]);
      SumFromShift(LineAmount(items[0]), items[1..]);
    }
  }

  /** The subtotal of two lists is the sum of their subtotals. */
  lemma {:induction false} SubtotalConcat(a: seq<LineItem>, b: seq<LineItem>)
    ensures Subtotal(a + b) == Subtotal(a) + Subtotal(b)
    decreases |a|
  {
    if |a| == 0 {
      assert a + b == b;
    } else {
      assert (a + b)[1..] == a[1..] + b;
      SubtotalConcat(a[1..], b);
      SumFromShift(LineAmount(a[0]), a[1..] + b);
      SumFromShift(LineAmount(a[0]), a[1..]);
    }
  }

  /** With no negative quantities or prices the subtotal is not negative. */
  lemma {:induction false} SubtotalNonNegative(items: seq<LineItem>)
    requires forall k :: 0 <= k < |items| ==> items[k].quantity >= 0 && items[k].price >= 0.0
    ensures Subtotal(items) >= 0.0
    decreases |items|
  {
    if |items| > 0 {
      SubtotalNonNegative(items[1..]);
      SumFromShift(LineAmount(items[0]), items[1..]);
    }
  }
}
