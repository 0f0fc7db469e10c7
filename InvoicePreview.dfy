// src/components/InvoicePreview.tsx: the labels the preview prints (read
// from the product name rather than the SKU), the layer details shown under
// a mattress, the total and GST fallbacks, and which panels are shown.

module InvoicePreview {
  import opened Wrappers
  import opened Text
  import opened Labels
  import opened MattressLayers
  import opened Calculations
  import PaymentStatus
  import PdfGenerator
  import Products

  // ---------------------------------------------------------------------
  // Labels read from the product name

  /** `name.split(' - ')[0]`: the text before the first " - ", or the whole name. */
  function BeforeDash(name: string): string
  {
    match IndexOf(name, " - ")
    case None => name
    case Some(i) => if i <= |name| then name[..i] else name
  }

  /** The last element of `name.split(' - ')`. */
  function AfterLastDash(name: string): string
    decreases |name|
  {
    match IndexOf(name, " - ")
    case None => name
    case Some(i) => if i + 3 <= |name| then AfterLastDash(name[i + 3..]) else name
  }

  /** `parseInt(productInfo[1]) || 0`: a missing second word, NaN and 0 all give 0. */
  function SecondWordNumber(words: seq<string>): int
  {
    if |words| < 2 then 0
    else match ParseInt(words[1])
      case None => 0
      case Some(v) => v
  }

  /**
   * The preview's label as written: the range is the first word of the text
   * before the first " - ", the model the number in its second word, and the
   * size its LAST word.
   */
  function PreviewLabel(customerName: string, customerAddress: string, item: LabelItem): Label
  {
    var words := Split(BeforeDash(item.name), ' ');
    Label(item.name, customerName, customerAddress, words[|words| - 1], SecondWordNumber(words), words[0])
  }

  /** The preview's label as intended: the size is the last " - " field of the name. */
  function PreviewLabelIntended(customerName: string, customerAddress: string, item: LabelItem): Label
  {
    var words := Split(BeforeDash(item.name), ' ');
    Label(item.name, customerName, customerAddress, AfterLastDash(item.name), SecondWordNumber(words), words[0])
  }

  /** The labels the preview prints, with the intended size. */
  method GetLabelItems(customerName: string, customerAddress: string, items: seq<LabelItem>) returns (printed: seq<Label>)
    ensures printed == LabelsFor(items, item => PreviewLabelIntended(customerName, customerAddress, item))
  {
    printed := Labels.GetLabelItems(items, item => PreviewLabelIntended(customerName, customerAddress, item));
  }

  /** In a string without '-' there is no " - ". */
  lemma {:induction false} NoDash(s: string, sep: string)
    requires |sep| == 3 && sep[1] == '-'
    requires forall i :: 0 <= i < |s| ==> s[i] != '-'
    ensures IndexOf(s, sep).None?
    decreases |s|
  {
    if |s| > 0 {
      assert !StartsWith(s, sep) by {
        if |sep| <= |s| { assert s[..|sep|][1] == s[1]; }
      }
      NoDash(s[1..], sep);
    }
  }

  /** After a head without '-', the first " - " is the one that follows it. */
  lemma {:induction false} FirstDashAfter(head: string, sep: string, rest: string)
    requires |sep| == 3 && sep[0] == ' ' && sep[1] == '-'
    requires forall i :: 0 <= i < |head| ==> head[i] != '-'
    ensures IndexOf(head + sep + rest, sep) == Some(|head|)
    decreases |head|
  {
    var s := head + sep + rest;
    if |head| == 0 {
      assert s[..3] == sep;
    } else {
      assert !StartsWith(s, sep) by {
        if |head| >= 2 {
          assert s[..3][1] == head[1];
        } else {
          assert s[..3][1] == sep[0];
        }
      }
      assert s[1..] == head[1..] + sep + rest;
      FirstDashAfter(head[1..], sep, rest);
    }
  }

  /** The name of a catalogue product: range and model, then firmness, then size, joined by " - ". */
  lemma CatalogueName(range: string, m: Products.MattressModel, s: Products.SizePrice)
    ensures Products.MakeProduct(range, m, s).name == (range + " " + NatToString(m.model)) + " - " + (m.firmness + " - " + s.size)
  {
  }

  /** The two name fields the labels read, for a catalogue name. */
  lemma CatalogueNameFields(head: string, firmness: string, size: string, sep: string)
    requires sep == " - "
    requires forall i :: 0 <= i < |head| ==> head[i] != '-'
    requires forall i :: 0 <= i < |firmness| ==> firmness[i] != '-'
    requires forall i :: 0 <= i < |size| ==> size[i] != '-'
    ensures BeforeDash(head + sep + (firmness + sep + size)) == head
    ensures AfterLastDash(head + sep + (firmness + sep + size)) == size
  {
    var tail := firmness + sep + size;
    var name := head + sep + tail;
    FirstDashAfter(head, sep, tail);
    assert name[..|head|] == head;
    assert name[|head| + 3..] == tail;
    FirstDashAfter(firmness, sep, size);
    assert tail[|firmness| + 3..] == size;
    NoDash(size, sep);
    assert AfterLastDash(name) == AfterLastDash(tail);
    assert AfterLastDash(tail) == AfterLastDash(size);
  }

  /** The words of "<range> <digits>" when the range has no space. */
  lemma RangeAndDigits(range: string, model: nat)
    requires forall i :: 0 <= i < |range| ==> range[i] != ' '
    ensures Split(range + " " + NatToString(model), ' ') == [range, NatToString(model)]
    ensures ParseInt(NatToString(model)) == Some(model)
  {
    var d := NatToString(model);
    NatToStringDigits(model);
    SplitConcat(range, ' ', d);
    SplitWithout(range, ' ');
    SplitWithout(d, ' ');
    ParseDigits(d);
  }

  /**
   * The preview's labels as written carry the model number as their size:
   * for "Cloud 7 - medium - King" the text before the first " - " is
   * "Cloud 7", whose last word is "7".  The intended label reads "King".
   */
  lemma PreviewSizeIsModel(customerName: string, customerAddress: string, range: string,
                           m: Products.MattressModel, s: Products.SizePrice, quantity: int)
    requires |range| > 0
    requires forall i :: 0 <= i < |range| ==> range[i] != '-' && range[i] != ' '
    requires forall i :: 0 <= i < |m.firmness| ==> m.firmness[i] != '-'
    requires forall i :: 0 <= i < |s.size| ==> s.size[i] != '-'
    ensures var p := Products.MakeProduct(range, m, s);
      var item := LabelItem(p.sku, p.name, quantity);
      PreviewLabel(customerName, customerAddress, item).size == NatToString(m.model) &&
      PreviewLabel(customerName, customerAddress, item).model == m.model &&
      PreviewLabel(customerName, customerAddress, item).range == range &&
      PreviewLabelIntended(customerName, customerAddress, item).size == s.size
  {
    var head := range + " " + NatToString(m.model);
    NatToStringDigits(m.model);
    assert forall i :: 0 <= i < |head| ==> head[i] != '-' by {
      forall i | 0 <= i < |head| ensures head[i] != '-' {
        if i < |range| {
          assert head[i] == range[i];
        } else if i > |range| {
          assert head[i] == NatToString(m.model)[i - |range| - 1];
        }
      }
    }
    CatalogueName(range, m, s);
    CatalogueNameFields(head, m.firmness, s.size, " - ");
    RangeAndDigits(range, m.model);
  }

  /** Catalogue model numbers are letters-free digit strings, so the as-written size is never a size word. */
  lemma PreviewSizeWrongForKing(customerName: string, customerAddress: string, range: string,
                                m: Products.MattressModel, quantity: int)
    requires range == "Cloud" || range == "Aurora"
    requires forall i :: 0 <= i < |m.firmness| ==> m.firmness[i] != '-'
    ensures var p := Products.MakeProduct(range, m, Products.SizePrice("King", 0.0));
      PreviewLabel(customerName, customerAddress, LabelItem(p.sku, p.name, quantity)).size != "King"
  {
    PreviewSizeIsModel(customerName, customerAddress, range, m, Products.SizePrice("King", 0.0), quantity);
    NatToStringDigits(m.model);
    var d := NatToString(m.model);
    assert d[0] != 'K';
  }

  // ---------------------------------------------------------------------
  // Layer details

  /**
   * `getLayerData(item)`: the range named by the SKU or the name ("cloud"
   * before "aurora" before "cooper"), no data when neither names one, and
   * the firmness read as the first standalone number of the name, 0 when
   * there is none.
   */
  function LayerData(name: string, sku: string): Option<LayerRow>
  {
    var n := Lower(name);
    match PdfGenerator.PdfRange(Lower(sku), n)
    case None => None
    case Some(model) =>
      match FirstNumber(n)
      case Some(firmness) => FindRow(Layers, model, firmness)
      case None => FindRow(Layers, model, 0)
  }

  /** The preview finds the same layer data as the invoice PDF does for an item without a description. */
  lemma LayerDataAgreesWithPdf(name: string, sku: string)
    ensures LayerData(name, sku) == PdfGenerator.ExtractLayerInfo(PdfGenerator.PdfItem(name, "", sku))
  {
    assert PdfGenerator.ItemText(PdfGenerator.PdfItem(name, "", sku)) == Lower(name);
  }

  /** Data is found only for a range that the SKU or the name mentions, at the name's first number. */
  lemma LayerDataFound(name: string, sku: string)
    ensures LayerData(name, sku).Some? ==>
      (Contains(Lower(sku), LayerData(name, sku).value.model) || Contains(Lower(name), LayerData(name, sku).value.model)) &&
      FirstNumber(Lower(name)) == Some(LayerData(name, sku).value.firmness as int)
  {
    LayerDataAgreesWithPdf(name, sku);
    var item := PdfGenerator.PdfItem(name, "", sku);
    PdfGenerator.ExtractedRangeNamed(item);
    PdfGenerator.ExtractedFirmnessRead(item);
  }

  /** The layer line: layer5 down to layer2, the shown ones joined by ", ". */
  function LayerLine(row: LayerRow): string
  {
    Join(ShownOnly(UpperLayers(row)), ", ")
  }

  /** The line lists exactly the shown upper layers, in order from the top. */
  lemma LayerLineLists(row: LayerRow)
    ensures LayerLine(row) == Join(ShownUpper(row), ", ")
    ensures !Shown(row.layer5) && !Shown(row.layer4) && !Shown(row.layer3) && !Shown(row.layer2) ==> LayerLine(row) == ""
  {
    ShownUpperIsShownOnly(row);
  }

  // ---------------------------------------------------------------------
  // Totals and panels

  /** The amounts the preview shows: stored values win unless missing or 0. */
  datatype Amounts = Amounts(total: real, gst: real, exGst: real)

  function Or(v: Option<real>, fallback: real): real
  {
    if v.Some? && v.value != 0.0 then v.value else fallback
  }

  /** `invoice.total || Σ quantity·price`, then `gstAmount || total/11` and `exGstAmount || total − total/11`. */
  function ShownAmounts(total: Option<real>, gstAmount: Option<real>, exGstAmount: Option<real>, items: seq<LineItem>): Amounts
  {
    var t := Or(total, Subtotal(items));
    Amounts(t, Or(gstAmount, GstComponent(t)), Or(exGstAmount, ExGst(t)))
  }

  /** Without stored GST figures the two parts add up to the total, GST being one eleventh of it. */
  lemma AmountsAddUp(total: Option<real>, items: seq<LineItem>)
    ensures var a := ShownAmounts(total, None, None, items);
      a.gst * 11.0 == a.total && a.gst + a.exGst == a.total
    ensures (total.None? || total == Some(0.0)) ==> ShownAmounts(total, None, None, items).total == Subtotal(items)
    ensures total.Some? && total.value != 0.0 ==> ShownAmounts(total, None, None, items).total == total.value
  {
  }

  /** The payment-required panel: an unpaid invoice with a quote number. */
  predicate ShowPaymentPanel(payment: PaymentStatus.StatusFields, quoteNumber: Option<string>)
  {
    !PaymentStatus.IsPaid(payment) && quoteNumber.Some? && quoteNumber.value != ""
  }

  /** The ActiveCampaign panel: a paid invoice. */
  predicate ShowCampaignPanel(payment: PaymentStatus.StatusFields)
  {
    PaymentStatus.IsPaid(payment)
  }

  /** The two panels never show together, and an invoice with a quote number shows exactly one. */
  lemma PanelsExclusive(payment: PaymentStatus.StatusFields, quoteNumber: Option<string>)
    ensures !(ShowPaymentPanel(payment, quoteNumber) && ShowCampaignPanel(payment))
    ensures quoteNumber.Some? && quoteNumber.value != "" ==>
      (ShowPaymentPanel(payment, quoteNumber) <==> !ShowCampaignPanel(payment))
  {
  }
}
