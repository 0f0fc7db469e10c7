// src/services/invoiceService.ts: quote rows as the API returns them,
// mapped to the invoices the screens use, and the totals put on a new
// invoice before it is posted. The fetch calls themselves are not modelled.

module InvoiceService {
  import opened Wrappers
  import opened Calculations

  /**
   * A quote row in snake_case. A missing or empty text is `None` or "";
   * money fields hold what `parseFloat` made of them (`None` for NaN).
   */
  datatype QuoteRow = QuoteRow(
    id: int,
    quoteNumber: Option<string>,
    createdAt: Option<string>,
    customerName: Option<string>,
    customerEmail: Option<string>,
    customerPhone: Option<string>,
    customerAddress: Option<string>,
    deliveryAccess: Option<string>,
    status: Option<string>,
    paymentStatus: Option<string>,
    paymentMethod: Option<string>,
    paidAt: Option<string>,
    items: Option<seq<LineItem>>,
    notes: Option<string>,
    total: Option<real>,
    subtotal: Option<real>,
    gst: Option<real>)

  /** The screens' invoice, camelCase, with `quote_number` kept beside `invoiceNumber`. */
  datatype MappedInvoice = MappedInvoice(
    id: int,
    invoiceNumber: Option<string>,
    date: Option<string>,
    customerName: Option<string>,
    customerEmail: Option<string>,
    customerPhone: Option<string>,
    customerAddress: Option<string>,
    deliveryAccess: Option<string>,
    status: string,
    paymentStatus: Option<string>,
    paymentMethod: Option<string>,
    paidAt: Option<string>,
    items: seq<LineItem>,
    notes: string,
    taxRate: int,
    total: real,
    subtotal: real,
    gst: real,
    quoteNumber: Option<string>)

  /** `v || fallback` */
  function TextOr(v: Option<string>, fallback: string): string
  {
    if v.Some? && v.value != "" then v.value else fallback
  }

  /** `parseFloat(v) || 0`: NaN and zero both give 0. */
  function AmountOrZero(v: Option<real>): real
  {
    if v.Some? then v.value else 0.0
  }

  /** The record `mapQuotesToInvoices` builds from one row. */
  function MapQuote(q: QuoteRow): (r: MappedInvoice)
    ensures r.invoiceNumber == q.quoteNumber && r.quoteNumber == q.quoteNumber
    ensures r.status != "" && (q.status.Some? && q.status.value != "" ==> r.status == q.status.value)
    ensures r.taxRate == GstRate
    ensures (q.items.Some? ==> r.items == q.items.value) && (q.items.None? ==> r.items == [])
  {
    MappedInvoice(
      q.id, q.quoteNumber, q.createdAt, q.customerName, q.customerEmail, q.customerPhone,
      q.customerAddress, q.deliveryAccess, TextOr(q.status, "quote"), q.paymentStatus,
      q.paymentMethod, q.paidAt, if q.items.Some? then q.items.value else [],
      TextOr(q.notes, ""), GstRate, AmountOrZero(q.total), AmountOrZero(q.subtotal),
      AmountOrZero(q.gst), q.quoteNumber)
  }

  /** `mapQuotesToInvoices(quotes)` */
  function MapQuotesToInvoices(quotes: seq<QuoteRow>): (r: seq<MappedInvoice>)
    ensures |r| == |quotes|
    ensures forall k :: 0 <= k < |quotes| ==> r[k] == MapQuote(quotes[k])
  {
    seq(|quotes|, k requires 0 <= k < |quotes| => MapQuote(quotes[k]))
  }

  /**
   * Each invoice carries its row's number under both names, its row's
   * customer fields, and the defaults "quote", no items and no notes.
   */
  lemma MappedFields(quotes: seq<QuoteRow>, k: int)
    requires 0 <= k < |quotes|
    ensures var inv := MapQuotesToInvoices(quotes)[k];
      && inv.id == quotes[k].id
      && inv.invoiceNumber == quotes[k].quoteNumber && inv.quoteNumber == quotes[k].quoteNumber
      && inv.customerName == quotes[k].customerName && inv.customerEmail == quotes[k].customerEmail
      && inv.date == quotes[k].createdAt
      && inv.taxRate == 10
      && (quotes[k].status.None? ==> inv.status == "quote")
      && (quotes[k].items.None? ==> inv.items == [])
      && (quotes[k].notes.None? ==> inv.notes == "")
      && (quotes[k].total.None? ==> inv.total == 0.0)
  {
  }

  /** Mapping a concatenation maps each part: the order of the rows is kept. */
  lemma MapConcat(a: seq<QuoteRow>, b: seq<QuoteRow>)
    ensures MapQuotesToInvoices(a + b) == MapQuotesToInvoices(a) + MapQuotesToInvoices(b)
  {
  }

  /** An invoice being created, as the form posts it. */
  datatype NewInvoice = NewInvoice(invoiceNumber: string, items: seq<LineItem>)

  /** The number and totals `create` posts; `nextNumber` is what the allocator would return. */
  datatype CreatePayload = CreatePayload(invoiceNumber: string, subtotal: real, gst: real, total: real)

  function Create(invoice: NewInvoice, nextNumber: string): (p: CreatePayload)
    ensures invoice.invoiceNumber != "" ==> p.invoiceNumber == invoice.invoiceNumber
    ensures invoice.invoiceNumber == "" ==> p.invoiceNumber == nextNumber
  {
    var number := if invoice.invoiceNumber != "" then invoice.invoiceNumber else nextNumber;
    CreatePayload(number, Subtotal(invoice.items), GstComponent(Total(invoice.items)), Total(invoice.items))
  }

  /**
   * The posted totals agree with the items: subtotal and total are both
   * the sum of quantity × price, and the GST is the eleventh inside it.
   */
  lemma CreateTotals(invoice: NewInvoice, nextNumber: string)
    ensures var p := Create(invoice, nextNumber);
      p.subtotal == p.total && p.gst * 11.0 == p.total && p.total - p.gst == ExGst(p.total)
  {
  }

  /** One more item raises every posted amount by that item's share. */
  lemma CreateWithOneMore(number: string, items: seq<LineItem>, item: LineItem, nextNumber: string)
    ensures var before := Create(NewInvoice(number, items), nextNumber);
      var after := Create(NewInvoice(number, items + [item]), nextNumber);
      after.total == before.total + LineAmount(item) &&
      after.gst == before.gst + LineAmount(item) / 11.0
  {
    SubtotalAppend(items, item);
  }
}
