// src/components/CheckoutTemplate.tsx: the customer checkout page.  The
// step it opens on and the quote it shows are computed once from the quote
// it is given; the step and the customer details are then state changed by
// the page's handlers, modelled as the methods of a class.  Stripe, the
// router and `alert` are not modelled; `parseFloat` is a parameter.

module Checkout {
  import opened Wrappers
  import opened Text

  /** A quote as the page receives it; a missing or empty text is `None` or "". */
  datatype RawItem = RawItem(name: string, sku: string, price: Option<string>, quantity: Option<string>)

  datatype RawQuote = RawQuote(
    customer_name: Option<string>,
    customerName: Option<string>,
    customer_email: Option<string>,
    customerEmail: Option<string>,
    customer_phone: Option<string>,
    customerPhone: Option<string>,
    customer_address: Option<string>,
    customerAddress: Option<string>,
    subtotal: Option<string>,
    gst: Option<string>,
    total: Option<string>,
    items: Option<seq<RawItem>>)

  /** A JavaScript string is truthy when it is present and not empty. */
  predicate Filled(v: Option<string>) { v.Some? && v.value != "" }

  /** `a || b || ''` */
  function FirstFilled(a: Option<string>, b: Option<string>): string
  {
    if Filled(a) then a.value else if Filled(b) then b.value else ""
  }

  /** The three steps of the page. */
  const Review := 1
  const Details := 2
  const Payment := 3

  /**
   * The page opens on Payment when the quote already names a customer
   * (snake_case fields only, and not the placeholder "Pending") with an
   * email, and on Review otherwise.
   */
  function InitialStep(quote: Option<RawQuote>): int
  {
    if quote.Some? && Filled(quote.value.customer_name) && quote.value.customer_name.value != "Pending" &&
       Filled(quote.value.customer_email)
    then Payment
    else Review
  }

  lemma InitialStepCases(quote: Option<RawQuote>)
    ensures InitialStep(quote) == Review || InitialStep(quote) == Payment
    ensures InitialStep(quote) == Payment <==>
      (quote.Some? && Filled(quote.value.customer_name) && quote.value.customer_name != Some("Pending") &&
       Filled(quote.value.customer_email))
  {
  }

  /** The details form. */
  datatype CustomerDetails = CustomerDetails(name: string, email: string, phone: string, address: string)

  /** Each field from the snake_case column, then the camelCase one, then ''. */
  function InitialDetails(quote: Option<RawQuote>): CustomerDetails
  {
    match quote
    case None => CustomerDetails("", "", "", "")
    case Some(q) =>
      CustomerDetails(FirstFilled(q.customer_name, q.customerName), FirstFilled(q.customer_email, q.customerEmail),
        FirstFilled(q.customer_phone, q.customerPhone), FirstFilled(q.customer_address, q.customerAddress))
  }

  /**
   * Opening on Payment means the form already holds the quote's own name
   * and email; the converse fails for a quote whose name is only in
   * camelCase, which opens on Review with a filled form.
   */
  lemma PaymentStepHasDetails(quote: Option<RawQuote>)
    ensures InitialStep(quote) == Payment ==>
      InitialDetails(quote).name == quote.value.customer_name.value && InitialDetails(quote).name != "" &&
      InitialDetails(quote).email == quote.value.customer_email.value && InitialDetails(quote).email != ""
    ensures quote.Some? && !Filled(quote.value.customer_name) ==> InitialStep(quote) == Review
    ensures quote.Some? && !Filled(quote.value.customer_name) && Filled(quote.value.customerName) ==>
      InitialDetails(quote).name == quote.value.customerName.value
  {
  }

  /** A line item with its numbers read; `None` stands for NaN. */
  datatype Item = Item(name: string, sku: string, price: Option<real>, quantity: Option<int>)

  datatype ShownQuote = ShownQuote(subtotal: Option<real>, gst: Option<real>, total: Option<real>, items: seq<Item>)

  /** `parseFloat(v || 0)`: a missing amount is 0, a present one is whatever `parseFloat` reads. */
  function AmountOf(v: Option<string>, parseFloat: string -> Option<real>): Option<real>
  {
    if Filled(v) then parseFloat(v.value) else Some(0.0)
  }

  /** `parseInt(quantity || 1)` */
  function QuantityOf(v: Option<string>): Option<int>
  {
    if Filled(v) then ParseInt(v.value) else Some(1)
  }

  function NormaliseItem(item: RawItem, parseFloat: string -> Option<real>): Item
  {
    Item(item.name, item.sku, AmountOf(item.price, parseFloat), QuantityOf(item.quantity))
  }

  function NormaliseItems(items: seq<RawItem>, parseFloat: string -> Option<real>): (r: seq<Item>)
    ensures |r| == |items|
    ensures forall k :: 0 <= k < |items| ==> r[k] == NormaliseItem(items[k], parseFloat)
    decreases |items|
  {
    if |items| == 0 then [] else [NormaliseItem(items[0], parseFloat)] + NormaliseItems(items[1..], parseFloat)
  }

  /** The sample quote the page previews when it is given none. */
  const SampleItem := Item("Premium Mattress - King Size", "PM-KING-001", Some(2999.00), Some(1))
  const SampleQuote := ShownQuote(Some(2726.36), Some(272.64), Some(2999.00), [SampleItem])

  /** The quote the page shows: amounts read with defaults of 0, items with quantity 1 by default. */
  function ShownQuoteOf(quote: Option<RawQuote>, parseFloat: string -> Option<real>): ShownQuote
  {
    match quote
    case None => SampleQuote
    case Some(q) =>
      ShownQuote(AmountOf(q.subtotal, parseFloat), AmountOf(q.gst, parseFloat), AmountOf(q.total, parseFloat),
        if q.items.Some? then NormaliseItems(q.items.value, parseFloat) else [])
  }

  /** Missing amounts show as 0 and missing quantities as 1; the items keep their order and count. */
  lemma ShownQuoteDefaults(q: RawQuote, parseFloat: string -> Option<real>)
    ensures !Filled(q.total) ==> ShownQuoteOf(Some(q), parseFloat).total == Some(0.0)
    ensures !Filled(q.subtotal) ==> ShownQuoteOf(Some(q), parseFloat).subtotal == Some(0.0)
    ensures !Filled(q.gst) ==> ShownQuoteOf(Some(q), parseFloat).gst == Some(0.0)
    ensures q.items.None? ==> ShownQuoteOf(Some(q), parseFloat).items == []
    ensures q.items.Some? ==> |ShownQuoteOf(Some(q), parseFloat).items| == |q.items.value|
    ensures q.items.Some? ==> forall k :: 0 <= k < |q.items.value| && !Filled(q.items.value[k].quantity) ==>
      ShownQuoteOf(Some(q), parseFloat).items[k].quantity == Some(1)
  {
  }

  /** A quantity written as digits is read as that number. */
  lemma QuantityRead(v: string, n: nat)
    requires v == NatToString(n)
    ensures QuantityOf(Some(v)) == Some(n)
  {
    NatToStringLength(n);
    assert PadStart(v, 0, '0') == v;
    ParsePadded(n, 0);
  }

  /** The sample quote's figures: the GST is a tenth of the subtotal rounded to cents, and they add up to the total. */
  lemma SampleQuoteAddsUp()
    ensures SampleQuote.subtotal.value + SampleQuote.gst.value == SampleQuote.total.value
    ensures SampleItem.quantity.value as real * SampleItem.price.value == SampleQuote.total.value
    ensures 272.63 < SampleQuote.total.value / 11.0 < 272.64
  {
  }

  /** What the page's update callback does with the details, when the page has one. */
  datatype UpdateOutcome = NoCallback | Saved | Throws

  /** The buttons that change the step without submitting. */
  datatype NavButton = ContinueToDetails | BackToReview | CancelPayment | BackToDetails

  /** The step a button is shown on. */
  function ShownOn(b: NavButton): int
  {
    match b
    case ContinueToDetails => Review
    case BackToReview => Details
    case CancelPayment => Payment
    case BackToDetails => Payment
  }

  /** The step a button leads to. */
  function Target(b: NavButton): int
  {
    match b
    case ContinueToDetails => Details
    case BackToReview => Review
    case CancelPayment => Details
    case BackToDetails => Details
  }

  /** No button skips a step: Review and Details lead to each other, Payment leads back to Details, and only a submit reaches Payment. */
  lemma NavigationIsAdjacent(b: NavButton)
    ensures Target(b) != Payment
    ensures ShownOn(b) - Target(b) == 1 || Target(b) - ShownOn(b) == 1
    ensures ShownOn(b) == Payment ==> Target(b) == Details
  {
  }

  class CheckoutPage {
    var currentStep: int
    var customerDetails: CustomerDetails
    var isProcessing: bool
    /** The details handed to the update callback, oldest first. */
    var updates: seq<CustomerDetails>

    predicate Valid()
      reads this
    {
      Review <= currentStep <= Payment && !isProcessing
    }

    constructor(quote: Option<RawQuote>)
      ensures currentStep == InitialStep(quote) && customerDetails == InitialDetails(quote)
      ensures updates == [] && Valid()
    {
      currentStep := InitialStep(quote);
      customerDetails := InitialDetails(quote);
      isProcessing := false;
      updates := [];
    }

    /** Typing into the details form replaces the details. */
    method EditDetails(details: CustomerDetails)
      modifies this
      ensures customerDetails == details
      ensures currentStep == old(currentStep) && isProcessing == old(isProcessing) && updates == old(updates)
    {
      customerDetails := details;
    }

    /** A button that changes the step; it is only on screen at its own step. */
    method Navigate(b: NavButton)
      requires Valid() && currentStep == ShownOn(b)
      modifies this
      ensures currentStep == Target(b) && Valid()
      ensures customerDetails == old(customerDetails) && updates == old(updates)
    {
      currentStep := Target(b);
    }

    /**
     * `handleCustomerDetailsSubmit`: without a name or an email nothing
     * happens; otherwise the details go to the callback, if there is one,
     * and the page moves to Payment unless the callback throws.
     */
    method SubmitDetails(outcome: UpdateOutcome)
      requires Valid()
      modifies this
      ensures Valid() && customerDetails == old(customerDetails)
      ensures customerDetails.name == "" || customerDetails.email == "" ==>
        currentStep == old(currentStep) && updates == old(updates)
      ensures customerDetails.name != "" && customerDetails.email != "" ==>
        updates == old(updates) + (if outcome == NoCallback then [] else [customerDetails]) &&
        currentStep == (if outcome == Throws then old(currentStep) else Payment)
    {
      if customerDetails.name == "" || customerDetails.email == "" {
        return;
      }
      isProcessing := true;
      if outcome != NoCallback {
        updates := updates + [customerDetails];
      }
      if outcome != Throws {
        currentStep := Payment;
      }
      isProcessing := false;
    }
  }

  /** From the Review step, a customer who fills the form and submits successfully reaches Payment. */
  method ReviewToPayment(page: CheckoutPage, details: CustomerDetails)
    requires page.Valid() && page.currentStep == Review
    requires details.name != "" && details.email != ""
    modifies page
    ensures page.currentStep == Payment && page.updates == old(page.updates) + [details]
  {
    page.Navigate(ContinueToDetails);
    page.EditDetails(details);
    page.SubmitDetails(Saved);
  }
}
