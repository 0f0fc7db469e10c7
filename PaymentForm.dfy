// src/components/PaymentForm.tsx: the amount charged for an invoice, the
// request that creates the payment intent, and how the page reads the
// answer.  Stripe's own calls are not modelled: their outcomes are
// parameters.

module PaymentForm {
  import opened Wrappers
  import opened Text
  import opened Calculations
  import DeliveryAccessModal

  /** The invoice fields the form reads; missing or empty texts are `None` or "". */
  datatype PaymentInvoice = PaymentInvoice(
    customerName: Option<string>,
    customerEmail: Option<string>,
    customerPhone: Option<string>,
    customerAddress: Option<string>,
    deliveryAccess: Option<string>,
    total: Option<real>,
    items: seq<LineItem>)

  predicate Filled(v: Option<string>) { v.Some? && v.value != "" }

  function TextOr(v: Option<string>, fallback: string): string
  {
    if Filled(v) then v.value else fallback
  }

  const StairsNoHelp := "Stairs no help"

  /** The $50 surcharge for stairs without help; nothing for any other access. */
  function ExtraDeliveryFee(access: Option<string>): real
  {
    if access == Some(StairsNoHelp) then 50.0 else 0.0
  }

  /**
   * The total shown and charged: the invoice total, or the items' sum of
   * quantity × price when the total is missing or 0, plus the surcharge.
   */
  function PaymentTotal(invoice: PaymentInvoice): real
  {
    var base := if invoice.total.Some? && invoice.total.value != 0.0 then invoice.total.value else Subtotal(invoice.items);
    base + ExtraDeliveryFee(invoice.deliveryAccess)
  }

  lemma SurchargeExactly(invoice: PaymentInvoice)
    ensures ExtraDeliveryFee(invoice.deliveryAccess) == 50.0 <==> invoice.deliveryAccess == Some(StairsNoHelp)
    ensures ExtraDeliveryFee(invoice.deliveryAccess) == 0.0 <==> invoice.deliveryAccess != Some(StairsNoHelp)
  {
  }

  /** Without a total, the charge follows the items: one more item adds exactly its amount. */
  lemma TotalFollowsItems(invoice: PaymentInvoice, item: LineItem)
    requires invoice.total.None? || invoice.total == Some(0.0)
    ensures PaymentTotal(invoice) == Subtotal(invoice.items) + ExtraDeliveryFee(invoice.deliveryAccess)
    ensures PaymentTotal(invoice.(items := invoice.items + [item])) == PaymentTotal(invoice) + LineAmount(item)
  {
    SubtotalAppend(invoice.items, item);
  }

  /** A total on the invoice wins over the items, whatever they add up to. */
  lemma TotalWins(invoice: PaymentInvoice, items: seq<LineItem>)
    requires invoice.total.Some? && invoice.total.value != 0.0
    ensures PaymentTotal(invoice) == invoice.total.value + ExtraDeliveryFee(invoice.deliveryAccess)
    ensures PaymentTotal(invoice.(items := items)) == PaymentTotal(invoice)
  {
  }

  /**
   * The questionnaire as written never hands over "Stairs no help" (its help
   * answer is read before the click), so an access chosen through it never
   * carries the surcharge.
   */
  lemma QuestionnaireNeverSurcharges(a: DeliveryAccessModal.Answers, invoice: PaymentInvoice)
    requires a.canHelp.None?
    requires invoice.deliveryAccess == Some(DeliveryAccessModal.Decision(a))
    ensures ExtraDeliveryFee(invoice.deliveryAccess) == 0.0
  {
    DeliveryAccessModal.StaleHelpAnswer(a);
  }

  /** The intended questionnaire does: stairs with help refused cost $50 more. */
  lemma IntendedQuestionnaireSurcharges(a: DeliveryAccessModal.Answers, invoice: PaymentInvoice)
    requires DeliveryAccessModal.Truthy(a.hasStairs)
    requires invoice.deliveryAccess == Some(DeliveryAccessModal.Decision(DeliveryAccessModal.RefuseHelp(a)))
    ensures ExtraDeliveryFee(invoice.deliveryAccess) == 50.0
  {
    DeliveryAccessModal.NoHelpExactly(DeliveryAccessModal.RefuseHelp(a));
  }

  datatype PaymentItem = PaymentItem(sku: string, name: string, quantity: int, price: real)
  datatype Customer = Customer(name: string, email: string, phone: string)
  datatype Delivery = Delivery(address: string, city: string, state: string, postcode: string, notes: string)

  /** The body posted to create the payment intent. */
  datatype PaymentData = PaymentData(
    amount: real,
    currency: string,
    items: seq<PaymentItem>,
    customer: Customer,
    delivery: Delivery,
    source: string)

  function PaymentItems(items: seq<LineItem>): (r: seq<PaymentItem>)
    ensures |r| == |items|
    ensures forall k :: 0 <= k < |items| ==>
      r[k] == PaymentItem(items[k].sku, items[k].name, items[k].quantity, items[k].price)
    decreases |items|
  {
    if |items| == 0 then []
    else [PaymentItem(items[0].sku, items[0].name, items[0].quantity, items[0].price)] + PaymentItems(items[1..])
  }

  /** The delivery address sent: the first line of the customer's address, or ''. */
  function FirstLine(address: Option<string>): string
  {
    if Filled(address) then Split(address.value, '\n')[0] else ""
  }

  /** The first line holds no line break, and an address on one line is sent whole. */
  lemma FirstLineShape(address: Option<string>)
    ensures forall i :: 0 <= i < |FirstLine(address)| ==> FirstLine(address)[i] != '\n'
    ensures Filled(address) && (forall i :: 0 <= i < |address.value| ==> address.value[i] != '\n') ==>
      FirstLine(address) == address.value
    ensures Filled(address) ==> StartsWith(address.value, FirstLine(address))
  {
    if Filled(address) {
      SplitPiecesFree(address.value, '\n');
      JoinSplit(address.value, '\n');
      var parts := Split(address.value, '\n');
      if |parts| > 1 {
        assert Join(parts, "\n") == parts[0] + "\n" + Join(parts[1..], "\n");
        assert address.value == parts[0] + ("\n" + Join(parts[1..], "\n"));
      }
      if forall i :: 0 <= i < |address.value| ==> address.value[i] != '\n' {
        SplitWithout(address.value, '\n');
      }
    }
  }

  /** The payment data for an invoice that names its customer. */
  function MakePaymentData(invoice: PaymentInvoice): PaymentData
  {
    PaymentData(
      PaymentTotal(invoice), "aud", PaymentItems(invoice.items),
      Customer(TextOr(invoice.customerName, ""), TextOr(invoice.customerEmail, ""), TextOr(invoice.customerPhone, "")),
      Delivery(FirstLine(invoice.customerAddress), "Sydney", "NSW", "2000", TextOr(invoice.deliveryAccess, "")),
      "invoice-app")
  }

  /** The customer fields that are missing, name before email. */
  function MissingFields(invoice: PaymentInvoice): (r: seq<string>)
    ensures |r| <= 2
  {
    (if Filled(invoice.customerName) then [] else ["Customer Name"]) +
    (if Filled(invoice.customerEmail) then [] else ["Customer Email"])
  }

  const MissingPrefix := "Missing customer information: "
  const MissingSuffix := ". Please go back and add this information to the invoice."
  const ServerError := "Payment server error - please check console for details"
  const InitFailed := "Failed to initialize payment"

  /** What the payment server answered: its JSON error, whether the status was OK, and the client secret. */
  datatype ServerReply = ServerReply(error: Option<string>, ok: bool, clientSecret: string)

  /** What became of the request: it failed before an answer (`None`), or was answered. */
  datatype IntentOutcome = IntentOutcome(request: Option<PaymentData>, error: string, clientSecret: Option<string>)

  /** How an answer is read: the server's error first, then a non-OK status, then the client secret. */
  function ReadReply(reply: ServerReply): (string, Option<string>)
  {
    if Filled(reply.error) then (reply.error.value, None)
    else if !reply.ok then (ServerError, None)
    else ("", Some(reply.clientSecret))
  }

  /**
   * `createPaymentIntent`: an invoice without a name or an email sets the
   * missing-fields message and sends nothing; otherwise the payment data is
   * posted and the answer read (`None` when the call itself failed).
   */
  method CreatePaymentIntent(invoice: PaymentInvoice, reply: Option<ServerReply>) returns (outcome: IntentOutcome)
    ensures |MissingFields(invoice)| > 0 <==> outcome.request.None?
    ensures outcome.request.None? ==>
      outcome.error == MissingPrefix + Join(MissingFields(invoice), ", ") + MissingSuffix && outcome.clientSecret.None?
    ensures outcome.request.Some? ==> outcome.request.value == MakePaymentData(invoice)
    ensures outcome.request.Some? && reply.None? ==> outcome.error == InitFailed && outcome.clientSecret.None?
    ensures outcome.request.Some? && reply.Some? ==> (outcome.error, outcome.clientSecret) == ReadReply(reply.value)
    ensures outcome.clientSecret.Some? ==> outcome.error == ""
  {
    if !Filled(invoice.customerName) || !Filled(invoice.customerEmail) {
      var missingFields: seq<string> := [];
      if !Filled(invoice.customerName) {
        missingFields := missingFields + ["Customer Name"];
      }
      if !Filled(invoice.customerEmail) {
        missingFields := missingFields + ["Customer Email"];
      }
      return IntentOutcome(None, MissingPrefix + Join(missingFields, ", ") + MissingSuffix, None);
    }
    var paymentData := MakePaymentData(invoice);
    if reply.None? {
      return IntentOutcome(Some(paymentData), InitFailed, None);
    }
    var data := reply.value;
    if Filled(data.error) {
      outcome := IntentOutcome(Some(paymentData), data.error.value, None);
    } else if !data.ok {
      outcome := IntentOutcome(Some(paymentData), ServerError, None);
    } else {
      outcome := IntentOutcome(Some(paymentData), "", Some(data.clientSecret));
    }
  }

  /** The request always charges the total the form displays, in Australian dollars, to a Sydney address. */
  lemma RequestChargesDisplayedTotal(invoice: PaymentInvoice)
    ensures MakePaymentData(invoice).amount == PaymentTotal(invoice)
    ensures MakePaymentData(invoice).currency == "aud"
    ensures MakePaymentData(invoice).delivery.city == "Sydney" && MakePaymentData(invoice).delivery.postcode == "2000"
    ensures |MakePaymentData(invoice).items| == |invoice.items|
  {
  }

  /** The missing fields are exactly the empty ones, name first. */
  lemma MissingFieldsExactly(invoice: PaymentInvoice)
    ensures "Customer Name" in MissingFields(invoice) <==> !Filled(invoice.customerName)
    ensures "Customer Email" in MissingFields(invoice) <==> !Filled(invoice.customerEmail)
    ensures |MissingFields(invoice)| == 2 ==> MissingFields(invoice) == ["Customer Name", "Customer Email"]
  {
  }

  /** The Pay button's outcome: Stripe's error message (or a default), or success. */
  function ConfirmMessage(error: Option<Option<string>>): (r: Option<string>)
    ensures error.None? <==> r.None?
  {
    match error
    case None => None
    case Some(message) => Some(TextOr(message, "An unexpected error occurred."))
  }
}
