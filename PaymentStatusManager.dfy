// src/components/PaymentStatusManager.tsx: the dialog that records a
// payment against a quote.  Its form state is the fields of a class; the
// status buttons and the submit handler are methods.  The POST is recorded
// as the list of payloads sent, and its response is a parameter.

module PaymentStatusManager {
  import opened Wrappers

  /** A value that JavaScript may hold as a number, as typed text, or as NaN. */
  datatype JsValue = Num(n: real) | Str(s: string) | NotANumber

  /** `parseFloat(v)`; the parsing of typed text is the parameter `parseFloat` (`None` for NaN). */
  function NumberValue(v: JsValue, parseFloat: string -> Option<real>): Option<real>
  {
    match v
    case Num(n) => Some(n)
    case Str(s) => parseFloat(s)
    case NotANumber => None
  }

  /** The fields of the quote the dialog reads; missing or empty values are `None`. */
  datatype PaymentQuote = PaymentQuote(
    total: Option<JsValue>,
    paidAmount: Option<JsValue>,
    paymentStatus: Option<string>,
    paymentNote: Option<string>)

  /** A JavaScript `||` default: missing values, empty text and zero fall through. */
  function ValueOr(v: Option<JsValue>, fallback: JsValue): JsValue
  {
    if v.Some? && v.value != Str("") && v.value != Num(0.0) then v.value else fallback
  }

  /** `parseFloat(v || 0)` as a number, or NaN. */
  function AmountOf(v: Option<JsValue>, parseFloat: string -> Option<real>): JsValue
  {
    var n := NumberValue(ValueOr(v, Num(0.0)), parseFloat);
    if n.Some? then Num(n.value) else NotANumber
  }

  /** `remaining = total - currentPaid`, NaN when either is. */
  function Remaining(quote: PaymentQuote, parseFloat: string -> Option<real>): Option<real>
  {
    var total := AmountOf(quote.total, parseFloat);
    var paid := AmountOf(quote.paidAmount, parseFloat);
    if total.Num? && paid.Num? then Some(total.n - paid.n) else None
  }

  /** What remains is the total less what was paid; with nothing paid it is the whole total. */
  lemma RemainingIsUnpaidPart(quote: PaymentQuote, parseFloat: string -> Option<real>)
    ensures Remaining(quote, parseFloat).Some? ==>
      Remaining(quote, parseFloat).value + AmountOf(quote.paidAmount, parseFloat).n == AmountOf(quote.total, parseFloat).n
    ensures quote.paidAmount.None? && AmountOf(quote.total, parseFloat).Num? ==>
      Remaining(quote, parseFloat) == Some(AmountOf(quote.total, parseFloat).n)
    ensures quote.total.None? && quote.paidAmount.None? ==> Remaining(quote, parseFloat) == Some(0.0)
  {
  }

  const PartialError := "Partial payment must be between $0 and the total amount"
  const UpdateFailed := "Failed to update payment status"

  /**
   * The partial-payment check: an amount at or below 0, or at or above the
   * total, is refused.  Comparisons with NaN are false, so a NaN amount or
   * total is not refused.
   */
  predicate PartialRefused(paid: Option<real>, total: JsValue)
  {
    paid.Some? && (paid.value <= 0.0 || (total.Num? && paid.value >= total.n))
  }

  lemma PartialWindow(paid: real, total: real)
    ensures !PartialRefused(Some(paid), Num(total)) <==> 0.0 < paid < total
  {
  }

  /** The body of the update request; `paymentMethod` is null unless the status is paid. */
  datatype Payload = Payload(paymentStatus: string, amountPaid: JsValue, paymentNote: string, paymentMethod: Option<string>)

  /** The amount sent: the total when paid, 0 when unpaid, and what was entered otherwise. */
  function PayloadAmount(status: string, total: JsValue, entered: JsValue): JsValue
  {
    if status == "paid" then total else if status == "unpaid" then Num(0.0) else entered
  }

  function MakePayload(status: string, total: JsValue, entered: JsValue, note: string, payMethod: string): (p: Payload)
    ensures p.paymentStatus == status && p.paymentNote == note
    ensures p.paymentMethod.Some? <==> status == "paid"
    ensures p.paymentMethod.Some? ==> p.paymentMethod.value == payMethod
  {
    Payload(status, PayloadAmount(status, total, entered), note, if status == "paid" then Some(payMethod) else None)
  }

  lemma PayloadAmountCases(status: string, total: JsValue, entered: JsValue)
    ensures status == "paid" ==> PayloadAmount(status, total, entered) == total
    ensures status == "unpaid" ==> PayloadAmount(status, total, entered) == Num(0.0)
    ensures status != "paid" && status != "unpaid" ==> PayloadAmount(status, total, entered) == entered
  {
  }

  /** The server's answer to the update: whether it was OK and the error it gave. */
  datatype Response = Response(ok: bool, error: Option<string>)

  class Dialog {
    const total: JsValue
    var paymentStatus: string
    var amountPaid: JsValue
    var paymentNote: string
    var paymentMethod: string
    var isSubmitting: bool
    var error: string
    /** Every update request sent, oldest first. */
    var requests: seq<Payload>
    /** Set once the dialog has reported the update and closed. */
    var closed: bool

    /** The dialog opens on the quote's own status, amount and note, or unpaid, 0, '' and in-store. */
    constructor(quote: PaymentQuote, parseFloat: string -> Option<real>)
      ensures total == AmountOf(quote.total, parseFloat)
      ensures paymentStatus == (if quote.paymentStatus.Some? && quote.paymentStatus.value != "" then quote.paymentStatus.value else "unpaid")
      ensures amountPaid == ValueOr(quote.paidAmount, Num(0.0))
      ensures paymentNote == (if quote.paymentNote.Some? then quote.paymentNote.value else "")
      ensures paymentMethod == "in-store" && !isSubmitting && error == "" && requests == [] && !closed
    {
      total := AmountOf(quote.total, parseFloat);
      paymentStatus := if quote.paymentStatus.Some? && quote.paymentStatus.value != "" then quote.paymentStatus.value else "unpaid";
      amountPaid := ValueOr(quote.paidAmount, Num(0.0));
      paymentNote := if quote.paymentNote.Some? then quote.paymentNote.value else "";
      paymentMethod := "in-store";
      isSubmitting := false;
      error := "";
      requests := [];
      closed := false;
    }

    /** The Unpaid button: status unpaid and amount 0. */
    method ChooseUnpaid()
      modifies this
      ensures paymentStatus == "unpaid" && amountPaid == Num(0.0)
      ensures paymentNote == old(paymentNote) && paymentMethod == old(paymentMethod) && requests == old(requests)
      ensures error == old(error) && isSubmitting == old(isSubmitting) && closed == old(closed)
    {
      paymentStatus := "unpaid";
      amountPaid := Num(0.0);
    }

    /** The Partial button: the status only; the amount stays as it was. */
    method ChoosePartial()
      modifies this
      ensures paymentStatus == "partial" && amountPaid == old(amountPaid)
      ensures paymentNote == old(paymentNote) && paymentMethod == old(paymentMethod) && requests == old(requests)
      ensures error == old(error) && isSubmitting == old(isSubmitting) && closed == old(closed)
    {
      paymentStatus := "partial";
    }

    /** The Paid button: status paid and the amount set to the total. */
    method ChoosePaid()
      modifies this
      ensures paymentStatus == "paid" && amountPaid == total
      ensures paymentNote == old(paymentNote) && paymentMethod == old(paymentMethod) && requests == old(requests)
      ensures error == old(error) && isSubmitting == old(isSubmitting) && closed == old(closed)
    {
      paymentStatus := "paid";
      amountPaid := total;
    }

    /** One of the method buttons shown for a paid status. */
    method ChooseMethod(m: string)
      modifies this
      ensures paymentMethod == m && paymentNote == old(paymentNote)
      ensures paymentStatus == old(paymentStatus) && amountPaid == old(amountPaid) && requests == old(requests)
      ensures error == old(error) && isSubmitting == old(isSubmitting) && closed == old(closed)
    {
      paymentMethod := m;
    }

    /** Typing in the amount field stores the text as typed. */
    method EnterAmount(typed: string)
      modifies this
      ensures amountPaid == Str(typed) && paymentNote == old(paymentNote)
      ensures paymentStatus == old(paymentStatus) && paymentMethod == old(paymentMethod) && requests == old(requests)
      ensures error == old(error) && isSubmitting == old(isSubmitting) && closed == old(closed)
    {
      amountPaid := Str(typed);
    }

    /** Typing in the note field stores the note as typed. */
    method EnterNote(typed: string)
      modifies this
      ensures paymentNote == typed && amountPaid == old(amountPaid)
      ensures paymentStatus == old(paymentStatus) && paymentMethod == old(paymentMethod) && requests == old(requests)
      ensures error == old(error) && isSubmitting == old(isSubmitting) && closed == old(closed)
    {
      paymentNote := typed;
    }

    /**
     * `handleSubmit`: a refused partial amount sets the error and sends
     * nothing; otherwise one payload is sent, and the dialog closes when the
     * answer is OK and shows the server's error (or a default) when not.
     */
    method Submit(parseFloat: string -> Option<real>, response: Response)
      modifies this
      ensures !isSubmitting
      ensures paymentStatus == old(paymentStatus) && amountPaid == old(amountPaid)
      ensures paymentNote == old(paymentNote) && paymentMethod == old(paymentMethod)
      ensures paymentStatus == "partial" && PartialRefused(NumberValue(amountPaid, parseFloat), total) ==>
        requests == old(requests) && error == PartialError && closed == old(closed)
      ensures !(paymentStatus == "partial" && PartialRefused(NumberValue(amountPaid, parseFloat), total)) ==>
        requests == old(requests) + [MakePayload(paymentStatus, total, amountPaid, paymentNote, paymentMethod)] &&
        (response.ok ==> closed && error == "") &&
        (!response.ok ==> (closed == old(closed) &&
          error == (if response.error.Some? && response.error.value != "" then response.error.value else UpdateFailed)))
    {
      error := "";
      isSubmitting := true;
      if paymentStatus == "partial" {
        var paid := NumberValue(amountPaid, parseFloat);
        if PartialRefused(paid, total) {
          error := PartialError;
          isSubmitting := false;
          return;
        }
      }
      requests := requests + [MakePayload(paymentStatus, total, amountPaid, paymentNote, paymentMethod)];
      if !response.ok {
        error := if response.error.Some? && response.error.value != "" then response.error.value else UpdateFailed;
      } else {
        closed := true;
      }
      isSubmitting := false;
    }
  }

  /** Marking a quote paid sends its total and the chosen method, whatever amount was shown before. */
  method MarkPaid(d: Dialog, m: string, parseFloat: string -> Option<real>, response: Response)
    modifies d
    ensures d.requests == old(d.requests) + [Payload("paid", d.total, old(d.paymentNote), Some(m))]
  {
    d.ChoosePaid();
    d.ChooseMethod(m);
    d.Submit(parseFloat, response);
  }
}
