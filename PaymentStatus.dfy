// src/utils/paymentStatus.ts: the single normalised payment status of an
// invoice and its display information.

module PaymentStatus {
  import opened Wrappers

  datatype Status = Pending | Paid | Partial | Failed

  /**
   * The fields of an invoice the helpers may see; `None` is a missing
   * property.  `paidAmountText` is `paid_amount` as a template literal
   * writes it, "" standing for any falsy amount.
   */
  datatype StatusFields = StatusFields(paymentStatus: Option<string>, status: Option<string>,
                                       paidAmountText: Option<string>)

  /** The wire name of a status. */
  function Name(s: Status): string
  {
    match s
    case Pending => "pending"
    case Paid => "paid"
    case Partial => "partial"
    case Failed => "failed"
  }

  /** `getPaymentStatus(invoice)`: a missing or empty `payment_status` reads 'pending'. */
  function GetPaymentStatus(inv: StatusFields): Status
  {
    var raw := if inv.paymentStatus.Some? && inv.paymentStatus.value != "" then inv.paymentStatus.value else "pending";
    if raw == "unpaid" || raw == "quote" || raw == "draft" then Pending
    else if raw == "paid" then Paid
    else if raw == "partial" then Partial
    else if raw == "failed" then Failed
    else Pending
  }

  predicate IsPaid(inv: StatusFields) { GetPaymentStatus(inv) == Paid }
  predicate IsPending(inv: StatusFields) { GetPaymentStatus(inv) == Pending }

  datatype StatusInfo = StatusInfo(status: Status, labelText: string, color: string, bgColor: string, icon: string)

  /** `getPaymentStatusDisplay(invoice)` */
  function GetPaymentStatusDisplay(inv: StatusFields): (info: StatusInfo)
    ensures info.status == GetPaymentStatus(inv)
    ensures info.status == Pending <==> info.labelText == "Unpaid"
  {
    match GetPaymentStatus(inv)
    case Paid => StatusInfo(Paid, "Paid", "text-green-800", "bg-green-100", "CheckCircle")
    case Partial =>
      var amount := if inv.paidAmountText.Some? && inv.paidAmountText.value != "" then inv.paidAmountText.value else "0";
      var text := "$" + amount + " paid";
      assert text[0] == '$';
      StatusInfo(Partial, text, "text-amber-800", "bg-amber-100", "DollarSign")
    case Failed => StatusInfo(Failed, "Failed", "text-red-800", "bg-red-100", "XCircle")
    case Pending => StatusInfo(Pending, "Unpaid", "text-red-800", "bg-red-100", "AlertCircle")
  }

  /** The name of every status reads back as that status. */
  lemma NameRoundTrip(s: Status, other: StatusFields)
    ensures GetPaymentStatus(other.(paymentStatus := Some(Name(s)))) == s
  {
  }

  /** Normalising a normalised status changes nothing. */
  lemma NormalisationIdempotent(inv: StatusFields)
    ensures GetPaymentStatus(inv.(paymentStatus := Some(Name(GetPaymentStatus(inv))))) == GetPaymentStatus(inv)
  {
    NameRoundTrip(GetPaymentStatus(inv), inv);
  }

  /** An absent or empty payment status, and the legacy names, are pending. */
  lemma MissingOrLegacyIsPending(inv: StatusFields)
    requires inv.paymentStatus.None? || inv.paymentStatus.value in {"", "unpaid", "quote", "draft"}
    ensures GetPaymentStatus(inv) == Pending
  {
  }

  /** Only `payment_status` decides: the legacy `status` field and the amount never matter. */
  lemma OnlyPaymentStatusCounts(a: StatusFields, b: StatusFields)
    requires a.paymentStatus == b.paymentStatus
    ensures GetPaymentStatus(a) == GetPaymentStatus(b)
  {
  }

  /** Paid and pending exclude each other. */
  lemma PaidExcludesPending(inv: StatusFields)
    ensures !(IsPaid(inv) && IsPending(inv))
  {
  }
}
