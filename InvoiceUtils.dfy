// src/utils/invoice.ts: the synchronous invoice and quote numbers and the
// status colour classes.  The clock is a parameter.

module InvoiceUtils {
  import opened Text
  import InvoiceSequential

  /**
   * `generateInvoiceNumber()`: the period prefix, then "-T" and the last three
   * digits of the millisecond clock.
   */
  function TimestampInvoiceNumber(year: nat, month: nat, nowMs: nat): string
  {
    InvoiceSequential.PeriodPrefix(year, month) + "-T" + TakeLast(NatToString(nowMs), 3)
  }

  /** `generateQuoteNumber()`: "AUS-" and the whole millisecond clock. */
  function QuoteNumber(nowMs: nat): string
  {
    "AUS-" + NatToString(nowMs)
  }

  /** `getStatusColor(status)` */
  function StatusColor(status: string): string
  {
    match Lower(status)
    case "paid" => "bg-green-100 text-green-700"
    case "pending" => "bg-yellow-100 text-yellow-700"
    case "draft" => "bg-gray-100 text-gray-700"
    case "overdue" => "bg-red-100 text-red-700"
    case _ => "bg-purple-100 text-purple-700"
  }

  /** The timestamped number lies in its period and ends in at most three clock digits after "-T". */
  lemma TimestampNumberShape(year: nat, month: nat, nowMs: nat)
    ensures var prefix := InvoiceSequential.PeriodPrefix(year, month);
            var r := TimestampInvoiceNumber(year, month, nowMs);
            StartsWith(r, prefix + "-T") && |r| <= |prefix| + 5 && InvoiceSequential.InPeriod(r, prefix)
  {
    MarkedShape(InvoiceSequential.PeriodPrefix(year, month), TakeLast(NatToString(nowMs), 3));
  }

  lemma MarkedShape(prefix: string, tail: string)
    requires |tail| <= 3
    ensures var r := prefix + "-T" + tail;
            StartsWith(r, prefix + "-T") && StartsWith(r, prefix + "-") && |r| <= |prefix| + 5
  {
    var r := prefix + "-T" + tail;
    assert r[..|prefix| + 2] == prefix + "-T";
    assert r[..|prefix| + 1] == prefix + "-";
  }

  /**
   * The character after the period prefix is 'T', never the digit that
   * starts a sequential number, so the two forms never coincide.
   */
  lemma TimestampNeverSequential(year: nat, month: nat, nowMs: nat, n: nat)
    ensures TimestampInvoiceNumber(year, month, nowMs)
            != InvoiceSequential.WithSequence(InvoiceSequential.PeriodPrefix(year, month), n)
  {
    var prefix := InvoiceSequential.PeriodPrefix(year, month);
    var t := TimestampInvoiceNumber(year, month, nowMs);
    var d := PadStart(IntToString(n), 3, '0');
    NatToStringDigits(n);
    PadStartShape(NatToString(n), 3, '0');
    ZeroPadValue(NatToString(n), 3);
    assert |d| >= 1;
    assert t[|prefix| + 1] == 'T';
    assert InvoiceSequential.WithSequence(prefix, n)[|prefix| + 1] == d[0];
  }

  /** Distinct clock readings give distinct quote numbers. */
  lemma QuoteNumberInjective(a: nat, b: nat)
    requires a != b
    ensures QuoteNumber(a) != QuoteNumber(b)
  {
    NatToStringDigits(a);
    NatToStringDigits(b);
    assert QuoteNumber(a)[4..] == NatToString(a);
    assert QuoteNumber(b)[4..] == NatToString(b);
  }

  /** The colour does not depend on the case of the status. */
  lemma StatusColorIgnoresCase(status: string)
    ensures StatusColor(status) == StatusColor(Lower(status))
  {
    LowerIdempotent(status);
  }

  /** Every status other than the four known ones, in any case, is purple. */
  lemma StatusColorDefault(status: string)
    requires Lower(status) !in {"paid", "pending", "draft", "overdue"}
    ensures StatusColor(status) == "bg-purple-100 text-purple-700"
  {
  }
}
