// src/components/invoice/InvoiceList.tsx: the "x minutes ago" column, the
// paid-only filter and the checkbox selection of the invoice list.  Date
// parsing and the locale date are parameters: `parseDate` gives the
// milliseconds since the epoch of a date string, or `None` for an invalid
// date.

module InvoiceList {
  import opened Wrappers
  import opened Text
  import PaymentStatus
  import Selection

  /** The string `new Date` is given: text without a 'Z' or a '+' is read as UTC by appending 'Z'. */
  function AsUtc(date: string): string
  {
    if !Contains(date, "Z") && !Contains(date, "+") then date + "Z" else date
  }

  /** `${n} unit` with an 's' unless n is exactly 1, then " ago". */
  function Ago(n: int, unit: string): string
  {
    IntToString(n) + " " + unit + (if n == 1 then "" else "s") + " ago"
  }

  /**
   * The label for a whole number of seconds elapsed: the future, "just
   * now", minutes, hours and days below a week, then the locale date.
   */
  function Bucket(diff: int, localeDate: string): string
  {
    if diff < 0 then "in the future"
    else if diff < 60 then "just now"
    else if diff < 3600 then Ago(diff / 60, "min")
    else if diff < 86400 then Ago(diff / 3600, "hour")
    else if diff < 604800 then Ago(diff / 86400, "day")
    else localeDate
  }

  /**
   * `getRelativeTime(date)` at the instant `now` (milliseconds): '' for an
   * empty or invalid date, otherwise the bucket of the whole seconds since
   * it (`Math.floor`, which is Dafny's division for a positive divisor).
   */
  function GetRelativeTime(date: string, now: int, parseDate: string -> Option<int>, localeDate: int -> string): string
  {
    if date == "" then ""
    else
      var then_ := parseDate(AsUtc(date));
      if then_.None? then "" else Bucket((now - then_.value) / 1000, localeDate(then_.value))
  }

  /** The empty and the invalid date give ''. */
  lemma NoDateNoLabel(date: string, now: int, parseDate: string -> Option<int>, localeDate: int -> string)
    ensures date == "" ==> GetRelativeTime(date, now, parseDate, localeDate) == ""
    ensures parseDate(AsUtc(date)).None? ==> GetRelativeTime(date, now, parseDate, localeDate) == ""
  {
  }

  /** A date with no zone designator is read as UTC; one with 'Z' or '+' as written. */
  lemma UtcByDefault(date: string)
    ensures !Contains(date, "Z") && !Contains(date, "+") ==> AsUtc(date) == date + "Z"
    ensures Contains(date, "Z") || Contains(date, "+") ==> AsUtc(date) == date
    ensures Contains(AsUtc(date), "Z") || Contains(AsUtc(date), "+")
  {
    if !Contains(date, "Z") && !Contains(date, "+") {
      ContainsAt(date + "Z", "Z", |date|);
    }
  }

  /**
   * Each bucket names the largest whole number of its unit that has
   * elapsed: for diff seconds shown as n units of u seconds,
   * n·u ≤ diff < (n+1)·u, and n is below the next unit.
   */
  lemma BucketCounts(diff: int, localeDate: string, u: int, unit: string)
    requires (u == 60 && unit == "min" && 60 <= diff < 3600) ||
             (u == 3600 && unit == "hour" && 3600 <= diff < 86400) ||
             (u == 86400 && unit == "day" && 86400 <= diff < 604800)
    ensures Bucket(diff, localeDate) == Ago(diff / u, unit)
    ensures diff / u * u <= diff < (diff / u + 1) * u
    ensures 1 <= diff / u && (u == 60 ==> diff / u < 60) && (u == 3600 ==> diff / u < 24) && (u == 86400 ==> diff / u < 7)
  {
  }

  /** Exactly one unit is written in the singular. */
  lemma SingularOnlyForOne(n: int, unit: string)
    ensures n == 1 ==> Ago(n, unit) == "1 " + unit + " ago"
    ensures n != 1 ==> Ago(n, unit) == IntToString(n) + " " + unit + "s ago"
  {
    if n == 1 {
      assert IntToString(1) == "1";
    }
  }

  /** A week or more shows the locale date, and the future is flagged. */
  lemma FarAndFuture(diff: int, localeDate: string)
    ensures diff >= 604800 ==> Bucket(diff, localeDate) == localeDate
    ensures diff < 0 ==> Bucket(diff, localeDate) == "in the future"
    ensures 0 <= diff < 60 ==> Bucket(diff, localeDate) == "just now"
  {
  }

  /** A listed invoice: its quote number and the fields its payment status is read from. */
  datatype ListedInvoice = ListedInvoice(quoteNumber: Option<string>, payment: PaymentStatus.StatusFields)

  /** `displayedInvoices`: with `filterPaid` only the paid invoices, in their order. */
  function DisplayedInvoices(invoices: seq<ListedInvoice>, filterPaid: bool): seq<ListedInvoice>
  {
    if filterPaid then PaidOnly(invoices) else invoices
  }

  function PaidOnly(invoices: seq<ListedInvoice>): (r: seq<ListedInvoice>)
    ensures |r| <= |invoices|
    decreases |invoices|
  {
    if |invoices| == 0 then []
    else (if PaymentStatus.IsPaid(invoices[0].payment) then [invoices[0]] else []) + PaidOnly(invoices[1..])
  }

  /** The filter keeps exactly the paid invoices. */
  lemma {:induction false} PaidOnlyMembers(invoices: seq<ListedInvoice>, inv: ListedInvoice)
    ensures inv in PaidOnly(invoices) <==> inv in invoices && PaymentStatus.IsPaid(inv.payment)
    decreases |invoices|
  {
    if |invoices| > 0 {
      PaidOnlyMembers(invoices[1..], inv);
      assert invoices == [invoices[0]] + invoices[1..];
    }
  }

  /** The filter keeps the list's order: filtering a concatenation concatenates the filtered parts. */
  lemma {:induction false} PaidOnlyAppend(a: seq<ListedInvoice>, b: seq<ListedInvoice>)
    ensures PaidOnly(a + b) == PaidOnly(a) + PaidOnly(b)
    decreases |a|
  {
    if |a| == 0 {
      assert a + b == b;
    } else {
      assert (a + b)[0] == a[0] && (a + b)[1..] == a[1..] + b;
      PaidOnlyAppend(a[1..], b);
      if PaymentStatus.IsPaid(a[0].payment) {
        assert PaidOnly(a + b) == [a[0]] + (PaidOnly(a[1..]) + PaidOnly(b));
      } else {
        assert PaidOnly(a + b) == PaidOnly(a[1..]) + PaidOnly(b);
      }
    }
  }

  /** Every displayed invoice is paid when the list is filtered, and nothing is dropped when it is not. */
  lemma DisplayedRule(invoices: seq<ListedInvoice>, filterPaid: bool)
    ensures !filterPaid ==> DisplayedInvoices(invoices, filterPaid) == invoices
    ensures filterPaid ==> forall inv :: inv in DisplayedInvoices(invoices, filterPaid) ==> PaymentStatus.IsPaid(inv.payment)
  {
    forall inv | inv in DisplayedInvoices(invoices, filterPaid) && filterPaid
      ensures PaymentStatus.IsPaid(inv.payment)
    {
      PaidOnlyMembers(invoices, inv);
    }
  }

  /** The numbers the header checkbox selects: each displayed quote number, '' for one without. */
  function ListedNumbers(invoices: seq<ListedInvoice>): (r: seq<string>)
    ensures |r| == |invoices|
    ensures forall k :: 0 <= k < |invoices| ==>
      r[k] == (if invoices[k].quoteNumber.Some? && invoices[k].quoteNumber.value != "" then invoices[k].quoteNumber.value else "")
    decreases |invoices|
  {
    if |invoices| == 0 then []
    else
      [if invoices[0].quoteNumber.Some? && invoices[0].quoteNumber.value != "" then invoices[0].quoteNumber.value else ""] +
      ListedNumbers(invoices[1..])
  }

  /** `toggleSelectAll` over the displayed invoices. */
  function ToggleSelectAll(selection: set<string>, invoices: seq<ListedInvoice>, filterPaid: bool): set<string>
  {
    Selection.ToggleAll(selection, ListedNumbers(DisplayedInvoices(invoices, filterPaid)))
  }

  /**
   * Two displayed invoices without a quote number both count as '', so
   * once all are selected the header checkbox selects them again instead
   * of clearing.
   */
  lemma TwoUnnumberedNeverClear(invoices: seq<ListedInvoice>, i: nat, j: nat)
    requires i < j < |invoices| && invoices[i].quoteNumber.None? && invoices[j].quoteNumber.None?
    ensures ToggleSelectAll(Selection.Elements(ListedNumbers(invoices)), invoices, false) ==
      Selection.Elements(ListedNumbers(invoices))
  {
    var numbers := ListedNumbers(invoices);
    assert numbers[i] == "" && numbers[j] == "";
    Selection.SharedNumberNeverClears(numbers, i, j);
  }
}
