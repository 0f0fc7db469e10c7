// The file-backed invoice store of lib/json-storage.ts: an array of invoice
// records that the operations read, change in place and write back.  The
// file itself is not modelled; the array is the `invoices` field of a class.

module JsonStorage {
  import opened Wrappers
  import opened Text
  import InvoiceSequential

  /** A moment in milliseconds since the epoch (`toISOString` and `getTime` convert losslessly). */
  type Instant = nat

  /** One stored record; optional properties of the record are `Option`s. */
  datatype Invoice = Invoice(
    id: int,
    quoteNumber: string,
    customerName: string,
    customerEmail: string,
    customerPhone: Option<string>,
    customerAddress: Option<string>,
    items: seq<string>,          // each item as its JSON text
    subtotal: real,
    gst: real,
    total: real,
    status: string,
    paymentStatus: string,
    paymentIntentId: Option<string>,
    deliveryAccess: Option<string>,
    notes: Option<string>,
    createdAt: Instant,
    updatedAt: Instant,
    expiresAt: Option<Instant>,
    deletedAt: Option<Instant>)

  /** A `Partial<Invoice>`: `None` is a property the update does not carry. */
  datatype Patch = Patch(
    id: Option<int>,
    quoteNumber: Option<string>,
    customerName: Option<string>,
    customerEmail: Option<string>,
    customerPhone: Option<string>,
    customerAddress: Option<string>,
    items: Option<seq<string>>,
    subtotal: Option<real>,
    gst: Option<real>,
    total: Option<real>,
    status: Option<string>,
    paymentStatus: Option<string>,
    paymentIntentId: Option<string>,
    deliveryAccess: Option<string>,
    notes: Option<string>,
    createdAt: Option<Instant>,
    expiresAt: Option<Instant>,
    deletedAt: Option<Instant>)

  const EmptyPatch := Patch(None, None, None, None, None, None, None, None, None, None,
                            None, None, None, None, None, None, None, None)

  const DefaultLimit := 50
  const DefaultOffset := 0

  predicate IsActive(inv: Invoice) { inv.deletedAt.None? }

  // ---------------------------------------------------------------------
  // generateInvoiceNumber

  /**
   * The parseable third `-` fields of the numbers of the period, soft-deleted
   * records included, in store order.
   */
  function ExistingNumbers(invoices: seq<Invoice>, prefix: string): seq<int>
    decreases |invoices|
  {
    if |invoices| == 0 then []
    else
      var q := invoices[0].quoteNumber;
      var rest := ExistingNumbers(invoices[1..], prefix);
      if InvoiceSequential.InPeriod(q, prefix) && InvoiceSequential.SequenceOf(q).Some?
      then [InvoiceSequential.SequenceOf(q).value] + rest
      else rest
  }

  /** `Math.max(...xs)` of a non-empty list: an element, and no element exceeds it. */
  function SeqMax(xs: seq<int>): (m: int)
    requires |xs| > 0
    ensures m in xs
    ensures forall k :: 0 <= k < |xs| ==> xs[k] <= m
  {
    if |xs| == 1 then xs[0] else MaxInt(xs[0], SeqMax(xs[1..]))
  }

  function NextNumber(xs: seq<int>): int
  {
    if |xs| > 0 then SeqMax(xs) + 1 else 1
  }

  /** `generateInvoiceNumber()` for the month `year`/`month` of the clock. */
  function GenerateInvoiceNumber(invoices: seq<Invoice>, year: nat, month: nat): string
  {
    var prefix := InvoiceSequential.PeriodPrefix(year, month);
    InvoiceSequential.WithSequence(prefix, NextNumber(ExistingNumbers(invoices, prefix)))
  }

  /** The third field of a quote number never holds a minus sign, so it never reads negative. */
  lemma SequenceNonNegative(q: string)
    ensures InvoiceSequential.SequenceOf(q).Some? ==> InvoiceSequential.SequenceOf(q).value >= 0
  {
    var parts := Split(q, '-');
    if |parts| >= 3 {
      SplitPiecesFree(q, '-');
      ParseIntUnsigned(parts[2]);
    }
  }

  /** Exactly the parseable period numbers contribute, and none of them is negative. */
  lemma {:induction false} ExistingNumbersSpec(invoices: seq<Invoice>, prefix: string)
    ensures forall i :: 0 <= i < |invoices| && InvoiceSequential.InPeriod(invoices[i].quoteNumber, prefix)
                        && InvoiceSequential.SequenceOf(invoices[i].quoteNumber).Some? ==>
              InvoiceSequential.SequenceOf(invoices[i].quoteNumber).value in ExistingNumbers(invoices, prefix)
    ensures forall k :: 0 <= k < |ExistingNumbers(invoices, prefix)| ==> ExistingNumbers(invoices, prefix)[k] >= 0
    decreases |invoices|
  {
    if |invoices| > 0 {
      ExistingNumbersSpec(invoices[1..], prefix);
      SequenceNonNegative(invoices[0].quoteNumber);
      forall i | 1 <= i < |invoices|
        ensures invoices[i] == invoices[1..][i - 1]
      {
      }
    }
  }

  /**
   * The generated sequence is one more than the greatest parseable sequence
   * of the period (1 when there is none), so it exceeds every one of them.
   */
  lemma GeneratedSequenceExceeds(invoices: seq<Invoice>, year: nat, month: nat)
    ensures var prefix := InvoiceSequential.PeriodPrefix(year, month);
            var n := InvoiceSequential.SequenceOf(GenerateInvoiceNumber(invoices, year, month));
            n.Some? && n.value >= 1 &&
            forall i :: 0 <= i < |invoices| && InvoiceSequential.InPeriod(invoices[i].quoteNumber, prefix)
                        && InvoiceSequential.SequenceOf(invoices[i].quoteNumber).Some? ==>
              InvoiceSequential.SequenceOf(invoices[i].quoteNumber).value < n.value
  {
    var prefix := InvoiceSequential.PeriodPrefix(year, month);
    var xs := ExistingNumbers(invoices, prefix);
    ExistingNumbersSpec(invoices, prefix);
    var n := NextNumber(xs);
    assert n >= 1 by {
      if |xs| > 0 { assert xs[0] >= 0; }
    }
    InvoiceSequential.SequenceOfNumber(year, month, n);
    forall i | 0 <= i < |invoices| && InvoiceSequential.InPeriod(invoices[i].quoteNumber, prefix)
               && InvoiceSequential.SequenceOf(invoices[i].quoteNumber).Some?
      ensures InvoiceSequential.SequenceOf(invoices[i].quoteNumber).value < n
    {
      var v := InvoiceSequential.SequenceOf(invoices[i].quoteNumber).value;
      var k :| 0 <= k < |xs| && xs[k] == v;
    }
  }

  /** The generated number is in the period and no record, deleted or not, carries it. */
  lemma GeneratedNumberIsFresh(invoices: seq<Invoice>, year: nat, month: nat)
    ensures InvoiceSequential.InPeriod(GenerateInvoiceNumber(invoices, year, month),
                                       InvoiceSequential.PeriodPrefix(year, month))
    ensures forall i :: 0 <= i < |invoices| ==> invoices[i].quoteNumber != GenerateInvoiceNumber(invoices, year, month)
  {
    var prefix := InvoiceSequential.PeriodPrefix(year, month);
    var r := GenerateInvoiceNumber(invoices, year, month);
    GeneratedSequenceExceeds(invoices, year, month);
    InvoiceSequential.WithSequenceInPeriod(prefix, NextNumber(ExistingNumbers(invoices, prefix)));
  }

  // ---------------------------------------------------------------------
  // Lookups

  /** `findIndex` by quote number: the first record carrying it, deleted or not. */
  function FindIndex(invoices: seq<Invoice>, quoteNumber: string): (r: Option<nat>)
    ensures r.Some? ==> r.value < |invoices| && invoices[r.value].quoteNumber == quoteNumber
    ensures r.Some? ==> forall j :: 0 <= j < r.value ==> invoices[j].quoteNumber != quoteNumber
    ensures r.None? ==> forall j :: 0 <= j < |invoices| ==> invoices[j].quoteNumber != quoteNumber
    decreases |invoices|
  {
    if |invoices| == 0 then None
    else if invoices[0].quoteNumber == quoteNumber then Some(0)
    else match FindIndex(invoices[1..], quoteNumber)
      case None => None
      case Some(i) => Some(i + 1)
  }

  /** `getInvoiceByQuoteNumber`: the first active record with the number. */
  function InvoiceByQuoteNumber(invoices: seq<Invoice>, quoteNumber: string): (r: Option<Invoice>)
    ensures r.Some? ==> r.value in invoices && r.value.quoteNumber == quoteNumber && IsActive(r.value)
    ensures r.None? ==> forall j :: 0 <= j < |invoices| ==> !(invoices[j].quoteNumber == quoteNumber && IsActive(invoices[j]))
    decreases |invoices|
  {
    if |invoices| == 0 then None
    else if invoices[0].quoteNumber == quoteNumber && IsActive(invoices[0]) then Some(invoices[0])
    else InvoiceByQuoteNumber(invoices[1..], quoteNumber)
  }

  /** `getInvoiceById`: the first active record with the id. */
  function InvoiceById(invoices: seq<Invoice>, id: int): (r: Option<Invoice>)
    ensures r.Some? ==> r.value in invoices && r.value.id == id && IsActive(r.value)
    ensures r.None? ==> forall j :: 0 <= j < |invoices| ==> !(invoices[j].id == id && IsActive(invoices[j]))
    decreases |invoices|
  {
    if |invoices| == 0 then None
    else if invoices[0].id == id && IsActive(invoices[0]) then Some(invoices[0])
    else InvoiceById(invoices[1..], id)
  }

  // ---------------------------------------------------------------------
  // createInvoice

  function MaxId(invoices: seq<Invoice>): (m: int)
    requires |invoices| > 0
    ensures forall k :: 0 <= k < |invoices| ==> invoices[k].id <= m
    ensures exists k :: 0 <= k < |invoices| && invoices[k].id == m
  {
    if |invoices| == 1 then invoices[0].id
    else
      var m := MaxInt(invoices[0].id, MaxId(invoices[1..]));
      assert forall k :: 1 <= k < |invoices| ==> invoices[k] == invoices[1..][k - 1];
      m
  }

  /** `Math.max(...ids) + 1`, or 1 for an empty store. */
  function NextId(invoices: seq<Invoice>): int
  {
    if |invoices| > 0 then MaxId(invoices) + 1 else 1
  }

  /** The id handed out is larger than every id in the store. */
  lemma NextIdIsFresh(invoices: seq<Invoice>)
    ensures forall k :: 0 <= k < |invoices| ==> invoices[k].id < NextId(invoices)
    ensures |invoices| == 0 ==> NextId(invoices) == 1
  {
  }

  predicate DistinctIds(invoices: seq<Invoice>)
  {
    forall i, j :: 0 <= i < j < |invoices| ==> invoices[i].id != invoices[j].id
  }

  /** The record `createInvoice` stores for `data` at time `now`. */
  function NewRecord(invoices: seq<Invoice>, data: Invoice, now: Instant): Invoice
  {
    data.(id := NextId(invoices), createdAt := now, updatedAt := now)
  }

  /** Appending a created record keeps ids distinct. */
  lemma CreateKeepsIdsDistinct(invoices: seq<Invoice>, data: Invoice, now: Instant)
    requires DistinctIds(invoices)
    ensures DistinctIds(invoices + [NewRecord(invoices, data, now)])
  {
    NextIdIsFresh(invoices);
  }

  // ---------------------------------------------------------------------
  // updateInvoice and softDeleteInvoice

  function Or<T>(o: Option<T>, d: T): T { if o.Some? then o.value else d }
  function OrOption<T>(o: Option<T>, d: Option<T>): Option<T> { if o.Some? then o else d }

  /** `{ ...inv, ...updates, updated_at: now }` */
  function Merge(inv: Invoice, p: Patch, now: Instant): Invoice
  {
    Invoice(
      Or(p.id, inv.id),
      Or(p.quoteNumber, inv.quoteNumber),
      Or(p.customerName, inv.customerName),
      Or(p.customerEmail, inv.customerEmail),
      OrOption(p.customerPhone, inv.customerPhone),
      OrOption(p.customerAddress, inv.customerAddress),
      Or(p.items, inv.items),
      Or(p.subtotal, inv.subtotal),
      Or(p.gst, inv.gst),
      Or(p.total, inv.total),
      Or(p.status, inv.status),
      Or(p.paymentStatus, inv.paymentStatus),
      OrOption(p.paymentIntentId, inv.paymentIntentId),
      OrOption(p.deliveryAccess, inv.deliveryAccess),
      OrOption(p.notes, inv.notes),
      Or(p.createdAt, inv.createdAt),
      now,
      OrOption(p.expiresAt, inv.expiresAt),
      OrOption(p.deletedAt, inv.deletedAt))
  }

  /** An update without properties only refreshes the update time. */
  lemma MergeEmpty(inv: Invoice, now: Instant)
    ensures Merge(inv, EmptyPatch, now) == inv.(updatedAt := now)
  {
  }

  /** Applying the same update twice is applying it once. */
  lemma MergeIdempotent(inv: Invoice, p: Patch, now: Instant)
    ensures Merge(Merge(inv, p, now), p, now) == Merge(inv, p, now)
  {
  }

  /** The record `softDeleteInvoice` leaves behind. */
  function Deleted(inv: Invoice, now: Instant): Invoice
  {
    inv.(deletedAt := Some(now), updatedAt := now)
  }

  // ---------------------------------------------------------------------
  // getAllInvoices

  /** `filter(inv => !inv.deleted_at)` */
  function Active(invoices: seq<Invoice>): (r: seq<Invoice>)
    decreases |invoices|
  {
    if |invoices| == 0 then []
    else if IsActive(invoices[0]) then [invoices[0]] + Active(invoices[1..])
    else Active(invoices[1..])
  }

  /** Place `x` before the first record created no later than it (keeps ties in order). */
  function InsertNewest(x: Invoice, s: seq<Invoice>): seq<Invoice>
    decreases |s|
  {
    if |s| == 0 || s[0].createdAt <= x.createdAt then [x] + s
    else [s[0]] + InsertNewest(x, s[1..])
  }

  /** The stable `sort` by `created_at`, newest first. */
  function NewestFirst(s: seq<Invoice>): seq<Invoice>
    decreases |s|
  {
    if |s| == 0 then [] else InsertNewest(s[0], NewestFirst(s[1..]))
  }

  predicate NewestFirstOrder(s: seq<Invoice>)
  {
    forall i, j :: 0 <= i < j < |s| ==> s[i].createdAt >= s[j].createdAt
  }

  /** `getAllInvoices(limit, offset)` */
  function AllInvoices(invoices: seq<Invoice>, limit: int, offset: int): seq<Invoice>
  {
    Slice(NewestFirst(Active(invoices)), offset, offset + limit)
  }

  lemma {:induction false} ActiveSpec(invoices: seq<Invoice>)
    ensures forall k :: 0 <= k < |Active(invoices)| ==> IsActive(Active(invoices)[k])
    ensures multiset(Active(invoices)) <= multiset(invoices)
    ensures forall x :: x in invoices && IsActive(x) ==> x in Active(invoices)
    decreases |invoices|
  {
    if |invoices| > 0 {
      ActiveSpec(invoices[1..]);
      assert invoices == [invoices[0]] + invoices[1..];
      assert multiset(invoices) == multiset{invoices[0]} + multiset(invoices[1..]);
    }
  }

  lemma {:induction false} InsertNewestKeeps(x: Invoice, s: seq<Invoice>)
    ensures multiset(InsertNewest(x, s)) == multiset{x} + multiset(s)
    decreases |s|
  {
    if |s| > 0 && s[0].createdAt > x.createdAt {
      InsertNewestKeeps(x, s[1..]);
      assert s == [s[0]] + s[1..];
    }
  }

  lemma {:induction false} InsertNewestSpec(x: Invoice, s: seq<Invoice>)
    requires NewestFirstOrder(s)
    ensures NewestFirstOrder(InsertNewest(x, s))
    ensures multiset(InsertNewest(x, s)) == multiset{x} + multiset(s)
    decreases |s|
  {
    InsertNewestKeeps(x, s);
    if |s| > 0 && s[0].createdAt > x.createdAt {
      var tail := s[1..];
      var rest := InsertNewest(x, tail);
      assert NewestFirstOrder(tail);
      InsertNewestSpec(x, tail);
      forall j | 0 <= j < |rest|
        ensures s[0].createdAt >= rest[j].createdAt
      {
        assert rest[j] in multiset(rest);
        if rest[j] != x {
          assert rest[j] in multiset(tail);
          var k :| 0 <= k < |tail| && tail[k] == rest[j];
          assert tail[k] == s[k + 1];
        }
      }
      assert InsertNewest(x, s) == [s[0]] + rest;
    }
  }

  /** The sort orders newest first and keeps exactly the records it was given. */
  lemma {:induction false} NewestFirstSpec(s: seq<Invoice>)
    ensures NewestFirstOrder(NewestFirst(s))
    ensures multiset(NewestFirst(s)) == multiset(s)
    decreases |s|
  {
    if |s| > 0 {
      NewestFirstSpec(s[1..]);
      InsertNewestSpec(s[0], NewestFirst(s[1..]));
      assert s == [s[0]] + s[1..];
    }
  }

  /**
   * A page holds only active records of the store, newest first, and never
   * more than `limit` of them; the first page with a large enough limit holds
   * every active record.
   */
  lemma AllInvoicesSpec(invoices: seq<Invoice>, limit: int, offset: int)
    ensures var r := AllInvoices(invoices, limit, offset);
            (forall k :: 0 <= k < |r| ==> r[k] in invoices && IsActive(r[k])) && NewestFirstOrder(r)
    ensures 0 <= offset && 0 <= limit ==> |AllInvoices(invoices, limit, offset)| <= limit
    ensures offset == 0 && limit >= |Active(invoices)| ==>
              multiset(AllInvoices(invoices, limit, offset)) == multiset(Active(invoices))
  {
    ListedAreActiveInOrder(invoices, limit, offset);
    if 0 <= offset && 0 <= limit {
      SliceWindow(NewestFirst(Active(invoices)), offset, offset + limit);
    }
    if offset == 0 && limit >= |Active(invoices)| {
      FullPageHoldsAll(invoices, limit);
    }
  }

  lemma ListedAreActiveInOrder(invoices: seq<Invoice>, limit: int, offset: int)
    ensures var r := AllInvoices(invoices, limit, offset);
            (forall k :: 0 <= k < |r| ==> r[k] in invoices && IsActive(r[k])) && NewestFirstOrder(r)
  {
    var sorted := NewestFirst(Active(invoices));
    NewestFirstSpec(Active(invoices));
    SortedActiveMembers(invoices, sorted);
    SliceOfSorted(sorted, offset, offset + limit);
  }

  lemma FullPageHoldsAll(invoices: seq<Invoice>, limit: int)
    requires limit >= |Active(invoices)|
    ensures multiset(AllInvoices(invoices, limit, 0)) == multiset(Active(invoices))
  {
    var sorted := NewestFirst(Active(invoices));
    NewestFirstSpec(Active(invoices));
    assert |sorted| == |Active(invoices)| by {
      assert |multiset(sorted)| == |multiset(Active(invoices))|;
    }
    SliceWindow(sorted, 0, limit);
    assert sorted[0..] == sorted;
  }

  lemma SortedActiveMembers(invoices: seq<Invoice>, sorted: seq<Invoice>)
    requires multiset(sorted) == multiset(Active(invoices))
    ensures forall k :: 0 <= k < |sorted| ==> sorted[k] in invoices && IsActive(sorted[k])
  {
    ActiveSpec(invoices);
    forall k | 0 <= k < |sorted|
      ensures sorted[k] in invoices && IsActive(sorted[k])
    {
      var a := Active(invoices);
      assert sorted[k] in multiset(a);
      var m :| 0 <= m < |a| && a[m] == sorted[k];
      assert a[m] in multiset(invoices);
    }
  }

  /** Every element of a slice is an element of the sequence, and a slice of an ordered sequence is ordered. */
  lemma SliceOfSorted(s: seq<Invoice>, start: int, end: int)
    ensures forall k :: 0 <= k < |Slice(s, start, end)| ==> Slice(s, start, end)[k] in s
    ensures NewestFirstOrder(s) ==> NewestFirstOrder(Slice(s, start, end))
  {
  }

  // ---------------------------------------------------------------------
  // The store

  class InvoiceStore {
    /** The records of `invoices.json`, in file order. */
    var invoices: seq<Invoice>

    constructor (initial: seq<Invoice>)
      ensures invoices == initial
    {
      invoices := initial;
    }

    /** `createInvoice`: appends one record with a fresh id and both timestamps set to `now`. */
    method CreateInvoice(data: Invoice, now: Instant) returns (created: Invoice)
      modifies this
      ensures created == NewRecord(old(invoices), data, now)
      ensures invoices == old(invoices) + [created]
    {
      created := NewRecord(invoices, data, now);
      invoices := invoices + [created];
    }

    /** `updateInvoice`: merges `updates` into the first record with the number, deleted or not. */
    method UpdateInvoice(quoteNumber: string, updates: Patch, now: Instant) returns (r: Option<Invoice>)
      modifies this
      ensures FindIndex(old(invoices), quoteNumber).None? ==> r.None? && invoices == old(invoices)
      ensures FindIndex(old(invoices), quoteNumber).Some? ==>
                var i := FindIndex(old(invoices), quoteNumber).value;
                invoices == old(invoices)[i := Merge(old(invoices)[i], updates, now)] && r == Some(invoices[i])
    {
      var index := FindIndex(invoices, quoteNumber);
      if index.None? {
        return None;
      }
      var i := index.value;
      invoices := invoices[i := Merge(invoices[i], updates, now)];
      r := Some(invoices[i]);
    }

    /** `softDeleteInvoice`: stamps `deleted_at` and `updated_at` on the first record with the number. */
    method SoftDeleteInvoice(quoteNumber: string, now: Instant) returns (deleted: bool)
      modifies this
      ensures deleted == FindIndex(old(invoices), quoteNumber).Some?
      ensures !deleted ==> invoices == old(invoices)
      ensures deleted ==> var i := FindIndex(old(invoices), quoteNumber).value;
                          invoices == old(invoices)[i := Deleted(old(invoices)[i], now)]
    {
      var index := FindIndex(invoices, quoteNumber);
      if index.None? {
        return false;
      }
      var i := index.value;
      invoices := invoices[i := Deleted(invoices[i], now)];
      deleted := true;
    }
  }

  // ---------------------------------------------------------------------
  // How the operations relate

  /**
   * A soft-deleted record is still found by the update's lookup, while the
   * quote-number lookup no longer returns it.
   */
  lemma DeletedRecordStillUpdatable(invoices: seq<Invoice>, i: nat, now: Instant)
    requires i < |invoices|
    requires forall j :: 0 <= j < |invoices| && j != i ==> invoices[j].quoteNumber != invoices[i].quoteNumber
    ensures var after := invoices[i := Deleted(invoices[i], now)];
            FindIndex(after, invoices[i].quoteNumber) == Some(i) &&
            InvoiceByQuoteNumber(after, invoices[i].quoteNumber).None?
  {
    var after := invoices[i := Deleted(invoices[i], now)];
    var q := invoices[i].quoteNumber;
    assert after[i].quoteNumber == q;
    assert forall j :: 0 <= j < |after| && j != i ==> after[j] == invoices[j];
  }

  /** Soft deletion leaves the number of records and every other record untouched. */
  lemma SoftDeleteTouchesOne(invoices: seq<Invoice>, quoteNumber: string, now: Instant)
    requires FindIndex(invoices, quoteNumber).Some?
    ensures var i := FindIndex(invoices, quoteNumber).value;
            var after := invoices[i := Deleted(invoices[i], now)];
            |after| == |invoices| && !IsActive(after[i]) && after[i].quoteNumber == quoteNumber &&
            forall j :: 0 <= j < |invoices| && j != i ==> after[j] == invoices[j]
  {
  }

  /** A freshly created record is found again by its id. */
  lemma CreatedRecordFoundById(invoices: seq<Invoice>, data: Invoice, now: Instant)
    requires IsActive(data)
    ensures InvoiceById(invoices + [NewRecord(invoices, data, now)], NextId(invoices)) ==
            Some(NewRecord(invoices, data, now))
  {
    NextIdIsFresh(invoices);
    CreatedFoundLast(invoices, NewRecord(invoices, data, now));
  }

  lemma {:induction false} CreatedFoundLast(invoices: seq<Invoice>, x: Invoice)
    requires IsActive(x)
    requires forall k :: 0 <= k < |invoices| ==> invoices[k].id != x.id
    ensures InvoiceById(invoices + [x], x.id) == Some(x)
    decreases |invoices|
  {
    if |invoices| > 0 {
      assert (invoices + [x])[1..] == invoices[1..] + [x];
      CreatedFoundLast(invoices[1..], x);
    } else {
      assert invoices + [x] == [x];
    }
  }
}
