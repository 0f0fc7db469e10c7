// src/app/api/create-paid-invoice/route.ts: the payment service posts a paid
// order; the handler checks the API key, skips events it has already seen,
// validates the body, creates the invoice, marks it paid, records the event
// and emails the customer with up to three attempts.  The database is the
// class below: the quotes table with its unique quote number, and the set of
// processed event ids.  The invoice number, the outcome of each e-mail
// attempt and every way a database call can fail are parameters.

module CreatePaidInvoice {
  import opened Wrappers
  import opened Text

  datatype Customer = Customer(name: string, email: string, phone: Option<string>)
  datatype Delivery = Delivery(address: string, city: string, state: string, postcode: string)

  /** An item of the body; a field it lacks is `None`. */
  datatype BodyItem = BodyItem(sku: string, name: Option<string>, quantity: Option<int>, price: Option<real>)

  /** The body of the request; `amount` is `None` when it is missing. */
  datatype PaidBody = PaidBody(
    eventId: Option<string>,
    paymentIntentId: Option<string>,
    amount: Option<real>,
    customer: Option<Customer>,
    delivery: Option<Delivery>,
    items: Option<seq<BodyItem>>)

  /** An item as stored. */
  datatype PaidItem = PaidItem(sku: string, name: string, quantity: int, price: real)

  /** A row of the quotes table; `None` in a status column is the table's default. */
  datatype PaidQuote = PaidQuote(
    quoteNumber: string,
    customerName: string,
    customerEmail: string,
    customerPhone: string,
    customerAddress: string,
    items: seq<PaidItem>,
    subtotal: real,
    gst: real,
    total: real,
    status: Option<string>,
    paymentStatus: Option<string>,
    paymentIntentId: Option<string>)

  /** A status update that throws, and the message of its error. */
  datatype UpdateFailure = NoUpdateFailure | StatusUpdateFails(message: string) | IntentUpdateFails(message: string)

  /**
   * How the database calls of one run fail, beyond the unique quote number:
   * the event lookup throws (and `isEventProcessed` answers "not seen"),
   * the insert of the row throws for another reason (with its message), a
   * status update throws, or the event insert throws (and
   * `markEventProcessed` swallows it).
   */
  datatype Faults = Faults(eventReadFails: bool, insertFails: Option<string>, update: UpdateFailure,
                           eventInsertFails: bool)

  /** A run in which every database call succeeds. */
  const NoFaults := Faults(false, None, NoUpdateFailure, false)

  datatype Response =
    | Unauthorized                   // 401
    | AlreadyProcessed               // 200, duplicate: true
    | MissingFields                  // 400
    | InvoiceCreated(invoiceId: string)
    | EmailFailed(invoiceId: string) // 500, needsManualEmail
    | MaybeProcessed                 // 200, duplicate: true, from an error naming "duplicate"
    | Failed                         // 500

  predicate Truthy(v: Option<string>)
  {
    v.Some? && v.value != ""
  }

  // ---------------------------------------------------------------------
  // Checks

  /** The key header must be present, the server's secret set, and the two equal. */
  predicate Authorized(apiKey: Option<string>, secret: Option<string>)
  {
    Truthy(apiKey) && Truthy(secret) && apiKey.value == secret.value
  }

  /** A missing payment intent, a missing or zero amount, no customer, or no items. */
  predicate MissingRequired(b: PaidBody)
  {
    !Truthy(b.paymentIntentId) || b.amount.None? || b.amount.value == 0.0 || b.customer.None? ||
    b.items.None? || |b.items.value| == 0
  }

  // ---------------------------------------------------------------------
  // Amounts

  /** The whole cents of `x.toFixed(2)`: `x`·100 rounded to the nearest integer, halves away from zero. */
  function Cents(x: real): int
  {
    if x >= 0.0 then (x * 100.0 + 0.5).Floor else -((-x) * 100.0 + 0.5).Floor
  }

  /** `parseFloat(x.toFixed(2))` */
  function RoundCents(x: real): real
  {
    Cents(x) as real / 100.0
  }

  /** Rounding to the cent moves a value by at most half a cent. */
  lemma CentsNearest(x: real)
    ensures -0.5 <= Cents(x) as real - x * 100.0 <= 0.5
    ensures -0.005 <= RoundCents(x) - x <= 0.005
  {
    var y := if x >= 0.0 then x * 100.0 + 0.5 else (-x) * 100.0 + 0.5;
    assert y.Floor as real <= y < y.Floor as real + 1.0;
  }

  /** GST is the total over eleven rounded to the cent; the subtotal is what remains. */
  function GstOf(total: real): real
  {
    RoundCents(total / 11.0)
  }

  function SubtotalOf(total: real): real
  {
    total - GstOf(total)
  }

  /**
   * The two parts add up to the total exactly, the GST is a whole number of
   * cents within half a cent of a true eleventh, and the subtotal within
   * half a cent of ten elevenths.
   */
  lemma GstSplit(total: real)
    ensures SubtotalOf(total) + GstOf(total) == total
    ensures GstOf(total) * 100.0 == Cents(total / 11.0) as real
    ensures -0.005 <= GstOf(total) - total / 11.0 <= 0.005
    ensures -0.005 <= SubtotalOf(total) - total * 10.0 / 11.0 <= 0.005
  {
    CentsNearest(total / 11.0);
  }

  /** `name || "Product " + sku`, `quantity || 1`, `price || total / items.length`. */
  function FormatItem(item: BodyItem, total: real, count: nat): PaidItem
    requires count > 0
  {
    PaidItem(
      item.sku,
      if Truthy(item.name) then item.name.value else "Product " + item.sku,
      if item.quantity.Some? && item.quantity.value != 0 then item.quantity.value else 1,
      if item.price.Some? && item.price.value != 0.0 then item.price.value else total / count as real)
  }

  function FormatItems(items: seq<BodyItem>, total: real): (r: seq<PaidItem>)
    requires |items| > 0
    ensures |r| == |items|
  {
    seq(|items|, k requires 0 <= k < |items| => FormatItem(items[k], total, |items|))
  }

  /** Every stored item has a name, a non-zero quantity, and a price given or a share of the total. */
  lemma FormattedItemDefaults(items: seq<BodyItem>, total: real, k: nat)
    requires k < |items|
    ensures var p := FormatItems(items, total)[k];
      p.sku == items[k].sku && p.name != "" && p.quantity != 0 &&
      (items[k].name.None? ==> p.name == "Product " + items[k].sku) &&
      (items[k].quantity.None? ==> p.quantity == 1) &&
      (items[k].price.None? ==> p.price == total / |items| as real) &&
      (Truthy(items[k].name) && items[k].quantity.Some? && items[k].quantity.value != 0 &&
       items[k].price.Some? && items[k].price.value != 0.0 ==>
         p == PaidItem(items[k].sku, items[k].name.value, items[k].quantity.value, items[k].price.value))
  {
  }

  /** Σ quantity·price over stored items. */
  function LineSum(items: seq<PaidItem>): real
    decreases |items|
  {
    if |items| == 0 then 0.0 else LineSum(items[..|items| - 1]) + items[|items| - 1].quantity as real * items[|items| - 1].price
  }

  /** The sum of the quantities the stored items end up with. */
  function Units(items: seq<PaidItem>): int
    decreases |items|
  {
    if |items| == 0 then 0 else Units(items[..|items| - 1]) + items[|items| - 1].quantity
  }

  /** Items that all carry neither a price nor a quantity of their own. */
  predicate NoPricesNoQuantities(items: seq<BodyItem>)
  {
    forall k :: 0 <= k < |items| ==> items[k].price.None? && items[k].quantity.None?
  }

  /** Items that carry no price of their own. */
  predicate NoPrices(items: seq<BodyItem>)
  {
    forall k :: 0 <= k < |items| ==> items[k].price.None?
  }

  /**
   * Without item prices the total is shared per item, not per unit: the
   * stored lines add up to the total times the units over the number of
   * items, which is the total only when no quantity is given.
   */
  lemma {:induction false} SharedPriceLines(items: seq<BodyItem>, total: real, n: nat)
    requires 0 < |items| && n <= |items| && NoPrices(items)
    ensures LineSum(FormatItems(items, total)[..n]) == Units(FormatItems(items, total)[..n]) as real * (total / |items| as real)
  {
    var r := FormatItems(items, total);
    if n > 0 {
      SharedPriceLines(items, total, n - 1);
      assert r[..n][..n - 1] == r[..n - 1];
      assert r[..n][n - 1] == r[n - 1];
    }
  }

  /** The case the comment of the route has in mind: no prices and no quantities split the total exactly. */
  lemma SplitPricesAddUp(items: seq<BodyItem>, total: real)
    requires 0 < |items| && NoPricesNoQuantities(items)
    ensures LineSum(FormatItems(items, total)) == total
    ensures forall k :: 0 <= k < |items| ==> FormatItems(items, total)[k].quantity == 1
  {
    var r := FormatItems(items, total);
    SharedPriceLines(items, total, |items|);
    assert r[..|items|] == r;
    AllOnes(r, |items|);
  }

  lemma {:induction false} AllOnes(r: seq<PaidItem>, n: nat)
    requires n <= |r| && forall k :: 0 <= k < |r| ==> r[k].quantity == 1
    ensures Units(r[..n]) == n
  {
    if n > 0 {
      AllOnes(r, n - 1);
      assert r[..n][..n - 1] == r[..n - 1];
    }
  }

  /** `${address}, ${city} ${state} ${postcode}`, or '' without delivery details. */
  function AddressLine(delivery: Option<Delivery>): string
  {
    match delivery
    case None => ""
    case Some(d) => d.address + ", " + d.city + " " + d.state + " " + d.postcode
  }

  /** The row `createQuote` inserts for a validated body. */
  function NewQuote(b: PaidBody, invoiceNumber: string): PaidQuote
    requires !MissingRequired(b)
  {
    var total := b.amount.value;
    var c := b.customer.value;
    PaidQuote(invoiceNumber, c.name, c.email, if Truthy(c.phone) then c.phone.value else "",
              AddressLine(b.delivery), FormatItems(b.items.value, total),
              SubtotalOf(total), GstOf(total), total, None, None, None)
  }

  // ---------------------------------------------------------------------
  // E-mail with retries

  /** The waits between attempts: 1000 ms after the first failure, 2000 ms after the second, … */
  function Waits(n: nat): (w: seq<int>)
    ensures |w| == n && forall i :: 0 <= i < n ==> w[i] == (i + 1) * 1000
  {
    if n == 0 then [] else Waits(n - 1) + [n * 1000]
  }

  /** The first attempt from 1 to `maxRetries` that succeeds, if any. */
  function FirstSuccess(succeeds: nat -> bool, from: nat, maxRetries: nat): (r: Option<nat>)
    requires from >= 1
    ensures r.Some? ==> from <= r.value <= maxRetries && succeeds(r.value) &&
                        forall a :: from <= a < r.value ==> !succeeds(a)
    ensures r.None? ==> forall a :: from <= a <= maxRetries ==> !succeeds(a)
    decreases maxRetries + 1 - from
  {
    if from > maxRetries then None
    else if succeeds(from) then Some(from)
    else FirstSuccess(succeeds, from + 1, maxRetries)
  }

  /**
   * `sendEmailWithRetry`: attempts 1 to `maxRetries`; stops at the first
   * success; after a failed attempt other than the last it waits
   * attempt·1000 ms.  `sent` false stands for the error it throws.
   */
  method SendEmailWithRetry(succeeds: nat -> bool, maxRetries: nat) returns (sent: bool, attempts: nat, waits: seq<int>)
    ensures sent <==> FirstSuccess(succeeds, 1, maxRetries).Some?
    ensures sent ==> attempts == FirstSuccess(succeeds, 1, maxRetries).value
    ensures !sent ==> attempts == maxRetries
    ensures attempts <= maxRetries
    ensures waits == Waits(if attempts == 0 then 0 else attempts - 1)
  {
    attempts := 0;
    waits := [];
    var attempt := 1;
    while attempt <= maxRetries
      invariant 1 <= attempt <= maxRetries + 1 && attempts == attempt - 1
      invariant FirstSuccess(succeeds, 1, maxRetries) == FirstSuccess(succeeds, attempt, maxRetries)
      invariant waits == Waits(if attempt <= maxRetries || attempts == 0 then attempts else attempts - 1)
    {
      attempts := attempt;
      if succeeds(attempt) {
        return true, attempts, waits;
      }
      if attempt < maxRetries {
        waits := waits + [attempt * 1000];
      }
      attempt := attempt + 1;
    }
    sent := false;
  }

  /** With the route's three attempts: at most two waits, of one and two seconds. */
  lemma ThreeAttempts(succeeds: nat -> bool)
    ensures Waits(0) == [] && Waits(1) == [1000] && Waits(2) == [1000, 2000]
    ensures FirstSuccess(succeeds, 1, 3).None? <==> !succeeds(1) && !succeeds(2) && !succeeds(3)
  {
    if !succeeds(1) && !succeeds(2) && !succeeds(3) {
      assert FirstSuccess(succeeds, 4, 3).None?;
    }
  }

  // ---------------------------------------------------------------------
  // The handler

  /** Every row with the number gets the update, as `UPDATE … WHERE quote_number = …` does. */
  function UpdateWhere(rows: seq<PaidQuote>, number: string, status: Option<string>, paymentStatus: Option<string>,
                       intent: Option<string>): (r: seq<PaidQuote>)
    ensures |r| == |rows|
    ensures forall k :: 0 <= k < |rows| && rows[k].quoteNumber != number ==> r[k] == rows[k]
  {
    seq(|rows|, k requires 0 <= k < |rows| =>
      if rows[k].quoteNumber != number then rows[k]
      else rows[k].(status := if status.Some? then status else rows[k].status,
                    paymentStatus := if paymentStatus.Some? then paymentStatus else rows[k].paymentStatus,
                    paymentIntentId := if intent.Some? then intent else rows[k].paymentIntentId))
  }

  predicate NumberTaken(rows: seq<PaidQuote>, number: string)
  {
    exists k :: 0 <= k < |rows| && rows[k].quoteNumber == number
  }

  /** An update by a number only the last row carries changes only that row. */
  lemma UpdateLastOnly(rows: seq<PaidQuote>, row: PaidQuote, status: Option<string>, paymentStatus: Option<string>,
                       intent: Option<string>)
    requires !NumberTaken(rows, row.quoteNumber)
    ensures UpdateWhere(rows + [row], row.quoteNumber, status, paymentStatus, intent) ==
      rows + [row.(status := if status.Some? then status else row.status,
                   paymentStatus := if paymentStatus.Some? then paymentStatus else row.paymentStatus,
                   paymentIntentId := if intent.Some? then intent else row.paymentIntentId)]
  {
  }

  /** The two tables the handler touches. */
  datatype Db = Db(quotes: seq<PaidQuote>, processedEvents: set<string>)

  /** The row as it ends up: marked paid, then given the payment intent. */
  function PaidRow(b: PaidBody, invoiceNumber: string): PaidQuote
    requires !MissingRequired(b)
  {
    NewQuote(b, invoiceNumber).(status := Some("paid"), paymentStatus := Some("paid"), paymentIntentId := b.paymentIntentId)
  }

  /** How an error thrown past the checks is answered. */
  function ErrorAnswer(message: string): Response
  {
    if Contains(message, "duplicate") then MaybeProcessed else Failed
  }

  predicate Seen(db: Db, b: PaidBody)
  {
    Truthy(b.eventId) && b.eventId.value in db.processedEvents
  }

  /** The idempotency check answers "already processed": the event is recorded and its lookup succeeds. */
  predicate SeenAndRead(db: Db, b: PaidBody, f: Faults)
  {
    Seen(db, b) && !f.eventReadFails
  }

  /** The events table after `markEventProcessed`, which records nothing when its insert fails. */
  function RecordEvent(events: set<string>, b: PaidBody, f: Faults): set<string>
  {
    events + (if Truthy(b.eventId) && !f.eventInsertFails then {b.eventId.value} else {})
  }

  /**
   * What `POST` leaves in the tables and answers: the checks in their order
   * (a failed event lookup reads as "not seen"), then the insert (which a
   * taken number or another error makes throw), the two updates (either of
   * which may throw), the event record (whose failure is swallowed) and the
   * e-mail.
   */
  function Handle(db: Db, apiKey: Option<string>, secret: Option<string>, b: PaidBody, invoiceNumber: string,
                  faults: Faults, emailSucceeds: nat -> bool): (r: (Db, Response))
    ensures r.1 == Unauthorized <==> !Authorized(apiKey, secret)
    ensures r.1 == AlreadyProcessed ==> Seen(db, b)
    ensures db.processedEvents <= r.0.processedEvents
    ensures r.0.processedEvents <= db.processedEvents + (if b.eventId.Some? then {b.eventId.value} else {})
    ensures r.0.quotes == db.quotes || (|r.0.quotes| == |db.quotes| + 1 && r.0.quotes[..|db.quotes|] == db.quotes)
    ensures (r.1.InvoiceCreated? || r.1.EmailFailed?) ==>
      !MissingRequired(b) && r.0.quotes == db.quotes + [PaidRow(b, invoiceNumber)] && r.1.invoiceId == invoiceNumber
  {
    if !Authorized(apiKey, secret) then (db, Unauthorized)
    else if SeenAndRead(db, b, faults) then (db, AlreadyProcessed)
    else if MissingRequired(b) then (db, MissingFields)
    else if NumberTaken(db.quotes, invoiceNumber) then (db, MaybeProcessed)
    else if faults.insertFails.Some? then (db, ErrorAnswer(faults.insertFails.value))
    else
      var q := NewQuote(b, invoiceNumber);
      match faults.update
      case StatusUpdateFails(m) => (db.(quotes := db.quotes + [q]), ErrorAnswer(m))
      case IntentUpdateFails(m) =>
        (db.(quotes := db.quotes + [q.(status := Some("paid"), paymentStatus := Some("paid"))]), ErrorAnswer(m))
      case NoUpdateFailure =>
        (Db(db.quotes + [PaidRow(b, invoiceNumber)], RecordEvent(db.processedEvents, b, faults)),
         if FirstSuccess(emailSucceeds, 1, 3).Some? then InvoiceCreated(invoiceNumber) else EmailFailed(invoiceNumber))
  }

  class PaidInvoiceDb {
    /** The quotes table; its quote numbers are unique. */
    var quotes: seq<PaidQuote>
    /** `processed_webhook_events`: the event ids seen. */
    var processedEvents: set<string>

    constructor (initialQuotes: seq<PaidQuote>, initialEvents: set<string>)
      ensures quotes == initialQuotes && processedEvents == initialEvents
    {
      quotes := initialQuotes;
      processedEvents := initialEvents;
    }

    /**
     * `POST`, step by step.  `invoiceNumber` is what the allocator returns;
     * `faults` says which database calls, if any, throw.
     */
    method Post(apiKey: Option<string>, secret: Option<string>, b: PaidBody, invoiceNumber: string,
                faults: Faults, emailSucceeds: nat -> bool) returns (resp: Response)
      modifies this
      ensures (Db(quotes, processedEvents), resp) ==
        Handle(Db(old(quotes), old(processedEvents)), apiKey, secret, b, invoiceNumber, faults, emailSucceeds)
    {
      if !Authorized(apiKey, secret) {
        return Unauthorized;
      }
      if Truthy(b.eventId) {
        // a lookup that throws is caught and read as "not processed"
        var alreadyProcessed := !faults.eventReadFails && b.eventId.value in processedEvents;
        if alreadyProcessed {
          return AlreadyProcessed;
        }
      }
      if MissingRequired(b) {
        return MissingFields;
      }
      if NumberTaken(quotes, invoiceNumber) {
        // the insert violates the unique quote number: "duplicate key value"
        return MaybeProcessed;
      }
      if faults.insertFails.Some? {
        return ErrorAnswer(faults.insertFails.value);
      }
      var q := NewQuote(b, invoiceNumber);
      quotes := quotes + [q];
      var failure := faults.update;
      if failure.StatusUpdateFails? {
        return ErrorAnswer(failure.message);
      }
      UpdateLastOnly(old(quotes), q, Some("paid"), Some("paid"), None);
      quotes := UpdateWhere(quotes, invoiceNumber, Some("paid"), Some("paid"), None);
      assert quotes == old(quotes) + [q.(status := Some("paid"), paymentStatus := Some("paid"))];
      if failure.IntentUpdateFails? {
        return ErrorAnswer(failure.message);
      }
      var paid := q.(status := Some("paid"), paymentStatus := Some("paid"));
      UpdateLastOnly(old(quotes), paid, None, None, b.paymentIntentId);
      quotes := UpdateWhere(quotes, invoiceNumber, None, None, b.paymentIntentId);
      assert quotes == old(quotes) + [PaidRow(b, invoiceNumber)];
      if Truthy(b.eventId) && !faults.eventInsertFails {
        // an insert that throws is swallowed and leaves the table as it was
        processedEvents := processedEvents + {b.eventId.value};
      }
      var sent, _, _ := SendEmailWithRetry(emailSucceeds, 3);
      resp := if sent then InvoiceCreated(invoiceNumber) else EmailFailed(invoiceNumber);
      ghost var h := Handle(Db(old(quotes), old(processedEvents)), apiKey, secret, b, invoiceNumber, faults, emailSucceeds);
      assert h.1 == resp;
      assert h.0.quotes == quotes;
      assert h.0.processedEvents == processedEvents;
    }
  }

  // ---------------------------------------------------------------------
  // What the handler promises

  /**
   * Authentication comes first, then the idempotency check, then
   * validation: each answers without touching the tables, whatever the
   * later steps would have found.  A recorded event is answered as already
   * processed only when its lookup succeeds; a lookup that throws never
   * produces that answer.
   */
  lemma ChecksInOrder(db: Db, apiKey: Option<string>, secret: Option<string>, b: PaidBody, invoiceNumber: string,
                      faults: Faults, emailSucceeds: nat -> bool)
    ensures var (db', resp) := Handle(db, apiKey, secret, b, invoiceNumber, faults, emailSucceeds);
      (!Authorized(apiKey, secret) ==> resp == Unauthorized) &&
      (Authorized(apiKey, secret) && Seen(db, b) && !faults.eventReadFails ==> resp == AlreadyProcessed) &&
      (faults.eventReadFails ==> resp != AlreadyProcessed) &&
      (Authorized(apiKey, secret) && !SeenAndRead(db, b, faults) && MissingRequired(b) ==> resp == MissingFields) &&
      (resp == Unauthorized || resp == AlreadyProcessed || resp == MissingFields <==>
         !Authorized(apiKey, secret) || SeenAndRead(db, b, faults) || MissingRequired(b)) &&
      (!Authorized(apiKey, secret) || SeenAndRead(db, b, faults) || MissingRequired(b) ==> db' == db)
  {
  }

  /**
   * Tables only grow: a run adds at most one quote, at the end, and at most
   * the body's event id; the event is recorded only in a run that created
   * the paid row with its payment intent, and never when its insert fails.
   */
  lemma EventRecordedOnlyWithPaidInvoice(db: Db, apiKey: Option<string>, secret: Option<string>, b: PaidBody,
                                         invoiceNumber: string, faults: Faults, emailSucceeds: nat -> bool)
    ensures var (db', resp) := Handle(db, apiKey, secret, b, invoiceNumber, faults, emailSucceeds);
      db.processedEvents <= db'.processedEvents &&
      (db'.quotes == db.quotes || (|db'.quotes| == |db.quotes| + 1 && db'.quotes[..|db.quotes|] == db.quotes)) &&
      (db'.processedEvents != db.processedEvents ==>
         Truthy(b.eventId) && !faults.eventInsertFails &&
         db'.processedEvents == db.processedEvents + {b.eventId.value} &&
         !MissingRequired(b) && db'.quotes == db.quotes + [PaidRow(b, invoiceNumber)] &&
         db'.quotes[|db.quotes|].status == Some("paid") && db'.quotes[|db.quotes|].paymentStatus == Some("paid") &&
         db'.quotes[|db.quotes|].paymentIntentId == b.paymentIntentId)
  {
    var (db', resp) := Handle(db, apiKey, secret, b, invoiceNumber, faults, emailSucceeds);
    if db'.quotes != db.quotes {
      assert db'.quotes[..|db.quotes|] == db.quotes;
    }
  }

  /**
   * A number the table already holds makes the insert fail with a
   * "duplicate key" error, which is answered as success: nothing is
   * created, no e-mail is sent and the event is not recorded.
   */
  lemma TakenNumberAnsweredAsDuplicate(db: Db, apiKey: Option<string>, secret: Option<string>, b: PaidBody,
                                       invoiceNumber: string, faults: Faults, emailSucceeds: nat -> bool)
    requires Authorized(apiKey, secret) && !SeenAndRead(db, b, faults) && !MissingRequired(b)
    requires NumberTaken(db.quotes, invoiceNumber)
    ensures Handle(db, apiKey, secret, b, invoiceNumber, faults, emailSucceeds) == (db, MaybeProcessed)
  {
  }

  /**
   * Any other failure of the insert leaves the tables as they were; its
   * message decides between the 200 "duplicate" answer and a 500.
   */
  lemma FailedInsertChangesNothing(db: Db, apiKey: Option<string>, secret: Option<string>, b: PaidBody,
                                   invoiceNumber: string, faults: Faults, emailSucceeds: nat -> bool)
    requires Authorized(apiKey, secret) && !SeenAndRead(db, b, faults) && !MissingRequired(b)
    requires faults.insertFails.Some?
    ensures var (db', resp) := Handle(db, apiKey, secret, b, invoiceNumber, faults, emailSucceeds);
      db' == db &&
      (resp == MaybeProcessed <==> NumberTaken(db.quotes, invoiceNumber) || Contains(faults.insertFails.value, "duplicate")) &&
      (resp == Failed <==> !NumberTaken(db.quotes, invoiceNumber) && !Contains(faults.insertFails.value, "duplicate"))
  {
  }

  /**
   * The route answers an e-mail failure with 500 "so Stripe retries", but
   * the event was recorded before the e-mail: when both calls on the events
   * table succeed, the retry of the same event is answered as already
   * processed and changes nothing, so the e-mail is never sent again.
   */
  lemma RetryAfterEmailFailureSendsNothing(db: Db, apiKey: Option<string>, secret: Option<string>, b: PaidBody,
                                           invoiceNumber: string, faults: Faults, emailSucceeds: nat -> bool,
                                           retryNumber: string, retryFaults: Faults, retryEmail: nat -> bool)
    requires Truthy(b.eventId)
    requires Handle(db, apiKey, secret, b, invoiceNumber, faults, emailSucceeds).1 == EmailFailed(invoiceNumber)
    requires !faults.eventInsertFails && !retryFaults.eventReadFails
    ensures var db' := Handle(db, apiKey, secret, b, invoiceNumber, faults, emailSucceeds).0;
      Handle(db', apiKey, secret, b, retryNumber, retryFaults, retryEmail) == (db', AlreadyProcessed)
  {
    var db' := Handle(db, apiKey, secret, b, invoiceNumber, faults, emailSucceeds).0;
    assert b.eventId.value in db'.processedEvents;
  }

  /**
   * When the event insert throws, `markEventProcessed` swallows the error:
   * the retry Stripe makes after the e-mail failure finds no record and
   * creates a second paid invoice for the same payment.
   */
  lemma LostEventRecordSecondInvoice(db: Db, apiKey: Option<string>, secret: Option<string>, b: PaidBody,
                                     invoiceNumber: string, faults: Faults, emailSucceeds: nat -> bool,
                                     retryNumber: string, retryEmail: nat -> bool)
    requires Truthy(b.eventId) && b.eventId.value !in db.processedEvents
    requires Handle(db, apiKey, secret, b, invoiceNumber, faults, emailSucceeds).1 == EmailFailed(invoiceNumber)
    requires faults.eventInsertFails
    requires retryNumber != invoiceNumber && !NumberTaken(db.quotes, retryNumber)
    ensures var db' := Handle(db, apiKey, secret, b, invoiceNumber, faults, emailSucceeds).0;
      var (db'', resp) := Handle(db', apiKey, secret, b, retryNumber, NoFaults, retryEmail);
      db''.quotes == db.quotes + [PaidRow(b, invoiceNumber), PaidRow(b, retryNumber)] &&
      resp != AlreadyProcessed
  {
    var db' := Handle(db, apiKey, secret, b, invoiceNumber, faults, emailSucceeds).0;
    assert db'.quotes == db.quotes + [PaidRow(b, invoiceNumber)];
    assert b.eventId.value !in db'.processedEvents;
    assert !NumberTaken(db'.quotes, retryNumber);
  }

  /**
   * Likewise when the retry's event lookup throws: it reads as "not
   * processed", and the recorded event does not stop a second invoice.
   */
  lemma FailedEventReadSecondInvoice(db: Db, apiKey: Option<string>, secret: Option<string>, b: PaidBody,
                                     invoiceNumber: string, faults: Faults, emailSucceeds: nat -> bool,
                                     retryNumber: string, retryEmail: nat -> bool)
    requires Truthy(b.eventId)
    requires Handle(db, apiKey, secret, b, invoiceNumber, faults, emailSucceeds).1 == EmailFailed(invoiceNumber)
    requires retryNumber != invoiceNumber && !NumberTaken(db.quotes, retryNumber)
    ensures var db' := Handle(db, apiKey, secret, b, invoiceNumber, faults, emailSucceeds).0;
      var (db'', resp) := Handle(db', apiKey, secret, b, retryNumber, NoFaults.(eventReadFails := true), retryEmail);
      db''.quotes == db.quotes + [PaidRow(b, invoiceNumber), PaidRow(b, retryNumber)] &&
      resp != AlreadyProcessed
  {
    var db' := Handle(db, apiKey, secret, b, invoiceNumber, faults, emailSucceeds).0;
    assert db'.quotes == db.quotes + [PaidRow(b, invoiceNumber)];
    assert !NumberTaken(db'.quotes, retryNumber);
  }

  /** Without an event id nothing guards a retry: each successful run adds another paid invoice. */
  lemma NoEventIdNoIdempotency(db: Db, apiKey: Option<string>, secret: Option<string>, b: PaidBody,
                               n1: string, n2: string, emailSucceeds: nat -> bool)
    requires Authorized(apiKey, secret) && !Truthy(b.eventId) && !MissingRequired(b)
    requires !NumberTaken(db.quotes, n1) && !NumberTaken(db.quotes, n2) && n1 != n2
    ensures var db1 := Handle(db, apiKey, secret, b, n1, NoFaults, emailSucceeds).0;
      var db2 := Handle(db1, apiKey, secret, b, n2, NoFaults, emailSucceeds).0;
      db2.quotes == db.quotes + [PaidRow(b, n1), PaidRow(b, n2)]
  {
    var db1 := Handle(db, apiKey, secret, b, n1, NoFaults, emailSucceeds).0;
    assert db1.quotes == db.quotes + [PaidRow(b, n1)];
    assert !NumberTaken(db1.quotes, n2);
  }
}
