// src/app/api/quotes/route.ts: `POST` maps a request body onto a new quote
// record (number fallback, extra note lines, fixed draft status) and `GET`
// pages through the stored quotes.  The clock that dates a generated
// number and stamps the record is a parameter.

module QuotesRoute {
  import opened Wrappers
  import opened Text
  import opened JsonStorage

  // ---------------------------------------------------------------------
  // POST

  /**
   * The request body.  A property the body lacks is `None`; money fields
   * hold the number sent (`None` for a missing one).  `status` and
   * `paymentStatus` are read by no line of the route.
   */
  datatype QuoteRequest = QuoteRequest(
    quoteNumber: Option<string>,
    invoiceNumber: Option<string>,
    customerName: string,
    customerEmail: Option<string>,
    customerPhone: Option<string>,
    customerAddress: Option<string>,
    items: Option<seq<string>>,
    subtotal: Option<real>,
    gst: Option<real>,
    total: Option<real>,
    deliveryAccess: Option<string>,
    notes: Option<string>,
    deliveryDate: Option<string>,
    deliveryDateOption: Option<string>,
    needsBase: Option<bool>,
    floorType: Option<string>,
    status: Option<string>,
    paymentStatus: Option<string>)

  /** A text JavaScript treats as true: present and not empty. */
  predicate Truthy(v: Option<string>)
  {
    v.Some? && v.value != ""
  }

  /** `v || 0` on a number. */
  function AmountOr0(v: Option<real>): real
  {
    if v.Some? && v.value != 0.0 then v.value else 0.0
  }

  const DateLabel := "Delivery Date: "
  const OptionLabel := "Delivery Option: "
  const BaseLabel := "Needs Base: "
  const FloorLabel := "Floor Type: "

  /** `additionalInfo`: one line per supplied extra field, in a fixed order; `needsBase` counts even when false. */
  function ExtraLines(r: QuoteRequest): seq<string>
  {
    DateLine(r) + OptionLine(r) + BaseLine(r) + FloorLine(r)
  }

  function DateLine(r: QuoteRequest): seq<string>
  {
    if Truthy(r.deliveryDate) then [DateLabel + r.deliveryDate.value] else []
  }

  function OptionLine(r: QuoteRequest): seq<string>
  {
    if Truthy(r.deliveryDateOption) then [OptionLabel + r.deliveryDateOption.value] else []
  }

  function BaseLine(r: QuoteRequest): seq<string>
  {
    if r.needsBase.Some? then [BaseLabel + (if r.needsBase.value then "Yes" else "No")] else []
  }

  function FloorLine(r: QuoteRequest): seq<string>
  {
    if Truthy(r.floorType) then [FloorLabel + r.floorType.value] else []
  }

  /** The notes stored: the request's notes, a blank line and the extra lines; the lines alone without notes. */
  function ComposedNotes(notes: Option<string>, lines: seq<string>): Option<string>
  {
    if |lines| > 0 && Truthy(notes) then Some(notes.value + "\n\n" + Join(lines, "\n"))
    else if |lines| > 0 then Some(Join(lines, "\n"))
    else notes
  }

  /** `quoteNumber || invoiceNumber`, and a generated number when neither is given. */
  function ChosenNumber(r: QuoteRequest, generated: string): string
  {
    if Truthy(r.quoteNumber) then r.quoteNumber.value
    else if Truthy(r.invoiceNumber) then r.invoiceNumber.value
    else generated
  }

  /**
   * The record handed to `createInvoice` for a request with an email; its
   * id and timestamps are placeholders that `createInvoice` replaces.
   */
  function QuoteRecord(r: QuoteRequest, generated: string): Invoice
    requires Truthy(r.customerEmail)
  {
    Invoice(
      id := 0,
      quoteNumber := ChosenNumber(r, generated),
      customerName := r.customerName,
      customerEmail := r.customerEmail.value,
      customerPhone := r.customerPhone,
      customerAddress := r.customerAddress,
      items := if r.items.Some? then r.items.value else [],
      subtotal := AmountOr0(r.subtotal),
      gst := AmountOr0(r.gst),
      total := AmountOr0(r.total),
      status := "draft",
      paymentStatus := "pending",
      paymentIntentId := None,
      deliveryAccess := r.deliveryAccess,
      notes := ComposedNotes(r.notes, ExtraLines(r)),
      createdAt := 0,
      updatedAt := 0,
      expiresAt := None,
      deletedAt := None)
  }

  datatype PostResponse = Created(quote: Invoice) | BadRequest(error: string)

  /** The delivery lines pushed one by one onto `additionalInfo`, then folded into the notes. */
  method ComposeNotes(r: QuoteRequest) returns (notes: Option<string>)
    ensures notes == ComposedNotes(r.notes, ExtraLines(r))
  {
    var additionalInfo: seq<string> := [];
    if Truthy(r.deliveryDate) {
      additionalInfo := additionalInfo + [DateLabel + r.deliveryDate.value];
    }
    if Truthy(r.deliveryDateOption) {
      additionalInfo := additionalInfo + [OptionLabel + r.deliveryDateOption.value];
    }
    if r.needsBase.Some? {
      additionalInfo := additionalInfo + [BaseLabel + (if r.needsBase.value then "Yes" else "No")];
    }
    if Truthy(r.floorType) {
      additionalInfo := additionalInfo + [FloorLabel + r.floorType.value];
    }
    assert additionalInfo == ExtraLines(r);
    notes := r.notes;
    if |additionalInfo| > 0 && Truthy(notes) {
      notes := Some(notes.value + "\n\n" + Join(additionalInfo, "\n"));
    } else if |additionalInfo| > 0 {
      notes := Some(Join(additionalInfo, "\n"));
    }
  }

  /** `POST`: 400 without a customer email, otherwise the quote is created in the store. */
  method Post(store: InvoiceStore, r: QuoteRequest, year: nat, month: nat, now: Instant) returns (resp: PostResponse)
    modifies store
    ensures !Truthy(r.customerEmail) ==>
      resp == BadRequest("Customer email is required") && store.invoices == old(store.invoices)
    ensures Truthy(r.customerEmail) ==>
      var generated := GenerateInvoiceNumber(old(store.invoices), year, month);
      resp == Created(NewRecord(old(store.invoices), QuoteRecord(r, generated), now)) &&
      store.invoices == old(store.invoices) + [resp.quote]
  {
    var notes := ComposeNotes(r);
    var quoteNumber := if Truthy(r.quoteNumber) then r.quoteNumber.value
                       else if Truthy(r.invoiceNumber) then r.invoiceNumber.value else "";
    if quoteNumber == "" {
      quoteNumber := GenerateInvoiceNumber(store.invoices, year, month);
    }
    if !Truthy(r.customerEmail) {
      return BadRequest("Customer email is required");
    }
    var data := QuoteRecord(r, GenerateInvoiceNumber(store.invoices, year, month));
    assert data.quoteNumber == quoteNumber && data.notes == notes;
    var quote := store.CreateInvoice(data, now);
    resp := Created(quote);
  }

  /**
   * A created quote is a draft awaiting payment whatever the request says,
   * missing amounts are 0, a missing item list is empty, and its number
   * is the one supplied or, when none is, a number no stored record carries.
   */
  lemma QuoteRecordFields(invoices: seq<Invoice>, r: QuoteRequest, year: nat, month: nat)
    requires Truthy(r.customerEmail)
    ensures var q := QuoteRecord(r, GenerateInvoiceNumber(invoices, year, month));
      q.status == "draft" && q.paymentStatus == "pending" &&
      (r.total.None? ==> q.total == 0.0) && (r.subtotal.None? ==> q.subtotal == 0.0) && (r.gst.None? ==> q.gst == 0.0) &&
      (r.items.None? ==> q.items == []) &&
      (Truthy(r.quoteNumber) ==> q.quoteNumber == r.quoteNumber.value) &&
      (!Truthy(r.quoteNumber) && Truthy(r.invoiceNumber) ==> q.quoteNumber == r.invoiceNumber.value) &&
      (!Truthy(r.quoteNumber) && !Truthy(r.invoiceNumber) ==>
         forall i :: 0 <= i < |invoices| ==> invoices[i].quoteNumber != q.quoteNumber)
  {
    GeneratedNumberIsFresh(invoices, year, month);
  }

  /** A line in a field's place reads back as the field: the four labels differ within their common length. */
  function FieldOf(lines: seq<string>, tag: string): Option<string>
    decreases |lines|
  {
    if |lines| == 0 then None
    else if StartsWith(lines[0], tag) then Some(lines[0][|tag|..])
    else FieldOf(lines[1..], tag)
  }

  /** Two labels that differ at a place both have: a line carrying one does not start with the other. */
  lemma OtherLabel(tag: string, other: string, value: string, i: nat)
    requires i < |tag| && i < |other| && tag[i] != other[i]
    ensures !StartsWith(other + value, tag)
  {
    assert (other + value)[i] == other[i];
  }

  lemma LabelledLine(tag: string, value: string)
    ensures StartsWith(tag + value, tag) && (tag + value)[|tag|..] == value
  {
    assert (tag + value)[..|tag|] == tag;
  }

  /** Reading a field from a list whose first lines carry other labels. */
  lemma FieldOfSkips(lines: seq<string>, rest: seq<string>, tag: string)
    requires forall k :: 0 <= k < |lines| ==> !StartsWith(lines[k], tag)
    ensures FieldOf(lines + rest, tag) == FieldOf(rest, tag)
    decreases |lines|
  {
    if |lines| == 0 {
      assert lines + rest == rest;
    } else {
      assert (lines + rest)[1..] == lines[1..] + rest;
      FieldOfSkips(lines[1..], rest, tag);
    }
  }

  /** Every line of the list is one not carrying `tag`. */
  predicate NoneTagged(lines: seq<string>, tag: string)
  {
    forall k :: 0 <= k < |lines| ==> !StartsWith(lines[k], tag)
  }

  /** The lines before and after the field's own place carry other labels. */
  lemma FieldOfPlace(before: seq<string>, own: seq<string>, after: seq<string>, tag: string, value: string)
    requires NoneTagged(before, tag) && NoneTagged(after, tag)
    requires own == [] || own == [tag + value]
    ensures FieldOf(before + own + after, tag) == (if own == [] then None else Some(value))
  {
    assert before + own + after == before + (own + after);
    FieldOfSkips(before, own + after, tag);
    if own == [] {
      assert own + after == after + [];
      FieldOfSkips(after, [], tag);
    } else {
      LabelledLine(tag, value);
    }
  }

  /**
   * Every supplied extra field can be read back from the lines by its label,
   * and a field not supplied is not found: the lines lose nothing and
   * invent nothing.
   */
  lemma DeliveryFieldsReadBack(r: QuoteRequest)
    ensures FieldOf(ExtraLines(r), DateLabel) == (if Truthy(r.deliveryDate) then r.deliveryDate else None)
    ensures FieldOf(ExtraLines(r), OptionLabel) == (if Truthy(r.deliveryDateOption) then r.deliveryDateOption else None)
  {
    LinesApart(r);
    var a, b, c, d := DateLine(r), OptionLine(r), BaseLine(r), FloorLine(r);
    assert a + b + c + d == [] + a + (b + c + d);
    FieldOfPlace([], a, b + c + d, DateLabel, if Truthy(r.deliveryDate) then r.deliveryDate.value else "");
    assert a + b + c + d == a + b + (c + d);
    FieldOfPlace(a, b, c + d, OptionLabel, if Truthy(r.deliveryDateOption) then r.deliveryDateOption.value else "");
  }

  /** The same for the base and floor lines; "Needs Base" reads back "Yes" or "No". */
  lemma BaseAndFloorReadBack(r: QuoteRequest)
    ensures FieldOf(ExtraLines(r), BaseLabel) ==
      (if r.needsBase.Some? then Some(if r.needsBase.value then "Yes" else "No") else None)
    ensures FieldOf(ExtraLines(r), FloorLabel) == (if Truthy(r.floorType) then r.floorType else None)
  {
    LinesApart(r);
    var a, b, c, d := DateLine(r), OptionLine(r), BaseLine(r), FloorLine(r);
    FieldOfPlace(a + b, c, d, BaseLabel, if r.needsBase.Some? && r.needsBase.value then "Yes" else "No");
    assert a + b + c + d + [] == a + b + c + d;
    FieldOfPlace(a + b + c, d, [], FloorLabel, if Truthy(r.floorType) then r.floorType.value else "");
  }

  /** Each field's label is carried by its own line only. */
  lemma LinesApart(r: QuoteRequest)
    ensures NoneTagged(OptionLine(r) + BaseLine(r) + FloorLine(r), DateLabel)
    ensures NoneTagged(DateLine(r), OptionLabel) && NoneTagged(BaseLine(r) + FloorLine(r), OptionLabel)
    ensures NoneTagged(DateLine(r) + OptionLine(r), BaseLabel) && NoneTagged(FloorLine(r), BaseLabel)
    ensures NoneTagged(DateLine(r) + OptionLine(r) + BaseLine(r), FloorLabel) && NoneTagged([], FloorLabel)
  {
    LabelsApart();
  }

  /** No line of one field starts with another field's label. */
  lemma LabelsApart()
    ensures forall v :: !StartsWith(OptionLabel + v, DateLabel) && !StartsWith(BaseLabel + v, DateLabel) && !StartsWith(FloorLabel + v, DateLabel)
    ensures forall v :: !StartsWith(DateLabel + v, OptionLabel) && !StartsWith(BaseLabel + v, OptionLabel) && !StartsWith(FloorLabel + v, OptionLabel)
    ensures forall v :: !StartsWith(DateLabel + v, BaseLabel) && !StartsWith(OptionLabel + v, BaseLabel) && !StartsWith(FloorLabel + v, BaseLabel)
    ensures forall v :: !StartsWith(DateLabel + v, FloorLabel) && !StartsWith(OptionLabel + v, FloorLabel) && !StartsWith(BaseLabel + v, FloorLabel)
  {
    assert DateLabel[9] == 'D' && OptionLabel[9] == 'O';
    assert DateLabel[0] == 'D' && OptionLabel[0] == 'D' && BaseLabel[0] == 'N' && FloorLabel[0] == 'F';
    forall v: string ensures !StartsWith(OptionLabel + v, DateLabel) && !StartsWith(BaseLabel + v, DateLabel) && !StartsWith(FloorLabel + v, DateLabel)
      && !StartsWith(DateLabel + v, OptionLabel) && !StartsWith(BaseLabel + v, OptionLabel) && !StartsWith(FloorLabel + v, OptionLabel)
      && !StartsWith(DateLabel + v, BaseLabel) && !StartsWith(OptionLabel + v, BaseLabel) && !StartsWith(FloorLabel + v, BaseLabel)
      && !StartsWith(DateLabel + v, FloorLabel) && !StartsWith(OptionLabel + v, FloorLabel) && !StartsWith(BaseLabel + v, FloorLabel)
    {
      OtherLabel(DateLabel, OptionLabel, v, 9);
      OtherLabel(DateLabel, BaseLabel, v, 0);
      OtherLabel(DateLabel, FloorLabel, v, 0);
      OtherLabel(OptionLabel, DateLabel, v, 9);
      OtherLabel(OptionLabel, BaseLabel, v, 0);
      OtherLabel(OptionLabel, FloorLabel, v, 0);
      OtherLabel(BaseLabel, DateLabel, v, 0);
      OtherLabel(BaseLabel, OptionLabel, v, 0);
      OtherLabel(BaseLabel, FloorLabel, v, 0);
      OtherLabel(FloorLabel, DateLabel, v, 0);
      OtherLabel(FloorLabel, OptionLabel, v, 0);
      OtherLabel(FloorLabel, BaseLabel, v, 0);
    }
  }

  /**
   * The stored notes split into lines: the request's notes, one blank line,
   * then the extra lines one per line; the extra lines alone when there
   * are no notes; the notes untouched when there are no extra lines.
   */
  lemma ComposedNotesLines(notes: Option<string>, lines: seq<string>)
    requires forall k, i :: 0 <= k < |lines| && 0 <= i < |lines[k]| ==> lines[k][i] != '\n'
    ensures |lines| == 0 ==> ComposedNotes(notes, lines) == notes
    ensures |lines| > 0 && Truthy(notes) ==>
      StartsWith(ComposedNotes(notes, lines).value, notes.value) &&
      Split(ComposedNotes(notes, lines).value, '\n') == Split(notes.value, '\n') + [""] + lines
    ensures |lines| > 0 && !Truthy(notes) ==> Split(ComposedNotes(notes, lines).value, '\n') == lines
  {
    if |lines| > 0 {
      var j := Join(lines, "\n");
      assert "\n" == ['\n'];
      SplitJoin(lines, '\n');
      if Truthy(notes) {
        var n := notes.value;
        var s := n + "\n\n" + j;
        assert s == n + ['\n'] + ([] + ['\n'] + j);
        assert s[..|n|] == n;
        SplitConcat(n, '\n', [] + ['\n'] + j);
        SplitConcat([], '\n', j);
      }
    }
  }

  // ---------------------------------------------------------------------
  // GET

  /** `parseInt(param || fallback)`; `None` stands for NaN. */
  function NumberParam(param: Option<string>, fallback: string): Option<int>
  {
    ParseInt(if Truthy(param) then param.value else fallback)
  }

  /** Missing parameters give page 1 of 50, that is offset 0. */
  lemma DefaultParams()
    ensures NumberParam(None, "1") == Some(1) && NumberParam(None, "50") == Some(50)
    ensures Offset(1, 50) == 0
  {
    ParseDigits("1");
    ParseDigits("50");
  }

  /** `(page - 1) * limit` */
  function Offset(page: int, limit: int): int
  {
    (page - 1) * limit
  }

  /** `Math.ceil(totalCount / limit)`: a whole number, or ±Infinity or NaN for a limit of 0. */
  datatype PageCount = Pages(n: int) | Infinite | NotANumber

  function TotalPages(totalCount: nat, limit: int): PageCount
  {
    if limit > 0 then Pages((totalCount + limit - 1) / limit)
    else if limit < 0 then Pages(-(totalCount / -limit))
    else if totalCount > 0 then Infinite
    else NotANumber
  }

  datatype Pagination = Pagination(page: int, limit: int, totalCount: nat, totalPages: PageCount,
                                   hasNextPage: bool, hasPreviousPage: bool)

  /** `page < totalPages`: always true against Infinity, always false against NaN. */
  predicate Below(page: int, pages: PageCount)
  {
    match pages
    case Pages(n) => page < n
    case Infinite => true
    case NotANumber => false
  }

  /** The first 1000 active records are counted, and the requested page of them is returned. */
  function CountedRecords(invoices: seq<Invoice>): nat
  {
    |AllInvoices(invoices, 1000, 0)|
  }

  datatype Listing = Listing(quotes: seq<Invoice>, pagination: Pagination)

  /** `GET` for a page and a limit that parsed as numbers. */
  function Get(invoices: seq<Invoice>, page: int, limit: int): Listing
  {
    var totalCount := CountedRecords(invoices);
    var totalPages := TotalPages(totalCount, limit);
    Listing(AllInvoices(invoices, limit, Offset(page, limit)),
            Pagination(page, limit, totalCount, totalPages, Below(page, totalPages), page > 1))
  }

  /** The total count is the number of active records, capped at 1000. */
  lemma CountCapped(invoices: seq<Invoice>)
    ensures CountedRecords(invoices) == MinInt(|Active(invoices)|, 1000)
  {
    NewestFirstSpec(Active(invoices));
    assert |NewestFirst(Active(invoices))| == |Active(invoices)| by {
      assert |multiset(NewestFirst(Active(invoices)))| == |multiset(Active(invoices))|;
    }
  }

  /**
   * For a positive limit the page count is the least number of pages of
   * `limit` records that hold them all, and a next page is announced
   * exactly when records lie beyond this page.
   */
  lemma PageCountBounds(invoices: seq<Invoice>, page: int, limit: int)
    requires limit > 0
    ensures var p := Get(invoices, page, limit).pagination;
      p.totalPages.Pages? &&
      (p.totalPages.n - 1) * limit < p.totalCount + (if p.totalCount == 0 then limit else 0) &&
      p.totalCount <= p.totalPages.n * limit &&
      (p.totalPages.n == 0 <==> p.totalCount == 0) &&
      (p.hasNextPage <==> page * limit < p.totalCount) &&
      (p.hasPreviousPage <==> page >= 2)
  {
    var c := CountedRecords(invoices);
    var n := (c + limit - 1) / limit;
    var p := Get(invoices, page, limit).pagination;
    assert p.totalCount == c && p.totalPages == Pages(n) && p.hasNextPage == (page < n);
    CeilDivBounds(c, limit);
    NextPageIff(c, n, page, limit);
  }

  lemma NextPageIff(c: nat, n: int, page: int, limit: int)
    requires limit > 0 && (n - 1) * limit < c + (if c == 0 then limit else 0) && c <= n * limit
    requires n == 0 <==> c == 0
    ensures page < n <==> page * limit < c
  {
    if page < n && c == 0 {
      MulMono(page, -1, limit);
    } else if page < n {
      MulMono(page, n - 1, limit);
    } else {
      MulMono(n, page, limit);
    }
  }

  lemma CeilDivBounds(c: nat, limit: int)
    requires limit > 0
    ensures var n := (c + limit - 1) / limit;
      n >= 0 && (n - 1) * limit < c + (if c == 0 then limit else 0) && c <= n * limit && (n == 0 <==> c == 0)
  {
    var n := (c + limit - 1) / limit;
    var m := (c + limit - 1) % limit;
    assert n * limit + m == c + limit - 1 && 0 <= m < limit;
    assert n * limit == c + limit - 1 - m;
    assert (n - 1) * limit == n * limit - limit;
  }

  lemma MulMono(a: int, b: int, limit: int)
    requires a <= b && limit > 0
    ensures a * limit <= b * limit
  {
    assert b * limit - a * limit == (b - a) * limit;
  }

  /** Page `page` starts where page `page - 1` ended: two consecutive pages are one window of twice the size. */
  lemma ConsecutivePages(invoices: seq<Invoice>, page: int, limit: int)
    requires page >= 1 && limit > 0
    ensures Get(invoices, page, limit).quotes + Get(invoices, page + 1, limit).quotes ==
      AllInvoices(invoices, 2 * limit, Offset(page, limit))
  {
    var o := Offset(page, limit);
    assert Offset(page + 1, limit) == o + limit;
    assert o >= 0 by { MulMono(0, page - 1, limit); }
    AdjacentSlices(NewestFirst(Active(invoices)), o, limit);
  }

  lemma AdjacentSlices<T>(s: seq<T>, o: int, limit: int)
    requires o >= 0 && limit > 0
    ensures Slice(s, o, o + limit) + Slice(s, o + limit, o + limit + limit) == Slice(s, o, o + 2 * limit)
  {
    var i := MinInt(o, |s|);
    var j := MinInt(o + limit, |s|);
    var k := MinInt(o + 2 * limit, |s|);
    assert Slice(s, o, o + limit) == s[i..j];
    assert Slice(s, o + limit, o + limit + limit) == s[j..k];
    assert Slice(s, o, o + 2 * limit) == s[i..k];
    assert s[i..j] + s[j..k] == s[i..k];
  }
}
