// src/components/invoice/InvoiceFormOrdered.tsx: the one-page invoice form.
// Its handlers are modelled as functions of the form state: the delivery
// fee tiers, the two-person surcharge, the fee the invoice is charged, the
// composed address, the product checkboxes, the month stepper of the date
// dialog and the rule that enables Save and Pay Now.  Distances are whole
// kilometres (the Distance Matrix result is rounded before it is stored).

module InvoiceForm {
  import opened Wrappers
  import opened Text
  import Products

  /** The outcome of `calculateDeliveryFee`; a fee of -1 means "quote needed". */
  datatype DeliveryQuote = DeliveryQuote(fee: int, message: string)

  const FreeMessage := "Free delivery!"
  const GraceMessage := "You're just outside our free zone, but we'll give you free delivery anyway!"
  const QuoteMessage := "Please contact us for a custom delivery quote (beyond 110km)"

  /** The fee sentinel for addresses beyond the delivery area. */
  const QuoteNeeded := -1

  /**
   * `calculateDeliveryFee(distance)`: free up to 15 km, free as a courtesy
   * up to 18 km, $2 a kilometre up to 110 km and a quote beyond.  The
   * number in the per-kilometre message is written by `show`.
   */
  function CalculateDeliveryFee(distance: nat, show: int -> string): DeliveryQuote
  {
    if distance <= 15 then DeliveryQuote(0, FreeMessage)
    else if distance <= 18 then DeliveryQuote(0, GraceMessage)
    else if distance <= 110 then
      DeliveryQuote(distance * 2, "$" + show(distance * 2) + " delivery fee (" + show(distance) + "km from warehouse)")
    else DeliveryQuote(QuoteNeeded, QuoteMessage)
  }

  /** The three tiers of the fee, read off the result. */
  lemma FeeTiers(distance: nat, show: int -> string)
    ensures CalculateDeliveryFee(distance, show).fee == 0 <==> distance <= 18
    ensures CalculateDeliveryFee(distance, show).fee == QuoteNeeded <==> distance > 110
    ensures 18 < distance <= 110 ==> CalculateDeliveryFee(distance, show).fee == 2 * distance
    ensures CalculateDeliveryFee(distance, show).fee >= 0 ==> CalculateDeliveryFee(distance, show).fee <= 220
  {
  }

  /** Within the delivery area the fee never falls as the distance grows. */
  lemma FeeMonotone(d1: nat, d2: nat, show: int -> string)
    requires d1 <= d2 <= 110
    ensures CalculateDeliveryFee(d1, show).fee <= CalculateDeliveryFee(d2, show).fee
  {
  }

  /** The fee does not depend on how numbers are written. */
  lemma FeeIgnoresFormatting(distance: nat, show1: int -> string, show2: int -> string)
    ensures CalculateDeliveryFee(distance, show1).fee == CalculateDeliveryFee(distance, show2).fee
  {
  }

  /** Two people cost $50, plus $2.50 for every kilometre past 15. */
  function TwoPersonFee(distance: nat): real
  {
    if distance <= 15 then 50.0 else 50.0 + (distance - 15) as real * 2.5
  }

  /** The surcharge is at least $50, and rises by $2.50 a kilometre past 15 km. */
  lemma TwoPersonFeeShape(d1: nat, d2: nat)
    requires d1 <= d2
    ensures TwoPersonFee(d1) >= 50.0
    ensures TwoPersonFee(d1) <= TwoPersonFee(d2)
    ensures 15 <= d1 ==> TwoPersonFee(d2) - TwoPersonFee(d1) == (d2 - d1) as real * 2.5
  {
  }

  /** The base fee: the custom fee for a quoted address that has one, otherwise the tier fee, never negative. */
  function BaseDeliveryFee(tierFee: int, customFee: Option<real>): real
  {
    if tierFee == QuoteNeeded && customFee.Some? then customFee.value
    else if tierFee > 0 then tierFee as real
    else 0.0
  }

  lemma BaseFeeCases(tierFee: int, customFee: Option<real>)
    ensures tierFee != QuoteNeeded ==> BaseDeliveryFee(tierFee, customFee) == MaxInt(tierFee, 0) as real
    ensures tierFee == QuoteNeeded && customFee.None? ==> BaseDeliveryFee(tierFee, customFee) == 0.0
    ensures tierFee == QuoteNeeded && customFee.Some? ==> BaseDeliveryFee(tierFee, customFee) == customFee.value
  {
  }

  /** A product as it sits in the selection: the catalogue entry and its quantity. */
  datatype Selected = Selected(product: Products.Product, quantity: int)

  /** The form state the modelled handlers read and write. */
  datatype FormData = FormData(
    address: string,
    suburb: string,
    state: string,
    postcode: string,
    distance: nat,
    customDeliveryFee: Option<real>,
    deliveryDate: string,
    callLater: bool,
    selectedProducts: seq<Selected>,
    needsBase: bool,
    floorType: string,
    customerName: string,
    customerEmail: string,
    customerPhone: string,
    twoPersonDelivery: bool)

  /** The fee the effect writes into the notes: the base fee plus a surcharge that is 0 unless two people are booked. */
  function EffectDeliveryFee(form: FormData, show: int -> string): real
  {
    var tier := CalculateDeliveryFee(form.distance, show);
    var twoPerson := if form.twoPersonDelivery then TwoPersonFee(form.distance) else 0.0;
    BaseDeliveryFee(tier.fee, form.customDeliveryFee) + twoPerson
  }

  /** The fee the form displays: the surcharge is always computed and added only when two people are booked. */
  function DisplayedDeliveryFee(form: FormData, show: int -> string): real
  {
    var tier := CalculateDeliveryFee(form.distance, show);
    var twoPerson := TwoPersonFee(form.distance);
    var base := BaseDeliveryFee(tier.fee, form.customDeliveryFee);
    if form.twoPersonDelivery then base + twoPerson else base
  }

  /** The two computations of the delivery fee agree, and both add the surcharge exactly when two people are booked. */
  lemma DeliveryFeeAgrees(form: FormData, show: int -> string)
    ensures EffectDeliveryFee(form, show) == DisplayedDeliveryFee(form, show)
    ensures form.twoPersonDelivery ==>
      DisplayedDeliveryFee(form, show) ==
        BaseDeliveryFee(CalculateDeliveryFee(form.distance, show).fee, form.customDeliveryFee) + TwoPersonFee(form.distance)
    ensures !form.twoPersonDelivery ==>
      DisplayedDeliveryFee(form, show) == BaseDeliveryFee(CalculateDeliveryFee(form.distance, show).fee, form.customDeliveryFee)
  {
  }

  /** Within 18 km a one-person delivery is free and a two-person one costs exactly the surcharge. */
  lemma NearbyDelivery(form: FormData, show: int -> string)
    requires form.distance <= 18
    ensures !form.twoPersonDelivery ==> DisplayedDeliveryFee(form, show) == 0.0
    ensures form.twoPersonDelivery ==> DisplayedDeliveryFee(form, show) == TwoPersonFee(form.distance)
  {
  }

  /** The customer address the effect writes: the four parts, or '' unless street, suburb and postcode are all filled. */
  function FullAddress(form: FormData): string
  {
    if form.address != "" && form.suburb != "" && form.postcode != "" then
      form.address + ", " + form.suburb + " " + form.state + " " + form.postcode
    else ""
  }

  lemma FullAddressFilled(form: FormData)
    ensures FullAddress(form) != "" <==> (form.address != "" && form.suburb != "" && form.postcode != "")
    ensures FullAddress(form) != "" ==> StartsWith(FullAddress(form), form.address + ", ")
  {
    if form.address != "" && form.suburb != "" && form.postcode != "" {
      var full := FullAddress(form);
      assert full == (form.address + ", ") + (form.suburb + " " + form.state + " " + form.postcode);
    }
  }

  /**
   * The street field a form opens with: the text before the first comma of
   * the invoice's address, or '' without one.
   */
  function InitialStreet(customerAddress: Option<string>): string
  {
    match customerAddress
    case None => ""
    case Some(a) => Split(a, ',')[0]
  }

  /** A form reopened on the address it composed gets its street back, when the street has no comma. */
  lemma {:induction false} StreetRoundTrip(form: FormData)
    requires form.address != "" && form.suburb != "" && form.postcode != ""
    requires forall i :: 0 <= i < |form.address| ==> form.address[i] != ','
    ensures InitialStreet(Some(FullAddress(form))) == form.address
  {
    var rest := " " + form.suburb + " " + form.state + " " + form.postcode;
    assert FullAddress(form) == form.address + [','] + rest;
    SplitConcat(form.address, ',', rest);
    SplitWithout(form.address, ',');
  }

  /** What the invoice records about access: whether a base is needed and on which floor. */
  function DeliveryAccess(form: FormData): string
  {
    if form.needsBase then "Base required - " + form.floorType + " floor" else "No base required"
  }

  /** The first line of the notes: the total fee, or FREE when it is 0, and the distance. */
  function FeeLine(fee: real, distance: nat, number: real -> string): string
  {
    "Delivery: " + (if fee == 0.0 then "FREE" else "$" + number(fee)) + " (" + NatToString(distance) + "km)"
  }

  /** The line a two-person delivery adds, with its surcharge. */
  function TwoPersonLine(surcharge: real, number: real -> string): string
  {
    "2-Person Delivery: YES (additional $" + number(surcharge) + ")"
  }

  function DateLine(form: FormData): string
  {
    "Delivery Date: " + (if form.callLater then "Call to schedule" else form.deliveryDate)
  }

  /**
   * The `deliveryNotes` the effect writes into the invoice's notes.
   * `number` is JavaScript's `${n}` of an amount.
   */
  function DeliveryNotes(form: FormData, show: int -> string, number: real -> string): string
  {
    var first := FeeLine(EffectDeliveryFee(form, show), form.distance, number);
    if form.twoPersonDelivery then first + "\n" + TwoPersonLine(TwoPersonFee(form.distance), number) + "\n" + DateLine(form)
    else first + "\n" + DateLine(form)
  }

  lemma FeeLineOneLine(fee: real, distance: nat, number: real -> string)
    requires NoNewline(number(fee))
    ensures NoNewline(FeeLine(fee, distance, number))
  {
    var amount := if fee == 0.0 then "FREE" else "$" + number(fee);
    NatToStringDigits(distance);
    NoNewlineConcat("Delivery: ", amount, " (", NatToString(distance));
    NoNewlineAppend("Delivery: " + amount + " (" + NatToString(distance), "km)");
  }

  /** The fee line reads "Delivery: FREE" exactly when the fee is 0. */
  lemma FeeLineSaysFree(fee: real, distance: nat, number: real -> string)
    ensures StartsWith(FeeLine(fee, distance, number), "Delivery: FREE") <==> fee == 0.0
  {
    var amount := if fee == 0.0 then "FREE" else "$" + number(fee);
    var line := FeeLine(fee, distance, number);
    assert line == "Delivery: " + amount + (" (" + NatToString(distance) + "km)");
    assert line[10] == amount[0];
  }

  lemma TwoPersonLineOneLine(surcharge: real, number: real -> string)
    requires NoNewline(number(surcharge))
    ensures NoNewline(TwoPersonLine(surcharge, number))
  {
    NoNewlineAppend("2-Person Delivery: YES (additional $", number(surcharge));
    NoNewlineAppend("2-Person Delivery: YES (additional $" + number(surcharge), ")");
  }

  lemma DateLineOneLine(callLater: bool, deliveryDate: string)
    requires !callLater ==> NoNewline(deliveryDate)
    ensures NoNewline("Delivery Date: " + (if callLater then "Call to schedule" else deliveryDate))
  {
    NoNewlineAppend("Delivery Date: ", if callLater then "Call to schedule" else deliveryDate);
  }

  /**
   * With no line break inside the amounts or the date, the notes are the
   * fee line, the two-person line exactly when two people are booked, and
   * the date line; the fee line says FREE exactly when the fee is 0.
   */
  lemma DeliveryNotesLines(form: FormData, show: int -> string, number: real -> string)
    requires NoNewline(number(EffectDeliveryFee(form, show)))
    requires form.twoPersonDelivery ==> NoNewline(number(TwoPersonFee(form.distance)))
    requires !form.callLater ==> NoNewline(form.deliveryDate)
    ensures var lines := Split(DeliveryNotes(form, show, number), '\n');
      |lines| == (if form.twoPersonDelivery then 3 else 2) &&
      lines[0] == FeeLine(EffectDeliveryFee(form, show), form.distance, number) &&
      lines[|lines| - 1] == DateLine(form) &&
      (form.twoPersonDelivery ==> lines[1] == TwoPersonLine(TwoPersonFee(form.distance), number))
    ensures StartsWith(FeeLine(EffectDeliveryFee(form, show), form.distance, number), "Delivery: FREE") <==> EffectDeliveryFee(form, show) == 0.0
  {
    var fee := FeeLine(EffectDeliveryFee(form, show), form.distance, number);
    var t, d := TwoPersonLine(TwoPersonFee(form.distance), number), DateLine(form);
    FeeLineOneLine(EffectDeliveryFee(form, show), form.distance, number);
    FeeLineSaysFree(EffectDeliveryFee(form, show), form.distance, number);
    DateLineOneLine(form.callLater, form.deliveryDate);
    if form.twoPersonDelivery {
      TwoPersonLineOneLine(TwoPersonFee(form.distance), number);
    }
    SplitWithout(fee, '\n');
    SplitWithout(d, '\n');
    if form.twoPersonDelivery {
      SplitWithout(t, '\n');
      assert DeliveryNotes(form, show, number) == fee + ['\n'] + (t + ['\n'] + d);
      SplitConcat(fee, '\n', t + ['\n'] + d);
      SplitConcat(t, '\n', d);
    } else {
      assert DeliveryNotes(form, show, number) == fee + ['\n'] + d;
      SplitConcat(fee, '\n', d);
    }
  }

  /** The invoice fields the effect overwrites from the form; everything else of the invoice is kept. */
  datatype FormInvoice = FormInvoice(
    customerName: string,
    customerEmail: string,
    customerPhone: string,
    customerAddress: string,
    items: seq<Selected>,
    deliveryAccess: string,
    deliveryDate: string,
    callLater: bool,
    needsBase: bool,
    floorType: string,
    notes: string)

  function UpdatedInvoice(form: FormData, show: int -> string, number: real -> string): FormInvoice
  {
    FormInvoice(form.customerName, form.customerEmail, form.customerPhone, FullAddress(form),
      form.selectedProducts, DeliveryAccess(form), form.deliveryDate, form.callLater,
      form.needsBase, form.floorType, DeliveryNotes(form, show, number))
  }

  /** Whether a checkbox is ticked: some selected entry has the product's SKU. */
  predicate IsSelected(selected: seq<Selected>, sku: string)
  {
    exists k :: 0 <= k < |selected| && selected[k].product.sku == sku
  }

  /** The selection without any entry of that SKU, in order. */
  function WithoutSku(selected: seq<Selected>, sku: string): (r: seq<Selected>)
    ensures |r| <= |selected|
    decreases |selected|
  {
    if |selected| == 0 then []
    else if selected[0].product.sku == sku then WithoutSku(selected[1..], sku)
    else [selected[0]] + WithoutSku(selected[1..], sku)
  }

  /** The checkbox handler: ticking appends the product with quantity 1, unticking drops every entry with its SKU. */
  function ToggleProduct(form: FormData, product: Products.Product, checked: bool): FormData
  {
    if checked then form.(selectedProducts := form.selectedProducts + [Selected(product, 1)])
    else form.(selectedProducts := WithoutSku(form.selectedProducts, product.sku))
  }

  /** Unticking keeps exactly the entries with another SKU. */
  lemma {:induction false} WithoutSkuMembers(selected: seq<Selected>, sku: string, e: Selected)
    ensures e in WithoutSku(selected, sku) <==> e in selected && e.product.sku != sku
    decreases |selected|
  {
    if |selected| > 0 {
      WithoutSkuMembers(selected[1..], sku, e);
      assert selected == [selected[0]] + selected[1..];
    }
  }

  lemma {:induction false} WithoutSkuAbsent(selected: seq<Selected>, sku: string)
    requires !IsSelected(selected, sku)
    ensures WithoutSku(selected, sku) == selected
    decreases |selected|
  {
    if |selected| > 0 {
      assert selected[0].product.sku != sku;
      assert !IsSelected(selected[1..], sku) by {
        forall k | 0 <= k < |selected[1..]|
          ensures selected[1..][k].product.sku != sku
        {
          assert selected[1..][k] == selected[k + 1];
        }
      }
      WithoutSkuAbsent(selected[1..], sku);
      assert selected == [selected[0]] + selected[1..];
    }
  }

  lemma {:induction false} WithoutSkuAppend(selected: seq<Selected>, extra: seq<Selected>, sku: string)
    ensures WithoutSku(selected + extra, sku) == WithoutSku(selected, sku) + WithoutSku(extra, sku)
    decreases |selected|
  {
    if |selected| == 0 {
      assert selected + extra == extra;
    } else {
      assert (selected + extra)[1..] == selected[1..] + extra;
      WithoutSkuAppend(selected[1..], extra, sku);
    }
  }

  /** After unticking, the box shows unticked. */
  lemma UntickClears(form: FormData, product: Products.Product)
    ensures !IsSelected(ToggleProduct(form, product, false).selectedProducts, product.sku)
  {
    var r := WithoutSku(form.selectedProducts, product.sku);
    forall k | 0 <= k < |r|
      ensures r[k].product.sku != product.sku
    {
      WithoutSkuMembers(form.selectedProducts, product.sku, r[k]);
    }
  }

  /** Ticking an unticked box and unticking it again gives back the selection it started from. */
  lemma TickThenUntick(form: FormData, product: Products.Product)
    requires !IsSelected(form.selectedProducts, product.sku)
    ensures ToggleProduct(ToggleProduct(form, product, true), product, false) == form
  {
    var added := [Selected(product, 1)];
    WithoutSkuAppend(form.selectedProducts, added, product.sku);
    WithoutSkuAbsent(form.selectedProducts, product.sku);
    assert WithoutSku(added, product.sku) == [];
  }

  /** Ticking shows the box ticked and changes nothing else of the form. */
  lemma TickSelects(form: FormData, product: Products.Product)
    ensures IsSelected(ToggleProduct(form, product, true).selectedProducts, product.sku)
    ensures ToggleProduct(form, product, true).selectedProducts[..|form.selectedProducts|] == form.selectedProducts
    ensures ToggleProduct(form, product, true).(selectedProducts := form.selectedProducts) == form
  {
    var s := ToggleProduct(form, product, true).selectedProducts;
    assert s[|form.selectedProducts|].product.sku == product.sku;
  }

  /** The month dialog's back arrow: one month earlier, December before January. */
  function PreviousMonth(month: int): int
  {
    if month > 1 then month - 1 else 12
  }

  /** The month dialog's forward arrow: one month later, January after December. */
  function NextMonth(month: int): int
  {
    if month < 12 then month + 1 else 1
  }

  /** The arrows keep a month within 1 to 12, wrap at the ends and undo each other. */
  lemma MonthStepper(month: int)
    requires 1 <= month <= 12
    ensures 1 <= NextMonth(month) <= 12 && 1 <= PreviousMonth(month) <= 12
    ensures NextMonth(12) == 1 && PreviousMonth(1) == 12
    ensures PreviousMonth(NextMonth(month)) == month
    ensures NextMonth(PreviousMonth(month)) == month
  {
  }

  /** Twelve steps forward come back to the month they started from. */
  function StepForward(month: int, n: nat): int
    decreases n
  {
    if n == 0 then month else StepForward(NextMonth(month), n - 1)
  }

  lemma {:induction false} StepForwardIsModular(month: int, n: nat)
    requires 1 <= month <= 12
    ensures StepForward(month, n) == (month - 1 + n) % 12 + 1
    decreases n
  {
    if n > 0 {
      StepForwardIsModular(NextMonth(month), n - 1);
    }
  }

  lemma YearOfSteps(month: int)
    requires 1 <= month <= 12
    ensures StepForward(month, 12) == month
  {
    StepForwardIsModular(month, 12);
  }

  /** Save Invoice and Pay Now are enabled only with a name, an email and a product. */
  predicate CanSubmit(form: FormData)
  {
    form.customerName != "" && form.customerEmail != "" && |form.selectedProducts| > 0
  }

  /** With a name and an email, ticking any product enables the buttons, and unticking the only one disables them. */
  lemma ToggleAndSubmit(form: FormData, product: Products.Product)
    requires form.customerName != "" && form.customerEmail != ""
    ensures CanSubmit(ToggleProduct(form, product, true))
    ensures form.selectedProducts == [Selected(product, 1)] ==> !CanSubmit(ToggleProduct(form, product, false))
  {
    if form.selectedProducts == [Selected(product, 1)] {
      assert WithoutSku(form.selectedProducts, product.sku) == WithoutSku([], product.sku);
    }
  }
  /** One of the quick delivery dates: its button caption, its short date and its `YYYY-MM-DD` value. */
  datatype DateOption = DateOption(caption: string, date: string, value: string)

  /**
   * The option `offset` days after `today` (a day number); the weekday
   * name, the short date and the ISO date are written by the locale
   * functions passed in.
   */
  function DateOptionAt(today: int, offset: nat, weekday: int -> string, shortDate: int -> string,
                        isoDate: int -> string): DateOption
  {
    var day := today + offset;
    var caption := if offset == 0 then "Today" else if offset == 1 then "Tomorrow" else weekday(day);
    DateOption(caption, shortDate(day), isoDate(day))
  }

  /** The `dateOptions` loop: today and the next five days, in order. */
  method DateOptions(today: int, weekday: int -> string, shortDate: int -> string, isoDate: int -> string)
    returns (options: seq<DateOption>)
    ensures |options| == 6
    ensures forall i :: 0 <= i < 6 ==> options[i] == DateOptionAt(today, i, weekday, shortDate, isoDate)
    ensures options[0].caption == "Today" && options[1].caption == "Tomorrow"
    ensures forall i :: 2 <= i < 6 ==> options[i].caption == weekday(today + i)
    ensures forall i :: 0 <= i < 6 ==> options[i].value == isoDate(today + i)
  {
    options := [];
    var i := 0;
    while i < 6
      invariant 0 <= i <= 6 && |options| == i
      invariant forall k :: 0 <= k < i ==> options[k] == DateOptionAt(today, k, weekday, shortDate, isoDate)
    {
      options := options + [DateOptionAt(today, i, weekday, shortDate, isoDate)];
      i := i + 1;
    }
  }
}
