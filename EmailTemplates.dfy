// src/utils/emailTemplates.ts: the plain-text emails, the light HTML made
// from them line by line, the figures of the older "fancy" HTML email,
// and the subject lines. `toFixed(2)` is the parameter `money`.

module EmailTemplates {
  import opened Wrappers
  import opened Text

  datatype EmailItem = EmailItem(name: string, quantity: int, price: real, sku: Option<string>)

  /** `EmailData`; an optional text that is missing is `None`, and `${}` prints it as "undefined". */
  datatype EmailData = EmailData(
    customerName: string,
    customerEmail: string,
    customerPhone: Option<string>,
    customerAddress: Option<string>,
    quoteNumber: string,
    total: real,
    gstAmount: Option<real>,
    items: seq<EmailItem>,
    paymentLink: Option<string>,
    message: Option<string>,
    deliveryDate: Option<string>,
    deliveryWindow: Option<string>,
    hasStairs: bool,
    removeOldMattress: bool,
    deliveryInstructions: Option<string>)

  const Phone: string := "0450 606 589"

  /** `${v}` */
  function Show(v: Option<string>): string
  {
    if v.Some? then v.value else "undefined"
  }

  /** A text that is present and not empty, as `if (v)` tests it. */
  predicate Filled(v: Option<string>)
  {
    v.Some? && v.value != ""
  }

  /** The delivery choices the quote email lists, in the order they are pushed. */
  function DeliveryOptions(data: EmailData): (r: seq<string>)
    ensures |r| == 0 <==> !Filled(data.deliveryDate) && !data.hasStairs && !data.removeOldMattress
  {
    (if Filled(data.deliveryDate) then ["Delivery: " + data.deliveryDate.value + ", " + Show(data.deliveryWindow)] else [])
    + (if data.hasStairs then ["Stairs: Yes (2 person delivery)"] else [])
    + (if data.removeOldMattress then ["Old mattress removal: Yes"] else [])
  }

  /** `- ${name}` with ` x${quantity}` only for more than one. */
  function ItemLine(item: EmailItem): string
  {
    "- " + item.name + (if item.quantity > 1 then " x" + IntToString(item.quantity) else "")
  }

  function ItemLines(items: seq<EmailItem>): (r: seq<string>)
    ensures |r| == |items| && forall k :: 0 <= k < |items| ==> r[k] == ItemLine(items[k])
  {
    seq(|items|, k requires 0 <= k < |items| => ItemLine(items[k]))
  }

  function OptionLines(options: seq<string>): (r: seq<string>)
    ensures |r| == |options| && forall k :: 0 <= k < |options| ==> r[k] == "- " + options[k]
  {
    seq(|options|, k requires 0 <= k < |options| => "- " + options[k])
  }

  /** `data.items[0]?.name || 'mattress'` */
  function FirstItemName(data: EmailData): string
  {
    if |data.items| > 0 && data.items[0].name != "" then data.items[0].name else "mattress"
  }

  /**
   * The quote email, line by line: the template literal is these lines
   * joined by "\n" (the item and option lists are one line each here,
   * themselves joined by "\n").
   */
  function QuoteLines(data: EmailData, money: real -> string): seq<string>
  {
    var options := DeliveryOptions(data);
    [data.customerName + ", your " + FirstItemName(data) + " is ready to order.", "", Show(data.paymentLink), ""]
    + (if |options| > 0
       then ["What you selected:", Join(ItemLines(data.items), "\n"), Join(OptionLines(options), "\n"), ""]
       else [])
    + ["Total: $" + money(data.total), ""]
    + (if Filled(data.message) then [data.message.value, ""] else [])
    + ["Karl", Phone]
  }

  /** The templates `getPlainTextEmail` knows. */
  datatype Template = Quote | PaymentReceived | DeliverySchedule | DeliveryTomorrow | CheckIn

  function TemplateOf(templateId: string): Option<Template>
  {
    if templateId == "quote" then Some(Quote)
    else if templateId == "payment-received" then Some(PaymentReceived)
    else if templateId == "delivery-schedule" then Some(DeliverySchedule)
    else if templateId == "delivery-tomorrow" then Some(DeliveryTomorrow)
    else if templateId == "30-day-checkin" then Some(CheckIn)
    else None
  }

  const CallSoon: string := "I'll call you within 48 hours to lock in delivery."
  const DriverCalls: string := "Driver will call when 30 mins away."
  const DriverClose: string := "Driver will call when close."
  const JustReply: string := "Just reply and let me know."
  const TrialLeft: string := "Remember you've got 70 more nights if you want to change anything."

  /** The lines of each template. */
  function Lines(template: Template, data: EmailData, money: real -> string): seq<string>
  {
    match template
    case Quote => QuoteLines(data, money)
    case PaymentReceived =>
      ["Got your payment " + data.customerName + ".", "", CallSoon, "",
       "Order: #" + data.quoteNumber, "Amount paid: $" + money(data.total), "", "Karl", Phone]
    case DeliverySchedule =>
      ["Locked in for " + Show(data.deliveryDate) + ", " + Show(data.deliveryWindow) + ".", "", DriverCalls,
       if Filled(data.deliveryInstructions) then "We've got your instructions: " + data.deliveryInstructions.value else "",
       "", "Karl", Phone]
    case DeliveryTomorrow =>
      ["See you tomorrow between " + Show(data.deliveryWindow) + ".", "", DriverClose, "", "Karl"]
    case CheckIn =>
      [data.customerName + ", been 30 days - how's the mattress?", "", JustReply, "", TrialLeft, "", "Karl", Phone]
  }

  /** The lines of the template an id names; `None` for an unknown id. */
  function TemplateLines(templateId: string, data: EmailData, money: real -> string): Option<seq<string>>
  {
    match TemplateOf(templateId)
    case None => None
    case Some(t) => Some(Lines(t, data, money))
  }

  /** `getPlainTextEmail(templateId, data)` */
  function PlainTextEmail(templateId: string, data: EmailData, money: real -> string): string
  {
    match TemplateLines(templateId, data, money)
    case None => ""
    case Some(lines) => Join(lines, "\n")
  }

  // ---------------------------------------------------------------------
  // The light HTML email

  /** How `getMinimalHTMLEmail` renders one line, the first rule that applies winning. */
  datatype LineKind = Button | Bullet | Header | Signature | PhoneLine | Spacer | Plain

  function Kind(hasButton: bool, line: string): (k: LineKind)
    ensures k == Button <==> hasButton && Contains(line, "http")
    ensures k == Bullet <==> !(hasButton && Contains(line, "http")) && StartsWith(line, "- ")
    ensures k == Spacer ==> Trim(line) == ""
  {
    if hasButton && Contains(line, "http") then Button
    else if StartsWith(line, "- ") then Bullet
    else if Contains(line, "What you selected:") then Header
    else if line == "Karl" then Signature
    else if Contains(line, Phone) then PhoneLine
    else if Trim(line) == "" then Spacer
    else Plain
  }

  const ButtonOpen: string :=
    "\n<table width=\"100%\" cellpadding=\"0\" cellspacing=\"0\" style=\"margin: 20px 0;\">\n  <tr>\n    <td>\n      <a href=\""
  const ButtonClose: string :=
    "\" style=\"display: inline-block; background: #10b981; color: white; padding: 14px 32px; text-decoration: none; border-radius: 6px; font-weight: 600; font-size: 15px; font-family: -apple-system, BlinkMacSystemFont, 'Segoe UI', Arial, sans-serif;\">\n        Complete Your Order →\n      </a>\n    </td>\n  </tr>\n</table>"
  const SpacerDiv: string := "<div style=\"height: 10px;\"></div>"

  /** The HTML fragment of one line. */
  function LineHtml(hasButton: bool, line: string): string
  {
    match Kind(hasButton, line)
    case Button => ButtonOpen + Trim(line) + ButtonClose
    case Bullet => "<div style=\"margin: 4px 0; padding-left: 20px;\">• " + line[2..] + "</div>"
    case Header => HeaderHtml(line)
    case Signature => "<div style=\"margin-top: 30px; font-weight: 600;\">" + line + "</div>"
    case PhoneLine => "<div style=\"color: #666;\">" + line + "</div>"
    case Spacer => SpacerDiv
    case Plain => "<div style=\"margin: 8px 0;\">" + line + "</div>"
  }

  function HeaderHtml(line: string): string
  {
    "<div style=\"margin-top: 20px; margin-bottom: 10px; font-weight: 600;\">" + line + "</div>"
  }

  function Fragments(hasButton: bool, lines: seq<string>): (r: seq<string>)
    ensures |r| == |lines| && forall k :: 0 <= k < |lines| ==> r[k] == LineHtml(hasButton, lines[k])
  {
    seq(|lines|, k requires 0 <= k < |lines| => LineHtml(hasButton, lines[k]))
  }

  const HtmlHead: string :=
    "<!DOCTYPE html>\n<html>\n<head>\n  <meta charset=\"utf-8\">\n  <meta name=\"viewport\" content=\"width=device-width, initial-scale=1.0\">\n</head>\n<body style=\"font-family: -apple-system, BlinkMacSystemFont, 'Segoe UI', Arial, sans-serif; font-size: 14px; line-height: 1.6; color: #111; max-width: 600px; margin: 0 auto; padding: 20px; background: #fff;\">\n"
  const HtmlFoot: string := "\n</body>\n</html>"

  /** Only a quote with a payment link turns "http" lines into a button. */
  predicate HasButton(templateId: string, data: EmailData)
  {
    templateId == "quote" && Filled(data.paymentLink)
  }

  /** The fragments of `getMinimalHTMLEmail(templateId, data)`, one per line of the plain text. */
  function MinimalFragments(templateId: string, data: EmailData, money: real -> string): seq<string>
  {
    Fragments(HasButton(templateId, data), Split(PlainTextEmail(templateId, data, money), '\n'))
  }

  /** `getMinimalHTMLEmail(templateId, data)` */
  function MinimalHtmlEmail(templateId: string, data: EmailData, money: real -> string): string
  {
    HtmlHead + Join(MinimalFragments(templateId, data, money), "") + HtmlFoot
  }

  // ---------------------------------------------------------------------
  // Properties

  /** A single item is listed by name alone; more than one adds " x" and the count. */
  lemma ItemQuantityShown(item: EmailItem)
    ensures item.quantity <= 1 ==> ItemLine(item) == "- " + item.name
    ensures item.quantity > 1 ==>
      (StartsWith(ItemLine(item), "- " + item.name) && EndsWith(ItemLine(item), " x" + IntToString(item.quantity)))
  {
    var line := ItemLine(item);
    if item.quantity > 1 {
      var tail := " x" + IntToString(item.quantity);
      assert line == ("- " + item.name) + tail;
      assert line[|line| - |tail|..] == tail;
    }
  }

  /** An unknown template is the empty text, whose HTML is a single spacer. */
  lemma UnknownTemplate(templateId: string, data: EmailData, money: real -> string)
    requires TemplateLines(templateId, data, money).None?
    ensures PlainTextEmail(templateId, data, money) == ""
    ensures MinimalFragments(templateId, data, money) == [SpacerDiv]
  {
    assert Split("", '\n') == [""];
    assert Kind(HasButton(templateId, data), "") == Spacer;
  }

  /**
   * The quote email has eight lines, four more when a delivery choice is
   * listed and two more when there is a personal message.
   */
  lemma QuoteLineCount(data: EmailData, money: real -> string)
    ensures |QuoteLines(data, money)| ==
      8 + (if |DeliveryOptions(data)| > 0 then 4 else 0) + (if Filled(data.message) then 2 else 0)
  {
  }

  /**
   * With no line break in the name, first item or link, the fifth line of
   * the quote email is the "What you selected:" header exactly when a
   * delivery choice was made, and the total otherwise.
   */
  lemma QuoteFifthLine(templateId: string, data: EmailData, money: real -> string)
    requires templateId == "quote"
    requires NoNewline(data.customerName) && NoNewline(FirstItemName(data)) && NoNewline(Show(data.paymentLink))
    requires NoNewline(money(data.total))
    ensures var lines := Split(PlainTextEmail(templateId, data, money), '\n');
      |lines| >= 5 && lines[2] == Show(data.paymentLink) &&
      (|DeliveryOptions(data)| > 0 ==> lines[4] == "What you selected:") &&
      (|DeliveryOptions(data)| == 0 ==> lines[4] == "Total: $" + money(data.total))
  {
    var all := QuoteLines(data, money);
    assert TemplateOf(templateId) == Some(Quote);
    assert PlainTextEmail(templateId, data, money) == Join(all, "\n");
    var p := all[..5];
    assert all == p + all[5..];
    QuoteHeadLines(data, money);
    SplitJoinPrefix(p, all[5..], '\n');
    var lines := Split(PlainTextEmail(templateId, data, money), '\n');
    assert lines[2] == p[2] && lines[4] == p[4];
    QuoteThirdAndFifth(data, money);
  }

  lemma QuoteThirdAndFifth(data: EmailData, money: real -> string)
    ensures |QuoteLines(data, money)| >= 5 && QuoteLines(data, money)[2] == Show(data.paymentLink)
    ensures |DeliveryOptions(data)| > 0 ==> QuoteLines(data, money)[4] == "What you selected:"
    ensures |DeliveryOptions(data)| == 0 ==> QuoteLines(data, money)[4] == "Total: $" + money(data.total)
  {
  }

  /** The first five lines of the quote email hold no line break. */
  lemma QuoteHeadLines(data: EmailData, money: real -> string)
    requires NoNewline(data.customerName) && NoNewline(FirstItemName(data)) && NoNewline(Show(data.paymentLink))
    requires NoNewline(money(data.total))
    ensures |QuoteLines(data, money)| >= 5
    ensures forall k, i :: 0 <= k < 5 && 0 <= i < |QuoteLines(data, money)[k]| ==> QuoteLines(data, money)[k][i] != '\n'
  {
    var all := QuoteLines(data, money);
    NoNewlineConcat(data.customerName, ", your ", FirstItemName(data), " is ready to order.");
    assert NoNewline(all[0]) && NoNewline(all[1]) && NoNewline(all[2]) && NoNewline(all[3]);
    assert NoNewline("What you selected:");
    assert NoNewline("Total: $" + money(data.total));
    assert NoNewline(all[4]);
  }

  /**
   * In a quote with a link, the link line (the third) becomes the order
   * button, and the header line, when there is one, the section header.
   */
  lemma QuoteButtonAndHeader(templateId: string, data: EmailData, money: real -> string)
    requires templateId == "quote"
    requires NoNewline(data.customerName) && NoNewline(FirstItemName(data)) && NoNewline(money(data.total))
    requires Filled(data.paymentLink) && NoNewline(data.paymentLink.value) && Contains(data.paymentLink.value, "http")
    ensures var frags := MinimalFragments(templateId, data, money);
      |frags| >= 5 && frags[2] == ButtonOpen + Trim(data.paymentLink.value) + ButtonClose &&
      (|DeliveryOptions(data)| > 0 ==> frags[4] == HeaderHtml("What you selected:"))
  {
    QuoteFifthLine(templateId, data, money);
    var lines := Split(PlainTextEmail(templateId, data, money), '\n');
    assert HasButton(templateId, data);
    var frags := MinimalFragments(templateId, data, money);
    assert frags == Fragments(true, lines);
    LinkLineIsButton(lines[2]);
    if |DeliveryOptions(data)| > 0 {
      HeaderIsNotLink(lines[4]);
    }
  }

  lemma LinkLineIsButton(line: string)
    requires Contains(line, "http")
    ensures LineHtml(true, line) == ButtonOpen + Trim(line) + ButtonClose
  {
  }

  /** A string holds every character of what it contains. */
  lemma ContainsChar(s: string, w: string, j: int)
    requires Contains(s, w) && 0 <= j < |w|
    ensures exists i :: 0 <= i < |s| && s[i] == w[j]
  {
    var i := ContainsWitness(s, w);
    assert s[i + j] == w[j];
  }

  lemma HeaderIsNotLink(h: string)
    requires h == "What you selected:"
    ensures Kind(true, h) == Header && LineHtml(true, h) == HeaderHtml(h)
  {
    HeaderSelfContained(h, "What you selected:");
    NoHttpInHeader(h);
    NoBulletHeader(h);
    HeaderKind(h);
  }

  lemma HeaderSelfContained(h: string, header: string)
    requires h == header
    ensures Contains(h, header)
  {
    ContainsAt(h, header, 0);
  }

  lemma NoBulletHeader(h: string)
    requires h == "What you selected:"
    ensures !StartsWith(h, "- ")
  {
    assert h[0] == 'W';
  }

  lemma NoHttpInHeader(h: string)
    requires h == "What you selected:"
    ensures !Contains(h, "http")
  {
    assert forall i :: 0 <= i < |h| ==> h[i] != 'p';
    if Contains(h, "http") {
      ContainsChar(h, "http", 3);
      assert false;
    }
  }

  lemma HeaderKind(h: string)
    requires Contains(h, "What you selected:") && !Contains(h, "http") && !StartsWith(h, "- ")
    ensures Kind(true, h) == Header && LineHtml(true, h) == HeaderHtml(h)
  {
  }

  /** Every template but the delivery reminder ends with the signature and then the phone line. */
  lemma SignedAndPhone(template: Template, data: EmailData, money: real -> string)
    requires template != DeliveryTomorrow
    ensures var lines := Lines(template, data, money);
      |lines| >= 2 && lines[|lines| - 2] == "Karl" && lines[|lines| - 1] == Phone
  {
  }

  // ---------------------------------------------------------------------
  // The fancy HTML email and the subject

  datatype EmailType = QuoteEmail | PaidEmail

  /** What `getFancyHTMLEmail` shows besides its fixed markup; `baseUrl` is `NEXT_PUBLIC_URL` or the default. */
  datatype FancyView = FancyView(
    title: string, subtotal: real, gst: real, total: real, checkoutUrl: Option<string>,
    phone: string, address: string)

  function FancyEmail(data: EmailData, emailType: EmailType, baseUrl: string): FancyView
  {
    var gst := if data.gstAmount.Some? then data.gstAmount.value else 0.0;
    FancyView(
      if emailType == PaidEmail then "Invoice Paid" else "Your Quote",
      data.total - gst, gst, data.total,
      if emailType == QuoteEmail then Some(baseUrl + "/checkout/" + data.quoteNumber) else None,
      if Filled(data.customerPhone) then data.customerPhone.value else "No phone provided",
      if Filled(data.customerAddress) then data.customerAddress.value else "No address provided")
  }

  /** The subtotal and GST shown always add up to the total; only a quote has the checkout button. */
  lemma FancyFigures(data: EmailData, emailType: EmailType, baseUrl: string)
    ensures var v := FancyEmail(data, emailType, baseUrl);
      v.subtotal + v.gst == v.total &&
      (v.checkoutUrl.Some? <==> emailType == QuoteEmail) &&
      (data.gstAmount.None? ==> v.subtotal == data.total)
  {
  }

  /** `getEmailSubject(emailType, customerName)` */
  function EmailSubject(emailType: EmailType, customerName: string): string
  {
    if emailType == PaidEmail then "Invoice Paid - " + customerName + " - Ausbeds"
    else "Your Ausbeds Quote - " + customerName
  }

  /** Both subjects name the customer, and a paid subject is never a quote subject. */
  lemma SubjectNamesCustomer(emailType: EmailType, customerName: string)
    ensures Contains(EmailSubject(emailType, customerName), customerName)
    ensures EmailSubject(PaidEmail, customerName) != EmailSubject(QuoteEmail, customerName)
  {
    var s := EmailSubject(emailType, customerName);
    var at := if emailType == PaidEmail then 15 else 21;
    assert s[at..at + |customerName|] == customerName;
    ContainsAt(s, customerName, at);
    assert EmailSubject(PaidEmail, customerName)[0] != EmailSubject(QuoteEmail, customerName)[0];
  }
}
