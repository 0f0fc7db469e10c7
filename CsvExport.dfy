// src/utils/csvExport.ts: the CSV download of the invoice list. Every
// cell is quoted (section 2 rule 5 of RFC 4180) but embedded quotes are
// not doubled (rule 7) and lines end with LF rather than CRLF (rule 1).

module CsvExport {
  import opened Wrappers
  import opened Text

  datatype CsvItem = CsvItem(name: string, quantity: int)

  /**
   * An invoice as the list holds it: each field of either spelling may be
   * missing (`None`); an empty string is falsy like a missing one.
   */
  datatype CsvInvoice = CsvInvoice(
    invoiceNumber: Option<string>, quoteNumber: Option<string>,
    customerName: Option<string>, customerNameSnake: Option<string>,
    customerEmail: Option<string>, customerEmailSnake: Option<string>,
    customerPhone: Option<string>, customerPhoneSnake: Option<string>,
    customerAddress: Option<string>, customerAddressSnake: Option<string>,
    items: Option<seq<CsvItem>>,
    total: Option<real>,
    status: Option<string>,
    paymentMethod: Option<string>, paymentMethodSnake: Option<string>)

  const Headers: seq<string> :=
    ["Invoice #", "Date", "Customer Name", "Email", "Phone", "Address", "Items", "Total", "Status", "Payment Method"]

  /** `a || b`: the first value that is present and not empty. */
  function Or(a: Option<string>, b: Option<string>): Option<string>
  {
    if a.Some? && a.value != "" then a else b
  }

  /** `${v}`: a missing value prints as "undefined". */
  function Show(v: Option<string>): string
  {
    if v.Some? then v.value else "undefined"
  }

  /** `v || fallback` for a literal fallback. */
  function OrElse(v: Option<string>, fallback: string): string
  {
    if v.Some? && v.value != "" then v.value else fallback
  }

  /** `${item.name} (x${item.quantity})` */
  function ItemText(item: CsvItem): string
  {
    item.name + " (x" + IntToString(item.quantity) + ")"
  }

  function ItemTexts(items: seq<CsvItem>): (r: seq<string>)
    ensures |r| == |items|
    ensures forall k :: 0 <= k < |items| ==> r[k] == ItemText(items[k])
  {
    seq(|items|, k requires 0 <= k < |items| => ItemText(items[k]))
  }

  /** `formatItems(items)` */
  function FormatItems(items: seq<CsvItem>): string
  {
    Join(ItemTexts(items), ", ")
  }

  /**
   * The ten cells of one invoice; the date and the money format come from
   * the locale and `toFixed(2)` and are parameters.
   */
  function Cells(inv: CsvInvoice, date: string, money: real -> string): (r: seq<string>)
    ensures |r| == |Headers|
  {
    [ OrElse(Or(inv.invoiceNumber, inv.quoteNumber), "DRAFT"),
      date,
      Show(Or(inv.customerName, inv.customerNameSnake)),
      Show(Or(inv.customerEmail, inv.customerEmailSnake)),
      OrElse(Or(inv.customerPhone, inv.customerPhoneSnake), ""),
      ReplaceAll(OrElse(Or(inv.customerAddress, inv.customerAddressSnake), ""), '\n', ' '),
      FormatItems(if inv.items.Some? then inv.items.value else []),
      "$" + money(if inv.total.Some? then inv.total.value else 0.0),
      OrElse(inv.status, "draft"),
      OrElse(Or(inv.paymentMethod, inv.paymentMethodSnake), "") ]
  }

  /** `"${cell}"`, with no escaping of quotes inside. */
  function Quote(cell: string): string
  {
    "\"" + cell + "\""
  }

  function QuoteAll(cells: seq<string>): (r: seq<string>)
    ensures |r| == |cells|
    ensures forall k :: 0 <= k < |cells| ==> r[k] == Quote(cells[k])
  {
    seq(|cells|, k requires 0 <= k < |cells| => Quote(cells[k]))
  }

  function RowLine(cells: seq<string>): string
  {
    Join(QuoteAll(cells), ",")
  }

  function RowLines(invoices: seq<CsvInvoice>, dates: seq<string>, money: real -> string): (r: seq<string>)
    requires |dates| == |invoices|
    ensures |r| == |invoices|
    ensures forall k :: 0 <= k < |invoices| ==> r[k] == RowLine(Cells(invoices[k], dates[k], money))
  {
    seq(|invoices|, k requires 0 <= k < |invoices| => RowLine(Cells(invoices[k], dates[k], money)))
  }

  /** `exportInvoicesToCSV(invoices)`, given each invoice's formatted date. */
  function ExportInvoicesToCsv(invoices: seq<CsvInvoice>, dates: seq<string>, money: real -> string): (r: string)
    requires |dates| == |invoices|
    ensures |invoices| == 0 ==> r == Join(Headers, ",")
    ensures |invoices| > 0 ==> StartsWith(r, Join(Headers, ",") + "\n")
  {
    var all := [Join(Headers, ",")] + RowLines(invoices, dates, money);
    assert |invoices| > 0 ==> all[1..] == RowLines(invoices, dates, money);
    Join(all, "\n")
  }

  // ---------------------------------------------------------------------

  lemma JoinNoNewline(parts: seq<string>, sep: string)
    requires NoNewline(sep) && forall k :: 0 <= k < |parts| ==> NoNewline(parts[k])
    ensures NoNewline(Join(parts, sep))
    decreases |parts|
  {
    if |parts| > 1 {
      JoinNoNewline(parts[1..], sep);
    }
  }

  /** The address cell never breaks a line. */
  lemma AddressCellOneLine(inv: CsvInvoice, date: string, money: real -> string)
    ensures NoNewline(Cells(inv, date, money)[5])
  {
  }

  /** A row has no line break when none of its cells has one. */
  lemma RowOneLine(cells: seq<string>)
    requires forall k :: 0 <= k < |cells| ==> NoNewline(cells[k])
    ensures NoNewline(RowLine(cells))
  {
    forall k | 0 <= k < |cells|
      ensures NoNewline(QuoteAll(cells)[k])
    {
      assert QuoteAll(cells)[k] == "\"" + cells[k] + "\"";
    }
    JoinNoNewline(QuoteAll(cells), ",");
  }

  /**
   * With no line break in any cell, the export has one header line and
   * then one line per invoice, in the order given.
   */
  lemma ExportLines(invoices: seq<CsvInvoice>, dates: seq<string>, money: real -> string)
    requires |dates| == |invoices|
    requires forall k, c :: 0 <= k < |invoices| && 0 <= c < |Headers| ==> NoNewline(Cells(invoices[k], dates[k], money)[c])
    ensures var lines := Split(ExportInvoicesToCsv(invoices, dates, money), '\n');
      |lines| == |invoices| + 1 && lines[0] == Join(Headers, ",") &&
      forall k :: 0 <= k < |invoices| ==> lines[k + 1] == RowLine(Cells(invoices[k], dates[k], money))
  {
    var rows := RowLines(invoices, dates, money);
    var all := [Join(Headers, ",")] + rows;
    forall k | 0 <= k < |rows|
      ensures NoNewline(rows[k])
    {
      RowOneLine(Cells(invoices[k], dates[k], money));
    }
    HeaderOneLine();
    forall k, i | 0 <= k < |all| && 0 <= i < |all[k]|
      ensures all[k][i] != '\n'
    {
      if k > 0 {
        assert all[k] == rows[k - 1];
      }
    }
    SplitJoin(all, '\n');
  }

  lemma HeaderOneLine()
    ensures NoNewline(Join(Headers, ","))
  {
    JoinNoNewline(Headers, ",");
  }

  /** A row line opens with the quoted invoice number. */
  lemma RowStartsWithNumber(inv: CsvInvoice, date: string, money: real -> string)
    ensures var number := OrElse(Or(inv.invoiceNumber, inv.quoteNumber), "DRAFT");
      StartsWith(RowLine(Cells(inv, date, money)), Quote(number))
  {
    var cells := QuoteAll(Cells(inv, date, money));
    var rest := Join(cells[1..], ",");
    assert RowLine(Cells(inv, date, money)) == cells[0] + "," + rest;
  }

  /**
   * An invoice with nothing filled in exports as "DRAFT", "undefined" for
   * name and email (they have no default), empty phone, address and items,
   * status "draft" and no payment method.
   */
  lemma EmptyInvoiceCells(date: string, money: real -> string)
    ensures var inv := CsvInvoice(None, None, None, None, None, None, None, None, None, None, None, None, None, None, None);
      Cells(inv, date, money) ==
        ["DRAFT", date, "undefined", "undefined", "", "", "", "$" + money(0.0), "draft", ""]
  {
  }

  /** The camelCase field wins over the snake_case one when it is filled in. */
  lemma CamelCaseWins(inv: CsvInvoice, date: string, money: real -> string)
    requires inv.invoiceNumber.Some? && inv.invoiceNumber.value != ""
    requires inv.customerName.Some? && inv.customerName.value != ""
    ensures Cells(inv, date, money)[0] == inv.invoiceNumber.value
    ensures Cells(inv, date, money)[2] == inv.customerName.value
  {
  }

  /** Adding an item adds ", " and its text to the items cell. */
  lemma FormatItemsAppend(items: seq<CsvItem>, item: CsvItem)
    requires |items| > 0
    ensures FormatItems(items + [item]) == FormatItems(items) + ", " + ItemText(item)
  {
    JoinAppend(ItemTexts(items), ItemText(item), ", ");
    assert ItemTexts(items + [item]) == ItemTexts(items) + [ItemText(item)];
  }
}
