# Invoice desk: a verified model of its invoicing logic

A Dafny model of the business logic of an invoicing web app. A mattress retailer uses it to quote, invoice and take payment for mattresses. The model covers:

- **Invoice numbers and the invoice store.** Monthly sequential invoice numbers `INV-YYYYMM-NNN` are allocated against the quotes table. The table's only guard is a unique constraint. A placeholder row claims a number, failed attempts are retried with back-off, and timestamped fallback numbers end the retries (`InvoiceSequential`). A file-backed store of invoice records has numeric max-plus-one numbering, id allocation, update and soft delete by quote number, and a newest-first paged listing (`JsonStorage`). The synchronous number and status-colour helpers are in `InvoiceUtils`.
- **Money.** GST is one eleventh of a GST-inclusive price (sections 9-70 and 9-75 of A New Tax System (Goods and Services Tax) Act 1999). This covers the line-item subtotal, the delivery-fee tiers and two-person surcharge of the invoice form, the "Stairs no help" surcharge, partial-payment validation, and the GST split of paid orders.
- **Catalogue and layer builds.** Product and SKU generation (`Products`) and the layer-build table with its lookups (`MattressLayers`, `ProductDetails`, `PdfGenerator`, `InvoicePreview`). Also the count-and-join layer summaries of the production label and the layer guide.
- **Screens, as state machines and functions of their state.** These are:
  - the delivery-access questionnaire;
  - the checkout page;
  - the payment dialog and payment form;
  - the invoice form;
  - the line-item editor;
  - checkbox selection;
  - toasts;
  - the date picker grid;
  - the invoice list's relative times.
- **Routes.** The quotes API (`POST` field mapping and note composition, `GET` pagination), the paid-invoice webhook (authentication, idempotency, validation, GST split, e-mail retry) and the CORS middleware.
- **Text output.** The e-mail templates, the CSV export, suburb and first-name extraction from addresses, and e-mail validation.

Each source file of the core is one module. Code that changes state in place is a class with `modifies` clauses, proved against a specification function: the allocator, the invoice store, the questionnaire, the checkout page, the payment dialog, the line-item editor and the paid-invoice handler. Loops in the source are methods with loop invariants. The other modules are functions and lemmas. `Wrappers` (the `Option` type) and `Text` (the JavaScript string operations the code uses, over `seq<char>`: ASCII case mapping, and the full white-space set of `\s` and `trim`, including the no-break and Unicode spaces and the line terminators) are shared helpers.

Money is modelled as exact real numbers of dollars. Clocks, random digits, the weekday of a date, `parseFloat` and locale formatting are parameters of the operations that use them. So is the outcome of each database, mail or network call the model covers. For the paid-invoice webhook these are the event lookup, the insert, the two status updates, the event insert and each e-mail attempt.

Where comments in the source disagree with its code, the model follows the code:

- The back-off comment in src/utils/invoice-sequential.ts gives delays of 50 to 800 ms. The code doubles the delay after incrementing the retry count, so it sleeps 100, 200, 400, 800 and 1600 ms (`InvoiceSequential.AllocationBackoff`).
- The synchronous `generateInvoiceNumber` in src/utils/invoice.ts is commented as sequential. It builds a timestamp number `INV-YYYYMM-Tnnn` (`InvoiceUtils.TimestampNumberShape`).

## Model

| member | source | states |
|---|---|---|
| ActiveCampaign.DeliveryTimeCases | src/utils/activecampaign.ts:20-36 | the label is Morning, Afternoon or Evening delivery for the first keyword the trimmed, lower-cased text holds, in that priority; without a keyword the text comes back as given |
| ActiveCampaign.KeywordAnywhere | src/utils/activecampaign.ts:28-32 | a keyword anywhere in the text, in any case and whatever white space surrounds it, yields one of the three delivery labels |
| ActiveCampaign.NoKeywordUnchanged | src/utils/activecampaign.ts:35 | text without any keyword is returned unchanged, untrimmed and in its own case |
| ActiveCampaign.FormatDeliveryTime | src/utils/activecampaign.ts:20-36 | the result is the text as given or one of the three delivery labels, and empty text stays empty |
| Address.Longest | src/utils/address.ts:34 | the greedy search returns the largest group end that fits the pattern, and none when no end fits |
| Address.Shortest | src/utils/address.ts:41 | the lazy search returns the smallest group end from `k` on that fits the pattern, and none when no end fits |
| Address.LeadingNonUpper | src/utils/address.ts:25 | group 1 of pattern 2 as written: the longest prefix without a capital letter, stopping only at a capital |
| Address.SuburbLineGivesSuburb | src/utils/address.ts:14-17 | a line "Suburb STATE 1234" is matched by pattern 1 and its group is the suburb |
| Address.SuburbLineMissesComma | src/utils/address.ts:14 | pattern 1 never matches "street, Suburb STATE 1234" with a non-blank text after the comma |
| Address.StateStripGivesPrefix | src/utils/address.ts:41-43 | the fallback pattern keeps everything before a single-spaced state and postcode |
| Address.SecondLineGivesPrefix | src/utils/address.ts:34-36 | the lazy pattern keeps the text before a single-spaced state and postcode |
| Address.EmptyAddress | src/utils/address.ts:4 | an empty address gives an empty suburb, as written and as intended |
| Address.NoPatternGivesLine | src/utils/address.ts:46 | a one-line address without a comma that no pattern matches comes back trimmed |
| Address.LastLineSuburb | src/utils/address.ts:9-17 | an address whose last line is "Suburb STATE 1234" gives that suburb whatever the lines above say |
| Address.OneLinePatterns | src/utils/address.ts:14-44 | on "street, Suburb STATE 1234" pattern 1 fails and the fallback keeps "street, Suburb" |
| Address.OneLineKeepsStreet | src/utils/address.ts:21-29 | as written, a one-line address with a capitalised suburb returns the street together with the suburb |
| Address.OneLineIntendedGivesSuburb | src/utils/address.ts:20-29 | with pattern 2 as intended the same one-line address gives the suburb alone |
| Address.MarrickvilleExample | src/utils/address.ts:6-7 | the code's own example "123 Main St, Marrickville NSW 2204" gives "123 Main St, Marrickville" as written and "Marrickville" as intended |
| Address.FirstNameShape | src/utils/address.ts:50-54 | the first name is a space-free prefix of the trimmed name, empty exactly when the name is blank |
| Address.FirstNameIdempotent | src/utils/address.ts:50-54 | the first name of a first name is itself |
| Calculations.GstComponent | src/utils/calculations.ts:7-14 | the GST inside a GST-inclusive total is the amount that, taken eleven times, gives the total |
| Calculations.ExGst | src/utils/calculations.ts:16-22 | the ex-GST price and the GST add up to the total, and the ex-GST price is ten elevenths of it, ten times the GST |
| Calculations.SumFromShift | src/utils/calculations.ts:28 | the running sum of `reduce` from any start is that start plus the sum from 0 |
| Calculations.SubtotalAppend | src/utils/calculations.ts:27-29 | adding one line item raises the subtotal by exactly quantity × price of that item |
| Calculations.SubtotalConcat | src/utils/calculations.ts:27-29 | the subtotal of two lists is the sum of their subtotals |
| Calculations.SubtotalNonNegative | src/utils/calculations.ts:27-35 | with no negative quantities or prices the subtotal, and so the total, is not negative |
| Checkout.InitialStepCases | src/components/CheckoutTemplate.tsx:21-29 | the page opens on Payment exactly when the quote's snake_case name is filled and not "Pending" and its snake_case email is filled, and on Review otherwise |
| Checkout.PaymentStepHasDetails | src/components/CheckoutTemplate.tsx:22-39 | opening on Payment means the form holds the quote's own name and email; a name only in camelCase opens on Review with the form filled |
| Checkout.NormaliseItems | src/components/CheckoutTemplate.tsx:48-52 | every item is read in place, one for one, keeping the order |
| Checkout.ShownQuoteDefaults | src/components/CheckoutTemplate.tsx:43-52 | missing amounts show as 0, missing quantities as 1, a missing item list as empty, and present items keep their count |
| Checkout.QuantityRead | src/components/CheckoutTemplate.tsx:51 | a quantity written as decimal digits is read as that number |
| Checkout.SampleQuoteAddsUp | src/components/CheckoutTemplate.tsx:53-64 | the sample quote's subtotal and GST add up to its total, its one item costs the total, and an eleventh of the total lies between 272.63 and 272.64 |
| Checkout.NavigationIsAdjacent | src/components/CheckoutTemplate.tsx:272-481 | no navigation button reaches Payment or skips a step; the button on Payment leads back to Details (the buttons at lines 272, 378, 437 and 481) |
| Checkout.CheckoutPage.constructor | src/components/CheckoutTemplate.tsx:22-39 | the page starts at its initial step with the details read from the quote and no update sent |
| Checkout.CheckoutPage.EditDetails | src/components/CheckoutTemplate.tsx:34-39 | typing replaces the details and changes nothing else |
| Checkout.CheckoutPage.Navigate | src/components/CheckoutTemplate.tsx:272-481 | a button shown at its step moves to its target step and leaves the details and updates alone (the buttons at lines 272, 378, 437 and 481) |
| Checkout.CheckoutPage.SubmitDetails | src/components/CheckoutTemplate.tsx:87-113 | without a name or email nothing changes; otherwise the details go to the callback and the page moves to Payment unless the callback throws, and processing ends either way |
| Checkout.ReviewToPayment | src/components/CheckoutTemplate.tsx:87-113 | from Review a filled form submitted successfully reaches Payment with one update sent (the Review button is at line 272) |
| CreatePaidInvoice.CentsNearest | src/app/api/create-paid-invoice/route.ts:205 | `toFixed(2)` moves a value by at most half a cent |
| CreatePaidInvoice.GstSplit | src/app/api/create-paid-invoice/route.ts:203-206 | GST and subtotal add up to the total exactly; the GST is a whole number of cents within half a cent of an eleventh of the total, the subtotal within half a cent of ten elevenths |
| CreatePaidInvoice.FormattedItemDefaults | src/app/api/create-paid-invoice/route.ts:209-214 | every stored item keeps its SKU, gets "Product " + SKU without a name, quantity 1 without a quantity, an equal share of the total without a price, and is kept as given when all three are present and non-zero |
| CreatePaidInvoice.SharedPriceLines | src/app/api/create-paid-invoice/route.ts:213 | without item prices the stored lines add up to the units times total over the number of items: the total is shared per item, not per unit |
| CreatePaidInvoice.SplitPricesAddUp | src/app/api/create-paid-invoice/route.ts:213 | with neither prices nor quantities every quantity is 1 and the stored lines add up to the total exactly |
| CreatePaidInvoice.Waits | src/app/api/create-paid-invoice/route.ts:70-73 | the k-th wait is k seconds |
| CreatePaidInvoice.FirstSuccess | src/app/api/create-paid-invoice/route.ts:61-65 | the attempt returned succeeds, lies in range and follows only failures; none is returned exactly when every attempt fails |
| CreatePaidInvoice.SendEmailWithRetry | src/app/api/create-paid-invoice/route.ts:58-101 | the e-mail is sent exactly when some attempt succeeds, after the attempts up to the first success or all of them, with one wait fewer than attempts |
| CreatePaidInvoice.ThreeAttempts | src/app/api/create-paid-invoice/route.ts:58-72 | with three attempts the waits are none, one second, or one and two seconds, and delivery fails exactly when all three attempts fail |
| CreatePaidInvoice.UpdateWhere | lib/db.ts:152-184 | an update by quote number keeps the row count and leaves every row with another number untouched |
| CreatePaidInvoice.UpdateLastOnly | src/app/api/create-paid-invoice/route.ts:229-235 | with the number unique, the two updates change only the newly inserted row |
| CreatePaidInvoice.PaidInvoiceDb.constructor | src/app/api/create-paid-invoice/route.ts:18-55 | the tables start with the given quotes and event ids |
| CreatePaidInvoice.PaidInvoiceDb.Post | src/app/api/create-paid-invoice/route.ts:137-317 | the handler, step by step and with every database fault as a parameter, leaves the tables and gives the answer that the specification function `Handle` gives |
| CreatePaidInvoice.Handle | src/app/api/create-paid-invoice/route.ts:148-294 | the answer is Unauthorized exactly when the key check fails; "already processed" only for a recorded event; the events table only grows, by at most the body's event id; the quotes table is unchanged or gains one row at the end; an invoice answer (created or e-mail failed) means the body was complete, the paid row was appended and the answer names the number |
| CreatePaidInvoice.ChecksInOrder | src/app/api/create-paid-invoice/route.ts:148-197 | authentication, then the idempotency check, then validation; each rejection answers without touching the tables, and a rejection happens exactly when one of the three fails; a lookup that throws (caught at lines 26-29) reads as "not processed", so it never gives the duplicate answer |
| CreatePaidInvoice.EventRecordedOnlyWithPaidInvoice | src/app/api/create-paid-invoice/route.ts:217-240 | tables only grow, by at most one row at the end; an event id is recorded only in a run that created the paid row with its payment intent, and only when the event insert succeeded |
| CreatePaidInvoice.TakenNumberAnsweredAsDuplicate | src/app/api/create-paid-invoice/route.ts:217-295 | past the checks, a number already in the table makes the insert fail, which is answered as a possible duplicate with nothing changed |
| CreatePaidInvoice.FailedInsertChangesNothing | src/app/api/create-paid-invoice/route.ts:217-294 | an insert that throws leaves both tables as they were; the answer is the 200 "duplicate" exactly when the number was taken or the message mentions "duplicate", and the 500 failure otherwise |
| CreatePaidInvoice.RetryAfterEmailFailureSendsNothing | src/app/api/create-paid-invoice/route.ts:238-274 | after an answer of "email failed" whose event insert succeeded, a retry of the same event whose lookup succeeds is answered as already processed and changes nothing, so the e-mail is never sent again |
| CreatePaidInvoice.LostEventRecordSecondInvoice | src/app/api/create-paid-invoice/route.ts:33-55 | when the event insert throws, the error is swallowed, and a healthy retry after the e-mail failure adds a second paid invoice for the same payment |
| CreatePaidInvoice.FailedEventReadSecondInvoice | src/app/api/create-paid-invoice/route.ts:18-30 | when the retry's event lookup throws, the error reads as "not processed", and the retry adds a second paid invoice for the same payment |
| CreatePaidInvoice.NoEventIdNoIdempotency | src/app/api/create-paid-invoice/route.ts:179-189 | without an event id, two successful runs of the same body add two paid invoices |
| CsvExport.Cells | src/utils/csvExport.ts:23-34 | an invoice gives one cell per header |
| CsvExport.RowLines | src/utils/csvExport.ts:39 | one row line per invoice, in order, each the quoted cells of that invoice |
| CsvExport.AddressCellOneLine | src/utils/csvExport.ts:29 | the address cell never holds a line break |
| CsvExport.RowOneLine | src/utils/csvExport.ts:39 | a row has no line break when none of its cells has one |
| CsvExport.ExportLines | src/utils/csvExport.ts:36-42 | with no line break in any cell, the export splits into the header line and then one line per invoice, in the order given |
| CsvExport.RowStartsWithNumber | src/utils/csvExport.ts:24-39 | each row opens with the quoted invoice number, quote number, or "DRAFT" |
| CsvExport.EmptyInvoiceCells | src/utils/csvExport.ts:24-33 | an invoice with nothing filled in exports "DRAFT", "undefined" for name and email, empty phone, address and items, a total of 0, status "draft" and no payment method |
| CsvExport.CamelCaseWins | src/utils/csvExport.ts:24-26 | a filled camelCase field wins over the snake_case one |
| CsvExport.FormatItemsAppend | src/utils/csvExport.ts:4-6 | adding an item appends ", " and "name (xquantity)" to the items cell |
| CsvExport.ExportInvoicesToCsv | src/utils/csvExport.ts:9-42 | with no invoices the export is the header line alone; otherwise it starts with the header line and a line break |
| DatePicker.DaysInMonth | src/components/common/DatePicker.tsx:45-48 | the last day of a month lies between 28 and 31, and is 29 exactly for February of a leap year |
| DatePicker.GetCalendarDays | src/components/common/DatePicker.tsx:50-77 | the three loops build the grid: blanks up to the weekday of the 1st counted from Saturday, the days 1 to the last day in order, and blanks until the weeks are whole |
| DatePicker.TrailingFills | src/components/common/DatePicker.tsx:71-74 | the trailing blanks are fewer than seven and complete the last week |
| DatePicker.TrailingIsLeast | src/components/common/DatePicker.tsx:72 | fewer trailing blanks would leave the last week unfinished, so the loop stops at exactly that count |
| DatePicker.GridShape | src/components/common/DatePicker.tsx:50-77 | the grid is four to six whole weeks, with less than a week of padding at either end |
| DatePicker.DaysInOrder | src/components/common/DatePicker.tsx:61-74 | a cell holds a day exactly when it lies after the leading blanks and within the month, and then it holds the day of its position |
| DatePicker.WeekendColumnsAreWeekends | src/components/common/DatePicker.tsx:139-142 | the shaded first two columns hold exactly the Saturdays and Sundays of the month (the column headers are at lines 24-26) |
| DatePicker.DashedFields | src/components/common/DatePicker.tsx:95 | fields of four, two and two characters joined by dashes sit at fixed places |
| DatePicker.TwoDigitsReadBack | src/components/common/DatePicker.tsx:93-94 | a number below 100 padded to two places is two characters and reads back as itself |
| DatePicker.FormatValueDateReadsBack | src/components/common/DatePicker.tsx:90-96 | for a four-digit year the value is ten characters with dashes at 4 and 7, and its fields read back as year, month and day |
| DatePicker.FormatValueDate | src/components/common/DatePicker.tsx:90-96 | split at its dashes, the value is exactly the year, the month padded to two places and the day padded to two places, each non-empty and all digits |
| DatePicker.DigitFieldsSplit | src/components/common/DatePicker.tsx:95 | three digit fields joined by dashes split back into those three fields |
| DeliveryAccessModal.NoStairsDecision | src/components/DeliveryAccessModal.tsx:94-99 | without stairs the access is "Lift access" when a lift was confirmed and "Ground floor" otherwise |
| DeliveryAccessModal.StairsDecision | src/components/DeliveryAccessModal.tsx:100-104 | with stairs and help not refused, a few steps give "Few steps", a flight gives the count followed by " of stairs", and an unknown kind gives "" |
| DeliveryAccessModal.NoHelpExactly | src/components/DeliveryAccessModal.tsx:106-108 | the access is "Stairs no help" exactly when there are stairs and help was refused |
| DeliveryAccessModal.Questionnaire.constructor | src/components/DeliveryAccessModal.tsx:20-26 | the modal starts at step 1 with every answer null, only step 1 visited and nothing selected |
| DeliveryAccessModal.Questionnaire.Reset | src/components/DeliveryAccessModal.tsx:30-38 | reset returns to step 1 with every answer null and only step 1 visited |
| DeliveryAccessModal.Questionnaire.GoToStep | src/components/DeliveryAccessModal.tsx:40-43 | the step changes and is added to the visited steps, which never shrink; the answers stay |
| DeliveryAccessModal.Questionnaire.SetStep | src/components/DeliveryAccessModal.tsx:306-447 | the navigator and Back buttons change the step without marking it visited (the buttons at lines 306, 363, 410 and 447) |
| DeliveryAccessModal.Questionnaire.AnswerStairs | src/components/DeliveryAccessModal.tsx:133-152 | step 1 records the stairs answer and goes to step 2 for yes, step 4 for no |
| DeliveryAccessModal.Questionnaire.ChooseStairsType | src/components/DeliveryAccessModal.tsx:198-220 | step 2 records the kind and implies stairs; a few steps lead to step 3, a flight to step 5 |
| DeliveryAccessModal.Questionnaire.ChooseFlightCount | src/components/DeliveryAccessModal.tsx:390-397 | step 5 records the count and goes to step 3, except for the empty placeholder, which only records |
| DeliveryAccessModal.Questionnaire.Complete | src/components/DeliveryAccessModal.tsx:91-112 | the Complete button hands the current answers' access to `onSelect` and resets (the button is at line 483) |
| DeliveryAccessModal.Questionnaire.CompleteWith | src/components/DeliveryAccessModal.tsx:91-112 | a completion closure hands the access of the answers of its render to `onSelect`, once, and resets |
| DeliveryAccessModal.Questionnaire.AnswerHelp | src/components/DeliveryAccessModal.tsx:274-294 | as written, the help buttons hand on the access of the answers before the click |
| DeliveryAccessModal.Questionnaire.AnswerLift | src/components/DeliveryAccessModal.tsx:332-352 | as written, the lift buttons hand on the access of the answers before the click |
| DeliveryAccessModal.Questionnaire.AnswerHelpIntended | src/components/DeliveryAccessModal.tsx:274-294 | as intended, the help buttons hand on the access with the help answer just given |
| DeliveryAccessModal.Questionnaire.AnswerLiftIntended | src/components/DeliveryAccessModal.tsx:332-352 | as intended, the lift buttons hand on the access with the lift answer just given |
| DeliveryAccessModal.StaleHelpAnswer | src/components/DeliveryAccessModal.tsx:289-293 | with help unanswered before the click the access is never "Stairs no help", though the refusal would make it so |
| DeliveryAccessModal.StaleLiftAnswer | src/components/DeliveryAccessModal.tsx:333-337 | with the lift unanswered before the click the access is never "Lift access", though the confirmation would make it so |
| DeliveryAccessModal.StairsWithoutHelp | src/components/DeliveryAccessModal.tsx:133-397 | with the intended handlers, stairs, a flight, a count and refused help hand on "Stairs no help" and reset (the handlers at lines 133-137, 214-219, 390-397 and 289-293) |
| DeliveryAccessModal.StairsWithoutHelpAsWritten | src/components/DeliveryAccessModal.tsx:133-397 | with the handlers as written the same clicks hand on the flight count followed by " of stairs" instead (the handlers at lines 133-137, 214-219, 390-397 and 289-293) |
| EmailTemplates.DeliveryOptions | src/utils/emailTemplates.ts:38-41 | no delivery choice is listed exactly when there is no delivery date, no stairs and no old-mattress removal |
| EmailTemplates.Kind | src/utils/emailTemplates.ts:118-162 | a line becomes the order button exactly when the email has a button and the line holds "http", a bullet exactly when it is not a button and starts with "- ", and a spacer only when it is blank |
| EmailTemplates.Fragments | src/utils/emailTemplates.ts:118-163 | the minimal HTML has one fragment per line of the plain text, each the rendering of that line |
| EmailTemplates.ItemQuantityShown | src/utils/emailTemplates.ts:48 | an item line names the item alone for a quantity of one or less, and adds " x" and the count above one |
| EmailTemplates.UnknownTemplate | src/utils/emailTemplates.ts:94-106 | an unknown template gives the empty text, whose HTML is a single spacer |
| EmailTemplates.QuoteLineCount | src/utils/emailTemplates.ts:43-56 | the quote email has eight lines, four more with a delivery choice and two more with a personal message |
| EmailTemplates.QuoteFifthLine | src/utils/emailTemplates.ts:43-106 | after splitting, the third line is the payment link and the fifth is "What you selected:" exactly when a delivery choice was made, the total otherwise |
| EmailTemplates.QuoteHeadLines | src/utils/emailTemplates.ts:43-47 | the first five lines of the quote email hold no line break when the name, first item, link and total hold none |
| EmailTemplates.QuoteButtonAndHeader | src/utils/emailTemplates.ts:109-142 | in a quote with a link the link line becomes the order button, and the header line, when there is one, the section header |
| EmailTemplates.HeaderIsNotLink | src/utils/emailTemplates.ts:120-142 | "What you selected:" renders as the section header even when the email has a button |
| EmailTemplates.SignedAndPhone | src/utils/emailTemplates.ts:55-92 | every template but the delivery reminder ends with "Karl" and then the phone line |
| EmailTemplates.FancyFigures | src/utils/emailTemplates.ts:170-240 | the subtotal and GST shown add up to the total, the subtotal is the total without a GST amount, and only a quote has the checkout button |
| EmailTemplates.SubjectNamesCustomer | src/utils/emailTemplates.ts:268-272 | both subjects name the customer, and the paid subject differs from the quote subject |
| EmailValidation.ValidateEmail | src/utils/emailValidation.ts:14-29 | a result is valid exactly when it carries no error, and an empty address is rejected as required |
| EmailValidation.PatternMeaning | src/utils/emailValidation.ts:22 | the regex accepts exactly the texts with no white space, exactly one `@` with something before it, and a dot strictly inside the domain |
| EmailValidation.ValidMeaning | src/utils/emailValidation.ts:14-34 | an address is valid exactly when it is not empty and its trimmed, lower-cased form looks like an email |
| EmailValidation.SurroundingSpaceIgnored | src/utils/emailValidation.ts:19 | white space around a non-blank address changes neither the verdict nor the error |
| EmailValidation.FormatIdempotent | src/utils/emailValidation.ts:37-39 | formatting an address twice is formatting it once |
| EmailValidation.FormatKeepsValidity | src/utils/emailValidation.ts:19-39 | formatting a non-blank address first does not change whether it is valid |
| EmailValidation.TwoAtsInvalid | src/utils/emailValidation.ts:22 | an address with a second `@` is rejected |
| EmailValidation.NoDotInvalid | src/utils/emailValidation.ts:22 | an address without a dot after its `@` is rejected |
| EmailValidation.ShortestValid | src/utils/emailValidation.ts:22 | "a@b.c" passes |
| EmailValidation.InnerSpaceInvalid | src/utils/emailValidation.ts:19-22 | any character `\s` matches, the no-break and Unicode spaces and line terminators included, inside an address without surrounding space makes it invalid |
| EmailValidation.NoBreakSpaceInvalid | src/utils/emailValidation.ts:22 | "a\u00A0b@c.de", with a no-break space in the local part, is rejected |
| InvoiceForm.FeeTiers | src/components/invoice/InvoiceFormOrdered.tsx:207-218 | the fee is 0 exactly up to 18 km, the quote marker -1 exactly beyond 110 km, $2 a kilometre in between, and so never more than $220 |
| InvoiceForm.FeeMonotone | src/components/invoice/InvoiceFormOrdered.tsx:207-218 | within 110 km the fee never falls as the distance grows |
| InvoiceForm.FeeIgnoresFormatting | src/components/invoice/InvoiceFormOrdered.tsx:207-218 | the fee does not depend on how the message formats numbers |
| InvoiceForm.TwoPersonFeeShape | src/components/invoice/InvoiceFormOrdered.tsx:226-278 | the two-person surcharge is at least $50, never falls with distance, and rises by $2.50 a kilometre past 15 km |
| InvoiceForm.BaseFeeCases | src/components/invoice/InvoiceFormOrdered.tsx:229-283 | the base fee is the tier fee (never negative) unless a quote is needed, then the custom fee when one is set and 0 otherwise |
| InvoiceForm.DeliveryFeeAgrees | src/components/invoice/InvoiceFormOrdered.tsx:225-288 | the fee the effect writes and the fee the form displays agree, and add the surcharge exactly when two people are booked |
| InvoiceForm.NearbyDelivery | src/components/invoice/InvoiceFormOrdered.tsx:207-288 | within 18 km a one-person delivery is free and a two-person one costs exactly the surcharge |
| InvoiceForm.DeliveryNotesLines | src/components/invoice/InvoiceFormOrdered.tsx:235-239 | without line breaks in the amounts or the date, the notes are the fee and distance line, the two-person line exactly when two people are booked, and the date line ("Call to schedule" when the customer is to be called); the fee line says FREE exactly when the fee is 0 |
| InvoiceForm.FullAddressFilled | src/components/invoice/InvoiceFormOrdered.tsx:221-223 | the composed address is non-empty exactly when street, suburb and postcode are all filled, and then starts with the street and a comma |
| InvoiceForm.StreetRoundTrip | src/components/invoice/InvoiceFormOrdered.tsx:221-223 | a form reopened on the address it composed gets its comma-free street back (the street field is declared at line 35) |
| InvoiceForm.WithoutSkuMembers | src/components/invoice/InvoiceFormOrdered.tsx:708-711 | unticking keeps exactly the selected entries with another SKU |
| InvoiceForm.WithoutSkuAbsent | src/components/invoice/InvoiceFormOrdered.tsx:708-711 | unticking a product that is not selected changes nothing |
| InvoiceForm.WithoutSkuAppend | src/components/invoice/InvoiceFormOrdered.tsx:708-711 | the filter distributes over concatenation |
| InvoiceForm.UntickClears | src/components/invoice/InvoiceFormOrdered.tsx:702-713 | after unticking, the box reads as unticked |
| InvoiceForm.TickThenUntick | src/components/invoice/InvoiceFormOrdered.tsx:702-713 | ticking an unticked box and unticking it again restores the form |
| InvoiceForm.TickSelects | src/components/invoice/InvoiceFormOrdered.tsx:702-707 | ticking reads as ticked, keeps the earlier selection as a prefix and changes no other field |
| InvoiceForm.MonthStepper | src/components/invoice/InvoiceFormOrdered.tsx:543-553 | both arrows stay within 1..12, wrap December to January and back, and undo each other |
| InvoiceForm.StepForwardIsModular | src/components/invoice/InvoiceFormOrdered.tsx:553 | n presses of the forward arrow advance the month by n modulo 12 |
| InvoiceForm.YearOfSteps | src/components/invoice/InvoiceFormOrdered.tsx:553 | twelve presses bring back the same month |
| InvoiceForm.ToggleAndSubmit | src/components/invoice/InvoiceFormOrdered.tsx:702-713 | with a name and an email, ticking any product enables Save and Pay Now, and unticking the only product disables them (the buttons are enabled at lines 892 and 899) |
| InvoiceForm.DateOptions | src/components/invoice/InvoiceFormOrdered.tsx:256-275 | six options, today and the next five days in order, captioned Today, Tomorrow and then by weekday, valued by ISO date |
| InvoiceList.NoDateNoLabel | src/components/invoice/InvoiceList.tsx:22-32 | an empty date, or one that does not parse, has an empty relative-time label |
| InvoiceList.UtcByDefault | src/components/invoice/InvoiceList.tsx:26-29 | a date with neither 'Z' nor '+' is read as UTC by appending 'Z'; one with either is kept; the text parsed always carries a zone |
| InvoiceList.BucketCounts | src/components/invoice/InvoiceList.tsx:40-51 | below a week the label counts whole minutes, hours or days, rounded down, and the count lies in 1..59, 1..23 or 1..6 |
| InvoiceList.SingularOnlyForOne | src/components/invoice/InvoiceList.tsx:42-50 | the unit is singular exactly when the count is 1 |
| InvoiceList.FarAndFuture | src/components/invoice/InvoiceList.tsx:36-53 | a negative difference reads "in the future", under a minute "just now", and a week or more the locale date |
| InvoiceList.PaidOnly | src/components/invoice/InvoiceList.tsx:70-72 | the paid-only filter never lengthens the list |
| InvoiceList.PaidOnlyMembers | src/components/invoice/InvoiceList.tsx:70-72 | the filter keeps exactly the paid invoices |
| InvoiceList.PaidOnlyAppend | src/components/invoice/InvoiceList.tsx:70-72 | the filter keeps the list's order: it distributes over concatenation |
| InvoiceList.DisplayedRule | src/components/invoice/InvoiceList.tsx:70-72 | unfiltered, every invoice is displayed; filtered, every displayed invoice is paid |
| InvoiceList.ListedNumbers | src/components/invoice/InvoiceList.tsx:88 | select-all takes one entry per displayed invoice: its quote number, or '' when it has none |
| InvoiceList.TwoUnnumberedNeverClear | src/components/invoice/InvoiceList.tsx:84-90 | with two unnumbered invoices the selection never reaches the list's length, so the header checkbox re-selects instead of clearing |
| InvoicePreview.GetLabelItems | src/components/InvoicePreview.tsx:53-82 | the preview prints, for each Cloud or Aurora King/Queen item in order, one label per unit, sized by the last " - " field of the name (the corrected reading) |
| InvoicePreview.PreviewSizeIsModel | src/components/InvoicePreview.tsx:61-66 | as written, for every catalogue product the label's size is its model number; the range and model are read correctly, and the intended reading gives the real size |
| InvoicePreview.PreviewSizeWrongForKing | src/components/InvoicePreview.tsx:61-66 | as written, no Cloud or Aurora King label reads "King" |
| InvoicePreview.LayerDataAgreesWithPdf | src/components/InvoicePreview.tsx:85-105 | the preview finds the same layer row as the invoice PDF does for an item without a description |
| InvoicePreview.LayerDataFound | src/components/InvoicePreview.tsx:85-105 | a row is found only for a range the SKU or the name mentions, at the first standalone number of the name |
| InvoicePreview.LayerLineLists | src/components/InvoicePreview.tsx:398-400 | the layer line lists exactly the shown layers 5 down to 2, joined by ", ", and is empty when none is shown |
| InvoicePreview.AmountsAddUp | src/components/InvoicePreview.tsx:201-203 | without stored GST figures, GST is one eleventh of the total and the two parts add up to it; the total is the stored one unless missing or 0, then the items' sum |
| InvoicePreview.PanelsExclusive | src/components/InvoicePreview.tsx:274-303 | the payment and ActiveCampaign panels never show together, and an invoice with a quote number shows exactly one |
| InvoiceSequential.BeforeIrreflexive | src/utils/invoice-sequential.ts:28 | the descending text order of the read never puts a number before itself |
| InvoiceSequential.BeforeTransitive | src/utils/invoice-sequential.ts:28 | the text order is transitive |
| InvoiceSequential.BeforeTotal | src/utils/invoice-sequential.ts:28 | any two distinct numbers are ordered one way or the other |
| InvoiceSequential.LatestUnique | src/utils/invoice-sequential.ts:24-31 | the period has at most one greatest number |
| InvoiceSequential.LatestSpec | src/utils/invoice-sequential.ts:24-31 | the read returns nothing exactly when the period holds no number, and otherwise the period's greatest number in text order |
| InvoiceSequential.MaxOverBound | src/utils/invoice-sequential.ts:33-42 | the numeric maximum is at least 0 and at least the sequence of every number in the table |
| InvoiceSequential.QuoteStore.constructor | src/utils/invoice-sequential.ts:24-31 | the table starts with the given quote numbers |
| InvoiceSequential.QuoteStore.LatestInPeriod | src/utils/invoice-sequential.ts:24-31 | the read, computed row by row, returns exactly the period's greatest number in text order |
| InvoiceSequential.QuoteStore.Attempt | src/utils/invoice-sequential.ts:22-93 | one attempt: a number taken already or by a concurrent writer is retried with the table unchanged; an inserted and deleted placeholder returns the number; any other failure is retried, or ends in the timestamped number on the last attempt, with a placeholder left behind when only its delete failed |
| InvoiceSequential.QuoteStore.NextSequentialInvoiceNumber | src/utils/invoice-sequential.ts:11-100 | the number returned, the table afterwards and the pauses taken are those of the allocation over the five attempts, ending in the emergency number when every attempt is retried |
| InvoiceSequential.AllocationInPeriod | src/utils/invoice-sequential.ts:46-97 | whatever each attempt computes within the period, every number handed out, fallbacks included, starts with the period prefix and a dash |
| InvoiceSequential.AllocationBackoff | src/utils/invoice-sequential.ts:71-92 | at most one pause per remaining attempt, the k-th after attempt r lasting 50·2^(r+k+1) ms, i.e. 100, 200, 400, 800, 1600 ms |
| InvoiceSequential.AllocationStore | src/utils/invoice-sequential.ts:50-62 | the table only ever gains leaked placeholders, and is unchanged when every delete succeeds |
| InvoiceSequential.SequentialNumberIsFree | src/utils/invoice-sequential.ts:48-65 | a sequential number was not in the table before and is not in it afterwards |
| InvoiceSequential.TimestampedOnlyAfterFinalFailure | src/utils/invoice-sequential.ts:79-89 | the timestamped number comes only from a non-duplicate failure on the fifth attempt, after four pauses counted from the start |
| InvoiceSequential.DuplicatesEndInEmergency | src/utils/invoice-sequential.ts:67-99 | duplicates on every remaining attempt end in the emergency number, with the table unchanged and one pause per attempt |
| InvoiceSequential.TakenNumberNeverAllocates | src/utils/invoice-sequential.ts:48-75 | when the computed number is already taken, no sequential number is handed out, and without failed reads the allocation ends in the emergency number |
| InvoiceSequential.FreeNumberAllocatesAtOnce | src/utils/invoice-sequential.ts:48-65 | a free number on a healthy database is handed out by the first attempt, with the table unchanged and no pause |
| InvoiceSequential.AllocatedNumberInPeriod | src/utils/invoice-sequential.ts:12-97 | the number returned always names its year and zero-padded month |
| InvoiceSequential.StringOrderLatest | src/utils/invoice-sequential.ts:24-46 | after INV-202501-999 and INV-202501-1000 the computed next number is INV-202501-1000 |
| InvoiceSequential.NineNineNineIsLatest | src/utils/invoice-sequential.ts:24-31 | of INV-202501-999 and INV-202501-1000 the read returns the first |
| InvoiceSequential.StringOrderRepeatsNumber | src/utils/invoice-sequential.ts:24-46 | as written, with INV-202501-999 and INV-202501-1000 stored, January 2025 never hands out another sequential number, and a healthy database ends in the emergency number |
| InvoiceSequential.SequenceOfNumber | src/utils/invoice-sequential.ts:38-46 | the sequence read back from a number built for a period is the one it was built from |
| InvoiceSequential.NumericNumberIsFree | src/utils/invoice-sequential.ts:33-46 | read as numbers, one past the period's greatest sequence is never in the table |
| InvoiceSequential.NumericOrderAllocatesAtOnce | src/utils/invoice-sequential.ts:24-65 | with the numeric read a healthy database hands out a fresh sequential number on the first attempt, whatever the table holds |
| InvoiceSequential.LetterFieldUnread | src/utils/invoice-sequential.ts:36-41 | a third field that starts with a letter reads as NaN, so no sequence is read |
| InvoiceSequential.FirstNumber | src/utils/invoice-sequential.ts:33-46 | the first number of a month ends in -001 |
| InvoiceSequential.TimestampedUnread | src/utils/invoice-sequential.ts:82-88 | no sequence can be read from a timestamped fallback number |
| InvoiceSequential.EmergencyUnread | src/utils/invoice-sequential.ts:96-99 | no sequence can be read from an emergency fallback number |
| InvoiceSequential.FallbackRestartsSequence | src/utils/invoice-sequential.ts:33-46 | after a timestamped or emergency number is read as the month's latest, the number computed is the month's -001 |
| InvoiceSequential.FallbackLatestNeverAllocates | src/utils/invoice-sequential.ts:24-99 | once a fallback number is the month's latest in text order and -001 exists, no sequential number is handed out again; without failed reads every allocation ends in the emergency number |
| InvoiceSequential.TimestampedNumberBlocksMonth | src/utils/invoice-sequential.ts:24-99 | as written, a month holding -001 and one timestamped number never hands out another sequential number, and a healthy database ends in the emergency number |
| InvoiceService.MapQuotesToInvoices | src/services/invoiceService.ts:84-106 | one invoice per row, in the rows' order, each mapped from its own row |
| InvoiceService.MappedFields | src/services/invoiceService.ts:84-106 | each invoice carries its row's number under both names, its row's id, date and customer fields, tax rate 10, and the defaults "quote", no items, no notes and a zero total |
| InvoiceService.MapConcat | src/services/invoiceService.ts:84-106 | mapping a concatenation of rows concatenates the mapped parts |
| InvoiceService.MapQuote | src/services/invoiceService.ts:84-106 | both invoice numbers are the row's quote number, the status is the row's when filled and never empty, the tax rate is the GST rate, and the items are the row's or none |
| InvoiceService.Create | src/services/invoiceService.ts:21-31 | the posted number is the invoice's own when it has one, otherwise the next sequential number |
| InvoiceService.CreateTotals | src/services/invoiceService.ts:25-31 | the posted subtotal equals the total, the GST is one eleventh of it, and total less GST is the ex-GST amount |
| InvoiceService.CreateWithOneMore | src/services/invoiceService.ts:25-31 | one more item raises the posted total by its amount and the GST by an eleventh of it |
| InvoiceUtils.TimestampNumberShape | src/utils/invoice.ts:11-21 | the synchronous invoice number lies in its period and is the prefix, "-T" and at most three clock digits |
| InvoiceUtils.TimestampNeverSequential | src/utils/invoice.ts:11-21 | a synchronous number never equals a sequential number of the same period |
| InvoiceUtils.QuoteNumberInjective | src/utils/invoice.ts:27-30 | distinct clock readings give distinct quote numbers |
| InvoiceUtils.StatusColorIgnoresCase | src/utils/invoice.ts:56-57 | the status colour does not depend on letter case |
| InvoiceUtils.StatusColorDefault | src/utils/invoice.ts:56-68 | any status other than paid, pending, draft and overdue, in any case, is purple |
| JsonStorage.SeqMax | lib/json-storage.ts:74 | the maximum of a non-empty list is one of its elements and no element exceeds it |
| JsonStorage.ExistingNumbersSpec | lib/json-storage.ts:69-72 | every record of the period with a readable sequence contributes it, and every contributed number is non-negative |
| JsonStorage.GeneratedSequenceExceeds | lib/json-storage.ts:61-76 | the generated number reads back a sequence of at least 1 and greater than every readable sequence of the period, deleted records included |
| JsonStorage.GeneratedNumberIsFresh | lib/json-storage.ts:61-76 | the generated number is in the current period and no record, deleted or not, carries it |
| JsonStorage.FindIndex | lib/json-storage.ts:111-138 | the index found is the first record with the number, and none is found exactly when no record has it |
| JsonStorage.InvoiceByQuoteNumber | lib/json-storage.ts:97-100 | a record is returned only if it has the number and is not deleted, and nothing is returned exactly when no such record exists |
| JsonStorage.InvoiceById | lib/json-storage.ts:103-106 | a record is returned only if it has the id and is not deleted, and nothing is returned exactly when no such record exists |
| JsonStorage.MaxId | lib/json-storage.ts:85 | the greatest id is one of the records' ids and no id exceeds it |
| JsonStorage.NextIdIsFresh | lib/json-storage.ts:85 | the new id exceeds every stored id, and is 1 for an empty store |
| JsonStorage.CreateKeepsIdsDistinct | lib/json-storage.ts:79-94 | appending a created record keeps all ids distinct |
| JsonStorage.MergeEmpty | lib/json-storage.ts:115-119 | an update without properties only refreshes the update time |
| JsonStorage.MergeIdempotent | lib/json-storage.ts:115-119 | applying the same update twice at the same moment is applying it once |
| JsonStorage.ActiveSpec | lib/json-storage.ts:128-129 | the active list holds only non-deleted records of the store and every one of them |
| JsonStorage.InsertNewestSpec | lib/json-storage.ts:130 | inserting into a newest-first list keeps it newest first and adds exactly the one record |
| JsonStorage.NewestFirstSpec | lib/json-storage.ts:130 | the sort orders newest first and is a permutation of its input |
| JsonStorage.AllInvoicesSpec | lib/json-storage.ts:126-133 | a page holds only active records of the store, newest first, never more than the limit, and the first page with a large enough limit holds every active record |
| JsonStorage.InvoiceStore.constructor | lib/json-storage.ts:40-48 | the store starts with the records read from the file |
| JsonStorage.InvoiceStore.CreateInvoice | lib/json-storage.ts:79-94 | appends exactly one record, the data with a fresh id and both timestamps set to now, and returns it |
| JsonStorage.InvoiceStore.UpdateInvoice | lib/json-storage.ts:109-123 | without a record with the number nothing changes and nothing is returned; otherwise only the first such record, deleted or not, is replaced by the merge and returned |
| JsonStorage.InvoiceStore.SoftDeleteInvoice | lib/json-storage.ts:136-147 | reports whether a record has the number; if so only the first one is stamped deleted and updated at now, otherwise nothing changes |
| JsonStorage.DeletedRecordStillUpdatable | lib/json-storage.ts:97-143 | a soft-deleted record is still found by the update's lookup but no longer by the quote-number lookup |
| JsonStorage.SoftDeleteTouchesOne | lib/json-storage.ts:136-147 | soft deletion keeps the number of records and every other record, and marks the one found as deleted |
| JsonStorage.CreatedRecordFoundById | lib/json-storage.ts:79-106 | a freshly created active record is found again by its new id |
| JsonStorage.CreatedFoundLast | lib/json-storage.ts:103-106 | an active record appended with an id no other record has is what the id lookup returns |
| JsonStorage.FullPageHoldsAll | lib/json-storage.ts:126-133 | a first page at least as long as the active list holds every active record exactly once |
| Labels.HasLabelProductsExactly | src/components/MattressInvoiceApp.tsx:683-696 | an invoice has label products exactly when some item has a Cloud or Aurora SKU naming King or Queen, in any case |
| Labels.Copies | src/components/MattressInvoiceApp.tsx:739-748 | an item yields as many labels as its quantity, none for a quantity of 0 or less |
| Labels.CopiesAreTheLabel | src/components/MattressInvoiceApp.tsx:739-748 | every copy is the item's one label |
| Labels.PushCopies | src/components/MattressInvoiceApp.tsx:738-750 | the inner loop appends exactly the item's copies to what was printed before |
| Labels.GetLabelItems | src/components/MattressInvoiceApp.tsx:699-751 | the filter and flat map, as one loop over the items, print the labels of the items that need them in item order |
| Labels.LabelsForConcat | src/components/MattressInvoiceApp.tsx:699-751 | the labels of a list of items are those of its parts, in order |
| Labels.LabelsOfOneItem | src/components/MattressInvoiceApp.tsx:699-751 | one item contributes, at its place, quantity copies of its label when its SKU needs labels, and nothing otherwise |
| Labels.LabelOrigin | src/components/MattressInvoiceApp.tsx:699-751 | every printed label is the description of some item whose SKU needs labels |
| Labels.NoLabelProductsNoLabels | src/components/MattressInvoiceApp.tsx:683-751 | an invoice without label products prints nothing, and any printed label means it has label products |
| LayerGuide.FieldTexts | src/components/LayerGuide.tsx:17-19 | a row's values are its eleven fields as text, the model first and then the firmness in decimal |
| LayerGuide.FilteredLayers | src/components/LayerGuide.tsx:12-21 | filtering never lengthens the table |
| LayerGuide.FilteredMembers | src/components/LayerGuide.tsx:12-21 | a row is listed exactly when it is in the table and passes both the range filter and the search |
| LayerGuide.FilteredLayersAppend | src/components/LayerGuide.tsx:12-21 | filtering keeps the table's order: the rows listed from two tables joined are those of the first followed by those of the second |
| LayerGuide.NoFilterListsAll | src/components/LayerGuide.tsx:12-21 | with "all" and an empty search the whole table is listed, in order |
| LayerGuide.SearchIsAnyValue | src/components/LayerGuide.tsx:14-19 | the model and firmness tests add nothing: a row matches exactly when the term is empty or some value contains it, ignoring case |
| LayerGuide.ToggleRow | src/components/LayerGuide.tsx:23-31 | toggling flips exactly the row clicked and leaves every other row as it was |
| LayerGuide.ToggleTwice | src/components/LayerGuide.tsx:23-31 | toggling a row twice restores the expanded rows |
| LayerGuide.GetLayerDisplay | src/components/LayerGuide.tsx:33-36 | a layer is displayed exactly when it is neither empty nor "-", and then as itself |
| LayerGuide.DisplayMatchesSummary | src/components/LayerGuide.tsx:33-43 | the layer cells that display a value are exactly the layers the summary counts |
| LayerGuide.GetLayerSummary | src/components/LayerGuide.tsx:38-54 | the summary is the count-and-join of the shown layers 5 down to 2 |
| LayerGuide.TableSummariesNotEmpty | src/components/LayerGuide.tsx:38-54 | every row of the layer table has a non-empty summary, so "No comfort layers" never shows (the summary is shown at line 146) |
| LayerGuide.GuideSummaryNotEmpty | src/components/LayerGuide.tsx:38-54 | a row whose layer 2 is shown has a non-empty summary |
| MattressInvoiceApp.QuantityInput | src/components/MattressInvoiceApp.tsx:1385 | the quantity written is never 0: a parsed non-zero number is kept, even a negative one, and NaN or 0 become 1 |
| MattressInvoiceApp.PriceInput | src/components/MattressInvoiceApp.tsx:1396 | the price written is the parsed number, or 0 for NaN |
| MattressInvoiceApp.SelectedItem | src/components/MattressInvoiceApp.tsx:287-296 | the chosen product at quantity 1, with its SKU, name and price, keeping the row's id when it has one |
| MattressInvoiceApp.WithoutIndexSlices | src/components/MattressInvoiceApp.tsx:301-304 | removal drops exactly the item at the index and keeps the rest in order, and drops nothing for an index that is not a position |
| MattressInvoiceApp.RemoveUndoesAdd | src/components/MattressInvoiceApp.tsx:263-304 | removing the row just added gives the list back |
| MattressInvoiceApp.InvoiceEditor.constructor | src/components/MattressInvoiceApp.tsx:263-304 | the editor starts on the given items with no active row and the search closed and empty |
| MattressInvoiceApp.InvoiceEditor.AddItem | src/components/MattressInvoiceApp.tsx:263-279 | one blank item is appended and made the active row, with an empty product search opened |
| MattressInvoiceApp.InvoiceEditor.UpdateItem | src/components/MattressInvoiceApp.tsx:281-285 | only the one field of the one item changes; the active row and the search stay |
| MattressInvoiceApp.InvoiceEditor.SelectProduct | src/components/MattressInvoiceApp.tsx:287-299 | the row becomes the chosen product and the search closes and empties |
| MattressInvoiceApp.InvoiceEditor.RemoveItem | src/components/MattressInvoiceApp.tsx:301-304 | the items become the list without the one at the index; nothing else changes |
| MattressInvoiceApp.AddChooseRemove | src/components/MattressInvoiceApp.tsx:263-304 | adding a row, choosing a product for it and removing it again leaves the items as they were |
| MattressInvoiceApp.TwoUnnumberedKeepSelection | src/components/MattressInvoiceApp.tsx:632-638 | two invoices without a quote number keep the header checkbox from ever clearing the selection |
| MattressInvoiceApp.SelectPageThenClear | src/components/MattressInvoiceApp.tsx:632-638 | with distinct quote numbers the header checkbox selects every invoice, then clears them |
| MattressInvoiceApp.FirstMatchFrom | src/components/MattressInvoiceApp.tsx:717-724 | the match found is the leftmost position from which the range word is followed by a digit, and none is found exactly when there is no such position |
| MattressInvoiceApp.KingSingleHasNoSize | src/components/MattressInvoiceApp.tsx:692-734 | a King Single SKU without "queen" has labels with an empty size, though a Cloud one needs labels |
| MattressInvoiceApp.ModelReadBack | src/components/MattressInvoiceApp.tsx:717-720 | in a SKU of a range word, digits and a non-digit tail, the match is at the start and the digits read are the model's |
| MattressInvoiceApp.RangeOfCatalogue | src/components/MattressInvoiceApp.tsx:714-727 | the range word at the start of the SKU decides the range Cloud or Aurora |
| MattressInvoiceApp.SizeOfCatalogue | src/components/MattressInvoiceApp.tsx:730-734 | a SKU ending in king, queen or kingsingle gets King, Queen or no size, and always names king or queen |
| MattressInvoiceApp.ModelOfCatalogue | src/components/MattressInvoiceApp.tsx:714-727 | the model read from a catalogue-shaped SKU is the value of its digits |
| MattressInvoiceApp.CatalogueSkuLabel | src/components/MattressInvoiceApp.tsx:699-751 | every Cloud or Aurora King, Queen or King Single product of the catalogue needs labels and is read back with its range, its model and King, Queen or no size |
| MattressInvoiceApp.AppLabel | src/components/MattressInvoiceApp.tsx:706-748 | a label keeps the customer's name and address and the product name; its range is Cloud exactly when the lower-cased SKU starts with "cloud", Aurora exactly when it starts with "aurora" and not "cloud", and no range means model 0; its size is King exactly when the SKU holds "king" but not "kingsingle", and is always King, Queen or empty |
| MattressInvoiceApp.GetInvoiceLabelItems | src/components/MattressInvoiceApp.tsx:699-751 | the labels printed for an invoice are the shared label loop over its items, read with the app's range, model and size |
| MattressInvoiceApp.InvoiceLabelsOfOneItem | src/components/MattressInvoiceApp.tsx:699-751 | each item contributes its labels in place: for a SKU passing the Cloud/Aurora and King/Queen rule, `quantity` labels (none for 0 or less), each with the item's name, the invoice's customer name and address, and the size, model and range read off the lower-cased SKU; for any other item none |
| MattressInvoiceApp.InvoiceLabelOrigin | src/components/MattressInvoiceApp.tsx:699-751 | every label printed is that of an item whose SKU passes the rule, with that item's name and the customer's details, and names the Cloud or the Aurora range |
| MattressLayers.FindRow | src/components/ProductionLabel.tsx:21-23 | the row found has the range and firmness asked for, and none is found exactly when the table has no such row |
| MattressLayers.FindRowIndex | src/components/ProductionLabel.tsx:21-23 | the row found sits at some position of the table |
| MattressLayers.PushIfShown | src/components/LayerGuide.tsx:40-43 | a push appends the layer exactly when it is neither empty nor "-" |
| MattressLayers.ShownOnlySpec | src/components/LayerGuide.tsx:40-43 | the shown layers are exactly the non-empty, non-"-" ones, and there are never more of them than layers |
| MattressLayers.ShownUpperIsShownOnly | src/components/LayerGuide.tsx:40-43 | the four pushes keep exactly the shown layers 5 down to 2, in order |
| MattressLayers.CountAndJoin | src/components/LayerGuide.tsx:45-53 | the counting loop lists each distinct layer once, in order of first appearance, with its count when it repeats, joined by " + " |
| MattressLayers.FirstAppearancesSpec | src/components/LayerGuide.tsx:45-53 | the summary lists every layer, and no layer twice |
| MattressLayers.CountsAddUp | src/components/LayerGuide.tsx:45-53 | the counts add up to the number of layers counted |
| MattressLayers.CountLabelShape | src/components/LayerGuide.tsx:51 | a layer occurring once is listed bare; one that repeats ends in the layer after its count |
| MattressLayers.LayersFirmnessRange | src/data/mattressLayers.ts:15-54 | every firmness in the layer table lies between 2 and 16 |
| MattressLayers.LayerTwoShown | src/data/mattressLayers.ts:15-54 | every row of the layer table has a layer 2 to show |
| MattressLayers.SummaryEmpty | src/components/LayerGuide.tsx:45-53 | the summary of non-empty layers is empty exactly when there is no layer |
| ProductionLabel.GetLayerConfiguration | src/components/ProductionLabel.tsx:19-52 | the configuration is "CONFIGURATION NOT FOUND" without a row, otherwise the summary of the shown upper layers in capitals, a line break and the spring layer with its position in capitals |
| ProductionLabel.ShownUpperLayers | src/components/ProductionLabel.tsx:30-36 | the four pushes collect the shown layers 5 down to 2, each in capitals |
| ProductionLabel.UpperAll | src/components/ProductionLabel.tsx:33-36 | capitalising keeps the number of layers |
| ProductionLabel.LabelIsGuideInCapitals | src/components/ProductionLabel.tsx:30-36 | the label's layers are the layer guide's shown layers in capitals |
| ProductionLabel.RowLabelIsNotNotFound | src/components/ProductionLabel.tsx:44-51 | a found row's configuration is never the not-found text |
| ProductionLabel.NotFoundExactly | src/components/ProductionLabel.tsx:19-27 | the label says "CONFIGURATION NOT FOUND" exactly when the table has no row of that range, in lower case, and firmness |
| ProductionLabel.RangeCaseIgnored | src/components/ProductionLabel.tsx:20 | the range is matched regardless of letter case |
| ProductionLabel.SummaryOfShownLayers | src/components/ProductionLabel.tsx:30-46 | a row with a layer 2 to show has a non-empty layer summary |
| ProductionLabel.FoundHasLayers | src/components/ProductionLabel.tsx:19-52 | a configuration that is found always names at least one layer above the springs |
| ProductionLabel.LabelConfiguration | src/components/ProductionLabel.tsx:19-27 | the configuration is the not-found text or the label of a layer-table row whose range is the lower-cased range and whose firmness is the model |
| PaymentForm.SurchargeExactly | src/components/PaymentForm.tsx:53-54 | the $50 surcharge applies exactly when the access is "Stairs no help", and nothing is added otherwise (repeated at lines 202-203) |
| PaymentForm.TotalFollowsItems | src/components/PaymentForm.tsx:55 | without a stored total the charge is the items' sum plus the surcharge, and one more item adds exactly its amount (repeated at line 204) |
| PaymentForm.TotalWins | src/components/PaymentForm.tsx:55 | a non-zero stored total plus the surcharge is charged whatever the items add up to (repeated at line 204) |
| PaymentForm.QuestionnaireNeverSurcharges | src/components/PaymentForm.tsx:53-54 | an access chosen through the delivery questionnaire as written never carries the surcharge |
| PaymentForm.IntendedQuestionnaireSurcharges | src/components/PaymentForm.tsx:53-54 | through the intended questionnaire, stairs with help refused cost $50 more |
| PaymentForm.PaymentItems | src/components/PaymentForm.tsx:210-215 | one payment item per line item, in order, with its SKU, name, quantity and price |
| PaymentForm.FirstLineShape | src/components/PaymentForm.tsx:222 | the delivery address sent holds no line break, starts the customer's address, and is the whole address when it is on one line |
| PaymentForm.MissingFields | src/components/PaymentForm.tsx:192-194 | at most two fields are missing |
| PaymentForm.CreatePaymentIntent | src/components/PaymentForm.tsx:190-259 | no request is made exactly when the name or email is missing, and then the error lists them; otherwise the request is the payment data, and the outcome is the server's error, the server-error text for a non-OK status, the client secret, or "Failed to initialize payment" when no answer could be read; a client secret comes with no error |
| PaymentForm.RequestChargesDisplayedTotal | src/components/PaymentForm.tsx:201-229 | the request charges the total the form displays, in Australian dollars, to Sydney 2000, with one entry per item |
| PaymentForm.MissingFieldsExactly | src/components/PaymentForm.tsx:191-196 | a field is listed as missing exactly when it is empty, the name before the email |
| PaymentForm.ConfirmMessage | src/components/PaymentForm.tsx:37-47 | an error message is shown exactly when Stripe reports an error, its own message or the default |
| PaymentStatus.GetPaymentStatusDisplay | src/utils/paymentStatus.ts:56-94 | the display carries the normalised status, and reads "Unpaid" exactly when that status is pending |
| PaymentStatus.NameRoundTrip | src/utils/paymentStatus.ts:8-37 | each of the four status names reads back as that status |
| PaymentStatus.NormalisationIdempotent | src/utils/paymentStatus.ts:22-37 | normalising an already normalised status changes nothing |
| PaymentStatus.MissingOrLegacyIsPending | src/utils/paymentStatus.ts:24-29 | a missing or empty payment status, and the legacy unpaid, quote and draft, read as pending |
| PaymentStatus.OnlyPaymentStatusCounts | src/utils/paymentStatus.ts:1-37 | only payment_status decides; the legacy status field and the amount never matter |
| PaymentStatus.PaidExcludesPending | src/utils/paymentStatus.ts:42-51 | no invoice is both paid and pending |
| PaymentStatusManager.RemainingIsUnpaidPart | src/components/PaymentStatusManager.tsx:20-22 | the remaining amount is the total less what was paid, the whole total when nothing was paid, and 0 when neither is known |
| PaymentStatusManager.PartialWindow | src/components/PaymentStatusManager.tsx:31-37 | for numeric amounts a partial payment is accepted exactly when it lies strictly between 0 and the total |
| PaymentStatusManager.MakePayload | src/components/PaymentStatusManager.tsx:45-50 | the request carries the chosen status and note, and a payment method exactly when the status is paid, then the one chosen |
| PaymentStatusManager.PayloadAmountCases | src/components/PaymentStatusManager.tsx:47 | the amount sent is the total when paid, 0 when unpaid, and what was entered otherwise |
| PaymentStatusManager.Dialog.constructor | src/components/PaymentStatusManager.tsx:13-20 | the dialog opens on the quote's status (unpaid by default), paid amount and note, with the in-store method, no error and nothing sent |
| PaymentStatusManager.Dialog.ChooseUnpaid | src/components/PaymentStatusManager.tsx:122-125 | Unpaid sets the status and a zero amount and changes nothing else |
| PaymentStatusManager.Dialog.ChoosePartial | src/components/PaymentStatusManager.tsx:144 | Partial sets the status and keeps the amount |
| PaymentStatusManager.Dialog.ChoosePaid | src/components/PaymentStatusManager.tsx:163-166 | Paid sets the status and the amount to the total |
| PaymentStatusManager.Dialog.ChooseMethod | src/components/PaymentStatusManager.tsx:194-251 | a method button sets only the method |
| PaymentStatusManager.Dialog.EnterAmount | src/components/PaymentStatusManager.tsx:287 | typing sets the amount to the typed text |
| PaymentStatusManager.Dialog.EnterNote | src/components/PaymentStatusManager.tsx:304-305 | typing in the note field sets the note to the typed text and changes nothing else |
| PaymentStatusManager.Dialog.Submit | src/components/PaymentStatusManager.tsx:24-66 | a refused partial amount sends nothing and shows the range error; otherwise exactly one payload is sent, the dialog closes on an OK answer and shows the server's error or the default otherwise; the form fields never change |
| PaymentStatusManager.MarkPaid | src/components/PaymentStatusManager.tsx:24-66 | marking a quote paid sends its total and the chosen method, whatever amount was shown before (the Paid button is at lines 163-166) |
| PdfGenerator.PdfRange | src/utils/pdfGenerator.ts:136-140 | a range is detected only if the SKU or the text names it, and none exactly when neither names cloud, aurora or cooper; a SKU or text naming cloud always gives cloud, and cooper is chosen only when neither names aurora |
| PdfGenerator.ExtractedRangeNamed | src/utils/pdfGenerator.ts:128-148 | a layer row found is of a range the SKU or the item text names |
| PdfGenerator.ExtractedFirmnessRead | src/utils/pdfGenerator.ts:142-148 | the firmness of a row found is the first standalone number of the item text |
| PdfGenerator.NoNumberNoLayers | src/utils/pdfGenerator.ts:133-148 | no table row has firmness 0, so an item whose text holds no standalone number gets no layer data |
| PdfGenerator.FindOutsideRange | src/utils/pdfGenerator.ts:147 | no table row lies outside firmness 1 to 16 |
| PdfGenerator.AgreesWithCheckout | src/utils/pdfGenerator.ts:128-148 | for an item with a name and a SKU, the name mentioning no range, the PDF finds the same layer data as the checkout's lookup |
| PdfGenerator.TopLayersLine | src/utils/pdfGenerator.ts:82-90 | the "Layers:" line is printed exactly when layers 5 to 3 have one to show, and lists them joined by ", " |
| PdfGenerator.TopLayersDropLayerTwo | src/utils/pdfGenerator.ts:82-85 | the PDF lists the layer guide's shown layers without layer 2 |
| PdfGenerator.LayerTwoIgnored | src/utils/pdfGenerator.ts:82-90 | layer 2 never changes what the PDF prints |
| PdfGenerator.ItemLayerLines | src/utils/pdfGenerator.ts:72-95 | an item without a SKU or without layer data gets no layer lines, and any item at most two; an item with a SKU and layer data gets first the firmness and spring line, then the layers line exactly when the row has upper layers to list |
| PdfGenerator.FallbacksSplitTotal | src/utils/pdfGenerator.ts:104-109 | without stored subtotal and GST the printed ones are the GST split of the total and add up to it |
| PdfGenerator.StoredAmountsKept | src/utils/pdfGenerator.ts:104-109 | stored non-zero subtotal and GST are printed as they are |
| ProductDetails.GetMattressLayerInfo | src/services/productDetails.ts:26-59 | a build is found only for a non-empty SKU and name, is a row of the layer table with firmness 1 to 16, of a range the lower-cased SKU names (cloud first, and cooper only when the SKU names no aurora) and of the firmness the name's first standalone number gives |
| ProductDetails.LayerInfoFound | src/services/productDetails.ts:26-59 | when the SKU names a range and the name's first number is a firmness of that range's table, that row is returned |
| ProductDetails.NameAloneIsNotEnough | src/services/productDetails.ts:32-39 | a SKU that names no range gives no build, whatever the name says |
| ProductDetails.EnrichProductWithLayers | src/services/productDetails.ts:62-77 | name and SKU are carried over, a missing quantity becomes 1 and a missing price 0, and the build is the lookup's for that SKU and name |
| ProductDetails.EnrichReadsQuantity | src/services/productDetails.ts:66 | a quantity written as a whole number, zero-padded or not, is read back as that number |
| Products.GenerateProducts | src/config/products.ts:105-124 | the method's nested loops push exactly the catalogue: ranges in order, then models, then sizes |
| Products.ModelProductsLength | src/config/products.ts:108-121 | a range yields one product per model and size |
| Products.CatalogueLength | src/config/products.ts:105-124 | the catalogue holds one product per range, model and size of the table |
| Products.InventoryCount | src/config/products.ts:20-102 | the shipped table lists 37 models, each in five sizes |
| Products.InventorySize | src/config/products.ts:20-124 | the shipped inventory generates 185 products |
| Products.CatalogueHas | src/config/products.ts:107-121 | every range, model and size of the table has its product in the catalogue |
| Products.CatalogueSource | src/config/products.ts:107-121 | every product of the catalogue is built from one range, model and size of the table, its name, SKU and price from that row |
| Products.SkuDeterminesProduct | src/config/products.ts:110 | the SKU determines the range, the model number and the size up to case and white space |
| QuotesRoute.ComposeNotes | src/app/api/quotes/route.ts:26-45 | the lines pushed one by one are the extra delivery lines, folded into the notes as the composed notes |
| QuotesRoute.Post | src/app/api/quotes/route.ts:6-76 | without a customer email the answer is 400 "Customer email is required" and the store is unchanged; otherwise the quote record is created and appended to the store |
| QuotesRoute.QuoteRecordFields | src/app/api/quotes/route.ts:11-23 | a created quote is a draft awaiting payment, missing amounts are 0 and a missing item list empty, its number is the quote number, else the invoice number, else one no stored record carries |
| QuotesRoute.DeliveryFieldsReadBack | src/app/api/quotes/route.ts:26-32 | a supplied delivery date or option is read back from the lines by its label, a missing one is not found |
| QuotesRoute.BaseAndFloorReadBack | src/app/api/quotes/route.ts:33-38 | a supplied needsBase reads back "Yes" or "No", a supplied floor type reads back, missing ones are not found |
| QuotesRoute.ComposedNotesLines | src/app/api/quotes/route.ts:40-45 | the stored notes are the request's notes, a blank line and the extra lines; the extra lines alone without notes; the notes untouched without extra lines |
| QuotesRoute.DefaultParams | src/app/api/quotes/route.ts:93-95 | missing page and limit give page 1 of 50, that is offset 0 |
| QuotesRoute.CountCapped | src/app/api/quotes/route.ts:100-102 | the total count is the number of active records, capped at 1000 |
| QuotesRoute.PageCountBounds | src/app/api/quotes/route.ts:104-116 | for a positive limit the page count is the least that holds all counted records, a next page is announced exactly when records lie beyond this page, a previous one exactly from page 2 |
| QuotesRoute.ConsecutivePages | src/app/api/quotes/route.ts:95-98 | page p+1 starts where page p ends: two consecutive pages make one window of twice the limit |
| Selection.ToggleFlipsOne | src/components/invoice/InvoiceList.tsx:74-82 | a checkbox toggle flips the membership of its own number and of no other |
| Selection.ToggleTwice | src/components/invoice/InvoiceList.tsx:74-82 | toggling the same number twice gives the selection back |
| Selection.ToggleSize | src/components/invoice/InvoiceList.tsx:74-82 | a toggle changes the selection's size by exactly one |
| Selection.SelectAllThenClear | src/components/invoice/InvoiceList.tsx:84-90 | with distinct numbers the header checkbox selects every listed number from an empty selection, and pressed again clears it |
| Selection.SharedNumberNeverClears | src/components/invoice/InvoiceList.tsx:84-90 | when two listed invoices share a number (two without one both count as ''), select-all never reaches the list's length, so the header checkbox cannot clear what it selected |
| Toasts.ShowToast | src/hooks/useToast.ts:7-15 | the list grows by one toast at the end, keyed by the clock's millisecond string, with the message and the type (info by default) |
| Toasts.RemoveToast | src/hooks/useToast.ts:17-19 | the result is no longer than the list and holds no toast with the id |
| Toasts.RemoveMembers | src/hooks/useToast.ts:17-19 | a toast stays exactly when it was listed and has another id |
| Toasts.RemoveAppend | src/hooks/useToast.ts:17-19 | removal distributes over the halves of a list, so the order of the remaining toasts is kept |
| Toasts.RemoveAbsent | src/hooks/useToast.ts:17-19 | removing an id no toast carries leaves the list unchanged |
| Toasts.RemoveIdempotent | src/hooks/useToast.ts:17-19 | removing twice is removing once |
| Toasts.ShowThenRemove | src/hooks/useToast.ts:7-19 | dismissing a toast just shown gives back the earlier list when that list did not hold its id |
| Toasts.SameMillisecondShareRemoval | src/hooks/useToast.ts:12 | two toasts shown in the same millisecond share an id, so dismissing one dismisses both |
| Middleware.CorsDecision | src/middleware.ts:3-35 | only /api paths are handled; CORS headers are set exactly when the origin is allowed, echo it and carry the fixed methods, headers and max-age; only OPTIONS is answered as a preflight |
| Middleware.HandleRequest | src/middleware.ts:3-35 | a request passes through exactly when its path is outside /api; a preflight answer is only for OPTIONS; CORS headers come exactly when the origin is allowed, and echo it |
| Middleware.WildcardEntryMatches | src/middleware.ts:15-19 | the list's wildcard entry, read as text, is itself matched by the pattern |
| Middleware.WildcardEntryRedundant | src/middleware.ts:9-19 | the wildcard entry adds nothing: an origin is allowed exactly when it is one of the five exact origins or matches the pattern |
| Middleware.UnanchoredMatch | src/middleware.ts:19 | the pattern is unanchored: any text around an https Vercel host still matches |
| Middleware.OtherDomainAllowed | src/middleware.ts:18-24 | an origin on another domain that merely contains a Vercel host is allowed and echoed |
| Middleware.NoHttpsNoMatch | src/middleware.ts:19 | an origin without "https://" never matches the pattern |

## Left out

- SQL and the database driver: the quotes table is a set of quote numbers, plus a set of processed payment-event ids. Each query's outcome (success, duplicate key, other failure) is a parameter chosen per attempt. In the paid-invoice webhook this includes the event lookup and the event insert, whose errors the route swallows. Real races between callers are only this adversarial choice.
- File I/O of lib/json-storage.ts (reading and writing the JSON file, creating its directory): the record array is a field of a class.
- Network, mail and CRM glue: `fetch` calls, nodemailer, Stripe Elements and `confirmPayment`, the Google Maps autocomplete and Distance Matrix, and the error-logging request of the paid-invoice route. Their results are parameters, or the requests are recorded as a list of payloads.
- `invoiceService` `fetchAll`, `updateStatus` and `bulkDelete`: fetch wrappers with no local logic.
- jsPDF drawing and every other piece of JSX, styling and print-window HTML. Only the layer selection and the amount fallbacks of the invoice PDF are modelled.
- Floating point: money is exact reals. `toFixed(2)` is a parameter wherever it only formats text. Where its value is read back (the GST of a paid order), it is modelled as rounding to the nearest cent, halves away from zero.
- `formatDate` in src/utils/invoice.ts, `toLocaleDateString`/`toLocaleTimeString`, and `Date` arithmetic: locale and clock dependent, so they are parameters. This includes the month overflow of the date picker's `navigateMonth`.
- `Math.random` and `Date.now`: parameters. The date picker also takes the weekday of the first of the month as a parameter; it computes the number of days in the month itself.
- React batching: every handler reads the state of the render it was created in, and its updates are applied after it returns. Timers (the toast auto-dismiss, the back-off sleeps) are recorded as lists of delays, not waited for.
- Malformed JSON bodies, a rejected `response.json()`, and the 500 answers of the routes' `catch` blocks: those exceptions come from the runtime, not from the modelled code.
- A `page` or `limit` query parameter that does not parse (NaN) in `GET /api/quotes`: the model's `Get` takes parsed integers.
- A `needsBase` of `null` in a quote request: the model has only a missing value or a boolean, so it cannot write the "Needs Base: No" that `null` produces.
- The `alert` calls of the checkout page and of the admin screens: user-interface only.
- Aliasing in `updateItem` of src/components/MattressInvoiceApp.tsx: the handler copies the array but writes into the shared item object. The model builds a new item, so it does not capture a change made visible through the old array.
- The integer-like keys of `Object.entries`: JavaScript enumerates them first. No key of the inventory or layer tables is integer-like, so declaration order is modelled.
- JsonStorage.InvoiceByQuoteNumber: states that the record returned has the number and is active, and that none is returned only when no active record has it. It does not state that the record is the first such record.
- JsonStorage.InvoiceById: the same, for ids.
- Text.ParseInt: reads base 10 only. `parseInt` without a radix, as called at lib/json-storage.ts:71, src/services/productDetails.ts:66, src/app/api/quotes/route.ts:93-94 and src/components/CheckoutTemplate.tsx:51, reads a text starting "0x" as hexadecimal. The model's inputs there are quote-number fields, layer counts and cart quantities; the page and limit parameters are taken as parsed integers.
- InvoiceSequential.Before: `ORDER BY quote_number DESC` is modelled as code-point order of the text. That holds under a binary ("C") collation; a locale collation would order some numbers differently.
- JsonStorage.InvoiceStore.UpdateInvoice: the merge `{ ...existing, ...updates }` is modelled field by field with an optional value per field. A field the update sets to `undefined` is therefore kept, not cleared as the spread would.
- JsonStorage.InvoiceStore.SoftDeleteInvoice: `deletedAt` and `updatedAt` come from one clock reading. The source calls `new Date()` twice, so the two may differ by a millisecond.
- Checkout.QuantityOf: a quantity is text from the URL. A numeric quantity of 0 in a cart object, which `|| 1` turns into 1, is not represented.
- PaymentStatusManager.Dialog.Submit: the URL of the status request, `quote.id || quote.quote_number`, is not modelled; the request itself is a parameter.

## Findings

| source | as written | input that shows it | evidently intended | confidence | as-written member | corrected member |
|---|---|---|---|---|---|---|
| src/utils/invoice-sequential.ts:24-46 | the latest number of the month is read with a text `ORDER BY quote_number DESC`, so "-999" sorts after "-1000" and the computed next number is one already taken | a table holding INV-202501-999 and INV-202501-1000, allocating in January 2025 | the next number is one past the greatest sequence read as a number | not executed | InvoiceSequential.StringOrderRepeatsNumber | InvoiceSequential.NumericOrderAllocatesAtOnce |
| src/components/DeliveryAccessModal.tsx:289-293 | the help buttons set `canHelp` and then call `handleComplete`, which still sees the previous (unanswered) value, so refusing help never yields "Stairs no help" and never triggers the $50 surcharge | stairs, a flight, any count, then "No" at the help question | the access is decided with the help answer just given | not executed | DeliveryAccessModal.StaleHelpAnswer | DeliveryAccessModal.NoHelpExactly |
| src/components/InvoicePreview.tsx:61-66 | a label's size is the last word of the text before the first " - " of the product name, which is the model number | "Cloud 7 - medium - King" gives the size "7" | the size is the last " - " field of the name | not executed | InvoicePreview.PreviewSizeWrongForKing | InvoicePreview.GetLabelItems |
| src/utils/invoice-sequential.ts:24-46 | a timestamped (`-T…`) or emergency (`-E…`) fallback number sorts after every digit suffix, so it is read as the latest; `parseInt` gives NaN, and the next number computed is -001, which is taken | a month holding INV-202501-001 and a number INV-202501-T… from an earlier fallback | the next number is one past the greatest numeric sequence of the month | not executed | InvoiceSequential.TimestampedNumberBlocksMonth | InvoiceSequential.NumericOrderAllocatesAtOnce |
| src/utils/address.ts:25 | pattern 2 captures the text after the comma only if it has no capital letter, so a capitalised suburb falls through to the fallback, which keeps the street | "123 Main St, Marrickville NSW 2204" gives "123 Main St, Marrickville" | the suburb between the comma and the state | not executed | Address.OneLineKeepsStreet | Address.OneLineIntendedGivesSuburb |
