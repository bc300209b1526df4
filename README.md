# Bulk-import CSV generators and the worklog formatter, modelled in Dafny

The repository is a set of command-line scripts. Each one synthesizes fake
business records as CSV files for a bulk-import feature: accounts, invoices,
orders, payments, purchase orders, purchase invoices and purchase payments.
A separate script turns a worklog input file into a short report. This
project models the rules by which those scripts assemble their rows and
proves what the rows look like for every possible random draw.

What is modelled:

- **Rows** (`rows.dfy`). A row is a Python dictionary from column name to
  cell, and its key order becomes the column order of the written file. It
  is modelled as an ordered sequence of `(column, Value)` pairs with
  distinct columns. `Value` is `Str | Int | Bool`, and `Str("")` is the
  blank cell. `Set` is `row[key] = value`; `Update` is `dict.update`.
- **Random draws.** Every `random.*` or Faker draw is either a parameter
  whose `requires` states its documented range, or, inside a method, an
  assign-such-that bounded by that range. Each property is proved for
  every draw allowed.
- **Dates** are integer day offsets from today, which is a parameter; the
  account generator's date attribute also needs today as a calendar date
  (`calendar.dfy`). **Money**
  values (prices, discounts, amounts, money attributes) are integers
  counting hundredths.
- **Line-item fan-out** for invoices, purchase orders and purchase
  invoices (`items.dfy`, `invoice.dfy`, `purchase_order.dfy`,
  `purchase_invoice.dfy`):
  - each parent record becomes between `max(1, min)` and `max(min, max)`
    rows;
  - each row is a system item (an identifier from the pool) or a free-text
    item;
  - every row after the first is blanked except the columns that
    generator keeps. The kept sets differ between the generators, and the
    model pins each one down.
- **Orders** (`order.dfy`): exactly one row per order. When system items
  are on, exactly one of `system_item_code` and `system_item_uuid` is
  filled.
- **Payments and purchase payments** (`payment_rules.dfy`, `payment.dfy`,
  `purchase_payment.dfy`):
  - zero-padded sequential identifiers;
  - the priority between explicit and file-supplied invoice ids;
  - one row per settled invoice, all rows sharing the payment's fields and
    custom attribute values.
- **Accounts** (`account_*.dfy`, `account.dfy`):
  - unique ids and names;
  - the email domain derived from a name;
  - the address, contact and payment-method blocks;
  - the group, form and team sampling;
  - the final stable regrouping of the columns.
- **Custom attributes** (`attrs.dfy`): the type-directed value rules each
  generator carries a copy of, with their differences.
- **Worklog** (`worklog.dfy`): the `[tasks]`/`[commits]` section parser
  and the report assembler.

Observed behaviour that the model follows as written:

- `purchase_invoice_item_name` does not start with the kept prefix
  `purchase_invoice_line_item_`. Continuation rows therefore blank a
  free-text item's name (`PurchaseInvoice.FreeContinuationUnnamed`).
- The docstring of `generate_issue_date` speaks of the past 90 days, but
  the code draws 0 to 90 days ahead. The model follows the code.
- Only the payment and purchase payment generators honour a constant
  attribute, and only when its value is not `None`. The account generator
  honours `constant` alone. The invoice, purchase order, purchase invoice
  and order generators ignore it. The order generator writes today's date
  for every date attribute.
- A multi-invoice payment with a single available invoice id calls
  `random.randint(2, 1)`, which raises. The model returns an error there.
- Custom attribute columns are assumed to carry the prefix the prompt and
  default builders give them (`ca_invoice_attr_`, `ca_account_attr_` and
  so on). The row-assembly members require it; "## Left out" lists them.

## Model

| member | source | states |
|---|---|---|
| Calendar.DaysInMonth | csv/account_csv_generator.py:1197 | `calendar.monthrange(year, month)[1]`: 28 to 31 days, and February has 29 exactly in a Gregorian leap year |
| Calendar.DaysBeforeMonotone | csv/account_csv_generator.py:1197-1199 | a later month starts at least 28 days per month later in the year |
| Calendar.DayOfYear | csv/account_csv_generator.py:1199 | a date's position in its year lies within its own month's span |
| Calendar.DaysFrom | csv/account_csv_generator.py:1199 | the day offset of a date of this year is at least `1 - day_of_year(today)`, and the difference of the days within the current month |
| Calendar.DaysFromMonths | csv/account_csv_generator.py:1193-1199 | a date of an earlier month lies before the first of this month, one of a later month after its last day |
| Worklog.HeaderOf | worklog/generate_worklog.py:18-24 | a line is the tasks (commits) header exactly when its lower-cased form is `[tasks]` (`[commits]`); a header is never blank |
| Worklog.StripAll | worklog/generate_worklog.py:10 | one stripped line per input line, in order |
| Worklog.ReadInput | worklog/generate_worklog.py:9-29 | the name is the first stripped line or "Your Name" for an empty file; tasks and commits are the lines the section walk records after it |
| Worklog.Walk | worklog/generate_worklog.py:15-28 | the loop's two lists equal the lines recorded under each section by the declarative walk |
| Worklog.ReadStep | worklog/generate_worklog.py:15-28 | one line of the walk: blank lines are skipped, a header switches section, any other line is appended to the current section's list only |
| Worklog.SelectedLines | worklog/generate_worklog.py:16-28 | every recorded task or commit is non-blank and not a header, and there are no more of them than lines read |
| Worklog.SelectedFrom | worklog/generate_worklog.py:15-28 | every task and commit is one of the stripped input lines, recorded under its section |
| Worklog.NothingBeforeHeader | worklog/generate_worklog.py:14-28 | lines before the first header are recorded in no list |
| Worklog.SelectedGrows | worklog/generate_worklog.py:25-28 | the lists only grow: those read after fewer lines are prefixes of the final ones |
| Worklog.HeaderKeepsLists | worklog/generate_worklog.py:19-24 | a repeated header neither records nor clears anything; it only switches section |
| Worklog.RecordedAppends | worklog/generate_worklog.py:25-28 | a non-blank, non-header line goes to the current section's list and to no other; outside any section it is dropped |
| Worklog.SelectedCount | worklog/generate_worklog.py:15-28 | no line is recorded twice: tasks plus commits never exceed the number of lines |
| Worklog.BuildWorklog | worklog/generate_worklog.py:36-47 | the text is the report's lines joined with newlines |
| Worklog.WorklogOpening | worklog/generate_worklog.py:37-39 | the report opens with the title, the meeting line and a blank line |
| Worklog.WorklogTaskBlock | worklog/generate_worklog.py:40-43 | with tasks, "Task:", the tasks in order and a blank line follow the opening; without tasks no "Task:" line comes from the block |
| Worklog.WorklogCommitBlock | worklog/generate_worklog.py:44-46 | with commits, "Commit Links:" and the commits in order close the report; without commits the block is absent |
| Worklog.WorklogSplits | worklog/generate_worklog.py:47 | splitting the text on newlines gives back the lines when no part holds a newline |
| Worklog.WorklogEnding | worklog/generate_worklog.py:47 | the text ends with a newline exactly when there are no commits |
| CustomAttributes.OrDefault | csv/invoice_csv_generator.py:170-171 | `x or d` on an optional integer: a missing bound and a bound of 0 both give the default, any other bound is kept |
| CustomAttributes.QuantityBounds | csv/invoice_csv_generator.py:170-176 | the quantity range is ordered and is the two defaulted bounds, swapped when reversed |
| CustomAttributes.AccountQuantityBounds | csv/account_csv_generator.py:1174-1182 | the account range is ordered; it is 1..50 when either bound is missing, otherwise the two given bounds in order |
| CustomAttributes.ZeroBoundQuirk | csv/account_csv_generator.py:1177-1179 | for every upper bound `m >= 1`, a lower bound of 0 gives 1..m in the other generators, never 0, but 0..m in the account generator |
| CustomAttributes.MissingBoundQuirk | csv/account_csv_generator.py:1177-1178 | with either bound missing and the other given as `m`, the other generators keep `m` as a bound (1..m when the lower is missing), while the account rule draws from 1 to 50 |
| CustomAttributes.SomeDrawFits | csv/invoice_csv_generator.py:147-185 | every attribute admits a draw, so `_random_value_for_attr` always yields a value |
| CustomAttributes.RandomValue | csv/invoice_csv_generator.py:147-185 | the value has the attribute type's shape: a bool for bool, an option or "" for single selects, a selection of the options for multi-selects whose options hold no ",", a date within a year of today, money from 1.00 to 10000.00, a quantity within its bounds, a number from 0 to 1000 |
| CustomAttributes.MultiSelectSubset | csv/account_csv_generator.py:1205-1211 | `",".join(random.sample(options, k))` for `1 <= k <= len(options)`, when no option holds ",", splits back into between 1 and `len(options)` parts, each an option, none repeated when the options are distinct |
| CustomAttributes.PaymentAttrValue | csv/payment_csv_generator.py:199-204 | a constant attribute with a value is copied verbatim; any other attribute gets a plausible random value |
| CustomAttributes.AccountAttrValue | csv/account_csv_generator.py:1166-1220 | a constant attribute takes its value (or blank); a quantity is within the account range; single selects give an option or ""; multi-selects give a selection of the options; a date falls between the first of the current month (of January when there are more than 30 rows and it is not January) and the last day of the current month; string and unknown types give a word |
| CustomAttributes.AccountValueFits | csv/account_csv_generator.py:1166-1220 | every account attribute value has the account rule's shape, including the date window and the multi-select selection |
| CustomAttributes.RuleValue | csv/account_csv_generator.py:1166-1222 | the value a generator's rule gives an attribute has that rule's shape: for the account rule, a date within the current year's window up to the end of this month and a multi-select that is a selection of the options |
| CustomAttributes.AddKeysKeeps | csv/invoice_csv_generator.py:343-344 | assigning attribute columns never removes a column from the row |
| CustomAttributes.AddKeysHas | csv/invoice_csv_generator.py:343-344 | every attribute column ends up in the row |
| CustomAttributes.AddKeysOnly | csv/invoice_csv_generator.py:343-344 | no column appears but the row's own and the attribute columns |
| CustomAttributes.AddKeysExtends | csv/invoice_csv_generator.py:343-344 | the row's existing columns stay in front, in their order |
| CustomAttributes.AddKeysAbsent | csv/invoice_csv_generator.py:343-344 | a column that is neither in the row nor an attribute column is not added |
| CustomAttributes.AttrsFrame | csv/invoice_csv_generator.py:343-344 | attribute cells that read the same in two rows are valid in both |
| CustomAttributes.ApplyRandomAttrs | csv/invoice_csv_generator.py:343-344 | the loop leaves other columns unchanged, appends new columns in attribute order, keeps column names distinct, and leaves each attribute column holding a value the rule can give the last attribute naming it |
| CustomAttributes.AccountDate | csv/account_csv_generator.py:1188-1200 | a day of a month up to the current one in the current year lies between 1 January and the end of the current month, and on or after the first of the current month when the month is the current one |
| LineItems.EffectiveFlags | csv/invoice_csv_generator.py:248-251 | at least one item kind stays on; system items are as configured; line items are switched back on only when both were off |
| LineItems.IsSystemItem | csv/invoice_csv_generator.py:290-295 | a system item only when system items are on; always when only they are on; the coin decides when both are on |
| LineItems.ItemRange | csv/invoice_csv_generator.py:282-283 | the item count range starts at `max(1, min)` and ends at `max(min_items, max)`, so it is never empty |
| LineItems.Numbered | csv/invoice_csv_generator.py:15-17 | an identifier is the prefix followed by decimal digits only |
| LineItems.NumberedShape | csv/invoice_csv_generator.py:17 | a draw from `[10^(k-1), 10^k)` gives exactly `k` digits after the prefix |
| LineItems.NumberedInjective | csv/invoice_csv_generator.py:17 | different draws give different identifiers under one prefix |
| LineItems.FallbackItemIds | csv/invoice_csv_generator.py:199-201 | the fallback pool is five identifiers, each `ITEM-` and four digits |
| LineItems.SystemPool | csv/invoice_csv_generator.py:253-255 | configured identifiers win; the fallback is used only when none are configured and system items are on; the pool is non-empty whenever system items are on |
| LineItems.ItemPool | csv/invoice_csv_generator.py:253-255 | the pool is the configured identifiers, or five `ITEM-dddd` fallback identifiers when none are configured and system items are on, and never empty when system items are on |
| LineItems.ImportOriginInjective | csv/invoice_csv_generator.py:268 | the origins `CSV IMPORT - {idx + 1}` of different parent records differ |
| AccountChoices.IdChoicesAre | csv/invoice_csv_generator.py:53-61 | one choice per id that is non-blank after stripping, in order, holding the stripped id and the default currency |
| AccountChoices.IdChoice | csv/invoice_csv_generator.py:53-61 | every choice names a stripped, non-blank input id with the default currency |
| AccountChoices.DeriveFromIds | csv/invoice_csv_generator.py:53-61 | the loop builds the id choices, which are empty exactly when every id is blank after stripping |
| AccountChoices.RowChoiceFrom | csv/purchase_order_csv_generator.py:37-43 | every row-derived choice comes from a row with a truthy `account_id`, with that row's currency or the default |
| AccountChoices.RowChoicesEmpty | csv/purchase_order_csv_generator.py:37-43 | no choice comes from the rows exactly when no row has a truthy `account_id` |
| AccountChoices.CurrencyOr | csv/purchase_order_csv_generator.py:42 | `currency or default_currency`: a truthy currency is kept, anything else becomes the default |
| AccountChoices.ChoiceCurrency | csv/purchase_order_csv_generator.py:42 | applying `or default_currency` again to a derived choice's currency changes nothing |
| AccountChoices.DeriveFromRowsOrIds | csv/purchase_order_csv_generator.py:34-49 | account rows win when any are given, otherwise the stripped ids; the result is empty exactly when the chosen source has no usable id |
| Invoice.InvoiceId | csv/invoice_csv_generator.py:15-17 | an invoice id is `CSV-INV-` followed by exactly six digits |
| Invoice.DueDate | csv/invoice_csv_generator.py:45-50 | the due date lies 7 to 90 days after the issue date |
| Invoice.RowsOkAt | csv/invoice_csv_generator.py:286-357 | every row of an invoice has the invoice's columns, its invoice id and account id, a valid line item and valid line item attributes |
| Invoice.InvoicesOkAt | csv/invoice_csv_generator.py:261-357 | invoice number `j` of the output satisfies everything promised about invoice `j` |
| Invoice.GroupDone | csv/invoice_csv_generator.py:284-357 | rows built from one header, within the item range, with valid items and blanked continuations, form a valid invoice |
| Invoice.InvoicesSnoc | csv/invoice_csv_generator.py:357 | appending the next invoice's rows keeps every earlier invoice valid and extends the output by those rows |
| Invoice.FixedColumnsNotAttrs | csv/invoice_csv_generator.py:266-336 | no header or line item column can be an attribute column |
| Invoice.LineAttrNotInvoiceAttr | csv/invoice_csv_generator.py:339-344 | a line item attribute column is never an invoice attribute column |
| Invoice.ItemKeysKept | csv/invoice_csv_generator.py:349-352 | continuation rows keep every line item column |
| Invoice.HeaderLiteral | csv/invoice_csv_generator.py:266-276 | the header literal, given drawn values of the right shape, gives a valid header |
| Invoice.TaxInclusiveSet | csv/invoice_csv_generator.py:279-280 | setting the tax-inclusive flag to "TRUE" keeps the header valid and its column order |
| Invoice.ItemLiteral | csv/invoice_csv_generator.py:297-336 | the item assignments, given drawn values of the right shape, give a valid item row |
| Invoice.InvoiceHeader | csv/invoice_csv_generator.py:262-280 | a fresh `CSV-INV-dddddd` id, origin `CSV IMPORT - {idx+1}`, the default currency, an account id from the cleaned list, an issue date 0 to 90 days back, a due date 7 to 90 days later, "" or "TRUE" for tax-inclusive, one of the ten invoice notes, and the form template |
| Invoice.SetItemFields | csv/invoice_csv_generator.py:287-336 | a system item names a pool identifier with an empty name, and a free item has an empty id and an adjective-service name; quantity 1..100; price 10.00..5000.00; one of the eight line item notes; an accounting code from the list; discount "" or 5.00 to 80% of the price; tax code and rate from the configuration or both ""; header columns unchanged |
| Invoice.FullItemRow | csv/invoice_csv_generator.py:287-344 | the item row has the header, line item and attribute columns in that order, keeps the header values, and holds valid line item and attribute cells |
| Invoice.ContinuationRow | csv/invoice_csv_generator.py:346-355 | a continuation row keeps the invoice id, the account id, the line item columns and the line item attributes |
| Invoice.InvoiceItemRow | csv/invoice_csv_generator.py:286-357 | the first item row keeps the header and the invoice attributes; later rows blank every column except the invoice id, the account id, line item columns and line item attributes |
| Invoice.InvoiceGroup | csv/invoice_csv_generator.py:262-357 | the rows of one invoice satisfy every promise about it, with `max(1,min)` to `max(min,max)` items |
| Invoice.InvoiceLoop | csv/invoice_csv_generator.py:260-359 | `count` invoices, appended one after another, each valid, with between `count*min` and `count*max` rows in all |
| Invoice.GenerateInvoiceRows | csv/invoice_csv_generator.py:212-359 | fails exactly when every account id is blank after stripping; otherwise gives `count` valid invoices, using the configured identifiers or five fallback ones |
| Invoice.LineItemName | csv/invoice_csv_generator.py:69-73 | a free item name is one of the seven adjectives, a space and one of the seven services |
| PurchaseOrder.PurchaseOrderId | csv/purchase_order_csv_generator.py:15-17 | a purchase order id is `CSV-PO-` followed by exactly six digits |
| PurchaseOrder.LineItemName | csv/purchase_order_csv_generator.py:56-59 | a free-text item name is an adjective and a noun of the fixed lists, separated by a space |
| PurchaseOrder.RowsOkAt | csv/purchase_order_csv_generator.py:276-362 | every row of a purchase order keeps the first row's kept cells and is a system or a free-text item row |
| PurchaseOrder.GroupsOkAt | csv/purchase_order_csv_generator.py:233-362 | purchase order number `j` of the output satisfies everything promised about purchase order `j` |
| PurchaseOrder.HeaderNotLine | csv/purchase_order_csv_generator.py:241-270 | no purchase order column is a line column |
| PurchaseOrder.TemplateNotAttr | csv/purchase_order_csv_generator.py:241-270 | no template column is an attribute column |
| PurchaseOrder.LineAttrNotPoAttr | csv/purchase_order_csv_generator.py:341-346 | a line item attribute column is never a purchase order attribute column |
| PurchaseOrder.HeaderLiteral | csv/purchase_order_csv_generator.py:241-270 | the template literal, given drawn values of the right shape, gives valid purchase order cells |
| PurchaseOrder.PurchaseOrderTemplate | csv/purchase_order_csv_generator.py:234-270 | the template row holds a fresh `CSV-PO-dddddd` id, origin `CSV IMPORT - {idx+1}`, an account choice with its currency, an issue date within 30 days of today, a due date 15 to 90 days later, an expected completion 0 to 60 days later, "TRUE" or "FALSE", a note, an empty form template and every line column "" |
| PurchaseOrder.DrawLine | csv/purchase_order_csv_generator.py:294-338 | each free-text draw is within its documented range; the purchase unit is the base unit or one of the list |
| PurchaseOrder.LineFields | csv/purchase_order_csv_generator.py:277-338 | a system item writes a pool identifier and leaves every other line column ""; a free-text item fills every line column after the id with values of the documented shapes |
| PurchaseOrder.FreeLiteral | csv/purchase_order_csv_generator.py:294-338 | the free-text assignments give a valid free-text line |
| PurchaseOrder.SystemLiteral | csv/purchase_order_csv_generator.py:290-292 | the system assignment gives a valid system line |
| PurchaseOrder.LineItemAttrs | csv/purchase_order_csv_generator.py:340-342 | line item attributes leave the template and line columns as they were |
| PurchaseOrder.PoAttrsKeepLineAttrs | csv/purchase_order_csv_generator.py:344-346 | writing the purchase order attributes leaves the line item attributes as they were |
| PurchaseOrder.FullItemRow | csv/purchase_order_csv_generator.py:277-346 | the item row has the template columns, the line item attributes on a free-text item only, then the purchase order attributes |
| PurchaseOrder.ContinuationRow | csv/purchase_order_csv_generator.py:348-360 | a blanked item row keeps the six kept purchase order cells, the line columns and the line item attributes |
| PurchaseOrder.PurchaseOrderItemRow | csv/purchase_order_csv_generator.py:276-362 | one item row: valid, with the template's kept cells; the first keeps the template, later rows are blanked outside the kept columns |
| PurchaseOrder.PurchaseOrderGroup | csv/purchase_order_csv_generator.py:234-362 | the rows of one purchase order satisfy every promise about it, with `max(1,min)` to `max(min,max)` items |
| PurchaseOrder.PurchaseOrderLoop | csv/purchase_order_csv_generator.py:232-363 | `count` purchase orders, appended one after another, each valid |
| PurchaseOrder.GeneratePurchaseOrderRows | csv/purchase_order_csv_generator.py:191-363 | fails exactly when neither the account rows nor the ids give an account; otherwise `count` valid purchase orders with the configured or fallback identifiers |
| PurchaseOrder.RowDates | csv/purchase_order_csv_generator.py:237-354 | every row carries the first row's id, account, currency and dates: the due date 15 to 90 days after the issue date and the expected completion 0 to 60 days after it |
| PurchaseOrder.ContinuationBlanks | csv/purchase_order_csv_generator.py:349-360 | on every row after the first, the origin, the tax-inclusive flag, the note, the form template and every purchase order attribute are "" |
| PurchaseOrder.RowColumns | csv/purchase_order_csv_generator.py:277-346 | every row carries the template columns and the purchase order attribute columns |
| PurchaseOrder.PoAttrNotKept | csv/purchase_order_csv_generator.py:349-360 | continuation rows keep no purchase order attribute column |
| PurchaseOrder.WarehouseOnlyWhenOn | csv/purchase_order_csv_generator.py:335-338 | a non-empty warehouse cell means warehouses are on and it names one of them |
| PurchaseOrder.LineAttrsOnlyOnFreeRows | csv/purchase_order_csv_generator.py:293-342 | a row carrying a line item attribute column is a free-text row, with line items on and plausible line item attributes |
| PurchaseOrder.LineAttrNotTemplate | csv/purchase_order_csv_generator.py:241-270 | no template column looks like a line item attribute column |
| PurchaseInvoice.PurchaseInvoiceId | csv/purchase_invoice_csv_generator.py:15-17 | a purchase invoice id is `CSV-PINV-` followed by exactly six digits |
| PurchaseInvoice.IssueDate | csv/purchase_invoice_csv_generator.py:37-42 | the issue date is today or up to 90 days ahead, never in the past |
| PurchaseInvoice.DueDate | csv/purchase_invoice_csv_generator.py:46-51 | the due date is 7 to 90 days after the issue date, so strictly after it |
| PurchaseInvoice.LineItemName | csv/purchase_invoice_csv_generator.py:70-74 | a free-text item name is one of the seven adjectives, a space and one of the seven nouns (`IsLineItemName`), never empty |
| PurchaseInvoice.RowsOkAt | csv/purchase_invoice_csv_generator.py:274-324 | every row of a purchase invoice has its columns, the five shared header cells and a valid line item |
| PurchaseInvoice.PurchaseInvoicesOkAt | csv/purchase_invoice_csv_generator.py:245-324 | purchase invoice number `j` of the output satisfies everything promised about it |
| PurchaseInvoice.HeadNotItem | csv/purchase_invoice_csv_generator.py:250-268 | header and purchase invoice attribute columns are no line item columns |
| PurchaseInvoice.NotLineAttr | csv/purchase_invoice_csv_generator.py:266-310 | no column written before the line item attributes is a line item attribute column |
| PurchaseInvoice.ItemKeysKept | csv/purchase_invoice_csv_generator.py:318-319 | every line item column except the name carries the kept prefix |
| PurchaseInvoice.NameNotKept | csv/purchase_invoice_csv_generator.py:288-322 | the item name column lacks the kept prefix, so continuation rows blank it |
| PurchaseInvoice.HeaderLiteral | csv/purchase_invoice_csv_generator.py:250-260 | the header literal, given drawn values of the right shape, gives a valid header |
| PurchaseInvoice.TaxInclusiveSet | csv/purchase_invoice_csv_generator.py:263-264 | setting the tax-inclusive flag to "TRUE" keeps the header valid |
| PurchaseInvoice.ItemAppend | csv/purchase_invoice_csv_generator.py:285-306 | the item columns are new to the header copy, so they are appended in order and the header is untouched |
| PurchaseInvoice.ItemLiteral | csv/purchase_invoice_csv_generator.py:285-306 | item values of the right shape, an adjective-noun name on a free item, give a valid system or free-text line |
| PurchaseInvoice.DrawHeaderLiteral | csv/purchase_invoice_csv_generator.py:246-260 | the dictionary literal: a fresh `CSV-PINV-dddddd` id, origin `CSV IMPORT - {idx+1}`, the default currency, an account id from the cleaned list, an issue date 0 to 90 days ahead, a due date 7 to 90 days after it, "" for tax-inclusive prices, a note and the form template |
| PurchaseInvoice.HeaderLiteralRow | csv/purchase_invoice_csv_generator.py:246-264 | the literal with tax-inclusive prices then "" or "TRUE"; the columns stay the header columns in order, and every header rule still holds |
| PurchaseInvoice.PurchaseInvoiceHeader | csv/purchase_invoice_csv_generator.py:246-268 | the header literal followed by the purchase invoice attributes, drawn once per purchase invoice, with the header values unchanged |
| PurchaseInvoice.SetItemFields | csv/purchase_invoice_csv_generator.py:275-306 | a system item has a pool identifier and an empty name, a free item an empty id and an adjective-noun name; quantity 1..100; price 10.00..5000.00; tax uuid from the list or ""; exempt "TRUE" or "" |
| PurchaseInvoice.FullItemRow | csv/purchase_invoice_csv_generator.py:275-310 | the header with its attributes unchanged, the line item columns, then line item attributes drawn for this row |
| PurchaseInvoice.ContinuationRow | csv/purchase_invoice_csv_generator.py:312-322 | a continuation row keeps the five shared cells, the identifier, quantity, price and tax columns and the line item attributes; its name is "" |
| PurchaseInvoice.PurchaseInvoiceItemRow | csv/purchase_invoice_csv_generator.py:274-324 | one item row: valid, sharing the header's five cells; later rows are blanked outside the kept columns |
| PurchaseInvoice.PurchaseInvoiceGroup | csv/purchase_invoice_csv_generator.py:246-324 | the rows of one purchase invoice satisfy every promise about it, with `max(1,min)` to `max(min,max)` items |
| PurchaseInvoice.GroupDone | csv/purchase_invoice_csv_generator.py:270-324 | rows built from one header, within the item range, valid and blanked, form a valid purchase invoice |
| PurchaseInvoice.PurchaseInvoiceLoop | csv/purchase_invoice_csv_generator.py:244-326 | `count` purchase invoices, appended one after another, each valid |
| PurchaseInvoice.GeneratePurchaseInvoiceRows | csv/purchase_invoice_csv_generator.py:197-326 | fails exactly when every account id is blank after stripping; otherwise `count` valid purchase invoices with the configured or fallback identifiers |
| PurchaseInvoice.ContinuationCells | csv/purchase_invoice_csv_generator.py:312-322 | on every row after the first the five shared cells equal the first row's, the name is "" and every column outside the keep-set is "" |
| PurchaseInvoice.FreeContinuationUnnamed | csv/purchase_invoice_csv_generator.py:288-322 | on a continuation row a free-text item's identifier and name both read "", while a system item keeps its pool identifier |
| PurchaseInvoice.CollectIdsMeaning | csv/purchase_invoice_csv_generator.py:382 | a value is collected exactly when some row carries it as a truthy purchase invoice id |
| PurchaseInvoice.CollectIdsAppend | csv/purchase_invoice_csv_generator.py:382 | the ids of concatenated rows are the union of the ids of each part |
| PurchaseInvoice.CollectGroup | csv/purchase_invoice_csv_generator.py:382 | the rows of one purchase invoice contribute exactly its id |
| PurchaseInvoice.GroupIdsBound | csv/purchase_invoice_csv_generator.py:382-383 | there are no more unique ids than purchase invoices |
| PurchaseInvoice.GroupRowsCarryId | csv/purchase_invoice_csv_generator.py:315-317 | every row of a purchase invoice carries its non-empty id |
| PurchaseInvoice.CollectedIds | csv/purchase_invoice_csv_generator.py:382-384 | the collected ids are the generated purchase invoices' ids, at most one per purchase invoice, each of the `CSV-PINV-dddddd` form |
| PurchaseInvoice.GeneratePurchaseInvoiceCsv | csv/purchase_invoice_csv_generator.py:329-384 | fails exactly when no account id is usable; otherwise the rows are those of `count` valid purchase invoices, and the returned set is exactly the ids of those purchase invoices, at most `count` of them, each a purchase invoice id |
| Order.IdentifierType | csv/order_csv_generator.py:226-228 | the identifier type is "uuid" or "code", and "code" exactly when the configured type lower-cases to "code" |
| Order.FallbackSystemIds | csv/order_csv_generator.py:188-195 | `count` fallback identifiers: `SYS-CODE-` and four digits for the code type, otherwise `00000000-0000-0000-0000-` and twelve digits |
| Order.SystemPool | csv/order_csv_generator.py:229-231 | the pool is the configured identifiers, or five fallback ones of the identifier type when none are configured and system items are on |
| Order.PoolNonEmpty | csv/order_csv_generator.py:229-250 | with system items on there is always a non-empty identifier to choose |
| Order.OrderIdShape | csv/order_csv_generator.py:15-17 | an order id is `CSV-ORD-` followed by exactly six digits |
| Order.InvoiceNote | csv/order_csv_generator.py:41-50 | the invoice note starts with a stock note and ends with the order name in parentheses |
| Order.DiscountCells | csv/order_csv_generator.py:267-277 | both discount cells are "" without a discount; otherwise the type is FIXED with 5.00 to 250.00 or PERCENTAGE with a whole number from 1 to 100 |
| Order.SystemCellsShape | csv/order_csv_generator.py:249-256 | the system cells have distinct columns, the type's column first, or none when system items are off |
| Order.AssembleAppends | csv/order_csv_generator.py:239-280 | the fixed row is the order literal, the system cells and the line cells appended, its columns distinct |
| Order.OrdersOkAt | csv/order_csv_generator.py:236-287 | row `p` of the output satisfies everything promised about one order row |
| Order.OrdersSnoc | csv/order_csv_generator.py:287 | appending a valid order row keeps every earlier row valid |
| Order.DrawOrderFields | csv/order_csv_generator.py:237-246 | the order draws are within range: a name from the fixed lists and 1..999, an account choice, an id draw, a note |
| Order.DrawLine | csv/order_csv_generator.py:259-280 | the line item draws are within range: quantity 1..50, price 10.00..5000.00, discount and tax-exempt as documented |
| Order.UpdatePair | csv/order_csv_generator.py:251-256 | the two system assignments are an update with a two-cell literal |
| Order.AssignSystem | csv/order_csv_generator.py:249-256 | with system items on, a pool identifier is written under the type's column and "" under the other; off, nothing is written |
| Order.FixedRow | csv/order_csv_generator.py:237-280 | the row before attributes is the order literal followed by the system and line item assignments for some valid draw |
| Order.GenerateOrder | csv/order_csv_generator.py:237-287 | one order's row satisfies every promise about an order row |
| Order.GenerateOrderRows | csv/order_csv_generator.py:198-288 | fails exactly when no account can be chosen; otherwise exactly one valid row per order |
| Order.FixedShape | csv/order_csv_generator.py:239-280 | the fixed columns come in literal order and are distinct |
| Order.FixedNotAttr | csv/order_csv_generator.py:239-286 | no fixed column is an attribute column |
| Order.LineAttrsApart | csv/order_csv_generator.py:282-286 | line item and order attribute columns never coincide |
| Order.LineAttrsKept | csv/order_csv_generator.py:285-286 | writing the order attributes leaves the line item attribute cells as they were |
| Order.FixedKept | csv/order_csv_generator.py:239-286 | every fixed column keeps the value the literal or the item assignments gave it |
| Order.ColumnOrder | csv/order_csv_generator.py:239-286 | the fixed columns come first, in literal order; attribute columns follow |
| Order.FixedPrefix | csv/order_csv_generator.py:239-286 | attribute columns only ever come after the fixed columns |
| Order.OrderColumns | csv/order_csv_generator.py:239-247 | the id is `CSV-ORD-` and six digits, the display name equals the name, the note ends with the name in parentheses, and account and currency come from one account choice |
| Order.SystemColumns | csv/order_csv_generator.py:249-256 | with system items on, the type's column holds a pool identifier and the other holds "" |
| Order.NoSystemColumns | csv/order_csv_generator.py:249 | with system items off, neither system column exists |
| Order.NotFixedNotAttr | csv/order_csv_generator.py:239-286 | a column that is neither fixed nor an attribute column is not in the row |
| Order.SystemExclusive | csv/order_csv_generator.py:251-256 | exactly one system column is non-empty when the chosen identifier is |
| Order.LineColumns | csv/order_csv_generator.py:258-280 | with line items on, every line item column holds its drawn value |
| Order.DiscountColumns | csv/order_csv_generator.py:267-277 | with line items on, the discount type is FIXED, PERCENTAGE or ""; a PERCENTAGE discount is a whole number from 1 to 100; without a discount both cells are "" |
| Order.NoLineColumns | csv/order_csv_generator.py:258-283 | without line items no line item column and no line item attribute column exists |
| PaymentRules.PaddedIdParses | csv/payment_csv_generator.py:15-17 | the sequence number is read back from the zero-padded digits after the prefix |
| PaymentRules.PaddedIdInjective | csv/payment_csv_generator.py:15-17 | different sequence numbers give different payment ids |
| PaymentRules.OriginShape | csv/payment_csv_generator.py:20-24 | an origin is "CSV-", the kind, "-" and exactly three digits that read back as the drawn number |
| PaymentRules.FileIdsWithoutExplicit | csv/payment_csv_generator.py:143-148 | without an explicit list the identifiers read from the invoice file are used as they are |
| PaymentRules.ExplicitIdsWin | csv/payment_csv_generator.py:140-141 | an explicit list with a non-blank entry shadows the file: every choice is a stripped explicit entry |
| PaymentRules.ExplicitIdsNonEmpty | csv/payment_csv_generator.py:140-141 | a non-blank explicit entry always yields at least one choice |
| PaymentRules.BlankExplicitHidesFile | csv/payment_csv_generator.py:140-141 | an explicit list of blanks still hides the file, leaving nothing to choose from |
| PaymentRules.Processors | csv/payment_csv_generator.py:181-182 | the processors are the configured list, or ["Cash"] when it is empty, and never empty |
| PaymentRules.SelectionDistinct | csv/payment_csv_generator.py:207-208 | identifiers sampled at distinct positions of a list without repeats are pairwise distinct |
| PaymentRules.SelectInvoices | csv/payment_csv_generator.py:206-210 | one invoice drawn by `choice`, or with multi-invoice payments between 2 and `min(5, n)` invoices at distinct positions drawn by `sample` |
| Payment.AlternateDate | csv/payment_csv_generator.py:33-40 | the alternate date is blank or 7 to 30 days after the payment date, so strictly after it when not blank |
| Payment.PaymentsOkAt | csv/payment_csv_generator.py:189-224 | payment number `p` of the output satisfies everything promised about that payment |
| Payment.PaymentsSnoc | csv/payment_csv_generator.py:212-224 | appending one more payment's rows keeps every earlier payment valid |
| Payment.DrawFields | csv/payment_csv_generator.py:190-196 | payment `p` has id `CSV-PMT-` and `p+1` zero-padded, an ACC or ORD origin, today's date, the alternate date rule, a processor of the list and an amount between the bounds |
| Payment.GeneratePayment | csv/payment_csv_generator.py:190-224 | one payment: its fields, its custom attribute values, its selected invoices and one row per invoice |
| Payment.GeneratePaymentRows | csv/payment_csv_generator.py:151-226 | fails exactly when there is no invoice id, or when a multi-invoice payment is due with a single id; otherwise `count` valid payments, their rows appended in order |
| Payment.CustomKeysFresh | csv/payment_csv_generator.py:213-223 | a custom attribute column never clashes with a fixed payment column |
| Payment.PaymentRowAppends | csv/payment_csv_generator.py:213-223 | the update only appends: the row is the literal followed by the custom attribute cells |
| Payment.PaymentRowCells | csv/payment_csv_generator.py:213-223 | each fixed column holds its field, the invoice column the invoice, and each custom column its value |
| Payment.RowsShareFields | csv/payment_csv_generator.py:212-224 | two rows of one payment differ at most in the invoice column |
| Payment.ConstantOnEveryRow | csv/payment_csv_generator.py:201-202 | a constant attribute with a value has that value on every row of every payment |
| Payment.PaymentIdsDistinct | csv/payment_csv_generator.py:189-190 | different payments get different ids |
| Payment.RowCount | csv/payment_csv_generator.py:206-212 | one row per payment, or between 2 and 5 rows per payment with multi-invoice payments |
| PurchasePayment.PaymentsOkAt | csv/purchase_payment_csv_generator.py:181-216 | purchase payment number `p` of the output satisfies everything promised about it |
| PurchasePayment.PaymentsSnoc | csv/purchase_payment_csv_generator.py:204-216 | appending one more purchase payment's rows keeps every earlier one valid |
| PurchasePayment.DrawFields | csv/purchase_payment_csv_generator.py:182-187 | purchase payment `p` has id `CSV-PPMT-` and `p+1` zero-padded, a SUP or PO origin, a date 0 to 90 days ahead, a processor of the list and an amount between the bounds |
| PurchasePayment.GeneratePayment | csv/purchase_payment_csv_generator.py:182-216 | one purchase payment: its fields, its custom attribute values, its selected purchase invoices and one row per purchase invoice |
| PurchasePayment.GeneratePurchasePaymentRows | csv/purchase_payment_csv_generator.py:143-218 | fails exactly when there is no purchase invoice id, or when a multi-invoice payment is due with a single id; otherwise `count` valid purchase payments, their rows appended in order |
| PurchasePayment.CustomKeysFresh | csv/purchase_payment_csv_generator.py:205-215 | a custom attribute column never clashes with a fixed column or the purchase invoice column |
| PurchasePayment.PaymentRowAppends | csv/purchase_payment_csv_generator.py:205-215 | the row is the literal, then the custom attribute cells, then the purchase invoice cell, which always comes last |
| PurchasePayment.PaymentRowCells | csv/purchase_payment_csv_generator.py:205-215 | each fixed column holds its field, the purchase invoice column the invoice, and each custom column its value |
| PurchasePayment.RowsShareFields | csv/purchase_payment_csv_generator.py:204-216 | two rows of one purchase payment differ at most in the purchase invoice column |
| PurchasePayment.ConstantOnEveryRow | csv/purchase_payment_csv_generator.py:193-194 | a constant attribute with a value has that value on every row of every purchase payment |
| PurchasePayment.PaymentIdsDistinct | csv/purchase_payment_csv_generator.py:181-182 | different purchase payments get different ids |
| PurchasePayment.RowCount | csv/purchase_payment_csv_generator.py:198-204 | one row per purchase payment, or between 2 and 5 with multi-invoice payments |
| AccountFields.AccountId | csv/account_csv_generator.py:14-18 | an account id is `CSV-ACC-`, five digits, `-` and `CUS` or `SUP` |
| AccountFields.AccountIdInjective | csv/account_csv_generator.py:14-18 | different draws give different account ids |
| AccountFields.NthAccountIdDistinct | csv/account_csv_generator.py:14-18 | there are 180000 distinct account ids |
| AccountFields.FreshAccountId | csv/account_csv_generator.py:953-957 | the retry loop ends with a well-formed account id not used before, while fewer than 180000 are used |
| AccountFields.FreshAccountName | csv/account_csv_generator.py:960-964 | the retry loop ends with some non-empty account name not used before, which always exists |
| AccountFields.DomainStemClean | csv/account_csv_generator.py:44-53 | the domain stem holds no space, comma, apostrophe or period and neither starts nor ends with `-` |
| AccountFields.NameToDomain | csv/account_csv_generator.py:42-57 | a domain is the stem of the name followed by one of the extensions, the three Australian ones when none are given |
| AccountFields.DomainsShareStem | csv/account_csv_generator.py:966-968 | the email domain and the website domain of one account differ only in the extension |
| AccountFields.DaySuffixIsOrdinal | csv/account_csv_generator.py:1012-1018 | on days 1 to 30 the suffix written is the English ordinal suffix |
| AccountFields.BillingDayOfMonth | csv/account_csv_generator.py:1006-1019 | the day of month is "" unless the billing start is DAY_OF_MONTH; then "End of the Month" for END, or the day, its suffix and " of The Month" |
| AccountFields.AddressLineCount | csv/account_csv_generator.py:873-879 | the line count is in 1..5, 1 when missing or not an integer, and the configured count when it is already in range |
| AccountFields.MethodCount | csv/account_csv_generator.py:892-893 | the number of payment methods of a kind is the configured count, or 0 when it is negative |
| AccountFields.AssignCount | csv/account_csv_generator.py:912-913 | the group assign count is clamped to 0..num_rows |
| AccountFields.PostCode | csv/account_csv_generator.py:118-120 | a post code is four digits that read back as the drawn number |
| AccountFields.Phone | csv/account_csv_generator.py:104-109 | a landline has the `0X XXXX XXXX` layout, its pieces reading back as the draws |
| AccountFields.Mobile | csv/account_csv_generator.py:111-116 | a mobile has the `04XX XXX XXX` layout, its pieces reading back as the draws |
| AccountFields.BlockNumber | csv/account_csv_generator.py:1126-1138 | a block's column prefix determines the block's number |
| AccountFields.BlockPrefixUnique | csv/account_csv_generator.py:1126-1138 | a column carries the prefix of at most one block |
| AccountFields.BlocksKeysFrom | csv/account_csv_generator.py:1125-1151 | every column of blocks 1 to `n` belongs to one of them |
| AccountFields.BlocksKeysDistinct | csv/account_csv_generator.py:1125-1151 | no column is repeated across the blocks |
| AccountFields.AddressLineKeyAt | csv/account_csv_generator.py:203-205 | the five computed line keys are the first five address keys |
| AccountFields.FieldsLineCount | csv/account_csv_generator.py:189 | `line_count or 1` clamped to 1..5: a missing count and 0 both give 1 |
| AccountFields.AddressRow | csv/account_csv_generator.py:202-213 | the address has its eleven keys in order; line `idx` holds the drawn line when `idx` is below the count and "" otherwise; line 2 is "", `Apt. n`, `Suite n`, `Unit n` or `n/` with `n` in the source's ranges; four-digit post code; the given country; billing and shipping defaults "YES" |
| AccountFields.AccountAddressFields | csv/account_csv_generator.py:181-213 | the line loop and the tail assignments build exactly the address row for the clamped count |
| AccountFields.BlankContact | csv/account_csv_generator.py:257-282 | a blank contact has every contact key of contact `i`, each "" |
| AccountFields.ContactEmail | csv/account_csv_generator.py:226-227 | the email is the local part, "@" and the domain |
| AccountFields.Contact | csv/account_csv_generator.py:216-254 | a contact has the same twenty keys as the blank contact, in order, holding the drawn values in their documented shapes |
| AccountFields.ReferencesDiffer | csv/account_csv_generator.py:1134-1151 | two methods of one account and kind never share a reference |
| AccountFields.DirectDebit | csv/account_csv_generator.py:1125-1134 | direct debit `idx` has its seven columns holding DIRECT_DEBIT, the default flag, the BSB, the account name, the account number, the processor and `{id}-DD{idx}` |
| AccountFields.DebitNumbers | csv/account_csv_generator.py:1130-1132 | the BSB has six digits and the account number nine, each reading back as its draw |
| AccountFields.OtherProcessor | csv/account_csv_generator.py:1143-1149 | the processor is the single configured one when the list is empty, otherwise an entry of the list |
| AccountFields.OtherProcessorEntry | csv/account_csv_generator.py:1144-1147 | the entry is `idx - 1` while the list reaches it and the last entry beyond |
| AccountFields.OtherMethod | csv/account_csv_generator.py:1137-1151 | other method `idx` has its four columns holding OTHER, the default flag, the processor and `{id}-OT{idx}` |
| AccountFields.Line2Text | csv/account_csv_generator.py:91-102 | the secondary address line is "", `Apt. n` (1..999), `Suite n` (100..999), `Unit n` (1..99) or `n/` (1..999), its number reading back as the draw |
| AccountInfo.BillingPeriods | csv/account_csv_generator.py:1047-1051 | there are twenty-four billing periods: a day, a week, 1 to 12 months and 1 to 10 years |
| AccountInfo.PeriodUnit | csv/account_csv_generator.py:1048-1050 | the last character of a period names its unit |
| AccountInfo.BillingPeriodsDistinct | csv/account_csv_generator.py:1048-1051 | the twenty-four periods are pairwise different |
| AccountInfo.CommunicationPreferenceSplits | csv/account_csv_generator.py:987-992 | splitting the preference on commas gives back the sampled channels: one to four known channels, none repeated |
| AccountInfo.ProfileLinks | csv/account_csv_generator.py:1053-1062 | the LinkedIn, X and Facebook links share one slug, which each gives back after its base |
| AccountInfo.InfoChoices | csv/account_csv_generator.py:971-1051 | every chosen cell of the account literal is an entry of its list, and the tax code is a configured one or "" |
| AccountInfo.InfoLinks | csv/account_csv_generator.py:966-1082 | the email address is `info@` and a domain with an Australian extension; the website is `https://` and the same stem with `.com` |
| AccountInfo.InfoDayOfMonth | csv/account_csv_generator.py:1006-1019 | the billing day cell is filled exactly when the billing start is DAY_OF_MONTH |
| AccountInfo.InfoChannels | csv/account_csv_generator.py:987-992 | the communication preference names one to four different channels |
| AccountInfo.InfoKeysDistinct | csv/account_csv_generator.py:1071-1098 | the literal has twenty-six distinct keys, each starting with `account_` |
| AccountInfo.LaterKeysFresh | csv/account_csv_generator.py:1122-1163 | the accounting code, group, custom form and user team keys are not keys of the literal |
| AccountInfo.InfoRow | csv/account_csv_generator.py:1071-1098 | the literal holds its twenty-six keys in order, each with its cell |
| AccountInfo.InfoRowIdentity | csv/account_csv_generator.py:1073-1075 | `account_id` holds the id and `account_name` and `account_display_name` hold the name |
| AccountParts.ContactCount | csv/account_csv_generator.py:870 | the contact count is clamped to 1..5 |
| AccountParts.SomeDrawOk | csv/account_csv_generator.py:951-1226 | every configuration admits a draw, so the loop body can always run |
| AccountParts.CellDrawn | csv/account_csv_generator.py:1121-1163 | an optional cell's column is present exactly when its condition holds, and then holds one of its choices |
| AccountParts.ContactsRow | csv/account_csv_generator.py:1104-1105 | contacts 1 to `n` bring exactly the columns of `n` contact blocks, in order, none repeated |
| AccountParts.DebitsRow | csv/account_csv_generator.py:1125-1134 | direct debits 1 to `n` bring exactly the columns of `n` direct debit blocks, in order, none repeated |
| AccountParts.OthersRow | csv/account_csv_generator.py:1137-1151 | other methods 1 to `n` bring exactly the columns of `n` other-method blocks, in order, none repeated |
| AccountParts.NextBlockFresh | csv/account_csv_generator.py:1125-1151 | the next block's columns are new to a row holding the earlier blocks |
| AccountParts.DebitAssignments | csv/account_csv_generator.py:1126-1134 | the seven assignments of direct debit `idx` are an update with that block |
| AccountParts.OtherAssignments | csv/account_csv_generator.py:1138-1151 | the four assignments of other method `idx` are an update with that block |
| AccountParts.AssembleByUpdates | csv/account_csv_generator.py:1071-1163 | every stage of the loop body brings only columns the row lacks, so each update appends: the row is the stages one after another and no column is written twice |
| AccountParts.AssembleKeys | csv/account_csv_generator.py:1071-1163 | the row's columns are the literal's, the address's, the contacts', the accounting code's, the payment methods', the group's, the form's and the team's, in that order |
| AccountParts.InfoGet | csv/account_csv_generator.py:1071-1098 | a column of the literal reads in the whole row as in the literal |
| AccountParts.AddressGet | csv/account_csv_generator.py:1101 | a column of the primary address reads in the whole row as in the address |
| AccountParts.IdentityGet | csv/account_csv_generator.py:1073-1074 | `account_id` and `account_name` read in the whole row as in the literal |
| AccountParts.AddressCells | csv/account_csv_generator.py:203-212 | the address lines, the country and both default flags read in the whole row as in the primary address |
| AccountParts.LaterGet | csv/account_csv_generator.py:1121-1163 | the accounting code, group, custom form and user team columns are present exactly when their stage assigns them, with the assigned value |
| Account.GroupSampleSize | csv/account_csv_generator.py:911-917 | the number of accounts sampled for a group is at most `num_rows`, 0 without group names, and the configured count when it is in range |
| Account.FormCountBounds | csv/account_csv_generator.py:925-926 | a positive share gives at least one account a form, and a share of 100% or more gives every account one |
| Account.FormSampleSize | csv/account_csv_generator.py:922-929 | the number of accounts sampled for a custom form is at most `num_rows`, 0 without form names or without a positive share, otherwise the clamped count |
| Account.BaseRowByUpdates | csv/account_csv_generator.py:1071-1163 | the stages appended one after another are what the updates and assignments of the loop body build |
| Account.BaseRowKeys | csv/account_csv_generator.py:1071-1163 | an account row's columns, in order: the twenty-six of the literal, the eleven of the address, the contact blocks, the accounting code when assigned, the direct debit and other blocks, then the group, form and team when assigned |
| Account.BaseRowId | csv/account_csv_generator.py:1073 | `account_id` holds the account's id |
| Account.BaseRowName | csv/account_csv_generator.py:1074 | `account_name` holds the account's name |
| Account.BaseRowAccountingCode | csv/account_csv_generator.py:1108-1122 | the accounting code is present exactly when configured and drawn, and is one of the nine codes |
| Account.BaseRowGroup | csv/account_csv_generator.py:1154-1155 | the group is present exactly for a sampled account when group names exist, and is one of them |
| Account.BaseRowForm | csv/account_csv_generator.py:1158-1159 | the custom form is present exactly for a sampled account when form names exist, and is one of them |
| Account.BaseRowTeam | csv/account_csv_generator.py:1162-1163 | the user team is present exactly when team names exist, and is one of them |
| Account.BaseRowAddressLine | csv/account_csv_generator.py:203-205 | address line `idx + 1` holds the drawn line up to the clamped line count and "" after it |
| Account.BaseRowCountry | csv/account_csv_generator.py:210 | the country of the primary address is Australia |
| Account.BaseRowAddressDefaults | csv/account_csv_generator.py:211-212 | the primary address is the default billing and the default shipping address |
| Account.AddContacts | csv/account_csv_generator.py:1104-1105 | the contact loop is one update with contacts 1 to `n` |
| Account.SetDirectDebit | csv/account_csv_generator.py:1126-1134 | the seven assignments are an update with direct debit `idx` |
| Account.AddDirectDebits | csv/account_csv_generator.py:1125-1134 | the direct debit loop is one update with direct debits 1 to `n` |
| Account.SetOtherMethod | csv/account_csv_generator.py:1138-1151 | the four assignments are an update with other method `idx` |
| Account.AddOtherMethods | csv/account_csv_generator.py:1137-1151 | the other-method loop is one update with other methods 1 to `n` |
| Account.AccountHead | csv/account_csv_generator.py:1071-1105 | the literal updated with the primary address and then with the contacts |
| Account.AssignAccountingCode | csv/account_csv_generator.py:1108-1122 | the accounting code cell is assigned only when configured and drawn |
| Account.AssignGroup | csv/account_csv_generator.py:1154-1155 | the group cell is assigned only to a sampled account when group names exist |
| Account.AssignForm | csv/account_csv_generator.py:1158-1159 | the custom form cell is assigned only to a sampled account when form names exist |
| Account.AssignTeam | csv/account_csv_generator.py:1162-1163 | the user team cell is assigned whenever team names exist |
| Account.AccountBase | csv/account_csv_generator.py:1071-1163 | the loop body up to the custom attributes builds exactly the row the stages describe |
| Account.AccountRow | csv/account_csv_generator.py:1071-1226 | the whole loop body: that row, then the account custom attributes drawn by the account rule for today and `num_rows`, other columns untouched |
| AccountColumns.AddKeysDistinct | csv/account_csv_generator.py:1234 | adding a row's keys to the column list keeps it free of repeats |
| AccountColumns.ColumnsDistinct | csv/account_csv_generator.py:1234 | no DataFrame column is listed twice |
| AccountColumns.ColumnsCover | csv/account_csv_generator.py:1234 | a column is listed exactly when some row has that key |
| AccountColumns.ColumnsExtend | csv/account_csv_generator.py:1234 | the columns of the first rows come first, in the same order |
| AccountColumns.GroupIsRank | csv/account_csv_generator.py:1239-1260 | every column is in exactly one of the seven groups, and each list comprehension selects exactly its group |
| AccountColumns.InfoGroupsExclusive | csv/account_csv_generator.py:1239-1250 | an account information or group column is in no other named group |
| AccountColumns.ReorderPermutes | csv/account_csv_generator.py:1262-1271 | the reordered columns are the same columns, each as often as before |
| AccountColumns.ReorderGrouped | csv/account_csv_generator.py:1262-1270 | the reordered columns run information, group, attributes, addresses, payments, contacts, others |
| AccountColumns.ReorderStable | csv/account_csv_generator.py:1239-1270 | inside each group the columns keep their original relative order |
| AccountColumns.Frame | csv/account_csv_generator.py:1234-1271 | the table has one line per row and one cell per column, the row's value or "" where the row lacks the column |
| AccountData.Below | csv/account_csv_generator.py:915 | `range(num_rows)` as a set: exactly the numbers below `num_rows` |
| AccountData.SampleAccounts | csv/account_csv_generator.py:915-927 | `set(random.sample(range(num_rows), k))` has exactly `k` account positions, all below `num_rows` |
| AccountData.NotAttrColumn | csv/account_csv_generator.py:1165-1226 | a column starting with `a` is never an account custom attribute column |
| AccountData.RowIdentity | csv/account_csv_generator.py:1073-1074 | after the custom attributes, `account_id` and `account_name` still hold the id and the name |
| AccountData.RowGroup | csv/account_csv_generator.py:1154-1226 | after the custom attributes, the group cell is present exactly for a sampled account when group names exist, and is one of them |
| AccountData.RowForm | csv/account_csv_generator.py:1158-1226 | after the custom attributes, the custom form cell is present exactly for a sampled account when form names exist, and is one of them |
| AccountData.RowTeam | csv/account_csv_generator.py:1162-1226 | after the custom attributes, the user team cell is present exactly when team names exist, and is one of them |
| AccountData.RowCells | csv/account_csv_generator.py:1071-1226 | a finished account row carries its id and name and the group, form and team cells as sampled |
| AccountData.DrawAccount | csv/account_csv_generator.py:966-1226 | one loop body for a given id and name: the draws fit the configuration and the row is the base row of that account and those draws with the account custom attributes applied |
| AccountData.AccountFor | csv/account_csv_generator.py:966-1226 | the row of an account is built from its own draws as `DrawAccount` states, and carries its id, its name and its group, form and team cells as sampled |
| AccountData.BuiltMeans | csv/account_csv_generator.py:966-1226 | a record is built exactly when its draws fit the configuration and its row is the base row of its account with the custom attributes applied |
| AccountData.NextAccount | csv/account_csv_generator.py:953-1228 | one iteration: the new row carries its account's cells, and its record, appended to the earlier ones, keeps every record built and describing its position |
| AccountData.AccountLoop | csv/account_csv_generator.py:951-1228 | `num_rows` rows whose ids are well formed and pairwise distinct, whose names are non-empty and pairwise distinct, each row carrying its id, name, group, form and team, and each the base row of its account and its own draws with the account custom attributes applied |
| AccountData.UniqueIdentities | csv/account_csv_generator.py:1286-1287 | no two rows share an account id or an account name |
| AccountData.GroupCount | csv/account_csv_generator.py:911-917 | exactly the sampled number of accounts get a group |
| AccountData.FormCountOfRows | csv/account_csv_generator.py:919-929 | exactly the sampled number of accounts get a custom form |
| AccountData.GenerateAccountData | csv/account_csv_generator.py:853-1271 | `num_rows` accounts with well-formed, pairwise distinct ids and distinct names; exactly the sampled numbers of groups and forms; a team on every account when teams exist; every row the base row of its account and its own draws with the account custom attributes applied for today and `num_rows`; and the table of the reordered columns |
| AccountData.TableColumns | csv/account_csv_generator.py:1234-1271 | the written columns are free of repeats, cover every key of every row, and each comes from some row |
| Rows.GetUpdate | csv/account_csv_generator.py:1101 | after `update`, a key holds its last value among the pairs, or keeps its old value when no pair names it |
| Rows.UpdateFresh | csv/payment_csv_generator.py:223 | updating with keys the row lacks, all distinct, appends them in order |
| Rows.UpdateConcat | csv/account_csv_generator.py:1101-1105 | two `update` calls in a row are one `update` with the pairs of both |
| Rows.BlankContinuation | csv/invoice_csv_generator.py:346-355 | the blanking loop writes "" into every column not kept, leaving kept columns and the column order unchanged |
| Rows.BlankedGet | csv/invoice_csv_generator.py:346-355 | on a blanked row kept columns read as before and every other present column reads "" |
| Text.StripIdempotent | csv/payment_csv_generator.py:141 | stripping again changes nothing |
| Text.StripNonBlankEmpty | csv/payment_csv_generator.py:141 | the cleaned id list is empty exactly when every input is blank after stripping |
| Text.StripNonBlankFrom | csv/payment_csv_generator.py:141 | every cleaned id is the stripped form of some input |
| Text.ParseZFill | csv/payment_csv_generator.py:17 | zero padding keeps the value: the padded numeral consists of digits and reads back as the number |
| Text.ZFillInjective | csv/payment_csv_generator.py:17 | distinct numbers give distinct padded numerals |
| Text.SplitJoin | csv/account_csv_generator.py:990-992 | splitting a comma join gives back the pieces when none holds a comma |

## Left out

- Interactive prompting (`prompt_*`, `collect_custom_attrs`, `prompt_custom_attributes`): these are stdin retry loops, so the model takes the configuration they produce as a value.
- JSON loading and saving of the configuration, pandas `DataFrame`/`to_csv`/`read_csv`, the tab prefix written before date columns, timestamped output paths, printed summaries and the `__main__`/argparse/batch blocks: these are file and console I/O.
- Faker text and the probability weights of the random draws: a draw is a parameter or a bounded nondeterministic choice, not a distribution.
- `datetime.now()` and `strftime`: today is a parameter, and dates are day offsets from it. The account generator's date attribute takes today as a Gregorian calendar date, since its window depends on the current month.
- Floating point: prices, money attributes, discounts, tax rates and amounts are exact integers of hundredths. `uniform`/`round` rounding and the `discount_probability` clamp are not modelled.
- Account.FormCount: the custom-form percentage is an exact real, not a binary float, so `int(num_rows * pct / 100)` is not subject to float rounding.
- Worklog `format_hours` and `main`: the hours arrive as an already formatted string, the date as text and the input as a list of lines.
- Text.Lower and Text.Strip: only ASCII case and ASCII whitespace are modelled, not full Unicode.
- AccountFields.FreshAccountId: the `while True` retry is modelled as a choice of an id not yet used, and it requires fewer than 180000 used ids (90000 numbers times two suffixes); beyond that the source loops forever.
- AccountData.AccountLoop: requires at most 180000 rows for the same reason.
- AccountData.GenerateAccountData: requires at most 180000 rows for the same reason.
- Invoice.GenerateInvoiceRows: requires every custom attribute column to carry its generator's prefix. A configuration loaded from JSON (`csv/invoice_csv_generator.py:799-803`, `csv/account_csv_generator.py:1339-1344`) may name an attribute column like a fixed column; the source then overwrites that fixed cell, and that case is not modelled.
- Invoice.InvoiceLoop: requires the same attribute column prefix, for the same reason.
- Invoice.InvoiceGroup: requires the same attribute column prefix, for the same reason.
- Invoice.InvoiceItemRow: requires the same attribute column prefix, for the same reason.
- Invoice.FullItemRow: requires the same attribute column prefix, for the same reason.
- PurchaseOrder.GeneratePurchaseOrderRows: requires the same attribute column prefix, for the same reason.
- PurchaseOrder.PurchaseOrderLoop: requires the same attribute column prefix, for the same reason.
- PurchaseOrder.PurchaseOrderGroup: requires the same attribute column prefix, for the same reason.
- PurchaseOrder.PurchaseOrderItemRow: requires the same attribute column prefix, for the same reason.
- PurchaseOrder.FullItemRow: requires the same attribute column prefix, for the same reason.
- PurchaseOrder.LineItemAttrs: requires the same attribute column prefix, for the same reason.
- PurchaseInvoice.GeneratePurchaseInvoiceCsv: requires the same attribute column prefix, for the same reason.
- PurchaseInvoice.GeneratePurchaseInvoiceRows: requires the same attribute column prefix, for the same reason.
- PurchaseInvoice.PurchaseInvoiceLoop: requires the same attribute column prefix, for the same reason.
- PurchaseInvoice.PurchaseInvoiceGroup: requires the same attribute column prefix, for the same reason.
- PurchaseInvoice.PurchaseInvoiceHeader: requires the same attribute column prefix, for the same reason.
- PurchaseInvoice.PurchaseInvoiceItemRow: requires the same attribute column prefix, for the same reason.
- PurchaseInvoice.SetItemFields: requires the same attribute column prefix, for the same reason.
- PurchaseInvoice.FullItemRow: requires the same attribute column prefix, for the same reason.
- Order.ContextOk: requires the same attribute column prefix, for the same reason.
- Order.GenerateOrderRows: requires the same attribute column prefix, for the same reason.
- Payment.PaymentRowCells: requires the same attribute column prefix, for the same reason.
- Payment.RowsShareFields: requires the same attribute column prefix, for the same reason.
- Payment.ConstantOnEveryRow: requires the same attribute column prefix, for the same reason.
- PurchasePayment.PaymentRowCells: requires the same attribute column prefix, for the same reason.
- PurchasePayment.ConstantOnEveryRow: requires the same attribute column prefix, for the same reason.
- AccountData.AccountFor: requires the same attribute column prefix, for the same reason.
- AccountData.NextAccount: requires the same attribute column prefix, for the same reason.
- AccountData.AccountLoop: requires the same attribute column prefix, for the same reason.
- AccountData.GenerateAccountData: requires the same attribute column prefix, for the same reason.
- PurchaseInvoice.GeneratePurchaseInvoiceCsv: `list(set(...))` has no specified order, so the collected ids are returned as a set.
- The account generator's call into order generation (`csv/account_csv_generator.py:1289-1298`): the order rules are modelled on their own in `Order`.
- `csv/item_csv_generator.py` is not part of this model. Its fields are independent random fills with no structural rule, and it prompts inside its generation loop.
- `csv/inventory_csv_generator.py` is not part of this model. It only emits identical all-blank rows.
