/**
  `generate_invoice_rows`: every invoice becomes one row per line item.  The
  first row carries the invoice header; on every later row the header columns
  are blanked except the invoice id, the account id, the line item columns
  and the line item custom attributes.
 */
module Invoice {
  import opened Rows
  import opened Text
  import opened CustomAttributes
  import opened AccountChoices
  import opened LineItems

  /** `tax_config`: the codes to pick from and the rate configured for each code. */
  datatype TaxConfig = TaxConfig(codes: seq<string>, rates: map<string, Value>)

  const AttrPrefix: string := "ca_invoice_attr_"
  const ItemAttrPrefix: string := "ca_invoice_item_attr_"
  const LineItemPrefix: string := "invoice_line_item_"

  /** The columns of the invoice header row, in dictionary order. */
  const HeaderKeys: seq<string> := [
    "invoice_id", "invoice_origin", "invoice_currency", "invoice_account_id",
    "invoice_issue_date", "invoice_due_date", "invoice_price_tax_inclusive",
    "invoice_invoice_note", "invoice_custom_form_template"]

  /** The line item columns, in the order the item loop assigns them. */
  const ItemKeys: seq<string> := [
    "invoice_line_item_id", "invoice_line_item_name", "invoice_line_item_quantity",
    "invoice_line_item_price", "invoice_line_item_invoice_note",
    "invoice_line_item_accounting_code", "invoice_line_item_flat_discount",
    "invoice_line_item_tax_code", "invoice_line_item_tax_rate",
    "invoice_line_item_tax_exempt", "invoice_line_item_tax_inclusive_based_on"]

  /** The columns of every invoice row: header, line item, then line item and invoice attributes. */
  function InvoiceColumns(lineAttrs: seq<AttrSpec>, invoiceAttrs: seq<AttrSpec>): seq<string> {
    AddKeys(AddKeys(HeaderKeys + ItemKeys, Columns(lineAttrs)), Columns(invoiceAttrs))
  }

  /** The columns a continuation row keeps. */
  predicate Keeps(k: string) {
    k == "invoice_id" || k == "invoice_account_id" || HasPrefix(k, LineItemPrefix) || HasPrefix(k, ItemAttrPrefix)
  }

  /** `tax_rates.get(code, "")`. */
  function TaxRate(tax: TaxConfig, code: string): Value {
    if code in tax.rates then tax.rates[code] else Blank
  }

  /** `CSV-INV-` followed by six digits. */
  predicate IsInvoiceId(s: string) {
    |s| == 14 && HasPrefix(s, "CSV-INV-") && AllDigits(s[8..])
  }

  /** `generate_invoice_id`: `CSV-INV-` and the six digits of a draw from 100000..999999. */
  function InvoiceId(n: int): (id: string)
    requires 100000 <= n <= 999999
    ensures IsInvoiceId(id)
  {
    Pow10Values();
    NumberedShape("CSV-INV-", n, 6);
    Numbered("CSV-INV-", n)
  }

  /** `generate_due_date`: the issue date plus 7 to 90 days. */
  function DueDate(issue: int, days: int): (due: int)
    requires 7 <= days <= 90
    ensures issue + 7 <= due <= issue + 90 && due > issue
  {
    issue + days
  }

  /** `LINE_ITEM_ACCOUNTING_CODES`. */
  const AccountingCodes: seq<string> := [
    "Account Receivable", "Cash and Cash Equivalent", "Inventory", "Sales Revenue",
    "Event Charge", "Deduction", "Alteration", "Cancellation", "Chargeback"]

  /** The notes `generate_invoice_note` chooses from. */
  const InvoiceNotes: seq<string> := [
    "Payment due upon receipt. Thank you for your business.",
    "Please remit payment within the specified terms.",
    "Contact our billing department for any queries.",
    "Early payment discount available - contact us for details.",
    "This invoice reflects services rendered as per agreement.",
    "Net payment terms apply as specified in contract.",
    "Please reference invoice number when making payment.",
    "All amounts shown in the specified currency.",
    "Late fees may apply for overdue payments.",
    "Thank you for choosing our services."]

  /** The notes `generate_line_item_note` chooses from. */
  const LineItemNotes: seq<string> := [
    "Standard terms apply.", "As per service agreement.", "Monthly subscription fee.",
    "One-time setup charge.", "Prorated for partial period.", "Annual license renewal.",
    "Volume discount applied.", "Special promotion pricing."]

  /** The two word lists of `generate_line_item_name`. */
  const Adjectives: seq<string> := ["Premium", "Standard", "Professional", "Enterprise", "Basic", "Advanced", "Custom"]
  const Services: seq<string> := ["Service", "Product", "Consultation", "Package", "Bundle", "Solution", "Support"]

  /** An adjective and a service of the fixed lists, separated by a space. */
  predicate IsLineItemName(s: string) {
    exists a, b :: 0 <= a < |Adjectives| && 0 <= b < |Services| && s == Adjectives[a] + " " + Services[b]
  }

  /** `generate_line_item_name`. */
  function LineItemName(a: nat, b: nat): (s: string)
    requires a < |Adjectives| && b < |Services|
    ensures IsLineItemName(s) && s != []
  {
    Adjectives[a] + " " + Services[b]
  }

  /** A system row names an identifier of the pool and has an empty name. */
  predicate SystemItem(row: Row, pool: seq<string>) {
    IsStrIn(Get(row, "invoice_line_item_id"), pool) && Get(row, "invoice_line_item_name") == Some(Blank)
  }

  /** A free-text row has an empty identifier and a name drawn from the two word lists. */
  predicate FreeItem(row: Row) {
    var name := Get(row, "invoice_line_item_name");
    Get(row, "invoice_line_item_id") == Some(Blank) && IsNonBlankStr(name) && IsLineItemName(name.value.s)
  }

  /** System rows occur only when system items are on, free rows only when line items are on. */
  predicate ItemShape(row: Row, includeSystem: bool, includeLine: bool, pool: seq<string>) {
    (includeSystem && SystemItem(row, pool)) || (includeLine && FreeItem(row))
  }

  /** The tax code is one of the configured codes and the rate is its configured rate, or both are "". */
  predicate TaxShape(row: Row, tax: TaxConfig) {
    var code := Get(row, "invoice_line_item_tax_code");
    var rate := Get(row, "invoice_line_item_tax_rate");
    if tax.codes == [] then code == Some(Blank) && rate == Some(Blank)
    else IsStrIn(code, tax.codes) && rate == Some(TaxRate(tax, code.value.s))
  }

  /**
    Quantity 1..100, price 10.00..5000.00, a discount of "" or from 5.00 up to
    80% of the price, an accounting code from the fixed list, and the two tax
    flags "" or "TRUE".
   */
  predicate AmountShape(row: Row) {
    PriceShape(row) && FlagShape(row)
  }

  /** Quantity, price and discount. */
  predicate PriceShape(row: Row) {
    var q := Get(row, "invoice_line_item_quantity");
    var p := Get(row, "invoice_line_item_price");
    var d := Get(row, "invoice_line_item_flat_discount");
    q.Some? && q.value.Int? && 1 <= q.value.i <= 100 &&
    p.Some? && p.value.Int? && 1000 <= p.value.i <= 500000 &&
    (d == Some(Blank) || (d.Some? && d.value.Int? && 500 <= d.value.i && 5 * d.value.i <= 4 * p.value.i))
  }

  /** Note, accounting code and the two tax flags. */
  predicate FlagShape(row: Row) {
    IsStrIn(Get(row, "invoice_line_item_invoice_note"), LineItemNotes) &&
    IsStrIn(Get(row, "invoice_line_item_accounting_code"), AccountingCodes) &&
    Get(row, "invoice_line_item_tax_exempt") in {Some(Blank), Some(Str("TRUE"))} &&
    Get(row, "invoice_line_item_tax_inclusive_based_on") in {Some(Blank), Some(Str("TRUE"))}
  }

  /** The header of invoice number `idx` (counting from 0), as its first row shows it. */
  predicate HeaderOk(row: Row, idx: nat, accountIds: seq<string>, defaultCurrency: string, template: string) {
    var id := Get(row, "invoice_id");
    var issue := Get(row, "invoice_issue_date");
    var due := Get(row, "invoice_due_date");
    id.Some? && id.value.Str? && IsInvoiceId(id.value.s) &&
    Get(row, "invoice_origin") == Some(Str(ImportOrigin(idx))) &&
    Get(row, "invoice_currency") == Some(Str(defaultCurrency)) &&
    IsStrIn(Get(row, "invoice_account_id"), StripNonBlank(accountIds)) &&
    issue.Some? && issue.value.Int? && -90 <= issue.value.i <= 0 &&
    due.Some? && due.value.Int? && issue.value.i + 7 <= due.value.i <= issue.value.i + 90 &&
    Get(row, "invoice_price_tax_inclusive") in {Some(Blank), Some(Str("TRUE"))} &&
    IsStrIn(Get(row, "invoice_invoice_note"), InvoiceNotes) &&
    Get(row, "invoice_custom_form_template") == Some(Str(template))
  }

  /** The line item columns of one row: its kind, its tax and its amounts. */
  predicate ItemOk(row: Row, includeSystem: bool, includeLine: bool, pool: seq<string>, tax: TaxConfig) {
    ItemShape(row, includeSystem, includeLine, pool) && TaxShape(row, tax) && AmountShape(row)
  }

  /**
    Facts about every row of an invoice: its columns, the invoice id and
    account id shared with the first row, and its line item columns.
   */
  predicate RowOk(row: Row, id: Option<Value>, accountId: Option<Value>, columns: seq<string>,
                  includeSystem: bool, includeLine: bool, pool: seq<string>, tax: TaxConfig)
  {
    DistinctKeys(row) && Keys(row) == columns &&
    Get(row, "invoice_id") == id && Get(row, "invoice_account_id") == accountId &&
    ItemOk(row, includeSystem, includeLine, pool, tax)
  }

  /** Every row of `g` satisfies `RowOk` and `AttrsOk` for the line item attributes. */
  predicate RowsOk(g: seq<Row>, id: Option<Value>, accountId: Option<Value>, columns: seq<string>,
                   includeSystem: bool, includeLine: bool, pool: seq<string>, tax: TaxConfig,
                   lineAttrs: seq<AttrSpec>)
    decreases |g|
  {
    g == [] ||
    (RowsOk(g[..|g| - 1], id, accountId, columns, includeSystem, includeLine, pool, tax, lineAttrs) &&
     RowOk(g[|g| - 1], id, accountId, columns, includeSystem, includeLine, pool, tax) &&
     AttrsOk(g[|g| - 1], lineAttrs, Drawn(false)))
  }

  lemma {:induction false} RowsOkAt(g: seq<Row>, j: nat, id: Option<Value>, accountId: Option<Value>,
                                    columns: seq<string>, includeSystem: bool, includeLine: bool,
                                    pool: seq<string>, tax: TaxConfig, lineAttrs: seq<AttrSpec>)
    requires RowsOk(g, id, accountId, columns, includeSystem, includeLine, pool, tax, lineAttrs) && j < |g|
    ensures RowOk(g[j], id, accountId, columns, includeSystem, includeLine, pool, tax) && AttrsOk(g[j], lineAttrs, Drawn(false))
    decreases |g|
  {
    if j < |g| - 1 {
      RowsOkAt(g[..|g| - 1], j, id, accountId, columns, includeSystem, includeLine, pool, tax, lineAttrs);
    }
  }

  /** Everything the generator promises about the rows of invoice number `idx`. */
  predicate InvoiceOk(g: seq<Row>, idx: nat, accountIds: seq<string>, defaultCurrency: string, template: string,
                      tax: TaxConfig, config: ItemConfig, pool: seq<string>,
                      lineAttrs: seq<AttrSpec>, invoiceAttrs: seq<AttrSpec>)
  {
    var flags := EffectiveFlags(config);
    var range := ItemRange(config.minItems, config.maxItems);
    range.0 <= |g| <= range.1 &&
    HeaderOk(g[0], idx, accountIds, defaultCurrency, template) &&
    AttrsOk(g[0], invoiceAttrs, Drawn(false)) &&
    RowsOk(g, Get(g[0], "invoice_id"), Get(g[0], "invoice_account_id"),
           InvoiceColumns(lineAttrs, invoiceAttrs), flags.0, flags.1, pool, tax, lineAttrs) &&
    ContinuationsBlanked(g, Keeps)
  }

  /** Group `j` of `groups` satisfies `InvoiceOk` as invoice number `j`, for every `j`. */
  predicate InvoicesOk(groups: seq<seq<Row>>, accountIds: seq<string>, defaultCurrency: string, template: string,
                       tax: TaxConfig, config: ItemConfig, pool: seq<string>,
                       lineAttrs: seq<AttrSpec>, invoiceAttrs: seq<AttrSpec>)
    decreases |groups|
  {
    groups == [] ||
    (InvoicesOk(groups[..|groups| - 1], accountIds, defaultCurrency, template, tax, config, pool,
                lineAttrs, invoiceAttrs) &&
     InvoiceOk(groups[|groups| - 1], |groups| - 1, accountIds, defaultCurrency, template, tax, config, pool,
               lineAttrs, invoiceAttrs))
  }

  lemma {:induction false} InvoicesOkAt(groups: seq<seq<Row>>, j: nat, accountIds: seq<string>,
                                        defaultCurrency: string, template: string, tax: TaxConfig,
                                        config: ItemConfig, pool: seq<string>,
                                        lineAttrs: seq<AttrSpec>, invoiceAttrs: seq<AttrSpec>)
    requires InvoicesOk(groups, accountIds, defaultCurrency, template, tax, config, pool, lineAttrs, invoiceAttrs)
    requires j < |groups|
    ensures InvoiceOk(groups[j], j, accountIds, defaultCurrency, template, tax, config, pool, lineAttrs, invoiceAttrs)
    decreases |groups|
  {
    if j < |groups| - 1 {
      InvoicesOkAt(groups[..|groups| - 1], j, accountIds, defaultCurrency, template, tax, config, pool,
                   lineAttrs, invoiceAttrs);
    }
  }

  lemma RowsSnoc(g: seq<Row>, item: Row, id: Option<Value>, accountId: Option<Value>, columns: seq<string>,
                 includeSystem: bool, includeLine: bool, pool: seq<string>, tax: TaxConfig,
                 lineAttrs: seq<AttrSpec>)
    requires RowsOk(g, id, accountId, columns, includeSystem, includeLine, pool, tax, lineAttrs)
    requires RowOk(item, id, accountId, columns, includeSystem, includeLine, pool, tax) && AttrsOk(item, lineAttrs, Drawn(false))
    requires ContinuationsBlanked(g, Keeps) && (g != [] ==> Blanked(item, Keeps))
    ensures RowsOk(g + [item], id, accountId, columns, includeSystem, includeLine, pool, tax, lineAttrs)
    ensures ContinuationsBlanked(g + [item], Keeps)
  {
    assert (g + [item])[..|g|] == g;
  }

  /** The rows of one invoice, once the item loop is done, satisfy `InvoiceOk`. */
  lemma GroupDone(g: seq<Row>, header: Row, idx: nat, accountIds: seq<string>, defaultCurrency: string,
                  template: string, tax: TaxConfig, config: ItemConfig, pool: seq<string>,
                  lineAttrs: seq<AttrSpec>, invoiceAttrs: seq<AttrSpec>)
    requires var range := ItemRange(config.minItems, config.maxItems); range.0 <= |g| <= range.1
    requires HeaderOk(header, idx, accountIds, defaultCurrency, template)
    requires forall k :: k in HeaderKeys ==> Get(g[0], k) == Get(header, k)
    requires AttrsOk(g[0], invoiceAttrs, Drawn(false)) && ContinuationsBlanked(g, Keeps)
    requires var flags := EffectiveFlags(config);
      RowsOk(g, Get(header, "invoice_id"), Get(header, "invoice_account_id"),
             InvoiceColumns(lineAttrs, invoiceAttrs), flags.0, flags.1, pool, tax, lineAttrs)
    ensures InvoiceOk(g, idx, accountIds, defaultCurrency, template, tax, config, pool, lineAttrs, invoiceAttrs)
  {
    HeaderFrame(header, g[0], idx, accountIds, defaultCurrency, template);
  }

  lemma InvoicesSnoc(groups: seq<seq<Row>>, g: seq<Row>, accountIds: seq<string>, defaultCurrency: string,
                     template: string, tax: TaxConfig, config: ItemConfig, pool: seq<string>,
                     lineAttrs: seq<AttrSpec>, invoiceAttrs: seq<AttrSpec>)
    requires InvoicesOk(groups, accountIds, defaultCurrency, template, tax, config, pool, lineAttrs, invoiceAttrs)
    requires InvoiceOk(g, |groups|, accountIds, defaultCurrency, template, tax, config, pool, lineAttrs,
                       invoiceAttrs)
    ensures InvoicesOk(groups + [g], accountIds, defaultCurrency, template, tax, config, pool, lineAttrs,
                       invoiceAttrs)
    ensures Flatten(groups + [g]) == Flatten(groups) + g
  {
    assert (groups + [g])[..|groups|] == groups;
  }

  // ---------------------------------------------------------------------------
  // Facts about the fixed columns

  lemma ColumnsDistinct()
    ensures Distinct(HeaderKeys) && Distinct(ItemKeys) && Distinct(HeaderKeys + ItemKeys)
    ensures forall k :: k in ItemKeys ==> k !in HeaderKeys
  {
    HeaderKeysDistinct();
    ItemKeysDistinct();
    HeaderItemDisjoint();
    DistinctConcat(HeaderKeys, ItemKeys);
  }

  lemma HeaderKeysDistinct()
    ensures Distinct(HeaderKeys)
  {
  }

  lemma ItemKeysDistinct()
    ensures Distinct(ItemKeys)
  {
  }

  lemma HeaderItemDisjoint()
    ensures forall k :: k in ItemKeys ==> k !in HeaderKeys
  {
  }

  lemma FixedColumnStart(k: string)
    requires k in HeaderKeys || k in ItemKeys
    ensures |k| > 0 && k[0] == 'i'
  {
  }

  /** A column that does not start like the prefix is no attribute column. */
  lemma NotAttrColumn(attrs: seq<AttrSpec>, prefix: string, k: string)
    requires AllPrefixed(attrs, prefix) && |prefix| > 0 && |k| > 0 && k[0] != prefix[0]
    ensures k !in Columns(attrs)
  {
  }

  /** Header and line item columns are never attribute columns. */
  lemma FixedColumnsNotAttrs(attrs: seq<AttrSpec>, prefix: string, k: string)
    requires AllPrefixed(attrs, prefix) && (prefix == ItemAttrPrefix || prefix == AttrPrefix)
    requires k in HeaderKeys || k in ItemKeys
    ensures k !in Columns(attrs)
  {
    FixedColumnStart(k);
    NotAttrColumn(attrs, prefix, k);
  }

  /** Line item attribute columns are never invoice attribute columns. */
  lemma LineAttrNotInvoiceAttr(invoiceAttrs: seq<AttrSpec>, k: string)
    requires AllPrefixed(invoiceAttrs, AttrPrefix) && HasPrefix(k, ItemAttrPrefix)
    ensures k !in Columns(invoiceAttrs)
  {
    forall i | 0 <= i < |invoiceAttrs| ensures invoiceAttrs[i].column != k {
      assert invoiceAttrs[i].column[11] != k[11];
    }
  }

  lemma LineItemPrefixed3(k: string, a: string, b: string, c: string)
    requires k in [a, b, c]
    requires HasPrefix(a, LineItemPrefix) && HasPrefix(b, LineItemPrefix) && HasPrefix(c, LineItemPrefix)
    ensures Keeps(k)
  {
  }

  /** Continuation rows keep every line item column. */
  lemma ItemKeysKept(k: string)
    requires k in ItemKeys
    ensures Keeps(k)
  {
    if k in ItemKeys[..3] {
      LineItemPrefixed3(k, "invoice_line_item_id", "invoice_line_item_name", "invoice_line_item_quantity");
    } else if k in ItemKeys[3..6] {
      LineItemPrefixed3(k, "invoice_line_item_price", "invoice_line_item_invoice_note",
        "invoice_line_item_accounting_code");
    } else if k in ItemKeys[6..9] {
      LineItemPrefixed3(k, "invoice_line_item_flat_discount", "invoice_line_item_tax_code",
        "invoice_line_item_tax_rate");
    } else {
      assert k in ItemKeys[9..];
      LineItemPrefixed3(k, "invoice_line_item_tax_exempt", "invoice_line_item_tax_inclusive_based_on",
        "invoice_line_item_tax_exempt");
    }
  }

  /** The header literal: distinct keys, and each key reads as its value. */
  lemma HeaderGets(vs: seq<Value>)
    requires |vs| == 9
    ensures var row := Dict(HeaderKeys, vs);
      DistinctKeys(row) && Keys(row) == HeaderKeys &&
      Get(row, "invoice_id") == Some(vs[0]) &&
      Get(row, "invoice_origin") == Some(vs[1]) &&
      Get(row, "invoice_currency") == Some(vs[2]) &&
      Get(row, "invoice_account_id") == Some(vs[3]) &&
      Get(row, "invoice_issue_date") == Some(vs[4]) &&
      Get(row, "invoice_due_date") == Some(vs[5]) &&
      Get(row, "invoice_price_tax_inclusive") == Some(vs[6]) &&
      Get(row, "invoice_invoice_note") == Some(vs[7]) &&
      Get(row, "invoice_custom_form_template") == Some(vs[8])
  {
    ColumnsDistinct();
    DictKeys(HeaderKeys, vs);
    DictGet(HeaderKeys, vs, 0);
    DictGet(HeaderKeys, vs, 1);
    DictGet(HeaderKeys, vs, 2);
    DictGet(HeaderKeys, vs, 3);
    DictGet(HeaderKeys, vs, 4);
    DictGet(HeaderKeys, vs, 5);
    DictGet(HeaderKeys, vs, 6);
    DictGet(HeaderKeys, vs, 7);
    DictGet(HeaderKeys, vs, 8);
  }

  /**
    The item assignments on a copy of a header row: since the line item keys
    are new, the update appends them in order and leaves the header alone.
   */
  lemma ItemAppend(header: Row, vs: seq<Value>)
    requires DistinctKeys(header) && Keys(header) == HeaderKeys && |vs| == 11
    ensures var item := header + Dict(ItemKeys, vs);
      Update(header, Dict(ItemKeys, vs)) == item &&
      DistinctKeys(item) && Keys(item) == HeaderKeys + ItemKeys &&
      forall k :: k in HeaderKeys ==> Get(item, k) == Get(header, k)
  {
    var fields := Dict(ItemKeys, vs);
    ColumnsDistinct();
    DictKeys(ItemKeys, vs);
    KeysAppend(header, fields);
    DistinctAppend(header, fields);
    UpdateFresh(header, fields);
    forall k | k in HeaderKeys ensures Get(header + fields, k) == Get(header, k) {
      GetAppend(header, fields, k);
    }
  }

  /** The line item columns by position. */
  lemma ItemKeyNames()
    ensures ItemKeys[0] == "invoice_line_item_id" && ItemKeys[1] == "invoice_line_item_name"
    ensures ItemKeys[2] == "invoice_line_item_quantity" && ItemKeys[3] == "invoice_line_item_price"
    ensures ItemKeys[4] == "invoice_line_item_invoice_note"
    ensures ItemKeys[5] == "invoice_line_item_accounting_code" && ItemKeys[6] == "invoice_line_item_flat_discount"
    ensures ItemKeys[7] == "invoice_line_item_tax_code" && ItemKeys[8] == "invoice_line_item_tax_rate"
    ensures ItemKeys[9] == "invoice_line_item_tax_exempt" && ItemKeys[10] == "invoice_line_item_tax_inclusive_based_on"
  {
  }

  lemma ItemGet(header: Row, vs: seq<Value>, j: nat)
    requires Keys(header) == HeaderKeys && |vs| == 11 && j < 11
    ensures Get(header + Dict(ItemKeys, vs), ItemKeys[j]) == Some(vs[j])
  {
    ColumnsDistinct();
    GetAppend(header, Dict(ItemKeys, vs), ItemKeys[j]);
    DictGet(ItemKeys, vs, j);
  }

  // ---------------------------------------------------------------------------
  // Frames: which predicates survive which assignments

  lemma HeaderFrame(row: Row, r: Row, idx: nat, accountIds: seq<string>, defaultCurrency: string, template: string)
    requires forall k :: k in HeaderKeys ==> Get(r, k) == Get(row, k)
    requires HeaderOk(row, idx, accountIds, defaultCurrency, template)
    ensures HeaderOk(r, idx, accountIds, defaultCurrency, template)
  {
  }

  lemma ItemFrame(row: Row, r: Row, includeSystem: bool, includeLine: bool, pool: seq<string>, tax: TaxConfig)
    requires forall k :: k in ItemKeys ==> Get(r, k) == Get(row, k)
    requires ItemOk(row, includeSystem, includeLine, pool, tax)
    ensures ItemOk(r, includeSystem, includeLine, pool, tax)
  {
    ItemShapeFrame(row, r, includeSystem, includeLine, pool);
    TaxShapeFrame(row, r, tax);
    AmountShapeFrame(row, r);
  }

  lemma ItemShapeFrame(row: Row, r: Row, includeSystem: bool, includeLine: bool, pool: seq<string>)
    requires Get(r, ItemKeys[0]) == Get(row, ItemKeys[0]) && Get(r, ItemKeys[1]) == Get(row, ItemKeys[1])
    requires ItemShape(row, includeSystem, includeLine, pool)
    ensures ItemShape(r, includeSystem, includeLine, pool)
  {
    ItemKeyNames();
  }

  lemma TaxShapeFrame(row: Row, r: Row, tax: TaxConfig)
    requires Get(r, ItemKeys[7]) == Get(row, ItemKeys[7]) && Get(r, ItemKeys[8]) == Get(row, ItemKeys[8])
    requires TaxShape(row, tax)
    ensures TaxShape(r, tax)
  {
    ItemKeyNames();
  }

  lemma AmountShapeFrame(row: Row, r: Row)
    requires forall j :: 2 <= j < 11 ==> Get(r, ItemKeys[j]) == Get(row, ItemKeys[j])
    requires AmountShape(row)
    ensures AmountShape(r)
  {
    ItemKeyNames();
    assert Get(r, ItemKeys[2]) == Get(row, ItemKeys[2]) && Get(r, ItemKeys[3]) == Get(row, ItemKeys[3]);
    assert Get(r, ItemKeys[6]) == Get(row, ItemKeys[6]);
    assert PriceShape(r);
    assert Get(r, ItemKeys[5]) == Get(row, ItemKeys[5]);
    assert Get(r, ItemKeys[9]) == Get(row, ItemKeys[9]) && Get(r, ItemKeys[10]) == Get(row, ItemKeys[10]);
  }

  /** The values of the header literal, in `HeaderKeys` order. */
  function HeaderValues(id: string, idx: nat, currency: Value, accountId: Value, issue: int, due: int,
                        note: string, template: string): (vs: seq<Value>)
    ensures |vs| == 9
  {
    [Str(id), Str(ImportOrigin(idx)), currency, accountId, Int(issue), Int(due), Blank, Str(note), Str(template)]
  }

  /** The header literal, given values of the right shape, satisfies `HeaderOk`. */
  lemma HeaderLiteral(id: string, idx: nat, accountId: string, issue: int, due: int, note: string,
                      accountIds: seq<string>, defaultCurrency: string, template: string)
    requires IsInvoiceId(id) && accountId in StripNonBlank(accountIds)
    requires -90 <= issue <= 0 && issue + 7 <= due <= issue + 90 && note in InvoiceNotes
    ensures var row := Dict(HeaderKeys, HeaderValues(id, idx, Str(defaultCurrency), Str(accountId), issue, due, note, template));
      DistinctKeys(row) && Keys(row) == HeaderKeys && HeaderOk(row, idx, accountIds, defaultCurrency, template)
  {
    HeaderGets(HeaderValues(id, idx, Str(defaultCurrency), Str(accountId), issue, due, note, template));
  }

  /** Setting "invoice_price_tax_inclusive" to "TRUE" keeps the header valid. */
  lemma TaxInclusiveSet(row: Row, idx: nat, accountIds: seq<string>, defaultCurrency: string, template: string)
    requires DistinctKeys(row) && Keys(row) == HeaderKeys
    requires HeaderOk(row, idx, accountIds, defaultCurrency, template)
    ensures var r := Set(row, "invoice_price_tax_inclusive", Str("TRUE"));
      DistinctKeys(r) && Keys(r) == HeaderKeys && HeaderOk(r, idx, accountIds, defaultCurrency, template)
  {
    SetDistinct(row, "invoice_price_tax_inclusive", Str("TRUE"));
  }

  lemma ItemKindLiteral(header: Row, vs: seq<Value>, isSystem: bool, pool: seq<string>)
    requires Keys(header) == HeaderKeys && |vs| == 11
    requires isSystem ==> vs[0].Str? && vs[0].s in pool && vs[1] == Blank
    requires !isSystem ==> vs[0] == Blank && vs[1].Str? && vs[1].s != "" && IsLineItemName(vs[1].s)
    ensures isSystem ==> SystemItem(header + Dict(ItemKeys, vs), pool)
    ensures !isSystem ==> FreeItem(header + Dict(ItemKeys, vs))
  {
    ItemKeyNames();
    ItemGet(header, vs, 0);
    ItemGet(header, vs, 1);
  }

  lemma ItemTaxLiteral(header: Row, vs: seq<Value>, tax: TaxConfig)
    requires Keys(header) == HeaderKeys && |vs| == 11
    requires tax.codes == [] ==> vs[7] == Blank && vs[8] == Blank
    requires tax.codes != [] ==> vs[7].Str? && vs[7].s in tax.codes && vs[8] == TaxRate(tax, vs[7].s)
    ensures TaxShape(header + Dict(ItemKeys, vs), tax)
  {
    ItemKeyNames();
    ItemGet(header, vs, 7);
    ItemGet(header, vs, 8);
  }

  lemma PriceLiteral(header: Row, vs: seq<Value>)
    requires Keys(header) == HeaderKeys && |vs| == 11
    requires vs[2].Int? && 1 <= vs[2].i <= 100 && vs[3].Int? && 1000 <= vs[3].i <= 500000
    requires vs[6] == Blank || (vs[6].Int? && 500 <= vs[6].i && 5 * vs[6].i <= 4 * vs[3].i)
    ensures PriceShape(header + Dict(ItemKeys, vs))
  {
    ItemKeyNames();
    ItemGet(header, vs, 2);
    ItemGet(header, vs, 3);
    ItemGet(header, vs, 6);
  }

  lemma FlagLiteral(header: Row, vs: seq<Value>)
    requires Keys(header) == HeaderKeys && |vs| == 11
    requires vs[4].Str? && vs[4].s in LineItemNotes && vs[5].Str? && vs[5].s in AccountingCodes
    requires vs[9] in {Blank, Str("TRUE")} && vs[10] in {Blank, Str("TRUE")}
    ensures FlagShape(header + Dict(ItemKeys, vs))
  {
    ItemKeyNames();
    ItemGet(header, vs, 4);
    ItemGet(header, vs, 5);
    ItemGet(header, vs, 9);
    ItemGet(header, vs, 10);
  }

  lemma ItemAmountLiteral(header: Row, vs: seq<Value>)
    requires Keys(header) == HeaderKeys && |vs| == 11
    requires vs[2].Int? && 1 <= vs[2].i <= 100 && vs[3].Int? && 1000 <= vs[3].i <= 500000
    requires vs[4].Str? && vs[4].s in LineItemNotes && vs[5].Str? && vs[5].s in AccountingCodes
    requires vs[6] == Blank || (vs[6].Int? && 500 <= vs[6].i && 5 * vs[6].i <= 4 * vs[3].i)
    requires vs[9] in {Blank, Str("TRUE")} && vs[10] in {Blank, Str("TRUE")}
    ensures AmountShape(header + Dict(ItemKeys, vs))
  {
    PriceLiteral(header, vs);
    FlagLiteral(header, vs);
  }

  /** The item assignments, given values of the right shape, give a row of the right shape. */
  lemma ItemLiteral(header: Row, vs: seq<Value>, isSystem: bool, pool: seq<string>, tax: TaxConfig)
    requires DistinctKeys(header) && Keys(header) == HeaderKeys && |vs| == 11
    requires isSystem ==> vs[0].Str? && vs[0].s in pool && vs[1] == Blank
    requires !isSystem ==> vs[0] == Blank && vs[1].Str? && vs[1].s != "" && IsLineItemName(vs[1].s)
    requires vs[2].Int? && 1 <= vs[2].i <= 100 && vs[3].Int? && 1000 <= vs[3].i <= 500000
    requires vs[4].Str? && vs[4].s in LineItemNotes && vs[5].Str? && vs[5].s in AccountingCodes
    requires vs[6] == Blank || (vs[6].Int? && 500 <= vs[6].i && 5 * vs[6].i <= 4 * vs[3].i)
    requires tax.codes == [] ==> vs[7] == Blank && vs[8] == Blank
    requires tax.codes != [] ==> vs[7].Str? && vs[7].s in tax.codes && vs[8] == TaxRate(tax, vs[7].s)
    requires vs[9] in {Blank, Str("TRUE")} && vs[10] in {Blank, Str("TRUE")}
    ensures var item := Update(header, Dict(ItemKeys, vs));
      DistinctKeys(item) && Keys(item) == HeaderKeys + ItemKeys &&
      (forall k :: k in HeaderKeys ==> Get(item, k) == Get(header, k)) &&
      (if isSystem then SystemItem(item, pool) else FreeItem(item)) &&
      TaxShape(item, tax) && AmountShape(item)
  {
    ItemAppend(header, vs);
    ItemKindLiteral(header, vs, isSystem, pool);
    ItemTaxLiteral(header, vs, tax);
    ItemAmountLiteral(header, vs);
  }

  /** The values the item loop assigns, in `ItemKeys` order. */
  function ItemValues(id: Value, name: Value, quantity: int, price: int, note: string, accounting: string,
                      discount: Value, code: Value, rate: Value, exempt: bool, based: bool): (vs: seq<Value>)
    ensures |vs| == 11
  {
    [id, name, Int(quantity), Int(price), Str(note), Str(accounting), discount, code, rate,
     if exempt then Str("TRUE") else Blank, if based then Str("TRUE") else Blank]
  }

  /** `ItemLiteral` for the values the item loop draws. */
  lemma ItemValuesLiteral(header: Row, id: Value, name: Value, quantity: int, price: int, note: string,
                          accounting: string, discount: Value, code: Value, rate: Value, exempt: bool, based: bool,
                          isSystem: bool, pool: seq<string>, tax: TaxConfig)
    requires DistinctKeys(header) && Keys(header) == HeaderKeys
    requires isSystem ==> id.Str? && id.s in pool && name == Blank
    requires !isSystem ==> id == Blank && name.Str? && name.s != "" && IsLineItemName(name.s)
    requires 1 <= quantity <= 100 && 1000 <= price <= 500000 && note in LineItemNotes && accounting in AccountingCodes
    requires discount == Blank || (discount.Int? && 500 <= discount.i && 5 * discount.i <= 4 * price)
    requires tax.codes == [] ==> code == Blank && rate == Blank
    requires tax.codes != [] ==> code.Str? && code.s in tax.codes && rate == TaxRate(tax, code.s)
    ensures var item := Update(header, Dict(ItemKeys, ItemValues(id, name, quantity, price, note, accounting,
                                                                 discount, code, rate, exempt, based)));
      DistinctKeys(item) && Keys(item) == HeaderKeys + ItemKeys &&
      (forall k :: k in HeaderKeys ==> Get(item, k) == Get(header, k)) &&
      (if isSystem then SystemItem(item, pool) else FreeItem(item)) &&
      TaxShape(item, tax) && AmountShape(item)
  {
    var vs := ItemValues(id, name, quantity, price, note, accounting, discount, code, rate, exempt, based);
    ItemLiteral(header, vs, isSystem, pool, tax);
  }

  // ---------------------------------------------------------------------------
  // Generation

  /**
    The header row literal of invoice number `idx`: a fresh invoice id, the
    import origin, an account choice, an issue date in the last 90 days, a due
    date 7 to 90 days later, "TRUE" or "" for tax-inclusive prices, a note and
    the form template.
   */
  method InvoiceHeader(idx: nat, choices: seq<Choice>, accountIds: seq<string>, defaultCurrency: string,
                       template: string)
    returns (row: Row)
    requires choices == IdChoices(accountIds, defaultCurrency) && choices != []
    ensures DistinctKeys(row) && Keys(row) == HeaderKeys
    ensures HeaderOk(row, idx, accountIds, defaultCurrency, template)
  {
    var n :| 100000 <= n <= 999999;
    var id := InvoiceId(n);
    var c :| 0 <= c < |choices|;
    IdChoice(accountIds, defaultCurrency, c);
    var choice := choices[c];
    var currency := CurrencyOr(choice.currency, defaultCurrency);
    var issue :| -90 <= issue <= 0;
    var days :| 7 <= days <= 90;
    var due := DueDate(issue, days);
    var t :| 0 <= t < |InvoiceNotes|;
    var note := InvoiceNotes[t];
    HeaderLiteral(id, idx, choice.accountId.s, issue, due, note, accountIds, defaultCurrency, template);
    row := Dict(HeaderKeys, HeaderValues(id, idx, currency, choice.accountId, issue, due, note, template));
    var taxInclusive: bool :| true;
    if taxInclusive {
      TaxInclusiveSet(row, idx, accountIds, defaultCurrency, template);
      row := Set(row, "invoice_price_tax_inclusive", Str("TRUE"));
    }
  }

  /**
    The item loop's assignments on a copy of the header row: identifier and
    name, quantity, price, note, accounting code, discount, tax code and rate,
    tax exempt and tax-inclusive-based-on.  (The source's third case, neither
    a system item nor line items on, cannot arise once the include flags have
    been fixed up.)
   */
  method SetItemFields(header: Row, isSystem: bool, pool: seq<string>, tax: TaxConfig) returns (item: Row)
    requires DistinctKeys(header) && Keys(header) == HeaderKeys
    requires isSystem ==> pool != []
    ensures DistinctKeys(item) && Keys(item) == HeaderKeys + ItemKeys
    ensures forall k :: k in HeaderKeys ==> Get(item, k) == Get(header, k)
    ensures if isSystem then SystemItem(item, pool) else FreeItem(item)
    ensures TaxShape(item, tax) && AmountShape(item)
  {
    var id, name;
    if isSystem {
      var p :| 0 <= p < |pool|;
      id, name := Str(pool[p]), Blank;
    } else {
      var a :| 0 <= a < |Adjectives|;
      var b :| 0 <= b < |Services|;
      id, name := Blank, Str(LineItemName(a, b));
    }
    var quantity :| 1 <= quantity <= 100;
    var price :| 1000 <= price <= 500000;
    var t :| 0 <= t < |LineItemNotes|;
    var note := LineItemNotes[t];
    var a :| 0 <= a < |AccountingCodes|;
    var discount := Blank;
    var discounted: bool :| true;
    if discounted {
      var d :| 500 <= d && 5 * d <= 4 * price;
      discount := Int(d);
    }
    var code, rate := Blank, Blank;
    if tax.codes != [] {
      var c :| 0 <= c < |tax.codes|;
      code, rate := Str(tax.codes[c]), TaxRate(tax, tax.codes[c]);
    }
    var exempt: bool :| true;
    var based: bool :| true;
    var accounting := AccountingCodes[a];
    ItemValuesLiteral(header, id, name, quantity, price, note, accounting, discount, code, rate, exempt, based,
                      isSystem, pool, tax);
    item := Update(header, Dict(ItemKeys, ItemValues(id, name, quantity, price, note, accounting, discount,
                                                     code, rate, exempt, based)));
  }

  /**
    The item row before blanking: the line item columns, then the line item
    attributes, then the invoice attributes.  Header columns are as in the
    header row.
   */
  method FullItemRow(header: Row, isSystem: bool, includeSystem: bool, includeLine: bool, pool: seq<string>,
                     tax: TaxConfig, lineAttrs: seq<AttrSpec>, invoiceAttrs: seq<AttrSpec>)
    returns (item: Row)
    requires DistinctKeys(header) && Keys(header) == HeaderKeys
    requires isSystem ==> includeSystem && pool != []
    requires !isSystem ==> includeLine
    requires AllPrefixed(lineAttrs, ItemAttrPrefix) && AllPrefixed(invoiceAttrs, AttrPrefix)
    ensures DistinctKeys(item) && Keys(item) == InvoiceColumns(lineAttrs, invoiceAttrs)
    ensures forall k :: k in HeaderKeys ==> Get(item, k) == Get(header, k)
    ensures ItemOk(item, includeSystem, includeLine, pool, tax)
    ensures AttrsOk(item, lineAttrs, Drawn(false)) && AttrsOk(item, invoiceAttrs, Drawn(false))
  {
    var fields := SetItemFields(header, isSystem, pool, tax);
    var withLine := ApplyRandomAttrs(fields, lineAttrs, Drawn(false));
    item := ApplyRandomAttrs(withLine, invoiceAttrs, Drawn(false));
    forall k | k in HeaderKeys || k in ItemKeys ensures Get(item, k) == Get(fields, k) {
      FixedColumnsNotAttrs(lineAttrs, ItemAttrPrefix, k);
      FixedColumnsNotAttrs(invoiceAttrs, AttrPrefix, k);
    }
    forall i | 0 <= i < |lineAttrs| ensures Get(item, lineAttrs[i].column) == Get(withLine, lineAttrs[i].column) {
      LineAttrNotInvoiceAttr(invoiceAttrs, lineAttrs[i].column);
    }
    ItemFrame(fields, item, includeSystem, includeLine, pool, tax);
  }

  /** A blanked item row keeps the invoice id, the account id, the line item columns and the line item attributes. */
  lemma ContinuationRow(full: Row, item: Row, includeSystem: bool, includeLine: bool, pool: seq<string>,
                        tax: TaxConfig, lineAttrs: seq<AttrSpec>)
    requires DistinctKeys(full) && Keys(item) == Keys(full) && DistinctKeys(item)
    requires forall i :: 0 <= i < |full| ==> item[i].1 == if Keeps(full[i].0) then full[i].1 else Blank
    requires AllPrefixed(lineAttrs, ItemAttrPrefix)
    requires ItemOk(full, includeSystem, includeLine, pool, tax) && AttrsOk(full, lineAttrs, Drawn(false))
    ensures Get(item, "invoice_id") == Get(full, "invoice_id")
    ensures Get(item, "invoice_account_id") == Get(full, "invoice_account_id")
    ensures ItemOk(item, includeSystem, includeLine, pool, tax) && AttrsOk(item, lineAttrs, Drawn(false))
  {
    BlankedGet(full, item, Keeps, "invoice_id");
    BlankedGet(full, item, Keeps, "invoice_account_id");
    forall k | k in ItemKeys ensures Get(item, k) == Get(full, k) {
      ItemKeysKept(k);
      BlankedGet(full, item, Keeps, k);
    }
    ItemFrame(full, item, includeSystem, includeLine, pool, tax);
    forall i | 0 <= i < |lineAttrs| ensures Get(item, lineAttrs[i].column) == Get(full, lineAttrs[i].column) {
      BlankedGet(full, item, Keeps, lineAttrs[i].column);
    }
  }

  /**
    One pass of the item loop: copy the header, decide system or free-text,
    assign the line item columns and the attributes, and blank a continuation
    row.
   */
  method InvoiceItemRow(header: Row, itemIdx: nat, includeSystem: bool, includeLine: bool, pool: seq<string>,
                        tax: TaxConfig, lineAttrs: seq<AttrSpec>, invoiceAttrs: seq<AttrSpec>)
    returns (item: Row)
    requires DistinctKeys(header) && Keys(header) == HeaderKeys
    requires includeSystem || includeLine
    requires includeSystem ==> pool != []
    requires AllPrefixed(lineAttrs, ItemAttrPrefix) && AllPrefixed(invoiceAttrs, AttrPrefix)
    ensures RowOk(item, Get(header, "invoice_id"), Get(header, "invoice_account_id"),
                  InvoiceColumns(lineAttrs, invoiceAttrs), includeSystem, includeLine, pool, tax)
    ensures AttrsOk(item, lineAttrs, Drawn(false))
    ensures itemIdx == 0 ==> AttrsOk(item, invoiceAttrs, Drawn(false))
    ensures itemIdx == 0 ==> forall k :: k in HeaderKeys ==> Get(item, k) == Get(header, k)
    ensures itemIdx > 0 ==> Blanked(item, Keeps)
  {
    var coin: bool :| true;
    var isSystem := IsSystemItem(includeSystem, includeLine, coin);
    item := FullItemRow(header, isSystem, includeSystem, includeLine, pool, tax, lineAttrs, invoiceAttrs);
    if itemIdx > 0 {
      var full := item;
      item := BlankContinuation(full, Keeps);
      ContinuationRow(full, item, includeSystem, includeLine, pool, tax, lineAttrs);
    }
  }

  /**
    The rows of invoice number `idx`: the header literal, then between
    `max(1, min)` and `max(min, max)` item rows built from copies of it.
   */
  method InvoiceGroup(idx: nat, choices: seq<Choice>, accountIds: seq<string>, defaultCurrency: string,
                      template: string, tax: TaxConfig, config: ItemConfig, pool: seq<string>,
                      lineAttrs: seq<AttrSpec>, invoiceAttrs: seq<AttrSpec>)
    returns (g: seq<Row>)
    requires choices == IdChoices(accountIds, defaultCurrency) && choices != []
    requires config.includeSystem ==> pool != []
    requires AllPrefixed(lineAttrs, ItemAttrPrefix) && AllPrefixed(invoiceAttrs, AttrPrefix)
    ensures InvoiceOk(g, idx, accountIds, defaultCurrency, template, tax, config, pool, lineAttrs, invoiceAttrs)
  {
    var flags := EffectiveFlags(config);
    var columns := InvoiceColumns(lineAttrs, invoiceAttrs);
    var header := InvoiceHeader(idx, choices, accountIds, defaultCurrency, template);
    var id, accountId := Get(header, "invoice_id"), Get(header, "invoice_account_id");
    var range := ItemRange(config.minItems, config.maxItems);
    var total :| range.0 <= total <= range.1;
    g := [];
    var itemIdx := 0;
    while itemIdx < total
      invariant 0 <= itemIdx <= total && |g| == itemIdx
      invariant RowsOk(g, id, accountId, columns, flags.0, flags.1, pool, tax, lineAttrs)
      invariant ContinuationsBlanked(g, Keeps)
      invariant g != [] ==> AttrsOk(g[0], invoiceAttrs, Drawn(false))
      invariant g != [] ==> forall k :: k in HeaderKeys ==> Get(g[0], k) == Get(header, k)
    {
      var item := InvoiceItemRow(header, itemIdx, flags.0, flags.1, pool, tax, lineAttrs, invoiceAttrs);
      RowsSnoc(g, item, id, accountId, columns, flags.0, flags.1, pool, tax, lineAttrs);
      g := g + [item];
      itemIdx := itemIdx + 1;
    }
    GroupDone(g, header, idx, accountIds, defaultCurrency, template, tax, config, pool, lineAttrs, invoiceAttrs);
  }

  /** The outer loop of `generate_invoice_rows`: `count` invoices, appended one after another. */
  method InvoiceLoop(count: nat, choices: seq<Choice>, accountIds: seq<string>, defaultCurrency: string,
                     template: string, tax: TaxConfig, config: ItemConfig, pool: seq<string>,
                     lineAttrs: seq<AttrSpec>, invoiceAttrs: seq<AttrSpec>)
    returns (rows: seq<Row>, ghost groups: seq<seq<Row>>)
    requires choices == IdChoices(accountIds, defaultCurrency) && choices != []
    requires config.includeSystem ==> pool != []
    requires AllPrefixed(lineAttrs, ItemAttrPrefix) && AllPrefixed(invoiceAttrs, AttrPrefix)
    ensures rows == Flatten(groups) && |groups| == count
    ensures InvoicesOk(groups, accountIds, defaultCurrency, template, tax, config, pool, lineAttrs, invoiceAttrs)
    ensures var range := ItemRange(config.minItems, config.maxItems);
      count * range.0 <= |rows| <= count * range.1
  {
    rows, groups := [], [];
    var idx := 0;
    while idx < count
      invariant 0 <= idx <= count && |groups| == idx
      invariant rows == Flatten(groups)
      invariant InvoicesOk(groups, accountIds, defaultCurrency, template, tax, config, pool, lineAttrs, invoiceAttrs)
    {
      var g := InvoiceGroup(idx, choices, accountIds, defaultCurrency, template, tax, config, pool,
                            lineAttrs, invoiceAttrs);
      InvoicesSnoc(groups, g, accountIds, defaultCurrency, template, tax, config, pool, lineAttrs, invoiceAttrs);
      rows := rows + g;
      groups := groups + [g];
      idx := idx + 1;
    }
    var range := ItemRange(config.minItems, config.maxItems);
    forall j | 0 <= j < |groups| ensures range.0 <= |groups[j]| <= range.1 {
      InvoicesOkAt(groups, j, accountIds, defaultCurrency, template, tax, config, pool, lineAttrs, invoiceAttrs);
    }
    FlattenBounds(groups, range.0, range.1);
  }

  /**
    `generate_invoice_rows`: fails when no account id is left after stripping;
    otherwise produces `count` invoices, their rows appended one invoice after
    another.
   */
  method GenerateInvoiceRows(count: nat, accountIds: seq<string>, defaultCurrency: string, template: string,
                             tax: TaxConfig, config: ItemConfig,
                             lineAttrs: seq<AttrSpec>, invoiceAttrs: seq<AttrSpec>)
    returns (result: Result<seq<Row>>, ghost groups: seq<seq<Row>>, pool: seq<string>)
    requires AllPrefixed(lineAttrs, ItemAttrPrefix) && AllPrefixed(invoiceAttrs, AttrPrefix)
    ensures result.Err? <==> forall i :: 0 <= i < |accountIds| ==> Strip(accountIds[i]) == ""
    ensures result.Ok? ==> result.value == Flatten(groups) && |groups| == count
    ensures result.Ok? ==>
      var range := ItemRange(config.minItems, config.maxItems);
      count * range.0 <= |result.value| <= count * range.1
    ensures result.Ok? && config.systemIds != [] ==> pool == config.systemIds
    ensures result.Ok? && config.systemIds == [] && config.includeSystem ==>
      |pool| == 5 && forall i :: 0 <= i < 5 ==> IsFallbackItemId(pool[i])
    ensures result.Ok? ==>
      InvoicesOk(groups, accountIds, defaultCurrency, template, tax, config, pool, lineAttrs, invoiceAttrs)
  {
    var choices := DeriveFromIds(accountIds, defaultCurrency);
    groups := [];
    if choices == [] {
      pool := [];
      return Err("No account IDs available to associate with invoices."), groups, pool;
    }
    pool := ItemPool(config);
    var rows;
    rows, groups := InvoiceLoop(count, choices, accountIds, defaultCurrency, template, tax, config, pool,
                                lineAttrs, invoiceAttrs);
    result := Ok(rows);
  }
}
