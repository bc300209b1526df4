/**
  `generate_purchase_invoice_rows`: every purchase invoice becomes one row per
  line item.  The header and the purchase invoice attributes are drawn once per
  purchase invoice, before the item loop copies them into each item row.  On
  every row after the first the header columns are blanked except the id, the
  account id, the currency and the two dates; line item columns and line item
  attributes are kept, but `purchase_invoice_item_name` is not (it does not
  carry the line item prefix).  `generate_purchase_invoice_csv` then collects
  the set of non-empty purchase invoice ids.
 */
module PurchaseInvoice {
  import opened Rows
  import opened Text
  import opened CustomAttributes
  import opened AccountChoices
  import opened LineItems

  const IdPrefix: string := "CSV-PINV-"
  const AttrPrefix: string := "ca_purchase_invoice_attr_"
  const ItemAttrPrefix: string := "ca_purchase_invoice_item_attr_"
  const LineItemPrefix: string := "purchase_invoice_line_item_"

  /** The columns of the header literal, in dictionary order. */
  const HeaderKeys: seq<string> := [
    "purchase_invoice_id", "purchase_invoice_origin", "purchase_invoice_currency",
    "purchase_invoice_account_id", "purchase_invoice_issue_date", "purchase_invoice_due_date",
    "purchase_invoice_price_tax_inclusive", "purchase_invoice_purchase_invoice_note",
    "purchase_invoice_custom_form_template"]

  const IdKey: string := "purchase_invoice_line_item_id"
  const NameKey: string := "purchase_invoice_item_name"
  const QuantityKey: string := "purchase_invoice_line_item_order_quantity"
  const PriceKey: string := "purchase_invoice_line_item_price"
  const TaxUuidKey: string := "purchase_invoice_line_item_tax_uuid"
  const ExemptKey: string := "purchase_invoice_line_item_tax_exempt"

  /** The line item columns, in the order the item loop assigns them. */
  const ItemKeys: seq<string> := [IdKey, NameKey, QuantityKey, PriceKey, TaxUuidKey, ExemptKey]

  /** `generate_purchase_invoice_note`'s choices. */
  const Notes: seq<string> := [
    "Payment due upon receipt. Thank you for your service.",
    "Please submit invoice as per payment terms.",
    "Contact our procurement department for any queries.",
    "Net payment terms apply as specified in purchase order.",
    "Please reference purchase invoice number when submitting invoice.",
    "All amounts shown in the specified currency.",
    "Goods received and inspected - approved for payment.",
    "Thank you for your prompt service and delivery.",
    "Payment will be processed within agreed terms.",
    "Invoice approved and forwarded to accounts payable."]

  const Adjectives: seq<string> := ["Premium", "Standard", "Professional", "Enterprise", "Basic", "Advanced", "Bulk"]
  const Nouns: seq<string> := ["Materials", "Supplies", "Equipment", "Service", "Parts", "Components", "Resources"]

  /** The header columns followed by each new purchase invoice attribute column. */
  function HeadColumns(piAttrs: seq<AttrSpec>): seq<string> {
    AddKeys(HeaderKeys, Columns(piAttrs))
  }

  /** The columns of every purchase invoice row. */
  function PurchaseInvoiceColumns(lineAttrs: seq<AttrSpec>, piAttrs: seq<AttrSpec>): seq<string> {
    AddKeys(HeadColumns(piAttrs) + ItemKeys, Columns(lineAttrs))
  }

  /** The columns a continuation row keeps. */
  predicate Keeps(k: string) {
    k == "purchase_invoice_id" || k == "purchase_invoice_account_id" || k == "purchase_invoice_currency" ||
    k == "purchase_invoice_issue_date" || k == "purchase_invoice_due_date" ||
    HasPrefix(k, LineItemPrefix) || HasPrefix(k, ItemAttrPrefix)
  }

  /** The five header cells every row of a purchase invoice repeats. */
  function SharedCells(row: Row): seq<Option<Value>> {
    [Get(row, "purchase_invoice_id"), Get(row, "purchase_invoice_account_id"), Get(row, "purchase_invoice_currency"),
     Get(row, "purchase_invoice_issue_date"), Get(row, "purchase_invoice_due_date")]
  }

  /** `CSV-PINV-` followed by six digits. */
  predicate IsPurchaseInvoiceId(s: string) {
    |s| == 15 && HasPrefix(s, IdPrefix) && AllDigits(s[9..])
  }

  /** `generate_purchase_invoice_id`: `CSV-PINV-` and a draw from 100000..999999. */
  function PurchaseInvoiceId(n: int): (id: string)
    requires 100000 <= n <= 999999
    ensures IsPurchaseInvoiceId(id)
    ensures ParseDec(id[9..]) == n
  {
    Pow10Values();
    NumberedShape(IdPrefix, n, 6);
    assert Numbered(IdPrefix, n)[9..] == Dec(n);
    ParseDec_Dec(n);
    Numbered(IdPrefix, n)
  }

  /** `generate_issue_date`: today plus 0 to 90 days, never in the past. */
  function IssueDate(today: int, offset: int): (issue: int)
    requires 0 <= offset <= 90
    ensures today <= issue <= today + 90
  {
    today + offset
  }

  /** `generate_due_date`: the issue date plus 7 to 90 days, so strictly after the issue date. */
  function DueDate(issue: int, days: int): (due: int)
    requires 7 <= days <= 90
    ensures issue + 7 <= due <= issue + 90 && due > issue
  {
    issue + days
  }

  /** An adjective and a noun of the fixed lists, separated by a space. */
  predicate IsLineItemName(s: string) {
    exists a, n :: 0 <= a < |Adjectives| && 0 <= n < |Nouns| && s == Adjectives[a] + " " + Nouns[n]
  }

  /** `generate_line_item_name`: an adjective, a space and a noun, never empty. */
  function LineItemName(a: nat, n: nat): (name: string)
    requires a < |Adjectives| && n < |Nouns|
    ensures IsLineItemName(name) && name != ""
    ensures HasPrefix(name, Adjectives[a] + " ") && name[|Adjectives[a]| + 1..] == Nouns[n]
  {
    PrefixOfConcat(Adjectives[a] + " ", Nouns[n]);
    Adjectives[a] + " " + Nouns[n]
  }

  // ---------------------------------------------------------------------------
  // What the rows look like

  /** The header of purchase invoice number `idx` (counting from 0), with today as day 0. */
  predicate HeaderOk(row: Row, idx: nat, accountIds: seq<string>, defaultCurrency: string, template: string) {
    var id := Get(row, "purchase_invoice_id");
    var issue := Get(row, "purchase_invoice_issue_date");
    var due := Get(row, "purchase_invoice_due_date");
    id.Some? && id.value.Str? && IsPurchaseInvoiceId(id.value.s) &&
    Get(row, "purchase_invoice_origin") == Some(Str(ImportOrigin(idx))) &&
    Get(row, "purchase_invoice_currency") == Some(Str(defaultCurrency)) &&
    IsStrIn(Get(row, "purchase_invoice_account_id"), StripNonBlank(accountIds)) &&
    issue.Some? && issue.value.Int? && 0 <= issue.value.i <= 90 &&
    due.Some? && due.value.Int? && issue.value.i + 7 <= due.value.i <= issue.value.i + 90 &&
    Get(row, "purchase_invoice_price_tax_inclusive") in {Some(Blank), Some(Str("TRUE"))} &&
    IsStrIn(Get(row, "purchase_invoice_purchase_invoice_note"), Notes) &&
    Get(row, "purchase_invoice_custom_form_template") == Some(Str(template))
  }

  /** A system row names an identifier of the pool and has an empty name. */
  predicate SystemItem(row: Row, pool: seq<string>) {
    IsStrIn(Get(row, IdKey), pool) && Get(row, NameKey) == Some(Blank)
  }

  /** A free-text row has an empty identifier and an adjective-noun name. */
  predicate FreeItem(row: Row) {
    var name := Get(row, NameKey);
    Get(row, IdKey) == Some(Blank) && IsNonBlankStr(name) && IsLineItemName(name.value.s)
  }

  /** An item row before blanking: a system row only with system items on, a free-text row only with line items on. */
  predicate ItemShape(row: Row, includeSystem: bool, includeLine: bool, pool: seq<string>) {
    (includeSystem && SystemItem(row, pool)) || (includeLine && FreeItem(row))
  }

  /** The identifier, which survives blanking: from the pool, or "" for a free-text item. */
  predicate IdOk(row: Row, includeSystem: bool, includeLine: bool, pool: seq<string>) {
    (includeSystem && IsStrIn(Get(row, IdKey), pool)) || (includeLine && Get(row, IdKey) == Some(Blank))
  }

  /**
    Quantity 1..100, price 10.00..5000.00, a tax uuid that is "" or one of the
    configured uuids (always "" when there are none), and a tax-exempt flag
    that is "" or "TRUE".
   */
  predicate LineOk(row: Row, taxUuids: seq<string>) {
    var q := Get(row, QuantityKey);
    var p := Get(row, PriceKey);
    var t := Get(row, TaxUuidKey);
    q.Some? && q.value.Int? && 1 <= q.value.i <= 100 &&
    p.Some? && p.value.Int? && 1000 <= p.value.i <= 500000 &&
    (t == Some(Blank) || IsStrIn(t, taxUuids)) && (taxUuids == [] ==> t == Some(Blank)) &&
    Get(row, ExemptKey) in {Some(Blank), Some(Str("TRUE"))}
  }

  /** Facts about every row of a purchase invoice. */
  predicate RowOk(row: Row, shared: seq<Option<Value>>, columns: seq<string>,
                  includeSystem: bool, includeLine: bool, pool: seq<string>, taxUuids: seq<string>)
  {
    DistinctKeys(row) && Keys(row) == columns && SharedCells(row) == shared &&
    IdOk(row, includeSystem, includeLine, pool) && LineOk(row, taxUuids)
  }

  /** Every row of `g` satisfies `RowOk` and holds its line item attributes. */
  predicate RowsOk(g: seq<Row>, shared: seq<Option<Value>>, columns: seq<string>,
                   includeSystem: bool, includeLine: bool, pool: seq<string>, taxUuids: seq<string>,
                   lineAttrs: seq<AttrSpec>)
    decreases |g|
  {
    g == [] ||
    (RowsOk(g[..|g| - 1], shared, columns, includeSystem, includeLine, pool, taxUuids, lineAttrs) &&
     RowOk(g[|g| - 1], shared, columns, includeSystem, includeLine, pool, taxUuids) &&
     AttrsOk(g[|g| - 1], lineAttrs, Drawn(false)))
  }

  lemma {:induction false} RowsOkAt(g: seq<Row>, j: nat, shared: seq<Option<Value>>, columns: seq<string>,
                                    includeSystem: bool, includeLine: bool, pool: seq<string>,
                                    taxUuids: seq<string>, lineAttrs: seq<AttrSpec>)
    requires RowsOk(g, shared, columns, includeSystem, includeLine, pool, taxUuids, lineAttrs) && j < |g|
    ensures RowOk(g[j], shared, columns, includeSystem, includeLine, pool, taxUuids)
    ensures AttrsOk(g[j], lineAttrs, Drawn(false))
    decreases |g|
  {
    if j < |g| - 1 {
      RowsOkAt(g[..|g| - 1], j, shared, columns, includeSystem, includeLine, pool, taxUuids, lineAttrs);
    }
  }

  lemma RowsSnoc(g: seq<Row>, item: Row, shared: seq<Option<Value>>, columns: seq<string>,
                 includeSystem: bool, includeLine: bool, pool: seq<string>, taxUuids: seq<string>,
                 lineAttrs: seq<AttrSpec>)
    requires RowsOk(g, shared, columns, includeSystem, includeLine, pool, taxUuids, lineAttrs)
    requires RowOk(item, shared, columns, includeSystem, includeLine, pool, taxUuids)
    requires AttrsOk(item, lineAttrs, Drawn(false))
    requires ContinuationsBlanked(g, Keeps) && (g != [] ==> Blanked(item, Keeps))
    ensures RowsOk(g + [item], shared, columns, includeSystem, includeLine, pool, taxUuids, lineAttrs)
    ensures ContinuationsBlanked(g + [item], Keeps)
  {
    assert (g + [item])[..|g|] == g;
  }

  /** Everything the generator promises about the rows of purchase invoice number `idx`. */
  predicate PurchaseInvoiceOk(g: seq<Row>, idx: nat, accountIds: seq<string>, defaultCurrency: string,
                              template: string, taxUuids: seq<string>, config: ItemConfig, pool: seq<string>,
                              lineAttrs: seq<AttrSpec>, piAttrs: seq<AttrSpec>)
  {
    var flags := EffectiveFlags(config);
    var range := ItemRange(config.minItems, config.maxItems);
    range.0 <= |g| <= range.1 &&
    HeaderOk(g[0], idx, accountIds, defaultCurrency, template) &&
    AttrsOk(g[0], piAttrs, Drawn(false)) &&
    ItemShape(g[0], flags.0, flags.1, pool) &&
    RowsOk(g, SharedCells(g[0]), PurchaseInvoiceColumns(lineAttrs, piAttrs), flags.0, flags.1, pool, taxUuids,
           lineAttrs) &&
    ContinuationsBlanked(g, Keeps)
  }

  /** Group `j` of `groups` satisfies `PurchaseInvoiceOk` as purchase invoice number `j`, for every `j`. */
  predicate PurchaseInvoicesOk(groups: seq<seq<Row>>, accountIds: seq<string>, defaultCurrency: string,
                               template: string, taxUuids: seq<string>, config: ItemConfig, pool: seq<string>,
                               lineAttrs: seq<AttrSpec>, piAttrs: seq<AttrSpec>)
    decreases |groups|
  {
    groups == [] ||
    (PurchaseInvoicesOk(groups[..|groups| - 1], accountIds, defaultCurrency, template, taxUuids, config, pool,
                        lineAttrs, piAttrs) &&
     PurchaseInvoiceOk(groups[|groups| - 1], |groups| - 1, accountIds, defaultCurrency, template, taxUuids,
                       config, pool, lineAttrs, piAttrs))
  }

  lemma {:induction false} PurchaseInvoicesOkAt(groups: seq<seq<Row>>, j: nat, accountIds: seq<string>,
                                                defaultCurrency: string, template: string, taxUuids: seq<string>,
                                                config: ItemConfig, pool: seq<string>,
                                                lineAttrs: seq<AttrSpec>, piAttrs: seq<AttrSpec>)
    requires PurchaseInvoicesOk(groups, accountIds, defaultCurrency, template, taxUuids, config, pool,
                                lineAttrs, piAttrs)
    requires j < |groups|
    ensures PurchaseInvoiceOk(groups[j], j, accountIds, defaultCurrency, template, taxUuids, config, pool,
                              lineAttrs, piAttrs)
    decreases |groups|
  {
    if j < |groups| - 1 {
      PurchaseInvoicesOkAt(groups[..|groups| - 1], j, accountIds, defaultCurrency, template, taxUuids, config,
                           pool, lineAttrs, piAttrs);
    }
  }

  lemma PurchaseInvoicesSnoc(groups: seq<seq<Row>>, g: seq<Row>, accountIds: seq<string>,
                             defaultCurrency: string, template: string, taxUuids: seq<string>,
                             config: ItemConfig, pool: seq<string>, lineAttrs: seq<AttrSpec>,
                             piAttrs: seq<AttrSpec>)
    requires PurchaseInvoicesOk(groups, accountIds, defaultCurrency, template, taxUuids, config, pool,
                                lineAttrs, piAttrs)
    requires PurchaseInvoiceOk(g, |groups|, accountIds, defaultCurrency, template, taxUuids, config, pool,
                               lineAttrs, piAttrs)
    ensures PurchaseInvoicesOk(groups + [g], accountIds, defaultCurrency, template, taxUuids, config, pool,
                               lineAttrs, piAttrs)
    ensures Flatten(groups + [g]) == Flatten(groups) + g
  {
    assert (groups + [g])[..|groups|] == groups;
  }

  // ---------------------------------------------------------------------------
  // Facts about the fixed columns

  lemma HeaderKeysDistinct()
    ensures Distinct(HeaderKeys)
  {
  }

  lemma ItemKeysDistinct()
    ensures Distinct(ItemKeys)
  {
  }

  lemma HeaderItemDisjoint()
    ensures forall k :: k in ItemKeys ==> k !in HeaderKeys
  {
  }

  /** Header and line item columns start with `p`, attribute columns with `c`. */
  lemma FixedColumnStart(k: string)
    requires k in HeaderKeys || k in ItemKeys
    ensures |k| > 0 && k[0] == 'p'
  {
  }

  /** A column that does not start like the attribute prefix is no attribute column. */
  lemma NotAttrColumn(attrs: seq<AttrSpec>, prefix: string, k: string)
    requires AllPrefixed(attrs, prefix) && |prefix| > 0 && |k| > 0 && k[0] != prefix[0]
    ensures k !in Columns(attrs)
  {
  }

  /** The header columns and the purchase invoice attribute columns are no line item columns. */
  lemma HeadNotItem(piAttrs: seq<AttrSpec>, k: string)
    requires AllPrefixed(piAttrs, AttrPrefix) && k in HeadColumns(piAttrs)
    ensures k !in ItemKeys
  {
    AddKeysOnly(HeaderKeys, Columns(piAttrs), k);
    HeaderItemDisjoint();
    if k !in HeaderKeys {
      var a :| 0 <= a < |piAttrs| && piAttrs[a].column == k;
      assert k[0] == AttrPrefix[0];
      forall j | 0 <= j < |ItemKeys| ensures ItemKeys[j][0] == 'p' {
        FixedColumnStart(ItemKeys[j]);
      }
    }
  }

  /** No column of the row before the line item attributes is a line item attribute column. */
  lemma NotLineAttr(piAttrs: seq<AttrSpec>, lineAttrs: seq<AttrSpec>, k: string)
    requires AllPrefixed(piAttrs, AttrPrefix) && AllPrefixed(lineAttrs, ItemAttrPrefix)
    requires k in HeadColumns(piAttrs) + ItemKeys
    ensures k !in Columns(lineAttrs)
  {
    if k in ItemKeys {
      FixedColumnStart(k);
      NotAttrColumn(lineAttrs, ItemAttrPrefix, k);
    } else {
      AddKeysOnly(HeaderKeys, Columns(piAttrs), k);
      if k in HeaderKeys {
        FixedColumnStart(k);
        NotAttrColumn(lineAttrs, ItemAttrPrefix, k);
      } else {
        forall i | 0 <= i < |lineAttrs| ensures lineAttrs[i].column != k {
          var a :| 0 <= a < |piAttrs| && piAttrs[a].column == k;
          PrefixesDiffer(k, lineAttrs[i].column, AttrPrefix, ItemAttrPrefix, 20);
        }
      }
    }
  }

  /** Every line item column but the name carries the line item prefix. */
  lemma ItemKeysKept(k: string)
    requires k in ItemKeys && k != NameKey
    ensures Keeps(k)
  {
    assert HasPrefix(k, LineItemPrefix);
  }

  /** The name column lacks the line item prefix, so continuation rows blank it. */
  lemma NameNotKept()
    ensures !Keeps(NameKey)
  {
    assert NameKey[17] != LineItemPrefix[17];
  }

  // ---------------------------------------------------------------------------
  // Literals

  /** The values of the header literal, in `HeaderKeys` order. */
  function HeaderValues(id: string, idx: nat, currency: Value, accountId: Value, issue: int, due: int,
                        note: string, template: string): (vs: seq<Value>)
    ensures |vs| == 9
  {
    [Str(id), Str(ImportOrigin(idx)), currency, accountId, Int(issue), Int(due), Blank, Str(note), Str(template)]
  }

  /** The header literal: distinct keys, and each key reads as its value. */
  lemma HeaderGets(vs: seq<Value>)
    requires |vs| == 9
    ensures var row := Dict(HeaderKeys, vs);
      DistinctKeys(row) && Keys(row) == HeaderKeys &&
      Get(row, "purchase_invoice_id") == Some(vs[0]) &&
      Get(row, "purchase_invoice_origin") == Some(vs[1]) &&
      Get(row, "purchase_invoice_currency") == Some(vs[2]) &&
      Get(row, "purchase_invoice_account_id") == Some(vs[3]) &&
      Get(row, "purchase_invoice_issue_date") == Some(vs[4]) &&
      Get(row, "purchase_invoice_due_date") == Some(vs[5]) &&
      Get(row, "purchase_invoice_price_tax_inclusive") == Some(vs[6]) &&
      Get(row, "purchase_invoice_purchase_invoice_note") == Some(vs[7]) &&
      Get(row, "purchase_invoice_custom_form_template") == Some(vs[8])
  {
    HeaderKeysDistinct();
    DictKeys(HeaderKeys, vs);
    DictGet(HeaderKeys, vs, 0);
    DictGet(HeaderKeys, vs, 1);
    DictGet(HeaderKeys, vs, 2);
    DictGet(HeaderKeys, vs, 3);
    DictGet(HeaderKeys, vs, 4);
    DictGet(HeaderKeys, vs, 5);
    DictGet(HeaderKeys, vs, 6);
    DictGet(HeaderKeys, vs, 7);
    DictGet(HeaderKeys, vs, 8);
  }

  /** The header literal, given values of the right shape, satisfies `HeaderOk`. */
  lemma HeaderLiteral(id: string, idx: nat, accountId: string, issue: int, due: int, note: string,
                      accountIds: seq<string>, defaultCurrency: string, template: string)
    requires IsPurchaseInvoiceId(id) && accountId in StripNonBlank(accountIds) && note in Notes
    requires 0 <= issue <= 90 && issue + 7 <= due <= issue + 90
    ensures var row := Dict(HeaderKeys, HeaderValues(id, idx, Str(defaultCurrency), Str(accountId), issue, due,
                                                     note, template));
      DistinctKeys(row) && Keys(row) == HeaderKeys && HeaderOk(row, idx, accountIds, defaultCurrency, template)
  {
    HeaderGets(HeaderValues(id, idx, Str(defaultCurrency), Str(accountId), issue, due, note, template));
  }

  /** Setting "purchase_invoice_price_tax_inclusive" to "TRUE" keeps the header valid. */
  lemma TaxInclusiveSet(row: Row, idx: nat, accountIds: seq<string>, defaultCurrency: string, template: string)
    requires DistinctKeys(row) && Keys(row) == HeaderKeys
    requires HeaderOk(row, idx, accountIds, defaultCurrency, template)
    ensures var r := Set(row, "purchase_invoice_price_tax_inclusive", Str("TRUE"));
      DistinctKeys(r) && Keys(r) == HeaderKeys && HeaderOk(r, idx, accountIds, defaultCurrency, template)
  {
    SetDistinct(row, "purchase_invoice_price_tax_inclusive", Str("TRUE"));
  }

  lemma HeaderFrame(row: Row, r: Row, idx: nat, accountIds: seq<string>, defaultCurrency: string, template: string)
    requires forall k :: k in HeaderKeys ==> Get(r, k) == Get(row, k)
    requires HeaderOk(row, idx, accountIds, defaultCurrency, template)
    ensures HeaderOk(r, idx, accountIds, defaultCurrency, template)
  {
  }

  /** The values the item loop assigns, in `ItemKeys` order. */
  function ItemValues(id: Value, name: Value, quantity: int, price: int, taxUuid: Value, exempt: bool)
    : (vs: seq<Value>)
    ensures |vs| == 6
  {
    [id, name, Int(quantity), Int(price), taxUuid, if exempt then Str("TRUE") else Blank]
  }

  /**
    The item assignments on a copy of the header row: the line item keys are
    new, so the update appends them in order and leaves the header alone.
   */
  lemma ItemAppend(header: Row, vs: seq<Value>)
    requires DistinctKeys(header) && |vs| == 6
    requires forall k :: k in Keys(header) ==> k !in ItemKeys
    ensures var item := header + Dict(ItemKeys, vs);
      Update(header, Dict(ItemKeys, vs)) == item &&
      DistinctKeys(item) && Keys(item) == Keys(header) + ItemKeys &&
      forall k :: k in Keys(header) ==> Get(item, k) == Get(header, k)
  {
    var fields := Dict(ItemKeys, vs);
    ItemKeysDistinct();
    DictKeys(ItemKeys, vs);
    UpdateAppends(header, fields);
    KeysAppend(header, fields);
    forall k | k in Keys(header) ensures Get(header + fields, k) == Get(header, k) {
      GetAppend(header, fields, k);
    }
  }

  lemma ItemGet(header: Row, vs: seq<Value>, j: nat)
    requires |vs| == 6 && j < 6 && ItemKeys[j] !in Keys(header)
    ensures Get(header + Dict(ItemKeys, vs), ItemKeys[j]) == Some(vs[j])
  {
    ItemKeysDistinct();
    GetAppend(header, Dict(ItemKeys, vs), ItemKeys[j]);
    DictGet(ItemKeys, vs, j);
  }

  /** Each line item column of the appended row reads as the value assigned to it. */
  lemma ItemGets(header: Row, vs: seq<Value>)
    requires |vs| == 6 && forall k :: k in Keys(header) ==> k !in ItemKeys
    ensures var item := header + Dict(ItemKeys, vs);
      Get(item, IdKey) == Some(vs[0]) && Get(item, NameKey) == Some(vs[1]) &&
      Get(item, QuantityKey) == Some(vs[2]) && Get(item, PriceKey) == Some(vs[3]) &&
      Get(item, TaxUuidKey) == Some(vs[4]) && Get(item, ExemptKey) == Some(vs[5])
  {
    ItemGet(header, vs, 0);
    ItemGet(header, vs, 1);
    ItemGet(header, vs, 2);
    ItemGet(header, vs, 3);
    ItemGet(header, vs, 4);
    ItemGet(header, vs, 5);
  }

  /** An item row holding values of the right shape satisfies `SystemItem` or `FreeItem`, and `LineOk`. */
  lemma ItemLiteral(item: Row, id: Value, name: Value, quantity: int, price: int, taxUuid: Value, exempt: bool,
                    isSystem: bool, pool: seq<string>, taxUuids: seq<string>)
    requires Get(item, IdKey) == Some(id) && Get(item, NameKey) == Some(name)
    requires Get(item, QuantityKey) == Some(Int(quantity)) && Get(item, PriceKey) == Some(Int(price))
    requires Get(item, TaxUuidKey) == Some(taxUuid)
    requires Get(item, ExemptKey) == Some(if exempt then Str("TRUE") else Blank)
    requires isSystem ==> id.Str? && id.s in pool && name == Blank
    requires !isSystem ==> id == Blank && name.Str? && name.s != "" && IsLineItemName(name.s)
    requires 1 <= quantity <= 100 && 1000 <= price <= 500000
    requires taxUuid == Blank || (taxUuid.Str? && taxUuid.s in taxUuids)
    requires taxUuids == [] ==> taxUuid == Blank
    ensures if isSystem then SystemItem(item, pool) else FreeItem(item)
    ensures LineOk(item, taxUuids)
  {
  }

  // ---------------------------------------------------------------------------
  // Generation

  /**
    The header literal of purchase invoice number `idx`: a fresh id, the import
    origin, an account choice, an issue date 0 to 90 days ahead, a due date 7
    to 90 days after it, "" for tax-inclusive prices, a note and the form
    template.
   */
  method DrawHeaderLiteral(idx: nat, choices: seq<Choice>, accountIds: seq<string>, defaultCurrency: string,
                           template: string)
    returns (row: Row)
    requires choices == IdChoices(accountIds, defaultCurrency) && choices != []
    ensures DistinctKeys(row) && Keys(row) == HeaderKeys
    ensures HeaderOk(row, idx, accountIds, defaultCurrency, template)
  {
    var c :| 0 <= c < |choices|;
    IdChoice(accountIds, defaultCurrency, c);
    var choice := choices[c];
    var offset :| 0 <= offset <= 90;
    var issue := IssueDate(0, offset);
    var days :| 7 <= days <= 90;
    var due := DueDate(issue, days);
    var n :| 100000 <= n <= 999999;
    var id := PurchaseInvoiceId(n);
    var currency := CurrencyOr(choice.currency, defaultCurrency);
    assert currency == Str(defaultCurrency);
    var k :| 0 <= k < |Notes|;
    HeaderLiteral(id, idx, choice.accountId.s, issue, due, Notes[k], accountIds, defaultCurrency, template);
    row := Dict(HeaderKeys, HeaderValues(id, idx, currency, choice.accountId, issue, due, Notes[k], template));
  }

  /** The header literal, with "TRUE" for tax-inclusive prices when that draw comes up. */
  method HeaderLiteralRow(idx: nat, choices: seq<Choice>, accountIds: seq<string>, defaultCurrency: string,
                          template: string)
    returns (row: Row)
    requires choices == IdChoices(accountIds, defaultCurrency) && choices != []
    ensures DistinctKeys(row) && Keys(row) == HeaderKeys
    ensures HeaderOk(row, idx, accountIds, defaultCurrency, template)
  {
    row := DrawHeaderLiteral(idx, choices, accountIds, defaultCurrency, template);
    var taxInclusive: bool :| true;
    if taxInclusive {
      TaxInclusiveSet(row, idx, accountIds, defaultCurrency, template);
      row := Set(row, "purchase_invoice_price_tax_inclusive", Str("TRUE"));
    }
  }

  /** The header literal, then the purchase invoice attributes, drawn once for the whole purchase invoice. */
  method PurchaseInvoiceHeader(idx: nat, choices: seq<Choice>, accountIds: seq<string>, defaultCurrency: string,
                               template: string, piAttrs: seq<AttrSpec>)
    returns (header: Row)
    requires choices == IdChoices(accountIds, defaultCurrency) && choices != []
    requires AllPrefixed(piAttrs, AttrPrefix)
    ensures DistinctKeys(header) && Keys(header) == HeadColumns(piAttrs)
    ensures HeaderOk(header, idx, accountIds, defaultCurrency, template)
    ensures AttrsOk(header, piAttrs, Drawn(false))
  {
    var row := HeaderLiteralRow(idx, choices, accountIds, defaultCurrency, template);
    header := ApplyRandomAttrs(row, piAttrs, Drawn(false));
    forall k | k in HeaderKeys ensures Get(header, k) == Get(row, k) {
      FixedColumnStart(k);
      NotAttrColumn(piAttrs, AttrPrefix, k);
    }
    HeaderFrame(row, header, idx, accountIds, defaultCurrency, template);
  }

  /**
    The item loop's assignments on a copy of the header: identifier and name,
    quantity, price, tax uuid and tax exempt.  (The source's third case,
    neither a system item nor line items on, cannot arise once the include
    flags have been fixed up.)
   */
  method SetItemFields(header: Row, isSystem: bool, pool: seq<string>, taxUuids: seq<string>,
                       piAttrs: seq<AttrSpec>)
    returns (item: Row)
    requires DistinctKeys(header) && Keys(header) == HeadColumns(piAttrs) && AllPrefixed(piAttrs, AttrPrefix)
    requires isSystem ==> pool != []
    ensures DistinctKeys(item) && Keys(item) == Keys(header) + ItemKeys
    ensures forall k :: k in Keys(header) ==> Get(item, k) == Get(header, k)
    ensures if isSystem then SystemItem(item, pool) else FreeItem(item)
    ensures LineOk(item, taxUuids)
  {
    var id, name;
    if isSystem {
      var p :| 0 <= p < |pool|;
      id, name := Str(pool[p]), Blank;
    } else {
      var a :| 0 <= a < |Adjectives|;
      var b :| 0 <= b < |Nouns|;
      id, name := Blank, Str(LineItemName(a, b));
    }
    var quantity :| 1 <= quantity <= 100;
    var price :| 1000 <= price <= 500000;
    var taxUuid := Blank;
    var taxed: bool :| true;
    if taxUuids != [] && taxed {
      var t :| 0 <= t < |taxUuids|;
      taxUuid := Str(taxUuids[t]);
    }
    var exempt: bool :| true;
    forall k | k in Keys(header) ensures k !in ItemKeys {
      HeadNotItem(piAttrs, k);
    }
    var vs := ItemValues(id, name, quantity, price, taxUuid, exempt);
    ItemAppend(header, vs);
    ItemGets(header, vs);
    item := Update(header, Dict(ItemKeys, vs));
    ItemLiteral(item, id, name, quantity, price, taxUuid, exempt, isSystem, pool, taxUuids);
  }

  /**
    The item row before blanking: the header (with the purchase invoice
    attributes) unchanged, the line item columns, then the line item
    attributes drawn afresh for this row.
   */
  method FullItemRow(header: Row, isSystem: bool, includeSystem: bool, includeLine: bool, pool: seq<string>,
                     taxUuids: seq<string>, lineAttrs: seq<AttrSpec>, piAttrs: seq<AttrSpec>)
    returns (item: Row)
    requires DistinctKeys(header) && Keys(header) == HeadColumns(piAttrs)
    requires isSystem ==> includeSystem && pool != []
    requires !isSystem ==> includeLine
    requires AllPrefixed(lineAttrs, ItemAttrPrefix) && AllPrefixed(piAttrs, AttrPrefix)
    ensures DistinctKeys(item) && Keys(item) == PurchaseInvoiceColumns(lineAttrs, piAttrs)
    ensures forall k :: k in Keys(header) ==> Get(item, k) == Get(header, k)
    ensures ItemShape(item, includeSystem, includeLine, pool) && LineOk(item, taxUuids)
    ensures AttrsOk(item, lineAttrs, Drawn(false))
  {
    var fields := SetItemFields(header, isSystem, pool, taxUuids, piAttrs);
    item := ApplyRandomAttrs(fields, lineAttrs, Drawn(false));
    forall k | k in Keys(fields) ensures Get(item, k) == Get(fields, k) {
      NotLineAttr(piAttrs, lineAttrs, k);
    }
    ItemKept(fields, item, includeSystem, includeLine, pool, taxUuids);
  }

  /** Two rows that agree on the line item columns agree on `ItemShape` and `LineOk`. */
  lemma ItemKept(row: Row, r: Row, includeSystem: bool, includeLine: bool, pool: seq<string>, taxUuids: seq<string>)
    requires forall k :: k in ItemKeys ==> Get(r, k) == Get(row, k)
    requires ItemShape(row, includeSystem, includeLine, pool) && LineOk(row, taxUuids)
    ensures ItemShape(r, includeSystem, includeLine, pool) && LineOk(r, taxUuids)
  {
    assert Get(r, IdKey) == Get(row, IdKey) && Get(r, NameKey) == Get(row, NameKey);
    assert Get(r, QuantityKey) == Get(row, QuantityKey) && Get(r, PriceKey) == Get(row, PriceKey);
    assert Get(r, TaxUuidKey) == Get(row, TaxUuidKey) && Get(r, ExemptKey) == Get(row, ExemptKey);
  }

  /** Before blanking, the identifier is from the pool or "". */
  lemma ShapeIdOk(row: Row, includeSystem: bool, includeLine: bool, pool: seq<string>)
    requires ItemShape(row, includeSystem, includeLine, pool)
    ensures IdOk(row, includeSystem, includeLine, pool)
  {
  }

  /** `item` is `full` with every column outside the keep-set blanked. */
  predicate BlankedFrom(full: Row, item: Row) {
    DistinctKeys(full) && Keys(item) == Keys(full) && DistinctKeys(item) &&
    forall i :: 0 <= i < |full| ==> item[i].1 == if Keeps(full[i].0) then full[i].1 else Blank
  }

  /** Blanking keeps the five shared header cells. */
  lemma ContinuationShared(full: Row, item: Row)
    requires BlankedFrom(full, item)
    ensures SharedCells(item) == SharedCells(full)
  {
    BlankedGet(full, item, Keeps, "purchase_invoice_id");
    BlankedGet(full, item, Keeps, "purchase_invoice_account_id");
    BlankedGet(full, item, Keeps, "purchase_invoice_currency");
    BlankedGet(full, item, Keeps, "purchase_invoice_issue_date");
    BlankedGet(full, item, Keeps, "purchase_invoice_due_date");
  }

  /** Blanking keeps every line item column but the name, which becomes "". */
  lemma ContinuationItem(full: Row, item: Row)
    requires BlankedFrom(full, item) && NameKey in Keys(full)
    ensures forall k :: k in ItemKeys && k != NameKey ==> Get(item, k) == Get(full, k)
    ensures Get(item, NameKey) == Some(Blank)
  {
    forall k | k in ItemKeys && k != NameKey ensures Get(item, k) == Get(full, k) {
      ItemKeysKept(k);
      BlankedGet(full, item, Keeps, k);
    }
    NameNotKept();
    BlankedGet(full, item, Keeps, NameKey);
  }

  /** Blanking keeps the line item attributes. */
  lemma ContinuationAttrs(full: Row, item: Row, lineAttrs: seq<AttrSpec>)
    requires BlankedFrom(full, item) && AllPrefixed(lineAttrs, ItemAttrPrefix)
    requires AttrsOk(full, lineAttrs, Drawn(false))
    ensures AttrsOk(item, lineAttrs, Drawn(false))
  {
    forall i | 0 <= i < |lineAttrs| ensures Get(item, lineAttrs[i].column) == Get(full, lineAttrs[i].column) {
      BlankedGet(full, item, Keeps, lineAttrs[i].column);
    }
    AttrsFrame(full, item, lineAttrs, Drawn(false));
  }

  /** Rows that agree on the line item columns but the name agree on `IdOk` and `LineOk`. */
  lemma LineKept(full: Row, item: Row, includeSystem: bool, includeLine: bool, pool: seq<string>,
                 taxUuids: seq<string>)
    requires forall k :: k in ItemKeys && k != NameKey ==> Get(item, k) == Get(full, k)
    requires IdOk(full, includeSystem, includeLine, pool) && LineOk(full, taxUuids)
    ensures IdOk(item, includeSystem, includeLine, pool) && LineOk(item, taxUuids)
  {
    assert Get(item, IdKey) == Get(full, IdKey);
    assert Get(item, QuantityKey) == Get(full, QuantityKey) && Get(item, PriceKey) == Get(full, PriceKey);
    assert Get(item, TaxUuidKey) == Get(full, TaxUuidKey) && Get(item, ExemptKey) == Get(full, ExemptKey);
  }

  /**
    A blanked item row keeps the five shared header cells, the identifier, the
    quantity, price and tax columns and the line item attributes; the name is "".
   */
  lemma ContinuationRow(full: Row, item: Row, includeSystem: bool, includeLine: bool, pool: seq<string>,
                        taxUuids: seq<string>, lineAttrs: seq<AttrSpec>)
    requires BlankedFrom(full, item)
    requires AllPrefixed(lineAttrs, ItemAttrPrefix) && NameKey in Keys(full)
    requires IdOk(full, includeSystem, includeLine, pool) && LineOk(full, taxUuids)
    requires AttrsOk(full, lineAttrs, Drawn(false))
    ensures SharedCells(item) == SharedCells(full)
    ensures IdOk(item, includeSystem, includeLine, pool) && LineOk(item, taxUuids)
    ensures AttrsOk(item, lineAttrs, Drawn(false))
    ensures Get(item, NameKey) == Some(Blank)
  {
    ContinuationShared(full, item);
    ContinuationItem(full, item);
    LineKept(full, item, includeSystem, includeLine, pool, taxUuids);
    ContinuationAttrs(full, item, lineAttrs);
  }

  /**
    One pass of the item loop: copy the header, decide system or free-text,
    assign the line item columns and the line item attributes, and blank a
    continuation row.
   */
  method PurchaseInvoiceItemRow(header: Row, itemIdx: nat, includeSystem: bool, includeLine: bool,
                                pool: seq<string>, taxUuids: seq<string>, lineAttrs: seq<AttrSpec>,
                                piAttrs: seq<AttrSpec>)
    returns (item: Row)
    requires DistinctKeys(header) && Keys(header) == HeadColumns(piAttrs)
    requires includeSystem || includeLine
    requires includeSystem ==> pool != []
    requires AllPrefixed(lineAttrs, ItemAttrPrefix) && AllPrefixed(piAttrs, AttrPrefix)
    ensures RowOk(item, SharedCells(header), PurchaseInvoiceColumns(lineAttrs, piAttrs), includeSystem,
                  includeLine, pool, taxUuids)
    ensures AttrsOk(item, lineAttrs, Drawn(false))
    ensures itemIdx == 0 ==> ItemShape(item, includeSystem, includeLine, pool)
    ensures itemIdx == 0 ==> forall k :: k in Keys(header) ==> Get(item, k) == Get(header, k)
    ensures itemIdx > 0 ==> Blanked(item, Keeps)
  {
    var coin: bool :| true;
    var isSystem := IsSystemItem(includeSystem, includeLine, coin);
    var full := FullItemRow(header, isSystem, includeSystem, includeLine, pool, taxUuids, lineAttrs, piAttrs);
    ShapeIdOk(full, includeSystem, includeLine, pool);
    SharedFromHeader(header, full, piAttrs);
    item := full;
    if itemIdx > 0 {
      assert NameKey in Keys(full) by {
        AddKeysKeeps(HeadColumns(piAttrs) + ItemKeys, Columns(lineAttrs), NameKey);
      }
      item := BlankContinuation(full, Keeps);
      ContinuationRow(full, item, includeSystem, includeLine, pool, taxUuids, lineAttrs);
    }
  }

  /** A row that agrees with the header on the header's columns shares its five repeated cells. */
  lemma SharedFromHeader(header: Row, row: Row, piAttrs: seq<AttrSpec>)
    requires Keys(header) == HeadColumns(piAttrs)
    requires forall k :: k in Keys(header) ==> Get(row, k) == Get(header, k)
    ensures SharedCells(row) == SharedCells(header)
  {
    forall k | k in HeaderKeys ensures k in Keys(header) {
      AddKeysKeeps(HeaderKeys, Columns(piAttrs), k);
    }
  }

  /**
    The rows of purchase invoice number `idx`: the header with its attributes,
    then between `max(1, min)` and `max(min, max)` item rows built from copies
    of it.
   */
  method PurchaseInvoiceGroup(idx: nat, choices: seq<Choice>, accountIds: seq<string>, defaultCurrency: string,
                              template: string, taxUuids: seq<string>, config: ItemConfig, pool: seq<string>,
                              lineAttrs: seq<AttrSpec>, piAttrs: seq<AttrSpec>)
    returns (g: seq<Row>)
    requires choices == IdChoices(accountIds, defaultCurrency) && choices != []
    requires config.includeSystem ==> pool != []
    requires AllPrefixed(lineAttrs, ItemAttrPrefix) && AllPrefixed(piAttrs, AttrPrefix)
    ensures PurchaseInvoiceOk(g, idx, accountIds, defaultCurrency, template, taxUuids, config, pool,
                              lineAttrs, piAttrs)
  {
    var flags := EffectiveFlags(config);
    var columns := PurchaseInvoiceColumns(lineAttrs, piAttrs);
    var header := PurchaseInvoiceHeader(idx, choices, accountIds, defaultCurrency, template, piAttrs);
    var shared := SharedCells(header);
    var range := ItemRange(config.minItems, config.maxItems);
    var total :| range.0 <= total <= range.1;
    g := [];
    var itemIdx := 0;
    while itemIdx < total
      invariant 0 <= itemIdx <= total && |g| == itemIdx
      invariant RowsOk(g, shared, columns, flags.0, flags.1, pool, taxUuids, lineAttrs)
      invariant ContinuationsBlanked(g, Keeps)
      invariant g != [] ==> ItemShape(g[0], flags.0, flags.1, pool)
      invariant g != [] ==> forall k :: k in Keys(header) ==> Get(g[0], k) == Get(header, k)
    {
      var item := PurchaseInvoiceItemRow(header, itemIdx, flags.0, flags.1, pool, taxUuids, lineAttrs, piAttrs);
      RowsSnoc(g, item, shared, columns, flags.0, flags.1, pool, taxUuids, lineAttrs);
      g := g + [item];
      itemIdx := itemIdx + 1;
    }
    GroupDone(g, header, idx, accountIds, defaultCurrency, template, taxUuids, config, pool, lineAttrs, piAttrs);
  }

  /** The rows of one purchase invoice, once the item loop is done, satisfy `PurchaseInvoiceOk`. */
  lemma GroupDone(g: seq<Row>, header: Row, idx: nat, accountIds: seq<string>, defaultCurrency: string,
                  template: string, taxUuids: seq<string>, config: ItemConfig, pool: seq<string>,
                  lineAttrs: seq<AttrSpec>, piAttrs: seq<AttrSpec>)
    requires var range := ItemRange(config.minItems, config.maxItems); range.0 <= |g| <= range.1
    requires Keys(header) == HeadColumns(piAttrs)
    requires HeaderOk(header, idx, accountIds, defaultCurrency, template) && AttrsOk(header, piAttrs, Drawn(false))
    requires forall k :: k in Keys(header) ==> Get(g[0], k) == Get(header, k)
    requires var flags := EffectiveFlags(config); ItemShape(g[0], flags.0, flags.1, pool)
    requires ContinuationsBlanked(g, Keeps)
    requires var flags := EffectiveFlags(config);
      RowsOk(g, SharedCells(header), PurchaseInvoiceColumns(lineAttrs, piAttrs), flags.0, flags.1, pool, taxUuids,
             lineAttrs)
    ensures PurchaseInvoiceOk(g, idx, accountIds, defaultCurrency, template, taxUuids, config, pool,
                              lineAttrs, piAttrs)
  {
    forall k | k in HeaderKeys ensures Get(g[0], k) == Get(header, k) {
      AddKeysKeeps(HeaderKeys, Columns(piAttrs), k);
    }
    HeaderFrame(header, g[0], idx, accountIds, defaultCurrency, template);
    forall i | 0 <= i < |piAttrs| ensures Get(g[0], piAttrs[i].column) == Get(header, piAttrs[i].column) {
      AddKeysHas(HeaderKeys, Columns(piAttrs), i);
    }
    AttrsFrame(header, g[0], piAttrs, Drawn(false));
    SharedFromHeader(header, g[0], piAttrs);
  }

  /** The outer loop: `count` purchase invoices, appended one after another. */
  method PurchaseInvoiceLoop(count: nat, choices: seq<Choice>, accountIds: seq<string>, defaultCurrency: string,
                             template: string, taxUuids: seq<string>, config: ItemConfig, pool: seq<string>,
                             lineAttrs: seq<AttrSpec>, piAttrs: seq<AttrSpec>)
    returns (rows: seq<Row>, ghost groups: seq<seq<Row>>)
    requires choices == IdChoices(accountIds, defaultCurrency) && choices != []
    requires config.includeSystem ==> pool != []
    requires AllPrefixed(lineAttrs, ItemAttrPrefix) && AllPrefixed(piAttrs, AttrPrefix)
    ensures rows == Flatten(groups) && |groups| == count
    ensures PurchaseInvoicesOk(groups, accountIds, defaultCurrency, template, taxUuids, config, pool,
                               lineAttrs, piAttrs)
    ensures var range := ItemRange(config.minItems, config.maxItems);
      count * range.0 <= |rows| <= count * range.1
  {
    rows, groups := [], [];
    var idx := 0;
    while idx < count
      invariant 0 <= idx <= count && |groups| == idx
      invariant rows == Flatten(groups)
      invariant PurchaseInvoicesOk(groups, accountIds, defaultCurrency, template, taxUuids, config, pool,
                                   lineAttrs, piAttrs)
    {
      var g := PurchaseInvoiceGroup(idx, choices, accountIds, defaultCurrency, template, taxUuids, config, pool,
                                    lineAttrs, piAttrs);
      PurchaseInvoicesSnoc(groups, g, accountIds, defaultCurrency, template, taxUuids, config, pool,
                           lineAttrs, piAttrs);
      rows := rows + g;
      groups := groups + [g];
      idx := idx + 1;
    }
    var range := ItemRange(config.minItems, config.maxItems);
    forall j | 0 <= j < |groups| ensures range.0 <= |groups[j]| <= range.1 {
      PurchaseInvoicesOkAt(groups, j, accountIds, defaultCurrency, template, taxUuids, config, pool,
                           lineAttrs, piAttrs);
    }
    FlattenBounds(groups, range.0, range.1);
  }

  /**
    `generate_purchase_invoice_rows`: fails when no account id is left after
    stripping; otherwise produces `count` purchase invoices, their rows
    appended one purchase invoice after another.
   */
  method GeneratePurchaseInvoiceRows(count: nat, accountIds: seq<string>, defaultCurrency: string,
                                     template: string, taxUuids: seq<string>, config: ItemConfig,
                                     lineAttrs: seq<AttrSpec>, piAttrs: seq<AttrSpec>)
    returns (result: Result<seq<Row>>, ghost groups: seq<seq<Row>>, pool: seq<string>)
    requires AllPrefixed(lineAttrs, ItemAttrPrefix) && AllPrefixed(piAttrs, AttrPrefix)
    ensures result.Err? <==> forall i :: 0 <= i < |accountIds| ==> Strip(accountIds[i]) == ""
    ensures result.Ok? ==> result.value == Flatten(groups) && |groups| == count
    ensures result.Ok? ==>
      var range := ItemRange(config.minItems, config.maxItems);
      count * range.0 <= |result.value| <= count * range.1
    ensures result.Ok? && config.systemIds != [] ==> pool == config.systemIds
    ensures result.Ok? && config.systemIds == [] && config.includeSystem ==>
      |pool| == 5 && forall i :: 0 <= i < 5 ==> IsFallbackItemId(pool[i])
    ensures result.Ok? ==>
      PurchaseInvoicesOk(groups, accountIds, defaultCurrency, template, taxUuids, config, pool, lineAttrs, piAttrs)
  {
    var choices := DeriveFromIds(accountIds, defaultCurrency);
    groups := [];
    if choices == [] {
      pool := [];
      return Err("No account IDs available to associate with purchase invoices."), groups, pool;
    }
    pool := ItemPool(config);
    var rows;
    rows, groups := PurchaseInvoiceLoop(count, choices, accountIds, defaultCurrency, template, taxUuids, config,
                                        pool, lineAttrs, piAttrs);
    result := Ok(rows);
  }

  // ---------------------------------------------------------------------------
  // Properties of the rows

  /**
    On every row after the first: the five shared cells equal the first row's,
    the name is "", and every column outside the keep-set is "".
   */
  lemma ContinuationCells(g: seq<Row>, idx: nat, accountIds: seq<string>, defaultCurrency: string,
                          template: string, taxUuids: seq<string>, config: ItemConfig, pool: seq<string>,
                          lineAttrs: seq<AttrSpec>, piAttrs: seq<AttrSpec>, j: nat, k: string)
    requires PurchaseInvoiceOk(g, idx, accountIds, defaultCurrency, template, taxUuids, config, pool,
                               lineAttrs, piAttrs)
    requires 0 < j < |g| && k in Keys(g[j])
    ensures SharedCells(g[j]) == SharedCells(g[0])
    ensures !Keeps(k) ==> Get(g[j], k) == Some(Blank)
    ensures Get(g[j], NameKey) == Some(Blank)
  {
    var flags := EffectiveFlags(config);
    var columns := PurchaseInvoiceColumns(lineAttrs, piAttrs);
    RowsOkAt(g, j, SharedCells(g[0]), columns, flags.0, flags.1, pool, taxUuids, lineAttrs);
    ContinuationsBlankedAt(g, Keeps, j);
    NameNotKept();
    AddKeysKeeps(HeadColumns(piAttrs) + ItemKeys, Columns(lineAttrs), NameKey);
    BlankedCell(g[j], Keeps, NameKey);
    if !Keeps(k) {
      BlankedCell(g[j], Keeps, k);
    }
  }

  /**
    A free-text item loses its name on a continuation row: its identifier and
    its name both read "", and only a system item keeps an identifier that
    tells what it is.
   */
  lemma FreeContinuationUnnamed(row: Row, shared: seq<Option<Value>>, columns: seq<string>, includeSystem: bool,
                                includeLine: bool, pool: seq<string>, taxUuids: seq<string>)
    requires RowOk(row, shared, columns, includeSystem, includeLine, pool, taxUuids)
    requires Blanked(row, Keeps) && NameKey in columns && "" !in pool
    ensures Get(row, NameKey) == Some(Blank)
    ensures Get(row, IdKey) == Some(Blank) ==> includeLine
    ensures Get(row, IdKey) != Some(Blank) ==> includeSystem && IsStrIn(Get(row, IdKey), pool)
  {
    NameNotKept();
    BlankedCell(row, Keeps, NameKey);
  }

  // ---------------------------------------------------------------------------
  // The purchase invoice ids `generate_purchase_invoice_csv` returns

  /** `{row['purchase_invoice_id'] for row in rows if row.get('purchase_invoice_id')}`. */
  function CollectIds(rows: seq<Row>): set<Value>
    decreases |rows|
  {
    if rows == [] then {}
    else
      var v := Get(rows[|rows| - 1], "purchase_invoice_id");
      CollectIds(rows[..|rows| - 1]) + (if Truthy(v) then {v.value} else {})
  }

  /** A value is collected exactly when some row carries it as a truthy id. */
  lemma {:induction false} CollectIdsMeaning(rows: seq<Row>, v: Value)
    ensures v in CollectIds(rows) <==>
      exists i :: 0 <= i < |rows| && Get(rows[i], "purchase_invoice_id") == Some(v) && Truthy(Some(v))
    decreases |rows|
  {
    if rows != [] {
      var front := rows[..|rows| - 1];
      CollectIdsMeaning(front, v);
      if exists i :: 0 <= i < |rows| && Get(rows[i], "purchase_invoice_id") == Some(v) && Truthy(Some(v)) {
        var i :| 0 <= i < |rows| && Get(rows[i], "purchase_invoice_id") == Some(v) && Truthy(Some(v));
        if i < |front| {
          assert front[i] == rows[i];
        }
      }
      if exists i :: 0 <= i < |front| && Get(front[i], "purchase_invoice_id") == Some(v) && Truthy(Some(v)) {
        var i :| 0 <= i < |front| && Get(front[i], "purchase_invoice_id") == Some(v) && Truthy(Some(v));
        assert rows[i] == front[i];
      }
    }
  }

  lemma {:induction false} CollectIdsAppend(a: seq<Row>, b: seq<Row>)
    ensures CollectIds(a + b) == CollectIds(a) + CollectIds(b)
    decreases |b|
  {
    if b != [] {
      var front := b[..|b| - 1];
      assert (a + b)[..|a + b| - 1] == a + front;
      assert (a + b)[|a + b| - 1] == b[|b| - 1];
      CollectIdsAppend(a, front);
    } else {
      assert a + b == a;
    }
  }

  /** The rows of one purchase invoice contribute exactly its id. */
  lemma {:induction false} CollectGroup(g: seq<Row>, id: Value)
    requires g != [] && Truthy(Some(id))
    requires forall j :: 0 <= j < |g| ==> Get(g[j], "purchase_invoice_id") == Some(id)
    ensures CollectIds(g) == {id}
    decreases |g|
  {
    if |g| > 1 {
      CollectGroup(g[..|g| - 1], id);
    } else {
      assert g[..0] == [];
    }
  }

  /** The id of each purchase invoice, as its first row shows it. */
  function GroupIds(groups: seq<seq<Row>>): set<Value>
    decreases |groups|
  {
    if groups == [] then {}
    else
      var g := groups[|groups| - 1];
      GroupIds(groups[..|groups| - 1]) +
        (if g != [] && Get(g[0], "purchase_invoice_id").Some? then {Get(g[0], "purchase_invoice_id").value} else {})
  }

  /** No more ids than purchase invoices. */
  lemma {:induction false} GroupIdsBound(groups: seq<seq<Row>>)
    ensures |GroupIds(groups)| <= |groups|
    decreases |groups|
  {
    if groups != [] {
      GroupIdsBound(groups[..|groups| - 1]);
    }
  }

  /** Every row of a generated purchase invoice carries its id, which is non-empty. */
  lemma GroupRowsCarryId(g: seq<Row>, idx: nat, accountIds: seq<string>, defaultCurrency: string,
                         template: string, taxUuids: seq<string>, config: ItemConfig, pool: seq<string>,
                         lineAttrs: seq<AttrSpec>, piAttrs: seq<AttrSpec>)
    requires PurchaseInvoiceOk(g, idx, accountIds, defaultCurrency, template, taxUuids, config, pool,
                               lineAttrs, piAttrs)
    ensures var id := Get(g[0], "purchase_invoice_id");
      id.Some? && id.value.Str? && IsPurchaseInvoiceId(id.value.s) && Truthy(id) &&
      forall j :: 0 <= j < |g| ==> Get(g[j], "purchase_invoice_id") == id
  {
    var flags := EffectiveFlags(config);
    var columns := PurchaseInvoiceColumns(lineAttrs, piAttrs);
    forall j | 0 <= j < |g| ensures Get(g[j], "purchase_invoice_id") == Get(g[0], "purchase_invoice_id") {
      RowsOkAt(g, j, SharedCells(g[0]), columns, flags.0, flags.1, pool, taxUuids, lineAttrs);
      assert SharedCells(g[j])[0] == SharedCells(g[0])[0];
    }
  }

  /**
    The collected ids are the ids of the generated purchase invoices, one per
    purchase invoice (fewer when two random ids collide).
   */
  lemma {:induction false} CollectedIds(groups: seq<seq<Row>>, accountIds: seq<string>, defaultCurrency: string,
                                        template: string, taxUuids: seq<string>, config: ItemConfig,
                                        pool: seq<string>, lineAttrs: seq<AttrSpec>, piAttrs: seq<AttrSpec>)
    requires PurchaseInvoicesOk(groups, accountIds, defaultCurrency, template, taxUuids, config, pool,
                                lineAttrs, piAttrs)
    ensures CollectIds(Flatten(groups)) == GroupIds(groups)
    ensures |CollectIds(Flatten(groups))| <= |groups|
    ensures forall v :: v in CollectIds(Flatten(groups)) ==> v.Str? && IsPurchaseInvoiceId(v.s)
    decreases |groups|
  {
    if groups != [] {
      var front := groups[..|groups| - 1];
      var g := groups[|groups| - 1];
      CollectedIds(front, accountIds, defaultCurrency, template, taxUuids, config, pool, lineAttrs, piAttrs);
      GroupRowsCarryId(g, |groups| - 1, accountIds, defaultCurrency, template, taxUuids, config, pool,
                       lineAttrs, piAttrs);
      CollectGroup(g, Get(g[0], "purchase_invoice_id").value);
      CollectIdsAppend(Flatten(front), g);
    }
    GroupIdsBound(groups);
  }

  /**
    `generate_purchase_invoice_csv` without the file: the rows of `count`
    purchase invoices, then the set of their non-empty purchase invoice ids,
    which are exactly the ids of those purchase invoices.
   */
  method GeneratePurchaseInvoiceCsv(count: nat, accountIds: seq<string>, defaultCurrency: string,
                                    template: string, taxUuids: seq<string>, config: ItemConfig,
                                    lineAttrs: seq<AttrSpec>, piAttrs: seq<AttrSpec>)
    returns (result: Result<set<Value>>, ghost rows: seq<Row>, ghost groups: seq<seq<Row>>, ghost pool: seq<string>)
    requires AllPrefixed(lineAttrs, ItemAttrPrefix) && AllPrefixed(piAttrs, AttrPrefix)
    ensures result.Err? <==> forall i :: 0 <= i < |accountIds| ==> Strip(accountIds[i]) == ""
    ensures result.Ok? ==> rows == Flatten(groups) && |groups| == count
    ensures result.Ok? ==>
      PurchaseInvoicesOk(groups, accountIds, defaultCurrency, template, taxUuids, config, pool, lineAttrs, piAttrs)
    ensures result.Ok? && config.systemIds != [] ==> pool == config.systemIds
    ensures result.Ok? ==> result.value == CollectIds(rows) && result.value == GroupIds(groups)
    ensures result.Ok? ==> |result.value| <= count && forall v :: v in result.value ==> v.Str? && IsPurchaseInvoiceId(v.s)
  {
    var res, gs, p := GeneratePurchaseInvoiceRows(count, accountIds, defaultCurrency, template, taxUuids,
                                                  config, lineAttrs, piAttrs);
    rows, groups, pool := [], gs, p;
    if res.Err? {
      return Err(res.msg), rows, groups, pool;
    }
    var generated := res.value;
    rows := generated;
    CollectedIds(groups, accountIds, defaultCurrency, template, taxUuids, config, pool, lineAttrs, piAttrs);
    result := Ok(CollectIds(generated));
  }
}
