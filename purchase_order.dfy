/**
  `generate_purchase_order_rows`: every purchase order becomes one row per
  line item.  Each item row is a copy of a template row holding the purchase
  order columns and all line columns set to "".  A system item fills in only
  the line item id; a free-text item fills in every other line column and the
  line item attributes.  Every item row then gets freshly drawn purchase order
  attributes.  On every row after the first, all columns are blanked except
  the id, account, currency and the three dates, the `purchase_line_` columns
  and the line item attributes.
 */
module PurchaseOrder {
  import opened Rows
  import opened Text
  import opened CustomAttributes
  import opened AccountChoices
  import opened LineItems

  const HeaderPrefix: string := "purchase_order_"
  const LinePrefix: string := "purchase_line_"
  const AttrPrefix: string := "ca_purchase_order_attr_"
  const LineAttrPrefix: string := "ca_purchase_order_item_attr_"

  /** The purchase order columns of the template row, after `purchase_order_`, in dictionary order. */
  const HeaderNames: seq<string> := [
    "id", "origin", "currency", "issue_date", "due_date", "expected_completion_date",
    "price_tax_inclusive", "purchase_order_note", "account_id", "custom_form_template"]

  const HeaderKeys: seq<string> := Prefixed(HeaderPrefix, HeaderNames)

  /** The line columns of the template row, after `purchase_line_`, in dictionary order. */
  const LineNames: seq<string> := [
    "item_id", "item_name", "item_quantity", "item_price", "item_discount",
    "purchase_price_is_tax_inclusive", "item_purchase_tax_code", "item_purchase_tax_rate",
    "item_price_tax_exempt", "item_accounting_code", "purchase_line_note", "base_uom",
    "purchase_uom", "tax_inclusive_based_on", "discount_type", "rate_option", "charge_type",
    "item_warehouse_id"]

  const LineKeys: seq<string> := Prefixed(LinePrefix, LineNames)

  /** The columns of the template row. */
  const RowKeys: seq<string> := HeaderKeys + LineKeys

  // Positions in `HeaderKeys`.
  const IdCol: nat := 0
  const OriginCol: nat := 1
  const CurrencyCol: nat := 2
  const IssueCol: nat := 3
  const DueCol: nat := 4
  const ExpectedCol: nat := 5
  const TaxInclusiveCol: nat := 6
  const NoteCol: nat := 7
  const AccountCol: nat := 8
  const TemplateCol: nat := 9

  // Positions in `LineKeys`.
  const ItemIdCol: nat := 0
  const ItemNameCol: nat := 1
  const QuantityCol: nat := 2
  const PriceCol: nat := 3
  const DiscountCol: nat := 4
  const PriceTaxInclusiveCol: nat := 5
  const TaxCodeCol: nat := 6
  const TaxRateCol: nat := 7
  const TaxExemptCol: nat := 8
  const AccountingCol: nat := 9
  const LineNoteCol: nat := 10
  const BaseUomCol: nat := 11
  const PurchaseUomCol: nat := 12
  const BasedOnCol: nat := 13
  const DiscountTypeCol: nat := 14
  const RateOptionCol: nat := 15
  const ChargeTypeCol: nat := 16
  const WarehouseCol: nat := 17

  /** The purchase order columns a continuation row keeps. */
  const KeptKeys: seq<string> := [
    HeaderKeys[IdCol], HeaderKeys[AccountCol], HeaderKeys[CurrencyCol],
    HeaderKeys[IssueCol], HeaderKeys[DueCol], HeaderKeys[ExpectedCol]]

  /** The columns a continuation row keeps. */
  predicate Keeps(k: string) {
    k in KeptKeys || HasPrefix(k, LinePrefix) || HasPrefix(k, LineAttrPrefix)
  }

  const OrderNotes: seq<string> := [
    "Expedited delivery required", "Standard procurement terms apply", "Bulk purchase for Q1 inventory",
    "Urgent restock order", "Annual vendor contract renewal", "Special pricing negotiated",
    "Volume discount applied"]

  const LineNotes: seq<string> := [
    "Inspect upon delivery", "Store in cool, dry place", "Handle with care", "Quality check required",
    "Direct to warehouse", "Requires vendor certification"]

  /** `PURCHASE_LINE_ITEM_ACCOUNTING_CODES`. */
  const AccountingCodes: seq<string> := [
    "Account Payable", "Inventory", "Cost of Goods Sold", "Purchase Returns", "Raw Materials",
    "Operating Supplies", "Equipment Purchase", "Freight In"]

  const TaxCodes: seq<string> := ["GST", "VAT", "PST", "HST", "QST", "EXEMPT"]

  /** `UOM_CHOICES`. */
  const Uoms: seq<string> := ["EA", "BX", "CS", "PK", "KG", "LB", "L", "GAL", "M", "FT"]

  const BasedOnChoices: seq<string> := ["PRICE", "TOTAL", ""]

  const Adjectives: seq<string> := ["Premium", "Standard", "Bulk", "Industrial", "Commercial", "Quality", "Economy"]
  const Nouns: seq<string> := ["Material", "Component", "Supply", "Part", "Equipment", "Tool", "Resource"]

  /** `warehouse_config`: whether to assign warehouses, and which. */
  datatype WarehouseConfig = WarehouseConfig(useWarehouse: bool, warehouses: seq<string>)

  function HeaderCell(row: Row, j: nat): Option<Value>
    requires j < |HeaderKeys|
  {
    Get(row, HeaderKeys[j])
  }

  function LineCell(row: Row, j: nat): Option<Value>
    requires j < |LineKeys|
  {
    Get(row, LineKeys[j])
  }

  /** Two rows agree on every purchase order column. */
  predicate HeaderSame(row: Row, other: Row) {
    forall j :: 0 <= j < |HeaderKeys| ==> HeaderCell(row, j) == HeaderCell(other, j)
  }

  /** Two rows agree on every line column. */
  predicate LinesSame(row: Row, other: Row) {
    forall j :: 0 <= j < |LineKeys| ==> LineCell(row, j) == LineCell(other, j)
  }

  lemma SameTrans(a: Row, b: Row, c: Row)
    requires HeaderSame(a, b) && HeaderSame(b, c)
    requires LinesSame(a, b) && LinesSame(b, c)
    ensures HeaderSame(a, c) && LinesSame(a, c)
  {
  }

  /** The kept purchase order cells of a row, in `KeptKeys` order. */
  function KeptOf(row: Row): (kept: seq<Option<Value>>)
    ensures |kept| == |KeptKeys|
  {
    [HeaderCell(row, IdCol), HeaderCell(row, AccountCol), HeaderCell(row, CurrencyCol),
     HeaderCell(row, IssueCol), HeaderCell(row, DueCol), HeaderCell(row, ExpectedCol)]
  }

  // ---------------------------------------------------------------------------
  // Identifiers and names

  /** `CSV-PO-` followed by six digits. */
  predicate IsPurchaseOrderId(s: string) {
    |s| == 13 && HasPrefix(s, "CSV-PO-") && AllDigits(s[7..])
  }

  /** `generate_purchase_order_id`: `CSV-PO-` and the digits of a draw from 100000..999999. */
  function PurchaseOrderId(n: int): (id: string)
    requires 100000 <= n <= 999999
    ensures IsPurchaseOrderId(id)
  {
    Pow10Values();
    NumberedShape("CSV-PO-", n, 6);
    Numbered("CSV-PO-", n)
  }

  /** An adjective and a noun of the fixed lists, separated by a space. */
  ghost predicate IsLineItemName(s: string) {
    exists a, b :: 0 <= a < |Adjectives| && 0 <= b < |Nouns| && s == Adjectives[a] + " " + Nouns[b]
  }

  /** `generate_purchase_line_item_name`. */
  function LineItemName(a: nat, b: nat): (s: string)
    requires a < |Adjectives| && b < |Nouns|
    ensures IsLineItemName(s) && s != []
  {
    Adjectives[a] + " " + Nouns[b]
  }

  // ---------------------------------------------------------------------------
  // What the rows look like

  /** The purchase order id, the origin of purchase order `idx`, and an account choice with its currency. */
  predicate HeaderIdsOk(row: Row, idx: nat, choices: seq<Choice>) {
    var id := HeaderCell(row, IdCol);
    var account := HeaderCell(row, AccountCol);
    var currency := HeaderCell(row, CurrencyCol);
    id.Some? && id.value.Str? && IsPurchaseOrderId(id.value.s) &&
    HeaderCell(row, OriginCol) == Some(Str(ImportOrigin(idx))) &&
    account.Some? && currency.Some? && Choice(account.value, currency.value) in choices
  }

  /**
    Issue date within 30 days of today, due date 15 to 90 days after it,
    expected completion 0 to 60 days after it, "TRUE" or "FALSE" for
    tax-inclusive prices, a note of the fixed list and an empty form template.
   */
  predicate HeaderDatesOk(row: Row) {
    var issue := HeaderCell(row, IssueCol);
    var due := HeaderCell(row, DueCol);
    var expected := HeaderCell(row, ExpectedCol);
    issue.Some? && issue.value.Int? && -30 <= issue.value.i <= 30 &&
    due.Some? && due.value.Int? && issue.value.i + 15 <= due.value.i <= issue.value.i + 90 &&
    expected.Some? && expected.value.Int? && issue.value.i <= expected.value.i <= issue.value.i + 60 &&
    IsStrIn(HeaderCell(row, TaxInclusiveCol), ["TRUE", "FALSE"]) &&
    IsStrIn(HeaderCell(row, NoteCol), OrderNotes) &&
    HeaderCell(row, TemplateCol) == Some(Blank)
  }

  /** The purchase order columns of the first row of purchase order `idx`. */
  predicate HeaderOk(row: Row, idx: nat, choices: seq<Choice>) {
    HeaderIdsOk(row, idx, choices) && HeaderDatesOk(row)
  }

  /** A system item: the line item id is from the pool and every other line column keeps the template's "". */
  predicate SystemLine(row: Row, pool: seq<string>) {
    IsStrIn(LineCell(row, ItemIdCol), pool) &&
    forall j :: 1 <= j < |LineKeys| ==> LineCell(row, j) == Some(Blank)
  }

  /**
    A free-text item's name, quantity 1..100, price 10.00..5000.00, a discount
    of "" or 5.00..250.00, an accounting code and a note of the fixed lists.
   */
  ghost predicate FreeAmounts(row: Row) {
    var q := LineCell(row, QuantityCol);
    var p := LineCell(row, PriceCol);
    var d := LineCell(row, DiscountCol);
    var name := LineCell(row, ItemNameCol);
    name.Some? && name.value.Str? && IsLineItemName(name.value.s) &&
    q.Some? && q.value.Int? && 1 <= q.value.i <= 100 &&
    p.Some? && p.value.Int? && 1000 <= p.value.i <= 500000 &&
    (d == Some(Blank) || (d.Some? && d.value.Int? && 500 <= d.value.i <= 25000)) &&
    IsStrIn(LineCell(row, AccountingCol), AccountingCodes) &&
    IsStrIn(LineCell(row, LineNoteCol), LineNotes)
  }

  /** "TRUE"/"FALSE" tax-inclusive price, a tax code, a rate of 5.00..20.00, exempt "TRUE" or "", a based-on choice. */
  predicate FreeTax(row: Row) {
    var rate := LineCell(row, TaxRateCol);
    IsStrIn(LineCell(row, PriceTaxInclusiveCol), ["TRUE", "FALSE"]) &&
    IsStrIn(LineCell(row, TaxCodeCol), TaxCodes) &&
    rate.Some? && rate.value.Int? && 500 <= rate.value.i <= 2000 &&
    IsStrIn(LineCell(row, TaxExemptCol), ["TRUE", ""]) &&
    IsStrIn(LineCell(row, BasedOnCol), BasedOnChoices)
  }

  /** The warehouse cell: a configured warehouse when warehouses are on and listed, else "". */
  predicate WarehouseOk(v: Option<Value>, wh: WarehouseConfig) {
    if wh.useWarehouse && wh.warehouses != [] then IsStrIn(v, wh.warehouses) else v == Some(Blank)
  }

  /** Both units of measure from `UOM_CHOICES`, the three "FIXED" types, and the warehouse rule. */
  predicate FreeUnits(row: Row, wh: WarehouseConfig) {
    IsStrIn(LineCell(row, BaseUomCol), Uoms) &&
    IsStrIn(LineCell(row, PurchaseUomCol), Uoms) &&
    LineCell(row, DiscountTypeCol) == Some(Str("FIXED")) &&
    LineCell(row, RateOptionCol) == Some(Str("FIXED")) &&
    LineCell(row, ChargeTypeCol) == Some(Str("FIXED")) &&
    WarehouseOk(LineCell(row, WarehouseCol), wh)
  }

  /** A free-text item: an empty line item id and every other line column filled in. */
  ghost predicate FreeLine(row: Row, wh: WarehouseConfig) {
    LineCell(row, ItemIdCol) == Some(Blank) && FreeAmounts(row) && FreeTax(row) && FreeUnits(row, wh)
  }

  /** The columns of a system row: the template's, then the purchase order attributes. */
  function SystemColumns(poAttrs: seq<AttrSpec>): seq<string> {
    AddKeys(RowKeys, Columns(poAttrs))
  }

  /** The columns of a free-text row: the template's, the line item attributes, then the purchase order attributes. */
  function FreeColumns(lineAttrs: seq<AttrSpec>, poAttrs: seq<AttrSpec>): seq<string> {
    AddKeys(AddKeys(RowKeys, Columns(lineAttrs)), Columns(poAttrs))
  }

  /**
    A row is a system item (only when system items are on) without line item
    attribute columns, or a free-text item (only when line items are on)
    carrying the line item attributes.
   */
  ghost predicate LineKind(row: Row, includeSystem: bool, includeLine: bool, pool: seq<string>, wh: WarehouseConfig,
                           lineAttrs: seq<AttrSpec>, poAttrs: seq<AttrSpec>)
  {
    (includeSystem && SystemLine(row, pool) && Keys(row) == SystemColumns(poAttrs)) ||
    (includeLine && FreeLine(row, wh) && Keys(row) == FreeColumns(lineAttrs, poAttrs) &&
     AttrsOk(row, lineAttrs, Drawn(false)))
  }

  /** Facts about every row of a purchase order: the kept purchase order cells and its line. */
  ghost predicate RowOk(row: Row, kept: seq<Option<Value>>, includeSystem: bool, includeLine: bool,
                        pool: seq<string>, wh: WarehouseConfig, lineAttrs: seq<AttrSpec>, poAttrs: seq<AttrSpec>)
  {
    DistinctKeys(row) && KeptOf(row) == kept &&
    LineKind(row, includeSystem, includeLine, pool, wh, lineAttrs, poAttrs)
  }

  ghost predicate RowsOk(g: seq<Row>, kept: seq<Option<Value>>, includeSystem: bool, includeLine: bool,
                         pool: seq<string>, wh: WarehouseConfig, lineAttrs: seq<AttrSpec>, poAttrs: seq<AttrSpec>)
    decreases |g|
  {
    g == [] ||
    (RowsOk(g[..|g| - 1], kept, includeSystem, includeLine, pool, wh, lineAttrs, poAttrs) &&
     RowOk(g[|g| - 1], kept, includeSystem, includeLine, pool, wh, lineAttrs, poAttrs))
  }

  lemma {:induction false} RowsOkAt(g: seq<Row>, j: nat, kept: seq<Option<Value>>, includeSystem: bool,
                                    includeLine: bool, pool: seq<string>, wh: WarehouseConfig,
                                    lineAttrs: seq<AttrSpec>, poAttrs: seq<AttrSpec>)
    requires RowsOk(g, kept, includeSystem, includeLine, pool, wh, lineAttrs, poAttrs) && j < |g|
    ensures RowOk(g[j], kept, includeSystem, includeLine, pool, wh, lineAttrs, poAttrs)
    decreases |g|
  {
    if j < |g| - 1 {
      RowsOkAt(g[..|g| - 1], j, kept, includeSystem, includeLine, pool, wh, lineAttrs, poAttrs);
    }
  }

  /** Everything the generator promises about the rows of purchase order number `idx`. */
  ghost predicate GroupOk(g: seq<Row>, idx: nat, choices: seq<Choice>, config: ItemConfig, pool: seq<string>,
                          wh: WarehouseConfig, lineAttrs: seq<AttrSpec>, poAttrs: seq<AttrSpec>)
  {
    var flags := EffectiveFlags(config);
    var range := ItemRange(config.minItems, config.maxItems);
    range.0 <= |g| <= range.1 &&
    HeaderOk(g[0], idx, choices) && AttrsOk(g[0], poAttrs, Drawn(false)) &&
    RowsOk(g, KeptOf(g[0]), flags.0, flags.1, pool, wh, lineAttrs, poAttrs) &&
    ContinuationsBlanked(g, Keeps)
  }

  ghost predicate GroupsOk(groups: seq<seq<Row>>, choices: seq<Choice>, config: ItemConfig, pool: seq<string>,
                           wh: WarehouseConfig, lineAttrs: seq<AttrSpec>, poAttrs: seq<AttrSpec>)
    decreases |groups|
  {
    groups == [] ||
    (GroupsOk(groups[..|groups| - 1], choices, config, pool, wh, lineAttrs, poAttrs) &&
     GroupOk(groups[|groups| - 1], |groups| - 1, choices, config, pool, wh, lineAttrs, poAttrs))
  }

  lemma {:induction false} GroupsOkAt(groups: seq<seq<Row>>, j: nat, choices: seq<Choice>, config: ItemConfig,
                                      pool: seq<string>, wh: WarehouseConfig,
                                      lineAttrs: seq<AttrSpec>, poAttrs: seq<AttrSpec>)
    requires GroupsOk(groups, choices, config, pool, wh, lineAttrs, poAttrs) && j < |groups|
    ensures GroupOk(groups[j], j, choices, config, pool, wh, lineAttrs, poAttrs)
    decreases |groups|
  {
    if j < |groups| - 1 {
      GroupsOkAt(groups[..|groups| - 1], j, choices, config, pool, wh, lineAttrs, poAttrs);
    }
  }

  // ---------------------------------------------------------------------------
  // Facts about the fixed columns

  lemma HeaderNamesDistinct()
    ensures Distinct(HeaderNames)
  {
  }

  lemma LineNamesDistinct()
    ensures Distinct(LineNames)
  {
    LineBlockDistinct(0);
    LineBlockDistinct(6);
    LineBlockDistinct(12);
    LineBlocksDisjoint(0, 6);
    LineBlocksDisjoint(0, 12);
    LineBlocksDisjoint(6, 12);
  }

  /** The line column names six at a time: each block of six is free of repeats. */
  lemma LineBlockDistinct(lo: nat)
    requires lo in {0, 6, 12}
    ensures forall i, j :: lo <= i < j < lo + 6 ==> LineNames[i] != LineNames[j]
  {
  }

  /** No name of one block of six repeats in another. */
  lemma LineBlocksDisjoint(lo: nat, hi: nat)
    requires (lo, hi) in {(0, 6), (0, 12), (6, 12)}
    ensures forall i, j :: lo <= i < lo + 6 && hi <= j < hi + 6 ==> LineNames[i] != LineNames[j]
  {
  }

  /** A purchase order column is never a line column: they part at the tenth character. */
  lemma HeaderNotLine(i: nat, j: nat)
    requires i < |HeaderKeys| && j < |LineKeys|
    ensures HeaderKeys[i] != LineKeys[j]
  {
    PrefixedHasPrefix(HeaderPrefix, HeaderNames, i);
    PrefixedHasPrefix(LinePrefix, LineNames, j);
    PrefixesDiffer(HeaderKeys[i], LineKeys[j], HeaderPrefix, LinePrefix, 9);
  }

  lemma RowKeysDistinct()
    ensures |HeaderKeys| == 10 && |LineKeys| == 18 && |RowKeys| == 28
    ensures Distinct(HeaderKeys) && Distinct(LineKeys) && Distinct(RowKeys)
  {
    HeaderNamesDistinct();
    LineNamesDistinct();
    PrefixedDistinct(HeaderPrefix, HeaderNames);
    PrefixedDistinct(LinePrefix, LineNames);
    forall k | k in LineKeys ensures k !in HeaderKeys {
      var j :| 0 <= j < |LineKeys| && LineKeys[j] == k;
      forall i | 0 <= i < |HeaderKeys| ensures HeaderKeys[i] != k {
        HeaderNotLine(i, j);
      }
    }
    DistinctConcat(HeaderKeys, LineKeys);
  }

  /** Template columns start with `p`, attribute columns with `c`: no template column is an attribute column. */
  lemma TemplateNotAttr(attrs: seq<AttrSpec>, prefix: string, i: nat)
    requires AllPrefixed(attrs, prefix) && |prefix| > 0 && prefix[0] == 'c' && i < |RowKeys|
    ensures RowKeys[i] !in Columns(attrs)
  {
    RowKeysDistinct();
    var p := if i < 10 then HeaderPrefix else LinePrefix;
    if i < 10 {
      PrefixedHasPrefix(HeaderPrefix, HeaderNames, i);
    } else {
      assert RowKeys[i] == LineKeys[i - 10];
      PrefixedHasPrefix(LinePrefix, LineNames, i - 10);
    }
    forall a | 0 <= a < |attrs| ensures attrs[a].column != RowKeys[i] {
      PrefixesDiffer(RowKeys[i], attrs[a].column, p, prefix, 0);
    }
  }

  /** Line item attribute columns are never purchase order attribute columns: they part at character 18. */
  lemma LineAttrNotPoAttr(poAttrs: seq<AttrSpec>, k: string)
    requires AllPrefixed(poAttrs, AttrPrefix) && HasPrefix(k, LineAttrPrefix)
    ensures k !in Columns(poAttrs)
  {
    forall a | 0 <= a < |poAttrs| ensures poAttrs[a].column != k {
      PrefixesDiffer(poAttrs[a].column, k, AttrPrefix, LineAttrPrefix, 18);
    }
  }

  /** The template columns by position. */
  lemma RowKeysAt(j: nat)
    ensures j < 10 ==> RowKeys[j] == HeaderKeys[j]
    ensures 10 <= j < 28 ==> RowKeys[j] == LineKeys[j - 10]
  {
    RowKeysDistinct();
  }

  /** The purchase order columns of `row` read as `hv`. */
  predicate HeaderCellsAre(row: Row, hv: seq<Value>)
    requires |hv| == 10
  {
    forall j :: 0 <= j < 10 ==> HeaderCell(row, j) == Some(hv[j])
  }

  /** The line columns of `row` read as `lv`. */
  predicate LineCellsAre(row: Row, lv: seq<Value>)
    requires |lv| == 18
  {
    forall j :: 0 <= j < 18 ==> LineCell(row, j) == Some(lv[j])
  }

  /** A row spelled out from the template columns: distinct keys, and each column reads as its value. */
  lemma CellsOf(hv: seq<Value>, lv: seq<Value>)
    requires |hv| == 10 && |lv| == 18
    ensures var row := Dict(RowKeys, hv + lv);
      DistinctKeys(row) && Keys(row) == RowKeys && HeaderCellsAre(row, hv) && LineCellsAre(row, lv)
  {
    RowKeysDistinct();
    var vs := hv + lv;
    DictKeys(RowKeys, vs);
    forall j | 0 <= j < 10 ensures HeaderCell(Dict(RowKeys, vs), j) == Some(hv[j]) {
      RowKeysAt(j);
      DictGet(RowKeys, vs, j);
    }
    forall j | 0 <= j < 18 ensures LineCell(Dict(RowKeys, vs), j) == Some(lv[j]) {
      RowKeysAt(10 + j);
      DictGet(RowKeys, vs, 10 + j);
    }
  }

  /** Rows spelled out from the same purchase order values agree on the purchase order columns. */
  lemma SameHeader(hv: seq<Value>, lv: seq<Value>)
    requires |hv| == 10 && |lv| == 18
    ensures HeaderSame(Dict(RowKeys, hv + lv), Dict(RowKeys, hv + Blanks(18)))
  {
    CellsOf(hv, lv);
    CellsOf(hv, Blanks(18));
  }

  /** Assigning a line column of such a row replaces its value in place. */
  lemma LineSet(hv: seq<Value>, lv: seq<Value>, j: nat, v: Value)
    requires |hv| == 10 && |lv| == 18 && j < 18
    ensures Set(Dict(RowKeys, hv + lv), LineKeys[j], v) == Dict(RowKeys, hv + lv[j := v])
  {
    RowKeysDistinct();
    RowKeysAt(10 + j);
    DictSet(RowKeys, hv + lv, 10 + j, v);
    UpdateRight(hv, lv, j, v);
  }

  /**
    `update` of every line column after the item id, in column order: the
    values land in place.  (The source assigns these columns one statement at
    a time in a different order; since every one of them already exists and
    each is assigned once, the resulting row is the same.)
   */
  lemma FreeUpdate(hv: seq<Value>, fv: seq<Value>)
    requires |hv| == 10 && |fv| == 17
    ensures Update(Dict(RowKeys, hv + Blanks(18)), Dict(LineKeys[1..], fv)) == Dict(RowKeys, hv + ([Blank] + fv))
  {
    RowKeysDistinct();
    UpdateLineTail(HeaderKeys, LineKeys, hv, fv);
  }

  // ---------------------------------------------------------------------------
  // Frames

  lemma HeaderFrame(row: Row, r: Row, idx: nat, choices: seq<Choice>)
    requires HeaderSame(r, row)
    requires HeaderOk(row, idx, choices)
    ensures HeaderOk(r, idx, choices)
  {
    RowKeysDistinct();
    assert HeaderIdsOk(r, idx, choices) by {
      assert HeaderCell(r, IdCol) == HeaderCell(row, IdCol);
      assert HeaderCell(r, OriginCol) == HeaderCell(row, OriginCol);
      assert HeaderCell(r, AccountCol) == HeaderCell(row, AccountCol);
      assert HeaderCell(r, CurrencyCol) == HeaderCell(row, CurrencyCol);
    }
    assert HeaderCell(r, IssueCol) == HeaderCell(row, IssueCol);
    assert HeaderCell(r, DueCol) == HeaderCell(row, DueCol);
    assert HeaderCell(r, ExpectedCol) == HeaderCell(row, ExpectedCol);
    assert HeaderCell(r, TaxInclusiveCol) == HeaderCell(row, TaxInclusiveCol);
    assert HeaderCell(r, NoteCol) == HeaderCell(row, NoteCol);
    assert HeaderCell(r, TemplateCol) == HeaderCell(row, TemplateCol);
  }

  lemma KeptFromHeader(row: Row, r: Row)
    requires HeaderSame(r, row)
    ensures KeptOf(r) == KeptOf(row)
  {
  }

  lemma SystemFrame(row: Row, r: Row, pool: seq<string>)
    requires LinesSame(r, row)
    requires SystemLine(row, pool)
    ensures SystemLine(r, pool)
  {
  }

  lemma FreeFrame(row: Row, r: Row, wh: WarehouseConfig)
    requires LinesSame(r, row)
    requires FreeLine(row, wh)
    ensures FreeLine(r, wh)
  {
    RowKeysDistinct();
    assert FreeAmounts(r) by {
      assert LineCell(r, ItemNameCol) == LineCell(row, ItemNameCol);
      assert LineCell(r, QuantityCol) == LineCell(row, QuantityCol);
      assert LineCell(r, PriceCol) == LineCell(row, PriceCol);
      assert LineCell(r, DiscountCol) == LineCell(row, DiscountCol);
      assert LineCell(r, AccountingCol) == LineCell(row, AccountingCol);
      assert LineCell(r, LineNoteCol) == LineCell(row, LineNoteCol);
    }
    assert FreeTax(r) by {
      assert LineCell(r, PriceTaxInclusiveCol) == LineCell(row, PriceTaxInclusiveCol);
      assert LineCell(r, TaxCodeCol) == LineCell(row, TaxCodeCol);
      assert LineCell(r, TaxRateCol) == LineCell(row, TaxRateCol);
      assert LineCell(r, TaxExemptCol) == LineCell(row, TaxExemptCol);
      assert LineCell(r, BasedOnCol) == LineCell(row, BasedOnCol);
    }
    assert FreeUnits(r, wh) by {
      assert LineCell(r, BaseUomCol) == LineCell(row, BaseUomCol);
      assert LineCell(r, PurchaseUomCol) == LineCell(row, PurchaseUomCol);
      assert LineCell(r, DiscountTypeCol) == LineCell(row, DiscountTypeCol);
      assert LineCell(r, RateOptionCol) == LineCell(row, RateOptionCol);
      assert LineCell(r, ChargeTypeCol) == LineCell(row, ChargeTypeCol);
      assert LineCell(r, WarehouseCol) == LineCell(row, WarehouseCol);
    }
    assert LineCell(r, ItemIdCol) == LineCell(row, ItemIdCol);
  }

  // ---------------------------------------------------------------------------
  // Literals

  /** The values of the template's purchase order columns, in `HeaderKeys` order. */
  function HeaderValues(id: string, idx: nat, currency: Value, issue: int, due: int, expected: int,
                        taxInclusive: bool, note: string, accountId: Value): (hv: seq<Value>)
    ensures |hv| == 10
  {
    [Str(id), Str(ImportOrigin(idx)), currency, Int(issue), Int(due), Int(expected),
     Str(if taxInclusive then "TRUE" else "FALSE"), Str(note), accountId, Blank]
  }

  /** The template row, given values of the right shape, satisfies `HeaderOk`. */
  lemma HeaderLiteral(row: Row, id: string, idx: nat, currency: Value, issue: int, due: int, expected: int,
                      taxInclusive: bool, note: string, accountId: Value, choices: seq<Choice>)
    requires HeaderCellsAre(row, HeaderValues(id, idx, currency, issue, due, expected, taxInclusive, note, accountId))
    requires IsPurchaseOrderId(id) && Choice(accountId, currency) in choices
    requires -30 <= issue <= 30 && issue + 15 <= due <= issue + 90 && issue <= expected <= issue + 60
    requires note in OrderNotes
    ensures HeaderOk(row, idx, choices)
  {
    var hv := HeaderValues(id, idx, currency, issue, due, expected, taxInclusive, note, accountId);
    assert HeaderCell(row, IdCol) == Some(hv[0]);
    assert HeaderCell(row, OriginCol) == Some(hv[1]);
    assert HeaderCell(row, CurrencyCol) == Some(hv[2]);
    assert HeaderCell(row, IssueCol) == Some(hv[3]);
    assert HeaderCell(row, DueCol) == Some(hv[4]);
    assert HeaderCell(row, ExpectedCol) == Some(hv[5]);
    assert HeaderCell(row, TaxInclusiveCol) == Some(hv[6]);
    assert HeaderCell(row, NoteCol) == Some(hv[7]);
    assert HeaderCell(row, AccountCol) == Some(hv[8]);
    assert HeaderCell(row, TemplateCol) == Some(hv[9]);
  }

  /** The draws of a free-text item. */
  datatype LineDraw = LineDraw(
    name: string, quantity: int, price: int, discount: Value, taxInclusive: bool, taxCode: string,
    rate: int, exempt: bool, accounting: string, note: string, baseUom: string, purchaseUom: string,
    basedOn: string, warehouse: Value)

  /** The ranges of those draws. */
  ghost predicate DrawOk(d: LineDraw, wh: WarehouseConfig) {
    IsLineItemName(d.name) && 1 <= d.quantity <= 100 && 1000 <= d.price <= 500000 &&
    (d.discount == Blank || (d.discount.Int? && 500 <= d.discount.i <= 25000)) &&
    d.taxCode in TaxCodes && 500 <= d.rate <= 2000 && d.accounting in AccountingCodes &&
    d.note in LineNotes && d.baseUom in Uoms && d.purchaseUom in Uoms && d.basedOn in BasedOnChoices &&
    WarehouseOk(Some(d.warehouse), wh)
  }

  /** The values a free-text item assigns to the line columns after the item id, in column order. */
  function FreeValues(d: LineDraw): (fv: seq<Value>)
    ensures |fv| == 17
  {
    [Str(d.name), Int(d.quantity), Int(d.price), d.discount, Str(if d.taxInclusive then "TRUE" else "FALSE"),
     Str(d.taxCode), Int(d.rate), if d.exempt then Str("TRUE") else Blank, Str(d.accounting), Str(d.note),
     Str(d.baseUom), Str(d.purchaseUom), Str(d.basedOn), Str("FIXED"), Str("FIXED"), Str("FIXED"), d.warehouse]
  }

  /** The line cells of a row spelled out from a free-text item's draws. */
  lemma FreeCells(row: Row, d: LineDraw)
    requires LineCellsAre(row, [Blank] + FreeValues(d))
    ensures LineCell(row, ItemIdCol) == Some(Blank)
    ensures LineCell(row, ItemNameCol) == Some(Str(d.name))
    ensures LineCell(row, QuantityCol) == Some(Int(d.quantity))
    ensures LineCell(row, PriceCol) == Some(Int(d.price))
    ensures LineCell(row, DiscountCol) == Some(d.discount)
    ensures LineCell(row, PriceTaxInclusiveCol) == Some(Str(if d.taxInclusive then "TRUE" else "FALSE"))
    ensures LineCell(row, TaxCodeCol) == Some(Str(d.taxCode))
    ensures LineCell(row, TaxRateCol) == Some(Int(d.rate))
    ensures LineCell(row, TaxExemptCol) == Some(if d.exempt then Str("TRUE") else Blank)
    ensures LineCell(row, AccountingCol) == Some(Str(d.accounting))
    ensures LineCell(row, LineNoteCol) == Some(Str(d.note))
    ensures LineCell(row, BaseUomCol) == Some(Str(d.baseUom))
    ensures LineCell(row, PurchaseUomCol) == Some(Str(d.purchaseUom))
    ensures LineCell(row, BasedOnCol) == Some(Str(d.basedOn))
    ensures LineCell(row, DiscountTypeCol) == Some(Str("FIXED"))
    ensures LineCell(row, RateOptionCol) == Some(Str("FIXED"))
    ensures LineCell(row, ChargeTypeCol) == Some(Str("FIXED"))
    ensures LineCell(row, WarehouseCol) == Some(d.warehouse)
  {
    var lv := [Blank] + FreeValues(d);
    assert LineCell(row, 0) == Some(lv[0]) && LineCell(row, 1) == Some(lv[1]) && LineCell(row, 2) == Some(lv[2]);
    assert LineCell(row, 3) == Some(lv[3]) && LineCell(row, 4) == Some(lv[4]) && LineCell(row, 5) == Some(lv[5]);
    assert LineCell(row, 6) == Some(lv[6]) && LineCell(row, 7) == Some(lv[7]) && LineCell(row, 8) == Some(lv[8]);
    assert LineCell(row, 9) == Some(lv[9]) && LineCell(row, 10) == Some(lv[10]) && LineCell(row, 11) == Some(lv[11]);
    assert LineCell(row, 12) == Some(lv[12]) && LineCell(row, 13) == Some(lv[13]);
    assert LineCell(row, 14) == Some(lv[14]) && LineCell(row, 15) == Some(lv[15]);
    assert LineCell(row, 16) == Some(lv[16]) && LineCell(row, 17) == Some(lv[17]);
  }

  lemma FreeLiteral(row: Row, d: LineDraw, wh: WarehouseConfig)
    requires LineCellsAre(row, [Blank] + FreeValues(d)) && DrawOk(d, wh)
    ensures FreeLine(row, wh)
  {
    FreeCells(row, d);
    assert FreeAmounts(row);
    assert FreeTax(row);
    assert FreeUnits(row, wh);
  }

  lemma SystemLiteral(row: Row, id: string, pool: seq<string>)
    requires LineCellsAre(row, Blanks(18)[ItemIdCol := Str(id)]) && id in pool
    ensures SystemLine(row, pool)
  {
    var lv := Blanks(18)[ItemIdCol := Str(id)];
    assert LineCell(row, ItemIdCol) == Some(lv[0]);
    forall j | 1 <= j < |LineKeys| ensures LineCell(row, j) == Some(Blank) {
      RowKeysDistinct();
      assert LineCell(row, j) == Some(lv[j]);
    }
  }

  // ---------------------------------------------------------------------------
  // Generation

  /**
    The template row of purchase order number `idx`: an account choice, the
    dates, a fresh id, the import origin, the currency (the choice's, or the
    default), "TRUE" or "FALSE", a note, the account id, an empty form
    template and every line column "".
   */
  method PurchaseOrderTemplate(idx: nat, choices: seq<Choice>, accountRows: seq<Row>, accountIds: seq<string>,
                               defaultCurrency: string)
    returns (row: Row, ghost hv: seq<Value>)
    requires choices == Choices(accountRows, accountIds, defaultCurrency) && choices != []
    ensures |hv| == 10 && row == Dict(RowKeys, hv + Blanks(18))
    ensures HeaderOk(row, idx, choices)
  {
    var c :| 0 <= c < |choices|;
    var choice := choices[c];
    var issue :| -30 <= issue <= 30;
    var dueDays :| 15 <= dueDays <= 90;
    var expectedDays :| 0 <= expectedDays <= 60;
    var n :| 100000 <= n <= 999999;
    var id := PurchaseOrderId(n);
    ChoiceCurrency(accountRows, accountIds, defaultCurrency, c);
    var currency := CurrencyOr(choice.currency, defaultCurrency);
    var taxInclusive: bool :| true;
    var t :| 0 <= t < |OrderNotes|;
    var note := OrderNotes[t];
    var due, expected := issue + dueDays, issue + expectedDays;
    var values := HeaderValues(id, idx, currency, issue, due, expected, taxInclusive, note, choice.accountId);
    row := Dict(RowKeys, values + Blanks(18));
    hv := values;
    CellsOf(values, Blanks(18));
    assert Choice(choice.accountId, currency) == choice;
    HeaderLiteral(row, id, idx, currency, issue, due, expected, taxInclusive, note, choice.accountId, choices);
  }

  /** The draws of one free-text item, each from its documented range. */
  method DrawLine(wh: WarehouseConfig) returns (d: LineDraw)
    ensures DrawOk(d, wh)
  {
    var a :| 0 <= a < |Adjectives|;
    var b :| 0 <= b < |Nouns|;
    var name := LineItemName(a, b);
    var quantity :| 1 <= quantity <= 100;
    var price :| 1000 <= price <= 500000;
    var accountingIdx :| 0 <= accountingIdx < |AccountingCodes|;
    var accounting := AccountingCodes[accountingIdx];
    var noteIdx :| 0 <= noteIdx < |LineNotes|;
    var note := LineNotes[noteIdx];
    var discount := Blank;
    var discounted: bool :| true;
    if discounted {
      var amount :| 500 <= amount <= 25000;
      discount := Int(amount);
    }
    var taxInclusive: bool :| true;
    var taxCodeIdx :| 0 <= taxCodeIdx < |TaxCodes|;
    var taxCode := TaxCodes[taxCodeIdx];
    var rate :| 500 <= rate <= 2000;
    var exempt: bool :| true;
    var baseUomIdx :| 0 <= baseUomIdx < |Uoms|;
    var baseUom := Uoms[baseUomIdx];
    var u :| 0 <= u < |[baseUom] + Uoms|;
    var purchaseUom := ([baseUom] + Uoms)[u];
    var basedOnIdx :| 0 <= basedOnIdx < |BasedOnChoices|;
    var basedOn := BasedOnChoices[basedOnIdx];
    var warehouse := Blank;
    if wh.useWarehouse && wh.warehouses != [] {
      var w :| 0 <= w < |wh.warehouses|;
      warehouse := Str(wh.warehouses[w]);
    }
    d := LineDraw(name, quantity, price, discount, taxInclusive, taxCode, rate, exempt, accounting, note,
                  baseUom, purchaseUom, basedOn, warehouse);
  }

  /**
    The line columns of one item row: the copy of the template has its id,
    name and accounting code reset to "" (they already are), then a system
    item writes an identifier of the pool into the id, and a free-text item
    fills every other line column.  (The source's third branch, neither kind,
    cannot be reached once the include flags have been fixed up.)
   */
  method LineFields(template: Row, ghost hv: seq<Value>, isSystem: bool, pool: seq<string>, wh: WarehouseConfig)
    returns (item: Row)
    requires |hv| == 10 && template == Dict(RowKeys, hv + Blanks(18))
    requires isSystem ==> pool != []
    ensures DistinctKeys(item) && Keys(item) == RowKeys && HeaderSame(item, template)
    ensures isSystem ==> SystemLine(item, pool)
    ensures !isSystem ==> FreeLine(item, wh)
  {
    item := template;
    ResetKeeps(hv, ItemIdCol);
    item := Set(item, LineKeys[ItemIdCol], Blank);
    ResetKeeps(hv, ItemNameCol);
    item := Set(item, LineKeys[ItemNameCol], Blank);
    ResetKeeps(hv, AccountingCol);
    item := Set(item, LineKeys[AccountingCol], Blank);
    if isSystem {
      var p :| 0 <= p < |pool|;
      SystemFields(hv, pool[p], pool);
      item := Set(item, LineKeys[ItemIdCol], Str(pool[p]));
    } else {
      var d := DrawLine(wh);
      FreeFields(hv, d, wh);
      item := Update(item, Dict(LineKeys[1..], FreeValues(d)));
    }
  }

  /** Resetting a line column of the template to "" leaves it as it is. */
  lemma ResetKeeps(hv: seq<Value>, j: nat)
    requires |hv| == 10 && j < 18
    ensures Set(Dict(RowKeys, hv + Blanks(18)), LineKeys[j], Blank) == Dict(RowKeys, hv + Blanks(18))
  {
    LineSet(hv, Blanks(18), j, Blank);
    assert Blanks(18)[j := Blank] == Blanks(18);
  }

  /** The template with a system identifier in the line item id column. */
  lemma SystemFields(hv: seq<Value>, id: string, pool: seq<string>)
    requires |hv| == 10 && id in pool
    ensures var template := Dict(RowKeys, hv + Blanks(18));
      var item := Set(template, LineKeys[ItemIdCol], Str(id));
      DistinctKeys(item) && Keys(item) == RowKeys && HeaderSame(item, template) && SystemLine(item, pool)
  {
    var lv := Blanks(18)[ItemIdCol := Str(id)];
    LineSet(hv, Blanks(18), ItemIdCol, Str(id));
    CellsOf(hv, lv);
    SystemLiteral(Dict(RowKeys, hv + lv), id, pool);
    SameHeader(hv, lv);
  }

  /** The template with a free-text item's values in every line column after the id. */
  lemma FreeFields(hv: seq<Value>, d: LineDraw, wh: WarehouseConfig)
    requires |hv| == 10 && DrawOk(d, wh)
    ensures var template := Dict(RowKeys, hv + Blanks(18));
      var item := Update(template, Dict(LineKeys[1..], FreeValues(d)));
      DistinctKeys(item) && Keys(item) == RowKeys && HeaderSame(item, template) && FreeLine(item, wh)
  {
    var lv := [Blank] + FreeValues(d);
    FreeUpdate(hv, FreeValues(d));
    CellsOf(hv, lv);
    FreeLiteral(Dict(RowKeys, hv + lv), d, wh);
    SameHeader(hv, lv);
  }

  /** The template and line columns of a row read as in `fields` once attributes are written into it. */
  lemma AttrsKeepTemplate(fields: Row, item: Row, attrs: seq<AttrSpec>, prefix: string)
    requires AllPrefixed(attrs, prefix) && |prefix| > 0 && prefix[0] == 'c'
    requires forall k :: k !in Columns(attrs) ==> Get(item, k) == Get(fields, k)
    ensures HeaderSame(item, fields)
    ensures LinesSame(item, fields)
  {
    RowKeysDistinct();
    forall j | 0 <= j < |HeaderKeys| ensures HeaderCell(item, j) == HeaderCell(fields, j) {
      RowKeysAt(j);
      TemplateNotAttr(attrs, prefix, j);
    }
    forall j | 0 <= j < |LineKeys| ensures LineCell(item, j) == LineCell(fields, j) {
      RowKeysAt(10 + j);
      TemplateNotAttr(attrs, prefix, 10 + j);
    }
  }

  /** `for attr in line_item_custom_attributes`, on a free-text item: the template and line columns stay. */
  method LineItemAttrs(fields: Row, lineAttrs: seq<AttrSpec>) returns (withLine: Row)
    requires DistinctKeys(fields) && Keys(fields) == RowKeys && AllPrefixed(lineAttrs, LineAttrPrefix)
    ensures DistinctKeys(withLine) && Keys(withLine) == AddKeys(RowKeys, Columns(lineAttrs))
    ensures HeaderSame(withLine, fields) && LinesSame(withLine, fields)
    ensures AttrsOk(withLine, lineAttrs, Drawn(false))
  {
    withLine := ApplyRandomAttrs(fields, lineAttrs, Drawn(false));
    AttrsKeepTemplate(fields, withLine, lineAttrs, LineAttrPrefix);
  }

  /** Writing the purchase order attributes leaves the line item attributes as they were. */
  lemma PoAttrsKeepLineAttrs(withLine: Row, item: Row, lineAttrs: seq<AttrSpec>, poAttrs: seq<AttrSpec>)
    requires AllPrefixed(lineAttrs, LineAttrPrefix) && AllPrefixed(poAttrs, AttrPrefix)
    requires forall k :: k !in Columns(poAttrs) ==> Get(item, k) == Get(withLine, k)
    requires AttrsOk(withLine, lineAttrs, Drawn(false))
    ensures AttrsOk(item, lineAttrs, Drawn(false))
  {
    forall i | 0 <= i < |lineAttrs| ensures Get(item, lineAttrs[i].column) == Get(withLine, lineAttrs[i].column) {
      LineAttrNotPoAttr(poAttrs, lineAttrs[i].column);
    }
    AttrsFrame(withLine, item, lineAttrs, Drawn(false));
  }

  /**
    The item row before blanking: the line columns, the line item attributes
    on a free-text item only, then the purchase order attributes.
   */
  method FullItemRow(template: Row, ghost hv: seq<Value>, isSystem: bool, includeSystem: bool, includeLine: bool,
                     pool: seq<string>, wh: WarehouseConfig, lineAttrs: seq<AttrSpec>, poAttrs: seq<AttrSpec>)
    returns (item: Row)
    requires |hv| == 10 && template == Dict(RowKeys, hv + Blanks(18))
    requires isSystem ==> includeSystem && pool != []
    requires !isSystem ==> includeLine
    requires AllPrefixed(lineAttrs, LineAttrPrefix) && AllPrefixed(poAttrs, AttrPrefix)
    ensures DistinctKeys(item)
    ensures HeaderSame(item, template)
    ensures LineKind(item, includeSystem, includeLine, pool, wh, lineAttrs, poAttrs)
    ensures AttrsOk(item, poAttrs, Drawn(false))
  {
    var fields := LineFields(template, hv, isSystem, pool, wh);
    var withLine := fields;
    if !isSystem {
      withLine := LineItemAttrs(fields, lineAttrs);
    }
    item := ApplyRandomAttrs(withLine, poAttrs, Drawn(false));
    AttrsKeepTemplate(withLine, item, poAttrs, AttrPrefix);
    SameTrans(item, withLine, fields);
    if isSystem {
      SystemFrame(fields, item, pool);
    } else {
      FreeFrame(fields, item, wh);
      PoAttrsKeepLineAttrs(withLine, item, lineAttrs, poAttrs);
    }
  }

  /** `item` is `full` with every column outside the keep-set blanked. */
  predicate BlankedFrom(full: Row, item: Row) {
    DistinctKeys(full) && Keys(item) == Keys(full) && DistinctKeys(item) &&
    forall i :: 0 <= i < |full| ==> item[i].1 == if Keeps(full[i].0) then full[i].1 else Blank
  }

  lemma KeptBlanked(full: Row, item: Row)
    requires BlankedFrom(full, item)
    ensures KeptOf(item) == KeptOf(full)
  {
    BlankedGet(full, item, Keeps, HeaderKeys[IdCol]);
    BlankedGet(full, item, Keeps, HeaderKeys[AccountCol]);
    BlankedGet(full, item, Keeps, HeaderKeys[CurrencyCol]);
    BlankedGet(full, item, Keeps, HeaderKeys[IssueCol]);
    BlankedGet(full, item, Keeps, HeaderKeys[DueCol]);
    BlankedGet(full, item, Keeps, HeaderKeys[ExpectedCol]);
  }

  lemma LinesBlanked(full: Row, item: Row)
    requires BlankedFrom(full, item)
    ensures LinesSame(item, full)
  {
    forall j | 0 <= j < |LineKeys| ensures LineCell(item, j) == LineCell(full, j) {
      PrefixedHasPrefix(LinePrefix, LineNames, j);
      BlankedGet(full, item, Keeps, LineKeys[j]);
    }
  }

  lemma LineAttrsBlanked(full: Row, item: Row, lineAttrs: seq<AttrSpec>)
    requires BlankedFrom(full, item) && AllPrefixed(lineAttrs, LineAttrPrefix)
    requires AttrsOk(full, lineAttrs, Drawn(false))
    ensures AttrsOk(item, lineAttrs, Drawn(false))
  {
    forall i | 0 <= i < |lineAttrs| ensures Get(item, lineAttrs[i].column) == Get(full, lineAttrs[i].column) {
      BlankedGet(full, item, Keeps, lineAttrs[i].column);
    }
    AttrsFrame(full, item, lineAttrs, Drawn(false));
  }

  /** A blanked item row keeps the kept purchase order cells, the line columns and the line item attributes. */
  lemma ContinuationRow(full: Row, item: Row, includeSystem: bool, includeLine: bool, pool: seq<string>,
                        wh: WarehouseConfig, lineAttrs: seq<AttrSpec>, poAttrs: seq<AttrSpec>)
    requires BlankedFrom(full, item) && AllPrefixed(lineAttrs, LineAttrPrefix)
    requires LineKind(full, includeSystem, includeLine, pool, wh, lineAttrs, poAttrs)
    ensures KeptOf(item) == KeptOf(full)
    ensures LineKind(item, includeSystem, includeLine, pool, wh, lineAttrs, poAttrs)
  {
    KeptBlanked(full, item);
    LinesBlanked(full, item);
    if includeSystem && SystemLine(full, pool) && Keys(full) == SystemColumns(poAttrs) {
      SystemFrame(full, item, pool);
    } else {
      FreeFrame(full, item, wh);
      LineAttrsBlanked(full, item, lineAttrs);
    }
  }

  /**
    One pass of the item loop: copy the template, decide system or free-text,
    assign the line columns and the attributes, and blank a continuation row.
   */
  method PurchaseOrderItemRow(template: Row, ghost hv: seq<Value>, itemIdx: nat, includeSystem: bool,
                              includeLine: bool, pool: seq<string>, wh: WarehouseConfig,
                              lineAttrs: seq<AttrSpec>, poAttrs: seq<AttrSpec>)
    returns (item: Row)
    requires |hv| == 10 && template == Dict(RowKeys, hv + Blanks(18))
    requires includeSystem || includeLine
    requires includeSystem ==> pool != []
    requires AllPrefixed(lineAttrs, LineAttrPrefix) && AllPrefixed(poAttrs, AttrPrefix)
    ensures RowOk(item, KeptOf(template), includeSystem, includeLine, pool, wh, lineAttrs, poAttrs)
    ensures itemIdx == 0 ==> AttrsOk(item, poAttrs, Drawn(false))
    ensures itemIdx == 0 ==> HeaderSame(item, template)
    ensures itemIdx > 0 ==> Blanked(item, Keeps)
  {
    var coin: bool :| true;
    var isSystem := IsSystemItem(includeSystem, includeLine, coin);
    item := FullItemRow(template, hv, isSystem, includeSystem, includeLine, pool, wh, lineAttrs, poAttrs);
    KeptFromHeader(template, item);
    if itemIdx > 0 {
      var full := item;
      item := BlankContinuation(full, Keeps);
      ContinuationRow(full, item, includeSystem, includeLine, pool, wh, lineAttrs, poAttrs);
    }
  }

  /** The state of the item loop: the rows so far, and the first one carrying the template's purchase order cells. */
  ghost predicate ItemsSoFar(g: seq<Row>, template: Row, includeSystem: bool, includeLine: bool, pool: seq<string>,
                             wh: WarehouseConfig, lineAttrs: seq<AttrSpec>, poAttrs: seq<AttrSpec>)
  {
    RowsOk(g, KeptOf(template), includeSystem, includeLine, pool, wh, lineAttrs, poAttrs) &&
    ContinuationsBlanked(g, Keeps) &&
    (g != [] ==> AttrsOk(g[0], poAttrs, Drawn(false)) && HeaderSame(g[0], template))
  }

  lemma ItemsSnoc(g: seq<Row>, item: Row, template: Row, includeSystem: bool, includeLine: bool,
                  pool: seq<string>, wh: WarehouseConfig, lineAttrs: seq<AttrSpec>, poAttrs: seq<AttrSpec>)
    requires ItemsSoFar(g, template, includeSystem, includeLine, pool, wh, lineAttrs, poAttrs)
    requires RowOk(item, KeptOf(template), includeSystem, includeLine, pool, wh, lineAttrs, poAttrs)
    requires g == [] ==> AttrsOk(item, poAttrs, Drawn(false)) && HeaderSame(item, template)
    requires g != [] ==> Blanked(item, Keeps)
    ensures ItemsSoFar(g + [item], template, includeSystem, includeLine, pool, wh, lineAttrs, poAttrs)
  {
    assert (g + [item])[..|g|] == g;
    assert (g + [item])[0] == if g == [] then item else g[0];
    ContinuationsSnoc(g, Keeps, item);
  }

  /** The rows of one purchase order, once the item loop is done, satisfy `GroupOk`. */
  lemma GroupDone(g: seq<Row>, template: Row, idx: nat, choices: seq<Choice>, config: ItemConfig,
                  pool: seq<string>, wh: WarehouseConfig, lineAttrs: seq<AttrSpec>, poAttrs: seq<AttrSpec>)
    requires var range := ItemRange(config.minItems, config.maxItems); range.0 <= |g| <= range.1
    requires HeaderOk(template, idx, choices)
    requires var flags := EffectiveFlags(config);
      ItemsSoFar(g, template, flags.0, flags.1, pool, wh, lineAttrs, poAttrs)
    ensures GroupOk(g, idx, choices, config, pool, wh, lineAttrs, poAttrs)
  {
    HeaderFrame(template, g[0], idx, choices);
    KeptFromHeader(template, g[0]);
  }

  /**
    The rows of purchase order number `idx`: the template, then between
    `max(1, min)` and `max(min, max)` item rows built from copies of it.
   */
  method PurchaseOrderGroup(idx: nat, choices: seq<Choice>, accountRows: seq<Row>, accountIds: seq<string>,
                            defaultCurrency: string, config: ItemConfig, pool: seq<string>, wh: WarehouseConfig,
                            lineAttrs: seq<AttrSpec>, poAttrs: seq<AttrSpec>)
    returns (g: seq<Row>)
    requires choices == Choices(accountRows, accountIds, defaultCurrency) && choices != []
    requires config.includeSystem ==> pool != []
    requires AllPrefixed(lineAttrs, LineAttrPrefix) && AllPrefixed(poAttrs, AttrPrefix)
    ensures GroupOk(g, idx, choices, config, pool, wh, lineAttrs, poAttrs)
  {
    var flags := EffectiveFlags(config);
    var template, hv := PurchaseOrderTemplate(idx, choices, accountRows, accountIds, defaultCurrency);
    var range := ItemRange(config.minItems, config.maxItems);
    var total :| range.0 <= total <= range.1;
    g := [];
    var itemIdx := 0;
    while itemIdx < total
      invariant 0 <= itemIdx <= total && |g| == itemIdx
      invariant ItemsSoFar(g, template, flags.0, flags.1, pool, wh, lineAttrs, poAttrs)
    {
      var item := PurchaseOrderItemRow(template, hv, itemIdx, flags.0, flags.1, pool, wh, lineAttrs, poAttrs);
      ItemsSnoc(g, item, template, flags.0, flags.1, pool, wh, lineAttrs, poAttrs);
      g := g + [item];
      itemIdx := itemIdx + 1;
    }
    GroupDone(g, template, idx, choices, config, pool, wh, lineAttrs, poAttrs);
  }

  lemma GroupsSnoc(groups: seq<seq<Row>>, g: seq<Row>, choices: seq<Choice>, config: ItemConfig,
                   pool: seq<string>, wh: WarehouseConfig, lineAttrs: seq<AttrSpec>, poAttrs: seq<AttrSpec>)
    requires GroupsOk(groups, choices, config, pool, wh, lineAttrs, poAttrs)
    requires GroupOk(g, |groups|, choices, config, pool, wh, lineAttrs, poAttrs)
    ensures GroupsOk(groups + [g], choices, config, pool, wh, lineAttrs, poAttrs)
    ensures Flatten(groups + [g]) == Flatten(groups) + g
  {
    assert (groups + [g])[..|groups|] == groups;
  }

  /** The outer loop of `generate_purchase_order_rows`: `count` purchase orders, appended one after another. */
  method PurchaseOrderLoop(count: nat, choices: seq<Choice>, accountRows: seq<Row>, accountIds: seq<string>,
                           defaultCurrency: string, config: ItemConfig, pool: seq<string>, wh: WarehouseConfig,
                           lineAttrs: seq<AttrSpec>, poAttrs: seq<AttrSpec>)
    returns (rows: seq<Row>, ghost groups: seq<seq<Row>>)
    requires choices == Choices(accountRows, accountIds, defaultCurrency) && choices != []
    requires config.includeSystem ==> pool != []
    requires AllPrefixed(lineAttrs, LineAttrPrefix) && AllPrefixed(poAttrs, AttrPrefix)
    ensures rows == Flatten(groups) && |groups| == count
    ensures GroupsOk(groups, choices, config, pool, wh, lineAttrs, poAttrs)
    ensures var range := ItemRange(config.minItems, config.maxItems);
      count * range.0 <= |rows| <= count * range.1
  {
    rows, groups := [], [];
    var idx := 0;
    while idx < count
      invariant 0 <= idx <= count && |groups| == idx
      invariant rows == Flatten(groups)
      invariant GroupsOk(groups, choices, config, pool, wh, lineAttrs, poAttrs)
    {
      var g := PurchaseOrderGroup(idx, choices, accountRows, accountIds, defaultCurrency, config, pool, wh,
                                  lineAttrs, poAttrs);
      GroupsSnoc(groups, g, choices, config, pool, wh, lineAttrs, poAttrs);
      rows := rows + g;
      groups := groups + [g];
      idx := idx + 1;
    }
    var range := ItemRange(config.minItems, config.maxItems);
    forall j | 0 <= j < |groups| ensures range.0 <= |groups[j]| <= range.1 {
      GroupsOkAt(groups, j, choices, config, pool, wh, lineAttrs, poAttrs);
    }
    FlattenBounds(groups, range.0, range.1);
  }

  /**
    `generate_purchase_order_rows`: fails when neither the account rows nor
    the id list yield an account; otherwise produces `count` purchase orders,
    their rows appended one purchase order after another.
   */
  method GeneratePurchaseOrderRows(count: nat, accountRows: seq<Row>, accountIds: seq<string>,
                                   defaultCurrency: string, wh: WarehouseConfig, config: ItemConfig,
                                   lineAttrs: seq<AttrSpec>, poAttrs: seq<AttrSpec>)
    returns (result: Result<seq<Row>>, ghost groups: seq<seq<Row>>, pool: seq<string>)
    requires AllPrefixed(lineAttrs, LineAttrPrefix) && AllPrefixed(poAttrs, AttrPrefix)
    ensures result.Err? <==> Choices(accountRows, accountIds, defaultCurrency) == []
    ensures result.Err? <==>
      if accountRows != [] then forall j :: 0 <= j < |accountRows| ==> !Truthy(Get(accountRows[j], "account_id"))
      else forall i :: 0 <= i < |accountIds| ==> Strip(accountIds[i]) == ""
    ensures result.Ok? ==> result.value == Flatten(groups) && |groups| == count
    ensures result.Ok? ==>
      var range := ItemRange(config.minItems, config.maxItems);
      count * range.0 <= |result.value| <= count * range.1
    ensures result.Ok? && config.systemIds != [] ==> pool == config.systemIds
    ensures result.Ok? && config.systemIds == [] && config.includeSystem ==>
      |pool| == 5 && forall i :: 0 <= i < 5 ==> IsFallbackItemId(pool[i])
    ensures result.Ok? ==>
      GroupsOk(groups, Choices(accountRows, accountIds, defaultCurrency), config, pool, wh, lineAttrs, poAttrs)
  {
    var choices := DeriveFromRowsOrIds(accountRows, accountIds, defaultCurrency);
    groups := [];
    if choices == [] {
      pool := [];
      return Err("No account IDs available to associate with purchase orders."), groups, pool;
    }
    pool := ItemPool(config);
    var rows;
    rows, groups := PurchaseOrderLoop(count, choices, accountRows, accountIds, defaultCurrency, config, pool, wh,
                                      lineAttrs, poAttrs);
    result := Ok(rows);
  }

  // ---------------------------------------------------------------------------
  // What every purchase order's rows satisfy

  /**
    Every row of a purchase order carries the first row's id, account,
    currency and dates: the due date 15 to 90 days after the issue date and
    the expected completion no earlier than the issue date.
   */
  lemma RowDates(g: seq<Row>, j: nat, idx: nat, choices: seq<Choice>, config: ItemConfig, pool: seq<string>,
                 wh: WarehouseConfig, lineAttrs: seq<AttrSpec>, poAttrs: seq<AttrSpec>)
    requires GroupOk(g, idx, choices, config, pool, wh, lineAttrs, poAttrs) && j < |g|
    ensures HeaderCell(g[j], IdCol) == HeaderCell(g[0], IdCol)
    ensures HeaderCell(g[j], AccountCol) == HeaderCell(g[0], AccountCol)
    ensures var account, currency := HeaderCell(g[j], AccountCol), HeaderCell(g[j], CurrencyCol);
      account.Some? && currency.Some? && Choice(account.value, currency.value) in choices
    ensures var issue, due, expected :=
        HeaderCell(g[j], IssueCol), HeaderCell(g[j], DueCol), HeaderCell(g[j], ExpectedCol);
      issue.Some? && issue.value.Int? && due.Some? && due.value.Int? && expected.Some? && expected.value.Int? &&
      issue.value.i + 15 <= due.value.i && issue.value.i <= expected.value.i
  {
    var flags := EffectiveFlags(config);
    RowsOkAt(g, j, KeptOf(g[0]), flags.0, flags.1, pool, wh, lineAttrs, poAttrs);
    RowKeysDistinct();
    assert KeptOf(g[j])[0] == KeptOf(g[0])[0] && KeptOf(g[j])[1] == KeptOf(g[0])[1];
    assert KeptOf(g[j])[2] == KeptOf(g[0])[2] && KeptOf(g[j])[3] == KeptOf(g[0])[3];
    assert KeptOf(g[j])[4] == KeptOf(g[0])[4] && KeptOf(g[j])[5] == KeptOf(g[0])[5];
  }

  /** The purchase order columns that are not kept. */
  predicate Dropped(j: nat) {
    j == OriginCol || j == TaxInclusiveCol || j == NoteCol || j == TemplateCol
  }

  lemma DroppedNotKept(j: nat)
    requires j < |HeaderKeys| && Dropped(j)
    ensures !Keeps(HeaderKeys[j])
  {
    var k := HeaderKeys[j];
    assert k !in KeptKeys by {
      HeaderKeysDistinct();
      assert forall i :: 0 <= i < |KeptKeys| ==> KeptKeys[i] != k;
    }
    assert !HasPrefix(k, LinePrefix) && !HasPrefix(k, LineAttrPrefix) by {
      PrefixedHasPrefix(HeaderPrefix, HeaderNames, j);
      if HasPrefix(k, LinePrefix) {
        PrefixesDiffer(k, k, HeaderPrefix, LinePrefix, 9);
      }
      if HasPrefix(k, LineAttrPrefix) {
        PrefixesDiffer(k, k, HeaderPrefix, LineAttrPrefix, 0);
      }
    }
  }

  lemma HeaderKeysDistinct()
    ensures |HeaderKeys| == 10 && Distinct(HeaderKeys)
  {
    HeaderNamesDistinct();
    PrefixedDistinct(HeaderPrefix, HeaderNames);
  }

  /**
    On every row after the first, the origin, the tax-inclusive flag, the
    note and the form template are "", and so is every purchase order
    attribute column.
   */
  lemma ContinuationBlanks(g: seq<Row>, j: nat, idx: nat, choices: seq<Choice>, config: ItemConfig,
                           pool: seq<string>, wh: WarehouseConfig, lineAttrs: seq<AttrSpec>, poAttrs: seq<AttrSpec>)
    requires GroupOk(g, idx, choices, config, pool, wh, lineAttrs, poAttrs) && 0 < j < |g|
    requires AllPrefixed(poAttrs, AttrPrefix)
    ensures forall c :: 0 <= c < |HeaderKeys| && Dropped(c) ==> HeaderCell(g[j], c) == Some(Blank)
    ensures forall a :: 0 <= a < |poAttrs| ==> Get(g[j], poAttrs[a].column) == Some(Blank)
  {
    var flags := EffectiveFlags(config);
    RowsOkAt(g, j, KeptOf(g[0]), flags.0, flags.1, pool, wh, lineAttrs, poAttrs);
    ContinuationsBlankedAt(g, Keeps, j);
    var row := g[j];
    RowColumns(row, flags.0, flags.1, pool, wh, lineAttrs, poAttrs);
    forall c | 0 <= c < |HeaderKeys| && Dropped(c) ensures HeaderCell(row, c) == Some(Blank) {
      RowKeysAt(c);
      DroppedNotKept(c);
      BlankedCell(row, Keeps, HeaderKeys[c]);
    }
    forall a | 0 <= a < |poAttrs| ensures Get(row, poAttrs[a].column) == Some(Blank) {
      PoAttrNotKept(poAttrs[a].column);
      BlankedCell(row, Keeps, poAttrs[a].column);
    }
  }

  /** Every row carries the template columns and the purchase order attribute columns. */
  lemma RowColumns(row: Row, includeSystem: bool, includeLine: bool, pool: seq<string>, wh: WarehouseConfig,
                   lineAttrs: seq<AttrSpec>, poAttrs: seq<AttrSpec>)
    requires LineKind(row, includeSystem, includeLine, pool, wh, lineAttrs, poAttrs)
    ensures forall c :: 0 <= c < |RowKeys| ==> RowKeys[c] in Keys(row)
    ensures forall a :: 0 <= a < |poAttrs| ==> poAttrs[a].column in Keys(row)
  {
    var cols := Keys(row);
    assert cols == SystemColumns(poAttrs) || cols == FreeColumns(lineAttrs, poAttrs);
    var inner := AddKeys(RowKeys, Columns(lineAttrs));
    forall c | 0 <= c < |RowKeys| ensures RowKeys[c] in cols {
      AddKeysKeeps(RowKeys, Columns(poAttrs), RowKeys[c]);
      AddKeysKeeps(RowKeys, Columns(lineAttrs), RowKeys[c]);
      AddKeysKeeps(inner, Columns(poAttrs), RowKeys[c]);
    }
    forall a | 0 <= a < |poAttrs| ensures poAttrs[a].column in cols {
      AddKeysHas(RowKeys, Columns(poAttrs), a);
      AddKeysHas(inner, Columns(poAttrs), a);
    }
  }

  /** Continuation rows keep no purchase order attribute column. */
  lemma PoAttrNotKept(k: string)
    requires HasPrefix(k, AttrPrefix)
    ensures !Keeps(k)
  {
    assert !HasPrefix(k, LinePrefix) by {
      if HasPrefix(k, LinePrefix) {
        PrefixesDiffer(k, k, AttrPrefix, LinePrefix, 0);
      }
    }
    assert !HasPrefix(k, LineAttrPrefix) by {
      if HasPrefix(k, LineAttrPrefix) {
        PrefixesDiffer(k, k, AttrPrefix, LineAttrPrefix, 18);
      }
    }
    forall i | 0 <= i < |HeaderKeys| ensures HeaderKeys[i] != k {
      PrefixedHasPrefix(HeaderPrefix, HeaderNames, i);
      PrefixesDiffer(HeaderKeys[i], k, HeaderPrefix, AttrPrefix, 0);
    }
  }

  /** A non-empty warehouse cell on a free-text row means warehouses are on, and it names one of them. */
  lemma WarehouseOnlyWhenOn(row: Row, wh: WarehouseConfig)
    requires FreeLine(row, wh) && LineCell(row, WarehouseCol) != Some(Blank)
    ensures wh.useWarehouse && wh.warehouses != [] && IsStrIn(LineCell(row, WarehouseCol), wh.warehouses)
  {
  }

  /**
    A row carrying any line item attribute column is a free-text row, with
    line items on, whose line item attributes are plausible; system rows carry
    only the template and purchase order attribute columns.
   */
  lemma LineAttrsOnlyOnFreeRows(row: Row, kept: seq<Option<Value>>, includeSystem: bool, includeLine: bool,
                                pool: seq<string>, wh: WarehouseConfig, lineAttrs: seq<AttrSpec>,
                                poAttrs: seq<AttrSpec>, a: nat)
    requires RowOk(row, kept, includeSystem, includeLine, pool, wh, lineAttrs, poAttrs)
    requires AllPrefixed(lineAttrs, LineAttrPrefix) && AllPrefixed(poAttrs, AttrPrefix)
    requires a < |lineAttrs| && lineAttrs[a].column in Keys(row)
    ensures includeLine && FreeLine(row, wh) && AttrsOk(row, lineAttrs, Drawn(false))
  {
    var k := lineAttrs[a].column;
    if Keys(row) == SystemColumns(poAttrs) {
      AddKeysOnly(RowKeys, Columns(poAttrs), k);
      LineAttrNotTemplate(k);
      LineAttrNotPoAttr(poAttrs, k);
      assert false;
    }
  }

  /** No template column starts like a line item attribute column. */
  lemma LineAttrNotTemplate(k: string)
    requires HasPrefix(k, LineAttrPrefix)
    ensures k !in RowKeys
  {
    RowKeysDistinct();
    forall i | 0 <= i < |RowKeys| ensures RowKeys[i] != k {
      var p := if i < 10 then HeaderPrefix else LinePrefix;
      if i < 10 {
        PrefixedHasPrefix(HeaderPrefix, HeaderNames, i);
      } else {
        RowKeysAt(i);
        PrefixedHasPrefix(LinePrefix, LineNames, i - 10);
      }
      PrefixesDiffer(RowKeys[i], k, p, LineAttrPrefix, 0);
    }
  }
}
