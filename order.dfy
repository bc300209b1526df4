/**
  The order generator: exactly one row per order.  Each row carries the order
  columns, then the two system item columns when system items are on (the
  one matching the identifier type holds an identifier from the pool, the
  other is blank), then the line item columns and line item custom attributes
  when line items are on, then the order custom attributes.
 */
module Order {
  import opened Rows
  import opened Text
  import opened CustomAttributes
  import opened AccountChoices
  import opened LineItems

  const IdPrefix := "CSV-ORD-"
  const AttrPrefix := "ca_order_attr_"
  const LineAttrPrefix := "ca_order_line_item_attr_"
  const LinePrefix := "line_item_"
  const CodeKey := "system_item_code"
  const UuidKey := "system_item_uuid"

  /** The columns of the row literal, in order. */
  const OrderKeys: seq<string> := [
    "order_id", "order_name", "order_display_name", "order_description",
    "order_invoice_note", "order_currency", "order_account_id"]

  /** The line item columns, in the order they are assigned. */
  const LineKeys: seq<string> := [
    "line_item_uuid", "line_item_id", "line_item_name", "line_item_order_quantity",
    "line_item_invoice_note", "line_item_description", "line_item_price_snapshot_price",
    "line_item_discount_type", "line_item_discount", "line_item_tax_exempt"]

  const NamePrefixes: seq<string> := ["Wholesale", "Retail", "Subscription", "Enterprise", "Priority", "Express"]
  const NameDescriptors: seq<string> := ["Bundle", "Plan", "Package", "Order", "Shipment", "Service"]

  const Descriptions: seq<string> := [
    "Monthly recurring subscription order", "One-off purchase for enterprise client",
    "Annual wholesale plan renewal", "Quarterly shipment for retail partner",
    "Custom implementation work order", "Expedited service engagement", "Pilot program enrollment"]

  const InvoiceNotes: seq<string> := [
    "Invoice includes expedited fulfillment.", "Ensure payment per standard net terms.",
    "Apply loyalty discount if eligible.", "Reference PO provided by customer.",
    "Contact finance for billing adjustments."]

  const ItemAdjectives: seq<string> := ["Premium", "Deluxe", "Standard", "Basic", "Ultimate", "Eco", "Smart"]
  const ItemNouns: seq<string> := ["Subscription", "Package", "Bundle", "Service", "Addon", "Module", "Plan"]

  const ItemNotes: seq<string> := [
    "Includes onboarding and provisioning.", "Apply standard billing terms.",
    "Priority delivery requested by client.", "Requires monthly reconciliation.",
    "Coordinate with fulfillment team."]

  const TaxChoices: seq<string> := ["TRUE", "FALSE", ""]

  const CodePrefix := "SYS-CODE-"
  const UuidPrefix := "00000000-0000-0000-0000-"

  // ---------------------------------------------------------------------------
  // The system identifier pool

  /** `system_identifier_type`, lower-cased; anything but "uuid" or "code" becomes "uuid". */
  function IdentifierType(raw: string): (t: string)
    ensures t == "uuid" || t == "code"
    ensures t == "code" <==> Lower(raw) == "code"
  {
    var t := Lower(raw);
    if t == "uuid" || t == "code" then t else "uuid"
  }

  /** A fallback code: `SYS-CODE-` and four digits. */
  predicate IsCodeId(s: string) {
    |s| == 13 && HasPrefix(s, CodePrefix) && AllDigits(s[9..])
  }

  /** A fallback UUID: `00000000-0000-0000-0000-` and twelve digits. */
  predicate IsUuidId(s: string) {
    |s| == 36 && HasPrefix(s, UuidPrefix) && AllDigits(s[24..])
  }

  predicate IsFallbackId(s: string, idType: string) {
    if idType == "code" then IsCodeId(s) else IsUuidId(s)
  }

  /**
    `_fallback_system_identifiers`: `count` codes drawn from 1000..9999 for
    the code type, otherwise `count` UUID-shaped identifiers whose last group
    is drawn from 100000000000..999999999999.
   */
  method FallbackSystemIds(idType: string, count: nat) returns (ids: seq<string>)
    ensures |ids| == count
    ensures forall i :: 0 <= i < count ==> IsFallbackId(ids[i], idType)
  {
    Pow10Values();
    ids := [];
    var n := 0;
    while n < count
      invariant 0 <= n <= count && |ids| == n
      invariant forall i :: 0 <= i < n ==> IsFallbackId(ids[i], idType)
    {
      var id;
      if idType == "code" {
        var k: nat :| 1000 <= k <= 9999;
        NumberedShape(CodePrefix, k, 4);
        id := Numbered(CodePrefix, k);
      } else {
        var k: nat :| 100000000000 <= k <= 999999999999;
        NumberedShape(UuidPrefix, k, 12);
        id := Numbered(UuidPrefix, k);
      }
      ids := ids + [id];
      n := n + 1;
    }
  }

  /** The pool: the configured identifiers, else five fallback ones when system items are on, else none. */
  predicate PoolOk(pool: seq<string>, config: ItemConfig, idType: string) {
    if config.systemIds != [] then pool == config.systemIds
    else if config.includeSystem then |pool| == 5 && forall i :: 0 <= i < 5 ==> IsFallbackId(pool[i], idType)
    else pool == []
  }

  method SystemPool(config: ItemConfig, idType: string) returns (pool: seq<string>)
    ensures PoolOk(pool, config, idType)
  {
    pool := config.systemIds;
    if config.includeSystem && pool == [] {
      pool := FallbackSystemIds(idType, 5);
    }
  }

  /** With system items on there is always an identifier to choose. */
  lemma PoolNonEmpty(pool: seq<string>, config: ItemConfig, idType: string)
    requires PoolOk(pool, config, idType) && config.includeSystem
    ensures pool != []
    ensures config.systemIds == [] ==> forall i :: 0 <= i < |pool| ==> pool[i] != ""
  {
  }

  // ---------------------------------------------------------------------------
  // The values of one row

  /** `CSV-ORD-` and the drawn number. */
  function OrderId(n: nat): string {
    Numbered(IdPrefix, n)
  }

  /** An order id drawn from 100000..999999 is `CSV-ORD-` and six digits. */
  lemma OrderIdShape(n: nat)
    requires 100000 <= n <= 999999
    ensures |OrderId(n)| == 14 && HasPrefix(OrderId(n), IdPrefix) && AllDigits(OrderId(n)[8..])
  {
    Pow10Values();
    NumberedShape(IdPrefix, n, 6);
  }

  /** `generate_order_invoice_note`: a stock note followed by the order name in parentheses. */
  function InvoiceNote(note: nat, name: string): (s: string)
    requires note < |InvoiceNotes|
    ensures HasSuffix(s, " (" + name + ")") && HasPrefix(s, InvoiceNotes[note])
  {
    var tail := " (" + name + ")";
    assert (InvoiceNotes[note] + tail)[|InvoiceNotes[note] + tail| - |tail|..] == tail;
    PrefixOfConcat(InvoiceNotes[note], tail);
    InvoiceNotes[note] + tail
  }

  /** The draws of the order columns: the name's three parts, the account choice, the id, description and note. */
  datatype OrderFields = OrderFields(
    prefix: nat, descriptor: nat, nameNum: nat, choice: nat,
    idNum: nat, description: nat, note: nat)

  predicate FieldsOk(f: OrderFields, choices: nat) {
    f.prefix < |NamePrefixes| && f.descriptor < |NameDescriptors| && 1 <= f.nameNum <= 999 &&
    f.choice < choices && 100000 <= f.idNum <= 999999 &&
    f.description < |Descriptions| && f.note < |InvoiceNotes|
  }

  /** `generate_order_name`. */
  function OrderName(f: OrderFields): string
    requires f.prefix < |NamePrefixes| && f.descriptor < |NameDescriptors|
  {
    NamePrefixes[f.prefix] + " " + NameDescriptors[f.descriptor] + " " + Dec(f.nameNum)
  }

  /** The cells of the row literal. */
  function OrderValues(f: OrderFields, choices: seq<Choice>, defaultCurrency: string): (vs: seq<Value>)
    requires FieldsOk(f, |choices|)
    ensures |vs| == |OrderKeys|
  {
    var name := OrderName(f);
    var c := choices[f.choice];
    [Str(OrderId(f.idNum)), Str(name), Str(name), Str(Descriptions[f.description]),
     Str(InvoiceNote(f.note, name)), CurrencyOr(c.currency, defaultCurrency), c.accountId]
  }

  /** A line item's discount: none, a fixed amount in cents, or a whole percentage. */
  datatype Discount = NoDiscount | FixedDiscount(cents: int) | PercentageDiscount(percent: int)

  predicate DiscountOk(d: Discount) {
    match d
    case NoDiscount => true
    case FixedDiscount(cents) => 500 <= cents <= 25000
    case PercentageDiscount(percent) => 1 <= percent <= 100
  }

  /**
    The discount type and discount cells: both blank without a discount,
    otherwise "FIXED" with an amount or "PERCENTAGE" with a whole percentage.
   */
  function DiscountCells(d: Discount): (cells: (Value, Value))
    requires DiscountOk(d)
    ensures cells.0 == Blank || cells.0 == Str("FIXED") || cells.0 == Str("PERCENTAGE")
    ensures cells.0 == Blank <==> cells.1 == Blank
    ensures cells.0 == Str("PERCENTAGE") ==> cells.1.Int? && 1 <= cells.1.i <= 100
    ensures cells.0 == Str("FIXED") ==> cells.1.Int? && 500 <= cells.1.i <= 25000
  {
    match d
    case NoDiscount => (Blank, Blank)
    case FixedDiscount(cents) => (Str("FIXED"), Int(cents))
    case PercentageDiscount(percent) => (Str("PERCENTAGE"), Int(percent))
  }

  /** The draws of the line item columns; the description is Faker text. */
  datatype LineFields = LineFields(
    uuidNum: nat, idNum: nat, adjective: nat, noun: nat, quantity: int,
    note: nat, description: string, price: int, discount: Discount, taxExempt: nat)

  predicate LineOk(l: LineFields) {
    100000 <= l.uuidNum <= 999999 && 100000 <= l.idNum <= 999999 &&
    l.adjective < |ItemAdjectives| && l.noun < |ItemNouns| && 1 <= l.quantity <= 50 &&
    l.note < |ItemNotes| && 1000 <= l.price <= 500000 && DiscountOk(l.discount) &&
    l.taxExempt < |TaxChoices|
  }

  /** The line item cells, in assignment order. */
  function LineValues(l: LineFields): (vs: seq<Value>)
    requires LineOk(l)
    ensures |vs| == |LineKeys|
  {
    var cells := DiscountCells(l.discount);
    [Str(Numbered("LI-", l.uuidNum)), Str(Numbered("LINE-", l.idNum)),
     Str(ItemAdjectives[l.adjective] + " " + ItemNouns[l.noun]), Int(l.quantity),
     Str(ItemNotes[l.note]), Str(l.description), Int(l.price), cells.0, cells.1,
     Str(TaxChoices[l.taxExempt])]
  }

  /** The two system item columns, the one matching the identifier type first. */
  function SystemKeys(includeSystem: bool, idType: string): seq<string> {
    if !includeSystem then [] else if idType == "code" then [CodeKey, UuidKey] else [UuidKey, CodeKey]
  }

  /** The system item cells: the identifier under the type's column, "" under the other. */
  function SystemCells(includeSystem: bool, idType: string, id: string): Row {
    if !includeSystem then []
    else if idType == "code" then [(CodeKey, Str(id)), (UuidKey, Blank)]
    else [(UuidKey, Str(id)), (CodeKey, Blank)]
  }

  // ---------------------------------------------------------------------------
  // The fixed part of a row

  /** The system columns are absent, or both present with the type's column first. */
  predicate SystemKeysOk(sk: seq<string>) {
    sk == [] || sk == [CodeKey, UuidKey] || sk == [UuidKey, CodeKey]
  }

  lemma SystemCellsShape(includeSystem: bool, idType: string, id: string)
    ensures Keys(SystemCells(includeSystem, idType, id)) == SystemKeys(includeSystem, idType)
    ensures DistinctKeys(SystemCells(includeSystem, idType, id))
    ensures SystemKeysOk(SystemKeys(includeSystem, idType))
  {
  }

  /**
    The row before any custom attribute: the literal `ov`, then the system
    cells `sc`, then, with line items on, the line item cells `lv`.
   */
  function Assemble(ov: seq<Value>, sc: Row, lv: seq<Value>, includeLine: bool): Row
    requires |ov| == |OrderKeys| && |lv| == |LineKeys|
  {
    var row := Update(Dict(OrderKeys, ov), sc);
    if includeLine then Update(row, Dict(LineKeys, lv)) else row
  }

  lemma KeyInitials()
    ensures |OrderKeys| == 7 && Distinct(OrderKeys) && forall i :: 0 <= i < 7 ==> Initial(OrderKeys[i], 'o')
    ensures |LineKeys| == 10 && forall i :: 0 <= i < 10 ==> Initial(LineKeys[i], 'l')
    ensures Initial(CodeKey, 's') && Initial(UuidKey, 's') && CodeKey != UuidKey
  {
  }

  /** The key starts with the character `c`. */
  predicate Initial(k: string, c: char) {
    |k| > 0 && k[0] == c
  }

  lemma LineKeysDistinct()
    ensures Distinct(LineKeys)
  {
    assert forall i :: 0 <= i < 10 ==> |LineKeys[i]| > 10 && LineKeys[i][..10] == LinePrefix;
  }

  /** The three groups of fixed columns are free of repeats and of each other. */
  lemma LiteralKeysApart(sk: seq<string>)
    requires SystemKeysOk(sk)
    ensures Distinct(OrderKeys) && Distinct(OrderKeys + sk) && Distinct(LineKeys)
    ensures forall k :: k in sk ==> k !in OrderKeys
    ensures forall k :: k in LineKeys ==> k !in OrderKeys + sk
  {
    KeyInitials();
    LineKeysDistinct();
    forall k | k in sk ensures k !in OrderKeys {
      assert Initial(k, 's');
    }
    DistinctConcat(OrderKeys, sk);
    forall k | k in LineKeys ensures k !in OrderKeys + sk {
      assert Initial(k, 'l');
    }
  }

  /** The literal updated with the system cells is the two appended. */
  lemma FrontAppends(ov: seq<Value>, sc: Row)
    requires |ov| == |OrderKeys| && SystemKeysOk(Keys(sc)) && DistinctKeys(sc)
    ensures Update(Dict(OrderKeys, ov), sc) == Dict(OrderKeys, ov) + sc
    ensures Keys(Dict(OrderKeys, ov) + sc) == OrderKeys + Keys(sc)
    ensures DistinctKeys(Dict(OrderKeys, ov) + sc)
  {
    LiteralKeysApart(Keys(sc));
    DictKeys(OrderKeys, ov);
    UpdateAppends(Dict(OrderKeys, ov), sc);
  }

  /** The fixed row is the three groups of cells appended, its columns free of repeats. */
  lemma AssembleAppends(ov: seq<Value>, sc: Row, lv: seq<Value>, includeLine: bool)
    requires |ov| == |OrderKeys| && |lv| == |LineKeys| && SystemKeysOk(Keys(sc)) && DistinctKeys(sc)
    ensures Assemble(ov, sc, lv, includeLine) ==
      Dict(OrderKeys, ov) + sc + (if includeLine then Dict(LineKeys, lv) else [])
    ensures Keys(Assemble(ov, sc, lv, includeLine)) ==
      OrderKeys + Keys(sc) + (if includeLine then LineKeys else [])
    ensures DistinctKeys(Assemble(ov, sc, lv, includeLine))
  {
    var front := Dict(OrderKeys, ov) + sc;
    FrontAppends(ov, sc);
    if includeLine {
      LiteralKeysApart(Keys(sc));
      DictKeys(LineKeys, lv);
      UpdateAppends(front, Dict(LineKeys, lv));
    }
  }

  /** Each order column holds its literal cell. */
  lemma AssembleOrderCell(ov: seq<Value>, sc: Row, lv: seq<Value>, includeLine: bool, j: nat)
    requires |ov| == |OrderKeys| && |lv| == |LineKeys| && SystemKeysOk(Keys(sc)) && DistinctKeys(sc)
    requires j < |OrderKeys|
    ensures Get(Assemble(ov, sc, lv, includeLine), OrderKeys[j]) == Some(ov[j])
  {
    var base := Dict(OrderKeys, ov);
    var ld := if includeLine then Dict(LineKeys, lv) else [];
    AssembleAppends(ov, sc, lv, includeLine);
    LiteralKeysApart(Keys(sc));
    DictGet(OrderKeys, ov, j);
    Assoc(base, sc, ld);
    GetAppend(base, sc + ld, OrderKeys[j]);
  }

  /** Each system column holds its system cell. */
  lemma AssembleSystemCell(ov: seq<Value>, sc: Row, lv: seq<Value>, includeLine: bool, k: string)
    requires |ov| == |OrderKeys| && |lv| == |LineKeys| && SystemKeysOk(Keys(sc)) && DistinctKeys(sc)
    requires k in Keys(sc)
    ensures Get(Assemble(ov, sc, lv, includeLine), k) == Get(sc, k)
  {
    var base := Dict(OrderKeys, ov);
    var ld := if includeLine then Dict(LineKeys, lv) else [];
    AssembleAppends(ov, sc, lv, includeLine);
    LiteralKeysApart(Keys(sc));
    DictKeys(OrderKeys, ov);
    GetAppend(base + sc, ld, k);
    GetAppend(base, sc, k);
  }

  /** With line items on, each line item column holds its cell. */
  lemma AssembleLineCell(ov: seq<Value>, sc: Row, lv: seq<Value>, j: nat)
    requires |ov| == |OrderKeys| && |lv| == |LineKeys| && SystemKeysOk(Keys(sc)) && DistinctKeys(sc)
    requires j < |LineKeys|
    ensures Get(Assemble(ov, sc, lv, true), LineKeys[j]) == Some(lv[j])
  {
    var front := Dict(OrderKeys, ov) + sc;
    var ld := Dict(LineKeys, lv);
    AssembleAppends(ov, sc, lv, true);
    LiteralKeysApart(Keys(sc));
    DictGet(LineKeys, lv, j);
    DictKeys(OrderKeys, ov);
    KeysAppend(Dict(OrderKeys, ov), sc);
    GetAppend(front, ld, LineKeys[j]);
  }

  // ---------------------------------------------------------------------------
  // What one row satisfies

  /** What the set-up fixes for every order. */
  datatype OrderContext = OrderContext(
    choices: seq<Choice>, defaultCurrency: string,
    includeSystem: bool, includeLine: bool, idType: string, pool: seq<string>,
    attrs: seq<AttrSpec>, lineAttrs: seq<AttrSpec>)

  predicate ContextOk(ctx: OrderContext) {
    ctx.choices != [] && (ctx.includeSystem ==> ctx.pool != []) &&
    (ctx.idType == "uuid" || ctx.idType == "code") &&
    AllPrefixed(ctx.attrs, AttrPrefix) && AllPrefixed(ctx.lineAttrs, LineAttrPrefix)
  }

  /** The draws of one order: its fields, the position of its system identifier, its line item. */
  datatype OrderDraw = OrderDraw(fields: OrderFields, system: nat, line: LineFields)

  predicate DrawOk(d: OrderDraw, ctx: OrderContext) {
    FieldsOk(d.fields, |ctx.choices|) &&
    (ctx.includeSystem ==> d.system < |ctx.pool|) &&
    (ctx.includeLine ==> LineOk(d.line))
  }

  function SystemId(d: OrderDraw, ctx: OrderContext): string
    requires DrawOk(d, ctx)
  {
    if ctx.includeSystem then ctx.pool[d.system] else ""
  }

  /** The line item cells written, or placeholders when line items are off (they are then not written). */
  function LineCells(d: OrderDraw, ctx: OrderContext): (vs: seq<Value>)
    requires DrawOk(d, ctx)
    ensures |vs| == |LineKeys|
  {
    if ctx.includeLine then LineValues(d.line) else Blanks(|LineKeys|)
  }

  /** The line item custom attributes actually written: none without line items. */
  function LineItemAttrs(ctx: OrderContext): seq<AttrSpec> {
    if ctx.includeLine then ctx.lineAttrs else []
  }

  /** The row of one order before any custom attribute. */
  function OrderFixed(d: OrderDraw, ctx: OrderContext): Row
    requires DrawOk(d, ctx)
  {
    Assemble(OrderValues(d.fields, ctx.choices, ctx.defaultCurrency),
             SystemCells(ctx.includeSystem, ctx.idType, SystemId(d, ctx)),
             LineCells(d, ctx), ctx.includeLine)
  }

  /** The fixed columns of every row: the order columns, the system columns, the line item columns. */
  function FixedKeys(ctx: OrderContext): seq<string> {
    OrderKeys + SystemKeys(ctx.includeSystem, ctx.idType) + (if ctx.includeLine then LineKeys else [])
  }

  /** The columns of one order's row: the fixed columns, then each new line item and order attribute column. */
  function RowKeys(ctx: OrderContext): seq<string> {
    AddKeys(AddKeys(FixedKeys(ctx), Columns(LineItemAttrs(ctx))), Columns(ctx.attrs))
  }

  /**
    The row of one order: the fixed row, with the line item attributes and then
    the order attributes assigned; each attribute column holds a value its
    type allows and every other column keeps its fixed value.
   */
  ghost predicate OrderRowOk(row: Row, d: OrderDraw, ctx: OrderContext) {
    DrawOk(d, ctx) &&
    var fixed := OrderFixed(d, ctx);
    var lineCols := Columns(LineItemAttrs(ctx));
    DistinctKeys(row) &&
    Keys(row) == RowKeys(ctx) &&
    (forall k :: k !in lineCols && k !in Columns(ctx.attrs) ==> Get(row, k) == Get(fixed, k)) &&
    AttrsOk(row, LineItemAttrs(ctx), Drawn(true)) &&
    AttrsOk(row, ctx.attrs, Drawn(true))
  }

  /** Row `p` of `rows` is the row of order `p`, drawn as `ds[p]`. */
  ghost predicate OrdersOk(rows: seq<Row>, ds: seq<OrderDraw>, ctx: OrderContext)
    decreases |rows|
  {
    |rows| == |ds| &&
    (rows == [] ||
     (OrdersOk(rows[..|rows| - 1], ds[..|ds| - 1], ctx) && OrderRowOk(rows[|rows| - 1], ds[|ds| - 1], ctx)))
  }

  lemma {:induction false} OrdersOkAt(rows: seq<Row>, ds: seq<OrderDraw>, ctx: OrderContext, p: nat)
    requires OrdersOk(rows, ds, ctx) && p < |rows|
    ensures OrderRowOk(rows[p], ds[p], ctx)
    decreases |rows|
  {
    if p < |rows| - 1 {
      OrdersOkAt(rows[..|rows| - 1], ds[..|ds| - 1], ctx, p);
    }
  }

  lemma OrdersSnoc(rows: seq<Row>, ds: seq<OrderDraw>, ctx: OrderContext, row: Row, d: OrderDraw)
    requires OrdersOk(rows, ds, ctx) && OrderRowOk(row, d, ctx)
    ensures OrdersOk(rows + [row], ds + [d], ctx)
  {
    var rs, es := rows + [row], ds + [d];
    assert rs[..|rows|] == rows && rs[|rows|] == row;
    assert es[..|ds|] == ds && es[|ds|] == d;
  }

  /** The generator's set-up: choices, effective flags, identifier type and pool, attribute lists. */
  predicate SetUp(ctx: OrderContext, accountRows: seq<Row>, accountIds: seq<string>, defaultCurrency: string,
                  attrs: seq<AttrSpec>, config: ItemConfig, identifierType: string, lineAttrs: seq<AttrSpec>) {
    ctx.choices == Choices(accountRows, accountIds, defaultCurrency) &&
    ctx.defaultCurrency == defaultCurrency &&
    (ctx.includeSystem, ctx.includeLine) == EffectiveFlags(config) &&
    ctx.idType == IdentifierType(identifierType) &&
    PoolOk(ctx.pool, config, ctx.idType) &&
    ctx.attrs == attrs && ctx.lineAttrs == lineAttrs
  }

  // ---------------------------------------------------------------------------
  // Generation

  method DrawOrderFields(choices: nat) returns (f: OrderFields)
    requires choices > 0
    ensures FieldsOk(f, choices)
  {
    var prefix :| 0 <= prefix < |NamePrefixes|;
    var descriptor :| 0 <= descriptor < |NameDescriptors|;
    var nameNum :| 1 <= nameNum <= 999;
    var choice :| 0 <= choice < choices;
    var idNum :| 100000 <= idNum <= 999999;
    var description :| 0 <= description < |Descriptions|;
    var note :| 0 <= note < |InvoiceNotes|;
    f := OrderFields(prefix, descriptor, nameNum, choice, idNum, description, note);
  }

  /** The line item draws; a discount is present on a coin, FIXED or PERCENTAGE on another. */
  method DrawLine() returns (l: LineFields)
    ensures LineOk(l)
  {
    var uuidNum :| 100000 <= uuidNum <= 999999;
    var idNum :| 100000 <= idNum <= 999999;
    var adjective :| 0 <= adjective < |ItemAdjectives|;
    var noun :| 0 <= noun < |ItemNouns|;
    var quantity :| 1 <= quantity <= 50;
    var note :| 0 <= note < |ItemNotes|;
    var description: string :| true;
    var price :| 1000 <= price <= 500000;
    var discounted: bool :| true;
    var discount := NoDiscount;
    if discounted {
      var percentage: bool :| true;
      if percentage {
        var percent :| 1 <= percent <= 100;
        discount := PercentageDiscount(percent);
      } else {
        var cents :| 500 <= cents <= 25000;
        discount := FixedDiscount(cents);
      }
    }
    var taxExempt :| 0 <= taxExempt < |TaxChoices|;
    l := LineFields(uuidNum, idNum, adjective, noun, quantity, note, description, price, discount, taxExempt);
  }

  /** Two assignments in a row are an update with a two-cell literal. */
  lemma UpdatePair(row: Row, cells: Row)
    requires |cells| == 2
    ensures Update(row, cells) == Set(Set(row, cells[0].0, cells[0].1), cells[1].0, cells[1].1)
  {
    var r1 := Set(row, cells[0].0, cells[0].1);
    var r2 := Set(r1, cells[1].0, cells[1].1);
    var rest := cells[1..];
    assert rest[0] == cells[1] && rest[1..] == [];
    assert Update(r1, rest) == Update(r2, rest[1..]);
  }

  /** The system item assignments: the identifier under the type's column, "" under the other. */
  method AssignSystem(row: Row, ctx: OrderContext) returns (r: Row, s: nat, id: string)
    requires ContextOk(ctx)
    ensures ctx.includeSystem ==> s < |ctx.pool| && id == ctx.pool[s]
    ensures !ctx.includeSystem ==> s == 0 && id == ""
    ensures r == Update(row, SystemCells(ctx.includeSystem, ctx.idType, id))
  {
    r, s, id := row, 0, "";
    if ctx.includeSystem {
      s :| 0 <= s < |ctx.pool|;
      id := ctx.pool[s];
      if ctx.idType == "code" {
        r := Set(r, CodeKey, Str(id));
        r := Set(r, UuidKey, Blank);
      } else {
        r := Set(r, UuidKey, Str(id));
        r := Set(r, CodeKey, Blank);
      }
      UpdatePair(row, SystemCells(true, ctx.idType, id));
    }
  }

  /** The order literal, then the system item and line item assignments, in the loop body's order. */
  method FixedRow(ctx: OrderContext) returns (row: Row, ghost d: OrderDraw)
    requires ContextOk(ctx)
    ensures DrawOk(d, ctx) && row == OrderFixed(d, ctx)
  {
    var f := DrawOrderFields(|ctx.choices|);
    var ov := OrderValues(f, ctx.choices, ctx.defaultCurrency);
    row := Dict(OrderKeys, ov);
    var s, id;
    row, s, id := AssignSystem(row, ctx);
    var l := LineFields(0, 0, 0, 0, 0, 0, "", 0, NoDiscount, 0);
    if ctx.includeLine {
      l := DrawLine();
      row := Update(row, Dict(LineKeys, LineValues(l)));
    }
    d := OrderDraw(f, s, l);
    assert SystemId(d, ctx) == id;
  }

  /** One order's row: the fixed row, then the line item and order custom attributes. */
  method GenerateOrder(ctx: OrderContext) returns (row: Row, ghost d: OrderDraw)
    requires ContextOk(ctx)
    ensures OrderRowOk(row, d, ctx)
  {
    row, d := FixedRow(ctx);
    FixedShape(d, ctx);
    ghost var fixed := row;
    if ctx.includeLine {
      row := ApplyRandomAttrs(row, ctx.lineAttrs, Drawn(true));
    }
    ghost var mid := row;
    assert Keys(mid) == AddKeys(Keys(fixed), Columns(LineItemAttrs(ctx)));
    assert forall k :: k !in Columns(LineItemAttrs(ctx)) ==> Get(mid, k) == Get(fixed, k);
    row := ApplyRandomAttrs(row, ctx.attrs, Drawn(true));
    LineAttrsKept(ctx, mid, row);
  }

  /**
    `generate_order_rows`: fails when no account can be chosen; otherwise
    exactly one row per order.
   */
  method GenerateOrderRows(count: nat, accountRows: seq<Row>, accountIds: seq<string>, defaultCurrency: string,
                           attrs: seq<AttrSpec>, config: ItemConfig, identifierType: string, lineAttrs: seq<AttrSpec>)
    returns (res: Result<seq<Row>>, ghost ctx: OrderContext, ghost draws: seq<OrderDraw>)
    requires AllPrefixed(attrs, AttrPrefix) && AllPrefixed(lineAttrs, LineAttrPrefix)
    ensures res.Err? <==> Choices(accountRows, accountIds, defaultCurrency) == []
    ensures res.Ok? ==>
      SetUp(ctx, accountRows, accountIds, defaultCurrency, attrs, config, identifierType, lineAttrs) &&
      |res.value| == count && OrdersOk(res.value, draws, ctx)
  {
    var choices := DeriveFromRowsOrIds(accountRows, accountIds, defaultCurrency);
    ctx := OrderContext([], defaultCurrency, false, true, "uuid", [], attrs, lineAttrs);
    draws := [];
    if choices == [] {
      return Err("No account IDs available to associate with orders."), ctx, draws;
    }
    var flags := EffectiveFlags(config);
    var idType := IdentifierType(identifierType);
    var pool := SystemPool(config, idType);
    var c := OrderContext(choices, defaultCurrency, flags.0, flags.1, idType, pool, attrs, lineAttrs);
    ctx := c;
    if flags.0 {
      PoolNonEmpty(pool, config, idType);
    }
    var rows: seq<Row> := [];
    while |rows| < count
      invariant |rows| <= count && OrdersOk(rows, draws, ctx)
    {
      var row, d := GenerateOrder(c);
      OrdersSnoc(rows, draws, ctx, row, d);
      rows, draws := rows + [row], draws + [d];
    }
    res := Ok(rows);
  }

  // ---------------------------------------------------------------------------
  // Facts about the fixed columns

  /** The fixed row has the fixed columns, in order and free of repeats. */
  lemma FixedShape(d: OrderDraw, ctx: OrderContext)
    requires DrawOk(d, ctx)
    ensures Keys(OrderFixed(d, ctx)) == FixedKeys(ctx)
    ensures DistinctKeys(OrderFixed(d, ctx))
  {
    var id := SystemId(d, ctx);
    SystemCellsShape(ctx.includeSystem, ctx.idType, id);
    AssembleAppends(OrderValues(d.fields, ctx.choices, ctx.defaultCurrency),
                    SystemCells(ctx.includeSystem, ctx.idType, id), LineCells(d, ctx), ctx.includeLine);
  }

  /** An attribute column starts with `c`. */
  lemma AttrInitial(attrs: seq<AttrSpec>, prefix: string, i: nat)
    requires AllPrefixed(attrs, prefix) && |prefix| > 0 && prefix[0] == 'c' && i < |attrs|
    ensures Initial(attrs[i].column, 'c')
  {
    assert attrs[i].column[..|prefix|] == prefix;
  }

  /** A fixed column starts with `o`, `s` or `l`. */
  lemma FixedInitial(ctx: OrderContext, k: string)
    requires k in FixedKeys(ctx)
    ensures |k| > 0 && k[0] != 'c'
  {
    KeyInitials();
    if k in OrderKeys {
      assert Initial(k, 'o');
    } else if k in LineKeys {
      assert Initial(k, 'l');
    } else {
      assert Initial(k, 's');
    }
  }

  /** No fixed column is an attribute column. */
  lemma FixedNotAttr(ctx: OrderContext, k: string)
    requires ContextOk(ctx) && k in FixedKeys(ctx)
    ensures k !in Columns(ctx.attrs) && k !in Columns(LineItemAttrs(ctx))
  {
    FixedInitial(ctx, k);
    forall i | 0 <= i < |ctx.attrs| ensures ctx.attrs[i].column != k {
      AttrInitial(ctx.attrs, AttrPrefix, i);
    }
    forall i | 0 <= i < |LineItemAttrs(ctx)| ensures LineItemAttrs(ctx)[i].column != k {
      AttrInitial(ctx.lineAttrs, LineAttrPrefix, i);
    }
  }

  /** Line item and order attribute columns part at the tenth character. */
  lemma LineAttrsApart(ctx: OrderContext, i: nat)
    requires ContextOk(ctx) && i < |ctx.lineAttrs|
    ensures ctx.lineAttrs[i].column !in Columns(ctx.attrs)
  {
    forall j | 0 <= j < |ctx.attrs| ensures ctx.attrs[j].column != ctx.lineAttrs[i].column {
      PrefixesDiffer(ctx.attrs[j].column, ctx.lineAttrs[i].column, AttrPrefix, LineAttrPrefix, 9);
    }
  }

  /** Assigning the order attributes leaves the line item attribute cells as they were. */
  lemma LineAttrsKept(ctx: OrderContext, mid: Row, row: Row)
    requires ContextOk(ctx) && AttrsOk(mid, LineItemAttrs(ctx), Drawn(true))
    requires forall k :: k !in Columns(ctx.attrs) ==> Get(row, k) == Get(mid, k)
    ensures AttrsOk(row, LineItemAttrs(ctx), Drawn(true))
  {
    forall i | 0 <= i < |LineItemAttrs(ctx)|
      ensures Get(row, LineItemAttrs(ctx)[i].column) == Get(mid, LineItemAttrs(ctx)[i].column)
    {
      LineAttrsApart(ctx, i);
    }
    AttrsFrame(mid, row, LineItemAttrs(ctx), Drawn(true));
  }

  // ---------------------------------------------------------------------------
  // What the rows look like

  /** Every fixed column keeps the value the literal or the item assignments gave it. */
  lemma FixedKept(row: Row, d: OrderDraw, ctx: OrderContext, k: string)
    requires ContextOk(ctx) && OrderRowOk(row, d, ctx) && k in FixedKeys(ctx)
    ensures Get(row, k) == Get(OrderFixed(d, ctx), k)
  {
    FixedNotAttr(ctx, k);
  }

  /** The fixed columns come first, in literal order; attribute columns follow. */
  lemma ColumnOrder(row: Row, d: OrderDraw, ctx: OrderContext)
    requires OrderRowOk(row, d, ctx)
    ensures |FixedKeys(ctx)| <= |Keys(row)| && Keys(row)[..|FixedKeys(ctx)|] == FixedKeys(ctx)
  {
    FixedPrefix(ctx);
  }

  /** Attribute columns only ever come after the fixed columns. */
  lemma FixedPrefix(ctx: OrderContext)
    ensures |FixedKeys(ctx)| <= |RowKeys(ctx)| && RowKeys(ctx)[..|FixedKeys(ctx)|] == FixedKeys(ctx)
  {
    var fk := FixedKeys(ctx);
    var mid := AddKeys(fk, Columns(LineItemAttrs(ctx)));
    AddKeysExtends(fk, Columns(LineItemAttrs(ctx)));
    AddKeysExtends(mid, Columns(ctx.attrs));
    assert RowKeys(ctx)[..|fk|] == RowKeys(ctx)[..|mid|][..|fk|];
  }

  /**
    The order columns: an id `CSV-ORD-` and six digits, the display name equal
    to the name, a note ending in the name in parentheses, and the account and
    currency of one account choice.
   */
  lemma OrderColumns(row: Row, d: OrderDraw, ctx: OrderContext)
    requires ContextOk(ctx) && OrderRowOk(row, d, ctx)
    ensures var f := d.fields;
      var name := OrderName(f);
      var c := ctx.choices[f.choice];
      Get(row, "order_id") == Some(Str(OrderId(f.idNum))) && |OrderId(f.idNum)| == 14 &&
      Get(row, "order_name") == Some(Str(name)) &&
      Get(row, "order_display_name") == Get(row, "order_name") &&
      IsStrIn(Get(row, "order_description"), Descriptions) &&
      Get(row, "order_invoice_note").Some? && Get(row, "order_invoice_note").value.Str? &&
      HasSuffix(Get(row, "order_invoice_note").value.s, " (" + name + ")") &&
      Get(row, "order_account_id") == Some(c.accountId) &&
      Get(row, "order_currency") == Some(CurrencyOr(c.currency, ctx.defaultCurrency))
  {
    var f := d.fields;
    var ov := OrderValues(f, ctx.choices, ctx.defaultCurrency);
    var sc := SystemCells(ctx.includeSystem, ctx.idType, SystemId(d, ctx));
    var lv := LineCells(d, ctx);
    SystemCellsShape(ctx.includeSystem, ctx.idType, SystemId(d, ctx));
    forall j | 0 <= j < 7 ensures Get(row, OrderKeys[j]) == Some(ov[j]) {
      FixedKept(row, d, ctx, OrderKeys[j]);
      AssembleOrderCell(ov, sc, lv, ctx.includeLine, j);
    }
    OrderIdShape(f.idNum);
    OrderKeyNames();
  }

  lemma OrderKeyNames()
    ensures OrderKeys[0] == "order_id" && OrderKeys[1] == "order_name" && OrderKeys[2] == "order_display_name"
    ensures OrderKeys[3] == "order_description" && OrderKeys[4] == "order_invoice_note"
    ensures OrderKeys[5] == "order_currency" && OrderKeys[6] == "order_account_id"
  {
  }

  /**
    With system items on, the column matching the identifier type holds an
    identifier from the pool and the other holds "".
   */
  lemma SystemColumns(row: Row, d: OrderDraw, ctx: OrderContext)
    requires ContextOk(ctx) && OrderRowOk(row, d, ctx) && ctx.includeSystem
    ensures var own := if ctx.idType == "code" then CodeKey else UuidKey;
      var other := if ctx.idType == "code" then UuidKey else CodeKey;
      Get(row, own) == Some(Str(ctx.pool[d.system])) && ctx.pool[d.system] in ctx.pool &&
      Get(row, other) == Some(Blank)
  {
    FixedSystemCells(d, ctx);
    FixedKept(row, d, ctx, CodeKey);
    FixedKept(row, d, ctx, UuidKey);
  }

  /** With system items off, neither system item column exists. */
  lemma NoSystemColumns(row: Row, d: OrderDraw, ctx: OrderContext)
    requires ContextOk(ctx) && OrderRowOk(row, d, ctx) && !ctx.includeSystem
    ensures CodeKey !in Keys(row) && UuidKey !in Keys(row)
  {
    NoSystemKeys(ctx);
  }

  lemma NoSystemKeys(ctx: OrderContext)
    requires ContextOk(ctx) && !ctx.includeSystem
    ensures CodeKey !in RowKeys(ctx) && UuidKey !in RowKeys(ctx)
  {
    KeyInitials();
    OtherKeyAbsent(ctx, CodeKey);
    OtherKeyAbsent(ctx, UuidKey);
  }

  /** The fixed row's system item cells, as `SystemCellValues` gives them. */
  lemma FixedSystemCells(d: OrderDraw, ctx: OrderContext)
    requires DrawOk(d, ctx) && ctx.includeSystem
    ensures var id := ctx.pool[d.system];
      var own := if ctx.idType == "code" then CodeKey else UuidKey;
      var other := if ctx.idType == "code" then UuidKey else CodeKey;
      CodeKey in FixedKeys(ctx) && UuidKey in FixedKeys(ctx) &&
      Get(OrderFixed(d, ctx), own) == Some(Str(id)) && Get(OrderFixed(d, ctx), other) == Some(Blank)
  {
    var id := SystemId(d, ctx);
    var ov := OrderValues(d.fields, ctx.choices, ctx.defaultCurrency);
    var sc := SystemCells(true, ctx.idType, id);
    var lv := LineCells(d, ctx);
    SystemCellsShape(true, ctx.idType, id);
    SystemCellValues(ctx.idType, id);
    AssembleSystemCell(ov, sc, lv, ctx.includeLine, CodeKey);
    AssembleSystemCell(ov, sc, lv, ctx.includeLine, UuidKey);
    FixedShape(d, ctx);
  }

  /** The system cells hold the identifier under the type's column and "" under the other. */
  lemma SystemCellValues(idType: string, id: string)
    ensures var sc := SystemCells(true, idType, id);
      var own := if idType == "code" then CodeKey else UuidKey;
      var other := if idType == "code" then UuidKey else CodeKey;
      own in Keys(sc) && other in Keys(sc) &&
      Get(sc, own) == Some(Str(id)) && Get(sc, other) == Some(Blank)
  {
    var sc := SystemCells(true, idType, id);
    KeyInitials();
    assert sc[1..][1..] == [];
  }

  /** A column that is neither fixed nor an attribute column is not in the row. */
  lemma NotFixedNotAttr(row: Row, d: OrderDraw, ctx: OrderContext, k: string)
    requires ContextOk(ctx) && OrderRowOk(row, d, ctx)
    requires k !in FixedKeys(ctx) && |k| > 0 && k[0] != 'c'
    ensures k !in Keys(row)
  {
    OtherKeyAbsent(ctx, k);
  }

  lemma OtherKeyAbsent(ctx: OrderContext, k: string)
    requires ContextOk(ctx)
    requires k !in FixedKeys(ctx) && |k| > 0 && k[0] != 'c'
    ensures k !in RowKeys(ctx)
  {
    forall i | 0 <= i < |ctx.attrs| ensures ctx.attrs[i].column != k {
      AttrInitial(ctx.attrs, AttrPrefix, i);
    }
    forall i | 0 <= i < |LineItemAttrs(ctx)| ensures LineItemAttrs(ctx)[i].column != k {
      AttrInitial(ctx.lineAttrs, LineAttrPrefix, i);
    }
    var fk := FixedKeys(ctx);
    AddKeysAbsent(fk, Columns(LineItemAttrs(ctx)), k);
    AddKeysAbsent(AddKeys(fk, Columns(LineItemAttrs(ctx))), Columns(ctx.attrs), k);
  }

  /** Exactly one system item column is non-empty when the chosen identifier is. */
  lemma SystemExclusive(row: Row, d: OrderDraw, ctx: OrderContext)
    requires ContextOk(ctx) && OrderRowOk(row, d, ctx) && ctx.includeSystem
    requires ctx.pool[d.system] != ""
    ensures IsNonBlankStr(Get(row, CodeKey)) != IsNonBlankStr(Get(row, UuidKey))
    ensures IsNonBlankStr(Get(row, CodeKey)) <==> ctx.idType == "code"
  {
    SystemColumns(row, d, ctx);
  }

  /** With line items on, every line item column holds its drawn value. */
  lemma LineColumns(row: Row, d: OrderDraw, ctx: OrderContext)
    requires ContextOk(ctx) && OrderRowOk(row, d, ctx) && ctx.includeLine
    ensures forall j :: 0 <= j < 10 ==> Get(row, LineKeys[j]) == Some(LineValues(d.line)[j])
  {
    var ov := OrderValues(d.fields, ctx.choices, ctx.defaultCurrency);
    var sc := SystemCells(ctx.includeSystem, ctx.idType, SystemId(d, ctx));
    var lv := LineCells(d, ctx);
    SystemCellsShape(ctx.includeSystem, ctx.idType, SystemId(d, ctx));
    forall j | 0 <= j < 10 ensures Get(row, LineKeys[j]) == Some(lv[j]) {
      FixedKept(row, d, ctx, LineKeys[j]);
      AssembleLineCell(ov, sc, lv, j);
    }
  }

  /**
    With line items on, the discount type is FIXED, PERCENTAGE or "", a
    PERCENTAGE discount is a whole number from 1 to 100, and without a
    discount both cells are "".
   */
  lemma DiscountColumns(row: Row, d: OrderDraw, ctx: OrderContext)
    requires ContextOk(ctx) && OrderRowOk(row, d, ctx) && ctx.includeLine
    ensures var t := Get(row, "line_item_discount_type");
      var v := Get(row, "line_item_discount");
      t.Some? && v.Some? &&
      (t.value == Str("FIXED") || t.value == Str("PERCENTAGE") || t.value == Blank) &&
      (t.value == Str("PERCENTAGE") ==> v.value.Int? && 1 <= v.value.i <= 100) &&
      (t.value == Blank <==> v.value == Blank)
  {
    LineColumns(row, d, ctx);
    var cells := DiscountCells(d.line.discount);
    assert LineValues(d.line)[7] == cells.0 && LineValues(d.line)[8] == cells.1;
    assert LineKeys[7] == "line_item_discount_type" && LineKeys[8] == "line_item_discount";
  }

  /** Without line items no line item column and no line item attribute column exists. */
  lemma NoLineColumns(row: Row, d: OrderDraw, ctx: OrderContext, k: string)
    requires ContextOk(ctx) && OrderRowOk(row, d, ctx) && !ctx.includeLine
    requires HasPrefix(k, LinePrefix) || HasPrefix(k, LineAttrPrefix)
    ensures k !in Keys(row)
  {
    NoLineKeys(ctx, k);
  }

  /** The keys of the context behind `NoLineColumns`. */
  lemma NoLineKeys(ctx: OrderContext, k: string)
    requires ContextOk(ctx) && !ctx.includeLine
    requires HasPrefix(k, LinePrefix) || HasPrefix(k, LineAttrPrefix)
    ensures k !in RowKeys(ctx)
  {
    if HasPrefix(k, LinePrefix) {
      assert k[0] == 'l';
      NoLineInitials(ctx, k);
      OtherKeyAbsent(ctx, k);
    } else {
      LineAttrKeyAbsent(ctx, k);
    }
  }

  lemma LineAttrKeyAbsent(ctx: OrderContext, k: string)
    requires ContextOk(ctx) && !ctx.includeLine && HasPrefix(k, LineAttrPrefix)
    ensures k !in RowKeys(ctx)
  {
    var fk := FixedKeys(ctx);
    assert k[0] == 'c';
    assert k !in fk by {
      forall j | 0 <= j < |fk| ensures fk[j] != k {
        FixedInitial(ctx, fk[j]);
      }
    }
    forall i | 0 <= i < |ctx.attrs| ensures ctx.attrs[i].column != k {
      PrefixesDiffer(ctx.attrs[i].column, k, AttrPrefix, LineAttrPrefix, 9);
    }
    assert AddKeys(fk, Columns(LineItemAttrs(ctx))) == fk;
    AddKeysAbsent(fk, Columns(ctx.attrs), k);
  }

  /** Without line items every fixed column starts with `o` or `s`, so none starts with `l`. */
  lemma NoLineInitials(ctx: OrderContext, k: string)
    requires !ctx.includeLine && |k| > 0 && k[0] == 'l'
    ensures k !in FixedKeys(ctx)
  {
    KeyInitials();
    var fk := FixedKeys(ctx);
    forall j | 0 <= j < |fk| ensures fk[j] != k {
      assert Initial(fk[j], 'o') || Initial(fk[j], 's');
    }
  }
}
