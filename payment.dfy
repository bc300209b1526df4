/**
  The payment generator: payment `n` (counting from 1) gets the identifier
  `CSV-PMT-nnn` and one row per invoice it settles; its own fields and its
  custom attribute values are drawn once and shared by all of its rows.
 */
module Payment {
  import opened Rows
  import opened Text
  import opened CustomAttributes
  import opened PaymentRules

  const IdPrefix := "CSV-PMT-"
  const AttrPrefix := "ca_payment_attr_"
  const InvoiceKey := "payment_invoice_id"

  /** The fixed columns, in the order the row literal lists them. */
  const PaymentKeys: seq<string> := [
    "payment_id", "payment_origin", "payment_date", "payment_alternate_date",
    "payment_processor", "payment_amount", InvoiceKey, "payment_note"]

  const OriginKinds: seq<string> := ["ACC", "ORD"]

  const Notes: seq<string> := [
    "Payment received via bank transfer", "Credit card payment processed successfully",
    "Wire transfer completed", "Electronic funds transfer confirmed", "Check payment cleared",
    "Payment applied to outstanding invoices", "Advance payment for future services",
    "Partial payment - balance pending", "Direct debit payment processed",
    "Cash payment received and recorded", "Payment received - thank you for your business",
    "Online payment gateway transaction completed", "ACH transfer processed successfully",
    "Mobile payment app transaction confirmed", "Payment reconciliation completed"]

  /** The generator's arguments once the invoice choices and the processor list are settled. */
  datatype PaymentConfig = PaymentConfig(
    choices: seq<string>,
    processors: seq<string>,
    minAmount: int,
    maxAmount: int,
    attrs: seq<AttrSpec>,
    multi: bool)

  /** The fields drawn once per payment.  Dates are day offsets from today, the amount is in cents. */
  datatype PaymentFields = PaymentFields(
    id: string,
    originKind: string,
    originNum: nat,
    date: int,
    alternate: Value,
    processor: string,
    amount: int,
    note: string)

  /** Everything drawn for one payment: its fields, its custom attribute cells and the invoices it settles. */
  datatype PaymentDraw = PaymentDraw(fields: PaymentFields, ca: Row, picks: seq<nat>, invoices: seq<string>)

  /** `generate_payment_id(n)`. */
  function PaymentId(n: nat): string {
    PaddedId(IdPrefix, n)
  }

  /** `generate_payment_alternate_date`: blank, or the payment date plus 7 to 30 days. */
  function AlternateDate(paymentDate: int, blank: bool, offset: int): (v: Value)
    requires 7 <= offset <= 30
    ensures v == Blank || (v.Int? && paymentDate + 7 <= v.i <= paymentDate + 30)
    ensures !blank ==> v.Int? && v.i > paymentDate
  {
    if blank then Blank else Int(paymentDate + offset)
  }

  /** The cells of the row literal for one invoice. */
  function PaymentValues(f: PaymentFields, invoice: string): seq<Value> {
    [Str(f.id), Str(Origin(f.originKind, f.originNum)), Int(f.date), f.alternate,
     Str(f.processor), Int(f.amount), Str(invoice), Str(f.note)]
  }

  /** The row for one invoice: the literal, then `row.update(custom_attrs)`. */
  function PaymentRow(f: PaymentFields, invoice: string, ca: Row): Row {
    Update(Dict(PaymentKeys, PaymentValues(f, invoice)), ca)
  }

  /** What the draws of payment number `p` (from 0) satisfy. */
  predicate FieldsOk(p: nat, f: PaymentFields, c: PaymentConfig) {
    f.id == PaymentId(p + 1) &&
    f.originKind in OriginKinds && 1 <= f.originNum <= 999 &&
    f.date == 0 &&
    (f.alternate == Blank || (f.alternate.Int? && f.date + 7 <= f.alternate.i <= f.date + 30)) &&
    f.processor in Processors(c.processors) &&
    AmountOk(f.amount, c.minAmount, c.maxAmount) &&
    f.note in Notes
  }

  /** The custom attribute cells: one per distinct column, in first-assignment order, each fitting the payment rule. */
  predicate CustomOk(ca: Row, attrs: seq<AttrSpec>) {
    DistinctKeys(ca) && Keys(ca) == AddKeys([], Columns(attrs)) && AttrsOk(ca, attrs, PaymentRule)
  }

  predicate DrawOk(p: nat, d: PaymentDraw, c: PaymentConfig) {
    FieldsOk(p, d.fields, c) && CustomOk(d.ca, c.attrs) && SelectionOk(d.picks, d.invoices, c.choices, c.multi)
  }

  /** The rows of one payment: one per selected invoice, all built from the same fields and attribute cells. */
  predicate GroupOf(g: seq<Row>, d: PaymentDraw) {
    |g| == |d.invoices| && forall j :: 0 <= j < |g| ==> g[j] == PaymentRow(d.fields, d.invoices[j], d.ca)
  }

  /** Payment `p` of `ds` drew `ds[p]` and produced `gs[p]`. */
  predicate PaymentsOk(gs: seq<seq<Row>>, ds: seq<PaymentDraw>, c: PaymentConfig)
    decreases |gs|
  {
    |gs| == |ds| &&
    (gs == [] ||
     (PaymentsOk(gs[..|gs| - 1], ds[..|ds| - 1], c) &&
      GroupOf(gs[|gs| - 1], ds[|ds| - 1]) && DrawOk(|ds| - 1, ds[|ds| - 1], c)))
  }

  lemma {:induction false} PaymentsOkAt(gs: seq<seq<Row>>, ds: seq<PaymentDraw>, c: PaymentConfig, p: nat)
    requires PaymentsOk(gs, ds, c) && p < |gs|
    ensures GroupOf(gs[p], ds[p]) && DrawOk(p, ds[p], c)
    decreases |gs|
  {
    if p < |gs| - 1 {
      PaymentsOkAt(gs[..|gs| - 1], ds[..|ds| - 1], c, p);
    }
  }

  lemma PaymentsSnoc(gs: seq<seq<Row>>, ds: seq<PaymentDraw>, c: PaymentConfig, g: seq<Row>, d: PaymentDraw)
    requires PaymentsOk(gs, ds, c) && GroupOf(g, d) && DrawOk(|ds|, d, c)
    ensures PaymentsOk(gs + [g], ds + [d], c)
    ensures Flatten(gs + [g]) == Flatten(gs) + g
  {
    assert (gs + [g])[..|gs|] == gs;
    assert (ds + [d])[..|ds|] == ds;
  }

  // ---------------------------------------------------------------------------
  // Generation

  /** The fields of payment number `p` (from 0), drawn in the order the loop body draws them. */
  method DrawFields(p: nat, c: PaymentConfig) returns (f: PaymentFields)
    requires c.processors != []
    ensures FieldsOk(p, f, c)
  {
    var id := PaymentId(p + 1);
    var k :| 0 <= k < |OriginKinds|;
    var num :| 1 <= num <= 999;
    var date := 0;
    var blank: bool :| true;
    var offset :| 7 <= offset <= 30;
    var alternate := AlternateDate(date, blank, offset);
    var pi :| 0 <= pi < |c.processors|;
    var amount :| Min(c.minAmount, c.maxAmount) <= amount <= (if c.minAmount <= c.maxAmount then c.maxAmount else c.minAmount);
    var ni :| 0 <= ni < |Notes|;
    f := PaymentFields(id, OriginKinds[k], num, date, alternate, c.processors[pi], amount, Notes[ni]);
  }

  /** One payment: its fields, its custom attributes, its invoices, and one row per invoice. */
  method GeneratePayment(p: nat, c: PaymentConfig) returns (g: seq<Row>, ghost d: PaymentDraw)
    requires c.processors != [] && c.choices != [] && (c.multi ==> |c.choices| >= 2)
    ensures GroupOf(g, d) && DrawOk(p, d, c)
  {
    var f := DrawFields(p, c);
    var ca := ApplyRandomAttrs([], c.attrs, PaymentRule);
    var picks, invoices := SelectInvoices(c.choices, c.multi);
    d := PaymentDraw(f, ca, picks, invoices);
    g := [];
    var j := 0;
    while j < |invoices|
      invariant 0 <= j <= |invoices| && |g| == j
      invariant forall i :: 0 <= i < j ==> g[i] == PaymentRow(f, invoices[i], ca)
    {
      g := g + [PaymentRow(f, invoices[j], ca)];
      j := j + 1;
    }
  }

  /**
    `generate_payment_rows`.  It fails when there are no invoice identifiers,
    and when a multi-invoice payment is due but there is only one identifier
    (`randint(2, 1)` raises on the first payment, so no rows are returned).
   */
  method GeneratePaymentRows(count: nat, explicitIds: seq<string>, fileIds: seq<string>, attrs: seq<AttrSpec>,
                             multi: bool, minAmount: int, maxAmount: int, processors: seq<string>)
    returns (res: Result<seq<Row>>, ghost groups: seq<seq<Row>>, ghost draws: seq<PaymentDraw>)
    ensures var choices := InvoiceChoices(explicitIds, fileIds);
      res.Err? <==> choices == [] || (count > 0 && multi && |choices| < 2)
    ensures res.Ok? ==>
      var c := PaymentConfig(InvoiceChoices(explicitIds, fileIds), Processors(processors), minAmount, maxAmount, attrs, multi);
      |groups| == count && res.value == Flatten(groups) && PaymentsOk(groups, draws, c)
  {
    var choices := InvoiceChoices(explicitIds, fileIds);
    if choices == [] {
      return Err("No invoice IDs available for payment generation."), [], [];
    }
    if count > 0 && multi && |choices| < 2 {
      return Err("empty range in randint(2, 1)"), [], [];
    }
    var c := PaymentConfig(choices, Processors(processors), minAmount, maxAmount, attrs, multi);
    var rows: seq<Row> := [];
    groups, draws := [], [];
    var p := 0;
    while p < count
      invariant 0 <= p <= count && |groups| == p
      invariant rows == Flatten(groups) && PaymentsOk(groups, draws, c)
    {
      var g, d := GeneratePayment(p, c);
      PaymentsSnoc(groups, draws, c, g, d);
      rows := rows + g;
      groups, draws := groups + [g], draws + [d];
      p := p + 1;
    }
    res := Ok(rows);
  }

  // ---------------------------------------------------------------------------
  // What the rows look like

  lemma PaymentKeysDistinct()
    ensures |PaymentKeys| == 8 && Distinct(PaymentKeys)
    ensures forall i :: 0 <= i < 8 ==> PaymentKeys[i][0] == 'p'
  {
  }

  /** Every custom attribute cell sits in a prefixed column. */
  lemma CustomKeyPrefixed(ca: Row, attrs: seq<AttrSpec>, k: string)
    requires CustomOk(ca, attrs) && AllPrefixed(attrs, AttrPrefix) && k in Keys(ca)
    ensures |k| > 0 && k[0] == 'c'
  {
    AddKeysOnly([], Columns(attrs), k);
    var i :| 0 <= i < |attrs| && Columns(attrs)[i] == k;
    assert HasPrefix(attrs[i].column, AttrPrefix);
  }

  /** A custom attribute column never clashes with a fixed column. */
  lemma CustomKeysFresh(ca: Row, attrs: seq<AttrSpec>)
    requires CustomOk(ca, attrs) && AllPrefixed(attrs, AttrPrefix)
    ensures forall k :: k in Keys(ca) ==> k !in PaymentKeys
  {
    PaymentKeysDistinct();
    forall k | k in Keys(ca) ensures k !in PaymentKeys {
      CustomKeyPrefixed(ca, attrs, k);
    }
  }

  /** The update only appends: the row is the literal followed by the custom attribute cells. */
  lemma PaymentRowAppends(f: PaymentFields, invoice: string, ca: Row, attrs: seq<AttrSpec>)
    requires CustomOk(ca, attrs) && AllPrefixed(attrs, AttrPrefix)
    ensures PaymentRow(f, invoice, ca) == Dict(PaymentKeys, PaymentValues(f, invoice)) + ca
    ensures Keys(PaymentRow(f, invoice, ca)) == PaymentKeys + Keys(ca)
  {
    var base := Dict(PaymentKeys, PaymentValues(f, invoice));
    assert Keys(base) == PaymentKeys && DistinctKeys(base) by {
      PaymentKeysDistinct();
      DictKeys(PaymentKeys, PaymentValues(f, invoice));
    }
    CustomKeysFresh(ca, attrs);
    UpdateAppends(base, ca);
  }

  /** Each fixed column holds its field, the invoice column the invoice, and each custom column its cell. */
  lemma PaymentRowCells(f: PaymentFields, invoice: string, ca: Row, attrs: seq<AttrSpec>)
    requires CustomOk(ca, attrs) && AllPrefixed(attrs, AttrPrefix)
    ensures forall j :: 0 <= j < 8 ==> Get(PaymentRow(f, invoice, ca), PaymentKeys[j]) == Some(PaymentValues(f, invoice)[j])
    ensures Get(PaymentRow(f, invoice, ca), InvoiceKey) == Some(Str(invoice))
    ensures Get(PaymentRow(f, invoice, ca), "payment_id") == Some(Str(f.id))
    ensures forall k :: k in Keys(ca) ==> Get(PaymentRow(f, invoice, ca), k) == Get(ca, k)
  {
    var base := Dict(PaymentKeys, PaymentValues(f, invoice));
    PaymentRowAppends(f, invoice, ca, attrs);
    CustomKeysFresh(ca, attrs);
    PaymentKeysDistinct();
    DictKeys(PaymentKeys, PaymentValues(f, invoice));
    forall j | 0 <= j < 8 ensures Get(base + ca, PaymentKeys[j]) == Some(PaymentValues(f, invoice)[j]) {
      DictGet(PaymentKeys, PaymentValues(f, invoice), j);
      GetAppend(base, ca, PaymentKeys[j]);
    }
    assert PaymentKeys[6] == InvoiceKey && PaymentKeys[0] == "payment_id";
    forall k | k in Keys(ca) ensures Get(base + ca, k) == Get(ca, k) {
      GetAppend(base, ca, k);
    }
  }

  /**
    Two rows of one payment differ at most in the invoice column: same
    columns in the same order, same payment fields, same custom values.
   */
  lemma RowsShareFields(f: PaymentFields, a: string, b: string, ca: Row, attrs: seq<AttrSpec>, k: string)
    requires CustomOk(ca, attrs) && AllPrefixed(attrs, AttrPrefix)
    requires k != InvoiceKey
    ensures Keys(PaymentRow(f, a, ca)) == Keys(PaymentRow(f, b, ca))
    ensures Get(PaymentRow(f, a, ca), k) == Get(PaymentRow(f, b, ca), k)
  {
    PaymentRowAppends(f, a, ca, attrs);
    PaymentRowAppends(f, b, ca, attrs);
    var va, vb := PaymentValues(f, a), PaymentValues(f, b);
    assert Get(Dict(PaymentKeys, vb), k) == Get(Dict(PaymentKeys, va), k) &&
           Keys(Dict(PaymentKeys, vb)) == Keys(Dict(PaymentKeys, va)) by {
      PaymentKeysDistinct();
      assert vb == va[6 := vb[6]];
      DictGetOther(PaymentKeys, va, vb, 6, k);
    }
    AppendSame(Dict(PaymentKeys, vb), Dict(PaymentKeys, va), ca, k);
  }

  /** A constant attribute with a value has that value on every row of every payment. */
  lemma ConstantOnEveryRow(d: PaymentDraw, attrs: seq<AttrSpec>, invoice: string, i: nat)
    requires CustomOk(d.ca, attrs) && AllPrefixed(attrs, AttrPrefix)
    requires i < |attrs| && LastFor(attrs, i) && attrs[i].constant && attrs[i].value.Some?
    ensures Get(PaymentRow(d.fields, invoice, d.ca), attrs[i].column) == Some(attrs[i].value.value)
  {
    assert CellOk(d.ca, attrs[i], PaymentRule);
    PaymentRowCells(d.fields, invoice, d.ca, attrs);
  }

  /** Payments get distinct identifiers, so rows of different payments never share one. */
  lemma PaymentIdsDistinct(gs: seq<seq<Row>>, ds: seq<PaymentDraw>, c: PaymentConfig, p: nat, q: nat)
    requires PaymentsOk(gs, ds, c) && p < q < |ds|
    ensures ds[p].fields.id != ds[q].fields.id
  {
    PaymentsOkAt(gs, ds, c, p);
    PaymentsOkAt(gs, ds, c, q);
    if ds[p].fields.id == ds[q].fields.id {
      PaddedIdInjective(IdPrefix, p + 1, q + 1);
    }
  }

  /** One row per payment, or between 2 and 5 per payment with multi-invoice payments. */
  lemma RowCount(gs: seq<seq<Row>>, ds: seq<PaymentDraw>, c: PaymentConfig)
    requires PaymentsOk(gs, ds, c)
    ensures !c.multi ==> |Flatten(gs)| == |gs|
    ensures c.multi ==> 2 * |gs| <= |Flatten(gs)| <= 5 * |gs|
  {
    forall p | 0 <= p < |gs| ensures (if c.multi then 2 else 1) <= |gs[p]| <= (if c.multi then 5 else 1) {
      PaymentsOkAt(gs, ds, c, p);
    }
    if c.multi {
      FlattenBounds(gs, 2, 5);
    } else {
      FlattenBounds(gs, 1, 1);
    }
  }
}
