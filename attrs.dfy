/**
  Custom attributes: user-defined columns (`ca_*_attr_<name>`) whose value is
  drawn according to the attribute's type.  Every generator carries its own copy
  of `_random_value_for_attr`; the invoice, purchase order, purchase invoice,
  payment and purchase payment copies agree, the order copy writes today's date
  for a date attribute, and the account generator has its own variant that
  honours `constant` and treats the quantity bounds differently.
 */
module CustomAttributes {
  import opened Rows
  import opened Text
  import opened Calendar

  datatype AttrType =
    | BoolType | Checkboxes | DateType | Dropdown | DropdownMulti | Money
    | Quantity | Number | StringType | Radio | TextType
    | Unknown   // any other type name

  /** One attribute definition as the prompts and the default builders produce it. */
  datatype AttrSpec = AttrSpec(
    column: string,
    kind: AttrType,
    constant: bool,
    value: Option<Value>,
    options: seq<string>,
    quantityMin: Option<int>,
    quantityMax: Option<int>)

  /**
    The random draws one value may consume: a coin, a number (an index, an
    integer, a day offset, a month or an amount in cents), a day of the month,
    the distinct option positions of `random.sample`, and the Faker text.
   */
  datatype AttrDraw = AttrDraw(flag: bool, number: int, day: int, picks: seq<nat>, text: string)

  predicate IsMulti(kind: AttrType) { kind == Checkboxes || kind == DropdownMulti }

  predicate IsSingle(kind: AttrType) { kind == Dropdown || kind == Radio }

  predicate DistinctNats(xs: seq<nat>) {
    forall i, j :: 0 <= i < j < |xs| ==> xs[i] != xs[j]
  }

  // ---------------------------------------------------------------------------
  // Quantity bounds

  /** Python's `x or d` for an optional integer: missing and 0 both fall back to `d`. */
  function OrDefault(x: Option<int>, d: int): (r: int)
    ensures x.Some? && x.value != 0 ==> r == x.value
    ensures x.None? || x.value == 0 ==> r == d
  {
    if x.None? || x.value == 0 then d else x.value
  }

  /** The range `randint` draws a quantity from: defaults 1 and 50 applied bound by bound, then put in order. */
  function QuantityBounds(a: AttrSpec): (b: (int, int))
    ensures b.0 <= b.1
    ensures multiset{b.0, b.1} == multiset{OrDefault(a.quantityMin, 1), OrDefault(a.quantityMax, 50)}
  {
    var lo := OrDefault(a.quantityMin, 1);
    var hi := OrDefault(a.quantityMax, 50);
    if lo > hi then (hi, lo) else (lo, hi)
  }

  /** The account generator's range: if either bound is missing both become 1 and 50; a 0 is kept. */
  function AccountQuantityBounds(a: AttrSpec): (b: (int, int))
    ensures b.0 <= b.1
    ensures a.quantityMin.None? || a.quantityMax.None? ==> b == (1, 50)
    ensures a.quantityMin.Some? && a.quantityMax.Some? ==>
      multiset{b.0, b.1} == multiset{a.quantityMin.value, a.quantityMax.value}
  {
    if a.quantityMin.None? || a.quantityMax.None? then (1, 50)
    else
      var lo := a.quantityMin.value;
      var hi := a.quantityMax.value;
      if lo > hi then (hi, lo) else (lo, hi)
  }

  /**
    A lower bound of 0 is read as "missing" by every generator but the account
    one, which keeps it: with a positive upper bound `m`, the others draw from
    1 to `m` and never 0, while the account generator draws from 0 to `m`.
   */
  lemma ZeroBoundQuirk(a: AttrSpec, m: int)
    requires a.quantityMin == Some(0) && a.quantityMax == Some(m)
    ensures m >= 1 ==> QuantityBounds(a) == (1, m) && AccountQuantityBounds(a) == (0, m)
    ensures m >= 1 ==> QuantityBounds(a).0 > 0
    ensures AccountQuantityBounds(a).0 <= 0 <= AccountQuantityBounds(a).1
  {
  }

  /**
    With one bound missing, the other generators keep the given bound `m`,
    while the account rule discards it and draws from 1 to 50.
   */
  lemma MissingBoundQuirk(a: AttrSpec, m: int)
    requires (a.quantityMin.None? && a.quantityMax == Some(m)) || (a.quantityMin == Some(m) && a.quantityMax.None?)
    requires m != 0
    ensures QuantityBounds(a).0 == m || QuantityBounds(a).1 == m
    ensures a.quantityMin.None? && m >= 1 ==> QuantityBounds(a) == (1, m)
    ensures a.quantityMax.None? && m <= 50 ==> QuantityBounds(a) == (m, 50)
    ensures AccountQuantityBounds(a) == (1, 50)
  {
  }

  // ---------------------------------------------------------------------------
  // Random values

  /** The draws `_random_value_for_attr` can make for this attribute. */
  predicate DrawFits(a: AttrSpec, d: AttrDraw, todayOnly: bool) {
    match a.kind
    case Checkboxes | DropdownMulti =>
      a.options != [] ==>
        1 <= |d.picks| <= |a.options| && DistinctNats(d.picks) &&
        forall i :: 0 <= i < |d.picks| ==> d.picks[i] < |a.options|
    case DateType => todayOnly || -365 <= d.number <= 365
    case Dropdown | Radio => a.options != [] ==> 0 <= d.number < |a.options|
    case Money => 100 <= d.number <= 1000000
    case Quantity => QuantityBounds(a).0 <= d.number <= QuantityBounds(a).1
    case Number => 0 <= d.number <= 1000
    case _ => true
  }

  lemma SomeDrawFits(a: AttrSpec, todayOnly: bool)
    ensures exists d :: DrawFits(a, d, todayOnly)
  {
    var n := match a.kind
      case Money => 100
      case Quantity => QuantityBounds(a).0
      case _ => 0;
    var d := AttrDraw(false, n, 1, if a.options == [] then [] else [0], "");
    assert DrawFits(a, d, todayOnly);
  }

  /** What a value of the attribute's type looks like. */
  predicate Plausible(a: AttrSpec, v: Value, todayOnly: bool) {
    match a.kind
    case BoolType => v.Bool?
    case Checkboxes | DropdownMulti =>
      v.Str? && (a.options == [] ==> v.s == "") && (a.options != [] && NoCommas(a.options) ==> IsSelection(v.s, a.options))
    case DateType => v.Int? && -365 <= v.i <= 365 && (todayOnly ==> v.i == 0)
    case Dropdown | Radio => v.Str? && if a.options == [] then v.s == "" else v.s in a.options
    case Money => v.Int? && 100 <= v.i <= 1000000
    case Quantity => v.Int? && QuantityBounds(a).0 <= v.i <= QuantityBounds(a).1
    case Number => v.Int? && 0 <= v.i <= 1000
    case StringType | TextType => v.Str?
    case Unknown => v == Blank
  }

  /** No option contains the separator of a multi-select value. */
  predicate NoCommas(options: seq<string>) {
    forall i :: 0 <= i < |options| ==> ',' !in options[i]
  }

  /**
    `s` joins a non-empty selection of the options with ",": splitting it gives
    between 1 and `len(options)` options, none repeated when the options
    themselves are distinct.
   */
  predicate IsSelection(s: string, options: seq<string>) {
    var parts := Split(s, ',');
    1 <= |parts| <= |options| && (forall i :: 0 <= i < |parts| ==> parts[i] in options) &&
    (Distinct(options) ==> Distinct(parts))
  }

  /** The options at the sampled positions, in sampling order. */
  function Picked(options: seq<string>, picks: seq<nat>): (r: seq<string>)
    requires forall i :: 0 <= i < |picks| ==> picks[i] < |options|
    ensures |r| == |picks|
    ensures forall i :: 0 <= i < |picks| ==> r[i] == options[picks[i]]
  {
    seq(|picks|, i requires 0 <= i < |picks| => options[picks[i]])
  }

  /**
    `_random_value_for_attr`.  Dates are day offsets from today (always 0 in the
    order generator, `todayOnly`); money is in cents.
   */
  function RandomValue(a: AttrSpec, d: AttrDraw, todayOnly: bool): (v: Value)
    requires DrawFits(a, d, todayOnly)
    ensures Plausible(a, v, todayOnly)
  {
    match a.kind
    case BoolType => Bool(d.flag)
    case Checkboxes | DropdownMulti =>
      if a.options == [] then Blank
      else MultiSelectSubset(a.options, d.picks); Str(Join(Picked(a.options, d.picks), ','))
    case DateType => Int(if todayOnly then 0 else d.number)
    case Dropdown | Radio => if a.options == [] then Blank else Str(a.options[d.number])
    case Money => Int(d.number)
    case Quantity => Int(d.number)
    case Number => Int(d.number)
    case StringType | TextType => Str(d.text)
    case Unknown => Blank
  }

  /**
    `",".join(random.sample(options, k))` with `1 <= k <= len(options)` is a
    selection of the options whenever no option contains ",".
   */
  lemma MultiSelectSubset(options: seq<string>, picks: seq<nat>)
    requires 1 <= |picks| <= |options| && DistinctNats(picks)
    requires forall i :: 0 <= i < |picks| ==> picks[i] < |options|
    ensures NoCommas(options) ==> IsSelection(Join(Picked(options, picks), ','), options)
  {
    var picked := Picked(options, picks);
    if NoCommas(options) {
      SplitJoin(picked, ',');
    }
  }

  /**
    The payment generators' rule: a constant attribute with a value is copied
    verbatim; every other attribute gets a random value.
   */
  function PaymentAttrValue(a: AttrSpec, d: AttrDraw): (v: Value)
    requires DrawFits(a, d, false)
    ensures a.constant && a.value.Some? ==> v == a.value.value
    ensures !(a.constant && a.value.Some?) ==> Plausible(a, v, false)
  {
    if a.constant && a.value.Some? then a.value.value else RandomValue(a, d, false)
  }

  /**
    The draws the account generator's attribute loop can make.  A date takes
    this year's current month when there are at most 30 rows or it is January,
    otherwise a month up to the current one, and then any day of that month.
   */
  predicate AccountDrawFits(a: AttrSpec, d: AttrDraw, today: Date, numRows: int) {
    match a.kind
    case DateType =>
      1 <= d.number <= 12 &&
      (if numRows <= 30 || today.month == 1 then d.number == today.month else d.number <= today.month) &&
      1 <= d.day <= DaysInMonth(today.year, d.number)
    case Checkboxes | DropdownMulti =>
      a.options != [] ==>
        1 <= |d.picks| <= |a.options| && DistinctNats(d.picks) &&
        forall i :: 0 <= i < |d.picks| ==> d.picks[i] < |a.options|
    case Dropdown | Radio => a.options != [] ==> 0 <= d.number < |a.options|
    case Money => 100 <= d.number <= 1000000
    case Quantity => AccountQuantityBounds(a).0 <= d.number <= AccountQuantityBounds(a).1
    case Number => 0 <= d.number <= 1000
    case _ => true
  }

  /** The earliest day offset an account date can take: the first of this month, or of January with more than 30 rows. */
  function FirstDateOffset(today: Date, numRows: int): int
    requires ValidDate(today)
  {
    if numRows <= 30 || today.month == 1 then 1 - today.day else 1 - DayOfYear(today)
  }

  /** The latest: the last day of this month. */
  function LastDateOffset(today: Date): int
    requires ValidDate(today)
  {
    DaysInMonth(today.year, today.month) - today.day
  }

  /** The date the account generator draws, as days from today. */
  function AccountDate(today: Date, month: int, day: int): (k: int)
    requires ValidDate(today) && 1 <= month <= today.month && 1 <= day <= DaysInMonth(today.year, month)
    ensures 1 - DayOfYear(today) <= k <= LastDateOffset(today)
    ensures month == today.month ==> 1 - today.day <= k
  {
    DaysFromMonths(today, Date(today.year, month, day));
    DaysFrom(today, Date(today.year, month, day))
  }

  /**
    The account generator's value: a constant attribute always takes its value
    (a missing value ends up as "" in the written file), otherwise a draw;
    string and unknown types both get a Faker word; a date falls between the
    first of this month (of January with more than 30 rows, outside January)
    and the end of this month.
   */
  function AccountAttrValue(a: AttrSpec, d: AttrDraw, today: Date, numRows: int): (v: Value)
    requires ValidDate(today) && AccountDrawFits(a, d, today, numRows)
    ensures a.constant ==> v == (if a.value.Some? then a.value.value else Blank)
    ensures !a.constant && a.kind == Quantity ==>
      v.Int? && AccountQuantityBounds(a).0 <= v.i <= AccountQuantityBounds(a).1
    ensures !a.constant && IsSingle(a.kind) ==>
      v.Str? && if a.options == [] then v.s == "" else v.s in a.options
    ensures !a.constant && IsMulti(a.kind) && a.options != [] && NoCommas(a.options) ==>
      v.Str? && IsSelection(v.s, a.options)
    ensures !a.constant && a.kind == DateType ==>
      v.Int? && FirstDateOffset(today, numRows) <= v.i <= LastDateOffset(today)
    ensures !a.constant && (a.kind == StringType || a.kind == Unknown) ==> v == Str(d.text)
  {
    if a.constant then (if a.value.Some? then a.value.value else Blank)
    else
      match a.kind
      case BoolType => Bool(d.flag)
      case Quantity => Int(d.number)
      case Number => Int(d.number)
      case Money => Int(d.number)
      case DateType => Int(AccountDate(today, d.number, d.day))
      case TextType => Str(d.text)
      case Dropdown | Radio => if a.options == [] then Blank else Str(a.options[d.number])
      case Checkboxes | DropdownMulti =>
        if a.options == [] then Blank
        else MultiSelectSubset(a.options, d.picks); Str(Join(Picked(a.options, d.picks), ','))
      case StringType | Unknown => Str(d.text)
  }

  // ---------------------------------------------------------------------------
  // The three rules for an attribute's value

  /**
    Which copy of the value rule a generator uses: a plain draw (dates fixed to
    today when `todayOnly`), the payment generators' constant-first rule, or
    the account generator's own rule, which reads the date of today and the
    number of rows.
   */
  datatype ValueRule = Drawn(todayOnly: bool) | PaymentRule | AccountRule(today: Date, numRows: int)

  /** The account rule needs a real date for today. */
  predicate RuleOk(rule: ValueRule) {
    rule.AccountRule? ==> ValidDate(rule.today)
  }

  /** What an account attribute's value looks like. */
  predicate AccountPlausible(a: AttrSpec, v: Value, today: Date, numRows: int)
    requires ValidDate(today)
  {
    if a.constant then v == (if a.value.Some? then a.value.value else Blank)
    else match a.kind
      case BoolType => v.Bool?
      case Quantity => v.Int? && AccountQuantityBounds(a).0 <= v.i <= AccountQuantityBounds(a).1
      case Number => v.Int? && 0 <= v.i <= 1000
      case Money => v.Int? && 100 <= v.i <= 1000000
      case DateType => v.Int? && FirstDateOffset(today, numRows) <= v.i <= LastDateOffset(today)
      case Dropdown | Radio => v.Str? && if a.options == [] then v.s == "" else v.s in a.options
      case Checkboxes | DropdownMulti =>
        v.Str? && (a.options == [] ==> v.s == "") && (a.options != [] && NoCommas(a.options) ==> IsSelection(v.s, a.options))
      case StringType | TextType | Unknown => v.Str?
  }

  /** The value `v` is one the rule can give attribute `a`. */
  predicate Fits(a: AttrSpec, v: Value, rule: ValueRule) {
    match rule
    case Drawn(todayOnly) => Plausible(a, v, todayOnly)
    case PaymentRule => if a.constant && a.value.Some? then v == a.value.value else Plausible(a, v, false)
    case AccountRule(today, numRows) => ValidDate(today) && AccountPlausible(a, v, today, numRows)
  }

  predicate RuleDrawFits(a: AttrSpec, d: AttrDraw, rule: ValueRule) {
    match rule
    case Drawn(todayOnly) => DrawFits(a, d, todayOnly)
    case PaymentRule => DrawFits(a, d, false)
    case AccountRule(today, numRows) => ValidDate(today) && AccountDrawFits(a, d, today, numRows)
  }

  lemma SomeRuleDrawFits(a: AttrSpec, rule: ValueRule)
    requires RuleOk(rule)
    ensures exists d :: RuleDrawFits(a, d, rule)
  {
    match rule
    case Drawn(todayOnly) =>
      SomeDrawFits(a, todayOnly);
      var d :| DrawFits(a, d, todayOnly);
      assert RuleDrawFits(a, d, rule);
    case PaymentRule =>
      SomeDrawFits(a, false);
      var d :| DrawFits(a, d, false);
      assert RuleDrawFits(a, d, rule);
    case AccountRule(today, numRows) =>
      var n := match a.kind
        case Quantity => AccountQuantityBounds(a).0
        case Money => 100
        case DateType => today.month
        case _ => 0;
      var d := AttrDraw(false, n, 1, if a.options == [] then [] else [0], "");
      assert AccountDrawFits(a, d, today, numRows);
      assert RuleDrawFits(a, d, rule);
  }

  /** The value the rule gives attribute `a` for draw `d`. */
  function RuleValue(a: AttrSpec, d: AttrDraw, rule: ValueRule): (v: Value)
    requires RuleDrawFits(a, d, rule)
    ensures Fits(a, v, rule)
  {
    match rule
    case Drawn(todayOnly) => RandomValue(a, d, todayOnly)
    case PaymentRule => PaymentAttrValue(a, d)
    case AccountRule(today, numRows) => AccountValueFits(a, d, today, numRows); AccountAttrValue(a, d, today, numRows)
  }

  lemma AccountValueFits(a: AttrSpec, d: AttrDraw, today: Date, numRows: int)
    requires ValidDate(today) && AccountDrawFits(a, d, today, numRows)
    ensures AccountPlausible(a, AccountAttrValue(a, d, today, numRows), today, numRows)
  {
  }

  // ---------------------------------------------------------------------------
  // Writing attribute columns into a row

  function Columns(attrs: seq<AttrSpec>): (cs: seq<string>)
    ensures |cs| == |attrs|
    ensures forall i :: 0 <= i < |attrs| ==> cs[i] == attrs[i].column
  {
    seq(|attrs|, i requires 0 <= i < |attrs| => attrs[i].column)
  }

  /** The key order after assigning `cols` one by one: new columns are appended in order. */
  function AddKeys(ks: seq<string>, cols: seq<string>): seq<string>
    decreases |cols|
  {
    if cols == [] then ks
    else AddKeys(if cols[0] in ks then ks else ks + [cols[0]], cols[1..])
  }

  /** Assigning columns never drops a key. */
  lemma {:induction false} AddKeysKeeps(ks: seq<string>, cols: seq<string>, k: string)
    requires k in ks
    ensures k in AddKeys(ks, cols)
    decreases |cols|
  {
    if cols != [] {
      AddKeysKeeps(if cols[0] in ks then ks else ks + [cols[0]], cols[1..], k);
    }
  }

  /** Every assigned column ends up among the keys. */
  lemma {:induction false} AddKeysHas(ks: seq<string>, cols: seq<string>, a: nat)
    requires a < |cols|
    ensures cols[a] in AddKeys(ks, cols)
    decreases |cols|
  {
    var ks' := if cols[0] in ks then ks else ks + [cols[0]];
    if a == 0 {
      AddKeysKeeps(ks', cols[1..], cols[0]);
    } else {
      AddKeysHas(ks', cols[1..], a - 1);
    }
  }

  /** Assigning columns adds no key but those columns. */
  lemma {:induction false} AddKeysOnly(ks: seq<string>, cols: seq<string>, k: string)
    requires k in AddKeys(ks, cols)
    ensures k in ks || k in cols
    decreases |cols|
  {
    if cols != [] {
      var ks' := if cols[0] in ks then ks else ks + [cols[0]];
      AddKeysOnly(ks', cols[1..], k);
      if k in cols[1..] {
        assert k in cols;
      }
    }
  }

  /** Assigning columns keeps the existing keys in front, in their order. */
  lemma {:induction false} AddKeysExtends(ks: seq<string>, cols: seq<string>)
    ensures |ks| <= |AddKeys(ks, cols)| && AddKeys(ks, cols)[..|ks|] == ks
    decreases |cols|
  {
    if cols != [] {
      var ks' := if cols[0] in ks then ks else ks + [cols[0]];
      AddKeysExtends(ks', cols[1..]);
      assert ks'[..|ks|] == ks;
      assert AddKeys(ks, cols)[..|ks|] == AddKeys(ks', cols[1..])[..|ks'|][..|ks|];
    }
  }

  /** A key that is neither among the keys nor among the columns is not added. */
  lemma {:induction false} AddKeysAbsent(ks: seq<string>, cols: seq<string>, k: string)
    requires k !in ks && k !in cols
    ensures k !in AddKeys(ks, cols)
    decreases |cols|
  {
    if cols != [] {
      var ks' := if cols[0] in ks then ks else ks + [cols[0]];
      assert k !in cols[1..];
      AddKeysAbsent(ks', cols[1..], k);
    }
  }

  /** No attribute after `i` and before `n` writes the column attribute `i` writes. */
  predicate LastBefore(attrs: seq<AttrSpec>, i: int, n: int)
    requires 0 <= i < n <= |attrs|
  {
    forall j :: i < j < n ==> attrs[j].column != attrs[i].column
  }

  /** Attribute `i` is the last one writing its column, so its value is the one that stays. */
  predicate LastFor(attrs: seq<AttrSpec>, i: int)
    requires 0 <= i < |attrs|
  {
    LastBefore(attrs, i, |attrs|)
  }

  /** Every column starts with the given prefix (as the attribute builders name them). */
  predicate AllPrefixed(attrs: seq<AttrSpec>, prefix: string) {
    forall i :: 0 <= i < |attrs| ==> HasPrefix(attrs[i].column, prefix)
  }

  /** The column of attribute `a` is present and holds a plausible value for it. */
  predicate CellOk(row: Row, a: AttrSpec, rule: ValueRule) {
    Get(row, a.column).Some? && Fits(a, Get(row, a.column).value, rule)
  }

  /** Each of the first `n` attributes that no later one among them overrides has a plausible value in its column. */
  predicate AppliedUpTo(row: Row, attrs: seq<AttrSpec>, n: nat, rule: ValueRule)
    requires n <= |attrs|
  {
    forall i :: 0 <= i < n && LastBefore(attrs, i, n) ==> CellOk(row, attrs[i], rule)
  }

  /** Every attribute column holds a plausible value for the last attribute naming it. */
  predicate AttrsOk(row: Row, attrs: seq<AttrSpec>, rule: ValueRule) {
    AppliedUpTo(row, attrs, |attrs|, rule)
  }

  /** A cell that reads the same in two rows is valid in both or in neither. */
  lemma CellFrame(row: Row, r: Row, a: AttrSpec, rule: ValueRule)
    requires Get(r, a.column) == Get(row, a.column) && CellOk(row, a, rule)
    ensures CellOk(r, a, rule)
  {
  }

  /** Attribute cells that read the same in two rows keep `AttrsOk`. */
  lemma AttrsFrame(row: Row, r: Row, attrs: seq<AttrSpec>, rule: ValueRule)
    requires forall i :: 0 <= i < |attrs| ==> Get(r, attrs[i].column) == Get(row, attrs[i].column)
    requires AttrsOk(row, attrs, rule)
    ensures AttrsOk(r, attrs, rule)
  {
    forall i | 0 <= i < |attrs| && LastBefore(attrs, i, |attrs|) ensures CellOk(r, attrs[i], rule) {
      CellFrame(row, r, attrs[i], rule);
    }
  }

  /** Writing column `n` leaves valid the cells of earlier attributes that no attribute up to `n` overrides. */
  lemma AppliedKeep(row: Row, attrs: seq<AttrSpec>, n: nat, v: Value, rule: ValueRule, i: nat)
    requires i < n < |attrs| && AppliedUpTo(row, attrs, n, rule)
    requires LastBefore(attrs, i, n + 1)
    ensures CellOk(Set(row, attrs[n].column, v), attrs[i], rule)
  {
    assert LastBefore(attrs, i, n);
    CellFrame(row, Set(row, attrs[n].column, v), attrs[i], rule);
  }

  /** Writing a plausible value for attribute `n` makes its own cell valid. */
  lemma AppliedWritten(row: Row, attrs: seq<AttrSpec>, n: nat, v: Value, rule: ValueRule)
    requires n < |attrs| && Fits(attrs[n], v, rule)
    ensures CellOk(Set(row, attrs[n].column, v), attrs[n], rule)
  {
  }

  /** Writing a plausible value for attribute `n` extends `AppliedUpTo` by one attribute. */
  lemma AppliedStep(row: Row, attrs: seq<AttrSpec>, n: nat, v: Value, rule: ValueRule)
    requires n < |attrs| && AppliedUpTo(row, attrs, n, rule)
    requires Fits(attrs[n], v, rule)
    ensures AppliedUpTo(Set(row, attrs[n].column, v), attrs, n + 1, rule)
  {
    var r := Set(row, attrs[n].column, v);
    forall i | 0 <= i < n && LastBefore(attrs, i, n + 1) ensures CellOk(r, attrs[i], rule) {
      AppliedKeep(row, attrs, n, v, rule, i);
    }
    AppliedWritten(row, attrs, n, v, rule);
  }

  /** What holds after the first `n` attributes of `attrs` have been written into `row`, giving `r`. */
  ghost predicate Applied(row: Row, r: Row, attrs: seq<AttrSpec>, n: nat, rule: ValueRule)
    requires n <= |attrs|
  {
    DistinctKeys(r) &&
    AddKeys(Keys(r), Columns(attrs)[n..]) == AddKeys(Keys(row), Columns(attrs)) &&
    (forall k :: k !in Columns(attrs)[..n] ==> Get(r, k) == Get(row, k)) &&
    AppliedUpTo(r, attrs, n, rule)
  }

  /** The key order: writing column `n` moves it from the pending columns into the row. */
  lemma AddKeysStep(r: Row, cols: seq<string>, n: nat, v: Value)
    requires n < |cols|
    ensures AddKeys(Keys(Set(r, cols[n], v)), cols[n + 1..]) == AddKeys(Keys(r), cols[n..])
  {
    assert cols[n..][0] == cols[n] && cols[n..][1..] == cols[n + 1..];
  }

  /** Writing attribute `n` keeps every column outside the first `n + 1` attribute columns. */
  lemma FrameStep(row: Row, r: Row, cols: seq<string>, n: nat, v: Value)
    requires n < |cols|
    requires forall k :: k !in cols[..n] ==> Get(r, k) == Get(row, k)
    ensures forall k :: k !in cols[..n + 1] ==> Get(Set(r, cols[n], v), k) == Get(row, k)
  {
    assert cols[..n + 1] == cols[..n] + [cols[n]];
  }

  lemma AppliedNext(row: Row, r: Row, attrs: seq<AttrSpec>, n: nat, v: Value, rule: ValueRule)
    requires n < |attrs| && Applied(row, r, attrs, n, rule)
    requires Fits(attrs[n], v, rule)
    ensures Applied(row, Set(r, attrs[n].column, v), attrs, n + 1, rule)
  {
    var cols := Columns(attrs);
    SetDistinct(r, cols[n], v);
    AddKeysStep(r, cols, n, v);
    FrameStep(row, r, cols, n, v);
    AppliedStep(r, attrs, n, v, rule);
  }

  lemma AppliedDone(row: Row, r: Row, attrs: seq<AttrSpec>, rule: ValueRule)
    requires Applied(row, r, attrs, |attrs|, rule)
    ensures DistinctKeys(r)
    ensures Keys(r) == AddKeys(Keys(row), Columns(attrs))
    ensures forall k :: k !in Columns(attrs) ==> Get(r, k) == Get(row, k)
    ensures AttrsOk(r, attrs, rule)
  {
    assert Columns(attrs)[|attrs|..] == [];
    assert Columns(attrs)[..|attrs|] == Columns(attrs);
  }

  /**
    `for attr in attrs: row[attr["column_name"]] = _random_value_for_attr(attr)`.
    Other columns are untouched, new columns are appended in order, and each
    attribute column holds a plausible value for the last attribute naming it.
   */
  method ApplyRandomAttrs(row: Row, attrs: seq<AttrSpec>, rule: ValueRule) returns (r: Row)
    requires DistinctKeys(row) && RuleOk(rule)
    ensures DistinctKeys(r)
    ensures Keys(r) == AddKeys(Keys(row), Columns(attrs))
    ensures forall k :: k !in Columns(attrs) ==> Get(r, k) == Get(row, k)
    ensures AttrsOk(r, attrs, rule)
  {
    r := row;
    var n := 0;
    while n < |attrs|
      invariant 0 <= n <= |attrs|
      invariant Applied(row, r, attrs, n, rule)
    {
      var a := attrs[n];
      SomeRuleDrawFits(a, rule);
      var d: AttrDraw :| RuleDrawFits(a, d, rule);
      var v := RuleValue(a, d, rule);
      AppliedNext(row, r, attrs, n, v, rule);
      r := Set(r, a.column, v);
      n := n + 1;
    }
    AppliedDone(row, r, attrs, rule);
  }
}
