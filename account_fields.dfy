/**
  The per-account building blocks of `account_csv_generator.py`: account ids
  and their uniqueness, the email domain derived from a name, the billing
  day-of-month text, the clamps applied to the configuration, the primary
  address fields, contacts and payment methods.
 */
module AccountFields {
  import opened Rows
  import opened Text

  // ---------------------------------------------------------------------------
  // Account ids

  const AccountIdPrefix: string := "CSV-ACC-"

  /** `CSV-ACC-`, five digits, `-` and `CUS` or `SUP`. */
  predicate IsAccountId(s: string) {
    |s| == 17 && HasPrefix(s, AccountIdPrefix) && AllDigits(s[8..13]) && s[13] == '-' &&
    (s[14..] == "CUS" || s[14..] == "SUP")
  }

  /** `generate_account_id`: a number drawn from 10000..99999 and a suffix drawn from `CUS` and `SUP`. */
  function AccountId(n: nat, supplier: bool): (id: string)
    requires 10000 <= n <= 99999
    ensures IsAccountId(id)
    ensures ParseDec(id[8..13]) == n
    ensures id[14..] == if supplier then "SUP" else "CUS"
  {
    var suffix := if supplier then "SUP" else "CUS";
    Pow10Values();
    DecLength(n, 5);
    ParseDec_Dec(n);
    var id := AccountIdPrefix + Dec(n) + "-" + suffix;
    assert id[..8] == AccountIdPrefix;
    assert id[8..13] == Dec(n);
    assert id[14..] == suffix;
    id
  }

  /** Different draws give different ids. */
  lemma AccountIdInjective(n: nat, a: bool, m: nat, b: bool)
    requires 10000 <= n <= 99999 && 10000 <= m <= 99999
    requires AccountId(n, a) == AccountId(m, b)
    ensures n == m && a == b
  {
  }

  /** There are 180000 account ids; the `i`-th, for counting them (the last one past the end). */
  function NthAccountId(i: nat): string {
    var k := if i < 180000 then i else 179999;
    AccountId(10000 + k / 2, k % 2 == 1)
  }

  lemma NthAccountIdDistinct(i: nat, j: nat)
    requires i < j < 180000
    ensures NthAccountId(i) != NthAccountId(j)
  {
    var x, y := NthAccountId(i), NthAccountId(j);
    assert ParseDec(x[8..13]) == 10000 + i / 2 && ParseDec(y[8..13]) == 10000 + j / 2;
    assert x[14..] == (if i % 2 == 1 then "SUP" else "CUS");
    assert y[14..] == (if j % 2 == 1 then "SUP" else "CUS");
  }

  /**
    The id retry loop: `generate_account_id` is called until it gives an id
    not used yet.  While fewer than 180000 ids are used such an id exists,
    and the loop is modelled by choosing one.
   */
  method FreshAccountId(used: set<string>) returns (id: string)
    requires |used| < 180000
    ensures IsAccountId(id) && id !in used
  {
    forall i: nat, j: nat | i < j < 180000 ensures NthAccountId(i) != NthAccountId(j) {
      NthAccountIdDistinct(i, j);
    }
    Pigeonhole(used, NthAccountId, 180000);
    var i :| 0 <= i < 180000 && NthAccountId(i) !in used;
    id := NthAccountId(i);
  }

  /**
    The name retry loop: `generate_account_name` is called until it gives a
    name not used yet.  Names come from Faker, so any non-empty name may be
    drawn; a finite set of used names always leaves one free (the numerals
    below serve only to show that one exists).
   */
  method FreshAccountName(used: set<string>) returns (name: string)
    ensures name != "" && name !in used
  {
    forall i: nat, j: nat | i < j < |used| + 1 ensures Dec(i) != Dec(j) {
      if Dec(i) == Dec(j) {
        DecInjective(i, j);
      }
    }
    Pigeonhole(used, i => Dec(i), |used| + 1);
    var i :| 0 <= i < |used| + 1 && Dec(i) !in used;
    assert Dec(i) != "" && Dec(i) !in used;
    name :| name != "" && name !in used;
  }

  // ---------------------------------------------------------------------------
  // Email domains

  const DefaultExtensions: seq<string> := [".com.au", ".net.au", ".org.au"]

  /**
    The part of `name_to_domain` before the extension: lower-cased, spaces to
    `-`, `&` to `and`, commas, apostrophes and periods dropped, `pty-ltd`,
    `inc` and `corp` removed, then `-` stripped from both ends.
   */
  function DomainStem(name: string): (d: string)
    ensures ' ' !in d && ',' !in d && '\'' !in d && '.' !in d
    ensures d == [] || (d[0] != '-' && d[|d| - 1] != '-')
  {
    var s1 := Replace(Lower(name), " ", "-");
    var s2 := Replace(s1, "&", "and");
    var s3 := Replace(s2, ",", "");
    var s4 := Replace(s3, "'", "");
    var s5 := Replace(s4, ".", "");
    var s6 := Replace(s5, "pty-ltd", "");
    var s7 := Replace(s6, "inc", "");
    var s8 := Replace(s7, "corp", "");
    DomainStemClean(name);
    StripChar(s8, '-')
  }

  /** Each character the stem must not hold is removed by one replacement and never brought back. */
  lemma DomainStemClean(name: string)
    ensures var s1 := Replace(Lower(name), " ", "-");
      var s2 := Replace(s1, "&", "and");
      var s3 := Replace(s2, ",", "");
      var s4 := Replace(s3, "'", "");
      var s5 := Replace(s4, ".", "");
      var s6 := Replace(s5, "pty-ltd", "");
      var s7 := Replace(s6, "inc", "");
      var s8 := Replace(s7, "corp", "");
      ' ' !in s8 && ',' !in s8 && '\'' !in s8 && '.' !in s8
  {
    var s1 := Replace(Lower(name), " ", "-");
    var s2 := Replace(s1, "&", "and");
    var s3 := Replace(s2, ",", "");
    var s4 := Replace(s3, "'", "");
    var s5 := Replace(s4, ".", "");
    ReplaceRemoves(Lower(name), ' ', "-");
    ReplaceRemoves(s2, ',', "");
    ReplaceRemoves(s3, '\'', "");
    ReplaceRemoves(s4, '.', "");
  }

  /** `extensions`, or the three Australian extensions when none are given. */
  function ExtensionsOr(extensions: Option<seq<string>>): (r: seq<string>)
    ensures extensions.None? ==> r == DefaultExtensions
  {
    if extensions.Some? then extensions.value else DefaultExtensions
  }

  /**
    `name_to_domain(name, extensions)`: the stem followed by the extension
    drawn from `extensions` (from the defaults when it is `None`).
   */
  function NameToDomain(name: string, extensions: Option<seq<string>>, pick: nat): (d: string)
    requires pick < |ExtensionsOr(extensions)|
    ensures HasPrefix(d, DomainStem(name)) && HasSuffix(d, ExtensionsOr(extensions)[pick])
    ensures |d| == |DomainStem(name)| + |ExtensionsOr(extensions)[pick]|
  {
    var ext := ExtensionsOr(extensions)[pick];
    PrefixOfConcat(DomainStem(name), ext);
    assert (DomainStem(name) + ext)[|DomainStem(name)|..] == ext;
    DomainStem(name) + ext
  }

  /**
    The email domain and the website domain of one account differ only in
    the extension: the part before it holds no space, comma, apostrophe or
    period and neither starts nor ends with `-`; the email domain ends in a
    default extension and the website in `.com`.
   */
  lemma DomainsShareStem(name: string, pick: nat)
    requires pick < |DefaultExtensions|
    ensures var email := NameToDomain(name, None, pick);
      var web := NameToDomain(name, Some([".com"]), 0);
      var n := |DomainStem(name)|;
      n <= |email| && n <= |web| && email[..n] == web[..n] &&
      ' ' !in email[..n] && ',' !in email[..n] && '\'' !in email[..n] && '.' !in email[..n] &&
      (n > 0 ==> email[0] != '-' && email[n - 1] != '-') &&
      email[n..] in DefaultExtensions && web[n..] == ".com"
  {
    var email := NameToDomain(name, None, pick);
    var web := NameToDomain(name, Some([".com"]), 0);
    assert email[|DomainStem(name)|..] == DefaultExtensions[pick];
  }

  // ---------------------------------------------------------------------------
  // Billing start day of month

  /** `random.choice(list(range(1, 31)) + ['END'])`. */
  datatype DayChoice = Day(d: nat) | End

  predicate DayChoiceOk(c: DayChoice) {
    c.Day? ==> 1 <= c.d <= 30
  }

  /** The suffix the generator writes after a day number. */
  function DaySuffix(d: nat): string {
    if d == 1 || d == 21 then "st"
    else if d == 2 || d == 22 then "nd"
    else if d == 3 || d == 23 then "rd"
    else "th"
  }

  /** The English ordinal suffix: `th` for 11 to 13, otherwise by the last digit. */
  function OrdinalSuffix(n: nat): string {
    if 11 <= n % 100 <= 13 then "th"
    else if n % 10 == 1 then "st"
    else if n % 10 == 2 then "nd"
    else if n % 10 == 3 then "rd"
    else "th"
  }

  /** On the days the generator draws, its suffix is the English ordinal suffix. */
  lemma DaySuffixIsOrdinal(d: nat)
    requires 1 <= d <= 30
    ensures DaySuffix(d) == OrdinalSuffix(d)
  {
    assert d % 100 == d;
    if d < 10 {
      assert d % 10 == d;
    } else if d < 20 {
      assert d % 10 == d - 10;
    } else if d < 30 {
      assert d % 10 == d - 20;
    } else {
      assert d % 10 == 0;
    }
  }

  /**
    `account_billing_start_day_of_month`: "" unless the billing start is
    `DAY_OF_MONTH`; then "End of the Month" for `END`, or the day, its
    ordinal suffix and " of The Month".
   */
  function BillingDayOfMonth(start: string, c: DayChoice): (s: string)
    requires DayChoiceOk(c)
    ensures start != "DAY_OF_MONTH" ==> s == ""
    ensures start == "DAY_OF_MONTH" && c.End? ==> s == "End of the Month"
    ensures start == "DAY_OF_MONTH" && c.Day? ==>
      HasPrefix(s, Dec(c.d)) && HasSuffix(s, OrdinalSuffix(c.d) + " of The Month") &&
      ParseDec(s[..|Dec(c.d)|]) == c.d
  {
    if start != "DAY_OF_MONTH" then ""
    else match c
      case End => "End of the Month"
      case Day(d) =>
        DaySuffixIsOrdinal(d);
        ParseDec_Dec(d);
        var tail := DaySuffix(d) + " of The Month";
        PrefixOfConcat(Dec(d), tail);
        assert (Dec(d) + tail)[..|Dec(d)|] == Dec(d);
        assert (Dec(d) + tail)[|Dec(d)|..] == tail;
        Dec(d) + tail
  }

  // ---------------------------------------------------------------------------
  // Clamping the configuration

  /** `max(1, min(5, n))`, used for the contact count and the address line count. */
  function ClampOneToFive(n: int): (r: int)
    ensures 1 <= r <= 5
    ensures 1 <= n <= 5 ==> r == n
    ensures n < 1 ==> r == 1
    ensures n > 5 ==> r == 5
  {
    if n < 1 then 1 else if n > 5 then 5 else n
  }

  /**
    The address line count of `generate_account_data`: the configured count,
    1 when it is missing or not an integer (`None` here), clamped to 1..5.
   */
  function AddressLineCount(configured: Option<int>): (r: int)
    ensures 1 <= r <= 5
    ensures configured.None? ==> r == 1
    ensures configured.Some? && 1 <= configured.value <= 5 ==> r == configured.value
  {
    ClampOneToFive(if configured.Some? then configured.value else 1)
  }

  /** `max(0, n)`: the number of direct debit or other payment methods. */
  function MethodCount(n: int): (r: nat)
    ensures n >= 0 ==> r == n
    ensures n < 0 ==> r == 0
  {
    if n < 0 then 0 else n
  }

  /** `max(0, min(num_rows, n))`: how many accounts get a group. */
  function AssignCount(numRows: nat, n: int): (r: nat)
    ensures r <= numRows
    ensures 0 <= n <= numRows ==> r == n
    ensures n < 0 ==> r == 0
    ensures n > numRows ==> r == numRows
  {
    if n < 0 then 0 else if n > numRows then numRows else n
  }

  // ---------------------------------------------------------------------------
  // Number formats

  /** A number written with exactly `k` digits. */
  lemma DecWidth(n: nat, k: nat)
    requires 1 <= k <= 9 && Pow10(k - 1) <= n < Pow10(k)
    ensures |Dec(n)| == k && AllDigits(Dec(n)) && ParseDec(Dec(n)) == n
  {
    DecLength(n, k);
    ParseDec_Dec(n);
  }

  /** `generate_postcode`: 2000 to 9999 as four digits. */
  function PostCode(n: nat): (s: string)
    requires 2000 <= n <= 9999
    ensures |s| == 4 && AllDigits(s) && ParseDec(s) == n
  {
    Pow10Values();
    DecWidth(n, 4);
    Dec(n)
  }

  /** The landline format `0X XXXX XXXX`. */
  predicate IsPhone(s: string) {
    |s| == 12 && s[0] == '0' && IsDigit(s[1]) && s[2] == ' ' && AllDigits(s[3..7]) &&
    s[7] == ' ' && AllDigits(s[8..])
  }

  /** The pieces of a landline number sit at fixed positions. */
  lemma PhoneLayout(a: string, d1: string, d2: string)
    requires |a| == 1 && |d1| == 4 && |d2| == 4 && AllDigits(a) && AllDigits(d1) && AllDigits(d2)
    ensures var s := "0" + a + " " + d1 + " " + d2;
      IsPhone(s) && s[1] == a[0] && s[3..7] == d1 && s[8..] == d2
  {
    var s := "0" + a + " " + d1 + " " + d2;
    assert s[3..7] == d1 && s[8..] == d2;
  }

  /** `generate_phone`: `0` and an area digit from 2 to 8, then two groups of four digits. */
  function Phone(area: nat, part1: nat, part2: nat): (s: string)
    requires 2 <= area <= 8 && 1000 <= part1 <= 9999 && 1000 <= part2 <= 9999
    ensures IsPhone(s)
    ensures s[1] == DigitChar(area) && ParseDec(s[3..7]) == part1 && ParseDec(s[8..]) == part2
  {
    FourDigits(part1);
    FourDigits(part2);
    PhoneLayout(Dec(area), Dec(part1), Dec(part2));
    "0" + Dec(area) + " " + Dec(part1) + " " + Dec(part2)
  }

  /** The mobile format `04XX XXX XXX`. */
  predicate IsMobile(s: string) {
    |s| == 12 && s[..2] == "04" && AllDigits(s[2..4]) && s[4] == ' ' && AllDigits(s[5..8]) &&
    s[8] == ' ' && AllDigits(s[9..])
  }

  /** Two digits, zero-filled. */
  lemma MidDigits(mid: nat)
    requires mid <= 99
    ensures |ZFill(Dec(mid), 2)| == 2 && AllDigits(ZFill(Dec(mid), 2)) && ParseDec(ZFill(Dec(mid), 2)) == mid
  {
    Pow10Values();
    ParseZFill(mid, 2);
    if mid >= 10 {
      DecLength(mid, 2);
    }
  }

  /** The pieces of a mobile number sit at fixed positions. */
  lemma MobileLayout(z: string, d1: string, d2: string)
    requires |z| == 2 && |d1| == 3 && |d2| == 3 && AllDigits(z) && AllDigits(d1) && AllDigits(d2)
    ensures var s := "04" + z + " " + d1 + " " + d2;
      IsMobile(s) && s[2..4] == z && s[5..8] == d1 && s[9..] == d2
  {
    var s := "04" + z + " " + d1 + " " + d2;
    assert s[..2] == "04" && s[2..4] == z && s[5..8] == d1 && s[9..] == d2;
  }

  /** `generate_mobile`: `04`, two zero-filled digits, then two groups of three digits. */
  function Mobile(mid: nat, part1: nat, part2: nat): (s: string)
    requires mid <= 99 && 100 <= part1 <= 999 && 100 <= part2 <= 999
    ensures IsMobile(s)
    ensures ParseDec(s[2..4]) == mid && ParseDec(s[5..8]) == part1 && ParseDec(s[9..]) == part2
  {
    MidDigits(mid);
    ThreeDigits(part1);
    ThreeDigits(part2);
    MobileLayout(ZFill(Dec(mid), 2), Dec(part1), Dec(part2));
    "04" + ZFill(Dec(mid), 2) + " " + Dec(part1) + " " + Dec(part2)
  }

  lemma ThreeDigits(n: nat)
    requires 100 <= n <= 999
    ensures |Dec(n)| == 3 && AllDigits(Dec(n)) && ParseDec(Dec(n)) == n
  {
    Pow10Values();
    DecWidth(n, 3);
  }

  lemma FourDigits(n: nat)
    requires 1000 <= n <= 9999
    ensures |Dec(n)| == 4 && AllDigits(Dec(n)) && ParseDec(Dec(n)) == n
  {
    Pow10Values();
    DecWidth(n, 4);
  }

  // ---------------------------------------------------------------------------
  // Numbered blocks of columns (contacts and payment methods)

  /** `f"{p}{idx}_"`: the column prefix of the `idx`-th block. */
  function BlockPrefix(p: string, idx: nat): (r: string)
    ensures HasPrefix(r, p)
  {
    PrefixOfConcat(p, Dec(idx) + "_");
    assert p + Dec(idx) + "_" == p + (Dec(idx) + "_");
    p + Dec(idx) + "_"
  }

  /** The columns of the `idx`-th block: its prefix before each field. */
  function BlockKeys(p: string, idx: nat, fields: seq<string>): (ks: seq<string>)
    ensures |ks| == |fields|
    ensures forall j :: 0 <= j < |fields| ==> ks[j] == BlockPrefix(p, idx) + fields[j]
  {
    Prefixed(BlockPrefix(p, idx), fields)
  }

  /** The columns of blocks 1 to `n`, block after block. */
  function BlocksKeys(p: string, fields: seq<string>, n: nat): seq<string> {
    if n == 0 then [] else BlocksKeys(p, fields, n - 1) + BlockKeys(p, n, fields)
  }

  /** The leading run of digits. */
  function LeadingDigits(s: string): (r: string)
    ensures HasPrefix(s, r) && AllDigits(r)
  {
    if s == [] || !IsDigit(s[0]) then []
    else
      var t := LeadingDigits(s[1..]);
      assert s == [s[0]] + s[1..];
      [s[0]] + t
  }

  /** The leading digits of a number written before a non-digit are that number. */
  lemma {:induction false} LeadingDigitsOf(d: string, rest: string)
    requires AllDigits(d) && rest != [] && !IsDigit(rest[0])
    ensures LeadingDigits(d + rest) == d
    decreases |d|
  {
    if d != [] {
      assert (d + rest)[1..] == d[1..] + rest;
      LeadingDigitsOf(d[1..], rest);
    } else {
      assert d + rest == rest;
    }
  }

  /** A block prefix determines its number: after `p` comes the number and then `_`. */
  lemma BlockNumber(k: string, p: string, idx: nat)
    requires HasPrefix(k, BlockPrefix(p, idx))
    ensures |p| <= |k| && LeadingDigits(k[|p|..]) == Dec(idx)
  {
    var a := BlockPrefix(p, idx);
    var n := |p| + |Dec(idx)|;
    assert k[..|a|] == a;
    assert k[|p|..] == Dec(idx) + k[n..] by {
      assert k[|p|..n] == a[|p|..n] == Dec(idx);
    }
    assert k[n] == a[n] == '_';
    LeadingDigitsOf(Dec(idx), k[n..]);
  }

  /** A column carries the prefix of at most one block. */
  lemma BlockPrefixUnique(k: string, p: string, i: nat, j: nat)
    requires HasPrefix(k, BlockPrefix(p, i)) && HasPrefix(k, BlockPrefix(p, j))
    ensures i == j
  {
    BlockNumber(k, p, i);
    BlockNumber(k, p, j);
    DecInjective(i, j);
  }

  /** Every column of blocks 1 to `n` belongs to one of those blocks. */
  lemma {:induction false} BlocksKeysFrom(p: string, fields: seq<string>, n: nat, k: string)
    requires k in BlocksKeys(p, fields, n)
    ensures exists j :: 1 <= j <= n && HasPrefix(k, BlockPrefix(p, j))
    decreases n
  {
    if n > 0 {
      if k in BlocksKeys(p, fields, n - 1) {
        BlocksKeysFrom(p, fields, n - 1, k);
      } else {
        var m :| 0 <= m < |fields| && k == BlockKeys(p, n, fields)[m];
        PrefixOfConcat(BlockPrefix(p, n), fields[m]);
      }
    }
  }

  /** Every column of the blocks starts with `p`. */
  lemma BlocksKeysPrefix(p: string, fields: seq<string>, n: nat, k: string)
    requires k in BlocksKeys(p, fields, n)
    ensures HasPrefix(k, p)
  {
    BlocksKeysFrom(p, fields, n, k);
    var j :| 1 <= j <= n && HasPrefix(k, BlockPrefix(p, j));
    PrefixTransitive(k, BlockPrefix(p, j), p);
  }

  /** The next block's columns are new. */
  lemma BlockFresh(p: string, fields: seq<string>, n: nat)
    ensures forall k :: k in BlockKeys(p, n + 1, fields) ==> k !in BlocksKeys(p, fields, n)
  {
    forall k | k in BlockKeys(p, n + 1, fields) ensures k !in BlocksKeys(p, fields, n) {
      var m :| 0 <= m < |fields| && k == BlockKeys(p, n + 1, fields)[m];
      PrefixOfConcat(BlockPrefix(p, n + 1), fields[m]);
      if k in BlocksKeys(p, fields, n) {
        BlocksKeysFrom(p, fields, n, k);
        var j :| 1 <= j <= n && HasPrefix(k, BlockPrefix(p, j));
        BlockPrefixUnique(k, p, j, n + 1);
      }
    }
  }

  /** No column is repeated across the blocks when the fields are distinct. */
  lemma {:induction false} BlocksKeysDistinct(p: string, fields: seq<string>, n: nat)
    requires Distinct(fields)
    ensures Distinct(BlocksKeys(p, fields, n))
    decreases n
  {
    if n > 0 {
      BlocksKeysDistinct(p, fields, n - 1);
      PrefixedDistinct(BlockPrefix(p, n), fields);
      BlockFresh(p, fields, n - 1);
      DistinctConcat(BlocksKeys(p, fields, n - 1), BlockKeys(p, n, fields));
    }
  }

  // ---------------------------------------------------------------------------
  // Address line 2

  /**
    The choices of `generate_address_line_2`: nothing, `Apt. n` (1 to 999),
    `Suite n` (100 to 999), `Unit n` (1 to 99) or `n/` (1 to 999).
   */
  datatype Line2 = NoLine2 | Apt(n: nat) | Suite(n: nat) | Unit(n: nat) | Slash(n: nat)

  predicate Line2Ok(c: Line2) {
    match c
    case NoLine2 => true
    case Apt(n) => 1 <= n <= 999
    case Suite(n) => 100 <= n <= 999
    case Unit(n) => 1 <= n <= 99
    case Slash(n) => 1 <= n <= 999
  }

  /** `s` is the word `p` followed by a numeral for a number from `lo` to `hi`. */
  predicate NumberedAfter(s: string, p: string, lo: nat, hi: nat) {
    |s| > |p| && s[..|p|] == p && AllDigits(s[|p|..]) && lo <= ParseDec(s[|p|..]) <= hi
  }

  /** The texts line 2 can hold, described without reference to the draw. */
  predicate IsLine2(s: string) {
    s == "" || NumberedAfter(s, "Apt. ", 1, 999) || NumberedAfter(s, "Suite ", 100, 999) ||
    NumberedAfter(s, "Unit ", 1, 99) ||
    (|s| >= 2 && s[|s| - 1] == '/' && AllDigits(s[..|s| - 1]) && 1 <= ParseDec(s[..|s| - 1]) <= 999)
  }

  /** `p + str(n)` reads back as `n` after `p`. */
  lemma NumberedText(p: string, n: nat)
    ensures |p + Dec(n)| > |p| && (p + Dec(n))[..|p|] == p && (p + Dec(n))[|p|..] == Dec(n)
    ensures AllDigits(Dec(n)) && ParseDec(Dec(n)) == n
  {
    ParseDec_Dec(n);
  }

  /** `p + str(n)` is a numbered line 2 text when `n` is in range. */
  lemma NumberedLine2(p: string, n: nat, lo: nat, hi: nat)
    ensures lo <= n <= hi ==> NumberedAfter(p + Dec(n), p, lo, hi)
  {
    NumberedText(p, n);
  }

  /** `f"{n}/"` is a line 2 text when `n` is in range. */
  lemma SlashLine2(n: nat)
    ensures 1 <= n <= 999 ==> IsLine2(Dec(n) + "/")
  {
    ParseDec_Dec(n);
    assert (Dec(n) + "/")[..|Dec(n)|] == Dec(n);
  }

  function Line2Text(c: Line2): (s: string)
    ensures Line2Ok(c) ==> IsLine2(s)
  {
    match c
    case NoLine2 => ""
    case Apt(n) => NumberedLine2("Apt. ", n, 1, 999); "Apt. " + Dec(n)
    case Suite(n) => NumberedLine2("Suite ", n, 100, 999); "Suite " + Dec(n)
    case Unit(n) => NumberedLine2("Unit ", n, 1, 99); "Unit " + Dec(n)
    case Slash(n) => SlashLine2(n); Dec(n) + "/"
  }

  // ---------------------------------------------------------------------------
  // Address lines 3 to 5

  const Line3Choices: seq<string> :=
    ["", "Business Park", "Industrial Estate", "Corporate Centre", "Technology Park", "Office Tower"]
  const Line5Choices: seq<string> := ["", "CBD", "Business District", "Commercial Area", "City Centre"]

  /** The choices for line 4: nothing, a level from 1 to 25, a building A to D, or a wing. */
  datatype Line4 = NoLine4 | Level(n: nat) | Building(letter: char) | NorthWing | SouthWing

  predicate Line4Ok(c: Line4) {
    match c
    case Level(n) => 1 <= n <= 25
    case Building(letter) => letter in "ABCD"
    case _ => true
  }

  function Line4Text(c: Line4): (s: string)
    requires Line4Ok(c)
    ensures c.Level? ==> |s| > 6 && s[..6] == "Level " && AllDigits(s[6..]) && ParseDec(s[6..]) == c.n
    ensures c.Building? ==> s == "Building " + [c.letter]
  {
    match c
    case NoLine4 => ""
    case Level(n) =>
      ParseDec_Dec(n);
      assert ("Level " + Dec(n))[..6] == "Level " && ("Level " + Dec(n))[6..] == Dec(n);
      "Level " + Dec(n)
    case Building(letter) => "Building " + [letter]
    case NorthWing => "North Wing"
    case SouthWing => "South Wing"
  }

  /** The draws of `generate_address_extra_lines`. */
  datatype ExtraLines = ExtraLines(line3: string, line4: Line4, line5: string)

  predicate ExtraLinesOk(e: ExtraLines) {
    e.line3 in Line3Choices && Line4Ok(e.line4) && e.line5 in Line5Choices
  }

  // ---------------------------------------------------------------------------
  // Primary address

  const AddressKeys: seq<string> := [
    "address_1_address_line_1", "address_1_address_line_2", "address_1_address_line_3",
    "address_1_address_line_4", "address_1_address_line_5", "address_1_post_code",
    "address_1_city", "address_1_state", "address_1_country",
    "address_1_is_default_billing", "address_1_is_default_shipping"]

  lemma AddressKeysDistinct()
    ensures Distinct(AddressKeys)
  {
  }

  /** `f"address_1_address_line_{idx + 1}"`. */
  function AddressLineKey(idx: nat): string {
    "address_1_address_line_" + Dec(idx + 1)
  }

  /** The five computed line keys are the first five address keys. */
  lemma AddressLineKeyAt(idx: nat)
    requires idx < 5
    ensures AddressLineKey(idx) == AddressKeys[idx]
  {
    assert Dec(idx + 1) == [DigitChar(idx + 1)];
  }

  /**
    The draws behind one address: street line 1 (Faker text, any string
    here), line 2, lines 3 to 5, the post code number, city and state.
   */
  datatype AddressDraw = AddressDraw(line1: string, line2: Line2, extra: ExtraLines,
                                     post: nat, city: string, state: string)

  predicate AddressDrawOk(d: AddressDraw) {
    Line2Ok(d.line2) && ExtraLinesOk(d.extra) && 2000 <= d.post <= 9999
  }

  /** The five drawn lines in order. */
  function AddressLines(d: AddressDraw): (lines: seq<string>)
    requires AddressDrawOk(d)
    ensures |lines| == 5 && lines[0] == d.line1 && lines[1] == Line2Text(d.line2) && IsLine2(lines[1])
    ensures lines[2] in Line3Choices && lines[3] == Line4Text(d.extra.line4) && lines[4] in Line5Choices
  {
    [d.line1, Line2Text(d.line2), d.extra.line3, Line4Text(d.extra.line4), d.extra.line5]
  }

  /**
    `line_count or 1`, clamped to 1..5: `generate_account_address_fields`
    treats a missing count and 0 alike.
   */
  function FieldsLineCount(lineCount: Option<int>): (n: int)
    ensures 1 <= n <= 5
    ensures lineCount.None? || lineCount.value == 0 ==> n == 1
    ensures lineCount.Some? && 1 <= lineCount.value <= 5 ==> n == lineCount.value
  {
    ClampOneToFive(if lineCount.None? || lineCount.value == 0 then 1 else lineCount.value)
  }

  /** The cells of the primary address, in key order. */
  function AddressValues(n: int, country: string, d: AddressDraw): (vs: seq<Value>)
    requires AddressDrawOk(d)
    ensures |vs| == 11
  {
    var lines := AddressLines(d);
    seq(5, idx requires 0 <= idx < 5 => if idx < n then Str(lines[idx]) else Blank) +
    [Str(PostCode(d.post)), Str(d.city), Str(d.state), Str(country), Str("YES"), Str("YES")]
  }

  /** The address keys after the five lines, by name. */
  lemma AddressKeyNames()
    ensures AddressKeys[5] == "address_1_post_code" && AddressKeys[6] == "address_1_city"
    ensures AddressKeys[7] == "address_1_state" && AddressKeys[8] == "address_1_country"
    ensures AddressKeys[9] == "address_1_is_default_billing"
    ensures AddressKeys[10] == "address_1_is_default_shipping"
  {
  }

  lemma AddressValuesAt(n: int, country: string, d: AddressDraw, vs: seq<Value>)
    requires AddressDrawOk(d) && vs == AddressValues(n, country, d)
    ensures forall idx :: 0 <= idx < 5 ==> vs[idx] == if idx < n then Str(AddressLines(d)[idx]) else Blank
    ensures vs[5] == Str(PostCode(d.post)) && vs[6] == Str(d.city) && vs[7] == Str(d.state)
    ensures vs[8] == Str(country) && vs[9] == Str("YES") && vs[10] == Str("YES")
  {
  }

  /** Each line key reads as its line, or as "" past the line count. */
  lemma AddressRowLines(n: int, country: string, d: AddressDraw, vs: seq<Value>)
    requires AddressDrawOk(d) && vs == AddressValues(n, country, d)
    ensures forall idx :: 0 <= idx < 5 ==>
      Get(Dict(AddressKeys, vs), AddressLineKey(idx)) == Some(if idx < n then Str(AddressLines(d)[idx]) else Blank)
  {
    AddressKeysDistinct();
    AddressValuesAt(n, country, d, vs);
    forall idx | 0 <= idx < 5
      ensures Get(Dict(AddressKeys, vs), AddressLineKey(idx)) ==
        Some(if idx < n then Str(AddressLines(d)[idx]) else Blank)
    {
      AddressLineKeyAt(idx);
      DictGet(AddressKeys, vs, idx);
    }
  }

  /** The fixed address keys read as their values. */
  lemma AddressRowFixed(n: int, country: string, d: AddressDraw, vs: seq<Value>)
    requires AddressDrawOk(d) && vs == AddressValues(n, country, d)
    ensures Get(Dict(AddressKeys, vs), "address_1_post_code") == Some(Str(PostCode(d.post)))
    ensures Get(Dict(AddressKeys, vs), "address_1_country") == Some(Str(country))
    ensures Get(Dict(AddressKeys, vs), "address_1_is_default_billing") == Some(Str("YES"))
    ensures Get(Dict(AddressKeys, vs), "address_1_is_default_shipping") == Some(Str("YES"))
  {
    AddressKeysDistinct();
    AddressKeyNames();
    AddressValuesAt(n, country, d, vs);
    DictGet(AddressKeys, vs, 5);
    DictGet(AddressKeys, vs, 8);
    DictGet(AddressKeys, vs, 9);
    DictGet(AddressKeys, vs, 10);
  }

  /**
    The primary address: five line keys, the first `n` holding the drawn
    lines and the rest "", a four-digit post code, the country, and default
    billing and shipping both "YES".
   */
  function AddressRow(n: int, country: string, d: AddressDraw): (r: Row)
    requires AddressDrawOk(d)
    ensures Keys(r) == AddressKeys && DistinctKeys(r)
    ensures forall idx :: 0 <= idx < 5 ==>
      Get(r, AddressLineKey(idx)) == Some(if idx < n then Str(AddressLines(d)[idx]) else Blank)
    ensures Get(r, "address_1_country") == Some(Str(country))
    ensures Get(r, "address_1_is_default_billing") == Some(Str("YES"))
    ensures Get(r, "address_1_is_default_shipping") == Some(Str("YES"))
    ensures Get(r, "address_1_post_code") == Some(Str(PostCode(d.post)))
    ensures Get(r, AddressLineKey(1)).Some? && Get(r, AddressLineKey(1)).value.Str? &&
      IsLine2(Get(r, AddressLineKey(1)).value.s)
  {
    var vs := AddressValues(n, country, d);
    AddressKeysDistinct();
    DictKeys(AddressKeys, vs);
    AddressRowLines(n, country, d, vs);
    AddressRowFixed(n, country, d, vs);
    Dict(AddressKeys, vs)
  }

  /**
    `generate_account_address_fields(line_count, country)`: the `range(5)`
    loop writes the line keys, then the remaining keys are assigned.
   */
  method AccountAddressFields(lineCount: Option<int>, country: string, d: AddressDraw) returns (r: Row)
    requires AddressDrawOk(d)
    ensures r == AddressRow(FieldsLineCount(lineCount), country, d)
  {
    var n := FieldsLineCount(lineCount);
    var lines := [d.line1, Line2Text(d.line2), d.extra.line3, Line4Text(d.extra.line4), d.extra.line5];
    ghost var vs := AddressValues(n, country, d);
    AddressKeysDistinct();
    AddressValuesAt(n, country, d, vs);
    r := [];
    assert r == Dict(AddressKeys[..0], vs[..0]);
    for idx := 0 to 5
      invariant r == Dict(AddressKeys[..idx], vs[..idx])
    {
      AddressLineKeyAt(idx);
      DictStep(AddressKeys, vs, idx);
      r := Set(r, AddressLineKey(idx), if idx < n then Str(lines[idx]) else Blank);
    }
    r := AddressTailFields(r, PostCode(d.post), d.city, d.state, country, vs);
    assert AddressKeys[..11] == AddressKeys && vs[..11] == vs;
  }

  /** The six assignments after the line loop. */
  method AddressTailFields(r0: Row, post: string, city: string, state: string, country: string,
                           ghost vs: seq<Value>) returns (r: Row)
    requires |vs| == 11 && r0 == Dict(AddressKeys[..5], vs[..5])
    requires vs[5] == Str(post) && vs[6] == Str(city) && vs[7] == Str(state) && vs[8] == Str(country)
    requires vs[9] == Str("YES") && vs[10] == Str("YES")
    ensures r == Dict(AddressKeys[..11], vs[..11])
  {
    AddressKeysDistinct();
    AddressKeyNames();
    r := Set(r0, "address_1_post_code", Str(post));
    assert r == Dict(AddressKeys[..6], vs[..6]) by { DictStep(AddressKeys, vs, 5); }
    r := Set(r, "address_1_city", Str(city));
    assert r == Dict(AddressKeys[..7], vs[..7]) by { DictStep(AddressKeys, vs, 6); }
    r := Set(r, "address_1_state", Str(state));
    assert r == Dict(AddressKeys[..8], vs[..8]) by { DictStep(AddressKeys, vs, 7); }
    r := Set(r, "address_1_country", Str(country));
    assert r == Dict(AddressKeys[..9], vs[..9]) by { DictStep(AddressKeys, vs, 8); }
    r := Set(r, "address_1_is_default_billing", Str("YES"));
    assert r == Dict(AddressKeys[..10], vs[..10]) by { DictStep(AddressKeys, vs, 9); }
    r := Set(r, "address_1_is_default_shipping", Str("YES"));
    DictStep(AddressKeys, vs, 10);
  }

  // ---------------------------------------------------------------------------
  // Contacts

  const ContactBlock: string := "contact_"

  /** The twenty contact fields, in the order `generate_contact` writes them. */
  const ContactFields: seq<string> := ContactNameFields + ContactEmailFields + ContactAddressFields + ContactNumberFields
  const ContactNameFields: seq<string> := ["salutation", "designation", "first_name", "middle_name", "last_name"]
  const ContactEmailFields: seq<string> := ["email_address", "email_address_do_not_email"]
  const ContactAddressFields: seq<string> :=
    ["address_line_1", "address_line_2", "address_line_3", "address_line_4", "address_line_5", "post_code"]
  const ContactNumberFields: seq<string> := [
    "phone", "phone_do_not_call", "fax", "fax_do_not_call", "mobile", "mobile_do_not_call",
    "receive_billing_information"]

  const Salutations: seq<string> := ["Mr.", "Mrs.", "Ms.", "Dr.", "Prof.", "Master", "Sir", "Frau", "Fraulein"]
  const Designations: seq<string> := [
    "Analyst", "Accountant", "Integrator", "Investor", "Partner", "Reseller", "Supplier", "Vendor",
    "Consultant", "Developer", "Customer Service Manager", "Marketing Manager", "Sales Manager",
    "CEO", "Director", "Vice President", "Other"]

  /** `_random_yes_no_blank`. */
  const YesNoBlank: seq<string> := ["YES", "NO", ""]

  lemma ContactGroupsDistinct()
    ensures Distinct(ContactNameFields) && Distinct(ContactEmailFields)
    ensures Distinct(ContactAddressFields) && Distinct(ContactNumberFields)
  {
  }

  lemma ContactGroupsDisjointA()
    ensures forall k :: k in ContactEmailFields ==> k !in ContactNameFields
    ensures forall k :: k in ContactAddressFields ==> k !in ContactNameFields + ContactEmailFields
  {
  }

  lemma ContactGroupsDisjointB()
    ensures forall k :: k in ContactNumberFields ==> k !in ContactNameFields + ContactEmailFields + ContactAddressFields
  {
  }

  lemma ContactFieldsDistinct()
    ensures |ContactFields| == 20 && Distinct(ContactFields)
  {
    ContactGroupsDistinct();
    ContactGroupsDisjointA();
    ContactGroupsDisjointB();
    DistinctConcat(ContactNameFields, ContactEmailFields);
    DistinctConcat(ContactNameFields + ContactEmailFields, ContactAddressFields);
    DistinctConcat(ContactNameFields + ContactEmailFields + ContactAddressFields, ContactNumberFields);
  }

  /** `contact_{i}_<field>` for the twenty contact fields. */
  function ContactKeys(i: nat): (ks: seq<string>)
    ensures |ks| == 20 && Distinct(ks)
    ensures forall j :: 0 <= j < 20 ==> HasPrefix(ks[j], BlockPrefix(ContactBlock, i))
  {
    ContactFieldsDistinct();
    PrefixedDistinct(BlockPrefix(ContactBlock, i), ContactFields);
    forall j | 0 <= j < 20 ensures HasPrefix(BlockKeys(ContactBlock, i, ContactFields)[j], BlockPrefix(ContactBlock, i)) {
      PrefixOfConcat(BlockPrefix(ContactBlock, i), ContactFields[j]);
    }
    BlockKeys(ContactBlock, i, ContactFields)
  }

  /** `blank_contact(i)`: every contact key of contact `i`, each "". */
  function BlankContact(i: nat): (r: Row)
    ensures Keys(r) == ContactKeys(i) && DistinctKeys(r)
    ensures forall k :: k in Keys(r) ==> Get(r, k) == Some(Blank)
  {
    var r := Dict(ContactKeys(i), Blanks(20));
    DictKeys(ContactKeys(i), Blanks(20));
    forall k | k in Keys(r) ensures Get(r, k) == Some(Blank) {
      var j :| 0 <= j < 20 && ContactKeys(i)[j] == k;
      DictGet(ContactKeys(i), Blanks(20), j);
    }
    r
  }

  /** The draws of a landline or fax number and of a mobile number. */
  datatype PhoneDraw = PhoneDraw(area: nat, part1: nat, part2: nat)
  datatype MobileDraw = MobileDraw(mid: nat, part1: nat, part2: nat)

  predicate PhoneDrawOk(p: PhoneDraw) {
    2 <= p.area <= 8 && 1000 <= p.part1 <= 9999 && 1000 <= p.part2 <= 9999
  }

  predicate MobileDrawOk(m: MobileDraw) {
    m.mid <= 99 && 100 <= m.part1 <= 999 && 100 <= m.part2 <= 999
  }

  /**
    The draws behind one contact: the picks from the salutation, designation
    and yes/no/blank lists, the Faker names (the middle name is "" or a first
    name), the address lines and the numbers.
   */
  datatype ContactDraw = ContactDraw(
    salutation: string, designation: string,
    firstName: string, middleName: string, lastName: string,
    doNotEmail: string, line1: string, line2: Line2, extra: ExtraLines, post: nat,
    phone: PhoneDraw, doNotCall: string, fax: PhoneDraw, faxDoNotCall: string,
    mobile: MobileDraw, mobileDoNotCall: string, receiveBilling: string)

  predicate ContactDrawOk(d: ContactDraw) {
    d.salutation in Salutations && d.designation in Designations &&
    d.doNotEmail in YesNoBlank && d.doNotCall in YesNoBlank && d.faxDoNotCall in YesNoBlank &&
    d.mobileDoNotCall in YesNoBlank && d.receiveBilling in YesNoBlank &&
    Line2Ok(d.line2) && ExtraLinesOk(d.extra) && 2000 <= d.post <= 9999 &&
    PhoneDrawOk(d.phone) && PhoneDrawOk(d.fax) && MobileDrawOk(d.mobile)
  }

  /** `f"{first_name}.{last_name}".lower().replace(' ', '.')`. */
  function EmailLocalPart(first: string, last: string): (s: string)
    ensures ' ' !in s
  {
    ReplaceRemoves(Lower(first + "." + last), ' ', ".");
    Replace(Lower(first + "." + last), " ", ".")
  }

  /** `f"{local_part}@{domain}"`. */
  function ContactEmail(first: string, last: string, domain: string): (e: string)
    ensures HasPrefix(e, EmailLocalPart(first, last)) && HasSuffix(e, "@" + domain)
    ensures |e| == |EmailLocalPart(first, last)| + 1 + |domain|
  {
    var local := EmailLocalPart(first, last);
    PrefixOfConcat(local, "@" + domain);
    assert local + "@" + domain == local + ("@" + domain);
    assert (local + ("@" + domain))[|local|..] == "@" + domain;
    local + "@" + domain
  }

  /** The texts a contact derives from its draws: email, post code, phone, fax and mobile. */
  datatype ContactTexts = ContactTexts(email: string, post: string, phone: string, fax: string, mobile: string)

  function ContactTextsOf(domain: string, d: ContactDraw): (t: ContactTexts)
    requires ContactDrawOk(d)
    ensures HasSuffix(t.email, "@" + domain) && ' ' !in t.email[..|t.email| - |domain| - 1]
    ensures |t.post| == 4 && AllDigits(t.post)
    ensures IsPhone(t.phone) && IsPhone(t.fax) && IsMobile(t.mobile)
  {
    var e := ContactEmail(d.firstName, d.lastName, domain);
    assert e[..|e| - |domain| - 1] == EmailLocalPart(d.firstName, d.lastName);
    ContactTexts(e, PostCode(d.post),
                 Phone(d.phone.area, d.phone.part1, d.phone.part2),
                 Phone(d.fax.area, d.fax.part1, d.fax.part2),
                 Mobile(d.mobile.mid, d.mobile.part1, d.mobile.part2))
  }

  /** The cells of a contact, in key order. */
  function ContactValues(d: ContactDraw, line4: string, t: ContactTexts): (vs: seq<Value>)
    ensures |vs| == 20
  {
    [Str(d.salutation), Str(d.designation), Str(d.firstName), Str(d.middleName), Str(d.lastName),
     Str(t.email), Str(d.doNotEmail),
     Str(d.line1), Str(Line2Text(d.line2)), Str(d.extra.line3), Str(line4), Str(d.extra.line5),
     Str(t.post), Str(t.phone), Str(d.doNotCall), Str(t.fax), Str(d.faxDoNotCall),
     Str(t.mobile), Str(d.mobileDoNotCall), Str(d.receiveBilling)]
  }

  /** Contact cells by position: the picks and the email. */
  lemma ContactValuesHead(d: ContactDraw, line4: string, t: ContactTexts, vs: seq<Value>)
    requires vs == ContactValues(d, line4, t)
    ensures vs[0] == Str(d.salutation) && vs[1] == Str(d.designation)
    ensures vs[5] == Str(t.email) && vs[6] == Str(d.doNotEmail)
    ensures vs[8] == Str(Line2Text(d.line2))
    ensures vs[9] == Str(d.extra.line3) && vs[11] == Str(d.extra.line5)
  {
  }

  /** Contact cells by position: the numbers and flags. */
  lemma ContactValuesTail(d: ContactDraw, line4: string, t: ContactTexts, vs: seq<Value>)
    requires vs == ContactValues(d, line4, t)
    ensures vs[12] == Str(t.post) && vs[13] == Str(t.phone) && vs[14] == Str(d.doNotCall)
    ensures vs[15] == Str(t.fax) && vs[16] == Str(d.faxDoNotCall) && vs[17] == Str(t.mobile)
    ensures vs[18] == Str(d.mobileDoNotCall) && vs[19] == Str(d.receiveBilling)
  {
  }

  /** Every contact cell is text. */
  lemma ContactValuesText(d: ContactDraw, line4: string, t: ContactTexts, vs: seq<Value>)
    requires vs == ContactValues(d, line4, t)
    ensures forall j :: 0 <= j < 20 ==> vs[j].Str?
  {
    forall j | 0 <= j < 20 ensures vs[j].Str? {
      assert vs[j] in vs;
    }
  }

  /** A listed salutation and designation, line 2 in one of its forms, lines 3 and 5 from their lists, and yes/no/blank flags. */
  predicate ContactPicksOk(vs: seq<Value>)
    requires |vs| == 20 && forall j :: 0 <= j < 20 ==> vs[j].Str?
  {
    vs[0].s in Salutations && vs[1].s in Designations &&
    vs[6].s in YesNoBlank && vs[14].s in YesNoBlank && vs[16].s in YesNoBlank &&
    vs[18].s in YesNoBlank && vs[19].s in YesNoBlank &&
    IsLine2(vs[8].s) && vs[9].s in Line3Choices && vs[11].s in Line5Choices
  }

  /** An email address at `domain` whose local part has no space. */
  predicate ContactEmailOk(vs: seq<Value>, domain: string)
    requires |vs| == 20 && forall j :: 0 <= j < 20 ==> vs[j].Str?
  {
    HasSuffix(vs[5].s, "@" + domain) && ' ' !in vs[5].s[..|vs[5].s| - |domain| - 1]
  }

  /** A four-digit post code, landline and fax numbers `0X XXXX XXXX` and a mobile `04XX XXX XXX`. */
  predicate ContactNumbersOk(vs: seq<Value>)
    requires |vs| == 20 && forall j :: 0 <= j < 20 ==> vs[j].Str?
  {
    |vs[12].s| == 4 && AllDigits(vs[12].s) &&
    IsPhone(vs[13].s) && IsPhone(vs[15].s) && IsMobile(vs[17].s)
  }

  /** What a generated contact holds, field by field in key order. */
  predicate ContactOk(vs: seq<Value>, domain: string) {
    |vs| == 20 && (forall j :: 0 <= j < 20 ==> vs[j].Str?) &&
    ContactPicksOk(vs) && ContactEmailOk(vs, domain) && ContactNumbersOk(vs)
  }

  lemma ContactValuesOk(domain: string, d: ContactDraw, line4: string, t: ContactTexts)
    requires ContactDrawOk(d) && t == ContactTextsOf(domain, d)
    ensures ContactOk(ContactValues(d, line4, t), domain)
  {
    ContactValuesHead(d, line4, t, ContactValues(d, line4, t));
    ContactValuesTail(d, line4, t, ContactValues(d, line4, t));
    ContactValuesText(d, line4, t, ContactValues(d, line4, t));
  }

  /**
    `generate_contact(i, domain)`: the same twenty keys as `blank_contact(i)`,
    holding the drawn values.
   */
  function Contact(i: nat, domain: string, d: ContactDraw): (r: Row)
    requires ContactDrawOk(d)
    ensures Keys(r) == Keys(BlankContact(i)) && DistinctKeys(r)
    ensures |r| == 20 && ContactOk(Values(r), domain)
  {
    var t := ContactTextsOf(domain, d);
    var vs := ContactValues(d, Line4Text(d.extra.line4), t);
    ContactRow(i, vs);
    ContactValuesOk(domain, d, Line4Text(d.extra.line4), t);
    Dict(ContactKeys(i), vs)
  }

  lemma ContactRow(i: nat, vs: seq<Value>)
    requires |vs| == 20
    ensures Keys(Dict(ContactKeys(i), vs)) == Keys(BlankContact(i)) && DistinctKeys(Dict(ContactKeys(i), vs))
    ensures Values(Dict(ContactKeys(i), vs)) == vs
  {
    DictKeys(ContactKeys(i), vs);
    assert Values(Dict(ContactKeys(i), vs)) == vs;
  }

  // ---------------------------------------------------------------------------
  // Payment methods

  const DebitBlock: string := "payment_method_dd_"
  const OtherBlock: string := "payment_method_ot_"
  const DebitFields: seq<string> :=
    ["processor_type", "is_default", "bsb_number", "account_name", "account_number", "processor", "reference"]
  const OtherFields: seq<string> := ["processor_type", "is_default", "processor", "reference"]

  lemma PaymentFieldsDistinct()
    ensures Distinct(DebitFields) && Distinct(OtherFields)
  {
  }

  /** `'YES' if idx == 1 else 'NO'`: the first method of each kind is the default. */
  function IsDefault(idx: nat): (s: string)
    ensures s == "YES" <==> idx == 1
    ensures s in ["YES", "NO"]
  {
    if idx == 1 then "YES" else "NO"
  }

  /** `f"{account_id}-DD{idx}"` or `f"{account_id}-OT{idx}"`. */
  function Reference(accountId: string, tag: string, idx: nat): (s: string)
    ensures HasPrefix(s, accountId + "-" + tag)
    ensures |s| > |accountId| + 1 + |tag| && AllDigits(s[|accountId| + 1 + |tag|..])
    ensures ParseDec(s[|accountId| + 1 + |tag|..]) == idx
  {
    var head := accountId + "-" + tag;
    ParseDec_Dec(idx);
    PrefixOfConcat(head, Dec(idx));
    assert (head + Dec(idx))[|head|..] == Dec(idx);
    head + Dec(idx)
  }

  /** Two methods of one account and kind never share a reference. */
  lemma ReferencesDiffer(accountId: string, tag: string, i: nat, j: nat)
    requires i != j
    ensures Reference(accountId, tag, i) != Reference(accountId, tag, j)
  {
    var a, b := Reference(accountId, tag, i), Reference(accountId, tag, j);
    assert ParseDec(a[|accountId| + 1 + |tag|..]) != ParseDec(b[|accountId| + 1 + |tag|..]);
  }

  /** The draws of one direct debit: a six-digit BSB and a nine-digit account number. */
  datatype DebitDraw = DebitDraw(bsb: nat, number: nat)

  predicate DebitDrawOk(d: DebitDraw) {
    100000 <= d.bsb <= 999999 && 100000000 <= d.number <= 999999999
  }

  /**
    The seven cells of direct debit `idx`: type `DIRECT_DEBIT`, the default
    flag, the BSB, the account name, the account number, the configured
    processor and the reference `{account_id}-DD{idx}`.
   */
  function DirectDebit(idx: nat, accountId: string, accountName: string, processor: string, d: DebitDraw): (r: Row)
    requires DebitDrawOk(d)
    ensures Keys(r) == BlockKeys(DebitBlock, idx, DebitFields) && DistinctKeys(r)
    ensures Values(r) == [Str("DIRECT_DEBIT"), Str(IsDefault(idx)), Str(Dec(d.bsb)), Str(accountName),
                          Str(Dec(d.number)), Str(processor), Str(Reference(accountId, "DD", idx))]
  {
    var vs := [Str("DIRECT_DEBIT"), Str(IsDefault(idx)), Str(Dec(d.bsb)), Str(accountName),
               Str(Dec(d.number)), Str(processor), Str(Reference(accountId, "DD", idx))];
    PaymentFieldsDistinct();
    PrefixedDistinct(BlockPrefix(DebitBlock, idx), DebitFields);
    DictKeys(BlockKeys(DebitBlock, idx, DebitFields), vs);
    assert Values(Dict(BlockKeys(DebitBlock, idx, DebitFields), vs)) == vs;
    Dict(BlockKeys(DebitBlock, idx, DebitFields), vs)
  }

  /** The BSB has six digits and the account number nine. */
  lemma DebitNumbers(d: DebitDraw)
    requires DebitDrawOk(d)
    ensures |Dec(d.bsb)| == 6 && AllDigits(Dec(d.bsb)) && ParseDec(Dec(d.bsb)) == d.bsb
    ensures |Dec(d.number)| == 9 && AllDigits(Dec(d.number)) && ParseDec(Dec(d.number)) == d.number
  {
    Pow10Values();
    DecWidth(d.bsb, 6);
    DecWidth(d.number, 9);
  }

  /**
    The processor of other method `idx` (from 1): `ot_processors[idx - 1]`
    while the list reaches that far, its last entry beyond it, and
    `ot_processor` when the list is empty.
   */
  function OtherProcessor(idx: nat, processors: seq<string>, processor: string): (p: string)
    requires idx >= 1
    ensures processors == [] ==> p == processor
    ensures processors != [] ==> p in processors
  {
    if processors != [] then
      if idx <= |processors| then processors[idx - 1] else processors[|processors| - 1]
    else processor
  }

  /** Which entry of the list the processor is. */
  lemma OtherProcessorEntry(idx: nat, processors: seq<string>, processor: string)
    requires idx >= 1 && processors != []
    ensures OtherProcessor(idx, processors, processor) == processors[if idx <= |processors| then idx - 1 else |processors| - 1]
  {
  }

  /**
    The four cells of other method `idx`: type `OTHER`, the default flag, the
    processor and the reference `{account_id}-OT{idx}`.
   */
  function OtherMethod(idx: nat, accountId: string, processors: seq<string>, processor: string): (r: Row)
    requires idx >= 1
    ensures Keys(r) == BlockKeys(OtherBlock, idx, OtherFields) && DistinctKeys(r)
    ensures Values(r) == [Str("OTHER"), Str(IsDefault(idx)), Str(OtherProcessor(idx, processors, processor)),
                          Str(Reference(accountId, "OT", idx))]
  {
    var vs := [Str("OTHER"), Str(IsDefault(idx)), Str(OtherProcessor(idx, processors, processor)),
               Str(Reference(accountId, "OT", idx))];
    PaymentFieldsDistinct();
    PrefixedDistinct(BlockPrefix(OtherBlock, idx), OtherFields);
    DictKeys(BlockKeys(OtherBlock, idx, OtherFields), vs);
    assert Values(Dict(BlockKeys(OtherBlock, idx, OtherFields), vs)) == vs;
    Dict(BlockKeys(OtherBlock, idx, OtherFields), vs)
  }
}
