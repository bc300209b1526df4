/**
  Rules the payment and purchase payment generators share, each of which
  carries its own copy of them: sequential zero-padded identifiers, the random
  origin reference, where the invoice identifiers come from, the processor
  default, and how the invoices a payment settles are picked.
 */
module PaymentRules {
  import opened Rows
  import opened Text
  import opened CustomAttributes

  // ---------------------------------------------------------------------------
  // Identifiers and origins

  /** `f"{prefix}{str(n).zfill(3)}"`. */
  function PaddedId(prefix: string, n: nat): (id: string)
    ensures HasPrefix(id, prefix)
    ensures |id| >= |prefix| + 3 && AllDigits(id[|prefix|..])
  {
    PrefixOfConcat(prefix, ZFill(Dec(n), 3));
    assert (prefix + ZFill(Dec(n), 3))[|prefix|..] == ZFill(Dec(n), 3);
    prefix + ZFill(Dec(n), 3)
  }

  /** The number is read back from the digits after the prefix. */
  lemma PaddedIdParses(prefix: string, n: nat)
    ensures ParseDec(PaddedId(prefix, n)[|prefix|..]) == n
    ensures n < 1000 ==> |PaddedId(prefix, n)| == |prefix| + 3
  {
    assert PaddedId(prefix, n)[|prefix|..] == ZFill(Dec(n), 3);
    ParseZFill(n, 3);
    if n < 1000 {
      ZFillThree(n);
    }
  }

  /** Different sequence numbers give different identifiers. */
  lemma PaddedIdInjective(prefix: string, a: nat, b: nat)
    requires PaddedId(prefix, a) == PaddedId(prefix, b)
    ensures a == b
  {
    PaddedIdParses(prefix, a);
    PaddedIdParses(prefix, b);
  }

  /** `f"CSV-{kind}-{str(n).zfill(3)}"`, the origin reference of a payment. */
  function Origin(kind: string, n: nat): string {
    "CSV-" + kind + "-" + ZFill(Dec(n), 3)
  }

  /** An origin drawn with `n` in 1..999 is "CSV-", the kind, "-" and exactly three digits that read back as `n`. */
  lemma OriginShape(kind: string, n: nat)
    requires 1 <= n <= 999
    ensures var o := Origin(kind, n);
      |o| == |kind| + 8 && HasPrefix(o, "CSV-" + kind + "-") &&
      AllDigits(o[|kind| + 5..]) && ParseDec(o[|kind| + 5..]) == n
  {
    var o := Origin(kind, n);
    var p := "CSV-" + kind + "-";
    assert o == p + ZFill(Dec(n), 3);
    PrefixOfConcat(p, ZFill(Dec(n), 3));
    assert o[|kind| + 5..] == ZFill(Dec(n), 3);
    ZFillThree(n);
    ParseZFill(n, 3);
  }

  // ---------------------------------------------------------------------------
  // Where the invoice identifiers come from

  /**
    `_get_invoice_choices`: a non-empty explicit list wins (stripped, blanks
    dropped), otherwise the identifiers read from the invoice file (an empty
    list when there is no file or it has none).
   */
  function InvoiceChoices(explicitIds: seq<string>, fileIds: seq<string>): (r: seq<string>)
    ensures forall i :: 0 <= i < |r| ==> r[i] != "" || explicitIds == []
  {
    if explicitIds != [] then StripNonBlank(explicitIds) else fileIds
  }

  /** Without an explicit list the file's identifiers are used as they are. */
  lemma FileIdsWithoutExplicit(fileIds: seq<string>)
    ensures InvoiceChoices([], fileIds) == fileIds
  {
  }

  /**
    An explicit list with one non-blank entry shadows the file: every choice
    is an explicit entry, stripped.
   */
  lemma ExplicitIdsWin(explicitIds: seq<string>, fileIds: seq<string>, k: nat)
    requires exists i :: 0 <= i < |explicitIds| && Strip(explicitIds[i]) != ""
    requires k < |InvoiceChoices(explicitIds, fileIds)|
    ensures InvoiceChoices(explicitIds, fileIds) != []
    ensures exists j :: 0 <= j < |explicitIds| && InvoiceChoices(explicitIds, fileIds)[k] == Strip(explicitIds[j])
  {
    StripNonBlankEmpty(explicitIds);
    StripNonBlankFrom(explicitIds, k);
  }

  /** A non-blank explicit entry always yields at least one choice. */
  lemma ExplicitIdsNonEmpty(explicitIds: seq<string>, fileIds: seq<string>, i: nat)
    requires i < |explicitIds| && Strip(explicitIds[i]) != ""
    ensures InvoiceChoices(explicitIds, fileIds) != []
  {
    StripNonBlankEmpty(explicitIds);
  }

  /**
    An explicit list holding only blanks is still a non-empty list, so the
    file is not consulted and there is nothing to choose from.
   */
  lemma BlankExplicitHidesFile(explicitIds: seq<string>, fileIds: seq<string>)
    requires explicitIds != [] && forall i :: 0 <= i < |explicitIds| ==> Strip(explicitIds[i]) == ""
    ensures InvoiceChoices(explicitIds, fileIds) == []
  {
    StripNonBlankEmpty(explicitIds);
  }

  /** `payment_processors or ["Cash"]`. */
  function Processors(processors: seq<string>): (r: seq<string>)
    ensures r != []
    ensures processors != [] ==> r == processors
    ensures processors == [] ==> r == ["Cash"]
  {
    if processors == [] then ["Cash"] else processors
  }

  function Min(a: int, b: int): int { if a <= b then a else b }

  /** `round(uniform(lo, hi), 2)` in cents lies between the two bounds, in whichever order they are given. */
  predicate AmountOk(amount: int, lo: int, hi: int) {
    Min(lo, hi) <= amount && amount <= (if lo <= hi then hi else lo)
  }

  // ---------------------------------------------------------------------------
  // Which invoices a payment settles

  /**
    `picks` are the positions `random.choice` or `random.sample` drew and
    `sel` the invoice identifiers at those positions: one position, or
    between 2 and `min(5, n)` distinct positions when a payment may settle
    several invoices.
   */
  predicate SelectionOk(picks: seq<nat>, sel: seq<string>, choices: seq<string>, multi: bool) {
    |picks| == |sel| &&
    (!multi ==> |sel| == 1) &&
    (multi ==> 2 <= |sel| <= Min(5, |choices|)) &&
    DistinctNats(picks) &&
    (forall j :: 0 <= j < |picks| ==> picks[j] < |choices| && sel[j] == choices[picks[j]])
  }

  /** Identifiers drawn from a list without repeats are pairwise distinct. */
  lemma SelectionDistinct(picks: seq<nat>, sel: seq<string>, choices: seq<string>, multi: bool)
    requires SelectionOk(picks, sel, choices, multi)
    requires Distinct(choices)
    ensures Distinct(sel)
    ensures forall j :: 0 <= j < |sel| ==> sel[j] in choices
  {
  }

  /** Positions `0 .. k-1`, a sample the bounds always allow. */
  lemma SomeSample(k: nat, n: nat)
    requires k <= n
    ensures exists s: seq<nat> :: |s| == k && DistinctNats(s) && forall j :: 0 <= j < k ==> s[j] < n
  {
    var s: seq<nat> := seq(k, j requires 0 <= j < k => j);
    assert |s| == k && DistinctNats(s) && forall j :: 0 <= j < k ==> s[j] < n;
  }

  /**
    The invoices one payment settles: `[random.choice(choices)]`, or
    `random.sample(choices, randint(2, min(5, len(choices))))` with
    multi-invoice payments on (which needs two choices: with one,
    `randint(2, 1)` raises).
   */
  method SelectInvoices(choices: seq<string>, multi: bool) returns (picks: seq<nat>, sel: seq<string>)
    requires choices != [] && (multi ==> |choices| >= 2)
    ensures SelectionOk(picks, sel, choices, multi)
  {
    if multi {
      var hi := Min(5, |choices|);
      assert 2 <= hi <= |choices|;
      var k :| 2 <= k <= hi;
      SomeSample(k, |choices|);
      picks :| |picks| == k && DistinctNats(picks) && forall j :: 0 <= j < k ==> picks[j] < |choices|;
    } else {
      var i :| 0 <= i < |choices|;
      picks := [i];
    }
    sel := seq(|picks|, j requires 0 <= j < |picks| => choices[picks[j]]);
  }
}
