/**
  `_derive_account_choices`: the (account id, currency) pairs a generator picks
  from.  The invoice and purchase invoice generators accept only a list of ids;
  the purchase order and order generators prefer account rows (as the account
  generator produces them) and fall back to the id list.
 */
module AccountChoices {
  import opened Rows
  import opened Text

  datatype Choice = Choice(accountId: Value, currency: Value)

  /** Python truthiness of an optional cell: missing, "", 0 and False are false. */
  predicate Truthy(v: Option<Value>) {
    match v
    case None => false
    case Some(Str(s)) => s != ""
    case Some(Int(i)) => i != 0
    case Some(Bool(b)) => b
  }

  /** The choices the id list yields: each stripped, non-blank id with the default currency. */
  function IdChoices(ids: seq<string>, defaultCurrency: string): seq<Choice> {
    if ids == [] then []
    else
      var id := Strip(ids[|ids| - 1]);
      IdChoices(ids[..|ids| - 1], defaultCurrency) +
        if id == "" then [] else [Choice(Str(id), Str(defaultCurrency))]
  }

  /** The id choices are the cleaned id list, each paired with the default currency. */
  lemma {:induction false} IdChoicesAre(ids: seq<string>, defaultCurrency: string)
    ensures |IdChoices(ids, defaultCurrency)| == |StripNonBlank(ids)|
    ensures forall i :: 0 <= i < |StripNonBlank(ids)| ==>
      IdChoices(ids, defaultCurrency)[i] == Choice(Str(StripNonBlank(ids)[i]), Str(defaultCurrency))
  {
    if ids != [] {
      IdChoicesAre(ids[..|ids| - 1], defaultCurrency);
    }
  }

  /** Choice `c` of the id list: a cleaned id and the default currency. */
  lemma IdChoice(ids: seq<string>, defaultCurrency: string, c: nat)
    requires c < |IdChoices(ids, defaultCurrency)|
    ensures IdChoices(ids, defaultCurrency)[c].accountId.Str?
    ensures IdChoices(ids, defaultCurrency)[c].accountId.s in StripNonBlank(ids)
    ensures IdChoices(ids, defaultCurrency)[c].currency == Str(defaultCurrency)
  {
    IdChoicesAre(ids, defaultCurrency);
  }

  /**
    Invoice and purchase invoice `_derive_account_choices`: walks the ids,
    strips each and keeps the non-blank ones, paired with the default currency.
   */
  method DeriveFromIds(ids: seq<string>, defaultCurrency: string) returns (choices: seq<Choice>)
    ensures choices == IdChoices(ids, defaultCurrency)
    ensures forall i :: 0 <= i < |choices| ==>
      choices[i].accountId.Str? && choices[i].accountId.s != "" &&
      Strip(choices[i].accountId.s) == choices[i].accountId.s &&
      choices[i].currency == Str(defaultCurrency)
    ensures choices == [] <==> forall i :: 0 <= i < |ids| ==> Strip(ids[i]) == ""
  {
    choices := [];
    var n := 0;
    while n < |ids|
      invariant 0 <= n <= |ids|
      invariant choices == IdChoices(ids[..n], defaultCurrency)
    {
      var id := Strip(ids[n]);
      assert ids[..n + 1][..n] == ids[..n];
      if id != "" {
        choices := choices + [Choice(Str(id), Str(defaultCurrency))];
      }
      n := n + 1;
    }
    assert ids[..n] == ids;
    StripNonBlankEmpty(ids);
    IdChoicesAre(ids, defaultCurrency);
    forall i | 0 <= i < |choices|
      ensures Strip(choices[i].accountId.s) == choices[i].accountId.s
    {
      StripNonBlankFrom(ids, i);
      var j :| 0 <= j < |ids| && StripNonBlank(ids)[i] == Strip(ids[j]);
      StripIdempotent(ids[j]);
    }
  }

  /** The choices account rows yield: rows with a truthy `account_id`, with their currency or the default. */
  function RowChoices(rows: seq<Row>, defaultCurrency: string): seq<Choice> {
    if rows == [] then []
    else
      var row := rows[|rows| - 1];
      var id := Get(row, "account_id");
      var cur := Get(row, "account_currency");
      RowChoices(rows[..|rows| - 1], defaultCurrency) +
        if !Truthy(id) then [] else [Choice(id.value, if Truthy(cur) then cur.value else Str(defaultCurrency))]
  }

  /** `c` is what account row `row` contributes: its truthy id, with its currency or the default. */
  predicate ChoiceOf(row: Row, defaultCurrency: string, c: Choice) {
    var id := Get(row, "account_id");
    var cur := Get(row, "account_currency");
    Truthy(id) && c.accountId == id.value &&
    c.currency == if Truthy(cur) then cur.value else Str(defaultCurrency)
  }

  /** Every row choice comes from one account row, with that row's currency or the default. */
  lemma {:induction false} RowChoiceFrom(rows: seq<Row>, defaultCurrency: string, k: nat)
    requires k < |RowChoices(rows, defaultCurrency)|
    ensures exists j :: 0 <= j < |rows| && ChoiceOf(rows[j], defaultCurrency, RowChoices(rows, defaultCurrency)[k])
  {
    var front := rows[..|rows| - 1];
    var cs := RowChoices(rows, defaultCurrency);
    if k < |RowChoices(front, defaultCurrency)| {
      RowChoiceFrom(front, defaultCurrency, k);
      var j :| 0 <= j < |front| && ChoiceOf(front[j], defaultCurrency, RowChoices(front, defaultCurrency)[k]);
      assert front[j] == rows[j];
      assert cs[k] == RowChoices(front, defaultCurrency)[k];
    } else {
      assert cs[k].accountId == Get(rows[|rows| - 1], "account_id").value;
    }
  }

  /** No choice comes out of the rows exactly when no row has a truthy `account_id`. */
  lemma {:induction false} RowChoicesEmpty(rows: seq<Row>, defaultCurrency: string)
    ensures RowChoices(rows, defaultCurrency) == [] <==>
      forall j :: 0 <= j < |rows| ==> !Truthy(Get(rows[j], "account_id"))
  {
    if rows != [] {
      var front := rows[..|rows| - 1];
      RowChoicesEmpty(front, defaultCurrency);
      assert forall j :: 0 <= j < |front| ==> front[j] == rows[j];
    }
  }

  /** The choices the purchase order and order generators derive: from the rows when any are given, else from the ids. */
  function Choices(rows: seq<Row>, ids: seq<string>, defaultCurrency: string): seq<Choice> {
    if rows != [] then RowChoices(rows, defaultCurrency) else IdChoices(ids, defaultCurrency)
  }

  /** `currency or default_currency`. */
  function CurrencyOr(currency: Value, defaultCurrency: string): (v: Value)
    ensures Truthy(Some(currency)) ==> v == currency
    ensures !Truthy(Some(currency)) ==> v == Str(defaultCurrency)
  {
    if Truthy(Some(currency)) then currency else Str(defaultCurrency)
  }

  /**
    A derived choice's currency is truthy or already the default, so the
    generators' `currency or default_currency` leaves it as it is.
   */
  lemma ChoiceCurrency(rows: seq<Row>, ids: seq<string>, defaultCurrency: string, i: nat)
    requires i < |Choices(rows, ids, defaultCurrency)|
    ensures var c := Choices(rows, ids, defaultCurrency)[i];
      CurrencyOr(c.currency, defaultCurrency) == c.currency
  {
    if rows != [] {
      RowChoiceFrom(rows, defaultCurrency, i);
    } else {
      IdChoice(ids, defaultCurrency, i);
    }
  }

  /**
    Purchase order and order `_derive_account_choices`: account rows win when
    any are given; otherwise the id list is used.
   */
  method DeriveFromRowsOrIds(rows: seq<Row>, ids: seq<string>, defaultCurrency: string)
    returns (choices: seq<Choice>)
    ensures choices == Choices(rows, ids, defaultCurrency)
    ensures choices == [] <==>
      if rows != [] then forall j :: 0 <= j < |rows| ==> !Truthy(Get(rows[j], "account_id"))
      else forall i :: 0 <= i < |ids| ==> Strip(ids[i]) == ""
  {
    if rows != [] {
      choices := [];
      var n := 0;
      while n < |rows|
        invariant 0 <= n <= |rows|
        invariant choices == RowChoices(rows[..n], defaultCurrency)
      {
        var row := rows[n];
        assert rows[..n + 1][..n] == rows[..n] && rows[..n + 1][n] == row;
        var id := Get(row, "account_id");
        if Truthy(id) {
          var cur := Get(row, "account_currency");
          choices := choices + [Choice(id.value, if Truthy(cur) then cur.value else Str(defaultCurrency))];
        }
        n := n + 1;
      }
      assert rows[..n] == rows;
      RowChoicesEmpty(rows, defaultCurrency);
    } else {
      choices := DeriveFromIds(ids, defaultCurrency);
    }
  }
}
