/**
  The column order of the account CSV: the DataFrame's columns (every key of
  every row, in the order first seen), then the reordering into account
  information, account group, account custom attributes, addresses, payment
  methods, contacts and the rest; and the table `fillna("")` gives.
 */
module AccountColumns {
  import opened Rows
  import opened Text
  import opened CustomAttributes

  // ---------------------------------------------------------------------------
  // The DataFrame's columns

  /** `pd.DataFrame(data).columns`: the keys of the rows, each once, in the order first seen. */
  function ColumnsOf(data: seq<Row>): seq<string> {
    if data == [] then [] else AddKeys(ColumnsOf(data[..|data| - 1]), Keys(data[|data| - 1]))
  }

  /** Assigning columns keeps the keys distinct. */
  lemma {:induction false} AddKeysDistinct(ks: seq<string>, cols: seq<string>)
    requires Distinct(ks)
    ensures Distinct(AddKeys(ks, cols))
    decreases |cols|
  {
    if cols != [] {
      var ks' := if cols[0] in ks then ks else ks + [cols[0]];
      if cols[0] !in ks {
        DistinctConcat(ks, [cols[0]]);
      }
      AddKeysDistinct(ks', cols[1..]);
    }
  }

  /** No column is listed twice. */
  lemma {:induction false} ColumnsDistinct(data: seq<Row>)
    ensures Distinct(ColumnsOf(data))
    decreases |data|
  {
    if data != [] {
      ColumnsDistinct(data[..|data| - 1]);
      AddKeysDistinct(ColumnsOf(data[..|data| - 1]), Keys(data[|data| - 1]));
    }
  }

  /** A column is listed exactly when some row has that key. */
  lemma {:induction false} ColumnsCover(data: seq<Row>, c: string)
    ensures c in ColumnsOf(data) <==> exists i :: 0 <= i < |data| && c in Keys(data[i])
    decreases |data|
  {
    if data != [] {
      var init, last := data[..|data| - 1], data[|data| - 1];
      ColumnsCover(init, c);
      if c in ColumnsOf(data) {
        AddKeysOnly(ColumnsOf(init), Keys(last), c);
        if c in ColumnsOf(init) {
          var i :| 0 <= i < |init| && c in Keys(init[i]);
          assert data[i] == init[i];
        } else {
          assert c in Keys(data[|data| - 1]);
        }
      } else {
        forall i | 0 <= i < |data| ensures c !in Keys(data[i]) {
          if i < |init| {
            assert data[i] == init[i];
            if c in Keys(init[i]) {
              AddKeysKeeps(ColumnsOf(init), Keys(last), c);
            }
          } else if c in Keys(last) {
            var a :| 0 <= a < |Keys(last)| && Keys(last)[a] == c;
            AddKeysHas(ColumnsOf(init), Keys(last), a);
          }
        }
      }
    }
  }

  /** The columns of the first rows come first, in the same order. */
  lemma {:induction false} ColumnsExtend(data: seq<Row>, row: Row)
    ensures var cs := ColumnsOf(data + [row]);
      |ColumnsOf(data)| <= |cs| && cs[..|ColumnsOf(data)|] == ColumnsOf(data)
  {
    assert (data + [row])[..|data|] == data;
    AddKeysExtends(ColumnsOf(data), Keys(row));
  }

  // ---------------------------------------------------------------------------
  // Reordering

  /** `[c for c in cols if p(c)]`. */
  function Filter(cols: seq<string>, p: string -> bool): (r: seq<string>)
    ensures |r| <= |cols|
    ensures forall c :: c in r ==> c in cols && p(c)
  {
    if cols == [] then []
    else Filter(cols[..|cols| - 1], p) + (if p(cols[|cols| - 1]) then [cols[|cols| - 1]] else [])
  }

  predicate IsGroupColumn(c: string) { c == "account_group" }
  predicate IsInfoColumn(c: string) { HasPrefix(c, "account_") && !IsGroupColumn(c) }
  predicate IsAttrColumn(c: string) { HasPrefix(c, "ca_account_attr_") }
  predicate IsAddressColumn(c: string) { HasPrefix(c, "address_") }
  predicate IsPaymentColumn(c: string) { HasPrefix(c, "payment_method_") }
  predicate IsContactColumn(c: string) { HasPrefix(c, "contact_") || HasPrefix(c, "ca_contact_") }

  /** A column in none of the six named groups. */
  predicate IsOtherColumn(c: string) {
    !IsInfoColumn(c) && !IsGroupColumn(c) && !IsAttrColumn(c) &&
    !IsAddressColumn(c) && !IsPaymentColumn(c) && !IsContactColumn(c)
  }

  /**
    The reordering at the end of `generate_account_data`: account information,
    the account group, account custom attributes, addresses, payment methods,
    contacts, then every other column, each group in its original order.
   */
  function ReorderColumns(cols: seq<string>): seq<string> {
    Filter(cols, IsInfoColumn) + Filter(cols, IsGroupColumn) + Filter(cols, IsAttrColumn) +
    Filter(cols, IsAddressColumn) + Filter(cols, IsPaymentColumn) + Filter(cols, IsContactColumn) +
    Filter(cols, IsOtherColumn)
  }

  /** The position of a column's group in the new order. */
  function Rank(c: string): (g: nat)
    ensures g <= 6
  {
    if IsInfoColumn(c) then 0
    else if IsGroupColumn(c) then 1
    else if IsAttrColumn(c) then 2
    else if IsAddressColumn(c) then 3
    else if IsPaymentColumn(c) then 4
    else if IsContactColumn(c) then 5
    else 6
  }

  /** The prefixes that name the groups differ at the given positions, so no column is in two groups. */
  lemma PrefixClash(c: string, p: string, q: string, i: nat)
    requires HasPrefix(c, p) && i < |p| && i < |q| && p[i] != q[i]
    ensures !HasPrefix(c, q)
  {
  }

  lemma InfoGroupsExclusive(c: string)
    requires IsInfoColumn(c) || IsGroupColumn(c)
    ensures !IsAttrColumn(c) && !IsAddressColumn(c) && !IsPaymentColumn(c) && !IsContactColumn(c)
  {
    if IsGroupColumn(c) {
      assert HasPrefix(c, "account_");
    }
    PrefixClash(c, "account_", "ca_account_attr_", 0);
    PrefixClash(c, "account_", "address_", 1);
    PrefixClash(c, "account_", "payment_method_", 0);
    PrefixClash(c, "account_", "contact_", 0);
    PrefixClash(c, "account_", "ca_contact_", 0);
  }

  lemma OtherGroupsExclusive(c: string)
    ensures IsAttrColumn(c) ==> !IsAddressColumn(c) && !IsPaymentColumn(c) && !IsContactColumn(c)
    ensures IsAddressColumn(c) ==> !IsPaymentColumn(c) && !IsContactColumn(c)
    ensures IsPaymentColumn(c) ==> !IsContactColumn(c)
  {
    if IsAttrColumn(c) {
      PrefixClash(c, "ca_account_attr_", "address_", 0);
      PrefixClash(c, "ca_account_attr_", "payment_method_", 0);
      PrefixClash(c, "ca_account_attr_", "contact_", 1);
      PrefixClash(c, "ca_account_attr_", "ca_contact_", 3);
    }
    if IsAddressColumn(c) {
      PrefixClash(c, "address_", "payment_method_", 0);
      PrefixClash(c, "address_", "contact_", 0);
      PrefixClash(c, "address_", "ca_contact_", 0);
    }
    if IsPaymentColumn(c) {
      PrefixClash(c, "payment_method_", "contact_", 0);
      PrefixClash(c, "payment_method_", "ca_contact_", 0);
    }
  }

  /** Every column is in exactly one group: the group a filter selects is the column's rank. */
  lemma GroupIsRank(c: string)
    ensures IsInfoColumn(c) <==> Rank(c) == 0
    ensures IsGroupColumn(c) <==> Rank(c) == 1
    ensures IsAttrColumn(c) <==> Rank(c) == 2
    ensures IsAddressColumn(c) <==> Rank(c) == 3
    ensures IsPaymentColumn(c) <==> Rank(c) == 4
    ensures IsContactColumn(c) <==> Rank(c) == 5
    ensures IsOtherColumn(c) <==> Rank(c) == 6
  {
    if IsInfoColumn(c) || IsGroupColumn(c) {
      InfoGroupsExclusive(c);
    }
    OtherGroupsExclusive(c);
  }

  /** `[c for c in cols if rk(c) == g]`. */
  function OfRank(cols: seq<string>, rk: string -> nat, g: nat): (r: seq<string>)
    ensures forall c :: c in r ==> rk(c) == g
  {
    if cols == [] then []
    else OfRank(cols[..|cols| - 1], rk, g) + (if rk(cols[|cols| - 1]) == g then [cols[|cols| - 1]] else [])
  }

  /** Filtering by a predicate that holds exactly on one rank selects that rank. */
  lemma {:induction false} FilterRank(cols: seq<string>, p: string -> bool, rk: string -> nat, g: nat)
    requires forall c :: p(c) <==> rk(c) == g
    ensures Filter(cols, p) == OfRank(cols, rk, g)
    decreases |cols|
  {
    if cols != [] {
      FilterRank(cols[..|cols| - 1], p, rk, g);
    }
  }

  /** The seven ranks, in rank order. */
  function ByRank(cols: seq<string>): seq<string> {
    OfRank(cols, Rank, 0) + OfRank(cols, Rank, 1) + OfRank(cols, Rank, 2) + OfRank(cols, Rank, 3) +
    OfRank(cols, Rank, 4) + OfRank(cols, Rank, 5) + OfRank(cols, Rank, 6)
  }

  lemma ReorderIsByRank(cols: seq<string>)
    ensures ReorderColumns(cols) == ByRank(cols)
  {
    forall c ensures IsInfoColumn(c) <==> Rank(c) == 0 { GroupIsRank(c); }
    forall c ensures IsGroupColumn(c) <==> Rank(c) == 1 { GroupIsRank(c); }
    forall c ensures IsAttrColumn(c) <==> Rank(c) == 2 { GroupIsRank(c); }
    forall c ensures IsAddressColumn(c) <==> Rank(c) == 3 { GroupIsRank(c); }
    forall c ensures IsPaymentColumn(c) <==> Rank(c) == 4 { GroupIsRank(c); }
    forall c ensures IsContactColumn(c) <==> Rank(c) == 5 { GroupIsRank(c); }
    forall c ensures IsOtherColumn(c) <==> Rank(c) == 6 { GroupIsRank(c); }
    FilterRank(cols, IsInfoColumn, Rank, 0);
    FilterRank(cols, IsGroupColumn, Rank, 1);
    FilterRank(cols, IsAttrColumn, Rank, 2);
    FilterRank(cols, IsAddressColumn, Rank, 3);
    FilterRank(cols, IsPaymentColumn, Rank, 4);
    FilterRank(cols, IsContactColumn, Rank, 5);
    FilterRank(cols, IsOtherColumn, Rank, 6);
  }

  /** The columns of ranks `g` to 6, rank by rank. */
  function FromRank(cols: seq<string>, rk: string -> nat, g: nat): seq<string>
    requires g <= 7
    decreases 7 - g
  {
    if g == 7 then [] else OfRank(cols, rk, g) + FromRank(cols, rk, g + 1)
  }

  lemma ByRankFromZero(cols: seq<string>)
    ensures ByRank(cols) == FromRank(cols, Rank, 0)
  {
    var o := seq(7, g requires 0 <= g < 7 => OfRank(cols, Rank, g));
    assert FromRank(cols, Rank, 6) == o[6];
    assert FromRank(cols, Rank, 5) == o[5] + o[6];
    assert FromRank(cols, Rank, 4) == o[4] + (o[5] + o[6]);
    assert FromRank(cols, Rank, 3) == o[3] + (o[4] + (o[5] + o[6]));
    assert FromRank(cols, Rank, 2) == o[2] + (o[3] + (o[4] + (o[5] + o[6])));
    assert FromRank(cols, Rank, 1) == o[1] + (o[2] + (o[3] + (o[4] + (o[5] + o[6]))));
    assert FromRank(cols, Rank, 0) == o[0] + (o[1] + (o[2] + (o[3] + (o[4] + (o[5] + o[6])))));
  }

  lemma OfRankSnoc(cols: seq<string>, rk: string -> nat, x: string, g: nat)
    ensures OfRank(cols + [x], rk, g) == OfRank(cols, rk, g) + (if rk(x) == g then [x] else [])
  {
    var c' := cols + [x];
    assert c'[..|c'| - 1] == cols && c'[|c'| - 1] == x;
  }

  /** Adding one column to the input adds it once, to its own rank. */
  lemma {:induction false} FromRankSnoc(cols: seq<string>, rk: string -> nat, x: string, g: nat)
    requires g <= 7
    ensures multiset(FromRank(cols + [x], rk, g)) ==
      multiset(FromRank(cols, rk, g)) + (if g <= rk(x) < 7 then multiset{x} else multiset{})
    decreases 7 - g
  {
    if g < 7 {
      var o, b, b' := OfRank(cols, rk, g), FromRank(cols, rk, g + 1), FromRank(cols + [x], rk, g + 1);
      OfRankSnoc(cols, rk, x, g);
      FromRankSnoc(cols, rk, x, g + 1);
      if rk(x) == g {
        MultisetSplice(o, [x], b, b', multiset{}, multiset{x});
      } else if g < rk(x) < 7 {
        MultisetSplice(o, [], b, b', multiset{x}, multiset{x});
      } else {
        MultisetSplice(o, [], b, b', multiset{}, multiset{});
      }
    }
  }

  lemma {:induction false} FromRankEmpty(rk: string -> nat, g: nat)
    requires g <= 7
    ensures FromRank([], rk, g) == []
    decreases 7 - g
  {
    if g < 7 {
      FromRankEmpty(rk, g + 1);
    }
  }

  /** Rank by rank, every column of the input appears, as often as in the input. */
  lemma {:induction false} FromRankPermutes(cols: seq<string>, rk: string -> nat)
    requires forall c :: rk(c) < 7
    ensures multiset(FromRank(cols, rk, 0)) == multiset(cols)
    decreases |cols|
  {
    if cols == [] {
      FromRankEmpty(rk, 0);
    } else {
      var init, x := cols[..|cols| - 1], cols[|cols| - 1];
      assert multiset(FromRank(init, rk, 0)) == multiset(init) by {
        FromRankPermutes(init, rk);
      }
      assert multiset(FromRank(cols, rk, 0)) == multiset(FromRank(init, rk, 0)) + multiset{x} by {
        assert cols == init + [x];
        FromRankSnoc(init, rk, x, 0);
      }
      assert multiset(cols) == multiset(init) + multiset{x} by {
        assert cols == init + [x];
      }
    }
  }

  /** Multiset bookkeeping for one step of the induction above. */
  lemma MultisetSplice(o: seq<string>, add: seq<string>, b: seq<string>, b': seq<string>,
                       later: multiset<string>, here: multiset<string>)
    requires multiset(b') == multiset(b) + later
    requires multiset(add) + later == here
    ensures multiset((o + add) + b') == multiset(o + b) + here
  {
    calc {
      multiset((o + add) + b');
      multiset(o) + multiset(add) + multiset(b');
      multiset(o) + multiset(b) + here;
      multiset(o + b) + here;
    }
  }

  /** The reordered columns are the same columns, each as often as before. */
  lemma ReorderPermutes(cols: seq<string>)
    ensures multiset(ReorderColumns(cols)) == multiset(cols)
    ensures |ReorderColumns(cols)| == |cols|
  {
    ReorderIsByRank(cols);
    ByRankFromZero(cols);
    FromRankPermutes(cols, Rank);
    assert |multiset(ReorderColumns(cols))| == |multiset(cols)|;
  }

  /** The ranks never go down along the ranks `g` to 6. */
  lemma {:induction false} FromRankSorted(cols: seq<string>, rk: string -> nat, g: nat)
    requires g <= 7
    ensures forall i :: 0 <= i < |FromRank(cols, rk, g)| ==> g <= rk(FromRank(cols, rk, g)[i])
    ensures forall i, j :: 0 <= i < j < |FromRank(cols, rk, g)| ==>
      rk(FromRank(cols, rk, g)[i]) <= rk(FromRank(cols, rk, g)[j])
    decreases 7 - g
  {
    if g < 7 {
      FromRankSorted(cols, rk, g + 1);
      var a, b := OfRank(cols, rk, g), FromRank(cols, rk, g + 1);
      assert FromRank(cols, rk, g) == a + b;
      forall i | 0 <= i < |a + b| ensures g <= rk((a + b)[i]) {
        if i < |a| { assert (a + b)[i] == a[i] && a[i] in a; } else { assert (a + b)[i] == b[i - |a|]; }
      }
      forall i, j | 0 <= i < j < |a + b| ensures rk((a + b)[i]) <= rk((a + b)[j]) {
        if j < |a| {
          assert (a + b)[i] == a[i] && a[i] in a && (a + b)[j] == a[j] && a[j] in a;
        } else if i < |a| {
          assert (a + b)[i] == a[i] && a[i] in a && (a + b)[j] == b[j - |a|];
        } else {
          assert (a + b)[i] == b[i - |a|] && (a + b)[j] == b[j - |a|];
        }
      }
    }
  }

  /** The reordered columns are grouped: information, group, attributes, addresses, payments, contacts, others. */
  lemma ReorderGrouped(cols: seq<string>)
    ensures forall i, j :: 0 <= i < j < |ReorderColumns(cols)| ==>
      Rank(ReorderColumns(cols)[i]) <= Rank(ReorderColumns(cols)[j])
  {
    ReorderIsByRank(cols);
    ByRankFromZero(cols);
    FromRankSorted(cols, Rank, 0);
  }

  lemma {:induction false} OfRankConcat(a: seq<string>, b: seq<string>, rk: string -> nat, g: nat)
    ensures OfRank(a + b, rk, g) == OfRank(a, rk, g) + OfRank(b, rk, g)
    decreases |b|
  {
    if b == [] {
      assert a + b == a;
    } else {
      var b', y := b[..|b| - 1], b[|b| - 1];
      assert (a + b)[..|a + b| - 1] == a + b' && (a + b)[|a + b| - 1] == y;
      OfRankConcat(a, b', rk, g);
    }
  }

  lemma {:induction false} OfRankOfRank(cols: seq<string>, rk: string -> nat, g: nat, h: nat)
    ensures OfRank(OfRank(cols, rk, h), rk, g) == if g == h then OfRank(cols, rk, h) else []
    decreases |cols|
  {
    if cols != [] {
      var init, x := cols[..|cols| - 1], cols[|cols| - 1];
      OfRankOfRank(init, rk, g, h);
      OfRankConcat(OfRank(init, rk, h), if rk(x) == h then [x] else [], rk, g);
    }
  }

  lemma {:induction false} OfRankFromRank(cols: seq<string>, rk: string -> nat, g: nat, h: nat)
    requires h <= 7
    ensures OfRank(FromRank(cols, rk, h), rk, g) == if h <= g < 7 then OfRank(cols, rk, g) else []
    decreases 7 - h
  {
    if h < 7 {
      assert FromRank(cols, rk, h) == OfRank(cols, rk, h) + FromRank(cols, rk, h + 1);
      var o, b := OfRank(cols, rk, h), FromRank(cols, rk, h + 1);
      OfRankFromRank(cols, rk, g, h + 1);
      OfRankConcat(o, b, rk, g);
      OfRankOfRank(cols, rk, g, h);
      if g == h {
        assert OfRank(b, rk, g) == [];
        assert OfRank(o + b, rk, g) == o + [];
      } else {
        assert OfRank(o, rk, g) == [];
        assert OfRank(o + b, rk, g) == [] + OfRank(b, rk, g);
      }
    } else {
      assert OfRank([], rk, g) == [];
    }
  }

  /** Inside each group the columns keep their original relative order. */
  lemma ReorderStable(cols: seq<string>, g: nat)
    requires g < 7
    ensures OfRank(ReorderColumns(cols), Rank, g) == OfRank(cols, Rank, g)
  {
    ReorderIsByRank(cols);
    ByRankFromZero(cols);
    OfRankFromRank(cols, Rank, g, 0);
  }

  // ---------------------------------------------------------------------------
  // The table

  /** `fillna("")`: a missing cell reads as "". */
  function CellOr(v: Option<Value>): Value {
    if v.Some? then v.value else Blank
  }

  /** The table written out: one line per row, one cell per column, "" where the row lacks the key. */
  function Frame(data: seq<Row>, cols: seq<string>): (t: seq<seq<Value>>)
    ensures |t| == |data|
    ensures forall i :: 0 <= i < |data| ==> |t[i]| == |cols|
    ensures forall i, j :: 0 <= i < |data| && 0 <= j < |cols| ==>
      t[i][j] == if cols[j] in Keys(data[i]) then Get(data[i], cols[j]).value else Blank
  {
    seq(|data|, i requires 0 <= i < |data| =>
      seq(|cols|, j requires 0 <= j < |cols| => CellOr(Get(data[i], cols[j]))))
  }
}
