/**
  The account loop of `generate_account_data` in `account_csv_generator.py`:
  the accounts sampled to receive a group and a custom form, one row per
  account with an id and a name not used before, and the table written out
  with its columns reordered.
 */
module AccountData {
  import opened Rows
  import opened Text
  import opened CustomAttributes
  import opened Calendar
  import opened AccountFields
  import opened AccountInfo
  import opened AccountColumns
  import opened AccountParts
  import opened Account

  // ---------------------------------------------------------------------------
  // Sampled accounts

  /** `range(n)` as a set: the positions of the first `n` accounts. */
  function Below(n: nat): (s: set<nat>)
    ensures |s| == n
    ensures forall x :: x in s <==> 0 <= x < n
  {
    if n == 0 then {} else Below(n - 1) + {n - 1}
  }

  /** `set(random.sample(range(num_rows), k))`: `k` different positions among the first `numRows`. */
  method SampleAccounts(numRows: nat, k: nat) returns (s: set<nat>)
    requires k <= numRows
    ensures |s| == k && forall x :: x in s ==> x < numRows
  {
    var all := Below(numRows);
    assert Below(k) <= all;
    s :| s <= all && |s| == k;
    forall x | x in s ensures x < numRows {
      assert x in all;
    }
  }

  // ---------------------------------------------------------------------------
  // One account

  /** Account columns are not custom attribute columns: those start `ca_account_attr_`. */
  lemma NotAttrColumn(attrs: seq<AttrSpec>, k: string)
    requires AllPrefixed(attrs, "ca_account_attr_") && |k| > 0 && k[0] == 'a'
    ensures k !in Columns(attrs)
  {
    forall i | 0 <= i < |attrs| ensures Columns(attrs)[i] != k {
      assert attrs[i].column[..16] == "ca_account_attr_";
      assert attrs[i].column[0] == 'c';
    }
  }

  /**
    The cells of account `id` named `name` that the loop relies on: its id
    and name, a group exactly when group names exist and it was sampled, a
    custom form likewise, and a user team exactly when team names exist,
    each one of the configured names.
   */
  predicate AccountCells(cfg: AccountConfig, id: string, name: string, inGroup: bool, inForm: bool, row: Row) {
    Get(row, "account_id") == Some(Str(id)) && Get(row, "account_name") == Some(Str(name)) &&
    CellFrom(Get(row, GroupKey), cfg.groupNames != [] && inGroup, cfg.groupNames) &&
    CellFrom(Get(row, CustomFormKey), cfg.formNames != [] && inForm, cfg.formNames) &&
    CellFrom(Get(row, UserTeamKey), cfg.teamNames != [], cfg.teamNames)
  }

  /** The custom attributes leave the id and the name as the row before them has them. */
  lemma RowIdentity(cfg: AccountConfig, today: Date, numRows: int, a: Info, d: AccountDraw, inGroup: bool, inForm: bool,
                    row: Row)
    requires AllPrefixed(cfg.attrs, "ca_account_attr_") && DrawOk(cfg, d)
    requires RowOk(cfg.attrs, today, numRows, BaseRow(cfg, a, d, inGroup, inForm), row)
    ensures Get(row, "account_id") == Some(Str(a.id)) && Get(row, "account_name") == Some(Str(a.name))
  {
    BaseRowId(cfg, a, d, inGroup, inForm);
    BaseRowName(cfg, a, d, inGroup, inForm);
    NotAttrColumn(cfg.attrs, "account_id");
    NotAttrColumn(cfg.attrs, "account_name");
  }

  /** The custom attributes leave the group as the row before them has it. */
  lemma RowGroup(cfg: AccountConfig, today: Date, numRows: int, a: Info, d: AccountDraw, inGroup: bool, inForm: bool,
                 row: Row)
    requires AllPrefixed(cfg.attrs, "ca_account_attr_") && DrawOk(cfg, d)
    requires RowOk(cfg.attrs, today, numRows, BaseRow(cfg, a, d, inGroup, inForm), row)
    ensures CellFrom(Get(row, GroupKey), cfg.groupNames != [] && inGroup, cfg.groupNames)
  {
    BaseRowGroup(cfg, a, d, inGroup, inForm);
    NotAttrColumn(cfg.attrs, GroupKey);
  }

  /** The custom attributes leave the custom form as the row before them has it. */
  lemma RowForm(cfg: AccountConfig, today: Date, numRows: int, a: Info, d: AccountDraw, inGroup: bool, inForm: bool,
                row: Row)
    requires AllPrefixed(cfg.attrs, "ca_account_attr_") && DrawOk(cfg, d)
    requires RowOk(cfg.attrs, today, numRows, BaseRow(cfg, a, d, inGroup, inForm), row)
    ensures CellFrom(Get(row, CustomFormKey), cfg.formNames != [] && inForm, cfg.formNames)
  {
    BaseRowForm(cfg, a, d, inGroup, inForm);
    NotAttrColumn(cfg.attrs, CustomFormKey);
  }

  /** The custom attributes leave the user team as the row before them has it. */
  lemma RowTeam(cfg: AccountConfig, today: Date, numRows: int, a: Info, d: AccountDraw, inGroup: bool, inForm: bool,
                row: Row)
    requires AllPrefixed(cfg.attrs, "ca_account_attr_") && DrawOk(cfg, d)
    requires RowOk(cfg.attrs, today, numRows, BaseRow(cfg, a, d, inGroup, inForm), row)
    ensures CellFrom(Get(row, UserTeamKey), cfg.teamNames != [], cfg.teamNames)
  {
    BaseRowTeam(cfg, a, d, inGroup, inForm);
    NotAttrColumn(cfg.attrs, UserTeamKey);
  }

  /** The custom attributes leave the cells of the account as the row before them has them. */
  lemma RowCells(cfg: AccountConfig, today: Date, numRows: int, a: Info, d: AccountDraw, inGroup: bool, inForm: bool,
                 row: Row)
    requires AllPrefixed(cfg.attrs, "ca_account_attr_") && DrawOk(cfg, d)
    requires RowOk(cfg.attrs, today, numRows, BaseRow(cfg, a, d, inGroup, inForm), row)
    ensures AccountCells(cfg, a.id, a.name, inGroup, inForm, row)
  {
    RowIdentity(cfg, today, numRows, a, d, inGroup, inForm, row);
    RowGroup(cfg, today, numRows, a, d, inGroup, inForm, row);
    RowForm(cfg, today, numRows, a, d, inGroup, inForm, row);
    RowTeam(cfg, today, numRows, a, d, inGroup, inForm, row);
  }

  /**
    One account as the loop body builds it: its id and name, whether it was
    sampled for a group and for a custom form, its draws, and its row.
   */
  datatype AccountRecord = AccountRecord(id: string, name: string, inGroup: bool, inForm: bool,
                                         draw: AccountDraw, row: Row)

  /**
    The row of `a` is the base row of its account and draws, with the custom
    attributes applied by the account rule (`BuiltMeans` states it plainly).
    It is phrased over every row equal to the base row, so that the base row
    is only built where a `RowOk` about the record's row is already at hand.
   */
  ghost predicate Built(cfg: AccountConfig, today: Date, numRows: int, a: AccountRecord) {
    DrawOk(cfg, a.draw) &&
    forall base {:trigger RowOk(cfg.attrs, today, numRows, base, a.row)} ::
      base == BaseRow(cfg, InfoOf(a.id, a.name, cfg.taxCodes, a.draw.info), a.draw, a.inGroup, a.inForm) ==>
      RowOk(cfg.attrs, today, numRows, base, a.row)
  }

  /** `Built` says that the draws fit the configuration and that the row is the base row with the attributes applied. */
  lemma BuiltMeans(cfg: AccountConfig, today: Date, numRows: int, a: AccountRecord)
    ensures Built(cfg, today, numRows, a) <==>
      DrawOk(cfg, a.draw) &&
      RowOk(cfg.attrs, today, numRows, BaseRow(cfg, InfoOf(a.id, a.name, cfg.taxCodes, a.draw.info), a.draw,
                                                a.inGroup, a.inForm), a.row)
  {
  }

  /** The loop body for account `id` named `name`: its own draws, and the row they give. */
  method DrawAccount(cfg: AccountConfig, today: Date, numRows: int, id: string, name: string, inGroup: bool, inForm: bool)
    returns (row: Row, d: AccountDraw)
    requires ValidDate(today)
    ensures Built(cfg, today, numRows, AccountRecord(id, name, inGroup, inForm, d, row))
  {
    SomeDrawOk(cfg);
    d :| DrawOk(cfg, d);
    var a := InfoOf(id, name, cfg.taxCodes, d.info);
    row := AccountRow(cfg, today, numRows, a, d, inGroup, inForm);
  }

  /** The row of the loop body is built from its draws and has the cells of its account. */
  method AccountFor(cfg: AccountConfig, today: Date, numRows: int, id: string, name: string, inGroup: bool, inForm: bool)
    returns (row: Row, ghost d: AccountDraw)
    requires ValidDate(today) && AllPrefixed(cfg.attrs, "ca_account_attr_")
    ensures Built(cfg, today, numRows, AccountRecord(id, name, inGroup, inForm, d, row))
    ensures AccountCells(cfg, id, name, inGroup, inForm, row)
  {
    row, d := DrawAccount(cfg, today, numRows, id, name, inGroup, inForm);
    RowCells(cfg, today, numRows, InfoOf(id, name, cfg.taxCodes, d.info), d, inGroup, inForm, row);
  }

  // ---------------------------------------------------------------------------
  // The loop

  /** Every row has the cells of the account at its position. */
  predicate AllCells(cfg: AccountConfig, data: seq<Row>, ids: seq<string>, names: seq<string>,
                     groupIdx: set<nat>, formIdx: set<nat>)
    requires |data| == |ids| == |names|
  {
    forall i :: 0 <= i < |data| ==> AccountCells(cfg, ids[i], names[i], i in groupIdx, i in formIdx, data[i])
  }

  /** The records describe the rows, ids and names at their positions and the sampled positions. */
  predicate Describes(recs: seq<AccountRecord>, data: seq<Row>, ids: seq<string>, names: seq<string>,
                      groupIdx: set<nat>, formIdx: set<nat>)
  {
    |recs| == |data| == |ids| == |names| &&
    forall i :: 0 <= i < |recs| ==>
      recs[i].row == data[i] && recs[i].id == ids[i] && recs[i].name == names[i] &&
      recs[i].inGroup == (i in groupIdx) && recs[i].inForm == (i in formIdx)
  }

  /** Every record is `Built`, and its row has the cells of its account. */
  ghost predicate AllBuilt(cfg: AccountConfig, today: Date, numRows: int, recs: seq<AccountRecord>) {
    forall i :: 0 <= i < |recs| ==>
      Built(cfg, today, numRows, recs[i]) &&
      AccountCells(cfg, recs[i].id, recs[i].name, recs[i].inGroup, recs[i].inForm, recs[i].row)
  }

  /** Appending the record of the next account keeps `Describes`. */
  lemma DescribesSnoc(recs: seq<AccountRecord>, data: seq<Row>, ids: seq<string>, names: seq<string>,
                      groupIdx: set<nat>, formIdx: set<nat>, a: AccountRecord)
    requires Describes(recs, data, ids, names, groupIdx, formIdx)
    requires a.inGroup == (|data| in groupIdx) && a.inForm == (|data| in formIdx)
    ensures Describes(recs + [a], data + [a.row], ids + [a.id], names + [a.name], groupIdx, formIdx)
  {
  }

  /** Appending a built record with the cells of its account keeps `AllBuilt`. */
  lemma AllBuiltSnoc(cfg: AccountConfig, today: Date, numRows: int, recs: seq<AccountRecord>, a: AccountRecord)
    requires AllBuilt(cfg, today, numRows, recs)
    requires Built(cfg, today, numRows, a) && AccountCells(cfg, a.id, a.name, a.inGroup, a.inForm, a.row)
    ensures AllBuilt(cfg, today, numRows, recs + [a])
  {
  }

  /**
    The loop body for the account at position `|data|`: its row, and its
    record appended to the records of the accounts before it.
   */
  method NextAccount(cfg: AccountConfig, today: Date, numRows: int, id: string, name: string,
                     groupIdx: set<nat>, formIdx: set<nat>, data: seq<Row>, ghost ids: seq<string>,
                     ghost names: seq<string>, ghost recs: seq<AccountRecord>)
    returns (row: Row, ghost a: AccountRecord)
    requires ValidDate(today) && AllPrefixed(cfg.attrs, "ca_account_attr_")
    requires Describes(recs, data, ids, names, groupIdx, formIdx) && AllBuilt(cfg, today, numRows, recs)
    ensures a.row == row && a.id == id && a.name == name
    ensures AccountCells(cfg, id, name, |data| in groupIdx, |data| in formIdx, row)
    ensures Describes(recs + [a], data + [row], ids + [id], names + [name], groupIdx, formIdx)
    ensures AllBuilt(cfg, today, numRows, recs + [a])
  {
    ghost var d;
    row, d := AccountFor(cfg, today, numRows, id, name, |data| in groupIdx, |data| in formIdx);
    a := AccountRecord(id, name, |data| in groupIdx, |data| in formIdx, d, row);
    DescribesSnoc(recs, data, ids, names, groupIdx, formIdx, a);
    AllBuiltSnoc(cfg, today, numRows, recs, a);
  }

  /** The records give every row the cells of the account at its position. */
  lemma CellsOfRecords(cfg: AccountConfig, today: Date, numRows: int, recs: seq<AccountRecord>, data: seq<Row>,
                       ids: seq<string>, names: seq<string>, groupIdx: set<nat>, formIdx: set<nat>)
    requires Describes(recs, data, ids, names, groupIdx, formIdx) && AllBuilt(cfg, today, numRows, recs)
    ensures AllCells(cfg, data, ids, names, groupIdx, formIdx)
  {
    forall i | 0 <= i < |data|
      ensures AccountCells(cfg, ids[i], names[i], i in groupIdx, i in formIdx, data[i])
    {
      assert AccountCells(cfg, recs[i].id, recs[i].name, recs[i].inGroup, recs[i].inForm, recs[i].row);
    }
  }

  /**
    `for i in range(num_rows)`: each account draws an id and a name not used
    before (the retry loops), records them as used, and appends its row.
   */
  method AccountLoop(numRows: nat, today: Date, cfg: AccountConfig, groupIdx: set<nat>, formIdx: set<nat>)
    returns (data: seq<Row>, ghost ids: seq<string>, ghost names: seq<string>, ghost recs: seq<AccountRecord>)
    requires numRows <= 180000 && ValidDate(today)
    requires AllPrefixed(cfg.attrs, "ca_account_attr_")
    ensures |data| == |ids| == |names| == numRows
    ensures Distinct(ids) && Distinct(names)
    ensures forall i :: 0 <= i < numRows ==> IsAccountId(ids[i]) && names[i] != ""
    ensures AllCells(cfg, data, ids, names, groupIdx, formIdx)
    ensures Describes(recs, data, ids, names, groupIdx, formIdx) && AllBuilt(cfg, today, numRows, recs)
  {
    var usedIds: set<string>, usedNames: set<string> := {}, {};
    data, ids, names, recs := [], [], [], [];
    var i := 0;
    while i < numRows
      invariant 0 <= i <= numRows && |data| == |ids| == |names| == i
      invariant |usedIds| == i && (forall x :: x in usedIds <==> x in ids)
      invariant forall x :: x in usedNames <==> x in names
      invariant Distinct(ids) && Distinct(names)
      invariant forall j :: 0 <= j < i ==> IsAccountId(ids[j]) && names[j] != ""
      invariant Describes(recs, data, ids, names, groupIdx, formIdx) && AllBuilt(cfg, today, numRows, recs)
    {
      var id := FreshAccountId(usedIds);
      usedIds := usedIds + {id};
      var name := FreshAccountName(usedNames);
      usedNames := usedNames + {name};
      var row;
      ghost var a;
      row, a := NextAccount(cfg, today, numRows, id, name, groupIdx, formIdx, data, ids, names, recs);
      DistinctConcat(ids, [id]);
      DistinctConcat(names, [name]);
      data, ids, names, recs := data + [row], ids + [id], names + [name], recs + [a];
      i := i + 1;
    }
    CellsOfRecords(cfg, today, numRows, recs, data, ids, names, groupIdx, formIdx);
  }

  // ---------------------------------------------------------------------------
  // The whole generator

  /** The positions of the accounts whose row has column `k`. */
  function AccountsWith(data: seq<Row>, k: string): (s: set<nat>)
    ensures forall i :: i in s <==> 0 <= i < |data| && Get(data[i], k).Some?
  {
    set i: nat | i < |data| && Get(data[i], k).Some?
  }

  /** Different accounts hold different ids and different names. */
  lemma UniqueIdentities(cfg: AccountConfig, data: seq<Row>, ids: seq<string>, names: seq<string>,
                         groupIdx: set<nat>, formIdx: set<nat>)
    requires |data| == |ids| == |names| && Distinct(ids) && Distinct(names)
    requires AllCells(cfg, data, ids, names, groupIdx, formIdx)
    ensures forall i, j :: 0 <= i < j < |data| ==>
      Get(data[i], "account_id") != Get(data[j], "account_id") &&
      Get(data[i], "account_name") != Get(data[j], "account_name")
  {
    forall i, j | 0 <= i < j < |data|
      ensures Get(data[i], "account_id") != Get(data[j], "account_id")
      ensures Get(data[i], "account_name") != Get(data[j], "account_name")
    {
      assert AccountCells(cfg, ids[i], names[i], i in groupIdx, i in formIdx, data[i]);
      assert AccountCells(cfg, ids[j], names[j], j in groupIdx, j in formIdx, data[j]);
    }
  }

  /** Exactly the sampled accounts have a group, and when there are no group names none has one. */
  lemma GroupCount(numRows: nat, cfg: AccountConfig, data: seq<Row>, ids: seq<string>, names: seq<string>,
                   groupIdx: set<nat>, formIdx: set<nat>)
    requires |data| == |ids| == |names| == numRows
    requires |groupIdx| == GroupSampleSize(numRows, cfg) && forall x :: x in groupIdx ==> x < numRows
    requires AllCells(cfg, data, ids, names, groupIdx, formIdx)
    ensures |AccountsWith(data, GroupKey)| == GroupSampleSize(numRows, cfg)
  {
    forall i | 0 <= i < numRows ensures Get(data[i], GroupKey).Some? <==> i in groupIdx {
      assert AccountCells(cfg, ids[i], names[i], i in groupIdx, i in formIdx, data[i]);
    }
    assert AccountsWith(data, GroupKey) == groupIdx;
  }

  /** Exactly the sampled accounts have a custom form, and when there are no form names none has one. */
  lemma FormCountOfRows(numRows: nat, cfg: AccountConfig, data: seq<Row>, ids: seq<string>, names: seq<string>,
                        groupIdx: set<nat>, formIdx: set<nat>)
    requires |data| == |ids| == |names| == numRows
    requires |formIdx| == FormSampleSize(numRows, cfg) && forall x :: x in formIdx ==> x < numRows
    requires AllCells(cfg, data, ids, names, groupIdx, formIdx)
    ensures |AccountsWith(data, CustomFormKey)| == FormSampleSize(numRows, cfg)
  {
    forall i | 0 <= i < numRows ensures Get(data[i], CustomFormKey).Some? <==> i in formIdx {
      assert AccountCells(cfg, ids[i], names[i], i in groupIdx, i in formIdx, data[i]);
    }
    assert AccountsWith(data, CustomFormKey) == formIdx;
  }

  /**
    `generate_account_data` up to writing the file: the sampled accounts,
    the loop, and the table with its columns reordered.  Every account has
    an id and a name no other account has; exactly the clamped number of
    accounts get a group, and exactly the computed number a custom form;
    every account has a user team when team names exist; and every row is
    the one the loop body builds from its own draws, for the account at its
    position, with its custom attributes given by the account rule on
    `today` (the clock, a parameter here).
   */
  method GenerateAccountData(numRows: nat, today: Date, cfg: AccountConfig)
    returns (data: seq<Row>, columns: seq<string>, table: seq<seq<Value>>,
             ghost ids: seq<string>, ghost names: seq<string>, ghost recs: seq<AccountRecord>,
             ghost groupIdx: set<nat>, ghost formIdx: set<nat>)
    requires numRows <= 180000 && ValidDate(today)
    requires AllPrefixed(cfg.attrs, "ca_account_attr_")
    ensures |data| == numRows
    ensures forall i :: 0 <= i < numRows ==>
      exists id :: IsAccountId(id) && Get(data[i], "account_id") == Some(Str(id))
    ensures forall i, j :: 0 <= i < j < numRows ==>
      Get(data[i], "account_id") != Get(data[j], "account_id") &&
      Get(data[i], "account_name") != Get(data[j], "account_name")
    ensures |AccountsWith(data, GroupKey)| == GroupSampleSize(numRows, cfg)
    ensures |AccountsWith(data, CustomFormKey)| == FormSampleSize(numRows, cfg)
    ensures forall i :: 0 <= i < numRows ==> CellFrom(Get(data[i], UserTeamKey), cfg.teamNames != [], cfg.teamNames)
    ensures Describes(recs, data, ids, names, groupIdx, formIdx) && AllBuilt(cfg, today, numRows, recs)
    ensures columns == ReorderColumns(ColumnsOf(data)) && table == Frame(data, columns)
  {
    var inGroup: set<nat> := {};
    var groupCount := GroupSampleSize(numRows, cfg);
    if cfg.groupNames != [] && groupCount > 0 {
      inGroup := SampleAccounts(numRows, groupCount);
    }
    var inForm: set<nat> := {};
    var formCount := FormSampleSize(numRows, cfg);
    if cfg.formNames != [] && cfg.assignPercent > 0.0 {
      inForm := SampleAccounts(numRows, formCount);
    }
    groupIdx, formIdx := inGroup, inForm;
    data, ids, names, recs := AccountLoop(numRows, today, cfg, inGroup, inForm);
    forall i | 0 <= i < numRows
      ensures exists id :: IsAccountId(id) && Get(data[i], "account_id") == Some(Str(id))
      ensures CellFrom(Get(data[i], UserTeamKey), cfg.teamNames != [], cfg.teamNames)
    {
      assert AccountCells(cfg, ids[i], names[i], i in groupIdx, i in formIdx, data[i]);
    }
    UniqueIdentities(cfg, data, ids, names, groupIdx, formIdx);
    GroupCount(numRows, cfg, data, ids, names, groupIdx, formIdx);
    FormCountOfRows(numRows, cfg, data, ids, names, groupIdx, formIdx);
    columns := ReorderColumns(ColumnsOf(data));
    table := Frame(data, columns);
  }

  /** The columns written are the rows' keys, each exactly once. */
  lemma TableColumns(data: seq<Row>)
    ensures Distinct(ReorderColumns(ColumnsOf(data)))
    ensures forall i, k :: 0 <= i < |data| && k in Keys(data[i]) ==> k in ReorderColumns(ColumnsOf(data))
    ensures forall c :: c in ReorderColumns(ColumnsOf(data)) ==> exists i :: 0 <= i < |data| && c in Keys(data[i])
  {
    ColumnsDistinct(data);
    ReorderPermutes(ColumnsOf(data));
    var cols, out := ColumnsOf(data), ReorderColumns(ColumnsOf(data));
    forall c ensures c in out <==> c in cols {
      assert c in out <==> c in multiset(out);
      assert c in cols <==> c in multiset(cols);
    }
    PermutationDistinct(cols, out);
    forall i, k | 0 <= i < |data| && k in Keys(data[i]) ensures k in out {
      ColumnsCover(data, k);
    }
    forall c | c in out ensures exists i :: 0 <= i < |data| && c in Keys(data[i]) {
      ColumnsCover(data, c);
    }
  }
}
