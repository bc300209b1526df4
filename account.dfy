/**
  `generate_account_data` of `account_csv_generator.py`: the configuration as
  the generator clamps it, the row each iteration of the account loop
  assembles (the literal, the primary address, the contacts, the accounting
  code, the payment methods, the group, custom form and user team, and the
  custom attributes), the loop itself with its unique ids and names and its
  sampled accounts, and the table it writes.
 */
module Account {
  import opened Rows
  import opened Text
  import opened CustomAttributes
  import opened Calendar
  import opened AccountFields
  import opened AccountInfo
  import opened AccountColumns
  import opened AccountParts

  // ---------------------------------------------------------------------------
  // Sampled accounts

  /** How many accounts `random.sample` picks to receive a group. */
  function GroupSampleSize(numRows: nat, cfg: AccountConfig): (k: nat)
    ensures k <= numRows
    ensures cfg.groupNames == [] ==> k == 0
    ensures cfg.groupNames != [] && 0 <= cfg.assignCount <= numRows ==> k == cfg.assignCount
  {
    if cfg.groupNames != [] && AssignCount(numRows, cfg.assignCount) > 0 then AssignCount(numRows, cfg.assignCount)
    else 0
  }

  /**
    `min(num_rows, max(1, int(num_rows * assign_percent / 100.0)))`, the
    number of accounts that get a custom form (exact arithmetic on reals).
   */
  function FormCount(numRows: nat, percent: real): (k: nat)
    ensures k <= numRows
  {
    var share := (numRows as real * percent / 100.0).Floor;
    var atLeastOne := if share < 1 then 1 else share;
    if numRows < atLeastOne then numRows else atLeastOne
  }

  /** A positive share gives at least one account a form, and a share of 100% or more gives every account one. */
  lemma FormCountBounds(numRows: nat, percent: real)
    requires percent > 0.0
    ensures numRows >= 1 ==> 1 <= FormCount(numRows, percent)
    ensures percent >= 100.0 ==> FormCount(numRows, percent) == numRows
  {
    if percent >= 100.0 {
      var x := numRows as real * percent / 100.0;
      assert x >= numRows as real by {
        assert numRows as real * percent >= numRows as real * 100.0;
      }
      assert x.Floor >= numRows;
    }
  }

  /** How many accounts `random.sample` picks to receive a custom form. */
  function FormSampleSize(numRows: nat, cfg: AccountConfig): (k: nat)
    ensures k <= numRows
    ensures cfg.formNames == [] || cfg.assignPercent <= 0.0 ==> k == 0
    ensures cfg.formNames != [] && cfg.assignPercent > 0.0 ==> k == FormCount(numRows, cfg.assignPercent)
  {
    if cfg.formNames != [] && cfg.assignPercent > 0.0 then FormCount(numRows, cfg.assignPercent) else 0
  }

  // ---------------------------------------------------------------------------
  // The row before the custom attributes

  /**
    The stages of account `a`: the literal, the primary address (with the
    clamped line count and the country `Australia`), the contacts, the
    accounting code when configured and drawn, the direct debits, the other
    payment methods, and the group, custom form and user team, each
    assigned only when the account gets one.
   */
  function PartsOf(cfg: AccountConfig, a: Info, d: AccountDraw, inGroup: bool, inForm: bool): (p: Parts)
    requires DrawOk(cfg, d)
    ensures Shaped(p, ContactCount(cfg), MethodCount(cfg.ddCount), MethodCount(cfg.otCount))
  {
    CellKeys(AccountingCodeKey, AccountingCode(cfg, d));
    CellKeys(GroupKey, GroupOf(cfg, d, inGroup));
    CellKeys(CustomFormKey, FormOf(cfg, d, inForm));
    CellKeys(UserTeamKey, TeamOf(cfg, d));
    Parts(InfoRow(a), AddressRow(AddressLineCount(cfg.lineCount), "Australia", d.address),
          ContactsRow(ContactCount(cfg), Domain(a.name, d), d.contacts),
          Cell(AccountingCodeKey, AccountingCode(cfg, d)),
          DebitsRow(MethodCount(cfg.ddCount), a.id, a.name, cfg.ddProcessor, d.debits),
          OthersRow(MethodCount(cfg.otCount), a.id, cfg.otProcessors, cfg.otProcessor),
          Cell(GroupKey, GroupOf(cfg, d, inGroup)), Cell(CustomFormKey, FormOf(cfg, d, inForm)),
          Cell(UserTeamKey, TeamOf(cfg, d)))
  }

  /** The row before the custom attributes; no column of it is assigned twice. */
  function BaseRow(cfg: AccountConfig, a: Info, d: AccountDraw, inGroup: bool, inForm: bool): (r: Row)
    requires DrawOk(cfg, d)
    ensures DistinctKeys(r)
  {
    var p := PartsOf(cfg, a, d, inGroup, inForm);
    AssembleByUpdates(p, ContactCount(cfg), MethodCount(cfg.ddCount), MethodCount(cfg.otCount));
    Assemble(p)
  }

  /** The stages appended are what the `update`s and assignments of the loop body build. */
  lemma BaseRowByUpdates(cfg: AccountConfig, a: Info, d: AccountDraw, inGroup: bool, inForm: bool)
    requires DrawOk(cfg, d)
    ensures BaseRow(cfg, a, d, inGroup, inForm) == Chain(PartsOf(cfg, a, d, inGroup, inForm))
  {
    AssembleByUpdates(PartsOf(cfg, a, d, inGroup, inForm), ContactCount(cfg), MethodCount(cfg.ddCount), MethodCount(cfg.otCount));
  }

  /**
    The columns of one account row, in order: the twenty-six of the literal,
    the eleven of the primary address, `contact_count` contact blocks, the
    accounting code when assigned, the direct debit blocks, the other
    payment blocks, and the group, custom form and user team when assigned.
   */
  lemma BaseRowKeys(cfg: AccountConfig, a: Info, d: AccountDraw, inGroup: bool, inForm: bool)
    requires DrawOk(cfg, d)
    ensures Keys(BaseRow(cfg, a, d, inGroup, inForm)) ==
      InfoKeys + AddressKeys + BlocksKeys(ContactBlock, ContactFields, ContactCount(cfg)) +
      Keys(Cell(AccountingCodeKey, AccountingCode(cfg, d))) +
      BlocksKeys(DebitBlock, DebitFields, MethodCount(cfg.ddCount)) +
      BlocksKeys(OtherBlock, OtherFields, MethodCount(cfg.otCount)) +
      Keys(Cell(GroupKey, GroupOf(cfg, d, inGroup))) + Keys(Cell(CustomFormKey, FormOf(cfg, d, inForm))) +
      Keys(Cell(UserTeamKey, TeamOf(cfg, d)))
  {
    AssembleKeys(PartsOf(cfg, a, d, inGroup, inForm));
  }

  /** `account_id` holds the account's id. */
  lemma BaseRowId(cfg: AccountConfig, a: Info, d: AccountDraw, inGroup: bool, inForm: bool)
    requires DrawOk(cfg, d)
    ensures Get(BaseRow(cfg, a, d, inGroup, inForm), "account_id") == Some(Str(a.id))
  {
    InfoRowIdentity(a);
    IdentityGet(PartsOf(cfg, a, d, inGroup, inForm));
  }

  /** `account_name` holds the account's name. */
  lemma BaseRowName(cfg: AccountConfig, a: Info, d: AccountDraw, inGroup: bool, inForm: bool)
    requires DrawOk(cfg, d)
    ensures Get(BaseRow(cfg, a, d, inGroup, inForm), "account_name") == Some(Str(a.name))
  {
    InfoRowIdentity(a);
    IdentityGet(PartsOf(cfg, a, d, inGroup, inForm));
  }

  /** The accounting code is present exactly when it is configured and drawn, and is one of the nine codes. */
  lemma BaseRowAccountingCode(cfg: AccountConfig, a: Info, d: AccountDraw, inGroup: bool, inForm: bool)
    requires DrawOk(cfg, d)
    ensures CellFrom(Get(BaseRow(cfg, a, d, inGroup, inForm), AccountingCodeKey),
                     cfg.useAccountingCode && d.accountingCode.Some?, AccountingCodes)
  {
    LaterGet(PartsOf(cfg, a, d, inGroup, inForm), ContactCount(cfg), MethodCount(cfg.ddCount), MethodCount(cfg.otCount));
    CellDrawn(AccountingCodeKey, AccountingCode(cfg, d), cfg.useAccountingCode && d.accountingCode.Some?, AccountingCodes);
  }

  /** The group is present exactly for a sampled account when group names exist, and is one of them. */
  lemma BaseRowGroup(cfg: AccountConfig, a: Info, d: AccountDraw, inGroup: bool, inForm: bool)
    requires DrawOk(cfg, d)
    ensures CellFrom(Get(BaseRow(cfg, a, d, inGroup, inForm), GroupKey), cfg.groupNames != [] && inGroup, cfg.groupNames)
  {
    LaterGet(PartsOf(cfg, a, d, inGroup, inForm), ContactCount(cfg), MethodCount(cfg.ddCount), MethodCount(cfg.otCount));
    CellDrawn(GroupKey, GroupOf(cfg, d, inGroup), cfg.groupNames != [] && inGroup, cfg.groupNames);
  }

  /** The custom form is present exactly for a sampled account when form names exist, and is one of them. */
  lemma BaseRowForm(cfg: AccountConfig, a: Info, d: AccountDraw, inGroup: bool, inForm: bool)
    requires DrawOk(cfg, d)
    ensures CellFrom(Get(BaseRow(cfg, a, d, inGroup, inForm), CustomFormKey), cfg.formNames != [] && inForm, cfg.formNames)
  {
    LaterGet(PartsOf(cfg, a, d, inGroup, inForm), ContactCount(cfg), MethodCount(cfg.ddCount), MethodCount(cfg.otCount));
    CellDrawn(CustomFormKey, FormOf(cfg, d, inForm), cfg.formNames != [] && inForm, cfg.formNames);
  }

  /** The user team is present exactly when team names exist, and is one of them. */
  lemma BaseRowTeam(cfg: AccountConfig, a: Info, d: AccountDraw, inGroup: bool, inForm: bool)
    requires DrawOk(cfg, d)
    ensures CellFrom(Get(BaseRow(cfg, a, d, inGroup, inForm), UserTeamKey), cfg.teamNames != [], cfg.teamNames)
  {
    LaterGet(PartsOf(cfg, a, d, inGroup, inForm), ContactCount(cfg), MethodCount(cfg.ddCount), MethodCount(cfg.otCount));
    CellDrawn(UserTeamKey, TeamOf(cfg, d), cfg.teamNames != [], cfg.teamNames);
  }

  /** Address line `idx + 1` holds the drawn line up to the clamped line count, and "" after it. */
  lemma BaseRowAddressLine(cfg: AccountConfig, a: Info, d: AccountDraw, inGroup: bool, inForm: bool, idx: nat)
    requires DrawOk(cfg, d) && idx < 5
    ensures Get(BaseRow(cfg, a, d, inGroup, inForm), AddressLineKey(idx)) ==
      Some(if idx < AddressLineCount(cfg.lineCount) then Str(AddressLines(d.address)[idx]) else Blank)
  {
    AddressCells(PartsOf(cfg, a, d, inGroup, inForm), idx);
  }

  /** The country of the primary address is `Australia`. */
  lemma BaseRowCountry(cfg: AccountConfig, a: Info, d: AccountDraw, inGroup: bool, inForm: bool)
    requires DrawOk(cfg, d)
    ensures Get(BaseRow(cfg, a, d, inGroup, inForm), "address_1_country") == Some(Str("Australia"))
  {
    AddressCells(PartsOf(cfg, a, d, inGroup, inForm), 0);
  }

  /** The primary address is the default billing and the default shipping address. */
  lemma BaseRowAddressDefaults(cfg: AccountConfig, a: Info, d: AccountDraw, inGroup: bool, inForm: bool)
    requires DrawOk(cfg, d)
    ensures Get(BaseRow(cfg, a, d, inGroup, inForm), "address_1_is_default_billing") == Some(Str("YES"))
    ensures Get(BaseRow(cfg, a, d, inGroup, inForm), "address_1_is_default_shipping") == Some(Str("YES"))
  {
    AddressCells(PartsOf(cfg, a, d, inGroup, inForm), 0);
  }

  // ---------------------------------------------------------------------------
  // The loop body

  /** `for idx in range(1, contact_count + 1): row.update(generate_contact(idx, domain))`. */
  method AddContacts(row: Row, n: nat, domain: string, ds: seq<ContactDraw>) returns (r: Row)
    requires n <= |ds| && forall j :: 0 <= j < |ds| ==> ContactDrawOk(ds[j])
    ensures r == Update(row, ContactsRow(n, domain, ds))
  {
    r := row;
    for idx := 1 to n + 1
      invariant r == Update(row, ContactsRow(idx - 1, domain, ds))
    {
      var contact := Contact(idx, domain, ds[idx - 1]);
      UpdateConcat(row, ContactsRow(idx - 1, domain, ds), contact);
      r := Update(r, contact);
    }
  }

  /** The seven assignments of direct debit `idx`, under the prefix `payment_method_dd_{idx}_`. */
  method SetDirectDebit(row: Row, idx: nat, id: string, name: string, processor: string, d: DebitDraw)
    returns (r: Row)
    requires DebitDrawOk(d)
    ensures r == Update(row, DirectDebit(idx, id, name, processor, d))
  {
    var prefix := BlockPrefix(DebitBlock, idx);
    var isDefault := if idx == 1 then "YES" else "NO";
    r := Set(row, prefix + "processor_type", Str("DIRECT_DEBIT"));
    r := Set(r, prefix + "is_default", Str(isDefault));
    r := Set(r, prefix + "bsb_number", Str(Dec(d.bsb)));
    r := Set(r, prefix + "account_name", Str(name));
    r := Set(r, prefix + "account_number", Str(Dec(d.number)));
    r := Set(r, prefix + "processor", Str(processor));
    r := Set(r, prefix + "reference", Str(Reference(id, "DD", idx)));
    DebitAssignments(row, idx, id, name, processor, d);
  }

  /** `for idx in range(1, dd_count + 1)`: the direct debits one after another. */
  method AddDirectDebits(row: Row, n: nat, id: string, name: string, processor: string, ds: seq<DebitDraw>)
    returns (r: Row)
    requires n <= |ds| && forall j :: 0 <= j < |ds| ==> DebitDrawOk(ds[j])
    ensures r == Update(row, DebitsRow(n, id, name, processor, ds))
  {
    r := row;
    for idx := 1 to n + 1
      invariant r == Update(row, DebitsRow(idx - 1, id, name, processor, ds))
    {
      UpdateConcat(row, DebitsRow(idx - 1, id, name, processor, ds), DirectDebit(idx, id, name, processor, ds[idx - 1]));
      r := SetDirectDebit(r, idx, id, name, processor, ds[idx - 1]);
    }
  }

  /**
    The four assignments of other method `idx`, under the prefix
    `payment_method_ot_{idx}_`, with the processor chosen from the list.
   */
  method SetOtherMethod(row: Row, idx: nat, id: string, processors: seq<string>, processor: string)
    returns (r: Row)
    requires idx >= 1
    ensures r == Update(row, OtherMethod(idx, id, processors, processor))
  {
    var prefix := BlockPrefix(OtherBlock, idx);
    var isDefault := if idx == 1 then "YES" else "NO";
    r := Set(row, prefix + "processor_type", Str("OTHER"));
    r := Set(r, prefix + "is_default", Str(isDefault));
    var proc;
    if processors != [] {
      if idx <= |processors| {
        proc := processors[idx - 1];
      } else {
        proc := processors[|processors| - 1];
      }
    } else {
      proc := processor;
    }
    r := Set(r, prefix + "processor", Str(proc));
    r := Set(r, prefix + "reference", Str(Reference(id, "OT", idx)));
    OtherAssignments(row, idx, id, processors, processor);
  }

  /** `for idx in range(1, ot_count + 1)`: the other payment methods one after another. */
  method AddOtherMethods(row: Row, n: nat, id: string, processors: seq<string>, processor: string)
    returns (r: Row)
    ensures r == Update(row, OthersRow(n, id, processors, processor))
  {
    r := row;
    for idx := 1 to n + 1
      invariant r == Update(row, OthersRow(idx - 1, id, processors, processor))
    {
      UpdateConcat(row, OthersRow(idx - 1, id, processors, processor), OtherMethod(idx, id, processors, processor));
      r := SetOtherMethod(r, idx, id, processors, processor);
    }
  }

  /** The literal `update`d with the primary address and then with the contacts. */
  method AccountHead(cfg: AccountConfig, a: Info, d: AccountDraw) returns (row: Row)
    requires DrawOk(cfg, d)
    ensures row == Update(Update(InfoRow(a), AddressRow(AddressLineCount(cfg.lineCount), "Australia", d.address)),
                          ContactsRow(ContactCount(cfg), Domain(a.name, d), d.contacts))
  {
    row := InfoRow(a);
    var address := AccountAddressFields(Some(AddressLineCount(cfg.lineCount)), "Australia", d.address);
    row := Update(row, address);
    var domain := NameToDomain(a.name, None, d.info.emailExtension);
    row := AddContacts(row, ContactCount(cfg), domain, d.contacts);
  }

  /** The accounting code, assigned only when configured and drawn for this account. */
  method AssignAccountingCode(cfg: AccountConfig, d: AccountDraw, row: Row) returns (r: Row)
    requires DrawOk(cfg, d)
    ensures r == Update(row, Cell(AccountingCodeKey, AccountingCode(cfg, d)))
  {
    r := row;
    if cfg.useAccountingCode && d.accountingCode.Some? {
      AccountingCodeCount();
      r := Set(r, AccountingCodeKey, Str(AccountingCodes[d.accountingCode.value]));
    }
    CellUpdate(row, AccountingCodeKey, AccountingCode(cfg, d));
  }

  /** The group, assigned only to a sampled account when group names exist. */
  method AssignGroup(cfg: AccountConfig, d: AccountDraw, inGroup: bool, row: Row) returns (r: Row)
    requires DrawOk(cfg, d)
    ensures r == Update(row, Cell(GroupKey, GroupOf(cfg, d, inGroup)))
  {
    r := row;
    if cfg.groupNames != [] && inGroup {
      r := Set(r, GroupKey, Str(cfg.groupNames[d.group]));
    }
    CellUpdate(row, GroupKey, GroupOf(cfg, d, inGroup));
  }

  /** The custom form, assigned only to a sampled account when form names exist. */
  method AssignForm(cfg: AccountConfig, d: AccountDraw, inForm: bool, row: Row) returns (r: Row)
    requires DrawOk(cfg, d)
    ensures r == Update(row, Cell(CustomFormKey, FormOf(cfg, d, inForm)))
  {
    r := row;
    if cfg.formNames != [] && inForm {
      r := Set(r, CustomFormKey, Str(cfg.formNames[d.form]));
    }
    CellUpdate(row, CustomFormKey, FormOf(cfg, d, inForm));
  }

  /** The user team, assigned to every account when team names exist. */
  method AssignTeam(cfg: AccountConfig, d: AccountDraw, row: Row) returns (r: Row)
    requires DrawOk(cfg, d)
    ensures r == Update(row, Cell(UserTeamKey, TeamOf(cfg, d)))
  {
    r := row;
    if cfg.teamNames != [] {
      r := Set(r, UserTeamKey, Str(cfg.teamNames[d.team]));
    }
    CellUpdate(row, UserTeamKey, TeamOf(cfg, d));
  }

  /**
    The loop body up to the custom attributes: the literal, `update` with
    the primary address and the contacts, and the assignments of the
    accounting code, payment methods, group, custom form and user team.
   */
  method AccountBase(cfg: AccountConfig, a: Info, d: AccountDraw, inGroup: bool, inForm: bool) returns (row: Row)
    requires DrawOk(cfg, d)
    ensures row == BaseRow(cfg, a, d, inGroup, inForm)
  {
    row := AccountHead(cfg, a, d);
    row := AssignAccountingCode(cfg, d, row);
    row := AddDirectDebits(row, MethodCount(cfg.ddCount), a.id, a.name, cfg.ddProcessor, d.debits);
    row := AddOtherMethods(row, MethodCount(cfg.otCount), a.id, cfg.otProcessors, cfg.otProcessor);
    row := AssignGroup(cfg, d, inGroup, row);
    row := AssignForm(cfg, d, inForm, row);
    row := AssignTeam(cfg, d, row);
    BaseRowByUpdates(cfg, a, d, inGroup, inForm);
  }

  /** The whole loop body for one account: the row above, then the custom attributes. */
  method AccountRow(cfg: AccountConfig, today: Date, numRows: int, a: Info, d: AccountDraw, inGroup: bool, inForm: bool)
    returns (row: Row)
    requires ValidDate(today) && DrawOk(cfg, d)
    ensures RowOk(cfg.attrs, today, numRows, BaseRow(cfg, a, d, inGroup, inForm), row)
  {
    var base := AccountBase(cfg, a, d, inGroup, inForm);
    row := ApplyRandomAttrs(base, cfg.attrs, AccountRule(today, numRows));
  }

}
