/**
  The pieces of one account row of `generate_account_data` in
  `account_csv_generator.py`: the configuration as the generator clamps it,
  the random draws behind one account, each stage the loop body assigns (the
  literal, the primary address, the contacts, the accounting code, the
  payment methods, the group, custom form and user team), and why no two
  stages share a column.
 */
module AccountParts {
  import opened Rows
  import opened Text
  import opened CustomAttributes
  import opened Calendar
  import opened AccountFields
  import opened AccountInfo
  import opened AccountColumns

  // ---------------------------------------------------------------------------
  // Configuration

  /**
    The configuration dictionaries with their defaults applied.  `lineCount`
    is `None` when `line_count` is missing or is not an integer.
   */
  datatype AccountConfig = AccountConfig(
    contactCount: int, lineCount: Option<int>,
    ddCount: int, otCount: int, ddProcessor: string, otProcessor: string, otProcessors: seq<string>,
    taxCodes: seq<string>, useAccountingCode: bool,
    groupNames: seq<string>, assignCount: int,
    formNames: seq<string>, assignPercent: real,
    teamNames: seq<string>, attrs: seq<AttrSpec>)

  /** The list `random.choice` picks an accounting code from. */
  const AccountingCodes: seq<string> := [
    "Account Receivable", "Cash and Cash Equivalent", "Inventory", "Sales Revenue",
    "Event Charge", "Deduction", "Alteration", "Cancellation", "Chargeback"]

  lemma AccountingCodeCount()
    ensures |AccountingCodes| == 9
  {
  }


  /** `max(1, min(5, int(contact_count)))`: the number of contacts per account. */
  function ContactCount(cfg: AccountConfig): (n: nat)
    ensures 1 <= n <= 5
  {
    ClampOneToFive(cfg.contactCount)
  }

  // ---------------------------------------------------------------------------
  // The draws of one account

  /**
    Every random choice behind one account row: the information cells, the
    primary address, one draw per contact, the accounting code (`None` when
    `random.random() < 0.7` fails), one draw per direct debit, and the picks
    from the group, form and team names.
   */
  datatype AccountDraw = AccountDraw(
    info: InfoDraw, address: AddressDraw, contacts: seq<ContactDraw>,
    accountingCode: Option<nat>, debits: seq<DebitDraw>,
    group: nat, form: nat, team: nat)

  predicate DrawOk(cfg: AccountConfig, d: AccountDraw) {
    InfoDrawOk(d.info, cfg.taxCodes) && AddressDrawOk(d.address) &&
    |d.contacts| == ContactCount(cfg) &&
    (forall j :: 0 <= j < |d.contacts| ==> ContactDrawOk(d.contacts[j])) &&
    (d.accountingCode.Some? ==> d.accountingCode.value < 9) &&
    |d.debits| == MethodCount(cfg.ddCount) &&
    (forall j :: 0 <= j < |d.debits| ==> DebitDrawOk(d.debits[j])) &&
    (cfg.groupNames != [] ==> d.group < |cfg.groupNames|) &&
    (cfg.formNames != [] ==> d.form < |cfg.formNames|) &&
    (cfg.teamNames != [] ==> d.team < |cfg.teamNames|)
  }

  /** Every configuration admits a draw: the loop body can always run. */
  lemma SomeDrawOk(cfg: AccountConfig)
    ensures exists d :: DrawOk(cfg, d)
  {
    var info := InfoDraw(0, 0, 0, 0, 0, [0], 0, 0, 0, Day(1), 0, 0, 0, 0, 0);
    var extra := ExtraLines("", NoLine4, "");
    var phone := PhoneDraw(2, 1000, 1000);
    var contact := ContactDraw("Mr.", Designations[0], "", "", "", "", "", NoLine2, extra, 2000,
                               phone, "", phone, "", MobileDraw(0, 100, 100), "", "");
    var contacts := seq(ContactCount(cfg), _ => contact);
    var debits := seq(MethodCount(cfg.ddCount), _ => DebitDraw(100000, 100000000));
    var d := AccountDraw(info, AddressDraw("", NoLine2, extra, 2000, "", ""), contacts, None, debits, 0, 0, 0);
    assert DrawOk(cfg, d);
  }

  // ---------------------------------------------------------------------------
  // The parts of one row

  /** A cell assigned only under a condition: `row[k] = v` when `v` is present. */
  function Cell(k: string, v: Option<string>): (r: Row)
    ensures Keys(r) == if v.Some? then [k] else []
  {
    if v.Some? then [(k, Str(v.value))] else []
  }

  /** The email domain of the account, shared by its `info@` address and its contacts. */
  function Domain(name: string, d: AccountDraw): string
    requires d.info.emailExtension < |DefaultExtensions|
  {
    NameToDomain(name, None, d.info.emailExtension)
  }

  /** An optional choice: present exactly when `present`, and then one of `choices`. */
  predicate Drawn(v: Option<string>, present: bool, choices: seq<string>) {
    (v.Some? <==> present) && (v.Some? ==> v.value in choices)
  }

  function AccountingCode(cfg: AccountConfig, d: AccountDraw): (r: Option<string>)
    requires DrawOk(cfg, d)
    ensures Drawn(r, cfg.useAccountingCode && d.accountingCode.Some?, AccountingCodes)
  {
    AccountingCodeCount();
    if cfg.useAccountingCode && d.accountingCode.Some? then Some(AccountingCodes[d.accountingCode.value]) else None
  }

  function GroupOf(cfg: AccountConfig, d: AccountDraw, inGroup: bool): (r: Option<string>)
    requires DrawOk(cfg, d)
    ensures Drawn(r, cfg.groupNames != [] && inGroup, cfg.groupNames)
  {
    if cfg.groupNames != [] && inGroup then Some(cfg.groupNames[d.group]) else None
  }

  function FormOf(cfg: AccountConfig, d: AccountDraw, inForm: bool): (r: Option<string>)
    requires DrawOk(cfg, d)
    ensures Drawn(r, cfg.formNames != [] && inForm, cfg.formNames)
  {
    if cfg.formNames != [] && inForm then Some(cfg.formNames[d.form]) else None
  }

  function TeamOf(cfg: AccountConfig, d: AccountDraw): (r: Option<string>)
    requires DrawOk(cfg, d)
    ensures Drawn(r, cfg.teamNames != [], cfg.teamNames)
  {
    if cfg.teamNames != [] then Some(cfg.teamNames[d.team]) else None
  }

  /** Contacts 1 to `n`, one after another. */
  function ContactsRow(n: nat, domain: string, ds: seq<ContactDraw>): (r: Row)
    requires n <= |ds| && forall j :: 0 <= j < |ds| ==> ContactDrawOk(ds[j])
    ensures Keys(r) == BlocksKeys(ContactBlock, ContactFields, n) && DistinctKeys(r)
  {
    if n == 0 then []
    else
      var prev, c := ContactsRow(n - 1, domain, ds), Contact(n, domain, ds[n - 1]);
      ContactFieldsDistinct();
      BlocksKeysDistinct(ContactBlock, ContactFields, n);
      KeysAppend(prev, c);
      DistinctAppend(prev, c);
      prev + c
  }

  /** Direct debits 1 to `n`. */
  function DebitsRow(n: nat, id: string, name: string, processor: string, ds: seq<DebitDraw>): (r: Row)
    requires n <= |ds| && forall j :: 0 <= j < |ds| ==> DebitDrawOk(ds[j])
    ensures Keys(r) == BlocksKeys(DebitBlock, DebitFields, n) && DistinctKeys(r)
  {
    if n == 0 then []
    else
      var prev, m := DebitsRow(n - 1, id, name, processor, ds), DirectDebit(n, id, name, processor, ds[n - 1]);
      PaymentFieldsDistinct();
      BlocksKeysDistinct(DebitBlock, DebitFields, n);
      KeysAppend(prev, m);
      DistinctAppend(prev, m);
      prev + m
  }

  /** Other payment methods 1 to `n`. */
  function OthersRow(n: nat, id: string, processors: seq<string>, processor: string): (r: Row)
    ensures Keys(r) == BlocksKeys(OtherBlock, OtherFields, n) && DistinctKeys(r)
  {
    if n == 0 then []
    else
      var prev, m := OthersRow(n - 1, id, processors, processor), OtherMethod(n, id, processors, processor);
      PaymentFieldsDistinct();
      BlocksKeysDistinct(OtherBlock, OtherFields, n);
      KeysAppend(prev, m);
      DistinctAppend(prev, m);
      prev + m
  }

  // ---------------------------------------------------------------------------
  // Key families

  const PaymentPrefix: string := "payment_method_"
  const AddressPrefix: string := "address_"

  /** Every key starts with `p`. */
  predicate Family(ks: seq<string>, p: string) {
    forall k :: k in ks ==> HasPrefix(k, p)
  }

  /** No key starts with `p`. */
  predicate Avoids(ks: seq<string>, p: string) {
    forall k :: k in ks ==> !HasPrefix(k, p)
  }

  /** The four keys assigned after the literal, none of them present. */
  predicate LaterFree(ks: seq<string>) {
    AccountingCodeKey !in ks && GroupKey !in ks && CustomFormKey !in ks && UserTeamKey !in ks
  }

  /** A family whose prefix differs from `q` at position `i` avoids `q`. */
  lemma FamilyAvoids(ks: seq<string>, p: string, q: string, i: nat)
    requires Family(ks, p) && i < |p| && i < |q| && p[i] != q[i]
    ensures Avoids(ks, q)
  {
    forall k | k in ks ensures !HasPrefix(k, q) {
      PrefixClash(k, p, q, i);
    }
  }

  /** Keys avoiding `payment_method_` avoid both payment blocks. */
  lemma AvoidsPayments(ks: seq<string>)
    requires Avoids(ks, PaymentPrefix)
    ensures Avoids(ks, DebitBlock) && Avoids(ks, OtherBlock)
  {
    assert HasPrefix(DebitBlock, PaymentPrefix) && HasPrefix(OtherBlock, PaymentPrefix);
    forall k | k in ks ensures !HasPrefix(k, DebitBlock) && !HasPrefix(k, OtherBlock) {
      if HasPrefix(k, DebitBlock) {
        PrefixTransitive(k, DebitBlock, PaymentPrefix);
      }
      if HasPrefix(k, OtherBlock) {
        PrefixTransitive(k, OtherBlock, PaymentPrefix);
      }
    }
  }

  /** The columns of numbered blocks all start with the block name. */
  lemma BlocksFamily(p: string, fields: seq<string>, n: nat)
    ensures Family(BlocksKeys(p, fields, n), p)
  {
    forall k | k in BlocksKeys(p, fields, n) ensures HasPrefix(k, p) {
      BlocksKeysPrefix(p, fields, n, k);
    }
  }

  /** Keys that all start with `account_` miss every block and every address column. */
  lemma AccountFamilyAvoids(ks: seq<string>)
    requires Family(ks, InfoPrefix)
    ensures Avoids(ks, AddressPrefix) && Avoids(ks, ContactBlock) && Avoids(ks, PaymentPrefix)
  {
    FamilyAvoids(ks, InfoPrefix, AddressPrefix, 1);
    FamilyAvoids(ks, InfoPrefix, ContactBlock, 0);
    FamilyAvoids(ks, InfoPrefix, PaymentPrefix, 0);
  }

  lemma AddressKeysFamily()
    ensures Family(AddressKeys, AddressPrefix)
  {
  }

  /** The next block's columns are new to a row that holds the earlier blocks after keys outside the family. */
  lemma NextBlockFresh(pre: seq<string>, p: string, fields: seq<string>, n: nat)
    requires Avoids(pre, p)
    ensures forall k :: k in BlockKeys(p, n + 1, fields) ==> k !in pre + BlocksKeys(p, fields, n)
  {
    BlockFresh(p, fields, n);
    forall k | k in BlockKeys(p, n + 1, fields) ensures HasPrefix(k, p) {
      var j :| 0 <= j < |fields| && k == BlockKeys(p, n + 1, fields)[j];
      PrefixOfConcat(BlockPrefix(p, n + 1), fields[j]);
      PrefixTransitive(k, BlockPrefix(p, n + 1), p);
    }
  }

  /** The four later keys all start with `account_`. */
  lemma LaterKeysFamily()
    ensures Family([AccountingCodeKey, GroupKey, CustomFormKey, UserTeamKey], InfoPrefix)
  {
  }

  lemma AccountingKeyNotPayment()
    ensures !HasPrefix(AccountingCodeKey, PaymentPrefix)
  {
    PrefixClash(AccountingCodeKey, InfoPrefix, PaymentPrefix, 0);
  }

  /** Keys outside the `account_` family leave the four later keys free. */
  lemma AvoidsLater(ks: seq<string>)
    requires Avoids(ks, InfoPrefix)
    ensures LaterFree(ks)
  {
    LaterKeysFamily();
  }

  /** Appending a family of keys to a row whose keys avoid that family keeps the keys distinct. */
  lemma JoinFamily(pre: Row, part: Row, p: string)
    requires DistinctKeys(pre) && DistinctKeys(part)
    requires Avoids(Keys(pre), p) && Family(Keys(part), p)
    ensures DistinctKeys(pre + part)
  {
    DistinctConcat(Keys(pre), Keys(part));
    DistinctAppend(pre, part);
  }

  /** Appending an optional cell whose key is new keeps the keys distinct. */
  lemma JoinCell(pre: Row, k: string, v: Option<string>)
    requires DistinctKeys(pre) && k !in Keys(pre)
    ensures DistinctKeys(pre + Cell(k, v))
  {
    if v.Some? {
      SetAppend(pre, k, Str(v.value));
      SetDistinct(pre, k, Str(v.value));
    } else {
      assert pre + Cell(k, v) == pre;
    }
  }

  // ---------------------------------------------------------------------------
  // The row, stage by stage as the loop body assigns it

  /** The keys of the literal are outside the families assigned after it. */
  lemma InfoKeysAvoid()
    ensures Avoids(InfoKeys, AddressPrefix) && Avoids(InfoKeys, ContactBlock) && Avoids(InfoKeys, PaymentPrefix)
    ensures LaterFree(InfoKeys)
  {
    InfoKeysDistinct();
    AccountFamilyAvoids(InfoKeys);
    LaterKeysFresh();
  }

  /** The address keys are outside the families assigned after them. */
  lemma AddressKeysAvoid()
    ensures Family(AddressKeys, AddressPrefix)
    ensures Avoids(AddressKeys, ContactBlock) && Avoids(AddressKeys, PaymentPrefix) && LaterFree(AddressKeys)
  {
    AddressKeysFamily();
    var ks := AddressKeys;
    FamilyAvoids(ks, AddressPrefix, ContactBlock, 0);
    FamilyAvoids(ks, AddressPrefix, PaymentPrefix, 0);
    FamilyAvoids(ks, AddressPrefix, InfoPrefix, 1);
    AvoidsLater(ks);
  }

  /** Contact columns are outside the payment and `account_` families. */
  lemma ContactKeysAvoid(n: nat)
    ensures var ks := BlocksKeys(ContactBlock, ContactFields, n);
      Family(ks, ContactBlock) && Avoids(ks, PaymentPrefix) && LaterFree(ks)
  {
    var ks := BlocksKeys(ContactBlock, ContactFields, n);
    BlocksFamily(ContactBlock, ContactFields, n);
    FamilyAvoids(ks, ContactBlock, PaymentPrefix, 0);
    FamilyAvoids(ks, ContactBlock, InfoPrefix, 0);
    AvoidsLater(ks);
  }

  /** Direct debit columns are outside the other-method and `account_` families. */
  lemma DebitKeysAvoid(n: nat)
    ensures var ks := BlocksKeys(DebitBlock, DebitFields, n);
      Family(ks, DebitBlock) && Avoids(ks, OtherBlock) && LaterFree(ks)
  {
    var ks := BlocksKeys(DebitBlock, DebitFields, n);
    BlocksFamily(DebitBlock, DebitFields, n);
    FamilyAvoids(ks, DebitBlock, OtherBlock, 15);
    FamilyAvoids(ks, DebitBlock, InfoPrefix, 0);
    AvoidsLater(ks);
  }

  /** Other-method columns are outside the `account_` family. */
  lemma OtherKeysAvoid(n: nat)
    ensures var ks := BlocksKeys(OtherBlock, OtherFields, n);
      Family(ks, OtherBlock) && LaterFree(ks)
  {
    var ks := BlocksKeys(OtherBlock, OtherFields, n);
    BlocksFamily(OtherBlock, OtherFields, n);
    FamilyAvoids(ks, OtherBlock, InfoPrefix, 0);
    AvoidsLater(ks);
  }

  /** At most the one key `k`: the keys of an optional cell. */
  predicate OptKey(r: Row, k: string) {
    Keys(r) == [] || Keys(r) == [k]
  }

  /** The group, custom form and user team keys, none of them present. */
  predicate TailFree(ks: seq<string>) {
    GroupKey !in ks && CustomFormKey !in ks && UserTeamKey !in ks
  }

  /** The literal followed by the primary address. */
  lemma AddressStage(info: Row, address: Row)
    requires Keys(info) == InfoKeys && Keys(address) == AddressKeys
    ensures DistinctKeys(info + address) && LaterFree(Keys(info + address))
    ensures Avoids(Keys(info + address), ContactBlock) && Avoids(Keys(info + address), PaymentPrefix)
  {
    InfoKeysDistinct();
    AddressKeysDistinct();
    InfoKeysAvoid();
    AddressKeysAvoid();
    JoinFamily(info, address, AddressPrefix);
    KeysAppend(info, address);
  }

  /** Then the contacts. */
  lemma ContactsStage(pre: Row, contacts: Row, n: nat)
    requires DistinctKeys(pre) && LaterFree(Keys(pre))
    requires Avoids(Keys(pre), ContactBlock) && Avoids(Keys(pre), PaymentPrefix)
    requires Keys(contacts) == BlocksKeys(ContactBlock, ContactFields, n)
    ensures DistinctKeys(pre + contacts) && LaterFree(Keys(pre + contacts)) && Avoids(Keys(pre + contacts), PaymentPrefix)
  {
    ContactFieldsDistinct();
    BlocksKeysDistinct(ContactBlock, ContactFields, n);
    ContactKeysAvoid(n);
    JoinFamily(pre, contacts, ContactBlock);
    KeysAppend(pre, contacts);
  }

  /** Then the optional accounting code. */
  lemma AccountingStage(pre: Row, cell: Row)
    requires DistinctKeys(pre) && LaterFree(Keys(pre)) && Avoids(Keys(pre), PaymentPrefix)
    requires OptKey(cell, AccountingCodeKey)
    ensures DistinctKeys(pre + cell) && TailFree(Keys(pre + cell)) && Avoids(Keys(pre + cell), PaymentPrefix)
  {
    AccountingKeyNotPayment();
    KeysAppend(pre, cell);
    DistinctConcat(Keys(pre), Keys(cell));
    DistinctAppend(pre, cell);
  }

  /** Then the direct debits. */
  lemma DebitsStage(pre: Row, debits: Row, n: nat)
    requires DistinctKeys(pre) && TailFree(Keys(pre)) && Avoids(Keys(pre), PaymentPrefix)
    requires Keys(debits) == BlocksKeys(DebitBlock, DebitFields, n)
    ensures DistinctKeys(pre + debits) && TailFree(Keys(pre + debits)) && Avoids(Keys(pre + debits), OtherBlock)
  {
    PaymentFieldsDistinct();
    BlocksKeysDistinct(DebitBlock, DebitFields, n);
    AvoidsPayments(Keys(pre));
    DebitKeysAvoid(n);
    JoinFamily(pre, debits, DebitBlock);
    KeysAppend(pre, debits);
  }

  /** Then the other payment methods. */
  lemma OthersStage(pre: Row, others: Row, n: nat)
    requires DistinctKeys(pre) && TailFree(Keys(pre)) && Avoids(Keys(pre), OtherBlock)
    requires Keys(others) == BlocksKeys(OtherBlock, OtherFields, n)
    ensures DistinctKeys(pre + others) && TailFree(Keys(pre + others))
  {
    PaymentFieldsDistinct();
    BlocksKeysDistinct(OtherBlock, OtherFields, n);
    OtherKeysAvoid(n);
    JoinFamily(pre, others, OtherBlock);
    KeysAppend(pre, others);
  }

  /** An optional cell whose key is new keeps the keys distinct. */
  lemma AddOptional(pre: Row, cell: Row, k: string)
    requires DistinctKeys(pre) && k !in Keys(pre) && OptKey(cell, k)
    ensures DistinctKeys(pre + cell) && Keys(pre + cell) == Keys(pre) + Keys(cell)
  {
    KeysAppend(pre, cell);
    DistinctConcat(Keys(pre), Keys(cell));
    DistinctAppend(pre, cell);
  }

  lemma TailKeysDiffer()
    ensures GroupKey != CustomFormKey && GroupKey != UserTeamKey && CustomFormKey != UserTeamKey
    ensures AccountingCodeKey != GroupKey && AccountingCodeKey != CustomFormKey && AccountingCodeKey != UserTeamKey
  {
  }

  /** The cell assigned under `k` when `v` is present. */
  lemma CellKeys(k: string, v: Option<string>)
    ensures OptKey(Cell(k, v), k) && DistinctKeys(Cell(k, v))
  {
  }

  /** The rows the loop body adds, stage by stage, before the custom attributes. */
  datatype Parts = Parts(info: Row, address: Row, contacts: Row, accounting: Row, debits: Row,
                         others: Row, group: Row, form: Row, team: Row)

  function Assemble(p: Parts): Row {
    p.info + p.address + p.contacts + p.accounting + p.debits + p.others + p.group + p.form + p.team
  }

  /**
    The key shape of each stage: the literal's keys, the primary address
    keys, `nc` contact blocks, at most the accounting code key, `nd` direct
    debit blocks, `no` other payment blocks, and at most the group, custom
    form and user team keys.
   */
  predicate Shaped(p: Parts, nc: nat, nd: nat, no: nat) {
    Keys(p.info) == InfoKeys &&
    Keys(p.address) == AddressKeys &&
    Keys(p.contacts) == BlocksKeys(ContactBlock, ContactFields, nc) &&
    OptKey(p.accounting, AccountingCodeKey) &&
    Keys(p.debits) == BlocksKeys(DebitBlock, DebitFields, nd) &&
    Keys(p.others) == BlocksKeys(OtherBlock, OtherFields, no) &&
    OptKey(p.group, GroupKey) && OptKey(p.form, CustomFormKey) && OptKey(p.team, UserTeamKey)
  }

  /**
    The row as the loop body builds it: the literal `update`d with the
    primary address, then with the contacts, then the accounting code, the
    payment methods, the group, the custom form and the user team assigned
    in turn (an absent optional cell assigns nothing).
   */
  function Chain(p: Parts): Row {
    Update(Update(Update(Update(Update(Update(Update(Update(p.info, p.address), p.contacts), p.accounting),
      p.debits), p.others), p.group), p.form), p.team)
  }

  /**
    With these shapes every stage brings only keys the row does not have
    yet, so each `update` appends: the row is the stages one after another,
    and no column is assigned twice.
   */
  lemma {:induction false} AssembleByUpdates(p: Parts, nc: nat, nd: nat, no: nat)
    requires Shaped(p, nc, nd, no)
    ensures Chain(p) == Assemble(p) && DistinctKeys(Assemble(p))
  {
    var pre := p.info + p.address;
    AddressStage(p.info, p.address);
    UpdateFresh(p.info, p.address);
    ContactsStage(pre, p.contacts, nc);
    UpdateFresh(pre, p.contacts);
    pre := pre + p.contacts;
    AccountingStage(pre, p.accounting);
    UpdateFresh(pre, p.accounting);
    pre := pre + p.accounting;
    DebitsStage(pre, p.debits, nd);
    UpdateFresh(pre, p.debits);
    pre := pre + p.debits;
    OthersStage(pre, p.others, no);
    UpdateFresh(pre, p.others);
    pre := pre + p.others;
    TailKeysDiffer();
    AddOptional(pre, p.group, GroupKey);
    UpdateFresh(pre, p.group);
    pre := pre + p.group;
    AddOptional(pre, p.form, CustomFormKey);
    UpdateFresh(pre, p.form);
    pre := pre + p.form;
    AddOptional(pre, p.team, UserTeamKey);
    UpdateFresh(pre, p.team);
  }

  /** The columns of the whole row are the stages' columns in order. */
  lemma AssembleKeys(p: Parts)
    ensures Keys(Assemble(p)) == Keys(p.info) + Keys(p.address) + Keys(p.contacts) + Keys(p.accounting) +
      Keys(p.debits) + Keys(p.others) + Keys(p.group) + Keys(p.form) + Keys(p.team)
  {
    var pre := p.info;
    KeysAppend(pre, p.address);
    pre := pre + p.address;
    KeysAppend(pre, p.contacts);
    pre := pre + p.contacts;
    KeysAppend(pre, p.accounting);
    pre := pre + p.accounting;
    KeysAppend(pre, p.debits);
    pre := pre + p.debits;
    KeysAppend(pre, p.others);
    pre := pre + p.others;
    KeysAppend(pre, p.group);
    pre := pre + p.group;
    KeysAppend(pre, p.form);
    pre := pre + p.form;
    KeysAppend(pre, p.team);
  }

  /** A column of the literal reads in the whole row as in the literal. */
  lemma InfoGet(p: Parts, k: string)
    requires k in Keys(p.info)
    ensures Get(Assemble(p), k) == Get(p.info, k)
  {
    var pre := p.info;
    GetFirst(pre, p.address, k);
    pre := pre + p.address;
    GetFirst(pre, p.contacts, k);
    pre := pre + p.contacts;
    GetFirst(pre, p.accounting, k);
    pre := pre + p.accounting;
    GetFirst(pre, p.debits, k);
    pre := pre + p.debits;
    GetFirst(pre, p.others, k);
    pre := pre + p.others;
    GetFirst(pre, p.group, k);
    pre := pre + p.group;
    GetFirst(pre, p.form, k);
    pre := pre + p.form;
    GetFirst(pre, p.team, k);
  }

  /** A column of the primary address reads in the whole row as in the address. */
  lemma AddressGet(p: Parts, k: string)
    requires Keys(p.info) == InfoKeys && Keys(p.address) == AddressKeys && k in Keys(p.address)
    ensures Get(Assemble(p), k) == Get(p.address, k)
  {
    InfoKeysAvoid();
    AddressKeysFamily();
    GetUnder(p.info, p.address, k);
    KeysAppend(p.info, p.address);
    var pre := p.info + p.address;
    GetFirst(pre, p.contacts, k);
    pre := pre + p.contacts;
    GetFirst(pre, p.accounting, k);
    pre := pre + p.accounting;
    GetFirst(pre, p.debits, k);
    pre := pre + p.debits;
    GetFirst(pre, p.others, k);
    pre := pre + p.others;
    GetFirst(pre, p.group, k);
    pre := pre + p.group;
    GetFirst(pre, p.form, k);
    pre := pre + p.form;
    GetFirst(pre, p.team, k);
  }

  /** `account_id` and `account_name` read in the whole row as in the literal. */
  lemma IdentityGet(p: Parts)
    requires Keys(p.info) == InfoKeys
    ensures Get(Assemble(p), "account_id") == Get(p.info, "account_id")
    ensures Get(Assemble(p), "account_name") == Get(p.info, "account_name")
  {
    assert InfoKeys[1] == InfoKeysA[1] == "account_id";
    assert InfoKeys[2] == InfoKeysA[2] == "account_name";
    InfoGet(p, "account_id");
    InfoGet(p, "account_name");
  }

  /**
    The address lines, the country and the two default flags read in the
    whole row as in the primary address.
   */
  lemma AddressCells(p: Parts, idx: nat)
    requires Keys(p.info) == InfoKeys && Keys(p.address) == AddressKeys && idx < 5
    ensures Get(Assemble(p), AddressLineKey(idx)) == Get(p.address, AddressLineKey(idx))
    ensures Get(Assemble(p), "address_1_country") == Get(p.address, "address_1_country")
    ensures Get(Assemble(p), "address_1_is_default_billing") == Get(p.address, "address_1_is_default_billing")
    ensures Get(Assemble(p), "address_1_is_default_shipping") == Get(p.address, "address_1_is_default_shipping")
  {
    AddressLineKeyAt(idx);
    assert AddressKeys[8] == "address_1_country";
    assert AddressKeys[9] == "address_1_is_default_billing" && AddressKeys[10] == "address_1_is_default_shipping";
    AddressGet(p, AddressLineKey(idx));
    AddressGet(p, "address_1_country");
    AddressGet(p, "address_1_is_default_billing");
    AddressGet(p, "address_1_is_default_shipping");
  }

  /**
    The accounting code, group, custom form and user team columns read in
    the whole row as in their own stage: present exactly when that stage
    assigns them.
   */
  lemma LaterGet(p: Parts, nc: nat, nd: nat, no: nat)
    requires Shaped(p, nc, nd, no)
    ensures Get(Assemble(p), AccountingCodeKey) == Get(p.accounting, AccountingCodeKey)
    ensures Get(Assemble(p), GroupKey) == Get(p.group, GroupKey)
    ensures Get(Assemble(p), CustomFormKey) == Get(p.form, CustomFormKey)
    ensures Get(Assemble(p), UserTeamKey) == Get(p.team, UserTeamKey)
  {
    var a3 := p.info + p.address + p.contacts;
    AddressStage(p.info, p.address);
    ContactsStage(p.info + p.address, p.contacts, nc);
    var a4 := a3 + p.accounting;
    AccountingStage(a3, p.accounting);
    var a5 := a4 + p.debits;
    DebitsStage(a4, p.debits, nd);
    var a6 := a5 + p.others;
    OthersStage(a5, p.others, no);
    DebitKeysAvoid(nd);
    OtherKeysAvoid(no);
    TailKeysDiffer();
    var a7, a8 := a6 + p.group, a6 + p.group + p.form;
    GetUnder(a3, p.accounting, AccountingCodeKey);
    GetOver(a4, p.debits, AccountingCodeKey);
    GetOver(a5, p.others, AccountingCodeKey);
    GetOver(a6, p.group, AccountingCodeKey);
    GetOver(a7, p.form, AccountingCodeKey);
    GetOver(a8, p.team, AccountingCodeKey);
    GetUnder(a6, p.group, GroupKey);
    GetOver(a7, p.form, GroupKey);
    GetOver(a8, p.team, GroupKey);
    KeysAppend(a6, p.group);
    GetUnder(a7, p.form, CustomFormKey);
    GetOver(a8, p.team, CustomFormKey);
    KeysAppend(a7, p.form);
    GetUnder(a8, p.team, UserTeamKey);
  }

  /**
    What the custom attributes leave of the row `base`: distinct columns,
    the attribute columns not yet present appended in order, every other
    column untouched, and each attribute column holding a value its
    attribute can produce.
   */
  ghost predicate RowOk(attrs: seq<AttrSpec>, today: Date, numRows: int, base: Row, r: Row) {
    DistinctKeys(r) &&
    Keys(r) == AddKeys(Keys(base), Columns(attrs)) &&
    (forall k :: k !in Columns(attrs) ==> Get(r, k) == Get(base, k)) &&
    AttrsOk(r, attrs, AccountRule(today, numRows))
  }

  /** An optional assignment is an `update` with the optional cell. */
  lemma CellUpdate(row: Row, k: string, v: Option<string>)
    ensures Update(row, Cell(k, v)) == if v.Some? then Set(row, k, Str(v.value)) else row
  {
  }

  /** An optional cell: present exactly when `present`, and then one of `choices`. */
  predicate CellFrom(v: Option<Value>, present: bool, choices: seq<string>) {
    (v.Some? <==> present) && (v.Some? ==> v.value.Str? && v.value.s in choices)
  }

  /** The column of an optional cell reads as the choice it was given. */
  lemma CellDrawn(k: string, v: Option<string>, present: bool, choices: seq<string>)
    requires Drawn(v, present, choices)
    ensures CellFrom(Get(Cell(k, v), k), present, choices)
  {
  }

  /** The fields of a direct debit by name. */
  lemma DebitFieldNames()
    ensures DebitFields[0] == "processor_type" && DebitFields[1] == "is_default" && DebitFields[2] == "bsb_number"
    ensures DebitFields[3] == "account_name" && DebitFields[4] == "account_number"
    ensures DebitFields[5] == "processor" && DebitFields[6] == "reference"
  {
  }

  /** The fields of another payment method by name. */
  lemma OtherFieldNames()
    ensures OtherFields[0] == "processor_type" && OtherFields[1] == "is_default"
    ensures OtherFields[2] == "processor" && OtherFields[3] == "reference"
  {
  }

  /** `update` with direct debit `idx` is its seven assignments under `payment_method_dd_{idx}_`. */
  lemma DebitAssignments(row: Row, idx: nat, id: string, name: string, processor: string, d: DebitDraw)
    requires DebitDrawOk(d)
    ensures var prefix := BlockPrefix(DebitBlock, idx);
      Update(row, DirectDebit(idx, id, name, processor, d)) ==
        Set(Set(Set(Set(Set(Set(Set(row,
          prefix + "processor_type", Str("DIRECT_DEBIT")),
          prefix + "is_default", Str(IsDefault(idx))),
          prefix + "bsb_number", Str(Dec(d.bsb))),
          prefix + "account_name", Str(name)),
          prefix + "account_number", Str(Dec(d.number))),
          prefix + "processor", Str(processor)),
          prefix + "reference", Str(Reference(id, "DD", idx)))
  {
    var m := DirectDebit(idx, id, name, processor, d);
    DebitFieldNames();
    UpdateSeven(row, m);
    UpdateFour(row, m[..4]);
  }

  /** `update` with other method `idx` is its four assignments under `payment_method_ot_{idx}_`. */
  lemma OtherAssignments(row: Row, idx: nat, id: string, processors: seq<string>, processor: string)
    requires idx >= 1
    ensures var prefix := BlockPrefix(OtherBlock, idx);
      Update(row, OtherMethod(idx, id, processors, processor)) ==
        Set(Set(Set(Set(row,
          prefix + "processor_type", Str("OTHER")),
          prefix + "is_default", Str(IsDefault(idx))),
          prefix + "processor", Str(OtherProcessor(idx, processors, processor))),
          prefix + "reference", Str(Reference(id, "OT", idx)))
  {
    OtherFieldNames();
    UpdateFour(row, OtherMethod(idx, id, processors, processor));
  }
}
