/**
  The twenty-six `account_` cells every account row starts with: the fixed
  choice lists, the communication preference, the billing period, the social
  profile links and the dictionary literal they are written into.
 */
module AccountInfo {
  import opened Rows
  import opened Text
  import opened CustomAttributes
  import opened AccountFields

  // ---------------------------------------------------------------------------
  // The choice lists

  const AccountTypes: seq<string> := ["CUSTOMER", "SUPPLIER", "CUSTOMER_AND_SUPPLIER"]
  const Currencies: seq<string> := ["AUD", "USD"]
  const TimeZones: seq<string> := [
    "Australia/Melbourne", "Africa/Abidjan", "America/Costa Rica", "America/Dawson",
    "Europe/Warsaw", "Europe/Rome", "Asia/Kuwait", "Asia/Kuala Lumpur"]
  /** The invoice mode and the payment mode are each drawn from these two. */
  const Modes: seq<string> := ["AUTOMATIC", "MANUAL"]
  const Channels: seq<string> := ["EMAIL", "POSTAL_EMAIL", "TEXT_MESSAGE", "VOICE_MAIL"]
  const YesNo: seq<string> := ["YES", "NO"]
  const BillingStarts: seq<string> := [
    "DAY_OF_MONTH", "RATING_START_DATE", "SUBSCRIPTION_START_DATE",
    "SUBSCRIPTION_ACTIVATION_DATE", "SUBSCRIPTION_ACCEPTANCE_DATE"]
  const PaymentTerms: seq<string> := [
    "Due on Receipt", "Net 7", "Net 14", "Net 15", "Net 21", "Net 30", "Net 60", "Net 90"]
  const InvoiceTerms: seq<string> := [
    "Billing Start Date", "Net 7", "Net 14", "Net 15", "Net 21", "Net 30", "Net 60", "Net 90"]

  /** `generate_description`: one of fifteen fixed descriptions. */
  const Descriptions: seq<string> := [
    "Configurable empowering challenge", "Right-sized high-level groupware",
    "Innovative scalable solution", "Enterprise-grade platform",
    "Customer-focused service excellence", "Advanced technology integration",
    "Streamlined business operations", "Comprehensive management system",
    "Strategic business solutions", "Next-generation digital platform",
    "Robust infrastructure services", "Integrated business intelligence",
    "Flexible enterprise architecture", "Optimized workflow automation",
    "Cutting-edge innovation hub"]

  // ---------------------------------------------------------------------------
  // Billing period

  /** `f"{m} Month" for m in range(1, 13)`. */
  function Months(): (r: seq<string>)
    ensures |r| == 12
    ensures forall m :: 0 <= m < 12 ==> r[m] == Dec(m + 1) + " Month"
  {
    seq(12, m requires 0 <= m < 12 => Dec(m + 1) + " Month")
  }

  /** `f"{y} Year" for y in range(1, 11)`. */
  function Years(): (r: seq<string>)
    ensures |r| == 10
    ensures forall y :: 0 <= y < 10 ==> r[y] == Dec(y + 1) + " Year"
  {
    seq(10, y requires 0 <= y < 10 => Dec(y + 1) + " Year")
  }

  /** The billing periods: a day, a week, 1 to 12 months and 1 to 10 years. */
  function BillingPeriods(): (r: seq<string>)
    ensures |r| == 24
  {
    ["1 Day", "1 Week"] + Months() + Years()
  }

  lemma SuffixCancel(a: string, b: string, s: string)
    requires a + s == b + s
    ensures a == b
  {
    assert a == (a + s)[..|a|];
    assert |a| == |b|;
    assert b == (b + s)[..|b|];
  }

  /** The last character of a period names its unit. */
  lemma PeriodUnit(i: nat)
    requires i < 24
    ensures var p := BillingPeriods()[i];
      |p| > 0 &&
      p[|p| - 1] == (if i == 0 then 'y' else if i == 1 then 'k' else if i < 14 then 'h' else 'r')
  {
    var r := BillingPeriods();
    if 2 <= i < 14 {
      assert r[i] == Months()[i - 2];
    } else if i >= 14 {
      assert r[i] == Years()[i - 14];
    }
  }

  /** The twenty-four billing periods are all different, so the draw is uniform over 24 periods. */
  lemma BillingPeriodsDistinct(i: nat, j: nat)
    requires i < j < 24
    ensures BillingPeriods()[i] != BillingPeriods()[j]
  {
    var r := BillingPeriods();
    PeriodUnit(i);
    PeriodUnit(j);
    if 2 <= i && j < 14 {
      assert r[i] == Dec(i - 1) + " Month" && r[j] == Dec(j - 1) + " Month";
      if r[i] == r[j] {
        SuffixCancel(Dec(i - 1), Dec(j - 1), " Month");
        DecInjective(i - 1, j - 1);
      }
    } else if 14 <= i {
      assert r[i] == Dec(i - 13) + " Year" && r[j] == Dec(j - 13) + " Year";
      if r[i] == r[j] {
        SuffixCancel(Dec(i - 13), Dec(j - 13), " Year");
        DecInjective(i - 13, j - 13);
      }
    }
  }

  // ---------------------------------------------------------------------------
  // Communication preference

  /** `",".join(random.sample(comm_channels, k=comm_count))`. */
  function CommunicationPreference(picks: seq<nat>): (s: string)
    requires forall i :: 0 <= i < |picks| ==> picks[i] < |Channels|
  {
    Join(Picked(Channels, picks), ',')
  }

  /** The sampled channels: one to four of them, none twice. */
  predicate ChannelPicksOk(picks: seq<nat>) {
    1 <= |picks| <= |Channels| && DistinctNats(picks) &&
    forall i :: 0 <= i < |picks| ==> picks[i] < |Channels|
  }

  /**
    Splitting the preference on commas gives back the sampled channels: one
    to four known channels, none repeated.
   */
  lemma CommunicationPreferenceSplits(picks: seq<nat>)
    requires ChannelPicksOk(picks)
    ensures var parts := Split(CommunicationPreference(picks), ',');
      parts == Picked(Channels, picks) &&
      1 <= |parts| <= 4 &&
      (forall i :: 0 <= i < |parts| ==> parts[i] in Channels) &&
      (forall i, j :: 0 <= i < j < |parts| ==> parts[i] != parts[j])
  {
    var xs := Picked(Channels, picks);
    ChannelsPlain();
    forall i | 0 <= i < |xs| ensures ',' !in xs[i] {
      assert xs[i] == Channels[picks[i]];
    }
    SplitJoin(xs, ',');
    forall i, j | 0 <= i < j < |xs| ensures xs[i] != xs[j] {
      assert picks[i] != picks[j];
    }
  }

  /** No channel name holds a comma, and the four names differ. */
  lemma ChannelsPlain()
    ensures forall c :: 0 <= c < |Channels| ==> ',' !in Channels[c]
    ensures forall b, c :: 0 <= b < c < |Channels| ==> Channels[b] != Channels[c]
  {
  }

  // ---------------------------------------------------------------------------
  // Social links

  /** `account_name.lower().replace(' ', '').replace('&', 'and').replace(',', '')`. */
  function ProfileSlug(name: string): (slug: string)
    ensures ' ' !in slug && '&' !in slug && ',' !in slug
  {
    var s1 := Replace(Lower(name), " ", "");
    var s2 := Replace(s1, "&", "and");
    ReplaceRemoves(Lower(name), ' ', "");
    ReplaceRemoves(s1, '&', "and");
    ReplaceKeepsAbsent(s1, "&", "and", ' ');
    var s3 := Replace(s2, ",", "");
    ReplaceRemoves(s2, ',', "");
    ReplaceKeepsAbsent(s2, ",", "", ' ');
    ReplaceKeepsAbsent(s2, ",", "", '&');
    s3
  }

  const LinkedInBase: string := "https://www.linkedin.com/in/"
  const TwitterBase: string := "https://x.com/"
  const FacebookBase: string := "https://www.facebook.com/"

  /** The three profile links share one slug, so each gives back the slug after its base. */
  lemma ProfileLinks(name: string)
    ensures var slug := ProfileSlug(name);
      (LinkedInBase + slug)[|LinkedInBase|..] == slug &&
      (TwitterBase + slug)[|TwitterBase|..] == slug &&
      (FacebookBase + slug)[|FacebookBase|..] == slug
  {
  }

  // ---------------------------------------------------------------------------
  // The draws and the cells

  /** Every random choice behind the information cells of one account, as an index into its list. */
  datatype InfoDraw = InfoDraw(
    emailExtension: nat, kind: nat, currency: nat, zone: nat, invoiceMode: nat,
    channels: seq<nat>, consolidate: nat, paymentMode: nat, start: nat, day: DayChoice,
    paymentTerm: nat, invoiceTerm: nat, period: nat, taxCode: nat, description: nat)

  /**
    The draws index the lists above, whose sizes `ChoiceCounts` gives: three
    email extensions and account types, two currencies, modes and yes/no
    answers, eight time zones, payment terms and invoice terms, five billing
    starts, twenty-four billing periods and fifteen descriptions.
   */
  predicate InfoDrawOk(d: InfoDraw, taxCodes: seq<string>) {
    d.emailExtension < 3 && d.kind < 3 && d.currency < 2 &&
    d.zone < 8 && d.invoiceMode < 2 && ChannelPicksOk(d.channels) &&
    d.consolidate < 2 && d.paymentMode < 2 && d.start < 5 &&
    DayChoiceOk(d.day) && d.paymentTerm < 8 && d.invoiceTerm < 8 &&
    d.period < 24 && (taxCodes != [] ==> d.taxCode < |taxCodes|) && d.description < 15
  }

  lemma ChoiceCounts()
    ensures |DefaultExtensions| == 3 && |AccountTypes| == 3 && |Currencies| == 2
    ensures |TimeZones| == 8 && |Modes| == 2 && |YesNo| == 2 && |BillingStarts| == 5
    ensures |PaymentTerms| == 8 && |InvoiceTerms| == 8 && |Descriptions| == 15
  {
  }

  /** The text of each information cell that is not a constant. */
  datatype Info = Info(
    id: string, name: string, kind: string, description: string, email: string,
    currency: string, zone: string, website: string, taxCode: string, invoiceMode: string,
    channels: string, linkedin: string, twitter: string, facebook: string, consolidate: string,
    paymentMode: string, start: string, dayOfMonth: string, paymentTerm: string,
    invoiceTerm: string, period: string)

  /** The cells of account `id` named `name`, as the loop body computes them from the draws. */
  function InfoOf(id: string, name: string, taxCodes: seq<string>, d: InfoDraw): (a: Info)
    requires InfoDrawOk(d, taxCodes)
    ensures a.id == id && a.name == name
    ensures taxCodes == [] ==> a.taxCode == ""
    ensures taxCodes != [] ==> a.taxCode in taxCodes
  {
    ChoiceCounts();
    var domain := NameToDomain(name, None, d.emailExtension);
    var website := NameToDomain(name, Some([".com"]), 0);
    var slug := ProfileSlug(name);
    var start := BillingStarts[d.start];
    Info(id, name, AccountTypes[d.kind], Descriptions[d.description], "info@" + domain,
         Currencies[d.currency], TimeZones[d.zone], "https://" + website,
         if taxCodes != [] then taxCodes[d.taxCode] else "", Modes[d.invoiceMode],
         CommunicationPreference(d.channels), LinkedInBase + slug, TwitterBase + slug, FacebookBase + slug,
         YesNo[d.consolidate], Modes[d.paymentMode], start, BillingDayOfMonth(start, d.day),
         PaymentTerms[d.paymentTerm], InvoiceTerms[d.invoiceTerm], BillingPeriods()[d.period])
  }

  /** Every chosen cell is an entry of its list. */
  lemma InfoChoices(id: string, name: string, taxCodes: seq<string>, d: InfoDraw)
    requires InfoDrawOk(d, taxCodes)
    ensures var a := InfoOf(id, name, taxCodes, d);
      a.kind in AccountTypes && a.currency in Currencies && a.zone in TimeZones &&
      a.invoiceMode in Modes && a.paymentMode in Modes && a.consolidate in YesNo &&
      a.start in BillingStarts && a.paymentTerm in PaymentTerms && a.invoiceTerm in InvoiceTerms &&
      a.period in BillingPeriods() && a.description in Descriptions
  {
    ChoiceCounts();
  }

  /**
    The email address and website of an account come from its name: the
    email is `info@` and a domain ending in an Australian extension, the
    website `https://` and the same stem ending in `.com`; the social links
    end in the slug, which holds no space, `&` or comma.
   */
  lemma InfoLinks(id: string, name: string, taxCodes: seq<string>, d: InfoDraw)
    requires InfoDrawOk(d, taxCodes)
    ensures var a := InfoOf(id, name, taxCodes, d);
      var stem := DomainStem(name);
      HasPrefix(a.email, "info@" + stem) && a.email[5 + |stem|..] in DefaultExtensions &&
      HasPrefix(a.website, "https://" + stem) && a.website[8 + |stem|..] == ".com" &&
      a.linkedin[|LinkedInBase|..] == ProfileSlug(name) && HasPrefix(a.linkedin, LinkedInBase) &&
      a.twitter[|TwitterBase|..] == ProfileSlug(name) && HasPrefix(a.twitter, TwitterBase) &&
      a.facebook[|FacebookBase|..] == ProfileSlug(name) && HasPrefix(a.facebook, FacebookBase)
  {
    var a := InfoOf(id, name, taxCodes, d);
    var stem := DomainStem(name);
    var domain := NameToDomain(name, None, d.emailExtension);
    var website := NameToDomain(name, Some([".com"]), 0);
    DomainsShareStem(name, d.emailExtension);
    assert a.email == "info@" + domain;
    assert a.email[..5 + |stem|] == "info@" + domain[..|stem|];
    assert a.email[5 + |stem|..] == domain[|stem|..];
    assert a.website[..8 + |stem|] == "https://" + website[..|stem|];
    assert a.website[8 + |stem|..] == website[|stem|..];
    PrefixOfConcat(LinkedInBase, ProfileSlug(name));
    PrefixOfConcat(TwitterBase, ProfileSlug(name));
    PrefixOfConcat(FacebookBase, ProfileSlug(name));
  }

  /** The billing day cell is filled exactly when the billing start is `DAY_OF_MONTH`. */
  lemma InfoDayOfMonth(id: string, name: string, taxCodes: seq<string>, d: InfoDraw)
    requires InfoDrawOk(d, taxCodes)
    ensures var a := InfoOf(id, name, taxCodes, d);
      (a.dayOfMonth == "" <==> a.start != "DAY_OF_MONTH") &&
      a.dayOfMonth == BillingDayOfMonth(a.start, d.day)
  {
    var a := InfoOf(id, name, taxCodes, d);
    if a.start == "DAY_OF_MONTH" && d.day.Day? {
      assert HasPrefix(a.dayOfMonth, Dec(d.day.d));
    }
  }

  /** The communication preference names one to four different channels. */
  lemma InfoChannels(id: string, name: string, taxCodes: seq<string>, d: InfoDraw)
    requires InfoDrawOk(d, taxCodes)
    ensures var parts := Split(InfoOf(id, name, taxCodes, d).channels, ',');
      1 <= |parts| <= 4 && (forall i :: 0 <= i < |parts| ==> parts[i] in Channels) &&
      (forall i, j :: 0 <= i < j < |parts| ==> parts[i] != parts[j])
  {
    CommunicationPreferenceSplits(d.channels);
  }

  // ---------------------------------------------------------------------------
  // The dictionary literal

  const InfoPrefix: string := "account_"

  /** The keys of the row literal, in its order, in four runs. */
  const InfoKeysA: seq<string> := [
    "account_status", "account_id", "account_name", "account_display_name", "account_type",
    "account_description", "account_origin", "account_email_address"]
  const InfoKeysB: seq<string> := [
    "account_currency", "account_time_zone", "account_website", "account_tax", "account_tax_code",
    "account_tax_rate", "account_invoice_mode", "account_communication_preference"]
  const InfoKeysC: seq<string> := [
    "account_linkedin", "account_twitter", "account_facebook", "account_consolidate_invoice",
    "account_payment_mode"]
  const InfoKeysD: seq<string> := [
    "account_billing_start_date", "account_billing_start_day_of_month", "account_payment_term",
    "account_invoice_term", "account_billing_period"]

  /** The twenty-six `account_` keys of the row literal. */
  const InfoKeys: seq<string> := InfoKeysA + InfoKeysB + InfoKeysC + InfoKeysD

  lemma InfoRunsDistinct()
    ensures Distinct(InfoKeysA) && Distinct(InfoKeysB) && Distinct(InfoKeysC) && Distinct(InfoKeysD)
  {
  }

  lemma InfoRunsDisjointA()
    ensures forall k :: k in InfoKeysB ==> k !in InfoKeysA
  {
  }

  lemma InfoRunsDisjointB()
    ensures forall k :: k in InfoKeysC ==> k !in InfoKeysA + InfoKeysB
  {
  }

  lemma InfoRunsDisjointC()
    ensures forall k :: k in InfoKeysD ==> k !in InfoKeysA + InfoKeysB + InfoKeysC
  {
  }

  lemma InfoRunsPrefixedAB()
    ensures forall k :: k in InfoKeysA ==> HasPrefix(k, InfoPrefix)
    ensures forall k :: k in InfoKeysB ==> HasPrefix(k, InfoPrefix)
  {
  }

  lemma InfoRunsPrefixedCD()
    ensures forall k :: k in InfoKeysC ==> HasPrefix(k, InfoPrefix)
    ensures forall k :: k in InfoKeysD ==> HasPrefix(k, InfoPrefix)
  {
  }

  lemma InfoKeysDistinct()
    ensures |InfoKeys| == 26 && Distinct(InfoKeys)
    ensures forall k :: k in InfoKeys ==> HasPrefix(k, InfoPrefix)
  {
    InfoRunsDistinct();
    InfoRunsDisjointA();
    InfoRunsDisjointB();
    InfoRunsDisjointC();
    InfoRunsPrefixedAB();
    InfoRunsPrefixedCD();
    DistinctConcat(InfoKeysA, InfoKeysB);
    DistinctConcat(InfoKeysA + InfoKeysB, InfoKeysC);
    DistinctConcat(InfoKeysA + InfoKeysB + InfoKeysC, InfoKeysD);
  }

  /** The keys the loop body assigns after the literal, each in the `account_` family. */
  const AccountingCodeKey: string := "account_accounting_code"
  const GroupKey: string := "account_group"
  const CustomFormKey: string := "account_custom_form"
  const UserTeamKey: string := "account_user_team"

  /** None of the later `account_` keys is a key of the literal. */
  lemma LaterKeysFresh()
    ensures AccountingCodeKey !in InfoKeys && GroupKey !in InfoKeys
    ensures CustomFormKey !in InfoKeys && UserTeamKey !in InfoKeys
  {
    LaterKeysFreshAB();
    LaterKeysFreshCD();
  }

  lemma LaterKeysFreshAB()
    ensures AccountingCodeKey !in InfoKeysA + InfoKeysB && GroupKey !in InfoKeysA + InfoKeysB
    ensures CustomFormKey !in InfoKeysA + InfoKeysB && UserTeamKey !in InfoKeysA + InfoKeysB
  {
  }

  lemma LaterKeysFreshCD()
    ensures AccountingCodeKey !in InfoKeysC + InfoKeysD && GroupKey !in InfoKeysC + InfoKeysD
    ensures CustomFormKey !in InfoKeysC + InfoKeysD && UserTeamKey !in InfoKeysC + InfoKeysD
  {
  }

  /** The cells of the row literal, run by run. */
  function InfoValuesA(a: Info): (vs: seq<Value>)
    ensures |vs| == 8
  {
    [Str("ACTIVE"), Str(a.id), Str(a.name), Str(a.name), Str(a.kind), Str(a.description), Blank, Str(a.email)]
  }

  function InfoValuesB(a: Info): (vs: seq<Value>)
    ensures |vs| == 8
  {
    [Str(a.currency), Str(a.zone), Str(a.website), Blank, Str(a.taxCode), Blank, Str(a.invoiceMode), Str(a.channels)]
  }

  function InfoValuesC(a: Info): (vs: seq<Value>)
    ensures |vs| == 5
  {
    [Str(a.linkedin), Str(a.twitter), Str(a.facebook), Str(a.consolidate), Str(a.paymentMode)]
  }

  function InfoValuesD(a: Info): (vs: seq<Value>)
    ensures |vs| == 5
  {
    [Str(a.start), Str(a.dayOfMonth), Str(a.paymentTerm), Str(a.invoiceTerm), Str(a.period)]
  }

  function InfoValues(a: Info): (vs: seq<Value>) {
    InfoValuesA(a) + InfoValuesB(a) + InfoValuesC(a) + InfoValuesD(a)
  }

  /**
    The row literal of `generate_account_data`: the twenty-six keys in order,
    each holding its cell.
   */
  function InfoRow(a: Info): (r: Row)
    ensures Keys(r) == InfoKeys && DistinctKeys(r) && |r| == 26
    ensures Values(r) == InfoValues(a)
    ensures forall k :: k in Keys(r) ==> HasPrefix(k, InfoPrefix)
  {
    var ra, rb, rc, rd := Dict(InfoKeysA, InfoValuesA(a)), Dict(InfoKeysB, InfoValuesB(a)),
      Dict(InfoKeysC, InfoValuesC(a)), Dict(InfoKeysD, InfoValuesD(a));
    InfoKeysDistinct();
    InfoRunsDistinct();
    DictKeys(InfoKeysA, InfoValuesA(a));
    DictKeys(InfoKeysB, InfoValuesB(a));
    DictKeys(InfoKeysC, InfoValuesC(a));
    DictKeys(InfoKeysD, InfoValuesD(a));
    KeysAppend(ra, rb);
    KeysAppend(ra + rb, rc);
    KeysAppend(ra + rb + rc, rd);
    DistinctAppend(ra + rb + rc, rd);
    DictValues(InfoKeysA, InfoValuesA(a));
    DictValues(InfoKeysB, InfoValuesB(a));
    DictValues(InfoKeysC, InfoValuesC(a));
    DictValues(InfoKeysD, InfoValuesD(a));
    ValuesAppend(ra, rb);
    ValuesAppend(ra + rb, rc);
    ValuesAppend(ra + rb + rc, rd);
    ra + rb + rc + rd
  }

  /** The cells of the first run read back under their keys. */
  lemma InfoRowHead(a: Info)
    ensures forall j :: 0 <= j < 8 ==> Get(InfoRow(a), InfoKeysA[j]) == Some(InfoValuesA(a)[j])
  {
    var ra, rest := Dict(InfoKeysA, InfoValuesA(a)), InfoRow(a)[8..];
    assert InfoRow(a) == ra + rest;
    InfoRunsDistinct();
    forall j | 0 <= j < 8 ensures Get(InfoRow(a), InfoKeysA[j]) == Some(InfoValuesA(a)[j]) {
      DictGet(InfoKeysA, InfoValuesA(a), j);
      GetAppend(ra, rest, InfoKeysA[j]);
    }
  }

  /** `account_id` holds the id, and `account_name` and `account_display_name` the name. */
  lemma InfoRowIdentity(a: Info)
    ensures Get(InfoRow(a), "account_id") == Some(Str(a.id))
    ensures Get(InfoRow(a), "account_name") == Some(Str(a.name))
    ensures Get(InfoRow(a), "account_display_name") == Some(Str(a.name))
  {
    InfoRowHead(a);
    assert InfoKeysA[1] == "account_id" && InfoKeysA[2] == "account_name" && InfoKeysA[3] == "account_display_name";
  }
}
