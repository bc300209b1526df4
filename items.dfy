/**
  Rules shared by the generators that expand a parent record into line items
  (invoice, purchase order, purchase invoice, order): the include flags, the
  system identifier pool and the number of items per parent.
 */
module LineItems {
  import opened Text

  /** The `item_config` dictionary, with its defaults already applied. */
  datatype ItemConfig = ItemConfig(
    includeSystem: bool,
    includeLine: bool,
    systemIds: seq<string>,
    minItems: int,
    maxItems: int)

  /** The include flags after the fix-up: when both are off, line items are switched back on. */
  function EffectiveFlags(c: ItemConfig): (f: (bool, bool))
    ensures f.0 == c.includeSystem
    ensures f.0 || f.1
    ensures c.includeLine ==> f.1
    ensures c.includeSystem ==> f.1 == c.includeLine
  {
    (c.includeSystem, c.includeLine || !c.includeSystem)
  }

  /**
    Whether one item is a system item: a coin when both kinds are on, always
    when only system items are on, never otherwise.
   */
  function IsSystemItem(includeSystem: bool, includeLine: bool, coin: bool): (b: bool)
    ensures b ==> includeSystem
    ensures includeSystem && !includeLine ==> b
    ensures includeSystem && includeLine ==> b == coin
  {
    if includeSystem && includeLine then coin else includeSystem
  }

  /** `min_items = max(1, min)`, `max_items = max(min_items, max)`: a non-empty range starting at 1 or above. */
  function ItemRange(minItems: int, maxItems: int): (r: (int, int))
    ensures 1 <= r.0 <= r.1
    ensures r.0 == if minItems >= 1 then minItems else 1
    ensures r.1 >= maxItems && (maxItems >= r.0 ==> r.1 == maxItems)
  {
    var lo := if minItems >= 1 then minItems else 1;
    (lo, if maxItems >= lo then maxItems else lo)
  }

  /** A prefix followed by the decimal digits of a number. */
  function Numbered(prefix: string, n: nat): (s: string)
    ensures HasPrefix(s, prefix)
    ensures AllDigits(s[|prefix|..]) && |s| > |prefix|
  {
    PrefixOfConcat(prefix, Dec(n));
    assert (prefix + Dec(n))[|prefix|..] == Dec(n);
    prefix + Dec(n)
  }

  /** A number drawn from `[10^(k-1), 10^k)` gives a prefix followed by exactly `k` digits. */
  lemma NumberedShape(prefix: string, n: nat, k: nat)
    requires k >= 1 && Pow10(k - 1) <= n < Pow10(k)
    ensures |Numbered(prefix, n)| == |prefix| + k
  {
    DecLength(n, k);
  }

  /** Different numbers give different identifiers under the same prefix. */
  lemma NumberedInjective(prefix: string, a: nat, b: nat)
    requires Numbered(prefix, a) == Numbered(prefix, b)
    ensures a == b
  {
    assert Numbered(prefix, a)[|prefix|..] == Dec(a);
    assert Numbered(prefix, b)[|prefix|..] == Dec(b);
    DecInjective(a, b);
  }

  /** An identifier of the fallback pool: `ITEM-` and four digits. */
  predicate IsFallbackItemId(s: string) {
    |s| == 9 && HasPrefix(s, "ITEM-") && AllDigits(s[5..])
  }

  /** Five draws from `randint(1000, 9999)`. */
  predicate FallbackDraws(draws: seq<int>) {
    |draws| == 5 && forall i :: 0 <= i < 5 ==> 1000 <= draws[i] <= 9999
  }

  lemma SomeFallbackDraws()
    ensures FallbackDraws([1000, 1000, 1000, 1000, 1000])
  {
  }

  /** `_fallback_system_identifiers()`: five `ITEM-dddd` identifiers, one per draw from 1000..9999. */
  function FallbackItemIds(draws: seq<int>): (ids: seq<string>)
    requires FallbackDraws(draws)
    ensures |ids| == 5
    ensures forall i :: 0 <= i < 5 ==> IsFallbackItemId(ids[i])
  {
    var ids := seq(5, i requires 0 <= i < 5 => Numbered("ITEM-", draws[i]));
    Pow10Values();
    forall i | 0 <= i < 5 ensures IsFallbackItemId(ids[i]) {
      NumberedShape("ITEM-", draws[i], 4);
    }
    ids
  }

  /** The identifier pool: the configured identifiers, or the fallback when system items are on and none are configured. */
  function SystemPool(c: ItemConfig, fallback: seq<string>): (pool: seq<string>)
    ensures c.systemIds != [] ==> pool == c.systemIds
    ensures c.systemIds == [] && c.includeSystem ==> pool == fallback
    ensures c.includeSystem && fallback != [] ==> pool != []
  {
    if c.systemIds != [] then c.systemIds
    else if c.includeSystem then fallback
    else []
  }

  /**
    The identifier pool: the configured identifiers, or five fallback
    `ITEM-dddd` identifiers when system items are on and none are configured.
   */
  method ItemPool(config: ItemConfig) returns (pool: seq<string>)
    ensures config.systemIds != [] ==> pool == config.systemIds
    ensures config.systemIds == [] && config.includeSystem ==>
      |pool| == 5 && forall i :: 0 <= i < 5 ==> IsFallbackItemId(pool[i])
    ensures config.includeSystem ==> pool != []
  {
    var draws: seq<int> :| FallbackDraws(draws) by {
      SomeFallbackDraws();
    }
    pool := SystemPool(config, FallbackItemIds(draws));
  }

  /** `CSV IMPORT - {idx + 1}`, the origin written on a parent record's first row. */
  function ImportOrigin(idx: nat): string {
    "CSV IMPORT - " + Dec(idx + 1)
  }

  /** Origins of different parent records differ. */
  lemma ImportOriginInjective(a: nat, b: nat)
    requires ImportOrigin(a) == ImportOrigin(b)
    ensures a == b
  {
    var p := "CSV IMPORT - ";
    assert ImportOrigin(a)[|p|..] == Dec(a + 1);
    assert ImportOrigin(b)[|p|..] == Dec(b + 1);
    DecInjective(a + 1, b + 1);
  }
}
