/** Effective-dated prices: the worker's price cache (server/internal/worker/cost.go) and the generator's
    price table (server/internal/datagen/event.go, datagen.go) against the flat price list. */
module Prices {
  import opened Sequences
  import opened Domain

  /** A row of `model_prices`; `start` is its effective date in milliseconds. */
  datatype Price = Price(provider: string, model: string, input: real, output: real, start: int)

  datatype PriceKey = PriceKey(provider: string, model: string)

  function KeyOf(p: Price): PriceKey {
    PriceKey(p.provider, p.model)
  }

  /** What `GetAllPrices` promises of its list: one model's prices come latest first, and no two start on
      the same date. */
  ghost predicate PriceOrder(all: seq<Price>) {
    forall i, j :: 0 <= i < j < |all| && KeyOf(all[i]) == KeyOf(all[j]) ==> all[i].start > all[j].start
  }

  function OfKey(k: PriceKey): Price -> bool {
    (p: Price) => KeyOf(p) == k
  }

  function StartedBy(ts: int): Price -> bool {
    (p: Price) => p.start <= ts
  }

  function First(list: seq<Price>, p: Price -> bool): Option<Price> {
    if list == [] then None else if p(list[0]) then Some(list[0]) else First(list[1..], p)
  }

  /** The price in force for a key at a time: the one of greatest start not after it. */
  ghost predicate InForce(all: seq<Price>, k: PriceKey, ts: int, p: Price) {
    && p in all && KeyOf(p) == k && p.start <= ts
    && forall q :: q in all && KeyOf(q) == k && q.start <= ts ==> q.start <= p.start
  }

  lemma {:induction false} FirstIndex(list: seq<Price>, p: Price -> bool) returns (i: nat)
    ensures i <= |list|
    ensures forall j :: 0 <= j < i ==> !p(list[j])
    ensures First(list, p) == if i < |list| then Some(list[i]) else None
    ensures i < |list| ==> p(list[i])
  {
    if list == [] || p(list[0]) {
      i := 0;
    } else {
      var k := FirstIndex(list[1..], p);
      i := k + 1;
      forall j | 0 <= j < i ensures !p(list[j]) {
        assert j > 0 ==> list[j] == list[1..][j - 1];
      }
    }
  }

  /** Scanning one key's group is scanning the whole list for that key. */
  lemma {:induction false} FirstOfFilter(list: seq<Price>, g: Price -> bool, p: Price -> bool, both: Price -> bool)
    requires forall x :: both(x) <==> g(x) && p(x)
    ensures First(Filter(list, g), p) == First(list, both)
  {
    if list != [] {
      FirstOfFilter(list[1..], g, p, both);
    }
  }

  // ---------------------------------------------------------------- the worker's cache

  /** What a refresh leaves in the map: each key's prices, in list order. */
  ghost predicate Groups(prices: map<PriceKey, seq<Price>>, all: seq<Price>) {
    && (forall k :: k in prices <==> Filter(all, OfKey(k)) != [])
    && (forall k :: k in prices ==> prices[k] == Filter(all, OfKey(k)))
  }

  const WARNING := "_warning"
  const UNKNOWN_MODEL := "unknown_model"

  function CostOf(e: Event, p: Price): real {
    e.promptTokens as real * p.input / 1_000_000.0 + e.completionTokens as real * p.output / 1_000_000.0
  }

  /** The price a scan of the cached group finds. */
  function Cached(prices: map<PriceKey, seq<Price>>, k: PriceKey, ts: int): Option<Price> {
    if k in prices then First(prices[k], StartedBy(ts)) else None
  }

  /** Cost and tags after `CalculateCost`. */
  function Priced(prices: map<PriceKey, seq<Price>>, e: Event): (real, seq<Tag>) {
    match Cached(prices, PriceKey(e.provider, e.model), e.ms)
    case Some(p) => (CostOf(e, p), e.tags)
    case None => (0.0, SetTag(e.tags, WARNING, UNKNOWN_MODEL))
  }

  class PriceCache {
    var prices: map<PriceKey, seq<Price>>

    constructor ()
      ensures Groups(prices, [])
    {
      prices := map[];
    }

    /** `all` is what the store returned; `None` is an error, which leaves the cache as it was. */
    method Refresh(all: Option<seq<Price>>)
      modifies this
      ensures all.None? ==> prices == old(prices)
      ensures all.Some? ==> Groups(prices, all.value)
    {
      if all.None? {
        return;
      }
      var list := all.value;
      var newPrices: map<PriceKey, seq<Price>> := map[];
      for i := 0 to |list|
        invariant Groups(newPrices, list[..i])
      {
        var p := list[i];
        var key := KeyOf(p);
        GroupsStep(newPrices, list[..i], p);
        assert list[..i + 1] == list[..i] + [p];
        newPrices := newPrices[key := (if key in newPrices then newPrices[key] else []) + [p]];
      }
      assert list[..|list|] == list;
      prices := newPrices;
    }

    /** The price in force in the list last loaded decides the cost per million tokens of each kind; without
        one the cost is zero and the warning tag is set. */
    method CalculateCost(e: Event) returns (cost: real, tags: seq<Tag>)
      ensures (cost, tags) == Priced(prices, e)
      ensures forall all, p :: PriceOrder(all) && Groups(prices, all) && InForce(all, PriceKey(e.provider, e.model), e.ms, p) ==>
                1_000_000.0 * cost == e.promptTokens as real * p.input + e.completionTokens as real * p.output && tags == e.tags
      ensures forall all :: PriceOrder(all) && Groups(prices, all) && (forall p :: !InForce(all, PriceKey(e.provider, e.model), e.ms, p)) ==>
                cost == 0.0 && tags == SetTag(e.tags, "_warning", "unknown_model")
    {
      PricedMeaning(prices, e);
      var key := PriceKey(e.provider, e.model);
      if key !in prices {
        return 0.0, SetTag(e.tags, WARNING, UNKNOWN_MODEL);
      }
      var group := prices[key];
      var matched: Option<Price> := None;
      var i := 0;
      while i < |group| && matched.None?
        invariant 0 <= i <= |group|
        invariant First(group, StartedBy(e.ms)) == if matched.Some? then matched else First(group[i..], StartedBy(e.ms))
      {
        assert group[i..][1..] == group[i + 1..];
        if !(group[i].start > e.ms) {
          matched := Some(group[i]);
        }
        i := i + 1;
      }
      if matched.None? {
        return 0.0, SetTag(e.tags, WARNING, UNKNOWN_MODEL);
      }
      cost, tags := CostOf(e, matched.value), e.tags;
    }
  }

  lemma GroupsStep(prices: map<PriceKey, seq<Price>>, list: seq<Price>, p: Price)
    requires Groups(prices, list)
    ensures Groups(prices[KeyOf(p) := (if KeyOf(p) in prices then prices[KeyOf(p)] else []) + [p]], list + [p])
  {
    forall k ensures Filter(list + [p], OfKey(k)) == Filter(list, OfKey(k)) + (if KeyOf(p) == k then [p] else []) {
      FilterAppend(list, [p], OfKey(k));
      assert Filter([p], OfKey(k)) == if KeyOf(p) == k then [p] else [];
    }
  }

  /** The cache finds a price exactly when one is in force, and then finds that price, which is unique. */
  lemma CachedIsInForce(prices: map<PriceKey, seq<Price>>, all: seq<Price>, k: PriceKey, ts: int)
    requires PriceOrder(all) && Groups(prices, all)
    ensures forall p :: InForce(all, k, ts, p) <==> Cached(prices, k, ts) == Some(p)
    ensures Cached(prices, k, ts).None? <==> forall q :: q in all && KeyOf(q) == k ==> q.start > ts
  {
    var both := (p: Price) => KeyOf(p) == k && p.start <= ts;
    FirstOfFilter(all, OfKey(k), StartedBy(ts), both);
    assert Cached(prices, k, ts) == First(all, both);
    var i := FirstIndex(all, both);
    if i < |all| {
      forall q | q in all && KeyOf(q) == k && q.start <= ts ensures q.start <= all[i].start && (q.start == all[i].start ==> q == all[i]) {
        var j :| 0 <= j < |all| && all[j] == q;
        assert both(all[j]);
        assert i < j ==> all[i].start > all[j].start;
      }
      assert InForce(all, k, ts, all[i]);
    } else {
      forall q | q in all && KeyOf(q) == k ensures q.start > ts {
        var j :| 0 <= j < |all| && all[j] == q;
        assert !both(all[j]);
      }
    }
  }

  /** `CalculateCost` after a refresh: the price in force decides the cost; the warning tag is set, with
      cost 0, exactly when there is none. */
  lemma CostUsesPriceInForce(prices: map<PriceKey, seq<Price>>, all: seq<Price>, e: Event)
    requires PriceOrder(all) && Groups(prices, all)
    ensures forall p :: InForce(all, PriceKey(e.provider, e.model), e.ms, p) ==>
              1_000_000.0 * Priced(prices, e).0 == e.promptTokens as real * p.input + e.completionTokens as real * p.output &&
              Priced(prices, e).1 == e.tags
    ensures (forall p :: !InForce(all, PriceKey(e.provider, e.model), e.ms, p)) ==>
              Priced(prices, e) == (0.0, SetTag(e.tags, "_warning", "unknown_model"))
    ensures TagValue(Priced(prices, e).1, WARNING) == UNKNOWN_MODEL <==>
            TagValue(e.tags, WARNING) == UNKNOWN_MODEL ||
            forall q :: q in all && KeyOf(q) == PriceKey(e.provider, e.model) ==> q.start > e.ms
  {
    CachedIsInForce(prices, all, PriceKey(e.provider, e.model), e.ms);
    SetTagReads(e.tags, WARNING, UNKNOWN_MODEL, WARNING);
    var found := Cached(prices, PriceKey(e.provider, e.model), e.ms);
    if found.Some? {
      assert InForce(all, PriceKey(e.provider, e.model), e.ms, found.value);
      CostScales(e, found.value);
    }
  }

  lemma CostScales(e: Event, p: Price)
    ensures 1_000_000.0 * CostOf(e, p) == e.promptTokens as real * p.input + e.completionTokens as real * p.output
  {
  }

  /** The two cases of `CalculateCost`, for whatever list the cache was loaded from. */
  lemma PricedMeaning(prices: map<PriceKey, seq<Price>>, e: Event)
    ensures forall all, p :: PriceOrder(all) && Groups(prices, all) && InForce(all, PriceKey(e.provider, e.model), e.ms, p) ==>
              1_000_000.0 * Priced(prices, e).0 == e.promptTokens as real * p.input + e.completionTokens as real * p.output &&
              Priced(prices, e).1 == e.tags
    ensures forall all :: PriceOrder(all) && Groups(prices, all) && (forall p :: !InForce(all, PriceKey(e.provider, e.model), e.ms, p)) ==>
              Priced(prices, e) == (0.0, SetTag(e.tags, "_warning", "unknown_model"))
  {
    forall all, p | PriceOrder(all) && Groups(prices, all) && InForce(all, PriceKey(e.provider, e.model), e.ms, p)
      ensures 1_000_000.0 * Priced(prices, e).0 == e.promptTokens as real * p.input + e.completionTokens as real * p.output
      ensures Priced(prices, e).1 == e.tags
    {
      CostUsesPriceInForce(prices, all, e);
    }
    forall all | PriceOrder(all) && Groups(prices, all) && (forall p :: !InForce(all, PriceKey(e.provider, e.model), e.ms, p))
      ensures Priced(prices, e) == (0.0, SetTag(e.tags, "_warning", "unknown_model"))
    {
      CostUsesPriceInForce(prices, all, e);
    }
  }

  /** Setting a tag is map assignment: the key reads as the value, every other key as before. */
  lemma {:induction false} SetTagReads(tags: seq<Tag>, key: string, value: string, k: string)
    ensures TagValue(SetTag(tags, key, value), k) == if k == key then value else TagValue(tags, k)
    ensures HasTag(SetTag(tags, key, value), k) <==> k == key || HasTag(tags, k)
  {
    if tags != [] && tags[0].key != key {
      SetTagReads(tags[1..], key, value, k);
    }
  }

  // ---------------------------------------------------------------- the generator's table

  /** The table's textual key. */
  function TextKey(k: PriceKey): string {
    k.provider + "/" + k.model
  }

  function OfText(s: string): Price -> bool {
    (p: Price) => TextKey(KeyOf(p)) == s
  }

  ghost predicate TextGroups(table: map<string, seq<Price>>, all: seq<Price>) {
    && (forall s :: s in table <==> Filter(all, OfText(s)) != [])
    && (forall s :: s in table ==> table[s] == Filter(all, OfText(s)))
  }

  method BuildPriceTable(entries: seq<Price>) returns (table: map<string, seq<Price>>)
    ensures TextGroups(table, entries)
  {
    table := map[];
    for i := 0 to |entries|
      invariant TextGroups(table, entries[..i])
    {
      var p := entries[i];
      var key := TextKey(KeyOf(p));
      TextGroupsStep(table, entries[..i], p);
      assert entries[..i + 1] == entries[..i] + [p];
      table := table[key := (if key in table then table[key] else []) + [p]];
    }
    assert entries[..|entries|] == entries;
  }

  lemma TextGroupsStep(table: map<string, seq<Price>>, list: seq<Price>, p: Price)
    requires TextGroups(table, list)
    ensures TextGroups(table[TextKey(KeyOf(p)) := (if TextKey(KeyOf(p)) in table then table[TextKey(KeyOf(p))] else []) + [p]], list + [p])
  {
    forall s ensures Filter(list + [p], OfText(s)) == Filter(list, OfText(s)) + (if TextKey(KeyOf(p)) == s then [p] else []) {
      FilterAppend(list, [p], OfText(s));
      assert Filter([p], OfText(s)) == if TextKey(KeyOf(p)) == s then [p] else [];
    }
  }

  function LookupPrice(table: map<string, seq<Price>>, k: PriceKey, ts: int): Option<Price> {
    if TextKey(k) in table then First(table[TextKey(k)], StartedBy(ts)) else None
  }

  /** Another key's price filed under the same text. */
  predicate Intrudes(p: Price, k: PriceKey) {
    KeyOf(p) != k && TextKey(KeyOf(p)) == TextKey(k)
  }

  /** Every intruding price comes, in the list, after one of the key's own prices that starts no later. */
  ghost predicate Shadowed(all: seq<Price>, k: PriceKey) {
    forall j :: 0 <= j < |all| && Intrudes(all[j], k) ==>
      exists i :: 0 <= i < j && KeyOf(all[i]) == k && all[i].start <= all[j].start
  }

  /** Table and cache give the same price at every time exactly when no intruding price can be reached
      first. */
  lemma LookupsAgreeIff(prices: map<PriceKey, seq<Price>>, table: map<string, seq<Price>>, all: seq<Price>, k: PriceKey)
    requires Groups(prices, all) && TextGroups(table, all)
    ensures (forall ts :: LookupPrice(table, k, ts) == Cached(prices, k, ts)) <==> Shadowed(all, k)
  {
    if Shadowed(all, k) {
      forall ts ensures LookupPrice(table, k, ts) == Cached(prices, k, ts) {
        ShadowedAgree(prices, table, all, k, ts);
      }
    }
    if forall ts :: LookupPrice(table, k, ts) == Cached(prices, k, ts) {
      forall j | 0 <= j < |all| && Intrudes(all[j], k)
        ensures exists i :: 0 <= i < j && KeyOf(all[i]) == k && all[i].start <= all[j].start
      {
        var ts := all[j].start;
        assert LookupPrice(table, k, ts) == Cached(prices, k, ts);
        var i := AgreeingLookup(prices, table, all, k, ts, j);
      }
    }
  }

  /** Both lookups as scans of the whole list. */
  lemma Scans(prices: map<PriceKey, seq<Price>>, table: map<string, seq<Price>>, all: seq<Price>, k: PriceKey, ts: int,
              own: Price -> bool, text: Price -> bool)
    requires Groups(prices, all) && TextGroups(table, all)
    requires forall x :: own(x) <==> KeyOf(x) == k && x.start <= ts
    requires forall x :: text(x) <==> TextKey(KeyOf(x)) == TextKey(k) && x.start <= ts
    ensures Cached(prices, k, ts) == First(all, own) && LookupPrice(table, k, ts) == First(all, text)
  {
    FirstOfFilter(all, OfKey(k), StartedBy(ts), own);
    FirstOfFilter(all, OfText(TextKey(k)), StartedBy(ts), text);
  }

  lemma ShadowedAgree(prices: map<PriceKey, seq<Price>>, table: map<string, seq<Price>>, all: seq<Price>, k: PriceKey, ts: int)
    requires Groups(prices, all) && TextGroups(table, all) && Shadowed(all, k)
    ensures LookupPrice(table, k, ts) == Cached(prices, k, ts)
  {
    var own := (x: Price) => KeyOf(x) == k && x.start <= ts;
    var text := (x: Price) => TextKey(KeyOf(x)) == TextKey(k) && x.start <= ts;
    Scans(prices, table, all, k, ts, own, text);
    var i := FirstIndex(all, own);
    var j := FirstIndex(all, text);
    if i < |all| {
      assert text(all[i]);
    }
    if j < |all| {
      forall n | 0 <= n < j ensures KeyOf(all[n]) != k || all[n].start > ts {
        assert !text(all[n]);
      }
    }
  }

  /** If both scans agree at the start of an intruding price, one of the key's own comes before it. */
  lemma AgreeingScans(all: seq<Price>, k: PriceKey, ts: int, j: nat, own: Price -> bool, text: Price -> bool) returns (i: nat)
    requires forall x :: own(x) <==> KeyOf(x) == k && x.start <= ts
    requires First(all, text) == First(all, own)
    requires j < |all| && text(all[j]) && !own(all[j])
    ensures i < j && own(all[i])
  {
    i := FirstIndex(all, text);
    var n := FirstIndex(all, own);
  }

  lemma AgreeingLookup(prices: map<PriceKey, seq<Price>>, table: map<string, seq<Price>>, all: seq<Price>, k: PriceKey, ts: int, j: nat)
    returns (i: nat)
    requires Groups(prices, all) && TextGroups(table, all)
    requires LookupPrice(table, k, ts) == Cached(prices, k, ts)
    requires j < |all| && Intrudes(all[j], k) && all[j].start == ts
    ensures i < j && KeyOf(all[i]) == k && all[i].start <= ts
  {
    var own := (x: Price) => KeyOf(x) == k && x.start <= ts;
    var text := (x: Price) => TextKey(KeyOf(x)) == TextKey(k) && x.start <= ts;
    Scans(prices, table, all, k, ts, own, text);
    i := AgreeingScans(all, k, ts, j, own, text);
  }

  /** Two providers can share a text key exactly when they are equal or one, followed by a slash, begins
      the other. */
  lemma KeysCollideIff(p: string, q: string)
    ensures (exists m, n :: TextKey(PriceKey(p, m)) == TextKey(PriceKey(q, n))) <==> p == q || p + "/" <= q || q + "/" <= p
  {
    if m, n :| TextKey(PriceKey(p, m)) == TextKey(PriceKey(q, n)) {
      if |p| <= |q| {
        ShorterProviderBegins(p, m, q, n);
      } else {
        ShorterProviderBegins(q, n, p, m);
      }
    }
    if p == q {
      assert TextKey(PriceKey(p, "")) == TextKey(PriceKey(q, ""));
    } else if p + "/" <= q {
      Collision(p, q);
    } else if q + "/" <= p {
      Collision(q, p);
    }
  }

  lemma ShorterProviderBegins(p: string, m: string, q: string, n: string)
    requires TextKey(PriceKey(p, m)) == TextKey(PriceKey(q, n)) && |p| <= |q|
    ensures (p == q && m == n) || p + "/" <= q
  {
    var s := TextKey(PriceKey(p, m));
    assert s[..|p|] == p && s[|p|] == '/' && s[|p| + 1..] == m;
    assert s[..|q|] == q && s[|q| + 1..] == n;
    if |p| < |q| {
      assert q[|p|] == '/';
      assert q[..|p|] == s[..|p|];
      assert q == p + "/" + q[|p| + 1..];
    }
  }

  lemma Collision(p: string, q: string)
    requires p + "/" <= q
    ensures TextKey(PriceKey(p, q[|p| + 1..] + "/")) == TextKey(PriceKey(q, ""))
  {
    assert q == p + "/" + q[|p| + 1..];
  }

  /** Without a slash in any provider, the two forms agree on every request. */
  lemma LookupsAgreeWithoutSlash(prices: map<PriceKey, seq<Price>>, table: map<string, seq<Price>>, all: seq<Price>, k: PriceKey, ts: int)
    requires Groups(prices, all) && TextGroups(table, all)
    requires '/' !in k.provider && forall i :: 0 <= i < |all| ==> '/' !in all[i].provider
    ensures LookupPrice(table, k, ts) == Cached(prices, k, ts)
  {
    forall j | 0 <= j < |all| ensures !Intrudes(all[j], k) {
      var p := all[j];
      if Intrudes(p, k) {
        NoSlashNoPrefix(p.provider, k.provider);
        NoSlashNoPrefix(k.provider, p.provider);
        if |p.provider| <= |k.provider| {
          ShorterProviderBegins(p.provider, p.model, k.provider, k.model);
        } else {
          ShorterProviderBegins(k.provider, k.model, p.provider, p.model);
        }
      }
    }
    ShadowedAgree(prices, table, all, k, ts);
  }

  lemma NoSlashNoPrefix(p: string, q: string)
    requires '/' !in q
    ensures !(p + "/" <= q)
  {
    if |p| < |q| {
      assert q[|p|] in q && (p + "/")[|p|] == '/';
    }
  }

  /** With slashes they may differ: the price of model `c` of provider `a/b` answers for model `b/c` of
      provider `a`. */
  lemma SlashConfusesTable(prices: map<PriceKey, seq<Price>>, table: map<string, seq<Price>>, price: Price)
    requires price.provider == "a/b" && price.model == "c"
    requires Groups(prices, [price]) && TextGroups(table, [price])
    ensures Cached(prices, PriceKey("a", "b/c"), price.start) == None
    ensures LookupPrice(table, PriceKey("a", "b/c"), price.start) == Some(price)
  {
    var k := PriceKey("a", "b/c");
    assert TextKey(KeyOf(price)) == "a/b/c" == TextKey(k);
    assert Filter([price], OfKey(k)) == [];
    assert Filter([price], OfText("a/b/c")) == [price];
  }
}
