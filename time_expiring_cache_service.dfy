/**
 * The composite-key cache service: it joins a group and a sub-key with ':'
 * into the one string key of the store, and reads back values only of the
 * type the caller asks for.
 */
module CacheService {

  import opened Wrappers
  import opened Durations
  import opened TtlProperties
  import opened CacheValues
  import opened ExpiryPolicy
  import opened Ticker
  import ExpiringStore

  /** group + ':' + subKey */
  function CompositeKey(groupKey: string, subKey: string): string
  {
    groupKey + [Delimiter] + subKey
  }

  /** A stored value is handed out only if it is an instance of the requested type. */
  function Typed(found: Option<Value>, tag: TypeTag): Option<Value>
  {
    if found.Some? && IsInstance(tag, found.value) then found else None
  }

  /**
   * The type check only hides a value, it never alters one: a request for
   * Object passes everything, and a request for a concrete class passes
   * exactly the values of that class.
   */
  lemma TypedOnlyFilters(found: Option<Value>, tag: TypeTag)
    ensures Typed(found, tag) == found || Typed(found, tag) == None
    ensures Typed(found, ObjectType) == found
    ensures found.Some? && tag != ObjectType ==> (Typed(found, tag).Some? <==> tag == TypeOf(found.value))
  {
  }

  /** The delimiter follows a delimiter-free group: the group is what precedes the first delimiter. */
  lemma {:induction false} CompositeKeySplits(groupKey: string, subKey: string)
    requires Delimiter !in groupKey
    ensures IsFirstDelimiter(CompositeKey(groupKey, subKey), |groupKey|)
    ensures CompositeKey(groupKey, subKey)[..|groupKey|] == groupKey
    ensures CompositeKey(groupKey, subKey)[|groupKey| + 1..] == subKey
  {
    var key := CompositeKey(groupKey, subKey);
    assert key[..|groupKey|] == groupKey;
    assert key[|groupKey| + 1..] == subKey;
  }

  /** For a delimiter-free group, composite keys decompose uniquely. */
  lemma CompositeKeyInjective(g1: string, s1: string, g2: string, s2: string)
    requires Delimiter !in g1 && Delimiter !in g2
    requires CompositeKey(g1, s1) == CompositeKey(g2, s2)
    ensures g1 == g2 && s1 == s2
  {
    var key := CompositeKey(g1, s1);
    CompositeKeySplits(g1, s1);
    CompositeKeySplits(g2, s2);
    FirstDelimiterUnique(key, IndexOf(key, Delimiter));
  }

  /** A delimiter inside the group makes two different pairs share one key. */
  lemma CompositeKeyCollision()
    ensures CompositeKey("a:b", "c") == CompositeKey("a", "b:c")
  {
  }

  /** Normalisation works character by character, so it distributes over concatenation. */
  lemma {:induction false} NormalizeAppend(a: string, b: string)
    ensures Normalize(a + b) == Normalize(a) + Normalize(b)
  {
    if a != [] {
      assert (a + b)[1..] == a[1..] + b;
      NormalizeAppend(a[1..], b);
    }
  }

  /** The normalised composite key is the normalised group, a dot, and the normalised sub-key. */
  lemma NormalizeComposite(groupKey: string, subKey: string)
    ensures Normalize(CompositeKey(groupKey, subKey)) == Normalize(groupKey) + "." + Normalize(subKey)
  {
    NormalizeAppend(groupKey, [Delimiter] + subKey);
    NormalizeAppend([Delimiter], subKey);
    assert Normalize([Delimiter]) == ".";
    assert CompositeKey(groupKey, subKey) == groupKey + ([Delimiter] + subKey);
  }

  /**
   * The TTL of put(group, subKey, _) for a non-empty, delimiter-free group:
   * the "group.subKey" override, else the "group" override, else the default.
   */
  lemma ResolveComposite(groupKey: string, subKey: string, cfg: TtlConfig)
    requires groupKey != [] && Delimiter !in groupKey
    ensures ResolveDuration(CompositeKey(groupKey, subKey), cfg) ==
      var specific := groupKey + "." + Normalize(subKey);
      if specific in cfg.keys then cfg.keys[specific]
      else if groupKey in cfg.keys then cfg.keys[groupKey]
      else cfg.defaultTtl
  {
    var key := CompositeKey(groupKey, subKey);
    NormalizeComposite(groupKey, subKey);
    NormalizeWithoutDelimiter(groupKey);
    CompositeKeySplits(groupKey, subKey);
    FirstDelimiterUnique(key, IndexOf(key, Delimiter));
  }

  /** Tier 1 for put(group, subKey, _): the "group.subKey" override wins, whatever the group has. */
  lemma SpecificOverride(groupKey: string, subKey: string, cfg: TtlConfig)
    requires groupKey != [] && Delimiter !in groupKey && Delimiter !in subKey
    requires groupKey + "." + subKey in cfg.keys
    ensures ResolveDuration(CompositeKey(groupKey, subKey), cfg) == cfg.keys[groupKey + "." + subKey]
  {
    ResolveComposite(groupKey, subKey, cfg);
    NormalizeWithoutDelimiter(subKey);
  }

  /** Tier 2 for put(group, subKey, _): without a "group.subKey" override, the "group" override applies. */
  lemma GroupOverride(groupKey: string, subKey: string, cfg: TtlConfig)
    requires groupKey != [] && Delimiter !in groupKey && Delimiter !in subKey
    requires groupKey + "." + subKey !in cfg.keys && groupKey in cfg.keys
    ensures ResolveDuration(CompositeKey(groupKey, subKey), cfg) == cfg.keys[groupKey]
  {
    ResolveComposite(groupKey, subKey, cfg);
    NormalizeWithoutDelimiter(subKey);
  }

  /** The service over the expiring store; the configuration and the clock are read at each call. */
  class TimeExpiringCacheService {
    const ttlProperties: CacheTtlProperties
    const ticker: FakeTicker
    var entries: ExpiringStore.Entries

    constructor (ttlProperties: CacheTtlProperties, ticker: FakeTicker)
      ensures this.ttlProperties == ttlProperties && this.ticker == ticker
      ensures entries == map[]
    {
      this.ttlProperties := ttlProperties;
      this.ticker := ticker;
      entries := map[];
    }

    /** put(groupKey, subKey, value): store under group + ':' + subKey. */
    method Put(groupKey: string, subKey: string, value: Value)
      modifies this
      ensures entries == ExpiringStore.Put(old(entries), CompositeKey(groupKey, subKey), value, ticker.Read(), ttlProperties.Config())
    {
      var compositeKey := CompositeKey(groupKey, subKey);
      entries := ExpiringStore.Put(entries, compositeKey, value, ticker.Read(), ttlProperties.Config());
    }

    /** put(groupKey, value): store under the group itself. */
    method PutGroup(groupKey: string, value: Value)
      modifies this
      ensures entries == ExpiringStore.Put(old(entries), groupKey, value, ticker.Read(), ttlProperties.Config())
    {
      entries := ExpiringStore.Put(entries, groupKey, value, ticker.Read(), ttlProperties.Config());
    }

    /** get(groupKey, subKey, type): a live entry of the requested type, else nothing. */
    function Get(groupKey: string, subKey: string, tag: TypeTag): (r: Option<Value>)
      reads this, ticker
      ensures var key := CompositeKey(groupKey, subKey);
        r.Some? <==> key in entries && ticker.Read() < entries[key].expiresAt && IsInstance(tag, entries[key].value)
      ensures r.Some? ==> r.value == entries[CompositeKey(groupKey, subKey)].value
    {
      Typed(ExpiringStore.GetIfPresent(entries, CompositeKey(groupKey, subKey), ticker.Read()), tag)
    }

    /** get(groupKey, type): the same, under the group itself. */
    function GetGroup(groupKey: string, tag: TypeTag): (r: Option<Value>)
      reads this, ticker
      ensures r.Some? <==> groupKey in entries && ticker.Read() < entries[groupKey].expiresAt && IsInstance(tag, entries[groupKey].value)
      ensures r.Some? ==> r.value == entries[groupKey].value
    {
      Typed(ExpiringStore.GetIfPresent(entries, groupKey, ticker.Read()), tag)
    }
  }

  /** The two-level and the one-level API read one key space. */
  lemma SharedKeySpace(svc: TimeExpiringCacheService, groupKey: string, subKey: string, tag: TypeTag)
    ensures svc.Get(groupKey, subKey, tag) == svc.GetGroup(CompositeKey(groupKey, subKey), tag)
  {
  }

  /** Round trip: put then get, before the clock moves, returns the value if it has the requested type. */
  method PutThenGet(svc: TimeExpiringCacheService, groupKey: string, subKey: string, v: Value, tag: TypeTag)
    returns (r: Option<Value>)
    requires PositiveConfig(svc.ttlProperties.Config())
    modifies svc
    ensures r == if IsInstance(tag, v) then Some(v) else None
  {
    svc.Put(groupKey, subKey, v);
    ResolvePositive(CompositeKey(groupKey, subKey), svc.ttlProperties.Config());
    r := svc.Get(groupKey, subKey, tag);
  }
}
