/**
 * Hierarchical TTL resolution and the three expiry hooks the store calls.
 *
 * A composite key "group:subKey" gets, in order of precedence:
 *   1. the override configured under the key with every ':' replaced by '.';
 *   2. the override configured under the text before the first ':', when that
 *      ':' is not the first character;
 *   3. the configured default.
 */
module ExpiryPolicy {

  import opened Durations
  import opened TtlProperties
  import opened CacheValues

  const Delimiter: char := ':'

  /** String.replace(':', '.'): every delimiter becomes a dot, nothing else changes. */
  function Normalize(key: string): (r: string)
    ensures |r| == |key|
    ensures forall i :: 0 <= i < |key| ==> r[i] == if key[i] == Delimiter then '.' else key[i]
    ensures Delimiter !in r
  {
    if key == [] then []
    else [if key[0] == Delimiter then '.' else key[0]] + Normalize(key[1..])
  }

  /** String.indexOf(c): the first position of c, or -1 when c does not occur. */
  function IndexOf(s: string, c: char): (r: int)
    ensures -1 <= r < |s|
    ensures r == -1 <==> c !in s
    ensures 0 <= r ==> s[r] == c && c !in s[..r]
  {
    if s == [] then -1
    else if s[0] == c then 0
    else
      var j := IndexOf(s[1..], c);
      if j == -1 then -1
      else
        assert s[..j + 1] == [s[0]] + s[1..][..j];
        j + 1
  }

  /** Position i holds the first delimiter of key. */
  predicate IsFirstDelimiter(key: string, i: int)
  {
    0 <= i < |key| && key[i] == Delimiter && Delimiter !in key[..i]
  }

  /** resolveDuration: the three-tier lookup, stated by what each tier means. */
  function ResolveDuration(key: string, cfg: TtlConfig): (r: Duration)
    // Tier 1: the normalised key wins over everything else.
    ensures Normalize(key) in cfg.keys ==> r == cfg.keys[Normalize(key)]
    // Tier 2: the group before the first delimiter, if that delimiter is not at position 0.
    ensures Normalize(key) !in cfg.keys ==>
      forall i :: IsFirstDelimiter(key, i) && 0 < i && key[..i] in cfg.keys ==> r == cfg.keys[key[..i]]
    // Tier 3: neither applies.
    ensures Normalize(key) !in cfg.keys && (forall i :: IsFirstDelimiter(key, i) && 0 < i ==> key[..i] !in cfg.keys)
      ==> r == cfg.defaultTtl
    ensures r == cfg.defaultTtl || r in cfg.keys.Values
  {
    var specificPropertyKey := Normalize(key);
    if specificPropertyKey in cfg.keys then
      cfg.keys[specificPropertyKey]
    else
      var delimiterIndex := IndexOf(key, Delimiter);
      if delimiterIndex > 0 && key[..delimiterIndex] in cfg.keys then
        FirstDelimiterUnique(key, delimiterIndex);
        cfg.keys[key[..delimiterIndex]]
      else
        FirstDelimiterUnique(key, delimiterIndex);
        cfg.defaultTtl
  }

  /** Some override, at the specific or the group tier, is configured for key. */
  predicate HasOverride(key: string, keys: map<string, Duration>)
  {
    Normalize(key) in keys || exists i :: 0 < i < |key| && IsFirstDelimiter(key, i) && key[..i] in keys
  }

  /**
   * The configuration is read afresh at each resolution: with the overrides
   * unchanged, a new default reaches exactly the keys without an override,
   * and every other key keeps its TTL.
   */
  lemma DefaultChange(key: string, before: TtlConfig, after: TtlConfig)
    requires before.keys == after.keys
    ensures ResolveDuration(key, after) == if HasOverride(key, after.keys) then ResolveDuration(key, before) else after.defaultTtl
  {
    FirstDelimiterUnique(key, IndexOf(key, Delimiter));
  }

  /** IndexOf finds the only first delimiter there is. */
  lemma FirstDelimiterUnique(key: string, j: int)
    requires j == IndexOf(key, Delimiter)
    ensures forall i :: IsFirstDelimiter(key, i) ==> i == j
  {
  }

  /** expireAfterCreate: the resolved TTL in nanoseconds. */
  function ExpireAfterCreate(cfg: TtlConfig, compositeKey: string, value: Value, currentTime: int): int
  {
    ResolveDuration(compositeKey, cfg).nanos
  }

  /** expireAfterUpdate: the TTL is resolved afresh, ignoring the current one. */
  function ExpireAfterUpdate(cfg: TtlConfig, compositeKey: string, value: Value, currentTime: int, currentDuration: int): int
  {
    ResolveDuration(compositeKey, cfg).nanos
  }

  /** expireAfterRead: the remaining lifetime is left as it is. */
  function ExpireAfterRead(key: string, value: Value, currentTime: int, currentDuration: int): int
  {
    currentDuration
  }

  /**
   * The create hook's TTL depends on the key and the configuration alone, and
   * it is the default or one of the configured durations.
   */
  lemma CreateHookTtl(cfg: TtlConfig, key: string, v1: Value, v2: Value, t1: int, t2: int)
    ensures ExpireAfterCreate(cfg, key, v1, t1) == ExpireAfterCreate(cfg, key, v2, t2)
    ensures ExpireAfterCreate(cfg, key, v1, t1) == cfg.defaultTtl.nanos
      || exists d :: d in cfg.keys.Values && ExpireAfterCreate(cfg, key, v1, t1) == d.nanos
  {
    var r := ResolveDuration(key, cfg);
    if r != cfg.defaultTtl {
      assert r in cfg.keys.Values;
    }
  }

  /** Create and update agree, whatever the value, the time and the current duration. */
  lemma CreateUpdateAgree(cfg: TtlConfig, key: string, v1: Value, v2: Value, t1: int, t2: int, d: int)
    ensures ExpireAfterCreate(cfg, key, v1, t1) == ExpireAfterUpdate(cfg, key, v2, t2, d)
    ensures ExpireAfterCreate(cfg, key, v1, t1) == ResolveDuration(key, cfg).nanos
  {
  }

  /** A read hands back the lifetime it was given: no sliding expiration. */
  lemma ReadKeepsDuration(key: string, v: Value, now: int, d: int)
    ensures ExpireAfterRead(key, v, now, d) == d
  {
  }

  /** A key without a delimiter normalises to itself. */
  lemma {:induction false} NormalizeWithoutDelimiter(key: string)
    requires Delimiter !in key
    ensures Normalize(key) == key
  {
    if key != [] {
      NormalizeWithoutDelimiter(key[1..]);
    }
  }

  /** A bare key (no delimiter) is looked up unchanged at tier 1; otherwise it gets the default. */
  lemma BareKey(key: string, cfg: TtlConfig)
    requires Delimiter !in key
    ensures ResolveDuration(key, cfg) == if key in cfg.keys then cfg.keys[key] else cfg.defaultTtl
  {
    NormalizeWithoutDelimiter(key);
  }

  /** A key whose first character is the delimiter never uses a group override. */
  lemma LeadingDelimiter(key: string, cfg: TtlConfig)
    requires |key| > 0 && key[0] == Delimiter
    ensures ResolveDuration(key, cfg) == if Normalize(key) in cfg.keys then cfg.keys[Normalize(key)] else cfg.defaultTtl
  {
    assert IsFirstDelimiter(key, 0);
    FirstDelimiterUnique(key, IndexOf(key, Delimiter));
  }

  /** A positive configuration resolves every key to a positive TTL. */
  lemma ResolvePositive(key: string, cfg: TtlConfig)
    requires PositiveConfig(cfg)
    ensures ResolveDuration(key, cfg).nanos > 0
  {
    var r := ResolveDuration(key, cfg);
    if r != cfg.defaultTtl {
      var k :| k in cfg.keys && cfg.keys[k] == r;
    }
  }

  /** Normalisation is not injective: two keys with different groups share one specific entry. */
  lemma NormalizeNotInjective(cfg: TtlConfig)
    requires "a.b.c" in cfg.keys
    ensures "a.b:c" != "a:b.c"
    ensures ResolveDuration("a.b:c", cfg) == ResolveDuration("a:b.c", cfg) == cfg.keys["a.b.c"]
  {
    assert Normalize("a.b:c") == "a.b.c";
    assert Normalize("a:b.c") == "a.b.c";
  }
}
