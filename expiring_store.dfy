/**
 * A sequential stand-in for the expiring store the service writes to: a map
 * from key to value and absolute expiry instant, driven by an external clock
 * and by the expiry hooks of ExpiryPolicy.
 */
module ExpiringStore {

  import opened Wrappers
  import opened TtlProperties
  import opened CacheValues
  import opened ExpiryPolicy

  datatype Entry = Entry(value: Value, expiresAt: int)

  type Entries = map<string, Entry>

  /** An entry is readable strictly before its expiry instant. */
  predicate IsLive(e: Entry, now: int)
  {
    now < e.expiresAt
  }

  /** getIfPresent: the value of a live entry, nothing for a missing or expired one. */
  function GetIfPresent(entries: Entries, key: string, now: int): Option<Value>
  {
    if key in entries && IsLive(entries[key], now) then Some(entries[key].value) else None
  }

  /**
   * put: a live entry is replaced through the update hook, anything else is
   * created through the create hook; either way the new expiry is now plus
   * the TTL resolved for the key, and no other key is touched.
   */
  function Put(entries: Entries, key: string, value: Value, now: int, cfg: TtlConfig): (r: Entries)
    ensures r == entries[key := Entry(value, now + ResolveDuration(key, cfg).nanos)]
  {
    var ttl :=
      if GetIfPresent(entries, key, now).Some? then
        ExpireAfterUpdate(cfg, key, value, now, entries[key].expiresAt - now)
      else
        ExpireAfterCreate(cfg, key, value, now);
    entries[key := Entry(value, now + ttl)]
  }

  /**
   * The bookkeeping a read performs: a live entry's expiry is reset to now
   * plus what the read hook returns for its remaining lifetime. The store is
   * left exactly as it was.
   */
  function AfterRead(entries: Entries, key: string, now: int): (r: Entries)
    ensures r == entries
  {
    if key in entries && IsLive(entries[key], now) then
      var e := entries[key];
      entries[key := Entry(e.value, now + ExpireAfterRead(key, e.value, now, e.expiresAt - now))]
    else
      entries
  }

  /**
   * Without a write, expiry is final: a value read at some instant was there,
   * unchanged, at every earlier instant, and a missing key is never read.
   */
  lemma ExpiryIsFinal(entries: Entries, key: string, t1: int, t2: int)
    requires t1 <= t2
    ensures GetIfPresent(entries, key, t2).Some? ==> GetIfPresent(entries, key, t1) == GetIfPresent(entries, key, t2)
    ensures GetIfPresent(entries, key, t1) == None ==> GetIfPresent(entries, key, t2) == None
    ensures key !in entries ==> GetIfPresent(entries, key, t1) == None
  {
  }

  /** An entry written with TTL d is read back exactly while less than d has elapsed. */
  lemma HitUntilTtl(entries: Entries, key: string, v: Value, now: int, cfg: TtlConfig, elapsed: int)
    requires 0 <= elapsed
    ensures GetIfPresent(Put(entries, key, v, now, cfg), key, now + elapsed)
      == if elapsed < ResolveDuration(key, cfg).nanos then Some(v) else None
  {
  }

  /** A put changes what is read under no other key, at any instant. */
  lemma PutIsolated(entries: Entries, key: string, v: Value, now: int, cfg: TtlConfig, other: string, t: int)
    requires other != key
    ensures GetIfPresent(Put(entries, key, v, now, cfg), other, t) == GetIfPresent(entries, other, t)
  {
  }

  /** Last write wins: a second put to the same key erases the first but for nothing. */
  lemma LastWriteWins(entries: Entries, key: string, v1: Value, v2: Value, t1: int, t2: int, cfg1: TtlConfig, cfg2: TtlConfig)
    ensures Put(Put(entries, key, v1, t1, cfg1), key, v2, t2, cfg2) == Put(entries, key, v2, t2, cfg2)
  {
  }
}
