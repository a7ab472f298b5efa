# Per-key TTL cache: a Dafny model

This project models an in-process object cache where each entry's time-to-live
is resolved from a hierarchical key namespace. Callers write and read values
under a *group* and an optional *sub-key*. The service joins them as
`group:subKey` and stores under that one string key. The expiry policy picks
the TTL for each written key:

1. the override configured under the key with every `:` replaced by `.` (the *specific* tier);
2. else the override configured under the text before the first `:`, when that `:` is not the
   first character (the *group* tier);
3. else the configured default (30 minutes unless set).

The TTL is resolved again on every write: on a create and on an update. It is never resolved
on a read, so a read never extends an entry's life. Reads return a value only when the entry
is live and of the requested type.

Modules, one per component:

- `Durations` (`durations.dfy`): `java.time.Duration` and `TimeUnit`, counted in nanoseconds.
- `TtlProperties` (`cache_ttl_properties.dfy`): the configuration holder `CacheTtlProperties`, a
  class with two mutable fields, and `TtlConfig`, the snapshot the resolver reads at each call.
- `ExpiryPolicy` (`per_key_expiry_policy.dfy`): key normalisation, `indexOf`, the three-tier
  `ResolveDuration`, and the create, update and read hooks. All of these are pure functions.
- `Ticker` (`fake_ticker.dfy`): the controllable clock `FakeTicker`, a class with one counter.
- `CacheValues` (`cache_values.dfy`): the stored values as a tagged datatype: booleans,
  strings, tenant event settings and tenant mappings. `IsInstance` stands for `Class.isInstance`.
- `ExpiringStore` (`expiring_store.dfy`): a sequential stand-in for the third-party expiring
  store. It is a map from key to (value, expiry instant) and calls the policy's hooks.
- `CacheService` (`time_expiring_cache_service.dfy`): composite keys and the class
  `TimeExpiringCacheService`. Its methods update the store in place. Its two reads are functions
  of the store and the clock.
- `Scenarios` (`scenarios.dfy`): the expiry scenarios of the integration tests, replayed on the
  model.
- `Wrappers` (`wrappers.dfy`): `Option`, for `java.util.Optional`.

Modelling choices:

- Time and durations are unbounded integers of nanoseconds.
- An entry with expiry instant `e` is live at time `now` exactly when `now < e`.
- The clock's starting value (`System.nanoTime()`) is a constructor parameter.
- The service holds the configuration object and the clock directly. The source reaches them
  through the store it was built with.
- The configuration values in `Scenarios` are the ones the test comments give: default 30m,
  `tracing.matrix.otel` 3m, `matrix.event.setting` 10m,
  `matrix.event.setting.cbec5243-e668-467e-8b67-d236510181b1` 5m, `odyssey.tenant.mapper` 12m.

Two behaviours of the code that are easy to miss:

- The group tier applies only when `indexOf(':')` is greater than 0
  (`PerKeyExpiryPolicy.java:57-58`). A key starting with `:` never takes a group override
  (`LeadingDelimiter`).
- `resolveDuration` calls `getKeys()` and `getDefaultTtl()` on every call
  (`PerKeyExpiryPolicy.java:51`, `60`, `67`). So a setter call on the configuration holder takes
  effect for every later write (`DefaultChange`, `ReconfigurationAffectsLaterWrites`). Entries
  written earlier keep the expiry they were given.

## Model

| member | source | states |
|---|---|---|
| ExpiryPolicy.Normalize | src/main/java/com/biswamit/cache/config/PerKeyExpiryPolicy.java:50 | The lookup key has the same length as the composite key. Every `:` becomes `.`, every other character is kept, and no `:` is left. |
| ExpiryPolicy.IndexOf | src/main/java/com/biswamit/cache/config/PerKeyExpiryPolicy.java:57 | The result is -1 exactly when there is no `:`. Otherwise it is a position holding `:` with no `:` before it. |
| ExpiryPolicy.ResolveDuration | src/main/java/com/biswamit/cache/config/PerKeyExpiryPolicy.java:48-68 | An override under the normalised key wins, even when a group override exists. Otherwise the override under the prefix before the first `:` applies, if that `:` is at an index above 0. Otherwise the default applies. The result is always the default or a configured value. |
| ExpiryPolicy.CreateHookTtl | src/main/java/com/biswamit/cache/config/PerKeyExpiryPolicy.java:28-32 | `ExpireAfterCreate` gives the same TTL for any value and any current time. That TTL is the default's nanoseconds or some configured duration's nanoseconds. |
| ExpiryPolicy.CreateUpdateAgree | src/main/java/com/biswamit/cache/config/PerKeyExpiryPolicy.java:35-40 | `ExpireAfterUpdate` ignores the entry's current duration and agrees with `ExpireAfterCreate`. Both give the resolved TTL in nanoseconds, whatever the value and time. |
| ExpiryPolicy.ReadKeepsDuration | src/main/java/com/biswamit/cache/config/PerKeyExpiryPolicy.java:43-46 | `ExpireAfterRead` returns the current duration unchanged. |
| ExpiryPolicy.DefaultChange | src/main/java/com/biswamit/cache/config/PerKeyExpiryPolicy.java:51-67 | Keep the overrides and change only the default. Every key with a specific or group override keeps its TTL. Every other key resolves to the new default. |
| ExpiryPolicy.NormalizeWithoutDelimiter | src/main/java/com/biswamit/cache/config/PerKeyExpiryPolicy.java:50 | A key without `:` normalises to itself. |
| ExpiryPolicy.BareKey | src/main/java/com/biswamit/cache/config/PerKeyExpiryPolicy.java:50-67 | A key without `:` is looked up unchanged at the specific tier. A "group" entry equal to it therefore applies through tier 1. Without an entry it gets the default. |
| ExpiryPolicy.LeadingDelimiter | src/main/java/com/biswamit/cache/config/PerKeyExpiryPolicy.java:57-67 | A key whose first character is `:` gets its normalised override or else the default, never a group override. |
| ExpiryPolicy.ResolvePositive | src/main/java/com/biswamit/cache/config/PerKeyExpiryPolicy.java:48-68 | If every configured duration is positive, every key resolves to a positive TTL. |
| ExpiryPolicy.NormalizeNotInjective | src/main/java/com/biswamit/cache/config/PerKeyExpiryPolicy.java:50-54 | `a.b:c` and `a:b.c` are different keys that share the specific entry `a.b.c`, so both resolve to it. |
| ExpiringStore.Put | src/main/java/com/biswamit/cache/config/PerKeyExpiryPolicy.java:28-40 | A live entry is replaced through the update hook, and anything else is created through the create hook. Either way the key's entry becomes (value, now + resolved TTL), and every other key keeps its entry. |
| ExpiringStore.AfterRead | src/main/java/com/biswamit/cache/config/PerKeyExpiryPolicy.java:43-46 | Resetting a live entry's expiry to now plus the read hook's result leaves the whole store unchanged. |
| ExpiringStore.ExpiryIsFinal | src/main/java/com/biswamit/cache/service/TimeExpiringCacheService.java:54 | Without a write, `GetIfPresent` never brings an entry back. A value read at some instant was read unchanged at every earlier instant. Once a read is empty it stays empty. A key never written is always empty. |
| ExpiringStore.HitUntilTtl | src/test/java/com/biswamit/cache/TimeExpiringPerKeyTTLConfigAppTest.java:92-158 | An entry written with resolved TTL `d` is read back while the elapsed time is below `d`, and is absent from `d` on. |
| ExpiringStore.PutIsolated | src/main/java/com/biswamit/cache/service/TimeExpiringCacheService.java:31 | A put changes what any other key reads, at any instant, not at all. |
| ExpiringStore.LastWriteWins | src/main/java/com/biswamit/cache/service/TimeExpiringCacheService.java:31 | Two puts to one key leave the store as the second put alone would. |
| CacheService.CompositeKeySplits | src/main/java/com/biswamit/cache/service/TimeExpiringCacheService.java:30 | `CompositeKey(group, subKey)`, for a group without `:`, has its first `:` right after the group. The group and the sub-key are recovered from either side of it. |
| CacheService.CompositeKeyInjective | src/main/java/com/biswamit/cache/service/TimeExpiringCacheService.java:30 | For groups without `:`, equal composite keys come from equal (group, sub-key) pairs. |
| CacheService.CompositeKeyCollision | src/main/java/com/biswamit/cache/service/TimeExpiringCacheService.java:30 | With `:` inside the group, two different pairs build the same key. |
| CacheService.NormalizeAppend | src/main/java/com/biswamit/cache/config/PerKeyExpiryPolicy.java:50 | Normalisation distributes over concatenation. |
| CacheService.NormalizeComposite | src/main/java/com/biswamit/cache/config/PerKeyExpiryPolicy.java:50 | The normalised composite key is the normalised group, `.`, and the normalised sub-key. |
| CacheService.ResolveComposite | src/main/java/com/biswamit/cache/config/PerKeyExpiryPolicy.java:48-68 | For a non-empty group without `:`, `put(group, subKey, _)` gets the `group.subKey` override (sub-key normalised). Otherwise it gets the `group` override, otherwise the default. |
| CacheService.SpecificOverride | src/main/java/com/biswamit/cache/config/PerKeyExpiryPolicy.java:50-54 | A configured `group.subKey` entry decides the TTL of `group:subKey`. |
| CacheService.GroupOverride | src/main/java/com/biswamit/cache/config/PerKeyExpiryPolicy.java:57-63 | Without a `group.subKey` entry, a `group` entry decides the TTL of `group:subKey`. |
| CacheService.TypedOnlyFilters | src/main/java/com/biswamit/cache/service/TimeExpiringCacheService.java:55-58 | `Typed`, the type check of the reads, returns the value found or nothing, never another value. A request for Object passes everything. A request for a concrete class passes exactly the values of that class. |
| CacheValues.SingleConcreteType | src/main/java/com/biswamit/cache/service/TimeExpiringCacheService.java:55 | Under `IsInstance`, every value is an instance of Object and of exactly one concrete class. |
| CacheService.TimeExpiringCacheService.constructor | src/main/java/com/biswamit/cache/service/TimeExpiringCacheService.java:18-20 | The service starts over an empty store, with the given configuration and clock. |
| CacheService.TimeExpiringCacheService.Put | src/main/java/com/biswamit/cache/service/TimeExpiringCacheService.java:29-32 | The store becomes the store put of the value under exactly `group + ":" + subKey`, at the clock's current reading and with the configuration as it is at that call. |
| CacheService.TimeExpiringCacheService.PutGroup | src/main/java/com/biswamit/cache/service/TimeExpiringCacheService.java:40-42 | The same, under the group verbatim, with no delimiter appended. |
| CacheService.TimeExpiringCacheService.Get | src/main/java/com/biswamit/cache/service/TimeExpiringCacheService.java:52-59 | The result is present exactly when `group:subKey` has an entry that is live now and is an instance of the requested type. It is then that entry's value. A miss and a type mismatch both give empty. |
| CacheService.TimeExpiringCacheService.GetGroup | src/main/java/com/biswamit/cache/service/TimeExpiringCacheService.java:64-70 | The same, for the group used verbatim as the key. |
| CacheService.SharedKeySpace | src/main/java/com/biswamit/cache/service/TimeExpiringCacheService.java:52-70 | `get(g, s, T)` and `get(g + ":" + s, T)` read the same entry. |
| CacheService.PutThenGet | src/main/java/com/biswamit/cache/service/TimeExpiringCacheService.java:29-59 | Under a positive configuration, `put(g, s, v)` then `get(g, s, T)` with the clock not moved returns `v` if `v` is a `T`, and empty otherwise. |
| TtlProperties.CacheTtlProperties.constructor | src/main/java/com/biswamit/cache/config/CacheTtlProperties.java:15-16 | The default TTL starts at 30 minutes and the override map starts empty. |
| TtlProperties.CacheTtlProperties.SetDefaultTtl | src/main/java/com/biswamit/cache/config/CacheTtlProperties.java:19-25 | `GetDefaultTtl` then returns the value passed, and `GetKeys` returns what it did before. |
| TtlProperties.CacheTtlProperties.SetKeys | src/main/java/com/biswamit/cache/config/CacheTtlProperties.java:27-33 | `GetKeys` then returns the map passed, and `GetDefaultTtl` returns what it did before. |
| Ticker.FakeTicker.constructor | src/main/java/com/biswamit/cache/FakeTicker.java:8-13 | `Read` starts at the given value. `Read` is a function of the counter, so it has no side effect and two reads agree. |
| Ticker.FakeTicker.Advance | src/main/java/com/biswamit/cache/FakeTicker.java:15-17 | `read` grows by exactly `unit.toNanos(time)`. |
| Ticker.FakeTicker.AdvanceBy | src/main/java/com/biswamit/cache/FakeTicker.java:19-21 | `read` grows by exactly the duration's nanoseconds. |
| Ticker.AdvanceTwice | src/main/java/com/biswamit/cache/FakeTicker.java:15-21 | Advancing by `a` and then by `b` leaves `read` where one advance by `a + b` would. |
| Scenarios.OtelResolution | src/test/java/com/biswamit/cache/TimeExpiringPerKeyTTLConfigAppTest.java:92-109 | `tracing:matrix.otel` resolves to the 3m specific override. |
| Scenarios.OtherTenantResolution | src/test/java/com/biswamit/cache/TimeExpiringPerKeyTTLConfigAppTest.java:120-139 | `matrix.event.setting:a1b2…` resolves to the 10m group override. |
| Scenarios.SpecificTenantResolution | src/test/java/com/biswamit/cache/TimeExpiringPerKeyTTLConfigAppTest.java:150-154 | `matrix.event.setting:cbec…` resolves to its 5m override, not the 10m group override. |
| Scenarios.TenantMapperResolution | src/test/java/com/biswamit/cache/TimeExpiringPerKeyTTLConfigAppTest.java:166-170 | `odyssey.tenant.mapper:a1b2…` resolves to the 12m group override. |
| Scenarios.DefaultResolution | src/test/java/com/biswamit/cache/TimeExpiringPerKeyTTLConfigAppTest.java:210-213 | `some.other.group` resolves to the 30m default. |
| Scenarios.SpecificSubKeyBeforeExpiry | src/test/java/com/biswamit/cache/TimeExpiringPerKeyTTLConfigAppTest.java:90-100 | With a 3m TTL the value is read back after 2m55s. |
| Scenarios.SpecificSubKeyAfterExpiry | src/test/java/com/biswamit/cache/TimeExpiringPerKeyTTLConfigAppTest.java:104-114 | With a 3m TTL the read is empty after 3m1s. |
| Scenarios.GroupTtlBeforeExpiry | src/test/java/com/biswamit/cache/TimeExpiringPerKeyTTLConfigAppTest.java:118-129 | With the 10m group TTL the settings are read back after 9m55s. |
| Scenarios.GroupTtlAfterExpiry | src/test/java/com/biswamit/cache/TimeExpiringPerKeyTTLConfigAppTest.java:132-144 | With the 10m group TTL the read is empty after 10m2s. |
| Scenarios.SpecificTenantOverridesGroup | src/test/java/com/biswamit/cache/TimeExpiringPerKeyTTLConfigAppTest.java:148-159 | With the 5m tenant TTL the read is empty after 5m1s, although the group TTL is 10m. |
| Scenarios.DefaultTtlAfterExpiry | src/test/java/com/biswamit/cache/TimeExpiringPerKeyTTLConfigAppTest.java:208-218 | With the 30m default the single-level read is empty after 30m1s. |
| Scenarios.TenantMapperGroupBeforeExpiry | src/test/java/com/biswamit/cache/TimeExpiringPerKeyTTLConfigAppTest.java:163-174 | With the 12m group TTL, a tenant mapping (any mapping) put under `odyssey.tenant.mapper:a1b2…` is read back after `advance(11, MINUTES)`. |
| Scenarios.TenantMapperReadUnderOtherGroup | src/test/java/com/biswamit/cache/TimeExpiringPerKeyTTLConfigAppTest.java:178-189 | A mapping put under `odyssey.tenant.mapper` is not found under `matrix.event.setting`, whatever the mapping. |
| Scenarios.TypeMismatchIsMiss | src/main/java/com/biswamit/cache/service/TimeExpiringCacheService.java:54-58 | A Boolean entry read as a String is empty, not an error. Read as Object, it is returned. |
| Scenarios.ReconfigurationAffectsLaterWrites | src/main/java/com/biswamit/cache/config/PerKeyExpiryPolicy.java:36-37 | After the default drops to 1m, an entry written next is gone after 1m1s. An entry written before the change is still there. |

## Left out

- The third-party store's internals are not modelled: concurrent maps, eviction scheduling,
  lazy or eager sweeps, size limits. `invalidateAll` is not modelled either; each scenario
  builds a fresh service instead. A plain sequential map stands in for the store.
- ExpiringStore.IsLive: at exactly its expiry instant an entry reads as a miss. This is a choice
  of the model. The third-party store's behaviour at that boundary is not given, and every test
  keeps a margin of at least one second.
- The service's reads do not run the read hook step by step. `AfterRead` proves that step leaves
  the store unchanged, so `Get` and `GetGroup` are functions.
- Concurrency and thread safety are left out. All operations are sequential.
- Java `long` overflow is not modelled, in `Duration.toNanos`, `TimeUnit.toNanos` (which
  saturates) or `nanos +=`. Time and durations are unbounded integers.
- Null handling is left out: the store's rejection of null values, and the empty result of
  `isInstance(null)`. A miss is `None`.
- `Class.isInstance` and `Class.cast` are left out as reflection. They are replaced by comparing
  type tags, with `Object` accepting every value. A successful read returns the stored `Value`
  rather than a value of a Java type parameter.
- Map aliasing is left out. In the source, `setKeys` stores the caller's map by reference, and
  `getKeys()` hands out that same live map, which resolution reads. So a change made through
  either reference reaches later resolutions. The model's `keys` is a value, and only `SetKeys`
  changes it.
- The framework wiring is left out: the bean configuration (`CacheConfig`), the property binding
  and the duration text parsing. Configuration values come only from the test comments.
- `CacheUsageRunner` is left out: it is a logging demo.
- `TenantMapper.java` is not part of this model. The record is modelled by its five constructor
  arguments in the order the tests pass them. Its field names are the model's own.
- The test at `TimeExpiringPerKeyTTLConfigAppTest.java:191-204` is left out. It needs a specific
  override under `odyssey.tenant.mapper.cbec5243-…`. Its display name gives that override as 10m,
  while its comment at line 198 says 11m, and the configuration file is not available. The
  model's test configuration therefore has no such entry.
- Logging is left out.
