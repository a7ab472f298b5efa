/**
 * The expiry scenarios of the service's integration tests, replayed on the
 * model with the configuration those tests describe: a 30-minute default,
 * "tracing.matrix.otel" = 3m, "matrix.event.setting" = 10m,
 * "matrix.event.setting.<specific tenant>" = 5m and "odyssey.tenant.mapper" = 12m.
 */
module Scenarios {

  import opened Wrappers
  import opened Durations
  import opened TtlProperties
  import opened CacheValues
  import opened ExpiryPolicy
  import opened Ticker
  import opened CacheService
  import ExpiringStore

  const OtelGroup: string := "tracing"
  const OtelSubKey: string := "matrix.otel"
  const EventSettingGroup: string := "matrix.event.setting"
  const SpecificTenantId: string := "cbec5243-e668-467e-8b67-d236510181b1"
  const OtherTenantId: string := "a1b2c3d4-e5f6-4a7b-8c9d-0e1f2a3b4c5d"
  const TenantMapperGroup: string := "odyssey.tenant.mapper"
  const DefaultTtlKey: string := "some.other.group"

  const TestKeys: map<string, Duration> := map[
    TenantMapperGroup := OfMinutes(12),
    OtelGroup + "." + OtelSubKey := OfMinutes(3),
    EventSettingGroup := OfMinutes(10),
    EventSettingGroup + "." + SpecificTenantId := OfMinutes(5)
  ]

  const TestConfig: TtlConfig := TtlConfig(OfMinutes(30), TestKeys)

  /** The configured keys, and their lengths: a key of any other length is not configured. */
  lemma TestKeyLengths()
    ensures TestKeys.Keys == {TenantMapperGroup, OtelGroup + "." + OtelSubKey, EventSettingGroup, EventSettingGroup + "." + SpecificTenantId}
    ensures forall k :: k in TestKeys ==> |k| == 21 || |k| == 19 || |k| == 20 || |k| == 57
  {
    assert |SpecificTenantId| == 36;
  }

  /** None of the test's group and sub-key names contains the delimiter. */
  lemma DelimiterFreeNames()
    ensures Delimiter !in OtelGroup && Delimiter !in OtelSubKey && Delimiter !in EventSettingGroup
    ensures Delimiter !in SpecificTenantId && Delimiter !in OtherTenantId && Delimiter !in DefaultTtlKey
    ensures Delimiter !in TenantMapperGroup
  {
    assert SpecificTenantId == "cbec5243-e668-467e-8b67-d236510181b1";
    assert OtherTenantId == "a1b2c3d4-e5f6-4a7b-8c9d-0e1f2a3b4c5d";
  }

  /** "tracing:matrix.otel" resolves to the 3m specific override. */
  lemma OtelResolution(cfg: TtlConfig)
    requires cfg == TestConfig
    ensures ResolveDuration(CompositeKey(OtelGroup, OtelSubKey), cfg) == OfMinutes(3)
  {
    DelimiterFreeNames();
    SpecificOverride(OtelGroup, OtelSubKey, cfg);
  }

  /** No override is configured under "matrix.event.setting.<other tenant>". */
  lemma OtherTenantHasNoOverride()
    ensures EventSettingGroup + "." + OtherTenantId !in TestKeys
  {
    var specific := EventSettingGroup + "." + OtherTenantId;
    var tenantKey := EventSettingGroup + "." + SpecificTenantId;
    assert specific[21] == OtherTenantId[0] == 'a' && tenantKey[21] == SpecificTenantId[0] == 'c';
    TestKeyLengths();
    assert specific != tenantKey;
  }

  /** The tenant without its own override gets the 10m group override. */
  lemma OtherTenantResolution(cfg: TtlConfig)
    requires cfg == TestConfig
    ensures ResolveDuration(CompositeKey(EventSettingGroup, OtherTenantId), cfg) == OfMinutes(10)
  {
    DelimiterFreeNames();
    OtherTenantHasNoOverride();
    GroupOverride(EventSettingGroup, OtherTenantId, cfg);
  }

  /** The tenant with its own override gets 5m although its group has 10m. */
  lemma SpecificTenantResolution(cfg: TtlConfig)
    requires cfg == TestConfig
    ensures ResolveDuration(CompositeKey(EventSettingGroup, SpecificTenantId), cfg) == OfMinutes(5)
  {
    DelimiterFreeNames();
    SpecificOverride(EventSettingGroup, SpecificTenantId, cfg);
  }

  /** No override is configured under "odyssey.tenant.mapper.<other tenant>". */
  lemma OtherTenantHasNoMapperOverride()
    ensures TenantMapperGroup + "." + OtherTenantId !in TestKeys
  {
    var specific := TenantMapperGroup + "." + OtherTenantId;
    assert |specific| == 58;
    TestKeyLengths();
  }

  /** A tenant mapping for the other tenant gets the 12m group override. */
  lemma TenantMapperResolution(cfg: TtlConfig)
    requires cfg == TestConfig
    ensures ResolveDuration(CompositeKey(TenantMapperGroup, OtherTenantId), cfg) == OfMinutes(12)
  {
    DelimiterFreeNames();
    OtherTenantHasNoMapperOverride();
    GroupOverride(TenantMapperGroup, OtherTenantId, cfg);
  }

  /** No override is configured under "some.other.group". */
  lemma DefaultKeyUnconfigured()
    ensures DefaultTtlKey !in TestKeys
  {
    assert |DefaultTtlKey| == 16;
    TestKeyLengths();
  }

  /** A key with no override anywhere gets the 30m default. */
  lemma DefaultResolution(cfg: TtlConfig)
    requires cfg == TestConfig
    ensures ResolveDuration(DefaultTtlKey, cfg) == OfMinutes(30)
  {
    DelimiterFreeNames();
    DefaultKeyUnconfigured();
    BareKey(DefaultTtlKey, cfg);
  }

  /** A fresh clock at start, the test configuration, and an empty service over them. */
  method NewTestService(start: int) returns (svc: TimeExpiringCacheService)
    ensures fresh(svc) && fresh(svc.ttlProperties) && fresh(svc.ticker)
    ensures svc.ttlProperties.Config() == TestConfig
    ensures svc.ticker.Read() == start
    ensures svc.entries == map[]
  {
    var ticker := new FakeTicker(start);
    var props := new CacheTtlProperties();
    props.SetKeys(TestKeys);
    svc := new TimeExpiringCacheService(props, ticker);
  }

  /** 3m specific TTL: still there after 2m55s. */
  method SpecificSubKeyBeforeExpiry(start: int) returns (result: Option<Value>)
    ensures result == Some(BooleanValue(true))
  {
    var svc := NewTestService(start);
    svc.Put(OtelGroup, OtelSubKey, BooleanValue(true));
    svc.ticker.AdvanceBy(OfMinutes(2).Plus(OfSeconds(55)));
    OtelResolution(TestConfig);
    result := svc.Get(OtelGroup, OtelSubKey, BooleanType);
  }

  /** 3m specific TTL: gone after 3m1s. */
  method SpecificSubKeyAfterExpiry(start: int) returns (result: Option<Value>)
    ensures result == None
  {
    var svc := NewTestService(start);
    svc.Put(OtelGroup, OtelSubKey, BooleanValue(true));
    svc.ticker.AdvanceBy(OfMinutes(3).Plus(OfSeconds(1)));
    OtelResolution(TestConfig);
    result := svc.Get(OtelGroup, OtelSubKey, BooleanType);
  }

  /** 10m group TTL: still there after 9m55s. */
  method GroupTtlBeforeExpiry(start: int) returns (result: Option<Value>)
    ensures result == Some(TenantEventSettingValue(TenantEventSetting(["ensEvent1"], [])))
  {
    var settings := TenantEventSettingValue(TenantEventSetting(["ensEvent1"], []));
    var svc := NewTestService(start);
    svc.Put(EventSettingGroup, OtherTenantId, settings);
    svc.ticker.AdvanceBy(OfMinutes(9).Plus(OfSeconds(55)));
    OtherTenantResolution(TestConfig);
    result := svc.Get(EventSettingGroup, OtherTenantId, TenantEventSettingType);
  }

  /** 10m group TTL: gone after 10m2s. */
  method GroupTtlAfterExpiry(start: int) returns (result: Option<Value>)
    ensures result == None
  {
    var svc := NewTestService(start);
    svc.Put(EventSettingGroup, OtherTenantId, TenantEventSettingValue(TenantEventSetting(["ensEvent1"], [])));
    svc.ticker.AdvanceBy(OfMinutes(10).Plus(OfSeconds(2)));
    OtherTenantResolution(TestConfig);
    result := svc.Get(EventSettingGroup, OtherTenantId, TenantEventSettingType);
  }

  /** The 5m tenant TTL beats the 10m group TTL: gone after 5m1s. */
  method SpecificTenantOverridesGroup(start: int) returns (result: Option<Value>)
    ensures result == None
  {
    var svc := NewTestService(start);
    svc.Put(EventSettingGroup, SpecificTenantId, TenantEventSettingValue(TenantEventSetting(["*"], ["dlpEventId1"])));
    svc.ticker.AdvanceBy(OfMinutes(5).Plus(OfSeconds(1)));
    SpecificTenantResolution(TestConfig);
    result := svc.Get(EventSettingGroup, SpecificTenantId, TenantEventSettingType);
  }

  /** No override anywhere: the 30m default applies, gone after 30m1s. */
  method DefaultTtlAfterExpiry(start: int) returns (result: Option<Value>)
    ensures result == None
  {
    var svc := NewTestService(start);
    svc.PutGroup(DefaultTtlKey, StringValue("some-value"));
    svc.ticker.AdvanceBy(OfMinutes(30).Plus(OfSeconds(1)));
    DefaultResolution(TestConfig);
    result := svc.GetGroup(DefaultTtlKey, StringType);
  }

  /** 12m group TTL: a tenant mapping is still there after advance(11, MINUTES), whatever the mapping. */
  method TenantMapperGroupBeforeExpiry(start: int, mapper: TenantMapper) returns (result: Option<Value>)
    ensures result == Some(TenantMapperValue(mapper))
  {
    var svc := NewTestService(start);
    var key := CompositeKey(TenantMapperGroup, OtherTenantId);
    TenantMapperResolution(TestConfig);
    svc.Put(TenantMapperGroup, OtherTenantId, TenantMapperValue(mapper));
    assert svc.entries[key] == ExpiringStore.Entry(TenantMapperValue(mapper), start + OfMinutes(12).nanos);
    svc.ticker.Advance(11, Minutes);
    assert svc.ticker.Read() == start + Minutes.ToNanos(11);
    result := svc.Get(TenantMapperGroup, OtherTenantId, TenantMapperType);
  }

  /**
   * A tenant mapping written under one group is not found under another:
   * the value is put under "odyssey.tenant.mapper" and read under
   * "matrix.event.setting", after 12h1s. This holds whatever mapping is stored.
   */
  method TenantMapperReadUnderOtherGroup(start: int, mapper: TenantMapper) returns (result: Option<Value>)
    ensures result == None
  {
    var svc := NewTestService(start);
    var written := CompositeKey(TenantMapperGroup, OtherTenantId);
    var read := CompositeKey(EventSettingGroup, OtherTenantId);
    svc.Put(TenantMapperGroup, OtherTenantId, TenantMapperValue(mapper));
    svc.ticker.AdvanceBy(OfHours(12).Plus(OfSeconds(1)));
    assert |written| == 58 && |read| == 57;
    result := svc.Get(EventSettingGroup, OtherTenantId, TenantMapperType);
  }

  /** A value of one type is not handed out to a reader asking for another, nor is it lost for Object. */
  method TypeMismatchIsMiss(start: int) returns (asString: Option<Value>, asObject: Option<Value>)
    ensures asString == None
    ensures asObject == Some(BooleanValue(true))
  {
    var svc := NewTestService(start);
    svc.Put(OtelGroup, OtelSubKey, BooleanValue(true));
    asString := svc.Get(OtelGroup, OtelSubKey, StringType);
    OtelResolution(TestConfig);
    asObject := svc.Get(OtelGroup, OtelSubKey, ObjectType);
  }

  /** A bare key with no override of its own in the test configuration. */
  predicate Unconfigured(key: string)
  {
    Delimiter !in key && key !in TestKeys
  }

  /**
   * The configuration is read at each write: after the default drops to 1m,
   * an entry written next expires after 1m while the entry written before
   * keeps its 30m.
   */
  method ReconfigurationAffectsLaterWrites(start: int, first: string, second: string)
    returns (earlier: Option<Value>, later: Option<Value>)
    requires first != second && Unconfigured(first) && Unconfigured(second)
    ensures earlier == Some(StringValue("first"))
    ensures later == None
  {
    var svc := NewTestService(start);
    var before := svc.ttlProperties.Config();
    svc.PutGroup(first, StringValue("first"));
    svc.ttlProperties.SetDefaultTtl(OfMinutes(1));
    var after := svc.ttlProperties.Config();
    svc.PutGroup(second, StringValue("second"));
    svc.ticker.AdvanceBy(OfMinutes(1).Plus(OfSeconds(1)));
    BareKey(first, before);
    BareKey(second, after);
    earlier := svc.GetGroup(first, StringType);
    later := svc.GetGroup(second, StringType);
  }
}
