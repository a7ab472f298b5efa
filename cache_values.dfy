/**
 * The values the cache stores, with a runtime type tag.
 * The cache holds arbitrary objects and a read names the class it expects;
 * here each value carries its constructor as its type and a read names a TypeTag.
 */
module CacheValues {

  /** The record TenantEventSetting(ensEventSetting, dlpEventSetting). */
  datatype TenantEventSetting = TenantEventSetting(ensEventSetting: seq<string>, dlpEventSetting: seq<string>)

  /**
   * A tenant mapping record, built from its five constructor arguments in order:
   * tenant id, ingest account id, region, ingest URL and an enabled flag.
   */
  datatype TenantMapper = TenantMapper(tenantId: string, accountId: string, region: string, ingestUrl: string, enabled: bool)

  datatype Value =
    | BooleanValue(b: bool)
    | StringValue(s: string)
    | TenantEventSettingValue(setting: TenantEventSetting)
    | TenantMapperValue(mapper: TenantMapper)

  /** The class a reader asks for; ObjectType is Object.class, of which every value is an instance. */
  datatype TypeTag = ObjectType | BooleanType | StringType | TenantEventSettingType | TenantMapperType

  function TypeOf(v: Value): TypeTag
  {
    match v
    case BooleanValue(_) => BooleanType
    case StringValue(_) => StringType
    case TenantEventSettingValue(_) => TenantEventSettingType
    case TenantMapperValue(_) => TenantMapperType
  }

  /** Class.isInstance: the value has the requested type, or the request is for Object. */
  predicate IsInstance(tag: TypeTag, v: Value)
  {
    tag == ObjectType || tag == TypeOf(v)
  }

  /** Every value is an instance of Object and of exactly one other class, its own. */
  lemma SingleConcreteType(v: Value, t1: TypeTag, t2: TypeTag)
    ensures IsInstance(ObjectType, v)
    ensures t1 != ObjectType && t2 != ObjectType && IsInstance(t1, v) && IsInstance(t2, v) ==> t1 == t2
    ensures exists t :: t != ObjectType && IsInstance(t, v)
  {
    assert TypeOf(v) != ObjectType && IsInstance(TypeOf(v), v);
  }
}
