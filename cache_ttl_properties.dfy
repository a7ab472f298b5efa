/**
 * The TTL configuration holder: a default duration and a map from dotted
 * property keys ("group" or "group.subKey") to override durations.
 */
module TtlProperties {

  import opened Durations

  /** A snapshot of the configuration, as the resolver reads it at one instant. */
  datatype TtlConfig = TtlConfig(defaultTtl: Duration, keys: map<string, Duration>)

  /**
   * Every configured duration is positive. The setters accept any duration;
   * this is a hypothesis that ResolvePositive and PutThenGet take, not a rule
   * the configuration enforces.
   */
  predicate PositiveConfig(cfg: TtlConfig)
  {
    cfg.defaultTtl.nanos > 0 && forall k :: k in cfg.keys ==> cfg.keys[k].nanos > 0
  }

  const DefaultTtl: Duration := OfMinutes(30)

  class CacheTtlProperties {
    var defaultTtl: Duration
    var keys: map<string, Duration>

    /** Defaults: 30 minutes and no overrides. */
    constructor ()
      ensures defaultTtl == OfMinutes(30) && defaultTtl.nanos == 1_800_000_000_000
      ensures keys == map[]
    {
      defaultTtl := DefaultTtl;
      keys := map[];
    }

    function GetDefaultTtl(): Duration
      reads this
    {
      defaultTtl
    }

    function GetKeys(): map<string, Duration>
      reads this
    {
      keys
    }

    /** The configuration the resolver sees now. */
    function Config(): TtlConfig
      reads this
    {
      TtlConfig(defaultTtl, keys)
    }

    method SetDefaultTtl(d: Duration)
      modifies this
      ensures GetDefaultTtl() == d
      ensures GetKeys() == old(GetKeys())
    {
      defaultTtl := d;
    }

    method SetKeys(m: map<string, Duration>)
      modifies this
      ensures GetKeys() == m
      ensures GetDefaultTtl() == old(GetDefaultTtl())
    {
      keys := m;
    }
  }
}
