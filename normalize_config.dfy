/** Configuration normaliser and merger (src/utils/normalize-config.ts):
    filling a partial configuration from the defaults, and layering a
    per-request `mock` override onto the global configuration. */
module NormalizeConfig {

  import opened Types

  /** `DEFAULT_NORMALIZED_MOCK_CONFIG`. */
  const DEFAULT_NORMALIZED_MOCK_CONFIG: NormalizedMockConfig :=
    NormalizedMockConfig(
      enabled := true,
      delay := 0,
      errorRate := 0.0,
      headers := map[],
      error := None,
      getDelay := None,
      enableLogging := false)

  /** A partial configuration with every field absent (`{}`). */
  const EMPTY_MOCK_CONFIG: MockConfig := MockConfig(None, None, None, None, None, None, None)

  /** `a ?? b` for a field whose fallback is itself optional. */
  function OrElse<T>(a: Option<T>, b: Option<T>): (r: Option<T>) {
    if a.Some? then a else b
  }

  /** `normalizeMockConfig(config?)`: every field from `config` when present, else the default. */
  function NormalizeMockConfig(config: Option<MockConfig>): (r: NormalizedMockConfig) {
    var c := config.GetOr(EMPTY_MOCK_CONFIG);
    var d := DEFAULT_NORMALIZED_MOCK_CONFIG;
    NormalizedMockConfig(
      enabled := c.enabled.GetOr(d.enabled),
      delay := c.delay.GetOr(d.delay),
      errorRate := c.errorRate.GetOr(d.errorRate),
      headers := d.headers + c.headers.GetOr(map[]),
      error := OrElse(c.error, d.error),
      getDelay := OrElse(c.getDelay, d.getDelay),
      enableLogging := c.enableLogging.GetOr(d.enableLogging))
  }

  /** `mergeMockConfigs(globalConfig, requestConfig)`. */
  function MergeMockConfigs(globalConfig: NormalizedMockConfig, requestConfig: MockOverride): (r: NormalizedMockConfig) {
    match requestConfig
    case Flag(on) => if on then globalConfig.(enabled := true) else globalConfig
    case Overrides(c) =>
      NormalizedMockConfig(
        enabled := c.enabled.GetOr(globalConfig.enabled),
        delay := c.delay.GetOr(globalConfig.delay),
        errorRate := c.errorRate.GetOr(globalConfig.errorRate),
        headers := globalConfig.headers + c.headers.GetOr(map[]),
        error := OrElse(c.error, globalConfig.error),
        getDelay := OrElse(c.getDelay, globalConfig.getDelay),
        enableLogging := c.enableLogging.GetOr(globalConfig.enableLogging))
    case NoOverride => globalConfig
    case OtherValue => globalConfig
  }

  /** The normalized configuration seen again as a partial one, every field present. */
  function AsPartial(n: NormalizedMockConfig): (r: MockConfig) {
    MockConfig(Some(n.enabled), Some(n.delay), Some(n.errorRate), Some(n.headers), n.error, n.getDelay, Some(n.enableLogging))
  }

  /** Without a configuration, normalizing gives exactly the defaults, and so does `{}`. */
  lemma NormalizeAbsentIsDefault()
    ensures NormalizeMockConfig(None) == DEFAULT_NORMALIZED_MOCK_CONFIG
    ensures NormalizeMockConfig(Some(EMPTY_MOCK_CONFIG)) == DEFAULT_NORMALIZED_MOCK_CONFIG
  {
  }

  /** Each normalized field is the given value when present and the default otherwise;
      the headers are a copy of the given ones, or empty. */
  lemma NormalizeFields(c: MockConfig)
    ensures var n := NormalizeMockConfig(Some(c));
      && (c.enabled.Some? ==> n.enabled == c.enabled.value) && (c.enabled.None? ==> n.enabled)
      && (c.delay.Some? ==> n.delay == c.delay.value) && (c.delay.None? ==> n.delay == 0)
      && (c.errorRate.Some? ==> n.errorRate == c.errorRate.value) && (c.errorRate.None? ==> n.errorRate == 0.0)
      && (c.headers.Some? ==> n.headers == c.headers.value) && (c.headers.None? ==> n.headers == map[])
      && n.error == c.error && n.getDelay == c.getDelay
      && (c.enableLogging.Some? ==> n.enableLogging == c.enableLogging.value) && (c.enableLogging.None? ==> !n.enableLogging)
  {
  }

  /** Normalizing an already normalized configuration changes nothing. */
  lemma NormalizeIdempotent(n: NormalizedMockConfig)
    ensures NormalizeMockConfig(Some(AsPartial(n))) == n
  {
    assert map[] + n.headers == n.headers;
  }

  /** Normalizing is merging onto the defaults: the two functions agree. */
  lemma NormalizeIsMergeOntoDefaults(c: MockConfig)
    ensures NormalizeMockConfig(Some(c)) == MergeMockConfigs(DEFAULT_NORMALIZED_MOCK_CONFIG, Overrides(c))
  {
  }

  /** `mock: true` forces `enabled` and keeps every other field. */
  lemma MergeTrue(g: NormalizedMockConfig)
    ensures MergeMockConfigs(g, Flag(true)) == g.(enabled := true)
  {
  }

  /** Any override that is not an object or `true` (`false`, `undefined`, `null`,
      a number) leaves the global configuration unchanged: in particular
      `mock: false` does not disable mocking. */
  lemma MergeNonObject(g: NormalizedMockConfig, o: MockOverride)
    requires o == NoOverride || o == OtherValue || o == Flag(false)
    ensures MergeMockConfigs(g, o) == g
  {
  }

  /** Headers of an object override are overlaid onto the global ones: every
      global key survives and the per-request value wins on a collision. */
  lemma MergeHeaders(g: NormalizedMockConfig, c: MockConfig)
    ensures var h := MergeMockConfigs(g, Overrides(c)).headers;
      && h.Keys == g.headers.Keys + c.headers.GetOr(map[]).Keys
      && (forall k :: k in c.headers.GetOr(map[]) ==> h[k] == c.headers.GetOr(map[])[k])
      && (forall k :: k in g.headers && k !in c.headers.GetOr(map[]) ==> h[k] == g.headers[k])
  {
  }

  /** Every scalar field of an object override wins when present and falls
      back to the global value when absent. */
  lemma MergeFields(g: NormalizedMockConfig, c: MockConfig)
    ensures var r := MergeMockConfigs(g, Overrides(c));
      && r.enabled == (if c.enabled.Some? then c.enabled.value else g.enabled)
      && r.getDelay == (if c.getDelay.Some? then c.getDelay else g.getDelay)
      && r.delay == (if c.delay.Some? then c.delay.value else g.delay)
      && r.errorRate == (if c.errorRate.Some? then c.errorRate.value else g.errorRate)
      && r.error == (if c.error.Some? then c.error else g.error)
      && r.enableLogging == (if c.enableLogging.Some? then c.enableLogging.value else g.enableLogging)
  {
  }

  /** Merging an empty object override is the identity. */
  lemma MergeEmpty(g: NormalizedMockConfig)
    ensures MergeMockConfigs(g, Overrides(EMPTY_MOCK_CONFIG)) == g
  {
    assert g.headers + map[] == g.headers;
  }
}
