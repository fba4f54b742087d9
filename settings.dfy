/** The caller script's configuration (`CallerScriptConfig`), its defaults and
    the shallow merge that `updateConfig` performs. Numbers are reals. */
module Settings {
  import opened Common
  import opened Json

  datatype Config = Config(
    baseIntervalMs: real,
    serverUrl: string,
    sseUrl: string,
    jitterPercent: real,
    sseUsagePercent: real)

  /** A `Partial<CallerScriptConfig>`: None is a property the caller left out. */
  datatype ConfigPatch = ConfigPatch(
    baseIntervalMs: Option<real>,
    serverUrl: Option<string>,
    sseUrl: Option<string>,
    jitterPercent: Option<real>,
    sseUsagePercent: Option<real>)

  const NoChanges := ConfigPatch(None, None, None, None, None)

  /** `process.env.PORT || 3000`: an unset or empty PORT gives 3000. */
  function PortText(port: Option<string>): (p: string)
    ensures p != ""
    ensures port.Some? && port.value != "" ==> p == port.value
    ensures !(port.Some? && port.value != "") ==> p == "3000"
  {
    if port.Some? && port.value != "" then port.value else "3000"
  }

  /** The configuration the constructor installs. */
  function DefaultConfig(port: Option<string>): (c: Config)
    ensures c.baseIntervalMs == 30000.0 && c.jitterPercent == 30.0 && c.sseUsagePercent == 25.0
    ensures c.serverUrl == "http://localhost:" + PortText(port) + "/mcp"
    ensures c.sseUrl == "http://localhost:" + PortText(port) + "/sse"
  {
    var host := "http://localhost:" + PortText(port);
    Config(30.0 * 1000.0, host + "/mcp", host + "/sse", 30.0, 25.0)
  }

  function Pick<T>(supplied: Option<T>, current: T): T
  {
    if supplied.Some? then supplied.value else current
  }

  /** `{ ...c, ...patch }` */
  function Merge(c: Config, patch: ConfigPatch): (r: Config)
    ensures patch.baseIntervalMs.Some? ==> r.baseIntervalMs == patch.baseIntervalMs.value
    ensures patch.baseIntervalMs.None? ==> r.baseIntervalMs == c.baseIntervalMs
    ensures patch.serverUrl.Some? ==> r.serverUrl == patch.serverUrl.value
    ensures patch.serverUrl.None? ==> r.serverUrl == c.serverUrl
    ensures patch.sseUrl.Some? ==> r.sseUrl == patch.sseUrl.value
    ensures patch.sseUrl.None? ==> r.sseUrl == c.sseUrl
    ensures patch.jitterPercent.Some? ==> r.jitterPercent == patch.jitterPercent.value
    ensures patch.jitterPercent.None? ==> r.jitterPercent == c.jitterPercent
    ensures patch.sseUsagePercent.Some? ==> r.sseUsagePercent == patch.sseUsagePercent.value
    ensures patch.sseUsagePercent.None? ==> r.sseUsagePercent == c.sseUsagePercent
  {
    Config(
      Pick(patch.baseIntervalMs, c.baseIntervalMs),
      Pick(patch.serverUrl, c.serverUrl),
      Pick(patch.sseUrl, c.sseUrl),
      Pick(patch.jitterPercent, c.jitterPercent),
      Pick(patch.sseUsagePercent, c.sseUsagePercent))
  }

  /** Merging an empty patch changes nothing, and merging the same patch
      twice is the same as merging it once. */
  lemma MergeLaws(c: Config, patch: ConfigPatch)
    ensures Merge(c, NoChanges) == c
    ensures Merge(Merge(c, patch), patch) == Merge(c, patch)
  {
  }

  /** `if (newConfig.baseIntervalMs)`: the property is present and its
      number is truthy. */
  predicate SuppliesBaseInterval(patch: ConfigPatch)
    ensures SuppliesBaseInterval(patch) <==>
              patch.baseIntervalMs.Some? && Truthy(JNum(patch.baseIntervalMs.value))
  {
    patch.baseIntervalMs.Some? && patch.baseIntervalMs.value != 0.0
  }
}
