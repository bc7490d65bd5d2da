/**
 * The event provider of the Unisphere exporter's provider registry: it is
 * on by default, and its loop is the shared Unisphere event loop.
 */
module UnisphereEventProvider {
  import opened Wrappers
  import opened ProviderFlags
  import opened UnisphereEvents

  const DefaultEnabled: bool := true

  /** The constructor panics on a nil section, returns nil, or builds a provider. */
  datatype Construction = NilSectionPanic | NoProvider | Provider(settings: EventSettings)

  /**
   * The event section is read through the providers block before anything
   * else, so a nil block or a nil section (both `None` here) panics even
   * without an exporter. Otherwise the provider exists unless its flag
   * disables it or no log exporter was created; an unparsable interval does
   * not prevent it (it becomes zero).
   */
  function NewProvider(pvConf: Option<UnisphereProviderEvent>, logExporter: bool,
                       parseDuration: string -> Option<int>): (r: Construction)
    ensures r.NilSectionPanic? <==> pvConf.None?
    ensures r.NoProvider? <==> pvConf.Some? && (!pvConf.value.GetEnabled(DefaultEnabled) || !logExporter)
    ensures r.Provider? ==> (r.settings.level == pvConf.value.level &&
      r.settings.interval == pvConf.value.GetInterval(parseDuration))
  {
    match pvConf
    case None => NilSectionPanic
    case Some(section) =>
      if !section.GetEnabled(DefaultEnabled) then NoProvider
      else if !logExporter then NoProvider
      else Provider(EventSettings(section.GetInterval(parseDuration), section.level))
  }

  /** With an empty flag the provider is created whenever there is an exporter. */
  lemma EnabledByDefault(pvConf: UnisphereProviderEvent, parseDuration: string -> Option<int>)
    requires pvConf.enabled == ""
    ensures NewProvider(Some(pvConf), true, parseDuration).Provider?
  {
  }
}
