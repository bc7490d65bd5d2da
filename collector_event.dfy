/**
 * The event provider of the Unisphere collector package: its section holds
 * a boolean flag, the interval must parse, and its loop is the shared
 * Unisphere event loop.
 */
module CollectorEventLog {
  import opened Wrappers
  import opened UnisphereEvents

  /** The collector's event section: an already-decoded flag, the interval text, the level. */
  datatype ProviderEvent = ProviderEvent(enabled: bool, interval: string, level: int)

  /** The constructor panics on a nil section, returns nil, or builds a provider. */
  datatype Construction = NilSectionPanic | NoProvider | Provider(settings: EventSettings)

  /**
   * The section the configuration hands over (`None` for nil) is read
   * first, so a nil section panics whatever else holds; then a disabled
   * section, no exporter and an interval that does not parse each give nil.
   */
  function NewEventLogProvider(pvConf: Option<ProviderEvent>, logExporter: bool,
                               parseDuration: string -> Option<int>): (r: Construction)
    ensures r.NilSectionPanic? <==> pvConf.None?
    ensures r.NoProvider? <==> (pvConf.Some? &&
      (!pvConf.value.enabled || !logExporter || parseDuration(pvConf.value.interval).None?))
    ensures r.Provider? ==> r.settings == EventSettings(parseDuration(pvConf.value.interval).value, pvConf.value.level)
  {
    match pvConf
    case None => NilSectionPanic
    case Some(section) =>
      if !section.enabled then NoProvider
      else if !logExporter then NoProvider
      else match parseDuration(section.interval)
        case None => NoProvider
        case Some(interval) => Provider(EventSettings(interval, section.level))
  }
}
