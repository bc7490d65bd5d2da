/**
 * The real-time metric providers of the Unisphere exporter's provider
 * registry (`metric_a`, `metric_b`, `metric_c`). `Run` fetches the metric
 * catalog, selects the configured paths, builds the instrument map, creates
 * one real-time query and registers the observation callback; the callback
 * fetches the query's result and decodes it into observations.
 *
 * The Unisphere client library these providers call is outside the model:
 * each call is recorded as a `LibraryCall` and its reply is a parameter.
 */
module UnisphereMetricProvider {
  import opened Wrappers
  import opened GoStrconv
  import opened ProviderFlags
  import opened MetricPath
  import opened InstrumentMap

  const DefaultEnabled: bool := false

  /** A real-time query accepts at most this many metric paths. */
  const MaxQueryPaths: int := 48

  const CatalogFields: seq<string> := ["name", "path", "type", "unitDisplayString", "description"]
  const RealtimeFilters: seq<string> := ["isRealtimeAvailable eq true"]

  /** The three metric sections of the providers block; `None` is an absent (nil) section. */
  datatype MetricSections = MetricSections(
    metricA: Option<UnisphereProviderMetric>,
    metricB: Option<UnisphereProviderMetric>,
    metricC: Option<UnisphereProviderMetric>)

  /** The section a module name reads; any other name reads nil. */
  function SectionFor(moduleName: string, sections: MetricSections): (r: Option<UnisphereProviderMetric>)
    ensures moduleName == "metric_a" ==> r == sections.metricA
    ensures moduleName == "metric_b" ==> r == sections.metricB
    ensures moduleName == "metric_c" ==> r == sections.metricC
    ensures moduleName != "metric_a" && moduleName != "metric_b" && moduleName != "metric_c" ==> r == None
  {
    if moduleName == "metric_a" then sections.metricA
    else if moduleName == "metric_b" then sections.metricB
    else if moduleName == "metric_c" then sections.metricC
    else None
  }

  /** What a created provider keeps. */
  datatype MetricSettings = MetricSettings(moduleName: string, interval: int, paths: seq<string>)

  /** The metric modules, the only names whose switch case reads the providers block. */
  predicate IsMetricModule(moduleName: string) {
    moduleName == "metric_a" || moduleName == "metric_b" || moduleName == "metric_c"
  }

  /** The constructor panics on a nil providers block, returns nil, or builds a provider. */
  datatype Construction = NilBlockPanic | NoProvider | Provider(settings: MetricSettings)

  /**
   * The module-name switch dereferences the providers block (`None` for
   * nil), which panics for a metric module; any other name reads no
   * section. A provider exists only for a present section with a paths
   * list (possibly empty) that is enabled, and only when a metric exporter
   * was created.
   */
  function NewProvider(moduleName: string, providers: Option<MetricSections>, metricExporter: bool,
                       parseDuration: string -> Option<int>): (r: Construction)
    ensures r.NilBlockPanic? <==> providers.None? && IsMetricModule(moduleName)
    ensures r.Provider? <==> (providers.Some? && SectionFor(moduleName, providers.value).Some? &&
      SectionFor(moduleName, providers.value).value.paths.Some? &&
      SectionFor(moduleName, providers.value).value.GetEnabled(DefaultEnabled) && metricExporter)
    ensures r.Provider? ==> (r.settings.moduleName == moduleName &&
      r.settings.paths == SectionFor(moduleName, providers.value).value.paths.value &&
      r.settings.interval == SectionFor(moduleName, providers.value).value.GetInterval(parseDuration))
  {
    if providers.None? then
      if IsMetricModule(moduleName) then NilBlockPanic else NoProvider
    else match SectionFor(moduleName, providers.value)
      case None => NoProvider
      case Some(pvConf) =>
        if pvConf.paths.None? then NoProvider
        else if !pvConf.GetEnabled(DefaultEnabled) then NoProvider
        else if !metricExporter then NoProvider
        else Provider(MetricSettings(moduleName, pvConf.GetInterval(parseDuration), pvConf.paths.value))
  }

  /** These providers are off by default: a created one had its flag spelled true. */
  lemma CreatedOnlyWhenSwitchedOn(moduleName: string, providers: Option<MetricSections>, metricExporter: bool,
                                  parseDuration: string -> Option<int>)
    ensures NewProvider(moduleName, providers, metricExporter, parseDuration).Provider? ==>
      SectionFor(moduleName, providers.value).value.enabled in TrueSpellings
  {
  }

  /** A call into the Unisphere client library. */
  datatype LibraryCall =
    | GetMetricInstances(fields: seq<string>, filters: seq<string>)
    | PostRealTimeQuery(paths: seq<string>, interval: int)
    | GetQueryResult(queryId: int)

  /**
   * The library's reply to the query post: the result pointer (`None` when
   * nil) carrying the created id, and whether an error came back.
   */
  datatype QueryCreated = QueryCreated(result: Option<int>, failed: bool)

  datatype RunOutcome = CatalogFailed | SelectionPanicked | TooManyPaths | NilResultPanicked | Registered

  datatype CallbackResult = CallbackError(message: string) | Observations(observations: multiset<Observation>) | CallbackPanicked

  /** The query id the callback asks for: `Atoi` with its error dropped, so 0 when it fails. */
  function QueryNumber(queryId: string): (n: int)
    ensures Atoi(queryId).Some? ==> n == Atoi(queryId).value
    ensures Atoi(queryId).None? ==> n == 0
  {
    Atoi(queryId).GetOr(0)
  }

  /** The stored id names the created query again. */
  lemma QueryNumberItoa(id: int)
    ensures QueryNumber(Itoa(id)) == id
  {
    AtoiItoa(id);
  }

  function FromDecoded(d: Decoded): (r: CallbackResult)
    ensures d.DecodePanic? <==> r.CallbackPanicked?
    ensures d.Observed? ==> r == Observations(d.observations)
  {
    match d
    case DecodePanic => CallbackPanicked
    case Observed(obs) => Observations(obs)
  }

  /** The catalog check, the selection loops and the instrument map of a run, with the path limit applied. */
  datatype Prepared =
    | FetchFailed
    | Panicked
    | TooMany
    | Ready(selected: seq<string>, instruments: map<string, InstrumentRef>)

  method Prepare(catalog: Option<seq<CatalogEntry>>, patterns: seq<string>) returns (r: Prepared)
    ensures r.FetchFailed? <==> catalog.None?
    ensures r.Panicked? <==> catalog.Some? && !Selectable(catalog.value, patterns)
    ensures r.TooMany? <==> (catalog.Some? && Selectable(catalog.value, patterns) &&
      |MapOf(Descriptors(catalog.value, patterns), AsIs)| > MaxQueryPaths)
    ensures r.Ready? ==> (catalog.Some? && Selectable(catalog.value, patterns) &&
      |MapOf(Descriptors(catalog.value, patterns), AsIs)| <= MaxQueryPaths &&
      r.selected == KeysOf(Descriptors(catalog.value, patterns)) &&
      r.instruments == MapOf(Descriptors(catalog.value, patterns), AsIs))
  {
    if catalog.None? {
      return FetchFailed;
    }
    var selection := SelectMetrics(catalog.value, patterns);
    if selection.IndexPanic? {
      return Panicked;
    }
    var mdmap := CreateMapMetricDescriptor(selection.descs);
    if |mdmap| > MaxQueryPaths {
      return TooMany;
    }
    r := Ready(selection.paths, mdmap);
  }

  class MetricProvider {
    const moduleName: string
    const interval: int
    const paths: seq<string>
    /** The decimal id of the real-time query, `""` until one is created. */
    var queryId: string
    /** The selected paths and the instrument map the callback captures. */
    var metricPaths: seq<string>
    var observableMap: map<string, InstrumentRef>
    /** The callback is registered. */
    var registered: bool

    /** A registered callback always has a query id that reads back as a number. */
    predicate Valid()
      reads this
    {
      registered ==> queryId != "" && Atoi(queryId).Some?
    }

    constructor (settings: MetricSettings)
      ensures moduleName == settings.moduleName && interval == settings.interval && paths == settings.paths
      ensures queryId == "" && metricPaths == [] && observableMap == map[] && !registered
      ensures Valid()
    {
      moduleName := settings.moduleName;
      interval := settings.interval;
      paths := settings.paths;
      queryId := "";
      metricPaths := [];
      observableMap := map[];
      registered := false;
    }

    /**
     * One run. A catalog error ends it; an empty pattern panics; more than
     * 48 instruments end it before any query is posted; otherwise the query
     * is posted and its id stored even when the post reported an error, so
     * a nil result pointer panics.
     */
    method Run(catalog: Option<seq<CatalogEntry>>, created: QueryCreated) returns (calls: seq<LibraryCall>, outcome: RunOutcome)
      modifies this
      ensures outcome.CatalogFailed? <==> catalog.None?
      ensures outcome.SelectionPanicked? <==> catalog.Some? && !Selectable(catalog.value, paths)
      ensures outcome.TooManyPaths? <==> (catalog.Some? && Selectable(catalog.value, paths) &&
        |MapOf(Descriptors(catalog.value, paths), AsIs)| > MaxQueryPaths)
      ensures outcome.NilResultPanicked? <==> (catalog.Some? && Selectable(catalog.value, paths) &&
        |MapOf(Descriptors(catalog.value, paths), AsIs)| <= MaxQueryPaths && created.result.None?)
      ensures outcome.NilResultPanicked? || outcome.Registered? ==>
        calls == [GetMetricInstances(CatalogFields, RealtimeFilters),
                  PostRealTimeQuery(KeysOf(Descriptors(catalog.value, paths)), interval)]
      ensures !(outcome.NilResultPanicked? || outcome.Registered?) ==>
        calls == [GetMetricInstances(CatalogFields, RealtimeFilters)]
      ensures outcome.Registered? ==>
        registered && queryId == Itoa(created.result.value) &&
        metricPaths == KeysOf(Descriptors(catalog.value, paths)) &&
        observableMap == MapOf(Descriptors(catalog.value, paths), AsIs)
      ensures !outcome.Registered? ==> (queryId == old(queryId) && registered == old(registered) &&
        metricPaths == old(metricPaths) && observableMap == old(observableMap))
      ensures old(Valid()) ==> Valid()
    {
      calls := [GetMetricInstances(CatalogFields, RealtimeFilters)];
      var prepared := Prepare(catalog, paths);
      if prepared.FetchFailed? {
        return calls, CatalogFailed;
      } else if prepared.Panicked? {
        return calls, SelectionPanicked;
      } else if prepared.TooMany? {
        return calls, TooManyPaths;
      }
      calls := calls + [PostRealTimeQuery(prepared.selected, interval)];
      if created.result.None? {
        return calls, NilResultPanicked;
      }
      AtoiItoa(created.result.value);
      queryId := Itoa(created.result.value);
      metricPaths := prepared.selected;
      observableMap := prepared.instruments;
      registered := true;
      outcome := Registered;
    }

    /**
     * One collection. With no query id the query is posted again but the
     * new id is not kept; nil host labels are an error; a failed fetch
     * observes nothing; otherwise every entry is decoded, its instrument
     * looked up by the raw path, and a leaf that does not parse is skipped.
     */
    method Callback(hostLabels: Option<seq<Attr>>, fetched: Option<seq<ResultEntry>>, parse: string -> Option<real>)
      returns (calls: seq<LibraryCall>, r: CallbackResult)
      ensures calls == (if queryId == "" then [PostRealTimeQuery(metricPaths, interval)] else []) +
        (if hostLabels.Some? then [GetQueryResult(QueryNumber(queryId))] else [])
      ensures hostLabels.None? ==> r == CallbackError("hostLabels not set")
      ensures hostLabels.Some? && fetched.None? ==> r == Observations(multiset{})
      ensures hostLabels.Some? && fetched.Some? ==>
        r == FromDecoded(DecodeEntries(fetched.value, observableMap, AsIs, hostLabels.value, SkipLeaf, parse))
      ensures registered && Valid() ==> forall c | c in calls :: c.GetQueryResult? && c.queryId == Atoi(queryId).value
    {
      calls := [];
      if queryId == "" {
        calls := calls + [PostRealTimeQuery(metricPaths, interval)];
      }
      if hostLabels.None? {
        return calls, CallbackError("hostLabels not set");
      }
      var qid := QueryNumber(queryId);
      calls := calls + [GetQueryResult(qid)];
      if fetched.None? {
        return calls, Observations(multiset{});
      }
      var decoded := DecodeResult(fetched.value, observableMap, AsIs, hostLabels.value, SkipLeaf, parse);
      r := FromDecoded(decoded);
    }
  }
}
