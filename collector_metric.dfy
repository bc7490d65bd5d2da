/**
 * The real-time metric providers of the Unisphere collector package. The
 * pipeline is the one of the exporter's own providers, with four
 * differences: the instrument map is keyed by the lower-cased path, more
 * than 48 paths is only reported, a callback that finds no query id posts
 * again and keeps the new id, and a leaf that does not parse is still
 * observed.
 */
module CollectorMetric {
  import opened Wrappers
  import opened GoStrconv
  import opened UnisphereHttp
  import opened UnisphereRealTimeQuery
  import Catalog = UnisphereMetricCatalog
  import QueryResult = UnisphereQueryResult
  import opened MetricPath
  import opened InstrumentMap
  import opened UnisphereCollector

  const MaxQueryPaths: int := 48

  const CatalogFields: seq<string> := ["name", "path", "type", "unitDisplayString", "description"]

  /** A metric section of the collector's configuration: an already-decoded flag, the interval text, the paths. */
  datatype ProviderMetric = ProviderMetric(enabled: bool, interval: string, paths: seq<string>)

  /** The three metric sections; `None` is a nil section. */
  datatype MetricSections = MetricSections(
    metricA: Option<ProviderMetric>,
    metricB: Option<ProviderMetric>,
    metricC: Option<ProviderMetric>)

  /** The section a module name reads; any other name leaves it nil. */
  function SectionFor(moduleName: string, sections: MetricSections): (r: Option<ProviderMetric>)
    ensures moduleName == "metric_a" ==> r == sections.metricA
    ensures moduleName == "metric_b" ==> r == sections.metricB
    ensures moduleName == "metric_c" ==> r == sections.metricC
    ensures moduleName != "metric_a" && moduleName != "metric_b" && moduleName != "metric_c" ==> r == None
  {
    if moduleName == "metric_a" then sections.metricA
    else if moduleName == "metric_b" then sections.metricB
    else if moduleName == "metric_c" then sections.metricC
    else None
  }

  datatype MetricSettings = MetricSettings(moduleName: string, interval: int, paths: seq<string>)

  /** The constructor returns nil, panics on a nil section, or builds a provider. */
  datatype Construction = NoProvider | NilSectionPanic | Provider(settings: MetricSettings)

  /**
   * No exporter, a disabled section, an empty path list or an interval that
   * does not parse all give nil; the exporter is checked before the section
   * is read, so a nil section panics only when there is an exporter.
   */
  function NewMetricRealTimeQueryProvider(moduleName: string, sections: MetricSections, meterExporter: bool,
                                          parseDuration: string -> Option<int>): (r: Construction)
    ensures !meterExporter ==> r == NoProvider
    ensures r == NilSectionPanic <==> meterExporter && SectionFor(moduleName, sections).None?
    ensures r.Provider? <==> (meterExporter && SectionFor(moduleName, sections).Some? &&
      SectionFor(moduleName, sections).value.enabled &&
      |SectionFor(moduleName, sections).value.paths| > 0 &&
      parseDuration(SectionFor(moduleName, sections).value.interval).Some?)
    ensures r.Provider? ==> r.settings == MetricSettings(moduleName,
      parseDuration(SectionFor(moduleName, sections).value.interval).value,
      SectionFor(moduleName, sections).value.paths)
  {
    if !meterExporter then NoProvider
    else match SectionFor(moduleName, sections)
      case None => NilSectionPanic
      case Some(m) =>
        if !m.enabled then NoProvider
        else if |m.paths| == 0 then NoProvider
        else match parseDuration(m.interval)
          case None => NoProvider
          case Some(interval) => Provider(MetricSettings(moduleName, interval, m.paths))
  }

  /** What a catalog reply gives the selection: a body that did not decode still yields what was filled in. */
  function CatalogOf(reply: Reply<seq<CatalogEntry>>): (c: seq<CatalogEntry>)
    requires !reply.TransportError?
    ensures reply.Body? ==> c == reply.decoded
    ensures reply.Undecodable? ==> c == reply.partial
  {
    if reply.Body? then reply.decoded else reply.partial
  }

  datatype MeterOutcome = CatalogFailed | SelectionPanicked | Registered(tooManyPathsLogged: bool)

  /** The stored query id is empty or a decimal number. */
  predicate WellFormedId(queryId: string) {
    queryId == "" || Atoi(queryId).Some?
  }

  /** The catalog fetch and the selection loops of a run. */
  datatype Prepared = FetchFailed | Panicked | Ready(selection: Selection)

  method Prepare(catalogReply: Reply<seq<CatalogEntry>>, patterns: seq<string>) returns (request: Request, r: Prepared)
    ensures request == Get(Catalog.MetricUrl(CatalogFields, Catalog.RealtimeFilter))
    ensures r.FetchFailed? <==> catalogReply.TransportError?
    ensures r.Panicked? <==> !catalogReply.TransportError? && !Selectable(CatalogOf(catalogReply), patterns)
    ensures r.Ready? ==> (r.selection.Chosen? &&
      r.selection.descs == Descriptors(CatalogOf(catalogReply), patterns) &&
      r.selection.paths == KeysOf(r.selection.descs))
  {
    var fetched := Catalog.GetMetric(CatalogFields, "realtime", catalogReply);
    request := fetched.request.value;
    if fetched.result.Failure? {
      return request, FetchFailed;
    }
    var selection := SelectMetrics(fetched.result.value, patterns);
    if selection.IndexPanic? {
      return request, Panicked;
    }
    r := Ready(selection);
  }

  class MetricRealTimeQueryProvider {
    const moduleName: string
    const interval: int
    const paths: seq<string>
    var queryId: string
    var metricPaths: seq<string>
    var observableMap: map<string, InstrumentRef>
    var registered: bool

    constructor (settings: MetricSettings)
      ensures moduleName == settings.moduleName && interval == settings.interval && paths == settings.paths
      ensures queryId == "" && metricPaths == [] && observableMap == map[] && !registered
    {
      moduleName := settings.moduleName;
      interval := settings.interval;
      paths := settings.paths;
      queryId := "";
      metricPaths := [];
      observableMap := map[];
      registered := false;
    }

    /**
     * One run: the real-time catalog, the selection loops, the lower-cased
     * instrument map, then the query post with every selected path (an
     * over-long list is only reported), storing whatever id came back, and
     * the callback registration.
     */
    method RunMeter(catalogReply: Reply<seq<CatalogEntry>>, postReply: Reply<int>)
      returns (requests: seq<Request>, outcome: MeterOutcome)
      modifies this
      ensures |requests| >= 1 && requests[0] == Get(Catalog.MetricUrl(CatalogFields, Catalog.RealtimeFilter))
      ensures outcome.CatalogFailed? <==> catalogReply.TransportError?
      ensures outcome.SelectionPanicked? <==> !catalogReply.TransportError? && !Selectable(CatalogOf(catalogReply), paths)
      ensures !outcome.Registered? ==> (requests == [requests[0]] && queryId == old(queryId) &&
        registered == old(registered) && metricPaths == old(metricPaths) && observableMap == old(observableMap))
      ensures outcome.Registered? ==> (
        var descs := Descriptors(CatalogOf(catalogReply), paths);
        var posted := PostMetricRealTimeQuery(KeysOf(descs), interval, postReply);
        outcome.tooManyPathsLogged == (|descs| > MaxQueryPaths) &&
        requests == [requests[0], posted.request] && queryId == posted.id && registered &&
        metricPaths == KeysOf(descs) && observableMap == MapOf(descs, Lowered))
      ensures outcome.Registered? ==> WellFormedId(queryId)
    {
      var catalogRequest, prepared := Prepare(catalogReply, paths);
      requests := [catalogRequest];
      if prepared.FetchFailed? {
        return requests, CatalogFailed;
      } else if prepared.Panicked? {
        return requests, SelectionPanicked;
      }
      var selection := prepared.selection;
      var request := Register(selection.descs, selection.paths, postReply);
      requests := requests + [request];
      outcome := Registered(|selection.paths| > MaxQueryPaths);
    }

    /** The lower-cased instrument map, the query post with every path, and the registration. */
    method Register(descs: seq<MetricDescriptor>, selected: seq<string>, postReply: Reply<int>) returns (request: Request)
      modifies this
      ensures request == PostMetricRealTimeQuery(selected, interval, postReply).request
      ensures queryId == PostMetricRealTimeQuery(selected, interval, postReply).id && registered
      ensures metricPaths == selected && observableMap == MapOf(descs, Lowered)
      ensures WellFormedId(queryId)
    {
      var mdmap := MappingMetricDescriptor(descs);
      var posted := PostMetricRealTimeQuery(selected, interval, postReply);
      request := posted.request;
      queryId := posted.id;
      metricPaths := selected;
      observableMap := mdmap;
      registered := true;
    }

    /**
     * One collection. With no query id the query is posted again and the
     * new id kept; a failed post ends the cycle. Nil host attributes and a
     * failed fetch end it too; otherwise every entry is decoded with its
     * instrument looked up by the lower-cased path, and a leaf that does not
     * parse contributes the parser's zero.
     */
    method Callback(attributes: Option<seq<Attr>>, repostReply: Reply<int>, fetchReply: Reply<seq<ResultEntry>>,
                    parse: string -> Option<real>)
      returns (requests: seq<Request>, r: Decoded)
      modifies this
      ensures metricPaths == old(metricPaths) && observableMap == old(observableMap) && registered == old(registered)
      ensures old(queryId) != "" ==> queryId == old(queryId)
      ensures old(queryId) == "" ==> queryId == PostMetricRealTimeQuery(metricPaths, interval, repostReply).id
      ensures old(queryId) == "" && !repostReply.Body? ==>
        requests == [PostMetricRealTimeQuery(metricPaths, interval, repostReply).request] && r == Observed(multiset{})
      ensures old(queryId) != "" || repostReply.Body? ==> (
        var prefix := if old(queryId) == "" then [PostMetricRealTimeQuery(metricPaths, interval, repostReply).request] else [];
        queryId != "" &&
        (attributes.None? ==> requests == prefix && r == Observed(multiset{})) &&
        (attributes.Some? ==> requests == prefix + [Get(QueryResult.QueryResultUrl(queryId))]) &&
        (attributes.Some? && !fetchReply.Body? ==> r == Observed(multiset{})) &&
        (attributes.Some? && fetchReply.Body? ==>
          r == DecodeEntries(fetchReply.decoded, observableMap, Lowered, attributes.value, ObserveAnyway, parse)))
      ensures WellFormedId(old(queryId)) ==> WellFormedId(queryId)
    {
      requests := [];
      if queryId == "" {
        var posted := PostMetricRealTimeQuery(metricPaths, interval, repostReply);
        requests := requests + [posted.request];
        queryId := posted.id;
        if posted.err.Some? {
          return requests, Observed(multiset{});
        }
      }
      if attributes.None? {
        return requests, Observed(multiset{});
      }
      var fetched := QueryResult.GetMetricQueryResult(queryId, fetchReply);
      requests := requests + [fetched.request.value];
      if fetched.result.Failure? {
        return requests, Observed(multiset{});
      }
      r := DecodeResult(fetched.result.value, observableMap, Lowered, attributes.value, ObserveAnyway, parse);
    }
  }

  /**
   * The result fetch is never refused for a missing id: the only ids the
   * callback can hold when it fetches are ones a successful post returned.
   */
  lemma FetchAfterPostHasId(paths: seq<string>, interval: int, postReply: Reply<int>, fetchReply: Reply<seq<ResultEntry>>)
    requires postReply.Body?
    ensures QueryResult.GetMetricQueryResult(PostMetricRealTimeQuery(paths, interval, postReply).id, fetchReply).request.Some?
    ensures QueryResult.GetMetricQueryResult(PostMetricRealTimeQuery(paths, interval, postReply).id, fetchReply).result !=
      Failure(Message("queryId is required"))
  {
  }
}
