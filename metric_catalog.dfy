/**
 * Fetching the metric catalog: the request path selects the fields and,
 * through the filter mode, which availability filters apply. A body that
 * does not decode is not an error here: whatever the decoder filled in is
 * returned.
 */
module UnisphereMetricCatalog {
  import opened Wrappers
  import opened GoStrings
  import opened UnisphereHttp
  import opened MetricPath

  const MetricInstancesPath: string := "/api/types/metric/instances?compact=true"
  const HistoricalFilter: string := "&filter=isHistoricalAvailable%20eq%20true"
  const RealtimeFilter: string := "&filter=isRealtimeAvailable%20eq%20true"

  /** The filters a mode appends, or `None` for an unsupported mode. */
  function FilterFor(mode: string): (f: Option<string>)
    ensures mode == "historical" <==> f == Some(HistoricalFilter)
    ensures mode == "realtime" <==> f == Some(RealtimeFilter)
    ensures mode == "both" <==> f == Some(HistoricalFilter + RealtimeFilter)
    ensures mode == "none" <==> f == Some("")
    ensures f.None? <==> mode !in {"historical", "realtime", "both", "none"}
  {
    match mode
    case "historical" => Some(HistoricalFilter)
    case "realtime" => Some(RealtimeFilter)
    case "both" => Some(HistoricalFilter + RealtimeFilter)
    case "none" => Some("")
    case _ => None
  }

  /** `&fields=` and the comma-joined fields, or nothing for an empty list. */
  function FieldsPart(fields: seq<string>): string {
    if |fields| > 0 then "&fields=" + Join(fields, ",") else ""
  }

  function MetricUrl(fields: seq<string>, filter: string): string {
    MetricInstancesPath + FieldsPart(fields) + filter
  }

  /**
   * The fields part can be read back: it is empty iff there are no fields,
   * and otherwise splitting what follows `&fields=` at the commas gives the
   * fields again, as long as no field holds a comma.
   */
  lemma FieldsPartRecoverable(fields: seq<string>)
    requires forall i :: 0 <= i < |fields| ==> ',' !in fields[i]
    ensures FieldsPart(fields) == "" <==> fields == []
    ensures fields != [] ==> HasPrefix(FieldsPart(fields), "&fields=")
    ensures fields != [] ==> Split(FieldsPart(fields)[|"&fields="|..], ',') == fields
  {
    if fields != [] {
      var part := FieldsPart(fields);
      assert part[|"&fields="|..] == Join(fields, [',']);
      assert part[..|"&fields="|] == "&fields=";
      JoinSplit(fields, ',');
    }
  }

  /** The request made (if any) and the catalog or the error. */
  datatype Fetched = Fetched(request: Option<Request>, result: Result<seq<CatalogEntry>, Error>)

  function GetMetric(fields: seq<string>, filterMode: string, reply: Reply<seq<CatalogEntry>>): (r: Fetched)
    ensures FilterFor(filterMode).None? ==>
      r == Fetched(None, Failure(Message("Unsupported metric filterMode: " + filterMode)))
    ensures FilterFor(filterMode).Some? ==>
      r.request == Some(Get(MetricUrl(fields, FilterFor(filterMode).value))) &&
      (r.result.Failure? <==> reply.TransportError?) &&
      (reply.TransportError? ==> r.result.error == TransportFailed) &&
      (reply.Undecodable? ==> r.result.value == reply.partial) &&
      (reply.Body? ==> r.result.value == reply.decoded)
  {
    match FilterFor(filterMode)
    case None => Fetched(None, Failure(Message("Unsupported metric filterMode: " + filterMode)))
    case Some(filter) =>
      var request := Some(Get(MetricUrl(fields, filter)));
      match reply
      case TransportError => Fetched(request, Failure(TransportFailed))
      case Undecodable(partial) => Fetched(request, Success(partial))
      case Body(data) => Fetched(request, Success(data))
  }

  /** Every request path starts with the instances path, and "both" is "historical" followed by the realtime filter. */
  lemma MetricUrlShape(fields: seq<string>, mode: string)
    requires FilterFor(mode).Some?
    ensures HasPrefix(MetricUrl(fields, FilterFor(mode).value), MetricInstancesPath)
    ensures mode == "both" ==>
      MetricUrl(fields, FilterFor(mode).value) == MetricUrl(fields, FilterFor("historical").value) + RealtimeFilter
    ensures mode == "none" ==> MetricUrl(fields, FilterFor(mode).value) == MetricInstancesPath + FieldsPart(fields)
  {
    var url := MetricUrl(fields, FilterFor(mode).value);
    assert url[..|MetricInstancesPath|] == MetricInstancesPath;
    if mode == "both" {
      assert url == MetricInstancesPath + FieldsPart(fields) + HistoricalFilter + RealtimeFilter;
    }
    if mode == "none" {
      assert MetricInstancesPath + FieldsPart(fields) + "" == MetricInstancesPath + FieldsPart(fields);
    }
  }
}
