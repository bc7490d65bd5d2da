/**
 * The package state of the Unisphere collector: the client list built once
 * from the configuration, each client's host attributes, the registered
 * meter and logger providers, and the lower-cased instrument map its
 * metric providers use.
 */
module UnisphereCollector {
  import opened Wrappers
  import opened GoStrings
  import opened GoStrconv
  import opened MetricPath
  import opened InstrumentMap

  const ServiceName: string := "unisphere_exporter"

  /** The collector's map builder: keys are lower-cased, so keys differing only in case share one entry. */
  method MappingMetricDescriptor(mds: seq<MetricDescriptor>) returns (mdmap: map<string, InstrumentRef>)
    ensures mdmap == MapOf(mds, Lowered)
    ensures mdmap.Keys == set i | 0 <= i < |mds| :: ToLower(mds[i].key)
  {
    mdmap := BuildMap(mds, Lowered);
    MapOfKeys(mds, Lowered);
  }

  /**
   * Two descriptors whose keys agree up to case land under one key, and the
   * later one decides the instrument stored there.
   */
  lemma CaseCollapse(mds: seq<MetricDescriptor>, i: nat, j: nat)
    requires i < j < |mds| && ToLower(mds[i].key) == ToLower(mds[j].key)
    requires forall k :: j < k < |mds| ==> ToLower(mds[k].key) != ToLower(mds[j].key)
    ensures ToLower(mds[j].key) in MapOf(mds, Lowered)
    ensures MapOf(mds, Lowered)[ToLower(mds[j].key)] == InstrumentFor(mds[j])
  {
    var key := ToLower(mds[j].key);
    MapOfKeys(mds, Lowered);
    assert KeyFor(mds[j].key, Lowered) == key;
    MapOfLastWins(mds, Lowered, key);
    var w :| 0 <= w < |mds| && KeyFor(mds[w].key, Lowered) == key &&
      MapOf(mds, Lowered)[key] == InstrumentFor(mds[w]) &&
      forall k :: w < k < |mds| ==> KeyFor(mds[k].key, Lowered) != key;
    assert w == j;
  }

  // ------------------------------------------------------- host attributes

  /** One entry of the system listing: the name and serial number asked for. */
  datatype SystemEntry = SystemEntry(name: string, serialNumber: string)

  /** The custom labels, then `host.name` and `instance` for each system entry in order. */
  function HostAttributes(custom: seq<Attr>, entries: seq<SystemEntry>): seq<Attr>
    decreases |entries|
  {
    if entries == [] then custom
    else
      var last := entries[|entries| - 1];
      HostAttributes(custom, entries[..|entries| - 1]) + [Attr("host.name", last.name), Attr("instance", last.serialNumber)]
  }

  lemma {:induction false} HostAttributesShape(custom: seq<Attr>, entries: seq<SystemEntry>)
    ensures |HostAttributes(custom, entries)| == |custom| + 2 * |entries|
    ensures HostAttributes(custom, entries)[..|custom|] == custom
    ensures forall i :: 0 <= i < |entries| ==>
      HostAttributes(custom, entries)[|custom| + 2 * i] == Attr("host.name", entries[i].name) &&
      HostAttributes(custom, entries)[|custom| + 2 * i + 1] == Attr("instance", entries[i].serialNumber)
    decreases |entries|
  {
    if entries != [] {
      var init := entries[..|entries| - 1];
      HostAttributesShape(custom, init);
      forall i | 0 <= i < |init| ensures init[i] == entries[i] {
      }
    }
  }

  /** A client label slice is nil exactly when it is empty: it is built by appending. */
  function Slice(attrs: seq<Attr>): Option<seq<Attr>> {
    if attrs == [] then None else Some(attrs)
  }

  class ClientResource {
    const endpoint: string
    /** The configured labels as attributes, `[]` when there are none (nil). */
    const customLabel: seq<Attr>
    /** The attributes observations carry; `None` (nil) until known. */
    var attributes: Option<seq<Attr>>

    constructor (endpoint: string, customLabel: seq<Attr>)
      ensures this.endpoint == endpoint && this.customLabel == customLabel && attributes == None
    {
      this.endpoint := endpoint;
      this.customLabel := customLabel;
      attributes := None;
    }

    /**
     * Refresh the attributes from the system listing (`None` when the
     * fetch failed, which is returned as the error and changes nothing).
     */
    method UpdateClientAttributes(system: Option<seq<SystemEntry>>) returns (failed: bool)
      modifies this
      ensures failed <==> system.None?
      ensures system.None? ==> attributes == old(attributes)
      ensures system.Some? ==> attributes == Slice(HostAttributes(customLabel, system.value))
    {
      if system.None? {
        return true;
      }
      var entries := system.value;
      var tmpAttrs := customLabel;
      for i := 0 to |entries|
        invariant tmpAttrs == HostAttributes(customLabel, entries[..i])
      {
        assert entries[..i + 1][..i] == entries[..i];
        tmpAttrs := tmpAttrs + [Attr("host.name", entries[i].name)];
        tmpAttrs := tmpAttrs + [Attr("instance", entries[i].serialNumber)];
      }
      assert entries[..|entries|] == entries;
      attributes := Slice(tmpAttrs);
      failed := false;
    }
  }

  /** After a successful refresh the attributes are nil only when there is nothing to report. */
  lemma AttributesNilOnlyWhenEmpty(custom: seq<Attr>, entries: seq<SystemEntry>)
    ensures Slice(HostAttributes(custom, entries)).None? <==> custom == [] && entries == []
  {
    HostAttributesShape(custom, entries);
  }

  // ------------------------------------------------------------ client list

  /** One target of the configuration file. */
  datatype ClientConfig = ClientConfig(endpoint: string, auth: string, insecure: string, labels: map<string, string>)

  /** The parts of the configuration the client list is built from. */
  datatype CollectorConfig = CollectorConfig(clients: seq<ClientConfig>, metricsEnabled: bool, logsEnabled: bool)

  function AttrKeys(attrs: seq<Attr>): set<string> {
    set i | 0 <= i < |attrs| :: attrs[i].key
  }

  /** `attrs` lists the label map's pairs once each, in some order. */
  predicate ListsLabels(attrs: seq<Attr>, labels: map<string, string>) {
    AttrKeys(attrs) == labels.Keys &&
    (forall i :: 0 <= i < |attrs| ==> attrs[i].key in labels && labels[attrs[i].key] == attrs[i].value) &&
    (forall i, j :: 0 <= i < j < |attrs| ==> attrs[i].key != attrs[j].key)
  }

  /** The label map as attributes, in Go's unspecified map order. */
  method LabelAttrs(labels: map<string, string>) returns (attrs: seq<Attr>)
    ensures ListsLabels(attrs, labels)
  {
    attrs := [];
    var remaining := labels.Keys;
    while remaining != {}
      invariant remaining <= labels.Keys
      invariant AttrKeys(attrs) == labels.Keys - remaining
      invariant forall i :: 0 <= i < |attrs| ==> attrs[i].key in labels && labels[attrs[i].key] == attrs[i].value
      invariant forall i, j :: 0 <= i < j < |attrs| ==> attrs[i].key != attrs[j].key
      decreases remaining
    {
      var k :| k in remaining;
      assert k !in AttrKeys(attrs);
      assert AttrKeys(attrs + [Attr(k, labels[k])]) == AttrKeys(attrs) + {k} by {
        var next := attrs + [Attr(k, labels[k])];
        forall x | x in AttrKeys(next) ensures x in AttrKeys(attrs) + {k} {
          var i :| 0 <= i < |next| && next[i].key == x;
          if i < |attrs| {
            assert next[i] == attrs[i];
          }
        }
        forall x | x in AttrKeys(attrs) ensures x in AttrKeys(next) {
          var i :| 0 <= i < |attrs| && attrs[i].key == x;
          assert next[i] == attrs[i];
        }
        assert next[|attrs|].key == k;
      }
      attrs := attrs + [Attr(k, labels[k])];
      remaining := remaining - {k};
    }
  }

  /** A registered provider: the client it serves and its module name. */
  datatype ProviderHandle = ProviderHandle(endpoint: string, moduleName: string)

  /** The client for one configuration entry, as the list holds it. */
  predicate Describes(c: ClientResource, cl: ClientConfig)
    reads c
  {
    c.endpoint == cl.endpoint && ListsLabels(c.customLabel, cl.labels) && c.attributes == None
  }

  class Collector {
    var clientList: seq<ClientResource>
    var meterProviders: seq<ProviderHandle>
    var loggerProviders: seq<ProviderHandle>
    /** Whether the metric and log exporters exist; `false` is nil. */
    var meterExporter: bool
    var logExporter: bool
    var loadedConfig: bool

    constructor ()
      ensures clientList == [] && meterProviders == [] && loggerProviders == []
      ensures !meterExporter && !logExporter && !loadedConfig
    {
      clientList := [];
      meterProviders := [];
      loggerProviders := [];
      meterExporter := false;
      logExporter := false;
      loadedConfig := false;
    }

    /** Append a provider unless it is nil. */
    method RegistMeterProvider(provider: Option<ProviderHandle>)
      modifies this`meterProviders
      ensures meterProviders == old(meterProviders) + (if provider.Some? then [provider.value] else [])
      ensures loggerProviders == old(loggerProviders) && clientList == old(clientList)
      ensures meterExporter == old(meterExporter) && logExporter == old(logExporter)
      ensures loadedConfig == old(loadedConfig)
    {
      if provider.Some? {
        meterProviders := meterProviders + [provider.value];
      }
    }

    method RegistLoggerProvider(provider: Option<ProviderHandle>)
      modifies this`loggerProviders
      ensures loggerProviders == old(loggerProviders) + (if provider.Some? then [provider.value] else [])
      ensures meterProviders == old(meterProviders) && clientList == old(clientList)
      ensures meterExporter == old(meterExporter) && logExporter == old(logExporter)
      ensures loadedConfig == old(loadedConfig)
    {
      if provider.Some? {
        loggerProviders := loggerProviders + [provider.value];
      }
    }

    /**
     * Build the client list once. Each target appends one client; an
     * insecure flag that does not parse ends the call there, with the
     * targets before it already appended and the guard still down, so a
     * later call starts over and appends them again. The exporters are
     * created only for enabled sections; a failed creation leaves nil.
     */
    method InitClientList(cfg: CollectorConfig, meterExporterCreated: bool, logExporterCreated: bool)
      returns (appended: nat)
      modifies this
      ensures old(loadedConfig) ==> (appended == 0 && clientList == old(clientList) && loadedConfig &&
        meterExporter == old(meterExporter) && logExporter == old(logExporter))
      ensures !old(loadedConfig) ==> appended <= |cfg.clients|
      ensures loadedConfig <==> old(loadedConfig) || forall i :: 0 <= i < |cfg.clients| ==> ParseBool(cfg.clients[i].insecure).Some?
      ensures !old(loadedConfig) && loadedConfig ==> (appended == |cfg.clients| &&
        meterExporter == (if cfg.metricsEnabled then meterExporterCreated else old(meterExporter)) &&
        logExporter == (if cfg.logsEnabled then logExporterCreated else old(logExporter)))
      ensures !loadedConfig ==> (appended < |cfg.clients| && ParseBool(cfg.clients[appended].insecure).None? &&
        forall i :: 0 <= i < appended ==> ParseBool(cfg.clients[i].insecure).Some?)
      ensures !loadedConfig ==> meterExporter == old(meterExporter) && logExporter == old(logExporter)
      ensures |clientList| == |old(clientList)| + appended && clientList[..|old(clientList)|] == old(clientList)
      ensures forall i :: |old(clientList)| <= i < |clientList| ==> fresh(clientList[i])
      ensures forall i :: |old(clientList)| <= i < |clientList| ==> Describes(clientList[i], cfg.clients[i - |old(clientList)|])
      ensures meterProviders == old(meterProviders) && loggerProviders == old(loggerProviders)
    {
      appended := 0;
      if loadedConfig {
        return;
      }
      ghost var before := clientList;
      while appended < |cfg.clients|
        invariant appended <= |cfg.clients|
        invariant forall i :: 0 <= i < appended ==> ParseBool(cfg.clients[i].insecure).Some?
        invariant |clientList| == |before| + appended && clientList[..|before|] == before
        invariant forall i :: |before| <= i < |clientList| ==> fresh(clientList[i])
        invariant forall i :: |before| <= i < |clientList| ==> Describes(clientList[i], cfg.clients[i - |before|])
        invariant meterExporter == old(meterExporter) && logExporter == old(logExporter) && !loadedConfig
        invariant meterProviders == old(meterProviders) && loggerProviders == old(loggerProviders)
      {
        var cl := cfg.clients[appended];
        var attrs := LabelAttrs(cl.labels);
        if ParseBool(cl.insecure).None? {
          return;
        }
        var c := new ClientResource(cl.endpoint, attrs);
        clientList := clientList + [c];
        appended := appended + 1;
      }
      if cfg.metricsEnabled {
        meterExporter := meterExporterCreated;
      }
      if cfg.logsEnabled {
        logExporter := logExporterCreated;
      }
      loadedConfig := true;
    }
  }
}
