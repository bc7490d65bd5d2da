# ari-agent exporters: a verified model of the core

ari-agent ships two OpenTelemetry exporters for storage arrays. The Unisphere
exporter (with its own provider registry and a second "collector" package)
reads Dell Unisphere arrays. The Spectrum exporter reads IBM Spectrum
Virtualize systems. This project models, in Dafny, the parts of those
programs that decide what is collected and how it is named, and it proves
what those parts promise.

- **The real-time metric pipeline** (`MetricPath`, `InstrumentMap`,
  `UnisphereMetricProvider`, `CollectorMetric`). It has five steps:
  - catalog entries are matched against the configured path patterns (a
    trailing `%` means substring);
  - each catalog type code is classified as counter, gauge or skipped;
  - the instrument name `unisphere_…` is synthesised from the path;
  - label names are derived from the `*` segments;
  - nested query results up to depth 3 are decoded into labelled
    observations.

  Each of the two realisations is a class with its own differences: the 48-path
  limit (fatal in one, only reported in the other), the map key (raw path or
  lower-cased path), the parse-failure policy (skip or observe anyway) and
  the query-id life cycle.
- **The Unisphere REST helpers** the pipeline calls (`UnisphereMetricCatalog`,
  `UnisphereRealTimeQuery`, `UnisphereQueryResult`). A request is a value the
  helper produces, and the reply is a parameter.
- **The collector registry** (`UnisphereCollector`): the lower-cased
  instrument map, the host attributes of a client, the provider lists, and
  the once-only client list initialisation.
- **The event loops** (`UnisphereEvents`, `UnisphereEventProvider`,
  `CollectorEventLog`, `SpectrumEventProvider`, `OtelLog`). Each loop is
  modelled as one iteration: the level filter, the severity names, the
  record shape and the cursor.
- **The small mappings**: FlashCopy status codes (`SpectrumFcMap`), health
  names (`UnisphereHealth`), byte-unit conversion (`Convert`), and the
  provider enabled flags (`ProviderFlags`).
- **Configuration defaulting** (`ConfigDefaults`, with the three
  configurations `ConfigUnisphere`, `ConfigSpectrum` and
  `SpectrumExporterConfig`):
  - empty client, server and provider settings are filled from the global
    block;
  - credentials are looked up by name and rendered in base64 (`Base64`,
    RFC 4648 section 4);
  - the exporter getters return the endpoint, mode and insecure flag;
  - files are loaded and the Spectrum exporter's initialisation runs.

Go library behaviour the core relies on is modelled in `GoStrings`
(`ToLower` on ASCII, `Contains`, non-overlapping `Replace`, `Split`, `Join`)
and `GoStrconv` (`Itoa`, `Atoi`, `ParseBool`, `FormatBool`). Go panics are
explicit outcomes, nil pointers and nil maps are `Option`s (the defaulting
pass is stated with the label step corrected, beside the pass as written;
see "## Findings"), and map
iteration is a pick loop (or a set or multiset of results), because Go
leaves the order unspecified. `strconv.ParseFloat`, `time.ParseDuration`
and `time.Parse` are function parameters.

## Model

| member | source | states |
|---|---|---|
| MetricPath.MatchesMeaning | cmd/unisphere_exporter/provider_metric.go:96-104 | a pattern ending in `%` matches exactly the paths that contain the pattern with every `%` removed (and the remainder has no `%`); any other pattern matches only an identical path |
| MetricPath.PercentMatchesAll | cmd/unisphere_exporter/provider_metric.go:96-100 | the pattern `%` matches every path |
| MetricPath.Classify | cmd/unisphere_exporter/provider_metric.go:106-123 | codes 2, 3, 7, 8 are counters, 4 and 5 gauges, 6 is skipped, and every other code gives the empty type name (each an if-and-only-if) |
| MetricPath.InstrumentNameShape | cmd/unisphere_exporter/provider_metric.go:124-129 | every instrument name starts with `unisphere_` and contains no `.` |
| MetricPath.NameOfWildcardPath | cmd/unisphere_exporter/provider_metric.go:124-129 | replacement is left to right and never overlaps: `a.*.*.b` is named `unisphere_a_*_b` |
| MetricPath.Synthesize | cmd/unisphere_exporter/provider_metric.go:126-133 | the descriptor keeps the path as key and the description verbatim, lower-cases the unit and carries the synthesised name and the type name |
| MetricPath.KeysOf | cmd/unisphere_exporter/provider_metric.go:126-127 | the path list runs in lockstep with the descriptor list: the i-th path is the i-th descriptor's key |
| MetricPath.EntryMultiplicity | cmd/unisphere_exporter/provider_metric.go:95-135 | a skipped entry contributes nothing; a typed entry contributes one identical descriptor per matching pattern (no de-duplication) |
| MetricPath.SelectedAppend | cmd/unisphere_exporter/provider_metric.go:93-135 | the selection of a concatenated catalog is the concatenation of the selections, so the output follows catalog order |
| MetricPath.EntryDescriptorsSound | cmd/unisphere_exporter/provider_metric.go:95-135 | every descriptor an entry yields is the synthesised descriptor of a typed entry that some pattern matches |
| MetricPath.EntryDescriptorsComplete | cmd/unisphere_exporter/provider_metric.go:95-135 | an entry that a pattern matches and whose type is numeric yields its descriptor |
| MetricPath.SelectedSound | cmd/unisphere_exporter/provider_metric.go:93-135 | every selected descriptor comes from a catalog entry that a pattern matches and whose type is numeric |
| MetricPath.SelectedComplete | cmd/unisphere_exporter/provider_metric.go:93-135 | every catalog entry that a pattern matches and whose type is numeric is selected |
| MetricPath.SelectForEntry | cmd/unisphere_exporter/provider_metric.go:95-135 | the inner loop over patterns panics exactly when some pattern is empty (its last character is indexed), and otherwise appends the entry's descriptors with the paths kept in lockstep |
| MetricPath.SelectMetrics | cmd/unisphere_exporter/provider_metric.go:93-135 | the nested loops panic exactly when the catalog is non-empty and a pattern is empty; otherwise they return the selection and its key list |
| MetricPath.LabelNamesAtStars | cmd/unisphere_exporter/provider_metric.go:189-197 | exactly one label name per `*` segment, in left-to-right order, each being the segment before the star (`""` for a leading star) |
| MetricPath.DeriveLabelNames | cmd/unisphere_exporter/provider_metric.go:189-197 | the loop carrying the previous segment computes the label names of the path |
| MetricPath.LeafValue | cmd/unisphere_exporter/provider_metric.go:201-208 | a leaf that parses gives its value; one that does not is dropped under the skip policy and observed under the other; the same code at cmd/unisphere_exporter/collector/metric.go:195-201 |
| MetricPath.EmittedLeavesAt | cmd/unisphere_exporter/provider_metric.go:199-236 | a key path is emitted exactly when it has 1 to 3 keys and leads to a leaf whose value is kept; map nodes at level 3 emit nothing |
| MetricPath.DimensionAttrs | cmd/unisphere_exporter/provider_metric.go:206-228 | the i-th dimension attribute pairs the i-th label name with the key at level i |
| MetricPath.DecodeTree | cmd/unisphere_exporter/provider_metric.go:199-236 | every observation of a tree carries the entry's instrument and the client attributes followed by 1 to 3 dimension attributes named by the label names |
| MetricPath.DecodeTreeMeaning | cmd/unisphere_exporter/provider_metric.go:199-236 | a tree yields an observation with the keys of a path exactly when that path of 1 to 3 keys leads to a kept leaf |
| MetricPath.DecodePanicsMeaning | cmd/unisphere_exporter/provider_metric.go:199-236 | decoding a map tree panics exactly when some emitted key path is deeper than the number of label names (`labels[i]` out of range) |
| MetricPath.KeyFor | cmd/unisphere_exporter/collector/metric.go:201-221 | the collector looks instruments up under the lower-cased path, the exporter's own provider under the raw path |
| MetricPath.Lookup | cmd/unisphere_exporter/provider_metric.go:207 | a path missing from the instrument map reads the nil instrument |
| MetricPath.DecodeResult | cmd/unisphere_exporter/provider_metric.go:186-238 | the loop over result entries computes the collected observations, or the panic of the first entry that panics |
| MetricPath.PanicPersists | cmd/unisphere_exporter/provider_metric.go:186-238 | once an entry panics, the whole callback panics whatever follows |
| InstrumentMap.InstrumentFor | utils/provider/provider.go:23-36 | "counter" gives an observable counter and "gauge" an observable gauge with the descriptor's name, description and unit; any other type name stores nil |
| InstrumentMap.MapOfKeys | utils/provider/provider.go:19-38 | the map's key set is exactly the set of (possibly lower-cased) descriptor keys |
| InstrumentMap.MapOfLastWins | utils/provider/provider.go:21-36 | the entry under a key is the instrument of the last descriptor with that key |
| InstrumentMap.MapOfSize | utils/provider/provider.go:19-38 | the map has at most as many entries as there are descriptors |
| InstrumentMap.KeysVerbatim | utils/provider/provider.go:36 | keys are stored verbatim: a key is in the map exactly when some descriptor has it |
| InstrumentMap.BuildMap | utils/provider/provider.go:19-38 | the insertion loop builds the specified map |
| InstrumentMap.CreateMapMetricDescriptor | utils/provider/provider.go:18-40 | the map is keyed by the raw keys, with exactly the descriptors' keys |
| UnisphereMetricProvider.SectionFor | cmd/unisphere_exporter/provider_metric.go:29-37 | each module name reads its own section; any other name reads nil |
| UnisphereMetricProvider.NewProvider | cmd/unisphere_exporter/provider_metric.go:28-62 | for a metric module a nil providers block panics (an if-and-only-if; any other module name reads no section); a provider exists exactly when the block and the section exist, the section has a path list, is enabled (off by default) and a metric exporter exists; it keeps the module name, the paths and the parsed interval |
| UnisphereMetricProvider.CreatedOnlyWhenSwitchedOn | cmd/unisphere_exporter/provider_metric.go:24-26 | since the default is off, a created provider had its flag spelled as true |
| UnisphereMetricProvider.QueryNumber | cmd/unisphere_exporter/provider_metric.go:178 | the id handed to the result fetch is the stored id read back as a number, or 0 when it does not parse |
| UnisphereMetricProvider.QueryNumberItoa | cmd/unisphere_exporter/provider_metric.go:159-178 | the stored decimal id reads back as the created query's id |
| UnisphereMetricProvider.MetricProvider.constructor | cmd/unisphere_exporter/provider_metric.go:54-61 | a new provider has no query id, no callback, and the settings it was built from |
| UnisphereMetricProvider.MetricProvider.Run | cmd/unisphere_exporter/provider_metric.go:74-160 | a catalog error, an empty pattern, more than 48 distinct instruments, and a nil post result each end the run (one if-and-only-if per outcome); the query is posted with the selected paths only within the limit; on registration the id is the decimal of the created id and the map is keyed by raw path; otherwise no state changes; registration keeps the id readable |
| UnisphereMetricProvider.Prepare | cmd/unisphere_exporter/provider_metric.go:83-152 | the catalog step of a run: a failed fetch, an empty pattern and more than 48 distinct instruments are told apart exactly; a ready run carries every selected path in catalog order and the instrument map keyed by raw path |
| UnisphereMetricProvider.MetricProvider.Callback | cmd/unisphere_exporter/provider_metric.go:162-240 | an empty id re-posts without keeping the new id; nil host labels are an error; a failed fetch observes nothing; otherwise the observations are the decoded entries under the skip policy; a registered provider fetches only its own query |
| CollectorMetric.SectionFor | cmd/unisphere_exporter/collector/metric.go:39-50 | each module name reads its own section; any other name leaves it nil |
| CollectorMetric.NewMetricRealTimeQueryProvider | cmd/unisphere_exporter/collector/metric.go:36-73 | no exporter gives nil; a nil section then panics; a provider exists exactly when the section is enabled, has paths and its interval parses, and it keeps the parsed interval and the paths |
| CollectorMetric.CatalogOf | client/unisphere/metric.go:53-61 | a body that did not decode still yields what the decoder filled in |
| CollectorMetric.MetricRealTimeQueryProvider.RunMeter | cmd/unisphere_exporter/collector/metric.go:75-156 | the realtime catalog is always requested first; a transport error and an empty pattern end the run; otherwise more than 48 paths is only reported while the query is still posted with every path, the returned id is kept, and the map is keyed by lower-cased path |
| CollectorMetric.Prepare | cmd/unisphere_exporter/collector/metric.go:84-136 | the realtime catalog request is always built; a transport error and an empty pattern are told apart exactly; a ready selection holds the descriptors the loops select and their paths |
| CollectorMetric.MetricRealTimeQueryProvider.Register | cmd/unisphere_exporter/collector/metric.go:138-158 | the map is keyed by lower-cased path, the query is posted with every selected path, the returned id is kept whatever the post gave, and the stored id stays readable |
| CollectorMetric.MetricRealTimeQueryProvider.Callback | cmd/unisphere_exporter/collector/metric.go:158-231 | a non-empty id is never changed; an empty id is re-posted and the new id kept, and a failed re-post ends the cycle; a fetch only happens with a non-empty id; nil attributes and a failed fetch observe nothing; otherwise the entries are decoded with lower-cased lookup, observing unparsable leaves |
| CollectorMetric.FetchAfterPostHasId | cmd/unisphere_exporter/collector/metric.go:159-174 | an id returned by a successful post is never refused by the result fetch |
| UnisphereRealTimeQuery.IntervalSeconds | client/unisphere/metricRealTimeQuery.go:24 | the interval is truncated toward zero to whole seconds |
| UnisphereRealTimeQuery.RequestBody | client/unisphere/metricRealTimeQuery.go:19-24 | the body carries the paths unchanged and the interval in whole seconds |
| UnisphereRealTimeQuery.PostMetricRealTimeQuery | client/unisphere/metricRealTimeQuery.go:17-43 | the request always targets the real-time query path; any failure gives `""` with the error; success gives a non-empty decimal that reads back as the created id |
| UnisphereQueryResult.GetMetricQueryResult | client/unisphere/metricQueryResult.go:21-39 | an empty id is refused before any request; otherwise the id goes into the filter of the request path, a transport or decode error is returned, and a body is returned decoded |
| UnisphereQueryResult.QueryResultUrlNamesQuery | client/unisphere/metricQueryResult.go:22-26 | every result path starts with the filtered query-result path, and different ids give different paths |
| UnisphereMetricCatalog.FilterFor | client/unisphere/metric.go:38-49 | "historical" and "realtime" give one filter each, "both" the historical then the realtime one, "none" none, and any other mode is refused |
| UnisphereMetricCatalog.FieldsPartRecoverable | client/unisphere/metric.go:35-37 | an empty field list adds nothing; otherwise `&fields=` is followed by the comma-joined fields, which split back into the list |
| UnisphereMetricCatalog.GetMetric | client/unisphere/metric.go:33-62 | an unsupported mode fails before any request; otherwise only a transport error fails, and a body that does not decode still yields the partial data |
| UnisphereMetricCatalog.MetricUrlShape | client/unisphere/metric.go:34-47 | every catalog path starts with the metric-instances path; "both" is "historical" plus the realtime filter; "none" adds only the fields |
| UnisphereHttp.ReplyError | client/unisphere/metricQueryResult.go:27-38 | a transport failure and a decode failure are reported as distinct errors |
| UnisphereCollector.MappingMetricDescriptor | cmd/unisphere_exporter/collector/collector.go:139-161 | the collector's map is keyed by the lower-cased keys, and its key set is exactly those |
| UnisphereCollector.CaseCollapse | cmd/unisphere_exporter/collector/collector.go:142-158 | two keys that differ only in case share one entry, and the later descriptor's instrument wins |
| UnisphereCollector.HostAttributesShape | cmd/unisphere_exporter/collector/collector.go:112-121 | the attributes are the custom labels followed by host.name and instance per system entry, so there are \|custom\| + 2·\|entries\| of them |
| UnisphereCollector.AttributesNilOnlyWhenEmpty | cmd/unisphere_exporter/collector/collector.go:112-121 | the stored attributes are nil exactly when there are neither custom labels nor system entries |
| UnisphereCollector.ClientResource.constructor | cmd/unisphere_exporter/collector/collector.go:55-59 | a client resource keeps its endpoint and custom labels and has no attributes yet |
| UnisphereCollector.ClientResource.UpdateClientAttributes | cmd/unisphere_exporter/collector/collector.go:102-124 | a fetch error is returned and leaves the attributes unchanged; otherwise the attributes are the custom labels followed by the host pairs |
| UnisphereCollector.LabelAttrs | cmd/unisphere_exporter/collector/collector.go:43-46 | the label loop yields exactly one attribute per label, with its value and no key twice |
| UnisphereCollector.Collector.constructor | cmd/unisphere_exporter/collector/collector.go:24-31 | the registry starts with no clients, no providers, no exporters and no configuration loaded |
| UnisphereCollector.Collector.RegistMeterProvider | cmd/unisphere_exporter/collector/collector.go:126-130 | a non-nil provider is appended in order, a nil one is dropped, and nothing else changes |
| UnisphereCollector.Collector.RegistLoggerProvider | cmd/unisphere_exporter/collector/collector.go:132-136 | a non-nil provider is appended in order, a nil one is dropped, and nothing else changes |
| UnisphereCollector.Collector.InitClientList | cmd/unisphere_exporter/collector/collector.go:33-80 | nothing happens once the configuration is loaded; otherwise the first insecure flag that does not parse stops the loop with loading not done and the exporters untouched; the clients appended before it are fresh and describe the configured targets in order; the exporters are set only for enabled servers and only when loading completes |
| UnisphereEvents.SeverityName | cmd/unisphere_exporter/provider_event.go:85-105 | severities 0 to 8 are named EMERGENCY, ALERT, CRITICAL, ERROR, WARNING, NOTICE, INFO, DEBUG and OK, and every other severity has the empty name; the same code at cmd/unisphere_exporter/collector/event.go:91-111 |
| UnisphereEvents.SeverityNamesDistinct | cmd/unisphere_exporter/provider_event.go:85-105 | the nine names are pairwise distinct |
| UnisphereEvents.KeptRecordsAppend | cmd/unisphere_exporter/provider_event.go:78-117 | the records of two batches are the records of each, in order |
| UnisphereEvents.KeptRecordsExact | cmd/unisphere_exporter/provider_event.go:82-115 | a record is emitted exactly when it is the record of an entry whose severity number is numerically at least the level (0 is EMERGENCY, so a level of 5 drops EMERGENCY through WARNING) |
| UnisphereEvents.EmitBatch | cmd/unisphere_exporter/collector/event.go:84-122 | the loop emits the kept records of the batch, one per kept entry, never more than the entries |
| UnisphereEvents.EventLoop.constructor | cmd/unisphere_exporter/provider_event.go:53 | the first cursor is one hour before the start |
| UnisphereEvents.EventLoop.Iterate | cmd/unisphere_exporter/provider_event.go:57-122 | one pass asks for events since the cursor; after a batch the cursor becomes the batch's update time and the kept records are emitted; after a fetch error or nil data nothing is emitted and the cursor stays; the same code at cmd/unisphere_exporter/collector/event.go:64-128 |
| UnisphereEventProvider.NewProvider | cmd/unisphere_exporter/provider_event.go:21-40 | a nil providers block or nil event section panics, before the exporter is looked at (an if-and-only-if); otherwise no provider exactly when the flag reads as disabled or there is no log exporter; a provider keeps the level and the parsed interval |
| UnisphereEventProvider.EnabledByDefault | cmd/unisphere_exporter/provider_event.go:17-19 | an empty flag enables the event provider |
| CollectorEventLog.NewEventLogProvider | cmd/unisphere_exporter/collector/event.go:31-55 | a nil event section panics whatever else holds (an if-and-only-if); otherwise no provider exactly when the section is disabled, there is no log exporter, or the interval does not parse; otherwise the settings hold the parsed interval and the level |
| SpectrumEventProvider.NewProvider | cmd/spectrum_exporter/provider_event.go:22-40 | no provider exactly when the flag reads as disabled or there is no log exporter; the level is never set |
| SpectrumEventProvider.LevelOf | cmd/spectrum_exporter/provider_event.go:74-82 | the level is ALERT exactly when the event has an error code and INFO exactly when it has none |
| SpectrumEventProvider.BatchRecords | cmd/spectrum_exporter/provider_event.go:67-92 | every event of a batch yields exactly one record, in order |
| SpectrumEventProvider.RecordShape | cmd/spectrum_exporter/provider_event.go:68-89 | a record has five attributes starting with the level, the description as body, and no event timestamp |
| SpectrumEventProvider.EmitEvents | cmd/spectrum_exporter/provider_event.go:67-92 | the loop emits the batch's records |
| SpectrumEventProvider.EventLoop.Iterate | cmd/spectrum_exporter/provider_event.go:57-95 | a nil batch emits nothing and keeps the cursor; a batch emits its records and moves the cursor to the current time |
| SpectrumFcMap.StatusValue | client/spectrum/api_lsfcmap.go:57-76 | the seven named statuses get 0 to 6 and every other string -1 (each an if-and-only-if) |
| SpectrumFcMap.StatusValuesDistinct | client/spectrum/api_lsfcmap.go:57-76 | named statuses get pairwise distinct codes within -1 to 6 |
| SpectrumFcMap.StringValue | client/spectrum/api_lsfcmap.go:80-86 | a number that parses is returned, anything else gives -999 |
| SpectrumFcMap.Client.PostLsFcMap | client/spectrum/api_lsfcmap.go:30-43 | a transport error clears the authentication flag and returns nil; a nil body returns nil; otherwise the mappings are returned and the flag kept |
| UnisphereHealth.HealthString | client/unisphere/type_enum.go:16-37 | each named code has its name; every other value reads Unknown; the result is never empty |
| UnisphereHealth.KnownNamesDistinct | client/unisphere/type_enum.go:16-36 | the seven non-zero named codes have pairwise distinct names, none of them Unknown |
| Convert.BytesConvert | utils/convert/convert.go:15-26 | the loop divides by 1024 once per step up and multiplies once per step down, and leaves the value unchanged for equal units |
| Convert.ConvertRoundTrip | utils/convert/convert.go:15-26 | over the reals, converting a→b and then b→a returns the original value |
| Convert.OneUnitStep | utils/convert/convert.go:15-26 | one unit up divides by exactly 1024 and one unit down multiplies by exactly 1024 |
| Convert.ConvertUpCompose | utils/convert/convert.go:15-26 | converting up in two steps (say bytes to kilobytes to megabytes) gives the same value as converting up once |
| Convert.InterfaceToFloat64 | utils/convert/convert.go:28-44 | the five numeric kinds give their value with no error; any other kind gives 0 and an error |
| ProviderFlags.EnabledFlag | config/cfgUnisphere/cfg_metric.go:14-20 | an empty flag gives the default, a true spelling gives true, and anything else (a false spelling or an unparsable word) gives false |
| ProviderFlags.IntervalOf | config/cfgUnisphere/cfg_metric.go:22-25 | an interval that does not parse is zero |
| ProviderFlags.UnisphereProviderMetric.GetEnabled | config/cfgUnisphere/cfg_metric.go:14-20 | the default only for an empty flag; otherwise true exactly for a true spelling |
| ProviderFlags.UnisphereProviderMetric.GetInterval | config/cfgUnisphere/cfg_metric.go:22-25 | the parsed interval, or zero |
| ProviderFlags.UnisphereProviderEvent.GetEnabled | config/cfgUnisphere/cfg_event.go:14-20 | the default only for an empty flag; otherwise true exactly for a true spelling |
| ProviderFlags.UnisphereProviderEvent.GetInterval | config/cfgUnisphere/cfg_event.go:22-25 | the parsed interval, or zero |
| ProviderFlags.SpectrumProviderLsSystem.GetEnabled | config/cfgSpectrum/cfg_lssystem.go:13-19 | the default only for an empty flag; otherwise true exactly for a true spelling |
| ProviderFlags.SpectrumProviderLsSystem.GetInterval | config/cfgSpectrum/cfg_lssystem.go:21-24 | the parsed interval, or zero |
| ProviderFlags.DefaultOnlyForEmpty | config/cfgUnisphere/cfg_metric.go:15-19 | a non-empty flag reads the same whatever the default; a false spelling and an unparsable word are both false |
| GoStrconv.ParseBool | config/cfgUnisphere/cfg_metric.go:18 | exactly the six true spellings give true and exactly the six false spellings give false; every other word is an error |
| GoStrconv.FormatBool | config/cfgUnisphere/config_unisphere.go:97 | a formatted flag parses back to the same value |
| GoStrconv.AtoiItoa | client/unisphere/metricRealTimeQuery.go:42 | the decimal rendering of an id reads back as the id |
| GoStrings.ContainsAt | cmd/unisphere_exporter/provider_metric.go:99 | containment means an occurrence at some position, in both directions |
| GoStrings.ToLowerIdempotent | cmd/unisphere_exporter/collector/collector.go:157 | lower-casing twice is lower-casing once |
| GoStrings.SplitJoin | cmd/unisphere_exporter/provider_metric.go:192 | splitting on `.` and joining the pieces gives the path back |
| GoStrings.JoinSplit | client/unisphere/metric.go:36 | joining comma-free fields with `,` and splitting again gives the fields back |
| Base64.Encode | config/cfgUnisphere/config_unisphere.go:150 | the encoding of n octets has 4·⌈n/3⌉ characters (padded, RFC 4648 section 4) |
| Base64.EncodeEmpty | config/cfgUnisphere/config_unisphere.go:150 | only the empty input encodes to the empty string |
| Base64.DecodeEncode | config/cfgUnisphere/config_unisphere.go:150 | decoding an encoding gives the octets back |
| ConfigDefaults.Default | config/cfgUnisphere/config_unisphere.go:93-98 | an empty setting takes the global value, a non-empty one is kept |
| ConfigDefaults.FillLabels | config/cfgUnisphere/config_unisphere.go:99-103 | for each global key the client value is kept when non-empty and replaced by the global value otherwise; other client labels are untouched; the keys are the union |
| ConfigDefaults.ApplyLabels | config/cfgUnisphere/config_unisphere.go:99-103 | the loop over the global labels, in any order, computes the filled labels |
| ConfigDefaults.FillLabelsIdempotent | config/cfgUnisphere/config_unisphere.go:99-103 | applying the global labels twice changes nothing more |
| ConfigDefaults.FillClientAsWritten | config/cfgUnisphere/config_unisphere.go:89-104 | the client step as written panics exactly when the target's label map is nil and the global block has labels; otherwise it agrees with the corrected step |
| ConfigDefaults.NilLabelsPanic | config/cfgUnisphere/config_unisphere.go:99-103 | a target without labels and one global label make the step panic |
| ConfigDefaults.FillClient | config/cfgUnisphere/config_unisphere.go:93-103 | the endpoint is kept; auth and insecure are defaulted only when empty; labels are filled as `FillLabels` says, with a nil map read as empty; the same code at config/config_spectrum.go:95-105 and at cmd/spectrum_exporter/config/config.go:122-132 |
| ConfigDefaults.DefaultedInsecureParses | config/cfgUnisphere/config_unisphere.go:96-98 | an insecure flag filled from the global block parses back to the global value |
| ConfigDefaults.DefaultClient | config/cfgUnisphere/config_unisphere.go:93-103 | the body of the client loop, label loop included, computes the defaulted client |
| ConfigDefaults.FillClientIdempotent | config/cfgUnisphere/config_unisphere.go:89-104 | defaulting a client twice is defaulting it once |
| ConfigDefaults.FirstMissingEndpoint | config/cfgUnisphere/config_unisphere.go:89-92 | the index of the first target without an endpoint: all targets before it have one |
| ConfigDefaults.FillClients | config/cfgUnisphere/config_unisphere.go:89-104 | every target of a prefix defaulted, in order |
| ConfigDefaults.FillClientsIdempotent | config/cfgUnisphere/config_unisphere.go:89-104 | defaulting a target list twice is defaulting it once |
| ConfigDefaults.DefaultClients | config/cfgUnisphere/config_unisphere.go:89-104 | the client loop defaults exactly the targets before the first one without an endpoint, keeps the rest, and fails exactly when such a target exists |
| ConfigDefaults.FillServer | config/cfgUnisphere/config_unisphere.go:106-125 | each of endpoint, API path, insecure (the formatted global flag) and mode is replaced by the global value exactly when empty; the enabled flag is kept; the same code at config/config_spectrum.go:108-127 and at cmd/spectrum_exporter/config/config.go:135-154 |
| ConfigDefaults.FillServerIdempotent | config/cfgUnisphere/config_unisphere.go:106-125 | defaulting a section twice is defaulting it once |
| ConfigDefaults.FillServers | config/cfgUnisphere/config_unisphere.go:106-109 | the server walk panics exactly when a section is nil, and otherwise defaults all three |
| ConfigDefaults.FillServersIdempotent | config/cfgUnisphere/config_unisphere.go:106-125 | defaulting the server block twice is defaulting it once |
| ConfigDefaults.Endpoint | config/cfgUnisphere/config_unisphere.go:160-165 | an enabled section's endpoint is its endpoint followed by its API path; a disabled one gives `""`; the same code at config/config_spectrum.go:162-167 and at cmd/spectrum_exporter/config/config.go:213-218 |
| ConfigDefaults.Mode | config/cfgUnisphere/config_unisphere.go:167-172 | an enabled section gives its mode, a disabled one `""`; the same code at cmd/spectrum_exporter/config/config.go:220-225 |
| ConfigDefaults.Insecure | config/cfgUnisphere/config_unisphere.go:174-177 | a flag that parses gives its value; one that does not reads as false |
| ConfigDefaults.DefaultedSectionGetters | config/cfgUnisphere/config_unisphere.go:106-195 | after defaulting, an enabled section left empty reports the global endpoint and mode, and its insecure flag reads back as the global one |
| ConfigDefaults.DefaultServerGetters | config/cfgUnisphere/config_unisphere.go:28-59 | with the default blocks, a completed pass leaves the metrics and logs exporters on `http://127.0.0.1:8080` in mode `http`, not insecure |
| ConfigDefaults.FillProvider | config/cfgUnisphere/config_unisphere.go:128-141 | only an enabled section with an empty interval receives the global interval; the flag and level are kept; the same code at config/config_spectrum.go:130-143 and at cmd/spectrum_exporter/config/config.go:157-170 |
| ConfigDefaults.FillProviders | config/cfgUnisphere/config_unisphere.go:128-141 | every provider section defaulted, in field order |
| ConfigDefaults.FillProvidersIdempotent | config/cfgUnisphere/config_unisphere.go:128-141 | defaulting the provider sections twice is defaulting them once, and no section goes missing |
| ConfigDefaults.DefaultProviders | config/cfgUnisphere/config_unisphere.go:128-141 | the provider loop panics exactly when a section is nil and otherwise computes every section defaulted |
| ConfigDefaults.FirstAuth | config/cfgUnisphere/config_unisphere.go:148-153 | the first credential with the name, if any: none before it has the name |
| ConfigDefaults.SearchAuth | config/cfgUnisphere/config_unisphere.go:147-154 | `""` when no credential has the name, and otherwise the base64 of the first match's `user:password`; the same code at config/config_spectrum.go:149-156 and at cmd/spectrum_exporter/config/config.go:176-183 |
| ConfigDefaults.SearchAuthDecodes | config/cfgUnisphere/config_unisphere.go:147-154 | the result is empty exactly when no name matches, and otherwise decodes to the first match's `user:password` |
| ConfigDefaults.OutcomeOf | config/cfgUnisphere/config_unisphere.go:83-143 | a nil target list gives "no clients configured" and a target without an endpoint "client endpoint is required" (each an if-and-only-if); the pass completes exactly when every target has an endpoint and every server section, the providers block and every provider section are present; otherwise it panics; the same code at config/config_spectrum.go:85-145 and at cmd/spectrum_exporter/config/config.go:112-172 |
| ConfigDefaults.AfterApply | config/cfgUnisphere/config_unisphere.go:83-143 | the targets before the first one without an endpoint are defaulted and the rest untouched; servers and providers change only when every target was defaulted; global block and credentials never change |
| ConfigDefaults.ApplyGlobalIdempotent | config/cfgUnisphere/config_unisphere.go:83-143 | a completed pass leaves nothing to default: running it again completes and changes nothing |
| ConfigDefaults.ClientsAsWritten | config/cfgUnisphere/config_unisphere.go:89-104 | the client loop as written, each target's step able to panic; a completed loop has defaulted every target and a loop stopped at a missing endpoint fewer than all (what it means is ClientsAsWrittenMeaning) |
| ConfigDefaults.OutcomeAsWritten | config/cfgUnisphere/config_unisphere.go:83-143 | the outcome of the pass as written; a nil target list is "no clients configured" (the rest is AsWrittenAgrees) |
| ConfigDefaults.AfterAsWritten | config/cfgUnisphere/config_unisphere.go:83-143 | the configuration after a pass as written that did not panic keeps the global block and the credentials (its relation to AfterApply is AsWrittenAgrees) |
| ConfigDefaults.ClientsAsWrittenMeaning | config/cfgUnisphere/config_unisphere.go:89-104 | the client loop as written panics exactly when a target it reaches has no label map and the global block has labels; otherwise it stops exactly where the corrected loop stops and leaves the same targets defaulted |
| ConfigDefaults.AsWrittenAgrees | config/cfgUnisphere/config_unisphere.go:83-143 | the pass as written ends in the label panic exactly when such a target is reached; otherwise it has the corrected pass's outcome and leaves the same configuration; the same code at config/config_spectrum.go:85-145 and at cmd/spectrum_exporter/config/config.go:112-172 |
| ConfigDefaults.LabellessTargetPanics | config/cfgUnisphere/config_unisphere.go:99-103 | with one target without labels and one global label, the corrected pass completes while the pass as written panics |
| ConfigDefaults.MissingEndpointOutcome | config/cfgUnisphere/config_unisphere.go:89-92 | a target without an endpoint fails the pass with the endpoint message, after the targets before it were defaulted and before servers and providers are touched |
| ConfigDefaults.CompleteOutcome | config/cfgUnisphere/config_unisphere.go:106-143 | with every endpoint present the pass panics exactly on a nil server or provider section and otherwise defaults targets, servers and providers |
| ConfigDefaults.Reported | config/cfgUnisphere/config_unisphere.go:72-77 | the loader returns the defaulting error as it is, and a completed pass as success |
| ConfigDefaults.Configuration.constructor | config/cfgUnisphere/config_unisphere.go:28-59 | a configuration holds exactly the document it was built from |
| ConfigDefaults.Configuration.Unmarshal | cmd/spectrum_exporter/config/config.go:100-107 | a read error and a decode error are returned and leave the configuration as it was; otherwise it holds the decoded document |
| ConfigDefaults.Configuration.LoadFile | config/cfgUnisphere/config_unisphere.go:61-78 | read and decode errors are returned before any defaulting; otherwise the defaulting outcome is returned and, unless it panicked, the configuration is the defaulted document; the same code at config/config_spectrum.go:63-80 |
| ConfigDefaults.Configuration.ApplyClients | config/cfgUnisphere/config_unisphere.go:89-104 | the in-place client loop defaults the targets before the first one without an endpoint, leaves the rest, fails exactly when such a target exists, and touches nothing else |
| ConfigDefaults.Configuration.ApplyGlobal | config/cfgUnisphere/config_unisphere.go:83-143 | the in-place pass returns the outcome `OutcomeOf` gives and, unless it panicked, leaves the configuration as `AfterApply` says; the same code at config/config_spectrum.go:85-145 and at cmd/spectrum_exporter/config/config.go:112-172 |
| ConfigUnisphere.NewUnisphereConfiguration | config/cfgUnisphere/config_unisphere.go:28-59 | a fresh configuration with the defaults: no targets, no credentials, the three server sections enabled, no providers block |
| ConfigUnisphere.DefaultsHaveNoTargets | config/cfgUnisphere/config_unisphere.go:86-88 | the defaults alone are refused with "no clients configured" and left unchanged |
| ConfigUnisphere.TargetsWithoutProvidersPanic | config/cfgUnisphere/config_unisphere.go:128-129 | a file that adds well-formed targets but no providers block panics on the nil block |
| ConfigSpectrum.NewSpectrumConfiguration | config/config_spectrum.go:27-61 | a fresh configuration with the defaults, whose providers block holds one zero-valued system section |
| ConfigSpectrum.TargetsAloneApply | config/config_spectrum.go:130-143 | a file that only adds well-formed targets completes, and the disabled system section keeps its empty interval |
| SpectrumExporterConfig.NewConfiguration | cmd/spectrum_exporter/config/config.go:43-98 | a fresh configuration with the defaults |
| SpectrumExporterConfig.DefaultProvidersApplied | cmd/spectrum_exporter/config/config.go:43-98 | with a file that only adds well-formed targets, the pass completes; system, capacity and event collect every `1m`, the event level stays 5, and the metric and LUN providers stay off with no interval |
| SpectrumExporterConfig.Init | cmd/spectrum_exporter/config/config.go:19-41 | a read or decode error exits with status 1 after "Failed to read config file"; a defaulting error exits with status 1 after "Failed to set global configs"; a completed pass leaves the defaulted configuration |

## Left out

- OpenTelemetry SDK plumbing: meter and logger providers, instrument creation (taken to succeed), `RegisterCallback`, `Observe` and `Emit`. Observations are returned as a multiset, and records as a sequence.
- The HTTP and session clients, the cookie jar, and the login back-off of both array clients. Each request is returned as a value, and each reply (or the library's result) is a parameter.
- Goroutines, the endless `for` loops and `time.Sleep`: each event loop is modelled as one pass, and the start time and the current time are parameters.
- Logging: messages that only go to the logger are not modelled, except where a log line is the only effect (the collector's "Too Many Paths").
- `strconv.ParseFloat`, `time.ParseDuration` and `time.Parse`: these are abstract function parameters. Floating point is `real`, so rounding and overflow are not modelled.
- `strings.ToLower` is ASCII-only.
- YAML and JSON decoding: a `Decoding` parameter is the result of reading the file and decoding it over the defaults.
- ConfigDefaults.Configuration.Unmarshal: a decode error leaves the configuration unchanged, because what a failing `yaml.Unmarshal` has already written is not modelled.
- Reflection in `applyGlobal`: the server block is a record of three optional sections; the providers block is an optional sequence of optional sections in field order. `GetProvider` of config/config_spectrum.go (a reflection lookup by field name) is not modelled.
- ConfigDefaults.ProviderSection: it holds only the enabled flag, the interval and the level; other section fields (metric paths) are untouched by defaulting and are not part of the record.
- The `config` package's own type file, including `CommonProviderSystem`, is not part of this model. Its section is taken to have a boolean `Enabled` and a string `Interval`, so the zero value is disabled.
- ConfigDefaults.DefaultClient: it runs the corrected label step, so it defaults a target without labels under global labels, where the source's loop body panics (config/cfgUnisphere/config_unisphere.go:99-103). The step as written is ConfigDefaults.FillClientAsWritten.
- ConfigDefaults.DefaultClients: it is the corrected client loop and stops only at a missing endpoint. The loop as written also panics on a target without labels under global labels; that loop is ConfigDefaults.ClientsAsWritten, related to this one by ConfigDefaults.ClientsAsWrittenMeaning.
- ConfigDefaults.OutcomeOf: it is the outcome of the corrected pass, so it says `Applied` or the endpoint error where the source panics on a target without labels under global labels. The outcome as written is ConfigDefaults.OutcomeAsWritten, and ConfigDefaults.AsWrittenAgrees proves the two differ only by that panic.
- ConfigDefaults.AfterApply: it fills global labels into a target with no label map, where the source panics. The as-written counterpart is ConfigDefaults.AfterAsWritten, equal to it whenever the source does not panic.
- ConfigDefaults.MissingEndpointOutcome: it is about the corrected pass. In the source, an earlier target without labels under global labels panics before the endpoint error is reached.
- ConfigDefaults.CompleteOutcome: it is about the corrected pass, and its list of panics leaves out the label panic of the source.
- ConfigDefaults.Configuration.ApplyClients: the in-place client loop runs the corrected label step and never panics.
- ConfigDefaults.Configuration.ApplyGlobal: its outcome and new state are those of OutcomeOf and AfterApply, so it leaves out the label panic.
- ConfigDefaults.Configuration.LoadFile: it reports the outcome of the corrected pass and leaves out the label panic.
- SpectrumExporterConfig.Init: it runs the corrected pass, so a file that sets global labels and has a target without labels initialises, where the source panics.
- The Unisphere exporter's providers block: config/cfgUnisphere/config_unisphere.go:24-26 declares `UnisphereProviders` with only `System`, but the exporter's providers read `Metric_A`, `Metric_B`, `Metric_C` and `Event` from it. The declaration with those fields is not part of this model. The sections are taken to have the fields that the getters of config/cfgUnisphere/cfg_metric.go and cfg_event.go read.
- UnisphereCollector.ClientResource: the Unisphere client that cmd/unisphere_exporter/collector/collector.go:52-54 builds from the credential (`SearchAuth`) and the parsed insecure flag is not recorded. The resource keeps the endpoint, the custom labels and the attributes.
- Integer widths: integers are unbounded. The 64-bit range of Go's `int` in `Itoa` and `Atoi` (including `Atoi`'s range error) is not modelled, and neither is an overflow of `int(interval.Seconds())` at client/unisphere/metricRealTimeQuery.go:24. The truncation toward zero there is modelled (UnisphereRealTimeQuery.IntervalSeconds).
- A nil global block or a nil server block panics in the source. The model takes both as present, and the getters read a present section.
- The Spectrum exporter's provider getters (`GetProviderSystem` and the others) only return a field and are not modelled separately. Neither is the Unisphere configuration's `GetClientList`/`GetProviderSystem`.
- Aliasing: client records are shared by pointer between the configuration and the collector, but they are values here.
- A JSON leaf that is neither a string nor an object: `v.(string)` panics on it in the source, while result trees here have string leaves only.
- The exporters' main programs, the flag package, the fixed-field providers, collector/lun.go, and the thin REST wrappers for system, LUN, capacity, file-system and event listings.
- The concrete name of a plain path such as `sp.spa.cpuUtil` is not stated as its own lemma. MetricPath.InstrumentNameShape states the general shape, and MetricPath.NameOfWildcardPath states a concrete case.

## Findings

| source | as written | input that shows it | evidently intended | confidence | as-written member | corrected member |
|---|---|---|---|---|---|---|
| config/cfgUnisphere/config_unisphere.go:99-103 | each global label is written into the target's label map, which is nil when the target has no `labels`, so the write panics | a target without `labels` and a global block with the label `site: dc1` | a missing label map reads as empty and receives the global labels | high, not executed | ConfigDefaults.LabellessTargetPanics | ConfigDefaults.FillClient |
| config/config_spectrum.go:101-105 | the same label write into a nil map | the same target and global labels | the same | high, not executed | ConfigDefaults.FillClientAsWritten | ConfigDefaults.FillClient |
| cmd/spectrum_exporter/config/config.go:128-132 | the same label write into a nil map | the same target and global labels | the same | high, not executed | ConfigDefaults.FillClientAsWritten | ConfigDefaults.FillClient |
