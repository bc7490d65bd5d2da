/**
 * The Spectrum exporter's own configuration package: the defaults,
 * loading a file (which here only reads and decodes), and the package
 * initialisation that loads, defaults, and exits on either error.
 */
module SpectrumExporterConfig {
  import opened Wrappers
  import opened ConfigDefaults

  /** The positions of the provider sections, in field order. */
  const System: nat := 0
  const Capacity: nat := 1
  const MetricA: nat := 2
  const MetricB: nat := 3
  const MetricC: nat := 4
  const Event: nat := 5
  const Lun: nat := 6

  /** System, capacity and event are on (events from level 5), the metric and LUN providers off. */
  const DefaultProviders: seq<Option<ProviderSection>> := [
    Some(ProviderSection(true, "", 0)),
    Some(ProviderSection(true, "", 0)),
    Some(ProviderSection(false, "", 0)),
    Some(ProviderSection(false, "", 0)),
    Some(ProviderSection(false, "", 0)),
    Some(ProviderSection(true, "", 5)),
    Some(ProviderSection(false, "", 0))]

  const Defaults: Document := Document(DefaultGlobal, None, [], DefaultServers, Some(DefaultProviders))

  method NewConfiguration() returns (cfg: Configuration)
    ensures fresh(cfg) && cfg.State() == Defaults
  {
    cfg := new Configuration(Defaults);
  }

  /**
   * A file that only adds well-formed targets is defaulted completely: the
   * enabled system, capacity and event providers collect every minute, the
   * event level stays 5, and the disabled ones keep an empty interval.
   */
  lemma DefaultProvidersApplied(clients: seq<Client>)
    requires forall i :: 0 <= i < |clients| ==> clients[i].endpoint != ""
    ensures OutcomeOf(Defaults.(clients := Some(clients))) == Applied
    ensures var ps := AfterApply(Defaults.(clients := Some(clients))).providers.value;
      |ps| == 7 &&
      ps[System] == Some(ProviderSection(true, "1m", 0)) && ps[Capacity] == Some(ProviderSection(true, "1m", 0)) &&
      ps[Event] == Some(ProviderSection(true, "1m", 5)) &&
      ps[MetricA] == ps[MetricB] == ps[MetricC] == ps[Lun] == Some(ProviderSection(false, "", 0))
  {
    var d := Defaults.(clients := Some(clients));
    assert AllPresent(DefaultProviders);
    assert OutcomeOf(d) == Applied;
  }

  /** How the initialisation ends: ready, or exit status 1 after logging the message and the error. */
  datatype InitOutcome = Ready | Exited(status: int, logged: string, error: string) | Panicked

  /**
   * The package initialisation: defaults, the file (read and decoded
   * only), then the defaulting pass; an error of either step exits.
   */
  method Init(decoding: Decoding) returns (cfg: Configuration, outcome: InitOutcome)
    ensures fresh(cfg)
    ensures decoding.Unreadable? ==>
      outcome == Exited(1, "Failed to read config file", decoding.message) && cfg.State() == Defaults
    ensures decoding.Malformed? ==>
      outcome == Exited(1, "Failed to read config file", decoding.message) && cfg.State() == Defaults
    ensures decoding.Decoded? ==> (
      var applied := OutcomeOf(decoding.document);
      (applied.Failed? ==> outcome == Exited(1, "Failed to set global configs", applied.message)) &&
      (applied == ReflectionPanic ==> outcome == Panicked) &&
      (applied == Applied ==> outcome == Ready) &&
      (applied != ReflectionPanic ==> cfg.State() == AfterApply(decoding.document)))
  {
    cfg := NewConfiguration();
    var loaded := cfg.Unmarshal(decoding);
    if loaded != Loaded {
      return cfg, Exited(1, "Failed to read config file", loaded.message);
    }
    var applied := cfg.ApplyGlobal();
    match applied
    case Failed(message) => outcome := Exited(1, "Failed to set global configs", message);
    case ReflectionPanic | LabelPanic => outcome := Panicked;
    case Applied => outcome := Ready;
  }
}
