/**
 * The library's Spectrum configuration: the defaults, with a providers
 * block holding one (zero-valued, so disabled) system section, and loading
 * a file over them.
 */
module ConfigSpectrum {
  import opened Wrappers
  import opened ConfigDefaults

  /** The zero-valued system section: disabled, no interval. */
  const SystemSection: ProviderSection := ProviderSection(false, "", 0)

  const Defaults: Document := Document(DefaultGlobal, None, [], DefaultServers, Some([Some(SystemSection)]))

  method NewSpectrumConfiguration() returns (cfg: Configuration)
    ensures fresh(cfg) && cfg.State() == Defaults
  {
    cfg := new Configuration(Defaults);
  }

  /**
   * A file that only adds well-formed targets is defaulted completely;
   * the disabled system section keeps its empty interval.
   */
  lemma TargetsAloneApply(clients: seq<Client>)
    requires forall i :: 0 <= i < |clients| ==> clients[i].endpoint != ""
    ensures OutcomeOf(Defaults.(clients := Some(clients))) == Applied
    ensures AfterApply(Defaults.(clients := Some(clients))).providers == Some([Some(SystemSection)])
  {
    var d := Defaults.(clients := Some(clients));
    assert OutcomeOf(d) == Applied;
    var ps := AfterApply(d).providers.value;
    assert |ps| == 1 && ps[0] == Some(SystemSection);
    assert ps == [Some(SystemSection)];
  }
}
