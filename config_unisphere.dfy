/**
 * The Unisphere exporter's configuration: the defaults, and loading a
 * file over them. Its providers block starts nil, so a file has to supply
 * one for the defaulting pass to get past the reflection walk.
 */
module ConfigUnisphere {
  import opened Wrappers
  import opened ConfigDefaults

  /** No targets, no credentials, all three server sections enabled, no providers block. */
  const Defaults: Document := Document(DefaultGlobal, None, [], DefaultServers, None)

  method NewUnisphereConfiguration() returns (cfg: Configuration)
    ensures fresh(cfg) && cfg.State() == Defaults
  {
    cfg := new Configuration(Defaults);
  }

  /** The defaults alone are refused: there is no target. */
  lemma DefaultsHaveNoTargets()
    ensures OutcomeOf(Defaults) == Failed("no clients configured")
    ensures AfterApply(Defaults) == Defaults
  {
  }

  /**
   * A file that adds well-formed targets but no providers block passes
   * the target and server loops and then panics on the nil block.
   */
  lemma TargetsWithoutProvidersPanic(clients: seq<Client>)
    requires forall i :: 0 <= i < |clients| ==> clients[i].endpoint != ""
    ensures OutcomeOf(Defaults.(clients := Some(clients))) == ReflectionPanic
  {
  }
}
