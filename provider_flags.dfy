/**
 * The enabled flag and interval of a provider section as written in the
 * configuration file: both are kept as text and interpreted on demand.
 */
module ProviderFlags {
  import opened Wrappers
  import opened GoStrconv

  /**
   * An empty flag means the provider's default; otherwise the flag is read
   * with `ParseBool` and a parse error counts as false.
   */
  function EnabledFlag(text: string, defaults: bool): (r: bool)
    ensures text == "" ==> r == defaults
    ensures text in TrueSpellings ==> r
    ensures text != "" && text !in TrueSpellings ==> !r
  {
    if text == "" then defaults else ParseBool(text).GetOr(false)
  }

  /** The interval, or zero when it does not parse as a duration. */
  function IntervalOf(text: string, parseDuration: string -> Option<int>): (d: int)
    ensures parseDuration(text).Some? ==> d == parseDuration(text).value
    ensures parseDuration(text).None? ==> d == 0
  {
    parseDuration(text).GetOr(0)
  }

  /** The section of a Unisphere real-time metric provider. */
  datatype UnisphereProviderMetric = UnisphereProviderMetric(enabled: string, paths: Option<seq<string>>, interval: string)
  {
    function GetEnabled(defaults: bool): (r: bool)
      ensures enabled == "" ==> r == defaults
      ensures enabled != "" ==> (r <==> enabled in TrueSpellings)
    {
      EnabledFlag(enabled, defaults)
    }

    function GetInterval(parseDuration: string -> Option<int>): (d: int)
      ensures parseDuration(interval).None? ==> d == 0
      ensures parseDuration(interval).Some? ==> d == parseDuration(interval).value
    {
      IntervalOf(interval, parseDuration)
    }
  }

  /** The section of a Unisphere event provider. */
  datatype UnisphereProviderEvent = UnisphereProviderEvent(enabled: string, level: int, interval: string)
  {
    function GetEnabled(defaults: bool): (r: bool)
      ensures enabled == "" ==> r == defaults
      ensures enabled != "" ==> (r <==> enabled in TrueSpellings)
    {
      EnabledFlag(enabled, defaults)
    }

    function GetInterval(parseDuration: string -> Option<int>): (d: int)
      ensures parseDuration(interval).None? ==> d == 0
      ensures parseDuration(interval).Some? ==> d == parseDuration(interval).value
    {
      IntervalOf(interval, parseDuration)
    }
  }

  /** The section of a Spectrum system-listing provider. */
  datatype SpectrumProviderLsSystem = SpectrumProviderLsSystem(enabled: string, interval: string)
  {
    function GetEnabled(defaults: bool): (r: bool)
      ensures enabled == "" ==> r == defaults
      ensures enabled != "" ==> (r <==> enabled in TrueSpellings)
    {
      EnabledFlag(enabled, defaults)
    }

    function GetInterval(parseDuration: string -> Option<int>): (d: int)
      ensures parseDuration(interval).None? ==> d == 0
      ensures parseDuration(interval).Some? ==> d == parseDuration(interval).value
    {
      IntervalOf(interval, parseDuration)
    }
  }

  /**
   * A false spelling and an unrecognised word both disable the provider,
   * whatever its default; the default matters only for an empty flag.
   */
  lemma DefaultOnlyForEmpty(text: string, d1: bool, d2: bool)
    ensures text != "" ==> EnabledFlag(text, d1) == EnabledFlag(text, d2)
    ensures text in FalseSpellings ==> !EnabledFlag(text, d1)
    ensures text != "" && ParseBool(text).None? ==> !EnabledFlag(text, d1)
  {
  }
}
