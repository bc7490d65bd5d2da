/** The health codes of Unisphere objects and their display names. */
module UnisphereHealth {
  const Unknown: int := 0
  const Ok: int := 5
  const OkBut: int := 7
  const Degraded: int := 10
  const Minor: int := 15
  const Major: int := 20
  const Critical: int := 25
  const NonRecoverable: int := 30

  /** The named codes other than Unknown. */
  const KnownCodes: set<int> := {Ok, OkBut, Degraded, Minor, Major, Critical, NonRecoverable}

  /** The display name of a health code; every code outside the named ones reads "Unknown". */
  function HealthString(h: int): (s: string)
    ensures s != ""
    ensures h == Ok <==> s == "Ok"
    ensures h == OkBut <==> s == "OkBut"
    ensures h == Degraded <==> s == "Degraded"
    ensures h == Minor <==> s == "Minor"
    ensures h == Major <==> s == "Major"
    ensures h == Critical <==> s == "Critical"
    ensures h == NonRecoverable <==> s == "NonRecoverable"
    ensures s == "Unknown" <==> h !in KnownCodes
  {
    match h
    case 0 => "Unknown"
    case 5 => "Ok"
    case 7 => "OkBut"
    case 10 => "Degraded"
    case 15 => "Minor"
    case 20 => "Major"
    case 25 => "Critical"
    case 30 => "NonRecoverable"
    case _ => "Unknown"
  }

  /** The seven non-zero named codes get pairwise distinct names, none of them "Unknown". */
  lemma KnownNamesDistinct(a: int, b: int)
    requires a in KnownCodes && b in KnownCodes && a != b
    ensures HealthString(a) != HealthString(b)
    ensures HealthString(a) != "Unknown"
  {
  }
}
