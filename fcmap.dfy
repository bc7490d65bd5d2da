/**
 * FlashCopy mappings of a Spectrum Virtualize system: the numeric encoding
 * of a mapping's status, the number parse used for progress fields, and the
 * listing call with its effect on the client's authentication flag.
 */
module SpectrumFcMap {
  import opened Wrappers

  /** The code of a FlashCopy status string; anything unnamed is -1. */
  function StatusValue(status: string): (r: real)
    ensures status == "idle_or_copied" <==> r == 0.0
    ensures status == "copying" <==> r == 1.0
    ensures status == "preparing" <==> r == 2.0
    ensures status == "prepared" <==> r == 3.0
    ensures status == "stopped" <==> r == 4.0
    ensures status == "stopping" <==> r == 5.0
    ensures status == "suspended" <==> r == 6.0
    ensures r == -1.0 <==> status !in NamedStatuses
  {
    match status
    case "idle_or_copied" => 0.0
    case "copying" => 1.0
    case "preparing" => 2.0
    case "prepared" => 3.0
    case "stopped" => 4.0
    case "stopping" => 5.0
    case "suspended" => 6.0
    case _ => -1.0
  }

  const NamedStatuses: set<string> :=
    {"idle_or_copied", "copying", "preparing", "prepared", "stopped", "stopping", "suspended"}

  /** Distinct named statuses get distinct codes, and every code lies in -1 .. 6. */
  lemma StatusValuesDistinct(a: string, b: string)
    requires a in NamedStatuses && b in NamedStatuses && a != b
    ensures StatusValue(a) != StatusValue(b)
    ensures -1.0 <= StatusValue(a) <= 6.0
  {
  }

  /** A numeric field: the parsed number, or -999 when it does not parse. */
  function StringValue(s: string, parse: string -> Option<real>): (r: real)
    ensures parse(s).Some? ==> r == parse(s).value
    ensures parse(s).None? ==> r == -999.0
  {
    match parse(s)
    case Some(f) => f
    case None => -999.0
  }

  datatype FcMapEntry = FcMapEntry(id: string, name: string, status: string, progress: string,
                                   copyRate: string, cleanProgress: string, startTime: string)

  /**
   * What the POST to the listing endpoint yields: a transport error, no
   * body, or a body with whatever the decoder made of it (decode errors are
   * not reported). A body the decoder leaves as a nil slice (a JSON `null`,
   * or a decode that stops before the array) is `NilBody` too: the source
   * returns nil data for it, which the flash-copy provider tells apart from
   * an empty list.
   */
  datatype ListReply = PostFailed | NilBody | Decoded(entries: seq<FcMapEntry>)

  class Client {
    /** Whether the session is believed to be authenticated. */
    var lastAuth: bool

    constructor (auth: bool)
      ensures lastAuth == auth
    {
      lastAuth := auth;
    }

    /** A transport error clears the authentication flag; nothing else changes it. */
    method PostLsFcMap(reply: ListReply) returns (data: Option<seq<FcMapEntry>>)
      modifies this
      ensures reply.PostFailed? ==> !lastAuth && data == None
      ensures !reply.PostFailed? ==> lastAuth == old(lastAuth)
      ensures reply.NilBody? ==> data == None
      ensures reply.Decoded? ==> data == Some(reply.entries)
    {
      if reply.PostFailed? {
        lastAuth := false;
        return None;
      }
      if reply.NilBody? {
        return None;
      }
      data := Some(reply.entries);
    }
  }
}
