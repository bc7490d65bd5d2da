/**
 * The event provider of the Spectrum exporter: every event in a batch
 * becomes one record whose level says whether the event carries an error
 * code, and after every batch the cursor moves to the current time.
 */
module SpectrumEventProvider {
  import opened Wrappers
  import opened ProviderFlags
  import opened OtelLog

  datatype SpectrumEvent = SpectrumEvent(lastTimestamp: string, objectName: string, status: string,
                                         eventId: string, errorCode: string, description: string)

  /** The provider's settings: the level is never set and stays zero. */
  datatype Settings = Settings(interval: int, level: int)

  const DefaultEnabled: bool := true

  /**
   * The provider exists unless the section's flag text disables it or no
   * log exporter was created; the interval falls back to zero.
   */
  function NewProvider(enabled: string, interval: string, logExporter: bool,
                       parseDuration: string -> Option<int>): (r: Option<Settings>)
    ensures r.None? <==> !EnabledFlag(enabled, DefaultEnabled) || !logExporter
    ensures r.Some? ==> r.value.level == 0 && r.value.interval == IntervalOf(interval, parseDuration)
  {
    if !EnabledFlag(enabled, DefaultEnabled) || !logExporter then None
    else Some(Settings(IntervalOf(interval, parseDuration), 0))
  }

  /** "ALERT" exactly for events with an error code, "INFO" otherwise. */
  function LevelOf(errorCode: string): (level: string)
    ensures level == "ALERT" <==> errorCode != ""
    ensures level == "INFO" <==> errorCode == ""
  {
    if errorCode != "" then "ALERT" else "INFO"
  }

  /**
   * The record of one event. A timestamp that does not parse leaves the
   * zero time, which is the same as leaving the observed time unset; the
   * record is emitted either way.
   */
  function EventRecord(e: SpectrumEvent, parseTime: string -> Option<int>): Record {
    Record(None, parseTime(e.lastTimestamp), e.description,
           [KeyValue("level", LevelOf(e.errorCode)), KeyValue("error.code", e.errorCode),
            KeyValue("message.id", e.eventId), KeyValue("object.name", e.objectName), KeyValue("status", e.status)])
  }

  function BatchRecords(events: seq<SpectrumEvent>, parseTime: string -> Option<int>): (rs: seq<Record>)
    ensures |rs| == |events|
    ensures forall i :: 0 <= i < |events| ==> rs[i] == EventRecord(events[i], parseTime)
  {
    seq(|events|, i requires 0 <= i < |events| => EventRecord(events[i], parseTime))
  }

  /** The level attribute comes first and reflects the error code; the body is the description. */
  lemma RecordShape(e: SpectrumEvent, parseTime: string -> Option<int>)
    ensures |EventRecord(e, parseTime).attrs| == 5
    ensures EventRecord(e, parseTime).attrs[0] == KeyValue("level", if e.errorCode != "" then "ALERT" else "INFO")
    ensures EventRecord(e, parseTime).body == e.description
    ensures EventRecord(e, parseTime).timestamp.None?
  {
  }

  /** The per-event loop of a pass: one record per event, in order. */
  method EmitEvents(events: seq<SpectrumEvent>, parseTime: string -> Option<int>) returns (records: seq<Record>)
    ensures records == BatchRecords(events, parseTime)
  {
    records := [];
    for i := 0 to |events|
      invariant |records| == i
      invariant forall k :: 0 <= k < i ==> records[k] == EventRecord(events[k], parseTime)
    {
      records := records + [EventRecord(events[i], parseTime)];
    }
  }

  class EventLoop {
    var cursor: int

    constructor (now: int)
      ensures cursor == now - Hour
    {
      cursor := now - Hour;
    }

    /**
     * One pass: a nil batch emits nothing and keeps the cursor; any other
     * batch (an empty one included) emits its records and moves the cursor
     * to the current time.
     */
    method Iterate(data: Option<seq<SpectrumEvent>>, now: int, parseTime: string -> Option<int>)
      returns (since: int, records: seq<Record>)
      modifies this
      ensures since == old(cursor)
      ensures data.None? ==> records == [] && cursor == old(cursor)
      ensures data.Some? ==> records == BatchRecords(data.value, parseTime) && cursor == now
    {
      since := cursor;
      if data.None? {
        return since, [];
      }
      records := EmitEvents(data.value, parseTime);
      cursor := now;
    }
  }
}
