/**
 * The event loop shared by both Unisphere exporters: each pass fetches the
 * events since a cursor, emits one record per event at or above the
 * configured level, and moves the cursor to the batch's update time.
 */
module UnisphereEvents {
  import opened Wrappers
  import opened OtelLog

  datatype EventEntry = EventEntry(creationTime: int, severity: int, messageId: string, message: string, source: string)

  /** What a pass's fetch yields: an error, no data, or the events and the server's update time. */
  datatype EventReply = FetchError | NilData | Batch(entries: seq<EventEntry>, updated: int)

  /** A provider's settings once constructed: its interval and its level. */
  datatype EventSettings = EventSettings(interval: int, level: int)

  /**
   * An entry passes the level filter when its severity number is
   * numerically at least the level. Since 0 is EMERGENCY, a level of 5
   * drops EMERGENCY through WARNING and keeps NOTICE and below.
   */
  predicate Kept(level: int, severity: int) {
    level <= severity
  }

  /** The severity names 0 .. 8; any other number has the empty name. */
  function SeverityName(severity: int): (s: string)
    ensures s == "" <==> !(0 <= severity <= 8)
    ensures severity == 0 ==> s == "EMERGENCY"
    ensures severity == 1 ==> s == "ALERT"
    ensures severity == 2 ==> s == "CRITICAL"
    ensures severity == 3 ==> s == "ERROR"
    ensures severity == 4 ==> s == "WARNING"
    ensures severity == 5 ==> s == "NOTICE"
    ensures severity == 6 ==> s == "INFO"
    ensures severity == 7 ==> s == "DEBUG"
    ensures severity == 8 ==> s == "OK"
  {
    match severity
    case 8 => "OK"
    case 7 => "DEBUG"
    case 6 => "INFO"
    case 5 => "NOTICE"
    case 4 => "WARNING"
    case 3 => "ERROR"
    case 2 => "CRITICAL"
    case 1 => "ALERT"
    case 0 => "EMERGENCY"
    case _ => ""
  }

  /** The nine names are pairwise distinct, so the level attribute identifies the severity. */
  lemma SeverityNamesDistinct(a: int, b: int)
    requires 0 <= a <= 8 && 0 <= b <= 8 && a != b
    ensures SeverityName(a) != SeverityName(b)
  {
  }

  /** The record of one kept entry. */
  function EventRecord(e: EventEntry): Record {
    Record(Some(e.creationTime), Some(e.creationTime), e.message,
           [KeyValue("level", SeverityName(e.severity)), KeyValue("message.id", e.messageId), KeyValue("source", e.source)])
  }

  /** The records of a batch, in batch order. */
  function KeptRecords(level: int, entries: seq<EventEntry>): seq<Record>
    decreases |entries|
  {
    if entries == [] then []
    else
      var e := entries[|entries| - 1];
      KeptRecords(level, entries[..|entries| - 1]) + (if Kept(level, e.severity) then [EventRecord(e)] else [])
  }

  /** Filtering distributes over concatenation: batch order is kept. */
  lemma {:induction false} KeptRecordsAppend(level: int, a: seq<EventEntry>, b: seq<EventEntry>)
    ensures KeptRecords(level, a + b) == KeptRecords(level, a) + KeptRecords(level, b)
    decreases |b|
  {
    if b == [] {
      assert a + b == a;
    } else {
      var b' := b[..|b| - 1];
      assert (a + b)[..|a + b| - 1] == a + b';
      assert (a + b)[|a + b| - 1] == b[|b| - 1];
      KeptRecordsAppend(level, a, b');
    }
  }

  /**
   * Exactly one record per kept entry: each record is the record of a kept
   * entry, and every kept entry's record is there.
   */
  lemma {:induction false} KeptRecordsExact(level: int, entries: seq<EventEntry>, r: Record)
    ensures r in KeptRecords(level, entries) <==>
      exists i :: 0 <= i < |entries| && Kept(level, entries[i].severity) && r == EventRecord(entries[i])
    decreases |entries|
  {
    if entries != [] {
      var n := |entries| - 1;
      var init := entries[..n];
      KeptRecordsExact(level, init, r);
      if exists i :: 0 <= i < |init| && Kept(level, init[i].severity) && r == EventRecord(init[i]) {
        var i :| 0 <= i < |init| && Kept(level, init[i].severity) && r == EventRecord(init[i]);
        assert entries[i] == init[i];
      }
      if exists i :: 0 <= i < |entries| && Kept(level, entries[i].severity) && r == EventRecord(entries[i]) {
        var i :| 0 <= i < |entries| && Kept(level, entries[i].severity) && r == EventRecord(entries[i]);
        if i < n {
          assert init[i] == entries[i];
        }
      }
    }
  }

  /** The per-entry loop of a pass: filter, name the severity, build the record. */
  method EmitBatch(level: int, entries: seq<EventEntry>) returns (records: seq<Record>)
    ensures records == KeptRecords(level, entries)
    ensures |records| <= |entries|
  {
    records := [];
    for i := 0 to |entries|
      invariant records == KeptRecords(level, entries[..i])
      invariant |records| <= i
    {
      var e := entries[i];
      assert entries[..i + 1][..i] == entries[..i];
      if level > e.severity {
        continue;
      }
      records := records + [EventRecord(e)];
    }
    assert entries[..|entries|] == entries;
  }

  /** One provider's loop state: the cursor the next fetch starts from. */
  class EventLoop {
    var cursor: int
    const level: int

    /** The first fetch looks one hour back from the start. */
    constructor (now: int, level: int)
      ensures cursor == now - Hour && this.level == level
    {
      cursor := now - Hour;
      this.level := level;
    }

    /**
     * One pass: the fetch asks for events since the cursor; on an error or
     * no data nothing is emitted and the cursor stays; otherwise the kept
     * records are emitted and the cursor becomes the batch's update time.
     */
    method Iterate(reply: EventReply) returns (since: int, records: seq<Record>)
      modifies this
      ensures since == old(cursor)
      ensures reply.Batch? ==> records == KeptRecords(level, reply.entries) && cursor == reply.updated
      ensures !reply.Batch? ==> records == [] && cursor == old(cursor)
    {
      since := cursor;
      if !reply.Batch? {
        return since, [];
      }
      records := EmitBatch(level, reply.entries);
      cursor := reply.updated;
    }
  }
}
