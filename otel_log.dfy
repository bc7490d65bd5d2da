/** The log records the event providers hand to the log exporter. */
module OtelLog {
  import opened Wrappers

  datatype KeyValue = KeyValue(key: string, value: string)

  /**
   * One record: the event time and observed time (`None` when never set,
   * which is also what the zero time amounts to), the body, and the
   * attributes in the order they were added.
   */
  datatype Record = Record(timestamp: Option<int>, observedTimestamp: Option<int>, body: string, attrs: seq<KeyValue>)

  /** Nanoseconds per hour: times and durations are counted in nanoseconds. */
  const Hour: int := 3_600_000_000_000
}
