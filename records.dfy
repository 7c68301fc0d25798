/** The activity record that the tracker emits and the log table stores. */
module Records {

  /** The two categories a window can be filed under. */
  datatype Category = Browser | Application

  /**
   * One closed focus interval: the six columns of the log table.
   * Timestamps are integer seconds; `duration` stands for "Duration (seconds)".
   */
  datatype Record = Record(
    application: string,
    category: Category,
    detail: string,
    start: int,
    end: int,
    duration: int)

  /** The duration column agrees with the two timestamp columns. */
  predicate ConsistentDuration(r: Record)
  {
    r.duration == r.end - r.start
  }
}
