/**
 * The log store: `log_data` creates the table with its six-column header when
 * the file is absent, then reads it back, concatenates the new rows and writes
 * the whole table again. The file is a field holding an optional table.
 */
module LogStore {
  import opened Wrappers
  import opened Records

  const Header: seq<string> :=
    ["Application", "Category", "Detail", "Start Time", "End Time", "Duration (seconds)"]

  /** A table: a header row and the data rows, in file order. */
  datatype Table = Table(columns: seq<string>, rows: seq<Record>)

  /** The table `log_data` leaves behind, given the file before the call. */
  function Appended(file: Option<Table>, data: seq<Record>): (t: Table)
    // an absent file: the new rows under the six-column header
    ensures file.None? ==> t.columns == Header && t.rows == data
    // an existing table: its header kept, its rows first and unchanged, the new rows after them in order
    ensures file.Some? ==> t.columns == file.value.columns
    ensures file.Some? ==> |t.rows| == |file.value.rows| + |data|
    ensures file.Some? ==> t.rows[..|file.value.rows|] == file.value.rows && t.rows[|file.value.rows|..] == data
  {
    match file
    case None => Table(Header, data)
    case Some(old_table) => Table(old_table.columns, old_table.rows + data)
  }

  /**
   * Two flushes equal one flush of both batches: N rows and then M rows give a
   * table of N + M rows under one header.
   */
  lemma AppendedTwice(file: Option<Table>, first: seq<Record>, second: seq<Record>)
    ensures Appended(Some(Appended(file, first)), second) == Appended(file, first + second)
    ensures file.None? ==> |Appended(Some(Appended(file, first)), second).rows| == |first| + |second|
  {
  }

  class LogFile {
    /** The contents of `time_logs.csv`, or `None` while the file does not exist. */
    var table: Option<Table>

    constructor (initial: Option<Table>)
      ensures table == initial
    {
      table := initial;
    }

    /** `log_data`: create the file with the header if needed, then read, concatenate, rewrite. */
    method LogData(data: seq<Record>)
      modifies this
      ensures table == Some(Appended(old(table), data))
      ensures old(table).None? ==> table.value.columns == Header && table.value.rows == data
      ensures old(table).Some? ==> table.value.rows == old(table).value.rows + data
    {
      if table.None? {
        table := Some(Table(Header, []));
      }
      var df := table.value;
      df := Table(df.columns, df.rows + data);
      assert old(table).None? ==> df.rows == data;
      table := Some(df);
    }
  }
}
