/** The loader: appends a table to `most_recently_played_songs`, skips an
    absent or empty table, and reports a failed write instead of raising it. */
module Loader {
  import opened Wrappers
  import opened Records

  const DestinationTable := "most_recently_played_songs"

  /** Connecting and appending to the named table, as one call: `None` when
      the rows were appended, `Some(message)` when connecting or writing
      raised. */
  type Writer = (string, seq<Record>) -> Option<string>

  /** How a load ends. None of the three is an error for the run. */
  datatype LoadOutcome =
    | NothingLoaded
    | Appended(records: seq<Record>)
    | WriteFailed(records: seq<Record>, message: string)

  /** The appends handed to the writer, as table name and records: none when
      nothing was loaded, else one. */
  function Writes(o: LoadOutcome): seq<(string, seq<Record>)> {
    if o.NothingLoaded? then [] else [(DestinationTable, o.records)]
  }

  /** The records appended for a table: one per row, in row order. */
  function RecordsOf(rows: seq<Row>): (recs: seq<Record>)
    ensures |recs| == |rows|
    ensures forall i :: 0 <= i < |rows| ==> recs[i] == ToRecord(rows[i])
  {
    seq(|rows|, i requires 0 <= i < |rows| => ToRecord(rows[i]))
  }

  function Load(table: Option<seq<Row>>, write: Writer): (o: LoadOutcome)
    ensures o.NothingLoaded? <==> table.None? || |table.value| == 0
    ensures !o.NothingLoaded? ==> o.records == RecordsOf(table.value)
    ensures o.WriteFailed? <==> !o.NothingLoaded? && write(DestinationTable, o.records).Some?
    ensures o.WriteFailed? ==> o.message == write(DestinationTable, o.records).value
  {
    match table
    case None => NothingLoaded
    case Some(rows) =>
      if |rows| == 0 then NothingLoaded
      else
        var recs := RecordsOf(rows);
        match write(DestinationTable, recs)
        case None => Appended(recs)
        case Some(message) => WriteFailed(recs, message)
  }

  /** An absent or empty table makes no write; a non-empty one makes exactly
      one, whose records hold every column of the table and nothing else, and
      give back the rows. */
  lemma LoadWrites(table: Option<seq<Row>>, write: Writer)
    ensures table.None? || |table.value| == 0 ==> Writes(Load(table, write)) == []
    ensures table.Some? && |table.value| > 0 ==>
              |Writes(Load(table, write))| == 1
              && Writes(Load(table, write))[0].0 == "most_recently_played_songs"
              && |Writes(Load(table, write))[0].1| == |table.value|
              && forall i :: 0 <= i < |table.value| ==>
                   Writes(Load(table, write))[0].1[i].Keys == AllColumns
                   && FromRecord(Writes(Load(table, write))[0].1[i]) == Some(table.value[i])
  {
    if table.Some? && |table.value| > 0 {
      var recs := RecordsOf(table.value);
      forall i | 0 <= i < |table.value|
        ensures FromRecord(recs[i]) == Some(table.value[i])
      {
        FromToRecord(table.value[i]);
      }
    }
  }
}
