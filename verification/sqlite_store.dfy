/**
 * The relational implementation of the record repository: a table
 * `record_table(high_score INTEGER, timestamp INTEGER)` that is emptied and
 * given one row on every save, and read back with
 * `ORDER BY high_score DESC LIMIT 1`.
 */
module SqliteStore {
  import opened Wrappers
  import opened Records

  /** One row of the table: the score column and the millisecond time column. */
  datatype Row = Row(score: int, time: int)

  /** The table's rows in storage order. */
  type Table = seq<Row>

  function RowOf(r: Record): Row
  {
    Row(r.highScore, r.timestamp)
  }

  function RecordOf(row: Row): Record
  {
    Record(row.score, row.time)
  }

  /** Creating the database creates the table with no rows. */
  function OnCreate(): (t: Table)
    ensures |t| == 0
  {
    []
  }

  /** Any version change drops the table and creates it again, losing every row. */
  function OnUpgrade(t: Table, oldVersion: int, newVersion: int): (t': Table)
    ensures |t'| == 0
    ensures GetRecord(t') == Default
  {
    OnCreate()
  }

  /** The first row answered by `ORDER BY score DESC LIMIT 1`: a row of
      maximal score (the earliest such row when several tie). */
  function TopRow(t: Table): (top: Option<Row>)
    ensures top.None? <==> |t| == 0
    ensures top.Some? ==> top.value in t
    ensures top.Some? ==> forall i :: 0 <= i < |t| ==> t[i].score <= top.value.score
  {
    if |t| == 0 then None
    else
      match TopRow(t[1..])
      case None => Some(t[0])
      case Some(best) => if t[0].score >= best.score then Some(t[0]) else Some(best)
  }

  /** Reads the top row, or the default record when the table is empty. */
  function GetRecord(t: Table): (r: Record)
    ensures |t| == 0 ==> r == Default
    ensures |t| > 0 ==> RowOf(r) in t
    ensures forall i :: 0 <= i < |t| ==> t[i].score <= r.highScore
  {
    match TopRow(t)
    case None => Default
    case Some(row) => RecordOf(row)
  }

  /** Deletes every row, then inserts the record as the one new row;
      `inserted` is false when the insert reports failure (row id -1),
      which is only logged, leaving the table empty. */
  function SaveRecord(t: Table, r: Record, inserted: bool): (t': Table)
    ensures |t'| <= 1
    ensures inserted ==> |t'| == 1 && GetRecord(t') == r
    ensures !inserted ==> GetRecord(t') == Default
  {
    var emptied: Table := [];
    if inserted then emptied + [RowOf(r)] else emptied
  }
}
