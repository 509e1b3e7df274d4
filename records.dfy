/**
 * Rows of the staging tables and the JSON-shaped values the pipeline hands
 * around.  A row is a PHP array keyed by column name; a spreadsheet header
 * may also produce integer keys, so a key is either a name or an index.
 */
module Records {
  import opened Php

  datatype Key = Name(name: string) | Index(index: int)

  /** A cell: SQL NULL or text (every staged column is read back as text). */
  datatype Value = Null | Text(text: string)

  type Row = OMap<Key, Value>

  /** A row of a staging table together with its auto-increment `id`. */
  datatype Record = Record(id: nat, row: Row)

  /** `$record->$column`: a column the record does not have reads as null. */
  function Field(rec: Record, column: string): (v: Value)
    ensures Name(column) !in Keys(rec.row) ==> v == Null
  {
    match Get(rec.row, Name(column))
    case None => Null
    case Some(x) => x
  }

  function Ids(table: seq<Record>): (ids: seq<nat>)
    ensures |ids| == |table|
    ensures forall i :: 0 <= i < |table| ==> ids[i] == table[i].id
  {
    seq(|table|, i requires 0 <= i < |table| => table[i].id)
  }

  /** `id` is the primary key of every staging table. */
  predicate UniqueIds(table: seq<Record>)
  {
    forall i, j :: 0 <= i < j < |table| ==> table[i].id != table[j].id
  }

  /** The text PHP uses for an array key. */
  function KeyText(k: Key): string
  {
    match k
    case Name(n) => n
    case Index(i) => IntToString(i)
  }

  /** Decoded JSON, and PHP arrays as `json_encode` sees them. */
  datatype Json =
    | JNull
    | JBool(b: bool)
    | JInt(n: int)
    | JStr(s: string)
    | JArray(items: seq<Json>)
    | JObject(fields: OMap<string, Json>)

  /** PHP's `is_countable`: only arrays (lists and maps) are. */
  predicate Countable(j: Json) { j.JArray? || j.JObject? }

  /** PHP's `count` of an array. */
  function Count(j: Json): (n: nat)
    requires Countable(j)
  {
    if j.JArray? then |j.items| else |j.fields|
  }

  function ValueJson(v: Value): Json
  {
    match v
    case Null => JNull
    case Text(t) => JStr(t)
  }

  function RowJson(row: Row): (j: Json)
    ensures j.JObject? && |j.fields| == |row|
  {
    JObject(seq(|row|, i requires 0 <= i < |row| => (KeyText(row[i].0), ValueJson(row[i].1))))
  }

  function RowsJson(rows: seq<Row>): (j: Json)
    ensures j.JArray? && |j.items| == |rows|
  {
    JArray(seq(|rows|, i requires 0 <= i < |rows| => RowJson(rows[i])))
  }

  function StringsJson(ss: seq<string>): (j: Json)
    ensures j.JArray? && |j.items| == |ss|
  {
    JArray(seq(|ss|, i requires 0 <= i < |ss| => JStr(ss[i])))
  }

  function OptStringJson(s: Option<string>): Json
  {
    match s
    case None => JNull
    case Some(t) => JStr(t)
  }
}
