/**
 * The staging loader and the comparison dispatcher.
 *
 * `ProcessFile` empties a staging table and inserts the rows of an uploaded
 * sheet one by one, tolerating rows the database rejects.  The comparison
 * dispatcher looks a named rule up in the dataset's rule registry and runs
 * it over the staged records.  The spreadsheet reader, the schema lookup
 * and the database insert are parameters.
 */
module FileImportService {
  import opened Php
  import opened Records
  import opened Effects

  // ---------------------------------------------------------------------
  // Comparison dispatch
  // ---------------------------------------------------------------------

  /** The comparison rules of each dataset class: dataset -> rule name -> rule over the staged records. */
  type Registry = map<string, map<string, seq<Record> -> seq<Row>>>

  /** The body of a comparison reply (its `notificationFlag` is always null). */
  datatype ComparisonContent = ComparisonContent(
    dataSet: string,
    comparison: string,
    rowCount: nat,
    message: Option<string>,
    /** The rule's records; null when the data set or the rule is unknown. */
    data: Option<seq<Row>>,
    header: Option<seq<Key>>)

  datatype ComparisonReply =
    | InputMissing
    | Compared(content: ComparisonContent, status: int)
  {
    function Status(): int
    {
      if InputMissing? then 400 else status
    }

    /** `$content->rowCount` of the decoded body; a body without one reads as null, which is not above 0. */
    function RowCount(): int
    {
      if InputMissing? then 0 else content.rowCount
    }
  }

  const MissingInputMessage: string := "Input must include the comparison and data set"
  const UnknownDataSet: string := " does not exist in FileImportComparisons"
  const UnknownComparison: string := " is not a valid comparison in "

  /** `masterDataComparisons`: an unknown dataset or rule is a 400 with one "row"; otherwise the rule's records. */
  function MasterDataComparisons(dataSet: string, comparison: string, registry: Registry, staged: seq<Record>)
    : (r: ComparisonReply)
    ensures r.Compared? && r.content.dataSet == dataSet && r.content.comparison == comparison
    ensures r.status == 200 <==> dataSet in registry && comparison in registry[dataSet]
    ensures r.status != 200 ==>
              r.status == 400 && r.content.rowCount == 1 && r.content.data.None?
              && r.content.header.None? && r.content.message.Some?
    ensures dataSet !in registry ==> r.content.message == Some(dataSet + UnknownDataSet)
    ensures dataSet in registry && comparison !in registry[dataSet] ==>
              r.content.message == Some(comparison + UnknownComparison + dataSet)
    ensures r.status == 200 ==>
              var data := registry[dataSet][comparison](staged);
              r.content.data == Some(data) && r.content.rowCount == |data| && r.content.message.None?
              && (r.content.header.Some? <==> |data| > 0)
              && (|data| > 0 ==> r.content.header.value == Keys(data[0]))
  {
    if dataSet !in registry then
      Compared(ComparisonContent(dataSet, comparison, 1, Some(dataSet + UnknownDataSet), None, None), 400)
    else if comparison !in registry[dataSet] then
      Compared(ComparisonContent(dataSet, comparison, 1, Some(comparison + UnknownComparison + dataSet), None, None), 400)
    else
      var data := registry[dataSet][comparison](staged);
      var header := if |data| > 0 then Some(Keys(data[0])) else None;
      Compared(ComparisonContent(dataSet, comparison, |data|, None, Some(data), header), 200)
  }

  /** `importDataComparisons`: both `comparison` and `dataSet` must be present. */
  function ImportDataComparisons(input: OMap<string, string>, registry: Registry, staged: seq<Record>)
    : (r: ComparisonReply)
    ensures r.InputMissing? <==> "comparison" !in Keys(input) || "dataSet" !in Keys(input)
    ensures r.InputMissing? ==> r.Status() == 400
    ensures r.Compared? ==>
              r.content.dataSet == Get(input, "dataSet").value
              && r.content.comparison == Get(input, "comparison").value
  {
    match (Get(input, "comparison"), Get(input, "dataSet"))
    case (Some(comparison), Some(dataSet)) => MasterDataComparisons(dataSet, comparison, registry, staged)
    case _ => InputMissing
  }

  function KeyJson(k: Key): Json
  {
    match k
    case Name(n) => JStr(n)
    case Index(i) => JInt(i)
  }

  function KeysJson(ks: seq<Key>): Json
  {
    JArray(seq(|ks|, i requires 0 <= i < |ks| => KeyJson(ks[i])))
  }

  function ComparisonJson(c: ComparisonContent): (j: Json)
  {
    JObject([
      ("dataSet", JStr(c.dataSet)),
      ("comparison", JStr(c.comparison)),
      ("rowCount", JInt(c.rowCount)),
      ("message", OptStringJson(c.message)),
      ("data", if c.data.None? then JNull else RowsJson(c.data.value)),
      ("header", if c.header.None? then JNull else KeysJson(c.header.value)),
      ("notificationFlag", JNull)])
  }

  function ReplyJson(r: ComparisonReply): Json
  {
    match r
    case InputMissing => JObject([("message", JStr(MissingInputMessage)), ("class", JStr("flash-bad"))])
    case Compared(c, _) => ComparisonJson(c)
  }

  /** An unknown data set or rule still reports one row, so it counts as failing, and its `data` is null. */
  lemma UnknownRuleFailsWithNullData(dataSet: string, comparison: string, registry: Registry, staged: seq<Record>)
    requires dataSet !in registry || comparison !in registry[dataSet]
    ensures var r := MasterDataComparisons(dataSet, comparison, registry, staged);
      r.RowCount() > 0 && ReplyJson(r).JObject? && ReplyJson(r).fields[4] == ("data", JNull)
  {
  }

  // ---------------------------------------------------------------------
  // Header reconciliation
  // ---------------------------------------------------------------------

  /** The table's columns other than `id`. */
  function TableColumns(columns: seq<string>): seq<string>
  {
    Filter(columns, (c: string) => c != "id")
  }

  /**
   * `in_array($field, $tableColumns)` with PHP 8's loose comparison: an
   * integer key equals a column whose name is its decimal rendering.
   */
  predicate LooselyIn(k: Key, names: seq<string>)
  {
    match k
    case Name(n) => n in names
    case Index(i) => IntToString(i) in names
  }

  /** A header key that cannot be inserted: the integer 0, or no column of the table other than `id`. */
  predicate Dropped(k: Key, columns: seq<string>)
  {
    !LooselyIn(k, TableColumns(columns)) || k == Index(0)
  }

  /** The header keys to remove from every row, in header order. */
  function FieldsToUnset(header: seq<Key>, columns: seq<string>): seq<Key>
  {
    Filter(header, (k: Key) => Dropped(k, columns))
  }

  /** The first loop of `findMissingFields`: every column except `id`, in order. */
  method ColumnsBesidesId(columns: seq<string>) returns (tableColumns: seq<string>)
    ensures tableColumns == TableColumns(columns)
  {
    tableColumns := [];
    var i := 0;
    while i < |columns|
      invariant 0 <= i <= |columns|
      invariant tableColumns == TableColumns(columns[..i])
    {
      assert columns[..i + 1] == columns[..i] + [columns[i]];
      FilterAppend(columns[..i], columns[i], (c: string) => c != "id");
      if columns[i] != "id" {
        tableColumns := tableColumns + [columns[i]];
      }
      i := i + 1;
    }
    assert columns[..i] == columns;
  }

  lemma UnsetStep(header: seq<Key>, j: nat, columns: seq<string>)
    requires j < |header|
    ensures FieldsToUnset(header[..j + 1], columns)
         == FieldsToUnset(header[..j], columns) + (if Dropped(header[j], columns) then [header[j]] else [])
  {
    assert header[..j + 1] == header[..j] + [header[j]];
    FilterAppend(header[..j], header[j], (k: Key) => Dropped(k, columns));
  }

  /** `findMissingFields`. */
  method FindMissingFields(header: seq<Key>, columns: seq<string>) returns (unset: seq<Key>)
    ensures unset == FieldsToUnset(header, columns)
    ensures forall k :: k in unset <==> k in header && (k == Index(0) || !LooselyIn(k, TableColumns(columns)))
  {
    var tableColumns := ColumnsBesidesId(columns);
    unset := [];
    var j := 0;
    while j < |header|
      invariant 0 <= j <= |header|
      invariant unset == FieldsToUnset(header[..j], columns)
    {
      UnsetStep(header, j, columns);
      if !LooselyIn(header[j], tableColumns) || header[j] == Index(0) {
        unset := unset + [header[j]];
      }
      j := j + 1;
    }
    assert header[..j] == header;
  }

  /** A header named `id` is always dropped: `id` is left out of the columns it is compared with. */
  lemma IdHeaderAlwaysDropped(header: seq<Key>, columns: seq<string>)
    requires Name("id") in header
    ensures Name("id") in FieldsToUnset(header, columns)
  {
    assert "id" !in TableColumns(columns);
  }

  /** `unset($row[$field])` for each field in turn. */
  method UnsetFields(row: Row, fields: seq<Key>) returns (r: Row)
    ensures r == UnsetAll(row, fields)
    ensures forall k :: k in fields ==> Get(r, k).None?
    ensures forall k :: k !in fields ==> Get(r, k) == Get(row, k)
  {
    r := row;
    var i := 0;
    while i < |fields|
      invariant 0 <= i <= |fields|
      invariant r == UnsetAll(row, fields[..i])
    {
      assert fields[..i + 1][..i] == fields[..i];
      r := Unset(r, fields[i]);
      i := i + 1;
    }
    assert fields[..i] == fields;
  }

  // ---------------------------------------------------------------------
  // Staging
  // ---------------------------------------------------------------------

  /** The one table whose rejected rows are skipped rather than reported. */
  const VesselLotTable: string := "staging_vessel_lot_codes"

  /** What the spreadsheet reader makes of the uploaded file. */
  datatype Sheet = Unreadable(reason: string) | Sheet(rows: seq<Row>)

  datatype InsertResult = Inserted | Rejected(error: string)

  /** The database insert: table name, rows already in the table, row to insert. */
  type Inserter = (string, seq<Record>, Row) -> InsertResult

  /** `processFile`'s `content`. */
  datatype StagingContent =
    | ParseError(message: string)
    | Staged(insertCount: nat, errorCount: nat, errorRows: seq<Row>, skippedCount: nat,
             recordCount: nat, message: string, cssClass: string)

  datatype StagingResult = StagingResult(content: StagingContent, statusCode: int)

  const ParseErrorLead: string := "There was an error with the import. "
  const ParseErrorTail: string := " Please notify support@vinoez.com of this error message and include your import file "

  function ParseFailureMessage(reason: string): string
  {
    ParseErrorLead + reason
    + ParseErrorTail
  }

  /** The rows inserted, the rows reported, and how many were skipped or failed. */
  datatype Tallies = Tallies(staged: seq<Record>, errorRows: seq<Row>, skipped: nat, errors: nat)

  /** The row as inserted: the dropped header keys removed. */
  function Prepared(row: Row, unset: seq<Key>): Row
  {
    UnsetAll(row, unset)
  }

  /**
   * The insert loop, row by row: an inserted row gets the next
   * auto-increment id of the freshly truncated table; a rejected row is
   * skipped for the vessel-lot table and reported with its error otherwise.
   */
  function StageRows(table: string, rows: seq<Row>, unset: seq<Key>, insert: Inserter): Tallies
  {
    if rows == [] then Tallies([], [], 0, 0)
    else StageRow(table, StageRows(table, rows[..|rows| - 1], unset, insert), Prepared(rows[|rows| - 1], unset), insert)
  }

  /** One pass of the staging loop over an already prepared row. */
  function StageRow(table: string, t: Tallies, row: Row, insert: Inserter): Tallies
  {
    match insert(table, t.staged, row)
    case Inserted => t.(staged := t.staged + [Record(|t.staged| + 1, row)])
    case Rejected(e) =>
      if table == VesselLotTable then t.(skipped := t.skipped + 1)
      else t.(errorRows := t.errorRows + [Put(row, Name("errorMessage"), Text(e))], errors := t.errors + 1)
  }

  lemma StageRowsStep(table: string, rows: seq<Row>, i: nat, unset: seq<Key>, insert: Inserter)
    requires i < |rows|
    ensures StageRows(table, rows[..i + 1], unset, insert)
         == StageRow(table, StageRows(table, rows[..i], unset, insert), Prepared(rows[i], unset), insert)
  {
    assert rows[..i + 1][..i] == rows[..i];
  }

  /**
   * Every row ends up inserted, skipped or reported, exactly one of them;
   * only the vessel-lot table skips; inserted rows are numbered from 1 and
   * carry none of the dropped keys.
   */
  lemma {:induction false} StageCounts(table: string, rows: seq<Row>, unset: seq<Key>, insert: Inserter)
    ensures var t := StageRows(table, rows, unset, insert);
      |t.staged| + t.skipped + t.errors == |rows|
      && |t.errorRows| == t.errors
      && (table == VesselLotTable ==> t.errors == 0)
      && (table != VesselLotTable ==> t.skipped == 0)
      && (forall i :: 0 <= i < |t.staged| ==> t.staged[i].id == i + 1)
      && (forall i, k :: 0 <= i < |t.staged| && k in unset ==> Get(t.staged[i].row, k).None?)
  {
    if rows != [] {
      StageCounts(table, rows[..|rows| - 1], unset, insert);
    }
  }

  /** Rows that carry an error message are exactly the rejected ones outside the vessel-lot table. */
  lemma {:induction false} ErrorRowsCarryMessage(table: string, rows: seq<Row>, unset: seq<Key>, insert: Inserter)
    ensures forall r :: r in StageRows(table, rows, unset, insert).errorRows ==> Get(r, Name("errorMessage")).Some?
  {
    if rows != [] {
      ErrorRowsCarryMessage(table, rows[..|rows| - 1], unset, insert);
      var t := StageRows(table, rows[..|rows| - 1], unset, insert);
      var row := Prepared(rows[|rows| - 1], unset);
      match insert(table, t.staged, row)
      case Inserted =>
      case Rejected(e) =>
        PutGet(row, Name("errorMessage"), Text(e), Name("errorMessage"));
    }
  }

  /** The header keys to drop, read from the first row when there is one. */
  function UnsetFor(rows: seq<Row>, columns: seq<string>): seq<Key>
  {
    if |rows| > 0 then FieldsToUnset(Keys(rows[0]), columns) else []
  }

  const ImportedInto: string := "File successfully imported into "
  const NotAllImported: string := "Not all rows were successfully imported."

  /** The content of a successful parse. */
  function StagedContent(table: string, rows: seq<Row>, t: Tallies): StagingContent
  {
    if t.errors == 0 then
      Staged(|t.staged|, 0, t.errorRows, t.skipped, |rows|, ImportedInto + table, "flash-good")
    else
      Staged(|t.staged|, t.errors, t.errorRows, t.skipped, |rows|, NotAllImported, "flash-bad")
  }

  /** The job-log entries and the truncation of a staging run, in order. */
  function StagingEvents(jobId: nat, table: string, rows: seq<Row>, t: Tallies, autoProcess: bool, encode: Json -> string)
    : seq<Event>
  {
    (if |rows| > 0 then [JobDetail(jobId, "Import fields ", encode(KeysJson(Keys(rows[0]))))] else [])
    + [TableTruncated(table), JobDetail(jobId, "Truncated " + table, "")]
    + [JobDetail(jobId, "Record count", IntToString(|rows|)),
       JobDetail(jobId, "Skipped count", IntToString(t.skipped)),
       JobDetail(jobId, "Insert count", IntToString(|t.staged|))]
    + (if t.errors == 0 && !autoProcess then [JobStopped(jobId, "Import successful")] else [])
  }

  /** The job is stopped, once, exactly when no row was reported and no load follows. */
  lemma StopsOnlyOnSuccess(jobId: nat, table: string, rows: seq<Row>, t: Tallies, autoProcess: bool, encode: Json -> string)
    ensures var events := StagingEvents(jobId, table, rows, t, autoProcess, encode);
      (exists e :: e in events && e.JobStopped?) <==> t.errors == 0 && !autoProcess
  {
    var events := StagingEvents(jobId, table, rows, t, autoProcess, encode);
    if t.errors == 0 && !autoProcess {
      assert events[|events| - 1].JobStopped?;
    }
  }

  datatype StagingOutcome = StagingOutcome(result: StagingResult, after: seq<Record>)

  /** What staging a sheet reports and leaves in the table. */
  function Staging(sheet: Sheet, table: string, columns: seq<string>, insert: Inserter, before: seq<Record>)
    : StagingOutcome
  {
    match sheet
    case Unreadable(reason) => StagingOutcome(StagingResult(ParseError(ParseFailureMessage(reason)), 500), before)
    case Sheet(rows) =>
      var t := StageRows(table, rows, UnsetFor(rows, columns), insert);
      StagingOutcome(StagingResult(StagedContent(table, rows, t), if t.errors == 0 then 200 else 400), t.staged)
  }

  /** The events of staging a sheet: none for an unreadable one. */
  function StagingTrace(jobId: nat, sheet: Sheet, table: string, columns: seq<string>, insert: Inserter,
                        autoProcess: bool, encode: Json -> string): seq<Event>
  {
    match sheet
    case Unreadable(_) => []
    case Sheet(rows) =>
      StagingEvents(jobId, table, rows, StageRows(table, rows, UnsetFor(rows, columns), insert), autoProcess, encode)
  }

  /** Staged with automatic processing on, the job is neither stopped nor killed, and nothing is loaded. */
  lemma AutoStagingLeavesJobOpen(jobId: nat, sheet: Sheet, table: string, columns: seq<string>, insert: Inserter,
                                 encode: Json -> string)
    ensures forall e :: e in StagingTrace(jobId, sheet, table, columns, insert, true, encode) ==>
              e.JobDetail? || e.TableTruncated?
  {
  }

  lemma StagingNeverLoads(jobId: nat, table: string, rows: seq<Row>, t: Tallies, autoProcess: bool, encode: Json -> string)
    ensures NoLoad(StagingEvents(jobId, table, rows, t, autoProcess, encode))
  {
  }

  /**
   * `processFile` from the parsed sheet on.  An unreadable sheet is a 500
   * that leaves the table and the job log alone; otherwise the table is
   * replaced by the rows the database accepted, and the status is 200 iff no
   * row was reported.
   */
  method ProcessFile(
    jobId: nat, sheet: Sheet, table: string, columns: seq<string>, autoProcess: bool,
    insert: Inserter, encode: Json -> string, before: seq<Record>)
    returns (result: StagingResult, after: seq<Record>, events: seq<Event>)
    ensures StagingOutcome(result, after) == Staging(sheet, table, columns, insert, before)
    ensures events == StagingTrace(jobId, sheet, table, columns, insert, autoProcess, encode)
    ensures result.statusCode == 500 <==> sheet.Unreadable?
    ensures sheet.Unreadable? ==>
      result == StagingResult(ParseError(ParseFailureMessage(sheet.reason)), 500) && after == before && events == []
    ensures sheet.Sheet? ==>
      var t := StageRows(table, sheet.rows, UnsetFor(sheet.rows, columns), insert);
      after == t.staged
      && result.content == StagedContent(table, sheet.rows, t)
      && events == StagingEvents(jobId, table, sheet.rows, t, autoProcess, encode)
    ensures sheet.Sheet? ==>
      result.content.insertCount + result.content.skippedCount + result.content.errorCount == result.content.recordCount == |sheet.rows|
      && |result.content.errorRows| == result.content.errorCount
      && (result.statusCode == 200 <==> result.content.errorCount == 0)
      && (result.statusCode == 200 || result.statusCode == 400)
    ensures (exists e :: e in events && e.JobStopped?) <==> sheet.Sheet? && result.statusCode == 200 && !autoProcess
    ensures NoLoad(events)
  {
    if sheet.Unreadable? {
      result := StagingResult(ParseError(ParseFailureMessage(sheet.reason)), 500);
      after := before;
      events := [];
      return;
    }
    var rows := sheet.rows;
    var unset: seq<Key> := [];
    events := [];
    if |rows| > 0 {
      events := [JobDetail(jobId, "Import fields ", encode(KeysJson(Keys(rows[0]))))];
      unset := FindMissingFields(Keys(rows[0]), columns);
    }
    events := events + [TableTruncated(table), JobDetail(jobId, "Truncated " + table, "")];
    var t := InsertRows(table, rows, unset, insert);
    StageCounts(table, rows, unset, insert);
    StopsOnlyOnSuccess(jobId, table, rows, t, autoProcess, encode);
    StagingNeverLoads(jobId, table, rows, t, autoProcess, encode);
    after := t.staged;
    events := events + [JobDetail(jobId, "Record count", IntToString(|rows|)),
                        JobDetail(jobId, "Skipped count", IntToString(t.skipped)),
                        JobDetail(jobId, "Insert count", IntToString(|t.staged|))];
    if t.errors == 0 {
      result := StagingResult(StagedContent(table, rows, t), 200);
      if !autoProcess {
        events := events + [JobStopped(jobId, "Import successful")];
      }
    } else {
      result := StagingResult(StagedContent(table, rows, t), 400);
    }
  }

  /** The insert loop of `processFile`, into a freshly truncated table. */
  method InsertRows(table: string, rows: seq<Row>, unset: seq<Key>, insert: Inserter) returns (t: Tallies)
    ensures t == StageRows(table, rows, unset, insert)
  {
    var staged: seq<Record> := [];
    var errorRows: seq<Row> := [];
    var errorCount, skippedCount := 0, 0;
    var i := 0;
    while i < |rows|
      invariant 0 <= i <= |rows|
      invariant Tallies(staged, errorRows, skippedCount, errorCount) == StageRows(table, rows[..i], unset, insert)
    {
      StageRowsStep(table, rows, i, unset, insert);
      var row := rows[i];
      if |unset| > 0 {
        row := UnsetFields(row, unset);
      }
      match insert(table, staged, row) {
        case Inserted =>
          staged := staged + [Record(|staged| + 1, row)];
        case Rejected(e) =>
          if table == VesselLotTable {
            skippedCount := skippedCount + 1;
          } else {
            errorCount := errorCount + 1;
            errorRows := errorRows + [Put(row, Name("errorMessage"), Text(e))];
          }
      }
      i := i + 1;
    }
    assert rows[..i] == rows;
    t := Tallies(staged, errorRows, skippedCount, errorCount);
  }

  /** `$ret['content']` as JSON: an error that is set inside the loop comes before `recordCount`. */
  function StagingJson(c: StagingContent): Json
  {
    match c
    case ParseError(m) => JObject([("error", JObject([("message", JStr(m))]))])
    case Staged(ins, errs, errorRows, skipped, records, message, cssClass) =>
      var counts := [("insertCount", JInt(ins)), ("errorCount", JInt(errs)),
                     ("errorRows", RowsJson(errorRows)), ("skippedCount", JInt(skipped))];
      if errs == 0 then
        JObject(counts + [("recordCount", JInt(records)), ("message", JStr(message)), ("class", JStr(cssClass))])
      else
        JObject(counts + [("message", JStr(message)), ("recordCount", JInt(records)), ("class", JStr(cssClass))])
  }
}
