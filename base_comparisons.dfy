/**
 * The building blocks of every dataset's comparison rules: row checks over
 * a staging table, the required-fields message, the WPI key, and the
 * summary a load or transformation returns.
 *
 * A check scans the staged records, collects the ids of those that fail,
 * and re-queries the table for exactly those ids.  Whether a referenced
 * model found, how a date parses and how a string coerces to a float are
 * parameters.
 */
module BaseComparisons {
  import opened Php
  import opened Records

  // ---------------------------------------------------------------------
  // Queries
  // ---------------------------------------------------------------------

  /** A raw `SELECT` list: every column, or the named columns in order. */
  datatype Selection = AllColumns | Columns(names: seq<string>)

  /** A selected column of a record; `id` is the record's own key, read as its decimal text. */
  function SelectedValue(rec: Record, column: string): Value
  {
    if column == "id" then Text(IntToString(rec.id)) else Field(rec, column)
  }

  function ProjectRow(rec: Record, cols: seq<string>): Row
  {
    seq(|cols|, i requires 0 <= i < |cols| => (Name(cols[i]), SelectedValue(rec, cols[i])))
  }

  /**
   * Applies the select list: the records keep their order and their ids;
   * a column list gives each record exactly the listed columns, in order,
   * with a selected `id` column holding the record's id.
   */
  function Project(recs: seq<Record>, sel: Selection): (r: seq<Record>)
    ensures Ids(r) == Ids(recs)
    ensures sel.AllColumns? ==> r == recs
    ensures sel.Columns? ==> forall k :: 0 <= k < |r| ==> |r[k].row| == |sel.names|
    ensures sel.Columns? ==>
      forall k, i :: 0 <= k < |r| && 0 <= i < |sel.names| ==>
        r[k].row[i].0 == Name(sel.names[i])
        && (sel.names[i] == "id" ==> r[k].row[i].1 == Text(IntToString(recs[k].id)))
        && (sel.names[i] != "id" ==> r[k].row[i].1 == Field(recs[k], sel.names[i]))
  {
    match sel
    case AllColumns => recs
    case Columns(cols) =>
      var r := seq(|recs|, i requires 0 <= i < |recs| => Record(recs[i].id, ProjectRow(recs[i], cols)));
      assert Ids(r) == Ids(recs);
      r
  }

  /** `getQueryForIdArray($source, $ids, $rawSelect)->get()`: the listed records, in table order. */
  function QueryForIdArray(table: seq<Record>, ids: seq<nat>, sel: Selection): (r: seq<Record>)
    ensures |r| <= |table|
    ensures sel.AllColumns? ==> forall rec :: rec in r <==> rec in table && rec.id in ids
  {
    Project(Filter(table, (rec: Record) => rec.id in ids), sel)
  }

  /** The ids of the records that fail a check, in table order. */
  function FailingIds(table: seq<Record>, fails: Record -> bool): seq<nat>
  {
    Ids(Filter(table, fails))
  }

  /** What a check returns: the re-queried failing records, or `[]` when none fails. */
  function Flagged(table: seq<Record>, fails: Record -> bool, sel: Selection): seq<Record>
  {
    var ids := FailingIds(table, fails);
    if |ids| > 0 then QueryForIdArray(table, ids, sel) else []
  }

  lemma IdOfMember(s: seq<Record>, rec: Record)
    requires rec in s
    ensures rec.id in Ids(s)
  {
    var k :| 0 <= k < |s| && s[k] == rec;
    assert Ids(s)[k] == rec.id;
  }

  /**
   * Because `id` is a key, re-querying by the failing ids yields exactly the
   * failing records as staged: the check reads the table and changes nothing.
   */
  lemma FlaggedExactly(table: seq<Record>, fails: Record -> bool)
    requires UniqueIds(table)
    ensures Flagged(table, fails, AllColumns) == Filter(table, fails)
  {
    var failing := Filter(table, fails);
    var ids := Ids(failing);
    forall rec | rec in table
      ensures (rec.id in ids) == fails(rec)
    {
      if fails(rec) {
        IdOfMember(failing, rec);
      }
      if rec.id in ids {
        var k :| 0 <= k < |ids| && ids[k] == rec.id;
        var other := failing[k];
        assert other in table && fails(other);
        var a :| 0 <= a < |table| && table[a] == other;
        var b :| 0 <= b < |table| && table[b] == rec;
        assert table[a].id == table[b].id;
        assert a == b;
      }
    }
    FilterAgree(table, (rec: Record) => rec.id in ids, fails);
  }

  lemma FailingIdsStep(table: seq<Record>, k: nat, fails: Record -> bool)
    requires k < |table|
    ensures FailingIds(table[..k + 1], fails)
         == FailingIds(table[..k], fails) + (if fails(table[k]) then [table[k].id] else [])
  {
    assert table[..k + 1] == table[..k] + [table[k]];
    FilterAppend(table[..k], table[k], fails);
    var failing := Filter(table[..k], fails);
    if fails(table[k]) {
      assert Ids(failing + [table[k]]) == Ids(failing) + [table[k].id];
    }
  }

  /** The loop every check shares: the ids of the failing records. */
  method CollectFailingIds(table: seq<Record>, fails: Record -> bool) returns (ids: seq<nat>)
    ensures ids == FailingIds(table, fails)
  {
    ids := [];
    var k := 0;
    while k < |table|
      invariant 0 <= k <= |table|
      invariant ids == FailingIds(table[..k], fails)
    {
      FailingIdsStep(table, k, fails);
      if fails(table[k]) {
        ids := ids + [table[k].id];
      }
      k := k + 1;
    }
    assert table[..k] == table;
  }

  /** Runs a check: collect the failing ids, then query for them if there are any. */
  method RunCheck(table: seq<Record>, fails: Record -> bool, sel: Selection) returns (r: seq<Record>)
    ensures r == Flagged(table, fails, sel)
    ensures UniqueIds(table) && sel.AllColumns? ==> forall rec :: rec in r <==> rec in table && fails(rec)
  {
    var ids := CollectFailingIds(table, fails);
    r := if |ids| > 0 then QueryForIdArray(table, ids, sel) else [];
    if UniqueIds(table) {
      FlaggedExactly(table, fails);
    }
  }

  // ---------------------------------------------------------------------
  // Null and reference checks
  // ---------------------------------------------------------------------

  /** `missingFieldSql`: the staged records whose required field is null. */
  function MissingFieldSql(table: seq<Record>, requiredField: string, sel: Selection): (r: seq<Record>)
    ensures |r| <= |table|
    ensures sel.AllColumns? ==> forall rec :: rec in r <==> rec in table && Field(rec, requiredField) == Null
  {
    Project(Filter(table, (rec: Record) => Field(rec, requiredField) == Null), sel)
  }

  /** A record whose reference finds no model (`firstOrFail` throws). */
  function UnresolvedReference(found: Value -> bool, dbKey: string): Record -> bool
  {
    (rec: Record) => !found(Field(rec, dbKey))
  }

  /** As above, but a null reference is allowed. */
  function UnresolvedNullableReference(found: Value -> bool, dbKey: string): Record -> bool
  {
    (rec: Record) => Field(rec, dbKey) != Null && !found(Field(rec, dbKey))
  }

  function HasValue(dbKey: string): Record -> bool
  {
    (rec: Record) => Field(rec, dbKey) != Null
  }

  /** `existingModelSql`: every record is looked up, a null one too. */
  method ExistingModelSql(table: seq<Record>, dbKey: string, found: Value -> bool, sel: Selection)
    returns (r: seq<Record>)
    ensures r == Flagged(table, UnresolvedReference(found, dbKey), sel)
    ensures UniqueIds(table) && sel.AllColumns? ==>
      forall rec :: rec in r <==> rec in table && !found(Field(rec, dbKey))
  {
    r := RunCheck(table, UnresolvedReference(found, dbKey), sel);
  }

  /** `nullableExistingModelSql`: records with a null reference are not looked up. */
  method NullableExistingModelSql(table: seq<Record>, dbKey: string, found: Value -> bool, sel: Selection)
    returns (r: seq<Record>)
    ensures r == Flagged(table, UnresolvedNullableReference(found, dbKey), sel)
    ensures UniqueIds(table) && sel.AllColumns? ==>
      forall rec :: rec in r <==> rec in table && Field(rec, dbKey) != Null && !found(Field(rec, dbKey))
  {
    r := RunCheck(table, UnresolvedNullableReference(found, dbKey), sel);
  }

  /**
   * The two reference checks differ only on nulls: the nullable one is the
   * strict one applied to the records that have a value.
   */
  lemma ReferenceChecksDifferOnNulls(table: seq<Record>, dbKey: string, found: Value -> bool)
    ensures Filter(table, UnresolvedNullableReference(found, dbKey))
         == Filter(Filter(table, HasValue(dbKey)), UnresolvedReference(found, dbKey))
  {
    FilterConjunction(table, HasValue(dbKey), UnresolvedReference(found, dbKey),
      UnresolvedNullableReference(found, dbKey));
  }

  /** When every reference resolves, neither check reports anything. */
  lemma ReferenceChecksPassWhenAllResolve(table: seq<Record>, dbKey: string, found: Value -> bool, sel: Selection)
    requires forall rec :: rec in table ==> found(Field(rec, dbKey))
    ensures Flagged(table, UnresolvedReference(found, dbKey), sel) == []
    ensures Flagged(table, UnresolvedNullableReference(found, dbKey), sel) == []
  {
    FilterNone(table, UnresolvedReference(found, dbKey));
    FilterNone(table, UnresolvedNullableReference(found, dbKey));
  }

  // ---------------------------------------------------------------------
  // Date and float checks
  // ---------------------------------------------------------------------

  /** A date parser: the text rendered in the given format, or nothing when it cannot parse. */
  type DateParser = (string, string) -> Option<string>

  /** `validDate`: null is never a valid date; otherwise the parser decides. */
  function ValidDate(v: Value, format: string, parse: DateParser): (r: Option<string>)
    ensures v == Null ==> r == None
    ensures v != Null ==> r == parse(v.text, format)
  {
    match v
    case Null => None
    case Text(t) => parse(t, format)
  }

  /** `!$parsedDate`: no date, or a rendering PHP reads as false. */
  predicate DateRejected(v: Value, format: string, parse: DateParser)
  {
    match ValidDate(v, format, parse)
    case None => true
    case Some(d) => Falsy(d)
  }

  function BadDate(dbKey: string, format: string, parse: DateParser): Record -> bool
  {
    (rec: Record) => DateRejected(Field(rec, dbKey), format, parse)
  }

  function BadNullableDate(dbKey: string, format: string, parse: DateParser): Record -> bool
  {
    (rec: Record) => Field(rec, dbKey) != Null && DateRejected(Field(rec, dbKey), format, parse)
  }

  /**
   * `validDateSql`.  The parsed value is written back only to the fetched
   * copy; what is returned is re-queried from the table.
   */
  method ValidDateSql(table: seq<Record>, dbKey: string, format: string, parse: DateParser, sel: Selection)
    returns (r: seq<Record>)
    ensures r == Flagged(table, BadDate(dbKey, format, parse), sel)
    ensures UniqueIds(table) && sel.AllColumns? ==>
      forall rec :: rec in r <==> rec in table && DateRejected(Field(rec, dbKey), format, parse)
  {
    r := RunCheck(table, BadDate(dbKey, format, parse), sel);
  }

  /** `validNullableDateSql`: a null date is not parsed. */
  method ValidNullableDateSql(table: seq<Record>, dbKey: string, format: string, parse: DateParser, sel: Selection)
    returns (r: seq<Record>)
    ensures r == Flagged(table, BadNullableDate(dbKey, format, parse), sel)
    ensures UniqueIds(table) && sel.AllColumns? ==>
      forall rec :: rec in r <==> rec in table && Field(rec, dbKey) != Null && DateRejected(Field(rec, dbKey), format, parse)
  {
    r := RunCheck(table, BadNullableDate(dbKey, format, parse), sel);
  }

  /**
   * The strict date check reports every record whose date is null, the
   * nullable one none of them, and on the records with a value they agree.
   */
  lemma DateChecksDifferOnNulls(table: seq<Record>, dbKey: string, format: string, parse: DateParser)
    ensures forall rec :: rec in table && Field(rec, dbKey) == Null ==> rec in Filter(table, BadDate(dbKey, format, parse))
    ensures forall rec :: rec in Filter(table, BadNullableDate(dbKey, format, parse)) ==> Field(rec, dbKey) != Null
    ensures Filter(table, BadNullableDate(dbKey, format, parse))
         == Filter(Filter(table, HasValue(dbKey)), BadDate(dbKey, format, parse))
  {
    FilterConjunction(table, HasValue(dbKey), BadDate(dbKey, format, parse), BadNullableDate(dbKey, format, parse));
  }

  /** `setFloatVal`: null is rejected; anything else is coerced by `floatval`. */
  function SetFloatVal(v: Value, coerce: string -> real): (r: Option<real>)
    ensures r.None? <==> v == Null
  {
    match v
    case Null => None
    case Text(t) => Some(coerce(t))
  }

  /** `!$float`: no float, or the float 0.0, which PHP reads as false. */
  predicate FloatRejected(v: Value, coerce: string -> real)
  {
    match SetFloatVal(v, coerce)
    case None => true
    case Some(x) => x == 0.0
  }

  function BadFloat(dbKey: string, coerce: string -> real): Record -> bool
  {
    (rec: Record) => FloatRejected(Field(rec, dbKey), coerce)
  }

  /**
   * `validFloatSql` as written: a failing id is appended to the fetched rows
   * instead of to the id list, so the id list stays empty and nothing is
   * ever reported.
   */
  method ValidFloatSqlAsWritten(table: seq<Record>, dbKey: string, coerce: string -> real, sel: Selection)
    returns (r: seq<Record>)
    ensures r == []
  {
    var dbRows: seq<Record> := table;
    var strayIds: seq<nat> := [];
    var dbRowIds: seq<nat> := [];
    var k := 0;
    while k < |table|
      invariant 0 <= k <= |table|
      invariant dbRowIds == []
    {
      if FloatRejected(Field(table[k], dbKey), coerce) {
        strayIds := strayIds + [table[k].id];
      }
      k := k + 1;
    }
    r := if |dbRowIds| > 0 then QueryForIdArray(dbRows, dbRowIds, sel) else [];
  }

  /** `validFloatSql` with the failing ids collected, as its siblings do. */
  method ValidFloatSql(table: seq<Record>, dbKey: string, coerce: string -> real, sel: Selection)
    returns (r: seq<Record>)
    ensures r == Flagged(table, BadFloat(dbKey, coerce), sel)
    ensures UniqueIds(table) && sel.AllColumns? ==>
      forall rec :: rec in r <==> rec in table && FloatRejected(Field(rec, dbKey), coerce)
  {
    r := RunCheck(table, BadFloat(dbKey, coerce), sel);
  }

  /** A staged record with a null amount, which the intended check reports. */
  lemma FloatCheckMissesNull(coerce: string -> real)
    ensures Flagged([Record(1, [(Name("amount"), Null)])], BadFloat("amount", coerce), AllColumns)
         == [Record(1, [(Name("amount"), Null)])]
  {
    var rec := Record(1, [(Name("amount"), Null)]);
    var bad := BadFloat("amount", coerce);
    assert Field(rec, "amount") == Null;
    assert bad(rec);
    FlaggedExactly([rec], bad);
    FilterSingleton(rec, bad);
  }

  // ---------------------------------------------------------------------
  // Required-fields message
  // ---------------------------------------------------------------------

  const Provided: string := "was not provided"
  const NotProvided: string := Provided + ","

  function Segment(key: string): string
  {
    key + " is required, but " + NotProvided
  }

  /** The keys whose value is null, in key order. */
  function NullKeys(fields: OMap<string, Value>): (ks: seq<string>)
    ensures ks == [] <==> forall i :: 0 <= i < |fields| ==> fields[i].1 != Null
  {
    if fields == [] then []
    else
      var init := fields[..|fields| - 1];
      var ks := NullKeys(init) + (if fields[|fields| - 1].1 == Null then [fields[|fields| - 1].0] else []);
      assert forall i :: 0 <= i < |init| ==> fields[i] == init[i];
      ks
  }

  /** `$msg` after the loop: one segment and a space per null value. */
  function RawMessage(fields: OMap<string, Value>): string
  {
    if fields == [] then ""
    else
      var last := fields[|fields| - 1];
      RawMessage(fields[..|fields| - 1]) + (if last.1 == Null then Segment(last.0) + " " else "")
  }

  /** The loop of `missingFieldsMsg`. */
  method BuildRawMessage(fields: OMap<string, Value>) returns (msg: string)
    ensures msg == RawMessage(fields)
  {
    msg := "";
    var k := 0;
    while k < |fields|
      invariant 0 <= k <= |fields|
      invariant msg == RawMessage(fields[..k])
    {
      assert fields[..k + 1][..k] == fields[..k];
      if fields[k].1 == Null {
        msg := msg + Segment(fields[k].0) + " ";
      }
      k := k + 1;
    }
    assert fields[..k] == fields;
  }

  /** The loop's text is the segments joined by single spaces, plus a trailing space. */
  lemma {:induction false} RawMessageJoined(fields: OMap<string, Value>)
    ensures NullKeys(fields) == [] ==> RawMessage(fields) == ""
    ensures NullKeys(fields) != [] ==> RawMessage(fields) == Join(MapSeq(NullKeys(fields), Segment), " ") + " "
  {
    if fields != [] {
      var init := fields[..|fields| - 1];
      var last := fields[|fields| - 1];
      RawMessageJoined(init);
      var ks := NullKeys(init);
      if last.1 == Null {
        assert NullKeys(fields) == ks + [last.0];
        SegmentsStep(ks, last.0);
      } else {
        assert RawMessage(fields) == RawMessage(init);
        assert NullKeys(fields) == ks;
      }
    }
  }

  /** One more segment: the joined text with its trailing space grows by the segment and a space. */
  lemma SegmentsStep(ks: seq<string>, key: string)
    ensures Join(MapSeq(ks + [key], Segment), " ") + " "
         == (if ks == [] then "" else Join(MapSeq(ks, Segment), " ") + " ") + (Segment(key) + " ")
  {
    var seg := Segment(key);
    MapSeqAppend(ks, key, Segment);
    if ks == [] {
      assert MapSeq(ks + [key], Segment) == [seg];
      assert "" + (seg + " ") == seg + " ";
    } else {
      JoinAppend(MapSeq(ks, Segment), seg, " ");
      AppendAssoc(Join(MapSeq(ks, Segment), " ") + " ", seg, " ");
    }
  }

  lemma TrimRightAfterSegment(joined: string)
    requires |joined| > 0 && joined[|joined| - 1] == ','
    ensures TrimRight(joined + " ") == joined
    ensures RTrimChar(joined + " ", ',') == joined + " "
  {
    assert (joined + " ")[..|joined|] == joined;
  }


  /** Stripping leading blanks never reaches into a suffix that starts with a non-blank. */
  lemma {:induction false} TrimLeftKeepsSuffix(s: string, t: string)
    requires IsSuffix(t, s) && |t| > 0 && !IsTrimSpace(t[0])
    ensures IsSuffix(t, TrimLeft(s))
  {
    if |s| > 0 && IsTrimSpace(s[0]) {
      assert |t| < |s|;
      assert s[1..][|s| - 1 - |t|..] == s[|s| - |t|..];
      TrimLeftKeepsSuffix(s[1..], t);
    }
  }

  /** The message text for a non-empty list of null keys. */
  function JoinedSegments(fields: OMap<string, Value>): string
  {
    Join(MapSeq(NullKeys(fields), Segment), " ")
  }

  lemma JoinedSegmentsEnd(fields: OMap<string, Value>)
    requires NullKeys(fields) != []
    ensures IsSuffix(NotProvided, JoinedSegments(fields))
    ensures JoinedSegments(fields)[|JoinedSegments(fields)| - 1] == ','
  {
    var keys := NullKeys(fields);
    var segs := MapSeq(keys, Segment);
    var joined := JoinedSegments(fields);
    JoinEndsWithLast(segs, " ");
    var key := keys[|keys| - 1];
    assert segs[|segs| - 1] == (key + " is required, but ") + NotProvided;
    SuffixOfAppend(NotProvided, key + " is required, but ", NotProvided);
    SuffixTrans(NotProvided, segs[|segs| - 1], joined);
    assert joined[|joined| - 1] == NotProvided[|NotProvided| - 1];
  }

  /**
   * `missingFieldsMsg` as written: no message iff no value is null;
   * otherwise the segments in key order separated by single spaces, still
   * ending in a comma, because `rtrim($msg, ',')` runs while the trailing
   * space is still there.
   */
  method MissingFieldsMsgAsWritten(fields: OMap<string, Value>) returns (r: Option<string>)
    ensures r.None? <==> forall i :: 0 <= i < |fields| ==> fields[i].1 != Null
    ensures r.Some? ==> r.value == TrimLeft(JoinedSegments(fields))
    ensures r.Some? ==> |r.value| > 0 && r.value[|r.value| - 1] == ','
  {
    var msg := BuildRawMessage(fields);
    RawMessageJoined(fields);
    if NullKeys(fields) != [] {
      JoinedSegmentsEnd(fields);
      TrimRightAfterSegment(JoinedSegments(fields));
      TrimLeftKeepsSuffix(JoinedSegments(fields), NotProvided);
    }
    r := if msg == "" then None else Some(Trim(RTrimChar(msg, ',')));
  }

  /** Stripping commas from a text that ends in a segment removes just the final comma. */
  lemma StripFinalComma(s: string)
    requires IsSuffix(NotProvided, s)
    ensures RTrimChar(s, ',') == s[..|s| - 1]
    ensures IsSuffix(Provided, RTrimChar(s, ','))
  {
    var n := |s|;
    var m := |Provided|;
    assert s[n - m - 1..] == Provided + ",";
    assert s[n - 1] == ',';
    assert s[..n - 1][n - 1 - m..] == s[n - m - 1..][..m];
    assert s[n - 2] == Provided[m - 1] == 'd';
    assert RTrimChar(s[..n - 1], ',') == s[..n - 1];
  }

  /** `missingFieldsMsg` with the comma stripped after the blank: the text ends "was not provided". */
  method MissingFieldsMsg(fields: OMap<string, Value>) returns (r: Option<string>)
    ensures r.None? <==> forall i :: 0 <= i < |fields| ==> fields[i].1 != Null
    ensures r.Some? ==> r.value == RTrimChar(TrimLeft(JoinedSegments(fields)), ',')
    ensures r.Some? ==> IsSuffix(Provided, r.value)
  {
    var msg := BuildRawMessage(fields);
    RawMessageJoined(fields);
    if NullKeys(fields) != [] {
      JoinedSegmentsEnd(fields);
      TrimRightAfterSegment(JoinedSegments(fields));
      TrimLeftKeepsSuffix(JoinedSegments(fields), NotProvided);
      StripFinalComma(TrimLeft(JoinedSegments(fields)));
    }
    r := if msg == "" then None else Some(RTrimChar(Trim(msg), ','));
  }

  // ---------------------------------------------------------------------
  // Looking up one model
  // ---------------------------------------------------------------------

  /** What `existingModelsMsg` returns: the model found, or why there is none. */
  datatype Existing = Found(model: Record) | Missing(message: string)

  /** `$model::where($key, $val)->first()`: the first stored model whose attribute holds the value. */
  function FirstWhere(models: seq<Record>, key: string, val: string): (r: Option<Record>)
    ensures r.Some? ==> r.value in models && Field(r.value, key) == Text(val)
    ensures r.None? <==> forall m :: m in models ==> Field(m, key) != Text(val)
  {
    if models == [] then None
    else if Field(models[0], key) == Text(val) then Some(models[0])
    else FirstWhere(models[1..], key, val)
  }

  /** `existingModelsMsg`: the matching model, or a message naming the model, attribute and value sought. */
  function ExistingModelsMsg(modelName: string, models: seq<Record>, key: string, val: string): (r: Existing)
    ensures r.Missing? <==> forall m :: m in models ==> Field(m, key) != Text(val)
    ensures r.Found? ==> r.model in models && Field(r.model, key) == Text(val)
    ensures r.Missing? ==> IsPrefix(modelName + " with " + key, r.message)
                           && IsSuffix("\" does not exist", r.message)
  {
    match FirstWhere(models, key, val)
    case Some(m) => Found(m)
    case None =>
      var msg := modelName + " with " + key + " of \"" + val + "\" does not exist";
      assert msg == modelName + " with " + key + (" of \"" + val + "\" does not exist");
      Missing(msg)
  }

  // ---------------------------------------------------------------------
  // WPI
  // ---------------------------------------------------------------------

  /** `buildWpi`: the base code followed by the last two characters of the year. */
  function BuildWpi(wpi: Value, year: Value): (r: Option<string>)
    ensures r.None? <==> wpi == Null || year == Null
    ensures r.Some? ==> |r.value| == |wpi.text| + (if |year.text| < 2 then |year.text| else 2)
    ensures r.Some? ==> IsPrefix(wpi.text, r.value) && IsSuffix(r.value[|wpi.text|..], year.text)
  {
    if wpi != Null && year != Null then Some(wpi.text + LastTwo(year.text)) else None
  }

  // ---------------------------------------------------------------------
  // Summary of a load or transformation
  // ---------------------------------------------------------------------

  datatype Tally = Tally(count: nat, records: seq<Row>)

  /** The array `getReturnArray` returns (`new` is spelled `created` here). */
  datatype ReturnArray = ReturnArray(
    message: string,
    success: bool,
    successful: OMap<string, Tally>,
    failed: OMap<string, Tally>,
    empty: bool)

  /** An optional array that is null or has no element. */
  predicate Blank(a: Option<seq<Row>>) { a.None? || |a.value| < 1 }

  function CountOf(a: Option<seq<Row>>): nat { if a.None? then 0 else |a.value| }

  /** The " and N existing <plural> were successfully <done>" clause of a present array. */
  function ExistingClause(a: Option<seq<Row>>, plural: string, outcome: string): string
  {
    if a.None? then "" else " and " + IntToString(|a.value|) + " existing " + plural + outcome
  }

  /** "<model> transformations completed with " or "<model> loads completed with ". */
  function SummaryPrefix(kind: string, modelType: string): string
  {
    modelType + (if kind == "transform" then " transformations " else " loads ") + "completed with "
  }

  /** "<plural> were successfully transformed" or "new <plural> were successfully created". */
  function SummarySuffix(kind: string, plural: string): string
  {
    if kind == "transform" then plural + " were successfully transformed"
    else "new " + plural + " were successfully created"
  }

  /** The clauses for updated and deleted records, present only when one of them is non-empty. */
  function SummaryClauses(updated: Option<seq<Row>>, deleted: Option<seq<Row>>, pluralName: string): string
  {
    if Blank(updated) && Blank(deleted) then ""
    else ExistingClause(updated, pluralName, " were successfully updated")
         + ExistingClause(deleted, pluralName, " were successfully deleted")
  }

  /** The first sentence of the summary: what was done, the error count and the new count. */
  function SummaryOpeningText(kind: string, modelType: string, errorCount: nat, newCount: nat, plural: string): string
  {
    SummaryPrefix(kind, modelType) + IntToString(errorCount) + " errors. "
    + IntToString(newCount) + " " + SummarySuffix(kind, plural)
  }

  /** The summary sentence, piece by piece. */
  function SummaryMessage(
    kind: string, modelType: string, errorCount: nat, newCount: nat,
    updated: Option<seq<Row>>, deleted: Option<seq<Row>>, plural: string): string
  {
    SummaryOpeningText(kind, modelType, errorCount, newCount, plural) + SummaryClauses(updated, deleted, plural) + "."
  }

  /** The opening sentence, built as `getReturnArray` builds it. */
  method SummaryOpening(kind: string, modelType: string, errorCount: nat, newCount: nat, plural: string)
    returns (msg: string)
    ensures msg == SummaryOpeningText(kind, modelType, errorCount, newCount, plural)
  {
    var msgPrefix := modelType;
    var msgSuffix := plural;
    var createdWord := "created";
    if kind == "transform" {
      msgPrefix := msgPrefix + " transformations ";
      createdWord := "transformed";
    } else {
      msgPrefix := msgPrefix + " loads ";
      msgSuffix := "new " + msgSuffix;
    }
    msgPrefix := msgPrefix + "completed with ";
    msgSuffix := msgSuffix + " were successfully " + createdWord;
    AppendAssoc(if kind == "transform" then plural else "new " + plural, " were successfully ", createdWord);
    assert msgPrefix == SummaryPrefix(kind, modelType);
    assert msgSuffix == SummarySuffix(kind, plural);
    msg := msgPrefix + IntToString(errorCount) + " errors. " + IntToString(newCount) + " " + msgSuffix;
  }

  /** Appends the clause for each present array, as the `else` branch of `getReturnArray` does. */
  method AppendExistingClauses(opening: string, updated: Option<seq<Row>>, deleted: Option<seq<Row>>, plural: string)
    returns (msg: string)
    ensures msg == opening + ExistingClause(updated, plural, " were successfully updated")
                           + ExistingClause(deleted, plural, " were successfully deleted")
  {
    msg := opening;
    if updated.Some? {
      msg := msg + (" and " + IntToString(|updated.value|) + " existing " + plural + " were successfully updated");
    }
    ghost var middle := msg;
    if deleted.Some? {
      msg := msg + (" and " + IntToString(|deleted.value|) + " existing " + plural + " were successfully deleted");
    }
    assert msg == middle + ExistingClause(deleted, plural, " were successfully deleted");
  }

  /** The message half of `getReturnArray`. */
  method BuildSummary(
    kind: string, modelType: string, errorCount: nat, newCount: nat,
    updated: Option<seq<Row>>, deleted: Option<seq<Row>>, plural: string)
    returns (msg: string)
    ensures msg == SummaryMessage(kind, modelType, errorCount, newCount, updated, deleted, plural)
  {
    msg := SummaryOpening(kind, modelType, errorCount, newCount, plural);
    if Blank(updated) && Blank(deleted) {
      msg := msg + ".";
    } else {
      ghost var opening := msg;
      msg := AppendExistingClauses(msg, updated, deleted, plural);
      AppendAssoc(opening, ExistingClause(updated, plural, " were successfully updated"),
        ExistingClause(deleted, plural, " were successfully deleted"));
      msg := msg + ".";
    }
  }

  /**
   * The `successful` array: the created rows under their key, then the
   * updated and the deleted arrays that were passed, unless both are blank.
   */
  method SuccessArray(successKey: string, created: seq<Row>, updated: Option<seq<Row>>, deleted: Option<seq<Row>>)
    returns (successArray: OMap<string, Tally>)
    requires successKey != "updated_data" && successKey != "deleted_data"
    ensures Get(successArray, successKey) == Some(Tally(|created|, created))
    ensures Get(successArray, "updated_data")
         == if updated.Some? && !(Blank(updated) && Blank(deleted)) then Some(Tally(|updated.value|, updated.value)) else None
    ensures Get(successArray, "deleted_data")
         == if deleted.Some? && !(Blank(updated) && Blank(deleted)) then Some(Tally(|deleted.value|, deleted.value)) else None
  {
    successArray := [(successKey, Tally(|created|, created))];
    if !(Blank(updated) && Blank(deleted)) {
      if updated.Some? {
        PutGet(successArray, "updated_data", Tally(|updated.value|, updated.value), successKey);
        PutGet(successArray, "updated_data", Tally(|updated.value|, updated.value), "updated_data");
        PutGet(successArray, "updated_data", Tally(|updated.value|, updated.value), "deleted_data");
        successArray := Put(successArray, "updated_data", Tally(|updated.value|, updated.value));
      }
      if deleted.Some? {
        PutGet(successArray, "deleted_data", Tally(|deleted.value|, deleted.value), successKey);
        PutGet(successArray, "deleted_data", Tally(|deleted.value|, deleted.value), "updated_data");
        PutGet(successArray, "deleted_data", Tally(|deleted.value|, deleted.value), "deleted_data");
        successArray := Put(successArray, "deleted_data", Tally(|deleted.value|, deleted.value));
      }
    }
  }

  /**
   * `getReturnArray`, with `plural` the inflected model name.  The file was
   * empty iff all four arrays are; the import succeeded iff something was
   * created, updated or deleted.
   */
  method GetReturnArray(
    kind: string, modelType: string, errors: seq<Row>, created: seq<Row>,
    updated: Option<seq<Row>>, deleted: Option<seq<Row>>, plural: string)
    returns (r: ReturnArray)
    ensures r.empty <==> |errors| == 0 && |created| == 0 && Blank(updated) && Blank(deleted)
    ensures r.success <==> |created| > 0 || !Blank(updated) || !Blank(deleted)
    ensures r.failed == [("errors", Tally(|errors|, errors))]
    ensures Get(r.successful, if kind == "transform" then "transformed_data" else "new_data")
         == Some(Tally(|created|, created))
    ensures Get(r.successful, "updated_data")
         == if updated.Some? && !(Blank(updated) && Blank(deleted)) then Some(Tally(|updated.value|, updated.value)) else None
    ensures Get(r.successful, "deleted_data")
         == if deleted.Some? && !(Blank(updated) && Blank(deleted)) then Some(Tally(|deleted.value|, deleted.value)) else None
    ensures r.message == SummaryMessage(kind, modelType, |errors|, |created|, updated, deleted, plural)
  {
    var successKey := if kind == "transform" then "transformed_data" else "new_data";
    var newCount := |created|;
    var errorCount := |errors|;
    var successArray := SuccessArray(successKey, created, updated, deleted);
    var failedArray := [("errors", Tally(errorCount, errors))];
    var msg := BuildSummary(kind, modelType, errorCount, newCount, updated, deleted, plural);
    var wasEmpty := Blank(deleted) && Blank(updated) && newCount < 1 && errorCount < 1;
    var status: bool;
    if wasEmpty {
      status := false;
    } else {
      var upd := Get(successArray, "updated_data");
      var del := Get(successArray, "deleted_data");
      status := Get(successArray, successKey).value.count > 0
        || (updated.Some? && upd.Some? && upd.value.count > 0)
        || (deleted.Some? && del.Some? && del.value.count > 0);
    }
    r := ReturnArray(msg, status, successArray, failedArray, wasEmpty);
  }
}
