/**
 * The response envelope every controller shares: the status an exception
 * maps to, the error reply built from an exception, and the standard
 * success reply whose keys come in a fixed order.
 */
module Controller {
  import opened Php
  import opened Records

  /** What the helpers read off an exception. */
  datatype Failure = Failure(
    isHttp: bool,
    httpStatus: int,
    code: int,
    message: string,
    file: string,
    line: int)

  /** The status an exception carries: its HTTP status, or its code otherwise. */
  function CarriedStatus(e: Failure): int
  {
    if e.isHttp then e.httpStatus else e.code
  }

  /** `setStatus`: the carried status when it is a plausible HTTP status, the backup otherwise. */
  function SetStatus(e: Failure, backup: int): (r: int)
    ensures var s := CarriedStatus(e);
      (s == 0 || s > 530 || s < 100 ==> r == backup)
      && (100 <= s <= 530 ==> r == s)
    ensures r == backup || 100 <= r <= 530
  {
    var status := CarriedStatus(e);
    if status == 0 || status > 530 || status < 100 then backup else status
  }

  /** The `errorMessage` of an error reply. */
  function ErrorMessage(e: Failure): string
  {
    e.message + " in " + e.file + " on line " + IntToString(e.line)
  }

  /** `strpos($errMsg, 'SQL:')` is truthy: the marker occurs, and not at the very start. */
  predicate MentionsSql(errMsg: string)
  {
    var at := IndexOf(errMsg, "SQL:");
    at.Some? && at.value > 0
  }

  /** A message that starts with the marker is not treated as a database error. */
  lemma SqlAtStartIsMissed(errMsg: string)
    requires IsPrefix("SQL:", errMsg)
    ensures !MentionsSql(errMsg)
  {
    assert OccursAt(errMsg, "SQL:", 0);
  }

  const DatabaseErrorSuffix: string := ": A database error has occurred"

  /** The caller's message, with the database-error suffix when the error text mentions SQL. */
  function ReplyMessage(errMsg: string, message: Option<string>): (r: Option<string>)
    ensures !MentionsSql(errMsg) ==> r == message
    ensures MentionsSql(errMsg) ==> r.Some? && IsSuffix(DatabaseErrorSuffix, r.value)
  {
    if MentionsSql(errMsg) then Some((if message.Some? then message.value else "") + DatabaseErrorSuffix)
    else message
  }

  /** `foreach ($additional as $key => $value) { $content[$key] = $value; }` */
  method AddPairs(content: OMap<string, Json>, additional: OMap<string, Json>) returns (r: OMap<string, Json>)
    requires DistinctKeys(additional)
    ensures r == PutAll(content, additional)
    ensures |r| >= |content| && Keys(r)[..|content|] == Keys(content)
    ensures forall k :: Get(r, k) == if k in Keys(additional) then Get(additional, k) else Get(content, k)
  {
    r := content;
    var i := 0;
    while i < |additional|
      invariant 0 <= i <= |additional|
      invariant r == PutAll(content, additional[..i])
    {
      assert additional[..i + 1][..i] == additional[..i];
      r := Put(r, additional[i].0, additional[i].1);
      i := i + 1;
    }
    assert additional[..i] == additional;
    PutAllKeepsOrder(content, additional);
    forall k ensures Get(r, k) == if k in Keys(additional) then Get(additional, k) else Get(content, k) {
      PutAllGet(content, additional, k);
    }
  }

  /**
   * `getErrorResponseForException`.  The reply holds the caller's message
   * (with the database-error suffix when the error text mentions SQL) and
   * the error text, then the additional pairs, which overwrite.
   */
  method GetErrorResponseForException(e: Failure, backup: int, message: Option<string> := None,
                                      additional: OMap<string, Json> := [])
    returns (content: OMap<string, Json>, status: int)
    requires DistinctKeys(additional)
    ensures status == SetStatus(e, backup)
    ensures |content| >= 2 && Keys(content)[..2] == ["message", "errorMessage"]
    ensures forall k :: k in Keys(additional) ==> Get(content, k) == Get(additional, k)
    ensures "errorMessage" !in Keys(additional) ==> Get(content, "errorMessage") == Some(JStr(ErrorMessage(e)))
    ensures "message" !in Keys(additional) ==>
              Get(content, "message") == Some(OptStringJson(ReplyMessage(ErrorMessage(e), message)))
    ensures forall k :: k !in Keys(additional) && k != "message" && k != "errorMessage" ==> Get(content, k).None?
  {
    status := SetStatus(e, backup);
    var errMsg := e.message + " in " + e.file + " on line " + IntToString(e.line);
    var msg := message;
    if MentionsSql(errMsg) {
      msg := Some((if message.Some? then message.value else "") + DatabaseErrorSuffix);
    }
    var head := [("message", OptStringJson(msg)), ("errorMessage", JStr(errMsg))];
    assert Keys(head) == ["message", "errorMessage"];
    assert Get(head, "message") == Some(OptStringJson(msg));
    assert Get(head, "errorMessage") == Some(JStr(errMsg));
    content := head;
    if |additional| > 0 {
      content := AddPairs(head, additional);
    }
  }

  /** The `count` of a standard reply: the given count, or the size of countable data. */
  function ReplyCount(data: Json, count: Option<int>): (r: Option<int>)
    ensures count.Some? ==> r == count
    ensures count.None? ==> (r.Some? <==> Countable(data))
  {
    if count.None? && Countable(data) then Some(Count(data)) else count
  }

  /** The keys of a standard reply before the additional pairs. */
  function ReplyHead(data: Json, message: string, dataName: string, count: Option<int>): OMap<string, Json>
  {
    var withMessage := [("message", JStr(message))];
    var withCount := if ReplyCount(data, count).Some? then Put(withMessage, "count", JInt(ReplyCount(data, count).value)) else withMessage;
    Put(withCount, dataName, data)
  }

  lemma ReplyHeadShape(data: Json, message: string, dataName: string, count: Option<int>)
    ensures var head := ReplyHead(data, message, dataName, count);
      var cnt := ReplyCount(data, count);
      && |head| > 0 && Keys(head)[0] == "message"
      && Get(head, dataName) == Some(data)
      && (dataName != "count" ==> Get(head, "count") == if cnt.Some? then Some(JInt(cnt.value)) else None)
      && (dataName != "message" ==> Get(head, "message") == Some(JStr(message)))
      && (dataName != "message" && dataName != "count" ==>
            Keys(head) == ["message"] + (if cnt.Some? then ["count"] else []) + [dataName])
      && (forall k :: k != "message" && k != "count" && k != dataName ==> Get(head, k).None?)
  {
    var withMessage := [("message", JStr(message))];
    var cnt := ReplyCount(data, count);
    var withCount := if cnt.Some? then Put(withMessage, "count", JInt(cnt.value)) else withMessage;
    assert Keys(withMessage) == ["message"];
    if cnt.Some? {
      PutKeys(withMessage, "count", JInt(cnt.value));
    }
    assert Keys(withCount)[0] == "message";
    PutKeys(withCount, dataName, data);
    forall k
      ensures Get(Put(withCount, dataName, data), k)
           == if k == dataName then Some(data)
              else if k == "count" && cnt.Some? then Some(JInt(cnt.value))
              else if k == "message" then Some(JStr(message))
              else None
    {
      PutGet(withCount, dataName, data, k);
      if cnt.Some? {
        PutGet(withMessage, "count", JInt(cnt.value), k);
      }
    }
  }

  /** Additional keys other than the three a reply starts with are new to its head. */
  lemma HeadKeysFresh(head: OMap<string, Json>, additional: OMap<string, Json>, dataName: string, hasCount: bool)
    requires Keys(head) == ["message"] + (if hasCount then ["count"] else []) + [dataName]
    requires forall k :: k in Keys(additional) ==> k != "message" && k != "count" && k != dataName
    ensures forall k :: k in Keys(additional) ==> k !in Keys(head)
  {
    forall k | k in Keys(additional)
      ensures k !in Keys(head)
    {
      assert k !in ["message"] + (if hasCount then ["count"] else []);
    }
  }

  /** The first three steps of `getStandardApiResponse`. */
  method StandardHead(data: Json, message: string, dataName: string, count: Option<int>)
    returns (responseArray: OMap<string, Json>)
    ensures responseArray == ReplyHead(data, message, dataName, count)
  {
    var cnt := count;
    if cnt.None? {
      if Countable(data) {
        cnt := Some(Count(data));
      }
    }
    responseArray := [("message", JStr(message))];
    if cnt.Some? {
      responseArray := Put(responseArray, "count", JInt(cnt.value));
    }
    responseArray := Put(responseArray, dataName, data);
  }

  /**
   * `getStandardApiResponse`: `message`, then `count` when there is one,
   * then the data under its name, then the additional pairs; a later key of
   * the same name overwrites an earlier one in place.  The status is passed
   * through.
   */
  method GetStandardApiResponse(data: Json, message: string, dataName: string := "content", status: int := 200,
                                additional: OMap<string, Json> := [], count: Option<int> := None)
    returns (response: OMap<string, Json>, code: int)
    requires DistinctKeys(additional)
    ensures code == status
    ensures response == PutAll(ReplyHead(data, message, dataName, count), additional)
    ensures |response| > 0 && Keys(response)[0] == "message"
    ensures forall k :: k in Keys(additional) ==> Get(response, k) == Get(additional, k)
    ensures dataName !in Keys(additional) ==> Get(response, dataName) == Some(data)
    ensures "count" !in Keys(additional) && dataName != "count" ==>
              Get(response, "count") == if ReplyCount(data, count).Some? then Some(JInt(ReplyCount(data, count).value)) else None
    ensures "message" !in Keys(additional) && dataName != "message" ==> Get(response, "message") == Some(JStr(message))
    ensures (forall k :: k in Keys(additional) ==> k != "message" && k != "count" && k != dataName)
            && dataName != "message" && dataName != "count" ==>
              Keys(response) == ["message"] + (if ReplyCount(data, count).Some? then ["count"] else []) + [dataName] + Keys(additional)
  {
    var head := StandardHead(data, message, dataName, count);
    ReplyHeadShape(data, message, dataName, count);
    response, code := head, status;
    if |additional| > 0 {
      response := AddPairs(head, additional);
      if (forall k :: k in Keys(additional) ==> k != "message" && k != "count" && k != dataName)
         && dataName != "message" && dataName != "count" {
        HeadKeysFresh(head, additional, dataName, ReplyCount(data, count).Some?);
        PutAllFreshKeys(head, additional);
      }
    }
  }
}
