/**
 * The entry point of every import controller: check that a file came with
 * the request, then either run the import at once for a browser request
 * (or send the user back to wait while a conflicting import runs), or put
 * it on a queue chosen by data set for a request from the transfer service.
 */
module BaseFileImportController {
  import opened Php
  import opened Records
  import opened Notifications
  import opened Effects
  import opened FileImportService
  import opened ValidationNotices
  import opened FileImportLogic
  import opened Controller

  // ---------------------------------------------------------------------
  // Where the request came from
  // ---------------------------------------------------------------------

  /** The referrer assumed when the request carries none. */
  const NoReferrer: string := "nope" + SchemeSeparator + NoReferrerHost

  /** What follows the placeholder referrer's scheme. */
  const NoReferrerHost: string := "not-from-vino-app"

  const SchemeSeparator: string := "://"

  /** `substr($s, 0, $len)`. */
  function Prefix(s: string, len: nat): (r: string)
    ensures IsPrefix(r, s)
    ensures |r| == if len <= |s| then len else |s|
  {
    if len <= |s| then s[..len] else s
  }

  /**
   * `explode('://', $referrer)[1]`: the text between the first and the
   * second separator; a referrer without one has no such part, which PHP
   * reads as null and `substr` as the empty string.
   */
  function ReferrerSegment(referrer: string): string
  {
    match AfterFirst(referrer, SchemeSeparator)
    case None => ""
    case Some(rest) => BeforeFirst(rest, SchemeSeparator)
  }

  /**
   * `isFromVino`: the request came from the application's own pages
   * exactly when the referrer, past its scheme, starts with the host.
   */
  function IsFromVino(referrer: Option<string>, host: string): (r: bool)
    ensures r <==> IsPrefix(host, ReferrerSegment(if referrer.Some? then referrer.value else NoReferrer))
  {
    var ref := if referrer.Some? then referrer.value else NoReferrer;
    Prefix(ReferrerSegment(ref), |host|) == host
  }

  /** A prefix free of a character stays the first part before any occurrence of a pattern starting with it. */
  lemma FirstOccurrenceAfter(pre: string, post: string, pat: string)
    requires |pat| > 0 && pat[0] !in pre
    ensures forall j :: OccursAt(pre + post, pat, j) ==> j >= |pre|
  {
  }

  /** Text with no colon holds no separator. */
  lemma NoSeparator(s: string)
    requires ':' !in s
    ensures IndexOf(s, SchemeSeparator).None?
    ensures BeforeFirst(s, SchemeSeparator) == s
  {
    FirstOccurrenceAfter(s, "", SchemeSeparator);
    assert s + "" == s;
  }

  /** The first separator of `pre://post` is the one after a colon-free `pre`. */
  lemma FirstSeparator(pre: string, post: string)
    requires ':' !in pre
    ensures AfterFirst(pre + SchemeSeparator + post, SchemeSeparator) == Some(post)
  {
    var s := pre + SchemeSeparator + post;
    assert s == pre + (SchemeSeparator + post);
    FirstOccurrenceAfter(pre, SchemeSeparator + post, SchemeSeparator);
    assert s[|pre|..|pre| + 3] == SchemeSeparator;
    assert OccursAt(s, SchemeSeparator, |pre|);
    var i := IndexOf(s, SchemeSeparator);
    assert i.Some? && i.value == |pre|;
    assert s[|pre| + 3..] == post;
  }

  /** The text before the first separator of `a + b` starts with a colon-free `a`. */
  lemma SegmentStartsWith(a: string, b: string)
    requires ':' !in a
    ensures IsPrefix(a, BeforeFirst(a + b, SchemeSeparator))
  {
    FirstOccurrenceAfter(a, b, SchemeSeparator);
    var seg := BeforeFirst(a + b, SchemeSeparator);
    match IndexOf(a + b, SchemeSeparator)
    case None =>
    case Some(i) =>
      assert i >= |a|;
      assert seg == (a + b)[..i];
      assert seg[..|a|] == a;
  }

  /** A page of the application's own host is recognised as such. */
  lemma OwnPageIsFromVino(scheme: string, host: string, path: string)
    requires ':' !in scheme && ':' !in host
    ensures IsFromVino(Some(scheme + SchemeSeparator + host + path), host)
  {
    var ref := scheme + SchemeSeparator + host + path;
    assert ref == scheme + SchemeSeparator + (host + path);
    FirstSeparator(scheme, host + path);
    SegmentStartsWith(host, path);
  }

  /** Only the start of the referrer's host is compared: a longer host that extends this one passes too. */
  lemma ExtendedHostIsFromVino(host: string, suffix: string)
    requires ':' !in host && ':' !in suffix
    ensures IsFromVino(Some("https://" + host + suffix), host)
  {
    OwnPageIsFromVino("https", host, suffix);
    assert "https" + SchemeSeparator == "https://";
  }

  /** A request with no referrer is not from the application unless the host is a prefix of the placeholder's. */
  lemma NoReferrerIsFromService(host: string)
    requires !IsPrefix(host, NoReferrerHost)
    ensures !IsFromVino(None, host)
  {
    FirstSeparator("nope", NoReferrerHost);
    NoSeparator(NoReferrerHost);
  }

  // ---------------------------------------------------------------------
  // Queues
  // ---------------------------------------------------------------------

  const VesselDataSets: seq<string> := ["BarrelData", "BarrelGroup", "InventoryData", "MasterTank"]
  const HarvestDataSets: seq<string> :=
    ["BlockStyles", "HarvestAllocationAgCode", "HarvestBlockAgCode", "HarvestQualityAgCode",
     "HarvestSchedulerBlock", "HarvestSchedulerData", "HarvestWeighTagAgCode"]
  const LabDataSets: seq<string> := ["LabQaHistory", "OperationsData"]

  /** `getQueue`: the vessel, harvest and lab data sets each have their own queue; the rest share one. */
  function GetQueue(dataSet: string): (queue: string)
    ensures queue == "vessel_import" <==> dataSet in VesselDataSets
    ensures queue == "harvest_import" <==> dataSet in HarvestDataSets
    ensures queue == "lab_import" <==> dataSet in LabDataSets
    ensures queue == "file_import" <==> dataSet !in VesselDataSets + HarvestDataSets + LabDataSets
  {
    match dataSet
    case "BarrelData" => "vessel_import"
    case "BarrelGroup" => "vessel_import"
    case "InventoryData" => "vessel_import"
    case "MasterTank" => "vessel_import"
    case "BlockStyles" => "harvest_import"
    case "HarvestAllocationAgCode" => "harvest_import"
    case "HarvestBlockAgCode" => "harvest_import"
    case "HarvestQualityAgCode" => "harvest_import"
    case "HarvestSchedulerBlock" => "harvest_import"
    case "HarvestSchedulerData" => "harvest_import"
    case "HarvestWeighTagAgCode" => "harvest_import"
    case "LabQaHistory" => "lab_import"
    case "OperationsData" => "lab_import"
    case _ => "file_import"
  }

  // ---------------------------------------------------------------------
  // Job types
  // ---------------------------------------------------------------------

  /** The job-log type of an upload into a staging table. */
  function JobType(table: string): string
  {
    "Upload - " + table
  }

  /** Two tables share a job type only when they are the same table. */
  lemma JobTypeInjective(a: string, b: string)
    requires JobType(a) == JobType(b)
    ensures a == b
  {
    assert a == JobType(a)[9..];
    assert b == JobType(b)[9..];
  }

  /** The `$noAsyncArgs` loop: the job type of every conflicting table, in order. */
  method NoAsyncArgs(noAsync: seq<string>) returns (args: seq<string>)
    ensures args == MapSeq(noAsync, JobType)
    ensures forall t :: JobType(t) in args <==> t in noAsync
  {
    args := [];
    var i := 0;
    while i < |noAsync|
      invariant 0 <= i <= |noAsync|
      invariant args == MapSeq(noAsync[..i], JobType)
    {
      MapSeqAppend(noAsync[..i], noAsync[i], JobType);
      assert noAsync[..i + 1] == noAsync[..i] + [noAsync[i]];
      args := args + [JobType(noAsync[i])];
      i := i + 1;
    }
    assert noAsync[..i] == noAsync;
    forall t ensures JobType(t) in args <==> t in noAsync {
      if JobType(t) in args {
        var k :| 0 <= k < |args| && args[k] == JobType(t);
        JobTypeInjective(noAsync[k], t);
      }
    }
  }

  // ---------------------------------------------------------------------
  // Waiting for a conflicting import
  // ---------------------------------------------------------------------

  function JobIdParam(id: nat): string
  {
    "&job_ids[]=" + IntToString(id)
  }

  /** The query parameters naming the running jobs, in order. */
  function JobIdParams(ids: seq<nat>): string
  {
    Concat(MapSeq(ids, JobIdParam))
  }

  lemma {:induction false} JobIdParamsAppend(a: seq<nat>, b: seq<nat>)
    ensures JobIdParams(a + b) == JobIdParams(a) + JobIdParams(b)
    decreases |b|
  {
    if b == [] {
      assert a + b == a;
    } else {
      var init := b[..|b| - 1];
      var x := b[|b| - 1];
      assert b == init + [x];
      assert a + b == (a + init) + [x];
      JobIdParamsAppend(a, init);
      MapSeqAppend(a + init, x, JobIdParam);
      ConcatAppend(MapSeq(a + init, JobIdParam), JobIdParam(x));
      MapSeqAppend(init, x, JobIdParam);
      ConcatAppend(MapSeq(init, JobIdParam), JobIdParam(x));
      AppendAssoc(JobIdParams(a), JobIdParams(init), JobIdParam(x));
    }
  }

  /** The `$runningJobIds` loop. */
  method RunningJobIds(ids: seq<nat>) returns (params: string)
    ensures params == JobIdParams(ids)
  {
    params := "";
    var i := 0;
    while i < |ids|
      invariant 0 <= i <= |ids|
      invariant params == JobIdParams(ids[..i])
    {
      assert ids[..i + 1] == ids[..i] + [ids[i]];
      JobIdParamsAppend(ids[..i], [ids[i]]);
      assert JobIdParams([ids[i]]) == JobIdParam(ids[i]) by {
        assert MapSeq([ids[i]], JobIdParam) == [] + [JobIdParam(ids[i])];
        ConcatAppend([], JobIdParam(ids[i]));
      }
      params := params + JobIdParam(ids[i]);
      i := i + 1;
    }
    assert ids[..i] == ids;
  }

  /**
   * Where a browser is sent while a conflicting import runs: the
   * reprocessing page of the failure notification (nothing when it has
   * none, as `false` concatenates to the empty string), the wait time and
   * the running job ids.
   */
  function RedirectUrl(failedNotification: string, waitTime: int, ids: seq<nat>): (url: string)
  {
    var slug := UrlFromNotificationName(failedNotification);
    RedirectTo(if slug.Some? then slug.value else "", waitTime, ids)
  }

  /** The wait-time query parameter that opens the redirect's query. */
  function WaitParam(waitTime: int): string
  {
    "?wait_time=" + IntToString(waitTime)
  }

  /** The redirect to a given page. */
  function RedirectTo(page: string, waitTime: int, ids: seq<nat>): (url: string)
  {
    page + WaitParam(waitTime) + JobIdParams(ids)
  }

  /** The redirect starts with its page and ends with the ids; with no page it starts with the wait time. */
  lemma RedirectToShape(page: string, waitTime: int, ids: seq<nat>)
    ensures var url := RedirectTo(page, waitTime, ids);
      && IsPrefix(page, url)
      && IsSuffix(JobIdParams(ids), url)
      && (page == "" ==> IsPrefix(WaitParam(waitTime), url))
  {
    var head := WaitParam(waitTime);
    ThreeParts(page, head, JobIdParams(ids));
    if page == "" {
      assert page + head == head;
    }
  }

  /** The redirect leads to the reprocessing page exactly when the notification has one, and always ends with the ids. */
  lemma RedirectShape(failedNotification: string, waitTime: int, ids: seq<nat>)
    ensures var url := RedirectUrl(failedNotification, waitTime, ids);
      && IsSuffix(JobIdParams(ids), url)
      && (failedNotification in ReprocessNotifications ==> IsPrefix(UrlPrefix, url))
      && (failedNotification !in ReprocessNotifications ==>
            IsPrefix(WaitParam(waitTime), url))
  {
    var slug := UrlFromNotificationName(failedNotification);
    var page := if slug.Some? then slug.value else "";
    RedirectToShape(page, waitTime, ids);
    if slug.Some? {
      var url := RedirectTo(page, waitTime, ids);
      assert IsPrefix(UrlPrefix, page);
      assert url[..|UrlPrefix|] == url[..|page|][..|UrlPrefix|];
    }
  }

  // ---------------------------------------------------------------------
  // Replies
  // ---------------------------------------------------------------------

  /** What the controller answers. */
  datatype Reply =
    | ApiReply(content: OMap<string, Json>, status: int)
    | ViewReply(viewFile: string)
    | Redirect(url: string)
      /** The import returned nothing to answer with. */
    | NoReply

  /** The standard reply around `data`, without additional pairs or a given count. */
  function StandardReply(data: Json, message: string, dataName: string, status: int): (r: Reply)
    ensures r.ApiReply? && r.status == status
    ensures Get(r.content, dataName) == Some(data)
    ensures dataName != "message" ==> Get(r.content, "message") == Some(JStr(message))
  {
    ReplyHeadShape(data, message, dataName, None);
    ApiReply(ReplyHead(data, message, dataName, None), status)
  }

  /** How the import's result becomes the controller's reply. */
  function ReplyFor(response: Option<ImportResponse>): (r: Reply)
    ensures response.None? <==> r.NoReply?
    ensures response.Some? && response.value.View? ==> r == ViewReply(response.value.viewFile)
    ensures response.Some? && response.value.Api? ==>
              r.ApiReply? && r.status == response.value.status
              && Get(r.content, "content") == Some(response.value.content)
              && Get(r.content, "message") == Some(JStr(response.value.message))
  {
    match response
    case None => NoReply
    case Some(View(f)) => ViewReply(f)
    case Some(Api(message, content, status)) => StandardReply(content, message, "content", status)
  }

  method Respond(response: Option<ImportResponse>) returns (reply: Reply)
    ensures reply == ReplyFor(response)
  {
    match response {
      case None =>
        reply := NoReply;
      case Some(View(f)) =>
        reply := ViewReply(f);
      case Some(Api(message, content, status)) =>
        var body, code := GetStandardApiResponse(content, message, "content", status);
        reply := ApiReply(body, code);
    }
  }

  /**
   * What an import run from the browser answers: the staging failure, the
   * failed rules' page, or the page of the first load status; nothing when
   * the load reported no status.
   */
  function BrowserResponse(job: ImportJob, env: Env, before: seq<Record>): Option<ImportResponse>
  {
    var ds := job.dataset;
    var st := Staging(env.sheet, ds.table, env.columns, env.insert, before);
    var fails := Fails(ds.comparisons, ds.dataSet, env.registry, st.after);
    var statuses := env.load(ds.controller, st.after);
    if st.result.statusCode != 200 then
      Some(Api(st.result.content.message, StagingJson(st.result.content), st.result.statusCode))
    else if fails != [] then Some(ValidationResponse(false, true, job.filename, fails))
    else if statuses == [] then None
    else Some(StatusResponse(statuses[0], true, ds.readable))
  }

  /** From the browser, only a staging failure answers with data; rules and loads answer with a page. */
  lemma BrowserSeesPages(job: ImportJob, env: Env, before: seq<Record>)
    ensures var r := BrowserResponse(job, env, before);
      var st := Staging(env.sheet, job.dataset.table, env.columns, env.insert, before);
      r.Some? && r.value.Api? <==> st.result.statusCode != 200
  {
  }

  const MissingFileMessage: string := "No file has been provided for the import."
  const MissingFileNotification: string := "fileImportMissingFile"

  const QueuedTail: string := " file import has been queued for processing. Further details will be sent via email."

  function QueuedMessage(readable: string): string
  {
    "The " + readable + QueuedTail
  }

  // ---------------------------------------------------------------------
  // processImport
  // ---------------------------------------------------------------------

  /**
   * `processImport`.  The request's file (whether there is one, its stored
   * name and moved path), its input, referrer and host, and the job-log
   * query for running jobs are parameters.
   */
  method ProcessImport(hasFile: bool, requestAll: Json, referrer: Option<string>, host: string,
                       noAsync: seq<string>, waitTime: int, ds: Dataset,
                       filename: string, movedFile: string,
                       isRunning: seq<string> -> seq<nat>, env: Env, before: seq<Record>)
    returns (reply: Reply, staged: seq<Record>, events: seq<Event>)
    ensures var job := ImportJob(JobType(ds.table), filename, ds);
      var running := isRunning(MapSeq(noAsync, JobType));
      var fromVino := IsFromVino(referrer, host);
      && (!hasFile ==>
            reply == StandardReply(requestAll, MissingFileMessage, "input", 400)
            && staged == before
            && events == NoticeEvents(SubjectOf(env.notifications, MissingFileNotification),
                                      MissingFileBody(BodyOf(env.notifications, MissingFileNotification), ds.dataSet),
                                      SubscribersOf(env.notifications, MissingFileNotification), [], []))
      && (hasFile && fromVino && running != [] ==>
            reply == Redirect(RedirectUrl(ds.failedNotification, waitTime, running))
            && staged == before && events == [])
      && (hasFile && fromVino && running == [] ==>
            reply == ReplyFor(BrowserResponse(job, env, before))
            && staged == Staging(env.sheet, ds.table, env.columns, env.insert, before).after
            && events == RunEvents(false, job, movedFile, env, before)
            && |events| > 0
            && events[0] == JobInitiated(env.jobId, job.jobType, "Uploading " + filename + " into " + ds.table))
      && (hasFile && !fromVino ==>
            reply == StandardReply(JStr(filename), QueuedMessage(ds.readable), "queued_file", 200)
            && staged == before
            && events == [Dispatched(GetQueue(ds.dataSet), QueuedJob(MapSeq(noAsync, JobType), waitTime, job))])
  {
    staged := before;
    if !hasFile {
      reply, events := MissingFile(requestAll, ds, env);
      return;
    }
    var jobType := JobType(ds.table);
    var job := ImportJob(jobType, filename, ds);
    var noAsyncArgs := NoAsyncArgs(noAsync);
    var fromVino := IsFromVino(referrer, host);
    if fromVino {
      var runningJobs := isRunning(noAsyncArgs);
      reply, staged, events := ImportFromBrowser(runningJobs, waitTime, job, movedFile, env, before);
    } else {
      reply, events := Enqueue(noAsyncArgs, waitTime, job);
    }
  }

  /** No file in the request: the missing-file notice, and a 400 echoing the input. */
  method MissingFile(requestAll: Json, ds: Dataset, env: Env) returns (reply: Reply, events: seq<Event>)
    ensures reply == StandardReply(requestAll, MissingFileMessage, "input", 400)
    ensures events == NoticeEvents(SubjectOf(env.notifications, MissingFileNotification),
                                   MissingFileBody(BodyOf(env.notifications, MissingFileNotification), ds.dataSet),
                                   SubscribersOf(env.notifications, MissingFileNotification), [], [])
  {
    var processor := new ValidationFailureProcessor();
    events := processor.ProcessMissingFile(env.notifications, MissingFileNotification, ds.dataSet);
    var body, code := GetStandardApiResponse(requestAll, MissingFileMessage, "input", 400);
    reply := ApiReply(body, code);
  }

  /** From the browser: back to the upload page while a conflict runs, otherwise the import, answered at once. */
  method ImportFromBrowser(runningJobs: seq<nat>, waitTime: int, job: ImportJob, movedFile: string, env: Env,
                           before: seq<Record>)
    returns (reply: Reply, staged: seq<Record>, events: seq<Event>)
    ensures runningJobs != [] ==>
              reply == Redirect(RedirectUrl(job.dataset.failedNotification, waitTime, runningJobs))
              && staged == before && events == []
    ensures runningJobs == [] ==>
              reply == ReplyFor(BrowserResponse(job, env, before))
              && staged == Staging(env.sheet, job.dataset.table, env.columns, env.insert, before).after
              && events == RunEvents(false, job, movedFile, env, before)
              && |events| > 0
              && events[0] == JobInitiated(env.jobId, job.jobType, "Uploading " + job.filename + " into " + job.dataset.table)
  {
    if |runningJobs| > 0 {
      var runningJobIds := RunningJobIds(runningJobs);
      var slug := UrlFromNotificationName(job.dataset.failedNotification);
      var page := if slug.Some? then slug.value else "";
      reply := Redirect(page + WaitParam(waitTime) + runningJobIds);
      staged, events := before, [];
    } else {
      var response;
      response, staged, events := RunFileImport(false, true, job, movedFile, env, before);
      reply := Respond(response);
    }
  }

  /** From anywhere else: the job goes on its queue, and the reply says so. */
  method Enqueue(noAsyncArgs: seq<string>, waitTime: int, job: ImportJob) returns (reply: Reply, events: seq<Event>)
    ensures reply == StandardReply(JStr(job.filename), QueuedMessage(job.dataset.readable), "queued_file", 200)
    ensures events == [Dispatched(GetQueue(job.dataset.dataSet), QueuedJob(noAsyncArgs, waitTime, job))]
  {
    var queue := GetQueue(job.dataset.dataSet);
    events := [Dispatched(queue, QueuedJob(noAsyncArgs, waitTime, job))];
    var body, code := GetStandardApiResponse(JStr(job.filename), QueuedMessage(job.dataset.readable), "queued_file");
    reply := ApiReply(body, code);
  }
}
