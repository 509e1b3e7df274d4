/**
 * `runFileImport`, the orchestrator: stage the sheet, run every configured
 * comparison, and hand a clean staging table to the dataset's load
 * callback, logging and notifying at each exit.  Staging failures are fatal
 * to a request made from the browser but not to a queued job.
 */
module FileImportLogic {
  import opened Php
  import opened Records
  import opened Notifications
  import opened Effects
  import opened FileImportService
  import opened ValidationNotices

  /** One entry of what the load callback returns. */
  datatype LoadStatus = LoadStatus(success: bool, empty: bool, body: Json)

  /** What `runFileImport` returns: a view to render, or an API reply. */
  datatype ImportResponse =
    | View(viewFile: string)
    | Api(message: string, content: Json, status: int)

  /**
   * Everything outside the orchestrator: the job id the job log hands out,
   * the parsed sheet, the table's columns, the database insert, the rule
   * registry, the load callback, the notifications table, the JSON encoder,
   * the export time stamp, the export directory and `url()`.
   */
  datatype Env = Env(
    jobId: nat,
    sheet: Sheet,
    columns: seq<string>,
    insert: Inserter,
    registry: Registry,
    load: (string, seq<Record>) -> seq<LoadStatus>,
    notifications: map<string, Notification>,
    encode: Json -> string,
    now: string,
    validationsDir: string,
    absoluteUrl: string -> string)

  const ProcessErrorNotification: string := "fileImportProcessError"
  const ComparisonFailView: string := "FileImport/reprocessImportFileComparisonFail"
  const SuccessView: string := "FileImport/reprocessImportFileSuccess"
  const LoadFailView: string := "FileImport/reprocessImportFileLoadFail"

  // ---------------------------------------------------------------------
  // Comparisons
  // ---------------------------------------------------------------------

  /** The reply of one named rule, asked for with both inputs present. */
  function RuleReply(comparison: string, dataSet: string, registry: Registry, staged: seq<Record>): ComparisonReply
  {
    ImportDataComparisons([("comparison", comparison), ("dataSet", dataSet)], registry, staged)
  }

  /** The failing rules keyed by name, in the order they were first run. */
  function Fails(comparisons: seq<string>, dataSet: string, registry: Registry, staged: seq<Record>)
    : OMap<string, Json>
  {
    if comparisons == [] then []
    else
      var init := Fails(comparisons[..|comparisons| - 1], dataSet, registry, staged);
      var c := comparisons[|comparisons| - 1];
      var reply := RuleReply(c, dataSet, registry, staged);
      if reply.RowCount() > 0 then Put(init, c, ReplyJson(reply)) else init
  }

  /** A rule is among the failures exactly when it is configured and reports a row; its entry is its reply. */
  lemma {:induction false} FailsExactly(comparisons: seq<string>, dataSet: string, registry: Registry,
                                        staged: seq<Record>, c: string)
    ensures c in Keys(Fails(comparisons, dataSet, registry, staged))
            <==> c in comparisons && RuleReply(c, dataSet, registry, staged).RowCount() > 0
    ensures c in Keys(Fails(comparisons, dataSet, registry, staged)) ==>
              Get(Fails(comparisons, dataSet, registry, staged), c) == Some(ReplyJson(RuleReply(c, dataSet, registry, staged)))
  {
    if comparisons != [] {
      var init := comparisons[..|comparisons| - 1];
      var last := comparisons[|comparisons| - 1];
      FailsExactly(init, dataSet, registry, staged, c);
      assert comparisons == init + [last];
      var reply := RuleReply(last, dataSet, registry, staged);
      if reply.RowCount() > 0 {
        PutKeys(Fails(init, dataSet, registry, staged), last, ReplyJson(reply));
        PutGet(Fails(init, dataSet, registry, staged), last, ReplyJson(reply), c);
      }
    }
  }

  lemma FailsStep(comparisons: seq<string>, i: nat, dataSet: string, registry: Registry, staged: seq<Record>)
    requires i < |comparisons|
    ensures var reply := RuleReply(comparisons[i], dataSet, registry, staged);
      var init := Fails(comparisons[..i], dataSet, registry, staged);
      Fails(comparisons[..i + 1], dataSet, registry, staged)
        == if reply.RowCount() > 0 then Put(init, comparisons[i], ReplyJson(reply)) else init
  {
    assert comparisons[..i + 1][..i] == comparisons[..i];
  }

  /** The comparison loop: every rule runs, in order, none cut short. */
  method RunComparisons(comparisons: seq<string>, dataSet: string, registry: Registry, staged: seq<Record>)
    returns (fails: OMap<string, Json>)
    ensures fails == Fails(comparisons, dataSet, registry, staged)
  {
    fails := [];
    var i := 0;
    while i < |comparisons|
      invariant 0 <= i <= |comparisons|
      invariant fails == Fails(comparisons[..i], dataSet, registry, staged)
    {
      FailsStep(comparisons, i, dataSet, registry, staged);
      var badRecords := RuleReply(comparisons[i], dataSet, registry, staged);
      if badRecords.RowCount() > 0 {
        fails := Put(fails, comparisons[i], ReplyJson(badRecords));
      }
      i := i + 1;
    }
    assert comparisons[..i] == comparisons;
  }

  // ---------------------------------------------------------------------
  // Load statuses
  // ---------------------------------------------------------------------

  const NoDataReason: string := " because the file did not contain any data"

  const ComparisonsRunning: string := "Running Import Comparisons for "
  function SuccessMessage(readable: string): string
  {
    readable + " File Transfer successful"
  }

  /** The failure message says why exactly when the file was empty. */
  function FailureMessage(status: LoadStatus, readable: string): (r: string)
    ensures IsPrefix(readable + " File Transfer failed", r)
    ensures r == readable + " File Transfer failed" <==> !status.empty
  {
    var base := readable + " File Transfer failed";
    if status.empty then
      assert |base + NoDataReason| > |base|;
      base + NoDataReason
    else base
  }

  /** The notice a failed load sends. */
  function LoadFailureNotification(status: LoadStatus): string
  {
    if status.empty then "fileImportNoData" else "fileImportUnprocessed"
  }

  /** What the browser gets for the first load status. */
  function StatusResponse(status: LoadStatus, isFromVino: bool, readable: string): (r: ImportResponse)
    ensures r.View? <==> isFromVino
    ensures r.Api? ==> r.content == status.body && (r.status == 200 <==> status.success)
                       && (r.status == 200 || r.status == 400)
    ensures r.View? ==> r.viewFile == (if status.success then SuccessView else LoadFailView)
  {
    if status.success then
      if isFromVino then View(SuccessView) else Api(SuccessMessage(readable), status.body, 200)
    else
      if isFromVino then View(LoadFailView) else Api(FailureMessage(status, readable), status.body, 400)
  }

  /** A success notice and a stop, or a failure notice and a kill. */
  function StatusEvents(status: LoadStatus, job: ImportJob, movedFile: string, env: Env): seq<Event>
  {
    var ds := job.dataset;
    if status.success then
      NoticeEvents(SubjectOf(env.notifications, ds.successNotification), BodyOf(env.notifications, ds.successNotification),
                   SubscribersOf(env.notifications, ds.successNotification), [], [])
      + [JobStopped(env.jobId, SuccessMessage(ds.readable))]
    else
      var name := LoadFailureNotification(status);
      NoticeEvents(SubjectOf(env.notifications, name), AttachedNote(BodyOf(env.notifications, name), job.filename),
                   SubscribersOf(env.notifications, name), [movedFile], [])
      + [JobKilled(env.jobId, FailureMessage(status, ds.readable), env.encode(status.body))]
  }

  /** The events of processing every status in turn. */
  function AllStatusEvents(statuses: seq<LoadStatus>, job: ImportJob, movedFile: string, env: Env): seq<Event>
  {
    if statuses == [] then []
    else AllStatusEvents(statuses[..|statuses| - 1], job, movedFile, env)
         + StatusEvents(statuses[|statuses| - 1], job, movedFile, env)
  }

  /** The number of times the job is stopped or killed. */
  function JobEnds(es: seq<Event>): nat
  {
    if es == [] then 0
    else JobEnds(es[..|es| - 1]) + (if es[|es| - 1].JobStopped? || es[|es| - 1].JobKilled? then 1 else 0)
  }

  lemma {:induction false} JobEndsAppend(a: seq<Event>, b: seq<Event>)
    ensures JobEnds(a + b) == JobEnds(a) + JobEnds(b)
  {
    if b == [] {
      assert a + b == a;
    } else {
      JobEndsAppend(a, b[..|b| - 1]);
      assert (a + b)[..|a + b| - 1] == a + b[..|b| - 1];
      assert (a + b)[|a + b| - 1] == b[|b| - 1];
    }
  }

  /** Each status ends the job exactly once, by a stop when it succeeded and by a kill otherwise. */
  lemma StatusEndsJobOnce(status: LoadStatus, job: ImportJob, movedFile: string, env: Env)
    ensures JobEnds(StatusEvents(status, job, movedFile, env)) == 1
  {
    var es := StatusEvents(status, job, movedFile, env);
    var notice, last := es[..2], es[2..];
    assert es == notice + last;
    assert notice[..1][..0] == [];
    assert JobEnds(notice[..1]) == 0;
    assert notice[..1] == notice[..|notice| - 1];
    assert JobEnds(notice) == 0;
    assert last[..0] == [];
    JobEndsAppend(notice, last);
  }

  /** A queued job processes every status: the job is ended once per status. */
  lemma {:induction false} EveryStatusEndsJob(statuses: seq<LoadStatus>, job: ImportJob, movedFile: string, env: Env)
    ensures JobEnds(AllStatusEvents(statuses, job, movedFile, env)) == |statuses|
  {
    if statuses != [] {
      var init := statuses[..|statuses| - 1];
      EveryStatusEndsJob(init, job, movedFile, env);
      StatusEndsJobOnce(statuses[|statuses| - 1], job, movedFile, env);
      JobEndsAppend(AllStatusEvents(init, job, movedFile, env), StatusEvents(statuses[|statuses| - 1], job, movedFile, env));
    }
  }

  /** The events of the status loop: every status for a queued job, only the first one otherwise. */
  function LoadEvents(isQueued: bool, statuses: seq<LoadStatus>, job: ImportJob, movedFile: string, env: Env): seq<Event>
  {
    if isQueued then AllStatusEvents(statuses, job, movedFile, env)
    else if statuses == [] then []
    else StatusEvents(statuses[0], job, movedFile, env)
  }

  /**
   * The status loop: a request from the browser returns at the first
   * status; a queued job processes them all and returns nothing.
   */
  method ProcessStatuses(isQueued: bool, isFromVino: bool, job: ImportJob, movedFile: string, env: Env,
                         statuses: seq<LoadStatus>)
    returns (response: Option<ImportResponse>, events: seq<Event>)
    ensures events == LoadEvents(isQueued, statuses, job, movedFile, env)
    ensures isQueued ==> response.None? && events == AllStatusEvents(statuses, job, movedFile, env)
    ensures !isQueued && statuses == [] ==> response.None? && events == []
    ensures !isQueued && statuses != [] ==>
              response == Some(StatusResponse(statuses[0], isFromVino, job.dataset.readable))
              && events == StatusEvents(statuses[0], job, movedFile, env)
  {
    events := [];
    var i := 0;
    while i < |statuses|
      invariant 0 <= i <= |statuses|
      invariant events == AllStatusEvents(statuses[..i], job, movedFile, env)
      invariant !isQueued ==> i == 0
    {
      StatusStep(statuses, i, job, movedFile, env);
      var reply, statusEvents := ProcessStatus(statuses[i], isFromVino, job, movedFile, env);
      events := events + statusEvents;
      if !isQueued {
        return Some(reply), events;
      }
      i := i + 1;
    }
    assert statuses[..i] == statuses;
    response := None;
  }

  lemma StatusStep(statuses: seq<LoadStatus>, i: nat, job: ImportJob, movedFile: string, env: Env)
    requires i < |statuses|
    ensures AllStatusEvents(statuses[..i + 1], job, movedFile, env)
         == AllStatusEvents(statuses[..i], job, movedFile, env) + StatusEvents(statuses[i], job, movedFile, env)
    ensures i == 0 ==> AllStatusEvents(statuses[..i + 1], job, movedFile, env) == StatusEvents(statuses[0], job, movedFile, env)
  {
    assert statuses[..i + 1][..i] == statuses[..i];
    if i == 0 {
      assert statuses[..0] == [];
      assert [] + StatusEvents(statuses[0], job, movedFile, env) == StatusEvents(statuses[0], job, movedFile, env);
    }
  }

  /**
   * One pass of the status loop: the success notice and a stop, or the
   * failure notice and a kill, and the reply a request from the browser
   * would get.
   */
  method ProcessStatus(status: LoadStatus, isFromVino: bool, job: ImportJob, movedFile: string, env: Env)
    returns (reply: ImportResponse, events: seq<Event>)
    ensures events == StatusEvents(status, job, movedFile, env)
    ensures reply == StatusResponse(status, isFromVino, job.dataset.readable)
  {
    var ds := job.dataset;
    if status.success {
      var processor := new ValidationFailureProcessor();
      var notice := processor.ProcessValidationSuccess(env.notifications, ds.successNotification);
      events := notice + [JobStopped(env.jobId, SuccessMessage(ds.readable))];
      reply := if isFromVino then View(SuccessView) else Api(SuccessMessage(ds.readable), status.body, 200);
    } else {
      var failureMessage := ds.readable + " File Transfer failed";
      var name: string;
      if status.empty {
        failureMessage := failureMessage + NoDataReason;
        name := "fileImportNoData";
      } else {
        name := "fileImportUnprocessed";
      }
      var processor := new ValidationFailureProcessor();
      var _, notice := processor.ProcessLoadFailure(env.notifications, name, job.filename, movedFile, "", []);
      events := notice + [JobKilled(env.jobId, failureMessage, env.encode(status.body))];
      reply := if isFromVino then View(LoadFailView) else Api(failureMessage, status.body, 400);
    }
  }

  // ---------------------------------------------------------------------
  // The orchestrator
  // ---------------------------------------------------------------------

  /** The JSON-encoded error rows of a 400, none for a 500. */
  function StagingErrors(ret: StagingResult): seq<Json>
  {
    if ret.statusCode == 500 || !ret.content.Staged? then [] else MapSeq(ret.content.errorRows, RowJson)
  }

  /** The events of the staging-failure exit. */
  function StagingFailureEvents(ret: StagingResult, job: ImportJob, movedFile: string, env: Env): seq<Event>
  {
    [JobKilled(env.jobId, ret.content.message, env.encode(StagingJson(ret.content)))]
                      + NoticeEvents(SubjectOf(env.notifications, ProcessErrorNotification),
                                     StagingFailureBody(BodyOf(env.notifications, ProcessErrorNotification),
                                                        job.filename, ret.content.message,
                                                        MapSeq(StagingErrors(ret), env.encode)),
                                     SubscribersOf(env.notifications, ProcessErrorNotification), [movedFile], [])
  }

  /** The staging-failure exit: kill the job, then send the process-error notice. */
  method FailStaging(ret: StagingResult, job: ImportJob, movedFile: string, env: Env)
    returns (events: seq<Event>)
    ensures events == StagingFailureEvents(ret, job, movedFile, env)
    ensures events[0] == JobKilled(env.jobId, ret.content.message, env.encode(StagingJson(ret.content)))
    ensures NoLoad(events)
  {
    // A 500 carries its message under `error`, a 400 at the top level: both are `message` here.
    var failedStagingMsg := ret.content.message;
    events := [JobKilled(env.jobId, failedStagingMsg, env.encode(StagingJson(ret.content)))];
    var responseErrors := StagingErrors(ret);
    var processor := new ValidationFailureProcessor();
    var _, notice := processor.ProcessStagingFailure(env.notifications, ProcessErrorNotification, job.filename,
                                                     movedFile, failedStagingMsg, responseErrors, env.encode);
    events := events + notice;
  }

  function FailedValidationMessage(filename: string): string
  {
    filename + " has failed validation"
  }

  /** What a failed validation returns: the comparison-fail view for the browser, the failures otherwise. */
  function ValidationResponse(isQueued: bool, isFromVino: bool, filename: string, fails: OMap<string, Json>)
    : (r: ImportResponse)
    ensures r.View? <==> !isQueued && isFromVino
    ensures r.Api? ==> r == Api(FailedValidationMessage(filename), JObject(fails), 400)
  {
    if !isQueued && isFromVino then View(ComparisonFailView)
    else Api(FailedValidationMessage(filename), JObject(fails), 400)
  }

  /** The notice a failed validation sends: the exported failures, then the uploaded file, are attached. */
  function ValidationNotice(fails: OMap<string, Json>, job: ImportJob, movedFile: string, env: Env): seq<Event>
  {
    var name := job.dataset.failedNotification;
    NoticeEvents(SubjectOf(env.notifications, name),
                 ValidationFailureBody(BodyOf(env.notifications, name), job.filename, UrlFromNotificationName(name),
                                       env.absoluteUrl),
                 SubscribersOf(env.notifications, name),
                 ExportPaths(env.validationsDir, ExportNames(fails, env.now)) + [movedFile], [])
  }

  /** The validation-failure exit: notify with the exported failures, then kill the job. */
  method FailValidation(fails: OMap<string, Json>, job: ImportJob, movedFile: string, env: Env)
    returns (events: seq<Event>)
    ensures events == ValidationNotice(fails, job, movedFile, env)
                      + [JobKilled(env.jobId, FailedValidationMessage(job.filename), env.encode(JObject(fails)))]
    ensures |events| == 3 && events[2] == JobKilled(env.jobId, FailedValidationMessage(job.filename), env.encode(JObject(fails)))
    ensures events[0].MailSent? && events[1].SmsSent?
    ensures NoLoad(events)
  {
    var processor := new ValidationFailureProcessor();
    var attachments, notice := processor.ProcessValidationFailures(env.notifications, job.dataset.failedNotification,
                                                                   job.filename, movedFile, fails, env.now,
                                                                   env.validationsDir, env.absoluteUrl);
    events := notice + [JobKilled(env.jobId, FailedValidationMessage(job.filename), env.encode(JObject(fails)))];
    NoticeThenKill(notice, JobKilled(env.jobId, FailedValidationMessage(job.filename), env.encode(JObject(fails))));
  }

  /** The staging failure is fatal: a browser request whose staging did not succeed. */
  predicate Fatal(isQueued: bool, ret: StagingResult)
  {
    ret.statusCode != 200 && !isQueued
  }

  const ComparisonsTitle: string := "File Import Comparisons"

  /** The events after staging: the rules run, then the validation exit or the load and its statuses. */
  function RuleAndLoadEvents(isQueued: bool, job: ImportJob, movedFile: string, env: Env, staged: seq<Record>): seq<Event>
  {
    var ds := job.dataset;
    var fails := Fails(ds.comparisons, ds.dataSet, env.registry, staged);
    [JobDetail(env.jobId, ComparisonsTitle, ComparisonsRunning + job.filename)]
    + if fails != [] then RuleFailure(fails, job, movedFile, env) else LoadStage(isQueued, job, movedFile, env, staged)
  }

  /** The validation exit: the notice, then the job is killed with the failures. */
  function RuleFailure(fails: OMap<string, Json>, job: ImportJob, movedFile: string, env: Env): seq<Event>
  {
    ValidationNotice(fails, job, movedFile, env)
    + [JobKilled(env.jobId, FailedValidationMessage(job.filename), env.encode(JObject(fails)))]
  }

  /** The load: a job-log entry, the load callback, then what its statuses lead to. */
  function LoadStage(isQueued: bool, job: ImportJob, movedFile: string, env: Env, staged: seq<Record>): seq<Event>
  {
    var ds := job.dataset;
    [JobDetail(env.jobId, "File Import Load", "Loading data from " + ds.table), LoadInvoked(ds.controller)]
    + LoadEvents(isQueued, env.load(ds.controller, staged), job, movedFile, env)
  }

  /** A notice is a mail and a text: it neither ends the job nor loads. */
  lemma NoticeIsQuiet(subject: Option<string>, body: string, subscribers: seq<Subscriber>,
                      attachments: seq<string>, pending: seq<nat>)
    ensures var es := NoticeEvents(subject, body, subscribers, attachments, pending);
      |es| == 2 && forall e :: e in es ==> e.MailSent? || e.SmsSent?
  {
  }

  /** The validation exit is three events, ends the job once with the kill, and loads nothing. */
  lemma RuleFailureShape(fails: OMap<string, Json>, job: ImportJob, movedFile: string, env: Env)
    ensures var es := RuleFailure(fails, job, movedFile, env);
      && |es| == 3
      && es[2] == JobKilled(env.jobId, FailedValidationMessage(job.filename), env.encode(JObject(fails)))
      && NoLoad(es) && JobEnds(es) == 1
  {
    var notice := ValidationNotice(fails, job, movedFile, env);
    var kill := JobKilled(env.jobId, FailedValidationMessage(job.filename), env.encode(JObject(fails)));
    NoticeThenKill(notice, kill);
    JobEndsNone(notice);
    JobEndsOne(kill);
    JobEndsAppend(notice, [kill]);
  }

  /** The load callback runs second in the load stage, and the stage ends the job once per status of a queued run. */
  lemma LoadStageShape(isQueued: bool, job: ImportJob, movedFile: string, env: Env, staged: seq<Record>)
    ensures var ds := job.dataset;
      var es := LoadStage(isQueued, job, movedFile, env, staged);
      && |es| >= 2 && es[1] == LoadInvoked(ds.controller)
      && (isQueued ==> JobEnds(es) == |env.load(ds.controller, staged)|)
  {
    var ds := job.dataset;
    var statuses := env.load(ds.controller, staged);
    var load := [JobDetail(env.jobId, "File Import Load", "Loading data from " + ds.table), LoadInvoked(ds.controller)];
    JobEndsNone(load);
    if isQueued {
      EveryStatusEndsJob(statuses, job, movedFile, env);
      JobEndsAppend(load, AllStatusEvents(statuses, job, movedFile, env));
    }
  }

  /**
   * Failing rules send the notice and kill the job, and the load callback
   * does not run; otherwise the load runs, right after the two job-log
   * entries.
   */
  lemma RuleAndLoadTrace(isQueued: bool, job: ImportJob, movedFile: string, env: Env, staged: seq<Record>)
    ensures var ds := job.dataset;
      var fails := Fails(ds.comparisons, ds.dataSet, env.registry, staged);
      var events := RuleAndLoadEvents(isQueued, job, movedFile, env, staged);
      && |events| > 2
      && events[0] == JobDetail(env.jobId, ComparisonsTitle, ComparisonsRunning + job.filename)
      && (fails != [] ==>
            events[3] == JobKilled(env.jobId, FailedValidationMessage(job.filename), env.encode(JObject(fails)))
            && NoLoad(events))
      && (fails == [] ==> events[2] == LoadInvoked(ds.controller))
  {
    var ds := job.dataset;
    var fails := Fails(ds.comparisons, ds.dataSet, env.registry, staged);
    var head := [JobDetail(env.jobId, ComparisonsTitle, ComparisonsRunning + job.filename)];
    if fails != [] {
      var tail := RuleFailure(fails, job, movedFile, env);
      RuleFailureShape(fails, job, movedFile, env);
      NoLoadAppend(head, tail);
      assert (head + tail)[3] == tail[2];
    } else {
      var tail := LoadStage(isQueued, job, movedFile, env, staged);
      LoadStageShape(isQueued, job, movedFile, env, staged);
      assert (head + tail)[2] == tail[1];
    }
  }

  /**
   * The part of `runFileImport` after staging: run the rules; failing rules
   * kill the job and keep the load callback from running; otherwise the
   * load runs and its statuses decide the rest.
   */
  method ValidateAndLoad(isQueued: bool, isFromVino: bool, job: ImportJob, movedFile: string, env: Env,
                         staged: seq<Record>)
    returns (response: Option<ImportResponse>, events: seq<Event>)
    ensures events == RuleAndLoadEvents(isQueued, job, movedFile, env, staged)
    ensures var ds := job.dataset;
      var fails := Fails(ds.comparisons, ds.dataSet, env.registry, staged);
      var statuses := env.load(ds.controller, staged);
      && (fails != [] ==>
            response == Some(ValidationResponse(isQueued, isFromVino, job.filename, fails))
            && JobKilled(env.jobId, FailedValidationMessage(job.filename), env.encode(JObject(fails))) in events
            && NoLoad(events))
      && (fails == [] ==>
            LoadInvoked(ds.controller) in events
            && (isQueued ==> response.None?)
            && (!isQueued ==> response == if statuses == [] then None else Some(StatusResponse(statuses[0], isFromVino, ds.readable))))
  {
    var ds := job.dataset;
    RuleAndLoadTrace(isQueued, job, movedFile, env, staged);
    var head := [JobDetail(env.jobId, ComparisonsTitle, ComparisonsRunning + job.filename)];
    var fails := RunComparisons(ds.comparisons, ds.dataSet, env.registry, staged);
    if fails != [] {
      var failed := FailValidation(fails, job, movedFile, env);
      events := head + failed;
      response := Some(ValidationResponse(isQueued, isFromVino, job.filename, fails));
      return;
    }
    var statuses := env.load(ds.controller, staged);
    var statusEvents;
    response, statusEvents := ProcessStatuses(isQueued, isFromVino, job, movedFile, env, statuses);
    events := head + ([JobDetail(env.jobId, "File Import Load", "Loading data from " + ds.table), LoadInvoked(ds.controller)]
                      + statusEvents);
  }

  /** The job-log entry that starts an import. */
  function Initiated(job: ImportJob, env: Env): Event
  {
    JobInitiated(env.jobId, job.jobType, "Uploading " + job.filename + " into " + job.dataset.table)
  }

  /** The events up to the end of staging: the job starts, then staging runs with automatic processing on. */
  function StartEvents(job: ImportJob, env: Env): seq<Event>
  {
    [Initiated(job, env)] + StagingTrace(env.jobId, env.sheet, job.dataset.table, env.columns, env.insert, true, env.encode)
  }

  /** What staging leaves in the table. */
  function StagedOf(job: ImportJob, env: Env, before: seq<Record>): StagingOutcome
  {
    Staging(env.sheet, job.dataset.table, env.columns, env.insert, before)
  }

  /**
   * The events of a whole run.  They depend on whether the job is queued but
   * not on where the request came from: only the reply does.
   */
  function RunEvents(isQueued: bool, job: ImportJob, movedFile: string, env: Env, before: seq<Record>): seq<Event>
  {
    var st := StagedOf(job, env, before);
    StartEvents(job, env) + StagingExit(st, job, movedFile, env) + AfterStaging(isQueued, st, job, movedFile, env)
  }

  /** The failure notice when staging did not succeed. */
  function StagingExit(st: StagingOutcome, job: ImportJob, movedFile: string, env: Env): seq<Event>
  {
    if st.result.statusCode != 200 then StagingFailureEvents(st.result, job, movedFile, env) else []
  }

  /** The rules and the load, unless a failed staging ended a browser run. */
  function AfterStaging(isQueued: bool, st: StagingOutcome, job: ImportJob, movedFile: string, env: Env): seq<Event>
  {
    if Fatal(isQueued, st.result) then [] else RuleAndLoadEvents(isQueued, job, movedFile, env, st.after)
  }

  /** The job-log entry that starts the import, then staging with the processing still to follow. */
  method StartImport(job: ImportJob, env: Env, before: seq<Record>)
    returns (ret: StagingResult, staged: seq<Record>, events: seq<Event>)
    ensures StagingOutcome(ret, staged) == StagedOf(job, env, before)
    ensures events == StartEvents(job, env)
    ensures |events| > 0 && events[0] == Initiated(job, env)
    ensures forall e :: e in events ==> !e.JobStopped? && !e.JobKilled? && !e.LoadInvoked?
  {
    var ds := job.dataset;
    var initiated := [Initiated(job, env)];
    var stagingEvents;
    ret, staged, stagingEvents := ProcessFile(env.jobId, env.sheet, ds.table, env.columns, true, env.insert, env.encode, before);
    AutoStagingLeavesJobOpen(env.jobId, env.sheet, ds.table, env.columns, env.insert, env.encode);
    events := initiated + stagingEvents;
  }

  /** Staging with automatic processing neither ends the job nor loads; the job is initiated first. */
  lemma StartIsQuiet(job: ImportJob, env: Env)
    ensures var start := StartEvents(job, env);
      && |start| > 0 && start[0] == Initiated(job, env)
      && (forall e :: e in start ==> !e.JobStopped? && !e.JobKilled? && !e.LoadInvoked?)
      && NoLoad(start) && JobEnds(start) == 0
  {
    var ds := job.dataset;
    AutoStagingLeavesJobOpen(env.jobId, env.sheet, ds.table, env.columns, env.insert, env.encode);
    JobEndsNone(StartEvents(job, env));
  }

  /** The staging-failure exit kills the job once, first, and loads nothing. */
  lemma StagingFailureShape(ret: StagingResult, job: ImportJob, movedFile: string, env: Env)
    ensures var killed := StagingFailureEvents(ret, job, movedFile, env);
      && |killed| > 0 && killed[0] == JobKilled(env.jobId, ret.content.message, env.encode(StagingJson(ret.content)))
      && NoLoad(killed) && JobEnds(killed) == 1
      && forall e :: e in killed ==> !e.JobStopped?
  {
    var kill := JobKilled(env.jobId, ret.content.message, env.encode(StagingJson(ret.content)));
    var notice := StagingFailureEvents(ret, job, movedFile, env)[1..];
    assert StagingFailureEvents(ret, job, movedFile, env) == [kill] + notice;
    JobEndsOne(kill);
    JobEndsNone(notice);
    JobEndsAppend([kill], notice);
  }

  /** A trace with no stop and no kill does not end the job. */
  lemma {:induction false} JobEndsNone(es: seq<Event>)
    requires forall e :: e in es ==> !e.JobStopped? && !e.JobKilled?
    ensures JobEnds(es) == 0
  {
    if es != [] {
      assert forall e :: e in es[..|es| - 1] ==> e in es;
      JobEndsNone(es[..|es| - 1]);
    }
  }

  lemma JobEndsOne(e: Event)
    requires e.JobStopped? || e.JobKilled?
    ensures JobEnds([e]) == 1
  {
    assert [e][..0] == [];
  }

  /**
   * After staging, a queued run ends the job once if the rules fail, and
   * otherwise once per load status.
   */
  lemma QueuedRulesAndLoadEndJob(job: ImportJob, movedFile: string, env: Env, staged: seq<Record>)
    ensures var ds := job.dataset;
      var fails := Fails(ds.comparisons, ds.dataSet, env.registry, staged);
      JobEnds(RuleAndLoadEvents(true, job, movedFile, env, staged))
        == if fails != [] then 1 else |env.load(ds.controller, staged)|
  {
    var ds := job.dataset;
    var fails := Fails(ds.comparisons, ds.dataSet, env.registry, staged);
    var head := [JobDetail(env.jobId, ComparisonsTitle, ComparisonsRunning + job.filename)];
    JobEndsNone(head);
    if fails != [] {
      RuleFailureShape(fails, job, movedFile, env);
      JobEndsAppend(head, RuleFailure(fails, job, movedFile, env));
    } else {
      LoadStageShape(true, job, movedFile, env, staged);
      JobEndsAppend(head, LoadStage(true, job, movedFile, env, staged));
    }
  }

  /** The job starts first, a failed staging kills it, and the rules and the load behave as after staging. */
  lemma RunTrace(isQueued: bool, job: ImportJob, movedFile: string, env: Env, before: seq<Record>)
    ensures var ds := job.dataset;
      var st := StagedOf(job, env, before);
      var fails := Fails(ds.comparisons, ds.dataSet, env.registry, st.after);
      var events := RunEvents(isQueued, job, movedFile, env, before);
      && |events| > 0 && events[0] == Initiated(job, env)
      && (st.result.statusCode != 200 ==>
            JobKilled(env.jobId, st.result.content.message, env.encode(StagingJson(st.result.content))) in events)
      && (Fatal(isQueued, st.result) ==> NoLoad(events))
      && (!Fatal(isQueued, st.result) && fails != [] ==>
            JobKilled(env.jobId, FailedValidationMessage(job.filename), env.encode(JObject(fails))) in events
            && NoLoad(events))
      && (!Fatal(isQueued, st.result) && fails == [] ==> LoadInvoked(job.dataset.controller) in events)
  {
    var st := StagedOf(job, env, before);
    var start := StartEvents(job, env);
    var killed := StagingExit(st, job, movedFile, env);
    var rest := AfterStaging(isQueued, st, job, movedFile, env);
    StartIsQuiet(job, env);
    StagingFailureShape(st.result, job, movedFile, env);
    RuleAndLoadTrace(isQueued, job, movedFile, env, st.after);
    ThreeStages(start, killed, rest);
    if st.result.statusCode != 200 {
      assert killed[0] in killed;
    }
    if !Fatal(isQueued, st.result) {
      assert rest[0] in rest && rest[2] in rest;
      if |rest| > 3 {
        assert rest[3] in rest;
      }
    }
  }

  /**
   * A browser run whose staging fails stops there: the job is initiated,
   * staged and killed once, the failure notice goes out, and no rule and no
   * load runs.
   */
  lemma FatalStagingEndsRun(job: ImportJob, movedFile: string, env: Env, before: seq<Record>)
    requires StagedOf(job, env, before).result.statusCode != 200
    ensures var st := StagedOf(job, env, before);
      var events := RunEvents(false, job, movedFile, env, before);
      && events == StartEvents(job, env) + StagingFailureEvents(st.result, job, movedFile, env)
      && JobEnds(events) == 1
      && (forall e :: e in events ==> !e.JobStopped? && !e.LoadInvoked?)
  {
    var st := StagedOf(job, env, before);
    var start := StartEvents(job, env);
    var killed := StagingFailureEvents(st.result, job, movedFile, env);
    assert RunEvents(false, job, movedFile, env, before) == start + killed + [];
    assert start + killed + [] == start + killed;
    StartIsQuiet(job, env);
    StagingFailureShape(st.result, job, movedFile, env);
    JobEndsAppend(start, killed);
    assert forall e :: e in start + killed ==> e in start || e in killed;
  }

  /**
   * A queued run goes on after a failed staging, so the job is ended once
   * for that failure, then once for failing rules or once per load status.
   */
  lemma QueuedRunEndsJob(job: ImportJob, movedFile: string, env: Env, before: seq<Record>)
    ensures var ds := job.dataset;
      var st := StagedOf(job, env, before);
      var fails := Fails(ds.comparisons, ds.dataSet, env.registry, st.after);
      JobEnds(RunEvents(true, job, movedFile, env, before))
        == (if st.result.statusCode != 200 then 1 else 0)
           + (if fails != [] then 1 else |env.load(ds.controller, st.after)|)
  {
    var st := StagedOf(job, env, before);
    var start := StartEvents(job, env);
    var killed := StagingExit(st, job, movedFile, env);
    var rest := RuleAndLoadEvents(true, job, movedFile, env, st.after);
    assert AfterStaging(true, st, job, movedFile, env) == rest;
    StartIsQuiet(job, env);
    StagingFailureShape(st.result, job, movedFile, env);
    QueuedRulesAndLoadEndJob(job, movedFile, env, st.after);
    JobEndsAppend(start, killed);
    JobEndsAppend(start + killed, rest);
  }

  /**
   * `runFileImport`.  Staging is run with automatic processing on, so it
   * never stops the job; a failed staging kills it and, for a browser
   * request, returns its status without running any rule.
   */
  method RunFileImport(isQueued: bool, isFromVino: bool, job: ImportJob, movedFile: string, env: Env,
                       before: seq<Record>)
    returns (response: Option<ImportResponse>, staged: seq<Record>, events: seq<Event>)
    ensures events == RunEvents(isQueued, job, movedFile, env, before)
    ensures var ds := job.dataset;
      var st := StagedOf(job, env, before);
      var fails := Fails(ds.comparisons, ds.dataSet, env.registry, st.after);
      var statuses := env.load(ds.controller, st.after);
      && staged == st.after
      && |events| > 0
      && events[0] == Initiated(job, env)
      && (st.result.statusCode != 200 ==>
            JobKilled(env.jobId, st.result.content.message, env.encode(StagingJson(st.result.content))) in events)
      && (Fatal(isQueued, st.result) ==>
            response == Some(Api(st.result.content.message, StagingJson(st.result.content), st.result.statusCode))
            && NoLoad(events))
      && (!Fatal(isQueued, st.result) && fails != [] ==>
            response == Some(ValidationResponse(isQueued, isFromVino, job.filename, fails))
            && JobKilled(env.jobId, FailedValidationMessage(job.filename), env.encode(JObject(fails))) in events
            && NoLoad(events))
      && (!Fatal(isQueued, st.result) && fails == [] ==>
            LoadInvoked(job.dataset.controller) in events
            && (isQueued ==> response.None?)
            && (!isQueued ==> response == if statuses == [] then None else Some(StatusResponse(statuses[0], isFromVino, ds.readable))))
  {
    RunTrace(isQueued, job, movedFile, env, before);
    var st := StagedOf(job, env, before);
    var ret, start;
    ret, staged, start := StartImport(job, env, before);
    var killed: seq<Event> := [];
    if ret.statusCode != 200 {
      killed := FailStaging(ret, job, movedFile, env);
    }
    assert killed == StagingExit(st, job, movedFile, env);
    var rest: seq<Event> := [];
    if Fatal(isQueued, ret) {
      response := Some(Api(ret.content.message, StagingJson(ret.content), ret.statusCode));
    } else {
      response, rest := ValidateAndLoad(isQueued, isFromVino, job, movedFile, env, staged);
    }
    assert rest == AfterStaging(isQueued, st, job, movedFile, env);
    events := start + killed + rest;
  }
}
