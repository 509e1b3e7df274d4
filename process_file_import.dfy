/**
 * The queued import job.  Each time a worker picks it up it looks for
 * running imports it conflicts with; after three attempts it alerts the
 * failure notification's subscribers; while a conflict runs it goes back on
 * the queue, and otherwise it runs the import.
 */
module ProcessFileImport {
  import opened Php
  import opened Records
  import opened Notifications
  import opened Effects
  import opened FileImportService
  import opened FileImportLogic

  /** Where uploaded files are kept, relative to the application. */
  const UploadsDir: string := "storage/uploads/"

  // ---------------------------------------------------------------------
  // The escalation notice
  // ---------------------------------------------------------------------

  function IdItem(id: nat): string
  {
    IntToString(id) + ","
  }

  /** `$jobIds` before the trailing comma is trimmed: an opening parenthesis, then each id and a comma. */
  function JobIdsBuilt(ids: seq<nat>): string
  {
    "(" + Concat(MapSeq(ids, IdItem))
  }

  function IdText(id: nat): string
  {
    IntToString(id)
  }

  lemma BuiltStep(init: seq<nat>, x: nat)
    ensures JobIdsBuilt(init + [x]) == JobIdsBuilt(init) + IdItem(x)
  {
    MapSeqAppend(init, x, IdItem);
    ConcatAppend(MapSeq(init, IdItem), IdItem(x));
    AppendAssoc("(", Concat(MapSeq(init, IdItem)), IdItem(x));
  }

  lemma JoinedStep(init: seq<nat>, x: nat)
    requires init != []
    ensures Join(MapSeq(init + [x], IdText), ",") == Join(MapSeq(init, IdText), ",") + "," + IdText(x)
  {
    MapSeqAppend(init, x, IdText);
    JoinAppend(MapSeq(init, IdText), IdText(x), ",");
  }

  /** Each id followed by a comma is the comma-joined ids plus one final comma. */
  lemma {:induction false} JobIdsBuiltJoined(ids: seq<nat>)
    requires ids != []
    ensures JobIdsBuilt(ids) == "(" + Join(MapSeq(ids, IdText), ",") + ","
  {
    var init := ids[..|ids| - 1];
    var x := ids[|ids| - 1];
    assert ids == init + [x];
    if init == [] {
      BuiltJoinedOne(x);
    } else {
      JobIdsBuiltJoined(init);
      BuiltJoinedStep(init, x);
    }
  }

  lemma BuiltJoinedOne(x: nat)
    ensures JobIdsBuilt([x]) == "(" + Join(MapSeq([x], IdText), ",") + ","
  {
    BuiltStep([], x);
    assert [] + [x] == [x];
    assert JobIdsBuilt([]) == "(";
    assert MapSeq([x], IdText) == [IdText(x)];
    AppendAssoc("(", IntToString(x), ",");
  }

  lemma BuiltJoinedStep(init: seq<nat>, x: nat)
    requires init != []
    requires JobIdsBuilt(init) == "(" + Join(MapSeq(init, IdText), ",") + ","
    ensures JobIdsBuilt(init + [x]) == "(" + Join(MapSeq(init + [x], IdText), ",") + ","
  {
    BuiltStep(init, x);
    JoinedStep(init, x);
    Regroup("(", Join(MapSeq(init, IdText), ","), ",", IdText(x), ",");
  }

  /** Regrouping five pieces of text. */
  lemma Regroup(a: string, b: string, c: string, d: string, e: string)
    ensures (a + b + c) + (d + e) == a + (b + c + d) + e
  {
    AppendAssoc(a + b + c, d, e);
    AppendAssoc(a, b + c, d);
    AppendAssoc(a, b, c);
  }

  /** `rtrim` removes exactly the one comma after a final digit. */
  lemma TrimOneComma(s: string)
    requires |s| > 0 && IsDigit(s[|s| - 1])
    ensures RTrimChar(s + ",", ',') == s
  {
    assert (s + ",")[..|s + ","| - 1] == s;
  }

  /** The `$jobIds` loop: the running ids, comma-separated, in parentheses. */
  method JobIdList(ids: seq<nat>) returns (jobIds: string)
    ensures jobIds == RTrimChar(JobIdsBuilt(ids), ',') + ")"
    ensures ids == [] ==> jobIds == "()"
    ensures ids != [] ==> jobIds == "(" + Join(MapSeq(ids, IdText), ",") + ")"
  {
    jobIds := "(";
    var i := 0;
    while i < |ids|
      invariant 0 <= i <= |ids|
      invariant jobIds == JobIdsBuilt(ids[..i])
    {
      assert ids[..i + 1] == ids[..i] + [ids[i]];
      MapSeqAppend(ids[..i], ids[i], IdItem);
      ConcatAppend(MapSeq(ids[..i], IdItem), IdItem(ids[i]));
      AppendAssoc("(", Concat(MapSeq(ids[..i], IdItem)), IdItem(ids[i]));
      jobIds := jobIds + IdItem(ids[i]);
      i := i + 1;
    }
    assert ids[..i] == ids;
    jobIds := RTrimChar(jobIds, ',');
    jobIds := jobIds + ")";
    if ids != [] {
      JobIdsBuiltJoined(ids);
      var parts := MapSeq(ids, IdText);
      JoinEndsWithLast(parts, ",");
      IntToStringEndsInDigit(ids[|ids| - 1]);
      TrimOneComma("(" + Join(parts, ","));
    } else {
      assert JobIdsBuilt(ids) == "(";
    }
  }

  function ConflictDetails(jobIds: string, minutes: string): string
  {
    ConflictLead + jobIds + ConflictMiddle + minutes + ConflictEnd
  }

  const ConflictLead: string := "This usually means that conflicting files "
  const ConflictMiddle: string := " are being processed simultaneously. Please wait at least "
  const ConflictEnd: string := " minutes, then attempt the import again. If you receive this email a second time, please contact support."
  const StartFailure: string := " file import on the processing queue, but it has been unable to start."
  const OtherError: string :=
    " This error appears to be unrelated to conflicting file import processes, so please contact support for assistance."

  const EscalationOpening: string := "Three attempts have been made to process the recently submitted file for the "

  /** The escalation body: the fixed opening, the file name, then the details, with nothing in between. */
  function EscalationBody(filename: string, details: string): (r: string)
    ensures IsPrefix(EscalationOpening + filename, r)
    ensures IsSuffix(details, r)
  {
    var head := EscalationOpening + filename + StartFailure;
    assert head == EscalationOpening + filename + StartFailure;
    head + details
  }

  function EscalationSubject(readable: string): string
  {
    "Recent " + readable + " File Import Removed From Queue"
  }

  /** What the alert says after the file name: the conflicting ids, or that no conflict is to blame. */
  function Details(running: seq<nat>, minutes: string): string
  {
    if running != [] then ConflictDetails("(" + Join(MapSeq(running, IdText), ",") + ")", minutes) else OtherError
  }

  /** The escalation notice of an attempt after the third, and nothing on the first three. */
  function Alert(attempts: int, running: seq<nat>, minutes: string, job: ImportJob,
                 notifications: map<string, Notification>, pending: seq<nat>): seq<Event>
  {
    if attempts > 3 then
      NoticeEvents(Some(EscalationSubject(job.dataset.readable)),
                   EscalationBody(job.filename, Details(running, minutes)),
                   SubscribersOf(notifications, job.dataset.failedNotification), [], pending)
    else []
  }

  /** `$messageDetails`: the conflicting ids when jobs are running, the other-error text otherwise. */
  method MessageDetails(running: seq<nat>, minutes: string) returns (messageDetails: string)
    ensures messageDetails == Details(running, minutes)
  {
    if running != [] {
      var jobIds := JobIdList(running);
      messageDetails := ConflictDetails(jobIds, minutes);
    } else {
      messageDetails := OtherError;
    }
  }

  /**
   * The `try` around `runFileImport` when nothing conflicts: the import runs
   * queued and not from the browser on the uploaded copy of the file; its
   * response, and any exception, go no further than the log.
   */
  method RunQueued(job: ImportJob, env: Env, before: seq<Record>) returns (staged: seq<Record>, events: seq<Event>)
    ensures events == RunEvents(true, job, UploadsDir + job.filename, env, before)
    ensures |events| > 0
    ensures events[0] == JobInitiated(env.jobId, job.jobType, "Uploading " + job.filename + " into " + job.dataset.table)
    ensures staged == Staging(env.sheet, job.dataset.table, env.columns, env.insert, before).after
  {
    var movedFile := UploadsDir + job.filename;
    var response;
    response, staged, events := RunFileImport(true, false, job, movedFile, env, before);
  }

  // ---------------------------------------------------------------------
  // The job
  // ---------------------------------------------------------------------

  class ProcessFileImport {
    /** The job types that must not run at the same time. */
    var noAsync: seq<string>
    /** Seconds to wait before trying again. */
    var waitTime: int
    /** What to import and how. */
    var job: ImportJob
    /** Users to text at the next send. */
    var smsRecipients: seq<nat>

    constructor(noAsync: seq<string>, waitTime: int, job: ImportJob)
      ensures this.noAsync == noAsync && this.waitTime == waitTime && this.job == job
      ensures smsRecipients == []
    {
      this.noAsync := noAsync;
      this.waitTime := waitTime;
      this.job := job;
      smsRecipients := [];
    }

    /** `getSubscribers`: the subscribers keyed by e-mail; the SMS-opted users join the pending recipients. */
    method GetSubscribers(notifications: map<string, Notification>, name: string)
      returns (subscriptions: OMap<string, Subscription>)
      modifies this
      ensures subscriptions == SubscriptionsOf(SubscribersOf(notifications, name))
      ensures smsRecipients == SmsQueue(old(smsRecipients), SubscribersOf(notifications, name))
      ensures noAsync == old(noAsync) && waitTime == old(waitTime) && job == old(job)
    {
      subscriptions := [];
      if name !in notifications {
        return;
      }
      var us := notifications[name].subscribers;
      var i := 0;
      while i < |us|
        invariant 0 <= i <= |us|
        invariant subscriptions == SubscriptionsOf(us[..i])
        invariant smsRecipients == SmsQueue(old(smsRecipients), us[..i])
        invariant noAsync == old(noAsync) && waitTime == old(waitTime) && job == old(job)
      {
        var u := us[i];
        SubscriberStep(us, i, old(smsRecipients));
        subscriptions := Put(subscriptions, u.email, Subscription(u.email, u.username));
        if u.sendViaSms {
          smsRecipients := smsRecipients + [u.user];
        }
        i := i + 1;
      }
      assert us[..i] == us;
    }

    /** `sendBulkSMS`: text everyone pending, then forget them. */
    method SendBulkSMS(text: Option<string>) returns (sms: Event)
      modifies this
      ensures sms == SmsSent(old(smsRecipients), text)
      ensures smsRecipients == []
      ensures noAsync == old(noAsync) && waitTime == old(waitTime) && job == old(job)
    {
      sms := SmsSent(smsRecipients, text);
      smsRecipients := [];
    }

    /** The alert sent on every attempt after the third. */
    method Escalate(running: seq<nat>, minutes: string, notifications: map<string, Notification>)
      returns (events: seq<Event>)
      modifies this
      ensures events == NoticeEvents(Some(EscalationSubject(job.dataset.readable)),
                                     EscalationBody(job.filename, Details(running, minutes)),
                                     SubscribersOf(notifications, job.dataset.failedNotification), [],
                                     old(smsRecipients))
      ensures smsRecipients == []
      ensures noAsync == old(noAsync) && waitTime == old(waitTime) && job == old(job)
    {
      var messageDetails := MessageDetails(running, minutes);
      var subscribers := GetSubscribers(notifications, job.dataset.failedNotification);
      var messageBody := EscalationBody(job.filename, messageDetails);
      var subject := EscalationSubject(job.dataset.readable);
      var sms := SendBulkSMS(Some(subject));
      events := [MailSent(Some(subject), messageBody, Values(subscribers), []), sms];
    }

    /**
     * `handle`, given how many times the job has been attempted and the ids
     * of the running jobs it conflicts with.  The alert goes out on every
     * attempt after the third, conflict or not; a conflict puts the job back
     * on the queue for `waitTime`; only with no conflict does the import run,
     * queued and not from the browser, on the uploaded copy of the file.
     */
    method Handle(attempts: int, running: seq<nat>, minutes: string, env: Env, before: seq<Record>)
      returns (staged: seq<Record>, events: seq<Event>)
      modifies this
      ensures noAsync == old(noAsync) && waitTime == old(waitTime) && job == old(job)
      ensures var alert := Alert(attempts, running, minutes, job, env.notifications, old(smsRecipients));
        && |events| >= |alert| && events[..|alert|] == alert
        && smsRecipients == (if attempts > 3 then [] else old(smsRecipients))
        && (running != [] ==> events == alert + [Released(waitTime)] && staged == before)
        && (running == [] ==>
              events == alert + RunEvents(true, job, UploadsDir + job.filename, env, before)
              && |events| > |alert|
              && events[|alert|] == JobInitiated(env.jobId, job.jobType,
                                                 "Uploading " + job.filename + " into " + job.dataset.table)
              && staged == Staging(env.sheet, job.dataset.table, env.columns, env.insert, before).after)
    {
      events := [];
      if attempts > 3 {
        events := Escalate(running, minutes, env.notifications);
      }
      ghost var alert := events;
      var rest;
      staged, rest := Proceed(running, env, before);
      events := events + rest;
      AppendParts(alert, rest);
    }

    /** After the alert: back on the queue while a conflict runs, otherwise the import. */
    method Proceed(running: seq<nat>, env: Env, before: seq<Record>) returns (staged: seq<Record>, events: seq<Event>)
      ensures running != [] ==> events == [Released(waitTime)] && staged == before
      ensures running == [] ==>
                events == RunEvents(true, job, UploadsDir + job.filename, env, before)
                && |events| > 0
                && events[0] == JobInitiated(env.jobId, job.jobType, "Uploading " + job.filename + " into " + job.dataset.table)
                && staged == Staging(env.sheet, job.dataset.table, env.columns, env.insert, before).after
    {
      var jobsAreRunning := |running| > 0;
      if jobsAreRunning {
        events := [Released(waitTime)];
        staged := before;
      } else {
        staged, events := RunQueued(job, env, before);
      }
    }
  }
}
