/**
 * What an import is configured with, and the side effects the pipeline has
 * on the world outside it: job-log entries, table truncation, mail, SMS,
 * the load callback, and the queue.  Operations return the effects they
 * cause, in order, as a trace of events.
 */
module Effects {
  import opened Php
  import opened Notifications

  /** The per-dataset settings an import controller passes in. */
  datatype Dataset = Dataset(
    table: string,
    comparisons: seq<string>,
    dataSet: string,
    readable: string,
    failedNotification: string,
    successNotification: string,
    controller: string)

  /** What `runFileImport` is told about one import, besides its flags and the moved file. */
  datatype ImportJob = ImportJob(jobType: string, filename: string, dataset: Dataset)

  /** The arguments a queued `ProcessFileImport` job is constructed with. */
  datatype QueuedJob = QueuedJob(noAsync: seq<string>, waitTime: int, job: ImportJob)

  datatype Event =
    | JobInitiated(jobId: nat, jobType: string, description: string)
    | JobDetail(jobId: nat, title: string, detail: string)
    | JobStopped(jobId: nat, message: string)
    | JobKilled(jobId: nat, message: string, detail: string)
    | TableTruncated(table: string)
      /** A mail to the admin address, copied to `cc`; a missing notification gives no subject. */
    | MailSent(subject: Option<string>, body: string, cc: seq<Subscription>, attachments: seq<string>)
    | SmsSent(recipients: seq<nat>, text: Option<string>)
    | LoadInvoked(controller: string)
    | Released(delay: int)
    | Dispatched(queue: string, job: QueuedJob)

  /**
   * One notice: the mail to the admin address with the notification's
   * subscribers on the CC line (one per address), then the SMS to the users
   * already pending plus the subscribers who opted in.
   */
  function NoticeEvents(subject: Option<string>, body: string, subscribers: seq<Subscriber>,
                        attachments: seq<string>, pending: seq<nat>): seq<Event>
  {
    [MailSent(subject, body, Values(SubscriptionsOf(subscribers)), attachments),
     SmsSent(SmsQueue(pending, subscribers), subject)]
  }

  /** No event of the trace invokes a load callback. */
  predicate NoLoad(es: seq<Event>)
  {
    forall e :: e in es ==> !e.LoadInvoked?
  }

  lemma NoLoadAppend(a: seq<Event>, b: seq<Event>)
    ensures NoLoad(a + b) <==> NoLoad(a) && NoLoad(b)
  {
    assert forall e :: e in a + b <==> e in a || e in b;
  }

  /** Three consecutive stages of a trace: what is in a stage is in the trace, and loads add up. */
  lemma ThreeStages(a: seq<Event>, b: seq<Event>, c: seq<Event>)
    ensures NoLoad(a + b + c) <==> NoLoad(a) && NoLoad(b) && NoLoad(c)
    ensures forall e :: e in b ==> e in a + b + c
    ensures forall e :: e in c ==> e in a + b + c
    ensures |a| > 0 ==> |a + b + c| > 0 && (a + b + c)[0] == a[0]
  {
    NoLoadAppend(a, b);
    NoLoadAppend(a + b, c);
  }

  predicate IsKill(e: Event) { e.JobKilled? }

  /** A mail and a text, then a kill: three events, none of them a load. */
  lemma NoticeThenKill(notice: seq<Event>, kill: Event)
    requires |notice| == 2 && notice[0].MailSent? && notice[1].SmsSent? && kill.JobKilled?
    ensures var es := notice + [kill];
      |es| == 3 && es[0] == notice[0] && es[1] == notice[1] && es[2] == kill && NoLoad(es)
  {
  }

  predicate IsStop(e: Event) { e.JobStopped? }
  predicate IsLoad(e: Event) { e.LoadInvoked? }
}
