/**
 * The notices sent when an import fails validation, staging or loading,
 * succeeds, or arrives without a file: their bodies, their attachment
 * lists, the reprocessing link, and the SMS recipient list the processor
 * accumulates between sends.  Mail and SMS delivery are events.
 */
module ValidationNotices {
  import opened Php
  import opened Records
  import opened Notifications
  import opened Effects

  // ---------------------------------------------------------------------
  // Reprocessing links
  // ---------------------------------------------------------------------

  /** The validation notices that come with a link to re-upload the file, with their upload page's slug. */
  const ReprocessPages: OMap<string, string> := [
    ("barrelPlanningFileImportValidation", "update-barrel-planning-vessel-data"),
    ("barrelDataFileImportValidation", "barrel-data"),
    ("barrelGroupFileImportValidation", "barrel-group"),
    ("bottlingPlanFileImportValidation", "bottling-plan"),
    ("harvestSchedulerBlockFileImportValidation", "harvest-scheduler-block"),
    ("harvestSchedulerDataFileImportValidation", "harvest-scheduler-data"),
    ("labQAHistoryFileImportValidation", "lab-qa-history"),
    ("masterInventoryDataFileImportValidation", "master-inventory-data"),
    ("masterTankFileImportValidation", "master-tank"),
    ("operationsDataFileImportValidation", "operations-data"),
    ("tankInventoryFileImportValidation", "tank-inventory"),
    ("blockStylesFileImportValidation", "block-styles"),
    ("harvestQualityAgCodeFileImportValidation", "harvest-quality-ag-code"),
    ("harvestWeighTagAgCodeFileImportValidation", "harvest-weigh-tag-ag-code"),
    ("harvestBlockAgCodeFileImportValidation", "harvest-scheduler-block-ag-code"),
    ("harvestAllocationAgCodeFileImportValidation", "harvest-allocations-ag-code")]

  /** The validation notices that come with a link to re-upload the file. */
  const ReprocessNotifications: seq<string> := Keys(ReprocessPages)

  const UrlPrefix: string := "file-transfer/"

  /** Slugs 0 to 3 differ from every later one: by length, or early on when the lengths agree. */
  lemma SlugsDistinctFrom0()
    ensures forall i, j :: 0 <= i < 4 && i < j < |ReprocessPages| ==> ReprocessPages[i].1 != ReprocessPages[j].1
  {
    assert |ReprocessPages[0].1| == 34;
    assert |ReprocessPages[1].1| == 11;
    assert |ReprocessPages[2].1| == 12;
    assert |ReprocessPages[3].1| == 13;
    assert |ReprocessPages[4].1| == 23;
    assert |ReprocessPages[5].1| == 22;
    assert |ReprocessPages[6].1| == 14;
    assert |ReprocessPages[7].1| == 21;
    assert |ReprocessPages[8].1| == 11;
    assert |ReprocessPages[9].1| == 15;
    assert |ReprocessPages[10].1| == 14;
    assert |ReprocessPages[11].1| == 12;
    assert |ReprocessPages[12].1| == 23;
    assert |ReprocessPages[13].1| == 25;
    assert |ReprocessPages[14].1| == 31;
    assert |ReprocessPages[15].1| == 27;
    assert ReprocessPages[1].1[0] != ReprocessPages[8].1[0];
    assert ReprocessPages[2].1[1] != ReprocessPages[11].1[1];
  }

  /** Slugs 4 to 7 differ from every later one: by length, or early on when the lengths agree. */
  lemma SlugsDistinctFrom4()
    ensures forall i, j :: 4 <= i < 8 && i < j < |ReprocessPages| ==> ReprocessPages[i].1 != ReprocessPages[j].1
  {
    assert |ReprocessPages[4].1| == 23;
    assert |ReprocessPages[5].1| == 22;
    assert |ReprocessPages[6].1| == 14;
    assert |ReprocessPages[7].1| == 21;
    assert |ReprocessPages[8].1| == 11;
    assert |ReprocessPages[9].1| == 15;
    assert |ReprocessPages[10].1| == 14;
    assert |ReprocessPages[11].1| == 12;
    assert |ReprocessPages[12].1| == 23;
    assert |ReprocessPages[13].1| == 25;
    assert |ReprocessPages[14].1| == 31;
    assert |ReprocessPages[15].1| == 27;
    assert ReprocessPages[6].1[0] != ReprocessPages[10].1[0];
    assert ReprocessPages[4].1[8] != ReprocessPages[12].1[8];
  }

  /** Slugs 8 to 11 differ from every later one: by length, or early on when the lengths agree. */
  lemma SlugsDistinctFrom8()
    ensures forall i, j :: 8 <= i < 12 && i < j < |ReprocessPages| ==> ReprocessPages[i].1 != ReprocessPages[j].1
  {
    assert |ReprocessPages[8].1| == 11;
    assert |ReprocessPages[9].1| == 15;
    assert |ReprocessPages[10].1| == 14;
    assert |ReprocessPages[11].1| == 12;
    assert |ReprocessPages[12].1| == 23;
    assert |ReprocessPages[13].1| == 25;
    assert |ReprocessPages[14].1| == 31;
    assert |ReprocessPages[15].1| == 27;
  }

  /** Slugs 12 to 15 differ from every later one: by length, or early on when the lengths agree. */
  lemma SlugsDistinctFrom12()
    ensures forall i, j :: 12 <= i < 16 && i < j < |ReprocessPages| ==> ReprocessPages[i].1 != ReprocessPages[j].1
  {
    assert |ReprocessPages[12].1| == 23;
    assert |ReprocessPages[13].1| == 25;
    assert |ReprocessPages[14].1| == 31;
    assert |ReprocessPages[15].1| == 27;
  }

  /** No two notices share an upload page, and no slug is empty. */
  lemma ReprocessPagesDistinct()
    ensures DistinctValues(ReprocessPages)
    ensures forall i :: 0 <= i < |ReprocessPages| ==> ReprocessPages[i].1 != ""
  {
    SlugsDistinctFrom0();
    SlugsDistinctFrom4();
    SlugsDistinctFrom8();
    SlugsDistinctFrom12();
  }

  /** `getUrlFromNotificationName`: the relative reprocessing path, or false. */
  function UrlFromNotificationName(name: string): (r: Option<string>)
    ensures r.Some? <==> name in ReprocessNotifications
    ensures r.Some? ==> IsPrefix(UrlPrefix, r.value) && |r.value| > |UrlPrefix|
  {
    match Get(ReprocessPages, name)
    case None => None
    case Some(slug) =>
      ReprocessPagesDistinct();
      GetIsEntry(ReprocessPages, name);
      Some(UrlPrefix + slug)
  }

  /** The notice a reprocessing path belongs to: the slug looked up the other way round. */
  function NotificationForUrl(url: string): Option<string>
  {
    if !IsPrefix(UrlPrefix, url) then None else KeyOf(ReprocessPages, url[|UrlPrefix|..])
  }

  /** Each reprocessing path names one notice: no two notices share an upload page. */
  lemma UrlIdentifiesNotification(name: string)
    requires UrlFromNotificationName(name).Some?
    ensures NotificationForUrl(UrlFromNotificationName(name).value) == Some(name)
  {
    var url := UrlFromNotificationName(name).value;
    assert url[|UrlPrefix|..] == Get(ReprocessPages, name).value;
    ReprocessPagesDistinct();
    KeyOfInvertsGet(ReprocessPages, name);
  }

  // ---------------------------------------------------------------------
  // Message bodies
  // ---------------------------------------------------------------------

  /** `$notification->subject`: nothing when the notification does not exist. */
  function SubjectOf(notifications: map<string, Notification>, name: string): Option<string>
  {
    if name in notifications then Some(notifications[name].subject) else None
  }

  /** `$notification->message_body`, which concatenates as "" when the notification does not exist. */
  function BodyOf(notifications: map<string, Notification>, name: string): string
  {
    if name in notifications then notifications[name].messageBody else ""
  }

  const AttachedForChange: string :=
    " is also attached to this email. Please make the appropriate change to this file, then upload it again at: "

  function ReprocessLead(filename: string): string
  {
    " ( " + filename
    + AttachedForChange
  }

  function ReprocessSentence(filename: string, link: string): string
  {
    ReprocessLead(filename) + (link + " )")
  }

  /** The validation-failure body: the reprocess sentence is added exactly when the notice has a link. */
  function ValidationFailureBody(messageBody: string, filename: string, reprocess: Option<string>,
                                 absoluteUrl: string -> string): (r: string)
    ensures IsPrefix(messageBody, r)
    ensures r == messageBody <==> reprocess.None?
    ensures reprocess.Some? ==> IsSuffix(absoluteUrl(reprocess.value) + " )", r)
  {
    if reprocess.Some? then
      var link := absoluteUrl(reprocess.value);
      var sentence := ReprocessSentence(filename, link);
      PrefixOfAppend(messageBody, messageBody, sentence);
      SuffixOfAppend(link + " )", ReprocessLead(filename), link + " )");
      SuffixOfAppend(link + " )", messageBody, sentence);
      assert |link + " )"| >= 2;
      assert |sentence| >= 2;
      messageBody + sentence
    else messageBody
  }

  const AttachedFileLead: string := "<br>(The import file, \""
  const AttachedFileTail: string := "\" is also attached to this email for your reference.)"

  function AttachedSentence(filename: string): string
  {
    AttachedFileLead + filename + AttachedFileTail
  }

  /** The body and the note that the uploaded file is attached. */
  function AttachedNote(messageBody: string, filename: string): (r: string)
    ensures IsPrefix(messageBody, r)
  {
    PrefixOfAppend(messageBody, messageBody, AttachedSentence(filename));
    messageBody + AttachedSentence(filename)
  }

  const IssuesHeading: string := "<br>The issues encountered were:<br>"
  const ErrorsHeading: string := "<br><br><strong>ERRORS:</strong><ul>"

  function ListItem(msg: string): string
  {
    "<li>" + msg + "</li>"
  }

  /** One list item per error message, in order. */
  function ErrorItems(msgs: seq<string>): string
  {
    if msgs == [] then "" else ErrorItems(msgs[..|msgs| - 1]) + ListItem(msgs[|msgs| - 1])
  }

  lemma {:induction false} ErrorItemsEmpty(msgs: seq<string>)
    ensures ErrorItems(msgs) == "" <==> msgs == []
    ensures |ErrorItems(msgs)| >= 9 * |msgs|
  {
    if msgs != [] {
      ErrorItemsEmpty(msgs[..|msgs| - 1]);
    }
  }

  /** The ERRORS heading, one item per message, and the closing tag. */
  function ErrorList(errorMsgs: seq<string>): string
  {
    ErrorsHeading + ErrorItems(errorMsgs) + "</ul>"
  }

  /** The body up to the error list: the attached note, the issues heading and the response's message. */
  function StagingHead(messageBody: string, filename: string, responseMsg: string): string
  {
    AttachedNote(messageBody, filename) + IssuesHeading + responseMsg
  }

  /**
   * The staging-failure body.  The list of errors is guarded by comparing
   * the array of messages with 0, which holds for every array, so the
   * heading and the list are there even when there is no error.
   */
  function StagingFailureBody(messageBody: string, filename: string, responseMsg: string, errorMsgs: seq<string>)
    : (r: string)
    ensures IsPrefix(StagingHead(messageBody, filename, responseMsg), r)
    ensures IsSuffix("</ul>", r)
  {
    var head := StagingHead(messageBody, filename, responseMsg);
    var list := ErrorList(errorMsgs);
    PrefixOfAppend(head, head, list);
    SuffixOfAppend("</ul>", ErrorsHeading + ErrorItems(errorMsgs), "</ul>");
    SuffixOfAppend("</ul>", head, list);
    head + list
  }

  /** With no errors the body still ends in an empty ERRORS list. */
  lemma StagingBodyWithoutErrors(messageBody: string, filename: string, responseMsg: string)
    ensures IsSuffix(ErrorsHeading + "</ul>", StagingFailureBody(messageBody, filename, responseMsg, []))
  {
    assert ErrorList([]) == ErrorsHeading + "</ul>";
    SuffixOfAppend(ErrorList([]), StagingHead(messageBody, filename, responseMsg), ErrorList([]));
  }

  /** The `$errorMsgs` and `$messageBody` loops of `processStagingFailure`. */
  method BuildStagingBody(messageBody: string, filename: string, responseMsg: string,
                          responseErrors: seq<Json>, encode: Json -> string)
    returns (body: string)
    ensures body == StagingFailureBody(messageBody, filename, responseMsg, MapSeq(responseErrors, encode))
  {
    var errorMsgs: seq<string> := [];
    var i := 0;
    while i < |responseErrors|
      invariant 0 <= i <= |responseErrors|
      invariant errorMsgs == MapSeq(responseErrors[..i], encode)
    {
      assert responseErrors[..i + 1] == responseErrors[..i] + [responseErrors[i]];
      MapSeqAppend(responseErrors[..i], responseErrors[i], encode);
      errorMsgs := errorMsgs + [encode(responseErrors[i])];
      i := i + 1;
    }
    assert responseErrors[..i] == responseErrors;
    body := AttachedNote(messageBody, filename) + IssuesHeading + responseMsg;
    ghost var opening := body;
    body := body + ErrorsHeading;
    var head := body;
    var j := 0;
    while j < |errorMsgs|
      invariant 0 <= j <= |errorMsgs|
      invariant body == head + ErrorItems(errorMsgs[..j])
    {
      assert errorMsgs[..j + 1][..j] == errorMsgs[..j];
      AppendAssoc(head, ErrorItems(errorMsgs[..j]), ListItem(errorMsgs[j]));
      body := body + ListItem(errorMsgs[j]);
      j := j + 1;
    }
    assert errorMsgs[..j] == errorMsgs;
    body := body + "</ul>";
    AppendAssoc(opening, ErrorsHeading, ErrorItems(errorMsgs));
    AppendAssoc(opening, ErrorsHeading + ErrorItems(errorMsgs), "</ul>");
  }

  const AttemptedLead: string := "<br>(The attempted import was for the \""

  function MissingFileNote(dataSet: string): string
  {
    AttemptedLead + dataSet + "\" file.)"
  }

  function MissingFileBody(messageBody: string, dataSet: string): (r: string)
    ensures IsPrefix(messageBody, r)
    ensures IsSuffix("\" file.)", r)
  {
    var note := MissingFileNote(dataSet);
    PrefixOfAppend(messageBody, messageBody, note);
    SuffixOfAppend("\" file.)", AttemptedLead + dataSet, "\" file.)");
    SuffixOfAppend("\" file.)", messageBody, note);
    messageBody + note
  }

  // ---------------------------------------------------------------------
  // Attachments
  // ---------------------------------------------------------------------

  /** A string member of a decoded JSON object; anything else reads as "". */
  function JsonText(j: Json, key: string): string
  {
    if !j.JObject? then ""
    else
      var v := Get(j.fields, key);
      if v.Some? && v.value.JStr? then v.value.s else ""
  }

  /** `processSingleFail`'s file name for one failing comparison, exported at time `now`. */
  function ExportName(fail: Json, now: string): string
  {
    JsonText(fail, "dataSet") + "_" + JsonText(fail, "comparison") + "_" + now + ".xls"
  }

  /** Where the mail attaches each exported sheet: the validations directory, a slash, the file name. */
  function ExportPaths(dir: string, names: seq<string>): (r: seq<string>)
    ensures |r| == |names|
    ensures forall i :: 0 <= i < |names| ==> r[i] == dir + "/" + names[i]
  {
    seq(|names|, i requires 0 <= i < |names| => dir + "/" + names[i])
  }

  /** The exported sheets' names, one per failing comparison. */
  function ExportNames(fails: OMap<string, Json>, now: string): seq<string>
  {
    seq(|fails|, i requires 0 <= i < |fails| => ExportName(fails[i].1, now))
  }

  /** The `$attachments` loop of `processValidationFailures`: one exported sheet per failing comparison, in order. */
  method ExportSheets(fails: OMap<string, Json>, now: string) returns (names: seq<string>)
    ensures |names| == |fails|
    ensures forall i :: 0 <= i < |fails| ==> names[i] == ExportName(fails[i].1, now)
    ensures names == ExportNames(fails, now)
  {
    names := [];
    var i := 0;
    while i < |fails|
      invariant 0 <= i <= |fails|
      invariant |names| == i
      invariant forall k :: 0 <= k < i ==> names[k] == ExportName(fails[k].1, now)
    {
      names := names + [ExportName(fails[i].1, now)];
      i := i + 1;
    }
    assert names == ExportNames(fails, now);
  }

  // ---------------------------------------------------------------------
  // The processor
  // ---------------------------------------------------------------------

  class ValidationFailureProcessor {
    /** Users to text at the next send. */
    var smsRecipients: seq<nat>

    constructor()
      ensures smsRecipients == []
    {
      smsRecipients := [];
    }

    /** `getSubscribers`: the subscribers keyed by e-mail; the SMS-opted users join the pending recipients. */
    method GetSubscribers(notifications: map<string, Notification>, name: string)
      returns (subscriptions: OMap<string, Subscription>)
      modifies this
      ensures subscriptions == SubscriptionsOf(SubscribersOf(notifications, name))
      ensures smsRecipients == SmsQueue(old(smsRecipients), SubscribersOf(notifications, name))
    {
      subscriptions := [];
      if name !in notifications {
        return;
      }
      var us := notifications[name].subscribers;
      var i := 0;
      while i < |us|
        invariant 0 <= i <= |us|
        invariant subscriptions == SubscriptionsOf(us[..i])
        invariant smsRecipients == SmsQueue(old(smsRecipients), us[..i])
      {
        var u := us[i];
        SubscriberStep(us, i, old(smsRecipients));
        subscriptions := Put(subscriptions, u.email, Subscription(u.email, u.username));
        if u.sendViaSms {
          smsRecipients := smsRecipients + [u.user];
        }
        i := i + 1;
      }
      assert us[..i] == us;
    }

    /** `sendBulkSMS`: text everyone pending, then forget them. */
    method SendBulkSMS(text: Option<string>) returns (sms: Event)
      modifies this
      ensures sms == SmsSent(old(smsRecipients), text)
      ensures smsRecipients == []
    {
      sms := SmsSent(smsRecipients, text);
      smsRecipients := [];
    }

    /**
     * `processValidationFailures`: one exported sheet per failing
     * comparison, in order, mailed from the validations directory with the
     * uploaded file last; the same list, with the uploaded file, is returned.
     */
    method ProcessValidationFailures(
      notifications: map<string, Notification>, name: string, filename: string, movedFile: string,
      fails: OMap<string, Json>, now: string, validationsDir: string, absoluteUrl: string -> string)
      returns (attachments: seq<string>, events: seq<Event>)
      modifies this
      ensures |attachments| == |fails| + 1 && attachments[|fails|] == movedFile
      ensures forall i :: 0 <= i < |fails| ==> attachments[i] == ExportName(fails[i].1, now)
      ensures attachments[..|fails|] == ExportNames(fails, now)
      ensures |events| == 2 && events[0].MailSent? && events[1].SmsSent?
      ensures events == NoticeEvents(
                SubjectOf(notifications, name),
                ValidationFailureBody(BodyOf(notifications, name), filename, UrlFromNotificationName(name), absoluteUrl),
                SubscribersOf(notifications, name),
                ExportPaths(validationsDir, attachments[..|fails|]) + [movedFile],
                old(smsRecipients))
      ensures smsRecipients == []
    {
      attachments := ExportSheets(fails, now);
      var subscriptions := GetSubscribers(notifications, name);
      var subject := SubjectOf(notifications, name);
      var reprocess := UrlFromNotificationName(name);
      var messageBody := ValidationFailureBody(BodyOf(notifications, name), filename, reprocess, absoluteUrl);
      var files := ExportPaths(validationsDir, attachments) + [movedFile];
      var sms := SendBulkSMS(subject);
      events := [MailSent(subject, messageBody, Values(subscriptions), files), sms];
      ghost var exported := attachments;
      attachments := attachments + [movedFile];
      assert attachments[..|fails|] == exported;
    }

    /** `processValidationSuccess`: the notification's own body, no attachment. */
    method ProcessValidationSuccess(notifications: map<string, Notification>, name: string)
      returns (events: seq<Event>)
      modifies this
      ensures events == NoticeEvents(SubjectOf(notifications, name), BodyOf(notifications, name),
                                     SubscribersOf(notifications, name), [], old(smsRecipients))
      ensures smsRecipients == []
    {
      var subscriptions := GetSubscribers(notifications, name);
      var subject := SubjectOf(notifications, name);
      var sms := SendBulkSMS(subject);
      events := [MailSent(subject, BodyOf(notifications, name), Values(subscriptions), []), sms];
    }

    /** `processStagingFailure`: the issues and the error list are in the body; only the upload is attached. */
    method ProcessStagingFailure(
      notifications: map<string, Notification>, name: string, filename: string, movedFile: string,
      responseMsg: string, responseErrors: seq<Json>, encode: Json -> string)
      returns (attachments: seq<string>, events: seq<Event>)
      modifies this
      ensures attachments == [movedFile]
      ensures events == NoticeEvents(
                SubjectOf(notifications, name),
                StagingFailureBody(BodyOf(notifications, name), filename, responseMsg, MapSeq(responseErrors, encode)),
                SubscribersOf(notifications, name), [movedFile], old(smsRecipients))
      ensures smsRecipients == []
    {
      attachments := [movedFile];
      var subscriptions := GetSubscribers(notifications, name);
      var subject := SubjectOf(notifications, name);
      var messageBody := BuildStagingBody(BodyOf(notifications, name), filename, responseMsg, responseErrors, encode);
      var sms := SendBulkSMS(subject);
      events := [MailSent(subject, messageBody, Values(subscriptions), [movedFile]), sms];
    }

    /** `processLoadFailure`: the body names the attached upload and nothing of the load's response. */
    method ProcessLoadFailure(
      notifications: map<string, Notification>, name: string, filename: string, movedFile: string,
      responseMsg: string, responseErrors: seq<Json>)
      returns (attachments: seq<string>, events: seq<Event>)
      modifies this
      ensures attachments == [movedFile]
      ensures events == NoticeEvents(SubjectOf(notifications, name), AttachedNote(BodyOf(notifications, name), filename),
                                     SubscribersOf(notifications, name), [movedFile], old(smsRecipients))
      ensures smsRecipients == []
    {
      attachments := [movedFile];
      var subscriptions := GetSubscribers(notifications, name);
      var subject := SubjectOf(notifications, name);
      var messageBody := AttachedNote(BodyOf(notifications, name), filename);
      var sms := SendBulkSMS(subject);
      events := [MailSent(subject, messageBody, Values(subscriptions), [movedFile]), sms];
    }

    /** `processMissingFile`: names the dataset the upload was for. */
    method ProcessMissingFile(notifications: map<string, Notification>, name: string, dataSet: string)
      returns (events: seq<Event>)
      modifies this
      ensures events == NoticeEvents(SubjectOf(notifications, name), MissingFileBody(BodyOf(notifications, name), dataSet),
                                     SubscribersOf(notifications, name), [], old(smsRecipients))
      ensures smsRecipients == []
    {
      var subscriptions := GetSubscribers(notifications, name);
      var subject := SubjectOf(notifications, name);
      var sms := SendBulkSMS(subject);
      events := [MailSent(subject, MissingFileBody(BodyOf(notifications, name), dataSet), Values(subscriptions), []), sms];
    }
  }
}
