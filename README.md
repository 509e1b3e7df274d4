# Spreadsheet import pipeline: a Dafny model

This project models the core of the Laravel package's spreadsheet-import pipeline:

1. An uploaded sheet is staged into a scratch table. The header is reconciled with the table's columns, and the rows are inserted one by one; a row the database rejects is tallied, not fatal.
2. The staged rows are checked by named comparison rules.
3. A per-dataset load callback commits the rows.

Around that core it models:

- the controller entry point, which runs a browser upload at once (or redirects while a conflicting import runs) and queues an upload from the transfer service;
- the queued job, which re-queues itself while conflicting imports run and alerts subscribers after its third attempt;
- the response envelopes shared by the controllers;
- the notification texts, with their attachment lists and the pending-SMS list.

External state is modelled as values:

- The staging table is a `seq<Record>`. It goes into an operation, and a new one comes out.
- Every side effect is an `Event` in a returned trace. This covers job-log initiate, detail, stop and kill; truncation; mail; SMS; invoking the load callback; re-queueing; and dispatch.
- PHP arrays are ordered association lists (`Php.OMap`). An assignment to an existing key replaces the value in place; a new key is appended.

Whatever the code learns from outside is a parameter:

- the parsed sheet;
- the insert outcome of each row;
- the registry of comparison rules;
- the load callback;
- the notification table;
- the date parser and the float coercion;
- the JSON encoder;
- `now`, `url()` and the rendering of `waitTime / 60`;
- the job log's running-job query.

The two objects whose fields the code updates are classes: `ValidationFailureProcessor` and `ProcessFileImport`. Their `smsRecipients` list grows in `getSubscribers` and is emptied by `sendBulkSMS`.

Modules, leaves first:

- `Php`: strings, ordered arrays, `strpos`, `rtrim`, `trim` and `implode`.
- `Records`: staged rows and JSON values.
- `Notifications`: subscribers keyed by e-mail.
- `Effects`: the event trace.
- `BaseComparisons`.
- `FileImportService`.
- `ValidationNotices`.
- `FileImportLogic`.
- `Controller`.
- `ProcessFileImport`.
- `BaseFileImportController`.

Behaviour of the code worth knowing, which the model keeps:

- **Escalation.** The escalation notice is sent on every attempt after the third, not once after the fourth. It is sent whether or not a conflict is running, and the job is still released while conflicts run; nothing bounds the number of attempts (`src/FileImport/ProcessFileImport.php:95-144`).
- **Numeric check.** The numeric check reports nothing at all (see Findings).
- **Required-fields message.** The message keeps a trailing comma (see Findings).
- **Date and float coercion.** Rewriting values during the date and float scans touches only the fetched copies. The model's checks return records re-read by id from the unchanged table.

## Model

| member | source | states |
|---|---|---|
| BaseComparisons.Project | src/FileImport/BaseComparisons.php:332-342 | the records keep their order and ids; all columns returns them unchanged; a column list gives each record exactly the listed columns in order, a selected `id` holding the record's id |
| BaseComparisons.QueryForIdArray | src/FileImport/BaseComparisons.php:332-342 | with all columns, a record is returned iff it is in the table and its id is among the requested ids; never more records than the table has |
| BaseComparisons.FlaggedExactly | src/FileImport/BaseComparisons.php:332-342 | on a table with unique ids, re-querying the failing ids returns exactly the failing records, in table order |
| BaseComparisons.CollectFailingIds | src/FileImport/BaseComparisons.php:59-65 | the loop collects the ids of the failing records in table order |
| BaseComparisons.RunCheck | src/FileImport/BaseComparisons.php:53-74 | a check returns a record iff it is staged and fails the test (unique ids, all columns) |
| BaseComparisons.MissingFieldSql | src/FileImport/BaseComparisons.php:27-37 | returns exactly the staged records whose required field is null |
| BaseComparisons.ExistingModelSql | src/FileImport/BaseComparisons.php:53-74 | returns exactly the records whose key value does not resolve, nulls included |
| BaseComparisons.NullableExistingModelSql | src/FileImport/BaseComparisons.php:91-114 | returns exactly the records with a non-null key value that does not resolve |
| BaseComparisons.ReferenceChecksDifferOnNulls | src/FileImport/BaseComparisons.php:53-114 | the nullable check's result is the strict check's result without the null-valued records |
| BaseComparisons.ReferenceChecksPassWhenAllResolve | src/FileImport/BaseComparisons.php:53-114 | when every value resolves, both reference checks return nothing |
| BaseComparisons.ValidDate | src/FileImport/BaseComparisons.php:275-287 | null is rejected; any other value is the parser's verdict |
| BaseComparisons.ValidDateSql | src/FileImport/BaseComparisons.php:129-149 | returns exactly the records whose date is null or does not parse |
| BaseComparisons.ValidNullableDateSql | src/FileImport/BaseComparisons.php:164-186 | returns exactly the records with a non-null date that does not parse |
| BaseComparisons.DateChecksDifferOnNulls | src/FileImport/BaseComparisons.php:129-186 | the strict check flags every null date; the nullable check flags none and is the strict result without them |
| BaseComparisons.SetFloatVal | src/FileImport/BaseComparisons.php:296-308 | no float exactly for null |
| BaseComparisons.ValidFloatSqlAsWritten | src/FileImport/BaseComparisons.php:197-217 | as written the check always returns an empty list |
| BaseComparisons.ValidFloatSql | src/FileImport/BaseComparisons.php:197-217 | intended: returns exactly the records whose value is null or coerces to zero |
| BaseComparisons.FloatCheckMissesNull | src/FileImport/BaseComparisons.php:197-217 | a one-row table with a null amount is reported by the intended check (and not by the code as written) |
| BaseComparisons.NullKeys | src/FileImport/BaseComparisons.php:227-239 | no key is listed exactly when no value is null |
| BaseComparisons.BuildRawMessage | src/FileImport/BaseComparisons.php:227-236 | the loop builds one segment per null field, in key order |
| BaseComparisons.RawMessageJoined | src/FileImport/BaseComparisons.php:227-236 | the raw message is the segments joined by single spaces plus a final space, or empty |
| BaseComparisons.TrimRightAfterSegment | src/FileImport/BaseComparisons.php:238 | `rtrim(',')` on the untrimmed text strips nothing, because a space comes last |
| BaseComparisons.TrimLeftKeepsSuffix | src/FileImport/BaseComparisons.php:238 | trimming the left keeps a suffix that does not start with white space |
| BaseComparisons.JoinedSegmentsEnd | src/FileImport/BaseComparisons.php:227-239 | the joined segments end in "was not provided," |
| BaseComparisons.MissingFieldsMsgAsWritten | src/FileImport/BaseComparisons.php:227-239 | false iff no value is null; otherwise the message ends in a comma |
| BaseComparisons.StripFinalComma | src/FileImport/BaseComparisons.php:238 | stripping commas from text ending "was not provided," removes exactly that one comma |
| BaseComparisons.MissingFieldsMsg | src/FileImport/BaseComparisons.php:227-239 | intended: false iff no value is null; otherwise the message ends "was not provided" |
| BaseComparisons.FirstWhere | src/FileImport/BaseComparisons.php:256 | the lookup finds a model holding the value, and finds none iff no model holds it |
| BaseComparisons.ExistingModelsMsg | src/FileImport/BaseComparisons.php:251-262 | the model when one holds the value; otherwise a message naming the model, the key and the value |
| BaseComparisons.BuildWpi | src/FileImport/BaseComparisons.php:319-323 | false iff either argument is null; otherwise the code followed by the last two characters of the year (all of a shorter year) |
| BaseComparisons.SummaryOpening | src/FileImport/BaseComparisons.php:373-386 | the opening sentence of the summary, by kind, counts and plural |
| BaseComparisons.AppendExistingClauses | src/FileImport/BaseComparisons.php:388-421 | a clause follows the opening for each of updated and deleted that is not null, even an empty one |
| BaseComparisons.BuildSummary | src/FileImport/BaseComparisons.php:370-421 | the message ends with a period; the existing-record clauses appear only when updated or deleted is non-empty |
| BaseComparisons.SuccessArray | src/FileImport/BaseComparisons.php:385-416 | the created rows sit under their key; the updated and deleted arrays given appear, with their counts, unless both are null or empty |
| BaseComparisons.GetReturnArray | src/FileImport/BaseComparisons.php:362-450 | `empty` iff every array is null or empty; `success` iff new, updated or deleted is non-empty; `errors.count` is the error count; the created rows sit under their key, and the updated and deleted arrays given appear with their counts unless both are null or empty |
| Notifications.SubscriptionsOf | src/FileImport/ValidationFailureProcessor.php:326-347 | no more subscriptions than subscribers |
| Notifications.LastSubscription | src/FileImport/ValidationFailureProcessor.php:337-344 | the last subscriber with an e-mail, and none iff no subscriber has it |
| Notifications.SubscriptionsByLastEmail | src/FileImport/ValidationFailureProcessor.php:337-344 | the subscription under an e-mail is that of the last subscriber with it |
| Notifications.SubscriptionsDistinct | src/FileImport/ValidationFailureProcessor.php:337-344 | each e-mail is a key at most once |
| Notifications.SmsQueue | src/FileImport/ValidationFailureProcessor.php:337-344 | the queue keeps the pending users and gains at most one user per subscriber |
| Notifications.SmsQueueKeepsPending | src/FileImport/ValidationFailureProcessor.php:341-343 | the users already pending stay at the front, in order |
| Notifications.SmsQueueOptedIn | src/FileImport/ValidationFailureProcessor.php:341-343 | a user is queued iff already pending or some subscriber with that user opted into SMS |
| Php.PutAllGet | src/Controllers/Controller.php:77-81 | additional pairs overwrite the keys they name and leave the others alone |
| Php.PutAllKeepsOrder | src/Controllers/Controller.php:124-128 | additional pairs never move or remove an existing key |
| Php.PutAllFreshKeys | src/Controllers/Controller.php:124-128 | fresh additional keys are appended in order |
| FileImportService.ImportDataComparisons | src/Services/FileImportService.php:15-29 | 400 with the fixed message iff the input lacks `comparison` or `dataSet`; otherwise the comparison's reply |
| FileImportService.MasterDataComparisons | src/Services/FileImportService.php:31-89 | unknown data set or comparison: 400, row count 1, the matching message and null data; otherwise 200, the rule's rows, their count and the first row's keys (null when none) |
| FileImportService.UnknownRuleFailsWithNullData | src/Services/FileImportService.php:31-65 | an unknown data set or comparison counts as a failing rule, and its reply carries `data` as null |
| FileImportService.ColumnsBesidesId | src/Services/FileImportService.php:225-230 | the table's columns in order, without `id` |
| FileImportService.FindMissingFields | src/Services/FileImportService.php:213-240 | in header order, exactly the keys that are the integer 0 or not a column other than `id` |
| FileImportService.IdHeaderAlwaysDropped | src/Services/FileImportService.php:213-240 | a header named `id` is always dropped |
| FileImportService.UnsetFields | src/Services/FileImportService.php:170-175 | the dropped keys are gone from the row; every other key keeps its value |
| FileImportService.StageCounts | src/Services/FileImportService.php:161-198 | inserted + skipped + errored = rows; error rows = errors; only the vessel-lot table skips; inserted rows are numbered 1, 2, … in insertion order and lack the dropped keys |
| FileImportService.ErrorRowsCarryMessage | src/Services/FileImportService.php:180-191 | every reported row carries an `errorMessage` |
| FileImportService.StopsOnlyOnSuccess | src/Services/FileImportService.php:200-205 | the job is stopped iff no row was reported and automatic processing is off |
| FileImportService.AutoStagingLeavesJobOpen | src/Services/FileImportService.php:113-211 | with automatic processing on, staging writes only job-log details and the truncation, so it never stops or kills the job |
| FileImportService.StagingNeverLoads | src/Services/FileImportService.php:113-211 | staging writes to the job log but never invokes the load callback |
| FileImportService.ProcessFile | src/Services/FileImportService.php:113-211 | 500 iff the sheet is unreadable, leaving the table and job log alone; otherwise the table is replaced by the accepted rows, the counts add up, and the status is 200 iff no row was reported; the load is never invoked; the events are the staging trace |
| FileImportService.InsertRows | src/Services/FileImportService.php:161-192 | the insert loop computes the staging tallies |
| ValidationNotices.ReprocessPagesDistinct | src/FileImport/ValidationFailureProcessor.php:357-408 | the sixteen upload pages are pairwise different and none is empty |
| ValidationNotices.UrlFromNotificationName | src/FileImport/ValidationFailureProcessor.php:354-411 | `file-transfer/` plus a non-empty page for the listed names; false for any other |
| ValidationNotices.UrlIdentifiesNotification | src/FileImport/ValidationFailureProcessor.php:354-411 | the reprocess URL determines the notification it came from |
| ValidationNotices.ExportSheets | src/FileImport/ValidationFailureProcessor.php:29-32 | one exported sheet per failing comparison, in the order of the failures |
| ValidationNotices.ExportPaths | src/FileImport/ValidationFailureProcessor.php:74-76 | each sheet is attached from the validations directory, then "/", then its name, one path per sheet in order |
| ValidationNotices.ValidationFailureBody | src/FileImport/ValidationFailureProcessor.php:50-62 | the reprocess sentence is appended iff the name has a URL, and then ends with the absolute URL |
| ValidationNotices.AttachedNote | src/FileImport/ValidationFailureProcessor.php:221-225 | the body starts with the notification's own text |
| ValidationNotices.ErrorItemsEmpty | src/FileImport/ValidationFailureProcessor.php:164-166 | the list items are empty iff there is no error |
| ValidationNotices.StagingFailureBody | src/FileImport/ValidationFailureProcessor.php:153-168 | the body is the note, the issues heading and the response message, ending with the error list |
| ValidationNotices.StagingBodyWithoutErrors | src/FileImport/ValidationFailureProcessor.php:162-168 | with no error the heading and an empty list still appear |
| ValidationNotices.BuildStagingBody | src/FileImport/ValidationFailureProcessor.php:153-168 | the loops build the staging body over the encoded errors |
| ValidationNotices.MissingFileBody | src/FileImport/ValidationFailureProcessor.php:301-305 | the notification's text, then the sentence naming the data set |
| ValidationNotices.ValidationFailureProcessor.constructor | src/FileImport/ValidationFailureProcessor.php:12-17 | no SMS recipients are pending |
| ValidationNotices.ValidationFailureProcessor.GetSubscribers | src/FileImport/ValidationFailureProcessor.php:326-347 | subscribers keyed by e-mail, nothing for an absent notification; SMS-opted users join the pending list |
| ValidationNotices.ValidationFailureProcessor.SendBulkSMS | src/FileImport/ValidationFailureProcessor.php:413-418 | texts everyone pending and empties the list |
| ValidationNotices.ValidationFailureProcessor.ProcessValidationFailures | src/FileImport/ValidationFailureProcessor.php:26-86 | one export per failing comparison in order, then the moved file; mail and SMS with the failure body |
| ValidationNotices.ValidationFailureProcessor.ProcessValidationSuccess | src/FileImport/ValidationFailureProcessor.php:94-117 | mail and SMS with the notification's own text |
| ValidationNotices.ValidationFailureProcessor.ProcessStagingFailure | src/FileImport/ValidationFailureProcessor.php:128-185 | attachments are exactly the moved file; the staging body |
| ValidationNotices.ValidationFailureProcessor.ProcessLoadFailure | src/FileImport/ValidationFailureProcessor.php:196-254 | attachments are exactly the moved file; the body ignores the response message and errors |
| ValidationNotices.ValidationFailureProcessor.ProcessMissingFile | src/FileImport/ValidationFailureProcessor.php:288-319 | mail and SMS with the missing-file body |
| FileImportLogic.FailsExactly | src/FileImport/FileImportLogic.php:93-100 | a comparison is among the failures iff it is configured and its reply has rows, and then its value is that reply |
| FileImportLogic.RunComparisons | src/FileImport/FileImportLogic.php:88-100 | every configured comparison runs, in order, and the failures are collected |
| FileImportLogic.FailureMessage | src/FileImport/FileImportLogic.php:154-158 | "File Transfer failed", with the no-data suffix iff the status is empty |
| FileImportLogic.StatusResponse | src/FileImport/FileImportLogic.php:133-182 | a view iff from the browser; otherwise the status's body, with 200 iff it succeeded and 400 if not |
| FileImportLogic.JobEndsAppend | src/FileImport/FileImportLogic.php:133-182 | stops and kills add up over a concatenated trace |
| FileImportLogic.StatusEndsJobOnce | src/FileImport/FileImportLogic.php:134-181 | each load status stops or kills the job exactly once |
| FileImportLogic.EveryStatusEndsJob | src/FileImport/FileImportLogic.php:133-184 | a queued run ends the job once per load status |
| FileImportLogic.ProcessStatus | src/FileImport/FileImportLogic.php:134-181 | one load status: the success notice and a stop, or the no-data or unprocessed notice and a kill; the reply a direct request would get |
| FileImportLogic.ProcessStatuses | src/FileImport/FileImportLogic.php:133-182 | queued: every status is processed, its events in order, and nothing returned; otherwise only the first status is processed and decides the response |
| FileImportLogic.FailStaging | src/FileImport/FileImportLogic.php:63-86 | a failed staging kills the job with the staging message and content, then sends the staging-failure notice with the moved file; nothing loads |
| FileImportLogic.StagingFailureShape | src/FileImport/FileImportLogic.php:63-73 | the staging-failure exit kills the job first and exactly once, never stops it and never loads |
| FileImportLogic.ValidationResponse | src/FileImport/FileImportLogic.php:103-126 | the comparison-fail view for a browser run, otherwise 400 with "has failed validation" and the failures |
| FileImportLogic.FailValidation | src/FileImport/FileImportLogic.php:103-126 | notice mail and SMS, then the job is killed; the load is not invoked |
| FileImportLogic.RuleFailureShape | src/FileImport/FileImportLogic.php:103-109 | the validation exit is the notice mail and SMS, then one kill with the failures; nothing loads |
| FileImportLogic.LoadStageShape | src/FileImport/FileImportLogic.php:128-182 | the load callback runs right after the load job-log entry; a queued load ends the job once per status |
| FileImportLogic.RuleAndLoadTrace | src/FileImport/FileImportLogic.php:88-182 | the comparisons entry comes first; failing rules are followed by the notice and the kill with nothing loaded; otherwise the load callback runs third |
| FileImportLogic.QueuedRulesAndLoadEndJob | src/FileImport/FileImportLogic.php:88-182 | after staging, a queued run ends the job once when rules fail and otherwise once per load status |
| FileImportLogic.ValidateAndLoad | src/FileImport/FileImportLogic.php:88-182 | the events are exactly the comparisons entry, then the validation exit or the load and what its statuses lead to (all of them when queued); failing rules kill the job and keep the load from running |
| FileImportLogic.JobEndsNone | src/FileImport/FileImportLogic.php:57-184 | a trace with no stop and no kill does not end the job |
| FileImportLogic.StartIsQuiet | src/FileImport/FileImportLogic.php:57-60 | the job is initiated first, and staging with automatic processing neither stops nor kills the job nor loads |
| FileImportLogic.StartImport | src/FileImport/FileImportLogic.php:55-60 | the job is initiated first, with the upload description; staging then runs with automatic processing on, so it never stops or kills the job and never loads |
| FileImportLogic.RunTrace | src/FileImport/FileImportLogic.php:40-184 | the job is initiated first; a failed staging kills it; a fatal staging loads nothing; failing rules kill the job and load nothing; otherwise the load runs |
| FileImportLogic.FatalStagingEndsRun | src/FileImport/FileImportLogic.php:63-86 | a browser run whose staging fails is exactly the start, the kill and the notice: the job ends once, with no rule, stop or load |
| FileImportLogic.QueuedRunEndsJob | src/FileImport/FileImportLogic.php:40-184 | a queued run ends the job once for a failed staging, then once for failing rules or once per load status |
| FileImportLogic.RunFileImport | src/FileImport/FileImportLogic.php:40-184 | the events are exactly the run's trace: start, the staging exit, then the rules and the load unless a browser staging failed; the job is initiated first; a failed browser staging returns its status with no rule or load; a queued failed staging still runs the rules; failing rules never load |
| Controller.SetStatus | src/Controllers/Controller.php:46-52 | the backup when the carried status is 0, below 100 or above 530; otherwise that status |
| Controller.SqlAtStartIsMissed | src/Controllers/Controller.php:71 | text starting with "SQL:" is not treated as a database error |
| Controller.ReplyMessage | src/Controllers/Controller.php:69-73 | the message gains the database-error suffix iff "SQL:" occurs after the start |
| Controller.AddPairs | src/Controllers/Controller.php:77-81 | additional pairs overwrite in place and keep the existing order |
| Controller.GetErrorResponseForException | src/Controllers/Controller.php:65-84 | status is `setStatus`; `message` then `errorMessage` (text, file and line); the additional pairs win |
| Controller.ReplyCount | src/Controllers/Controller.php:109-113 | the given count, or the data's size when countable |
| Controller.ReplyHeadShape | src/Controllers/Controller.php:109-122 | `message`, then `count` when there is one, then the data under its name |
| Controller.StandardHead | src/Controllers/Controller.php:109-122 | the first steps build that head |
| Controller.GetStandardApiResponse | src/Controllers/Controller.php:100-131 | key order message/count/data/additional; additional pairs overwrite; status passed through, 200 by default |
| ProcessFileImport.JobIdsBuiltJoined | src/FileImport/ProcessFileImport.php:97-100 | the ids each followed by a comma are the comma-joined ids plus one comma |
| ProcessFileImport.TrimOneComma | src/FileImport/ProcessFileImport.php:101 | `rtrim` removes exactly the comma after the last digit |
| ProcessFileImport.JobIdList | src/FileImport/ProcessFileImport.php:97-102 | "(" + ids joined by "," + ")" |
| ProcessFileImport.EscalationBody | src/FileImport/ProcessFileImport.php:115-119 | the fixed opening, the file name, then the details, concatenated directly |
| ProcessFileImport.ProcessFileImport.constructor | src/FileImport/ProcessFileImport.php:52-80 | stores the conflict labels, wait time and job; nothing pending |
| ProcessFileImport.ProcessFileImport.GetSubscribers | src/FileImport/ProcessFileImport.php:173-194 | subscribers by e-mail; SMS-opted users join the pending list |
| ProcessFileImport.ProcessFileImport.SendBulkSMS | src/FileImport/ProcessFileImport.php:195-200 | texts everyone pending and empties the list |
| ProcessFileImport.ProcessFileImport.Escalate | src/FileImport/ProcessFileImport.php:95-140 | mail and SMS with the escalation subject and body, the details naming the running ids or the unrelated-failure text |
| ProcessFileImport.MessageDetails | src/FileImport/ProcessFileImport.php:96-111 | the escalation details: the conflicting ids when jobs run, the unrelated-failure text otherwise |
| ProcessFileImport.RunQueued | src/FileImport/ProcessFileImport.php:146-168 | exactly the queued, non-browser run of the import on `storage/uploads/` + file name: the job is initiated first, and the staging table ends as staging leaves it |
| ProcessFileImport.ProcessFileImport.Proceed | src/FileImport/ProcessFileImport.php:142-169 | with conflicts a release by `waitTime` and nothing else; otherwise exactly the queued, non-browser run on `storage/uploads/` + file name |
| ProcessFileImport.ProcessFileImport.Handle | src/FileImport/ProcessFileImport.php:87-171 | the alert on every attempt after the third, conflict or not; with conflicts a release by `waitTime` and no run; otherwise the alert followed by exactly the queued, non-browser run on `storage/uploads/` + file name |
| BaseFileImportController.Prefix | src/Controllers/BaseFileImportController.php:169 | `substr` from 0 gives a prefix of the requested length, or the whole text |
| BaseFileImportController.IsFromVino | src/Controllers/BaseFileImportController.php:160-172 | true iff the referrer's part after the first "://" starts with the host; a missing referrer is the placeholder |
| BaseFileImportController.OwnPageIsFromVino | src/Controllers/BaseFileImportController.php:160-172 | any page of the host is recognised |
| BaseFileImportController.ExtendedHostIsFromVino | src/Controllers/BaseFileImportController.php:169-171 | a referrer host that merely starts with the host is recognised too |
| BaseFileImportController.NoReferrerIsFromService | src/Controllers/BaseFileImportController.php:163-171 | no referrer means the transfer service, for any host that is not a prefix of the placeholder |
| BaseFileImportController.GetQueue | src/Controllers/BaseFileImportController.php:181-209 | the four vessel sets go to `vessel_import`, the seven harvest sets to `harvest_import`, the two lab sets to `lab_import`, everything else to `file_import` |
| BaseFileImportController.JobTypeInjective | src/Controllers/BaseFileImportController.php:68-77 | distinct tables have distinct job types |
| BaseFileImportController.NoAsyncArgs | src/Controllers/BaseFileImportController.php:70-77 | each conflicting table prefixed "Upload - ", same length and order; a table's type is included iff the table is listed |
| BaseFileImportController.JobIdParamsAppend | src/Controllers/BaseFileImportController.php:92-94 | the id parameters of two lists concatenate |
| BaseFileImportController.RunningJobIds | src/Controllers/BaseFileImportController.php:90-94 | one `&job_ids[]=` parameter per running job, in order |
| BaseFileImportController.RedirectShape | src/Controllers/BaseFileImportController.php:89-96 | the redirect starts with the reprocess page iff the notification has one, else with the query; it ends with the id parameters |
| BaseFileImportController.RedirectToShape | src/Controllers/BaseFileImportController.php:89-96 | the redirect starts with its page, then the wait time when there is no page, and ends with the job-id parameters |
| BaseFileImportController.StandardReply | src/Controllers/BaseFileImportController.php:56 | a standard reply carries the data under its name and the message |
| BaseFileImportController.ReplyFor | src/Controllers/BaseFileImportController.php:115-120 | a view renders the view; otherwise message, content and status pass through |
| BaseFileImportController.Respond | src/Controllers/BaseFileImportController.php:115-120 | the reply built from the import's result |
| BaseFileImportController.BrowserSeesPages | src/Controllers/BaseFileImportController.php:98-120 | from the browser only a staging failure answers with data |
| BaseFileImportController.MissingFile | src/Controllers/BaseFileImportController.php:51-57 | the missing-file notice for the data set, and a 400 echoing the input under `input` |
| BaseFileImportController.ImportFromBrowser | src/Controllers/BaseFileImportController.php:82-121 | conflicts: a redirect, no job and the table untouched; the redirect is built from the running-job parameters; otherwise the browser run's exact events and the import's reply |
| BaseFileImportController.Enqueue | src/Controllers/BaseFileImportController.php:123-151 | one dispatch on the data set's queue with the job's arguments, and a 200 naming the file under `queued_file` |
| BaseFileImportController.ProcessImport | src/Controllers/BaseFileImportController.php:38-152 | no file: the missing-file notice and 400, no job; browser with conflicts: redirect, no run; browser otherwise: the browser run's exact events and the import's reply; service: dispatch on `getQueue` and 200 with the file under `queued_file` |

## Left out

- Mail, SMS and Excel export are events or names in the trace, not deliveries. The exported sheet's content and `processSingleFail`'s file I/O are not modelled; only the export's file name is.
- Spreadsheet parsing, the header carriage-return fix and `moveFile` are not modelled. The parse result is a parameter: rows, or an unreadable sheet with its reason.
- `ini_set`, `error_reporting` and `Log::info` are not modelled.
- Date parsing and float coercion are parameters, and the float is a `real`. So is the rendering of `waitTime / 60`, which may be a PHP float.
- `str_plural`, `url()` and `now` are parameters.
- Dynamic dispatch (`class_exists`, `method_exists`, `App::call`) becomes a finite registry of comparison functions and a load-status callback.
- `JobLog::isRunning` is a parameter; the job-log writes are events.
- Queue attempt counting, `release`, dispatch and the race between workers belong to the framework. `attempts` and the running-job list are parameters.
- PHP's loose comparisons are not modelled beyond the explicit `=== 0` guard. Header keys are strings or integers, and an integer key is matched by its decimal rendering.
- BaseFileImportController.Respond: when a browser import returns nothing (a load callback with no status), the code then reads keys of null. The model answers `NoReply` instead of modelling PHP's null reads.
- ProcessFileImport.ProcessFileImport.Handle: the `try`/`catch` around the run is not modelled, because no operation of the model throws. An exception raised by a database or callback oracle is outside the model.
- FileImportService.StageCounts: staged rows are numbered 1, 2, … in insertion order. A database may use up an auto-increment value on a rejected insert, which leaves a gap; the model does not capture such gaps.
- FileImportService.ProcessFile: a per-row insert failure is the inserter's verdict. The exception text is a parameter of that verdict, not the database's message.
- The Eloquent model, the migration and the service provider are declarations with no logic. `wantsMobile` reads a request header and is not modelled.

## Findings

| source | as written | input that shows it | evidently intended | confidence | as-written member | corrected member |
|---|---|---|---|---|---|---|
| src/FileImport/BaseComparisons.php:206 | a failing id is appended to `$dbRows` instead of `$dbRowIDs`, so the check always returns `[]` | a staged table with one row whose amount is null | the ids of rows whose value is null or not a float are collected and re-queried, as in the sibling checks | high (not executed) | BaseComparisons.ValidFloatSqlAsWritten | BaseComparisons.ValidFloatSql |
| src/FileImport/BaseComparisons.php:238 | `rtrim(',')` runs before `trim`, on text ending in a space, so the final comma stays | `["a" => null]` gives "a is required, but was not provided," | the message ends "was not provided" without the comma | high (not executed) | BaseComparisons.MissingFieldsMsgAsWritten | BaseComparisons.MissingFieldsMsg |
