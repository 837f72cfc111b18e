# The upload page, in Dafny

This project models the logic of a file sharing front end whose server is mostly a proxy and whose state lives in the
upload queue it serves to the browser. It has three parts.

**The upload queue** (`dropzone.js`). Files move from added to queued to uploading to success, error or canceled; a limit
on parallel uploads, zero-delay timers, and requests that may carry a whole group of files drive them.
- `Uploads.dfy` describes the queue as a value: the listed files, what is attached to each file, every request ever opened
  with the files it closed over, the pending `processQueue` timers and the `queuecomplete` timers started so far. Every
  event is a function on that value. A file is only ever compared, so its type is a parameter.
- `UploadInvariants.dfy`, `UploadSteps.dfy`, `UploadTheorems.dfy`, `UploadDraining.dfy`, `QueueComplete.dfy`,
  `QueueReports.dfy`, `UploadProgress.dfy` and `UploadOrder.dfy` prove what holds in every reachable state and over every run;
  `UploadEffects.dfy`, `CancelEffects.dfy` and `RequestSizes.dfy` say of every event, file by file and request by request,
  what it does and that it does nothing else.
- `Dropzone.dfy` is the script itself: file objects and an instance whose methods update them in place, loop by loop. Each
  method's postcondition ties the new state to the function of `Uploads.dfy` for that event, so the theorems hold of it.

**Algorithms of the same script**: the accepted-type list (`FileTypes.dfy`, `Text.dfy`), the thumbnail workers
(`Thumbnails.dfy`, `SharedThumbnails.dfy`), the squash ratio and the crop rectangle (`Images.dfy`) and the size formatter (`FileSizes.dfy`).

**The route table** (`router.go`, `handlers.go`): an ordered, overlapping list of patterns read as a parser, and the
parameters it leaves for a handler (`Routes.dfy`, `Handlers.dfy`, `RouteTheorems.dfy`). The router it is given by the service
library cleans paths, makes a final slash optional when it matches and redirects to the pattern's spelling, and has a route for
`/metrics/` in front of the table; all of that decides which route wins, so it is part of the model. Segments follow
section 3.3 of RFC 3986.

What the environment is taken to do: a file object is added once; only pending timers fire; a request reports load or error
at most once, though possibly after it was aborted; options do not change; uploads start only through `processQueue`; the
`accept` option accepts at once, as its default does; no listeners but the script's own are installed.

Findings about the code, each a theorem below:
- A failing group of k files at the end of the queue arms `queuecomplete` 1 + (k - 1) * k times, because `handleError` settles
  the whole group once per file. Statuses and requests are those of a single round.
- `removeAllFiles(true)` drops queued files without reporting them. With `autoProcessQueue` it reports exactly if something was
  uploading; without it even the end of an upload can go unreported, and the exact condition is given.
- A `queuecomplete` timer is only armed on an idle queue, but the queue need not be idle any more when it fires: it has been
  throughout exactly if no file was queued in between, by being added or by hand.
- The thumbnail queue is shared by all instances, while the flag that limits an instance to one thumbnail is its own. So with
  several instances thumbnails can be done out of turn, several at a time, and by an instance the file was not added to, each
  exactly under the condition given; a run of two instances shows each.
- Queueing by hand a file listed before one already sent is the only event by which a file can be overtaken, whatever the options.
- `acceptedFiles` lets every file of unknown type through if, and apart from name endings only if, the list has a blank entry,
  as a stray comma makes it, or an entry for any type of an unnamed family.
- Because a final slash is optional in matching, a file called `index.html` can never be downloaded, and one called `permanent`
  not from the non-permanent storage. The storage name `res` shadows every reading request, `register` and `metrics` only
  viewing, and `login` every path of two names. `.` and `..` never come back: the router cleans them away.
- No redirect is followed by more than one other.

## Model

| member | source | states |
|---|---|---|
| UploadSteps.StepKeeps | internal/template/res/dropzone/dropzone.js:1013-1438 | From any good state, every possible event (add, enqueue, timer, progress, load, error, cancel, remove, remove all, disable) leads to a good state; statuses only climb, ends are final, a file keeps the request it was given, ended requests stay ended |
| UploadTheorems.EveryRunIsGood | internal/template/res/dropzone/dropzone.js:1013-1438 | Every state reachable from the empty queue satisfies the whole invariant: request groups, slot bound, admission, order, no stuck queue |
| UploadTheorems.GroupsAreUniform | internal/template/res/dropzone/dropzone.js:1188-1216 | In every reachable state the files of a live request are all listed, all uploading and all carry it; every uploading file is in exactly one request, a live one |
| UploadSteps.GuardIsSound | internal/template/res/dropzone/dropzone.js:1318-1351 | Looking only at files[0] tells exactly whether the request was aborted, and speaks for every file of the group |
| UploadTheorems.LateEventsAreIgnored | internal/template/res/dropzone/dropzone.js:1318-1351 | A load or error that arrives after the abort changes nothing at all |
| UploadTheorems.OneWayAndSentOnce | internal/template/res/dropzone/dropzone.js:1013-1061 | Between any two points of any run a status never moves back, a final status and a given xhr never change, success needs a request, and no file is in two requests |
| UploadTheorems.SlotBound | internal/template/res/dropzone/dropzone.js:1159-1200 | Live requests <= uploading files <= parallelUploads (zero if that is negative), with or without uploadMultiple |
| UploadTheorems.SlotBoundInsideLoop | internal/template/res/dropzone/dropzone.js:1174-1180 | The bound and the invariant hold after each single request the loop opens, not only at its end |
| UploadTheorems.NeverStuck | internal/template/res/dropzone/dropzone.js:1048-1061 | With autoProcessQueue, at the end of every run, a queued file and a free slot mean a pending timer |
| UploadTheorems.NoOvertaking | internal/template/res/dropzone/dropzone.js:1159-1182 | With autoQueue, over any run, once a file has been sent no file listed before it is still queued |
| UploadOrder.StepOrder | internal/template/res/dropzone/dropzone.js:1013-1438 | Whatever the options: from a good state in which nothing is overtaken, a possible event leads to an overtaken file if and only if it queues by hand an accepted waiting file with one already sent listed behind it |
| UploadOrder.FifoExactly | internal/template/res/dropzone/dropzone.js:1013-1438 | A run from the empty queue has nothing overtaken at any of its points if and only if none of its events does that |
| UploadOrder.ManualQueueCanOvertake | internal/template/res/dropzone/dropzone.js:1048-1061 | From any good state with a free slot, an empty queue and two waiting files, queueing the later, processing and queueing the earlier is a possible run that overtakes, with or without autoProcessQueue |
| UploadOrder.ManualRunOvertakes | internal/template/res/dropzone/dropzone.js:1013-1061 | Without autoQueue, for any two files that fit, with a slot and room for both, five events from the empty queue reach an overtaken file |
| UploadTheorems.AdmissionHolds | internal/template/res/dropzone/dropzone.js:525-549 | In every reachable state accepted files number at most maxFiles and all passed the size and type tests, every other listed file is rejected and in error, and both lists together are the listed files with multiplicity |
| UploadInvariants.NextIsOldest | internal/template/res/dropzone/dropzone.js:1159-1182 | What processQueue takes is a prefix of the queued files in list order, fills the free slots or empties the queue, and is empty exactly when there is nothing to do |
| UploadInvariants.Processed | internal/template/res/dropzone/dropzone.js:1159-1182 | processQueue sends exactly those files and touches nothing else, keeps the invariant, and ends with all slots full or nothing queued |
| UploadInvariants.ProcessQueueTwice | internal/template/res/dropzone/dropzone.js:1159-1182 | A second call of processQueue changes nothing |
| UploadEffects.ProcessEffect | internal/template/res/dropzone/dropzone.js:1159-1200 | processQueue sends the oldest queued files into the free slots: without uploadMultiple the k-th of them in the k-th new request, which has that file alone, with it all in one new request; no other file, request, timer or count changes |
| UploadEffects.TimerEffect | internal/template/res/dropzone/dropzone.js:1051-1057 | A fired timer is used up and does exactly that |
| UploadEffects.LoadEffect | internal/template/res/dropzone/dropzone.js:1318-1343 | A complete answer to a live request ends its files as Success if the status code is good and as Error if not, with all their bytes counted as sent, settles that request alone, and then, with autoProcessQueue, sends the oldest queued files as above; any other answer changes nothing |
| UploadEffects.AnswerOutcome | internal/template/res/dropzone/dropzone.js:1318-1343 | The same file by file: every file of the request succeeds or fails as the answer says, and any other file is as it was or was queued and now uploads in a new request |
| UploadEffects.FailEffect | internal/template/res/dropzone/dropzone.js:1344-1351 | A network error on a live request ends its files as Error, their byte counts as they are, settles that request alone, and the queue is refilled as above; after an abort it changes nothing |
| UploadEffects.FailOutcome | internal/template/res/dropzone/dropzone.js:1344-1351 | The same file by file |
| UploadEffects.CancelEffect | internal/template/res/dropzone/dropzone.js:1218-1244 | cancelUpload ends the files of an upload's request, or a waiting or queued file alone, as Canceled, aborts that request alone, and refills the queue as above |
| UploadEffects.CancelOutcome | internal/template/res/dropzone/dropzone.js:1218-1244 | The same file by file: the file asked for is Canceled if it had not ended, and any other file is as it was or was queued and now uploads in a new request |
| UploadEffects.RemoveEffect | internal/template/res/dropzone/dropzone.js:1091-1100 | removeFile does the same for an upload, nothing to the status of any other file, and takes the file and only it off the list |
| UploadEffects.SlotsAfter | internal/template/res/dropzone/dropzone.js:1159-1182 | When a live request ends, the queue is what it was and as many slots come free as the request has files |
| UploadEffects.AddEffect | internal/template/res/dropzone/dropzone.js:1000-1037 | A file over the size limit, of no accepted type, or one too many is listed last as failed and not accepted and the queue refilled; any other is listed last as waiting, or with autoQueue as queued with a timer where that is automatic; nothing else changes |
| UploadEffects.EnqueueEffect | internal/template/res/dropzone/dropzone.js:1048-1061 | A waiting accepted file becomes queued, with one timer where that is automatic; otherwise nothing changes |
| UploadEffects.ProgressEffect | internal/template/res/dropzone/dropzone.js:1282-1294 | Every file of the request takes over the event's two counts, and nothing else changes |
| CancelEffects.DisableEffect | internal/template/res/dropzone/dropzone.js:854-867 | disable() makes every listed file that had not ended Canceled, and changes no other file, the list or the timers |
| CancelEffects.RemoveAllEffect | internal/template/res/dropzone/dropzone.js:1091-1115 | removeAllFiles(true) makes every upload Canceled; a queued file stays queued or is Canceled after having been sent in between; every other file is as it was |
| RequestSizes.EveryRequestSized | internal/template/res/dropzone/dropzone.js:1171-1180 | In every reachable state every request has exactly one file without uploadMultiple, and between one and parallelUploads with it |
| UploadSteps.CompleteEachIsOneReport | internal/template/res/dropzone/dropzone.js:1406-1417 | Settling a group file by file is one change of all statuses, and only the last file's report can find the queue finished |
| UploadSteps.HandleErrorClosed | internal/template/res/dropzone/dropzone.js:1271-1281 | Any number of repetitions of _errorProcessing on a group of k files sets each status once, refills once, and arms queuecomplete 1 + (rounds - 1) * k times if the queue is finished |
| UploadTheorems.RepeatedErrorsAreOne | internal/template/res/dropzone/dropzone.js:1271-1281 | handleError, apart from the count of queuecomplete timers, ends in the same state as a single _errorProcessing |
| UploadTheorems.DisableEndsEverything | internal/template/res/dropzone/dropzone.js:854-867 | After disable() every listed file has ended and every request not settled before is aborted, although each cancel may start further uploads |
| UploadTheorems.RemoveAllAborts | internal/template/res/dropzone/dropzone.js:1091-1115 | removeAllFiles(true) empties the list, leaves nothing uploading and every request not settled before aborted, including those its own cancels started |
| UploadTheorems.RemoveAllSparesUploads | internal/template/res/dropzone/dropzone.js:1102-1115 | removeAllFiles(false) changes the list alone, which keeps exactly the uploading files in order |
| UploadTheorems.DestroyLeavesNothing | internal/template/res/dropzone/dropzone.js:734-743 | destroy() leaves no listed file and no live request, and every file that was listed has ended |
| UploadDraining.StepMeasure | internal/template/res/dropzone/dropzone.js:1159-1438 | 2 * queued + uploading + timers is never raised except by adding or queueing a file, and drops on every timer, live load or error, and cancel of an active listed file |
| UploadDraining.DrainingTerminates | internal/template/res/dropzone/dropzone.js:1159-1438 | A run that brings no new work has at most that many working steps, in any order and mixed with any other events |
| UploadDraining.BusyStateCanWork | internal/template/res/dropzone/dropzone.js:1159-1200 | With autoProcessQueue and a slot, every good state with a queued or uploading file has a possible working step |
| UploadDraining.QueueDrains | internal/template/res/dropzone/dropzone.js:1159-1438 | From any good state timers and answers alone reach a state with nothing queued or uploading within that many steps |
| QueueComplete.StepArms | internal/template/res/dropzone/dropzone.js:649-662 | Every event other than disable and removeAllFiles(true) arms exactly the stated number of queuecomplete timers when nothing is active at its end and none otherwise |
| QueueComplete.CompletesMeansEnds | internal/template/res/dropzone/dropzone.js:1218-1438 | Which such events complete a file can be told beforehand, by a live request, a status or a rejection: exactly those after which some file is at an end that was not before |
| QueueComplete.QueueCompleteIsExact | internal/template/res/dropzone/dropzone.js:649-662 | Such an event arms queuecomplete if and only if some file has newly become Success, Error or Canceled and no listed file is Uploading or Queued when it ends |
| QueueComplete.DisableReportsExactly | internal/template/res/dropzone/dropzone.js:854-867 | disable() arms queuecomplete if and only if some listed file had not ended |
| QueueComplete.RemoveAllReportsExactly | internal/template/res/dropzone/dropzone.js:1102-1115 | With autoProcessQueue, removeAllFiles(true) arms queuecomplete if and only if something was uploading |
| QueueComplete.ManualRemoveAllReports | internal/template/res/dropzone/dropzone.js:1091-1115 | Without autoProcessQueue, if and only if some listed file whose removal aborts a request has no queued file and no further request behind it in the list |
| QueueComplete.ManualRemoveAllIsSilent | internal/template/res/dropzone/dropzone.js:1091-1115 | An upload listed before a queued file: removing both ends idle and empty and reports nothing |
| UploadOrder.SilentRun | internal/template/res/dropzone/dropzone.js:1091-1115 | Such a state is reached from the empty queue for any two files that fit, and the run ends with nothing listed, a request aborted and no queuecomplete ever armed |
| QueueReports.IdleStep | internal/template/res/dropzone/dropzone.js:1013-1061 | From an idle good state, an event leads to a queue with something to do if and only if it adds an accepted file with autoQueue or queues a listed waiting file by hand |
| QueueReports.ArmedMeansIdle | internal/template/res/dropzone/dropzone.js:649-662 | Every event that arms queuecomplete, disable and removeAllFiles included, ends with nothing uploading or queued |
| QueueReports.ReportStaysTrue | internal/template/html/view.html:138-140 | Whatever run follows the event that armed it, the queue is idle at every point of it if and only if no event of the run adds or queues such a file |
| QueueReports.StaleReport | internal/template/html/view.html:138-140 | For any two files that fit: a run from the empty queue arms queuecomplete once and then has a queued file before it can fire |
| QueueReports.GroupFails | internal/template/res/dropzone/dropzone.js:1271-1281 | For any two files that fit: with uploadMultiple and two slots a run from the empty queue sends both in one request, which fails and arms queuecomplete three times |
| UploadProgress.RunBounded | internal/template/res/dropzone/dropzone.js:1282-1317 | If every progress event has loaded <= total, no file ever counts more bytes sent than it has |
| UploadProgress.TotalProgressIsAPercentage | internal/template/res/dropzone/dropzone.js:746-763 | Over such runs the reported total lies in [0, 100], is 100 if and only if every active file is fully sent, and has no value exactly when active files exist but have no bytes |
| UploadProgress.ActiveExactly | internal/template/res/dropzone/dropzone.js:572-583 | The active files are exactly the listed ones that upload or are queued |
| UploadProgress.ReportIsShare | internal/template/res/dropzone/dropzone.js:746-763 | In every state the report times the bytes of the active files is a hundred times the bytes they have sent, and it is 100 without active files |
| UploadProgress.SumsIgnoreOrder | internal/template/res/dropzone/dropzone.js:749-756 | The sums of bytes depend on which files there are and not on their order |
| UploadProgress.SumsOfParts | internal/template/res/dropzone/dropzone.js:749-756 | The sums of two lists together are the sums of each added |
| UploadProgress.ReportRises | internal/template/res/dropzone/dropzone.js:746-763 | One more byte sent by any active file, all else equal, raises the report |
| Dropzones.Dropzone.constructor | internal/template/res/dropzone/dropzone.js:487-523 | A new instance is the empty queue, a good state |
| Dropzones.Dropzone.ValidIsReady | internal/template/res/dropzone/dropzone.js:1318-1351 | In every valid instance each request's group is not empty and made of added files, which is all the request handlers rely on |
| Dropzones.Dropzone.AddFile | internal/template/res/dropzone/dropzone.js:1013-1037 | The instance's state becomes Uploads.Add of its old state, also for a file added before; the reason of rejection is reported exactly when the file is marked not accepted |
| Dropzones.Dropzone.Accept | internal/template/res/dropzone/dropzone.js:1000-1011 | Which of the three rejections is given, each with its exact condition, first applicable one first; none if and only if the file fits and there is room |
| Dropzones.Dropzone.EnqueueFile | internal/template/res/dropzone/dropzone.js:1048-1061 | False, with nothing changed, exactly where the script throws; otherwise queued and a timer started if autoProcessQueue |
| Dropzones.Dropzone.GetFilesWithStatus | internal/template/res/dropzone/dropzone.js:551-562 | The listed files of that status, in list order |
| Dropzones.Dropzone.GetFilesWithXhr | internal/template/res/dropzone/dropzone.js:1202-1216 | The listed files of that request, in list order |
| Dropzones.Dropzone.GetAcceptedFiles | internal/template/res/dropzone/dropzone.js:525-536 | The accepted listed files, in list order |
| Dropzones.Dropzone.GetActiveFiles | internal/template/res/dropzone/dropzone.js:572-583 | The uploading and queued files, in list order |
| Dropzones.Dropzone.EmitComplete | internal/template/res/dropzone/dropzone.js:654-662 | Arms a timer exactly if the state is idle |
| Dropzones.Dropzone.ProcessQueue | internal/template/res/dropzone/dropzone.js:1159-1182 | In place what Uploads.ProcessQueue is on states |
| Dropzones.Dropzone.ProcessSingly | internal/template/res/dropzone/dropzone.js:1174-1180 | The counting and shifting loop opens one request for each of the first files that fit the free slots |
| Dropzones.Dropzone.ProcessFiles | internal/template/res/dropzone/dropzone.js:1188-1200 | One request for the whole group |
| Dropzones.Dropzone.UploadFiles | internal/template/res/dropzone/dropzone.js:1259-1265 | A new request that closes over the group, carried by each of its files |
| Dropzones.Dropzone.OnTimer | internal/template/res/dropzone/dropzone.js:1051-1057 | A fired processQueue timer |
| Dropzones.Dropzone.OnProgress | internal/template/res/dropzone/dropzone.js:1282-1294 | Every file of the request takes over the event's totals |
| Dropzones.Dropzone.OnLoad | internal/template/res/dropzone/dropzone.js:1318-1343 | In place what Uploads.Load is on states, for a live or an aborted request |
| Dropzones.Dropzone.OnError | internal/template/res/dropzone/dropzone.js:1344-1351 | In place what Uploads.Fail is on states, for a live or an aborted request |
| Dropzones.Dropzone.HandleError | internal/template/res/dropzone/dropzone.js:1271-1281 | In place what Uploads.HandleError is on states, one round per file |
| Dropzones.Dropzone.ErrorProcessing | internal/template/res/dropzone/dropzone.js:1423-1438 | In place what Uploads.ErrorProcessing is on states |
| Dropzones.Dropzone.Finished | internal/template/res/dropzone/dropzone.js:1406-1421 | In place what Uploads.Finished is on states |
| Dropzones.Dropzone.CancelUpload | internal/template/res/dropzone/dropzone.js:1218-1244 | In place what Uploads.Cancel is on states, also for a file never added |
| Dropzones.Dropzone.RemoveFile | internal/template/res/dropzone/dropzone.js:1091-1100 | In place what Uploads.Remove is on states |
| Dropzones.Dropzone.RemoveAllFiles | internal/template/res/dropzone/dropzone.js:1102-1115 | In place what Uploads.RemoveAll is on states, looping over the list as it was at entry |
| Dropzones.Dropzone.Disable | internal/template/res/dropzone/dropzone.js:854-867 | In place what Uploads.Disable is on states |
| Dropzones.Dropzone.Destroy | internal/template/res/dropzone/dropzone.js:734-743 | From any valid instance: no listed file, no live request, every formerly listed file object at an end |
| Dropzones.Dropzone.UpdateTotalUploadProgress | internal/template/res/dropzone/dropzone.js:746-763 | The summing loop yields the percentage TotalProgressIsAPercentage is about |
| FileTypes.IsValidFile | internal/template/res/dropzone/dropzone.js:1615-1641 | True if and only if the list is empty or some entry admits the file |
| FileTypes.NoListAdmitsAll | internal/template/res/dropzone/dropzone.js:1617-1619 | Without a list every file is accepted |
| FileTypes.ListAdmits | internal/template/res/dropzone/dropzone.js:1620-1641 | A list joined by commas accepts a file if and only if one of its entries admits it |
| FileTypes.BlanksDoNotMatter | internal/template/res/dropzone/dropzone.js:1625 | Blanks around an entry do not matter |
| FileTypes.EndingAdmits | internal/template/res/dropzone/dropzone.js:1626-1629 | An entry with a dot in front admits exactly the names with that ending, upper and lower case being the same, whatever the type |
| FileTypes.FamilyAdmits | internal/template/res/dropzone/dropzone.js:1630-1633 | An entry for any type of a family admits exactly the types of that family, whatever the name |
| FileTypes.TypeAdmits | internal/template/res/dropzone/dropzone.js:1634-1637 | Any other entry admits exactly the files of that type |
| FileTypes.UntypedPasses | internal/template/res/dropzone/dropzone.js:1615-1641 | A file of unknown type passes a list that is not empty if and only if some entry is blank, is an ending of its name, or is one line that starts with a slash and ends in slash star |
| FileTypes.StrayCommaAdmitsUntyped | internal/template/res/dropzone/dropzone.js:1620-1637 | Any list with a comma added at its end admits every file of unknown type |
| Text.OccursFromTail | internal/template/res/dropzone/dropzone.js:1627 | Searching from length - length of the ending is a suffix test, also when that start is negative |
| Text.TrimForm | internal/template/res/dropzone/dropzone.js:1625 | Trimming takes all blanks off both ends and nothing else |
| Text.BaseOfParts | internal/template/res/dropzone/dropzone.js:1623 | The base of a type is the part before the slash |
| Thumbnails.EligibleExactly | internal/template/res/dropzone/dropzone.js:1067-1068 | Thumbnails are made exactly of the files with the word image anywhere in their type and no more bytes than the limit, where they are made at all |
| Thumbnails.EnqueueGood | internal/template/res/dropzone/dropzone.js:1067-1076 | Enqueueing keeps every file accounted for and the queue attended |
| Thumbnails.TickGood | internal/template/res/dropzone/dropzone.js:1078-1089 | So does a timer, for any number of instances sharing the queue |
| Thumbnails.CreatedGood | internal/template/res/dropzone/dropzone.js:1078-1089 | So does a finished thumbnail: each file begun is finished once or in exactly one instance's hands, in queue order, and a non-empty queue has a timer pending or an instance at work |
| Thumbnails.NothingLostOrReordered | internal/template/res/dropzone/dropzone.js:1063-1089 | For one instance, finished, then in creation, then waiting is exactly what was enqueued, in order |
| Thumbnails.AloneStays | internal/template/res/dropzone/dropzone.js:1063-1089 | That holds on through every event of a single instance |
| Thumbnails.RunEnqueues | internal/template/res/dropzone/dropzone.js:1067-1076 | Over any run of any instances, what was enqueued is exactly the eligible files offered, in order |
| Thumbnails.RunKeepsOrder | internal/template/res/dropzone/dropzone.js:1063-1089 | After any run of a single instance from an empty queue: files done, then the one in creation, then those waiting are exactly the eligible files offered, in order, at most one is in creation, and waiting files have a timer pending or one in creation |
| SharedThumbnails.StepInTurn | internal/template/res/dropzone/dropzone.js:1078-1089 | For any instances: where thumbnails were done in the order of the queue, an event breaks that if and only if an instance is done while another is still at an earlier file; once broken it stays broken |
| SharedThumbnails.DoneInTurnExactly | internal/template/res/dropzone/dropzone.js:1063-1089 | After any run of any instances, each with options of its own, thumbnails were done in the order of the queue if and only if no event of the run did that |
| SharedThumbnails.OneAtATimeExactly | internal/template/res/dropzone/dropzone.js:1063-1089 | No point of a run has two thumbnails in creation if and only if no timer of a free instance found a file waiting while another was at work |
| SharedThumbnails.HandedExactly | internal/template/res/dropzone/dropzone.js:1078-1089 | The oldest waiting file is begun exactly when a free instance's timer fires or an instance is done, and by that instance |
| SharedThumbnails.OwnFilesExactly | internal/template/res/dropzone/dropzone.js:1078-1157 | After any run every file begun was begun by the instance it was added to, with its sizes and its thumbnail event, if and only if no event handed the oldest waiting file to another |
| SharedThumbnails.TwoAtWork | internal/template/res/dropzone/dropzone.js:1063-1089 | Two instances offered an eligible file each are at work at once when both timers have fired |
| SharedThumbnails.TwoOutOfTurn | internal/template/res/dropzone/dropzone.js:1063-1089 | If then the second is done first, the thumbnails are done as 1, 0 |
| SharedThumbnails.SecondFileMisrouted | internal/template/res/dropzone/dropzone.js:1063-1089 | Even with timers fired in the order they were set: of two files of one instance and one of another, the second is begun by the other instance |
| Thumbnails.Workshop.EnqueueThumbnail | internal/template/res/dropzone/dropzone.js:1067-1076 | In place what Thumbnails.Enqueue is on states |
| Thumbnails.Workshop.ProcessThumbnailQueue | internal/template/res/dropzone/dropzone.js:1078-1089 | Hands out the oldest waiting file exactly if the instance is free and one waits |
| Thumbnails.Workshop.OnCreated | internal/template/res/dropzone/dropzone.js:1083-1088 | In place what Thumbnails.Created is on states |
| Images.DetectVerticalSquash | internal/template/res/dropzone/dropzone.js:1681-1709 | For every column the search ends, reads in bounds and stops at an edge between drawn and transparent rows; the ratio is its height over the image's, or 1 for none; in particular a column drawn to row m and transparent below gives m rows over the height |
| Images.EdgeOfDrawnTop | internal/template/res/dropzone/dropzone.js:1681-1709 | A column opaque above row m and transparent below has m as its only edge |
| Images.Resize | internal/template/res/dropzone/dropzone.js:247-282 | For every image and target the crop lies inside, is centred, has the target's shape, is the largest such rectangle and is not enlarged; it is drawn at exactly the target's size where the image is at least that large, and at its own otherwise |
| Images.TargetKeeps | internal/template/res/dropzone/dropzone.js:1135-1141 | A given thumbnail side is kept, a missing one follows the image's proportions, and without either it is the image's size |
| Images.CropForIsGood | internal/template/res/dropzone/dropzone.js:247-282 | The same of the crop as one expression, whichever side is cut |
| FileSizes.FileSizeIsNear | internal/template/res/dropzone/dropzone.js:876-895 | The shown quantity is within a twentieth of its unit of the size |
| FileSizes.FileSizeIsShort | internal/template/res/dropzone/dropzone.js:876-895 | At most 102.4 is shown below TiB, at least 0.1 from KiB on |
| FileSizes.UnitIsLargest | internal/template/res/dropzone/dropzone.js:876-895 | The unit is the largest power of 1024 of which a tenth is not more than the size, or the byte |
| FileSizes.FileSizeIsMonotone | internal/template/res/dropzone/dropzone.js:876-895 | A larger file is never shown as a smaller quantity, also across a change of unit |
| Routes.Router.constructor | vendor/github.com/Mikhalevich/filesharing/pkg/service/application.go:44-49 | The router the table is registered with already has the metrics route |
| Routes.Router.MakeRoutes | internal/router/router.go:163-184 | The whole table is registered behind what is there, in order, whatever authEnabled says |
| Routes.Router.Match | vendor/github.com/gorilla/mux/mux.go:136-147 | Trying the routes in turn finds the first that matches, a final slash being optional for all but the prefix route |
| Routes.Router.Handle | vendor/github.com/gorilla/mux/mux.go:173-213 | For any routes and any path: redirected if the path is not clean, redirected if only the final slash differs from the matched pattern, not found or not allowed if no route or only routes for other methods match, otherwise matching, storing the parameters and reading them back answers as Routes.Serve says |
| RouteTheorems.CleanPathForm | vendor/github.com/gorilla/mux/mux.go:460-477 | Left alone are exactly the paths that start with a slash and have neither dot segments nor empty ones before the last; cleaning twice is cleaning once |
| RouteTheorems.CleanPathSpelling | vendor/github.com/gorilla/mux/mux.go:460-477 | A path is cleaned to the names that are left of it, with a final slash exactly if it had one or no name is left |
| RouteTheorems.NothingIsSkipped | vendor/github.com/gorilla/mux/mux.go:460-477 | An empty or single-dot segment counts for nothing, wherever it stands |
| RouteTheorems.NameIsTakenBack | vendor/github.com/gorilla/mux/mux.go:460-477 | A double-dot segment takes back the name before it, and nothing at the root |
| RouteTheorems.NamesStay | vendor/github.com/gorilla/mux/mux.go:460-477 | Names alone stay as they are |
| Routes.StoreRouterParameters | internal/router/router.go:143-161 | A handler that reads the context back gets the route's public flag, the path's storage and file, and permanence only together with a storage; an entry is in the context exactly if the path had it |
| RouteTheorems.RoundTrip | internal/router/router.go:45-140 | Building the path of an operation and serving it gives the operation back with its storage, permanence and file, if and only if it is not one of the listed shadowed cases |
| RouteTheorems.ServedIsBuilt | internal/router/router.go:45-161 | A request reaches a storage-scoped handler if and only if it is the path and method built for some operation that is not shadowed, and every operation it is built for is what is served |
| RouteTheorems.RegisterServed | internal/router/router.go:62-67 | The register handler is reached exactly by GET and POST of /register/, as public, without storage or file |
| RouteTheorems.LoginServed | internal/router/router.go:68-73 | The login handler is reached exactly by GET and POST of /login/, one clean name and a slash, as public, with that name as storage |
| RouteTheorems.RedirectServed | internal/router/router.go:47-54 | The redirect to the common storage is reached exactly by GET of the bare slash |
| RouteTheorems.HomeServed | internal/router/router.go:52 | Where it leads, the common storage is viewed, not as the permanent one |
| RouteTheorems.ResourcesServed | internal/router/router.go:55-61 | The page's own files are reached exactly by GET of a clean path below /res/, as public, without storage or file |
| RouteTheorems.MetricsServed | vendor/github.com/Mikhalevich/filesharing/pkg/service/application.go:49 | The metrics are reached exactly by /metrics/, with any method |
| RouteTheorems.SlashRedirectSettles | vendor/github.com/gorilla/mux/regexp.go:349-362 | A redirect for the final slash leads to the route that sent it, which serves the new path; the one exception is GET /res, which leads from the storage view to the resources |
| RouteTheorems.RedirectsEnd | vendor/github.com/gorilla/mux/mux.go:173-213 | A request redirected twice is then served, so there are no redirect loops |
| RouteTheorems.WrongMethodExactly | vendor/github.com/gorilla/mux/mux.go:136-170 | A request is refused for its method if and only if its path is clean, no route takes it, and one would take it by GET or POST |
| RouteTheorems.ServedIsScoped | internal/router/router.go:45-162 | A request that reaches a storage-scoped handler has its first segment as storage, is not public, is permanent if and only if its second segment is permanent, and names a file if and only if it is a download |
| RouteTheorems.GetRoutes | internal/router/router.go:70-107 | The exact set of paths each reading route matches, with or without the final slash |
| Text.SplitJoin | internal/router/router.go:45-140 | Splitting a path built from slash-free segments gives the segments back |
| Text.JoinSplit | internal/router/router.go:45-140 | Joining the segments of any path gives the path back, and no segment holds a slash |
| Handlers.RequestParameters | internal/handler/handlers.go:114-150 | Every parameter is the stored value, or its default where none was stored |
| Handlers.Values | internal/handler/handlers.go:92-112 | Each parameter is under its own key, once, the two flags as true and only if set, and reading the query gives every parameter back |

## Left out

- Page elements, previews, style classes, drag and drop, the fallback form, reading files, drawing on a canvas and building form data: browser calls.
- Events other than `complete`, `canceled` and `queuecomplete`: they have no effect on the state. How often `totaluploadprogress` is announced is not counted, only the value it would announce.
- Dropzones.Dropzone.OnProgress: the `progress` field of a file's upload record is not modelled, it only decides whether a progress event is announced; nor are those announcements.
- The page's own listeners in `internal/template/html/view.html`, other user listeners, asynchronous `accept` callbacks, and direct calls of `processFile` or `uploadFile`.
- Dropzones.Dropzone.AddFile: a file object added a second time is modelled, but the invariants are promised for first additions only, since its status is reset while an old request may still report on it. An object that already carries an `accepted` or `xhr` value from another instance is left out.
- `_addFilesFromDirectory`, `paste`, `drop`: they only decide which files are added.
- A thumbnail whose image fails to load: the script never hears of it, so that instance stays at work; the model has no event for it.
- FileTypes.IsValidFile: lower-casing is that of ASCII letters, since case tables beyond it can change a name's length.
- Floating point: reals are exact. With a byte total of zero the total progress has no value (not a number in the script).
- Routes.Serve: patterns are given by their segments and methods as a set; paths are those after percent-decoding, and the query a redirect keeps is not modelled. A redirect is followed with the same method, while most clients turn a redirected POST into a GET.
- The context library behind `ctxinfo` is not part of this model; a stored value is read back and a missing one is reported as not found, so its other errors do not occur.
- Gateway calls, JSON, multipart copying, cookies and templates in the Go code.
- Images.Resize: asks for positive thumbnail sizes where they are given; a zero or negative size makes the script divide by zero or crop nothing.
