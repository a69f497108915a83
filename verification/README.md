# A verified model of the document classifier service

The service takes scanned TIFF files from an SFTP directory or an upload endpoint, stores them in an object store,
queues one classification job per file, and keeps users, batches, predictions and an audit log in a database behind a
cache. This project models its stateful parts in Dafny and proves what they guarantee over whole runs:

- **Login rate limiter** (`RateLimiter.dfy`): the sliding window over a pruned list of times per client address.
- **File names and keys** (`PyStrings.dfy`, `BlobKeys.dfy`, `Validators.dfy`): the key printers, the worker's parser, and
  the two independent file checks.
- **Ingestion** (`Backend.dfy`, `Watcher.dfy`, `UploadEndpoint.dfy`, with `WatcherProperties.dfy`, `Ingestion.dfy`,
  `Polls.dfy`, `FileCounts.dfy`, `Requests.dfy`): the watcher's polling loop and the upload endpoint as classes, every
  external call free to fail before or after taking effect; then one machine whose steps are the single calls of a poll,
  of any number of upload requests and of overlay uploads, in any order, with restarts of the watcher.
- **Database and services** (`Records.dfy`, `CacheKeys.dfy`, `Transactions.dfy`, `ServiceLayer.dfy`, `Worker.dfy`): each
  call as one atomic transaction with the cache keys it owes; the services, repositories, cached reads and the worker as
  classes whose methods are proved to do exactly that. `CallRules.dfy` says when each call commits, why it is refused
  and what it leaves, `Reads.dfy` what the cached reads return. `UserProperties.dfy`, `AuditProperties.dfy`,
  `BatchProperties.dfy` and `PredictionProperties.dfy` hold the theorems over all runs of calls.
- **Interleavings** (`Protocol.dfy`, `CacheAgreement.dfy`, `ListPages.dfy`, `JobProperties.dfy`, `Interleavings.dfy`):
  requests, any number of jobs, and cached readers in any order, with single cache deletions, lost deletions, expiry,
  crashes, and reads whose result is stored later.
- **The pipeline** (`EndToEnd.dfy`): both machines as one, with one batch table and workers that draw from the queue and
  the store, from the scanned file to the stored prediction.

What is taken for granted: transactions are serial and foreign keys are enforced (as in PostgreSQL); row identifiers hold
no slash (they are UUIDs; that they are new is not assumed, an identifier in use makes the insert fail); a directory lists
no name twice; one watcher runs at a time; the clock of the rate limiter does not go back; rows are listed in commit
order.

Where comments and documentation claim more than the code does, the model follows the code:

- `workers/inference_worker.py` and `domain/batch.py` say that the last job closes the batch and that done means all jobs
  finished. The first job through does it (`FirstJobClosesBatch`); done means at least one prediction
  (`DoneHasAPrediction`), and all of them exactly if every other job is past its save then (`DoneIsCompleteIff`), as it
  always is for a batch of one file (`DoneIsCompleteForOneFile`).
- `infra/sftp_watcher.py` says that files already stored are skipped after a restart. The batch is new in every poll, so
  the check never finds anything (`ExistenceCheckNeverHits`), and such files are queued again (`RestartQueuesAgain`).
- `infra/sftp_watcher.py` and `infra/blob.py` say that oversized files are quarantined. The size gate makes the download
  fail, so such a file is retried in every poll, with a new batch each time (`OversizedNeverSettles`); were it to reach
  the quarantine upload, that would raise (`RunKeeps`).
- The list cache keys do not mention offset and limit (`PagesDiffer`); cache agreement is about one page per list.
- A cached read and its store are two steps. Agreement holds if no commit that owes the name a deletion, followed by a
  deletion or expiry of it, comes between them (`CacheAgrees`). It fails exactly when such a read is stored after its
  value has changed and when nobody is going to delete the entry (`AgreesIffNoStaleStore`), which can happen
  (`RacedFillIsStale`).

`dafny verify dfyconfig.toml` checks the project.

## Model

| member | source | states |
|---|---|---|
| `RateLimiter.LoginLimiter.Handle` | docclassifier-week6/app/api/main.py:133-152 | one request: other paths pass and leave the store alone; a login is decided, and only the list of its own address changed, as the step the run theorems below are about |
| `RateLimiter.AdmissionRule` | docclassifier-week6/app/api/main.py:142-151 | in any run with a non-decreasing clock, an attempt is admitted if and only if fewer than 5 earlier admitted attempts of its address, in the full history, lie less than 60 s back |
| `RateLimiter.StoreRefinesHistory` | docclassifier-week6/app/api/main.py:143-144 | the pruned list and the full history have the same recent part, from the last attempt on |
| `RateLimiter.StoreInvariant` | docclassifier-week6/app/api/main.py:143-151 | every stored list is sorted, holds no future time and at most 5 entries; an address that made no attempt has no list |
| `RateLimiter.AttemptPrunes` | docclassifier-week6/app/api/main.py:143-151 | after an attempt, admitted or not, the list of its address holds exactly what is left of the window, and the attempt itself if it was admitted |
| `RateLimiter.WindowBound` | docclassifier-week6/app/api/main.py:133-152 | no half-open window of 60 s holds more than 5 admitted attempts of one address |
| `RateLimiter.IntervalBound` | docclassifier-week6/app/api/main.py:133-152 | a half-open interval of 60k s holds at most 5k of them |
| `RateLimiter.RejectedLeaveNoTrace` | docclassifier-week6/app/api/main.py:143-151 | deleting rejected attempts of an address, and any attempts of others, changes no other decision about it: lockouts are not extended, addresses are independent |
| `RateLimiter.LockoutEnds` | docclassifier-week6/app/api/main.py:143-151 | 60 s after its last admitted attempt an address is admitted again |
| `BlobKeys.OriginalKeyInjective` | docclassifier-week6/app/infra/blob.py:65-68 | for slash-free batch ids, equal original keys mean the same batch and the same file name, and conversely |
| `BlobKeys.OverlayKeyClash` | docclassifier-week6/app/infra/blob.py:70-74 | overlay keys are equal exactly for one batch and one stem |
| `BlobKeys.OverlayKeysNotInjective` | docclassifier-week6/app/infra/blob.py:70-74 | a concrete clash: `scan.tif` and `scan.tiff` of one batch have different originals and one overlay |
| `BlobKeys.KeyFamiliesDisjoint` | docclassifier-week6/app/infra/blob.py:65-79 | originals, overlays and quarantined files never share a key |
| `BlobKeys.FilenameRoundTrip` | docclassifier-week6/app/workers/inference_worker.py:99 | the worker's parse of an original key gives back the file name if and only if the name has no slash |
| `BlobKeys.KeyFormats` | docclassifier-week6/app/infra/blob.py:65-79 | the keys of originals and quarantined files written out |
| `BlobKeys.OverlayFormat` | docclassifier-week6/app/infra/blob.py:70-74 | the overlay key written out, for a name of stem and extension |
| `BlobKeys.StemAndSuffix` | docclassifier-week6/app/infra/blob.py:73 | stem and suffix make up the name; a suffix is empty or one dot and at least one more character |
| `Validators.ValidatorsAgree` | docclassifier-week6/app/infra/sftp_watcher.py:216-228 | for every name and content the watcher's and the upload endpoint's verdicts agree if and only if the content is unacceptable or the name is not divergent |
| `Validators.DivergentListing` | docclassifier-week6/app/api/routers/upload.py:72-75 | for slash-free names, divergent means: the whole name is the extension |
| `Validators.RejectReason` | docclassifier-week6/app/infra/sftp_watcher.py:216-228 | a file has no reason for rejection if and only if it is non-empty, within the cap, and its lowered suffix is an accepted one |
| `Validators.AcceptedInAnyCase` | docclassifier-week6/app/infra/sftp_watcher.py:216-228 | for a proper name both validators accept exactly the letters t, i, f and perhaps f behind the last dot, each in either case, and 1 to 104857600 bytes |
| `Validators.ReasonOrder` | docclassifier-week6/app/infra/sftp_watcher.py:221-228 | the reasons in order: nothing in the file, the extension, the size |
| `PyStrings.LastComponent` | docclassifier-week6/app/infra/sftp_watcher.py:223 | the name of a path is its last component |
| `PyStrings.IgnoredComponents` | docclassifier-week6/app/infra/sftp_watcher.py:223 | a final slash and a final dot component do not count |
| `PyStrings.SuffixLaw` | docclassifier-week6/app/infra/sftp_watcher.py:223 | the suffix starts at the last dot, unless that is the first or the last character of the name |
| `Validators.AcceptedNameNonEmpty` | docclassifier-week6/app/api/routers/upload.py:72-92 | a name that passes validation is non-empty, so the endpoint's generated fallback name is never used |
| `Backend.Stores.Upload` | docclassifier-week6/app/infra/blob.py:83-111 | data over the cap raises before the store is touched; otherwise the key maps to the data, unless the call raised first |
| `Watcher.SFTPWatcher.ProcessFile` | docclassifier-week6/app/infra/sftp_watcher.py:134-195 | the pipeline of one file, step by step, has the effect its six-way outcome says; only the existence check can end the poll |
| `Watcher.FateOfAbsentFile` | docclassifier-week6/app/infra/sftp_watcher.py:134-195 | call by call: when a file is marked as seen, what is stored and under which key, and when a job is queued; a failing quarantine or queue call does not leave it for a retry, a failing download or upload does |
| `Watcher.SizeGate` | docclassifier-week6/app/infra/sftp_watcher.py:197-211 | a download raises for a remote file of more than 104857600 bytes, and otherwise returns the bytes unless it raises on its own |
| `Watcher.NewNamesKeepOrder` | docclassifier-week6/app/infra/sftp_watcher.py:128-132 | the new names are the unseen entries in the order of the listing |
| `Watcher.SFTPWatcher.PollOnce` | docclassifier-week6/app/infra/sftp_watcher.py:100-132 | the polling loop, with an exception ending it anywhere, has the effect of the closed-form poll the theorems below are about |
| `WatcherProperties.PollEffect` | docclassifier-week6/app/infra/sftp_watcher.py:100-132 | a poll makes at most one batch, with a fresh id and the number of new names; `_seen` grows by exactly the settled names and the queue by exactly one job per queued name, in order |
| `WatcherProperties.PollAccounts` | docclassifier-week6/app/infra/sftp_watcher.py:108-195 | the batch's file count is dispatched + queue-call-raised + rejected + already-present + the names a next poll would pick up again; no such name has a job of the batch |
| `Polls.PollIsCalls` | docclassifier-week6/app/infra/sftp_watcher.py:100-195 | the closed-form poll is what its single calls do one after the other, so the class above and the interleaved machine below are the same watcher |
| `Polls.PollAmongOthers` | docclassifier-week6/app/infra/sftp_watcher.py:100-195 | with calls of requests and workers anywhere between its own, a poll comes to the same end: the same names seen, the same jobs in the same order for its batch; so its accounts hold there too |
| `Ingestion.AtMostOnce` | docclassifier-week6/app/infra/sftp_watcher.py:78-195 | in one session, under any failures and any interleaving of single calls, no file name is queued twice, and none that was seen before |
| `Polls.RestartQueuesAgain` | docclassifier-week6/app/infra/sftp_watcher.py:78-195 | across sessions it is not kept: after a restart a poll whose calls do not raise queues every accepted file again that it lists, whatever is queued for it already |
| `Ingestion.ExistenceCheckNeverHits` | docclassifier-week6/app/infra/sftp_watcher.py:144-149 | at no call of any interleaving, restarts included, does the existence check find a file: the batch is always new, so files of an earlier poll or process are not recognised |
| `Polls.ProgressBound` | docclassifier-week6/app/infra/sftp_watcher.py:100-132 | over a fixed directory, and whatever happens to the store between polls, polls with k failures make at most k + 1 batches |
| `Polls.SuffersOnlyFromACall` | docclassifier-week6/app/infra/sftp_watcher.py:144-177 | such a failure is a call that raised: the create call after its commit, a stat, a download (as for a remote file over the cap) or an upload |
| `Polls.SettledDirectoryIsQuiet` | docclassifier-week6/app/infra/sftp_watcher.py:102-104 | once every listed name is settled, further polls change nothing at all |
| `Ingestion.OversizedNeverSettles` | docclassifier-week6/app/infra/sftp_watcher.py:151-156 | in every interleaving, a file whose download always raises, as it does for a remote file over the cap, is never seen, and every poll that lists it and can insert its row makes one more batch |
| `Ingestion.RunKeeps` | docclassifier-week6/app/infra/blob.py:83-111 | in every interleaving of single calls of the watcher, of any number of upload requests, and of overlay uploads: rows, jobs and objects are only added, every queued job names an object that is there and has passed validation, and nothing over the cap is ever stored, in quarantine or elsewhere |
| `Ingestion.ByteIntegrity` | docclassifier-week6/app/infra/sftp_watcher.py:142-183 | from the call that stores a file on, before it is queued and while the poll goes on, the bytes under its key are the downloaded bytes that passed validation, in every later state |
| `Ingestion.JobIntegrity` | docclassifier-week6/app/infra/sftp_watcher.py:180-195 | from the call that queues it on, a job of the watcher stays queued and names bytes that passed the watcher's check and never change |
| `Ingestion.SealedForEver` | docclassifier-week6/app/infra/blob.py:65-111 | a file, stored or quarantined, that no task under way is still going to write never changes again |
| `Ingestion.QuarantineIntegrity` | docclassifier-week6/app/infra/sftp_watcher.py:158-170 | from the call that puts a rejected file away on, in every later state, its bytes are under its quarantine key if and only if they fit the cap and that upload took effect; nothing is under its original key, and no job names it |
| `BlobKeys.SlotsApart` | docclassifier-week6/app/infra/blob.py:65-79 | over originals and quarantined files together the key determines kind, batch and name, and no overlay is stored under such a key |
| `FileCounts.NeverMoreJobsThanFiles` | docclassifier-week6/app/infra/sftp_watcher.py:109-114 | in every interleaving a batch has at most as many queued jobs as its row counts files |
| `EndToEnd.RunHasHalves` | docclassifier-week6/app/workers/inference_worker.py:91-113 | a run of the whole pipeline, where workers draw jobs from the queue and images from the store and there is one batch table, is a run of the ingestion machine and a run of the protocol, so the theorems about both hold of it |
| `EndToEnd.RunKeepsLink` | docclassifier-week6/app/workers/inference_worker.py:91-113 | throughout, the two batch tables are one, no queued job is taken twice, and every worker job carries the model's verdict on bytes that passed validation: for a watcher batch those still under its key, for a request's batch those sent under its file's name |
| `EndToEnd.IngestCreatesRow` | docclassifier-week6/app/workers/sftp_ingest.py:32-55 | a poll or a request makes one pending row with the number of its files; the log entry names the caller of the request, or nobody for the watcher |
| `EndToEnd.ClassifyStoresTheOverlay` | docclassifier-week6/app/workers/inference_worker.py:99-102 | what the worker does to the store for a queued job is the overlay event of that job: it stores the drawing under the overlay key of the job's file, and every original and quarantined file keeps its bytes |
| `EndToEnd.EveryQueuedJobCanBeTaken` | docclassifier-week6/app/workers/inference_worker.py:91 | a queued job that has not been taken can be, its object is there |
| `EndToEnd.PredictionOfAValidatedFile` | docclassifier-week6/app/workers/inference_worker.py:91-114 | field by field, every prediction of a batch is of a queued job of that batch, with its key, the file name in that key, the overlay key of that name, and the model's class and confidence for bytes that passed validation; for a watcher batch these are the bytes under that key, for a request's batch the content of a file of that name it was sent |
| `EndToEnd.PredictionOfTheSentFile` | docclassifier-week6/app/workers/inference_worker.py:91-114 | if files of one name in a request are copies, in particular if its names are distinct, the prediction under a file's key records the model's verdict on that file's content |
| `EndToEnd.EveryQueuedJobPredicted` | docclassifier-week6/app/workers/inference_worker.py:196-223 | when all queued jobs of a batch have been taken and have ended, in any order among everything else, it has exactly one prediction for each of them and is done, or failed by request |
| `EndToEnd.DoneIsCompleteForOneFile` | docclassifier-week6/app/workers/inference_worker.py:219-223 | for a batch of one file done does mean complete |
| `EndToEnd.CompleteIffAllQueuedAndSaved` | docclassifier-week6/app/workers/inference_worker.py:219-223 | at any moment predictions <= queued jobs <= file count, and a batch has a prediction for each of its files if and only if a job was queued for each and every one of these is past its save |
| `EndToEnd.NewDeployment` | docclassifier-week6/scripts/seed_admin.py:40-53 | an empty store and queue and a seeded database meet what these theorems ask of a start, for every batch |
| `UploadEndpoint.Uploader.Validate` | docclassifier-week6/app/api/routers/upload.py:68-92 | the two loops report the first bad name of all files before any bad content |
| `UploadEndpoint.Uploader.UploadDocuments` | docclassifier-week6/app/api/routers/upload.py:52-119 | the endpoint, with the first raising call ending it, has the effect of the request function the theorems below are about |
| `Polls.RequestIsCalls` | docclassifier-week6/app/api/routers/upload.py:65-119 | the request function is what the single calls of a request do one after the other |
| `UploadEndpoint.RefusalMeaning` | docclassifier-week6/app/api/routers/upload.py:68-92 | validation passes if and only if there is a file and every file is acceptable |
| `UploadEndpoint.AnswerOrder` | docclassifier-week6/app/api/routers/upload.py:65-91 | without permission 403 and nothing happens; all names are tested before any content, and the first bad content is reported as empty or as too large, according to its length |
| `UploadEndpoint.NamelessRefused` | docclassifier-week6/app/api/routers/upload.py:73-79 | a file without a name is refused, any other is judged by its own name |
| `UploadEndpoint.StopsAtFirstRaise` | docclassifier-week6/app/api/routers/upload.py:106-112 | a request stops at the first file for which the upload or the queue call raises, and only there |
| `UploadEndpoint.FailedCreation` | docclassifier-week6/app/api/routers/upload.py:95-98 | if the batch cannot be created nothing is stored or queued; only a row committed before the raise stays |
| `UploadEndpoint.AllOrNothing` | docclassifier-week6/app/api/routers/upload.py:68-98 | one bad file, or no file, and no batch, blob or job is made |
| `UploadEndpoint.OrderedEffect` | docclassifier-week6/app/api/routers/upload.py:94-119 | undisturbed, the batch records the number of files; if a call for file k raises, exactly the first k files have jobs, the i-th with the original key of the i-th name |
| `Requests.RequestAmongOthers` | docclassifier-week6/app/api/routers/upload.py:94-112 | with anything else going on between its calls: the batch records the number of files, and when n of them have been dealt with its jobs are those of the first n, in order and under their own keys, or of the first k if a call for file k raised |
| `Requests.RequestByteIntegrity` | docclassifier-week6/app/api/routers/upload.py:106-111 | from the call that stores a file on, if no later file of the request has its name, its content is under its key in every later state |
| `Requests.OwnContentAmongOthers` | docclassifier-week6/app/api/routers/upload.py:105-112 | after an accepted request with anything else between its calls, and in every later state, every job finds its own file's content if and only if files of one name have one content |
| `Requests.JobsNameWhatWasSent` | docclassifier-week6/app/api/routers/upload.py:105-112 | in every interleaving, a job that is not the watcher's names bytes that a request was sent for that batch under the name of its file |
| `UploadEndpoint.OwnContent` | docclassifier-week6/app/api/routers/upload.py:105-112 | undisturbed, after an accepted request every job finds its own file's content if and only if files of one name have one content |
| `CacheKeys.RenderedNames` | docclassifier-week6/app/infra/cache.py:21-35 | the six names written out |
| `CacheKeys.KeysDoNotCollide` | docclassifier-week6/app/infra/cache.py:21-35 | the six kinds of key never collide, whatever the identifiers are |
| `ListPages.PagesDiffer` | docclassifier-week6/app/api/routers/batches.py:17-31 | of two readers of one key the second gets the page of the first; on every consistent database this is the page asked for if and only if both ask for the same page, and otherwise a database is given on which it is not |
| `ServiceLayer.UserService.CreateUser` | docclassifier-week6/app/services/user_service.py:39-57 | the step-by-step method (guard, insert, audit, commit or rollback, deletions in order up to a failing one) leaves database, cache and error as its transaction says |
| `ServiceLayer.UserService.ChangeRole` | docclassifier-week6/app/services/user_service.py:59-92 | the same for a role change, with the last-admin guard before the update |
| `ServiceLayer.UserService.DeleteUser` | docclassifier-week6/app/services/user_service.py:94-120 | the same for a deletion: self-delete and last-admin guards, audit entry first, then the row and the nulling of its audit references |
| `ServiceLayer.Database.DeleteUser` | docclassifier-week6/app/repositories/user_repo.py:80-86 | row by row and entry by entry: that row goes, the others stay as and in the order they were; of the audit entries only those of that user change, and only in losing their actor |
| `ServiceLayer.Database.CountByRole` | docclassifier-week6/app/repositories/user_repo.py:61-66 | a pass over the rows counts the set of users that have the role |
| `ServiceLayer.BatchService.CreateBatch` | docclassifier-week6/app/services/batch_service.py:36-54 | the same for batch creation |
| `ServiceLayer.BatchService.Transition` | docclassifier-week6/app/services/batch_service.py:67-96 | the same for a status change: not found, not allowed, or exactly one row and one audit entry changed |
| `ServiceLayer.BatchService.MarkProcessing` | docclassifier-week6/app/services/batch_service.py:98-103 | allowed from pending only |
| `ServiceLayer.BatchService.MarkDone` | docclassifier-week6/app/services/batch_service.py:105-110 | allowed from processing only |
| `ServiceLayer.BatchService.MarkFailed` | docclassifier-week6/app/services/batch_service.py:112-117 | allowed from pending and processing only |
| `ServiceLayer.PredictionService.SavePrediction` | docclassifier-week6/app/services/prediction_service.py:35-46 | the same for saving a prediction, which writes no audit entry |
| `ServiceLayer.PredictionService.Relabel` | docclassifier-week6/app/services/prediction_service.py:63-99 | the same for a relabel: class, role, existence and confidence are tested in this order |
| `ServiceLayer.CachedReads.Get` | docclassifier-week6/app/api/routers/predictions.py:34-48 | a cached read returns the entry, or reads and stores; a read that finds nothing stores nothing; what it reads is the subject of the rows below |
| `Reads.PredictionsOfOneBatch` | docclassifier-week6/app/repositories/prediction_repo.py:49-56 | on every consistent database: each prediction of the batch exactly once and no other, as many as the batch has, the newest first |
| `Reads.ListPages` | docclassifier-week6/app/repositories/batch_repo.py:40-48 | row i of a page is the (skip + i)-th newest of its table, and the page is as long as the limit and the table allow |
| `Reads.DetailViews` | docclassifier-week6/app/services/batch_service.py:56-61 | the row of the identifier asked for, and nothing exactly if there is none |
| `CallRules.CreateUserRule` | docclassifier-week6/app/services/user_service.py:39-54 | permission is denied exactly to callers who are not admins; the call commits if and only if besides the id is new, the e-mail address free and the actor there to be logged; then exactly the new row is added |
| `CallRules.ChangeRoleRule` | docclassifier-week6/app/services/user_service.py:65-88 | each error exactly when its test is the first to fail, and the call commits if and only if the actor is an existing admin, the target exists and an only admin is not demoted; then only that role changes |
| `CallRules.DeleteUserRule` | docclassifier-week6/app/services/user_service.py:94-117 | the same for a deletion, with self-deletion denied |
| `CallRules.CreateBatchRule` | docclassifier-week6/app/services/batch_service.py:36-51 | a batch can be created by anyone who exists and without a creator; it starts pending with its file count |
| `CallRules.MarkRule` | docclassifier-week6/app/services/batch_service.py:67-117 | the four moves pending-processing, processing-done, pending-failed and processing-failed commit, all others are refused; only the status changes |
| `CallRules.SavePredictionRule` | docclassifier-week6/app/services/prediction_service.py:35-41 | a prediction is saved if and only if its id is new and its batch exists, unlabelled and without an audit entry |
| `CallRules.RelabelRule` | docclassifier-week6/app/services/prediction_service.py:63-94 | admins may give any prediction one of the sixteen labels, reviewers those of confidence below 0.7, auditors none; each error exactly when its test is the first to fail |
| `CallRules.EntryRule` | docclassifier-week6/app/services/user_service.py:49-117 | the entry each call leaves at the end of the log: actor, target and payload |
| `CallRules.OwedRule` | docclassifier-week6/app/services/prediction_service.py:43-46 | key by key, which calls have to delete it |
| `CallRules.OwedOrder` | docclassifier-week6/app/services/batch_service.py:94-96 | single rows are deleted from the cache before lists, each key once |
| `CallRules.OrderRule` | docclassifier-week6/app/repositories/user_repo.py:53-59 | new rows come last, rows that stay keep their places |
| `Transactions.RunKeepsIntegrity` | docclassifier-week6/app/db/models.py:26-120 | over every run of calls: primary keys, unique e-mail addresses, and foreign keys hold; every audit actor is null or an existing user |
| `UserProperties.DemotionRule` | docclassifier-week6/app/services/user_service.py:73-78 | an existing admin may demote or delete an admin exactly when that one is not the only admin |
| `UserProperties.AdminStays` | docclassifier-week6/app/services/user_service.py:106-117 | from any state with an admin, every sequence of calls by any actors keeps an admin |
| `AuditProperties.LogStep` | docclassifier-week6/app/services/user_service.py:98-117 | a committed call adds one entry (a saved prediction none); an actor becomes null exactly when that user is deleted; the entry of a deletion names its actor |
| `AuditProperties.LogGrows` | docclassifier-week6/app/repositories/audit_repo.py:22-43 | over every run the log only grows and no field but the actor ever changes, and that only to null |
| `AuditProperties.AuditReplay` | docclassifier-week6/app/services/batch_service.py:44-92 | over every run, replaying the entries written since the start rebuilds every role and user, every status and file count, and every relabelled class; each logged old value is the replayed one |
| `BatchProperties.StatusHistory` | docclassifier-week6/app/services/batch_service.py:67-117 | over every run of any calls, the logged changes of each batch are one of the paths from pending to its present status: at most two, done and failed last |
| `BatchProperties.StatusMonotone` | docclassifier-week6/app/services/batch_service.py:98-117 | no batch is lost, no file count changes, no status goes back, done and failed are final |
| `PredictionProperties.DataNeverChanges` | docclassifier-week6/app/repositories/prediction_repo.py:79-92 | predicted class, confidence and keys never change after the save |
| `PredictionProperties.RelabelDiscipline` | docclassifier-week6/app/services/prediction_service.py:69-80 | every relabel that takes effect gives one of the classes, and if the confidence is 0.7 or more its actor was an admin, whatever comes before or after |
| `PredictionProperties.LabelHasAuthor` | docclassifier-week6/app/repositories/prediction_repo.py:79-92 | a label is that of the last relabel that took effect; otherwise it is what it was, or none |
| `PredictionProperties.RelabelLogNamesModel` | docclassifier-week6/app/services/prediction_service.py:86-94 | every relabel entry is about an existing prediction and one of the classes, and its `from` is what the model predicted, also after an earlier correction |
| `Protocol.RunIsRunOfCalls` | docclassifier-week6/app/workers/inference_worker.py:196-223 | every interleaving of requests, jobs and readers does to the database what some sequence of calls does |
| `Interleavings.EveryInterleaving` | docclassifier-week6/app/workers/inference_worker.py:196-223 | so last admin, log growth, audit replay, status history and integrity hold in every interleaving |
| `Interleavings.SeededIsOk` | docclassifier-week6/scripts/seed_admin.py:40-53 | an empty database with one seeded admin meets what the theorems ask of a start |
| `CacheAgreement.OwesWhatItChanges` | docclassifier-week6/app/services/prediction_service.py:40-46 | a committed call deletes every key whose fresh read it changes, unless that read had found nothing |
| `CacheAgreement.CacheAgrees` | docclassifier-week6/app/services/batch_service.py:53-96 | in every run in which no read is overtaken before it is stored (a commit that owes its name a deletion, then a deletion or expiry of that name), an entry that differs from a fresh read has its name among the deletions still owed, or lost to a cache failure |
| `CacheAgreement.AgreesIffNoStaleStore` | docclassifier-week6/app/api/routers/batches.py:34-51 | the exact condition over a run: agreement holds in all its states if and only if it never stores a read that was overtaken, whose value has changed since, and whose name is neither owed a deletion nor lost |
| `CacheAgreement.StoreAgreesIff` | docclassifier-week6/app/api/routers/batches.py:34-51 | at one store of a run: the cache then holds what the read found when it started, stale exactly under that condition |
| `CacheAgreement.NotOvertakenIsTimely` | docclassifier-week6/app/api/routers/batches.py:34-51 | a read that has not been overtaken is current, or its name is owed a deletion or lost |
| `CacheAgreement.AtomicReadersAgree` | docclassifier-week6/app/api/routers/batches.py:17-51 | with readers that read and store in one step this holds in every reachable state, without a condition on the schedule |
| `CacheAgreement.TimelyStays` | docclassifier-week6/app/api/routers/batches.py:34-51 | a read in waiting stays current, or owed a deletion, through every step but a deletion or expiry of its own name |
| `CacheAgreement.QuiescentCacheIsFresh` | docclassifier-week6/app/services/user_service.py:90-120 | in such a run, with no call in flight and no deletion lost, every entry is what a fresh read returns |
| `CacheAgreement.LostByFailureOnly` | docclassifier-week6/app/infra/cache.py:21-35 | deletions are lost only by calls whose deletions fail |
| `CacheAgreement.FillAgreesIffTimely` | docclassifier-week6/app/api/routers/batches.py:34-51 | one step: storing the result of an earlier read keeps agreement if and only if it is still current or a deletion of its name is still to come |
| `CacheAgreement.AtomicReadAgrees` | docclassifier-week6/app/api/routers/users.py:40-55 | a read stored at once keeps agreement and is current |
| `CacheAgreement.RacedFillIsStale` | docclassifier-week6/app/api/routers/batches.py:34-51 | such a store exists: read, commit, delete, store leaves a stale entry that nobody is going to delete |
| `JobProperties.JobsStayInStep` | docclassifier-week6/app/workers/inference_worker.py:200-223 | in every interleaving with crashes and failures, each job past its save has a prediction of its own, every new prediction has such a job, and a job that has ended leaves a closed batch |
| `JobProperties.InterleavingIndependence` | docclassifier-week6/app/workers/inference_worker.py:179-223 | when all n >= 1 jobs of a batch have ended, in any order, it has exactly n predictions, one for each; it is failed if a request to fail it took effect, and otherwise done with exactly the two changes pending to processing to done; the batch may be created on the way and other batches' jobs run beside it |
| `Interleavings.EveryBatchOfTheSystem` | docclassifier-week6/app/workers/inference_worker.py:179-223 | so it holds for every batch of every run from an empty database with one seeded admin |
| `JobProperties.JobGetsThrough` | docclassifier-week6/app/workers/inference_worker.py:200-223 | whatever the status of its batch and however far its siblings are, a job whose transactions can be carried out gets through its three calls |
| `JobProperties.RequestTakesEffect` | docclassifier-week6/app/services/batch_service.py:112-117 | a request for any call of the API takes effect if its transaction commits, and leaves its deletions owed |
| `JobProperties.OnlyRequestsFail` | docclassifier-week6/app/services/batch_service.py:112-117 | a batch is failed exactly when a request to mark it so took effect |
| `JobProperties.PredictionsAtAnyTime` | docclassifier-week6/app/workers/inference_worker.py:206-217 | at any moment the predictions of a batch are those of its jobs past their save |
| `JobProperties.DoneHasAPrediction` | docclassifier-week6/app/workers/inference_worker.py:219-223 | a batch that became done has at least one prediction |
| `JobProperties.CompleteIffAllSaved` | docclassifier-week6/app/workers/inference_worker.py:206-217 | at any moment a batch has as many predictions as jobs if and only if every one of its jobs is past its save |
| `JobProperties.DoneIsCompleteIff` | docclassifier-week6/app/workers/inference_worker.py:219-223 | the step that closes a batch is the last call of one of its jobs, and the batch is complete then if and only if every other job of it is past its save |
| `JobProperties.FirstJobClosesBatch` | docclassifier-week6/app/workers/inference_worker.py:181-183 | the condition can fail: the first of two jobs closes the batch while the other has not begun |
| `Worker.InferenceWorker.PersistAsync` | docclassifier-week6/app/workers/inference_worker.py:160-226 | three service calls in a row; a refused transition is swallowed, any other error stops the job |
| `Worker.InferenceWorker.Classify` | docclassifier-week6/app/workers/inference_worker.py:63-124 | the object store only gets the overlay, and the database what the three calls do with the data read from the job's key; a download, prediction, drawing, upload or call that raises, for whatever reason, ends the job without the later steps |
| `Worker.PersistIsThreeSteps` | docclassifier-week6/app/workers/inference_worker.py:196-223 | an undisturbed worker does to the database what the first steps of its job do in the interleaved protocol, up to a call that fails or whose cache deletion raises; with no error these are all three and the job has ended |

## Left out

- The neural network, image decoding and overlay drawing: `predict` and `draw` are parameters about which nothing is assumed.
- HTTP, JWT, password hashing, Casbin: the permission check of the upload endpoint is a boolean of the request; users have no password, activity flag or creation time.
- Database races inside a transaction: the check-then-update code takes no row locks, and the model takes each transaction as one step.
- Creation times: lists are in commit order, newest first.
- Floating point: confidence and times are reals; the threshold 0.7 is exact.
- Lower case outside ASCII, which no accepted extension depends on.
- RQ itself: a job is something that may start at any time and stop at any point; retries of a failed job are not modelled.
- The wait between the deletions of one call and the next call of the same job: the protocol lets a job go on before its deletions are through, which only adds interleavings.
- Process-wide singletons (`_blob`, `_model`, `_queue`), logging, presigned URLs, and repository queries no service uses: they would only add easy members.
- `seed_admin.py`, which bypasses audit log and cache: it is the reason why a run starts with an admin.
- `InMemoryCacheInvalidator`, which only records the names of deleted keys.
