# userver-filemgr: the file, media-job and configuration protocols

userver-filemgr stores uploaded files in an object store, keeps one SQL row per file, and derives
thumbnails and resized images from them with a queue of media jobs that any number of workers drain.
At first start it writes its own credentials into a `.env` file. This project models that behaviour and
proves what it promises.

`dafny verify dfyconfig.toml` checks everything.

## The parts

**The shared state and its machine.** `Tables.dfy` holds the SQL tables with their keys and cascades, the
object store, and every SQL statement as a function on them. `Protocol.dfy` is the running service as a
state machine: upload handlers, enqueueing handlers, permanent deletes, worker pools and storage
administration, interleaved at the grain of one SQL statement, one commit or one object-store call. Every
call may fail, every process may die at any point, and a failed `Put` may leave part of an object behind.
`Invariant.dfy`, `Frames.dfy` and `Preservation.dfy` give the inductive invariant and show that every step
keeps it. On top of it, over all runs from empty tables:

- `Safety.dfy`: published files can be read back, the tables stay consistent, jobs are claimed once, a
  finished job has its media row, nothing moves backwards.
- `Transactions.dfy`, `Additions.dfy` and `Commits.dfy`: every open media transaction holds exactly the part of its
  plan done so far, its statements and its commit are refused only when the file or its storage is gone, and what it
  commits is the whole plan. `Rows.dfy` says what that plan comes to in the tables, column by column.
- `Heads.dfy`: every media row has the one image, video or document row of its kind.
- `Queue.dfy`: first come first served with a bound on the waiting, and the potential `2 * pending +
  processing`.
- `Locks.dfy`: when deletes wait for the row locks of foreign keys, nothing of a transaction is refused at all.
- `Drain.dfy` and `Stopping.dfy`: what `Stop` leaves behind, and that it can always come to return.
- `Leftovers.dfy`: which objects can be left without a row, and by which steps.
- `UploadAtomicity.dfy`: an upload that runs beside everything else ends whole or not at all.
- `Sizes.dfy`: `total_size` is the number of bytes the storage can serve.

**The handlers as programs.** `Service.dfy` is the class `Server`, whose methods are the handlers, the
claim, and the image job, statement after statement, each proved against a full description of the state
it leaves. Which calls to the world outside cannot fail in an execution is a parameter, the set `sure`: the contracts
say what happens when anything may fail, and what must happen when these calls do not. `Alone.dfy` shows that the
uploads, the permanent delete and the image job of the machine, run undisturbed, lead to the same states, and
`Journey.dfy` puts them together, from an upload to its media.
`Capped.dfy` streams a body through the counting reader in any chunking. `Resizer.dfy` has the
image geometry.

**Listing and reading.** `Listing.dfy` sets the SQL visibility clause, in three-valued logic, against the
check in Go, and follows the page links.

**The rate limiter.** `RateLimit.dfy` compares the limiter that forgets idle addresses with one that does
not, call by call and over whole stretches of requests.

**The `.env` file.** `EnvValue.dfy` prints and parses values, `EnvText.dfy` splits and joins lines and
matches assignments, `EnvEdit.dfy` says what one edit leaves behind, `EnvEditor.dfy` is the class `EnvFile`
with the reader, the filter and the editor as the loops they are, `EnvLaws.dfy` has the laws, and `EnvFrame.dfy`
says for keys of any shape which updates disturb no other key.

## What is assumed

- A fresh UUID was never drawn before. In the machine that is a condition on the step that draws it; in
  `Server` ids come from a counter.
- An SQL statement that reports an error had no effect, and each statement is atomic.
- A media transaction sees its own rows and is checked against all keys again when it commits.
- The row locks of foreign keys are not modelled in `Protocol`: a delete may overtake an open media transaction,
  which is then refused, where PostgreSQL makes the delete wait. What holds in the machine holds with locks all the
  more, and `Locks.NothingIsRefused` says what they add.
- Creation times of jobs are strictly increasing, and the rows of a listing have one fixed total order.
- The type and the credentials of a storage stay as they were created.
- What follows the commit of an image job, the update of the EXIF metadata, ignores its errors; in the machine no
  panic comes after a commit.
- The MIME lookups do not fail spuriously. The code swallows such errors: a job whose lookup failed would
  finish as `done` without media, and a file would not be queued.
- The token bucket starts full, refills at its rate, holds at most a burst, and gives one token per
  accepted call. Clocks do not run backwards.
- The size the multipart parser reports for an uploaded part is the number of bytes that can be read from it, and
  a decoded image has at least one pixel.
- Strings are sequences of Unicode scalar values, that is, valid UTF-8; upper and lower case are those of
  ASCII.

## Where the code says something else

- The comment on `rollbackUploadingFile` says it is safe to call several times. It is: see
  `Service.RollbackTwice`. But it deletes the object whatever the status of the row is, so its safety rests
  on being called only before the row is published, which is `Safety.RollbackSparesPublishedFiles`.
- The comment on `CappedReader` says it fails after `Max` bytes, inclusive. A body of exactly `Max` bytes
  goes through when the reader reports the end together with the last bytes, and fails otherwise:
  `Capped.CapDecides`.
- Two rules for seeing a file disagree on a `SYSTEM` file without an owner, and page links step by a limit
  that the listing clamps. `Listing.ListedIffGettable` and `Listing.WalkEnumerates` say exactly when the
  intended law holds.
- An edit of a `.env` file is not always a fixed point: `EnvLaws.FixedPointIff`, `EnvLaws.StrayReturnIsNotFixed`.

## Model

| member | source | states |
|---|---|---|
| Tables.DropFilesKeepsIntegrity | migrations/000001_django_compatible_schema.up.sql:45-187 | Removing any set of file rows with all the cascades leaves no dangling reference and no duplicate key |
| Tables.CascadeIsExact | migrations/000001_django_compatible_schema.up.sql:88-187 | Removing file rows takes exactly their media rows and jobs, and the detail rows whose own parent rows are gone; every row that stays is unchanged |
| Tables.DeleteStorageKeepsIntegrity | internal/data/storage.go:83-93 | Deleting a storage with everything under it keeps every key |
| Tables.DeleteStorageTakesItsOwn | internal/data/storage.go:83-93 | Deleting a storage takes its row, its files with all that refers to them, and its jobs; no row of another storage and no object |
| Tables.StorageComesAndGoes | internal/data/storage.go:57-93 | A new storage is there and empty, and deleting it undoes its creation |
| Tables.UndoTakesUnpublishedOnly | internal/data/files.go:262-274 | The delete of a rollback takes an unpublished row of that storage with all that refers to it; no published row is removed and no other row, job, media row or object changes; a detail row goes exactly when one of its own parents does |
| Tables.PurgeTakesTrashOnly | internal/data/files.go:352-362 | A permanent delete takes a trashed row of that storage with all that refers to it; no other row, job, media row or object changes, a detail row goes exactly when one of its own parents does, and a row outside the trash is never taken |
| Tables.InsertMeetsKeysIff | internal/data/files.go:199-212 | A new file row meets every key exactly when its storage and its MIME type exist |
| Tables.EnqueueMeetsKeysIff | internal/data/media_jobs.go:24-32 | With ON CONFLICT in place, a job row meets every key exactly when its storage and its file exist |
| MediaKind.CategoryIff | internal/media_processor/processor.go:51-73 | A type is an image exactly when its generic name, trimmed and in either case, is image, or is not video while its MIME type starts with image/; likewise for video; it is a document exactly when neither holds and its MIME type mentions pdf; otherwise it has no category |
| Preservation.StepKeepsInv | internal/http_api/router.go:746-879 | Every step of every handler, worker and pool keeps the invariant: row, object, job, media row, program counter and claim history fit together |
| Preservation.RunKeepsInv | internal/media_worker/pool.go:40-117 | The invariant holds in every state of every run from empty tables |
| Safety.PublishedFilesAreStored | internal/http_api/router.go:797-820 | In every reachable state a published file that is not in the trash has its object, of the length in its size column |
| Safety.TablesStayConsistent | migrations/000001_django_compatible_schema.up.sql:45-187 | No reachable state has a dangling reference or a duplicate key, of any table, spelt out; that the database has to refuse hardly anything for it is the two rows of Commits below |
| Safety.ClaimedAtMostOnce | internal/data/media_jobs.go:35-56 | In a whole run each job is claimed at most once, no two workers hold the same job, and attempts is 0 exactly while pending and 1 afterwards |
| Safety.MediaInsertNeverClashes | internal/data/media.go:249-255 | Until a worker's own commit there is no media row for the file of its job, so the unique key cannot be violated |
| Safety.DoneJobsHaveMedia | internal/media_processor/processor.go:81-114 | A done job has exactly one media row for its file, of the kind that the two columns of the file's type say |
| Heads.DoneJobsHaveRows | internal/media_processor/processor.go:129-286 | In every reachable state the file of a done job has one media row, and that row one row of its own, for exactly the kind that the two columns of its type say: an image its image row, a video its video row, a document its document row |
| Safety.SuccessMeansMedia | internal/media_worker/pool.go:93-104 | When processing returns without error the media row is there, or the file is gone |
| Safety.RollbackSparesPublishedFiles | internal/http_api/router_upload_cleanup.go:11-21 | A rollback never finds its row published, so it never deletes an object that a published row points to |
| Safety.StepsOnlyMoveForward | internal/data/files.go:239-260 | No step turns a published row back, changes its size, key or type, takes a row out of the trash, or moves a job other than pending to processing to done or failed |
| Transactions.RunKeepsTxInv | internal/media_processor/processor.go:173-199 | In every run each open transaction holds exactly the rows of the part of its plan done so far, and row ids are drawn once |
| Commits.InsertsRefusedIff | internal/data/media.go:249-338 | In every reachable state of the model, where deletes do not wait for row locks, the insert of a media row is refused exactly when the file is gone, that of a derived file exactly when the storage is gone, and that of a link never while the file is there |
| Commits.CommitRefusedIffFileGone | internal/media_processor/processor.go:173-199 | In every reachable state of the model, where deletes do not wait for row locks, the commit of an open media transaction is refused exactly when the file of its job has been deleted; no unique key is ever in its way |
| Commits.CommitAddsThePlan | internal/media_processor/processor_image_tx.go:19-127 | In every run, whatever runs beside it, a commit adds exactly the rows of its job, column by column: one media row of the kind that the type of the file says, its detail row, and for an image one published file with its stored object and one link for each configured box that fits, in order, with the computed sides, tag and key, and then for the small, the medium and the large thumbnail |
| Rows.MergeMakesMedia | internal/media_processor/processor_image_tx.go:19-127 | What the plan of a job comes to in the tables, said without the plan: the boxes whose target for the shorter side fits the original, in order, their sides to the nearest pixel, tag and key by the highest threshold passed, and then the three thumbnails; nothing else is added |
| Locks.NothingIsRefused | migrations/000001_django_compatible_schema.up.sql:98-187 | When deletes wait for the rows an open media transaction refers to, the file and the storage of its job stay, and no key ever refuses its commit or any of its inserts |
| Queue.NobodyOvertakes | internal/data/media_jobs.go:35-56 | While a job waits, no step adds to the older pending jobs, and every claim that passes it by removes one |
| Queue.WaitsForOlderJobsOnly | internal/data/media_jobs.go:35-56 | While a job waits, successful claims plus older jobs left never exceed the older jobs at the start, whatever is enqueued meanwhile |
| Queue.ClaimedInTurn | internal/data/media_jobs.go:35-56 | With k older pending jobs, claim k + 1 at the latest takes the job, unless its row went away |
| Queue.LoadAccounts | internal/media_worker/pool.go:67-106 | 2 * pending + processing falls by one on every claim and every final write, rises by two on an insert, and never rises otherwise |
| Drain.StopDrains | internal/media_worker/pool.go:54-61 | Once Stop has returned every job the pool claimed is done or failed, panics included, if none of its own workers was killed and its own final writes succeeded; other pools may die or lose their writes |
| Drain.StopLeavesNoWorkers | internal/media_worker/pool.go:54-61 | Once Stop has returned no worker of the pool is live, in any run |
| Stopping.OwnStepsWindDown | internal/media_worker/pool.go:67-107 | Every step of a worker of a stopping pool brings it closer to its end in an order without infinite descent |
| Stopping.StopCanReturn | internal/media_worker/pool.go:54-61 | From every state in which a pool is stopping, steps of its own workers alone bring Stop to return, whatever the tables and the object store hold |
| UploadAtomicity.UploadSettles | internal/http_api/router.go:746-824 | From its insert on, an undisturbed upload is in flight, landed with its object, or gone with its object, whatever runs beside it |
| UploadAtomicity.UploadAllOrNothing | internal/http_api/router_stream_upload.go:111-145 | When the handler is done there is a published row with its object, or neither, whichever call failed |
| Leftovers.StepAccounts | internal/http_api/router_upload_cleanup.go:11-21 | An object is without a row after a step exactly when it was before and was not deleted, or the step is one of the named causes |
| Leftovers.LeftoversHaveACause | internal/media_processor/processor_image_tx.go:54-70 | In every reachable state an object without a row was left behind by a late Put of an upload, by a rollback or a permanent delete that took only the row, by an image job that failed or died, or by the deletion of its storage |
| Sizes.TotalSizeIsReadableBytes | internal/data/storage.go:45-55 | In every reachable state total_size is the sum of the object lengths over the published rows outside the trash |
| Sizes.PublishAddsStoredBytes | internal/data/files.go:253-260 | Publishing adds exactly the bytes that Put stored, and nothing if the row is in the trash or gone |
| Sizes.SoftDeleteSubtracts | internal/data/files.go:239-251 | A soft delete subtracts the size of the row once |
| Sizes.PermaDeleteIsFree | internal/data/files.go:352-362 | A permanent delete changes the total of no storage |
| Sizes.UndoUploadIsFree | internal/data/files.go:262-274 | Undoing an upload changes the total of no storage |
| Sizes.BeginUploadIsFree | internal/data/files.go:199-212 | An upload in flight counts zero bytes |
| Service.Server.PutStream | internal/object_store/factory.go:87-107 | On success the whole body is stored and the counter is its length; on failure only the one key may differ; if the store works, it succeeds exactly when the body ends unbroken within the cap, and otherwise leaves no object |
| Service.Server.RollbackUploadingFile | internal/http_api/router_upload_cleanup.go:11-21 | Object first, then row, each as far as its delete succeeds, and each attempted |
| Service.RollbackTwice | internal/http_api/router_upload_cleanup.go:9-21 | Rolling back twice is rolling back once; exactly the unpublished row goes, every other row stays as it was |
| Service.Server.MaybeEnqueueMedia | internal/http_api/router.go:917-929 | Queues a published file of a kind without media, as the youngest pending job, at most one per file, and nothing else; if its calls work, exactly then |
| Service.Server.PublishOrUndo | internal/http_api/router.go:807-820 | After Put: the row is published with its size, and is so if the update works, or the rollback restores the state before the insert if its two deletes succeed |
| Service.Server.DeleteFile | internal/http_api/router.go:410-436 | Puts exactly one row into the trash and changes nothing else; on failure nothing changes; if its calls work it fails only when the row is not there |
| Service.Server.UploadMultipart | internal/http_api/router.go:746-824 | One more published row and one more object with the given bytes, or the state before, or exactly what the rollback's own failed deletes leave; if the calls work it is accepted unless the storage or type is missing, and queued exactly if its type has a kind |
| Service.Server.UploadFromUrl | internal/http_api/router_stream_upload.go:85-145 | The same for a streamed body; the stored size is the reader's counter, which is the length of the whole body and at most the cap |
| Service.Server.PermaDelete | internal/http_api/router.go:471-509 | Removes the object and then the row with exactly its cascade on success, no row on failure, and touches no object of another file; if its calls work it fails only when the row is not in the trash, and the object is gone |
| Service.Server.ClaimMediaJob | internal/data/media_jobs.go:35-56 | Claims the oldest pending job, or nothing, and that only when the query fails or nothing is pending |
| Service.Server.WriteStatus | internal/data/media_jobs.go:59-75 | The job ends done or failed with an error text that is a prefix of the message of at most 8000 bytes, no other row changes; a failed write changes nothing |
| Service.Server.InsertDerived | internal/media_processor/processor_image_tx.go:54-70 | Insert, store, link: on success the transaction holds one more derived file whose object is stored |
| Service.Server.InsertSizedImageRows | internal/media_processor/processor_image_tx.go:19-74 | One derived file per box that does not upscale, in configuration order, with the computed size and tag |
| Service.Server.InsertThumbnailRows | internal/media_processor/processor_image_tx.go:76-127 | One thumbnail per spec, in order, after the sized images |
| Service.Server.ProcessImage | internal/media_processor/processor.go:129-202 | Commits one media row, one image row, one resized copy for each box that fits and the three thumbnails, each on its own stored derived file, as literal rows; on any failure no table changes; if no call fails and there is no media it succeeds |
| Service.Server.ProcessPlain | internal/media_processor/processor.go:264-286 | A video or document job commits one media row and one detail row, or nothing; if no call fails and there is no media it succeeds |
| Plan.TaskRows | internal/media_processor/processor.go:173-199 | The rows of a job, counted and located: one media row, its detail row, one file row and one link per derived image, nothing else |
| Service.Server.Process | internal/media_processor/processor.go:81-114 | An error leaves every table alone; success means media of the kind that the type says, made now or before, unless nothing can be made of the file; if no call fails it succeeds exactly when the file has media or is there |
| Service.Server.RunNextJob | internal/media_worker/pool.go:67-117 | The oldest job is tried once and ends done, failed, or in progress if the last write failed; its row says what processing returned, unless that panicked; done means media; no other job row changes |
| Alone.UploadAlone | internal/http_api/router.go:794-820 | Insert, store and publish, taken in a row in the machine, give exactly the state the handler's contract names |
| Alone.UndoAlone | internal/http_api/router_upload_cleanup.go:11-21 | Insert, fail, roll back in the machine leave what the handler's contract names, and the state before when both deletes succeed |
| Alone.PurgeAlone | internal/http_api/router.go:471-509 | Load, delete the object, delete the row, taken in a row in the machine, leave what the handler's contract names |
| Alone.TrashAlone | internal/data/files.go:239-251 | A soft delete in the machine flags exactly the row it names, if it is there and not flagged |
| Alone.ImageJobAlone | internal/media_processor/processor.go:129-202 | From any reachable open transaction whose file is there, and for any bytes the encoder yields, the worker can go on by itself to a commit of the whole plan, which is what the contract of ProcessImage names; the objects of the derived files hold exactly those bytes, in order, and every older object stays as it was |
| Journey.QueueAlone | internal/http_api/router.go:917-929 | A handler whose upload is published and can be queued leads to a new pending job for it, and to nothing else |
| Journey.PatchAlone | internal/http_api/router.go:405-408 | A patch of a file that can be queued does the same |
| Journey.JobFinds | internal/media_processor/processor.go:81-114 | Before it reads any bytes a job is finished at once if its file has media or nothing can be made of it, fails if the file is not there, and otherwise is ready for exactly the kind of the file |
| Journey.JobAlone | internal/media_worker/pool.go:67-107 | A worker about to claim the next job, if its file can be processed, leads on its own steps to the job done and the media of the file made, with the objects of its images holding the encoder's bytes |
| Journey.FromUploadToMedia | internal/http_api/router.go:794-820 | From any reachable state with an idle worker and an empty queue, an upload of a type that has a kind can run through to its media |
| Capped.CappedReader.Read | internal/urlfetch/capped.go:15-32 | Delivers the next bytes of the source, counts them, and never counts past the cap |
| Capped.Copy | internal/object_store/factory.go:96-106 | For every body and chunking: a prefix as long as the counter; success exactly when the end was seen within the cap, and then the whole body |
| Capped.CapDecides | internal/urlfetch/capped.go:15-32 | Shorter than the cap succeeds, longer fails with exactly the cap delivered, equal succeeds just when the end came with the last bytes |
| Resizer.AspectIsKept | internal/media_processor/image_resizer.go:106-115 | The shorter side is the box's, exactly; the longer is within half a pixel of the true aspect |
| Resizer.OrientationIsKept | internal/media_processor/image_resizer.go:106-115 | Portrait stays portrait, landscape stays landscape |
| Resizer.LargerBoxLargerImage | internal/media_processor/image_resizer.go:106-115 | A larger box never gives a smaller image |
| Resizer.GuardSkipsUpscalingOnly | internal/media_processor/processor_image_tx.go:20-24 | The guard fires exactly when the target of the shorter side exceeds the original; what passes has positive sides no larger than the original |
| Resizer.LargerBoxLargerTag | internal/media_processor/image_resizer.go:117-134 | A larger box never gets a smaller tag |
| Listing.GetFile | internal/data/files.go:188-197 | Returns the row with the id if it is there and the viewer may see it, and nothing otherwise: an admin sees all, a viewer without a true grant nothing, every other one the public files, their own, and those of other systems |
| Listing.ListedIffGettable | internal/data/files.go:85-101 | The SQL clause and the Go check agree on a row exactly when it is not an ownerless SYSTEM file in a readable storage; every gettable row is listed |
| Listing.ShownIff | internal/data/files.go:69-186 | On the contents of the database: a single read gives exactly what the viewer sees, the listing that and the SYSTEM files nobody owns |
| Listing.OrphanIsListedNotGettable | internal/data/files.go:161-186 | A concrete row that is listed and cannot be read |
| Listing.ListFiles | internal/data/files.go:69-123 | The count is that of all rows shown to the viewer and the items are the clamped page of them, in order; without a true grant and admin rights both are empty |
| Listing.WalkEnumerates | internal/http_api/router.go:887-905 | Following the next links from the start gives every row once, in order, exactly when the limit is at most 500 or everything fits on one clamped page |
| Listing.WalkMatchesGetFile | internal/data/files.go:69-197 | The walk yields, each once, exactly the files a single read grants and the ownerless SYSTEM files |
| RateLimit.IpRateLimiter.Allow | internal/http_api/middleware_ratelimit.go:40-59 | Unless something was evicted, and if a burst refills within the idle limit, every decision is that of a limiter that never forgets; never more than 8000 entries |
| RateLimit.Admit | internal/http_api/middleware_ratelimit.go:40-69 | Over any stretch of requests the limiter of the service lets through, per address, exactly as many as one that never forgets, hence at most a burst plus rate times the length of the stretch, unless something was evicted and if a burst refills within the idle limit |
| RateLimit.PatientIsServed | internal/http_api/middleware_ratelimit.go:40-69 | An address that calls no more often than the rate yields tokens is never refused, whatever the others do |
| RateLimit.CallInNumbers | internal/http_api/middleware_ratelimit.go:40-59 | One call in numbers: idle limit, refill, burst, the token taken, and the time last seen |
| RateLimit.IdleBucketIsFull | internal/http_api/middleware_ratelimit.go:46-50 | A bucket dropped for idleness would have been full |
| RateLimit.ForgettingIsHarmlessIff | internal/http_api/middleware_ratelimit.go:46-50 | Forgetting idle addresses changes how many calls somebody gets through, for some calls, exactly when rate * 1200 s is less than the burst |
| RateLimit.ForgettingShows | internal/http_api/middleware_ratelimit.go:46-50 | Below that threshold, the calls that show it: a burst, a wait just over the idle limit, and another burst |
| EnvValue.ParseEnvValue | internal/userver_auth/envpersist.go:14-41 | The reader's loop computes the value that undoing the escapes gives |
| EnvValue.ParseIs | internal/userver_auth/envpersist.go:14-41 | What is read between two quotes is undone escape by escape; what is not is read as it is, less the space around it |
| EnvValue.UnescapeIs | internal/userver_auth/envpersist.go:19-37 | Exactly four escapes are undone; any other backslash, and every other character, stands for itself |
| EnvValue.FormatEnvValue | internal/userver_auth/envpersist.go:102-132 | The printer's loops quote exactly the values with a special character and escape every character on its own |
| EnvValue.FormatIs | internal/userver_auth/envpersist.go:102-132 | A value is written bare exactly when it is not empty and has no ASCII space or control and none of # " ' = $; four characters are escaped, each in its own way |
| EnvValue.UnescapeUndoes | internal/userver_auth/envpersist.go:14-41 | Undoing the escapes of any escaped text gives the text back, whatever follows it |
| EnvValue.RoundTrip | internal/userver_auth/envpersist.go:102-132 | Printing and parsing gives a value back exactly when it is quoted or neither starts nor ends with a space |
| EnvValue.FormatHasNoLineBreak | internal/userver_auth/envpersist.go:102-132 | What is printed contains neither a line feed nor a carriage return |
| EnvValue.ParseIgnoresReturn | internal/userver_auth/envpersist.go:14-16 | A trailing carriage return never changes the value that is read |
| EnvText.LinesOfUnlines | internal/userver_auth/envpersist.go:201-211 | Writing lines and splitting them again gives them back, less one carriage return at the end of each, unless they are a single empty line |
| EnvText.LinesOfPieces | internal/userver_auth/envpersist.go:58-63 | The lines of any text: it falls into lines each ended by LF or CRLF, the last one perhaps by nothing, and these are its lines; only a single empty line is lost |
| EnvText.LinesOfAnyText | internal/userver_auth/envpersist.go:58-63 | Every text falls into such lines |
| EnvText.FinalBreakIsOptional | internal/userver_auth/envpersist.go:58-63 | The last line counts with or without a line feed at the end of the file |
| EnvText.MatchLineIff | internal/userver_auth/envpersist.go:11-11 | A line matches the pattern with a key and a value exactly when it is the key, an equals sign and the value, and the key is well formed |
| EnvText.KeyIff | internal/userver_auth/envpersist.go:11-11 | A key is well formed exactly when it consists of ASCII letters, digits and underscores and does not start with a digit |
| EnvText.LookupIff | internal/userver_auth/envpersist.go:63-75 | A reader finds for a key exactly what the last line that assigns it says |
| EnvText.SkippedLinesDoNotMatch | internal/userver_auth/envpersist.go:63-71 | Skipping blank lines and comments skips no assignment |
| EnvEdit.EveryKeyOnce | internal/userver_auth/envpersist.go:143-182 | After an edit every updated key has exactly one line, every other key as many as before |
| EnvEdit.OtherLinesKept | internal/userver_auth/envpersist.go:143-162 | All other lines stay, byte for byte and in order |
| EnvEdit.FirstPlaceKept | internal/userver_auth/envpersist.go:143-162 | An updated key stands where its first old line stood |
| EnvEdit.NewKeysAtEnd | internal/userver_auth/envpersist.go:164-182 | An updated key without an old line stands after all old lines |
| EnvEdit.EditAgain | internal/userver_auth/envpersist.go:143-182 | Editing an edited file again gives the same lines, less one carriage return each |
| EnvEditor.MergeLines | internal/userver_auth/envpersist.go:143-162 | The loop over the lines builds the merged text and the set of written keys |
| EnvEditor.AppendMissing | internal/userver_auth/envpersist.go:164-182 | Appends every updated key that is not yet written, once, the four well-known ones first and in order |
| EnvEditor.EnvFile.ReadLast | internal/userver_auth/envpersist.go:49-76 | The map holds exactly the keys the file assigns, each with its last value |
| EnvEditor.EnvFile.FilterUpdates | internal/userver_auth/envpersist.go:79-99 | Keeps exactly the non-empty updates whose key has no real value in the file |
| EnvEditor.EnvFile.Upsert | internal/userver_auth/envpersist.go:185-212 | The file after an edit, or the old file if a read or write failed or nothing was to be written |
| EnvEditor.EnvFile.Persist | internal/userver_auth/envpersist.go:216-246 | One run: the filter, then the edit; the old file when skipped or on any failure |
| EnvLaws.ReadAfterWrite | internal/userver_auth/envpersist.go:185-212 | For any old text, every non-empty update reads back, as itself exactly if it survives printing, and every other key reads as before |
| EnvLaws.UpsertShape | internal/userver_auth/envpersist.go:143-212 | The written text is these lines: one per updated key, at its first old place or else after all old lines, missing well-known keys first and in their order, and all others in their old order around them |
| EnvLaws.FirstFile | internal/userver_auth/envpersist.go:164-182 | The file of a first start: four lines, in the fixed order, each a key, an equals sign and the printed value |
| EnvLaws.FixedPointIff | internal/userver_auth/envpersist.go:185-212 | Running the same edit again changes nothing exactly when no untouched line ends in a stray carriage return |
| EnvLaws.StrayReturnIsNotFixed | internal/userver_auth/envpersist.go:185-212 | A text on which the same edit twice is not the same as once |
| EnvLaws.MalformedKeyLeaks | internal/userver_auth/envpersist.go:11-11 | Why keys must be well formed: updating a key that ends in an equals sign changes another key |
| EnvFrame.FrameIff | internal/userver_auth/envpersist.go:143-212 | For updates with keys of any shape: every other key reads as before, whatever the file held, exactly when no written line assigns a key that is not being updated |
| EnvFrame.HarmShows | internal/userver_auth/envpersist.go:143-212 | Any update that writes such a line disturbs another key already in an empty file |
| EnvLaws.SingleRun | internal/userver_auth/envpersist.go:79-99 | A run, key by key: a real old value stays, otherwise a non-empty update wins, otherwise the old value stays |
| EnvLaws.ProtectedIff | internal/userver_auth/envpersist.go:43-46 | A value is left alone exactly when it is more than white space and does not have both brackets of a placeholder |
| EnvLaws.FirstWriterWins | internal/userver_auth/envpersist.go:216-246 | Over any runs with any updates, a value that is neither blank nor a placeholder never changes again |
| EnvLaws.FirstValueStays | internal/userver_auth/envpersist.go:216-246 | The first real value a run supplies is what every later reader gets |

## Left out

- Safety.PublishedFilesAreStored: speaks about files whose status is published; objects without a row are the subject of Leftovers.LeftoversHaveACause, and nothing in the service ever collects them.
- Drain.StopDrains: says what holds once Stop returns, for a pool none of whose workers was killed with a job in hand (nothing takes up such a job again).
- Stopping.StopCanReturn: says that Stop can return, not that it must, which needs a fair scheduler and calls that end.
- UploadAtomicity.UploadAllOrNothing: assumes that nobody deletes the file or its storage meanwhile, that the process survives, and that the rollback's own two deletes succeed; without these a row or an object can be left over.
- RateLimit.IpRateLimiter.Allow: promises equal decisions only as long as nothing was evicted; the entry that goes at 8001 is an arbitrary one, as in the source, and it may be the caller's own.
- EnvLaws.ReadAfterWrite: requires well-formed keys, because a malformed one can be read back as a different key; the service itself writes four fixed, well-formed keys, and EnvFrame.FrameIff has the exact condition of the frame for keys of any shape.
- Service.Server.UploadMultipart: stores the length of the data as the size; the source stores the size the multipart parser counted for the part, and does not count again what Put copied.
- Resizer.AspectIsKept: exact arithmetic, so the rounding of float64 factors is not modelled.
- Listing.WalkEnumerates: unbounded integers, so the overflow of offset plus limit near the largest int is not modelled.
- `Protocol` takes the begin of a media transaction and its first two inserts as one step; no other process can tell, since nothing of a transaction shows before its commit.
- `Server` methods run one after another; interleaving is the subject of `Protocol`, and the loop of a worker is one round there and in `Server.RunNextJob`.
- A failed write of the `.env` file is taken to leave the old file; a write that stops half way is not modelled, nor is which file the environment variables select.
- Invalid UTF-8 in the `.env` file, and upper and lower case outside ASCII.
- The parsing of the image sizes in a storage's configuration, EXIF fields, video probing and image decoding: functions that return some value or fail.
- The object-store keys of S3, presigned links, and the mapping of keys to paths on disk.
- HTTP routing, authentication, audit, CORS, URL and address filtering, downloads and their expiry.
- Changes to the type or the credentials of a storage: objects stored before become unreachable.
- File metadata other than the columns the protocol depends on, and the media listing.
