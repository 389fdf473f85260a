# A verified model of the chunked document converter

The service turns documents into paged markdown. An API process hashes a document, plans page
ranges ("chunks"), writes one job row and its chunk rows, and publishes one message for each chunk.
A fleet of workers converts chunks, stores each as a part, counts it, and whichever worker gets 0
back from the count assembles the parts, paginates them, stores the pages and a manifest, records
the document and finishes the job. The processes share a database, an object store and a broker
that delivers at least once, and nothing else.

The project models that service in Dafny and proves what it promises, for every run:

* **The protocol** is a transition system (`Protocol`) over any number of workers, API processes,
  documents and jobs, several jobs on one document included. Every database statement or
  transaction, every object put or get and every publish is one step, and the steps of different
  processes interleave freely. Messages are delivered in any order, redelivered while their first worker is
  still running, and duplicated by a reconnecting publisher; conversions, assemblies and handlers raise;
  processes die anywhere; objects expire at any time.
* **Every promise is an invariant or a theorem about whole runs**: `Integrity` (what is stored is what one
  sequential conversion gives), `Lifecycle` (statuses, and the one assembler), `Availability` (reading back),
  `Counter` (what the counter counts), `NoLostJob`, `Failures`, `Attempts`, `Settling` (from every state a job
  can be settled, in a number of steps that the state tells).
* **The programs are there too.** `JobStore`, `Services`, `Worker`, `Api`, `TaskQueue` and `SourceCache` hold classes
  whose methods change the database, the store and the broker in place, call by call, as the source does, and any
  call may raise. `Worker.Handle` and `Api.Submit` are proved to be paths of the transition system, so the theorems
  about its runs are about them. Publishing goes through the declared broker topology, so whether a retry arrives
  or is dropped is a consequence of the routing. `Outcomes` says what one message and one request come to, in terms
  of what was stored before and is stored after.
* **Pagination** (`Pagination`, `PageLayout`) is the source's nested loop, proved against a specification whose
  conservation, bounds and optimality are theorems. `Sequential` puts chunk planning, conversion, assembly and
  pagination together into the reference that the distributed service is compared with.
* **Where a promise does not hold as stated, `Boundaries` and `Finality` say exactly when it does**, as a condition on
  the deployment or on the run, and build the runs that break it otherwise (`Scripts`).

`convert` (a page range of a file, with or without the LLM, to markdown) and `pageCount` are arbitrary fixed
functions; hashes are taken to be collision-free, so that a file hash stands for the bytes and a document key
under one configuration is a file hash with the LLM flag.

`dafny verify dfyconfig.toml` checks everything.

## Findings

A deployment is *routable* if retries have a tier to go to (the list of delays is not empty) or there are no retries
(at most one attempt). By the declared topology a retry reaches a queue exactly when there is a delay
(`Services.RetriesFollowTheTopology`). A run is *fail-stop* for a job if, before the job is settled, no handler of the
job raises outside its own `try` blocks and no worker dies between getting 0 back and settling it.

* **A chunk can be counted twice.** `fail_chunk` (jobstore.py:197-206) has no guard against a chunk that is
  already done. A copy of a finished chunk's message that uses up its attempts undoes the row, a further copy
  counts it again, and `complete_chunk` returns 0 while another chunk was never converted
  (`Boundaries.CountedTwice`, for every routable deployment and every document of two or more chunks). In every run, the
  chunks not done when 0 is returned are exactly as many as were undone before (`Counter.ZeroMeansAllDone`); a returned 0 means all
  done in all runs of a deployment exactly when no document has two chunks or the deployment is not routable
  (`Boundaries.ZeroIsExactWhen`). The stored content stays right even then (`Integrity.InvAlways`): `assemble` checks every part.
* **A job can be lost** although nothing raises: if the worker that got 0 back dies before it has settled the job, the
  redelivered message finds its chunk done and the job runs for ever (`Boundaries.CrashLosesJob`). A handler that
  raises loses its message, and the job with it if no other copy is in flight (`Boundaries.RaiseLosesJob`). Exactly, and in
  all runs: a job with nothing in flight that has not failed is done if and only if some `complete_chunk` of it returned 0 and its caller
  neither died nor raised while concluding the unsettled job (`NoLostJob.DoneExactlyWhen`).
* **Runs that are fail-stop for a job never lose it exactly when** the deployment is routable and no document has an
  empty plan (`Boundaries.NeverLosesExactly`). With an empty list of retry delays, `retry_queue_name` gives tier 0, which is
  never declared, and the broker drops the retry. A plan is empty exactly for a document of zero pages with a
  threshold of zero or less (`Chunker.PlanIsEmpty`); such a job stays queued.
* **`failed` is not final**, and a job that went from failed to done keeps its error
  (`Finality.FailedThenDone`): `finish_job` has no status guard and does not clear the column. The description of the
  field at api/index.py:114 ("Set only when status is failed.") does not hold. A deployment keeps failed jobs failed, and likewise
  has errors only on failed jobs, in all its runs exactly when it is not routable or has no document with a chunk
  (`Finality.FailedIsFinalExactly`); a failed job that no worker is assembling stays failed in any deployment
  (`Finality.UnassembledStaysFailed`).
* **Two configurations can share a fingerprint**: two different versions have settings with one text exactly when one of
  them is the other followed by `|llm`, or by `|llm|` and anything (`Keys.VersionsCollideExactly`). Under one version, and
  for versions without the separator, the text determines every setting. A valid package version (PEP 440) holds no
  `|`, so no two releases of the converter collide.
* **A fetched source can be deleted before it is used**: `fetch_source` prunes after storing and returns the path all the
  same. A source larger than the budget is always gone; in general the new file stays exactly when it and everything after
  it in (atime, size, path) order fit (`SourceCache.Cache.Fetch`), so on a tie of access times even one that fits can go
  (`SourceCache.TieLosesTheNewFile`).
* **Progress can show 100 percent with work left**, exactly when at most one chunk in two hundred is left
  (`JobStore.HundredWithWorkLeft`).
* The repository's README.md:30-47 (the table is the queue, leases) and the docstring at jobstore.py:96-101
  (inserting the rows is the enqueue) describe another design than the code. The model follows the code.

## Model

| member | source | states |
|---|---|---|
| `Integrity.InvStep` | worker.py:124-219 | every step of every process, and every fault, keeps the content invariant: stored objects, document rows, messages and whatever a worker or API process has in hand agree with the sequential conversion |
| `Integrity.InvAlways` | storage.py:187-221 | hence in every reachable state every stored part, page and manifest and every document row is that of one sequential conversion, under any interleaving, duplication, crash, expiry, or race of jobs on one document |
| `Lifecycle.RunEvolves` | jobstore.py:131-194 | along every run rows never disappear, `done` is final, `queued` is never entered again, `failed` is left only for `done`, the counter never grows |
| `Lifecycle.ZeroOnce` | jobstore.py:221-264 | at most one `complete_chunk` call of a job ever returns 0, in all runs |
| `Lifecycle.OneAssembler` | worker.py:184-196 | at any time at most one worker assembles a job |
| `Lifecycle.AssemblerGotZero` | worker.py:184-191 | an assembling worker got 0 from its own call and has been assembling ever since |
| `Lifecycle.ConcluderGotZero` | worker.py:184-196 | a worker that is failing the job after an assembly error is the one that got 0 as well |
| `Lifecycle.FinishOnce` | worker.py:154 | `finish_job` is called at most once for a job |
| `Lifecycle.FailedLeftByAssembler` | jobstore.py:144-148 | `failed` is left only for `done`, and only by the worker that received 0 |
| `Lifecycle.DoneIsRecorded` | worker.py:145-154 | a done job has its document row, with the file, the numbers of pages and chunks, the length and the page size of the sequential conversion |
| `Lifecycle.DeadAssemblerIsNotReplaced` | worker.py:184-196 | when the worker that received 0 dies before `finish_job`, in `assemble` or between an assembly error and `fail_job`, or gives up there on a call that raises, the job is not done in any later state of any run |
| `Counter.CounterCountsUnfinished` | jobstore.py:172-264 | in all runs, an active job has as many chunks not done as its counter says, plus the number of times `fail_chunk` hit a finished chunk of that job |
| `Counter.ZeroMeansAllDone` | jobstore.py:221-264 | in all runs, when 0 is returned as many chunks are not done as were undone before; every chunk is done if and only if none was |
| `Counter.ProgressInRange` | jobstore.py:131-141 | the counter of every job, settled or not, is at most the total and at least minus the number of times a finished chunk was undone, so progress lies between 0 and the total where none was |
| `NoLostJob.LostAlways` | worker.py:158-219 | the inductive invariant, job by job: as long as no handler of the unsettled job raises and no worker dies concluding it, every chunk sent has been counted or has a message in flight, and a used-up counter means a worker is concluding the job |
| `NoLostJob.NoJobIsLost` | api/index.py:194-212 | under the same hypotheses, whatever happens to other jobs or after the job is settled, a published job with nothing in flight is done or failed if and only if its plan has a chunk |
| `NoLostJob.DoneExactlyWhen` | worker.py:184-196 | in all runs, whatever raises, dies or is dropped: a job with nothing in flight that has not failed is done if and only if some `complete_chunk` of it returned 0 and its caller neither died nor raised while concluding the unsettled job |
| `NoLostJob.DoneUnlessConcluderDied` | worker.py:158-219 | in a routable deployment, where no handler of the unsettled job raises, a published job with a chunk, with nothing in flight and not failed, is done if and only if no worker died concluding it |
| `NoLostJob.EmptyPlanIsStuck` | chunker.py:56-59 | a job whose plan is empty is queued in every state of every run |
| `Boundaries.NeverLosesExactly` | taskqueue.py:74-77 | no run that is fail-stop for a job loses it, for all runs and jobs of a deployment, if and only if the deployment is routable and every plan has a chunk |
| `Boundaries.NeverLosesByTopology` | taskqueue.py:115-153 | the same with the declared topology in place of the settings: every retry reaches a queue, or there are none |
| `Boundaries.LosingRun` | taskqueue.py:194-199 | for every document with an empty plan, and for every document of a deployment that is not routable, a run without a death or a raising handler that loses its job |
| `Boundaries.CrashLosesJob` | worker.py:184-196 | for every document with a chunk, a run without a raising handler in which all chunks are done and counted and the job is running with nothing in flight |
| `Boundaries.RaiseLosesJob` | taskqueue.py:247-253 | for every document with a chunk, a run without a death in which a single handler raises and the job is lost with its acknowledged message |
| `Boundaries.CountedTwice` | jobstore.py:197-206 | for every routable deployment and every document with two or more chunks, a run without a death or a raising handler in which 0 is returned while a chunk is not done |
| `Boundaries.ZeroIsExactWhen` | jobstore.py:197-264 | a returned 0 means all chunks done in all runs of a deployment if and only if no plan has two chunks or the deployment is not routable |
| `Finality.AssembleOn` | worker.py:124-155 | from every state that satisfies the content invariant, a worker left alone with all parts stored gets to the recorded document |
| `Finality.FailedThenDone` | worker.py:210-215 | for every routable deployment and every document with a chunk, a run without a death or a raising handler in which a failed job becomes done and keeps its error |
| `Finality.FailedIsFinalExactly` | jobstore.py:144-167 | failed jobs stay failed in all runs of a deployment, and likewise errors are found on failed jobs only, if and only if the deployment is not routable or no document has a chunk |
| `Finality.UnassembledStaysFailed` | jobstore.py:221-264 | in every deployment, a failed job that no worker is assembling stays failed in every continuation |
| `Failures.FailureIsJustified` | worker.py:191-215 | a failed job names its reason, and a message of that chunk on its last attempt is on the failed queue, or a worker assembling the job did run into an error |
| `Attempts.AttemptsInRange` | worker.py:206-219 | every message, waiting, parked or held, is on an attempt from 1 to the limit |
| `Attempts.HandlerProgresses` | worker.py:158-219 | every step of a handler lowers a rank, so a handler that is left alone ends |
| `Attempts.HandlerRunsBounded` | taskqueue.py:162-199 | the handler runs of a job are at most the attempt limit times (chunks + redeliveries + duplicate publishes) |
| `Settling.StepsBounded` | worker.py:158-219 | in every run the workers make at most fifteen steps for each handler run of a job plus one step for each part and page of its one assembly; so, with the bound on handler runs, a bounded number in all |
| `Settling.StepLeft` | worker.py:158-219 | a published, unsettled job with a chunk has a delivery or statement to make as soon as some worker is idle or on it |
| `Settling.CanSettle` | worker.py:158-219 | from every state of a run that is fail-stop for a published, unsettled job with a chunk, and with any one worker, some continuation of deliveries and statements settles the job; it takes at most the steps left for the job (by handlers, assembly and waiting messages) and those the worker needs to come back from another job |
| `Settling.ServedAtMost` | worker.py:158-219 | however a run goes on with deliveries and statements, no more of them serve the job than were left for it |
| `Availability.AvailAlways` | storage.py:198-221 | as long as no page and no manifest of a document expires, its manifest and its row mean that all its pages are stored, and every worker assembling it has put what its position says; parts and other documents may expire |
| `Availability.ManifestMeansPages` | storage.py:198-231 | as long as no page and no manifest of the document expires, after a visible manifest the page endpoint answers every page number of the document, with its text, figures and links, and no other number |
| `Availability.ServedPageIsRight` | api/index.py:358-386 | a page that is served is the sequential page, whatever expires between its two reads, with the page number, the figures of the document, and links that are there exactly when there is a page to link to |
| `Availability.CacheIsTransparent` | api/index.py:146-183 | what `submit` serves from the cache is the first page of a fresh sequential conversion with its figures and links, whatever expired |
| `Availability.DoneReadsBack` | api/index.py:358-386 | end to end: if no page and no manifest of its document expired since the job's own `complete_chunk` returned 0, a client following `next_page` from page 1 of a done job reads exactly the sequential pages, and without whitespace these are the chunk conversions in chunk order; a reconversion after expiry is covered |
| `Availability.DoneReadsBackward` | pagination.py:48-62 | under the same hypotheses a client following `prev_page` from the last page reads all pages backward to the first |
| `Availability.NextAndBack` | pagination.py:48-62 | following `next_page` and then `prev_page` leads back |
| `Availability.DoneIsServedAgain` | api/index.py:171-181 | under the same hypotheses, and with no call raising, submitting the document of a done job again is served its first page and adds no row and no message |
| `Availability.NeverConvertedAgain` | api/index.py:171-183 | in any run, whatever else happens: from then on a process that looks the document up never takes it for missing |
| `Availability.DoneReadsBackUnexpired` | api/index.py:358-386 | in particular if nothing of the document ever expired |
| `Sequential.PagesAreTheChunks` | worker.py:135-143 | apart from whitespace, the pages of a document are its chunk conversions in chunk order |
| `Sequential.MarkdownIs` | worker.py:135-142 | the document is the conversions of the planned ranges in chunk order, exactly those left out that hold nothing but whitespace, joined by blank lines; all of them where none is blank |
| `Sequential.PlanIs` | chunker.py:50-59 | the plan of a document is the whole file, or a partition of its pages |
| `Worker.Worker.Handle` | worker.py:158-196 | handling a delivered message, whichever of its calls raise and whether or not the broker still waits for it, is a path of the worker's own steps up to the acknowledgement; a message of a job that is not active changes nothing; with no call raising, the part of an active job is stored and its chunk done and counted; with only the conversion raising, it is retried, or parked and failed on its last attempt |
| `Outcomes.SettledIsDropped` | worker.py:167-170 | whatever raises, a message whose job is done, failed or unknown leaves tables, objects and queues as they were |
| `Outcomes.ActiveIsConverted` | worker.py:172-184 | with no call raising, a message of an active job leaves its part stored, its chunk done, the counter one lower unless the chunk was done before, and sends nothing |
| `Outcomes.FailureIsHandled` | worker.py:199-219 | a message of an active job whose conversion raises: on its last attempt it is on the failed queue, chunk and job are failed and the job names chunk and attempt; before that the chunk is pending and the next attempt waits |
| `Worker.Worker.Start` | worker.py:172 | likewise `start_chunk`, after which exactly this chunk row is running on this attempt unless it is done, and the job is no longer queued |
| `Worker.Worker.ConvertAndStore` | worker.py:174-182 | likewise the `try` block, whether the conversion raises, the put raises before or after its effect, or nothing does |
| `Worker.Worker.HandleFailure` | worker.py:199-219 | likewise `_handle_failure`: park, mark and fail, or reschedule and retry, or stop at the call that raises, a publish that got through before it raised included |
| `Worker.Worker.Gather` | worker.py:135-140 | likewise reading the parts: those stored under the job's document, all of them in chunk order, or none where one is missing or a read raises |
| `Worker.Worker.Publish` | worker.py:142-154 | likewise paginating, storing, recording and finishing, up to the call that raises |
| `Worker.Worker.Assemble` | worker.py:124-155 | likewise `assemble` as a whole, which says whether it raised |
| `Worker.Worker.Complete` | worker.py:184-196 | likewise counting the chunk, whether that raises before or after its commit, and concluding the job when it was the last |
| `Worker.Worker.Conclude` | worker.py:190-196 | likewise assembling, and failing the job when that raises |
| `Paths.OneOutcome` | worker.py:158-219 | two paths of a process from one state to its end come to the same state, so these contracts leave `handle` and `submit` exactly one outcome |
| `Services.ObjectStore.PutDocument` | storage.py:198-221 | stores every page under its number in order and then the manifest; if a put raises, exactly the pages before it are stored and no manifest |
| `Services.Channel.PublishRetry` | taskqueue.py:194-199 | publishing the next attempt under the tier's routing key adds to the waiting messages exactly what the protocol says: once, twice when the first try got through before its connection broke, or nothing where the topology has no such tier |
| `Services.Channel.TryPublish` | taskqueue.py:162-185 | `_publish`: one try, and after a broken connection a reconnect that declares the topology again and a second try, which may raise too; every queue the key reaches gets each copy that gets through |
| `Services.RetriesFollowTheTopology` | taskqueue.py:74-77 | the protocol keeps a retry if and only if the declared topology routes it to a queue, and every such queue hands it back to the workers |
| `Api.Api.Submit` | api/index.py:160-219 | `submit` is a path of the API process's own steps, whichever calls raise; with no call raising it is answered from the cache if and only if the document row, the manifest and the first page are stored, with that page and the links its manifest calls for, and otherwise accepted unless the job id is in use |
| `Api.Api.FindCached` | api/index.py:173-183 | the cache lookup: with no call raising, a hit if and only if row, manifest and first page are all stored; anything raising ends the request |
| `Outcomes.CachedExactlyWhen` | api/index.py:146-183 | whatever path the request takes with no call raising, it is served if and only if everything is stored, and then nothing is changed |
| `Api.Api.PublishTasks` | taskqueue.py:162-191 | publishing, with its second try when the connection breaks after any number of messages, is a path of the API process that ends with all messages sent or with an exception |
| `JobStore.JobStore.CreateJob` | jobstore.py:88-124 | one queued job row with the counter at the number of ranges, one pending row for each range in order; refused, with nothing changed, for an id in use |
| `JobStore.JobStore.StartChunk` | jobstore.py:172-194 | a chunk that is not done is running on this attempt, a queued job is running (`JobStore.StartRow` and `JobStore.StartJob` give the columns and that every other row is unchanged) |
| `JobStore.JobStore.CompleteChunk` | jobstore.py:221-264 | the transaction column by column, with its three kinds of result: -2 and nothing changed, -1 and only the chunk done, or the counter one lower and returned; 0 only for an active job |
| `JobStore.JobStore.FailChunk` | jobstore.py:197-206 | exactly this chunk row is rewritten to failed, done or not, its range and attempts kept |
| `JobStore.JobStore.RescheduleChunk` | jobstore.py:209-218 | exactly this chunk row is rewritten to pending, unless it is done |
| `JobStore.JobStore.FailJob` | jobstore.py:151-167 | exactly this job row is failed with its error if it is active, and nothing changes otherwise |
| `JobStore.JobStore.FinishJob` | jobstore.py:144-148 | exactly this job row is done, whatever it was |
| `JobStore.JobStore.JobProgress` | jobstore.py:131-141 | completed and remaining add up to the total, and the percentage is the nearest integer, the even one of two; nothing for an unknown job |
| `JobStore.HundredWithWorkLeft` | jobstore.py:137-141 | with work left, 100 percent is shown if and only if what is left is at most one chunk in two hundred |
| `JobStore.JobStore.ChunkIndices` | jobstore.py:267-273 | every chunk index once, in order |
| `JobStore.CompleteIsIdempotent` | jobstore.py:221-264 | completing a chunk again changes nothing and returns `CHUNK_ALREADY_DONE` |
| `Tables.ApplyEvolves` | jobstore.py:88-264 | no statement removes a row, changes a fixed column or moves a job backward |
| `TaskQueue.Broker.Declare` | taskqueue.py:115-153 | declaring goes through if and only if none of the queues exists with other arguments, and then gives the specified exchanges, queues and bindings |
| `TaskQueue.PublishesAreRouted` | taskqueue.py:115-205 | work and failed publishes reach exactly their queue; a retry reaches exactly its tier, whose dead letters go back to the work queue after the tier's delay, and no queue at all where the tier is 0 |
| `TaskQueue.RetryWaits` | taskqueue.py:74-77 | a retry of attempt k waits on the queue of that number, or of the last tier, for that tier's delay, and then goes back to the work queue; all names written out |
| `TaskQueue.TopologyIs` | taskqueue.py:115-153 | the exchanges and queues there are, and that what the work queue rejects ends on the failed queue |
| `TaskQueue.DeclareTwice` | taskqueue.py:115-153 | declaring again goes through and changes nothing |
| `Pagination.Paginate` | pagination.py:12-45 | the nested loop computes the specified pages, and ends |
| `PageLayout.Conservation` | pagination.py:20-45 | the concatenated pages are the blocks in order, every gap keeping or losing its separator and nothing else changed; content length less page lengths is twice the separators lost |
| `PageLayout.PagesKeepTheInk` | pagination.py:20-45 | the pages hold exactly the content's characters other than whitespace, in order |
| `PageLayout.PagesAreTight` | pagination.py:28-45 | every page fits; the only possible empty page is a sole one; two neighbours and a separator never fit one page |
| `PageLayout.PageCountBound` | pagination.py:28-45 | n pages need at least floor(n/2) * (page size - 1) characters of content |
| `PageLayout.PiecesOfBlock` | pagination.py:26-32 | a long block is full-size pieces and a non-empty remainder that together are the block |
| `PageLayout.BlocksStayWhole` | pagination.py:26-40 | the pages one after the other are the blocks woven together, and at its own place in that text a block that fits a page lies within one page; a longer one is cut there into full pages of its own that begin where the block does, and its remainder opens the page after them; a gap keeps its separator if and only if no page breaks there |
| `PageLayout.PaginateIsOptimal` | pagination.py:26-45 | when every block has between 1 and page-size characters, no division into consecutive runs that fit has fewer runs than there are pages |
| `PageLayout.PagesAreADivision` | pagination.py:26-45 | and the pages are such a division themselves, so the minimum is attained |
| `Text.SplitJoin` | pagination.py:26 | splitting a join of separator-free blocks gives the blocks back |
| `Text.JoinSplit` | pagination.py:26 | joining the split of any text gives the text back |
| `Text.JoinIs` | worker.py:142 | joining puts a blank line between neighbours and nothing else |
| `Chunker.PlanIsPartition` | chunker.py:34-59 | the plan is refused, the whole-file marker, or consecutive full ranges covering every page once, ceil(pages / size) of them, whose slices are the source |
| `Chunker.PlanIsEmpty` | chunker.py:53-59 | the plan is empty if and only if there are zero pages and the threshold is below one |
| `Keys.FingerprintDetermines` | storage.py:81-89 | the hashed text determines the sizes always, flag and model under one version whatever it contains, and the version unless one of the two is the other followed by the separator and `llm`; so everything for versions without the separator |
| `Keys.FingerprintIs` | storage.py:81-88 | the hashed text, written out |
| `Keys.FingerprintCollides` | storage.py:81-89 | for every two such versions, settings that share a text |
| `Keys.VersionsCollideExactly` | storage.py:81-89 | two different versions have settings with one text if and only if one is the other followed by the separator and `llm`, and then nothing or the separator and anything |
| `Keys.KeysNeverCollide` | storage.py:92-109 | keys of different kind, document or index are different texts |
| `Keys.KeysAre` | storage.py:92-109 | the four kinds of keys, written out |
| `Keys.PaddedIs` | storage.py:100-101 | a chunk index is written with at least five digits and its own value |
| `SourceCache.Cache.Scan` | worker.py:87-95 | every file once with its tuple, and the total size |
| `SourceCache.Cache.Evict` | worker.py:97-101 | deletes the shortest prefix of the sorted entries that brings the total within the budget |
| `SourceCache.Cache.Prune` | worker.py:83-103 | a file stays if and only if it and everything after it in (atime, size, path) order fit the budget together, so the file used last stays if and only if it fits on its own; nothing else changes |
| `SourceCache.Cache.Fetch` | worker.py:54-80 | a cached file is only marked as used, and a download that fails changes nothing; otherwise, of the files in the directory with the new one, exactly those stay that fit the budget with everything after them in (atime, size, path) order, so a new file above the budget is gone again, and the file used last stays if and only if it fits |
| `SourceCache.LaterFileWins` | worker.py:97-101 | for all directories: a file goes whenever one after it in (atime, size, path) order does not fit beside it |
| `SourceCache.TieLosesTheNewFile` | worker.py:97-101 | for all directories: on a tie of access times a file goes whenever the other is larger, or as large with a later path, and the two do not fit together |
| `SourceCache.NewestSurvives` | worker.py:54-103 | the newest entry is within the budget if and only if it fits on its own |
| `SourceCache.TextLessIs` | worker.py:97 | paths are compared lexicographically |

## Left out

- NoLostJob.NoJobIsLost: assumes of the job in question that no handler raises before it is settled, since the code acknowledges such messages (taskqueue.py:247-253), and that no worker dies concluding it; `NoLostJob.DoneUnlessConcluderDied` shows the second to be exact, and `NoLostJob.DoneExactlyWhen` does without both.
- Worker.Worker.Handle: states what a worker does while no other process interferes; interference, crashes and redeliveries are steps of the transition system.
- Api.Api.Submit: takes the document key as input and states what the process does while no other interferes; download, hashing and `put_source` are not modelled.
- JobStore.JobStore.JobProgress: the quotient is exact where the source rounds it to a double first, which makes a difference for totals beyond 2^44 only.
- TaskQueue.Broker.Declare: leaves out durability, the type of the exchanges, and what is declared already when a later declaration is refused.
- Pagination.Paginate: takes a page size of at least 1; with a smaller one the source's inner loop does not end.
- SourceCache.Cache.Prune: access times are integers, the directory holds files only, and no file operation fails; the same holds for `SourceCache.Cache.Fetch`, but for the download.
- Source objects: a file hash stands for its bytes, so `put_source`, `get_source` and the download are no steps; a missing source is a conversion that raises.
- Database drivers, connections and migrations: a statement or a transaction block is atomic, and that is all that is used.
- Broker connections, heartbeats, prefetch and the passing of time on retry tiers: a waiting message may be delivered at any moment.
- Malformed messages: every message is one that a publisher wrote.
- The converter, page extraction, the page counter and the LLM client: arbitrary functions of file, range and flag.
- JSON and UTF-8 encoding, and SHA-256: faithful and collision-free.
- Timestamps, lease columns, `s3_key`, `url`, `expires_at`, `last_error` and the wording of errors.
- HTTP routing, authentication, waiting for a job synchronously, health checks and the OpenAPI document.
- Deployments with a chunk size below 1: `plan_chunks` refuses them, so no job is ever created (`Chunker.PlanIsPartition` states the refusal).
