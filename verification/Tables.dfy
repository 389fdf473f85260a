/** jobstore.py as values: the rows of the three tables and what each statement does to them. */
module Tables {
  import opened Types

  datatype JobStatus = Queued | Running | Done | Failed

  /** Why a job failed: a chunk that used up its attempts, or the assembly. */
  datatype JobError = PoisonChunk(index: nat, attempt: nat) | AssemblyError

  datatype JobRow = JobRow(doc: DocKey, file: FileHash, llm: bool, status: JobStatus,
                           total: nat, remaining: int, error: Option<JobError>)

  datatype ChunkStatus = ChunkPending | ChunkRunning | ChunkDone | ChunkFailed

  datatype ChunkRow = ChunkRow(range: PageRange, status: ChunkStatus, attempts: nat)

  datatype DocRow = DocRow(file: FileHash, totalPages: nat, totalChunks: nat, totalLength: nat, pageSize: int)

  /** `jobs`, `job_chunks` (the rows of each job by chunk index) and `documents`. */
  datatype Db = Db(jobs: map<JobId, JobRow>, chunks: map<JobId, seq<ChunkRow>>, documents: map<DocKey, DocRow>)

  /** One statement, or one transaction. */
  datatype Op =
    | NoOp
    | CreateJob(job: JobId, doc: DocKey, file: FileHash, llm: bool, ranges: seq<PageRange>)
    | StartChunkRow(job: JobId, index: nat, attempt: nat)
    | StartJobRow(job: JobId)
    | CompleteChunk(job: JobId, index: nat)
    | FailChunk(job: JobId, index: nat)
    | RescheduleChunk(job: JobId, index: nat)
    | FailJob(job: JobId, error: JobError)
    | RecordDocument(doc: DocKey, row: DocRow)
    | FinishJob(job: JobId)

  const JOB_ALREADY_TERMINAL := -1
  const CHUNK_ALREADY_DONE := -2

  predicate Terminal(status: JobStatus) {
    status.Done? || status.Failed?
  }

  /** The job exists and has neither finished nor failed. */
  predicate Active(db: Db, job: JobId) {
    job in db.jobs && !Terminal(db.jobs[job].status)
  }

  predicate HasChunk(db: Db, job: JobId, index: nat) {
    job in db.chunks && index < |db.chunks[job]|
  }

  predicate ChunkIsDone(db: Db, job: JobId, index: nat) {
    HasChunk(db, job, index) && db.chunks[job][index].status.ChunkDone?
  }

  function SetChunk(db: Db, job: JobId, index: nat, row: ChunkRow): Db
    requires HasChunk(db, job, index)
  {
    db.(chunks := db.chunks[job := db.chunks[job][index := row]])
  }

  function SetJob(db: Db, job: JobId, row: JobRow): Db {
    db.(jobs := db.jobs[job := row])
  }

  function NewChunkRows(ranges: seq<PageRange>): (rows: seq<ChunkRow>)
    ensures |rows| == |ranges|
    ensures forall k :: 0 <= k < |rows| ==> rows[k] == ChunkRow(ranges[k], ChunkPending, 0)
  {
    seq(|ranges|, k requires 0 <= k < |ranges| => ChunkRow(ranges[k], ChunkPending, 0))
  }

  /** The completion counts: the chunk was not done and the job is still active. */
  predicate Counts(db: Db, job: JobId, index: nat) {
    HasChunk(db, job, index) && !ChunkIsDone(db, job, index) && Active(db, job)
  }

  /** What `complete_chunk` returns. */
  function CompleteResult(db: Db, job: JobId, index: nat): int {
    if !HasChunk(db, job, index) || ChunkIsDone(db, job, index) then CHUNK_ALREADY_DONE
    else if !Active(db, job) then JOB_ALREADY_TERMINAL
    else db.jobs[job].remaining - 1
  }

  /** The tables after a statement or transaction. */
  function Apply(db: Db, op: Op): Db {
    match op
    case NoOp => db
    case CreateJob(job, doc, file, llm, ranges) =>
      Db(db.jobs[job := JobRow(doc, file, llm, Queued, |ranges|, |ranges|, None)],
         db.chunks[job := NewChunkRows(ranges)], db.documents)
    case StartChunkRow(job, index, attempt) =>
      if HasChunk(db, job, index) && !ChunkIsDone(db, job, index)
      then SetChunk(db, job, index, db.chunks[job][index].(status := ChunkRunning, attempts := attempt))
      else db
    case StartJobRow(job) =>
      if job in db.jobs && db.jobs[job].status.Queued?
      then SetJob(db, job, db.jobs[job].(status := Running))
      else db
    case CompleteChunk(job, index) =>
      if !HasChunk(db, job, index) || ChunkIsDone(db, job, index) then db
      else
        var marked := SetChunk(db, job, index, db.chunks[job][index].(status := ChunkDone));
        if Active(db, job)
        then SetJob(marked, job, db.jobs[job].(status := Running, remaining := db.jobs[job].remaining - 1))
        else marked
    case FailChunk(job, index) =>
      if HasChunk(db, job, index)
      then SetChunk(db, job, index, db.chunks[job][index].(status := ChunkFailed))
      else db
    case RescheduleChunk(job, index) =>
      if HasChunk(db, job, index) && !ChunkIsDone(db, job, index)
      then SetChunk(db, job, index, db.chunks[job][index].(status := ChunkPending))
      else db
    case FailJob(job, error) =>
      if Active(db, job) then SetJob(db, job, db.jobs[job].(status := Failed, error := Some(error))) else db
    case RecordDocument(doc, row) => db.(documents := db.documents[doc := row])
    case FinishJob(job) =>
      if job in db.jobs then SetJob(db, job, db.jobs[job].(status := Done)) else db
  }

  // ---- What every statement keeps ----

  /** The columns no statement changes. */
  ghost predicate SameJob(a: JobRow, b: JobRow) {
    a.doc == b.doc && a.file == b.file && a.llm == b.llm && a.total == b.total
  }

  ghost predicate SameChunks(a: seq<ChunkRow>, b: seq<ChunkRow>) {
    |a| == |b| && forall k :: 0 <= k < |a| ==> a[k].range == b[k].range
  }

  /** How the tables may evolve: rows stay, their fixed columns stay, and every job only moves forward. */
  ghost predicate Evolves(a: Db, b: Db) {
    && (forall j :: j in a.jobs ==> j in b.jobs && SameJob(a.jobs[j], b.jobs[j]) && JobMoves(a.jobs[j], b.jobs[j]))
    && (forall j :: j in a.chunks ==> j in b.chunks && SameChunks(a.chunks[j], b.chunks[j]))
    && (forall d :: d in a.documents ==> d in b.documents)
  }

  /** `queued` is never entered again, `done` is final, `failed` is left only for `done`, and the counter never grows. */
  ghost predicate JobMoves(a: JobRow, b: JobRow) {
    && b.remaining <= a.remaining
    && (b.status.Queued? ==> a.status.Queued?)
    && (a.status.Done? ==> b.status.Done?)
    && (a.status.Failed? ==> Terminal(b.status))
  }

  /** A statement on existing rows; a new job has an unused id. */
  predicate Fresh(db: Db, op: Op) {
    op.CreateJob? ==> op.job !in db.jobs && op.job !in db.chunks
  }

  lemma JobEvolves(db: Db, op: Op, j: JobId)
    requires Fresh(db, op) && j in db.jobs
    ensures j in Apply(db, op).jobs
    ensures SameJob(db.jobs[j], Apply(db, op).jobs[j]) && JobMoves(db.jobs[j], Apply(db, op).jobs[j])
  {
  }

  lemma ChunksEvolve(db: Db, op: Op, j: JobId)
    requires Fresh(db, op) && j in db.chunks
    ensures j in Apply(db, op).chunks && SameChunks(db.chunks[j], Apply(db, op).chunks[j])
  {
  }

  lemma ApplyEvolves(db: Db, op: Op)
    requires Fresh(db, op)
    ensures Evolves(db, Apply(db, op))
  {
    assert forall d :: d in db.documents ==> d in Apply(db, op).documents;
    hide Apply, SameJob, JobMoves, SameChunks;
    forall j | j in db.jobs
      ensures j in Apply(db, op).jobs && SameJob(db.jobs[j], Apply(db, op).jobs[j]) && JobMoves(db.jobs[j], Apply(db, op).jobs[j])
    {
      JobEvolves(db, op, j);
    }
    forall j | j in db.chunks
      ensures j in Apply(db, op).chunks && SameChunks(db.chunks[j], Apply(db, op).chunks[j])
    {
      ChunksEvolve(db, op, j);
    }
  }

  lemma EvolvesTransitive(a: Db, b: Db, c: Db)
    requires Evolves(a, b) && Evolves(b, c)
    ensures Evolves(a, c)
  {
  }

  /** A job's status and counter change only by a statement on that job. */
  lemma ApplyElsewhere(db: Db, op: Op, j: JobId)
    requires Fresh(db, op) && j in db.jobs
    requires op.NoOp? || op.RecordDocument? || op.job != j
    ensures j in Apply(db, op).jobs && Apply(db, op).jobs[j] == db.jobs[j]
    ensures j in db.chunks ==> j in Apply(db, op).chunks && Apply(db, op).chunks[j] == db.chunks[j]
  {
  }

  /** Rows not done yet. */
  function NotDone(rows: seq<ChunkRow>): nat {
    if rows == [] then 0
    else NotDone(rows[..|rows| - 1]) + if rows[|rows| - 1].status.ChunkDone? then 0 else 1
  }

  lemma {:induction false} NotDoneUpdate(rows: seq<ChunkRow>, i: nat, row: ChunkRow)
    requires i < |rows|
    ensures NotDone(rows[i := row]) == NotDone(rows)
              + (if row.status.ChunkDone? then 0 else 1) - (if rows[i].status.ChunkDone? then 0 else 1)
  {
    var n := |rows| - 1;
    if i == n {
      assert rows[i := row][..n] == rows[..n];
    } else {
      NotDoneUpdate(rows[..n], i, row);
      assert rows[i := row][..n] == rows[..n][i := row];
    }
  }

  lemma {:induction false} NotDoneZero(rows: seq<ChunkRow>)
    ensures NotDone(rows) <= |rows|
    ensures NotDone(rows) == 0 <==> forall k :: 0 <= k < |rows| ==> rows[k].status.ChunkDone?
  {
    if rows != [] {
      NotDoneZero(rows[..|rows| - 1]);
    }
  }

  lemma {:induction false} NotDoneNew(ranges: seq<PageRange>)
    ensures NotDone(NewChunkRows(ranges)) == |ranges|
  {
    if ranges != [] {
      var n := |ranges| - 1;
      NotDoneNew(ranges[..n]);
      assert NewChunkRows(ranges)[..n] == NewChunkRows(ranges[..n]);
    }
  }
}
