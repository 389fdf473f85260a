/**
 * What the counter means: the counter of an active job is the number of its unfinished chunks,
 * less the number of times `fail_chunk` hit a finished chunk of that job.
 */
module Counter {
  import opened Types
  import opened Sequential
  import opened Tables
  import opened Protocol
  import opened Integrity
  import opened Lifecycle

  /** The counter of the job is behind by `d`. */
  ghost predicate CounterOk(db: Db, j: JobId, d: nat)
    requires j in db.jobs
  {
    Active(db, j) ==> j in db.chunks && db.jobs[j].remaining + d == NotDone(db.chunks[j])
  }

  /** `fail_chunk` on a chunk that is already done. */
  predicate Downgrades(db: Db, op: Op) {
    op.FailChunk? && ChunkIsDone(db, op.job, op.index)
  }

  /** 1 if the statement undoes a finished chunk of the job. */
  function Undoes(db: Db, op: Op, j: JobId): nat {
    if Downgrades(db, op) && op.job == j then 1 else 0
  }

  /** How often a finished chunk of the job was undone in the first `k` steps. */
  ghost function DowngradesBefore(e: Setup, states: seq<State>, steps: seq<Step>, k: nat, j: JobId): nat
    requires IsRun(e, states, steps) && k <= |steps|
  {
    if k == 0 then 0
    else DowngradesBefore(e, states, steps, k - 1, j) + Undoes(states[k - 1].db, OpOf(e, states[k - 1], steps[k - 1]), j)
  }

  lemma CounterStep(db: Db, op: Op, j: JobId, d: nat)
    requires Fresh(db, op) && db.jobs.Keys == db.chunks.Keys && j in Tables.Apply(db, op).jobs
    requires if j in db.jobs then CounterOk(db, j, d) else d == 0
    ensures CounterOk(Tables.Apply(db, op), j, d + Undoes(db, op, j))
  {
    if j !in db.jobs {
      NotDoneNew(op.ranges);
    } else if op.NoOp? || op.RecordDocument? || op.job != j {
      ApplyElsewhere(db, op, j);
    } else {
      CounterOwnStep(db, op, d);
    }
  }

  lemma CounterOwnStep(db: Db, op: Op, d: nat)
    requires Fresh(db, op) && db.jobs.Keys == db.chunks.Keys
    requires !op.NoOp? && !op.RecordDocument? && op.job in db.jobs && CounterOk(db, op.job, d)
    ensures op.job in Tables.Apply(db, op).jobs && CounterOk(Tables.Apply(db, op), op.job, d + Undoes(db, op, op.job))
  {
    var j := op.job;
    if (op.StartChunkRow? || op.CompleteChunk? || op.FailChunk? || op.RescheduleChunk?) && HasChunk(db, j, op.index) {
      var rows := db.chunks[j];
      var status := if op.StartChunkRow? then ChunkRunning else if op.CompleteChunk? then ChunkDone
                    else if op.FailChunk? then ChunkFailed else ChunkPending;
      NotDoneUpdate(rows, op.index, rows[op.index].(status := status));
      if op.StartChunkRow? {
        NotDoneUpdate(rows, op.index, rows[op.index].(status := ChunkRunning, attempts := op.attempt));
      }
    }
  }

  /** The account of one job: its counter, or nothing yet. */
  ghost predicate AccountOk(db: Db, j: JobId, d: nat) {
    if j in db.jobs then CounterOk(db, j, d) && 0 <= db.jobs[j].remaining + d else d == 0
  }

  lemma AccountStep(e: Setup, s: State, step: Step, j: JobId, d: nat)
    requires DbOk(e, s.db) && Enabled(s, step) && AccountOk(s.db, j, d)
    ensures AccountOk(Next(e, s, step).db, j, d + Undoes(s.db, OpOf(e, s, step), j))
  {
    var op := OpOf(e, s, step);
    StepRunsOp(e, s, step);
    hide OpOf, Next, Tables.Apply, JobOk, SequentialRow, CounterOk;
    if j in s.db.jobs {
      RemainingStep(s.db, op, j, d);
    }
    if j in Tables.Apply(s.db, op).jobs {
      CounterStep(s.db, op, j, d);
      if j !in s.db.jobs {
        NewCounter(s.db, op, j);
      }
    }
  }

  lemma NewCounter(db: Db, op: Op, j: JobId)
    requires j !in db.jobs && j in Tables.Apply(db, op).jobs
    ensures Tables.Apply(db, op).jobs[j].remaining >= 0
  {
  }

  /** A counted completion finds at least one chunk not done. */
  lemma RemainingStep(db: Db, op: Op, j: JobId, d: nat)
    requires Fresh(db, op) && j in db.jobs && CounterOk(db, j, d) && 0 <= db.jobs[j].remaining + d
    ensures j in Tables.Apply(db, op).jobs && 0 <= Tables.Apply(db, op).jobs[j].remaining + d
  {
    JobEvolves(db, op, j);
    if op.CompleteChunk? && op.job == j && Counts(db, j, op.index) {
      NotDoneZero(db.chunks[j]);
    }
  }

  lemma {:induction false} AccountAlways(e: Setup, states: seq<State>, steps: seq<Step>, k: nat, j: JobId)
    requires IsRun(e, states, steps) && k < |states|
    ensures AccountOk(states[k].db, j, DowngradesBefore(e, states, steps, k, j))
  {
    hide Inv, Init, Next, Enabled, OpOf, AccountOk, Undoes;
    if k == 0 {
      NoJobs(states[0], j);
    } else {
      AccountAlways(e, states, steps, k - 1, j);
      InvTablesOk(e, states, steps, k - 1);
      AccountStep(e, states[k - 1], steps[k - 1], j, DowngradesBefore(e, states, steps, k - 1, j));
    }
  }

  lemma InvTablesOk(e: Setup, states: seq<State>, steps: seq<Step>, k: nat)
    requires IsRun(e, states, steps) && k < |states|
    ensures DbOk(e, states[k].db)
  {
    hide DbOk, StoreOk, TaskOk, WorkerOk, ProducerOk, Init, Next, Enabled;
    InvAlways(e, states, steps, k);
  }

  /**
   * The exact account, in all runs: of an active job, as many chunks are not done as the counter
   * says, and one more for every time a finished chunk was undone.
   */
  lemma CounterCountsUnfinished(e: Setup, states: seq<State>, steps: seq<Step>, k: nat, j: JobId)
    requires IsRun(e, states, steps) && k < |states| && Active(states[k].db, j)
    ensures var db := states[k].db;
      j in db.chunks && NotDone(db.chunks[j]) == db.jobs[j].remaining + DowngradesBefore(e, states, steps, k, j)
  {
    hide Init, Next, Enabled, OpOf, DowngradesBefore;
    AccountAlways(e, states, steps, k, j);
  }

  lemma NoJobs(s: State, j: JobId)
    requires Init(s)
    ensures AccountOk(s.db, j, 0)
  {
  }

  lemma {:induction false} NoneUndone(e: Setup, states: seq<State>, steps: seq<Step>, k: nat, j: JobId)
    requires IsRun(e, states, steps) && k <= |steps|
    requires forall m :: 0 <= m < k ==> !Downgrades(states[m].db, OpOf(e, states[m], steps[m]))
    ensures DowngradesBefore(e, states, steps, k, j) == 0
  {
    hide Init, Next, Enabled, OpOf, Downgrades;
    if k > 0 {
      NoneUndone(e, states, steps, k - 1, j);
    }
  }

  /** Every chunk of the job is done. */
  ghost predicate AllDone(db: Db, j: JobId) {
    j in db.chunks && forall i :: 0 <= i < |db.chunks[j]| ==> db.chunks[j][i].status.ChunkDone?
  }

  /**
   * What a returned 0 means, in all runs: as many chunks are not done as were undone before, so
   * every chunk is done exactly when none ever was undone.
   */
  lemma ZeroMeansAllDone(e: Setup, states: seq<State>, steps: seq<Step>, k: nat, j: JobId)
    requires IsRun(e, states, steps) && k < |steps| && ReturnsZero(states[k], steps[k], j)
    ensures var db := states[k + 1].db; var undone := DowngradesBefore(e, states, steps, k, j);
      && j in db.jobs && db.jobs[j].remaining == 0 && db.jobs[j].status.Running?
      && j in db.chunks && NotDone(db.chunks[j]) == undone
      && (AllDone(db, j) <==> undone == 0)
  {
    hide Inv, Init, DowngradesBefore;
    var s, step := states[k], steps[k];
    ZeroCompletes(e, s, step, j);
    hide Next;
    CounterCountsUnfinished(e, states, steps, k, j);
    var i := s.workers[step.w].task.index;
    NotDoneUpdate(s.db.chunks[j], i, s.db.chunks[j][i].(status := ChunkDone));
    NotDoneZero(states[k + 1].db.chunks[j]);
  }

  lemma ZeroCompletes(e: Setup, s: State, step: Step, j: JobId)
    requires ReturnsZero(s, step, j)
    ensures Enabled(s, step) && Counts(s.db, j, s.workers[step.w].task.index) && s.db.jobs[j].remaining == 1
    ensures Next(e, s, step).db == Tables.Apply(s.db, CompleteChunk(j, s.workers[step.w].task.index))
  {
    var worker := s.workers[step.w];
    ProgramShape(e, s.db, s.store, worker.task, worker.pc, step.twice);
    hide Program;
    WorkRunsOp(e, s, step.w, step.twice);
  }

  /**
   * The counter of any job, active or settled, lies between 0 and the total, but for the times a
   * finished chunk was undone; so reported progress lies between 0 and the total where none was.
   */
  lemma ProgressInRange(e: Setup, states: seq<State>, steps: seq<Step>, k: nat, j: JobId)
    requires IsRun(e, states, steps) && k < |states| && j in states[k].db.jobs
    ensures 0 <= states[k].db.jobs[j].remaining + DowngradesBefore(e, states, steps, k, j)
    ensures states[k].db.jobs[j].remaining <= states[k].db.jobs[j].total
  {
    hide Init, Next, Enabled, OpOf, DowngradesBefore, SequentialRow;
    AccountAlways(e, states, steps, k, j);
    InvTablesOk(e, states, steps, k);
    assert JobOk(e, states[k].db, j);
  }
}
