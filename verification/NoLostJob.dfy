/**
 * No job is lost: where a database or broker call for a job succeeds or the process dies, and no
 * process dies between getting 0 back and settling that job, a published job with nothing left
 * in flight has finished or failed, whatever happens to other jobs. The two ways out of this are stated exactly: a plan without
 * chunks, and a retry that no tier takes.
 */
module NoLostJob {
  import opened Types
  import opened Sequential
  import opened Tables
  import opened Protocol
  import opened Integrity
  import opened Lifecycle

  /** Retries have a queue to go to, or there are none. */
  predicate Routable(e: Setup) {
    e.retryTiers > 0 || e.maxAttempts <= 1
  }

  /** The process that the step stops works on job `j`, which is not settled. */
  predicate Hits(s: State, w: nat, j: JobId) {
    IsBusy(s, w) && s.workers[w].task.job == j && Active(s.db, j)
  }

  /** A handler of the unsettled job gives up on a call that raised. */
  predicate Drops(s: State, step: Step, j: JobId) {
    step.HandlerRaises? && Hits(s, step.w, j)
  }

  /** A process dies while it concludes the unsettled job. */
  predicate DiesConcluding(s: State, step: Step, j: JobId) {
    step.Crash? && Hits(s, step.w, j) && Concludes(s.workers[step.w], j)
  }

  /** A process leaves the unsettled job it concludes: it dies, or gives up on a call that raised. */
  predicate Abandons(s: State, step: Step, j: JobId) {
    (step.Crash? || step.HandlerRaises?) && Hits(s, step.w, j) && Concludes(s.workers[step.w], j)
  }

  /** As far as job `j` goes, a call succeeds or its process dies, and no process dies while it concludes the job. */
  predicate FailStop(s: State, step: Step, j: JobId) {
    !Drops(s, step, j) && !DiesConcluding(s, step, j)
  }

  /** The broker would hand the message out again if the worker died now, and the worker has not dealt with it yet. */
  predicate Holds(worker: Worker, j: JobId, i: nat) {
    worker.Busy? && worker.held && !worker.pc.Acking? && worker.task.job == j && worker.task.index == i
  }

  predicate Carries(t: Task, j: JobId, i: nat) {
    t.job == j && t.index == i
  }

  /** A message for the chunk is in flight. */
  ghost predicate Live(s: State, j: JobId, i: nat) {
    || (exists t :: t in s.queue && Carries(t, j, i))
    || (exists w :: 0 <= w < |s.workers| && Holds(s.workers[w], j, i))
  }

  /** The chunk cannot get lost: its job is settled, it has been counted, or a message for it is in flight. */
  ghost predicate Safe(s: State, j: JobId, i: nat) {
    j in s.db.jobs && (Terminal(s.db.jobs[j].status) || i in CountedChunks(s.counted, j) || Live(s, j, i))
  }

  ghost predicate DoneCounted(db: Db, counted: map<JobId, set<nat>>) {
    forall j, i: nat :: Active(db, j) && ChunkIsDone(db, j, i) ==> i in CountedChunks(counted, j)
  }

  ghost predicate CountOk(db: Db, counted: map<JobId, set<nat>>, j: JobId)
    requires j in db.jobs
  {
    && |CountedChunks(counted, j)| + db.jobs[j].remaining <= db.jobs[j].total
    && forall i :: i in CountedChunks(counted, j) ==> i < db.jobs[j].total
  }

  ghost predicate CountsOk(db: Db, counted: map<JobId, set<nat>>) {
    && counted.Keys <= db.jobs.Keys
    && forall j :: j in db.jobs ==> CountOk(db, counted, j)
  }

  /** A used-up counter of the active job means somebody concludes it. */
  ghost predicate Concluded(s: State, j: JobId) {
    Active(s.db, j) && s.db.jobs[j].remaining <= 0 && s.db.jobs[j].total > 0 ==> HasConcluder(s, j)
  }

  ghost predicate HasConcluder(s: State, j: JobId) {
    exists w :: 0 <= w < |s.workers| && Concludes(s.workers[w], j)
  }

  /** Every chunk of the job that has been sent is safe. */
  ghost predicate AllSafe(s: State, j: JobId) {
    && (j in s.published ==> j in s.db.jobs && forall i: nat :: i < s.db.jobs[j].total ==> Safe(s, j, i))
    && (forall p, i: nat :: 0 <= p < |s.producers| && SendsMore(s.producers[p], j, i) ==> Safe(s, j, i))
  }

  /** The API process has sent chunk `i` of job `j` and is still sending. */
  predicate SendsMore(producer: Producer, j: JobId, i: nat) {
    producer.Sending? && producer.job == j && i < producer.next
  }

  /** A job without chunks never leaves `queued`. */
  ghost predicate EmptyStuck(db: Db) {
    forall j :: j in db.jobs && db.jobs[j].total == 0 ==> db.jobs[j].status.Queued?
  }

  // ---- Statements ----

  lemma DoneCountedStep(e: Setup, db: Db, counted: map<JobId, set<nat>>, op: Op)
    requires DoneCounted(db, counted) && Fresh(db, op) && db.jobs.Keys == db.chunks.Keys
    ensures DoneCounted(Tables.Apply(db, op), WithCounted(db, counted, op))
  {
    var after := Tables.Apply(db, op);
    forall j, i: nat | Active(after, j) && ChunkIsDone(after, j, i)
      ensures i in CountedChunks(WithCounted(db, counted, op), j)
    {
      DoneCountedAt(db, op, j, i);
    }
  }

  /** A done chunk of an active job was done before, or has just been counted. */
  lemma DoneCountedAt(db: Db, op: Op, j: JobId, i: nat)
    requires Fresh(db, op) && db.jobs.Keys == db.chunks.Keys
    requires Active(Tables.Apply(db, op), j) && ChunkIsDone(Tables.Apply(db, op), j, i)
    ensures (Active(db, j) && ChunkIsDone(db, j, i)) || (op == CompleteChunk(j, i) && Counts(db, j, i))
  {
  }

  /** A counted completion takes one off the counter and adds at most one chunk. */
  lemma CountOnce(db: Db, counted: map<JobId, set<nat>>, j: JobId, i: nat)
    requires j in db.jobs && CountOk(db, counted, j) && Counts(db, j, i) && i < db.jobs[j].total
    ensures j in Tables.Apply(db, CompleteChunk(j, i)).jobs
    ensures CountOk(Tables.Apply(db, CompleteChunk(j, i)), WithCounted(db, counted, CompleteChunk(j, i)), j)
  {
    var before := CountedChunks(counted, j);
    var after := CountedChunks(WithCounted(db, counted, CompleteChunk(j, i)), j);
    assert after == before + {i};
    if i in before {
      assert after == before;
    }
  }

  lemma CountOther(db: Db, counted: map<JobId, set<nat>>, op: Op, j: JobId)
    requires Fresh(db, op) && j in db.jobs && CountOk(db, counted, j)
    requires !(op.CompleteChunk? && Counts(db, op.job, op.index) && op.job == j)
    ensures j in Tables.Apply(db, op).jobs && CountOk(Tables.Apply(db, op), WithCounted(db, counted, op), j)
  {
    JobEvolves(db, op, j);
    hide Tables.Apply;
  }

  lemma CountNew(db: Db, counted: map<JobId, set<nat>>, op: Op)
    requires op.CreateJob? && op.job !in counted
    ensures op.job in Tables.Apply(db, op).jobs && CountOk(Tables.Apply(db, op), WithCounted(db, counted, op), op.job)
  {
  }

  lemma NewJob(db: Db, op: Op, j: JobId)
    requires j in Tables.Apply(db, op).jobs && j !in db.jobs
    ensures op.CreateJob? && op.job == j
  {
  }

  lemma CountStep(e: Setup, db: Db, counted: map<JobId, set<nat>>, op: Op, j: JobId)
    requires CountsOk(db, counted) && Fresh(db, op) && DbOk(e, db)
    requires j in Tables.Apply(db, op).jobs
    ensures CountOk(Tables.Apply(db, op), WithCounted(db, counted, op), j)
  {
    hide Tables.Apply, WithCounted, SequentialRow;
    if j !in db.jobs {
      NewJob(db, op, j);
      CountNew(db, counted, op);
    } else if op.CompleteChunk? && Counts(db, op.job, op.index) && op.job == j {
      assert JobOk(e, db, j);
      CountOnce(db, counted, j, op.index);
    } else {
      CountOther(db, counted, op, j);
    }
  }

  lemma CountsStep(e: Setup, db: Db, counted: map<JobId, set<nat>>, op: Op)
    requires CountsOk(db, counted) && Fresh(db, op) && DbOk(e, db)
    ensures CountsOk(Tables.Apply(db, op), WithCounted(db, counted, op))
  {
    ApplyEvolves(db, op);
    hide Tables.Apply, CountOk, JobOk;
    forall j | j in Tables.Apply(db, op).jobs ensures CountOk(Tables.Apply(db, op), WithCounted(db, counted, op), j) {
      CountStep(e, db, counted, op, j);
    }
  }

  lemma TerminalStays(db: Db, op: Op, j: JobId)
    requires Fresh(db, op) && j in db.jobs && Terminal(db.jobs[j].status)
    ensures j in Tables.Apply(db, op).jobs && Terminal(Tables.Apply(db, op).jobs[j].status)
  {
    JobEvolves(db, op, j);
  }

  lemma CountedStays(db: Db, counted: map<JobId, set<nat>>, op: Op, j: JobId, i: nat)
    requires i in CountedChunks(counted, j)
    ensures i in CountedChunks(WithCounted(db, counted, op), j)
  {
  }

  // ---- A chunk stays safe ----

  /** The worker lets go of its message only when the chunk is settled, counted or sent again. */
  lemma LetsGo(e: Setup, s: State, w: nat, twice: bool)
    requires Inv(e, s) && LifeInv(s) && DoneCounted(s.db, s.counted) && Routable(e)
    requires IsBusy(s, w) && !s.workers[w].pc.Acking?
    ensures var worker := s.workers[w]; var t := worker.task;
      var effect := Program(e, s.db, s.store, t, worker.pc, twice);
      var db := Tables.Apply(s.db, effect.op);
      effect.pc.Acking? ==>
        || (t.job in db.jobs && Terminal(db.jobs[t.job].status))
        || t.index in CountedChunks(WithCounted(s.db, s.counted, effect.op), t.job)
        || NextAttempt(t) in effect.sent
  {
    hide StoreOk, ProducerOk, Alone, DoneRecorded, Plan;
    var worker := s.workers[w];
    assert WorkerOk(e, s.db, worker) && AssemblerOk(s.db, worker);
    assert JobOk(e, s.db, worker.task.job);
    LetsGoAt(e, s.db, s.store, s.counted, worker.task, worker.pc, twice);
  }

  lemma LetsGoAt(e: Setup, db: Db, store: Store, counted: map<JobId, set<nat>>, t: Task, pc: Pc, twice: bool)
    requires t.job in db.jobs && HasChunk(db, t.job, t.index) && DoneCounted(db, counted)
    requires pc == Assembling(Finished) ==> db.jobs[t.job].status.Done?
    requires pc.Rescheduled? ==> e.retryTiers > 0 && t.attempt >= 1
    ensures var effect := Program(e, db, store, t, pc, twice);
      var after := Tables.Apply(db, effect.op);
      effect.pc.Acking? && !pc.Acking? ==>
        || (t.job in after.jobs && Terminal(after.jobs[t.job].status))
        || t.index in CountedChunks(WithCounted(db, counted, effect.op), t.job)
        || NextAttempt(t) in effect.sent
  {
  }

  lemma QueuedLive(s: State, j: JobId, i: nat, t: Task)
    requires t in s.queue && Carries(t, j, i)
    ensures Live(s, j, i)
  {
  }

  lemma HeldLive(s: State, j: JobId, i: nat, w: nat)
    requires w < |s.workers| && Holds(s.workers[w], j, i)
    ensures Live(s, j, i)
  {
  }

  /** A message stays in flight while its queue only grows and its holder keeps holding it. */
  lemma LiveStays(s: State, after: State, j: JobId, i: nat, w: nat)
    requires Live(s, j, i) && s.queue <= after.queue && |after.workers| == |s.workers|
    requires forall v :: 0 <= v < |s.workers| && v != w ==> after.workers[v] == s.workers[v]
    requires w < |s.workers| && Holds(s.workers[w], j, i) ==> Live(after, j, i)
    ensures Live(after, j, i)
  {
    if t :| t in s.queue && Carries(t, j, i) {
      assert t in after.queue;
    } else {
      var v :| 0 <= v < |s.workers| && Holds(s.workers[v], j, i);
      if v != w {
        assert Holds(after.workers[v], j, i);
      }
    }
  }

  lemma SafeEffect(e: Setup, s: State, w: nat, twice: bool, j: JobId, i: nat)
    requires Inv(e, s) && LifeInv(s) && DoneCounted(s.db, s.counted) && Routable(e)
    requires IsBusy(s, w) && !s.workers[w].pc.Acking? && Safe(s, j, i)
    ensures Safe(ApplyWork(e, s, w, twice), j, i)
  {
    hide Inv, LifeInv, DoneCounted, Program, Tables.Apply, WithCounted, WithPut, Live;
    var worker := s.workers[w];
    var effect := Program(e, s.db, s.store, worker.task, worker.pc, twice);
    var after := ApplyWork(e, s, w, twice);
    LetsGo(e, s, w, twice);
    WorkRunsOp(e, s, w, twice);
    JobEvolves(s.db, effect.op, j);
    if Terminal(s.db.jobs[j].status) {
      TerminalStays(s.db, effect.op, j);
    } else if i in CountedChunks(s.counted, j) {
      CountedStays(s.db, s.counted, effect.op, j, i);
    } else if Holds(worker, j, i) {
      if effect.pc.Acking? {
        if NextAttempt(worker.task) in effect.sent {
          QueuedLive(after, j, i, NextAttempt(worker.task));
        }
      } else {
        HeldLive(after, j, i, w);
      }
    } else {
      LiveStays(s, after, j, i, w);
    }
  }

  lemma SafeEvent(e: Setup, s: State, step: Step, j: JobId, i: nat)
    requires Enabled(s, step) && WorkerEvent(step) && FailStop(s, step, j) && Safe(s, j, i)
    ensures Safe(Next(e, s, step), j, i)
  {
    var after := Next(e, s, step);
    WorkerEventShape(e, s, step);
    if Terminal(s.db.jobs[j].status) {
      assert Safe(after, j, i);
    } else if step.Deliver? {
      DeliverLive(e, s, step.w, step.task, j, i);
    } else {
      assert s.queue <= after.queue;
      var worker := s.workers[step.w];
      if Holds(worker, j, i) {
        if step.Crash? || step.Redeliver? {
          QueuedLive(after, j, i, worker.task);
        } else {
          HeldLive(after, j, i, step.w);
        }
      }
      if Live(s, j, i) {
        LiveStays(s, after, j, i, step.w);
      }
    }
  }

  lemma DeliverLive(e: Setup, s: State, w: nat, task: Task, j: JobId, i: nat)
    requires Enabled(s, Deliver(w, task))
    ensures Live(s, j, i) ==> Live(Next(e, s, Deliver(w, task)), j, i)
  {
    var after := Next(e, s, Deliver(w, task));
    if Live(s, j, i) {
      if Carries(task, j, i) {
        HeldLive(after, j, i, w);
      } else if t :| t in s.queue && Carries(t, j, i) {
        QueuedLive(after, j, i, t);
      } else {
        var v :| 0 <= v < |s.workers| && Holds(s.workers[v], j, i);
        HeldLive(after, j, i, v);
      }
    }
  }

  lemma SafeProducer(e: Setup, s: State, step: Step, j: JobId, i: nat)
    requires Enabled(s, step) && (ProducerEvent(step) || step.Create?) && Safe(s, j, i)
    ensures Safe(Next(e, s, step), j, i)
  {
    var after := Next(e, s, step);
    if ProducerEvent(step) {
      ProducerEventShape(e, s, step);
      hide Next;
      if Live(s, j, i) {
        LiveStays(s, after, j, i, |s.workers|);
      }
    } else {
      if Live(s, j, i) {
        LiveStays(s, after, j, i, |s.workers|);
      }
    }
  }

  lemma SafeAck(e: Setup, s: State, w: nat, twice: bool, j: JobId, i: nat)
    requires IsBusy(s, w) && s.workers[w].pc.Acking? && Safe(s, j, i)
    ensures Safe(ApplyWork(e, s, w, twice), j, i)
  {
    if Live(s, j, i) {
      LiveStays(s, ApplyWork(e, s, w, twice), j, i, w);
    }
  }

  lemma SafeStep(e: Setup, s: State, step: Step, j: JobId, i: nat)
    requires Inv(e, s) && LifeInv(s) && DoneCounted(s.db, s.counted) && Routable(e)
    requires Enabled(s, step) && FailStop(s, step, j) && Safe(s, j, i)
    ensures Safe(Next(e, s, step), j, i)
  {
    hide Inv, LifeInv, DoneCounted, Safe;
    StepKinds(step);
    if step.Work? {
      if s.workers[step.w].pc.Acking? {
        SafeAck(e, s, step.w, step.twice, j, i);
      } else {
        SafeEffect(e, s, step.w, step.twice, j, i);
      }
    } else if WorkerEvent(step) {
      SafeEvent(e, s, step, j, i);
    } else {
      SafeProducer(e, s, step, j, i);
    }
  }

  // ---- A used-up counter has a concluder ----

  lemma ConcluderIs(s: State, j: JobId, w: nat)
    requires w < |s.workers| && Concludes(s.workers[w], j)
    ensures HasConcluder(s, j)
  {
  }

  /** A worker that concludes a job keeps at it until the job is settled. */
  lemma ConcluderStays(e: Setup, s: State, step: Step, w: nat, j: JobId)
    requires LifeInv(s) && Enabled(s, step) && !Abandons(s, step, j)
    requires w < |s.workers| && Concludes(s.workers[w], j) && Active(Next(e, s, step).db, j)
    ensures HasConcluder(Next(e, s, step), j)
  {
    var after := Next(e, s, step);
    if step.Work? && step.w == w {
      ConcluderWorks(e, s, w, step.twice, j);
    } else if step.Work? {
      assert after.workers[w] == s.workers[w] by { hide Program, Tables.Apply; }
      hide Next;
      ConcluderIs(after, j, w);
    } else if WorkerEvent(step) {
      WorkerEventShape(e, s, step);
      hide Next;
      ConcluderIs(after, j, w);
    } else {
      assert after.workers == s.workers by {
        if !step.Create? {
          ProducerEventShape(e, s, step);
        }
      }
      hide Next;
      ConcluderIs(after, j, w);
    }
  }

  lemma ConcluderWorks(e: Setup, s: State, w: nat, twice: bool, j: JobId)
    requires LifeInv(s) && IsBusy(s, w) && Concludes(s.workers[w], j)
    requires Active(ApplyWork(e, s, w, twice).db, j)
    ensures HasConcluder(ApplyWork(e, s, w, twice), j)
  {
    hide Alone, DoneRecorded;
    var worker := s.workers[w];
    var after := ApplyWork(e, s, w, twice);
    assert AssemblerOk(s.db, worker);
    ProgramStages(e, s.db, s.store, worker.task, worker.pc, twice);
    ProgramShape(e, s.db, s.store, worker.task, worker.pc, twice);
    WorkRunsOp(e, s, w, twice);
    hide Program;
    assert worker.pc.Assembling? && !worker.pc.stage.Finished?;
    ConcluderIs(after, j, w);
  }

  /** The counter of an active job is used up only by a call that returned 0. */
  lemma UsedUpByZero(e: Setup, s: State, step: Step, j: JobId)
    requires DbOk(e, s.db) && Enabled(s, step)
    requires var db := Next(e, s, step).db; Active(db, j) && db.jobs[j].remaining <= 0 && db.jobs[j].total > 0
    ensures ReturnsZero(s, step, j) || (Active(s.db, j) && s.db.jobs[j].remaining <= 0 && s.db.jobs[j].total > 0)
  {
    var op := OpOf(e, s, step);
    StepRunsOp(e, s, step);
    if step.Work? {
      ProgramShape(e, s.db, s.store, s.workers[step.w].task, s.workers[step.w].pc, step.twice);
    }
    hide Program, Next;
    UsedUpByComplete(s.db, op, j);
  }

  lemma UsedUpByComplete(db: Db, op: Op, j: JobId)
    requires Fresh(db, op)
    requires var after := Tables.Apply(db, op); Active(after, j) && after.jobs[j].remaining <= 0 && after.jobs[j].total > 0
    ensures (op.CompleteChunk? && op.job == j && CompleteResult(db, j, op.index) == 0)
            || (Active(db, j) && db.jobs[j].remaining <= 0 && db.jobs[j].total > 0)
  {
  }

  lemma ConcludedStep(e: Setup, s: State, step: Step, j: JobId)
    requires Inv(e, s) && LifeInv(s) && Concluded(s, j) && Enabled(s, step) && FailStop(s, step, j)
    ensures Concluded(Next(e, s, step), j)
  {
    hide StoreOk, DbOk, TaskOk, WorkerOk, ProducerOk, LifeInv, FailStop;
    var after := Next(e, s, step);
    hide Next, Enabled;
    if Active(after.db, j) && after.db.jobs[j].remaining <= 0 && after.db.jobs[j].total > 0 {
      UsedUpByZero(e, s, step, j);
      if ReturnsZero(s, step, j) {
        ZeroConcludes(e, s, step, j);
      } else {
        var w :| 0 <= w < |s.workers| && Concludes(s.workers[w], j);
        FailStopStays(s, step, j);
        ConcluderStays(e, s, step, w, j);
      }
    }
  }

  lemma FailStopStays(s: State, step: Step, j: JobId)
    requires FailStop(s, step, j)
    ensures !Abandons(s, step, j)
  {
  }

  lemma ZeroConcludes(e: Setup, s: State, step: Step, j: JobId)
    requires ReturnsZero(s, step, j)
    ensures Enabled(s, step) && HasConcluder(Next(e, s, step), j)
  {
    var worker := s.workers[step.w];
    ProgramStages(e, s.db, s.store, worker.task, worker.pc, step.twice);
    hide Program, Tables.Apply;
    ConcluderIs(Next(e, s, step), j, step.w);
  }

  // ---- Jobs without chunks ----

  lemma EmptyStuckStep(e: Setup, s: State, step: Step)
    requires Inv(e, s) && EmptyStuck(s.db) && Enabled(s, step)
    ensures EmptyStuck(Next(e, s, step).db)
  {
    hide StoreOk, ProducerOk, DbOk, Plan;
    var op := OpOf(e, s, step);
    StepRunsOp(e, s, step);
    if step.Work? {
      var worker := s.workers[step.w];
      ProgramShape(e, s.db, s.store, worker.task, worker.pc, step.twice);
      assert WorkerOk(e, s.db, worker);
    }
    hide Program, Next;
    EmptyStuckOp(s.db, op);
  }

  lemma EmptyStuckOp(db: Db, op: Op)
    requires EmptyStuck(db) && Fresh(db, op)
    requires op.NoOp? || op.RecordDocument? || op.CreateJob? || (op.job in db.jobs && db.jobs[op.job].total > 0)
    ensures EmptyStuck(Tables.Apply(db, op))
  {
  }

  // ---- Everything published is safe ----

  lemma AllSafePublish(e: Setup, s: State, p: nat, j: JobId)
    requires Inv(e, s) && AllSafe(s, j) && Enabled(s, Publish(p))
    requires forall i: nat :: Safe(s, j, i) ==> Safe(ApplyPublish(s, p), j, i)
    ensures AllSafe(ApplyPublish(s, p), j)
  {
    hide StoreOk, TaskOk, WorkerOk, Plan;
    var after := ApplyPublish(s, p);
    var producer := s.producers[p];
    var job := producer.job;
    assert JobOk(e, s.db, job);
    if producer.next < |s.db.chunks[job]| {
      var t := TaskOf(s, job, producer.next);
      QueuedLive(after, job, producer.next, t);
      assert Safe(after, job, producer.next);
      hide Safe;
      assert after.producers == s.producers[p := producer.(next := producer.next + 1)];
    } else {
      hide Safe;
      assert after.producers == s.producers[p := Submitted(job)];
      if job == j {
        forall i: nat | i < s.db.jobs[job].total ensures Safe(after, job, i) {
          assert SendsMore(s.producers[p], j, i);
        }
      }
    }
  }

  /** Steps after which no more jobs or chunks are claimed to be published. */
  lemma AllSafeQuiet(s: State, after: State, j: JobId)
    requires AllSafe(s, j) && after.published == s.published && |after.producers| == |s.producers|
    requires j in s.db.jobs ==> j in after.db.jobs && SameJob(s.db.jobs[j], after.db.jobs[j])
    requires forall p :: 0 <= p < |s.producers| && after.producers[p].Sending? && after.producers[p].next > 0 ==>
      after.producers[p] == s.producers[p]
    requires forall i: nat :: Safe(s, j, i) ==> Safe(after, j, i)
    ensures AllSafe(after, j)
  {
    hide Safe;
    forall p, i: nat | 0 <= p < |after.producers| && SendsMore(after.producers[p], j, i) ensures Safe(after, j, i) {
      assert SendsMore(s.producers[p], j, i);
    }
  }

  lemma QuietStep(e: Setup, s: State, step: Step)
    requires Enabled(s, step) && !step.Publish?
    ensures var after := Next(e, s, step);
      && after.published == s.published && |after.producers| == |s.producers|
      && forall p :: 0 <= p < |s.producers| && after.producers[p].Sending? && after.producers[p].next > 0 ==>
           after.producers[p] == s.producers[p]
  {
    if WorkerEvent(step) {
      WorkerEventShape(e, s, step);
      hide Next;
    } else if step.Work? {
      hide Program, Tables.Apply;
    }
  }

  lemma AllSafeStep(e: Setup, s: State, step: Step, j: JobId)
    requires Inv(e, s) && LifeInv(s) && DoneCounted(s.db, s.counted) && Routable(e)
    requires AllSafe(s, j) && Enabled(s, step) && FailStop(s, step, j)
    ensures AllSafe(Next(e, s, step), j)
  {
    hide Inv, LifeInv, DoneCounted, Safe, AllSafe, FailStop, Evolves, SameJob;
    var after := Next(e, s, step);
    forall i: nat | Safe(s, j, i) ensures Safe(after, j, i) {
      SafeStep(e, s, step, j, i);
    }
    if step.Publish? {
      AllSafePublish(e, s, step.p, j);
    } else {
      QuietStep(e, s, step);
      StepRunsOp(e, s, step);
      hide Next;
      if j in s.db.jobs {
        JobEvolves(s.db, OpOf(e, s, step), j);
      }
      AllSafeQuiet(s, after, j);
    }
  }

  // ---- The theorem ----

  ghost predicate LostInv(s: State, j: JobId) {
    && DoneCounted(s.db, s.counted)
    && CountsOk(s.db, s.counted)
    && Concluded(s, j)
    && AllSafe(s, j)
    && EmptyStuck(s.db)
  }

  lemma CountedOf(e: Setup, s: State, step: Step)
    requires Enabled(s, step)
    ensures Next(e, s, step).counted == WithCounted(s.db, s.counted, OpOf(e, s, step))
  {
    if WorkerEvent(step) {
      WorkerEventShape(e, s, step);
      hide Next;
    } else if step.Work? {
      hide Program, Tables.Apply;
    }
  }

  lemma LostStep(e: Setup, s: State, step: Step, j: JobId)
    requires Inv(e, s) && LifeInv(s) && LostInv(s, j) && Routable(e)
    requires Enabled(s, step) && FailStop(s, step, j)
    ensures LostInv(Next(e, s, step), j)
  {
    var op := OpOf(e, s, step);
    StepRunsOp(e, s, step);
    CountedOf(e, s, step);
    hide Next, OpOf, DoneCounted, CountsOk, Concluded, AllSafe, EmptyStuck, JobOk, StoreOk, TaskOk, WorkerOk, ProducerOk, LifeInv, FailStop, Enabled;
    DoneCountedStep(e, s.db, s.counted, op);
    CountsStep(e, s.db, s.counted, op);
    ConcludedStep(e, s, step, j);
    AllSafeStep(e, s, step, j);
    EmptyStuckStep(e, s, step);
  }

  /** Every step of the run is fail-stop for the job. */
  ghost predicate FailStopRun(states: seq<State>, steps: seq<Step>, n: nat, j: JobId)
    requires n <= |steps| <= |states|
  {
    forall k :: 0 <= k < n ==> FailStop(states[k], steps[k], j)
  }

  lemma {:induction false} LostAlways(e: Setup, states: seq<State>, steps: seq<Step>, k: nat, j: JobId)
    requires IsRun(e, states, steps) && k < |states| && Routable(e) && FailStopRun(states, steps, k, j)
    ensures Inv(e, states[k]) && LifeInv(states[k]) && LostInv(states[k], j)
  {
    hide Inv, LifeInv, LostInv, FailStop, Next, Enabled;
    LifeAlways(e, states, steps, k);
    if k == 0 {
      LostInitially(states[0], j);
    } else {
      LostAlways(e, states, steps, k - 1, j);
      LostStep(e, states[k - 1], steps[k - 1], j);
    }
  }

  lemma LostInitially(s: State, j: JobId)
    requires Init(s)
    ensures LostInv(s, j)
  {
  }

  /** Nothing of the job is in flight: no message waits and no worker is busy with it. */
  ghost predicate Quiescent(s: State, j: JobId) {
    && (forall t :: t in s.queue ==> t.job != j)
    && (forall w :: 0 <= w < |s.workers| && s.workers[w].Busy? ==> s.workers[w].task.job != j)
  }

  /** Fewer counted chunks than there are leave one out. */
  lemma {:induction false} SomeUncounted(chunks: set<nat>, total: nat) returns (i: nat)
    requires |chunks| < total
    ensures i < total && i !in chunks
    decreases total
  {
    if total - 1 !in chunks {
      i := total - 1;
    } else {
      i := SomeUncounted(chunks - {total - 1}, total - 1);
    }
  }

  /**
   * A published job with nothing in flight is done or failed, unless it has no chunk at all, and
   * then it is queued for ever; whatever happens to other jobs, or to this one once it is settled.
   */
  lemma NoJobIsLost(e: Setup, states: seq<State>, steps: seq<Step>, k: nat, j: JobId)
    requires IsRun(e, states, steps) && k < |states| && Routable(e) && FailStopRun(states, steps, k, j)
    requires j in states[k].published && Quiescent(states[k], j)
    ensures j in states[k].db.jobs
    ensures Terminal(states[k].db.jobs[j].status) <==> Plan(e, states[k].db.jobs[j].doc.file) != []
  {
    hide StoreOk, TaskOk, WorkerOk, ProducerOk, LifeInv, FailStop, Safe, Plan;
    LostAlways(e, states, steps, k, j);
    var s := states[k];
    var row := s.db.jobs[j];
    assert JobOk(e, s.db, j) && CountOk(s.db, s.counted, j);
    if row.total > 0 {
      if !Terminal(row.status) {
        QuiescentSettles(s, j);
      }
    }
  }

  lemma QuiescentSettles(s: State, j: JobId)
    requires LostInv(s, j) && Quiescent(s, j) && j in s.published && j in s.db.jobs && s.db.jobs[j].total > 0
    ensures Terminal(s.db.jobs[j].status)
  {
    hide DoneCounted, EmptyStuck;
    var row := s.db.jobs[j];
    assert CountOk(s.db, s.counted, j);
    if row.remaining > 0 {
      var i := SomeUncounted(CountedChunks(s.counted, j), row.total);
      assert Safe(s, j, i);
      assert !Live(s, j, i);
    } else {
      assert !HasConcluder(s, j);
    }
  }

  // ---- Exactly when ----

  /** Some process died concluding the job before it was settled. */
  ghost predicate ConcluderDied(states: seq<State>, steps: seq<Step>, n: nat, j: JobId)
    requires n <= |steps| <= |states|
  {
    exists k :: 0 <= k < n && DiesConcluding(states[k], steps[k], j)
  }

  /**
   * Where no handler of the job raises before it is settled, a published job that has a chunk, has
   * nothing in flight and has not failed is done exactly when no process died concluding it.
   */
  lemma DoneUnlessConcluderDied(e: Setup, states: seq<State>, steps: seq<Step>, k: nat, j: JobId)
    requires IsRun(e, states, steps) && k < |states| && Routable(e)
    requires forall m :: 0 <= m < k ==> !Drops(states[m], steps[m], j)
    requires j in states[k].published && Quiescent(states[k], j)
    requires j in states[k].db.jobs && Plan(e, states[k].db.jobs[j].doc.file) != []
    requires !states[k].db.jobs[j].status.Failed?
    ensures states[k].db.jobs[j].status.Done? <==> !ConcluderDied(states, steps, k, j)
  {
    hide Next, Enabled, Init, Plan, Quiescent, Drops, DiesConcluding;
    if ConcluderDied(states, steps, k, j) {
      var m :| 0 <= m < k && DiesConcluding(states[m], steps[m], j);
      DeadIsFinal(e, states, steps, m, k, j);
    } else {
      NoJobIsLost(e, states, steps, k, j);
    }
  }

  /** The call that returned 0, and that its caller has seen through or is still at. */
  ghost predicate Concluding(states: seq<State>, steps: seq<Step>, a: nat, k: nat, j: JobId)
    requires k <= |steps| <= |states|
  {
    a < k && ReturnsZero(states[a], steps[a], j) && forall m :: a < m < k ==> !Abandons(states[m], steps[m], j)
  }

  /** As long as its concluder does not leave it, a job is settled or still has one. */
  lemma {:induction false} SettledOrConcluded(e: Setup, states: seq<State>, steps: seq<Step>, a: nat, k: nat, j: JobId)
    requires IsRun(e, states, steps) && k < |states| && Concluding(states, steps, a, k, j)
    ensures j in states[k].db.jobs && (Terminal(states[k].db.jobs[j].status) || HasConcluder(states[k], j))
    decreases k
  {
    hide Next, Enabled, Init, ReturnsZero, Abandons, Inv, LifeInv;
    var s, step := states[k - 1], steps[k - 1];
    if a == k - 1 {
      ZeroConcludes(e, s, step, j);
      ZeroUsesUp(e, s, step, j);
    } else {
      SettledOrConcluded(e, states, steps, a, k - 1, j);
      LifeAlways(e, states, steps, k - 1);
      StepRunsOp(e, s, step);
      JobEvolves(s.db, OpOf(e, s, step), j);
      if !Terminal(states[k].db.jobs[j].status) {
        var w :| 0 <= w < |s.workers| && Concludes(s.workers[w], j);
        ConcluderStays(e, s, step, w, j);
      }
    }
  }

  /**
   * Exactly when, in all runs and with no hypothesis on faults or routing: a job with nothing in
   * flight that has not failed is done if and only if some `complete_chunk` of it returned 0 and
   * its caller neither died nor raised while it concluded the unsettled job.
   */
  lemma DoneExactlyWhen(e: Setup, states: seq<State>, steps: seq<Step>, k: nat, j: JobId)
    requires IsRun(e, states, steps) && k < |states| && Quiescent(states[k], j)
    requires j in states[k].db.jobs && !states[k].db.jobs[j].status.Failed?
    ensures states[k].db.jobs[j].status.Done? <==> exists a: nat :: Concluding(states, steps, a, k, j)
  {
    hide Next, Enabled, Init, ReturnsZero;
    if states[k].db.jobs[j].status.Done? {
      var a := DoneHasZero(e, states, steps, k, j);
      forall m | a < m < k ensures !Abandons(states[m], steps[m], j) {
        if Abandons(states[m], steps[m], j) {
          DeadAssemblerIsNotReplaced(e, states, steps, m, k, j);
        }
      }
      assert Concluding(states, steps, a, k, j);
    } else if a: nat :| Concluding(states, steps, a, k, j) {
      SettledOrConcluded(e, states, steps, a, k, j);
    }
  }

  lemma DeadIsFinal(e: Setup, states: seq<State>, steps: seq<Step>, m: nat, k: nat, j: JobId)
    requires IsRun(e, states, steps) && m < k < |states| && DiesConcluding(states[m], steps[m], j)
    ensures j in states[k].db.jobs && !states[k].db.jobs[j].status.Done?
  {
    hide Next, Init;
    DeadAssemblerIsNotReplaced(e, states, steps, m, k, j);
  }

  /** The job of an empty plan stays queued in every run whatsoever. */
  lemma {:induction false} EmptyPlanIsStuck(e: Setup, states: seq<State>, steps: seq<Step>, k: nat, j: JobId)
    requires IsRun(e, states, steps) && k < |states|
    requires j in states[k].db.jobs && Plan(e, states[k].db.jobs[j].doc.file) == []
    ensures states[k].db.jobs[j].status.Queued?
  {
    hide StoreOk, TaskOk, WorkerOk, ProducerOk, Plan;
    EmptyStuckAlways(e, states, steps, k);
    InvAlways(e, states, steps, k);
    assert JobOk(e, states[k].db, j);
  }

  lemma {:induction false} EmptyStuckAlways(e: Setup, states: seq<State>, steps: seq<Step>, k: nat)
    requires IsRun(e, states, steps) && k < |states|
    ensures EmptyStuck(states[k].db)
  {
    hide Inv, Next, Enabled;
    if k > 0 {
      EmptyStuckAlways(e, states, steps, k - 1);
      InvAlways(e, states, steps, k - 1);
      EmptyStuckStep(e, states[k - 1], steps[k - 1]);
    }
  }
}
