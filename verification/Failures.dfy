/** A job fails only for a reason: a message on its last attempt was parked, or its assembly went wrong. */
module Failures {
  import opened Types
  import opened Sequential
  import opened Tables
  import opened Protocol
  import opened Integrity
  import opened Lifecycle

  /** A parked message of this job and chunk that had used its last attempt. */
  ghost predicate Poisoned(e: Setup, failed: multiset<Task>, j: JobId, index: nat, attempt: nat) {
    attempt >= e.maxAttempts && exists t :: t in failed && t.job == j && t.index == index && t.attempt == attempt
  }

  ghost predicate ReasonOk(e: Setup, failed: multiset<Task>, j: JobId, row: JobRow) {
    row.status.Failed? ==>
      row.error.Some? && (row.error.value.PoisonChunk? ==> Poisoned(e, failed, j, row.error.value.index, row.error.value.attempt))
  }

  ghost predicate ReasonInv(e: Setup, s: State) {
    && (forall w :: 0 <= w < |s.workers| && s.workers[w].Busy? && (s.workers[w].pc.Parked? || s.workers[w].pc.ChunkMarkedFailed?) ==>
          s.workers[w].task in s.failed)
    && (forall j :: j in s.db.jobs ==> ReasonOk(e, s.failed, j, s.db.jobs[j]))
  }

  lemma ReasonOp(e: Setup, db: Db, failed: multiset<Task>, later: multiset<Task>, op: Op, j: JobId)
    requires Fresh(db, op) && failed <= later && j in Tables.Apply(db, op).jobs
    requires j in db.jobs ==> ReasonOk(e, failed, j, db.jobs[j])
    requires op.FailJob? && op.error.PoisonChunk? ==> Poisoned(e, later, op.job, op.error.index, op.error.attempt)
    ensures ReasonOk(e, later, j, Tables.Apply(db, op).jobs[j])
  {
  }

  /** Where a worker fails a job for a poison chunk, its message has been parked. */
  lemma FailIsJustified(e: Setup, s: State, w: nat, twice: bool)
    requires Inv(e, s) && ReasonInv(e, s) && IsBusy(s, w) && !s.workers[w].pc.Acking?
    ensures var worker := s.workers[w];
      var effect := Program(e, s.db, s.store, worker.task, worker.pc, twice);
      && (effect.op.FailJob? && effect.op.error.PoisonChunk? ==>
            Poisoned(e, s.failed + effect.parked, effect.op.job, effect.op.error.index, effect.op.error.attempt))
      && (effect.pc.Parked? || effect.pc.ChunkMarkedFailed? ==> worker.task in s.failed + effect.parked)
  {
    hide DbOk, StoreOk, TaskOk, ProducerOk, Assemble;
    var worker := s.workers[w];
    assert WorkerOk(e, s.db, worker);
    if worker.pc.Assembling? {
      ProgramShape(e, s.db, s.store, worker.task, worker.pc, twice);
      AssembleNeverParks(e, s.db, s.store, worker.task, worker.pc.stage);
    }
  }

  lemma AssembleNeverParks(e: Setup, db: Db, store: Store, t: Task, stage: Stage)
    ensures var pc := Assemble(e, db, store, t, stage).pc; !pc.Parked? && !pc.ChunkMarkedFailed?
  {
  }

  lemma ReasonEffect(e: Setup, s: State, w: nat, twice: bool)
    requires Inv(e, s) && ReasonInv(e, s) && IsBusy(s, w) && !s.workers[w].pc.Acking?
    ensures ReasonInv(e, ApplyWork(e, s, w, twice))
  {
    hide Inv, Program, Tables.Apply, Poisoned, ReasonOk, WithPut, WithCounted;
    var worker := s.workers[w];
    var effect := Program(e, s.db, s.store, worker.task, worker.pc, twice);
    var after := ApplyWork(e, s, w, twice);
    FailIsJustified(e, s, w, twice);
    WorkRunsOp(e, s, w, twice);
    forall j | j in after.db.jobs ensures ReasonOk(e, after.failed, j, after.db.jobs[j]) {
      ReasonOp(e, s.db, s.failed, after.failed, effect.op, j);
    }
  }

  lemma ReasonStep(e: Setup, s: State, step: Step)
    requires Inv(e, s) && ReasonInv(e, s) && Enabled(s, step)
    ensures ReasonInv(e, Next(e, s, step))
  {
    hide Inv, ReasonOk;
    if step.Work? && !s.workers[step.w].pc.Acking? {
      ReasonEffect(e, s, step.w, step.twice);
    } else if step.Create? {
      ReasonCreate(e, s, step.p, step.job);
    } else {
      ReasonEvent(e, s, step);
    }
  }

  lemma ReasonCreate(e: Setup, s: State, p: nat, job: JobId)
    requires ReasonInv(e, s) && Enabled(s, Create(p, job))
    ensures ReasonInv(e, Next(e, s, Create(p, job)))
  {
    hide Poisoned;
  }

  lemma ReasonEvent(e: Setup, s: State, step: Step)
    requires ReasonInv(e, s) && Enabled(s, step) && !step.Create?
    requires step.Work? ==> s.workers[step.w].pc.Acking?
    ensures ReasonInv(e, Next(e, s, step))
  {
    hide ReasonOk;
    if WorkerEvent(step) {
      WorkerEventShape(e, s, step);
      hide Next;
    } else if ProducerEvent(step) {
      ProducerEventShape(e, s, step);
      hide Next;
    }
  }

  lemma {:induction false} ReasonAlways(e: Setup, states: seq<State>, steps: seq<Step>, k: nat)
    requires IsRun(e, states, steps) && k < |states|
    ensures ReasonInv(e, states[k])
  {
    hide Inv, ReasonInv, Next, Enabled;
    if k > 0 {
      InvAlways(e, states, steps, k - 1);
      ReasonAlways(e, states, steps, k - 1);
      ReasonStep(e, states[k - 1], steps[k - 1]);
    } else {
      ReasonInitially(e, states[0]);
    }
  }

  lemma ReasonInitially(e: Setup, s: State)
    requires Init(s)
    ensures ReasonInv(e, s)
  {
  }

  /** A worker assembling job `j` runs into an error in this step: a part is missing or a call raised. */
  predicate AssemblyBreaks(s: State, after: State, step: Step, j: JobId) {
    && (step.Work? || step.AssemblyRaises?)
    && step.w < |s.workers| && Assembles(s.workers[step.w], j)
    && step.w < |after.workers| && after.workers[step.w].Busy? && after.workers[step.w].pc.AssemblyFailed?
  }

  /** Somewhere before, the assembly broke. */
  ghost predicate BrokeBefore(states: seq<State>, steps: seq<Step>, k: nat, j: JobId)
    requires k < |states| == |steps| + 1
  {
    exists m :: 0 <= m < k && AssemblyBreaks(states[m], states[m + 1], steps[m], j)
  }

  lemma BrokenByStep(e: Setup, s: State, step: Step, w: nat)
    requires Enabled(s, step) && w < |Next(e, s, step).workers|
    requires var worker := Next(e, s, step).workers[w]; worker.Busy? && worker.pc.AssemblyFailed?
    ensures w < |s.workers|
    ensures var worker := Next(e, s, step).workers[w];
      || AssemblyBreaks(s, Next(e, s, step), step, worker.task.job)
      || (s.workers[w].Busy? && s.workers[w].pc.AssemblyFailed? && s.workers[w].task == worker.task)
  {
    if step.Work? {
      NextOfWork(e, s, step.w, step.twice);
      hide Next, ApplyWork;
      BrokenByWork(e, s, step.w, step.twice, w);
    } else if WorkerEvent(step) {
      WorkerEventShape(e, s, step);
      hide Next;
    } else if ProducerEvent(step) {
      ProducerEventShape(e, s, step);
      hide Next;
    }
  }

  lemma BrokenByWork(e: Setup, s: State, v: nat, twice: bool, w: nat)
    requires IsBusy(s, v) && w < |ApplyWork(e, s, v, twice).workers|
    requires var worker := ApplyWork(e, s, v, twice).workers[w]; worker.Busy? && worker.pc.AssemblyFailed?
    ensures w < |s.workers|
    ensures var worker := ApplyWork(e, s, v, twice).workers[w];
      || AssemblyBreaks(s, ApplyWork(e, s, v, twice), Work(v, twice), worker.task.job)
      || (s.workers[w].Busy? && s.workers[w].pc.AssemblyFailed? && s.workers[w].task == worker.task)
  {
    var worker := s.workers[v];
    ProgramStages(e, s.db, s.store, worker.task, worker.pc, twice);
    hide Program, Tables.Apply, WithPut, WithCounted;
  }

  lemma BrokeLater(states: seq<State>, steps: seq<Step>, k: nat, j: JobId)
    requires k + 1 < |states| == |steps| + 1 && BrokeBefore(states, steps, k, j)
    ensures BrokeBefore(states, steps, k + 1, j)
  {
  }

  lemma {:induction false} FailedAssemblerBroke(e: Setup, states: seq<State>, steps: seq<Step>, k: nat, w: nat)
    requires IsRun(e, states, steps) && k < |states|
    requires w < |states[k].workers| && states[k].workers[w].Busy? && states[k].workers[w].pc.AssemblyFailed?
    ensures BrokeBefore(states, steps, k, states[k].workers[w].task.job)
  {
    hide Next, Enabled, AssemblyBreaks;
    var j := states[k].workers[w].task.job;
    assert k > 0;
    BrokenByStep(e, states[k - 1], steps[k - 1], w);
    if !AssemblyBreaks(states[k - 1], states[k], steps[k - 1], j) {
      FailedAssemblerBroke(e, states, steps, k - 1, w);
      BrokeLater(states, steps, k - 1, j);
    }
  }

  lemma AssemblyErrorBy(e: Setup, s: State, step: Step, j: JobId)
    requires Enabled(s, step) && j in Next(e, s, step).db.jobs && Next(e, s, step).db.jobs[j].error == Some(JobError.AssemblyError)
    ensures (j in s.db.jobs && s.db.jobs[j].error == Some(JobError.AssemblyError))
            || (step.Work? && IsBusy(s, step.w) && s.workers[step.w].pc.AssemblyFailed? && s.workers[step.w].task.job == j)
  {
    StepRunsOp(e, s, step);
    if step.Work? {
      AssemblyErrorAt(e, s.db, s.store, s.workers[step.w].task, s.workers[step.w].pc, step.twice);
    }
    hide Next, Program, Tables.Apply;
    AssemblyErrorOp(s.db, OpOf(e, s, step), j);
  }

  lemma AssemblyErrorOp(db: Db, op: Op, j: JobId)
    requires j in Tables.Apply(db, op).jobs && Tables.Apply(db, op).jobs[j].error == Some(JobError.AssemblyError)
    ensures (j in db.jobs && db.jobs[j].error == Some(JobError.AssemblyError)) || op == FailJob(j, JobError.AssemblyError)
  {
  }

  lemma AssemblyErrorAt(e: Setup, db: Db, store: Store, t: Task, pc: Pc, twice: bool)
    ensures var op := Program(e, db, store, t, pc, twice).op;
      op.FailJob? ==> op.job == t.job && (op.error.AssemblyError? ==> pc.AssemblyFailed?)
  {
  }

  lemma {:induction false} AssemblyErrorBroke(e: Setup, states: seq<State>, steps: seq<Step>, k: nat, j: JobId)
    requires IsRun(e, states, steps) && k < |states|
    requires j in states[k].db.jobs && states[k].db.jobs[j].error == Some(JobError.AssemblyError)
    ensures BrokeBefore(states, steps, k, j)
  {
    hide Next, Enabled, AssemblyBreaks;
    assert k > 0;
    AssemblyErrorBy(e, states[k - 1], steps[k - 1], j);
    if j in states[k - 1].db.jobs && states[k - 1].db.jobs[j].error == Some(JobError.AssemblyError) {
      AssemblyErrorBroke(e, states, steps, k - 1, j);
    } else {
      FailedAssemblerBroke(e, states, steps, k - 1, steps[k - 1].w);
    }
    BrokeLater(states, steps, k - 1, j);
  }

  /**
   * A failed job names its reason, and the reason is real: a message of that job and chunk, on its
   * last attempt, is on the failed queue, or a worker assembling the job ran into an error.
   */
  lemma FailureIsJustified(e: Setup, states: seq<State>, steps: seq<Step>, k: nat, j: JobId)
    requires IsRun(e, states, steps) && k < |states|
    requires j in states[k].db.jobs && states[k].db.jobs[j].status.Failed?
    ensures var error := states[k].db.jobs[j].error;
      && error.Some?
      && (match error.value
          case PoisonChunk(index, attempt) => Poisoned(e, states[k].failed, j, index, attempt)
          case AssemblyError => BrokeBefore(states, steps, k, j))
  {
    hide Poisoned;
    ReasonAlways(e, states, steps, k);
    assert ReasonOk(e, states[k].failed, j, states[k].db.jobs[j]);
    if states[k].db.jobs[j].error.value.AssemblyError? {
      AssemblyErrorBroke(e, states, steps, k, j);
    }
  }
}
