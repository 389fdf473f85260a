/**
 * The life of a job over every run: who assembles it, how often, and how its status moves.
 * No hypothesis on deliveries, crashes or failures.
 */
module Lifecycle {
  import opened Types
  import opened Sequential
  import opened Tables
  import opened Protocol
  import opened Integrity

  predicate Assembles(worker: Worker, j: JobId) {
    worker.Busy? && worker.pc.Assembling? && worker.task.job == j
  }

  /** An assembling worker belongs to a job whose counter is used up, and not done before the worker finishes it. */
  ghost predicate AssemblerOk(db: Db, worker: Worker) {
    worker.Busy? && worker.pc.Assembling? ==>
      && worker.task.job in db.jobs
      && db.jobs[worker.task.job].remaining <= 0
      && (worker.pc.stage.Finished? <==> db.jobs[worker.task.job].status.Done?)
      && (worker.pc.stage.Recorded? || worker.pc.stage.Finished? ==> worker.task.doc in db.documents)
  }

  /** No two workers assemble the same job. */
  ghost predicate Alone(workers: seq<Worker>) {
    forall v, w :: 0 <= v < w < |workers| && workers[v].Busy? && workers[v].pc.Assembling? ==>
      !Assembles(workers[w], workers[v].task.job)
  }

  ghost predicate DoneRecorded(db: Db) {
    forall j :: j in db.jobs && db.jobs[j].status.Done? ==> db.jobs[j].doc in db.documents
  }

  ghost predicate LifeInv(s: State) {
    && (forall w :: 0 <= w < |s.workers| ==> AssemblerOk(s.db, s.workers[w]))
    && Alone(s.workers)
    && DoneRecorded(s.db)
  }

  /** Only `finish_job` makes a job done, and nothing undoes it. */
  lemma DoneOnlyByFinish(db: Db, op: Op, j: JobId)
    requires Fresh(db, op) && j in db.jobs && !op.FinishJob?
    ensures j in Tables.Apply(db, op).jobs
    ensures Tables.Apply(db, op).jobs[j].status.Done? <==> db.jobs[j].status.Done?
  {
  }

  lemma DoneRecordedStep(db: Db, op: Op)
    requires DoneRecorded(db) && Fresh(db, op)
    requires op.FinishJob? && op.job in db.jobs ==> db.jobs[op.job].doc in db.documents
    ensures DoneRecorded(Tables.Apply(db, op))
  {
  }

  /** A statement of another worker, or of this one outside `assemble`, leaves an assembler as it was. */
  lemma OtherAssembler(db: Db, op: Op, worker: Worker)
    requires AssemblerOk(db, worker) && Fresh(db, op)
    requires op.FinishJob? && worker.Busy? && worker.pc.Assembling? ==> op.job != worker.task.job
    ensures AssemblerOk(Tables.Apply(db, op), worker)
  {
    if worker.Busy? && worker.pc.Assembling? {
      var j := worker.task.job;
      JobEvolves(db, op, j);
      ApplyEvolves(db, op);
      if op.FinishJob? {
        ApplyElsewhere(db, op, j);
      } else {
        DoneOnlyByFinish(db, op, j);
      }
    }
  }

  /** The worker at work keeps its own part. */
  lemma OwnAssembler(e: Setup, s: State, w: nat, twice: bool)
    requires Inv(e, s) && LifeInv(s) && IsBusy(s, w) && !s.workers[w].pc.Acking?
    ensures var effect := Program(e, s.db, s.store, s.workers[w].task, s.workers[w].pc, twice);
      AssemblerOk(Tables.Apply(s.db, effect.op), s.workers[w].(pc := effect.pc))
  {
    hide DbOk, StoreOk, TaskOk, Program, ProducerOk;
    var worker := s.workers[w];
    var t := worker.task;
    var effect := Program(e, s.db, s.store, t, worker.pc, twice);
    ProgramShape(e, s.db, s.store, t, worker.pc, twice);
    ProgramStages(e, s.db, s.store, t, worker.pc, twice);
    if effect.pc.Assembling? {
      assert AssemblerOk(s.db, worker);
      assert WorkerOk(e, s.db, worker);
      TaskInTables(e, s.db, t);
      if worker.pc.PartStored? {
      } else if effect.op.RecordDocument? {
        assert InfoOk(e, t, worker.pc.stage.info);
      }
    }
  }

  lemma TaskInTables(e: Setup, db: Db, t: Task)
    requires TaskOk(e, db, t)
    ensures t.job in db.jobs && t.doc == db.jobs[t.job].doc
  {
  }

  lemma LifeEffect(e: Setup, s: State, w: nat, twice: bool)
    requires Inv(e, s) && LifeInv(s) && IsBusy(s, w) && !s.workers[w].pc.Acking?
    ensures LifeInv(ApplyWork(e, s, w, twice))
  {
    hide DbOk, StoreOk, TaskOk, Program, ProducerOk, Tables.Apply, AssemblerOk, DoneRecorded, WithPut, WithCounted;
    var worker := s.workers[w];
    var t := worker.task;
    var effect := Program(e, s.db, s.store, t, worker.pc, twice);
    var after := ApplyWork(e, s, w, twice);
    ProgramShape(e, s.db, s.store, t, worker.pc, twice);
    OwnAssembler(e, s, w, twice);
    forall v | 0 <= v < |s.workers| ensures AssemblerOk(after.db, after.workers[v]) {
      if v != w {
        assert !(worker.pc.Assembling? && Assembles(s.workers[v], t.job));
        OtherAssembler(s.db, effect.op, s.workers[v]);
      }
    }
    StaysAlone(e, s, w, twice);
    FinishIsRecorded(e, s, w, twice);
    DoneRecordedStep(s.db, effect.op);
  }

  /** Whoever finishes a job has recorded its document. */
  lemma FinishIsRecorded(e: Setup, s: State, w: nat, twice: bool)
    requires Inv(e, s) && LifeInv(s) && IsBusy(s, w) && !s.workers[w].pc.Acking?
    ensures var op := Program(e, s.db, s.store, s.workers[w].task, s.workers[w].pc, twice).op;
      op.FinishJob? ==> op.job in s.db.jobs && s.db.jobs[op.job].doc in s.db.documents
  {
    hide DbOk, StoreOk, TaskOk, Program, ProducerOk;
    var worker := s.workers[w];
    ProgramShape(e, s.db, s.store, worker.task, worker.pc, twice);
    assert AssemblerOk(s.db, worker);
    assert WorkerOk(e, s.db, worker);
    TaskInTables(e, s.db, worker.task);
  }

  /** A worker starts to assemble only when nobody assembles that job: its counter was still 1. */
  lemma StaysAlone(e: Setup, s: State, w: nat, twice: bool)
    requires Inv(e, s) && LifeInv(s) && IsBusy(s, w) && !s.workers[w].pc.Acking?
    ensures Alone(s.workers[w := s.workers[w].(pc := Program(e, s.db, s.store, s.workers[w].task, s.workers[w].pc, twice).pc)])
  {
    hide DbOk, StoreOk, TaskOk, Program, ProducerOk, DoneRecorded;
    var worker := s.workers[w];
    var t := worker.task;
    var pc := Program(e, s.db, s.store, t, worker.pc, twice).pc;
    ProgramStages(e, s.db, s.store, t, worker.pc, twice);
    if pc.Assembling? && !worker.pc.Assembling? {
      forall v | 0 <= v < |s.workers| ensures !Assembles(s.workers[v], t.job) {
        assert AssemblerOk(s.db, s.workers[v]);
      }
    }
  }

  /** Steps that leave the tables alone and put no worker into `assemble`. */
  lemma LifeQuiet(s: State, after: State)
    requires LifeInv(s) && after.db == s.db && |after.workers| == |s.workers|
    requires forall w :: 0 <= w < |s.workers| && after.workers[w].Busy? && after.workers[w].pc.Assembling? ==>
      s.workers[w].Busy? && after.workers[w].task == s.workers[w].task && after.workers[w].pc == s.workers[w].pc
    ensures LifeInv(after)
  {
    forall w | 0 <= w < |after.workers| ensures AssemblerOk(after.db, after.workers[w]) {
      assert AssemblerOk(s.db, s.workers[w]);
    }
  }

  lemma LifeEvent(e: Setup, s: State, step: Step)
    requires LifeInv(s) && Enabled(s, step) && !step.Work? && !step.Create?
    ensures LifeInv(Next(e, s, step))
  {
    hide Next, LifeInv;
    if WorkerEvent(step) {
      WorkerEventShape(e, s, step);
    } else {
      ProducerEventShape(e, s, step);
    }
    LifeQuiet(s, Next(e, s, step));
  }

  lemma LifeCreate(e: Setup, s: State, p: nat, job: JobId)
    requires LifeInv(s) && Enabled(s, Create(p, job))
    ensures LifeInv(Next(e, s, Create(p, job)))
  {
    hide Alone;
    var doc := s.producers[p].doc;
    var op := CreateJob(job, doc, doc.file, doc.llm, Plan(e, doc.file));
    forall w | 0 <= w < |s.workers| ensures AssemblerOk(Tables.Apply(s.db, op), s.workers[w]) {
      OtherAssembler(s.db, op, s.workers[w]);
    }
    DoneRecordedStep(s.db, op);
  }

  lemma LifeStep(e: Setup, s: State, step: Step)
    requires Inv(e, s) && LifeInv(s) && Enabled(s, step)
    ensures LifeInv(Next(e, s, step))
  {
    hide AssemblerOk, Alone, DoneRecorded, Inv, LifeInv;
    if step.Work? {
      if s.workers[step.w].pc.Acking? {
        LifeQuiet(s, ApplyWork(e, s, step.w, step.twice));
      } else {
        LifeEffect(e, s, step.w, step.twice);
      }
    } else if step.Create? {
      LifeCreate(e, s, step.p, step.job);
    } else {
      LifeEvent(e, s, step);
    }
  }

  lemma {:induction false} LifeAlways(e: Setup, states: seq<State>, steps: seq<Step>, k: nat)
    requires IsRun(e, states, steps) && k < |states|
    ensures Inv(e, states[k]) && LifeInv(states[k])
  {
    hide Inv, LifeInv, Next, Enabled;
    InvAlways(e, states, steps, k);
    if k > 0 {
      LifeAlways(e, states, steps, k - 1);
      LifeStep(e, states[k - 1], steps[k - 1]);
    } else {
      LifeInitially(states[0]);
    }
  }

  lemma LifeInitially(s: State)
    requires Init(s)
    ensures LifeInv(s)
  {
  }

  // ---- Over whole runs ----

  /** The step is a `complete_chunk` of job `j` that returns 0. */
  predicate ReturnsZero(s: State, step: Step, j: JobId) {
    && step.Work? && IsBusy(s, step.w)
    && s.workers[step.w].pc.PartStored? && s.workers[step.w].task.job == j
    && CompleteResult(s.db, j, s.workers[step.w].task.index) == 0
  }

  /** The step is a `finish_job` of job `j`. */
  predicate Finishes(s: State, step: Step, j: JobId) {
    step.Work? && IsBusy(s, step.w) && s.workers[step.w].pc == Assembling(Recorded) && s.workers[step.w].task.job == j
  }

  lemma EvolvesReflexive(db: Db)
    ensures Evolves(db, db)
  {
  }

  /**
   * Along every run no row disappears, `done` is final, `queued` is never entered again, `failed`
   * is left only for `done`, and the counter never grows, so reported progress never moves backward.
   */
  lemma {:induction false} RunEvolves(e: Setup, states: seq<State>, steps: seq<Step>, a: nat, b: nat)
    requires IsRun(e, states, steps) && a <= b < |states|
    ensures Evolves(states[a].db, states[b].db)
    decreases b - a
  {
    hide Evolves;
    if a == b {
      EvolvesReflexive(states[a].db);
    } else {
      RunEvolves(e, states, steps, a, b - 1);
      var s, step := states[b - 1], steps[b - 1];
      StepRunsOp(e, s, step);
      ApplyEvolves(s.db, OpOf(e, s, step));
      EvolvesTransitive(states[a].db, s.db, states[b].db);
    }
  }

  lemma ZeroUsesUp(e: Setup, s: State, step: Step, j: JobId)
    requires ReturnsZero(s, step, j)
    ensures j in s.db.jobs && s.db.jobs[j].remaining == 1
    ensures Enabled(s, step) && j in Next(e, s, step).db.jobs && Next(e, s, step).db.jobs[j].remaining == 0
  {
    var worker := s.workers[step.w];
    ProgramShape(e, s.db, s.store, worker.task, worker.pc, step.twice);
    hide Program;
    WorkRunsOp(e, s, step.w, step.twice);
  }

  /** At most one `complete_chunk` call per job ever returns 0. */
  lemma ZeroOnce(e: Setup, states: seq<State>, steps: seq<Step>, a: nat, b: nat, j: JobId)
    requires IsRun(e, states, steps) && a < b < |steps|
    requires ReturnsZero(states[a], steps[a], j)
    ensures !ReturnsZero(states[b], steps[b], j)
  {
    ZeroUsesUp(e, states[a], steps[a], j);
    RunEvolves(e, states, steps, a + 1, b);
  }

  /** At any time at most one worker assembles a job. */
  lemma OneAssembler(e: Setup, states: seq<State>, steps: seq<Step>, k: nat, v: nat, w: nat, j: JobId)
    requires IsRun(e, states, steps) && k < |states|
    requires v < |states[k].workers| && Assembles(states[k].workers[v], j)
    requires w < |states[k].workers| && Assembles(states[k].workers[w], j)
    ensures v == w
  {
    hide Inv, AssemblerOk, DoneRecorded, Next, IsRun;
    LifeAlways(e, states, steps, k);
  }

  /** A worker in `assemble` got there by the one call that returned 0, and has stayed there since. */
  lemma {:induction false} AssemblerGotZero(e: Setup, states: seq<State>, steps: seq<Step>, k: nat, w: nat, j: JobId) returns (a: nat)
    requires IsRun(e, states, steps) && k < |states|
    requires w < |states[k].workers| && Assembles(states[k].workers[w], j)
    ensures a < k && ReturnsZero(states[a], steps[a], j) && steps[a].w == w
    ensures forall m :: a < m <= k ==> w < |states[m].workers| && Assembles(states[m].workers[w], j)
  {
    hide Next, Enabled;
    assert k > 0;
    var s, step := states[k - 1], steps[k - 1];
    BecomesAssembler(e, s, step, w, j);
    if ReturnsZero(s, step, j) && step.w == w {
      a := k - 1;
    } else {
      a := AssemblerGotZero(e, states, steps, k - 1, w, j);
    }
  }

  lemma BecomesAssembler(e: Setup, s: State, step: Step, w: nat, j: JobId)
    requires Enabled(s, step) && w < |Next(e, s, step).workers| && Assembles(Next(e, s, step).workers[w], j)
    ensures w < |s.workers|
    ensures (ReturnsZero(s, step, j) && step.w == w) || Assembles(s.workers[w], j)
  {
    if step.Work? {
      var worker := s.workers[step.w];
      ProgramStages(e, s.db, s.store, worker.task, worker.pc, step.twice);
      hide Program;
    } else if WorkerEvent(step) {
      WorkerEventShape(e, s, step);
      hide Next;
    } else if !step.Create? {
      ProducerEventShape(e, s, step);
      hide Next;
    }
  }

  lemma FinishMakesDone(e: Setup, s: State, step: Step, j: JobId)
    requires Finishes(s, step, j) && j in s.db.jobs
    ensures Enabled(s, step) && j in Next(e, s, step).db.jobs && Next(e, s, step).db.jobs[j].status.Done?
  {
    var worker := s.workers[step.w];
    ProgramShape(e, s.db, s.store, worker.task, worker.pc, step.twice);
    hide Program;
    WorkRunsOp(e, s, step.w, step.twice);
  }

  /** A job is finished at most once, and never when it is already done. */
  lemma FinishOnce(e: Setup, states: seq<State>, steps: seq<Step>, a: nat, b: nat, j: JobId)
    requires IsRun(e, states, steps) && a < b < |steps|
    requires Finishes(states[a], steps[a], j)
    ensures !Finishes(states[b], steps[b], j)
  {
    hide Inv, Alone, DoneRecorded;
    LifeAlways(e, states, steps, a);
    LifeAlways(e, states, steps, b);
    assert AssemblerOk(states[a].db, states[a].workers[steps[a].w]);
    FinishMakesDone(e, states[a], steps[a], j);
    RunEvolves(e, states, steps, a + 1, b);
  }

  lemma StatusChange(e: Setup, s: State, step: Step, j: JobId)
    requires Enabled(s, step) && j in s.db.jobs && s.db.jobs[j].status.Failed?
    ensures j in Next(e, s, step).db.jobs
    ensures !Next(e, s, step).db.jobs[j].status.Failed? ==> Next(e, s, step).db.jobs[j].status.Done? && Finishes(s, step, j)
  {
    hide Program, Next;
    StepRunsOp(e, s, step);
    JobEvolves(s.db, OpOf(e, s, step), j);
    if step.Work? {
      var worker := s.workers[step.w];
      ProgramShape(e, s.db, s.store, worker.task, worker.pc, step.twice);
    }
  }

  /** `failed` is left only for `done`, and only by the one worker whose `complete_chunk` returned 0. */
  lemma FailedLeftByAssembler(e: Setup, states: seq<State>, steps: seq<Step>, k: nat, j: JobId) returns (a: nat)
    requires IsRun(e, states, steps) && k < |steps|
    requires j in states[k].db.jobs && states[k].db.jobs[j].status.Failed?
    requires j in states[k + 1].db.jobs && !states[k + 1].db.jobs[j].status.Failed?
    ensures states[k + 1].db.jobs[j].status.Done? && Finishes(states[k], steps[k], j)
    ensures a < k && ReturnsZero(states[a], steps[a], j) && steps[a].w == steps[k].w
  {
    StatusChange(e, states[k], steps[k], j);
    a := AssemblerGotZero(e, states, steps, k, steps[k].w, j);
  }

  lemma DoneByFinish(e: Setup, s: State, step: Step, j: JobId)
    requires Enabled(s, step) && j in s.db.jobs && !s.db.jobs[j].status.Done?
    ensures j in Next(e, s, step).db.jobs
    ensures Next(e, s, step).db.jobs[j].status.Done? ==> Finishes(s, step, j)
  {
    hide Program, Next;
    StepRunsOp(e, s, step);
    if step.Work? {
      var worker := s.workers[step.w];
      ProgramShape(e, s.db, s.store, worker.task, worker.pc, step.twice);
    }
  }

  /** The worker was chosen to assemble job `j` and has neither finished nor failed it. */
  predicate Concludes(worker: Worker, j: JobId) {
    worker.Busy? && worker.task.job == j && (worker.pc.Assembling? || worker.pc.AssemblyFailed?)
  }

  lemma BecomesConcluder(e: Setup, s: State, step: Step, w: nat, j: JobId)
    requires Enabled(s, step) && w < |Next(e, s, step).workers| && Concludes(Next(e, s, step).workers[w], j)
    ensures w < |s.workers|
    ensures (ReturnsZero(s, step, j) && step.w == w) || Concludes(s.workers[w], j)
  {
    if step.Work? {
      var worker := s.workers[step.w];
      ProgramStages(e, s.db, s.store, worker.task, worker.pc, step.twice);
      hide Program, Tables.Apply, WithPut, WithCounted;
    } else if WorkerEvent(step) {
      WorkerEventShape(e, s, step);
      hide Next;
    } else if !step.Create? {
      ProducerEventShape(e, s, step);
      hide Next;
    }
  }

  /** A worker that concludes a job, in `assemble` or on the way to fail it, is the one that got 0 back. */
  lemma {:induction false} ConcluderGotZero(e: Setup, states: seq<State>, steps: seq<Step>, k: nat, w: nat, j: JobId) returns (a: nat)
    requires IsRun(e, states, steps) && k < |states|
    requires w < |states[k].workers| && Concludes(states[k].workers[w], j)
    ensures a < k && ReturnsZero(states[a], steps[a], j) && steps[a].w == w
  {
    hide Next, Enabled;
    assert k > 0;
    var s, step := states[k - 1], steps[k - 1];
    BecomesConcluder(e, s, step, w, j);
    if ReturnsZero(s, step, j) && step.w == w {
      a := k - 1;
    } else {
      a := ConcluderGotZero(e, states, steps, k - 1, w, j);
    }
  }

  /**
   * A worker that dies after its `complete_chunk` returned 0 and before `finish_job`, in `assemble`
   * or between an assembly error and `fail_job`, or gives up there on a call that raised, leaves a
   * job that never becomes done in any continuation: nobody else is ever chosen to assemble it.
   */
  lemma {:induction false} DeadAssemblerIsNotReplaced(e: Setup, states: seq<State>, steps: seq<Step>, b: nat, k: nat, j: JobId)
    requires IsRun(e, states, steps) && b < k < |states|
    requires (steps[b].Crash? || steps[b].HandlerRaises?) && Concludes(states[b].workers[steps[b].w], j)
    requires j in states[b].db.jobs && !states[b].db.jobs[j].status.Done?
    ensures j in states[k].db.jobs && !states[k].db.jobs[j].status.Done?
  {
    hide Init, Next, Assembles, Concludes;
    var s, step := states[k - 1], steps[k - 1];
    var a := ConcluderGotZero(e, states, steps, b, steps[b].w, j);
    var crashed := states[b + 1];
    LeavingEnds(e, states[b], steps[b], j);
    if b < k - 1 {
      DeadAssemblerIsNotReplaced(e, states, steps, b, k - 1, j);
    }
    DoneByFinish(e, s, step, j);
    if b < k - 1 && Finishes(s, step, j) {
      FinisherAssembles(s, step, j);
      var a' := AssemblerGotZero(e, states, steps, k - 1, step.w, j);
      if a < a' {
        ZeroOnce(e, states, steps, a, a', j);
      } else if a' < a {
        ZeroOnce(e, states, steps, a', a, j);
      }
      assert false;
    }
  }

  lemma FinisherAssembles(s: State, step: Step, j: JobId)
    requires Finishes(s, step, j)
    ensures Assembles(s.workers[step.w], j)
  {
  }

  lemma LeavingEnds(e: Setup, s: State, step: Step, j: JobId)
    requires (step.Crash? || step.HandlerRaises?) && Enabled(s, step)
    ensures var after := Next(e, s, step);
      step.w < |after.workers| && !Assembles(after.workers[step.w], j) && after.db == s.db
  {
    WorkerEventShape(e, s, step);
    hide Next;
  }

  /** A done job has its document recorded, with the figures of the sequential conversion. */
  lemma DoneIsRecorded(e: Setup, states: seq<State>, steps: seq<Step>, k: nat, j: JobId)
    requires IsRun(e, states, steps) && k < |states|
    requires j in states[k].db.jobs && states[k].db.jobs[j].status.Done?
    ensures var doc := states[k].db.jobs[j].doc;
      && doc in states[k].db.documents
      && states[k].db.documents[doc] == SequentialRow(e, doc)
      && var row := states[k].db.documents[doc];
         && row.file == doc.file && row.totalPages == |Pages(e, doc)| && row.totalChunks == |Plan(e, doc.file)|
         && row.totalLength == |Sequential.Markdown(e, doc)| && row.pageSize == e.pageSize
  {
    hide AssemblerOk, Alone, StoreOk, TaskOk, WorkerOk, ProducerOk, JobOk, Pages, Plan, Sequential.Markdown;
    LifeAlways(e, states, steps, k);
  }

  /** A done job has got its zero. */
  lemma {:induction false} DoneHasZero(e: Setup, states: seq<State>, steps: seq<Step>, k: nat, j: JobId) returns (a: nat)
    requires IsRun(e, states, steps) && k < |states| && j in states[k].db.jobs && states[k].db.jobs[j].status.Done?
    ensures a < k && ReturnsZero(states[a], steps[a], j)
  {
    hide Next, ReturnsZero;
    assert k > 0;
    var s, step := states[k - 1], steps[k - 1];
    if j in s.db.jobs {
      if s.db.jobs[j].status.Done? {
        a := DoneHasZero(e, states, steps, k - 1, j);
      } else {
        DoneByFinish(e, s, step, j);
        a := AssemblerGotZero(e, states, steps, k - 1, step.w, j);
      }
    } else {
      NewIsQueued(e, s, step, j);
    }
  }

  lemma NewIsQueued(e: Setup, s: State, step: Step, j: JobId)
    requires Enabled(s, step) && j !in s.db.jobs && j in Next(e, s, step).db.jobs
    ensures Next(e, s, step).db.jobs[j].status.Queued?
  {
    StepRunsOp(e, s, step);
    hide Next, OpOf, Tables.Apply;
    NewRowIsQueued(s.db, OpOf(e, s, step), j);
  }

  lemma NewRowIsQueued(db: Db, op: Op, j: JobId)
    requires j !in db.jobs && j in Tables.Apply(db, op).jobs
    ensures Tables.Apply(db, op).jobs[j].status.Queued?
  {
  }
}
