/** Runs put together step by step, to show what the service can get into. */
module Scripts {
  import opened Types
  import opened Sequential
  import opened Tables
  import opened Keys
  import opened Protocol

  /** No handler raises, and no process dies unless `crashes`. */
  predicate Orderly(step: Step, crashes: bool) {
    !step.HandlerRaises? && (step.Crash? ==> crashes)
  }

  /** An orderly run ends in this state. */
  ghost predicate Reached(e: Setup, crashes: bool, s: State) {
    exists states, steps :: EndsIn(e, crashes, states, steps, s)
  }

  ghost predicate EndsIn(e: Setup, crashes: bool, states: seq<State>, steps: seq<Step>, s: State) {
    IsRun(e, states, steps) && states[|steps|] == s && OrderlyRun(steps, crashes)
  }

  ghost predicate OrderlyRun(steps: seq<Step>, crashes: bool) {
    forall k :: 0 <= k < |steps| ==> Orderly(steps[k], crashes)
  }

  /** A fleet of two workers and one API process, before anything happened. */
  function Start(): State {
    State(Db(map[], map[], map[]), map[], multiset{}, multiset{}, [Idle, Idle], [Free], {}, map[])
  }

  lemma ReachedStart(e: Setup, crashes: bool)
    ensures Reached(e, crashes, Start())
  {
    assert EndsIn(e, crashes, [Start()], [], Start());
  }

  lemma ReachedNext(e: Setup, crashes: bool, s: State, step: Step)
    requires Reached(e, crashes, s) && Enabled(s, step) && Orderly(step, crashes)
    ensures Reached(e, crashes, Next(e, s, step))
  {
    hide Next, Enabled, Init;
    var states, steps :| EndsIn(e, crashes, states, steps, s);
    var after := Next(e, s, step);
    assert EndsIn(e, crashes, states + [after], steps + [step], after);
  }

  // ---- A worker and one message ----

  /** The tables after `start_chunk`. */
  function Started(db: Db, t: Task): Db {
    Tables.Apply(Tables.Apply(db, StartChunkRow(t.job, t.index, t.attempt)), StartJobRow(t.job))
  }

  /** A worker has taken the message up to the conversion; with `keep` the broker has put the message back meanwhile. */
  function TakenUp(s: State, w: nat, t: Task, keep: bool): State
    requires w < |s.workers|
  {
    s.(db := Started(s.db, t), queue := if keep then s.queue else s.queue - multiset{t},
       workers := s.workers[w := Busy(t, !keep, Converting)])
  }

  lemma StepTo(e: Setup, crashes: bool, s: State, step: Step, after: State)
    requires Reached(e, crashes, s) && Enabled(s, step) && Orderly(step, crashes) && Next(e, s, step) == after
    ensures Reached(e, crashes, after)
  {
    ReachedNext(e, crashes, s, step);
  }

  lemma Receive(e: Setup, crashes: bool, s: State, w: nat, t: Task, keep: bool)
    requires Reached(e, crashes, s) && w < |s.workers| && s.workers[w].Idle? && t in s.queue
    ensures Reached(e, crashes, s.(queue := if keep then s.queue else s.queue - multiset{t}, workers := s.workers[w := Busy(t, !keep, Received)]))
  {
    hide Reached;
    var s1 := Next(e, s, Deliver(w, t));
    StepTo(e, crashes, s, Deliver(w, t), s1);
    if keep {
      var s2 := Next(e, s1, Redeliver(w));
      StepTo(e, crashes, s1, Redeliver(w), s2);
      assert s2.queue == s.queue;
      assert s2.workers == s.workers[w := Busy(t, false, Received)];
    }
  }

  /** One statement of a worker that sends nothing. */
  lemma Do(e: Setup, crashes: bool, s: State, w: nat, pc: Pc, op: Op)
    requires Reached(e, crashes, s) && IsBusy(s, w) && !s.workers[w].pc.Acking?
    requires Program(e, s.db, s.store, s.workers[w].task, s.workers[w].pc, false) == Execute(pc, op) && !op.CompleteChunk?
    ensures Reached(e, crashes, s.(db := Tables.Apply(s.db, op), workers := s.workers[w := s.workers[w].(pc := pc)]))
  {
    hide Reached, Program, Tables.Apply;
    var after := Next(e, s, Work(w, false));
    assert after.queue == s.queue && after.failed == s.failed;
    StepTo(e, crashes, s, Work(w, false), after);
  }

  lemma Admit(e: Setup, crashes: bool, s: State, w: nat, t: Task, keep: bool)
    requires Reached(e, crashes, s) && w < |s.workers| && s.workers[w].Idle? && t in s.queue && Active(s.db, t.job)
    ensures Reached(e, crashes, s.(queue := if keep then s.queue else s.queue - multiset{t}, workers := s.workers[w := Busy(t, !keep, Admitted)]))
  {
    hide Reached, Tables.Apply;
    Receive(e, crashes, s, w, t, keep);
    var s1 := s.(queue := if keep then s.queue else s.queue - multiset{t}, workers := s.workers[w := Busy(t, !keep, Received)]);
    Do(e, crashes, s1, w, Admitted, NoOp);
    NoOpDoesNothing(s.db);
    assert s1.workers[w := s1.workers[w].(pc := Admitted)] == s.workers[w := Busy(t, !keep, Admitted)];
  }

  lemma StartChunk(e: Setup, crashes: bool, s: State, w: nat)
    requires Reached(e, crashes, s) && IsBusy(s, w) && s.workers[w].pc.Admitted?
    ensures Reached(e, crashes, s.(db := Started(s.db, s.workers[w].task), workers := s.workers[w := s.workers[w].(pc := Converting)]))
  {
    hide Reached, Tables.Apply;
    var worker := s.workers[w];
    var t := worker.task;
    var first := StartChunkRow(t.job, t.index, t.attempt);
    Do(e, crashes, s, w, RowStarted, first);
    var s1 := s.(db := Tables.Apply(s.db, first), workers := s.workers[w := worker.(pc := RowStarted)]);
    Do(e, crashes, s1, w, Converting, StartJobRow(t.job));
    assert s1.workers[w := s1.workers[w].(pc := Converting)] == s.workers[w := worker.(pc := Converting)];
  }

  lemma TakeUp(e: Setup, crashes: bool, s: State, w: nat, t: Task, keep: bool)
    requires Reached(e, crashes, s) && w < |s.workers| && s.workers[w].Idle? && t in s.queue && Active(s.db, t.job)
    ensures Reached(e, crashes, TakenUp(s, w, t, keep))
  {
    hide Reached, Started;
    Admit(e, crashes, s, w, t, keep);
    var s1 := s.(queue := if keep then s.queue else s.queue - multiset{t}, workers := s.workers[w := Busy(t, !keep, Admitted)]);
    StartChunk(e, crashes, s1, w);
    assert s1.workers[w := s1.workers[w].(pc := Converting)] == s.workers[w := Busy(t, !keep, Converting)];
  }

  lemma NoOpDoesNothing(db: Db)
    ensures Tables.Apply(db, NoOp) == db
  {
  }

  /** From the conversion to the stored part. */
  lemma Convert(e: Setup, crashes: bool, s: State, w: nat)
    requires Reached(e, crashes, s) && IsBusy(s, w) && s.workers[w].pc.Converting?
    ensures var t := s.workers[w].task;
      Reached(e, crashes, s.(store := s.store[PartKey(t.doc, t.index) := TextObject(e.convert(t.file, t.range, t.llm))],
                             workers := s.workers[w := s.workers[w].(pc := PartStored)]))
  {
    hide Reached, Tables.Apply;
    var worker := s.workers[w];
    var t := worker.task;
    var text := e.convert(t.file, t.range, t.llm);
    Do(e, crashes, s, w, Converted(text), NoOp);
    NoOpDoesNothing(s.db);
    var s1 := s.(workers := s.workers[w := worker.(pc := Converted(text))]);
    var s2 := Next(e, s1, Work(w, false));
    StepTo(e, crashes, s1, Work(w, false), s2);
    assert s2.workers == s.workers[w := worker.(pc := PartStored)];
    assert s2.queue == s.queue && s2.failed == s.failed;
  }

  /** `complete_chunk`. */
  function Completed(s: State, w: nat): State
    requires IsBusy(s, w)
  {
    var t := s.workers[w].task;
    var pc := if CompleteResult(s.db, t.job, t.index) == 0 then Assembling(Counted) else Acking;
    s.(db := Tables.Apply(s.db, CompleteChunk(t.job, t.index)), counted := WithCounted(s.db, s.counted, CompleteChunk(t.job, t.index)),
       workers := s.workers[w := s.workers[w].(pc := pc)])
  }

  lemma Complete(e: Setup, crashes: bool, s: State, w: nat)
    requires Reached(e, crashes, s) && IsBusy(s, w) && s.workers[w].pc.PartStored?
    ensures Reached(e, crashes, Completed(s, w))
  {
    hide Reached, Tables.Apply;
    var after := Next(e, s, Work(w, false));
    assert after.queue == s.queue && after.failed == s.failed;
    StepTo(e, crashes, s, Work(w, false), after);
  }

  /** The acknowledgement. */
  lemma Acknowledge(e: Setup, crashes: bool, s: State, w: nat)
    requires Reached(e, crashes, s) && IsBusy(s, w) && s.workers[w].pc.Acking?
    ensures Reached(e, crashes, s.(workers := s.workers[w := Idle]))
  {
    hide Reached;
    StepTo(e, crashes, s, Work(w, false), s.(workers := s.workers[w := Idle]));
  }

  /** A failed conversion with attempts left: rescheduled, sent on to a retry tier if there is one, and acknowledged. */
  lemma Retry(e: Setup, crashes: bool, s: State, w: nat)
    requires Reached(e, crashes, s) && IsBusy(s, w) && s.workers[w].pc.Converting? && s.workers[w].task.attempt < e.maxAttempts
    ensures var t := s.workers[w].task;
      Reached(e, crashes, s.(db := Tables.Apply(s.db, RescheduleChunk(t.job, t.index)), queue := s.queue + Retried(e, t, false),
                             workers := s.workers[w := Idle]))
  {
    hide Reached, Tables.Apply, Retried;
    var worker := s.workers[w];
    var t := worker.task;
    var s1 := s.(workers := s.workers[w := worker.(pc := Failing)]);
    StepTo(e, crashes, s, ConversionRaises(w), s1);
    var db := Tables.Apply(s.db, RescheduleChunk(t.job, t.index));
    Do(e, crashes, s1, w, Rescheduled, RescheduleChunk(t.job, t.index));
    var s2 := s.(db := db, workers := s.workers[w := worker.(pc := Rescheduled)]);
    assert s2 == s1.(db := db, workers := s1.workers[w := s1.workers[w].(pc := Rescheduled)]);
    var s3 := s2.(queue := s.queue + Retried(e, t, false), workers := s.workers[w := worker.(pc := Acking)]);
    NoOpDoesNothing(db);
    var s3' := Next(e, s2, Work(w, false));
    assert s3'.failed == s3.failed && s3'.workers == s3.workers;
    StepTo(e, crashes, s2, Work(w, false), s3);
    Acknowledge(e, crashes, s3, w);
    assert s3.workers[w := Idle] == s.workers[w := Idle];
  }

  /** A failed conversion on the last attempt, up to `fail_chunk`. */
  lemma Park(e: Setup, crashes: bool, s: State, w: nat)
    requires Reached(e, crashes, s) && IsBusy(s, w) && s.workers[w].pc.Converting? && s.workers[w].task.attempt >= e.maxAttempts
    ensures var t := s.workers[w].task;
      Reached(e, crashes, s.(db := Tables.Apply(s.db, FailChunk(t.job, t.index)), failed := s.failed + multiset{t},
                             workers := s.workers[w := s.workers[w].(pc := ChunkMarkedFailed)]))
  {
    hide Reached, Tables.Apply;
    var worker := s.workers[w];
    var t := worker.task;
    var s1 := s.(workers := s.workers[w := worker.(pc := Failing)]);
    StepTo(e, crashes, s, ConversionRaises(w), s1);
    var s2 := s.(failed := s.failed + multiset{t}, workers := s.workers[w := worker.(pc := Parked)]);
    NoOpDoesNothing(s.db);
    var s2' := Next(e, s1, Work(w, false));
    assert s2'.queue == s2.queue && s2'.workers == s2.workers;
    StepTo(e, crashes, s1, Work(w, false), s2);
    var db := Tables.Apply(s.db, FailChunk(t.job, t.index));
    Do(e, crashes, s2, w, ChunkMarkedFailed, FailChunk(t.job, t.index));
    assert s2.workers[w := s2.workers[w].(pc := ChunkMarkedFailed)] == s.workers[w := worker.(pc := ChunkMarkedFailed)];
  }

  // ---- Publishing a job ----

  /** The messages of a job, in chunk order. */
  function Batch(e: Setup, doc: DocKey, j: JobId): (tasks: seq<Task>)
    ensures |tasks| == |Plan(e, doc.file)|
    ensures forall i :: 0 <= i < |tasks| ==> tasks[i].job == j && tasks[i].index == i && tasks[i].attempt == 1
  {
    var plan := Plan(e, doc.file);
    seq(|plan|, i requires 0 <= i < |plan| => Task(j, i, doc, doc.file, plan[i], |plan|, doc.llm, 1))
  }

  function Created(e: Setup, doc: DocKey, j: JobId): Db {
    Tables.Apply(Db(map[], map[], map[]), CreateJob(j, doc, doc.file, doc.llm, Plan(e, doc.file)))
  }

  function Sent(e: Setup, doc: DocKey, j: JobId, n: nat): State
    requires n <= |Plan(e, doc.file)|
  {
    State(Created(e, doc, j), map[], multiset(Batch(e, doc, j)[..n]), multiset{}, [Idle, Idle], [Sending(j, n, false)], {}, map[])
  }

  lemma CreateOne(e: Setup, crashes: bool, doc: DocKey, j: JobId)
    ensures Reached(e, crashes, Sent(e, doc, j, 0))
  {
    hide Reached, Plan, Tables.Apply;
    ReachedStart(e, crashes);
    var s1 := Start().(producers := [Hashed(doc)]);
    StepTo(e, crashes, Start(), Submit(0, doc), s1);
    var s2 := Start().(producers := [Uncached(doc)]);
    StepTo(e, crashes, s1, Lookup(0), s2);
    assert Batch(e, doc, j)[..0] == [];
    StepTo(e, crashes, s2, Create(0, j), Sent(e, doc, j, 0));
  }

  lemma {:induction false} SendAll(e: Setup, crashes: bool, doc: DocKey, j: JobId, n: nat)
    requires n <= |Plan(e, doc.file)|
    ensures Reached(e, crashes, Sent(e, doc, j, n))
  {
    hide Reached, Plan, Next, Enabled, Sent;
    if n == 0 {
      CreateOne(e, crashes, doc, j);
    } else {
      SendAll(e, crashes, doc, j, n - 1);
      SendOne(e, doc, j, n - 1);
      StepTo(e, crashes, Sent(e, doc, j, n - 1), Publish(0), Sent(e, doc, j, n));
    }
  }

  lemma SendOne(e: Setup, doc: DocKey, j: JobId, i: nat)
    requires i < |Plan(e, doc.file)|
    ensures Enabled(Sent(e, doc, j, i), Publish(0))
    ensures Next(e, Sent(e, doc, j, i), Publish(0)) == Sent(e, doc, j, i + 1)
  {
    hide Plan, Batch;
    var s := Sent(e, doc, j, i);
    var batch := Batch(e, doc, j);
    assert batch[..i + 1] == batch[..i] + [batch[i]];
    BatchFromTables(e, doc, j, s, i);
    hide Created;
    assert Next(e, s, Publish(0)).producers == [Sending(j, i + 1, false)];
  }

  lemma BatchFromTables(e: Setup, doc: DocKey, j: JobId, s: State, i: nat)
    requires s.db == Created(e, doc, j) && i < |Plan(e, doc.file)|
    ensures j in s.db.jobs && j in s.db.chunks && |s.db.chunks[j]| == |Plan(e, doc.file)|
    ensures TaskOf(s, j, i) == Batch(e, doc, j)[i]
  {
    hide Plan;
  }

  /** The job has been submitted, and its messages wait. */
  function Published(e: Setup, doc: DocKey, j: JobId): State {
    Sent(e, doc, j, |Plan(e, doc.file)|).(producers := [Submitted(j)], published := {j})
  }

  lemma PublishAll(e: Setup, crashes: bool, doc: DocKey, j: JobId)
    ensures Reached(e, crashes, Published(e, doc, j))
  {
    hide Reached, Plan;
    var n := |Plan(e, doc.file)|;
    SendAll(e, crashes, doc, j, n);
    StepTo(e, crashes, Sent(e, doc, j, n), Publish(0), Published(e, doc, j));
  }
}
