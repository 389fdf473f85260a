/**
 * Exactly when the promises hold. Two of them are stated over all runs of a deployment and
 * proved equivalent to a condition on its settings; where the condition fails, a run that
 * breaks the promise is constructed for every document concerned.
 */
module Boundaries {
  import opened Types
  import opened Sequential
  import opened Tables
  import opened Keys
  import opened Protocol
  import opened Integrity
  import opened Lifecycle
  import opened Counter
  import opened NoLostJob
  import opened Scripts
  import TaskQueue

  // ---- Losing a job ----

  /** The publish returned, nothing of the job is in flight, and the job is neither done nor failed. */
  ghost predicate Lost(s: State, j: JobId) {
    j in s.published && Quiescent(s, j) && !(j in s.db.jobs && Terminal(s.db.jobs[j].status))
  }

  /** No run of the deployment that is fail-stop for a job loses it. */
  ghost predicate NeverLoses(e: Setup) {
    forall states, steps, j :: IsRun(e, states, steps) && FailStopRun(states, steps, |steps|, j) ==> !Lost(states[|steps|], j)
  }

  lemma StaysActive(db: Db, t: Task)
    requires Active(db, t.job)
    ensures Active(Tables.Apply(Started(db, t), RescheduleChunk(t.job, t.index)), t.job)
  {
  }

  /** Without a retry tier every waiting message can be lost, one after the other. */
  lemma {:induction false} DropAll(e: Setup, j: JobId, s: State, batch: seq<Task>) returns (lost: State)
    requires Reached(e, false, s) && s.workers == [Idle, Idle] && j in s.published && Active(s.db, j)
    requires s.queue == multiset(batch) && forall i :: 0 <= i < |batch| ==> batch[i].job == j && batch[i].attempt == 1
    requires batch == [] || !Routable(e)
    ensures Reached(e, false, lost) && Lost(lost, j)
    decreases |batch|
  {
    hide Reached, Tables.Apply, Started, Lost;
    lost := s;
    if batch == [] {
      NothingWaits(s, j);
    } else {
      var t, rest := batch[0], batch[1..];
      assert batch == [t] + rest;
      assert s.queue - multiset{t} == multiset(rest);
      DropOne(e, s, t);
      StaysActive(s.db, t);
      var s' := s.(db := Tables.Apply(Started(s.db, t), RescheduleChunk(t.job, t.index)), queue := s.queue - multiset{t});
      lost := DropAll(e, j, s', rest);
    }
  }

  lemma NothingWaits(s: State, j: JobId)
    requires s.workers == [Idle, Idle] && s.queue == multiset{} && j in s.published && Active(s.db, j)
    ensures Lost(s, j)
  {
  }

  lemma DropOne(e: Setup, s: State, t: Task)
    requires Reached(e, false, s) && s.workers == [Idle, Idle] && t in s.queue && Active(s.db, t.job)
    requires !Routable(e) && t.attempt == 1
    ensures Reached(e, false, s.(db := Tables.Apply(Started(s.db, t), RescheduleChunk(t.job, t.index)), queue := s.queue - multiset{t}))
  {
    hide Reached, Tables.Apply, Started;
    TakeUp(e, false, s, 0, t, false);
    var s1 := TakenUp(s, 0, t, false);
    Retry(e, false, s1, 0);
    assert s1.queue + Retried(e, t, false) == s1.queue;
    assert s1.workers[0 := Idle] == s.workers;
  }

  lemma NewJobIsActive(e: Setup, doc: DocKey, j: JobId)
    ensures Active(Created(e, doc, j), j)
  {
  }

  /** A document without chunks, or any document under a deployment that drops retries, can be lost. */
  lemma LosingRun(e: Setup, doc: DocKey, j: JobId) returns (states: seq<State>, steps: seq<Step>)
    requires !Routable(e) || Plan(e, doc.file) == []
    ensures IsRun(e, states, steps) && OrderlyRun(steps, false) && Lost(states[|steps|], j)
  {
    hide Tables.Apply, Plan, Lost, Created, Next, Enabled, Init;
    PublishAll(e, false, doc, j);
    NewJobIsActive(e, doc, j);
    var s := Published(e, doc, j);
    var batch := Batch(e, doc, j);
    assert batch[..|batch|] == batch;
    var lost := DropAll(e, j, s, batch);
    states, steps :| EndsIn(e, false, states, steps, lost);
  }

  /**
   * Runs that are fail-stop for a job do not lose it exactly when retries have a tier to go to (or there are none) and
   * no document has an empty plan.
   */
  lemma NeverLosesExactly(e: Setup)
    ensures NeverLoses(e) <==> Routable(e) && forall file :: Plan(e, file) != []
  {
    hide Plan, Quiescent, FailStop, Routable, Next, Enabled, Init;
    if Routable(e) && forall file :: Plan(e, file) != [] {
      forall states: seq<State>, steps: seq<Step>, j | IsRun(e, states, steps) && FailStopRun(states, steps, |steps|, j)
        ensures !Lost(states[|steps|], j)
      {
        if j in states[|steps|].published && Quiescent(states[|steps|], j) {
          NoJobIsLost(e, states, steps, |steps|, j);
        }
      }
    } else {
      var file: FileHash := if Routable(e) then var f :| Plan(e, f) == []; f else "";
      var states, steps := LosingRun(e, DocKey(file, false), "");
      OrderlyIsFailStop(states, steps, "");
    }
  }

  /** The same in terms of the declared topology: every retry reaches a queue, or there are none. */
  lemma NeverLosesByTopology(e: Setup, n: TaskQueue.Names)
    requires e.retryTiers == |n.delays|
    ensures var t := TaskQueue.Declared(TaskQueue.Blank, n);
      NeverLoses(e) <==>
        && (e.maxAttempts <= 1 || forall attempt: nat :: attempt >= 1 ==> TaskQueue.Route(t, TaskQueue.RetryExchange(n), TaskQueue.RetryQueueName(n, attempt)) != {})
        && forall file :: Plan(e, file) != []
  {
    hide Plan, NeverLoses, TaskQueue.Declared, TaskQueue.Route, TaskQueue.RetryExchange, TaskQueue.RetryQueueName;
    NeverLosesExactly(e);
    var t := TaskQueue.Declared(TaskQueue.Blank, n);
    forall attempt: nat | attempt >= 1
      ensures TaskQueue.Route(t, TaskQueue.RetryExchange(n), TaskQueue.RetryQueueName(n, attempt)) != {} <==> e.retryTiers > 0
    {
      TaskQueue.PublishesAreRouted(n, attempt);
    }
    assert e.retryTiers == 0 ==> TaskQueue.Route(t, TaskQueue.RetryExchange(n), TaskQueue.RetryQueueName(n, 1)) == {};
  }

  lemma OrderlyIsFailStop(states: seq<State>, steps: seq<Step>, j: JobId)
    requires |steps| <= |states| && OrderlyRun(steps, false)
    ensures FailStopRun(states, steps, |steps|, j)
  {
  }

  // ---- Completing chunks one after the other ----

  /** Of the job's `n` chunks exactly the first `k` are done, and the counter says so. */
  ghost predicate FirstDone(db: Db, j: JobId, n: nat, k: nat) {
    && Active(db, j) && db.jobs[j].remaining == n - k
    && j in db.chunks && |db.chunks[j]| == n
    && (k > 0 ==> db.jobs[j].status.Running?)
    && forall i :: 0 <= i < n ==> (db.chunks[j][i].status.ChunkDone? <==> i < k)
  }

  lemma ActiveFirst(db: Db, j: JobId, n: nat, k: nat)
    requires FirstDone(db, j, n, k)
    ensures Active(db, j)
  {
  }

  lemma NothingDone(e: Setup, doc: DocKey, j: JobId)
    ensures FirstDone(Created(e, doc, j), j, |Plan(e, doc.file)|, 0)
  {
    hide Plan;
  }

  lemma StartedFirst(db: Db, t: Task, n: nat, k: nat)
    requires FirstDone(db, t.job, n, k)
    ensures FirstDone(Started(db, t), t.job, n, k)
  {
  }

  lemma OneMoreDone(db: Db, t: Task, n: nat)
    requires FirstDone(db, t.job, n, t.index) && t.index < n
    ensures CompleteResult(Started(db, t), t.job, t.index) == n - t.index - 1
    ensures FirstDone(Tables.Apply(Started(db, t), CompleteChunk(t.job, t.index)), t.job, n, t.index + 1)
  {
    StartedFirst(db, t, n, t.index);
    hide Started;
  }

  /** A message for a chunk that is done changes nothing in the tables of a running job. */
  lemma NothingToDo(db: Db, t: Task)
    requires ChunkIsDone(db, t.job, t.index) && t.job in db.jobs && db.jobs[t.job].status.Running?
    ensures Started(db, t) == db && Tables.Apply(db, RescheduleChunk(t.job, t.index)) == db
    ensures CompleteResult(db, t.job, t.index) == CHUNK_ALREADY_DONE
  {
  }

  /** A worker stores the part and completes the chunk; with `keep` the message is still waiting. */
  lemma ConvertAndComplete(e: Setup, crashes: bool, s: State, w: nat, t: Task, keep: bool) returns (after: State)
    requires Reached(e, crashes, s) && w < |s.workers| && s.workers[w].Idle? && t in s.queue && Active(s.db, t.job)
    ensures Reached(e, crashes, after) && after.published == s.published
    ensures after.db == Tables.Apply(Started(s.db, t), CompleteChunk(t.job, t.index))
    ensures after.store.Keys == s.store.Keys + {PartKey(t.doc, t.index)}
    ensures after.queue == if keep then s.queue else s.queue - multiset{t}
    ensures var pc := if CompleteResult(Started(s.db, t), t.job, t.index) == 0 then Assembling(Counted) else Acking;
      after.workers == s.workers[w := Busy(t, !keep, pc)]
  {
    hide Reached, Tables.Apply, Started, CompleteResult, WithCounted, Active;
    TakeUp(e, crashes, s, w, t, keep);
    var s1 := TakenUp(s, w, t, keep);
    Convert(e, crashes, s1, w);
    var s2 := s1.(store := s1.store[PartKey(t.doc, t.index) := TextObject(e.convert(t.file, t.range, t.llm))],
                  workers := s1.workers[w := s1.workers[w].(pc := PartStored)]);
    Complete(e, crashes, s2, w);
    after := Completed(s2, w);
  }

  /** The fleet at rest after the first `k` chunks; with `keep` no message has left the queue. */
  ghost predicate AfterFirst(e: Setup, crashes: bool, doc: DocKey, j: JobId, keep: bool, k: nat, s: State)
    requires k <= |Plan(e, doc.file)|
  {
    && Reached(e, crashes, s) && s.workers == [Idle, Idle] && j in s.published
    && FirstDone(s.db, j, |Plan(e, doc.file)|, k)
    && s.queue == multiset(Batch(e, doc, j)[if keep then 0 else k..])
    && (forall i :: 0 <= i < k ==> PartKey(doc, i) in s.store)
  }

  lemma {:induction false} CompleteFirst(e: Setup, crashes: bool, doc: DocKey, j: JobId, keep: bool, k: nat) returns (s: State)
    requires k < |Plan(e, doc.file)|
    ensures AfterFirst(e, crashes, doc, j, keep, k, s)
  {
    hide Reached, Tables.Apply, Started, Plan, CompleteResult, FirstDone, Created;
    var batch := Batch(e, doc, j);
    if k == 0 {
      PublishAll(e, crashes, doc, j);
      NothingDone(e, doc, j);
      s := Published(e, doc, j);
      assert batch[..|batch|] == batch == batch[0..];
    } else {
      var before := CompleteFirst(e, crashes, doc, j, keep, k - 1);
      s := CompleteOne(e, crashes, doc, j, keep, k - 1, before);
    }
  }

  lemma CompleteOne(e: Setup, crashes: bool, doc: DocKey, j: JobId, keep: bool, k: nat, s: State) returns (after: State)
    requires k + 1 < |Plan(e, doc.file)| && AfterFirst(e, crashes, doc, j, keep, k, s)
    ensures AfterFirst(e, crashes, doc, j, keep, k + 1, after)
  {
    hide Reached, Tables.Apply, Started, Plan, CompleteResult, FirstDone;
    var t := NextMessage(e, crashes, doc, j, keep, k, s);
    OneMoreDone(s.db, t, |Plan(e, doc.file)|);
    after := ConvertAndComplete(e, crashes, s, 0, t, keep);
    Acknowledge(e, crashes, after, 0);
    after := after.(workers := after.workers[0 := Idle]);
    assert after.workers == [Idle, Idle];
  }

  /** The message of the next chunk is waiting. */
  lemma NextMessage(e: Setup, crashes: bool, doc: DocKey, j: JobId, keep: bool, k: nat, s: State) returns (t: Task)
    requires k < |Plan(e, doc.file)| && AfterFirst(e, crashes, doc, j, keep, k, s)
    ensures t == Batch(e, doc, j)[k] && t in s.queue && Active(s.db, j)
    ensures !keep ==> s.queue - multiset{t} == multiset(Batch(e, doc, j)[k + 1..])
  {
    hide Reached, Plan, FirstDone;
    ActiveFirst(s.db, j, |Plan(e, doc.file)|, k);
    var batch := Batch(e, doc, j);
    hide Batch;
    t := batch[k];
    if keep {
      assert batch[0..] == batch;
    } else {
      assert batch[k..] == [t] + batch[k + 1..];
    }
  }

  // ---- A crash at the wrong moment ----

  /** The worker that got 0 back dies, and its message comes back to find the chunk done. */
  lemma CrashAfterZero(e: Setup, s: State, t: Task) returns (lost: State)
    requires Reached(e, true, s) && s.workers == [Idle, Idle] && s.queue == multiset{t} && t.job in s.published
    requires FirstDone(s.db, t.job, t.index + 1, t.index)
    ensures Reached(e, true, lost) && Lost(lost, t.job) && FirstDone(lost.db, t.job, t.index + 1, t.index + 1)
  {
    hide Reached, Tables.Apply, Started, CompleteResult;
    var j, n := t.job, t.index + 1;
    OneMoreDone(s.db, t, n);
    var s1 := ConvertAndComplete(e, true, s, 0, t, false);
    var s2 := s1.(queue := multiset{t}, workers := [Idle, Idle]);
    StepTo(e, true, s1, Crash(0), s2);
    NothingToDo(s2.db, t);
    var s3 := ConvertAndComplete(e, true, s2, 0, t, false);
    AlreadyDoneChangesNothing(s2.db, j, t.index);
    Acknowledge(e, true, s3, 0);
    lost := s3.(workers := s3.workers[0 := Idle]);
  }

  lemma AlreadyDoneChangesNothing(db: Db, j: JobId, i: nat)
    requires ChunkIsDone(db, j, i)
    ensures Tables.Apply(db, CompleteChunk(j, i)) == db
  {
  }

  /**
   * Why the no-lost-job theorem has to exclude one crash: for every document there is a run in
   * which no call raises, every chunk is done and counted, and the job is running for ever.
   */
  lemma CrashLosesJob(e: Setup, doc: DocKey, j: JobId) returns (states: seq<State>, steps: seq<Step>)
    requires Plan(e, doc.file) != []
    ensures IsRun(e, states, steps) && OrderlyRun(steps, true)
    ensures Lost(states[|steps|], j) && FirstDone(states[|steps|].db, j, |Plan(e, doc.file)|, |Plan(e, doc.file)|)
  {
    hide Reached, Plan, FirstDone, Lost, Next, Enabled, Init;
    var n := |Plan(e, doc.file)|;
    var s := CompleteFirst(e, true, doc, j, false, n - 1);
    var t := NextMessage(e, true, doc, j, false, n - 1, s);
    assert Batch(e, doc, j)[n - 1..] == [t];
    var lost := CrashAfterZero(e, s, t);
    assert Reached(e, true, lost);
    states, steps := RunTo(e, true, lost);
  }

  /**
   * Why it has to exclude a raising handler, too: for every document with a chunk there is a run
   * without a death in which a single handler raises, as it receives the last message, and the
   * job is lost with that message.
   */
  lemma RaiseLosesJob(e: Setup, doc: DocKey, j: JobId) returns (states: seq<State>, steps: seq<Step>)
    requires Plan(e, doc.file) != []
    ensures IsRun(e, states, steps) && |steps| >= 2 && steps[|steps| - 2].HandlerRaises? && Lost(states[|steps|], j)
    ensures forall k :: 0 <= k < |steps| && k != |steps| - 2 ==> Orderly(steps[k], false)
  {
    hide Reached, Plan, FirstDone, Lost, Next, Enabled, Init, Orderly;
    var n := |Plan(e, doc.file)|;
    var s := CompleteFirst(e, false, doc, j, false, n - 1);
    var t := NextMessage(e, false, doc, j, false, n - 1, s);
    assert Batch(e, doc, j)[n..] == [];
    Receive(e, false, s, 0, t, false);
    var s1 := s.(queue := s.queue - multiset{t}, workers := s.workers[0 := Busy(t, true, Received)]);
    states, steps := RunTo(e, false, s1);
    var s2 := RaiseAndDrop(e, s1, 0);
    var s3 := s1.(workers := s1.workers[0 := Idle]);
    assert s3.workers == [Idle, Idle];
    NothingWaits(s3, j);
    AppendStep(e, states, steps, HandlerRaises(0));
    AppendStep(e, states + [s2], steps + [HandlerRaises(0)], Work(0, false));
    OrderlyWork(0);
    states, steps := states + [s2] + [s3], steps + [HandlerRaises(0)] + [Work(0, false)];
  }

  lemma OrderlyWork(w: nat)
    ensures Orderly(Work(w, false), false)
  {
  }

  /** The handler raises, and the message is acknowledged. */
  lemma RaiseAndDrop(e: Setup, s: State, w: nat) returns (raised: State)
    requires IsBusy(s, w) && s.workers[w].pc.Received?
    ensures Enabled(s, HandlerRaises(w)) && raised == Next(e, s, HandlerRaises(w))
    ensures Enabled(raised, Work(w, false)) && Next(e, raised, Work(w, false)) == s.(workers := s.workers[w := Idle])
  {
    raised := Next(e, s, HandlerRaises(w));
  }

  lemma RunTo(e: Setup, crashes: bool, s: State) returns (states: seq<State>, steps: seq<Step>)
    requires Reached(e, crashes, s)
    ensures IsRun(e, states, steps) && states[|steps|] == s && OrderlyRun(steps, crashes)
  {
    states, steps :| EndsIn(e, crashes, states, steps, s);
  }

  // ---- A chunk counted twice ----

  /** Copies of a message whose chunk is done fail until the attempts are used up; then `fail_chunk` undoes the chunk. */
  lemma {:induction false} Poison(e: Setup, s: State, t: Task, attempt: nat) returns (after: State)
    requires Reached(e, false, s) && s.workers == [Idle, Idle] && Routable(e)
    requires t in s.queue && t.(attempt := attempt) in s.queue && attempt >= 1
    requires ChunkIsDone(s.db, t.job, t.index) && t.job in s.db.jobs && s.db.jobs[t.job].status.Running?
    ensures Reached(e, false, after) && after.db == Tables.Apply(s.db, FailChunk(t.job, t.index)) && t in after.queue
    ensures |after.workers| == 2 && after.workers[1].Idle?
    decreases e.maxAttempts - attempt
  {
    hide Reached, Tables.Apply, Started;
    var u := t.(attempt := attempt);
    NothingToDo(s.db, u);
    TakeUp(e, false, s, 0, u, true);
    var s1 := TakenUp(s, 0, u, true);
    if attempt >= e.maxAttempts {
      Park(e, false, s1, 0);
      after := s1.(db := Tables.Apply(s.db, FailChunk(t.job, t.index)), failed := s1.failed + multiset{u},
                   workers := s1.workers[0 := s1.workers[0].(pc := ChunkMarkedFailed)]);
    } else {
      Retry(e, false, s1, 0);
      var s2 := s.(queue := s.queue + multiset{t.(attempt := attempt + 1)});
      assert s1.workers[0 := Idle] == [Idle, Idle];
      after := Poison(e, s2, t, attempt + 1);
    }
  }

  /** The last chunk but one is done, another is undone again: completing that one again uses up the counter. */
  lemma CountAgain(db: Db, t: Task, n: nat)
    requires t.index + 1 < n && FirstDone(db, t.job, n, n - 1)
    ensures var undone := Tables.Apply(db, FailChunk(t.job, t.index));
      && Active(undone, t.job)
      && CompleteResult(Started(undone, t), t.job, t.index) == 0
      && var after := Tables.Apply(Started(undone, t), CompleteChunk(t.job, t.index));
         t.job in after.chunks && |after.chunks[t.job]| == n && !after.chunks[t.job][n - 1].status.ChunkDone?
  {
  }

  /**
   * Why the counter needs its hypothesis: for every document of at least two chunks there is a
   * run without a death or a raising handler in which `complete_chunk` returns 0 and the last chunk has never been converted.
   */
  lemma CountedTwice(e: Setup, doc: DocKey, j: JobId) returns (states: seq<State>, steps: seq<Step>)
    requires Routable(e) && |Plan(e, doc.file)| >= 2
    ensures IsRun(e, states, steps) && OrderlyRun(steps, false) && |steps| >= 1
    ensures var k := |steps| - 1; ReturnsZero(states[k], steps[k], j) && !AllDone(states[k + 1].db, j)
  {
    hide Reached, Plan, Next, Enabled, Init, FirstDone, Started, Tables.Apply, CompleteResult;
    var n := |Plan(e, doc.file)|;
    var s := CompleteFirst(e, false, doc, j, true, n - 1);
    var t := Batch(e, doc, j)[0];
    assert Batch(e, doc, j)[0..] == Batch(e, doc, j);
    FirstIsDone(s.db, j, n, n - 1);
    var s1 := Poison(e, s, t, 1);
    CountAgain(s.db, t, n);
    TakeUp(e, false, s1, 1, t, false);
    Convert(e, false, TakenUp(s1, 1, t, false), 1);
    var s2 := PartDone(e, s1, t);
    ZeroRun(e, s2, j);
    states, steps := RunTo(e, false, s2);
    states, steps := states + [Next(e, s2, Work(1, false))], steps + [Work(1, false)];
  }

  lemma FirstIsDone(db: Db, j: JobId, n: nat, k: nat)
    requires FirstDone(db, j, n, k) && 0 < k <= n
    ensures ChunkIsDone(db, j, 0) && j in db.jobs && db.jobs[j].status.Running?
  {
  }

  /** The second worker has stored the part of the message. */
  function PartDone(e: Setup, s: State, t: Task): State
    requires |s.workers| == 2
  {
    var s1 := TakenUp(s, 1, t, false);
    s1.(store := s1.store[PartKey(t.doc, t.index) := TextObject(e.convert(t.file, t.range, t.llm))],
        workers := s1.workers[1 := s1.workers[1].(pc := PartStored)])
  }

  lemma ZeroRun(e: Setup, s: State, j: JobId)
    requires IsBusy(s, 1) && s.workers[1].pc.PartStored? && s.workers[1].task.job == j
    requires CompleteResult(s.db, j, s.workers[1].task.index) == 0
    ensures ReturnsZero(s, Work(1, false), j) && Enabled(s, Work(1, false))
    ensures Next(e, s, Work(1, false)).db == Tables.Apply(s.db, CompleteChunk(j, s.workers[1].task.index))
  {
  }

  /** In no run of the deployment does `complete_chunk` return 0 before every chunk is done. */
  ghost predicate ZeroIsExact(e: Setup) {
    forall states: seq<State>, steps: seq<Step>, k: nat, j ::
      IsRun(e, states, steps) && k < |steps| && ReturnsZero(states[k], steps[k], j) ==> AllDone(states[k + 1].db, j)
  }

  /** Every message is on its first attempt. */
  ghost predicate FirstAttempts(s: State) {
    && (forall t :: t in s.queue ==> t.attempt == 1)
    && (forall t :: t in s.failed ==> t.attempt == 1)
    && (forall w :: 0 <= w < |s.workers| && s.workers[w].Busy? ==> s.workers[w].task.attempt == 1)
  }

  lemma FirstAttemptsStep(e: Setup, s: State, step: Step)
    requires FirstAttempts(s) && Enabled(s, step) && e.retryTiers == 0
    ensures FirstAttempts(Next(e, s, step))
  {
    hide FirstAttempts;
    if step.Work? {
      hide ApplyWork;
      FirstAttemptsWork(e, s, step.w, step.twice);
    } else if step.Publish? {
      hide ApplyPublish;
      FirstAttemptsPublish(s, step.p);
    } else {
      hide Next;
      FirstAttemptsEvent(e, s, step);
    }
  }

  lemma FirstAttemptsEvent(e: Setup, s: State, step: Step)
    requires FirstAttempts(s) && Enabled(s, step) && !step.Work? && !step.Publish?
    ensures FirstAttempts(Next(e, s, step))
  {
    hide Next;
    if WorkerEvent(step) {
      WorkerEventShape(e, s, step);
      WorkerEventQueue(e, s, step);
    } else {
      SameQueue(e, s, step);
    }
  }

  lemma WorkerEventQueue(e: Setup, s: State, step: Step)
    requires WorkerEvent(step) && Enabled(s, step)
    ensures forall t :: t in Next(e, s, step).queue ==> t in s.queue || (IsBusy(s, step.w) && t == s.workers[step.w].task)
  {
  }

  lemma SameQueue(e: Setup, s: State, step: Step)
    requires (ProducerEvent(step) && !step.Publish?) || step.Create?
    requires Enabled(s, step)
    ensures Next(e, s, step).queue == s.queue && Next(e, s, step).failed == s.failed && Next(e, s, step).workers == s.workers
  {
  }

  lemma FirstAttemptsPublish(s: State, p: nat)
    requires FirstAttempts(s) && Enabled(s, Publish(p))
    ensures FirstAttempts(ApplyPublish(s, p))
  {
  }

  lemma FirstAttemptsWork(e: Setup, s: State, w: nat, twice: bool)
    requires FirstAttempts(s) && IsBusy(s, w) && e.retryTiers == 0
    ensures FirstAttempts(ApplyWork(e, s, w, twice))
  {
    var worker := s.workers[w];
    SendsNothing(e, s.db, s.store, worker.task, worker.pc, twice);
    hide Program, Tables.Apply, WithPut, WithCounted;
  }

  lemma SendsNothing(e: Setup, db: Db, store: Store, t: Task, pc: Pc, twice: bool)
    requires e.retryTiers == 0
    ensures Program(e, db, store, t, pc, twice).sent == multiset{}
    ensures forall u :: u in Program(e, db, store, t, pc, twice).parked ==> u == t
  {
  }

  lemma {:induction false} FirstAttemptsAlways(e: Setup, states: seq<State>, steps: seq<Step>, k: nat)
    requires IsRun(e, states, steps) && k < |states| && e.retryTiers == 0
    ensures FirstAttempts(states[k])
  {
    hide Next, Enabled;
    if k > 0 {
      FirstAttemptsAlways(e, states, steps, k - 1);
      FirstAttemptsStep(e, states[k - 1], steps[k - 1]);
    }
  }

  /** Where retries are dropped no message ever uses up its attempts, so no chunk is ever marked failed. */
  lemma NothingParks(e: Setup, states: seq<State>, steps: seq<Step>, k: nat)
    requires IsRun(e, states, steps) && k < |steps| && !Routable(e)
    ensures !Downgrades(states[k].db, OpOf(e, states[k], steps[k]))
  {
    hide DbOk, StoreOk, TaskOk, ProducerOk, Next;
    InvAlways(e, states, steps, k);
    FirstAttemptsAlways(e, states, steps, k);
    var s, step := states[k], steps[k];
    if step.Work? {
      var worker := s.workers[step.w];
      assert WorkerOk(e, s.db, worker);
      ProgramShape(e, s.db, s.store, worker.task, worker.pc, step.twice);
      hide Program;
    }
  }

  lemma OneChunk(e: Setup, states: seq<State>, steps: seq<Step>, k: nat, j: JobId)
    requires IsRun(e, states, steps) && k < |steps| && ReturnsZero(states[k], steps[k], j)
    requires forall file :: |Plan(e, file)| <= 1
    ensures AllDone(states[k + 1].db, j)
  {
    hide StoreOk, TaskOk, WorkerOk, ProducerOk, Plan, Next, Init;
    InvAlways(e, states, steps, k);
    ZeroCompletes(e, states[k], steps[k], j);
    assert JobOk(e, states[k].db, j);
  }

  /**
   * The counter is exact in all runs of a deployment exactly when its documents have at most one
   * chunk, or when it drops all retries; every other deployment can count a chunk twice.
   */
  lemma ZeroIsExactWhen(e: Setup)
    ensures ZeroIsExact(e) <==> !Routable(e) || forall file :: |Plan(e, file)| <= 1
  {
    hide Plan, Next, Enabled, Init, ReturnsZero, Routable, Downgrades, AllDone;
    if !Routable(e) || forall file :: |Plan(e, file)| <= 1 {
      forall states: seq<State>, steps: seq<Step>, k: nat, j | IsRun(e, states, steps) && k < |steps| && ReturnsZero(states[k], steps[k], j)
        ensures AllDone(states[k + 1].db, j)
      {
        if Routable(e) {
          OneChunk(e, states, steps, k, j);
        } else {
          NoRetryIsExact(e, states, steps, k, j);
        }
      }
    } else {
      var file: FileHash :| |Plan(e, file)| > 1;
      var states, steps := CountedTwice(e, DocKey(file, false), "");
      var k := |steps| - 1;
      assert ReturnsZero(states[k], steps[k], "") && !AllDone(states[k + 1].db, "");
    }
  }

  lemma NoRetryIsExact(e: Setup, states: seq<State>, steps: seq<Step>, k: nat, j: JobId)
    requires IsRun(e, states, steps) && k < |steps| && ReturnsZero(states[k], steps[k], j) && !Routable(e)
    ensures AllDone(states[k + 1].db, j)
  {
    hide Next, Init, ReturnsZero, Routable, Downgrades;
    forall m | 0 <= m < k ensures !Downgrades(states[m].db, OpOf(e, states[m], steps[m])) {
      NothingParks(e, states, steps, m);
    }
    NoneUndone(e, states, steps, k, j);
    ZeroMeansAllDone(e, states, steps, k, j);
  }
}
