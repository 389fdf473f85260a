/**
 * Exactly when a failed job stays failed and a reported error means `failed`: a deployment
 * keeps either promise in all its runs if and only if it drops all retries or has no document
 * with a chunk.
 */
module Finality {
  import opened Types
  import opened Sequential
  import opened Tables
  import opened Keys
  import opened Protocol
  import opened Integrity
  import opened Lifecycle
  import opened Failures
  import opened Attempts
  import opened NoLostJob
  import opened Scripts
  import opened Boundaries
  import opened Paths
  import Pagination

  // ---- Failed and then done ----

  /** What happens to a chunk that is not done leaves the done ones alone. */
  lemma OthersStayDone(db: Db, t: Task, n: nat, k: nat)
    requires FirstDone(db, t.job, n, k) && k <= t.index < n
    ensures FirstDone(Tables.Apply(db, RescheduleChunk(t.job, t.index)), t.job, n, k)
    ensures FirstDone(Tables.Apply(db, FailChunk(t.job, t.index)), t.job, n, k)
  {
  }

  /** Copies of a message fail until the attempts are used up; the worker stands before `fail_job`. */
  lemma {:induction false} UseUp(e: Setup, s: State, t: Task, attempt: nat, n: nat, k: nat) returns (after: State)
    requires Reached(e, false, s) && s.workers == [Idle, Idle] && Routable(e)
    requires t in s.queue && t.(attempt := attempt) in s.queue && attempt >= 1
    requires k <= t.index < n && FirstDone(s.db, t.job, n, k)
    ensures Reached(e, false, after) && FirstDone(after.db, t.job, n, k) && t in after.queue && after.store == s.store
    ensures |after.workers| == 2 && after.workers[1].Idle?
    ensures after.workers[0].Busy? && after.workers[0].pc.ChunkMarkedFailed? && after.workers[0].task.job == t.job
    decreases e.maxAttempts - attempt
  {
    hide Reached, Tables.Apply, Started, FirstDone;
    var u := t.(attempt := attempt);
    ActiveFirst(s.db, t.job, n, k);
    TakeUp(e, false, s, 0, u, true);
    var s1 := TakenUp(s, 0, u, true);
    StartedFirst(s.db, u, n, k);
    OthersStayDone(s1.db, u, n, k);
    if attempt >= e.maxAttempts {
      Park(e, false, s1, 0);
      after := s1.(db := Tables.Apply(s1.db, FailChunk(t.job, t.index)), failed := s1.failed + multiset{u},
                   workers := s1.workers[0 := s1.workers[0].(pc := ChunkMarkedFailed)]);
    } else {
      Retry(e, false, s1, 0);
      var s2 := s.(db := Tables.Apply(s1.db, RescheduleChunk(t.job, t.index)), queue := s.queue + multiset{t.(attempt := attempt + 1)});
      assert s1.workers[0 := Idle] == [Idle, Idle];
      after := UseUp(e, s2, t, attempt + 1, n, k);
    }
  }

  /** All parts of a document are stored. */
  ghost predicate PartsStored(e: Setup, store: Store, doc: DocKey) {
    forall i :: 0 <= i < |Plan(e, doc.file)| ==> PartKey(doc, i) in store
  }

  /** With all parts stored, the next step of an assembly does not break it, and leaves the jobs alone. */
  lemma AssemblyGoesOn(e: Setup, db: Db, store: Store, t: Task, stage: Stage)
    requires StoreOk(e, store) && PartsStored(e, store, t.doc)
    requires TaskOk(e, db, t) && StageOk(e, t, stage) && !stage.Recorded? && !stage.Finished?
    ensures var effect := Assemble(e, db, store, t, stage);
      effect.pc.Assembling? && !effect.pc.stage.Finished? && (effect.op.NoOp? || effect.op.RecordDocument?)
  {
    hide Pages, Sequential.Markdown, Assembled, Pagination.Paginated, Plan;
    if stage.Gathering? && |stage.parts| < stage.chunks {
      var key := PartKey(t.doc, |stage.parts|);
      assert key in store && SequentialObject(e, key) == Some(store[key]);
    }
  }

  /** A worker to which nothing happens. */
  function Undisturbed(w: nat): Actor {
    WorkerActor(w, _ => false, false, false, false, Steady)
  }

  /** Left alone, a worker that assembles a document with all parts stored gets as far as recording it. */
  lemma {:induction false} AssembleOn(e: Setup, s: State, w: nat) returns (after: State)
    requires Inv(e, s) && IsBusy(s, w) && s.workers[w].pc.Assembling? && !s.workers[w].pc.stage.Finished?
    requires PartsStored(e, s.store, s.workers[w].task.doc)
    ensures Reaches(e, Undisturbed(w), s, after) && after.db.jobs == s.db.jobs
    ensures w < |after.workers| && after.workers[w] == s.workers[w].(pc := Assembling(Recorded))
    decreases Rank(e, s.workers[w].task, s.workers[w].pc)
  {
    hide Reaches, Rank, Inv, PartsStored, Next, Program;
    ReachesItself(e, Undisturbed(w), s);
    after := s;
    if !s.workers[w].pc.stage.Recorded? {
      var s1 := ApplyWork(e, s, w, false);
      AssembleStep(e, s, w);
      HandlerProgresses(e, s, w, false);
      InvStep(e, s, Work(w, false));
      ReachesNext(e, Undisturbed(w), s, s, Work(w, false));
      after := AssembleOn(e, s1, w);
      ReachesOn(e, Undisturbed(w), s, s1, after);
    }
  }

  lemma AssembleStep(e: Setup, s: State, w: nat)
    requires Inv(e, s) && IsBusy(s, w) && s.workers[w].pc.Assembling?
    requires !s.workers[w].pc.stage.Recorded? && !s.workers[w].pc.stage.Finished? && PartsStored(e, s.store, s.workers[w].task.doc)
    ensures Next(e, s, Work(w, false)) == ApplyWork(e, s, w, false)
    ensures var after := ApplyWork(e, s, w, false);
      && after.db.jobs == s.db.jobs && PartsStored(e, after.store, s.workers[w].task.doc) && IsBusy(after, w)
      && after.workers[w] == s.workers[w].(pc := after.workers[w].pc)
      && after.workers[w].pc.Assembling? && !after.workers[w].pc.stage.Finished?
  {
    hide Inv, StoreOk, TaskOk, StageOk, Protocol.Assemble, Tables.Apply, WithPut, WithCounted, PartsStored;
    var worker := s.workers[w];
    var effect := Protocol.Assemble(e, s.db, s.store, worker.task, worker.pc.stage);
    InHand(e, s, w);
    AssemblyGoesOn(e, s.db, s.store, worker.task, worker.pc.stage);
    JobsStay(s.db, effect.op);
    PartsStay(e, s.store, effect.put, worker.task.doc);
  }

  /** What an undisturbed worker does goes on an orderly run. */
  lemma ReachedOn(e: Setup, crashes: bool, s: State, w: nat, t: State)
    requires Reached(e, crashes, s) && Reaches(e, Undisturbed(w), s, t)
    ensures Reached(e, crashes, t)
  {
    hide Next, Enabled, Init, OwnStep, Orderly, Undisturbed;
    var a, x :| EndsIn(e, crashes, a, x, s);
    var b, y :| IsPath(e, b, y, Undisturbed(w)) && b[0] == s && b[|y|] == t;
    var states, steps := a + b[1..], x + y;
    forall k | 0 <= k < |steps|
      ensures Orderly(steps[k], crashes) && Enabled(states[k], steps[k]) && states[k + 1] == Next(e, states[k], steps[k])
    {
      if k >= |x| {
        assert states[k] == b[k - |x|] && states[k + 1] == b[k - |x| + 1] && steps[k] == y[k - |x|];
        UndisturbedIsOrderly(b[k - |x|], y[k - |x|], w, crashes);
      }
    }
    assert EndsIn(e, crashes, states, steps, t);
  }

  lemma UndisturbedIsOrderly(s: State, step: Step, w: nat, crashes: bool)
    requires OwnStep(s, step, Undisturbed(w))
    ensures Orderly(step, crashes)
  {
  }

  lemma InHand(e: Setup, s: State, w: nat)
    requires Inv(e, s) && IsBusy(s, w) && s.workers[w].pc.Assembling?
    ensures var worker := s.workers[w];
      StoreOk(e, s.store) && TaskOk(e, s.db, worker.task) && worker.task.file == worker.task.doc.file && StageOk(e, worker.task, worker.pc.stage)
  {
    hide StoreOk, DbOk, ProducerOk, StageOk;
    assert WorkerOk(e, s.db, s.workers[w]);
  }

  lemma JobsStay(db: Db, op: Op)
    requires op.NoOp? || op.RecordDocument?
    ensures Tables.Apply(db, op).jobs == db.jobs
  {
  }

  lemma PartsStay(e: Setup, store: Store, put: Option<(ObjectKey, Object)>, doc: DocKey)
    requires PartsStored(e, store, doc)
    ensures PartsStored(e, WithPut(store, put), doc)
  {
  }

  lemma ReachedInv(e: Setup, s: State)
    requires Reached(e, false, s)
    ensures Inv(e, s)
  {
    hide Inv, Next, Enabled, Init;
    var states, steps := RunTo(e, false, s);
    InvAlways(e, states, steps, |steps|);
  }

  /** One worker about to fail the job and one chosen to assemble it. */
  lemma FailingAndCounted(e: Setup, doc: DocKey, j: JobId) returns (s: State)
    requires Routable(e) && Plan(e, doc.file) != []
    ensures Reached(e, false, s) && IsBusy(s, 1) && s.workers[1].pc == Assembling(Counted) && s.workers[1].task.job == j
    ensures IsBusy(s, 0) && s.workers[0].pc.ChunkMarkedFailed? && s.workers[0].task.job == j
    ensures s.workers[1].task.doc == doc && PartsStored(e, s.store, doc) && Active(s.db, j)
  {
    hide Reached, Plan, FirstDone, Tables.Apply, Started, CompleteResult;
    var n := |Plan(e, doc.file)|;
    var s1 := CompleteFirst(e, false, doc, j, true, n - 1);
    var t := NextMessage(e, false, doc, j, true, n - 1, s1);
    var s2 := UseUp(e, s1, t, 1, n, n - 1);
    hide AfterFirst, Batch;
    ActiveFirst(s2.db, j, n, n - 1);
    OneMoreDone(s2.db, t, n);
    s := ConvertAndComplete(e, false, s2, 1, t, false);
    ActiveFirst(s.db, j, n, n);
  }

  lemma FailedAndCounted(e: Setup, doc: DocKey, j: JobId) returns (s: State)
    requires Routable(e) && Plan(e, doc.file) != []
    ensures Reached(e, false, s) && IsBusy(s, 1) && s.workers[1].pc == Assembling(Counted) && s.workers[1].task.job == j
    ensures s.workers[1].task.doc == doc && PartsStored(e, s.store, doc)
    ensures j in s.db.jobs && s.db.jobs[j].status.Failed? && s.db.jobs[j].error.Some?
  {
    hide Reached, Plan, Tables.Apply, PartsStored;
    var s1 := FailingAndCounted(e, doc, j);
    var error := PoisonChunk(s1.workers[0].task.index, s1.workers[0].task.attempt);
    Do(e, false, s1, 0, Acking, FailJob(j, error));
    s := s1.(db := Tables.Apply(s1.db, FailJob(j, error)), workers := s1.workers[0 := s1.workers[0].(pc := Acking)]);
    FailsActive(s1.db, j, error);
  }

  lemma FailsActive(db: Db, j: JobId, error: JobError)
    requires Active(db, j)
    ensures var after := Tables.Apply(db, FailJob(j, error));
      j in after.jobs && after.jobs[j].status.Failed? && after.jobs[j].error == Some(error)
  {
  }

  /**
   * `failed` is not final, and a reported error does not mean `failed`: for every document with a
   * chunk there is a run without a death or a raising handler in which the job goes from failed to done and keeps its error.
   */
  lemma FailedThenDone(e: Setup, doc: DocKey, j: JobId) returns (states: seq<State>, steps: seq<Step>)
    requires Routable(e) && Plan(e, doc.file) != []
    ensures IsRun(e, states, steps) && OrderlyRun(steps, false) && |steps| >= 1
    ensures var before, after := states[|steps| - 1].db.jobs, states[|steps|].db.jobs;
      && j in before && before[j].status.Failed?
      && j in after && after[j].status.Done? && after[j].error.Some?
  {
    hide Reached, Reaches, Inv, Plan, Next, Enabled, Init, PartsStored;
    var s := FailedAndCounted(e, doc, j);
    ReachedInv(e, s);
    var s1 := AssembleOn(e, s, 1);
    ReachedOn(e, false, s, 1, s1);
    Finish(e, s1, 1);
    states, steps := RunTo(e, false, s1);
    states, steps := states + [Next(e, s1, Work(1, false))], steps + [Work(1, false)];
  }

  lemma Finish(e: Setup, s: State, w: nat)
    requires IsBusy(s, w) && s.workers[w].pc == Assembling(Recorded) && s.workers[w].task.job in s.db.jobs
    ensures Enabled(s, Work(w, false))
    ensures var j := s.workers[w].task.job;
      Next(e, s, Work(w, false)).db.jobs == s.db.jobs[j := s.db.jobs[j].(status := Done)]
  {
  }

  // ---- Exactly when ----

  /** In no run does a failed job get another status. */
  ghost predicate FailedIsFinal(e: Setup) {
    forall states: seq<State>, steps: seq<Step>, k: nat, j ::
      IsRun(e, states, steps) && k < |steps| && HasFailed(states[k].db, j) ==> HasFailed(states[k + 1].db, j)
  }

  /** In no run does a job that is not failed have an error. */
  ghost predicate ErrorMeansFailed(e: Setup) {
    forall states: seq<State>, steps: seq<Step>, k: nat, j ::
      IsRun(e, states, steps) && k < |states| && HasError(states[k].db, j) ==> HasFailed(states[k].db, j)
  }

  predicate HasFailed(db: Db, j: JobId) {
    j in db.jobs && db.jobs[j].status.Failed?
  }

  predicate HasError(db: Db, j: JobId) {
    j in db.jobs && db.jobs[j].error.Some?
  }

  /** Retries are dropped, or there is nothing to convert. */
  ghost predicate NeverRevived(e: Setup) {
    !Routable(e) || forall file :: Plan(e, file) == []
  }

  /** Once its assembly broke, nobody assembles the job any more: both would be the one that got 0. */
  lemma BrokenIsOver(e: Setup, states: seq<State>, steps: seq<Step>, k: nat, w: nat, j: JobId)
    requires IsRun(e, states, steps) && k < |states| && BrokeBefore(states, steps, k, j)
    requires w < |states[k].workers|
    ensures !Assembles(states[k].workers[w], j)
  {
    hide Next, Enabled, Init, ReturnsZero;
    var m :| 0 <= m < k && AssemblyBreaks(states[m], states[m + 1], steps[m], j);
    var a := AssemblerGotZero(e, states, steps, m, steps[m].w, j);
    if Assembles(states[k].workers[w], j) {
      var b := AssemblerGotZero(e, states, steps, k, w, j);
      if a < b {
        ZeroOnce(e, states, steps, a, b, j);
      } else if b < a {
        ZeroOnce(e, states, steps, b, a, j);
      }
    }
  }

  /** Where retries are dropped, a job fails only in its assembly. */
  lemma FailsInAssembly(e: Setup, states: seq<State>, steps: seq<Step>, k: nat, j: JobId)
    requires IsRun(e, states, steps) && k < |states| && !Routable(e) && HasFailed(states[k].db, j)
    ensures BrokeBefore(states, steps, k, j)
  {
    hide Next, Enabled, Init;
    FailureIsJustified(e, states, steps, k, j);
    FirstAttemptsAlways(e, states, steps, k);
  }

  lemma StaysFailed(e: Setup, states: seq<State>, steps: seq<Step>, k: nat, j: JobId)
    requires IsRun(e, states, steps) && k < |steps| && HasFailed(states[k].db, j) && NeverRevived(e)
    ensures HasFailed(states[k + 1].db, j)
  {
    hide Next, Init, Plan, BrokeBefore;
    StatusChange(e, states[k], steps[k], j);
    if Routable(e) {
      EmptyPlanIsStuck(e, states, steps, k, j);
    } else if !HasFailed(states[k + 1].db, j) {
      FailsInAssembly(e, states, steps, k, j);
      BrokenIsOver(e, states, steps, k, steps[k].w, j);
    }
  }

  /**
   * The same for one job and one state: a failed job that no worker is assembling stays failed in
   * every continuation, whatever the deployment.
   */
  lemma {:induction false} UnassembledStaysFailed(e: Setup, states: seq<State>, steps: seq<Step>, a: nat, b: nat, j: JobId)
    requires IsRun(e, states, steps) && a <= b < |states| && HasFailed(states[a].db, j)
    requires forall w :: 0 <= w < |states[a].workers| ==> !Assembles(states[a].workers[w], j)
    ensures HasFailed(states[b].db, j)
    ensures forall w :: 0 <= w < |states[b].workers| ==> !Assembles(states[b].workers[w], j)
    decreases b - a
  {
    hide Next, Enabled, Init, Assembles;
    if a < b {
      UnassembledStaysFailed(e, states, steps, a, b - 1, j);
      StillUnassembled(e, states[b - 1], steps[b - 1], j);
    }
  }

  /** Nobody gets 0 back for a failed job, so nobody starts to assemble it, and only an assembler finishes it. */
  lemma StillUnassembled(e: Setup, s: State, step: Step, j: JobId)
    requires Enabled(s, step) && HasFailed(s.db, j)
    requires forall w :: 0 <= w < |s.workers| ==> !Assembles(s.workers[w], j)
    ensures var after := Next(e, s, step);
      HasFailed(after.db, j) && forall w :: 0 <= w < |after.workers| ==> !Assembles(after.workers[w], j)
  {
    hide Next;
    var after := Next(e, s, step);
    StatusChange(e, s, step, j);
    forall w | 0 <= w < |after.workers| ensures !Assembles(after.workers[w], j) {
      if Assembles(after.workers[w], j) {
        BecomesAssembler(e, s, step, w, j);
      }
    }
  }

  /** An error is set together with `failed`. */
  lemma ErrorOp(db: Db, op: Op, j: JobId)
    requires HasError(Tables.Apply(db, op), j)
    ensures HasError(db, j) || HasFailed(Tables.Apply(db, op), j)
  {
  }

  lemma {:induction false} ErrorStaysFailed(e: Setup, states: seq<State>, steps: seq<Step>, k: nat, j: JobId)
    requires IsRun(e, states, steps) && k < |states| && HasError(states[k].db, j) && NeverRevived(e)
    ensures HasFailed(states[k].db, j)
  {
    hide Next, Enabled, NeverRevived, HasFailed, OpOf;
    assert k > 0;
    var s, step := states[k - 1], steps[k - 1];
    StepRunsOp(e, s, step);
    hide Tables.Apply, HasError;
    ErrorOp(s.db, OpOf(e, s, step), j);
    if HasError(s.db, j) {
      ErrorStaysFailed(e, states, steps, k - 1, j);
      StaysFailed(e, states, steps, k - 1, j);
    }
  }

  /** Both promises hold of a deployment exactly when it drops all retries or has no document with a chunk. */
  lemma FailedIsFinalExactly(e: Setup)
    ensures FailedIsFinal(e) <==> NeverRevived(e)
    ensures ErrorMeansFailed(e) <==> NeverRevived(e)
  {
    hide Next, Enabled, Init, Plan, HasFailed, HasError, Routable;
    if NeverRevived(e) {
      forall states: seq<State>, steps: seq<Step>, k: nat, j | IsRun(e, states, steps) && k < |steps| && HasFailed(states[k].db, j)
        ensures HasFailed(states[k + 1].db, j)
      {
        StaysFailed(e, states, steps, k, j);
      }
      forall states: seq<State>, steps: seq<Step>, k: nat, j | IsRun(e, states, steps) && k < |states| && HasError(states[k].db, j)
        ensures HasFailed(states[k].db, j)
      {
        ErrorStaysFailed(e, states, steps, k, j);
      }
    } else {
      var file: FileHash :| Plan(e, file) != [];
      var states, steps := RevivedRun(e, file);
      var k := |steps|;
      assert HasFailed(states[k - 1].db, "") && HasError(states[k].db, "") && !HasFailed(states[k].db, "");
    }
  }

  lemma RevivedRun(e: Setup, file: FileHash) returns (states: seq<State>, steps: seq<Step>)
    requires Routable(e) && Plan(e, file) != []
    ensures IsRun(e, states, steps) && |steps| >= 1
    ensures HasFailed(states[|steps| - 1].db, "") && HasError(states[|steps|].db, "") && !HasFailed(states[|steps|].db, "")
  {
    hide Next, Enabled, Init, Plan;
    states, steps := FailedThenDone(e, DocKey(file, false), "");
  }
}
