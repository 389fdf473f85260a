/**
 * Work is bounded: a handler run ends after a bounded number of its own steps, every message is
 * on an attempt within the limit, and the handler runs of a job are at most the limit times its
 * chunks plus the redeliveries and duplicate publishes.
 */
module Attempts {
  import opened Types
  import opened Sequential
  import opened Tables
  import opened Protocol
  import opened Integrity
  import Pagination

  /** Every message in the system, waiting, parked or held, is on an attempt from 1 to the limit. */
  lemma AttemptsInRange(e: Setup, states: seq<State>, steps: seq<Step>, k: nat, t: Task)
    requires IsRun(e, states, steps) && k < |states|
    requires t in states[k].queue || t in states[k].failed || exists w :: 0 <= w < |states[k].workers| && states[k].workers[w].Busy? && states[k].workers[w].task == t
    ensures 1 <= t.attempt <= Limit(e)
  {
    hide StoreOk, ProducerOk, DbOk, PcOk;
    InvAlways(e, states, steps, k);
    if t !in states[k].queue && t !in states[k].failed {
      var w :| 0 <= w < |states[k].workers| && states[k].workers[w].Busy? && states[k].workers[w].task == t;
      assert WorkerOk(e, states[k].db, states[k].workers[w]);
    }
  }

  // ---- One handler run ----

  function StageRank(e: Setup, doc: DocKey, stage: Stage): nat {
    match stage
    case Counted => |Plan(e, doc.file)| + |Pages(e, doc)| + 8
    case Gathering(_, chunks, parts) => (if |parts| <= chunks then chunks - |parts| else 0) + |Pages(e, doc)| + 7
    case Publishing(_, pages, _, written) => (if written <= |pages| then |pages| - written else 0) + 6
    case ManifestStored(_, _, _) => 5
    case Recorded => 4
    case Finished => 3
  }

  /** How many own steps a worker can still make before it is idle again. */
  function Rank(e: Setup, t: Task, pc: Pc): nat {
    var most := |Plan(e, t.doc.file)| + |Pages(e, t.doc)|;
    match pc
    case Received => most + 14
    case Admitted => most + 13
    case RowStarted => most + 12
    case Converting => most + 11
    case Converted(_) => most + 10
    case PartStored => most + 9
    case Assembling(stage) => StageRank(e, t.doc, stage)
    case AssemblyFailed => 2
    case Failing => 4
    case Parked => 3
    case ChunkMarkedFailed => 2
    case Rescheduled => 2
    case Acking => 1
  }

  /** Every step of a handler brings it closer to its end. */
  lemma HandlerProgresses(e: Setup, s: State, w: nat, twice: bool)
    requires Inv(e, s) && IsBusy(s, w)
    ensures var after := ApplyWork(e, s, w, twice);
      after.workers[w].Busy? ==>
        after.workers[w].task == s.workers[w].task && Rank(e, s.workers[w].task, after.workers[w].pc) < Rank(e, s.workers[w].task, s.workers[w].pc)
  {
    hide StoreOk, ProducerOk, TaskOk, Pages, Sequential.Markdown, Tables.Apply, WithPut, WithCounted;
    var worker := s.workers[w];
    assert WorkerOk(e, s.db, worker);
    if !worker.pc.Acking? {
      if worker.pc.Assembling? {
        AssembleProgresses(e, s.db, s.store, worker.task, worker.pc.stage);
      } else {
        HandleProgresses(e, s.db, s.store, worker.task, worker.pc, twice);
      }
      hide Program, Rank;
    }
  }

  lemma HandleProgresses(e: Setup, db: Db, store: Store, t: Task, pc: Pc, twice: bool)
    requires !pc.Acking? && !pc.Assembling?
    ensures Rank(e, t, Program(e, db, store, t, pc, twice).pc) < Rank(e, t, pc)
  {
    hide Pages, Plan, Sequential.Markdown;
  }

  lemma AssembleProgresses(e: Setup, db: Db, store: Store, t: Task, stage: Stage)
    requires DbOk(e, db) && TaskOk(e, db, t) && StageOk(e, t, stage)
    ensures Rank(e, t, Assemble(e, db, store, t, stage).pc) < Rank(e, t, Assembling(stage))
  {
    hide Pages, Plan, Sequential.Markdown, Assembled, Pagination.Paginated, GetText;
    if stage.Gathering? && |stage.parts| == stage.chunks {
      GatherLastOk(e, db, store, t, stage);
    } else {
      assert JobOk(e, db, t.job);
    }
  }

  // ---- All handler runs of a job ----

  /** Handler runs a waiting message can still cause without being redelivered or duplicated. */
  function MessageWeight(e: Setup, t: Task, j: JobId): nat {
    if t.job == j && t.attempt <= Limit(e) then Limit(e) - t.attempt + 1 else 0
  }

  ghost function QueueWeight(e: Setup, queue: multiset<Task>, j: JobId): nat {
    if queue == multiset{} then 0
    else
      var t :| t in queue;
      MessageWeight(e, t, j) + QueueWeight(e, queue - multiset{t}, j)
  }

  lemma {:induction false} QueueWeightAdd(e: Setup, queue: multiset<Task>, t: Task, j: JobId)
    ensures QueueWeight(e, queue + multiset{t}, j) == QueueWeight(e, queue, j) + MessageWeight(e, t, j)
    decreases |queue|
  {
    var all := queue + multiset{t};
    var x :| x in all && QueueWeight(e, all, j) == MessageWeight(e, x, j) + QueueWeight(e, all - multiset{x}, j);
    hide QueueWeight, MessageWeight;
    if x == t {
      assert all - multiset{x} == queue;
    } else {
      var rest := queue - multiset{x};
      TakeOne(queue, t, x);
      QueueWeightAdd(e, rest, t, j);
      QueueWeightAdd(e, rest, x, j);
    }
  }

  /** Two different messages can be taken out in either order. */
  lemma TakeOne(queue: multiset<Task>, t: Task, x: Task)
    requires x != t && x in queue + multiset{t}
    ensures var rest := queue - multiset{x};
      |rest| < |queue| && queue + multiset{t} - multiset{x} == rest + multiset{t} && rest + multiset{x} == queue
  {
    assert queue - multiset{x} + multiset{x} == queue;
  }

  lemma QueueWeightRemove(e: Setup, queue: multiset<Task>, t: Task, j: JobId)
    requires t in queue
    ensures QueueWeight(e, queue - multiset{t}, j) == QueueWeight(e, queue, j) - MessageWeight(e, t, j)
  {
    QueueWeightAdd(e, queue - multiset{t}, t, j);
    assert queue - multiset{t} + multiset{t} == queue;
  }

  /** Handler runs a busy worker can still cause by retrying. */
  function WorkerWeight(e: Setup, worker: Worker, j: JobId): nat {
    if worker.Busy? && !worker.pc.Acking? && worker.task.job == j && worker.task.attempt <= Limit(e)
    then Limit(e) - worker.task.attempt else 0
  }

  function WorkersWeight(e: Setup, workers: seq<Worker>, j: JobId): nat {
    if workers == [] then 0
    else WorkersWeight(e, workers[..|workers| - 1], j) + WorkerWeight(e, workers[|workers| - 1], j)
  }

  lemma {:induction false} WorkersWeightUpdate(e: Setup, workers: seq<Worker>, w: nat, worker: Worker, j: JobId)
    requires w < |workers|
    ensures WorkersWeight(e, workers[w := worker], j) ==
            WorkersWeight(e, workers, j) - WorkerWeight(e, workers[w], j) + WorkerWeight(e, worker, j)
  {
    var n := |workers| - 1;
    if w == n {
      assert workers[w := worker][..n] == workers[..n];
    } else {
      WorkersWeightUpdate(e, workers[..n], w, worker, j);
      assert workers[w := worker][..n] == workers[..n][w := worker];
    }
  }

  /** Messages of the job an API process has yet to publish. */
  function Unsent(producer: Producer, total: nat, j: JobId): nat {
    if producer.Sending? && producer.job == j && producer.next <= total then total - producer.next else 0
  }

  function AllUnsent(producers: seq<Producer>, total: nat, j: JobId): nat {
    if producers == [] then 0
    else AllUnsent(producers[..|producers| - 1], total, j) + Unsent(producers[|producers| - 1], total, j)
  }

  lemma {:induction false} AllUnsentUpdate(producers: seq<Producer>, p: nat, producer: Producer, total: nat, j: JobId)
    requires p < |producers|
    ensures AllUnsent(producers[p := producer], total, j) ==
            AllUnsent(producers, total, j) - Unsent(producers[p], total, j) + Unsent(producer, total, j)
  {
    var n := |producers| - 1;
    if p == n {
      assert producers[p := producer][..n] == producers[..n];
    } else {
      AllUnsentUpdate(producers[..n], p, producer, total, j);
      assert producers[p := producer][..n] == producers[..n][p := producer];
    }
  }

  lemma {:induction false} NoneUnsent(producers: seq<Producer>, total: nat, j: JobId)
    requires forall p :: 0 <= p < |producers| && producers[p].Sending? ==> producers[p].job != j
    ensures AllUnsent(producers, total, j) == 0
  {
    if producers != [] {
      NoneUnsent(producers[..|producers| - 1], total, j);
    }
  }

  function Chunks(db: Db, j: JobId): nat {
    if j in db.jobs then db.jobs[j].total else 0
  }

  /** Handler runs the messages, workers and API processes can still cause. */
  ghost function Potential(e: Setup, s: State, j: JobId): nat {
    QueueWeight(e, s.queue, j) + WorkersWeight(e, s.workers, j) + Limit(e) * AllUnsent(s.producers, Chunks(s.db, j), j)
  }

  /** The step starts a handler run for the job. */
  function Runs(step: Step, j: JobId): nat {
    if step.Deliver? && step.task.job == j then 1 else 0
  }

  /** Messages of the job that the step adds beyond the first copy of each: redeliveries and duplicate publishes. */
  function Extra(e: Setup, s: State, step: Step, j: JobId): nat
    requires Enabled(s, step)
  {
    match step
    case Crash(w) => if s.workers[w].task.job == j && s.workers[w].held then 1 else 0
    case Redeliver(w) => if s.workers[w].task.job == j then 1 else 0
    case Work(w, twice) => if s.workers[w].task.job == j && s.workers[w].pc.Rescheduled? && twice then 1 else 0
    case PublishAgain(p) => if s.producers[p].job == j then s.producers[p].next else 0
    case _ => 0
  }

  /** A retry passes the worker's weight on to the message; a duplicate costs one more at most. */
  lemma RetryWeight(e: Setup, queue: multiset<Task>, t: Task, twice: bool, j: JobId)
    requires 1 <= t.attempt < Limit(e)
    ensures QueueWeight(e, queue + Copies(NextAttempt(t), twice), j)
              <= QueueWeight(e, queue, j) + (if t.job == j then Limit(e) - t.attempt + (if twice then Limit(e) else 0) else 0)
  {
    var next := NextAttempt(t);
    QueueWeightAdd(e, queue, next, j);
    if twice {
      QueueWeightAdd(e, queue + multiset{next}, next, j);
      assert queue + multiset{next, next} == queue + multiset{next} + multiset{next};
    }
  }

  lemma SentWeight(e: Setup, s: State, w: nat, twice: bool, j: JobId)
    requires Inv(e, s) && IsBusy(s, w) && !s.workers[w].pc.Acking?
    ensures var worker := s.workers[w];
      var effect := Program(e, s.db, s.store, worker.task, worker.pc, twice);
      QueueWeight(e, s.queue + effect.sent, j) + WorkerWeight(e, worker.(pc := effect.pc), j)
        <= QueueWeight(e, s.queue, j) + WorkerWeight(e, worker, j) + Limit(e) * Extra(e, s, Work(w, twice), j)
  {
    hide Inv, QueueWeight, WorkerWeight, Limit, Extra;
    var worker := s.workers[w];
    if worker.pc.Rescheduled? && e.retryTiers > 0 {
      RetrySent(e, s, w, twice, j);
    } else {
      OnlyRetriesSend(e, s.db, s.store, worker.task, worker.pc, twice);
      hide Program;
      NoHeavier(e, worker, Program(e, s.db, s.store, worker.task, worker.pc, twice).pc, j);
      assert s.queue + multiset{} == s.queue;
    }
  }

  lemma NoHeavier(e: Setup, worker: Worker, pc: Pc, j: JobId)
    requires worker.Busy? && !worker.pc.Acking?
    ensures WorkerWeight(e, worker.(pc := pc), j) <= WorkerWeight(e, worker, j)
  {
  }

  lemma RetrySent(e: Setup, s: State, w: nat, twice: bool, j: JobId)
    requires Inv(e, s) && IsBusy(s, w) && s.workers[w].pc.Rescheduled? && e.retryTiers > 0
    ensures var worker := s.workers[w];
      var effect := Program(e, s.db, s.store, worker.task, worker.pc, twice);
      QueueWeight(e, s.queue + effect.sent, j) + WorkerWeight(e, worker.(pc := effect.pc), j)
        <= QueueWeight(e, s.queue, j) + WorkerWeight(e, worker, j) + Limit(e) * Extra(e, s, Work(w, twice), j)
  {
    hide StoreOk, ProducerOk, DbOk, Plan, QueueWeight, Assemble;
    var worker := s.workers[w];
    assert WorkerOk(e, s.db, worker);
    RetryWeight(e, s.queue, worker.task, twice, j);
  }

  lemma OnlyRetriesSend(e: Setup, db: Db, store: Store, t: Task, pc: Pc, twice: bool)
    requires !pc.Rescheduled? || e.retryTiers == 0
    ensures Program(e, db, store, t, pc, twice).sent == multiset{}
  {
  }

  /** What a step may do to the account: every run started is paid for by potential, a new chunk or an extra message. */
  ghost predicate Balanced(e: Setup, s: State, step: Step, after: State, j: JobId)
    requires Enabled(s, step)
  {
    Runs(step, j) + Potential(e, after, j) + Limit(e) * Chunks(s.db, j)
      <= Potential(e, s, j) + Limit(e) * Chunks(after.db, j) + Limit(e) * Extra(e, s, step, j)
  }

  lemma ChunksStay(db: Db, op: Op, j: JobId)
    requires Fresh(db, op) && !(op.CreateJob? && op.job == j)
    ensures Chunks(Tables.Apply(db, op), j) == Chunks(db, j)
  {
    if j in db.jobs {
      JobEvolves(db, op, j);
    }
  }

  lemma BalancedWork(e: Setup, s: State, w: nat, twice: bool, j: JobId)
    requires Inv(e, s) && IsBusy(s, w)
    ensures Balanced(e, s, Work(w, twice), ApplyWork(e, s, w, twice), j)
  {
    if s.workers[w].pc.Acking? {
      hide Inv, QueueWeight, WorkersWeight, AllUnsent, Chunks, Limit;
      WorkersWeightUpdate(e, s.workers, w, Idle, j);
    } else {
      hide Inv, ApplyWork, Balanced;
      BalancedEffect(e, s, w, twice, j);
    }
  }

  lemma BalancedEffect(e: Setup, s: State, w: nat, twice: bool, j: JobId)
    requires Inv(e, s) && IsBusy(s, w) && !s.workers[w].pc.Acking?
    ensures Balanced(e, s, Work(w, twice), ApplyWork(e, s, w, twice), j)
  {
    hide Inv, Program, Tables.Apply, QueueWeight, WorkersWeight, WorkerWeight, AllUnsent, WithPut, WithCounted, Chunks, Extra, Limit;
    var worker := s.workers[w];
    var effect := Program(e, s.db, s.store, worker.task, worker.pc, twice);
    SentWeight(e, s, w, twice, j);
    WorkersWeightUpdate(e, s.workers, w, worker.(pc := effect.pc), j);
    ProgramShape(e, s.db, s.store, worker.task, worker.pc, twice);
    WorkRunsOp(e, s, w, twice);
    ChunksStay(s.db, effect.op, j);
  }

  lemma BalancedDeliver(e: Setup, s: State, w: nat, task: Task, j: JobId)
    requires Inv(e, s) && Enabled(s, Deliver(w, task))
    ensures Balanced(e, s, Deliver(w, task), Next(e, s, Deliver(w, task)), j)
  {
    hide StoreOk, ProducerOk, DbOk, Plan, QueueWeight, WorkersWeight, AllUnsent, Chunks;
    assert TaskOk(e, s.db, task);
    QueueWeightRemove(e, s.queue, task, j);
    WorkersWeightUpdate(e, s.workers, w, Busy(task, true, Received), j);
  }

  lemma BalancedPutBack(e: Setup, s: State, step: Step, j: JobId)
    requires Inv(e, s) && Enabled(s, step) && (step.Crash? || step.Redeliver?)
    ensures Balanced(e, s, step, Next(e, s, step), j)
  {
    hide StoreOk, ProducerOk, DbOk, Plan, QueueWeight, WorkersWeight, AllUnsent, Chunks;
    var worker := s.workers[step.w];
    assert WorkerOk(e, s.db, worker);
    WorkersWeightUpdate(e, s.workers, step.w, WorkerAfter(s, step), j);
    if worker.held {
      QueueWeightAdd(e, s.queue, worker.task, j);
    } else {
      assert s.queue + multiset{} == s.queue;
    }
  }

  lemma BalancedRaises(e: Setup, s: State, step: Step, j: JobId)
    requires Enabled(s, step) && (step.ConversionRaises? || step.AssemblyRaises? || step.HandlerRaises?)
    ensures Balanced(e, s, step, Next(e, s, step), j)
  {
    hide QueueWeight, WorkersWeight, AllUnsent, Chunks;
    WorkersWeightUpdate(e, s.workers, step.w, WorkerAfter(s, step), j);
  }

  lemma BalancedPublish(e: Setup, s: State, p: nat, j: JobId)
    requires Inv(e, s) && Enabled(s, Publish(p))
    ensures Balanced(e, s, Publish(p), ApplyPublish(s, p), j)
  {
    hide StoreOk, TaskOk, WorkerOk, Plan, QueueWeight, WorkersWeight, AllUnsent;
    var producer := s.producers[p];
    var total := Chunks(s.db, j);
    assert JobOk(e, s.db, producer.job);
    if producer.next < |s.db.chunks[producer.job]| {
      var t := TaskOf(s, producer.job, producer.next);
      QueueWeightAdd(e, s.queue, t, j);
      var next := producer.(next := producer.next + 1);
      AllUnsentUpdate(s.producers, p, next, total, j);
      var before, after := AllUnsent(s.producers, total, j), AllUnsent(s.producers[p := next], total, j);
      assert MessageWeight(e, t, j) <= Limit(e) * (before - after);
      assert Limit(e) * before == Limit(e) * after + Limit(e) * (before - after);
    } else {
      AllUnsentUpdate(s.producers, p, Submitted(producer.job), total, j);
      Scale(Limit(e), AllUnsent(s.producers[p := Submitted(producer.job)], total, j), AllUnsent(s.producers, total, j));
    }
  }

  lemma Scale(n: nat, a: nat, b: nat)
    requires a <= b
    ensures n * a <= n * b
  {
  }

  lemma BalancedAgain(e: Setup, s: State, p: nat, j: JobId)
    requires Enabled(s, PublishAgain(p))
    ensures Balanced(e, s, PublishAgain(p), Next(e, s, PublishAgain(p)), j)
  {
    hide QueueWeight, WorkersWeight, AllUnsent, Chunks;
    var producer := s.producers[p];
    var total := Chunks(s.db, j);
    var again := producer.(next := 0, again := true);
    AllUnsentUpdate(s.producers, p, again, total, j);
    var before, after := AllUnsent(s.producers, total, j), AllUnsent(s.producers[p := again], total, j);
    var extra := if producer.job == j then producer.next else 0;
    Scale(Limit(e), after, before + extra);
    assert Limit(e) * (before + extra) == Limit(e) * before + Limit(e) * extra;
  }

  lemma BalancedIdle(e: Setup, s: State, step: Step, j: JobId)
    requires Enabled(s, step) && (step.Submit? || step.Lookup? || step.GiveUp? || step.Expire?)
    ensures Balanced(e, s, step, Next(e, s, step), j)
  {
    hide QueueWeight, WorkersWeight, AllUnsent, Chunks;
    var total := Chunks(s.db, j);
    if !step.Expire? {
      var producer := if step.Submit? then Hashed(step.doc) else if step.GiveUp? then Free else NextLookup(s.db, s.store, s.producers[step.p]);
      AllUnsentUpdate(s.producers, step.p, producer, total, j);
      Scale(Limit(e), AllUnsent(s.producers[step.p := producer], total, j), AllUnsent(s.producers, total, j));
    }
  }

  lemma BalancedCreate(e: Setup, s: State, p: nat, job: JobId, j: JobId)
    requires Inv(e, s) && Enabled(s, Create(p, job))
    ensures Balanced(e, s, Create(p, job), Next(e, s, Create(p, job)), j)
  {
    hide StoreOk, TaskOk, WorkerOk, DbOk, Plan, QueueWeight, WorkersWeight, AllUnsent;
    var doc := s.producers[p].doc;
    var total := |Plan(e, doc.file)|;
    var sending := Sending(job, 0, false);
    if j == job {
      forall q | 0 <= q < |s.producers| && s.producers[q].Sending? ensures s.producers[q].job != j {
        assert ProducerOk(e, s.db, s.producers[q]);
      }
      NoneUnsent(s.producers, total, j);
      NoneUnsent(s.producers, 0, j);
      AllUnsentUpdate(s.producers, p, sending, total, j);
    } else {
      AllUnsentUpdate(s.producers, p, sending, Chunks(s.db, j), j);
    }
  }

  lemma BalancedStep(e: Setup, s: State, step: Step, j: JobId)
    requires Inv(e, s) && Enabled(s, step)
    ensures Balanced(e, s, step, Next(e, s, step), j)
  {
    hide Inv, Balanced;
    match step
    case Work(w, twice) => BalancedWork(e, s, w, twice, j);
    case Deliver(w, task) => BalancedDeliver(e, s, w, task, j);
    case Crash(_) => BalancedPutBack(e, s, step, j);
    case Redeliver(_) => BalancedPutBack(e, s, step, j);
    case Create(p, job) => BalancedCreate(e, s, p, job, j);
    case Publish(p) => BalancedPublish(e, s, p, j);
    case PublishAgain(p) => BalancedAgain(e, s, p, j);
    case ConversionRaises(_) => BalancedRaises(e, s, step, j);
    case AssemblyRaises(_) => BalancedRaises(e, s, step, j);
    case HandlerRaises(_) => BalancedRaises(e, s, step, j);
    case _ => BalancedIdle(e, s, step, j);
  }

  /** Handler runs of the job in the first `k` steps. */
  function RunsBefore(steps: seq<Step>, k: nat, j: JobId): nat
    requires k <= |steps|
  {
    if k == 0 then 0 else RunsBefore(steps, k - 1, j) + Runs(steps[k - 1], j)
  }

  /** Redeliveries and duplicate publishes of the job in the first `k` steps. */
  ghost function ExtraBefore(e: Setup, states: seq<State>, steps: seq<Step>, k: nat, j: JobId): nat
    requires IsRun(e, states, steps) && k <= |steps|
  {
    if k == 0 then 0 else ExtraBefore(e, states, steps, k - 1, j) + Extra(e, states[k - 1], steps[k - 1], j)
  }

  lemma {:induction false} RunsPaidFor(e: Setup, states: seq<State>, steps: seq<Step>, k: nat, j: JobId)
    requires IsRun(e, states, steps) && k <= |steps|
    ensures RunsBefore(steps, k, j) + Potential(e, states[k], j)
              <= Limit(e) * Chunks(states[k].db, j) + Limit(e) * ExtraBefore(e, states, steps, k, j)
  {
    hide Inv, Extra, Potential, Chunks, Next, Enabled;
    if k == 0 {
      NoPotential(e, states[0], j);
    } else {
      RunsPaidFor(e, states, steps, k - 1, j);
      InvAlways(e, states, steps, k - 1);
      BalancedStep(e, states[k - 1], steps[k - 1], j);
      var before, more := ExtraBefore(e, states, steps, k - 1, j), Extra(e, states[k - 1], steps[k - 1], j);
      assert Limit(e) * (before + more) == Limit(e) * before + Limit(e) * more;
    }
  }

  lemma NoPotential(e: Setup, s: State, j: JobId)
    requires Init(s)
    ensures Potential(e, s, j) == 0
  {
    NoneUnsent(s.producers, Chunks(s.db, j), j);
    NoneBusy(e, s.workers, j);
  }

  lemma {:induction false} NoneBusy(e: Setup, workers: seq<Worker>, j: JobId)
    requires forall w :: 0 <= w < |workers| ==> workers[w] == Idle
    ensures WorkersWeight(e, workers, j) == 0
  {
    if workers != [] {
      NoneBusy(e, workers[..|workers| - 1], j);
    }
  }

  /** The handler runs of a job are at most the attempt limit times its chunks, redeliveries and duplicate publishes. */
  lemma HandlerRunsBounded(e: Setup, states: seq<State>, steps: seq<Step>, k: nat, j: JobId)
    requires IsRun(e, states, steps) && k <= |steps|
    ensures RunsBefore(steps, k, j) <= Limit(e) * (Chunks(states[k].db, j) + ExtraBefore(e, states, steps, k, j))
  {
    hide Potential, Chunks, Init, Next, Enabled, RunsBefore, ExtraBefore;
    RunsPaidFor(e, states, steps, k, j);
    var c, x := Chunks(states[k].db, j), ExtraBefore(e, states, steps, k, j);
    assert Limit(e) * (c + x) == Limit(e) * c + Limit(e) * x;
  }
}
