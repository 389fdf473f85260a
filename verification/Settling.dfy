/**
 * Jobs settle. The steps workers make for a job are bounded in every run, one assembly included;
 * and from every state of a run that is fail-stop for a published job with a chunk, deliveries
 * and statements alone settle the job within a number of steps that the state tells.
 */
module Settling {
  import opened Types
  import opened Sequential
  import opened Tables
  import opened Protocol
  import opened Integrity
  import opened Lifecycle
  import opened Attempts
  import opened NoLostJob

  /** The step is one that a worker makes for the job. */
  function Serves(s: State, step: Step, j: JobId): nat
    requires Enabled(s, step)
  {
    match step
    case Deliver(_, task) => if task.job == j then 1 else 0
    case Work(w, _) => if s.workers[w].task.job == j then 1 else 0
    case ConversionRaises(w) => if s.workers[w].task.job == j then 1 else 0
    case AssemblyRaises(w) => if s.workers[w].task.job == j then 1 else 0
    case HandlerRaises(w) => if s.workers[w].task.job == j then 1 else 0
    case _ => 0
  }

  /** Positions up to the completion of the chunk. */
  predicate Early(pc: Pc) {
    pc.Received? || pc.Admitted? || pc.RowStarted? || pc.Converting? || pc.Converted? || pc.PartStored?
  }

  /** How many steps a handler can still make; an assembly counts once it has begun. */
  function ShortRank(e: Setup, t: Task, pc: Pc): nat {
    match pc
    case Received => 14
    case Admitted => 13
    case RowStarted => 12
    case Converting => 11
    case Converted(_) => 10
    case PartStored => 9
    case _ => Rank(e, t, pc)
  }

  function WorkerRank(e: Setup, worker: Worker, j: JobId): nat {
    if worker.Busy? && worker.task.job == j then ShortRank(e, worker.task, worker.pc) else 0
  }

  function Ranks(e: Setup, workers: seq<Worker>, j: JobId): nat {
    if workers == [] then 0
    else Ranks(e, workers[..|workers| - 1], j) + WorkerRank(e, workers[|workers| - 1], j)
  }

  lemma {:induction false} RanksUpdate(e: Setup, workers: seq<Worker>, w: nat, worker: Worker, j: JobId)
    requires w < |workers|
    ensures Ranks(e, workers[w := worker], j) == Ranks(e, workers, j) - WorkerRank(e, workers[w], j) + WorkerRank(e, worker, j)
  {
    hide WorkerRank;
    var n := |workers| - 1;
    if w == n {
      assert workers[w := worker][..n] == workers[..n];
    } else {
      RanksUpdate(e, workers[..n], w, worker, j);
      assert workers[w := worker][..n] == workers[..n][w := worker];
    }
  }

  /** What the one assembly of a job takes: reading its parts and putting its pages. */
  function Assembly(e: Setup, db: Db, j: JobId): nat {
    if j in db.jobs then |Plan(e, db.jobs[j].doc.file)| + |Pages(e, db.jobs[j].doc)| else 0
  }

  /** The assembly, as long as nobody has got 0 back. */
  function Ahead(e: Setup, db: Db, j: JobId): nat {
    if j in db.jobs && db.jobs[j].remaining >= 1 then Assembly(e, db, j) else 0
  }

  // ---- Every step is paid for ----

  /**
   * A step for the job lowers what is left of handlers and assembly; only a delivery adds the
   * fifteen steps of a handler, itself included, and only a new job an assembly.
   */
  ghost predicate Paid(e: Setup, s: State, step: Step, after: State, j: JobId)
    requires Enabled(s, step)
  {
    Serves(s, step, j) + Ranks(e, after.workers, j) + Ahead(e, after.db, j) + Assembly(e, s.db, j)
      <= Ranks(e, s.workers, j) + Ahead(e, s.db, j) + Assembly(e, after.db, j) + 15 * Runs(step, j)
  }

  lemma OnlyTheWorkerMoves(e: Setup, s: State, w: nat, twice: bool)
    requires IsBusy(s, w)
    ensures var after := ApplyWork(e, s, w, twice); |after.workers| == |s.workers| && after.workers == s.workers[w := after.workers[w]]
  {
    hide Program, Tables.Apply, WithPut, WithCounted;
  }

  lemma AtLeastOne(e: Setup, t: Task, pc: Pc)
    ensures ShortRank(e, t, pc) >= 1 && Rank(e, t, pc) >= 1
  {
    hide Plan, Pages;
  }

  /** The two ranks differ by an assembly, up to the completion of the chunk. */
  lemma RankOfShort(e: Setup, t: Task, pc: Pc)
    ensures Rank(e, t, pc) == ShortRank(e, t, pc) + if Early(pc) then |Plan(e, t.doc.file)| + |Pages(e, t.doc)| else 0
    ensures Early(pc) ==> ShortRank(e, t, pc) >= 9
    ensures pc.PartStored? ==> ShortRank(e, t, pc) == 9
    ensures ShortRank(e, t, Acking) == 1 && ShortRank(e, t, Assembling(Counted)) == |Plan(e, t.doc.file)| + |Pages(e, t.doc)| + 8
  {
    hide Plan, Pages;
  }

  /** Where the program goes from a position up to the completion, and that it never comes back there. */
  lemma EarlyShape(e: Setup, db: Db, store: Store, t: Task, pc: Pc, twice: bool)
    ensures var effect := Program(e, db, store, t, pc, twice);
      && (Early(effect.pc) ==> Early(pc))
      && (Early(pc) && !Early(effect.pc) ==> effect.pc.Acking? || (pc.PartStored? && CompleteResult(db, t.job, t.index) == 0 && effect.pc == Assembling(Counted)))
  {
    hide Plan, Pages;
  }

  /** A step of the program lowers the short rank, unless it is the completion that returns 0. */
  lemma ShortProgress(e: Setup, s: State, w: nat, twice: bool)
    requires Inv(e, s) && IsBusy(s, w)
    ensures var worker, next := s.workers[w], ApplyWork(e, s, w, twice).workers[w];
      next.Busy? ==>
        && next.task == worker.task
        && (ShortRank(e, worker.task, next.pc) < ShortRank(e, worker.task, worker.pc)
            || (ReturnsZero(s, Work(w, twice), worker.task.job) && worker.pc.PartStored? && next.pc == Assembling(Counted)))
  {
    var worker := s.workers[w];
    HandlerProgresses(e, s, w, twice);
    hide Inv, Rank, ShortRank, Plan, Pages;
    if !worker.pc.Acking? {
      var pc := Program(e, s.db, s.store, worker.task, worker.pc, twice).pc;
      assert ApplyWork(e, s, w, twice).workers[w] == worker.(pc := pc) by { hide Program, Tables.Apply, WithPut, WithCounted; }
      EarlyShape(e, s.db, s.store, worker.task, worker.pc, twice);
      hide Program, ApplyWork;
      RankOfShort(e, worker.task, worker.pc);
      RankOfShort(e, worker.task, pc);
    }
  }

  /** What is ahead of a job only shrinks, and a returned 0 uses it up. */
  lemma AheadShrinks(e: Setup, s: State, w: nat, twice: bool, j: JobId)
    requires IsBusy(s, w)
    ensures var after := ApplyWork(e, s, w, twice).db;
      && Assembly(e, s.db, j) <= Assembly(e, after, j) && Ahead(e, after, j) + Assembly(e, s.db, j) <= Ahead(e, s.db, j) + Assembly(e, after, j)
      && (ReturnsZero(s, Work(w, twice), j) ==> Ahead(e, after, j) == 0 && Ahead(e, s.db, j) == Assembly(e, s.db, j) && j in s.db.jobs)
  {
    WorkRunsOp(e, s, w, twice);
    if ReturnsZero(s, Work(w, twice), j) {
      ZeroUsesUp(e, s, Work(w, twice), j);
    }
    if j in s.db.jobs {
      JobEvolves(s.db, OpOf(e, s, Work(w, twice)), j);
    } else {
      WorkCreatesNothing(e, s, w, twice, j);
    }
    hide ApplyWork, OpOf, Tables.Apply, Plan, Pages;
  }

  lemma WorkCreatesNothing(e: Setup, s: State, w: nat, twice: bool, j: JobId)
    requires IsBusy(s, w) && j !in s.db.jobs
    ensures j !in ApplyWork(e, s, w, twice).db.jobs
  {
    var worker := s.workers[w];
    ProgramShape(e, s.db, s.store, worker.task, worker.pc, twice);
    WorkRunsOp(e, s, w, twice);
    hide Program, ApplyWork;
  }

  /** The worker's own rank falls with its step, but for the assembly that a returned 0 begins. */
  lemma RankDrops(e: Setup, s: State, w: nat, twice: bool, j: JobId)
    requires Inv(e, s) && IsBusy(s, w)
    ensures Serves(s, Work(w, twice), j) + WorkerRank(e, ApplyWork(e, s, w, twice).workers[w], j)
              <= WorkerRank(e, s.workers[w], j) + if ReturnsZero(s, Work(w, twice), j) then Assembly(e, s.db, j) else 0
  {
    hide ApplyWork, Inv, Rank, ShortRank, Assembly, Plan, Pages, ReturnsZero, Program;
    var worker := s.workers[w];
    ShortProgress(e, s, w, twice);
    if worker.task.job == j {
      SameDocument(e, s, w);
      AtLeastOne(e, worker.task, worker.pc);
      RankOfShort(e, worker.task, worker.pc);
    }
  }

  lemma PaidWork(e: Setup, s: State, w: nat, twice: bool, j: JobId)
    requires Inv(e, s) && IsBusy(s, w)
    ensures Paid(e, s, Work(w, twice), ApplyWork(e, s, w, twice), j)
  {
    hide ApplyWork, Inv, WorkerRank, Ranks, Ahead, Assembly, ReturnsZero, Serves;
    OnlyTheWorkerMoves(e, s, w, twice);
    RankDrops(e, s, w, twice, j);
    AheadShrinks(e, s, w, twice, j);
    RanksUpdate(e, s.workers, w, ApplyWork(e, s, w, twice).workers[w], j);
  }

  /** The assembly of a worker's job is that of its document. */
  lemma SameDocument(e: Setup, s: State, w: nat)
    requires Inv(e, s) && IsBusy(s, w)
    ensures var t := s.workers[w].task; t.job in s.db.jobs && Assembly(e, s.db, t.job) == |Plan(e, t.doc.file)| + |Pages(e, t.doc)|
  {
    hide StoreOk, ProducerOk, DbOk, Plan, Pages, PcOk;
    assert WorkerOk(e, s.db, s.workers[w]);
  }

  lemma PaidDeliver(e: Setup, s: State, w: nat, task: Task, j: JobId)
    requires Enabled(s, Deliver(w, task))
    ensures Paid(e, s, Deliver(w, task), Next(e, s, Deliver(w, task)), j)
  {
    hide Ahead, Assembly, Ranks;
    RanksUpdate(e, s.workers, w, Busy(task, true, Received), j);
  }

  /** An exception cuts the handler short. */
  lemma RaisesShorten(e: Setup, t: Task, pc: Pc)
    ensures pc.Converting? || pc.Converted? || pc.PartStored? ==> ShortRank(e, t, Failing) < ShortRank(e, t, pc)
    ensures pc.Assembling? ==> ShortRank(e, t, AssemblyFailed) < ShortRank(e, t, pc)
    ensures !pc.Acking? ==> ShortRank(e, t, Acking) < ShortRank(e, t, pc)
  {
    hide Plan, Pages;
  }

  lemma PaidEvent(e: Setup, s: State, step: Step, j: JobId)
    requires WorkerEvent(step) && !step.Deliver? && Enabled(s, step)
    ensures Paid(e, s, step, Next(e, s, step), j)
  {
    WorkerEventShape(e, s, step);
    RanksUpdate(e, s.workers, step.w, WorkerAfter(s, step), j);
    RaisesShorten(e, s.workers[step.w].task, s.workers[step.w].pc);
    hide Next, Rank, ShortRank, Ranks, Ahead, Assembly;
  }

  lemma PaidCreate(e: Setup, s: State, step: Step, j: JobId)
    requires step.Create? && Enabled(s, step)
    ensures Paid(e, s, step, Next(e, s, step), j)
  {
    StepRunsOp(e, s, step);
    if j in s.db.jobs {
      JobEvolves(s.db, OpOf(e, s, step), j);
    }
    assert Next(e, s, step).workers == s.workers;
    hide Next, OpOf, Tables.Apply, Ranks, Plan, Pages;
  }

  lemma PaidStep(e: Setup, s: State, step: Step, j: JobId)
    requires Inv(e, s) && Enabled(s, step)
    ensures Paid(e, s, step, Next(e, s, step), j)
  {
    hide Inv;
    if step.Work? {
      hide Paid, ApplyWork;
      PaidWork(e, s, step.w, step.twice, j);
    } else if step.Deliver? {
      hide Paid, Next;
      PaidDeliver(e, s, step.w, step.task, j);
    } else if WorkerEvent(step) {
      hide Paid, Next;
      PaidEvent(e, s, step, j);
    } else if step.Create? {
      hide Paid, Next;
      PaidCreate(e, s, step, j);
    } else {
      ProducerEventShape(e, s, step);
      hide Next, Ahead, Assembly, Ranks;
    }
  }

  // ---- All steps of a job ----

  /** Steps workers made for the job in the first `k` steps. */
  ghost function StepsBefore(e: Setup, states: seq<State>, steps: seq<Step>, k: nat, j: JobId): nat
    requires IsRun(e, states, steps) && k <= |steps|
  {
    if k == 0 then 0 else StepsBefore(e, states, steps, k - 1, j) + Serves(states[k - 1], steps[k - 1], j)
  }

  lemma {:induction false} StepsPaidFor(e: Setup, states: seq<State>, steps: seq<Step>, k: nat, j: JobId)
    requires IsRun(e, states, steps) && k <= |steps|
    ensures StepsBefore(e, states, steps, k, j) + Ranks(e, states[k].workers, j) + Ahead(e, states[k].db, j)
              <= 15 * RunsBefore(steps, k, j) + Assembly(e, states[k].db, j)
  {
    hide Inv, Next, Enabled, Init, Ahead, Assembly, Ranks, Serves, Runs;
    if k == 0 {
      NothingAtFirst(e, states[0], j);
    } else {
      StepsPaidFor(e, states, steps, k - 1, j);
      InvAlways(e, states, steps, k - 1);
      PaidStep(e, states[k - 1], steps[k - 1], j);
    }
  }

  lemma NothingAtFirst(e: Setup, s: State, j: JobId)
    requires Init(s)
    ensures Ranks(e, s.workers, j) == 0 && Ahead(e, s.db, j) == 0
  {
    NoneRanked(e, s.workers, j);
  }

  lemma {:induction false} NoneRanked(e: Setup, workers: seq<Worker>, j: JobId)
    requires forall w :: 0 <= w < |workers| ==> workers[w] == Idle
    ensures Ranks(e, workers, j) == 0
  {
    if workers != [] {
      NoneRanked(e, workers[..|workers| - 1], j);
    }
  }

  /**
   * In every run the workers make at most fifteen steps for each handler run of a job, and one
   * assembly; so, with the bound on handler runs, a bounded number in all.
   */
  lemma StepsBounded(e: Setup, states: seq<State>, steps: seq<Step>, k: nat, j: JobId)
    requires IsRun(e, states, steps) && k <= |steps|
    ensures var made, assembly := StepsBefore(e, states, steps, k, j), Assembly(e, states[k].db, j);
      && made <= 15 * RunsBefore(steps, k, j) + assembly
      && made <= 15 * (Limit(e) * (Chunks(states[k].db, j) + ExtraBefore(e, states, steps, k, j))) + assembly
  {
    hide Init, Next, Enabled, StepsBefore, Ahead, Assembly, Ranks, RunsBefore, ExtraBefore, Limit, Chunks;
    StepsPaidFor(e, states, steps, k, j);
    HandlerRunsBounded(e, states, steps, k, j);
  }

  // ---- Settling ----

  /** How many steps are left for the job at most, as long as no message is redelivered or duplicated. */
  ghost function Left(e: Setup, s: State, j: JobId): nat {
    Ranks(e, s.workers, j) + Ahead(e, s.db, j) + 15 * Potential(e, s, j)
  }

  /** How many steps the worker is away for, with a message of another job. */
  function Away(e: Setup, worker: Worker, j: JobId): nat {
    if worker.Busy? && worker.task.job != j then Rank(e, worker.task, worker.pc) else 0
  }

  /** A delivery or a statement, with no second copy of a publish. */
  predicate Plain(step: Step) {
    step.Deliver? || (step.Work? && !step.twice)
  }

  lemma PlainStep(e: Setup, s: State, step: Step, j: JobId)
    requires Inv(e, s) && Enabled(s, step) && Plain(step) && j in s.db.jobs
    ensures Serves(s, step, j) + Left(e, Next(e, s, step), j) <= Left(e, s, j)
  {
    hide Inv, Next, Ranks, Ahead, Potential, Limit;
    PaidStep(e, s, step, j);
    BalancedStep(e, s, step, j);
    NoExtra(e, s, step, j);
    SameJobRow(e, s, step, j);
  }

  /**
   * However a run goes on with plain steps, no more of them serve the job than were left for it,
   * and what is left shrinks with every one that does.
   */
  lemma {:induction false} ServedAtMost(e: Setup, states: seq<State>, steps: seq<Step>, a: nat, k: nat, j: JobId)
    requires IsRun(e, states, steps) && a <= k <= |steps| && j in states[a].db.jobs
    requires forall m :: a <= m < k ==> Plain(steps[m])
    ensures j in states[k].db.jobs
    ensures StepsBefore(e, states, steps, k, j) - StepsBefore(e, states, steps, a, j) + Left(e, states[k], j) <= Left(e, states[a], j)
    decreases k - a
  {
    hide Inv, Next, Enabled, Init, Left, Serves, Plain;
    if a < k {
      ServedAtMost(e, states, steps, a, k - 1, j);
      InvAlways(e, states, steps, k - 1);
      PlainStep(e, states[k - 1], steps[k - 1], j);
      SameJobRow(e, states[k - 1], steps[k - 1], j);
    }
  }

  lemma NoExtra(e: Setup, s: State, step: Step, j: JobId)
    requires Enabled(s, step) && Plain(step)
    ensures Extra(e, s, step, j) == 0
  {
  }

  /** The total and the assembly of a job are fixed. */
  lemma SameJobRow(e: Setup, s: State, step: Step, j: JobId)
    requires Enabled(s, step) && j in s.db.jobs
    ensures var after := Next(e, s, step).db;
      j in after.jobs && SameJob(s.db.jobs[j], after.jobs[j]) && Assembly(e, after, j) == Assembly(e, s.db, j) && Chunks(after, j) == Chunks(s.db, j)
  {
    StepRunsOp(e, s, step);
    JobEvolves(s.db, OpOf(e, s, step), j);
    hide Next, OpOf, Tables.Apply, Plan, Pages;
  }

  /** The worker is free for the job, or has it. */
  predicate Available(worker: Worker, j: JobId) {
    worker.Idle? || worker.task.job == j
  }

  /** A worker left alone with a message of another job comes closer to being free. */
  lemma ComesBack(e: Setup, s: State, w: nat, j: JobId)
    requires Inv(e, s) && IsBusy(s, w) && s.workers[w].task.job != j && j in s.db.jobs
    ensures var after := Next(e, s, Work(w, false));
      w < |after.workers| && Away(e, after.workers[w], j) < Away(e, s.workers[w], j) && Left(e, after, j) <= Left(e, s, j)
  {
    hide Inv, Rank, Left;
    PlainStep(e, s, Work(w, false), j);
    HandlerProgresses(e, s, w, false);
    OnlyTheWorkerMoves(e, s, w, false);
    AtLeastOne(e, s.workers[w].task, s.workers[w].pc);
    hide ApplyWork;
  }

  /** An unsettled job always has a step to make with an available worker, which stays available. */
  lemma StepLeft(e: Setup, states: seq<State>, steps: seq<Step>, k: nat, w: nat, j: JobId) returns (step: Step)
    requires IsRun(e, states, steps) && k <= |steps| && Routable(e) && FailStopRun(states, steps, k, j)
    requires Unsettled(e, states[k], j) && w < |states[k].workers| && Available(states[k].workers[w], j)
    ensures Enabled(states[k], step) && Plain(step) && Serves(states[k], step, j) == 1
  {
    var s := states[k];
    assert !Quiescent(s, j) by {
      hide Init, Next, Enabled, FailStopRun, Plan, Quiescent;
      if Quiescent(s, j) {
        NoJobIsLost(e, states, steps, k, j);
      }
    }
    hide Init, Next, FailStopRun, Plan, IsRun;
    if v :| 0 <= v < |s.workers| && s.workers[v].Busy? && s.workers[v].task.job == j {
      step := Work(v, false);
    } else {
      var t :| t in s.queue && t.job == j;
      step := Deliver(w, t);
    }
  }

  /** The job is published, has a chunk, and is neither done nor failed. */
  ghost predicate Unsettled(e: Setup, s: State, j: JobId) {
    j in s.published && Active(s.db, j) && Plan(e, s.db.jobs[j].doc.file) != []
  }

  lemma StaysAvailable(e: Setup, s: State, step: Step, w: nat, j: JobId)
    requires Enabled(s, step) && Plain(step) && Serves(s, step, j) == 1 && w < |s.workers| && Available(s.workers[w], j)
    ensures w < |Next(e, s, step).workers| && Available(Next(e, s, step).workers[w], j)
  {
    hide Program, Tables.Apply, WithPut, WithCounted;
  }

  /** A plain step leaves the job published, with its plan. */
  lemma StaysPublished(e: Setup, s: State, step: Step, j: JobId)
    requires Enabled(s, step) && Plain(step) && Unsettled(e, s, j)
    ensures var after := Next(e, s, step);
      j in after.db.jobs && (Unsettled(e, after, j) || Terminal(after.db.jobs[j].status))
  {
    SameJobRow(e, s, step, j);
    assert Next(e, s, step).published == s.published by { hide Program, Tables.Apply, WithPut, WithCounted; }
    hide Next, Plan, Assembly, Chunks;
  }

  lemma Append(e: Setup, states: seq<State>, steps: seq<Step>, step: Step, j: JobId)
    requires IsRun(e, states, steps) && FailStopRun(states, steps, |steps|, j)
    requires Enabled(states[|steps|], step) && Plain(step)
    ensures IsRun(e, states + [Next(e, states[|steps|], step)], steps + [step])
    ensures FailStopRun(states + [Next(e, states[|steps|], step)], steps + [step], |steps| + 1, j)
  {
    hide Next, Enabled, Init;
    AppendStep(e, states, steps, step);
  }

  /** The run goes on with plain steps, at most so many, and settles the job. */
  ghost predicate Settles(e: Setup, states: seq<State>, steps: seq<Step>, states': seq<State>, steps': seq<Step>, most: int, j: JobId) {
    && IsRun(e, states', steps') && states <= states' && steps <= steps'
    && (forall k :: |steps| <= k < |steps'| ==> Plain(steps'[k]))
    && |steps'| - |steps| <= most
    && j in states'[|steps'|].db.jobs && Terminal(states'[|steps'|].db.jobs[j].status)
  }

  /**
   * From every state of a run that is fail-stop for a published job with a chunk, and with any one
   * worker at all, deliveries and statements settle the job. It takes no more steps than are left
   * for it, and for that worker to come back from another job.
   */
  lemma {:induction false} CanSettle(e: Setup, states: seq<State>, steps: seq<Step>, w: nat, j: JobId) returns (states': seq<State>, steps': seq<Step>)
    requires IsRun(e, states, steps) && Routable(e) && FailStopRun(states, steps, |steps|, j)
    requires Unsettled(e, states[|steps|], j) && w < |states[|steps|].workers|
    ensures Settles(e, states, steps, states', steps', Left(e, states[|steps|], j) + Away(e, states[|steps|].workers[w], j), j)
    decreases Left(e, states[|steps|], j) + Away(e, states[|steps|].workers[w], j)
  {
    hide Inv, Init, Next, Enabled, Left, Away, Plan, FailStopRun, Serves, Available;
    var s := states[|steps|];
    var step := ChooseStep(e, states, steps, w, j);
    var after := Next(e, s, step);
    var more, longer := states + [after], steps + [step];
    Append(e, states, steps, step, j);
    StaysPublished(e, s, step, j);
    if Terminal(after.db.jobs[j].status) {
      states', steps' := more, longer;
    } else {
      states', steps' := CanSettle(e, more, longer, w, j);
    }
    Onward(e, states, steps, after, step, states', steps', j);
  }

  lemma Onward(e: Setup, states: seq<State>, steps: seq<Step>, after: State, step: Step, states': seq<State>, steps': seq<Step>, j: JobId)
    requires |states| == |steps| + 1 && Plain(step) && states + [after] <= states' && steps + [step] <= steps'
    requires forall k :: |steps| + 1 <= k < |steps'| ==> Plain(steps'[k])
    ensures states <= states' && steps <= steps' && forall k :: |steps| <= k < |steps'| ==> Plain(steps'[k])
  {
    assert steps'[|steps|] == step;
  }

  /** A step that brings the job, or the worker for it, closer. */
  lemma ChooseStep(e: Setup, states: seq<State>, steps: seq<Step>, w: nat, j: JobId) returns (step: Step)
    requires IsRun(e, states, steps) && Routable(e) && FailStopRun(states, steps, |steps|, j)
    requires Unsettled(e, states[|steps|], j) && w < |states[|steps|].workers|
    ensures var s := states[|steps|];
      && Enabled(s, step) && Plain(step)
      && var after := Next(e, s, step);
         w < |after.workers| && Left(e, after, j) + Away(e, after.workers[w], j) < Left(e, s, j) + Away(e, s.workers[w], j)
  {
    hide Inv, Init, Next, Left, Plan, FailStopRun, Rank;
    var s := states[|steps|];
    InvAlways(e, states, steps, |steps|);
    if Available(s.workers[w], j) {
      step := StepLeft(e, states, steps, |steps|, w, j);
      PlainStep(e, s, step, j);
      StaysAvailable(e, s, step, w, j);
    } else {
      step := Work(w, false);
      ComesBack(e, s, w, j);
    }
  }
}
