/**
 * What can be read back, document by document. As long as nothing of the document expires, a
 * visible manifest means that all its pages are there, and a done job can be read back
 * completely; whatever expires, what is still served is right.
 */
module Availability {
  import opened Types
  import opened Text
  import opened Sequential
  import opened Tables
  import opened Keys
  import opened Protocol
  import opened Integrity
  import opened Lifecycle
  import opened Paths
  import opened Outcomes
  import Pagination

  /** The first `n` pages of a document are stored. */
  ghost predicate PagesStored(store: Store, doc: DocKey, n: nat) {
    forall k :: 1 <= k <= n ==> PageKey(doc, k) in store
  }

  ghost predicate DocStored(e: Setup, store: Store, doc: DocKey) {
    ManifestKey(doc) in store && PagesStored(store, doc, |Pages(e, doc)|)
  }

  /** The object is what the document is read from. */
  predicate Published(key: ObjectKey, doc: DocKey) {
    (key.PageKey? || key.ManifestKey?) && key.doc == doc
  }

  /** The step loses a page or the manifest of the document. */
  predicate Loses(step: Step, doc: DocKey) {
    step.Expire? && Published(step.key, doc)
  }

  /** From step `a` up to step `n` nothing of the document expires; parts and other documents may. */
  ghost predicate Unexpired(steps: seq<Step>, a: nat, n: nat, doc: DocKey)
    requires n <= |steps|
  {
    forall k :: a <= k < n ==> !Loses(steps[k], doc)
  }

  /** What the document is read from is still there. */
  ghost predicate Grown(store: Store, later: Store, doc: DocKey) {
    forall key :: key in store && Published(key, doc) ==> key in later
  }

  lemma StepGrows(e: Setup, s: State, step: Step, doc: DocKey)
    requires Enabled(s, step) && !Loses(step, doc)
    ensures Grown(s.store, Next(e, s, step).store, doc)
  {
    hide Program, Tables.Apply;
  }

  lemma GrownDoc(e: Setup, store: Store, later: Store, doc: DocKey, n: nat)
    requires Grown(store, later, doc)
    ensures PagesStored(store, doc, n) ==> PagesStored(later, doc, n)
    ensures DocStored(e, store, doc) ==> DocStored(e, later, doc)
  {
    hide Pages;
  }

  lemma {:induction false} StoreGrows(e: Setup, states: seq<State>, steps: seq<Step>, a: nat, b: nat, doc: DocKey)
    requires IsRun(e, states, steps) && a <= b < |states| && Unexpired(steps, a, b, doc)
    ensures Grown(states[a].store, states[b].store, doc)
    decreases b - a
  {
    hide Next, Enabled, Init, Loses;
    if a < b {
      StoreGrows(e, states, steps, a, b - 1, doc);
      StepGrows(e, states[b - 1], steps[b - 1], doc);
    }
  }

  // ---- What an assembling worker has put ----

  /** A worker assembling the document has put what its position says. */
  ghost predicate PublisherOk(e: Setup, store: Store, worker: Worker) {
    worker.Busy? && worker.pc.Assembling? ==>
      && (worker.pc.stage.Publishing? ==> PagesStored(store, worker.task.doc, worker.pc.stage.written))
      && (worker.pc.stage.ManifestStored? || worker.pc.stage.Recorded? || worker.pc.stage.Finished? ==>
            DocStored(e, store, worker.task.doc))
  }

  lemma GrownPublisher(e: Setup, store: Store, later: Store, worker: Worker)
    requires PublisherOk(e, store, worker) && (worker.Busy? ==> Grown(store, later, worker.task.doc))
    ensures PublisherOk(e, later, worker)
  {
    hide Pages;
  }

  /** The manifest is written last: by then every page has been put. */
  lemma PublishOrder(e: Setup, db: Db, store: Store, t: Task, stage: Stage)
    requires t.file == t.doc.file && t.index < |Plan(e, t.file)| && StageOk(e, t, stage)
    requires PublisherOk(e, store, Busy(t, true, Assembling(stage)))
    ensures var effect := Assemble(e, db, store, t, stage);
      var later := WithPut(store, effect.put);
      && PublisherOk(e, later, Busy(t, true, effect.pc))
      && (forall d :: ManifestKey(d) in later && ManifestKey(d) !in store ==> DocStored(e, later, d))
      && (effect.op.RecordDocument? ==> effect.op.doc == t.doc && DocStored(e, later, t.doc))
  {
    hide Pages, Sequential.Markdown, Assembled, Pagination.Paginated, Plan;
  }

  lemma PutOrder(e: Setup, s: State, w: nat, twice: bool)
    requires Inv(e, s) && IsBusy(s, w) && !s.workers[w].pc.Acking? && PublisherOk(e, s.store, s.workers[w])
    ensures var worker := s.workers[w];
      var effect := Program(e, s.db, s.store, worker.task, worker.pc, twice);
      var store := WithPut(s.store, effect.put);
      && PublisherOk(e, store, worker.(pc := effect.pc))
      && (forall d :: ManifestKey(d) in store && ManifestKey(d) !in s.store ==> DocStored(e, store, d))
      && (effect.op.RecordDocument? ==> effect.op.doc == worker.task.doc && DocStored(e, store, worker.task.doc))
  {
    hide DbOk, StoreOk, ProducerOk, Pages, Sequential.Markdown, Assembled, Pagination.Paginated;
    var worker := s.workers[w];
    assert WorkerOk(e, s.db, worker);
    if worker.pc.Assembling? {
      PublishOrder(e, s.db, s.store, worker.task, worker.pc.stage);
    } else {
      ProgramShape(e, s.db, s.store, worker.task, worker.pc, twice);
      ProgramStages(e, s.db, s.store, worker.task, worker.pc, twice);
      PutsPartsOnly(e, s.db, s.store, worker.task, worker.pc, twice);
      hide Program;
    }
  }

  lemma PutsPartsOnly(e: Setup, db: Db, store: Store, t: Task, pc: Pc, twice: bool)
    requires !pc.Assembling?
    ensures var put := Program(e, db, store, t, pc, twice).put; put.Some? ==> put.value.0.PartKey?
  {
  }

  /** The worker's step keeps its own account in order. */
  lemma OwnPublisher(e: Setup, s: State, w: nat, twice: bool)
    requires Inv(e, s) && IsBusy(s, w) && PublisherOk(e, s.store, s.workers[w])
    ensures w < |ApplyWork(e, s, w, twice).workers| && PublisherOk(e, ApplyWork(e, s, w, twice).store, ApplyWork(e, s, w, twice).workers[w])
  {
    hide Inv, Program, PublisherOk, Tables.Apply, WithPut, WithCounted, Pages;
    if s.workers[w].pc.Acking? {
      IdlePublisher(e, s.store);
    } else {
      PutOrder(e, s, w, twice);
    }
  }

  lemma IdlePublisher(e: Setup, store: Store)
    ensures PublisherOk(e, store, Idle)
  {
  }

  /** What happens to a worker from outside puts it into no assembly. */
  lemma PublisherEvent(e: Setup, s: State, step: Step, v: nat)
    requires Enabled(s, step) && !step.Work? && v < |s.workers|
    ensures var after := Next(e, s, step);
      && |after.workers| == |s.workers|
      && (after.workers[v].Busy? && after.workers[v].pc.Assembling? ==>
            s.workers[v].Busy? && s.workers[v].pc == after.workers[v].pc && s.workers[v].task == after.workers[v].task)
  {
    hide Next;
    if WorkerEvent(step) {
      WorkerEventShape(e, s, step);
    } else if step.Create? {
      CreateShape(e, s, step.p, step.job);
    } else {
      ProducerEventShape(e, s, step);
    }
  }

  lemma OtherWorker(e: Setup, s: State, w: nat, twice: bool, v: nat)
    requires IsBusy(s, w) && v < |s.workers| && v != w
    ensures var after := ApplyWork(e, s, w, twice); v < |after.workers| && after.workers[v] == s.workers[v]
  {
    hide Program, Tables.Apply, WithPut, WithCounted;
  }

  lemma PublisherWork(e: Setup, s: State, w: nat, twice: bool, v: nat)
    requires Inv(e, s) && IsBusy(s, w) && v < |s.workers| && PublisherOk(e, s.store, s.workers[v])
    ensures var after := ApplyWork(e, s, w, twice); v < |after.workers| && PublisherOk(e, after.store, after.workers[v])
  {
    hide Inv, ApplyWork, PublisherOk, Next, Grown;
    if w == v {
      OwnPublisher(e, s, v, twice);
    } else {
      OtherWorker(e, s, w, twice, v);
      NextOfWork(e, s, w, twice);
      if s.workers[v].Busy? {
        StepGrows(e, s, Work(w, twice), s.workers[v].task.doc);
      }
      GrownPublisher(e, s.store, ApplyWork(e, s, w, twice).store, s.workers[v]);
    }
  }

  lemma PublisherQuiet(e: Setup, s: State, step: Step, v: nat)
    requires Enabled(s, step) && !step.Work? && v < |s.workers| && PublisherOk(e, s.store, s.workers[v])
    requires s.workers[v].Busy? ==> !Loses(step, s.workers[v].task.doc)
    ensures v < |Next(e, s, step).workers| && PublisherOk(e, Next(e, s, step).store, Next(e, s, step).workers[v])
  {
    hide Next, Enabled, PagesStored, DocStored, Grown, Loses;
    if s.workers[v].Busy? {
      StepGrows(e, s, step, s.workers[v].task.doc);
    }
    GrownPublisher(e, s.store, Next(e, s, step).store, s.workers[v]);
    PublisherEvent(e, s, step, v);
  }

  /** As long as nothing of a worker's document expires, its account stays in order, whoever moves. */
  lemma PublisherStep(e: Setup, s: State, step: Step, v: nat)
    requires Inv(e, s) && Enabled(s, step) && v < |s.workers| && PublisherOk(e, s.store, s.workers[v])
    requires s.workers[v].Busy? ==> !Loses(step, s.workers[v].task.doc)
    ensures v < |Next(e, s, step).workers| && PublisherOk(e, Next(e, s, step).store, Next(e, s, step).workers[v])
  {
    hide Inv, Next, PublisherOk, ApplyWork, Loses;
    if step.Work? {
      NextOfWork(e, s, step.w, step.twice);
      PublisherWork(e, s, step.w, step.twice, v);
    } else {
      PublisherQuiet(e, s, step, v);
    }
  }

  // ---- Per document ----

  /** Whoever assembles the document has put what it should, and its manifest and its row mean that it is all there. */
  ghost predicate AvailInv(e: Setup, s: State, doc: DocKey) {
    && (forall w :: 0 <= w < |s.workers| && s.workers[w].Busy? && s.workers[w].task.doc == doc ==> PublisherOk(e, s.store, s.workers[w]))
    && (ManifestKey(doc) in s.store ==> DocStored(e, s.store, doc))
    && (doc in s.db.documents ==> DocStored(e, s.store, doc))
  }

  /** Whose message it is: the worker had it before, or has just received it. */
  lemma WorkerBefore(e: Setup, s: State, step: Step, w: nat)
    requires Enabled(s, step) && w < |Next(e, s, step).workers| && Next(e, s, step).workers[w].Busy?
    ensures w < |s.workers|
    ensures var worker := Next(e, s, step).workers[w];
      worker.pc.Received? || (s.workers[w].Busy? && s.workers[w].task == worker.task)
  {
    hide Next;
    if step.Work? {
      NextOfWork(e, s, step.w, step.twice);
      hide Program, Tables.Apply, WithPut, WithCounted;
    } else if WorkerEvent(step) {
      WorkerEventShape(e, s, step);
    } else if step.Create? {
      CreateShape(e, s, step.p, step.job);
    } else {
      ProducerEventShape(e, s, step);
    }
  }

  lemma AvailPublishers(e: Setup, s: State, step: Step, doc: DocKey)
    requires Inv(e, s) && AvailInv(e, s, doc) && Enabled(s, step) && !Loses(step, doc)
    ensures var after := Next(e, s, step);
      forall w :: 0 <= w < |after.workers| && after.workers[w].Busy? && after.workers[w].task.doc == doc ==> PublisherOk(e, after.store, after.workers[w])
  {
    hide Inv, Next, Enabled, Loses, PagesStored, DocStored, Pages;
    var after := Next(e, s, step);
    forall w | 0 <= w < |after.workers| && after.workers[w].Busy? && after.workers[w].task.doc == doc
      ensures PublisherOk(e, after.store, after.workers[w])
    {
      WorkerBefore(e, s, step, w);
      if !after.workers[w].pc.Received? {
        PublisherStep(e, s, step, w);
      }
    }
  }

  /** A manifest or a row that is new comes from a worker that has put everything. */
  lemma NewlyStored(e: Setup, s: State, step: Step, doc: DocKey)
    requires Inv(e, s) && AvailInv(e, s, doc) && Enabled(s, step)
    ensures var after := Next(e, s, step);
      && (ManifestKey(doc) in after.store && ManifestKey(doc) !in s.store ==> DocStored(e, after.store, doc))
      && (doc in after.db.documents && doc !in s.db.documents ==> DocStored(e, after.store, doc))
  {
    hide AvailInv, DocStored, Inv;
    if step.Work? && !s.workers[step.w].pc.Acking? {
      hide ApplyWork;
      NewlyWorked(e, s, step.w, step.twice, doc);
    } else {
      hide Next;
      NothingNew(e, s, step, doc);
    }
  }

  lemma NothingNew(e: Setup, s: State, step: Step, doc: DocKey)
    requires Enabled(s, step) && (step.Work? ==> s.workers[step.w].pc.Acking?)
    ensures ManifestKey(doc) in Next(e, s, step).store ==> ManifestKey(doc) in s.store
    ensures doc in Next(e, s, step).db.documents ==> doc in s.db.documents
  {
    if WorkerEvent(step) {
      WorkerEventShape(e, s, step);
      hide Next;
    } else if ProducerEvent(step) && !step.Expire? {
      ProducerEventShape(e, s, step);
      hide Next;
    }
  }

  lemma NewlyWorked(e: Setup, s: State, w: nat, twice: bool, doc: DocKey)
    requires Inv(e, s) && AvailInv(e, s, doc) && IsBusy(s, w) && !s.workers[w].pc.Acking?
    ensures var after := ApplyWork(e, s, w, twice);
      && (ManifestKey(doc) in after.store && ManifestKey(doc) !in s.store ==> DocStored(e, after.store, doc))
      && (doc in after.db.documents && doc !in s.db.documents ==> DocStored(e, after.store, doc))
  {
    hide Inv, Program, PublisherOk, Tables.Apply, WithPut, WithCounted, Pages, DocStored;
    var worker := s.workers[w];
    var effect := Program(e, s.db, s.store, worker.task, worker.pc, twice);
    var after := ApplyWork(e, s, w, twice);
    WorkRunsOp(e, s, w, twice);
    if worker.task.doc == doc {
      PutOrder(e, s, w, twice);
      if doc in after.db.documents {
        DocumentsGrow(s.db, effect.op, doc);
      }
    } else {
      OtherDocument(e, s, w, twice, doc);
    }
  }

  /** A worker on another document writes neither manifest nor row of this one. */
  lemma OtherDocument(e: Setup, s: State, w: nat, twice: bool, doc: DocKey)
    requires Inv(e, s) && IsBusy(s, w) && !s.workers[w].pc.Acking? && s.workers[w].task.doc != doc
    ensures var worker := s.workers[w];
      var effect := Program(e, s.db, s.store, worker.task, worker.pc, twice);
      && (ManifestKey(doc) in WithPut(s.store, effect.put) ==> ManifestKey(doc) in s.store)
      && (doc in Tables.Apply(s.db, effect.op).documents ==> doc in s.db.documents)
  {
    hide DbOk, StoreOk, ProducerOk, Pages, Sequential.Markdown, Assembled, Pagination.Paginated, Plan, Tables.Apply;
    var worker := s.workers[w];
    assert WorkerOk(e, s.db, worker);
    var effect := Program(e, s.db, s.store, worker.task, worker.pc, twice);
    if doc in Tables.Apply(s.db, effect.op).documents {
      DocumentsGrow(s.db, effect.op, doc);
    }
    if !worker.pc.Assembling? {
      ProgramShape(e, s.db, s.store, worker.task, worker.pc, twice);
      PutsPartsOnly(e, s.db, s.store, worker.task, worker.pc, twice);
      hide Program;
    }
  }

  lemma DocumentsGrow(db: Db, op: Op, d: DocKey)
    requires d in Tables.Apply(db, op).documents
    ensures d in db.documents || (op.RecordDocument? && op.doc == d)
  {
  }

  lemma AvailStep(e: Setup, s: State, step: Step, doc: DocKey)
    requires Inv(e, s) && AvailInv(e, s, doc) && Enabled(s, step) && !Loses(step, doc)
    ensures AvailInv(e, Next(e, s, step), doc)
  {
    AvailPublishers(e, s, step, doc);
    NewlyStored(e, s, step, doc);
    StepGrows(e, s, step, doc);
    GrownDoc(e, s.store, Next(e, s, step).store, doc, 0);
    hide Inv, Next, Enabled, Loses, PublisherOk, DocStored, Grown;
  }

  /** As long as no page and no manifest of the document expires, its manifest and its row mean that all its pages are there. */
  lemma {:induction false} AvailAlways(e: Setup, states: seq<State>, steps: seq<Step>, k: nat, doc: DocKey)
    requires IsRun(e, states, steps) && k < |states| && Unexpired(steps, 0, k, doc)
    ensures AvailInv(e, states[k], doc)
  {
    hide AvailInv, Inv, Next, Enabled, Loses;
    if k > 0 {
      InvAlways(e, states, steps, k - 1);
      AvailAlways(e, states, steps, k - 1, doc);
      AvailStep(e, states[k - 1], steps[k - 1], doc);
    } else {
      AvailInitially(e, states[0], doc);
    }
  }

  lemma AvailInitially(e: Setup, s: State, doc: DocKey)
    requires Init(s)
    ensures AvailInv(e, s, doc)
  {
  }

  // ---- Per job ----

  /** Whoever assembles the job has put what it should, and once the job is done its document is all there. */
  ghost predicate JobAvail(e: Setup, s: State, j: JobId) {
    && (forall w :: 0 <= w < |s.workers| && Assembles(s.workers[w], j) ==> PublisherOk(e, s.store, s.workers[w]))
    && (j in s.db.jobs && s.db.jobs[j].status.Done? ==> DocStored(e, s.store, s.db.jobs[j].doc))
  }

  /** With its zero the job has exactly one assembler, which has put nothing yet. */
  lemma JobAvailAtZero(e: Setup, s: State, step: Step, j: JobId)
    requires Inv(e, s) && LifeInv(s) && ReturnsZero(s, step, j)
    ensures Enabled(s, step) && JobAvail(e, Next(e, s, step), j)
  {
    hide Inv, Pages, Tables.Apply, WithPut, WithCounted;
    var worker := s.workers[step.w];
    ZeroUsesUp(e, s, step, j);
    ZeroRuns(e, s, step, j);
    ProgramStages(e, s.db, s.store, worker.task, worker.pc, step.twice);
    hide Program;
    forall w | 0 <= w < |s.workers| ensures !Assembles(s.workers[w], j) {
      assert AssemblerOk(s.db, s.workers[w]);
    }
  }

  lemma ZeroRuns(e: Setup, s: State, step: Step, j: JobId)
    requires ReturnsZero(s, step, j)
    ensures Enabled(s, step) && j in Next(e, s, step).db.jobs && Next(e, s, step).db.jobs[j].status.Running?
  {
    var worker := s.workers[step.w];
    ProgramShape(e, s.db, s.store, worker.task, worker.pc, step.twice);
    hide Program;
    WorkRunsOp(e, s, step.w, step.twice);
  }

  lemma JobAvailStep(e: Setup, s: State, step: Step, j: JobId)
    requires Inv(e, s) && JobAvail(e, s, j) && Enabled(s, step) && j in s.db.jobs
    requires !Loses(step, s.db.jobs[j].doc) && !ReturnsZero(s, step, j)
    ensures JobAvail(e, Next(e, s, step), j)
  {
    hide Inv, Next, Loses, PublisherOk, DocStored, ReturnsZero;
    var after, doc := Next(e, s, step), s.db.jobs[j].doc;
    forall w | 0 <= w < |after.workers| && Assembles(after.workers[w], j) ensures PublisherOk(e, after.store, after.workers[w]) {
      BecomesAssembler(e, s, step, w, j);
      WorkersDocument(e, s, w);
      PublisherStep(e, s, step, w);
    }
    SameDoc(e, s, step, j);
    if after.db.jobs[j].status.Done? {
      if s.db.jobs[j].status.Done? {
        StepGrows(e, s, step, doc);
        GrownDoc(e, s.store, after.store, doc, 0);
      } else {
        DoneByFinish(e, s, step, j);
        FinishedIsStored(e, s, step, j);
      }
    }
  }

  lemma WorkersDocument(e: Setup, s: State, w: nat)
    requires Inv(e, s) && IsBusy(s, w)
    ensures s.workers[w].task.job in s.db.jobs && s.workers[w].task.doc == s.db.jobs[s.workers[w].task.job].doc
  {
    hide StoreOk, ProducerOk, DbOk, PcOk, Plan;
    assert WorkerOk(e, s.db, s.workers[w]);
  }

  lemma SameDoc(e: Setup, s: State, step: Step, j: JobId)
    requires Enabled(s, step) && j in s.db.jobs
    ensures j in Next(e, s, step).db.jobs && Next(e, s, step).db.jobs[j].doc == s.db.jobs[j].doc
  {
    StepRunsOp(e, s, step);
    JobEvolves(s.db, OpOf(e, s, step), j);
    hide Next, OpOf, Tables.Apply;
  }

  /** Whoever finishes a job has its document stored. */
  lemma FinishedIsStored(e: Setup, s: State, step: Step, j: JobId)
    requires Inv(e, s) && JobAvail(e, s, j) && Finishes(s, step, j)
    ensures Enabled(s, step) && j in s.db.jobs && DocStored(e, Next(e, s, step).store, s.db.jobs[j].doc)
  {
    hide Inv, DocStored;
    WorkersDocument(e, s, step.w);
    assert PublisherOk(e, s.store, s.workers[step.w]);
    assert Next(e, s, step).store == s.store by { hide Tables.Apply, WithCounted; }
  }

  lemma {:induction false} JobAvailSince(e: Setup, states: seq<State>, steps: seq<Step>, a: nat, k: nat, j: JobId)
    requires IsRun(e, states, steps) && a < k < |states| && ReturnsZero(states[a], steps[a], j)
    requires j in states[k].db.jobs && Unexpired(steps, a, k, states[k].db.jobs[j].doc)
    ensures JobAvail(e, states[k], j)
  {
    hide Inv, LifeInv, Next, Enabled, Init, ReturnsZero, JobAvail, Loses;
    LifeAlways(e, states, steps, k - 1);
    if k == a + 1 {
      JobAvailAtZero(e, states[a], steps[a], j);
    } else {
      ZeroHasJob(e, states, steps, a, k - 1, j);
      SameDoc(e, states[k - 1], steps[k - 1], j);
      JobAvailSince(e, states, steps, a, k - 1, j);
      ZeroOnce(e, states, steps, a, k - 1, j);
      JobAvailStep(e, states[k - 1], steps[k - 1], j);
    }
  }

  lemma ZeroHasJob(e: Setup, states: seq<State>, steps: seq<Step>, a: nat, k: nat, j: JobId)
    requires IsRun(e, states, steps) && a < k < |states| && ReturnsZero(states[a], steps[a], j)
    ensures j in states[k].db.jobs
  {
    hide Next, Init;
    ZeroUsesUp(e, states[a], steps[a], j);
    RunEvolves(e, states, steps, a, k);
  }

  // ---- Reading back ----

  /** `get_page_endpoint`; the manifest and the page are read at two different times. */
  function GetPage(early: Store, late: Store, doc: DocKey, page: int): Option<Payload> {
    var key := ManifestKey(doc);
    if key !in early || !early[key].ManifestObject? || page < 1 || page > early[key].totalPages then None
    else
      match GetText(late, PageKey(doc, page))
      case None => None
      case Some(text) =>
        Some(Payload(doc, text, Pagination.BuildPagination(doc, page, early[key].totalPages, early[key].totalLength, early[key].pageSize)))
  }

  /** What the sequential conversion would answer for a page. */
  function SequentialPage(e: Setup, doc: DocKey, page: int): Option<Payload> {
    if 1 <= page <= |Pages(e, doc)|
    then Some(Payload(doc, Pages(e, doc)[page - 1], Pagination.BuildPagination(doc, page, |Pages(e, doc)|, |Sequential.Markdown(e, doc)|, e.pageSize)))
    else None
  }

  /**
   * The answer for a page, without reference to how it is built: the page itself, the figures of
   * the document, and links that are there exactly when there is a page to link to.
   */
  ghost predicate Answers(e: Setup, doc: DocKey, page: int, payload: Payload) {
    var links, n := payload.links, |Pages(e, doc)|;
    && 1 <= page <= n && payload.doc == doc && payload.content == Pages(e, doc)[page - 1]
    && links.doc == doc && links.page == page && links.totalPages == n
    && links.totalLength == |Sequential.Markdown(e, doc)| && links.pageSize == e.pageSize
    && links.hasNext == (page < n) && links.nextPage == (if page < n then Some(page + 1) else None)
    && links.hasPrev == (page > 1) && links.prevPage == (if page > 1 then Some(page - 1) else None)
  }

  lemma SequentialAnswers(e: Setup, doc: DocKey, page: int)
    ensures SequentialPage(e, doc, page).Some? <==> 1 <= page <= |Pages(e, doc)|
    ensures SequentialPage(e, doc, page).Some? ==> Answers(e, doc, page, SequentialPage(e, doc, page).value)
  {
    hide Pages, Sequential.Markdown;
  }

  lemma PageRead(e: Setup, early: Store, late: Store, doc: DocKey, page: int)
    requires StoreOk(e, early) && StoreOk(e, late)
    ensures GetPage(early, late, doc, page).Some? ==> GetPage(early, late, doc, page) == SequentialPage(e, doc, page)
    ensures DocStored(e, early, doc) && PagesStored(late, doc, |Pages(e, doc)|) ==>
      GetPage(early, late, doc, page) == SequentialPage(e, doc, page)
  {
    hide Pages, Sequential.Markdown;
    var key := ManifestKey(doc);
    assert key in early ==> SequentialObject(e, key) == Some(early[key]);
    if 1 <= page {
      var k: nat := page;
      assert PageKey(doc, k) in late ==> SequentialObject(e, PageKey(doc, k)) == Some(late[PageKey(doc, k)]);
    }
  }

  /** A page that is served is the page of the sequential conversion, even when objects expire at any time. */
  lemma ServedPageIsRight(e: Setup, states: seq<State>, steps: seq<Step>, a: nat, b: nat, doc: DocKey, page: int)
    requires IsRun(e, states, steps) && a <= b < |states|
    requires GetPage(states[a].store, states[b].store, doc, page).Some?
    ensures GetPage(states[a].store, states[b].store, doc, page) == SequentialPage(e, doc, page)
    ensures Answers(e, doc, page, GetPage(states[a].store, states[b].store, doc, page).value)
  {
    hide GetPage, SequentialPage, Answers, StoreOk, DbOk, TaskOk, WorkerOk, ProducerOk, DocStored, PagesStored;
    SequentialAnswers(e, doc, page);
    InvAlways(e, states, steps, a);
    InvAlways(e, states, steps, b);
    PageRead(e, states[a].store, states[b].store, doc, page);
  }

  /** The cache is transparent: what `submit` serves is what converting the same bytes again would give. */
  lemma CacheIsTransparent(e: Setup, states: seq<State>, steps: seq<Step>, k: nat, p: nat)
    requires IsRun(e, states, steps) && k < |states| && p < |states[k].producers| && states[k].producers[p].Served?
    ensures Some(states[k].producers[p].payload) == SequentialPage(e, states[k].producers[p].doc, 1)
    ensures Answers(e, states[k].producers[p].doc, 1, states[k].producers[p].payload)
  {
    hide DbOk, StoreOk, TaskOk, WorkerOk, Pages, Sequential.Markdown, Next, Enabled, Init, Answers;
    SequentialAnswers(e, states[k].producers[p].doc, 1);
    InvAlways(e, states, steps, k);
    assert ProducerOk(e, states[k].db, states[k].producers[p]);
  }

  /**
   * Unless a page or the manifest of the document has expired, a visible manifest means every page
   * is there and right; no other page is served. Parts, and other documents, may have expired.
   */
  lemma ManifestMeansPages(e: Setup, states: seq<State>, steps: seq<Step>, a: nat, b: nat, doc: DocKey, page: int)
    requires IsRun(e, states, steps) && a <= b < |states| && Unexpired(steps, 0, b, doc)
    requires ManifestKey(doc) in states[a].store
    ensures GetPage(states[a].store, states[b].store, doc, page) == SequentialPage(e, doc, page)
    ensures var answer := GetPage(states[a].store, states[b].store, doc, page);
      if 1 <= page <= |Pages(e, doc)| then answer.Some? && Answers(e, doc, page, answer.value) else answer.None?
  {
    hide GetPage, SequentialPage, Answers, StoreOk, DbOk, TaskOk, WorkerOk, ProducerOk, PublisherOk, Next, Enabled, Init, Loses, PagesStored;
    SequentialAnswers(e, doc, page);
    InvAlways(e, states, steps, a);
    InvAlways(e, states, steps, b);
    AvailAlways(e, states, steps, a, doc);
    StoreGrows(e, states, steps, a, b, doc);
    GrownDoc(e, states[a].store, states[b].store, doc, |Pages(e, doc)|);
    PageRead(e, states[a].store, states[b].store, doc, page);
  }

  /** The page count the stored manifest announces. */
  function AnnouncedPages(store: Store, doc: DocKey): nat {
    var key := ManifestKey(doc);
    if key in store && store[key].ManifestObject? then store[key].totalPages else 0
  }

  /** What a client reads that asks for one page and then follows `next_page` of every answer; None when an answer is 404. */
  function ReadFrom(store: Store, doc: DocKey, page: int): Option<seq<string>>
    decreases AnnouncedPages(store, doc) - page
  {
    match GetPage(store, store, doc, page)
    case None => None
    case Some(payload) =>
      match payload.links.nextPage
      case None => Some([payload.content])
      case Some(next) =>
        var rest := ReadFrom(store, doc, next);
        if rest.None? then None else Some([payload.content] + rest.value)
  }

  lemma {:induction false} ReadFromSequential(e: Setup, store: Store, doc: DocKey, page: nat)
    requires StoreOk(e, store) && DocStored(e, store, doc) && 1 <= page <= |Pages(e, doc)|
    ensures ReadFrom(store, doc, page) == Some(Pages(e, doc)[page - 1..])
    decreases |Pages(e, doc)| - page
  {
    hide Pages, StoreOk, GetPage, DocStored, Sequential.Markdown, ReadFrom;
    PageAnswer(e, store, doc, page);
    ReadOn(store, doc, page);
    if page < |Pages(e, doc)| {
      ReadFromSequential(e, store, doc, page + 1);
    }
    FirstOfRest(Pages(e, doc), page);
  }

  /** One answer, and what reading on from its link gives. */
  lemma ReadOn(store: Store, doc: DocKey, page: int)
    requires GetPage(store, store, doc, page).Some?
    ensures var payload := GetPage(store, store, doc, page).value;
      && (payload.links.nextPage.None? ==> ReadFrom(store, doc, page) == Some([payload.content]))
      && (payload.links.nextPage.Some? && ReadFrom(store, doc, payload.links.nextPage.value).Some? ==>
            ReadFrom(store, doc, page) == Some([payload.content] + ReadFrom(store, doc, payload.links.nextPage.value).value))
  {
  }

  lemma FirstOfRest(pages: seq<string>, page: nat)
    requires 1 <= page <= |pages|
    ensures pages[page - 1..] == [pages[page - 1]] + pages[page..]
    ensures page == |pages| ==> pages[page - 1..] == [pages[page - 1]]
  {
  }

  /** Every page of a stored document is answered. */
  lemma PageAnswer(e: Setup, store: Store, doc: DocKey, page: nat)
    requires StoreOk(e, store) && DocStored(e, store, doc) && 1 <= page <= |Pages(e, doc)|
    ensures GetPage(store, store, doc, page).Some? && Answers(e, doc, page, GetPage(store, store, doc, page).value)
  {
    hide Pages, Sequential.Markdown, StoreOk, GetPage, DocStored, SequentialPage, Answers;
    PagesOfDoc(e, store, doc);
    PageRead(e, store, store, doc, page);
    SequentialAnswers(e, doc, page);
  }

  /** Going on to the next page and back again ends where it began. */
  lemma NextAndBack(e: Setup, store: Store, doc: DocKey, page: nat)
    requires StoreOk(e, store) && DocStored(e, store, doc) && 1 <= page < |Pages(e, doc)|
    ensures var next := GetPage(store, store, doc, page).value.links.nextPage;
      && next.Some? && GetPage(store, store, doc, next.value).Some?
      && GetPage(store, store, doc, next.value).value.links.prevPage == Some(page)
    ensures GetPage(store, store, doc, page).Some?
  {
    hide Pages, Sequential.Markdown, StoreOk, GetPage, DocStored;
    PageAnswer(e, store, doc, page);
    PageAnswer(e, store, doc, page + 1);
  }

  /** What a client reads that asks for one page and then follows `prev_page` of every answer. */
  function ReadBack(store: Store, doc: DocKey, page: int): Option<seq<string>>
    decreases if page < 0 then 0 else page
  {
    match GetPage(store, store, doc, page)
    case None => None
    case Some(payload) =>
      match payload.links.prevPage
      case None => Some([payload.content])
      case Some(prev) =>
        var rest := ReadBack(store, doc, prev);
        if rest.None? then None else Some([payload.content] + rest.value)
  }

  /** Following `prev_page` reads the pages backward, to the first. */
  lemma {:induction false} ReadBackSequential(e: Setup, store: Store, doc: DocKey, page: nat)
    requires StoreOk(e, store) && DocStored(e, store, doc) && 1 <= page <= |Pages(e, doc)|
    ensures var read := ReadBack(store, doc, page);
      && read.Some? && |read.value| == page
      && forall i :: 0 <= i < page ==> read.value[i] == Pages(e, doc)[page - 1 - i]
    decreases page
  {
    hide Pages, StoreOk, GetPage, DocStored;
    PageAnswer(e, store, doc, page);
    if page > 1 {
      ReadBackSequential(e, store, doc, page - 1);
    }
  }

  lemma PagesOfDoc(e: Setup, store: Store, doc: DocKey)
    requires DocStored(e, store, doc)
    ensures PagesStored(store, doc, |Pages(e, doc)|)
  {
  }

  /**
   * End to end: if no page and no manifest of its document expired since the job's own
   * `complete_chunk` returned 0, then once the job is done a client that starts at page 1 and
   * follows the links of every answer reads exactly the sequential pages. Apart from whitespace
   * these are the conversions of all chunks in chunk order, whatever order the chunks were
   * completed in. What expired before, the reason for converting again, does not matter.
   */
  lemma DoneReadsBack(e: Setup, states: seq<State>, steps: seq<Step>, a: nat, k: nat, j: JobId)
    requires IsRun(e, states, steps) && a < k < |states| && ReturnsZero(states[a], steps[a], j)
    requires j in states[k].db.jobs && states[k].db.jobs[j].status.Done?
    requires Unexpired(steps, a, k, states[k].db.jobs[j].doc)
    ensures var doc := states[k].db.jobs[j].doc;
      var read := ReadFrom(states[k].store, doc, 1);
      && read == Some(Pages(e, doc))
      && Ink(Concat(read.value)) == Ink(Concat(Parts(e, doc, |Plan(e, doc.file)|)))
  {
    hide DbOk, TaskOk, WorkerOk, ProducerOk, PublisherOk, StoreOk, Pages, Sequential.Markdown, Parts, Plan, ReadFrom, Next, Enabled, Init, ReturnsZero, Loses;
    var doc := states[k].db.jobs[j].doc;
    InvAlways(e, states, steps, k);
    JobAvailSince(e, states, steps, a, k, j);
    SomePage(e, doc);
    ReadFromSequential(e, states[k].store, doc, 1);
    assert Pages(e, doc)[0..] == Pages(e, doc);
    PagesAreTheChunks(e, doc);
  }

  /** And a client that starts at the last page reads them all backward. */
  lemma DoneReadsBackward(e: Setup, states: seq<State>, steps: seq<Step>, a: nat, k: nat, j: JobId)
    requires IsRun(e, states, steps) && a < k < |states| && ReturnsZero(states[a], steps[a], j)
    requires j in states[k].db.jobs && states[k].db.jobs[j].status.Done?
    requires Unexpired(steps, a, k, states[k].db.jobs[j].doc)
    ensures var doc := states[k].db.jobs[j].doc;
      var n := |Pages(e, doc)|; var read := ReadBack(states[k].store, doc, n);
      read.Some? && |read.value| == n && forall i :: 0 <= i < n ==> read.value[i] == Pages(e, doc)[n - 1 - i]
  {
    hide DbOk, TaskOk, WorkerOk, ProducerOk, PublisherOk, StoreOk, Pages, ReadBack, Next, Enabled, Init, ReturnsZero, Loses;
    var doc := states[k].db.jobs[j].doc;
    InvAlways(e, states, steps, k);
    JobAvailSince(e, states, steps, a, k, j);
    SomePage(e, doc);
    ReadBackSequential(e, states[k].store, doc, |Pages(e, doc)|);
  }

  // ---- Asking again ----

  /** What is stored of a done job's document is what a lookup looks for. */
  lemma DoneIsInCache(e: Setup, states: seq<State>, steps: seq<Step>, a: nat, k: nat, j: JobId)
    requires IsRun(e, states, steps) && a < k < |states| && ReturnsZero(states[a], steps[a], j)
    requires j in states[k].db.jobs && states[k].db.jobs[j].status.Done?
    requires Unexpired(steps, a, k, states[k].db.jobs[j].doc)
    ensures var s, doc := states[k], states[k].db.jobs[j].doc;
      && InCache(s.db, s.store, doc) && SomePages(e, doc)
      && s.store[ManifestKey(doc)] == ManifestObject(|Pages(e, doc)|, |Sequential.Markdown(e, doc)|, e.pageSize)
      && s.store[PageKey(doc, 1)] == TextObject(Pages(e, doc)[0])
  {
    hide TaskOk, WorkerOk, ProducerOk, PublisherOk, Pages, Sequential.Markdown, Next, Enabled, Init, ReturnsZero, Loses, DbOk;
    var doc := states[k].db.jobs[j].doc;
    InvAlways(e, states, steps, k);
    JobAvailSince(e, states, steps, a, k, j);
    DoneIsRecorded(e, states, steps, k, j);
    SomePage(e, doc);
    assert SequentialObject(e, ManifestKey(doc)) == Some(states[k].store[ManifestKey(doc)]);
    assert SequentialObject(e, PageKey(doc, 1)) == Some(states[k].store[PageKey(doc, 1)]);
  }

  predicate SomePages(e: Setup, doc: DocKey) {
    |Pages(e, doc)| >= 1
  }

  /**
   * Asking again for the document of a done job, as long as nothing of it has expired since its
   * zero: with no call raising, the request is served the first page, and no row and no message is
   * added.
   */
  lemma DoneIsServedAgain(e: Setup, states: seq<State>, steps: seq<Step>, a: nat, k: nat, j: JobId, me: Actor, u: State)
    requires IsRun(e, states, steps) && a < k < |states| && ReturnsZero(states[a], steps[a], j)
    requires j in states[k].db.jobs && states[k].db.jobs[j].status.Done?
    requires Unexpired(steps, a, k, states[k].db.jobs[j].doc)
    requires me.ProducerActor? && (forall producer :: !me.fails(producer))
    requires me.p < |states[k].producers| && states[k].producers[me.p] == Hashed(states[k].db.jobs[j].doc)
    requires Reaches(e, me, states[k], u) && AtRest(u, me)
    ensures me.p < |u.producers| && u.producers[me.p].Served? && SameServices(states[k], u)
    ensures Answers(e, states[k].db.jobs[j].doc, 1, u.producers[me.p].payload)
  {
    hide Reaches, Pages, Sequential.Markdown, Next, Enabled, Init, ReturnsZero, Loses;
    DoneIsInCache(e, states, steps, a, k, j);
    CachedExactlyWhen(e, me, states[k], u, states[k].db.jobs[j].doc);
  }

  /** The process is looking the document up, or has been served it. */
  predicate LookingUp(producer: Producer, doc: DocKey) {
    (producer.Hashed? || producer.RowFound? || producer.ManifestFound? || producer.Served?) && producer.doc == doc
  }

  lemma StillLookingUp(e: Setup, s: State, step: Step, p: nat, doc: DocKey)
    requires Enabled(s, step) && p < |s.producers| && LookingUp(s.producers[p], doc) && InCache(s.db, s.store, doc)
    requires s.producers[p].ManifestFound? ==> s.producers[p].manifest.ManifestObject?
    requires !(step.Submit? && step.p == p) && !(step.GiveUp? && step.p == p)
    ensures p < |Next(e, s, step).producers| && LookingUp(Next(e, s, step).producers[p], doc)
    ensures Next(e, s, step).producers[p].ManifestFound? ==> Next(e, s, step).producers[p].manifest.ManifestObject?
  {
    if WorkerEvent(step) {
      WorkerEventShape(e, s, step);
      hide Next;
    } else {
      hide Program, Tables.Apply, WithPut, WithCounted, Plan;
    }
  }

  /**
   * The same in any run, with whatever happens in between: from the moment the job is done, a process
   * that looks its document up never takes it for missing, so it converts nothing again.
   */
  lemma {:induction false} NeverConvertedAgain(e: Setup, states: seq<State>, steps: seq<Step>, a: nat, k: nat, m: nat, p: nat, j: JobId)
    requires IsRun(e, states, steps) && a < k <= m < |states| && ReturnsZero(states[a], steps[a], j)
    requires j in states[k].db.jobs && states[k].db.jobs[j].status.Done?
    requires Unexpired(steps, a, m, states[k].db.jobs[j].doc)
    requires p < |states[k].producers| && states[k].producers[p] == Hashed(states[k].db.jobs[j].doc)
    requires forall n :: k <= n < m ==> !(steps[n].Submit? && steps[n].p == p) && !(steps[n].GiveUp? && steps[n].p == p)
    ensures p < |states[m].producers| && LookingUp(states[m].producers[p], states[k].db.jobs[j].doc)
    ensures states[m].producers[p].ManifestFound? ==> states[m].producers[p].manifest.ManifestObject?
    decreases m - k
  {
    hide Next, Enabled, Init, ReturnsZero, Loses;
    if k < m {
      NeverConvertedAgain(e, states, steps, a, k, m - 1, p, j);
      RunEvolves(e, states, steps, k, m - 1);
      DoneIsInCache(e, states, steps, a, m - 1, j);
      StillLookingUp(e, states[m - 1], steps[m - 1], p, states[k].db.jobs[j].doc);
    }
  }

  /** In particular, a done job reads back if nothing of its document ever expired. */
  lemma DoneReadsBackUnexpired(e: Setup, states: seq<State>, steps: seq<Step>, k: nat, j: JobId)
    requires IsRun(e, states, steps) && k < |states| && j in states[k].db.jobs && states[k].db.jobs[j].status.Done?
    requires Unexpired(steps, 0, k, states[k].db.jobs[j].doc)
    ensures ReadFrom(states[k].store, states[k].db.jobs[j].doc, 1) == Some(Pages(e, states[k].db.jobs[j].doc))
  {
    hide Pages, Parts, Plan, ReadFrom, Next, Enabled, Init, ReturnsZero, Loses;
    var a := DoneHasZero(e, states, steps, k, j);
    DoneReadsBack(e, states, steps, a, k, j);
  }
}
