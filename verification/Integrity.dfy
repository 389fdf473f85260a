/**
 * Content integrity: in every reachable state, whatever was delivered twice, crashed, raced or
 * expired, every stored object, every document row and everything a process has in hand is
 * what the sequential conversion of that document gives.
 */
module Integrity {
  import opened Types
  import opened Sequential
  import opened Tables
  import opened Keys
  import opened Protocol
  import Pagination

  /** The most attempts a message can be on. */
  function Limit(e: Setup): nat {
    if e.maxAttempts < 1 then 1 else e.maxAttempts
  }

  // ---- What the sequential conversion gives ----

  function SequentialObject(e: Setup, key: ObjectKey): Option<Object> {
    match key
    case SourceKey(_) => None
    case PartKey(doc, index) =>
      if index < |Plan(e, doc.file)| then Some(TextObject(ChunkText(e, doc, index))) else None
    case ManifestKey(doc) => Some(ManifestObject(|Pages(e, doc)|, |Sequential.Markdown(e, doc)|, e.pageSize))
    case PageKey(doc, page) =>
      if 1 <= page <= |Pages(e, doc)| then Some(TextObject(Pages(e, doc)[page - 1])) else None
  }

  function SequentialRow(e: Setup, doc: DocKey): DocRow {
    DocRow(doc.file, |Pages(e, doc)|, |Plan(e, doc.file)|, |Sequential.Markdown(e, doc)|, e.pageSize)
  }

  function SequentialFirstPage(e: Setup, doc: DocKey): Payload
    requires |Pages(e, doc)| >= 1
  {
    Payload(doc, Pages(e, doc)[0], Pagination.BuildPagination(doc, 1, |Pages(e, doc)|, |Sequential.Markdown(e, doc)|, e.pageSize))
  }

  // ---- The invariant ----

  ghost predicate StoreOk(e: Setup, store: Store) {
    forall key :: key in store ==> SequentialObject(e, key) == Some(store[key])
  }

  ghost predicate JobOk(e: Setup, db: Db, j: JobId)
    requires j in db.jobs
  {
    var row := db.jobs[j];
    var plan := Plan(e, row.doc.file);
    && row.file == row.doc.file && row.llm == row.doc.llm
    && j in db.chunks && |db.chunks[j]| == row.total == |plan|
    && row.remaining <= row.total
    && forall k :: 0 <= k < |plan| ==> db.chunks[j][k].range == plan[k]
  }

  ghost predicate DbOk(e: Setup, db: Db) {
    && db.jobs.Keys == db.chunks.Keys
    && (forall j :: j in db.jobs ==> JobOk(e, db, j))
    && (forall d :: d in db.documents ==> db.documents[d] == SequentialRow(e, d))
  }

  /** The message is about an existing job and chunk, as the producer wrote it but for the attempt. */
  ghost predicate TaskOk(e: Setup, db: Db, t: Task) {
    && t.job in db.jobs
    && t.doc == db.jobs[t.job].doc && t.file == t.doc.file && t.llm == t.doc.llm
    && t.total == db.jobs[t.job].total == |Plan(e, t.file)|
    && t.index < |Plan(e, t.file)|
    && t.range == Plan(e, t.file)[t.index]
    && 1 <= t.attempt <= Limit(e)
  }

  ghost predicate InfoOk(e: Setup, t: Task, info: JobInfo) {
    info == JobInfo(t.doc, t.file, |Plan(e, t.file)|)
  }

  ghost predicate StageOk(e: Setup, t: Task, stage: Stage)
    requires t.file == t.doc.file
  {
    match stage
    case Gathering(info, chunks, parts) =>
      InfoOk(e, t, info) && chunks == |Plan(e, t.file)| && |parts| <= chunks && parts == Parts(e, t.doc, |parts|)
    case Publishing(info, pages, length, written) =>
      InfoOk(e, t, info) && pages == Pages(e, t.doc) && length == |Sequential.Markdown(e, t.doc)| && written <= |pages|
    case ManifestStored(info, totalPages, length) =>
      InfoOk(e, t, info) && totalPages == |Pages(e, t.doc)| && length == |Sequential.Markdown(e, t.doc)|
    case _ => true
  }

  /** What a worker has in hand is right. */
  ghost predicate PcOk(e: Setup, t: Task, pc: Pc)
    requires t.file == t.doc.file && t.index < |Plan(e, t.file)|
  {
    && (pc.Converted? ==> pc.text == ChunkText(e, t.doc, t.index))
    && (pc.Assembling? ==> StageOk(e, t, pc.stage))
    && (pc.Rescheduled? ==> t.attempt < e.maxAttempts)
    && (pc.Parked? || pc.ChunkMarkedFailed? ==> t.attempt >= e.maxAttempts)
  }

  ghost predicate WorkerOk(e: Setup, db: Db, worker: Worker) {
    worker.Busy? ==> TaskOk(e, db, worker.task) && PcOk(e, worker.task, worker.pc)
  }

  ghost predicate ProducerOk(e: Setup, db: Db, producer: Producer) {
    match producer
    case ManifestFound(doc, manifest) => SequentialObject(e, ManifestKey(doc)) == Some(manifest)
    case Served(doc, payload) => |Pages(e, doc)| >= 1 && payload == SequentialFirstPage(e, doc)
    case Sending(job, _, _) => job in db.jobs
    case _ => true
  }

  ghost predicate Inv(e: Setup, s: State) {
    && DbOk(e, s.db)
    && StoreOk(e, s.store)
    && (forall t :: t in s.queue ==> TaskOk(e, s.db, t))
    && (forall t :: t in s.failed ==> TaskOk(e, s.db, t))
    && (forall w :: 0 <= w < |s.workers| ==> WorkerOk(e, s.db, s.workers[w]))
    && (forall p :: 0 <= p < |s.producers| ==> ProducerOk(e, s.db, s.producers[p]))
  }

  // ---- Tables ----

  /** Statements that write what they should. */
  ghost predicate OpOk(e: Setup, op: Op) {
    && (op.CreateJob? ==> op.file == op.doc.file && op.llm == op.doc.llm && op.ranges == Plan(e, op.file))
    && (op.RecordDocument? ==> op.row == SequentialRow(e, op.doc))
  }

  lemma JobOkStep(e: Setup, db: Db, op: Op, j: JobId)
    requires DbOk(e, db) && OpOk(e, op) && Fresh(db, op)
    requires j in Tables.Apply(db, op).jobs
    ensures JobOk(e, Tables.Apply(db, op), j)
  {
    hide Tables.Apply, SequentialRow, Plan;
    if j in db.jobs {
      assert JobOk(e, db, j);
      JobEvolves(db, op, j);
      ChunksEvolve(db, op, j);
    } else {
      NewJobOk(e, db, op, j);
    }
  }

  lemma NewJobOk(e: Setup, db: Db, op: Op, j: JobId)
    requires OpOk(e, op) && j !in db.jobs && j in Tables.Apply(db, op).jobs
    ensures JobOk(e, Tables.Apply(db, op), j)
  {
    hide SequentialRow, Plan;
    OnlyCreateAdds(db, op, j);
  }

  lemma OnlyCreateAdds(db: Db, op: Op, j: JobId)
    requires j !in db.jobs && j in Tables.Apply(db, op).jobs
    ensures op.CreateJob? && op.job == j
  {
  }

  lemma DocumentsStep(e: Setup, db: Db, op: Op)
    requires DbOk(e, db) && OpOk(e, op) && Fresh(db, op)
    ensures var after := Tables.Apply(db, op);
      && after.jobs.Keys == after.chunks.Keys
      && forall d :: d in after.documents ==> after.documents[d] == SequentialRow(e, d)
  {
    hide SequentialRow, JobOk, Plan;
  }

  lemma DbOkStep(e: Setup, db: Db, op: Op)
    requires DbOk(e, db) && OpOk(e, op) && Fresh(db, op)
    ensures DbOk(e, Tables.Apply(db, op))
  {
    DocumentsStep(e, db, op);
    hide Tables.Apply, JobOk, OpOk, SequentialRow;
    forall j | j in Tables.Apply(db, op).jobs ensures JobOk(e, Tables.Apply(db, op), j) {
      JobOkStep(e, db, op, j);
    }
  }

  lemma TaskOkStep(e: Setup, db: Db, op: Op, t: Task)
    requires TaskOk(e, db, t) && Fresh(db, op)
    ensures TaskOk(e, Tables.Apply(db, op), t)
  {
    hide Tables.Apply;
    JobEvolves(db, op, t.job);
  }

  // ---- The worker's step ----

  /** Everything a worker does in one step is right. */
  ghost predicate EffectOk(e: Setup, db: Db, t: Task, effect: Effect)
    requires t.file == t.doc.file && t.index < |Plan(e, t.file)|
  {
    && PcOk(e, t, effect.pc)
    && OpOk(e, effect.op)
    && (effect.put.Some? ==> SequentialObject(e, effect.put.value.0) == Some(effect.put.value.1))
    && (forall x :: x in effect.sent ==> TaskOk(e, db, x))
    && (forall x :: x in effect.parked ==> x == t)
  }

  /** A part that is there is the conversion of that chunk. */
  lemma PartRead(e: Setup, store: Store, doc: DocKey, index: nat)
    requires StoreOk(e, store) && index < |Plan(e, doc.file)|
    requires GetText(store, PartKey(doc, index)).Some?
    ensures GetText(store, PartKey(doc, index)).value == ChunkText(e, doc, index)
  {
    hide Pages, Sequential.Markdown;
    assert SequentialObject(e, PartKey(doc, index)) == Some(store[PartKey(doc, index)]);
  }

  lemma GatherPartOk(e: Setup, db: Db, store: Store, t: Task, stage: Stage)
    requires StoreOk(e, store) && TaskOk(e, db, t) && StageOk(e, t, stage) && stage.Gathering?
    requires |stage.parts| < stage.chunks
    ensures EffectOk(e, db, t, Assemble(e, db, store, t, stage))
  {
    hide Pages, Sequential.Markdown, StoreOk, GetText, ChunkText, Assembled, Pagination.Paginated;
    var parts := stage.parts;
    if GetText(store, PartKey(t.doc, |parts|)).Some? {
      PartRead(e, store, t.doc, |parts|);
    }
  }

  lemma GatherLastOk(e: Setup, db: Db, store: Store, t: Task, stage: Stage)
    requires TaskOk(e, db, t) && StageOk(e, t, stage) && stage.Gathering?
    requires |stage.parts| == stage.chunks
    ensures EffectOk(e, db, t, Assemble(e, db, store, t, stage))
  {
    hide GetText, ChunkText, Assembled, Pagination.Paginated, Plan;
    assert Assembled(stage.parts) == Sequential.Markdown(e, t.doc);
  }

  lemma PublishPageOk(e: Setup, db: Db, store: Store, t: Task, stage: Stage)
    requires TaskOk(e, db, t) && StageOk(e, t, stage) && stage.Publishing? && stage.written < |stage.pages|
    ensures EffectOk(e, db, t, Assemble(e, db, store, t, stage))
  {
    hide Pages, Sequential.Markdown;
    var key := PageKey(t.doc, stage.written + 1);
    assert SequentialObject(e, key) == Some(TextObject(stage.pages[stage.written]));
  }

  lemma PublishOk(e: Setup, db: Db, store: Store, t: Task, stage: Stage)
    requires TaskOk(e, db, t) && StageOk(e, t, stage)
    requires stage.ManifestStored? || (stage.Publishing? && stage.written == |stage.pages|)
    ensures EffectOk(e, db, t, Assemble(e, db, store, t, stage))
  {
    hide Pages, Sequential.Markdown;
  }

  lemma AssembleOk(e: Setup, db: Db, store: Store, t: Task, stage: Stage)
    requires DbOk(e, db) && StoreOk(e, store) && TaskOk(e, db, t) && StageOk(e, t, stage)
    ensures EffectOk(e, db, t, Assemble(e, db, store, t, stage))
  {
    if stage.Gathering? && |stage.parts| < stage.chunks {
      GatherPartOk(e, db, store, t, stage);
    } else if stage.Gathering? {
      GatherLastOk(e, db, store, t, stage);
    } else if stage.Publishing? && stage.written < |stage.pages| {
      PublishPageOk(e, db, store, t, stage);
    } else if stage.Publishing? || stage.ManifestStored? {
      PublishOk(e, db, store, t, stage);
    } else {
      assert JobOk(e, db, t.job);
    }
  }

  /** A step that puts, sends and parks nothing, and writes neither a job nor a document. */
  lemma PlainEffectOk(e: Setup, db: Db, t: Task, pc: Pc, op: Op)
    requires TaskOk(e, db, t) && !op.CreateJob? && !op.RecordDocument? && PcOk(e, t, pc)
    ensures EffectOk(e, db, t, Execute(pc, op))
  {
    hide TaskOk, PcOk;
  }

  /** Converting, and storing the part. */
  lemma ConvertOk(e: Setup, db: Db, store: Store, t: Task, pc: Pc, twice: bool)
    requires TaskOk(e, db, t) && PcOk(e, t, pc) && (pc.Converting? || pc.Converted?)
    ensures EffectOk(e, db, t, Program(e, db, store, t, pc, twice))
  {
    hide Plan, Protocol.Assemble, Pages, Sequential.Markdown;
  }

  /** Parking, rescheduling and publishing the next attempt. */
  lemma FailureOk(e: Setup, db: Db, store: Store, t: Task, pc: Pc, twice: bool)
    requires TaskOk(e, db, t) && PcOk(e, t, pc) && (pc.Failing? || pc.Rescheduled?)
    ensures EffectOk(e, db, t, Program(e, db, store, t, pc, twice))
  {
    hide Plan, Protocol.Assemble, Pages, Sequential.Markdown;
  }

  /** The remaining positions only go on, or execute a statement. */
  lemma StatementOk(e: Setup, db: Db, store: Store, t: Task, pc: Pc, twice: bool)
    requires TaskOk(e, db, t) && PcOk(e, t, pc)
    requires !pc.Assembling? && !pc.Converting? && !pc.Converted? && !pc.Failing? && !pc.Rescheduled?
    ensures EffectOk(e, db, t, Program(e, db, store, t, pc, twice))
  {
    var effect := Program(e, db, store, t, pc, twice);
    assert effect == Execute(effect.pc, effect.op) && !effect.op.CreateJob? && !effect.op.RecordDocument?;
    assert PcOk(e, t, effect.pc);
    hide Program;
    PlainEffectOk(e, db, t, effect.pc, effect.op);
  }

  lemma HandleOk(e: Setup, db: Db, store: Store, t: Task, pc: Pc, twice: bool)
    requires TaskOk(e, db, t) && PcOk(e, t, pc) && !pc.Assembling?
    ensures EffectOk(e, db, t, Program(e, db, store, t, pc, twice))
  {
    hide Program, EffectOk, PcOk;
    if pc.Converting? || pc.Converted? {
      ConvertOk(e, db, store, t, pc, twice);
    } else if pc.Failing? || pc.Rescheduled? {
      FailureOk(e, db, store, t, pc, twice);
    } else {
      StatementOk(e, db, store, t, pc, twice);
    }
  }

  lemma ProgramOk(e: Setup, db: Db, store: Store, t: Task, pc: Pc, twice: bool)
    requires DbOk(e, db) && StoreOk(e, store) && TaskOk(e, db, t) && PcOk(e, t, pc)
    ensures EffectOk(e, db, t, Program(e, db, store, t, pc, twice))
  {
    if pc.Assembling? {
      AssembleOk(e, db, store, t, pc.stage);
      assert Program(e, db, store, t, pc, twice) == Assemble(e, db, store, t, pc.stage);
    } else {
      HandleOk(e, db, store, t, pc, twice);
    }
  }

  // ---- Every step keeps the invariant ----

  /** Everything but the tables and the worker at work is untouched by the change of tables. */
  lemma InvTables(e: Setup, s: State, op: Op)
    requires Inv(e, s) && OpOk(e, op) && Fresh(s.db, op)
    ensures Inv(e, s.(db := Tables.Apply(s.db, op)))
  {
    hide SequentialObject, Tables.Apply, PcOk, DbOk, OpOk;
    var db := Tables.Apply(s.db, op);
    DbOkStep(e, s.db, op);
    forall t | TaskOk(e, s.db, t) ensures TaskOk(e, db, t) {
      TaskOkStep(e, s.db, op, t);
    }
    forall p | 0 <= p < |s.producers| ensures ProducerOk(e, db, s.producers[p]) {
      ApplyEvolves(s.db, op);
    }
  }

  lemma InvPut(e: Setup, s: State, put: Option<(ObjectKey, Object)>)
    requires Inv(e, s)
    requires put.Some? ==> SequentialObject(e, put.value.0) == Some(put.value.1)
    ensures Inv(e, s.(store := WithPut(s.store, put)))
  {
    hide SequentialObject, TaskOk, PcOk, DbOk, WorkerOk, ProducerOk;
  }

  lemma InvSend(e: Setup, s: State, sent: multiset<Task>)
    requires Inv(e, s)
    requires forall t :: t in sent ==> TaskOk(e, s.db, t)
    ensures Inv(e, s.(queue := s.queue + sent))
  {
    hide TaskOk, PcOk, DbOk, WorkerOk, ProducerOk, StoreOk;
  }

  lemma InvPark(e: Setup, s: State, parked: multiset<Task>)
    requires Inv(e, s)
    requires forall t :: t in parked ==> TaskOk(e, s.db, t)
    ensures Inv(e, s.(failed := s.failed + parked))
  {
    hide TaskOk, PcOk, DbOk, WorkerOk, ProducerOk, StoreOk;
  }

  lemma InvWorker(e: Setup, s: State, w: nat, worker: Worker)
    requires Inv(e, s) && w < |s.workers| && WorkerOk(e, s.db, worker)
    ensures Inv(e, SetWorker(s, w, worker))
  {
    hide TaskOk, PcOk, DbOk, WorkerOk, ProducerOk, StoreOk;
  }

  lemma InvProducer(e: Setup, s: State, p: nat, producer: Producer)
    requires Inv(e, s) && p < |s.producers| && ProducerOk(e, s.db, producer)
    ensures Inv(e, SetProducer(s, p, producer))
  {
    hide TaskOk, PcOk, DbOk, WorkerOk, ProducerOk, StoreOk;
  }

  lemma InvWork(e: Setup, s: State, w: nat, twice: bool)
    requires Inv(e, s) && IsBusy(s, w)
    ensures Inv(e, ApplyWork(e, s, w, twice))
  {
    var worker := s.workers[w];
    if worker.pc.Acking? {
      InvWorker(e, s, w, Idle);
    } else {
      var effect := Program(e, s.db, s.store, worker.task, worker.pc, twice);
      assert WorkerOk(e, s.db, worker);
      ProgramOk(e, s.db, s.store, worker.task, worker.pc, twice);
      WorkRunsOp(e, s, w, twice);
      InvEffect(e, s, w, effect);
    }
  }

  lemma InvEffect(e: Setup, s: State, w: nat, effect: Effect)
    requires Inv(e, s) && IsBusy(s, w) && TaskOk(e, s.db, s.workers[w].task)
    requires EffectOk(e, s.db, s.workers[w].task, effect) && Fresh(s.db, effect.op)
    ensures Inv(e, s.(db := Tables.Apply(s.db, effect.op),
                      store := WithPut(s.store, effect.put),
                      queue := s.queue + effect.sent,
                      failed := s.failed + effect.parked,
                      workers := s.workers[w := s.workers[w].(pc := effect.pc)],
                      counted := WithCounted(s.db, s.counted, effect.op)))
  {
    hide TaskOk, PcOk, DbOk, ProducerOk, StoreOk, SequentialObject, Tables.Apply, WithPut, WithCounted, OpOk;
    var s0 := s.(queue := s.queue + effect.sent);
    InvSend(e, s, effect.sent);
    var s1 := s0.(failed := s.failed + effect.parked);
    InvPark(e, s0, effect.parked);
    var s2 := SetWorker(s1, w, s.workers[w].(pc := effect.pc));
    InvWorker(e, s1, w, s.workers[w].(pc := effect.pc));
    var s3 := s2.(store := WithPut(s.store, effect.put));
    InvPut(e, s2, effect.put);
    InvTables(e, s3, effect.op);
  }

  /** Exceptions, inside a handler or around it. */
  lemma InvRaises(e: Setup, s: State, step: Step)
    requires Inv(e, s) && Enabled(s, step)
    requires step.ConversionRaises? || step.AssemblyRaises? || step.HandlerRaises?
    ensures Inv(e, Next(e, s, step))
  {
    hide DbOk, ProducerOk, StoreOk, TaskOk;
    var w := step.w;
    var worker := s.workers[w];
    assert WorkerOk(e, s.db, worker);
    var pc := if step.ConversionRaises? then Failing else if step.AssemblyRaises? then AssemblyFailed else Acking;
    InvWorker(e, s, w, worker.(pc := pc));
  }

  lemma InvDeliver(e: Setup, s: State, w: nat, task: Task)
    requires Inv(e, s) && Enabled(s, Deliver(w, task))
    ensures Inv(e, Next(e, s, Deliver(w, task)))
  {
    hide DbOk, ProducerOk, StoreOk, TaskOk, WorkerOk;
    var s1 := s.(queue := s.queue - multiset{task});
    assert Inv(e, s1);
    assert WorkerOk(e, s.db, Busy(task, true, Received)) by {
      assert TaskOk(e, s.db, task);
      ReceivedOk(e, s.db, task);
    }
    InvWorker(e, s1, w, Busy(task, true, Received));
  }

  lemma ReceivedOk(e: Setup, db: Db, task: Task)
    requires TaskOk(e, db, task)
    ensures WorkerOk(e, db, Busy(task, true, Received))
  {
  }

  /** The message of a worker is put back. */
  lemma InvPutBack(e: Setup, s: State, w: nat, worker: Worker, back: multiset<Task>)
    requires Inv(e, s) && IsBusy(s, w) && WorkerOk(e, s.db, worker)
    requires forall t :: t in back ==> t == s.workers[w].task
    ensures Inv(e, SetWorker(s, w, worker).(queue := s.queue + back))
  {
    hide DbOk, ProducerOk, StoreOk, TaskOk, PcOk;
    assert WorkerOk(e, s.db, s.workers[w]);
    InvSend(e, s, back);
    InvWorker(e, s.(queue := s.queue + back), w, worker);
  }

  /** Deliveries, crashes and redeliveries. */
  lemma InvBroker(e: Setup, s: State, step: Step)
    requires Inv(e, s) && Enabled(s, step)
    requires step.Deliver? || step.Crash? || step.Redeliver?
    ensures Inv(e, Next(e, s, step))
  {
    hide DbOk, ProducerOk, StoreOk, TaskOk, PcOk;
    var worker := s.workers[step.w];
    assert WorkerOk(e, s.db, worker);
    if step.Deliver? {
      InvDeliver(e, s, step.w, step.task);
    } else if step.Crash? {
      InvPutBack(e, s, step.w, Idle, if worker.held then multiset{worker.task} else multiset{});
    } else {
      InvPutBack(e, s, step.w, worker.(held := false), multiset{worker.task});
    }
  }

  lemma LookupOk(e: Setup, s: State, p: nat)
    requires Inv(e, s) && Enabled(s, Lookup(p))
    ensures ProducerOk(e, s.db, NextLookup(s.db, s.store, s.producers[p]))
  {
    hide DbOk, TaskOk, WorkerOk, Pages, Sequential.Markdown;
    var producer := s.producers[p];
    assert ProducerOk(e, s.db, producer);
    var key := if producer.ManifestFound? then PageKey(producer.doc, 1) else ManifestKey(producer.doc);
    if key in s.store {
      assert SequentialObject(e, key) == Some(s.store[key]);
    }
  }

  lemma CreateOk(e: Setup, s: State, p: nat, job: JobId)
    requires Inv(e, s) && Enabled(s, Create(p, job))
    ensures Inv(e, Next(e, s, Create(p, job)))
  {
    hide DbOk, TaskOk, WorkerOk, StoreOk, Plan;
    var doc := s.producers[p].doc;
    var op := CreateJob(job, doc, doc.file, doc.llm, Plan(e, doc.file));
    InvTables(e, s, op);
    var s1 := s.(db := Tables.Apply(s.db, op));
    InvProducer(e, s1, p, Sending(job, 0, false));
  }

  lemma TaskOfOk(e: Setup, s: State, job: JobId, index: nat)
    requires DbOk(e, s.db) && job in s.db.jobs && HasChunk(s.db, job, index)
    ensures TaskOk(e, s.db, TaskOf(s, job, index))
  {
    hide Plan;
    assert JobOk(e, s.db, job);
  }

  lemma PublishTaskOk(e: Setup, s: State, p: nat)
    requires Inv(e, s) && Enabled(s, Publish(p))
    ensures Inv(e, ApplyPublish(s, p))
  {
    hide WorkerOk, StoreOk, DbOk, TaskOk, TaskOf;
    var producer := s.producers[p];
    var job := producer.job;
    assert ProducerOk(e, s.db, producer);
    if producer.next < |s.db.chunks[job]| {
      var t := TaskOf(s, job, producer.next);
      TaskOfOk(e, s, job, producer.next);
      InvSend(e, s, multiset{t});
      InvProducer(e, s.(queue := s.queue + multiset{t}), p, producer.(next := producer.next + 1));
    } else {
      InvProducer(e, s, p, Submitted(job));
    }
  }

  lemma InvProducerEvent(e: Setup, s: State, step: Step)
    requires Inv(e, s) && Enabled(s, step)
    requires step.Submit? || step.Lookup? || step.Create? || step.Publish? || step.PublishAgain? || step.GiveUp? || step.Expire?
    ensures Inv(e, Next(e, s, step))
  {
    hide DbOk, TaskOk, WorkerOk, SequentialObject;
    match step
    case Submit(p, doc) => InvProducer(e, s, p, Hashed(doc));
    case Lookup(p) =>
      LookupOk(e, s, p);
      InvProducer(e, s, p, NextLookup(s.db, s.store, s.producers[p]));
    case Create(p, job) => CreateOk(e, s, p, job);
    case Publish(p) => PublishTaskOk(e, s, p);
    case PublishAgain(p) =>
      assert ProducerOk(e, s.db, s.producers[p]);
      InvProducer(e, s, p, s.producers[p].(next := 0, again := true));
    case GiveUp(p) => InvProducer(e, s, p, Free);
    case Expire(key) =>
  }

  lemma InvStep(e: Setup, s: State, step: Step)
    requires Inv(e, s) && Enabled(s, step)
    ensures Inv(e, Next(e, s, step))
  {
    if step.Work? {
      InvWork(e, s, step.w, step.twice);
    } else if step.Deliver? || step.Crash? || step.Redeliver? {
      InvBroker(e, s, step);
    } else if step.ConversionRaises? || step.AssemblyRaises? || step.HandlerRaises? {
      InvRaises(e, s, step);
    } else {
      InvProducerEvent(e, s, step);
    }
  }

  lemma {:induction false} InvAlways(e: Setup, states: seq<State>, steps: seq<Step>, k: nat)
    requires IsRun(e, states, steps) && k < |states|
    ensures Inv(e, states[k])
  {
    if k > 0 {
      InvAlways(e, states, steps, k - 1);
      InvStep(e, states[k - 1], steps[k - 1]);
    }
  }
}
