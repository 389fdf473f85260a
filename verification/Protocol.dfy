/**
 * The fleet as a transition system: any number of API processes and workers over one
 * database, one object store and one at-least-once broker. A database statement or
 * transaction, an object put or get, and a publish are one step each; the steps of
 * different processes interleave freely.
 */
module Protocol {
  import opened Types
  import opened Sequential
  import opened Tables
  import opened Keys
  import Pagination

  // ---- State ----

  /** A message: one page range of one document, and the attempt it is on. */
  datatype Task = Task(job: JobId, index: nat, doc: DocKey, file: FileHash, range: PageRange,
                       total: nat, llm: bool, attempt: nat)

  /** A stored object. Sources are left out: a file hash stands for its bytes. */
  datatype Object = TextObject(text: string) | ManifestObject(totalPages: nat, totalLength: nat, pageSize: int)

  /** The columns of the job row that `assemble` uses. */
  datatype JobInfo = JobInfo(doc: DocKey, file: FileHash, total: nat)

  /** Where the assembling worker is. */
  datatype Stage =
    | Counted                                                    // complete_chunk returned 0
    | Gathering(info: JobInfo, chunks: nat, parts: seq<string>)  // reading the parts in chunk order
    | Publishing(info: JobInfo, pages: seq<string>, length: nat, written: nat)
    | ManifestStored(info: JobInfo, totalPages: nat, length: nat)
    | Recorded
    | Finished

  /** Where a worker is in `handle`, `_handle_failure` and `assemble`. */
  datatype Pc =
    | Received
    | Admitted            // the job was found active
    | RowStarted          // start_chunk, after its first statement
    | Converting
    | Converted(text: string)
    | PartStored
    | Assembling(stage: Stage)
    | AssemblyFailed      // an exception inside assemble, about to fail the job
    | Failing             // _handle_failure
    | Parked              // published to the failed queue
    | ChunkMarkedFailed
    | Rescheduled
    | Acking

  /** `held` says that the broker still waits for this worker's acknowledgement. */
  datatype Worker = Idle | Busy(task: Task, held: bool, pc: Pc)

  /** What `submit` and the page endpoint send back. */
  datatype Payload = Payload(doc: DocKey, content: string, links: Pagination.PageLinks)

  /** Where an API process is in `submit`. */
  datatype Producer =
    | Free
    | Hashed(doc: DocKey)
    | RowFound(doc: DocKey)
    | ManifestFound(doc: DocKey, manifest: Object)
    | Uncached(doc: DocKey)
    | Sending(job: JobId, next: nat, again: bool)  // publishing the messages; `again` after a reconnect
    | Served(doc: DocKey, payload: Payload)
    | Submitted(job: JobId)

  type Store = map<ObjectKey, Object>

  /**
   * The whole system. `queue` holds the messages waiting on the work queue or a retry tier,
   * `failed` those parked on the failed queue. The last two fields are history, read by no
   * step: the jobs whose publish returned, and the chunks whose completion was counted.
   */
  datatype State = State(db: Db, store: Store, queue: multiset<Task>, failed: multiset<Task>,
                         workers: seq<Worker>, producers: seq<Producer>,
                         published: set<JobId>, counted: map<JobId, set<nat>>)

  ghost predicate Init(s: State) {
    && s.db == Db(map[], map[], map[]) && s.store == map[]
    && s.queue == multiset{} && s.failed == multiset{}
    && (forall w :: 0 <= w < |s.workers| ==> s.workers[w] == Idle)
    && (forall p :: 0 <= p < |s.producers| ==> s.producers[p] == Free)
    && s.published == {} && s.counted == map[]
  }

  // ---- The worker's program ----

  /** What one step of a worker does: its next position, at most one statement, one put, and the messages it sends or parks. */
  datatype Effect = Effect(pc: Pc, op: Op, put: Option<(ObjectKey, Object)>, sent: multiset<Task>, parked: multiset<Task>)

  function Goto(pc: Pc): Effect {
    Effect(pc, NoOp, None, multiset{}, multiset{})
  }

  function Execute(pc: Pc, op: Op): Effect {
    Effect(pc, op, None, multiset{}, multiset{})
  }

  function Put(pc: Pc, key: ObjectKey, value: Object): Effect {
    Effect(pc, NoOp, Some((key, value)), multiset{}, multiset{})
  }

  /** A publish; with `twice` the first try reached the broker before its connection broke. */
  function Copies(t: Task, twice: bool): multiset<Task> {
    if twice then multiset{t, t} else multiset{t}
  }

  function NextAttempt(t: Task): Task {
    t.(attempt := t.attempt + 1)
  }

  /** A retry goes to tier min(attempt, tiers); there is no tier 0, and the broker drops what no queue takes (see Services). */
  function Retried(e: Setup, t: Task, twice: bool): multiset<Task> {
    if e.retryTiers == 0 || t.attempt == 0 then multiset{} else Copies(NextAttempt(t), twice)
  }

  function GetText(store: Store, key: ObjectKey): Option<string> {
    if key in store && store[key].TextObject? then Some(store[key].text) else None
  }

  /** How many indices `chunk_indices` returns. */
  function ChunkCount(db: Db, job: JobId): nat {
    if job in db.chunks then |db.chunks[job]| else 0
  }

  /** `assemble`, step by step. */
  function Assemble(e: Setup, db: Db, store: Store, t: Task, stage: Stage): Effect {
    match stage
    case Counted =>
      if t.job !in db.jobs then Goto(AssemblyFailed)
      else
        var row := db.jobs[t.job];
        Goto(Assembling(Gathering(JobInfo(row.doc, row.file, row.total), ChunkCount(db, t.job), [])))
    case Gathering(info, chunks, parts) =>
      if |parts| < chunks then
        match GetText(store, PartKey(info.doc, |parts|))
        case None => Goto(AssemblyFailed)
        case Some(part) => Goto(Assembling(Gathering(info, chunks, parts + [part])))
      else
        var markdown := Assembled(parts);
        Goto(Assembling(Publishing(info, Pagination.Paginated(markdown, e.pageSize), |markdown|, 0)))
    case Publishing(info, pages, length, written) =>
      if written < |pages|
      then Put(Assembling(Publishing(info, pages, length, written + 1)), PageKey(info.doc, written + 1), TextObject(pages[written]))
      else Put(Assembling(ManifestStored(info, |pages|, length)), ManifestKey(info.doc), ManifestObject(|pages|, length, e.pageSize))
    case ManifestStored(info, totalPages, length) =>
      Execute(Assembling(Recorded), RecordDocument(info.doc, DocRow(info.file, totalPages, info.total, length, e.pageSize)))
    case Recorded => Execute(Assembling(Finished), FinishJob(t.job))
    case Finished => Goto(Acking)
  }

  /** `handle` and `_handle_failure`, step by step, as long as no call raises. */
  function Program(e: Setup, db: Db, store: Store, t: Task, pc: Pc, twice: bool): Effect {
    match pc
    case Received => Goto(if Active(db, t.job) then Admitted else Acking)
    case Admitted => Execute(RowStarted, StartChunkRow(t.job, t.index, t.attempt))
    case RowStarted => Execute(Converting, StartJobRow(t.job))
    case Converting => Goto(Converted(e.convert(t.file, t.range, t.llm)))
    case Converted(text) => Put(PartStored, PartKey(t.doc, t.index), TextObject(text))
    case PartStored =>
      Execute(if CompleteResult(db, t.job, t.index) == 0 then Assembling(Counted) else Acking, CompleteChunk(t.job, t.index))
    case Assembling(stage) => Assemble(e, db, store, t, stage)
    case AssemblyFailed => Execute(Acking, FailJob(t.job, JobError.AssemblyError))
    case Failing =>
      if t.attempt >= e.maxAttempts
      then Effect(Parked, NoOp, None, multiset{}, Copies(t, twice))
      else Execute(Rescheduled, RescheduleChunk(t.job, t.index))
    case Parked => Execute(ChunkMarkedFailed, FailChunk(t.job, t.index))
    case ChunkMarkedFailed => Execute(Acking, FailJob(t.job, PoisonChunk(t.index, t.attempt)))
    case Rescheduled => Effect(Acking, NoOp, None, Retried(e, t, twice), multiset{})
    case Acking => Goto(Acking)
  }

  // ---- Steps ----

  datatype Step =
    // workers
    | Deliver(w: nat, task: Task)    // the broker hands a waiting message to an idle worker
    | Work(w: nat, twice: bool)      // the worker's next statement
    | ConversionRaises(w: nat)       // fetching, converting or storing the part raised
    | AssemblyRaises(w: nat)         // a call inside assemble raised
    | HandlerRaises(w: nat)          // any other call raised, complete_chunk after its commit too: the message is acknowledged all the same
    | Crash(w: nat)                  // the process dies; an unacknowledged message goes back to the queue
    | Redeliver(w: nat)              // the broker gives up on a worker that is still running
    // API processes
    | Submit(p: nat, doc: DocKey)
    | Lookup(p: nat)                 // the next read of the cache lookup
    | Create(p: nat, job: JobId)
    | Publish(p: nat)                // the next message, or the return of publish
    | PublishAgain(p: nat)           // the connection broke: reconnect and start over, once
    | GiveUp(p: nat)                 // the API process dies, or publish raised
    // the object store
    | Expire(key: ObjectKey)

  predicate IsBusy(s: State, w: nat) {
    w < |s.workers| && s.workers[w].Busy?
  }

  function TaskOf(s: State, job: JobId, index: nat): Task
    requires job in s.db.jobs && HasChunk(s.db, job, index)
  {
    var row := s.db.jobs[job];
    Task(job, index, row.doc, row.file, s.db.chunks[job][index].range, row.total, row.llm, 1)
  }

  predicate Enabled(s: State, step: Step) {
    match step
    case Deliver(w, task) => w < |s.workers| && s.workers[w].Idle? && task in s.queue
    case Work(w, _) => IsBusy(s, w)
    case ConversionRaises(w) =>
      IsBusy(s, w) && (s.workers[w].pc.Converting? || s.workers[w].pc.Converted? || s.workers[w].pc.PartStored?)
    case AssemblyRaises(w) => IsBusy(s, w) && s.workers[w].pc.Assembling?
    case HandlerRaises(w) =>
      IsBusy(s, w) && !s.workers[w].pc.Acking? && (s.workers[w].pc.Assembling? ==> s.workers[w].pc.stage.Counted?)
    case Crash(w) => IsBusy(s, w)
    case Redeliver(w) => IsBusy(s, w) && s.workers[w].held
    case Submit(p, _) => p < |s.producers| && (s.producers[p].Free? || s.producers[p].Served? || s.producers[p].Submitted?)
    case Lookup(p) => p < |s.producers| && (s.producers[p].Hashed? || s.producers[p].RowFound? || s.producers[p].ManifestFound?)
    case Create(p, job) => p < |s.producers| && s.producers[p].Uncached? && job !in s.db.jobs && job !in s.db.chunks
    case Publish(p) =>
      p < |s.producers| && s.producers[p].Sending? && s.producers[p].job in s.db.jobs && s.producers[p].job in s.db.chunks
    case PublishAgain(p) => p < |s.producers| && s.producers[p].Sending? && !s.producers[p].again
    case GiveUp(p) => p < |s.producers|
    case Expire(key) => key in s.store
  }

  function SetWorker(s: State, w: nat, worker: Worker): State
    requires w < |s.workers|
  {
    s.(workers := s.workers[w := worker])
  }

  function SetProducer(s: State, p: nat, producer: Producer): State
    requires p < |s.producers|
  {
    s.(producers := s.producers[p := producer])
  }

  function WithPut(store: Store, put: Option<(ObjectKey, Object)>): Store {
    match put
    case None => store
    case Some((key, value)) => store[key := value]
  }

  function CountedChunks(counted: map<JobId, set<nat>>, job: JobId): set<nat> {
    if job in counted then counted[job] else {}
  }

  function WithCounted(db: Db, counted: map<JobId, set<nat>>, op: Op): map<JobId, set<nat>> {
    if op.CompleteChunk? && Counts(db, op.job, op.index)
    then counted[op.job := CountedChunks(counted, op.job) + {op.index}]
    else counted
  }

  /** The worker's next statement; at the end it acknowledges its message and is idle. */
  function ApplyWork(e: Setup, s: State, w: nat, twice: bool): State
    requires IsBusy(s, w)
  {
    var worker := s.workers[w];
    if worker.pc.Acking? then SetWorker(s, w, Idle)
    else
      var effect := Program(e, s.db, s.store, worker.task, worker.pc, twice);
      s.(db := Tables.Apply(s.db, effect.op),
         store := WithPut(s.store, effect.put),
         queue := s.queue + effect.sent,
         failed := s.failed + effect.parked,
         workers := s.workers[w := worker.(pc := effect.pc)],
         counted := WithCounted(s.db, s.counted, effect.op))
  }

  /** The first page as `submit` serves it. */
  function FirstPage(doc: DocKey, content: string, manifest: Object): Payload
    requires manifest.ManifestObject?
  {
    Payload(doc, content, Pagination.BuildPagination(doc, 1, manifest.totalPages, manifest.totalLength, manifest.pageSize))
  }

  /** The cache lookup of `submit`: document row, manifest, first page; anything missing means converting again. */
  function NextLookup(db: Db, store: Store, producer: Producer): Producer
    requires producer.Hashed? || producer.RowFound? || producer.ManifestFound?
  {
    var doc := producer.doc;
    match producer
    case Hashed(_) => if doc in db.documents then RowFound(doc) else Uncached(doc)
    case RowFound(_) =>
      var key := ManifestKey(doc);
      if key in store && store[key].ManifestObject? then ManifestFound(doc, store[key]) else Uncached(doc)
    case ManifestFound(_, manifest) =>
      (match GetText(store, PageKey(doc, 1))
       case Some(text) =>
         if manifest.ManifestObject? then Served(doc, FirstPage(doc, text, manifest)) else Uncached(doc)
       case None => Uncached(doc))
  }

  function ApplyPublish(s: State, p: nat): State
    requires Enabled(s, Publish(p))
  {
    var producer := s.producers[p];
    if producer.next < |s.db.chunks[producer.job]| then
      SetProducer(s, p, producer.(next := producer.next + 1))
        .(queue := s.queue + multiset{TaskOf(s, producer.job, producer.next)})
    else
      SetProducer(s, p, Submitted(producer.job)).(published := s.published + {producer.job})
  }

  function Next(e: Setup, s: State, step: Step): State
    requires Enabled(s, step)
  {
    match step
    case Deliver(w, task) => SetWorker(s, w, Busy(task, true, Received)).(queue := s.queue - multiset{task})
    case Work(w, twice) => ApplyWork(e, s, w, twice)
    case ConversionRaises(w) => SetWorker(s, w, s.workers[w].(pc := Failing))
    case AssemblyRaises(w) => SetWorker(s, w, s.workers[w].(pc := AssemblyFailed))
    case HandlerRaises(w) => SetWorker(s, w, s.workers[w].(pc := Acking))
    case Crash(w) =>
      var back := if s.workers[w].held then multiset{s.workers[w].task} else multiset{};
      SetWorker(s, w, Idle).(queue := s.queue + back)
    case Redeliver(w) =>
      SetWorker(s, w, s.workers[w].(held := false)).(queue := s.queue + multiset{s.workers[w].task})
    case Submit(p, doc) => SetProducer(s, p, Hashed(doc))
    case Lookup(p) => SetProducer(s, p, NextLookup(s.db, s.store, s.producers[p]))
    case Create(p, job) =>
      var doc := s.producers[p].doc;
      SetProducer(s, p, Sending(job, 0, false))
        .(db := Tables.Apply(s.db, CreateJob(job, doc, doc.file, doc.llm, Plan(e, doc.file))))
    case Publish(p) => ApplyPublish(s, p)
    case PublishAgain(p) => SetProducer(s, p, s.producers[p].(next := 0, again := true))
    case GiveUp(p) => SetProducer(s, p, Free)
    case Expire(key) => s.(store := s.store - {key})
  }

  /** A run: states joined by enabled steps, from an initial state. */
  ghost predicate IsRun(e: Setup, states: seq<State>, steps: seq<Step>) {
    && |states| == |steps| + 1
    && Init(states[0])
    && forall k :: 0 <= k < |steps| ==> Enabled(states[k], steps[k]) && states[k + 1] == Next(e, states[k], steps[k])
  }

  /** A run goes on with any enabled step. */
  lemma AppendStep(e: Setup, states: seq<State>, steps: seq<Step>, step: Step)
    requires IsRun(e, states, steps) && Enabled(states[|steps|], step)
    ensures IsRun(e, states + [Next(e, states[|steps|], step)], steps + [step])
  {
    hide Next, Enabled, Init;
    var all, more := states + [Next(e, states[|steps|], step)], steps + [step];
    forall k | 0 <= k < |more| ensures Enabled(all[k], more[k]) && all[k + 1] == Next(e, all[k], more[k]) {
      assert k < |steps| ==> all[k] == states[k] && all[k + 1] == states[k + 1] && more[k] == steps[k];
    }
  }

  /** The database statement a step executes. */
  function OpOf(e: Setup, s: State, step: Step): Op
    requires Enabled(s, step)
  {
    match step
    case Work(w, twice) =>
      var worker := s.workers[w];
      if worker.pc.Acking? then NoOp else Program(e, s.db, s.store, worker.task, worker.pc, twice).op
    case Create(p, job) =>
      var doc := s.producers[p].doc;
      CreateJob(job, doc, doc.file, doc.llm, Plan(e, doc.file))
    case _ => NoOp
  }

  /** A step changes the tables by its statement and by nothing else. */
  lemma WorkRunsOp(e: Setup, s: State, w: nat, twice: bool)
    requires IsBusy(s, w)
    ensures ApplyWork(e, s, w, twice).db == Tables.Apply(s.db, OpOf(e, s, Work(w, twice)))
    ensures Fresh(s.db, OpOf(e, s, Work(w, twice)))
  {
  }

  lemma StepRunsOp(e: Setup, s: State, step: Step)
    requires Enabled(s, step)
    ensures Next(e, s, step).db == Tables.Apply(s.db, OpOf(e, s, step))
    ensures Fresh(s.db, OpOf(e, s, step))
  {
    if step.Work? {
      WorkRunsOp(e, s, step.w, step.twice);
    }
  }

  /** Which statement stands where in the worker's program. */
  lemma ProgramShape(e: Setup, db: Db, store: Store, t: Task, pc: Pc, twice: bool)
    ensures var op := Program(e, db, store, t, pc, twice).op;
      && (op.NoOp? || op.RecordDocument? || (!op.CreateJob? && op.job == t.job))
      && (op.CompleteChunk? <==> pc.PartStored?)
      && (op.FailChunk? <==> pc.Parked?)
      && (op.FailJob? <==> pc.AssemblyFailed? || pc.ChunkMarkedFailed?)
      && (op.RecordDocument? <==> pc.Assembling? && pc.stage.ManifestStored?)
      && (op.FinishJob? <==> pc == Assembling(Recorded))
      && (pc.Assembling? ==> op.NoOp? || op.RecordDocument? || op.FinishJob?)
      && (op.CompleteChunk? || op.FailChunk? || op.StartChunkRow? || op.RescheduleChunk? ==> op.index == t.index)
  {
  }

  /** How a worker gets into `assemble` and through it. */
  lemma ProgramStages(e: Setup, db: Db, store: Store, t: Task, pc: Pc, twice: bool)
    ensures var effect := Program(e, db, store, t, pc, twice);
      && (effect.pc.Assembling? && !pc.Assembling? ==>
            pc.PartStored? && CompleteResult(db, t.job, t.index) == 0 && effect.pc.stage.Counted?)
      && (pc.PartStored? && CompleteResult(db, t.job, t.index) == 0 ==> effect.pc == Assembling(Counted))
      && (effect.pc.Assembling? && effect.pc.stage.Recorded? ==>
            pc.Assembling? && pc.stage.ManifestStored? && effect.op.RecordDocument? && effect.op.doc == pc.stage.info.doc)
      && (effect.pc.Assembling? && effect.pc.stage.Finished? <==> pc == Assembling(Recorded))
      && (pc == Assembling(Finished) ==> effect.pc.Acking?)
      && (effect.pc.AssemblyFailed? ==> pc.Assembling?)
      && (pc.Assembling? ==> effect.pc.Assembling? || effect.pc.AssemblyFailed? || pc.stage.Finished?)
  {
  }

  // ---- The program, position by position ----

  /** What the program does in `start_chunk`, ... */
  lemma StartProgram(e: Setup, db: Db, store: Store, t: Task, twice: bool)
    ensures Program(e, db, store, t, Admitted, twice) == Execute(RowStarted, StartChunkRow(t.job, t.index, t.attempt))
    ensures Program(e, db, store, t, RowStarted, twice) == Execute(Converting, StartJobRow(t.job))
  {
  }

  /** ... with the conversion and its text, ... */
  lemma ConvertProgram(e: Setup, db: Db, store: Store, t: Task, text: string, twice: bool)
    ensures Program(e, db, store, t, Converting, twice) == Goto(Converted(e.convert(t.file, t.range, t.llm)))
    ensures Program(e, db, store, t, Converted(text), twice) == Put(PartStored, PartKey(t.doc, t.index), TextObject(text))
  {
  }

  /** ... and once the document is recorded. */
  lemma RecordedProgram(e: Setup, db: Db, store: Store, t: Task, twice: bool)
    ensures Program(e, db, store, t, Assembling(Recorded), twice) == Execute(Assembling(Finished), FinishJob(t.job))
  {
  }

  /** What the program does with a parked message. */
  lemma ParkedProgram(e: Setup, db: Db, store: Store, t: Task, twice: bool)
    ensures Program(e, db, store, t, Parked, twice) == Execute(ChunkMarkedFailed, FailChunk(t.job, t.index))
    ensures Program(e, db, store, t, ChunkMarkedFailed, twice) == Execute(Acking, FailJob(t.job, PoisonChunk(t.index, t.attempt)))
  {
  }

  /** What the program does once 0 has been returned ... */
  lemma CountedProgram(e: Setup, db: Db, store: Store, t: Task, twice: bool)
    ensures Program(e, db, store, t, Assembling(Counted), twice) ==
            if t.job !in db.jobs then Goto(AssemblyFailed)
            else
              var info := JobInfo(db.jobs[t.job].doc, db.jobs[t.job].file, db.jobs[t.job].total);
              Goto(Assembling(Gathering(info, ChunkCount(db, t.job), [])))
  {
  }

  /** ... and while parts are left to read. */
  lemma GatheringProgram(e: Setup, db: Db, store: Store, t: Task, info: JobInfo, chunks: nat, parts: seq<string>, twice: bool)
    requires |parts| < chunks
    ensures var part := GetText(store, PartKey(info.doc, |parts|));
      Program(e, db, store, t, Assembling(Gathering(info, chunks, parts)), twice) ==
        Goto(if part.None? then AssemblyFailed else Assembling(Gathering(info, chunks, parts + [part.value])))
  {
  }

  /** What it does when the conversion has raised. */
  lemma FailingProgram(e: Setup, db: Db, store: Store, t: Task, twice: bool)
    ensures Program(e, db, store, t, Failing, twice) ==
            if t.attempt >= e.maxAttempts then Effect(Parked, NoOp, None, multiset{}, Copies(t, twice))
            else Execute(Rescheduled, RescheduleChunk(t.job, t.index))
    ensures Program(e, db, store, t, Rescheduled, twice) == Effect(Acking, NoOp, None, Retried(e, t, twice), multiset{})
  {
  }

  /** What it does with a message it has just received. */
  lemma ReceivedProgram(e: Setup, db: Db, store: Store, t: Task, twice: bool)
    ensures Program(e, db, store, t, Received, twice) == Goto(if Active(db, t.job) then Admitted else Acking)
  {
  }

  /** A worker's step, given what its program does. */
  lemma WorkGives(e: Setup, s: State, w: nat, twice: bool, effect: Effect)
    requires IsBusy(s, w) && !s.workers[w].pc.Acking?
    requires effect == Program(e, s.db, s.store, s.workers[w].task, s.workers[w].pc, twice)
    ensures var after := ApplyWork(e, s, w, twice);
      && after.db == Tables.Apply(s.db, effect.op) && after.store == WithPut(s.store, effect.put)
      && after.queue == s.queue + effect.sent && after.failed == s.failed + effect.parked
      && |after.workers| == |s.workers| && after.workers[w] == s.workers[w].(pc := effect.pc)
  {
    hide Program, Tables.Apply, WithPut, WithCounted;
  }

  /** The steps that are not a worker's own statement. */
  predicate WorkerEvent(step: Step) {
    step.Deliver? || step.ConversionRaises? || step.AssemblyRaises? || step.HandlerRaises? || step.Crash? || step.Redeliver?
  }

  predicate ProducerEvent(step: Step) {
    step.Submit? || step.Lookup? || step.Publish? || step.PublishAgain? || step.GiveUp? || step.Expire?
  }

  /** The worker a worker event leaves behind. */
  function WorkerAfter(s: State, step: Step): Worker
    requires WorkerEvent(step) && Enabled(s, step)
  {
    match step
    case Deliver(_, task) => Busy(task, true, Received)
    case ConversionRaises(w) => s.workers[w].(pc := Failing)
    case AssemblyRaises(w) => s.workers[w].(pc := AssemblyFailed)
    case HandlerRaises(w) => s.workers[w].(pc := Acking)
    case Crash(_) => Idle
    case Redeliver(w) => s.workers[w].(held := false)
  }

  lemma WorkerEventShape(e: Setup, s: State, step: Step)
    requires WorkerEvent(step) && Enabled(s, step)
    ensures var after := Next(e, s, step);
      && after.workers == s.workers[step.w := WorkerAfter(s, step)]
      && after.db == s.db && after.store == s.store && after.failed == s.failed && after.producers == s.producers
      && after.published == s.published && after.counted == s.counted
  {
  }

  lemma ProducerEventShape(e: Setup, s: State, step: Step)
    requires ProducerEvent(step) && Enabled(s, step)
    ensures var after := Next(e, s, step);
      && after.workers == s.workers && after.db == s.db && after.failed == s.failed && after.counted == s.counted
      && s.queue <= after.queue && |after.producers| == |s.producers|
      && (!step.Expire? ==> after.store == s.store)
  {
    if step.Publish? {
      PublishShape(s, step.p);
    }
    hide ApplyPublish, NextLookup;
  }

  lemma PublishShape(s: State, p: nat)
    requires Enabled(s, Publish(p))
    ensures var after := ApplyPublish(s, p);
      && after.workers == s.workers && after.db == s.db && after.failed == s.failed && after.counted == s.counted
      && s.queue <= after.queue && |after.producers| == |s.producers| && after.store == s.store
  {
  }

  lemma CreateShape(e: Setup, s: State, p: nat, job: JobId)
    requires Enabled(s, Create(p, job))
    ensures Next(e, s, Create(p, job)).workers == s.workers && Next(e, s, Create(p, job)).store == s.store
  {
    hide Tables.Apply, Plan;
  }

  lemma NextOfWork(e: Setup, s: State, w: nat, twice: bool)
    requires IsBusy(s, w)
    ensures Next(e, s, Work(w, twice)) == ApplyWork(e, s, w, twice)
  {
    hide ApplyWork;
  }

  lemma StepKinds(step: Step)
    ensures step.Work? || step.Create? || WorkerEvent(step) || ProducerEvent(step)
  {
  }
}
