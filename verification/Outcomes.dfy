/**
 * What one message and one request come to, stated on what was stored before and is stored after,
 * without reference to the program: paths of a process that is left alone, from its start to its end.
 */
module Outcomes {
  import opened Types
  import opened Sequential
  import opened Tables
  import opened Keys
  import opened Protocol
  import opened Paths
  import Pagination

  /** Tables, objects and queues are the same. */
  predicate SameServices(s: State, u: State) {
    u.db == s.db && u.store == s.store && u.queue == s.queue && u.failed == s.failed
  }

  // ---- A message of a settled job ----

  ghost predicate DropInv(s: State, x: State, me: Actor, t: Task) {
    SameServices(s, x) && (At(x, me, t, Received) || At(x, me, t, Acking))
  }

  lemma DropStep(e: Setup, s: State, x: State, step: Step, me: Actor, t: Task)
    requires me.WorkerActor? && !Active(s.db, t.job) && DropInv(s, x, me, t) && OwnStep(x, step, me) && Enabled(x, step)
    ensures DropInv(s, Next(e, x, step), me, t)
  {
    assert x.queue + multiset{} == x.queue && x.failed + multiset{} == x.failed;
  }

  /** A message whose job is done, failed or unknown is dropped: nothing is changed, whatever raises. */
  lemma SettledIsDropped(e: Setup, me: Actor, s: State, u: State, t: Task)
    requires At(s, me, t, Received) && !Active(s.db, t.job) && Reaches(e, me, s, u)
    ensures SameServices(s, u)
  {
    hide Reaches, Next, OwnStep, Enabled;
    forall x, step | DropInv(s, x, me, t) && OwnStep(x, step, me) && Enabled(x, step) ensures DropInv(s, Next(e, x, step), me, t) {
      DropStep(e, s, x, step, me, t);
    }
    PathKeeps(e, me, s, u, x => DropInv(s, x, me, t));
  }

  // ---- A message of an active job, with no call raising ----

  /** No call raises. */
  ghost predicate Calm(me: Actor) {
    && me.WorkerActor? && (forall pc :: !me.raises(pc))
    && !me.startRaises && !me.putRaises && !me.commitRaises && me.connection.Steady?
  }

  predicate PartIsStored(e: Setup, store: Store, t: Task) {
    var key := PartKey(t.doc, t.index);
    key in store && store[key] == TextObject(e.convert(t.file, t.range, t.llm))
  }

  /** The job is active, its counter as it was, and the chunk done or not as it was. */
  ghost predicate Uncounted(s: State, x: State, t: Task) {
    && Active(s.db, t.job) && Active(x.db, t.job) && x.db.jobs[t.job].remaining == s.db.jobs[t.job].remaining
    && HasChunk(x.db, t.job, t.index) && (ChunkIsDone(x.db, t.job, t.index) <==> ChunkIsDone(s.db, t.job, t.index))
  }

  /** The chunk is done, and the counter one lower if it was not done before. */
  ghost predicate WasCounted(s: State, x: State, t: Task) {
    && ChunkIsDone(x.db, t.job, t.index) && Active(s.db, t.job) && t.job in x.db.jobs
    && x.db.jobs[t.job].remaining == s.db.jobs[t.job].remaining - if ChunkIsDone(s.db, t.job, t.index) then 0 else 1
  }

  ghost predicate CalmInv(e: Setup, s: State, x: State, me: Actor, t: Task) {
    && me.WorkerActor? && IsBusy(x, me.w) && x.workers[me.w].task == t
    && x.queue == s.queue && x.failed == s.failed
    && var pc := x.workers[me.w].pc;
       if pc.Assembling? || pc.AssemblyFailed? || pc.Acking? then WasCounted(s, x, t) && PartIsStored(e, x.store, t)
       else
         && Uncounted(s, x, t)
         && (pc.Received? || pc.Admitted? || pc.RowStarted? || pc.Converting? || pc.Converted? || pc.PartStored?)
         && (pc.Converted? ==> pc.text == e.convert(t.file, t.range, t.llm))
         && (pc.PartStored? ==> PartIsStored(e, x.store, t))
  }

  /** An assembly puts no part, sends and parks nothing, and writes neither chunks nor the counter. */
  lemma AssemblyLeavesChunks(e: Setup, db: Db, store: Store, t: Task, stage: Stage)
    ensures var effect := Assemble(e, db, store, t, stage);
      && effect.sent == multiset{} && effect.parked == multiset{}
      && (effect.op.NoOp? || effect.op.RecordDocument? || effect.op == FinishJob(t.job))
      && (effect.put.Some? ==> !effect.put.value.0.PartKey?)
      && (effect.pc.Assembling? || effect.pc.AssemblyFailed? || effect.pc.Acking?)
  {
  }

  /** These statements leave the counter and the chunks of a job alone. */
  lemma KeepsCount(s: State, x: State, db: Db, t: Task, op: Op)
    requires WasCounted(s, x, t) && db == Tables.Apply(x.db, op)
    requires op.NoOp? || op.RecordDocument? || op == FinishJob(t.job) || op.FailJob?
    ensures WasCounted(s, x.(db := db), t)
  {
  }

  lemma CalmEarly(e: Setup, s: State, x: State, me: Actor, t: Task)
    requires Calm(me) && CalmInv(e, s, x, me, t)
    requires var pc := x.workers[me.w].pc; !pc.Assembling? && !pc.AssemblyFailed? && !pc.Acking?
    ensures CalmInv(e, s, ApplyWork(e, x, me.w, false), me, t)
  {
    hide Assemble;
    assert x.queue + multiset{} == x.queue && x.failed + multiset{} == x.failed;
  }

  lemma CalmLate(e: Setup, s: State, x: State, me: Actor, t: Task)
    requires Calm(me) && CalmInv(e, s, x, me, t)
    requires var pc := x.workers[me.w].pc; pc.Assembling? || pc.AssemblyFailed?
    ensures CalmInv(e, s, ApplyWork(e, x, me.w, false), me, t)
  {
    hide Tables.Apply, WasCounted, Uncounted, Assemble;
    var pc := x.workers[me.w].pc;
    var effect := Program(e, x.db, x.store, t, pc, false);
    if pc.Assembling? {
      AssemblyLeavesChunks(e, x.db, x.store, t, pc.stage);
    }
    KeepsCount(s, x, Tables.Apply(x.db, effect.op), t, effect.op);
    assert x.queue + multiset{} == x.queue && x.failed + multiset{} == x.failed;
    var after := ApplyWork(e, x, me.w, false);
    CountDependsOnTables(s, x.(db := Tables.Apply(x.db, effect.op)), after, t);
  }

  lemma CountDependsOnTables(s: State, x: State, y: State, t: Task)
    requires x.db == y.db && WasCounted(s, x, t)
    ensures WasCounted(s, y, t)
  {
  }

  lemma CalmStep(e: Setup, s: State, x: State, step: Step, me: Actor, t: Task)
    requires Calm(me) && CalmInv(e, s, x, me, t) && OwnStep(x, step, me) && Enabled(x, step)
    ensures CalmInv(e, s, Next(e, x, step), me, t)
  {
    var pc := x.workers[me.w].pc;
    assert step == Work(me.w, false);
    NextOfWork(e, x, me.w, false);
    hide Next, ApplyWork, CalmInv;
    if pc.Assembling? || pc.AssemblyFailed? {
      CalmLate(e, s, x, me, t);
    } else {
      CalmEarly(e, s, x, me, t);
    }
  }

  /**
   * A message of an active job, with no call raising: the part is stored, the chunk is done and has
   * been counted unless it had been before, and no message is sent or parked.
   */
  lemma ActiveIsConverted(e: Setup, me: Actor, s: State, u: State, t: Task)
    requires Calm(me) && At(s, me, t, Received) && Active(s.db, t.job) && HasChunk(s.db, t.job, t.index)
    requires Reaches(e, me, s, u) && AtRest(u, me)
    ensures PartIsStored(e, u.store, t) && WasCounted(s, u, t) && u.queue == s.queue && u.failed == s.failed
  {
    hide Reaches, Next, OwnStep, Enabled;
    forall x, step | CalmInv(e, s, x, me, t) && OwnStep(x, step, me) && Enabled(x, step) ensures CalmInv(e, s, Next(e, x, step), me, t) {
      CalmStep(e, s, x, step, me, t);
    }
    PathKeeps(e, me, s, u, x => CalmInv(e, s, x, me, t));
  }

  // ---- A conversion that raises ----

  /** Only the conversion raises. */
  ghost predicate Unconverted(me: Actor) {
    && me.WorkerActor? && (forall pc :: me.raises(pc) <==> pc.Converting?)
    && !me.startRaises && !me.putRaises && !me.commitRaises && me.connection.Steady?
  }

  /** The chunk is pending again, unless it was done. */
  ghost predicate Pending(s: State, x: State, t: Task) {
    Uncounted(s, x, t) && (ChunkIsDone(s.db, t.job, t.index) || x.db.chunks[t.job][t.index].status.ChunkPending?)
  }

  predicate ChunkHasFailed(db: Db, t: Task) {
    HasChunk(db, t.job, t.index) && db.chunks[t.job][t.index].status.ChunkFailed?
  }

  /** The job has failed for this chunk and attempt. */
  predicate JobHasFailed(db: Db, t: Task) {
    t.job in db.jobs && db.jobs[t.job].status.Failed? && db.jobs[t.job].error == Some(PoisonChunk(t.index, t.attempt))
  }

  /** On the last attempt the message is parked, the chunk and the job have failed; on any other the next attempt waits. */
  ghost predicate GivenUpOrRetried(e: Setup, s: State, x: State, t: Task) {
    if t.attempt >= e.maxAttempts
    then x.queue == s.queue && x.failed == s.failed + multiset{t} && ChunkHasFailed(x.db, t) && JobHasFailed(x.db, t)
    else
      && x.failed == s.failed && Pending(s, x, t)
      && x.queue == s.queue + if e.retryTiers == 0 || t.attempt == 0 then multiset{} else multiset{t.(attempt := t.attempt + 1)}
  }

  ghost predicate FailInv(e: Setup, s: State, x: State, me: Actor, t: Task) {
    && me.WorkerActor? && IsBusy(x, me.w) && x.workers[me.w].task == t && x.store == s.store
    && var pc := x.workers[me.w].pc;
       if pc.Acking? then GivenUpOrRetried(e, s, x, t)
       else if pc.Parked? || pc.ChunkMarkedFailed? then
         && t.attempt >= e.maxAttempts && x.queue == s.queue && x.failed == s.failed + multiset{t}
         && Active(x.db, t.job) && HasChunk(x.db, t.job, t.index) && (pc.ChunkMarkedFailed? ==> ChunkHasFailed(x.db, t))
       else
         && x.queue == s.queue && x.failed == s.failed && Uncounted(s, x, t)
         && (pc.Received? || pc.Admitted? || pc.RowStarted? || pc.Converting? || pc.Failing? || pc.Rescheduled?)
         && (pc.Rescheduled? ==> t.attempt < e.maxAttempts && Pending(s, x, t))
  }

  // What the statements of these steps do to the job and the chunk.

  lemma StartTables(s: State, x: State, t: Task)
    requires Uncounted(s, x, t)
    ensures Uncounted(s, x.(db := Tables.Apply(x.db, NoOp)), t)
    ensures Uncounted(s, x.(db := Tables.Apply(x.db, StartChunkRow(t.job, t.index, t.attempt))), t)
    ensures Uncounted(s, x.(db := Tables.Apply(x.db, StartJobRow(t.job))), t)
  {
  }

  lemma RescheduleTables(s: State, x: State, t: Task)
    requires Uncounted(s, x, t)
    ensures Pending(s, x.(db := Tables.Apply(x.db, RescheduleChunk(t.job, t.index))), t)
    ensures Tables.Apply(x.db, NoOp) == x.db
  {
  }

  lemma FailTables(db: Db, t: Task)
    requires Active(db, t.job) && HasChunk(db, t.job, t.index)
    ensures var marked := Tables.Apply(db, FailChunk(t.job, t.index));
      Active(marked, t.job) && ChunkHasFailed(marked, t)
    ensures ChunkHasFailed(db, t) ==>
      var failed := Tables.Apply(db, FailJob(t.job, PoisonChunk(t.index, t.attempt)));
      ChunkHasFailed(failed, t) && JobHasFailed(failed, t)
    ensures Tables.Apply(db, NoOp) == db
  {
  }

  /** These predicates are about the tables only. */
  lemma OnlyTables(s: State, x: State, y: State, t: Task)
    requires x.db == y.db
    ensures Uncounted(s, x, t) ==> Uncounted(s, y, t)
    ensures Pending(s, x, t) ==> Pending(s, y, t)
  {
  }

  lemma StillActive(s: State, x: State, t: Task)
    requires Uncounted(s, x, t)
    ensures Active(x.db, t.job) && HasChunk(x.db, t.job, t.index)
  {
  }

  lemma PendingIsUncounted(s: State, x: State, t: Task)
    ensures Pending(s, x, t) ==> Uncounted(s, x, t)
  {
  }

  lemma FailStarts(e: Setup, s: State, x: State, me: Actor, t: Task)
    requires Unconverted(me) && FailInv(e, s, x, me, t)
    requires var pc := x.workers[me.w].pc; pc.Received? || pc.Admitted? || pc.RowStarted?
    ensures FailInv(e, s, ApplyWork(e, x, me.w, false), me, t)
  {
    hide Program, ApplyWork, Tables.Apply, Uncounted, GivenUpOrRetried, Pending, ChunkHasFailed, JobHasFailed;
    ReceivedProgram(e, x.db, x.store, t, false);
    StartProgram(e, x.db, x.store, t, false);
    StillActive(s, x, t);
    StartTables(s, x, t);
    var effect := Program(e, x.db, x.store, t, x.workers[me.w].pc, false);
    var after := ApplyWork(e, x, me.w, false);
    WorkGives(e, x, me.w, false, effect);
    assert x.queue + multiset{} == x.queue && x.failed + multiset{} == x.failed;
    OnlyTables(s, x.(db := after.db), after, t);
  }

  lemma FailGivesUp(e: Setup, s: State, x: State, me: Actor, t: Task)
    requires Unconverted(me) && FailInv(e, s, x, me, t)
    requires var pc := x.workers[me.w].pc; (pc.Failing? && t.attempt >= e.maxAttempts) || pc.Parked? || pc.ChunkMarkedFailed?
    ensures FailInv(e, s, ApplyWork(e, x, me.w, false), me, t)
  {
    hide Program, ApplyWork, Tables.Apply, Pending, ChunkHasFailed, JobHasFailed, Uncounted;
    FailingProgram(e, x.db, x.store, t, false);
    ParkedProgram(e, x.db, x.store, t, false);
    if x.workers[me.w].pc.Failing? {
      StillActive(s, x, t);
    }
    FailTables(x.db, t);
    var effect := Program(e, x.db, x.store, t, x.workers[me.w].pc, false);
    var after := ApplyWork(e, x, me.w, false);
    WorkGives(e, x, me.w, false, effect);
    assert x.queue + multiset{} == x.queue && x.failed + multiset{} == x.failed;
  }

  lemma FailRetries(e: Setup, s: State, x: State, me: Actor, t: Task)
    requires Unconverted(me) && FailInv(e, s, x, me, t)
    requires var pc := x.workers[me.w].pc; (pc.Failing? && t.attempt < e.maxAttempts) || pc.Rescheduled?
    ensures FailInv(e, s, ApplyWork(e, x, me.w, false), me, t)
  {
    hide Program, ApplyWork, Tables.Apply, Pending, ChunkHasFailed, JobHasFailed, Uncounted;
    FailingProgram(e, x.db, x.store, t, false);
    RescheduleTables(s, x, t);
    var effect := Program(e, x.db, x.store, t, x.workers[me.w].pc, false);
    var after := ApplyWork(e, x, me.w, false);
    WorkGives(e, x, me.w, false, effect);
    assert x.queue + multiset{} == x.queue && x.failed + multiset{} == x.failed;
    OnlyTables(s, x.(db := after.db), after, t);
    PendingIsUncounted(s, after, t);
  }

  lemma FailWork(e: Setup, s: State, x: State, me: Actor, t: Task)
    requires Unconverted(me) && FailInv(e, s, x, me, t)
    requires var pc := x.workers[me.w].pc; !pc.Acking? && !pc.Converting?
    ensures FailInv(e, s, ApplyWork(e, x, me.w, false), me, t)
  {
    var pc := x.workers[me.w].pc;
    assert pc.Received? || pc.Admitted? || pc.RowStarted? || pc.Failing? || pc.Parked? || pc.ChunkMarkedFailed? || pc.Rescheduled?;
    hide ApplyWork, FailInv;
    if pc.Received? || pc.Admitted? || pc.RowStarted? {
      FailStarts(e, s, x, me, t);
    } else if pc.Rescheduled? || (pc.Failing? && t.attempt < e.maxAttempts) {
      FailRetries(e, s, x, me, t);
    } else {
      FailGivesUp(e, s, x, me, t);
    }
  }

  lemma FailStep(e: Setup, s: State, x: State, step: Step, me: Actor, t: Task)
    requires Unconverted(me) && FailInv(e, s, x, me, t) && OwnStep(x, step, me) && Enabled(x, step)
    ensures FailInv(e, s, Next(e, x, step), me, t)
  {
    if x.workers[me.w].pc.Converting? {
      assert step == ConversionRaises(me.w);
    } else {
      assert step == Work(me.w, false);
      NextOfWork(e, x, me.w, false);
      hide Next, ApplyWork, FailInv;
      FailWork(e, s, x, me, t);
    }
  }

  /** A message of an active job whose conversion raises: parked and failed on its last attempt, retried before. */
  lemma FailureIsHandled(e: Setup, me: Actor, s: State, u: State, t: Task)
    requires Unconverted(me) && At(s, me, t, Received) && Active(s.db, t.job) && HasChunk(s.db, t.job, t.index)
    requires Reaches(e, me, s, u) && AtRest(u, me)
    ensures GivenUpOrRetried(e, s, u, t) && u.store == s.store
  {
    hide Reaches, Next, OwnStep, Enabled;
    forall x, step | FailInv(e, s, x, me, t) && OwnStep(x, step, me) && Enabled(x, step) ensures FailInv(e, s, Next(e, x, step), me, t) {
      FailStep(e, s, x, step, me, t);
    }
    PathKeeps(e, me, s, u, x => FailInv(e, s, x, me, t));
  }

  // ---- A request ----

  /** The document row, the manifest and the first page are all there. */
  predicate InCache(db: Db, store: Store, doc: DocKey) {
    && doc in db.documents
    && ManifestKey(doc) in store && store[ManifestKey(doc)].ManifestObject?
    && PageKey(doc, 1) in store && store[PageKey(doc, 1)].TextObject?
  }

  /** The stored first page, with the links the stored manifest calls for. */
  ghost predicate FirstPageOf(store: Store, doc: DocKey, payload: Payload)
    requires ManifestKey(doc) in store && store[ManifestKey(doc)].ManifestObject?
    requires PageKey(doc, 1) in store && store[PageKey(doc, 1)].TextObject?
  {
    var manifest, links := store[ManifestKey(doc)], payload.links;
    && payload.doc == doc && payload.content == store[PageKey(doc, 1)].text
    && links.doc == doc && links.page == 1 && links.totalPages == manifest.totalPages
    && links.totalLength == manifest.totalLength && links.pageSize == manifest.pageSize
    && links.hasNext == (1 < manifest.totalPages) && links.nextPage == (if 1 < manifest.totalPages then Some(2) else None)
    && !links.hasPrev && links.prevPage == None
  }

  /** The lookup, as far as it has come, has found what is stored. */
  ghost predicate LookupInv(s: State, x: State, me: Actor, doc: DocKey) {
    && me.ProducerActor? && me.p < |x.producers|
    && var producer := x.producers[me.p];
       if producer.Hashed? || producer.RowFound? || producer.ManifestFound? then
         && SameServices(s, x) && producer.doc == doc
         && (producer.RowFound? || producer.ManifestFound? ==> doc in s.db.documents)
         && (producer.ManifestFound? ==> ManifestKey(doc) in s.store && s.store[ManifestKey(doc)] == producer.manifest && producer.manifest.ManifestObject?)
       else if producer.Served? then SameServices(s, x) && producer.doc == doc && InCache(s.db, s.store, doc) && FirstPageOf(s.store, doc, producer.payload)
       else !InCache(s.db, s.store, doc)
  }

  lemma LookupRead(e: Setup, s: State, x: State, me: Actor, doc: DocKey)
    requires LookupInv(s, x, me, doc) && Enabled(x, Lookup(me.p))
    ensures LookupInv(s, Next(e, x, Lookup(me.p)), me, doc)
  {
  }

  /** Once the lookup has missed, the request is not served. */
  lemma LookupOver(e: Setup, s: State, x: State, step: Step, me: Actor)
    requires me.ProducerActor? && OwnStep(x, step, me) && Enabled(x, step) && !step.Lookup?
    ensures me.p < |Next(e, x, step).producers|
    ensures var producer := Next(e, x, step).producers[me.p]; producer.Free? || producer.Sending? || producer.Submitted?
  {
    hide Tables.Apply, Plan;
  }

  lemma LookupStep(e: Setup, s: State, x: State, step: Step, me: Actor, doc: DocKey)
    requires me.ProducerActor? && (forall producer :: !me.fails(producer))
    requires LookupInv(s, x, me, doc) && OwnStep(x, step, me) && Enabled(x, step)
    ensures LookupInv(s, Next(e, x, step), me, doc)
  {
    hide Next;
    if step.Lookup? {
      LookupRead(e, s, x, me, doc);
    } else {
      LookupOver(e, s, x, step, me);
    }
  }

  /** With no call raising, a request is served from what is stored exactly when everything is there; nothing is changed then. */
  lemma CachedExactlyWhen(e: Setup, me: Actor, s: State, u: State, doc: DocKey)
    requires me.ProducerActor? && (forall producer :: !me.fails(producer))
    requires me.p < |s.producers| && s.producers[me.p] == Hashed(doc) && Reaches(e, me, s, u) && AtRest(u, me)
    ensures me.p < |u.producers| && (u.producers[me.p].Served? <==> InCache(s.db, s.store, doc))
    ensures u.producers[me.p].Served? ==>
      SameServices(s, u) && u.producers[me.p].doc == doc && FirstPageOf(s.store, doc, u.producers[me.p].payload)
  {
    hide Reaches, Next, OwnStep, Enabled, FirstPageOf;
    forall x, step | LookupInv(s, x, me, doc) && OwnStep(x, step, me) && Enabled(x, step) ensures LookupInv(s, Next(e, x, step), me, doc) {
      LookupStep(e, s, x, step, me, doc);
    }
    PathKeeps(e, me, s, u, x => LookupInv(s, x, me, doc));
  }
}
