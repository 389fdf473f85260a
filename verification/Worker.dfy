/**
 * worker.py in its own form. `Handle` changes the database, the object store and the broker
 * call by call, any of which may raise, and is proved to be a path of the transition system:
 * started where a delivered message stands, and with no other process in between, its own steps
 * lead to where the message is acknowledged. So what the invariants say of the worker's steps,
 * they say of this program.
 */
module Worker {
  import opened Types
  import opened Sequential
  import opened Tables
  import opened Keys
  import opened Protocol
  import opened Paths
  import opened Services
  import opened Outcomes
  import JobStore
  import Pagination

  /** Where an exception takes the worker. */
  function Raised(me: Actor, pc: Pc): Pc
    requires me.WorkerActor?
  {
    if (pc.Converting? && !me.startRaises) || pc.Converted? || (pc.PartStored? && me.putRaises) then Failing
    else if pc.Assembling? && !RaisedLate(me, pc) then AssemblyFailed
    else Acking
  }

  class Worker {
    const e: Setup
    const jobs: JobStore.JobStore
    const store: ObjectStore
    const channel: Channel

    constructor (e: Setup, jobs: JobStore.JobStore, store: ObjectStore, channel: Channel)
      ensures this.e == e && this.jobs == jobs && this.store == store && this.channel == channel
    {
      this.e, this.jobs, this.store, this.channel := e, jobs, store, channel;
    }

    /** The shared services hold what the state says, and the broker has a tier for every delay. */
    ghost predicate Matches(s: State)
      reads jobs, store, channel, channel.broker
    {
      && channel.Valid() && |channel.names.delays| == e.retryTiers
      && s.db == jobs.Contents()
      && s.store == store.objects
      && s.queue == channel.ready
      && s.failed == channel.failed
    }

    /** One statement of the program: the state moves by exactly its effect. */
    lemma Do(s0: State, s: State, me: Actor, task: Task, pc: Pc, effect: Effect) returns (after: State)
      requires Reaches(e, me, s0, s) && At(s, me, task, pc) && !pc.Acking? && Smooth(me, pc)
      requires effect == Program(e, s.db, s.store, task, pc, Twice(me.connection))
      ensures Reaches(e, me, s0, after) && At(after, me, task, effect.pc)
      ensures after.db == Tables.Apply(s.db, effect.op) && after.store == WithPut(s.store, effect.put)
      ensures after.queue == s.queue + effect.sent && after.failed == s.failed + effect.parked
      ensures effect.op.NoOp? ==> after.db == s.db
      ensures effect.sent == multiset{} ==> after.queue == s.queue
      ensures effect.parked == multiset{} ==> after.failed == s.failed
    {
      hide Reaches, Program, Tables.Apply, WithPut, WithCounted, TaskQueue.Declared, Next;
      var step := WorkerStep(me, pc);
      after := Next(e, s, step);
      KeepsTables(s.db);
      NextOfWork(e, s, me.w, Twice(me.connection));
      ReachesNext(e, me, s0, s, step);
    }

    /** An exception: only the worker moves. */
    lemma Raise(s0: State, s: State, me: Actor, task: Task, pc: Pc) returns (after: State)
      requires Reaches(e, me, s0, s) && At(s, me, task, pc) && !pc.Acking? && !Smooth(me, pc)
      ensures Reaches(e, me, s0, after) && At(after, me, task, Raised(me, pc))
      ensures after.db == s.db && after.store == s.store && after.queue == s.queue && after.failed == s.failed
    {
      hide Reaches;
      var step := WorkerStep(me, pc);
      after := Next(e, s, step);
      WorkerEventShape(e, s, step);
      ReachesNext(e, me, s0, s, step);
    }

    /** The message is parked: mark the chunk, fail the job. */
    method FailBoth(task: Task, me: Actor, ghost s0: State) returns (ghost s: State)
      requires Matches(s0) && At(s0, me, task, Parked) && !me.connection.Lost?
      modifies jobs
      ensures Matches(s) && At(s, me, task, Acking) && Reaches(e, me, s0, s)
    {
      hide WorkerStep, TaskQueue.Declared, Program, Tables.Apply, Reaches;
      ParkedProgram(e, s0.db, s0.store, task, Twice(me.connection));
      ReachesItself(e, me, s0);
      if me.raises(Parked) {
        s := Raise(s0, s0, me, task, Parked);
        return;
      }
      jobs.FailChunk(task.job, task.index);
      s := Do(s0, s0, me, task, Parked, Execute(ChunkMarkedFailed, FailChunk(task.job, task.index)));
      if me.raises(ChunkMarkedFailed) {
        s := Raise(s0, s, me, task, ChunkMarkedFailed);
        return;
      }
      ParkedProgram(e, s.db, s.store, task, Twice(me.connection));
      var error := PoisonChunk(task.index, task.attempt);
      jobs.FailJob(task.job, error);
      s := Do(s0, s, me, task, ChunkMarkedFailed, Execute(Acking, FailJob(task.job, error)));
    }

    /** Attempts are used up: park the message, mark the chunk, fail the job. */
    method GiveUp(task: Task, me: Actor, ghost s0: State) returns (ghost s: State)
      requires Matches(s0) && At(s0, me, task, Failing) && task.attempt >= e.maxAttempts && Smooth(me, Failing)
      modifies jobs, channel, channel.broker
      ensures Matches(s) && At(s, me, task, Acking) && Reaches(e, me, s0, s)
    {
      hide WorkerStep, TaskQueue.Declared, Protocol.Assemble, Tables.Apply, Reaches;
      ReachesItself(e, me, s0);
      var ok := channel.PublishFailed(task, me.connection);
      ghost var s1 := Do(s0, s0, me, task, Failing, Effect(Parked, NoOp, None, multiset{}, Copies(task, Twice(me.connection))));
      if !ok {
        s := Raise(s0, s1, me, task, Parked);
        return;
      }
      s := FailBoth(task, me, s1);
      ReachesOn(e, me, s0, s1, s);
    }

    /** Attempts are left: reschedule the chunk, publish the next attempt. */
    method Retry(task: Task, me: Actor, ghost s0: State) returns (ghost s: State)
      requires Matches(s0) && At(s0, me, task, Failing) && task.attempt < e.maxAttempts && Smooth(me, Failing)
      modifies jobs, channel, channel.broker
      ensures Matches(s) && At(s, me, task, Acking) && Reaches(e, me, s0, s)
    {
      hide WorkerStep, TaskQueue.Declared, Protocol.Assemble, Tables.Apply, Reaches;
      ReachesItself(e, me, s0);
      jobs.RescheduleChunk(task.job, task.index);
      s := Do(s0, s0, me, task, Failing, Execute(Rescheduled, RescheduleChunk(task.job, task.index)));
      if me.raises(Rescheduled) {
        s := Raise(s0, s, me, task, Rescheduled);
        return;
      }
      var _ := channel.PublishRetry(e, task, me.connection);
      s := Do(s0, s, me, task, Rescheduled, Effect(Acking, NoOp, None, Retried(e, task, Twice(me.connection)), multiset{}));
    }

    /** `_handle_failure` */
    method HandleFailure(task: Task, me: Actor, ghost s0: State) returns (ghost s: State)
      requires Matches(s0) && At(s0, me, task, Failing)
      modifies jobs, channel, channel.broker
      ensures Matches(s) && At(s, me, task, Acking) && Reaches(e, me, s0, s)
    {
      hide WorkerStep, TaskQueue.Declared, Protocol.Assemble, Tables.Apply, Reaches, Program;
      if me.raises(Failing) {
        ReachesItself(e, me, s0);
        s := Raise(s0, s0, me, task, Failing);
      } else if task.attempt >= e.maxAttempts {
        s := GiveUp(task, me, s0);
      } else {
        s := Retry(task, me, s0);
      }
    }

    /** The first loop of `assemble`: all parts in chunk order, or none if one is missing or a read raises. */
    method Gather(task: Task, info: JobInfo, chunks: nat, me: Actor, ghost s0: State) returns (parts: Option<seq<string>>, ghost s: State)
      requires Matches(s0) && At(s0, me, task, Assembling(Gathering(info, chunks, [])))
      ensures Matches(s) && Reaches(e, me, s0, s)
      ensures parts.None? ==> At(s, me, task, AssemblyFailed)
      ensures parts.Some? ==> |parts.value| == chunks && At(s, me, task, Assembling(Gathering(info, chunks, parts.value)))
      ensures parts.Some? ==> forall i :: 0 <= i < chunks ==> GetText(store.objects, PartKey(info.doc, i)) == Some(parts.value[i])
    {
      hide WorkerStep, TaskQueue.Declared, Tables.Apply, Reaches, Program;
      ReachesItself(e, me, s0);
      s := s0;
      var found: seq<string> := [];
      for index := 0 to chunks
        invariant |found| == index && Matches(s) && Reaches(e, me, s0, s)
        invariant At(s, me, task, Assembling(Gathering(info, chunks, found)))
        invariant forall i :: 0 <= i < index ==> GetText(store.objects, PartKey(info.doc, i)) == Some(found[i])
      {
        var pc := Assembling(Gathering(info, chunks, found));
        if me.raises(pc) {
          s := Raise(s0, s, me, task, pc);
          return None, s;
        }
        GatheringProgram(e, s.db, s.store, task, info, chunks, found, Twice(me.connection));
        var part := store.GetPart(info.doc, index);
        if part.None? {
          s := Do(s0, s, me, task, pc, Goto(AssemblyFailed));
          return None, s;
        }
        s := Do(s0, s, me, task, pc, Goto(Assembling(Gathering(info, chunks, found + [part.value]))));
        found := found + [part.value];
      }
      parts := Some(found);
    }

    /** Putting pages, as long as no put raises, is a path of the worker. */
    lemma {:induction false} PagesPath(s0: State, s: State, me: Actor, task: Task, stage: Stage, upto: nat) returns (after: State)
      requires Reaches(e, me, s0, s) && At(s, me, task, Assembling(stage)) && stage.Publishing?
      requires stage.written <= upto <= |stage.pages|
      requires forall n: nat :: stage.written <= n < upto ==> !me.raises(Assembling(stage.(written := n)))
      requires s.store == WithPages(s0.store, stage.info.doc, stage.pages, stage.written)
      ensures Reaches(e, me, s0, after) && At(after, me, task, Assembling(stage.(written := upto)))
      ensures after.store == WithPages(s0.store, stage.info.doc, stage.pages, upto)
      ensures after.db == s.db && after.queue == s.queue && after.failed == s.failed
      decreases upto - stage.written
    {
      hide WorkerStep, TaskQueue.Declared, Tables.Apply, Reaches;
      after := s;
      if stage.written < upto {
        var n := stage.written;
        var more := stage.(written := n + 1);
        assert stage.(written := n) == stage;
        var s1 := Do(s0, s, me, task, Assembling(stage), Put(Assembling(more), PageKey(stage.info.doc, n + 1), TextObject(stage.pages[n])));
        forall m: nat | more.written <= m < upto ensures !me.raises(Assembling(more.(written := m))) {
          assert more.(written := m) == stage.(written := m);
        }
        after := PagesPath(s0, s1, me, task, more, upto);
        assert more.(written := upto) == stage.(written := upto);
      }
    }

    /** `put_document` inside `assemble`. */
    method PublishPages(task: Task, info: JobInfo, pages: seq<string>, length: nat, me: Actor, ghost s0: State) returns (ok: bool, ghost s: State)
      requires Matches(s0) && At(s0, me, task, Assembling(Publishing(info, pages, length, 0)))
      modifies store
      ensures Matches(s) && Reaches(e, me, s0, s)
      ensures At(s, me, task, if ok then Assembling(ManifestStored(info, |pages|, length)) else AssemblyFailed)
    {
      hide WorkerStep, TaskQueue.Declared, Tables.Apply, Reaches;
      ReachesItself(e, me, s0);
      var fails := (n: nat) => me.raises(Assembling(Publishing(info, pages, length, n)));
      var written;
      ok, written := store.PutDocument(info.doc, pages, length, e.pageSize, fails);
      ghost var stage := Publishing(info, pages, length, 0);
      forall n: nat | n < written ensures !me.raises(Assembling(stage.(written := n))) {
        assert !fails(n) && stage.(written := n) == Publishing(info, pages, length, n);
      }
      s := PagesPath(s0, s0, me, task, stage, written);
      ghost var pc := Assembling(Publishing(info, pages, length, written));
      if ok {
        s := Do(s0, s, me, task, pc, Put(Assembling(ManifestStored(info, |pages|, length)), ManifestKey(info.doc), ManifestObject(|pages|, length, e.pageSize)));
      } else {
        s := Raise(s0, s, me, task, pc);
      }
    }

    /** The last two calls of `assemble`: record the document, finish the job. */
    method Settle(task: Task, info: JobInfo, totalPages: nat, length: nat, me: Actor, ghost s0: State) returns (ok: bool, ghost s: State)
      requires Matches(s0) && At(s0, me, task, Assembling(ManifestStored(info, totalPages, length)))
      modifies jobs
      ensures Matches(s) && Reaches(e, me, s0, s)
      ensures At(s, me, task, if ok then Assembling(Finished) else AssemblyFailed)
      ensures ok ==> Smooth(me, Assembling(Finished))
    {
      hide WorkerStep, TaskQueue.Declared, Tables.Apply, Reaches;
      ReachesItself(e, me, s0);
      ok, s := false, s0;
      var pc := Assembling(ManifestStored(info, totalPages, length));
      if me.raises(pc) {
        s := Raise(s0, s, me, task, pc);
        return;
      }
      var row := DocRow(info.file, totalPages, info.total, length, e.pageSize);
      jobs.RecordDocument(info.doc, row);
      s := Do(s0, s, me, task, pc, Execute(Assembling(Recorded), RecordDocument(info.doc, row)));
      ghost var s1 := s;
      ok, s := Finish(task, me, s);
      ReachesOn(e, me, s0, s1, s);
    }

    method Finish(task: Task, me: Actor, ghost s0: State) returns (ok: bool, ghost s: State)
      requires Matches(s0) && At(s0, me, task, Assembling(Recorded))
      modifies jobs
      ensures Matches(s) && Reaches(e, me, s0, s)
      ensures At(s, me, task, if ok then Assembling(Finished) else AssemblyFailed)
      ensures ok ==> Smooth(me, Assembling(Finished))
    {
      hide WorkerStep, TaskQueue.Declared, Program, Tables.Apply, Reaches;
      ReachesItself(e, me, s0);
      ok, s := false, s0;
      if me.raises(Assembling(Recorded)) {
        s := Raise(s0, s, me, task, Assembling(Recorded));
        return;
      }
      RecordedProgram(e, s.db, s.store, task, Twice(me.connection));
      jobs.FinishJob(task.job);
      s := Do(s0, s, me, task, Assembling(Recorded), Execute(Assembling(Finished), FinishJob(task.job)));
      if me.raises(Assembling(Finished)) {
        s := Raise(s0, s, me, task, Assembling(Finished));
        return;
      }
      ok := true;
    }

    /** The end of `assemble`: paginate, publish, record, finish. */
    method Publish(task: Task, info: JobInfo, parts: seq<string>, me: Actor, ghost s0: State) returns (ok: bool, ghost s: State)
      requires Matches(s0) && At(s0, me, task, Assembling(Gathering(info, |parts|, parts)))
      modifies jobs, store
      ensures Matches(s) && Reaches(e, me, s0, s)
      ensures At(s, me, task, if ok then Assembling(Finished) else AssemblyFailed)
      ensures ok ==> Smooth(me, Assembling(Finished))
    {
      hide WorkerStep, TaskQueue.Declared, Tables.Apply, Reaches;
      ReachesItself(e, me, s0);
      ok := false;
      var pc := Assembling(Gathering(info, |parts|, parts));
      if me.raises(pc) {
        s := Raise(s0, s0, me, task, pc);
        return;
      }
      var markdown := Assembled(parts);
      var pages := Pagination.Paginate(markdown, e.pageSize);
      ghost var s1 := Do(s0, s0, me, task, pc, Goto(Assembling(Publishing(info, pages, |markdown|, 0))));
      hide Program;
      ok, s := PublishPages(task, info, pages, |markdown|, me, s1);
      ReachesOn(e, me, s0, s1, s);
      if ok {
        ghost var s2 := s;
        ok, s := Settle(task, info, |pages|, |markdown|, me, s);
        ReachesOn(e, me, s0, s2, s);
      }
    }

    /** `assemble`, inside the `try` of `handle`: false when it raised. */
    method Assemble(task: Task, me: Actor, ghost s0: State) returns (ok: bool, ghost s: State)
      requires Matches(s0) && At(s0, me, task, Assembling(Counted)) && !me.commitRaises
      modifies jobs, store
      ensures Matches(s) && Reaches(e, me, s0, s)
      ensures At(s, me, task, if ok then Assembling(Finished) else AssemblyFailed)
      ensures ok ==> Smooth(me, Assembling(Finished))
    {
      hide WorkerStep, TaskQueue.Declared, Tables.Apply, Reaches, Program;
      CountedProgram(e, s0.db, s0.store, task, Twice(me.connection));
      ReachesItself(e, me, s0);
      ok := false;
      if me.raises(Assembling(Counted)) {
        s := Raise(s0, s0, me, task, Assembling(Counted));
        return;
      }
      var row := jobs.GetJob(task.job);
      if row.None? {
        s := Do(s0, s0, me, task, Assembling(Counted), Goto(AssemblyFailed));
        return;
      }
      var info := JobInfo(row.value.doc, row.value.file, row.value.total);
      var indices := jobs.ChunkIndices(task.job);
      s := Do(s0, s0, me, task, Assembling(Counted), Goto(Assembling(Gathering(info, |indices|, []))));
      ghost var s1 := s;
      ok, s := GatherAndPublish(task, info, |indices|, me, s);
      ReachesOn(e, me, s0, s1, s);
    }

    method GatherAndPublish(task: Task, info: JobInfo, chunks: nat, me: Actor, ghost s0: State) returns (ok: bool, ghost s: State)
      requires Matches(s0) && At(s0, me, task, Assembling(Gathering(info, chunks, [])))
      modifies jobs, store
      ensures Matches(s) && Reaches(e, me, s0, s)
      ensures At(s, me, task, if ok then Assembling(Finished) else AssemblyFailed)
      ensures ok ==> Smooth(me, Assembling(Finished))
    {
      hide WorkerStep, TaskQueue.Declared, Program, Tables.Apply, Reaches;
      ok := false;
      var parts;
      parts, s := Gather(task, info, chunks, me, s0);
      if parts.Some? {
        ghost var s1 := s;
        ok, s := Publish(task, info, parts.value, me, s);
        ReachesOn(e, me, s0, s1, s);
      }
    }

    /** The `try` around `assemble`, and its handler that fails the job. */
    method Conclude(task: Task, me: Actor, ghost s0: State) returns (ghost s: State)
      requires Matches(s0) && At(s0, me, task, Assembling(Counted)) && !me.commitRaises
      modifies jobs, store
      ensures Matches(s) && At(s, me, task, Acking) && Reaches(e, me, s0, s)
    {
      hide WorkerStep, TaskQueue.Declared, Tables.Apply, Reaches;
      var ok;
      ok, s := Assemble(task, me, s0);
      if ok {
        s := Do(s0, s, me, task, Assembling(Finished), Goto(Acking));
      } else if me.raises(AssemblyFailed) {
        s := Raise(s0, s, me, task, AssemblyFailed);
      } else {
        jobs.FailJob(task.job, JobError.AssemblyError);
        s := Do(s0, s, me, task, AssemblyFailed, Execute(Acking, FailJob(task.job, JobError.AssemblyError)));
      }
    }

    /** The part of `handle` behind a stored part: count the chunk, and assemble if it was the last. */
    method Complete(task: Task, me: Actor, ghost s0: State) returns (ghost s: State)
      requires Matches(s0) && At(s0, me, task, PartStored) && !me.putRaises
      modifies jobs, store
      ensures Matches(s) && At(s, me, task, Acking) && Reaches(e, me, s0, s)
    {
      hide WorkerStep, TaskQueue.Declared, Protocol.Assemble, Tables.Apply, Reaches, CompleteResult;
      ReachesItself(e, me, s0);
      if me.raises(PartStored) {
        s := Raise(s0, s0, me, task, PartStored);
        return;
      }
      var remaining := jobs.CompleteChunk(task.job, task.index);
      s := Do(s0, s0, me, task, PartStored, Execute(if remaining == 0 then Assembling(Counted) else Acking, CompleteChunk(task.job, task.index)));
      hide Program;
      if remaining == 0 && me.commitRaises {
        s := Raise(s0, s, me, task, Assembling(Counted));
      } else if remaining == 0 {
        ghost var s1 := s;
        s := Conclude(task, me, s);
        ReachesOn(e, me, s0, s1, s);
      }
    }

    /** The `try` of `handle`: convert the chunk and store it, and say whether that raised. */
    method ConvertAndStore(task: Task, me: Actor, ghost s0: State) returns (ok: bool, ghost s: State)
      requires Matches(s0) && At(s0, me, task, Converting) && !me.startRaises
      modifies store
      ensures Matches(s) && At(s, me, task, if ok then PartStored else Failing) && Reaches(e, me, s0, s)
      ensures ok ==> !me.putRaises
    {
      hide WorkerStep, TaskQueue.Declared, Program, Tables.Apply, Reaches;
      ReachesItself(e, me, s0);
      ok, s := false, s0;
      if me.raises(Converting) {
        s := Raise(s0, s, me, task, Converting);
        return;
      }
      var text := e.convert(task.file, task.range, task.llm);
      ConvertProgram(e, s.db, s.store, task, text, Twice(me.connection));
      s := Do(s0, s, me, task, Converting, Goto(Converted(text)));
      if me.raises(Converted(text)) {
        s := Raise(s0, s, me, task, Converted(text));
        return;
      }
      ConvertProgram(e, s.db, s.store, task, text, Twice(me.connection));
      store.PutPart(task.doc, task.index, text);
      s := Do(s0, s, me, task, Converted(text), Put(PartStored, PartKey(task.doc, task.index), TextObject(text)));
      if me.putRaises {
        s := Raise(s0, s, me, task, PartStored);
        return;
      }
      ok := true;
    }

    /** `start_chunk`: two statements; then the chunk is running on this attempt, unless it is done, and the job is not queued. */
    method Start(task: Task, me: Actor, ghost s0: State) returns (ok: bool, ghost s: State)
      requires Matches(s0) && At(s0, me, task, Admitted)
      modifies jobs
      ensures Matches(s) && At(s, me, task, if ok then Converting else Acking) && Reaches(e, me, s0, s)
      ensures ok ==> !me.startRaises
      ensures ok && old(JobStore.Open(jobs.chunks, task.job, task.index)) ==>
        JobStore.Rewrites(old(jobs.chunks), jobs.chunks, task.job, task.index, ChunkRow(old(jobs.chunks)[task.job][task.index].range, ChunkRunning, task.attempt))
      ensures ok && task.job in old(jobs.jobs) ==> task.job in jobs.jobs && jobs.jobs[task.job].status != Queued
    {
      hide WorkerStep, TaskQueue.Declared, Program, Tables.Apply, Reaches;
      ReachesItself(e, me, s0);
      ok, s := false, s0;
      if me.raises(Admitted) {
        s := Raise(s0, s, me, task, Admitted);
        return;
      }
      StartProgram(e, s.db, s.store, task, Twice(me.connection));
      jobs.StartRow(task.job, task.index, task.attempt);
      s := Do(s0, s, me, task, Admitted, Execute(RowStarted, StartChunkRow(task.job, task.index, task.attempt)));
      if me.raises(RowStarted) {
        s := Raise(s0, s, me, task, RowStarted);
        return;
      }
      StartProgram(e, s.db, s.store, task, Twice(me.connection));
      jobs.StartJob(task.job);
      s := Do(s0, s, me, task, RowStarted, Execute(Converting, StartJobRow(task.job)));
      if me.startRaises {
        s := Raise(s0, s, me, task, Converting);
        return;
      }
      ok := true;
    }

    /** The part of `handle` for an active job. */
    method Process(task: Task, me: Actor, ghost s0: State) returns (ghost s: State)
      requires Matches(s0) && At(s0, me, task, Admitted)
      modifies jobs, store, channel, channel.broker
      ensures Matches(s) && At(s, me, task, Acking) && Reaches(e, me, s0, s)
    {
      hide WorkerStep, TaskQueue.Declared, Protocol.Assemble, Tables.Apply, Reaches, Program;
      var ok;
      ok, s := Start(task, me, s0);
      if !ok {
        return;
      }
      ghost var s1 := s;
      ok, s := ConvertAndStore(task, me, s);
      ReachesOn(e, me, s0, s1, s);
      ghost var s2 := s;
      if ok {
        s := Complete(task, me, s);
      } else {
        s := HandleFailure(task, me, s);
      }
      ReachesOn(e, me, s0, s2, s);
    }

    /**
     * `handle`: from the delivery of a message to its acknowledgement, whichever calls raise, a
     * path of the transition system; by Paths.OneOutcome the state it ends in is the only one
     * possible. A message of a job that is not active changes nothing at all. With no call raising,
     * a message of an active job leaves its part stored and its chunk done and counted; with only
     * the conversion raising, it is retried, or parked and failed on its last attempt.
     */
    method Handle(task: Task, me: Actor, ghost s0: State) returns (ghost s: State)
      requires Matches(s0) && At(s0, me, task, Received)
      modifies jobs, store, channel, channel.broker
      ensures Matches(s) && At(s, me, task, Acking) && Reaches(e, me, s0, s)
      ensures old(!Active(jobs.Contents(), task.job)) ==>
        && jobs.Contents() == old(jobs.Contents()) && store.objects == old(store.objects)
        && channel.ready == old(channel.ready) && channel.failed == old(channel.failed)
      ensures Calm(me) && old(Active(jobs.Contents(), task.job) && HasChunk(jobs.Contents(), task.job, task.index)) ==>
        && PartIsStored(e, store.objects, task) && ChunkIsDone(jobs.Contents(), task.job, task.index) && WasCounted(s0, s, task)
        && channel.ready == old(channel.ready) && channel.failed == old(channel.failed)
      ensures Unconverted(me) && old(Active(jobs.Contents(), task.job) && HasChunk(jobs.Contents(), task.job, task.index)) ==>
        GivenUpOrRetried(e, s0, s, task) && store.objects == old(store.objects)
    {
      hide WorkerStep, TaskQueue.Declared, Tables.Apply, Reaches, Program, Calm, Unconverted, PartIsStored, GivenUpOrRetried;
      ReceivedProgram(e, s0.db, s0.store, task, Twice(me.connection));
      ReachesItself(e, me, s0);
      if me.raises(Received) {
        s := Raise(s0, s0, me, task, Received);
      } else {
        var row := jobs.GetJob(task.job);
        if row.None? || row.value.status == Done || row.value.status == Failed {
          s := Do(s0, s0, me, task, Received, Goto(Acking));
        } else {
          ghost var s1 := Do(s0, s0, me, task, Received, Goto(Admitted));
          s := Process(task, me, s1);
          ReachesOn(e, me, s0, s1, s);
        }
      }
      MessageOutcome(e, me, s0, s, task);
    }
  }

  /** What a message comes to, in the three cases. */
  lemma MessageOutcome(e: Setup, me: Actor, s0: State, s: State, task: Task)
    requires At(s0, me, task, Received) && At(s, me, task, Acking) && Reaches(e, me, s0, s)
    ensures !Active(s0.db, task.job) ==> SameServices(s0, s)
    ensures Calm(me) && Active(s0.db, task.job) && HasChunk(s0.db, task.job, task.index) ==>
      PartIsStored(e, s.store, task) && WasCounted(s0, s, task) && s.queue == s0.queue && s.failed == s0.failed
    ensures Unconverted(me) && Active(s0.db, task.job) && HasChunk(s0.db, task.job, task.index) ==>
      GivenUpOrRetried(e, s0, s, task) && s.store == s0.store
  {
    hide Reaches, Calm, Unconverted, PartIsStored, GivenUpOrRetried, WasCounted, Active;
    if !Active(s0.db, task.job) {
      SettledIsDropped(e, me, s0, s, task);
    } else if HasChunk(s0.db, task.job, task.index) {
      if Calm(me) {
        ActiveIsConverted(e, me, s0, s, task);
      }
      if Unconverted(me) {
        FailureIsHandled(e, me, s0, s, task);
      }
    }
  }

  lemma KeepsTables(db: Db)
    ensures Tables.Apply(db, NoOp) == db
  {
  }
}
