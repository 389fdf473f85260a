/**
 * api/index.py, `submit` in its own form: the cache lookup, then state first and messages after
 * it, with the second try of a publish whose connection breaks. Proved to be a path of the
 * transition system, whichever calls raise.
 */
module Api {
  import opened Types
  import opened Sequential
  import opened Tables
  import opened Keys
  import opened Protocol
  import opened Paths
  import opened Services
  import opened Outcomes
  import JobStore
  import Chunker

  datatype Outcome = Cached(payload: Payload) | Accepted(job: JobId, totalChunks: nat) | Raises

  /** What the cache lookup comes to. */
  datatype CacheAnswer = Hit(payload: Payload) | Miss | LookupRaises

  /** What one try of a publish comes to. */
  datatype PublishResult = AllSent | ConnectionBroke | SendingRaises

  /** The API process stands here. */
  ghost predicate Stands(s: State, me: Actor, producer: Producer) {
    me.ProducerActor? && me.p < |s.producers| && s.producers[me.p] == producer
  }

  class Api {
    const e: Setup
    const jobs: JobStore.JobStore
    const store: ObjectStore
    const channel: Channel

    constructor (e: Setup, jobs: JobStore.JobStore, store: ObjectStore, channel: Channel)
      ensures this.e == e && this.jobs == jobs && this.store == store && this.channel == channel
    {
      this.e, this.jobs, this.store, this.channel := e, jobs, store, channel;
    }

    ghost predicate Matches(s: State)
      reads jobs, store, channel, channel.broker
    {
      && channel.Valid()
      && s.db == jobs.Contents()
      && s.store == store.objects
      && s.queue == channel.ready
      && s.failed == channel.failed
    }

    /** A call raises: the process drops the request. */
    lemma Raise(s0: State, s: State, me: Actor, producer: Producer) returns (after: State)
      requires Reaches(e, me, s0, s) && Stands(s, me, producer) && Working(producer)
      requires ProducerStep(me, s.db, producer).GiveUp?
      ensures Reaches(e, me, s0, after) && Stands(after, me, Free)
      ensures after.db == s.db && after.store == s.store && after.queue == s.queue && after.failed == s.failed
    {
      hide Reaches, TaskQueue.Declared;
      var step := ProducerStep(me, s.db, producer);
      after := Next(e, s, step);
      ReachesNext(e, me, s0, s, step);
    }

    /** The next read of the cache lookup. */
    lemma LookUp(s0: State, s: State, me: Actor, producer: Producer) returns (after: State)
      requires Reaches(e, me, s0, s) && Stands(s, me, producer) && !me.fails(producer)
      requires producer.Hashed? || producer.RowFound? || producer.ManifestFound?
      ensures Reaches(e, me, s0, after) && Stands(after, me, NextLookup(s.db, s.store, producer))
      ensures after.db == s.db && after.store == s.store && after.queue == s.queue && after.failed == s.failed
    {
      hide Reaches, TaskQueue.Declared;
      var step := ProducerStep(me, s.db, producer);
      after := Next(e, s, step);
      ReachesNext(e, me, s0, s, step);
    }

    lemma CreatePath(s0: State, s: State, me: Actor, doc: DocKey) returns (after: State)
      requires Reaches(e, me, s0, s) && Stands(s, me, Uncached(doc)) && !me.fails(Uncached(doc))
      requires me.job !in s.db.jobs && me.job !in s.db.chunks
      ensures Reaches(e, me, s0, after) && Stands(after, me, Sending(me.job, 0, false))
      ensures after.db == Tables.Apply(s.db, CreateJob(me.job, doc, doc.file, doc.llm, Plan(e, doc.file)))
      ensures after.store == s.store && after.queue == s.queue && after.failed == s.failed
    {
      hide Reaches, TaskQueue.Declared;
      var step := ProducerStep(me, s.db, Uncached(doc));
      after := Next(e, s, step);
      hide Tables.Apply, Plan;
      ReachesNext(e, me, s0, s, step);
    }

    /** The next message, or the return of the publish. */
    lemma PublishPath(s0: State, s: State, me: Actor, producer: Producer) returns (after: State)
      requires Reaches(e, me, s0, s) && Stands(s, me, producer) && producer.Sending?
      requires ProducerStep(me, s.db, producer).Publish?
      requires producer.job in s.db.jobs && producer.job in s.db.chunks && producer.next <= |s.db.chunks[producer.job]|
      ensures Reaches(e, me, s0, after)
      ensures after.db == s.db && after.store == s.store && after.failed == s.failed
      ensures if producer.next < |s.db.chunks[producer.job]|
              then Stands(after, me, producer.(next := producer.next + 1)) && after.queue == s.queue + multiset{TaskOf(s, producer.job, producer.next)}
              else Stands(after, me, Submitted(producer.job)) && after.queue == s.queue && producer.job in after.published
    {
      hide Reaches, TaskQueue.Declared;
      var step := ProducerStep(me, s.db, producer);
      after := Next(e, s, step);
      ReachesNext(e, me, s0, s, step);
    }

    /** The connection broke: start over on a new one. */
    lemma AgainPath(s0: State, s: State, me: Actor, producer: Producer) returns (after: State)
      requires Reaches(e, me, s0, s) && Stands(s, me, producer) && producer.Sending?
      requires ProducerStep(me, s.db, producer).PublishAgain?
      ensures Reaches(e, me, s0, after) && Stands(after, me, Sending(producer.job, 0, true))
      ensures after.db == s.db && after.store == s.store && after.queue == s.queue && after.failed == s.failed
    {
      hide Reaches, TaskQueue.Declared;
      var step := ProducerStep(me, s.db, producer);
      after := Next(e, s, step);
      ReachesNext(e, me, s0, s, step);
    }

    /** The cache lookup: the stored first page, if the document row, the manifest and the page are all there. */
    method FindCached(doc: DocKey, me: Actor, ghost s0: State) returns (found: CacheAnswer, ghost s: State)
      requires Matches(s0) && Stands(s0, me, Hashed(doc))
      ensures Matches(s) && s.db == s0.db && Reaches(e, me, s0, s)
      ensures Stands(s, me, match found case Hit(payload) => Served(doc, payload) case Miss => Uncached(doc) case LookupRaises => Free)
      ensures (forall producer :: !me.fails(producer)) ==>
        !found.LookupRaises? && (found.Hit? <==> InCache(jobs.Contents(), store.objects, doc))
    {
      hide Reaches;
      ReachesItself(e, me, s0);
      found, s := LookupRaises, s0;
      if me.fails(Hashed(doc)) {
        s := Raise(s0, s, me, Hashed(doc));
        return;
      }
      s := LookUp(s0, s, me, Hashed(doc));
      if doc !in jobs.documents {
        return Miss, s;
      }
      if me.fails(RowFound(doc)) {
        s := Raise(s0, s, me, RowFound(doc));
        return;
      }
      s := LookUp(s0, s, me, RowFound(doc));
      var key := ManifestKey(doc);
      if key !in store.objects || !store.objects[key].ManifestObject? {
        return Miss, s;
      }
      var manifest := store.objects[key];
      if me.fails(ManifestFound(doc, manifest)) {
        s := Raise(s0, s, me, ManifestFound(doc, manifest));
        return;
      }
      s := LookUp(s0, s, me, ManifestFound(doc, manifest));
      var text := GetText(store.objects, PageKey(doc, 1));
      found := if text.Some? then Hit(FirstPage(doc, text.value, manifest)) else Miss;
    }

    /** The rows of the job are those of the plan, as `create_job` has just written them. */
    ghost predicate Planned(db: Db, job: JobId, doc: DocKey, ranges: seq<PageRange>) {
      && job in db.jobs && db.jobs[job] == JobRow(doc, doc.file, doc.llm, Queued, |ranges|, |ranges|, None)
      && job in db.chunks && db.chunks[job] == NewChunkRows(ranges)
    }

    /** The message of one chunk. */
    method PublishNext(job: JobId, doc: DocKey, ranges: seq<PageRange>, index: nat, again: bool, me: Actor, ghost s0: State, ghost s: State) returns (ghost after: State)
      requires index < |ranges| && Planned(s.db, job, doc, ranges)
      requires Matches(s) && Stands(s, me, Sending(job, index, again)) && Reaches(e, me, s0, s)
      requires ProducerStep(me, s.db, Sending(job, index, again)).Publish?
      modifies channel
      ensures Matches(after) && after.db == s.db && Stands(after, me, Sending(job, index + 1, again)) && Reaches(e, me, s0, after)
    {
      hide Reaches, TaskQueue.Declared;
      after := PublishPath(s0, s, me, Sending(job, index, again));
      hide ProducerStep;
      channel.Publish(Task(job, index, doc, doc.file, ranges[index], |ranges|, doc.llm, 1));
    }

    /** One of the two loops of `_publish`: one message for every chunk, in order. */
    method TryPublish(job: JobId, doc: DocKey, ranges: seq<PageRange>, again: bool, me: Actor, ghost s0: State) returns (sent: PublishResult, ghost s: State)
      requires Matches(s0) && Stands(s0, me, Sending(job, 0, again)) && Planned(s0.db, job, doc, ranges)
      modifies channel
      ensures Matches(s) && s.db == s0.db && Reaches(e, me, s0, s)
      ensures sent.AllSent? ==> Stands(s, me, Submitted(job)) && job in s.published
      ensures sent.SendingRaises? ==> Stands(s, me, Free)
      ensures sent.ConnectionBroke? ==> !again && Stands(s, me, Sending(job, 0, true))
      ensures (forall producer :: !me.fails(producer)) ==> !sent.SendingRaises?
    {
      hide Reaches, TaskQueue.Declared;
      ReachesItself(e, me, s0);
      s := s0;
      var index := 0;
      while true
        invariant index <= |ranges|
        invariant Matches(s) && s.db == s0.db && Stands(s, me, Sending(job, index, again)) && Reaches(e, me, s0, s)
        decreases |ranges| - index
      {
        var producer := Sending(job, index, again);
        if me.fails(producer) {
          s := Raise(s0, s, me, producer);
          return SendingRaises, s;
        }
        if !again && me.breakAt == Some(index) {
          s := AgainPath(s0, s, me, producer);
          return ConnectionBroke, s;
        }
        if index == |ranges| {
          s := PublishPath(s0, s, me, producer);
          return AllSent, s;
        }
        s := PublishNext(job, doc, ranges, index, again, me, s0, s);
        index := index + 1;
      }
    }

    /** `taskqueue.publish`: a second try on a new connection if the first one breaks. */
    method PublishTasks(job: JobId, doc: DocKey, ranges: seq<PageRange>, me: Actor, ghost s0: State) returns (ok: bool, ghost s: State)
      requires Matches(s0) && Stands(s0, me, Sending(job, 0, false)) && Planned(s0.db, job, doc, ranges)
      modifies channel, channel.broker
      ensures Matches(s) && Reaches(e, me, s0, s)
      ensures if ok then Stands(s, me, Submitted(job)) && job in s.published else Stands(s, me, Free)
      ensures (forall producer :: !me.fails(producer)) ==> ok
    {
      hide Reaches, TaskQueue.Declared;
      var sent;
      sent, s := TryPublish(job, doc, ranges, false, me, s0);
      if sent.ConnectionBroke? {
        channel.Reconnect();
        ghost var s1 := s;
        sent, s := TryPublish(job, doc, ranges, true, me, s);
        ReachesOn(e, me, s0, s1, s);
      }
      ok := sent.AllSent?;
    }

    /** The part of `submit` behind a cache miss. */
    method Enqueue(doc: DocKey, me: Actor, ghost s0: State) returns (ok: bool, total: nat, ghost s: State)
      requires Matches(s0) && Stands(s0, me, Uncached(doc))
      modifies jobs, channel, channel.broker
      ensures Matches(s) && Reaches(e, me, s0, s)
      ensures if ok then total == |Plan(e, doc.file)| && Stands(s, me, Submitted(me.job)) && me.job in s.published else Stands(s, me, Free)
      ensures (forall producer :: !me.fails(producer)) ==> (ok <==> old(me.job !in jobs.jobs && me.job !in jobs.chunks))
    {
      hide Reaches, TaskQueue.Declared;
      ReachesItself(e, me, s0);
      total := 0;
      if me.fails(Uncached(doc)) {
        s := Raise(s0, s0, me, Uncached(doc));
        return false, 0, s;
      }
      var ranges := Chunker.PlanChunks(e.pageCount(doc.file), e.pagesPerChunk, e.minPages).ranges;
      var created := jobs.CreateJob(me.job, doc, doc.file, doc.llm, ranges);
      if !created {
        s := Raise(s0, s0, me, Uncached(doc));
        return false, 0, s;
      }
      ghost var s1 := CreatePath(s0, s0, me, doc);
      total := |ranges|;
      ok, s := PublishTasks(me.job, doc, ranges, me, s1);
      ReachesOn(e, me, s0, s1, s);
    }

    /**
     * `submit`, for a file already downloaded and hashed, and the job id `new_job_id` draws. With no
     * call raising, it is answered from the cache exactly when the document row, the manifest and
     * the first page are all stored, with that page, and then nothing is changed; otherwise a job is
     * accepted, unless its id is in use.
     */
    method Submit(doc: DocKey, me: Actor, ghost s0: State) returns (outcome: Outcome, ghost s: State)
      requires Matches(s0) && Stands(s0, me, Hashed(doc))
      modifies jobs, channel, channel.broker
      ensures Matches(s) && Reaches(e, me, s0, s)
      ensures outcome.Cached? ==> Stands(s, me, Served(doc, outcome.payload)) && jobs.Contents() == old(jobs.Contents()) && channel.ready == old(channel.ready)
      ensures outcome.Accepted? ==> outcome == Accepted(me.job, |Plan(e, doc.file)|) && Stands(s, me, Submitted(me.job)) && me.job in s.published
      ensures outcome.Raises? ==> Stands(s, me, Free)
      ensures (forall producer :: !me.fails(producer)) ==>
        && (outcome.Cached? <==> InCache(old(jobs.Contents()), old(store.objects), doc))
        && (outcome.Cached? ==> FirstPageOf(old(store.objects), doc, outcome.payload))
        && (outcome.Accepted? <==> !outcome.Cached? && old(me.job !in jobs.jobs && me.job !in jobs.chunks))
    {
      hide Reaches, TaskQueue.Declared, FirstPageOf;
      var found;
      found, s := FindCached(doc, me, s0);
      if found.Hit? {
        outcome := Cached(found.payload);
      } else if found.LookupRaises? {
        outcome := Raises;
      } else {
        ghost var s1 := s;
        var ok, total;
        ok, total, s := Enqueue(doc, me, s1);
        ReachesOn(e, me, s0, s1, s);
        outcome := if ok then Accepted(me.job, total) else Raises;
      }
      if forall producer :: !me.fails(producer) {
        CachedExactlyWhen(e, me, s0, s, doc);
      }
    }
  }
}
