/** jobstore.py in its own form: tables updated in place, every statement proved against Tables.Apply. */
module JobStore {
  import opened Types
  import opened Tables

  datatype Progress = Progress(completed: int, total: nat, percent: int)

  /** `round(n / d)`: the nearest integer, and of two the even one. */
  function RoundHalfEven(n: int, d: nat): int
    requires d >= 1
  {
    var q, twice := n / d, 2 * (n % d);
    if twice < d || (twice == d && q % 2 == 0) then q else q + 1
  }

  /** `r` is the nearest integer to n / d, given `product == r * d`. */
  predicate Nearest(r: int, product: int, n: int, d: int) {
    var off := 2 * (product - n);
    -d <= off <= d && (off == d || off == -d ==> r % 2 == 0)
  }

  lemma Division(n: int, d: nat)
    requires d >= 1
    ensures n / d * d + n % d == n && 0 <= n % d < d
  {
  }

  lemma OneMore(q: int, d: nat)
    ensures (q + 1) * d == q * d + d
  {
  }

  lemma RoundIsNearest(n: int, d: nat)
    requires d >= 1
    ensures Nearest(RoundHalfEven(n, d), RoundHalfEven(n, d) * d, n, d)
  {
    var q, rest := n / d, n % d;
    Division(n, d);
    OneMore(q, d);
    assert RoundHalfEven(n, d) == q || RoundHalfEven(n, d) == q + 1;
  }

  /** Progress shows 100 percent with work left exactly when what is left is at most one in two hundred. */
  lemma HundredWithWorkLeft(total: nat, remaining: nat)
    requires 1 <= remaining <= total
    ensures RoundHalfEven(100 * (total - remaining), total) == 100 <==> 200 * remaining <= total
  {
    var n := 100 * (total - remaining);
    var r := RoundHalfEven(n, total);
    RoundIsNearest(n, total);
    if r >= 101 {
      AtLeast(101, r, total);
    } else if r <= 98 {
      AtLeast(r, 98, total);
    }
    var product := r * total;
    assert r == 99 ==> product == 99 * total;
    assert r == 100 ==> product == 100 * total;
    NearHundred(r, product, total, remaining);
  }

  lemma NearHundred(r: int, product: int, total: nat, remaining: nat)
    requires 1 <= remaining <= total && Nearest(r, product, 100 * (total - remaining), total)
    requires r >= 101 ==> product >= 101 * total
    requires r <= 98 ==> product <= 98 * total
    requires (r == 99 ==> product == 99 * total) && (r == 100 ==> product == 100 * total)
    ensures r == 100 <==> 200 * remaining <= total
  {
  }

  lemma AtLeast(a: int, b: int, d: nat)
    requires a <= b
    ensures a * d <= b * d
  {
  }

  /** Exactly this chunk row has been rewritten. */
  ghost predicate Rewrites(before: map<JobId, seq<ChunkRow>>, after: map<JobId, seq<ChunkRow>>, job: JobId, index: nat, row: ChunkRow) {
    && job in before && index < |before[job]| && after.Keys == before.Keys
    && (forall j :: j in before ==> |after[j]| == |before[j]|)
    && (forall j, i :: j in before && 0 <= i < |before[j]| ==> after[j][i] == if j == job && i == index then row else before[j][i])
  }

  /** Exactly this job row has been rewritten. */
  ghost predicate RewritesJob(before: map<JobId, JobRow>, after: map<JobId, JobRow>, job: JobId, row: JobRow) {
    job in before && after.Keys == before.Keys && forall j :: j in before ==> after[j] == if j == job then row else before[j]
  }

  /** The chunk exists and is not done: what the guarded updates ask for. */
  predicate Open(chunks: map<JobId, seq<ChunkRow>>, job: JobId, index: nat) {
    job in chunks && index < |chunks[job]| && chunks[job][index].status != ChunkDone
  }

  /** The job exists and is neither done nor failed. */
  predicate Unsettled(jobs: map<JobId, JobRow>, job: JobId) {
    job in jobs && jobs[job].status != Done && jobs[job].status != Failed
  }

  class JobStore {
    var jobs: map<JobId, JobRow>
    var chunks: map<JobId, seq<ChunkRow>>
    var documents: map<DocKey, DocRow>

    ghost function Contents(): Db
      reads this
    {
      Db(jobs, chunks, documents)
    }

    constructor ()
      ensures Contents() == Db(map[], map[], map[])
    {
      jobs, chunks, documents := map[], map[], map[];
    }

    /** `create_job`: one transaction inserting the job row and a row for every range, refused for an id in use. */
    method CreateJob(job: JobId, doc: DocKey, file: FileHash, llm: bool, ranges: seq<PageRange>) returns (created: bool)
      modifies this
      ensures created <==> old(job !in jobs && job !in chunks)
      ensures created ==> Contents() == Tables.Apply(old(Contents()), Op.CreateJob(job, doc, file, llm, ranges))
      ensures !created ==> Contents() == old(Contents())
      ensures created ==>
        && jobs == old(jobs)[job := JobRow(doc, file, llm, Queued, |ranges|, |ranges|, None)] && documents == old(documents)
        && job in chunks && |chunks[job]| == |ranges| && chunks == old(chunks)[job := chunks[job]]
        && forall k :: 0 <= k < |ranges| ==> chunks[job][k] == ChunkRow(ranges[k], ChunkPending, 0)
    {
      if job in jobs || job in chunks {
        return false;
      }
      jobs := jobs[job := JobRow(doc, file, llm, Queued, |ranges|, |ranges|, None)];
      var rows: seq<ChunkRow> := [];
      for index := 0 to |ranges|
        invariant |rows| == index
        invariant forall k :: 0 <= k < index ==> rows[k] == ChunkRow(ranges[k], ChunkPending, 0)
      {
        rows := rows + [ChunkRow(ranges[index], ChunkPending, 0)];
      }
      assert rows == NewChunkRows(ranges);
      chunks := chunks[job := rows];
      created := true;
    }

    method GetJob(job: JobId) returns (row: Option<JobRow>)
      ensures row == if job in jobs then Some(jobs[job]) else None
    {
      row := if job in jobs then Some(jobs[job]) else None;
    }

    /** `job_progress`: what has been counted, of how many, and the nearest percentage. */
    method JobProgress(job: JobId) returns (progress: Progress)
      ensures job !in jobs ==> progress == Progress(0, 0, 0)
      ensures job in jobs ==> progress.total == jobs[job].total && progress.completed + jobs[job].remaining == jobs[job].total
      ensures progress.total == 0 ==> progress.percent == 0
      ensures progress.total > 0 ==>
        Nearest(progress.percent, progress.percent * progress.total, 100 * progress.completed, progress.total)
    {
      var row := GetJob(job);
      if row.None? {
        return Progress(0, 0, 0);
      }
      var total := row.value.total;
      var completed := total - row.value.remaining;
      if total == 0 {
        return Progress(completed, 0, 0);
      }
      progress := Progress(completed, total, RoundHalfEven(100 * completed, total));
      RoundIsNearest(100 * completed, total);
    }

    method FinishJob(job: JobId)
      modifies this`jobs
      ensures Contents() == Tables.Apply(old(Contents()), Op.FinishJob(job))
      ensures if job in old(jobs) then RewritesJob(old(jobs), jobs, job, old(jobs)[job].(status := Done)) else jobs == old(jobs)
    {
      if job in jobs {
        jobs := jobs[job := jobs[job].(status := Done)];
      }
    }

    method FailJob(job: JobId, error: JobError)
      modifies this`jobs
      ensures Contents() == Tables.Apply(old(Contents()), Op.FailJob(job, error))
      ensures if old(Unsettled(jobs, job)) then RewritesJob(old(jobs), jobs, job, old(jobs)[job].(status := Failed, error := Some(error)))
              else jobs == old(jobs)
    {
      if job in jobs && jobs[job].status != Done && jobs[job].status != Failed {
        jobs := jobs[job := jobs[job].(status := Failed, error := Some(error))];
      }
    }

    method UpdateChunk(job: JobId, index: nat, row: ChunkRow)
      requires job in chunks && index < |chunks[job]|
      modifies this`chunks
      ensures chunks == old(chunks)[job := old(chunks)[job][index := row]]
    {
      chunks := chunks[job := chunks[job][index := row]];
    }

    /** `start_chunk`: two statements, each on its own. */
    method StartChunk(job: JobId, index: nat, attempt: nat)
      modifies this
      ensures Contents() == Tables.Apply(Tables.Apply(old(Contents()), StartChunkRow(job, index, attempt)), StartJobRow(job))
    {
      StartRow(job, index, attempt);
      StartJob(job);
    }

    method StartRow(job: JobId, index: nat, attempt: nat)
      modifies this`chunks
      ensures Contents() == Tables.Apply(old(Contents()), StartChunkRow(job, index, attempt))
      ensures if old(Open(chunks, job, index))
              then Rewrites(old(chunks), chunks, job, index, ChunkRow(old(chunks)[job][index].range, ChunkRunning, attempt))
              else chunks == old(chunks)
    {
      if job in chunks && index < |chunks[job]| && chunks[job][index].status != ChunkDone {
        UpdateChunk(job, index, chunks[job][index].(status := ChunkRunning, attempts := attempt));
      }
    }

    method StartJob(job: JobId)
      modifies this`jobs
      ensures Contents() == Tables.Apply(old(Contents()), StartJobRow(job))
      ensures if job in old(jobs) && old(jobs)[job].status == Queued
              then RewritesJob(old(jobs), jobs, job, old(jobs)[job].(status := Running))
              else jobs == old(jobs)
    {
      if job in jobs && jobs[job].status == Queued {
        jobs := jobs[job := jobs[job].(status := Running)];
      }
    }

    method FailChunk(job: JobId, index: nat)
      modifies this`chunks
      ensures Contents() == Tables.Apply(old(Contents()), Op.FailChunk(job, index))
      ensures if job in old(chunks) && index < |old(chunks)[job]|
              then Rewrites(old(chunks), chunks, job, index, ChunkRow(old(chunks)[job][index].range, ChunkFailed, old(chunks)[job][index].attempts))
              else chunks == old(chunks)
    {
      if job in chunks && index < |chunks[job]| {
        UpdateChunk(job, index, chunks[job][index].(status := ChunkFailed));
      }
    }

    method RescheduleChunk(job: JobId, index: nat)
      modifies this`chunks
      ensures Contents() == Tables.Apply(old(Contents()), Op.RescheduleChunk(job, index))
      ensures if old(Open(chunks, job, index))
              then Rewrites(old(chunks), chunks, job, index, ChunkRow(old(chunks)[job][index].range, ChunkPending, old(chunks)[job][index].attempts))
              else chunks == old(chunks)
    {
      if job in chunks && index < |chunks[job]| && chunks[job][index].status != ChunkDone {
        UpdateChunk(job, index, chunks[job][index].(status := ChunkPending));
      }
    }

    /** `complete_chunk`: one transaction; a second completion of the same chunk changes nothing. */
    method CompleteChunk(job: JobId, index: nat) returns (remaining: int)
      modifies this
      ensures Contents() == Tables.Apply(old(Contents()), Op.CompleteChunk(job, index))
      ensures remaining == CompleteResult(old(Contents()), job, index)
      ensures remaining == 0 ==> job in jobs && jobs[job].remaining == 0 && old(Active(Contents(), job))
      ensures documents == old(documents)
      ensures if !old(Open(chunks, job, index)) then remaining == -2 && chunks == old(chunks) && jobs == old(jobs)
              else
                && Rewrites(old(chunks), chunks, job, index, ChunkRow(old(chunks)[job][index].range, ChunkDone, old(chunks)[job][index].attempts))
                && if !old(Unsettled(jobs, job)) then remaining == -1 && jobs == old(jobs)
                   else
                     && remaining == old(jobs)[job].remaining - 1
                     && RewritesJob(old(jobs), jobs, job, old(jobs)[job].(status := Running, remaining := old(jobs)[job].remaining - 1))
    {
      var changes := 0;
      if job in chunks && index < |chunks[job]| && chunks[job][index].status != ChunkDone {
        UpdateChunk(job, index, chunks[job][index].(status := ChunkDone));
        changes := 1;
      }
      if changes == 0 {
        return CHUNK_ALREADY_DONE;
      }
      if job in jobs && jobs[job].status != Done && jobs[job].status != Failed {
        jobs := jobs[job := jobs[job].(remaining := jobs[job].remaining - 1, status := Running)];
        return jobs[job].remaining;
      }
      remaining := JOB_ALREADY_TERMINAL;
    }

    method RecordDocument(doc: DocKey, row: DocRow)
      modifies this`documents
      ensures Contents() == Tables.Apply(old(Contents()), Op.RecordDocument(doc, row))
      ensures documents == old(documents)[doc := row]
    {
      documents := documents[doc := row];
    }

    /** `chunk_indices`: every chunk index of the job, in order. */
    method ChunkIndices(job: JobId) returns (indices: seq<nat>)
      ensures |indices| == if job in chunks then |chunks[job]| else 0
      ensures forall k :: 0 <= k < |indices| ==> indices[k] == k
    {
      indices := [];
      if job in chunks {
        for k := 0 to |chunks[job]|
          invariant |indices| == k
          invariant forall m :: 0 <= m < k ==> indices[m] == m
        {
          indices := indices + [k];
        }
      }
    }
  }

  /** Completing a chunk twice in a row is completing it once: at-least-once delivery does no harm here. */
  lemma CompleteIsIdempotent(db: Db, job: JobId, index: nat)
    ensures var once := Tables.Apply(db, Op.CompleteChunk(job, index));
      && Tables.Apply(once, Op.CompleteChunk(job, index)) == once
      && CompleteResult(once, job, index) == CHUNK_ALREADY_DONE
  {
  }
}
