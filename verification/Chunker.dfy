/** chunker.py: planning the page ranges a document is split into. */
module Chunker {
  import opened Types

  /** The single range of a document that is not split. */
  const WHOLE_FILE := PageRange(0, -1)

  datatype Plan = InvalidChunkSize | Ranges(ranges: seq<PageRange>)

  function Min(a: int, b: int): int {
    if a <= b then a else b
  }

  /** One range for every start in `range(start, pages, size)`. */
  function RangesFrom(start: nat, pages: nat, size: nat): seq<PageRange>
    requires size >= 1
    decreases pages - start
  {
    if start >= pages then []
    else [PageRange(start, Min(start + size, pages))] + RangesFrom(start + size, pages, size)
  }

  /** `plan_chunks` */
  function PlanChunks(pages: Option<nat>, pagesPerChunk: int, minPages: int): Plan {
    if pagesPerChunk < 1 then InvalidChunkSize
    else if pages.None? || pages.value < minPages then Ranges([WHOLE_FILE])
    else Ranges(RangesFrom(0, pages.value, pagesPerChunk))
  }

  /** The pages of the source in the given ranges, one range after the other. */
  function Slices<T>(source: seq<T>, ranges: seq<PageRange>): seq<T>
    requires forall r :: r in ranges ==> 0 <= r.start <= r.end <= |source|
  {
    if ranges == [] then []
    else
      assert ranges[0] in ranges;
      source[ranges[0].start..ranges[0].end] + Slices(source, ranges[1..])
  }

  /** Ranges that follow one another from `start` to `pages`, all full-sized but the last, none empty. */
  ghost predicate Partition(ranges: seq<PageRange>, start: nat, pages: nat, size: nat) {
    && (ranges == [] <==> start >= pages)
    && (ranges != [] ==> ranges[0].start == start && ranges[|ranges| - 1].end == pages)
    && (forall k :: 0 <= k < |ranges| ==> 0 <= ranges[k].start < ranges[k].end <= pages)
    && (forall k :: 0 < k < |ranges| ==> ranges[k - 1].end == ranges[k].start)
    && (forall k :: 0 <= k < |ranges| - 1 ==> ranges[k].end - ranges[k].start == size)
    && (ranges != [] ==> ranges[|ranges| - 1].end - ranges[|ranges| - 1].start <= size)
  }

  lemma {:induction false} RangesPartition(start: nat, pages: nat, size: nat)
    requires size >= 1
    ensures Partition(RangesFrom(start, pages, size), start, pages, size)
    decreases pages - start
  {
    if start < pages {
      RangesPartition(start + size, pages, size);
      var rest := RangesFrom(start + size, pages, size);
      var all := RangesFrom(start, pages, size);
      assert all == [PageRange(start, Min(start + size, pages))] + rest;
      assert forall k :: 0 < k < |all| ==> all[k] == rest[k - 1];
    }
  }

  /** A partition gives back the source. */
  lemma {:induction false} PartitionSlices<T>(source: seq<T>, ranges: seq<PageRange>, start: nat, size: nat)
    requires start <= |source| && Partition(ranges, start, |source|, size)
    ensures Slices(source, ranges) == source[start..]
    decreases |ranges|
  {
    if ranges != [] {
      var r := ranges[0];
      var rest := ranges[1..];
      assert forall k :: 0 <= k < |rest| ==> rest[k] == ranges[k + 1];
      assert Partition(rest, r.end, |source|, size) by {
        if rest != [] {
          assert ranges[0].end == ranges[1].start;
          assert rest[|rest| - 1] == ranges[|ranges| - 1];
        }
        forall k | 0 < k < |rest| ensures rest[k - 1].end == rest[k].start {
          assert ranges[k].end == ranges[k + 1].start;
        }
      }
      PartitionSlices(source, rest, r.end, size);
      assert source[start..] == source[start..r.end] + source[r.end..];
    }
  }

  /** As many ranges as it takes: ceil(left / size). */
  lemma {:induction false} RangesCount(start: nat, pages: nat, size: nat)
    requires size >= 1 && start < pages
    ensures var n := |RangesFrom(start, pages, size)|; (n - 1) * size < pages - start <= n * size
    decreases pages - start
  {
    var n := |RangesFrom(start, pages, size)|;
    if start + size < pages {
      RangesCount(start + size, pages, size);
      assert (n - 1) * size == (n - 2) * size + size && n * size == (n - 1) * size + size;
    } else {
      assert RangesFrom(start + size, pages, size) == [];
    }
  }

  /**
   * The plan: refused for a chunk size below one; otherwise the whole-file marker alone, or
   * consecutive non-empty ranges that cover every page once, all full but the last, as few as
   * the chunk size allows, whose slices put together are the source.
   */
  lemma PlanIsPartition<T>(source: seq<T>, pagesPerChunk: int, minPages: int)
    ensures PlanChunks(None, pagesPerChunk, minPages) ==
            if pagesPerChunk < 1 then InvalidChunkSize else Ranges([PageRange(0, -1)])
    ensures var plan := PlanChunks(Some(|source|), pagesPerChunk, minPages);
      && (plan.InvalidChunkSize? <==> pagesPerChunk < 1)
      && (pagesPerChunk >= 1 ==>
            if |source| < minPages then plan.ranges == [PageRange(0, -1)]
            else
              && Partition(plan.ranges, 0, |source|, pagesPerChunk)
              && (source != [] ==> (|plan.ranges| - 1) * pagesPerChunk < |source| <= |plan.ranges| * pagesPerChunk)
              && Slices(source, plan.ranges) == source)
  {
    if pagesPerChunk >= 1 {
      RangesPartition(0, |source|, pagesPerChunk);
      if source != [] {
        RangesCount(0, |source|, pagesPerChunk);
      }
      PartitionSlices(source, RangesFrom(0, |source|, pagesPerChunk), 0, pagesPerChunk);
      assert source[0..] == source;
    }
  }

  /** A plan with no chunk at all: exactly a document of zero pages under a threshold below one. */
  lemma PlanIsEmpty(pages: Option<nat>, pagesPerChunk: int, minPages: int)
    requires pagesPerChunk >= 1
    ensures PlanChunks(pages, pagesPerChunk, minPages).ranges == [] <==> pages == Some(0) && minPages <= 0
  {
    if pages.Some? {
      RangesPartition(0, pages.value, pagesPerChunk);
    }
  }
}
