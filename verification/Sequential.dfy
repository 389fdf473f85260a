/**
 * The reference the distributed service is measured against: one process converting one
 * document from start to end.
 */
module Sequential {
  import opened Types
  import opened Text
  import Chunker
  import Pagination
  import PageLayout

  /** What is fixed for a deployment: the converter, the page counter and the settings. */
  datatype Deployment = Deployment(
    convert: (FileHash, PageRange, bool) -> string,
    pageCount: FileHash -> Option<nat>,
    pageSize: int,
    pagesPerChunk: int,
    minPages: int,
    maxAttempts: int,
    retryTiers: nat)

  /** A deployment whose page and chunk sizes are usable. */
  type Setup = e: Deployment | e.pageSize >= 1 && e.pagesPerChunk >= 1
    witness Deployment((_, _, _) => "", _ => None, 1, 1, 1, 1, 1)

  function Plan(e: Setup, file: FileHash): seq<PageRange> {
    Chunker.PlanChunks(e.pageCount(file), e.pagesPerChunk, e.minPages).ranges
  }

  /** The conversion of one chunk of a document. */
  function ChunkText(e: Setup, doc: DocKey, index: nat): string
    requires index < |Plan(e, doc.file)|
  {
    e.convert(doc.file, Plan(e, doc.file)[index], doc.llm)
  }

  /** The conversions of the first `n` chunks, in chunk order. */
  function Parts(e: Setup, doc: DocKey, n: nat): (parts: seq<string>)
    requires n <= |Plan(e, doc.file)|
    ensures |parts| == n
    ensures forall k :: 0 <= k < n ==> parts[k] == ChunkText(e, doc, k)
  {
    if n == 0 then [] else Parts(e, doc, n - 1) + [ChunkText(e, doc, n - 1)]
  }

  /** The parts that hold something, in order. */
  function NonBlank(parts: seq<string>): seq<string> {
    if parts == [] then []
    else NonBlank(parts[..|parts| - 1]) +
         if IsBlank(parts[|parts| - 1]) then [] else [parts[|parts| - 1]]
  }

  /** Parts put together: joined by blank lines, blank parts left out. */
  function Assembled(parts: seq<string>): string {
    Join(NonBlank(parts))
  }

  function Markdown(e: Setup, doc: DocKey): string {
    Assembled(Parts(e, doc, |Plan(e, doc.file)|))
  }

  function Pages(e: Setup, doc: DocKey): seq<string> {
    Pagination.Paginated(Markdown(e, doc), e.pageSize)
  }

  // ---- What the document is, apart from these definitions ----

  /** The texts at the given places. */
  function Picked(parts: seq<string>, places: seq<nat>): (texts: seq<string>)
    requires forall i :: 0 <= i < |places| ==> places[i] < |parts|
    ensures |texts| == |places| && forall i :: 0 <= i < |places| ==> texts[i] == parts[places[i]]
  {
    seq(|places|, i requires 0 <= i < |places| => parts[places[i]])
  }

  /** In ascending order, exactly the places of the texts that hold something. */
  ghost predicate Inked(parts: seq<string>, places: seq<nat>) {
    && Ascending(places)
    && (forall i :: 0 <= i < |places| ==> places[i] < |parts| && !IsBlank(parts[places[i]]))
    && (forall k: nat :: k < |parts| && !IsBlank(parts[k]) ==> k in places)
  }

  predicate Ascending(places: seq<nat>) {
    forall i, k :: 0 <= i < k < |places| ==> places[i] < places[k]
  }

  lemma {:induction false} NonBlankIs(parts: seq<string>) returns (places: seq<nat>)
    ensures Inked(parts, places) && NonBlank(parts) == Picked(parts, places)
  {
    hide IsBlank, Ascending;
    if parts == [] {
      places := [];
      NothingInked();
    } else {
      var n := |parts| - 1;
      var front := NonBlankIs(parts[..n]);
      assert parts[..n] + [parts[n]] == parts;
      InkedSnoc(parts[..n], parts[n], front);
      places := if IsBlank(parts[n]) then front else front + [n];
      assert NonBlank(parts) == NonBlank(parts[..n]) + if IsBlank(parts[n]) then [] else [parts[n]];
    }
  }

  lemma NothingInked()
    ensures Inked([], []) && Picked([], []) == [] && NonBlank([]) == []
  {
  }

  lemma InkedSnoc(parts: seq<string>, part: string, front: seq<nat>)
    requires Inked(parts, front)
    ensures var places := if IsBlank(part) then front else front + [|parts|];
      && Inked(parts + [part], places)
      && Picked(parts + [part], places) == Picked(parts, front) + if IsBlank(part) then [] else [part]
  {
    hide IsBlank;
    SamePicked(parts, part, front);
    EveryInkedPlace(parts, part, front);
    OnlyInkedPlaces(parts, part, front);
    if !IsBlank(part) {
      AscendingSnoc(front, |parts|);
      hide Inked;
      assert Picked(parts + [part], front + [|parts|]) == Picked(parts + [part], front) + [part];
    }
  }

  lemma AscendingSnoc(places: seq<nat>, n: nat)
    requires Ascending(places) && forall i :: 0 <= i < |places| ==> places[i] < n
    ensures Ascending(places + [n])
  {
  }

  lemma OnlyInkedPlaces(parts: seq<string>, part: string, front: seq<nat>)
    requires Inked(parts, front)
    ensures var all, places := parts + [part], if IsBlank(part) then front else front + [|parts|];
      forall i :: 0 <= i < |places| ==> places[i] < |all| && !IsBlank(all[places[i]])
  {
    hide IsBlank, Ascending;
    var all, places := parts + [part], if IsBlank(part) then front else front + [|parts|];
    forall i | 0 <= i < |places| ensures places[i] < |all| && !IsBlank(all[places[i]]) {
      if i < |front| {
        assert places[i] == front[i] && all[front[i]] == parts[front[i]];
      } else {
        assert all[places[i]] == part;
      }
    }
  }

  lemma SamePicked(parts: seq<string>, part: string, places: seq<nat>)
    requires forall i :: 0 <= i < |places| ==> places[i] < |parts|
    ensures Picked(parts + [part], places) == Picked(parts, places)
  {
  }

  lemma EveryInkedPlace(parts: seq<string>, part: string, front: seq<nat>)
    requires Inked(parts, front)
    ensures var all, places := parts + [part], if IsBlank(part) then front else front + [|parts|];
      forall k: nat :: k < |all| && !IsBlank(all[k]) ==> k in places
  {
    hide IsBlank, Ascending;
    var all, places := parts + [part], if IsBlank(part) then front else front + [|parts|];
    forall k: nat | k < |all| && !IsBlank(all[k]) ensures k in places {
      if k < |parts| {
        assert all[k] == parts[k];
        assert k in front;
      } else {
        assert all[k] == part && places[|front|] == k;
      }
    }
  }

  /**
   * The document: the conversions of the planned ranges in chunk order, those that hold nothing
   * left out, joined by blank lines; all of them where every one holds something.
   */
  lemma MarkdownIs(e: Setup, doc: DocKey, parts: seq<string>) returns (places: seq<nat>)
    requires |parts| == |Plan(e, doc.file)|
    requires forall k :: 0 <= k < |parts| ==> parts[k] == e.convert(doc.file, Plan(e, doc.file)[k], doc.llm)
    ensures Inked(parts, places) && Markdown(e, doc) == Join(Picked(parts, places))
    ensures (forall k :: 0 <= k < |parts| ==> !IsBlank(parts[k])) ==> Markdown(e, doc) == Join(parts)
  {
    hide Join, Plan, IsBlank;
    var all := Parts(e, doc, |Plan(e, doc.file)|);
    forall k | 0 <= k < |parts| ensures all[k] == parts[k] {
      assert all[k] == ChunkText(e, doc, k);
    }
    assert all == parts;
    places := NonBlankIs(parts);
    if forall k :: 0 <= k < |parts| ==> !IsBlank(parts[k]) {
      EveryPlace(parts, places);
    }
  }

  lemma EveryPlace(parts: seq<string>, places: seq<nat>)
    requires Inked(parts, places) && forall k :: 0 <= k < |parts| ==> !IsBlank(parts[k])
    ensures Picked(parts, places) == parts
  {
    hide IsBlank;
    InOrder(places, |parts|);
  }

  /** Ascending places that are all of the first `n` are the first `n`. */
  lemma {:induction false} InOrder(places: seq<nat>, n: nat)
    requires Ascending(places) && (forall i :: 0 <= i < |places| ==> places[i] < n) && forall k: nat :: k < n ==> k in places
    ensures |places| == n && forall i :: 0 <= i < n ==> places[i] == i
  {
    if places == [] {
      assert n > 0 ==> 0 in places;
    } else {
      var m := |places| - 1;
      assert places[m] < n;
      var last: nat := n - 1;
      assert last in places;
      assert places[m] == last;
      forall k: nat | k < last ensures k in places[..m] {
        assert k in places;
      }
      InOrder(places[..m], last);
    }
  }

  /** The plan of a document: the whole file, or a partition of its pages. */
  lemma PlanIs(e: Setup, file: FileHash)
    ensures var pages := e.pageCount(file);
      if pages.None? || pages.value < e.minPages then Plan(e, file) == [PageRange(0, -1)]
      else Chunker.Partition(Plan(e, file), 0, pages.value, e.pagesPerChunk)
  {
    if e.pageCount(file).Some? {
      Chunker.RangesPartition(0, e.pageCount(file).value, e.pagesPerChunk);
    }
  }

  /** Pages are never none. */
  lemma SomePage(e: Setup, doc: DocKey)
    ensures |Pages(e, doc)| >= 1
  {
    PageLayout.PagesAreTight(Markdown(e, doc), e.pageSize);
  }

  lemma {:induction false} JoinInk(texts: seq<string>)
    ensures Ink(Join(texts)) == Ink(Concat(texts))
  {
    var n := |texts| - 1;
    if n == 0 {
      assert Concat(texts) == Concat(texts[..0]) + texts[0] == texts[0];
    } else if n > 0 {
      JoinInk(texts[..n]);
      InkSep();
      InkConcat(Join(texts[..n]) + SEP, texts[n]);
      InkConcat(Join(texts[..n]), SEP);
      InkConcat(Concat(texts[..n]), texts[n]);
    }
  }

  lemma {:induction false} NonBlankInk(parts: seq<string>)
    ensures Ink(Concat(NonBlank(parts))) == Ink(Concat(parts))
  {
    if parts != [] {
      var n := |parts| - 1;
      var front := NonBlank(parts[..n]);
      NonBlankInk(parts[..n]);
      InkConcat(Concat(parts[..n]), parts[n]);
      InkBlank(parts[n]);
      if IsBlank(parts[n]) {
        assert NonBlank(parts) == front;
      } else {
        ConcatSnoc(front, parts[n]);
        InkConcat(Concat(front), parts[n]);
      }
    }
  }

  /** Apart from whitespace, the pages of a document are its chunk conversions in chunk order. */
  lemma PagesAreTheChunks(e: Setup, doc: DocKey)
    ensures Ink(Concat(Pages(e, doc))) == Ink(Concat(Parts(e, doc, |Plan(e, doc.file)|)))
  {
    var parts := Parts(e, doc, |Plan(e, doc.file)|);
    PageLayout.PagesKeepTheInk(Markdown(e, doc), e.pageSize);
    JoinInk(NonBlank(parts));
    NonBlankInk(parts);
  }
}
