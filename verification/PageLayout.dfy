/**
 * What the pages of a text are, for every text and every page size of at least one:
 * nothing but blank-line separators is lost, every page fits and no two neighbours could
 * share a page, short blocks stay whole, and no other arrangement needs fewer pages.
 */
module PageLayout {
  import opened Text
  import opened Pagination

  // ---- Conservation ----

  /** The blocks in order; the separator of gap `k` is written only where `kept[k]`. */
  function Weave(blocks: seq<string>, kept: seq<bool>): string
    requires |kept| == |blocks| - 1
  {
    var n := |blocks| - 1;
    if n == 0 then blocks[0]
    else Weave(blocks[..n], kept[..n - 1]) + (if kept[n - 1] then SEP else "") + blocks[n]
  }

  /** How many gaps lost their separator. */
  function Dropped(kept: seq<bool>): nat {
    if kept == [] then 0
    else Dropped(kept[..|kept| - 1]) + if kept[|kept| - 1] then 0 else 1
  }

  /** Everything the packer holds, in order. */
  function Held(p: Packer): string {
    Concat(p.pages) + p.current
  }

  lemma {:induction false} CutHeld(p: Packer, block: string, size: nat)
    requires size >= 1
    ensures var (q, rest) := Cut(p, block, size); Held(q) + rest == Held(p) + block
    ensures var (q, rest) := Cut(p, block, size); |block| > size ==> q.current == ""
    decreases |block|
  {
    if |block| > size {
      var f := Flush(p);
      if p.current != "" {
        ConcatSnoc(p.pages, p.current);
      }
      assert Concat(f.pages) == Held(p);
      ConcatSnoc(f.pages, block[..size]);
      var next := Packer(f.pages + [block[..size]], "");
      assert Held(next) == Held(p) + block[..size];
      CutHeld(next, block[size..], size);
      hide Held;
      Rejoin(Held(p), block, size);
    }
  }

  lemma Rejoin(held: string, block: string, size: nat)
    requires size <= |block|
    ensures (held + block[..size]) + block[size..] == held + block
  {
    assert block[..size] + block[size..] == block;
    assert (held + block[..size]) + block[size..] == held + (block[..size] + block[size..]);
  }

  /** A block is added right behind what is held, with a separator or without. */
  lemma AddBlockHeld(p: Packer, block: string, size: nat) returns (kept: bool)
    requires size >= 1
    ensures Held(AddBlock(p, block, size)) == Held(p) + (if kept then SEP else "") + block
    ensures p.current == "" ==> !kept
  {
    var (q, rest) := Cut(p, block, size);
    CutHeld(p, block, size);
    kept := q.current != "" && |q.current + SEP + rest| <= size;
    if q.current == "" {
      assert Held(p) + "" + block == Held(p) + block;
    } else if kept {
      assert q == p && rest == block;
      assert Held(p) + SEP + block == Concat(p.pages) + (p.current + SEP + block);
    } else {
      ConcatSnoc(q.pages, q.current);
      assert Held(p) + "" + block == Held(p) + block;
    }
  }

  lemma {:induction false} PackHeld(blocks: seq<string>, size: nat) returns (kept: seq<bool>)
    requires size >= 1 && |blocks| >= 1
    ensures |kept| == |blocks| - 1
    ensures Held(Pack(blocks, size)) == Weave(blocks, kept)
  {
    var n := |blocks| - 1;
    var last := AddBlockHeld(Pack(blocks[..n], size), blocks[n], size);
    if n == 0 {
      kept := [];
      assert Held(Packer([], "")) + "" + blocks[0] == blocks[0];
    } else {
      var front := PackHeld(blocks[..n], size);
      kept := front + [last];
      assert kept[..n - 1] == front;
    }
  }

  lemma CloseHeld(p: Packer)
    ensures Concat(Close(p)) == Held(p)
  {
    ConcatSnoc(p.pages, p.current);
    if p.current == "" {
      assert Held(p) == Concat(p.pages);
    }
  }

  lemma {:induction false} WeaveLength(blocks: seq<string>, kept: seq<bool>)
    requires |kept| == |blocks| - 1
    ensures |Weave(blocks, kept)| + 2 * Dropped(kept) == |Join(blocks)|
  {
    var n := |blocks| - 1;
    if n > 0 {
      WeaveLength(blocks[..n], kept[..n - 1]);
    }
  }

  /**
   * Conservation: the pages one after the other are the blocks in order, each gap keeping or
   * losing its blank line and nothing else changed, so the length lost is twice the gaps dropped.
   */
  lemma Conservation(content: string, size: nat) returns (kept: seq<bool>)
    requires size >= 1
    ensures |kept| == |Split(content)| - 1
    ensures Concat(Paginated(content, size)) == Weave(Split(content), kept)
    ensures |content| == TotalLength(Paginated(content, size)) + 2 * Dropped(kept)
  {
    var pages := Paginated(content, size);
    if content == "" {
      kept := [];
      ConcatSnoc([], "");
      assert [] + [""] == pages;
    } else {
      kept := PackHeld(Split(content), size);
      CloseHeld(Pack(Split(content), size));
    }
    WeaveLength(Split(content), kept);
    JoinSplit(content);
    ConcatLength(pages);
  }

  lemma {:induction false} WeaveInk(blocks: seq<string>, kept: seq<bool>)
    requires |kept| == |blocks| - 1
    ensures Ink(Weave(blocks, kept)) == Ink(Join(blocks))
  {
    var n := |blocks| - 1;
    if n > 0 {
      WeaveInk(blocks[..n], kept[..n - 1]);
      InkSep();
      var gap := if kept[n - 1] then SEP else "";
      InkConcat(Weave(blocks[..n], kept[..n - 1]) + gap, blocks[n]);
      InkConcat(Weave(blocks[..n], kept[..n - 1]), gap);
      InkConcat(Join(blocks[..n]) + SEP, blocks[n]);
      InkConcat(Join(blocks[..n]), SEP);
    }
  }

  /** Apart from whitespace, pagination keeps the text exactly. */
  lemma PagesKeepTheInk(content: string, size: nat)
    requires size >= 1
    ensures Ink(Concat(Paginated(content, size))) == Ink(content)
  {
    var kept := Conservation(content, size);
    WeaveInk(Split(content), kept);
    JoinSplit(content);
  }

  // ---- Bounds ----

  /** Two neighbouring pages whose texts, joined, would not fit one page. */
  predicate Apart(a: string, b: string, size: nat) {
    |a| + |SEP| + |b| > size
  }

  ghost predicate Tight(pages: seq<string>, size: nat) {
    && (forall k :: 0 <= k < |pages| ==> 1 <= |pages[k]| <= size)
    && (forall k :: 0 < k < |pages| ==> Apart(pages[k - 1], pages[k], size))
  }

  ghost predicate PackerTight(p: Packer, size: nat) {
    && Tight(p.pages, size)
    && |p.current| <= size
    && (|p.pages| > 0 ==> Apart(p.pages[|p.pages| - 1], p.current, size))
  }

  lemma TightSnoc(pages: seq<string>, page: string, size: nat)
    requires Tight(pages, size) && 1 <= |page| <= size
    requires |pages| > 0 ==> Apart(pages[|pages| - 1], page, size)
    ensures Tight(pages + [page], size)
  {
  }

  lemma {:induction false} CutTight(p: Packer, block: string, size: nat)
    requires size >= 1 && PackerTight(p, size)
    ensures var (q, rest) := Cut(p, block, size); PackerTight(q, size) && |rest| <= size
    decreases |block|
  {
    if |block| > size {
      if p.current != "" {
        TightSnoc(p.pages, p.current, size);
      }
      var f := Flush(p);
      TightSnoc(f.pages, block[..size], size);
      CutTight(Packer(f.pages + [block[..size]], ""), block[size..], size);
    }
  }

  lemma AddBlockTight(p: Packer, block: string, size: nat)
    requires size >= 1 && PackerTight(p, size)
    ensures PackerTight(AddBlock(p, block, size), size)
  {
    CutTight(p, block, size);
    var (q, rest) := Cut(p, block, size);
    if q.current != "" {
      TightSnoc(q.pages, q.current, size);
    }
  }

  lemma {:induction false} PackTight(blocks: seq<string>, size: nat)
    requires size >= 1
    ensures PackerTight(Pack(blocks, size), size)
  {
    if blocks != [] {
      PackTight(blocks[..|blocks| - 1], size);
      AddBlockTight(Pack(blocks[..|blocks| - 1], size), blocks[|blocks| - 1], size);
    }
  }

  /** There is at least one page; it is alone and empty, or every page is non-empty, fits, and could not be merged with its neighbour. */
  lemma PagesAreTight(content: string, size: nat)
    requires size >= 1
    ensures var pages := Paginated(content, size);
      pages == [""] || (pages != [] && Tight(pages, size))
  {
    if content != "" {
      var p := Pack(Split(content), size);
      PackTight(Split(content), size);
      if p.current != "" {
        TightSnoc(p.pages, p.current, size);
      } else if p.pages == [] {
        assert Close(p) == [""];
      }
    }
  }

  lemma {:induction false} TightTotal(pages: seq<string>, size: nat)
    requires Tight(pages, size)
    ensures |pages| / 2 * (size - 1) <= TotalLength(pages)
  {
    var n := |pages|;
    if n >= 2 {
      var front := pages[..n - 2];
      assert Tight(front, size);
      TightTotal(front, size);
      assert pages[..n - 1][..n - 2] == front;
      assert Apart(pages[n - 2], pages[n - 1], size);
      assert TotalLength(pages) == TotalLength(front) + |pages[n - 2]| + |pages[n - 1]|;
      HalfOfTwoMore(n - 2, size - 1);
    }
  }

  lemma HalfOfTwoMore(n: nat, d: int)
    ensures (n + 2) / 2 * d == n / 2 * d + d
  {
    var h := n / 2;
    assert (n + 2) / 2 == h + 1;
    assert (h + 1) * d == h * d + d;
  }

  /** The number of pages is at most about twice what the length of the text forces. */
  lemma PageCountBound(content: string, size: nat)
    requires size >= 1
    ensures |Paginated(content, size)| / 2 * (size - 1) <= |content|
  {
    PagesAreTight(content, size);
    var kept := Conservation(content, size);
    var pages := Paginated(content, size);
    if pages == [""] {
      assert |pages| / 2 == 0;
    } else {
      TightTotal(pages, size);
    }
  }

  // ---- Blocks stay whole ----

  /** The text `b` stands in the page at offset `o`. */
  predicate StandsAt(b: string, page: string, o: nat) {
    o + |b| <= |page| && page[o..o + |b|] == b
  }

  /** Where a page begins in the text of all pages. */
  function Offset(pages: seq<string>, n: nat): nat
    requires n <= |pages|
  {
    |Concat(pages[..n])|
  }

  /** The block at `start` of the text of all pages lies within page `n`. */
  predicate Spot(b: string, start: int, pages: seq<string>, n: nat) {
    n < |pages| && Offset(pages, n) <= start && StandsAt(b, pages[n], start - Offset(pages, n))
  }

  /** Where block `k` begins in the text the blocks are woven into. */
  function Start(blocks: seq<string>, kept: seq<bool>, k: nat): int
    requires k < |blocks| == |kept| + 1
  {
    |Weave(blocks[..k + 1], kept[..k])| - |blocks[k]|
  }

  /** The full-page pieces cut off a long block ... */
  function Pieces(b: string, size: nat): seq<string>
    requires size >= 1
    decreases |b|
  {
    if |b| <= size then [] else [b[..size]] + Pieces(b[size..], size)
  }

  /** ... and what is left of it. */
  function Remainder(b: string, size: nat): string
    requires size >= 1
    decreases |b|
  {
    if |b| <= size then b else Remainder(b[size..], size)
  }

  lemma ConcatCons(t: string, texts: seq<string>)
    ensures Concat([t] + texts) == t + Concat(texts)
  {
    var all := [t] + texts;
    if texts == [] {
      assert all[..0] == [];
    } else {
      ConcatCons(t, texts[..|texts| - 1]);
      assert all[..|all| - 1] == [t] + texts[..|texts| - 1];
    }
  }

  lemma Regroup(b: string, size: nat, middle: string, end: string)
    requires size <= |b| && middle + end == b[size..]
    ensures (b[..size] + middle) + end == b
  {
    assert (b[..size] + middle) + end == b[..size] + (middle + end);
  }

  lemma {:induction false} PiecesJoin(b: string, size: nat)
    requires size >= 1
    ensures Concat(Pieces(b, size)) + Remainder(b, size) == b
    decreases |b|
  {
    if |b| > size {
      var head, rest := b[..size], b[size..];
      assert Pieces(b, size) == [head] + Pieces(rest, size) && Remainder(b, size) == Remainder(rest, size);
      hide Concat, Pieces, Remainder;
      PiecesJoin(rest, size);
      ConcatCons(head, Pieces(rest, size));
      Regroup(b, size, Concat(Pieces(rest, size)), Remainder(rest, size));
    }
  }

  lemma {:induction false} RemainderFits(b: string, size: nat)
    requires size >= 1
    ensures |Remainder(b, size)| <= size && (b != "" ==> Remainder(b, size) != "")
    decreases |b|
  {
    if |b| > size {
      RemainderFits(b[size..], size);
    }
  }

  lemma {:induction false} PiecesAreFull(b: string, size: nat)
    requires size >= 1
    ensures forall k :: 0 <= k < |Pieces(b, size)| ==> |Pieces(b, size)[k]| == size
    ensures |b| > size ==> Pieces(b, size) != []
    decreases |b|
  {
    if |b| > size {
      PiecesAreFull(b[size..], size);
    }
  }

  /** Pieces and remainder together are the block: full pieces, and a non-empty remainder that fits. */
  lemma PiecesOfBlock(b: string, size: nat)
    requires size >= 1
    ensures Concat(Pieces(b, size)) + Remainder(b, size) == b
    ensures forall k :: 0 <= k < |Pieces(b, size)| ==> |Pieces(b, size)[k]| == size
    ensures |Remainder(b, size)| <= size && (b != "" ==> Remainder(b, size) != "")
    ensures |b| > size ==> Pieces(b, size) != []
  {
    hide Concat, Pieces, Remainder;
    PiecesJoin(b, size);
    PiecesAreFull(b, size);
    RemainderFits(b, size);
  }

  /** From page `at` on, the block fills whole pages in order and its remainder opens the page after them. */
  ghost predicate Sliced(b: string, pages: seq<string>, at: nat, size: nat)
    requires size >= 1
  {
    var n := at + |Pieces(b, size)|;
    n < |pages| && pages[at..n] == Pieces(b, size) && Remainder(b, size) <= pages[n]
  }

  /** Where the block at `start` has gone: whole inside one page, or cut into pages of its own from there on. */
  ghost predicate Kept(b: string, start: int, pages: seq<string>, size: nat)
    requires size >= 1
  {
    if |b| <= size then exists n: nat :: Spot(b, start, pages, n)
    else exists at: nat :: Sliced(b, pages, at, size) && Offset(pages, at) == start
  }

  /** Where block `k` ends, and the gap behind it begins. */
  function End(blocks: seq<string>, kept: seq<bool>, k: nat): nat
    requires k < |blocks| == |kept| + 1
  {
    |Weave(blocks[..k + 1], kept[..k])|
  }

  /** One page ends and the next begins here, or the text begins or ends. */
  ghost predicate BreakAt(pages: seq<string>, x: nat) {
    exists n: nat :: n <= |pages| && Offset(pages, n) == x
  }

  /** A gap that keeps its separator has it in the midst of a page; any other is the beginning of a page. */
  ghost predicate GapOk(pages: seq<string>, x: nat, kept: bool) {
    if kept then exists n: nat :: Spot(SEP, x, pages, n) && Offset(pages, n) < x
    else exists n: nat :: n < |pages| && Offset(pages, n) == x
  }

  /** The pages with the current page behind them. */
  function View(p: Packer): seq<string> {
    p.pages + [p.current]
  }

  /** A later view grows out of an earlier one: closed pages stay, the open page is only extended. */
  predicate Grows(earlier: seq<string>, later: seq<string>) {
    && 1 <= |earlier| <= |later|
    && earlier[..|earlier| - 1] == later[..|earlier| - 1]
    && earlier[|earlier| - 1] <= later[|earlier| - 1]
  }

  lemma GrowsAt(a: seq<string>, c: seq<string>, n: nat)
    requires Grows(a, c) && n < |a|
    ensures a[n] <= c[n]
    ensures n < |a| - 1 ==> a[n] == c[n]
  {
    if n < |a| - 1 {
      assert a[n] == a[..|a| - 1][n] == c[..|a| - 1][n];
    }
  }

  lemma SlicedGrows(b: string, a: seq<string>, c: seq<string>, at: nat, size: nat)
    requires size >= 1 && Sliced(b, a, at, size) && Grows(a, c)
    ensures Sliced(b, c, at, size)
  {
    var n := at + |Pieces(b, size)|;
    GrowsAt(a, c, n);
    forall k | at <= k < n ensures a[k] == c[k] {
      GrowsAt(a, c, k);
    }
    assert a[at..n] == c[at..n];
  }

  lemma OffsetGrows(a: seq<string>, c: seq<string>, n: nat)
    requires Grows(a, c) && n < |a|
    ensures Offset(a, n) == Offset(c, n)
  {
    assert a[..n] == a[..|a| - 1][..n] == c[..|a| - 1][..n] == c[..n];
  }

  lemma SpotGrows(b: string, start: int, a: seq<string>, c: seq<string>, n: nat)
    requires Spot(b, start, a, n) && Grows(a, c)
    ensures Spot(b, start, c, n) && Offset(a, n) == Offset(c, n)
  {
    hide Concat;
    GrowsAt(a, c, n);
    OffsetGrows(a, c, n);
    var o := start - Offset(a, n);
    assert c[n][..|a[n]|][o..o + |b|] == c[n][o..o + |b|];
  }

  lemma GapGrows(x: nat, kept: bool, a: seq<string>, c: seq<string>)
    requires GapOk(a, x, kept) && Grows(a, c)
    ensures GapOk(c, x, kept)
  {
    hide Offset;
    if kept {
      var n: nat :| Spot(SEP, x, a, n) && Offset(a, n) < x;
      SpotGrows(SEP, x, a, c, n);
    } else {
      var n: nat :| n < |a| && Offset(a, n) == x;
      OffsetGrows(a, c, n);
    }
  }

  lemma KeptGrows(b: string, start: int, a: seq<string>, c: seq<string>, size: nat)
    requires size >= 1 && Kept(b, start, a, size) && Grows(a, c)
    ensures Kept(b, start, c, size)
  {
    hide Concat;
    if |b| <= size {
      var n: nat :| Spot(b, start, a, n);
      SpotGrows(b, start, a, c, n);
    } else {
      var at: nat :| Sliced(b, a, at, size) && Offset(a, at) == start;
      SlicedGrows(b, a, c, at, size);
      OffsetGrows(a, c, at);
    }
  }

  /** Cutting leaves the pages of the flushed packer, then the full pieces of the block. */
  lemma {:induction false} CutPieces(p: Packer, block: string, size: nat)
    requires size >= 1 && |block| > size
    ensures Cut(p, block, size) == (Packer(Flush(p).pages + Pieces(block, size), ""), Remainder(block, size))
    decreases |block|
  {
    var f := Flush(p).pages;
    var tail := block[size..];
    var next := Packer(f + [block[..size]], "");
    assert f + ([block[..size]] + Pieces(tail, size)) == (f + [block[..size]]) + Pieces(tail, size);
    if |tail| > size {
      CutPieces(next, tail, size);
    } else {
      assert next.pages + [] == next.pages;
    }
  }

  lemma FlushGrows(p: Packer, later: seq<string>)
    requires |later| > |Flush(p).pages|
    requires later[..|Flush(p).pages|] == Flush(p).pages
    ensures Grows(View(p), later)
  {
    var f := Flush(p).pages;
    var n := |p.pages|;
    assert View(p)[..n] == p.pages;
    assert later[..n] == later[..|f|][..n] == p.pages;
    if p.current != "" {
      assert later[n] == later[..|f|][n];
    }
  }

  lemma PlaceKeeps(p: Packer, block: string, size: nat)
    requires |block| <= size
    ensures var q := Place(p, block, size);
      Grows(View(p), View(q)) && |block| <= |q.current| && StandsAt(block, q.current, |q.current| - |block|)
  {
    var q := Place(p, block, size);
    assert View(p)[..|p.pages|] == p.pages == View(q)[..|p.pages|];
  }

  /** The current page begins behind the closed ones. */
  lemma CurrentOffset(p: Packer)
    ensures Offset(View(p), |p.pages|) + |p.current| == |Held(p)|
  {
    assert View(p)[..|p.pages|] == p.pages;
  }

  /** A block that fits ends up whole at the end of the current page. */
  lemma ShortBlockKeeps(p: Packer, block: string, size: nat)
    requires 1 <= size && |block| <= size
    ensures var q := AddBlock(p, block, size);
      Grows(View(p), View(q)) && Kept(block, |Held(q)| - |block|, View(q), size)
  {
    var q := AddBlock(p, block, size);
    assert q == Place(p, block, size);
    hide Held, Concat, Offset, AddBlock, Place, StandsAt, Grows;
    PlaceKeeps(p, block, size);
    CurrentOffset(q);
    assert View(q)[|q.pages|] == q.current;
    assert Spot(block, |Held(q)| - |block|, View(q), |q.pages|);
  }

  /** A longer one is cut into pages of its own, behind everything that was held. */
  lemma LongBlockKeeps(p: Packer, block: string, size: nat)
    requires 1 <= size < |block|
    ensures var q := AddBlock(p, block, size);
      Grows(View(p), View(q)) && Kept(block, |Held(q)| - |block|, View(q), size)
  {
    hide Concat;
    var q := AddBlock(p, block, size);
    var v, f, pieces := View(q), Flush(p).pages, Pieces(block, size);
    CutPieces(p, block, size);
    RemainderFits(block, size);
    assert q == Packer(f + pieces, Remainder(block, size));
    FlushGrows(p, v);
    assert v[|f|..|f| + |pieces|] == pieces;
    assert Sliced(block, v, |f|, size);
    assert v[..|f|] == f;
    FlushHeld(p);
    var kept := AddBlockHeld(p, block, size);
    CutHeld(p, block, size);
  }

  lemma FlushHeld(p: Packer)
    ensures Concat(Flush(p).pages) == Held(p)
  {
    if p.current == "" {
      assert Held(p) == Concat(p.pages);
    } else {
      ConcatSnoc(p.pages, p.current);
    }
  }

  /** Where the gap before a block goes, by whether its separator is kept (see AddBlockHeld). */
  lemma AddBlockGap(p: Packer, block: string, size: nat, kept: bool)
    requires size >= 1 && Held(AddBlock(p, block, size)) == Held(p) + (if kept then SEP else "") + block
    ensures GapOk(View(AddBlock(p, block, size)), |Held(p)|, kept)
  {
    var q := AddBlock(p, block, size);
    var v, n := View(q), |p.pages|;
    if kept {
      GapInPage(p, block, size);
      assert v[..n] == p.pages;
      hide Concat;
      assert Spot(SEP, |Held(p)|, v, n) && Offset(v, n) < |Held(p)|;
    } else {
      var f := Flush(p).pages;
      PageBegins(p, block, size);
      FlushHeld(p);
      assert v[..|f|] == f;
      assert Offset(v, |f|) == |Held(p)|;
    }
  }

  /** Two characters more are held only where the block went on the current page, which was not empty. */
  lemma GapInPage(p: Packer, block: string, size: nat)
    requires size >= 1 && |Held(AddBlock(p, block, size))| == |Held(p)| + 2 + |block|
    ensures p.current != "" && AddBlock(p, block, size) == p.(current := p.current + SEP + block)
  {
    var kept := AddBlockHeld(p, block, size);
    CutHeld(p, block, size);
    if |block| > size {
      LongBlockHeld(p, block, size);
    } else {
      ConcatSnoc(p.pages, p.current);
    }
  }

  lemma LongBlockHeld(p: Packer, block: string, size: nat)
    requires 1 <= size < |block|
    ensures |Held(AddBlock(p, block, size))| == |Held(p)| + |block|
  {
    CutHeld(p, block, size);
    CutPieces(p, block, size);
    RemainderFits(block, size);
  }

  /** If nothing more is held than the block, what was held before has become whole pages. */
  lemma PageBegins(p: Packer, block: string, size: nat)
    requires size >= 1 && |Held(AddBlock(p, block, size))| == |Held(p)| + |block|
    ensures var f, v := Flush(p).pages, View(AddBlock(p, block, size)); |f| < |v| && v[..|f|] == f
  {
    hide Held, Concat;
    var q, f := AddBlock(p, block, size), Flush(p).pages;
    if |block| > size {
      CutPieces(p, block, size);
      RemainderFits(block, size);
      assert q.pages[..|f|] == f;
    } else if p.current != "" && |p.current + SEP + block| <= size {
      SeparatorHeld(p, block);
    }
  }

  lemma SeparatorHeld(p: Packer, block: string)
    ensures |Held(p.(current := p.current + SEP + block))| == |Held(p)| + 2 + |block|
  {
  }

  /** Every block has its place in the text that the packer holds, and is kept there; every gap has its separator or a new page. */
  lemma {:induction false} PackKeeps(blocks: seq<string>, size: nat) returns (kept: seq<bool>)
    requires size >= 1 && |blocks| >= 1
    ensures |kept| == |blocks| - 1 && Held(Pack(blocks, size)) == Weave(blocks, kept)
    ensures forall k :: 0 <= k < |blocks| ==> Kept(blocks[k], Start(blocks, kept, k), View(Pack(blocks, size)), size)
    ensures forall k :: 0 <= k < |kept| ==> GapOk(View(Pack(blocks, size)), End(blocks, kept, k), kept[k])
  {
    hide Held, Kept, GapOk, AddBlock, Start, End, View;
    var n := |blocks| - 1;
    var p, q := Pack(blocks[..n], size), Pack(blocks, size);
    var last := AddBlockHeld(p, blocks[n], size);
    AddBlockGap(p, blocks[n], size, last);
    if |blocks[n]| <= size {
      ShortBlockKeeps(p, blocks[n], size);
    } else {
      LongBlockKeeps(p, blocks[n], size);
    }
    if n == 0 {
      kept := [];
      NothingHeld();
      LastStart(blocks, kept);
    } else {
      var front := PackKeeps(blocks[..n], size);
      kept := front + [last];
      assert kept[..n - 1] == front;
      forall k | 0 <= k < n ensures Kept(blocks[k], Start(blocks, kept, k), View(q), size) {
        StartStays(blocks, kept, k);
        KeptGrows(blocks[k], Start(blocks[..n], front, k), View(p), View(q), size);
      }
      forall k | 0 <= k < |kept| ensures GapOk(View(q), End(blocks, kept, k), kept[k]) {
        StartStays(blocks, kept, k);
        if k < n - 1 {
          GapGrows(End(blocks[..n], front, k), kept[k], View(p), View(q));
        } else {
          LastEnd(blocks[..n], front);
        }
      }
      LastStart(blocks, kept);
    }
  }

  lemma LastEnd(blocks: seq<string>, kept: seq<bool>)
    requires |blocks| == |kept| + 1
    ensures End(blocks, kept, |blocks| - 1) == |Weave(blocks, kept)|
  {
    assert blocks[..|blocks|] == blocks && kept[..|kept|] == kept;
  }

  lemma LastStart(blocks: seq<string>, kept: seq<bool>)
    requires |blocks| == |kept| + 1
    ensures Start(blocks, kept, |blocks| - 1) == |Weave(blocks, kept)| - |blocks[|blocks| - 1]|
  {
    assert blocks[..|blocks|] == blocks && kept[..|kept|] == kept;
  }

  /** A later block does not move an earlier one. */
  lemma StartStays(blocks: seq<string>, kept: seq<bool>, k: nat)
    requires k + 1 < |blocks| == |kept| + 1
    ensures var n := |blocks| - 1;
      && blocks[..n][k] == blocks[k] && Start(blocks[..n], kept[..n - 1], k) == Start(blocks, kept, k)
      && End(blocks[..n], kept[..n - 1], k) == End(blocks, kept, k)
  {
    var n := |blocks| - 1;
    assert blocks[..n][..k + 1] == blocks[..k + 1] && kept[..n - 1][..k] == kept[..k];
  }

  lemma NothingHeld()
    ensures Held(Packer([], "")) == ""
  {
  }

  /** Leaving out an empty last page loses no block. */
  lemma KeptClosed(b: string, start: int, p: Packer, size: nat)
    requires size >= 1 && Kept(b, start, View(p), size)
    requires p.pages != [] && p.current == ""
    ensures Kept(b, start, p.pages, size)
  {
    var v := View(p);
    if |b| <= size {
      var n: nat :| Spot(b, start, v, n);
      SpotClosed(b, start, p, n);
    } else {
      var at: nat :| Sliced(b, v, at, size) && Offset(v, at) == start;
      SlicedClosed(b, p, at, size);
      assert p.pages[..at] == v[..at];
    }
  }

  lemma SpotClosed(b: string, start: int, p: Packer, n: nat)
    requires p.pages != [] && p.current == "" && Spot(b, start, View(p), n)
    ensures exists m: nat :: Spot(b, start, p.pages, m)
  {
    hide Concat;
    var v, m := View(p), |p.pages| - 1;
    if n < |p.pages| {
      assert p.pages[..n] == v[..n];
      assert Spot(b, start, p.pages, n);
    } else {
      assert v[..n] == p.pages == p.pages[..m] + [p.pages[m]];
      ConcatSnoc(p.pages[..m], p.pages[m]);
      assert Spot(b, start, p.pages, m);
    }
  }

  lemma SlicedClosed(b: string, p: Packer, at: nat, size: nat)
    requires size >= 1 && b != "" && p.current == "" && Sliced(b, View(p), at, size)
    ensures Sliced(b, p.pages, at, size)
  {
    hide Concat, Pieces, Remainder;
    RemainderFits(b, size);
    var n := at + |Pieces(b, size)|;
    assert View(p)[n] != "";
    assert p.pages[at..n] == View(p)[at..n];
  }

  /**
   * A block of at most a page is never split: the pages one after the other are the blocks woven
   * together, and the place of the block in that text lies within one page. A longer block is cut
   * at its own place, into full pages that begin there (see PiecesOfBlock), and its remainder
   * opens the page after them. A gap keeps its separator exactly when its two sides are on one
   * page, that is when no page breaks there.
   */
  lemma BlocksStayWhole(content: string, size: nat) returns (kept: seq<bool>)
    requires size >= 1
    ensures |kept| == |Split(content)| - 1 && Concat(Paginated(content, size)) == Weave(Split(content), kept)
    ensures forall k :: 0 <= k < |Split(content)| ==>
      Kept(Split(content)[k], Start(Split(content), kept, k), Paginated(content, size), size)
    ensures forall k :: 0 <= k < |kept| ==>
      (kept[k] <==> !BreakAt(Paginated(content, size), End(Split(content), kept, k)))
  {
    var blocks, pages := Split(content), Paginated(content, size);
    if content == "" {
      kept := [];
      ConcatSnoc([], "");
      assert [] + [""] == pages == blocks && blocks[..1] == blocks;
      assert Spot("", 0, pages, 0);
    } else {
      var p := Pack(blocks, size);
      kept := PackKeeps(blocks, size);
      CloseHeld(p);
      hide Kept;
      forall k | 0 <= k < |blocks| ensures Kept(blocks[k], Start(blocks, kept, k), pages, size) {
        if p.current == "" && p.pages != [] {
          KeptClosed(blocks[k], Start(blocks, kept, k), p, size);
        }
      }
      forall k | 0 <= k < |kept| ensures kept[k] <==> !BreakAt(pages, End(blocks, kept, k)) {
        GapClosed(p, End(blocks, kept, k), kept[k]);
      }
    }
  }

  lemma {:induction false} OffsetsGrow(pages: seq<string>, m: nat, n: nat)
    requires m <= n <= |pages|
    ensures Offset(pages, m) <= Offset(pages, n)
    ensures m < n ==> Offset(pages, m) + |pages[m]| <= Offset(pages, n)
    decreases n
  {
    if m < n {
      OffsetsGrow(pages, m, n - 1);
      assert pages[..n][..n - 1] == pages[..n - 1];
    }
  }

  /** In the closed pages, a gap has its separator exactly when no page breaks there. */
  lemma GapClosed(p: Packer, x: nat, kept: bool)
    requires GapOk(View(p), x, kept)
    ensures kept <==> !BreakAt(Close(p), x)
  {
    var v, pages := View(p), Close(p);
    if kept {
      var n: nat :| Spot(SEP, x, v, n) && Offset(v, n) < x;
      assert n < |pages| && pages[n] == v[n] && pages[..n] == v[..n];
      hide Concat;
      forall m: nat | m <= |pages| ensures Offset(pages, m) != x {
        if m <= n {
          OffsetsGrow(pages, m, n);
        } else {
          OffsetsGrow(pages, n, m);
        }
      }
    } else {
      var n: nat :| n < |v| && Offset(v, n) == x;
      assert n <= |pages| && pages[..n] == v[..n];
      assert Offset(pages, n) == x;
    }
  }

  // ---- Optimality ----

  /** All the runs one after the other. */
  function Flatten(runs: seq<seq<string>>): seq<string> {
    if runs == [] then [] else Flatten(runs[..|runs| - 1]) + runs[|runs| - 1]
  }

  /** A division of the blocks into consecutive non-empty runs, each of which fits a page when joined. */
  ghost predicate Division(runs: seq<seq<string>>, blocks: seq<string>, size: nat) {
    && Flatten(runs) == blocks
    && forall k :: 0 <= k < |runs| ==> runs[k] != [] && |Join(runs[k])| <= size
  }

  /** The packer is no further than the division: fewer closed pages, or as many and no longer a current page. */
  predicate Ahead(p: Packer, runs: seq<seq<string>>)
    requires runs != []
  {
    || |p.pages| < |runs| - 1
    || (|p.pages| == |runs| - 1 && |p.current| <= |Join(runs[|runs| - 1])|)
  }

  lemma DivisionShrinks(runs: seq<seq<string>>, blocks: seq<string>, size: nat) returns (shorter: seq<seq<string>>)
    requires Division(runs, blocks, size) && blocks != []
    ensures runs != []
    ensures var last := runs[|runs| - 1]; var n := |last| - 1;
      && last[n] == blocks[|blocks| - 1]
      && shorter == (if n == 0 then runs[..|runs| - 1] else runs[..|runs| - 1] + [last[..n]])
    ensures Division(shorter, blocks[..|blocks| - 1], size)
  {
    assert runs != [];
    var m := |runs| - 1;
    var last := runs[m];
    var n := |last| - 1;
    assert blocks == Flatten(runs[..m]) + last;
    if n == 0 {
      shorter := runs[..m];
      assert blocks[..|blocks| - 1] == Flatten(shorter);
    } else {
      shorter := runs[..m] + [last[..n]];
      assert shorter[..m] == runs[..m];
      assert blocks[..|blocks| - 1] == Flatten(runs[..m]) + last[..n];
      assert |Join(last[..n])| <= |Join(last)|;
    }
  }

  /** Greedy stays ahead of every division, block by block. */
  lemma {:induction false} GreedyStaysAhead(runs: seq<seq<string>>, blocks: seq<string>, size: nat)
    requires size >= 1 && blocks != [] && Division(runs, blocks, size)
    ensures runs != [] && Ahead(Pack(blocks, size), runs)
    decreases |blocks|
  {
    var shorter := DivisionShrinks(runs, blocks, size);
    var m := |runs| - 1;
    var last := runs[m];
    var n := |blocks| - 1;
    var b := blocks[n];
    var p := Pack(blocks[..n], size);
    assert |b| <= |Join(last)|;
    assert Pack(blocks, size) == Place(p, b, size);
    if n > 0 {
      GreedyStaysAhead(shorter, blocks[..n], size);
      if |last| > 1 {
        assert |Join(last)| == |Join(last[..|last| - 1])| + 2 + |b|;
      }
    }
  }

  lemma CloseAhead(p: Packer, runs: seq<seq<string>>)
    requires runs != [] && Ahead(p, runs)
    ensures 1 <= |Close(p)| <= |runs|
  {
  }

  /** No division of the blocks into runs that fit a page uses fewer runs than `paginate` uses pages. */
  lemma PaginateIsOptimal(content: string, size: nat, blocks: seq<string>, runs: seq<seq<string>>)
    requires size >= 1 && blocks == Split(content) && Division(runs, blocks, size)
    ensures |Paginated(content, size)| <= |runs|
  {
    GreedyStaysAhead(runs, blocks, size);
    CloseAhead(Pack(blocks, size), runs);
  }

  /** The division has one run for each page of the view, and that page is the run joined. */
  ghost predicate Mirrors(runs: seq<seq<string>>, p: Packer) {
    && p.current != ""
    && |runs| == |p.pages| + 1
    && forall k :: 0 <= k < |runs| ==> View(p)[k] == Join(runs[k])
  }

  lemma {:induction false} NewPageDivides(runs: seq<seq<string>>, q: Packer, blocks: seq<string>, b: string, size: nat)
    requires Division(runs, blocks, size) && Mirrors(runs, q)
    requires 1 <= |b| <= size
    ensures Division(runs + [[b]], blocks + [b], size)
    ensures Mirrors(runs + [[b]], Packer(q.pages + [q.current], b))
  {
    var more := runs + [[b]];
    assert more[..|runs|] == runs;
    assert View(Packer(q.pages + [q.current], b)) == View(q) + [b];
  }

  lemma {:induction false} SamePageDivides(runs: seq<seq<string>>, q: Packer, blocks: seq<string>, b: string, size: nat)
    requires Division(runs, blocks, size) && Mirrors(runs, q)
    requires |q.current + SEP + b| <= size
    ensures var m := |runs| - 1; var longer := runs[..m] + [runs[m] + [b]];
      Division(longer, blocks + [b], size) && Mirrors(longer, q.(current := q.current + SEP + b))
  {
    var m := |runs| - 1;
    var longer := runs[..m] + [runs[m] + [b]];
    assert longer[..m] == runs[..m];
    assert Flatten(longer) == (Flatten(runs[..m]) + runs[m]) + [b];
    assert (runs[m] + [b])[..|runs[m]|] == runs[m];
    assert View(q)[m] == q.current == Join(runs[m]);
    assert forall k :: 0 <= k < m ==> View(q)[k] == q.pages[k];
  }

  /** The division the packer itself follows, as long as no block is empty or too long. */
  lemma {:induction false} PackDivides(blocks: seq<string>, size: nat) returns (runs: seq<seq<string>>)
    requires size >= 1 && blocks != []
    requires forall k :: 0 <= k < |blocks| ==> 1 <= |blocks[k]| <= size
    ensures Division(runs, blocks, size) && Mirrors(runs, Pack(blocks, size))
    decreases |blocks|
  {
    hide Flatten, Join, Division;
    var n := |blocks| - 1;
    var b := blocks[n];
    var q := Pack(blocks[..n], size);
    assert Pack(blocks, size) == Place(q, b, size);
    assert blocks == blocks[..n] + [b];
    if n == 0 {
      OneDivides(b, size);
      assert blocks == [b];
      runs := [[b]];
    } else {
      runs := PackDivides(blocks[..n], size);
      if |q.current + SEP + b| > size {
        NewPageDivides(runs, q, blocks[..n], b, size);
        runs := runs + [[b]];
      } else {
        SamePageDivides(runs, q, blocks[..n], b, size);
        runs := runs[..|runs| - 1] + [runs[|runs| - 1] + [b]];
      }
    }
  }

  lemma OneDivides(b: string, size: nat)
    requires 1 <= |b| <= size
    ensures Division([[b]], [b], size) && Mirrors([[b]], Packer([], b))
  {
    assert [[b]][..0] == [];
    assert Flatten([[b]]) == Flatten([]) + [b] == [b];
    assert View(Packer([], b)) == [b];
  }

  /** ... and when no block is empty or longer than a page, the pages are such a division: the minimum. */
  lemma PagesAreADivision(content: string, size: nat) returns (runs: seq<seq<string>>)
    requires size >= 1
    requires forall k :: 0 <= k < |Split(content)| ==> 1 <= |Split(content)[k]| <= size
    ensures Division(runs, Split(content), size)
    ensures |runs| == |Paginated(content, size)|
    ensures forall k :: 0 <= k < |runs| ==> Paginated(content, size)[k] == Join(runs[k])
  {
    runs := PackDivides(Split(content), size);
    assert Split("") == [""];
  }
}
