/** pagination.py: cutting converted markdown into pages, and the page links. */
module Pagination {
  import opened Text
  import opened Types

  /** The packer between two blocks: the closed pages and the page being filled. */
  datatype Packer = Packer(pages: seq<string>, current: string)

  /** Close the page being filled, unless it is empty. */
  function Flush(p: Packer): Packer {
    if p.current == "" then p else Packer(p.pages + [p.current], "")
  }

  /** Cut full pages off a block until what is left fits one page. */
  function Cut(p: Packer, block: string, size: nat): (r: (Packer, string))
    requires size >= 1
    decreases |block|
  {
    if |block| <= size then (p, block)
    else Cut(Packer(Flush(p).pages + [block[..size]], ""), block[size..], size)
  }

  /** Put a block that fits one page on the current page, or on a new one. */
  function Place(p: Packer, block: string, size: nat): Packer {
    var candidate := if p.current == "" then block else p.current + SEP + block;
    if |candidate| > size then Packer(p.pages + [p.current], block) else p.(current := candidate)
  }

  function AddBlock(p: Packer, block: string, size: nat): Packer
    requires size >= 1
  {
    var (q, rest) := Cut(p, block, size);
    Place(q, rest, size)
  }

  /** The packer after all the blocks. */
  function Pack(blocks: seq<string>, size: nat): Packer
    requires size >= 1
  {
    if blocks == [] then Packer([], "")
    else AddBlock(Pack(blocks[..|blocks| - 1], size), blocks[|blocks| - 1], size)
  }

  /** The pages once the last page is closed. */
  function Close(p: Packer): seq<string> {
    if p.current != "" || p.pages == [] then p.pages + [p.current] else p.pages
  }

  /** The pages of a text. */
  function Paginated(content: string, size: nat): seq<string>
    requires size >= 1
  {
    if content == "" then [""] else Close(Pack(Split(content), size))
  }

  /** `paginate`: the loops of the service compute the pages above. */
  method Paginate(content: string, pageSize: nat) returns (pages: seq<string>)
    requires pageSize >= 1
    ensures pages == Paginated(content, pageSize)
  {
    if content == "" {
      return [""];
    }
    pages := [];
    var current := "";
    var blocks := Split(content);
    for n := 0 to |blocks|
      invariant Packer(pages, current) == Pack(blocks[..n], pageSize)
    {
      var block := blocks[n];
      assert blocks[..n + 1][..n] == blocks[..n];
      ghost var start := Packer(pages, current);
      while |block| > pageSize
        invariant Cut(Packer(pages, current), block, pageSize) == Cut(start, blocks[n], pageSize)
      {
        if current != "" {
          pages := pages + [current];
          current := "";
        }
        pages := pages + [block[..pageSize]];
        block := block[pageSize..];
      }
      var candidate := if current == "" then block else current + SEP + block;
      if |candidate| > pageSize {
        pages := pages + [current];
        current := block;
      } else {
        current := candidate;
      }
    }
    assert blocks[..|blocks|] == blocks;
    if current != "" || pages == [] {
      pages := pages + [current];
    }
  }

  /** The navigation data sent with a page. */
  datatype PageLinks = PageLinks(
    doc: DocKey, page: int, pageSize: int, totalPages: int, totalLength: int,
    hasNext: bool, hasPrev: bool, nextPage: Option<int>, prevPage: Option<int>)

  function BuildPagination(doc: DocKey, page: int, totalPages: int, totalLength: int, pageSize: int): PageLinks {
    var hasNext := page < totalPages;
    var hasPrev := page > 1;
    PageLinks(doc, page, pageSize, totalPages, totalLength, hasNext, hasPrev,
              if hasNext then Some(page + 1) else None,
              if hasPrev then Some(page - 1) else None)
  }
}
