/** worker.py, the local cache of source files: evicting the least recently used until the rest fits. */
module SourceCache {

  datatype Stat = Stat(atime: int, size: nat)

  /** The tuples `prune_source_cache` sorts. */
  datatype Entry = Entry(atime: int, size: nat, path: string)

  predicate TextLess(a: string, b: string) {
    if b == "" then false
    else if a == "" then true
    else if a[0] != b[0] then a[0] < b[0]
    else TextLess(a[1..], b[1..])
  }

  /** Lexicographic order: the shorter of two texts one of which begins the other, or the smaller at the first difference. */
  lemma {:induction false} TextLessIs(a: string, b: string)
    ensures TextLess(a, b) <==> (a < b || exists i: nat :: i < |a| && i < |b| && a[..i] == b[..i] && a[i] < b[i])
  {
    if a != "" && b != "" && a[0] == b[0] {
      TextLessIs(a[1..], b[1..]);
      if i: nat :| i < |a[1..]| && i < |b[1..]| && a[1..][..i] == b[1..][..i] && a[1..][i] < b[1..][i] {
        assert a[..i + 1] == [a[0]] + a[1..][..i] && b[..i + 1] == [b[0]] + b[1..][..i];
        assert a[i + 1] < b[i + 1];
      }
      if i: nat :| i < |a| && i < |b| && a[..i] == b[..i] && a[i] < b[i] {
        assert a[..i][1..] == b[..i][1..];
        assert a[1..][..i - 1] == a[..i][1..] && b[1..][..i - 1] == b[..i][1..];
        assert a[1..][i - 1] < b[1..][i - 1];
      }
      assert a < b <==> a[1..] < b[1..] by {
        assert a == [a[0]] + a[1..] && b == [b[0]] + b[1..];
        if a[1..] < b[1..] {
          assert b[..|a|] == [b[0]] + b[1..][..|a| - 1];
        }
      }
    } else if a != "" && b != "" {
      assert a[..0] == b[..0];
      if i: nat :| i < |a| && i < |b| && a[..i] == b[..i] && a[i] < b[i] {
        assert i > 0 ==> a[..i][0] == b[..i][0];
      }
    }
  }

  /** Tuple order: access time, then size, then path. */
  predicate Before(a: Entry, b: Entry) {
    if a.atime != b.atime then a.atime < b.atime
    else if a.size != b.size then a.size < b.size
    else TextLess(a.path, b.path)
  }

  lemma TextLessTransitive(a: string, b: string, c: string)
    requires TextLess(a, b) && TextLess(b, c)
    ensures TextLess(a, c)
  {
    if a != "" && a[0] == b[0] && b[0] == c[0] {
      TextLessTransitive(a[1..], b[1..], c[1..]);
    }
  }

  lemma {:induction false} TextLessConnected(a: string, b: string)
    ensures a == b || TextLess(a, b) || TextLess(b, a)
    ensures !(TextLess(a, b) && TextLess(b, a))
    ensures a == b ==> !TextLess(a, b)
  {
    if a != "" && b != "" && a[0] == b[0] {
      TextLessConnected(a[1..], b[1..]);
      assert a == [a[0]] + a[1..] && b == [b[0]] + b[1..];
    }
  }

  lemma BeforeConnected(a: Entry, b: Entry)
    ensures a == b || Before(a, b) || Before(b, a)
    ensures !(Before(a, b) && Before(b, a)) && (a == b ==> !Before(a, b))
  {
    TextLessConnected(a.path, b.path);
  }

  lemma NotBeforeTransitive(a: Entry, b: Entry, c: Entry)
    requires !Before(b, a) && !Before(c, b)
    ensures !Before(c, a)
  {
    BeforeConnected(a, b);
    BeforeConnected(b, c);
    BeforeConnected(a, c);
    if Before(a, b) && Before(b, c) && a.atime == c.atime && a.size == c.size {
      TextLessTransitive(a.path, b.path, c.path);
    }
  }

  // ---- Sorting ----

  function Insert(e: Entry, es: seq<Entry>): (r: seq<Entry>)
    ensures |r| == |es| + 1
  {
    if es == [] || Before(e, es[0]) then [e] + es else [es[0]] + Insert(e, es[1..])
  }

  function Sort(es: seq<Entry>): (r: seq<Entry>)
    ensures |r| == |es|
  {
    if es == [] then [] else Insert(es[|es| - 1], Sort(es[..|es| - 1]))
  }

  ghost predicate Sorted(es: seq<Entry>) {
    forall i, j :: 0 <= i < j < |es| ==> !Before(es[j], es[i])
  }

  lemma {:induction false} InsertSorted(e: Entry, es: seq<Entry>)
    requires Sorted(es)
    ensures Sorted(Insert(e, es))
    ensures forall x :: x in Insert(e, es) <==> x == e || x in es
    decreases |es|
  {
    var r := Insert(e, es);
    if es == [] {
    } else if Before(e, es[0]) {
      forall i, j | 0 <= i < j < |r| ensures !Before(r[j], r[i]) {
        if i == 0 {
          BeforeConnected(e, es[0]);
          BeforeConnected(es[0], es[0]);
          NotBeforeTransitive(e, es[0], r[j]);
        }
      }
    } else {
      InsertSorted(e, es[1..]);
      var rest := Insert(e, es[1..]);
      forall j | 0 < j < |r| ensures !Before(r[j], es[0]) {
        assert r[j] == rest[j - 1] && rest[j - 1] in rest;
        BeforeConnected(e, es[0]);
      }
      assert es == [es[0]] + es[1..];
    }
  }

  lemma {:induction false} SortSorted(es: seq<Entry>)
    ensures Sorted(Sort(es))
    ensures forall x :: x in Sort(es) <==> x in es
  {
    if es != [] {
      var n := |es| - 1;
      SortSorted(es[..n]);
      InsertSorted(es[n], Sort(es[..n]));
      assert es == es[..n] + [es[n]];
    }
  }

  // ---- What survives ----

  /** Bytes of the entry and of everything used more recently than it. */
  function Load(es: seq<Entry>, x: Entry): nat {
    if es == [] then 0 else Load(es[1..], x) + if Before(es[0], x) then 0 else es[0].size
  }

  function TotalSize(es: seq<Entry>): nat {
    if es == [] then 0 else es[0].size + TotalSize(es[1..])
  }

  lemma {:induction false} LoadInsert(e: Entry, es: seq<Entry>, x: Entry)
    ensures Load(Insert(e, es), x) == Load(es, x) + if Before(e, x) then 0 else e.size
    decreases |es|
  {
    if es != [] && !Before(e, es[0]) {
      LoadInsert(e, es[1..], x);
      assert Insert(e, es)[1..] == Insert(e, es[1..]);
    } else {
      assert ([e] + es)[1..] == es;
    }
  }

  lemma {:induction false} LoadSnoc(es: seq<Entry>, e: Entry, x: Entry)
    ensures Load(es + [e], x) == Load(es, x) + if Before(e, x) then 0 else e.size
  {
    if es != [] {
      LoadSnoc(es[1..], e, x);
      assert (es + [e])[1..] == es[1..] + [e];
    } else {
      assert (es + [e])[1..] == [];
    }
  }

  lemma {:induction false} LoadSort(es: seq<Entry>, x: Entry)
    ensures Load(Sort(es), x) == Load(es, x)
  {
    if es != [] {
      var n := |es| - 1;
      LoadSort(es[..n], x);
      LoadInsert(es[n], Sort(es[..n]), x);
      LoadSnoc(es[..n], es[n], x);
      assert es == es[..n] + [es[n]];
    }
  }

  ghost predicate Distinct(es: seq<Entry>) {
    forall i, j :: 0 <= i < j < |es| ==> es[i].path != es[j].path
  }

  /** In sorted order, the load of an entry is what is left from it on. */
  lemma {:induction false} LoadSorted(es: seq<Entry>, k: nat)
    requires Sorted(es) && k < |es| && forall i :: 0 <= i < k ==> es[i] != es[k]
    ensures Load(es, es[k]) == TotalSize(es[k..])
    decreases |es|
  {
    if k == 0 {
      LoadAll(es, es[0]);
      BeforeConnected(es[0], es[0]);
      assert es[0..] == es;
    } else {
      LoadSorted(es[1..], k - 1);
      BeforeConnected(es[0], es[k]);
      assert es[1..][k - 1..] == es[k..];
    }
  }

  lemma {:induction false} LoadAll(es: seq<Entry>, x: Entry)
    requires forall i :: 0 <= i < |es| ==> es[i] == x || !Before(es[i], x)
    ensures Load(es, x) == TotalSize(es)
  {
    BeforeConnected(x, x);
    if es != [] {
      LoadAll(es[1..], x);
    }
  }

  /** The directory read in any order. */
  ghost predicate Lists(files: map<string, Stat>, listing: seq<string>) {
    && (forall p :: p in listing <==> p in files)
    && forall i, j :: 0 <= i < j < |listing| ==> listing[i] != listing[j]
  }

  function EntryOf(files: map<string, Stat>, path: string): Entry
    requires path in files
  {
    Entry(files[path].atime, files[path].size, path)
  }

  function EntriesOf(files: map<string, Stat>, listing: seq<string>): (es: seq<Entry>)
    requires forall p :: p in listing ==> p in files
    ensures |es| == |listing|
    ensures forall i :: 0 <= i < |es| ==> es[i] == EntryOf(files, listing[i])
  {
    seq(|listing|, i requires 0 <= i < |listing| && listing[i] in files => EntryOf(files, listing[i]))
  }

  /** The file and everything used more recently fit the budget together. */
  ghost predicate Fits(files: map<string, Stat>, listing: seq<string>, path: string, maxBytes: int)
    requires Lists(files, listing) && path in files
  {
    Load(EntriesOf(files, listing), EntryOf(files, path)) <= maxBytes
  }

  class Cache {
    var files: map<string, Stat>

    constructor ()
      ensures files == map[]
    {
      files := map[];
    }


    /** The first loop of `prune_source_cache`: collect the tuples and their total size. */
    method Scan(listing: seq<string>) returns (entries: seq<Entry>, total: nat)
      requires Lists(files, listing)
      ensures entries == EntriesOf(files, listing) && total == TotalSize(entries)
    {
      entries, total := [], 0;
      for i := 0 to |listing|
        invariant entries == EntriesOf(files, listing)[..i]
        invariant total == TotalSize(entries)
      {
        var stat := files[listing[i]];
        TotalSnoc(entries, Entry(stat.atime, stat.size, listing[i]));
        entries := entries + [Entry(stat.atime, stat.size, listing[i])];
        total := total + stat.size;
      }
      assert EntriesOf(files, listing)[..|listing|] == EntriesOf(files, listing);
    }

    /** The second loop: delete from the front until the rest fits, and not one file more. */
    method Evict(sorted: seq<Entry>, size: nat, maxBytes: int) returns (ghost k: nat)
      requires size == TotalSize(sorted)
      modifies this
      ensures k <= |sorted| && files == old(files) - PathsOf(sorted[..k])
      ensures k < |sorted| ==> TotalSize(sorted[k..]) <= maxBytes
      ensures forall i :: 0 <= i < k ==> TotalSize(sorted[i..]) > maxBytes
    {
      hide TotalSize, PathsOf;
      var total: int := size;
      var n := 0;
      assert sorted[0..] == sorted;
      NoPaths(sorted);
      while n < |sorted| && total > maxBytes
        invariant n <= |sorted|
        invariant total == TotalSize(sorted[n..])
        invariant forall i :: 0 <= i < n ==> TotalSize(sorted[i..]) > maxBytes
        invariant files == old(files) - PathsOf(sorted[..n])
      {
        TotalRest(sorted, n);
        OneLess(old(files), sorted, n);
        files := files - {sorted[n].path};
        total := total - sorted[n].size;
        n := n + 1;
      }
      k := n;
    }

    /**
     * `prune_source_cache`: a file stays exactly when it and everything used more recently fit
     * the budget together; nothing else changes. So the file used last stays exactly when it
     * fits on its own.
     */
    method Prune(listing: seq<string>, maxBytes: int)
      requires Lists(files, listing)
      modifies this
      ensures forall p :: p in files ==> p in old(files) && files[p] == old(files[p])
      ensures forall p :: p in old(files) ==> (p in files <==> Fits(old(files), listing, p, maxBytes))
      ensures forall p :: UsedLast(old(files), p) ==> (p in files <==> old(files)[p].size <= maxBytes)
    {
      var entries, total := Scan(listing);
      var sorted := Sort(entries);
      SortTotal(entries);
      var k := Evict(sorted, total, maxBytes);
      forall p | p in old(files) ensures p in files <==> Fits(old(files), listing, p, maxBytes) {
        var i :| 0 <= i < |listing| && listing[i] == p;
        Survives(entries, k, maxBytes, i);
      }
      forall p | UsedLast(old(files), p) ensures Fits(old(files), listing, p, maxBytes) <==> old(files)[p].size <= maxBytes {
        LastFits(old(files), listing, p, maxBytes);
      }
    }

    /** `os.listdir` */
    method List() returns (listing: seq<string>)
      ensures Lists(files, listing)
    {
      listing := [];
      var rest := files.Keys;
      while rest != {}
        invariant forall p :: p in files <==> p in listing || p in rest
        invariant forall p :: p in listing ==> p !in rest
        invariant forall i, j :: 0 <= i < j < |listing| ==> listing[i] != listing[j]
        decreases |rest|
      {
        var p :| p in rest;
        listing, rest := listing + [p], rest - {p};
      }
    }

    /**
     * `fetch_source`: a cached file is marked as used and nothing else happens; any other is
     * downloaded, unless that raises and leaves the cache alone, then stored, and the cache pruned. Of the files that are then in the directory, the new one
     * included, exactly those stay that fit with everything used more recently; so the new one
     * is gone again whenever it exceeds the budget, and stays if it fits and was used last.
     */
    method Fetch(path: string, size: nat, now: int, maxBytes: int, arrives: bool) returns (ok: bool, ghost listing: seq<string>)
      modifies this
      ensures ok == (path in old(files) || arrives)
      ensures !ok ==> files == old(files)
      ensures path in old(files) ==> files == old(files)[path := Stat(now, old(files)[path].size)]
      ensures path !in old(files) && arrives ==> var all := old(files)[path := Stat(now, size)];
        && Lists(all, listing)
        && (forall p :: p in files ==> p in all && files[p] == all[p])
        && (forall p :: p in all ==> (p in files <==> Fits(all, listing, p, maxBytes)))
        && (size > maxBytes ==> path !in files)
        && (UsedLast(all, path) ==> (path in files <==> size <= maxBytes))
    {
      ok, listing := path in files || arrives, [];
      if path in files {
        files := files[path := Stat(now, files[path].size)];
        return;
      }
      if !arrives {
        return;
      }
      files := files[path := Stat(now, size)];
      var found := List();
      listing := found;
      LoadCounts(EntriesOf(files, found), EntryOf(files, path));
      Prune(found, maxBytes);
    }
  }

  /** A file counts towards its own load. */
  lemma {:induction false} LoadCounts(es: seq<Entry>, x: Entry)
    ensures x in es ==> Load(es, x) >= x.size
  {
    BeforeConnected(x, x);
    if es != [] {
      assert es == [es[0]] + es[1..];
      LoadCounts(es[1..], x);
    }
  }

  /** The file was used more recently than any other. */
  predicate UsedLast(files: map<string, Stat>, path: string) {
    path in files && forall p :: p in files && p != path ==> files[p].atime < files[path].atime
  }

  lemma LastFits(files: map<string, Stat>, listing: seq<string>, path: string, maxBytes: int)
    requires Lists(files, listing) && UsedLast(files, path)
    ensures Fits(files, listing, path, maxBytes) <==> files[path].size <= maxBytes
  {
    var i :| 0 <= i < |listing| && listing[i] == path;
    NewestSurvives(EntriesOf(files, listing), EntriesOf(files, listing)[i], maxBytes);
  }

  /** A file goes whenever one that comes after it in (atime, size, path) order does not fit beside it ... */
  lemma LaterFileWins(files: map<string, Stat>, listing: seq<string>, path: string, later: string, maxBytes: int)
    requires Lists(files, listing) && path in files && later in files
    requires Before(EntryOf(files, path), EntryOf(files, later)) && files[path].size + files[later].size > maxBytes
    ensures !Fits(files, listing, path, maxBytes)
  {
    var es, x, y := EntriesOf(files, listing), EntryOf(files, path), EntryOf(files, later);
    var i :| 0 <= i < |listing| && listing[i] == path;
    var k :| 0 <= k < |listing| && listing[k] == later;
    assert es[i] == x && es[k] == y;
    LoadCountsBoth(es, x, y);
  }

  lemma {:induction false} LoadCountsBoth(es: seq<Entry>, x: Entry, y: Entry)
    requires Before(x, y)
    ensures x in es && y in es ==> Load(es, x) >= x.size + y.size
    ensures y in es ==> Load(es, x) >= y.size
    ensures x in es ==> Load(es, x) >= x.size
  {
    BeforeConnected(x, x);
    BeforeConnected(x, y);
    if es != [] {
      assert es == [es[0]] + es[1..];
      LoadCountsBoth(es[1..], x, y);
    }
  }

  /**
   * ... so on a tie of access times a file that has just been fetched, and fits on its own, goes
   * whenever the other one is larger, or as large with a later path, and the two do not fit together.
   */
  lemma TieLosesTheNewFile(files: map<string, Stat>, listing: seq<string>, path: string, other: string, maxBytes: int)
    requires Lists(files, listing) && path in files && other in files
    requires files[path].atime == files[other].atime && files[path].size + files[other].size > maxBytes
    requires files[path].size < files[other].size || (files[path].size == files[other].size && TextLess(path, other))
    ensures !Fits(files, listing, path, maxBytes)
  {
    LaterFileWins(files, listing, path, other, maxBytes);
  }

  lemma TotalRest(es: seq<Entry>, n: nat)
    requires n < |es|
    ensures TotalSize(es[n..]) == es[n].size + TotalSize(es[n + 1..])
  {
    assert es[n..][1..] == es[n + 1..];
  }

  lemma NoPaths(es: seq<Entry>)
    ensures PathsOf(es[..0]) == {}
  {
  }

  lemma OneLess(files: map<string, Stat>, es: seq<Entry>, n: nat)
    requires n < |es|
    ensures files - PathsOf(es[..n]) - {es[n].path} == files - PathsOf(es[..n + 1])
  {
    PathsSnoc(es, n);
    hide PathsOf;
  }

  lemma PathsSnoc(es: seq<Entry>, n: nat)
    requires n < |es|
    ensures PathsOf(es[..n + 1]) == PathsOf(es[..n]) + {es[n].path}
  {
    assert es[..n + 1] == es[..n] + [es[n]];
    assert forall e :: e in es[..n + 1] <==> e in es[..n] || e == es[n];
  }

  /** Cutting the sorted entries at the first point where the rest fits keeps exactly the light ones. */
  lemma {:induction false} Survives(entries: seq<Entry>, k: nat, maxBytes: int, i: nat)
    requires Distinct(entries) && i < |entries| && k <= |entries|
    requires k < |entries| ==> TotalSize(Sort(entries)[k..]) <= maxBytes
    requires forall m :: 0 <= m < k ==> TotalSize(Sort(entries)[m..]) > maxBytes
    ensures entries[i].path in PathsOf(Sort(entries)[..k]) <==> Load(entries, entries[i]) > maxBytes
  {
    hide Sort, Load, TotalSize, PathsOf;
    var sorted := Sort(entries);
    SortSorted(entries);
    SortDistinct(entries);
    assert entries[i] in sorted;
    var m :| 0 <= m < |sorted| && sorted[m] == entries[i];
    LoadSort(entries, entries[i]);
    LoadSorted(sorted, m);
    PathAt(sorted, k, m);
    if k <= m {
      TotalShrinks(sorted, k, m);
    }
  }

  function PathsOf(es: seq<Entry>): set<string> {
    set e | e in es :: e.path
  }

  lemma PathAt(es: seq<Entry>, k: nat, m: nat)
    requires Distinct(es) && k <= |es| && m < |es|
    ensures es[m].path in PathsOf(es[..k]) <==> m < k
  {
    if m < k {
      assert es[m] in es[..k];
    } else {
      forall e | e in es[..k] ensures e.path != es[m].path {
        var i :| 0 <= i < k && es[..k][i] == e;
        assert es[i] == e;
      }
    }
  }

  lemma {:induction false} TotalShrinks(es: seq<Entry>, k: nat, m: nat)
    requires k <= m <= |es|
    ensures TotalSize(es[m..]) <= TotalSize(es[k..])
    decreases m - k
  {
    if k < m {
      TotalShrinks(es, k + 1, m);
      assert es[k..][1..] == es[k + 1..];
    }
  }

  lemma {:induction false} TotalSnoc(es: seq<Entry>, e: Entry)
    ensures TotalSize(es + [e]) == TotalSize(es) + e.size
  {
    if es != [] {
      TotalSnoc(es[1..], e);
      assert (es + [e])[1..] == es[1..] + [e];
    } else {
      assert (es + [e])[1..] == [];
    }
  }

  lemma {:induction false} TotalInsert(e: Entry, es: seq<Entry>)
    ensures TotalSize(Insert(e, es)) == TotalSize(es) + e.size
    decreases |es|
  {
    if es != [] && !Before(e, es[0]) {
      TotalInsert(e, es[1..]);
      assert Insert(e, es)[1..] == Insert(e, es[1..]);
    } else {
      assert ([e] + es)[1..] == es;
    }
  }

  lemma {:induction false} SortTotal(es: seq<Entry>)
    ensures TotalSize(Sort(es)) == TotalSize(es)
  {
    if es != [] {
      var n := |es| - 1;
      SortTotal(es[..n]);
      TotalInsert(es[n], Sort(es[..n]));
      TotalSnoc(es[..n], es[n]);
      assert es == es[..n] + [es[n]];
    }
  }

  lemma {:induction false} InsertDistinct(e: Entry, es: seq<Entry>)
    requires Distinct(es) && forall x :: x in es ==> x.path != e.path
    ensures Distinct(Insert(e, es))
    ensures forall x :: x in Insert(e, es) <==> x == e || x in es
    decreases |es|
  {
    var r := Insert(e, es);
    if es != [] && !Before(e, es[0]) {
      var rest := Insert(e, es[1..]);
      InsertDistinct(e, es[1..]);
      assert es == [es[0]] + es[1..];
      forall j | 0 < j < |r| ensures r[j].path != es[0].path {
        assert r[j] == rest[j - 1] && rest[j - 1] in rest;
      }
    }
  }

  lemma {:induction false} SortDistinct(es: seq<Entry>)
    requires Distinct(es)
    ensures Distinct(Sort(es))
    ensures forall x :: x in Sort(es) <==> x in es
  {
    if es != [] {
      var n := |es| - 1;
      SortDistinct(es[..n]);
      assert es == es[..n] + [es[n]];
      InsertDistinct(es[n], Sort(es[..n]));
    }
  }

  /** A file used more recently than every other is kept exactly when it fits on its own. */
  lemma NewestSurvives(es: seq<Entry>, x: Entry, maxBytes: int)
    requires Distinct(es) && x in es && forall e :: e in es && e != x ==> Before(e, x)
    ensures Load(es, x) <= maxBytes <==> x.size <= maxBytes
  {
    LoadNewest(es, x);
  }

  lemma {:induction false} LoadNewest(es: seq<Entry>, x: Entry)
    requires Distinct(es) && forall e :: e in es && e != x ==> Before(e, x)
    ensures Load(es, x) == if x in es then x.size else 0
  {
    BeforeConnected(x, x);
    if es != [] {
      assert es == [es[0]] + es[1..];
      LoadNewest(es[1..], x);
      if x in es[1..] {
        var i :| 0 <= i < |es[1..]| && es[1..][i] == x;
        assert es[i + 1] == x;
      }
    }
  }
}
