/** storage.py, key derivation: the configuration fingerprint and the object keys. */
module Keys {
  import opened Types

  // ---- Decimal numbers ----

  function Digit(d: nat): char
    requires d < 10
  {
    ['0', '1', '2', '3', '4', '5', '6', '7', '8', '9'][d]
  }

  /** `str(n)` for n >= 0 */
  function Decimal(n: nat): (s: string)
    ensures |s| >= 1
    ensures forall i :: 0 <= i < |s| ==> '0' <= s[i] <= '9'
  {
    if n < 10 then [Digit(n)] else Decimal(n / 10) + [Digit(n % 10)]
  }

  /** `str(n)` */
  function IntText(n: int): (s: string)
    ensures |s| >= 1
    ensures forall i :: 0 <= i < |s| ==> s[i] == '-' || '0' <= s[i] <= '9'
  {
    if n < 0 then "-" + Decimal(-n) else Decimal(n)
  }

  /** `f"{n:05d}"` */
  function Padded(n: nat): string {
    var s := Decimal(n);
    Zeros(5 - |s|) + s
  }

  function Zeros(n: int): (s: string)
    ensures forall i :: 0 <= i < |s| ==> s[i] == '0'
  {
    if n <= 0 then "" else Zeros(n - 1) + "0"
  }

  /** The number a run of digits stands for. */
  function NumberOf(s: string): int {
    if s == "" then 0 else NumberOf(s[..|s| - 1]) * 10 + (s[|s| - 1] as int - '0' as int)
  }

  lemma {:induction false} NumberOfDecimal(n: nat)
    ensures NumberOf(Decimal(n)) == n
  {
    if n >= 10 {
      NumberOfDecimal(n / 10);
      assert Decimal(n)[..|Decimal(n)| - 1] == Decimal(n / 10);
    } else {
      assert NumberOf("") == 0;
    }
  }

  lemma {:induction false} NumberOfPadded(zeros: string, s: string)
    requires forall i :: 0 <= i < |zeros| ==> zeros[i] == '0'
    ensures NumberOf(zeros + s) == NumberOf(s)
  {
    if s != "" {
      var n := |s| - 1;
      NumberOfPadded(zeros, s[..n]);
      assert (zeros + s)[..|zeros + s| - 1] == zeros + s[..n];
    } else if zeros != "" {
      var n := |zeros| - 1;
      NumberOfPadded(zeros[..n], "");
      assert zeros + s == zeros && zeros[..n] + "" == zeros[..n];
    }
  }

  lemma PaddedInjective(m: nat, n: nat)
    requires Padded(m) == Padded(n)
    ensures m == n
  {
    NumberOfDecimal(m);
    NumberOfDecimal(n);
    NumberOfPadded(Zeros(5 - |Decimal(m)|), Decimal(m));
    NumberOfPadded(Zeros(5 - |Decimal(n)|), Decimal(n));
  }

  lemma IntTextInjective(m: int, n: int)
    requires IntText(m) == IntText(n)
    ensures m == n
  {
    NumberOfDecimal(if m < 0 then -m else m);
    NumberOfDecimal(if n < 0 then -n else n);
    assert m < 0 <==> IntText(m)[0] == '-';
    assert n < 0 <==> IntText(n)[0] == '-';
    if m < 0 {
      assert IntText(m)[1..] == Decimal(-m);
      assert IntText(n)[1..] == Decimal(-n);
    }
  }

  // ---- Splitting at a separator character ----

  /** Cutting at the first separator is unambiguous. */
  lemma SplitFirst(a: string, x: string, b: string, y: string, c: char)
    requires c !in a && c !in b
    requires a + [c] + x == b + [c] + y
    ensures a == b && x == y
  {
    var s := a + [c] + x;
    var t := b + [c] + y;
    assert s[|a|] == c && forall i :: 0 <= i < |a| ==> s[i] == a[i];
    assert t[|b|] == c && forall i :: 0 <= i < |b| ==> t[i] == b[i];
    assert |a| == |b|;
    assert s[..|a|] == a && t[..|b|] == b;
    assert s[|a| + 1..] == x && t[|b| + 1..] == y;
  }

  /** Cutting at the last separator is unambiguous too. */
  lemma SplitLast(x: string, a: string, y: string, b: string, c: char)
    requires c !in a && c !in b
    requires x + [c] + a == y + [c] + b
    ensures a == b && x == y
  {
    var s := x + [c] + a;
    var t := y + [c] + b;
    assert s[|x|] == c && forall i :: |x| < i < |s| ==> s[i] == a[i - |x| - 1];
    assert t[|y|] == c && forall i :: |y| < i < |t| ==> t[i] == b[i - |y| - 1];
    assert |x| == |y|;
    assert s[..|x|] == x && t[..|y|] == y;
    assert s[|x| + 1..] == a && t[|y| + 1..] == b;
  }

  // ---- The configuration fingerprint ----

  /** Every setting that changes the output. */
  datatype Settings = Settings(version: string, useLlm: bool, model: string, pageSize: int, pagesPerChunk: int, minPages: int)

  function Flag(useLlm: bool): string {
    if useLlm then "llm" else "nollm"
  }

  /** The text `config_fingerprint` hashes. */
  function FingerprintText(c: Settings): string {
    ((Head(c) + "|" + IntText(c.pageSize)) + "|" + IntText(c.pagesPerChunk)) + "|" + IntText(c.minPages)
  }

  /** Its first three parts. */
  function Head(c: Settings): string {
    c.version + "|" + Tail(c)
  }

  function Tail(c: Settings): string {
    Flag(c.useLlm) + "|" + if c.useLlm then c.model else "-"
  }

  /** The text, written out. */
  lemma FingerprintIs(c: Settings)
    ensures FingerprintText(c) ==
            c.version + "|" + (if c.useLlm then "llm" else "nollm") + "|" + (if c.useLlm then c.model else "-")
              + "|" + IntText(c.pageSize) + "|" + IntText(c.pagesPerChunk) + "|" + IntText(c.minPages)
  {
    hide IntText;
    var flag, model := if c.useLlm then "llm" else "nollm", if c.useLlm then c.model else "-";
    assert Head(c) == c.version + "|" + flag + "|" + model;
  }

  /** The sizes can always be cut off the end. */
  lemma SizesDetermined(a: Settings, b: Settings)
    requires FingerprintText(a) == FingerprintText(b)
    ensures a.pageSize == b.pageSize && a.pagesPerChunk == b.pagesPerChunk && a.minPages == b.minPages
    ensures Head(a) == Head(b)
  {
    hide Head;
    var pa, pb := Head(a) + "|" + IntText(a.pageSize), Head(b) + "|" + IntText(b.pageSize);
    SplitLast(pa + "|" + IntText(a.pagesPerChunk), IntText(a.minPages), pb + "|" + IntText(b.pagesPerChunk), IntText(b.minPages), '|');
    SplitLast(pa, IntText(a.pagesPerChunk), pb, IntText(b.pagesPerChunk), '|');
    SplitLast(Head(a), IntText(a.pageSize), Head(b), IntText(b.pageSize), '|');
    IntTextInjective(a.pageSize, b.pageSize);
    IntTextInjective(a.pagesPerChunk, b.pagesPerChunk);
    IntTextInjective(a.minPages, b.minPages);
  }

  /** Under one version, flag and model are determined too. */
  lemma TailDetermined(a: Settings, b: Settings)
    requires Tail(a) == Tail(b)
    ensures a.useLlm == b.useLlm && (a.useLlm ==> a.model == b.model)
  {
    SplitFirst(Flag(a.useLlm), if a.useLlm then a.model else "-", Flag(b.useLlm), if b.useLlm then b.model else "-", '|');
    assert |Flag(true)| != |Flag(false)|;
  }

  /** Version `w` reads like version `v` with the LLM on and the rest of `w` as the start of a model name. */
  predicate Swallows(v: string, w: string) {
    w == v + "|llm" || v + "|llm|" <= w
  }

  lemma LongerVersion(a: Settings, b: Settings)
    requires Head(a) == Head(b) && |a.version| < |b.version|
    ensures Swallows(a.version, b.version)
  {
    var v, w := a.version, b.version;
    var n := |v|;
    assert Head(a)[..n] == v && Head(b)[..n] == w[..n];
    assert Head(a)[n..] == "|" + Tail(a);
    var r := w[n..];
    assert w == v + r;
    assert Head(b)[n..] == r + "|" + Tail(b);
    RestOfVersion(r, a, b);
    assert v + "|llm|" <= w || w == v + "|llm";
  }

  lemma RestOfVersion(r: string, a: Settings, b: Settings)
    requires r != "" && "|" + Tail(a) == r + "|" + Tail(b)
    ensures r == "|llm" || "|llm|" <= r
  {
    var x, y := "|" + Tail(a), r + "|" + Tail(b);
    assert x[0] == y[0] == r[0] == '|';
    assert y[|r|] == '|';
    if a.useLlm {
      assert x == "|llm|" + a.model;
      assert x[1] == 'l' && x[2] == 'l' && x[3] == 'm' && x[4] == '|';
      assert |r| >= 4;
      assert forall i :: 0 <= i < |r| ==> r[i] == x[i];
    } else {
      assert false;
    }
  }

  /**
   * What the fingerprinted text determines: the sizes always; flag and model (where the LLM is
   * used) under one version, whatever that contains; and the version unless one of the two
   * swallows the other, which no version without the separator does.
   */
  lemma FingerprintDetermines(a: Settings, b: Settings)
    requires FingerprintText(a) == FingerprintText(b)
    ensures a.pageSize == b.pageSize && a.pagesPerChunk == b.pagesPerChunk && a.minPages == b.minPages
    ensures a.version == b.version ==> a.useLlm == b.useLlm && (a.useLlm ==> a.model == b.model)
    ensures a.version != b.version ==> Swallows(a.version, b.version) || Swallows(b.version, a.version)
    ensures '|' !in a.version && '|' !in b.version ==> a.version == b.version
  {
    SizesDetermined(a, b);
    if |a.version| < |b.version| {
      LongerVersion(a, b);
      assert b.version[|a.version|] == '|';
    } else if |b.version| < |a.version| {
      LongerVersion(b, a);
      assert a.version[|b.version|] == '|';
    } else {
      var n := |a.version|;
      assert Head(a)[..n] == a.version && Head(b)[..n] == b.version;
      assert Head(a)[n + 1..] == Tail(a) && Head(b)[n + 1..] == Tail(b);
      TailDetermined(a, b);
    }
  }

  /** Where one version swallows the other, settings with the two versions and one text. */
  lemma FingerprintCollides(v: string, w: string) returns (a: Settings, b: Settings)
    requires Swallows(v, w)
    ensures a.version == v && b.version == w && FingerprintText(a) == FingerprintText(b)
  {
    hide IntText;
    var u := w[|v| + 4..];
    var model := if u == "" then "nollm|-" else u[1..] + "|nollm|-";
    a := Settings(v, true, model, 5000, 20, 40);
    b := Settings(w, false, "", 5000, 20, 40);
    assert w == v + "|llm" + u;
    assert "|" + model == u + "|nollm|-";
    SwallowedHead(v, u, model, a, b);
  }

  lemma SwallowedHead(v: string, u: string, model: string, a: Settings, b: Settings)
    requires "|" + model == u + "|nollm|-"
    requires a.version == v && a.useLlm && a.model == model && b.version == v + "|llm" + u && !b.useLlm
    ensures Head(a) == Head(b)
  {
    assert Tail(a) == "llm" + ("|" + model);
    assert Head(a) == v + "|llm" + ("|" + model);
    assert Head(b) == v + "|llm" + (u + "|nollm|-");
  }

  /** Some settings with these versions share a text. */
  ghost predicate Collide(v: string, w: string) {
    exists a: Settings, b: Settings :: a.version == v && b.version == w && FingerprintText(a) == FingerprintText(b)
  }

  /** Exactly which different versions can share a fingerprint: those of which one swallows the other. */
  lemma VersionsCollideExactly(v: string, w: string)
    requires v != w
    ensures Collide(v, w) <==> Swallows(v, w) || Swallows(w, v)
  {
    hide FingerprintText;
    if Swallows(v, w) {
      var a, b := FingerprintCollides(v, w);
    } else if Swallows(w, v) {
      var b, a := FingerprintCollides(w, v);
      assert FingerprintText(a) == FingerprintText(b);
    }
    if Collide(v, w) {
      var a: Settings, b: Settings :| a.version == v && b.version == w && FingerprintText(a) == FingerprintText(b);
      FingerprintDetermines(a, b);
    }
  }

  // ---- Object keys ----

  datatype ObjectKey =
    | SourceKey(file: FileHash)
    | PartKey(doc: DocKey, index: nat)
    | ManifestKey(doc: DocKey)
    | PageKey(doc: DocKey, page: nat)

  /** `make_doc_key`, given the fingerprints of the two LLM settings. */
  function DocText(fingerprint: bool -> string, doc: DocKey): string {
    doc.file + ":" + fingerprint(doc.llm)
  }

  function KindText(key: ObjectKey): string {
    if key.SourceKey? then "src" else if key.PartKey? then "parts" else "docs"
  }

  /** The part of a key behind its kind. */
  function KeyRest(fingerprint: bool -> string, key: ObjectKey): string {
    if key.SourceKey? then key.file else DocText(fingerprint, key.doc) + "/" + KeyTail(key)
  }

  function KeyTail(key: ObjectKey): string {
    match key
    case SourceKey(_) => ""
    case PartKey(_, index) => Padded(index) + ".md"
    case ManifestKey(_) => "manifest.json"
    case PageKey(_, page) => "pages" + "/" + (Decimal(page) + ".md")
  }

  /** The text an object is stored under. */
  function KeyText(fingerprint: bool -> string, key: ObjectKey): string {
    KindText(key) + "/" + KeyRest(fingerprint, key)
  }

  /** What hex digests satisfy: the file hash and the two fingerprints hold no separator, and the two fingerprints differ. */
  predicate CleanFingerprint(fingerprint: bool -> string) {
    && fingerprint(true) != fingerprint(false)
    && forall b :: ':' !in fingerprint(b) && '/' !in fingerprint(b)
  }

  predicate CleanDoc(doc: DocKey) {
    ':' !in doc.file && '/' !in doc.file
  }

  predicate CleanKey(key: ObjectKey) {
    key.SourceKey? || CleanDoc(key.doc)
  }

  lemma DocTextInjective(fingerprint: bool -> string, a: DocKey, b: DocKey)
    requires CleanFingerprint(fingerprint) && CleanDoc(a) && CleanDoc(b)
    requires DocText(fingerprint, a) == DocText(fingerprint, b)
    ensures a == b
  {
    SplitFirst(a.file, fingerprint(a.llm), b.file, fingerprint(b.llm), ':');
  }

  lemma DocTextClean(fingerprint: bool -> string, doc: DocKey)
    requires CleanFingerprint(fingerprint) && CleanDoc(doc)
    ensures '/' !in DocText(fingerprint, doc)
  {
    assert '/' !in fingerprint(doc.llm);
  }

  lemma TailInjective(a: ObjectKey, b: ObjectKey)
    requires KindText(a) == KindText(b) && !a.SourceKey? && !b.SourceKey?
    requires KeyTail(a) == KeyTail(b)
    ensures a.PartKey? == b.PartKey? && a.ManifestKey? == b.ManifestKey?
    ensures a.PartKey? ==> a.index == b.index
    ensures a.PageKey? ==> a.page == b.page
  {
    assert a.ManifestKey? ==> KeyTail(a)[0] == 'm';
    assert b.ManifestKey? ==> KeyTail(b)[0] == 'm';
    assert a.PageKey? ==> KeyTail(a)[0] == 'p';
    assert b.PageKey? ==> KeyTail(b)[0] == 'p';
    if a.PartKey? {
      var s, t := KeyTail(a), KeyTail(b);
      assert s[..|s| - 3] == Padded(a.index) && t[..|t| - 3] == Padded(b.index);
      PaddedInjective(a.index, b.index);
    } else if a.PageKey? {
      SplitFirst("pages", Decimal(a.page) + ".md", "pages", Decimal(b.page) + ".md", '/');
      var s, t := Decimal(a.page) + ".md", Decimal(b.page) + ".md";
      assert s[..|s| - 3] == Decimal(a.page) && t[..|t| - 3] == Decimal(b.page);
      NumberOfDecimal(a.page);
      NumberOfDecimal(b.page);
    }
  }

  /** The keys, written out. */
  lemma KeysAre(fingerprint: bool -> string, file: FileHash, llm: bool, index: nat, page: nat)
    ensures var doc, name := DocKey(file, llm), file + ":" + fingerprint(llm);
      && KeyText(fingerprint, SourceKey(file)) == "src/" + file
      && KeyText(fingerprint, PartKey(doc, index)) == "parts/" + name + "/" + Padded(index) + ".md"
      && KeyText(fingerprint, ManifestKey(doc)) == "docs/" + name + "/manifest.json"
      && KeyText(fingerprint, PageKey(doc, page)) == "docs/" + name + "/pages/" + Decimal(page) + ".md"
  {
    hide Padded, Decimal;
    var name := file + ":" + fingerprint(llm);
    assert "parts" + "/" + (name + "/" + (Padded(index) + ".md")) == "parts/" + name + "/" + Padded(index) + ".md";
    assert "docs" + "/" + (name + "/" + "manifest.json") == "docs/" + name + "/manifest.json";
    assert "docs" + "/" + (name + "/" + ("pages" + "/" + (Decimal(page) + ".md"))) == "docs/" + name + "/pages/" + Decimal(page) + ".md";
  }

  /** A padded number has at least five digits, no more than it needs beyond that, and the value of the number. */
  lemma PaddedIs(n: nat)
    ensures NumberOf(Padded(n)) == n && |Padded(n)| == (if |Decimal(n)| < 5 then 5 else |Decimal(n)|)
    ensures forall i :: 0 <= i < |Padded(n)| ==> '0' <= Padded(n)[i] <= '9'
  {
    NumberOfDecimal(n);
    NumberOfPadded(Zeros(5 - |Decimal(n)|), Decimal(n));
    ZerosLength(5 - |Decimal(n)|);
  }

  lemma {:induction false} ZerosLength(n: int)
    ensures |Zeros(n)| == if n <= 0 then 0 else n
    decreases if n <= 0 then 0 else n
  {
    if n > 0 {
      ZerosLength(n - 1);
    }
  }

  /** Keys of different kind, document or index never collide. */
  lemma KeysNeverCollide(fingerprint: bool -> string, a: ObjectKey, b: ObjectKey)
    requires CleanFingerprint(fingerprint) && CleanKey(a) && CleanKey(b)
    requires KeyText(fingerprint, a) == KeyText(fingerprint, b)
    ensures a == b
  {
    SplitFirst(KindText(a), KeyRest(fingerprint, a), KindText(b), KeyRest(fingerprint, b), '/');
    if !a.SourceKey? && !b.SourceKey? {
      DocTextClean(fingerprint, a.doc);
      DocTextClean(fingerprint, b.doc);
      SplitFirst(DocText(fingerprint, a.doc), KeyTail(a), DocText(fingerprint, b.doc), KeyTail(b), '/');
      DocTextInjective(fingerprint, a.doc, b.doc);
      TailInjective(a, b);
    } else {
      assert |KindText(a)| == |KindText(b)|;
    }
  }
}
