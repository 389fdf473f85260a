/** Text as the service handles it: blank-line blocks, joining, splitting and whitespace. */
module Text {

  /** The paragraph separator, a blank line. */
  const SEP: string := "\n\n"

  /** All the texts one after the other. */
  function Concat(texts: seq<string>): string {
    if texts == [] then "" else Concat(texts[..|texts| - 1]) + texts[|texts| - 1]
  }

  /** The texts with a separator between neighbours, as `SEP.join(texts)`. */
  function Join(texts: seq<string>): string {
    if |texts| == 0 then ""
    else if |texts| == 1 then texts[0]
    else Join(texts[..|texts| - 1]) + SEP + texts[|texts| - 1]
  }

  /** What joining means, with the separator written out. */
  lemma JoinIs(texts: seq<string>, a: string, b: string)
    ensures Join([]) == "" && Join([a]) == a && Join([a, b]) == a + "\n\n" + b
    ensures texts != [] ==> Join(texts + [b]) == Join(texts) + "\n\n" + b
  {
    assert [a, b][..1] == [a];
    if texts != [] {
      assert (texts + [b])[..|texts|] == texts;
    }
  }

  /** A separator starts at position `i`. */
  predicate SepAt(s: string, i: nat) {
    i + 1 < |s| && s[i] == '\n' && s[i + 1] == '\n'
  }

  /** The leftmost separator at or after `from`, or the length of the text if there is none. */
  function FindSep(s: string, from: nat): (i: nat)
    requires from <= |s|
    ensures from <= i <= |s|
    ensures i < |s| ==> SepAt(s, i)
    ensures forall k :: from <= k < i ==> !SepAt(s, k)
    decreases |s| - from
  {
    if from == |s| || SepAt(s, from) then from else FindSep(s, from + 1)
  }

  /** `s.split(SEP)`: cut at every leftmost, non-overlapping separator. */
  function Split(s: string): (blocks: seq<string>)
    ensures |blocks| >= 1
    decreases |s|
  {
    var i := FindSep(s, 0);
    if i == |s| then [s] else [s[..i]] + Split(s[i + 2..])
  }

  /** What a leftmost split produces: no block holds a separator, and only the last may end in a newline. */
  ghost predicate IsSplit(blocks: seq<string>) {
    && |blocks| >= 1
    && (forall k, i: nat :: 0 <= k < |blocks| ==> !SepAt(blocks[k], i))
    && (forall k :: 0 <= k < |blocks| - 1 && blocks[k] != "" ==> blocks[k][|blocks[k]| - 1] != '\n')
  }

  lemma {:induction false} JoinCons(b: string, bs: seq<string>)
    requires |bs| >= 1
    ensures Join([b] + bs) == b + SEP + Join(bs)
  {
    var all := [b] + bs;
    var n := |bs| - 1;
    if n == 0 {
      assert all[..1] == [b];
    } else {
      JoinCons(b, bs[..n]);
      assert all[..|all| - 1] == [b] + bs[..n];
      calc {
        Join(all);
        Join([b] + bs[..n]) + SEP + bs[n];
        (b + SEP + Join(bs[..n])) + SEP + bs[n];
        b + SEP + (Join(bs[..n]) + SEP + bs[n]);
      }
    }
  }

  /** Splitting loses nothing: joining the blocks again gives the text back. */
  lemma {:induction false} JoinSplit(s: string)
    ensures Join(Split(s)) == s
    decreases |s|
  {
    var i := FindSep(s, 0);
    if i < |s| {
      JoinSplit(s[i + 2..]);
      JoinCons(s[..i], Split(s[i + 2..]));
      assert s == s[..i] + SEP + s[i + 2..];
    }
  }

  lemma {:induction false} SplitIsSplit(s: string)
    ensures IsSplit(Split(s))
    decreases |s|
  {
    var i := FindSep(s, 0);
    if i < |s| {
      SplitIsSplit(s[i + 2..]);
      var rest := Split(s[i + 2..]);
      assert forall k: nat :: SepAt(s[..i], k) ==> SepAt(s, k);
      if i > 0 {
        assert !SepAt(s, i - 1);
      }
      assert Split(s) == [s[..i]] + rest;
    } else {
      assert forall k: nat :: SepAt(s, k) ==> k < i;
    }
  }

  /** ... and it is the only leftmost cutting of that text: splitting undoes joining. */
  lemma {:induction false} SplitJoin(blocks: seq<string>)
    requires IsSplit(blocks)
    ensures Split(Join(blocks)) == blocks
  {
    var s := Join(blocks);
    var b := blocks[0];
    if |blocks| == 1 {
      assert s == b;
      assert FindSep(s, 0) == |s|;
    } else {
      var rest := blocks[1..];
      assert blocks == [b] + rest;
      JoinCons(b, rest);
      var i := FindSep(s, 0);
      assert SepAt(s, |b|);
      assert forall k :: 0 <= k < |b| ==> !SepAt(s, k) by {
        forall k | 0 <= k < |b| ensures !SepAt(s, k) {
          assert !SepAt(b, k);
        }
      }
      assert i == |b|;
      assert s[..i] == b && s[i + 2..] == Join(rest);
      assert IsSplit(rest) by {
        forall k, n: nat | 0 <= k < |rest| ensures !SepAt(rest[k], n) {
          assert !SepAt(blocks[k + 1], n);
        }
        forall k | 0 <= k < |rest| - 1 && rest[k] != ""
          ensures rest[k][|rest[k]| - 1] != '\n'
        {
          assert blocks[k + 1] == rest[k];
        }
      }
      SplitJoin(rest);
    }
  }

  /** The characters Python's `str.strip` removes. */
  predicate IsSpace(c: char) {
    || '\t' <= c <= '\r'
    || '\U{1C}' <= c <= ' '
    || c == '\U{85}' || c == '\U{A0}' || c == '\U{1680}'
    || '\U{2000}' <= c <= '\U{200A}'
    || c == '\U{2028}' || c == '\U{2029}' || c == '\U{202F}' || c == '\U{205F}' || c == '\U{3000}'
  }

  /** The text without any whitespace. */
  function Ink(s: string): string {
    if s == "" then ""
    else Ink(s[..|s| - 1]) + if IsSpace(s[|s| - 1]) then "" else [s[|s| - 1]]
  }

  /** A text `str.strip` would empty. */
  predicate IsBlank(s: string) {
    forall i :: 0 <= i < |s| ==> IsSpace(s[i])
  }

  lemma {:induction false} InkConcat(a: string, b: string)
    ensures Ink(a + b) == Ink(a) + Ink(b)
  {
    if b == "" {
      assert a + b == a;
    } else {
      var n := |b| - 1;
      InkConcat(a, b[..n]);
      assert (a + b)[..|a + b| - 1] == a + b[..n];
      assert (a + b)[|a + b| - 1] == b[n];
    }
  }

  lemma {:induction false} InkBlank(s: string)
    ensures IsBlank(s) <==> Ink(s) == ""
  {
    if s != "" {
      var n := |s| - 1;
      InkBlank(s[..n]);
      assert s == s[..n] + [s[n]];
    }
  }

  lemma InkSep()
    ensures Ink(SEP) == ""
  {
    InkBlank(SEP);
  }

  lemma ConcatSnoc(texts: seq<string>, t: string)
    ensures Concat(texts + [t]) == Concat(texts) + t
  {
    assert (texts + [t])[..|texts|] == texts;
  }

  /** Lengths of several texts, added up. */
  function TotalLength(texts: seq<string>): nat {
    if texts == [] then 0 else TotalLength(texts[..|texts| - 1]) + |texts[|texts| - 1]|
  }

  lemma ConcatLength(texts: seq<string>)
    ensures |Concat(texts)| == TotalLength(texts)
  {
  }
}
