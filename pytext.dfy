/** Python's whitespace splitting of a display name: `s.split()` (every word) and
    `s.split(maxsplit=1)` (the first word and the untouched remainder). */
module PyText {

  /** The characters `str.isspace()` accepts, which is what `str.split()` with no
      separator splits on. */
  predicate IsSpace(c: char) {
    ('\U{0009}' <= c <= '\U{000D}') || ('\U{001C}' <= c <= '\U{0020}') || c == '\U{0085}' || c == '\U{00A0}'
    || c == '\U{1680}' || ('\U{2000}' <= c <= '\U{200A}') || c == '\U{2028}' || c == '\U{2029}'
    || c == '\U{202F}' || c == '\U{205F}' || c == '\U{3000}'
  }

  predicate Blank(s: string) {
    forall i :: 0 <= i < |s| ==> IsSpace(s[i])
  }

  /** A word as `split` returns it: non-empty and free of whitespace. */
  predicate IsWord(w: string) {
    w != [] && forall i :: 0 <= i < |w| ==> !IsSpace(w[i])
  }

  /** `s` with its leading whitespace removed. */
  function SkipSpace(s: string): (r: string)
    ensures |r| <= |s| && r == s[|s| - |r|..]
    ensures r == [] || !IsSpace(r[0])
    ensures Blank(s[..|s| - |r|])
  {
    if s != [] && IsSpace(s[0]) then
      var r := SkipSpace(s[1..]);
      assert s[1..][..|s[1..]| - |r|] == s[1..|s| - |r|];
      r
    else s
  }

  /** The length of the leading run of non-whitespace characters of `s`. */
  function WordLength(s: string): (n: nat)
    ensures n <= |s|
    ensures forall i :: 0 <= i < n ==> !IsSpace(s[i])
    ensures n < |s| ==> IsSpace(s[n])
  {
    if s == [] || IsSpace(s[0]) then 0 else 1 + WordLength(s[1..])
  }

  /** `s.split()`: the maximal runs of non-whitespace characters, in order. */
  function Words(s: string): seq<string>
    decreases |s|
  {
    var t := SkipSpace(s);
    if t == [] then []
    else
      var n := WordLength(t);
      [t[..n]] + Words(t[n..])
  }

  /** `s.split(maxsplit=1)`: no element for a blank string; otherwise the first word,
      followed by the rest of `s` after the whitespace that ends that word, when that
      rest is not empty. Inner and trailing whitespace stay in the rest. */
  function SplitOnce(s: string): seq<string> {
    var t := SkipSpace(s);
    if t == [] then []
    else
      var n := WordLength(t);
      var rest := SkipSpace(t[n..]);
      if rest == [] then [t[..n]] else [t[..n], rest]
  }

  /** `u` is `s` with some (possibly no) leading characters removed. */
  predicate IsTail(u: string, s: string)
    decreases |s|
  {
    u == s || (s != [] && IsTail(u, s[1..]))
  }

  lemma {:induction false} SkipSpaceBlank(s: string)
    ensures SkipSpace(s) == [] <==> Blank(s)
  {
    var r := SkipSpace(s);
    var k := |s| - |r|;
    if r == [] {
      assert s[..k] == s;
    } else {
      assert s[k] == r[0];
      assert !IsSpace(s[k]);
    }
  }

  /** Leading whitespace makes no difference to `split()`. */
  lemma {:induction false} WordsSkipSpace(s: string)
    ensures Words(SkipSpace(s)) == Words(s)
  {
    var t := SkipSpace(s);
    assert SkipSpace(t) == t;
  }

  /** Every element of `split()` is a word. */
  lemma {:induction false} WordsAreWords(s: string)
    ensures forall w :: w in Words(s) ==> IsWord(w)
    ensures forall k :: 0 <= k < |Words(s)| ==> IsWord(Words(s)[k])
    decreases |s|
  {
    var t := SkipSpace(s);
    if t != [] {
      var n := WordLength(t);
      WordsAreWords(t[n..]);
      assert IsWord(t[..n]);
    }
  }

  /** `split()` is empty exactly for a blank string. */
  lemma {:induction false} WordsEmptyIffBlank(s: string)
    ensures Words(s) == [] <==> Blank(s)
  {
    SkipSpaceBlank(s);
  }

  /** `split(maxsplit=1)` agrees with `split()`: it is empty exactly when `split()` is, its
      first element is the first word, and its second element, when there is one, splits
      into all the remaining words. */
  lemma {:induction false} SplitOnceAgreesWithWords(s: string)
    ensures |SplitOnce(s)| <= 2
    ensures SplitOnce(s) == [] <==> Words(s) == []
    ensures SplitOnce(s) != [] ==> SplitOnce(s)[0] == Words(s)[0]
    ensures |SplitOnce(s)| == 1 ==> |Words(s)| == 1
    ensures |SplitOnce(s)| == 2 ==> Words(SplitOnce(s)[1]) == Words(s)[1..] && |Words(s)| >= 2
  {
    var t := SkipSpace(s);
    if t != [] {
      var n := WordLength(t);
      var rest := SkipSpace(t[n..]);
      WordsSkipSpace(t[n..]);
      assert Words(s) == [t[..n]] + Words(t[n..]);
      SkipSpaceBlank(t[n..]);
      WordsEmptyIffBlank(t[n..]);
      if rest != [] {
        WordsEmptyIffBlank(rest);
      }
    }
  }

  /** The first element of `split(maxsplit=1)` is a word, and the remainder is the untouched
      tail of `s`: it neither starts with whitespace nor is empty, and it keeps every
      character after that point, inner and trailing whitespace included. */
  lemma {:induction false} SplitOnceShape(s: string)
    ensures SplitOnce(s) != [] ==> IsWord(SplitOnce(s)[0])
    ensures |SplitOnce(s)| == 2 ==> SplitOnce(s)[1] != [] && !IsSpace(SplitOnce(s)[1][0])
    ensures |SplitOnce(s)| == 2 ==> IsTail(SplitOnce(s)[1], s)
  {
    SplitOnceAgreesWithWords(s);
    WordsAreWords(s);
    var t := SkipSpace(s);
    if t != [] {
      var n := WordLength(t);
      var u := t[n..];
      SkipSpaceTail(s);
      DropTail(t, n);
      SkipSpaceTail(u);
      TailTrans(u, t, s);
      TailTrans(SkipSpace(u), u, s);
    }
  }

  /** A tail is what remains after dropping a prefix: `IsTail(u, s)` holds exactly when
      `u` is the last `|u|` characters of `s`. */
  lemma {:induction false} TailIsDrop(u: string, s: string)
    ensures IsTail(u, s) <==> |u| <= |s| && u == s[|s| - |u|..]
    decreases |s|
  {
    if u != s && s != [] {
      TailIsDrop(u, s[1..]);
      if |u| < |s| {
        assert s[1..][|s| - 1 - |u|..] == s[|s| - |u|..];
      } else {
        assert |u| <= |s| ==> s[|s| - |u|..] == s;
      }
    }
  }

  lemma {:induction false} TailTrans(a: string, b: string, c: string)
    requires IsTail(a, b) && IsTail(b, c)
    ensures IsTail(a, c)
    decreases |c|
  {
    if b != c {
      TailTrans(a, b, c[1..]);
    }
  }

  /** Skipping leading whitespace leaves a tail. */
  lemma {:induction false} SkipSpaceTail(s: string)
    ensures IsTail(SkipSpace(s), s)
    decreases |s|
  {
    if s != [] && IsSpace(s[0]) {
      SkipSpaceTail(s[1..]);
    }
  }

  lemma {:induction false} DropTail(s: string, n: nat)
    requires n <= |s|
    ensures IsTail(s[n..], s)
    decreases n
  {
    if n > 0 {
      DropTail(s[1..], n - 1);
      assert s[1..][n - 1..] == s[n..];
    } else {
      assert s[n..] == s;
    }
  }

  lemma {:induction false} WordLengthOfWord(w: string)
    requires forall i :: 0 <= i < |w| ==> !IsSpace(w[i])
    ensures WordLength(w) == |w|
    decreases |w|
  {
    if w != [] {
      WordLengthOfWord(w[1..]);
    }
  }

  /** A single word splits into itself. */
  lemma {:induction false} WordsOfWord(w: string)
    requires IsWord(w)
    ensures Words(w) == [w]
  {
    WordLengthOfWord(w);
    assert SkipSpace(w) == w;
    assert w[..|w|] == w && w[|w|..] == [];
  }
}
