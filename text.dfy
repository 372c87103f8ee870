/** The parts of Rust's `str` and `char` API that the Markdown parser relies on,
    over Dafny strings (sequences of characters). */
module Text {

  datatype Option<T> = None | Some(value: T)

  /** Rust's `char::is_whitespace`: the characters with the Unicode White_Space property. */
  predicate IsWhitespace(c: char) {
    ('\t' <= c <= '\r') || c == ' ' || c == '\U{0085}' || c == '\U{00A0}' || c == '\U{1680}'
    || ('\U{2000}' <= c <= '\U{200A}') || c == '\U{2028}' || c == '\U{2029}'
    || c == '\U{202F}' || c == '\U{205F}' || c == '\U{3000}'
  }

  /** A decimal digit. Rust's `char::is_numeric` also accepts non-ASCII numerals; this model does not. */
  predicate IsDigit(c: char) {
    '0' <= c <= '9'
  }

  /** `str::starts_with` for a string pattern. */
  predicate StartsWith(s: string, p: string) {
    |p| <= |s| && s[..|p|] == p
  }

  /** A string whose first character differs from the pattern's does not start with it. */
  lemma FirstCharDiffers(s: string, p: string)
    requires s != [] && p != [] && s[0] != p[0]
    ensures !StartsWith(s, p)
  {
    if |p| <= |s| {
      assert s[..|p|][0] == s[0];
    }
  }

  /** `k` copies of `p` back to back. */
  function Repeat(p: string, k: nat): string {
    if k == 0 then [] else p + Repeat(p, k - 1)
  }

  /** No leading and no trailing whitespace. */
  predicate Trimmed(s: string) {
    s == [] || (!IsWhitespace(s[0]) && !IsWhitespace(s[|s| - 1]))
  }

  /** The first index whose character satisfies `f` (`str::find` with a closure). */
  function Position(s: string, f: char -> bool): (r: Option<nat>)
    ensures r.Some? ==> r.value < |s| && f(s[r.value])
    ensures r.Some? ==> forall j :: 0 <= j < r.value ==> !f(s[j])
    ensures r.None? ==> forall j :: 0 <= j < |s| ==> !f(s[j])
  {
    if s == [] then None
    else if f(s[0]) then Some(0)
    else match Position(s[1..], f)
      case None => None
      case Some(i) => Some(i + 1)
  }

  /** `str::trim_start_matches` with a closure: drops the longest prefix whose characters satisfy `f`. */
  function TrimStartBy(s: string, f: char -> bool): (r: string)
    ensures |r| <= |s|
    ensures r == [] || !f(r[0])
    ensures forall i :: 0 <= i < |s| - |r| ==> f(s[i])
  {
    if s != [] && f(s[0]) then TrimStartBy(s[1..], f) else s
  }

  /** `str::trim_end_matches` with a closure: drops the longest suffix whose characters satisfy `f`. */
  function TrimEndBy(s: string, f: char -> bool): (r: string)
    ensures |r| <= |s|
    ensures r == [] || !f(r[|r| - 1])
    ensures forall i :: |r| <= i < |s| ==> f(s[i])
  {
    if s != [] && f(s[|s| - 1]) then TrimEndBy(s[..|s| - 1], f) else s
  }

  /** `str::trim_matches` with a closure: both ends stripped of every character satisfying `f`. */
  function TrimBy(s: string, f: char -> bool): (r: string)
    ensures |r| <= |s|
    ensures r == [] || (!f(r[0]) && !f(r[|r| - 1]))
  {
    var front := TrimStartBy(s, f);
    TrimEndByPrefix(front, f);
    TrimEndBy(front, f)
  }

  /** What `TrimStartBy` keeps is a suffix of its input. */
  lemma {:induction false} TrimStartBySuffix(s: string, f: char -> bool)
    ensures var r := TrimStartBy(s, f); r == s[|s| - |r|..]
    decreases |s|
  {
    if s != [] && f(s[0]) {
      var r := TrimStartBy(s, f);
      TrimStartBySuffix(s[1..], f);
      assert s[1..][|s| - 1 - |r|..] == s[|s| - |r|..];
    }
  }

  /** What `TrimEndBy` keeps is a prefix of its input. */
  lemma {:induction false} TrimEndByPrefix(s: string, f: char -> bool)
    ensures var r := TrimEndBy(s, f); r == s[..|r|]
    decreases |s|
  {
    if s != [] && f(s[|s| - 1]) {
      var r := TrimEndBy(s, f);
      TrimEndByPrefix(s[..|s| - 1], f);
      assert s[..|s| - 1][..|r|] == s[..|r|];
    }
  }

  /** `TrimBy` keeps a contiguous slice of its input and cuts only characters satisfying
      `f` on either side of it. */
  lemma TrimBySlice(s: string, f: char -> bool)
    ensures var i := |s| - |TrimStartBy(s, f)|; var r := TrimBy(s, f);
      i + |r| <= |s| && r == s[i..i + |r|]
      && (forall j :: 0 <= j < i ==> f(s[j]))
      && (forall j :: i + |r| <= j < |s| ==> f(s[j]))
  {
    var front := TrimStartBy(s, f);
    var r := TrimEndBy(front, f);
    TrimStartBySuffix(s, f);
    TrimEndByPrefix(front, f);
    PrefixOfSuffix(s, front, r);
  }

  /** A prefix of a suffix is a slice, and the suffix past that prefix lines up with the end
      of the whole. */
  lemma PrefixOfSuffix(s: string, front: string, r: string)
    requires |front| <= |s| && front == s[|s| - |front|..]
    requires |r| <= |front| && r == front[..|r|]
    ensures r == s[|s| - |front|..|s| - |front| + |r|]
    ensures forall j :: |s| - |front| + |r| <= j < |s| ==> s[j] == front[j - (|s| - |front|)]
  {
  }

  /** A run of characters satisfying `f` in front of text that does not start with one is
      exactly what `TrimStartBy` removes. */
  lemma {:induction false} TrimStartByPadding(t: string, s: string, f: char -> bool)
    requires forall i :: 0 <= i < |t| ==> f(t[i])
    requires s == [] || !f(s[0])
    ensures TrimStartBy(t + s, f) == s
    decreases |t|
  {
    if t == [] {
      assert t + s == s;
    } else {
      assert (t + s)[1..] == t[1..] + s;
      TrimStartByPadding(t[1..], s, f);
    }
  }

  /** A run of characters satisfying `f` after text that does not end with one is exactly
      what `TrimEndBy` removes. */
  lemma {:induction false} TrimEndByPadding(s: string, t: string, f: char -> bool)
    requires forall i :: 0 <= i < |t| ==> f(t[i])
    requires s == [] || !f(s[|s| - 1])
    ensures TrimEndBy(s + t, f) == s
    decreases |t|
  {
    if t == [] {
      assert s + t == s;
    } else {
      assert (s + t)[..|s + t| - 1] == s + t[..|t| - 1];
      TrimEndByPadding(s, t[..|t| - 1], f);
    }
  }

  /** `str::trim_start`: a suffix of `s` that does not begin with whitespace. */
  function TrimStart(s: string): (r: string)
    ensures |r| <= |s|
    ensures r == [] || !IsWhitespace(r[0])
  {
    TrimStartBy(s, IsWhitespace)
  }

  /** `str::trim`: no whitespace left at either end (`TrimBy` says what was cut). */
  function Trim(s: string): (r: string)
    ensures |r| <= |s|
    ensures Trimmed(r)
  {
    TrimBy(s, IsWhitespace)
  }

  /** Whitespace padding on both sides of trimmed text is exactly what `Trim` removes. */
  lemma TrimPadding(front: string, s: string, back: string)
    requires forall i :: 0 <= i < |front| ==> IsWhitespace(front[i])
    requires forall i :: 0 <= i < |back| ==> IsWhitespace(back[i])
    requires s != [] && Trimmed(s)
    ensures Trim(front + s + back) == s
  {
    assert front + s + back == front + (s + back);
    TrimStartByPadding(front, s + back, IsWhitespace);
    TrimEndByPadding(s, back, IsWhitespace);
  }

  /** Leading whitespace is exactly what `TrimStart` removes. */
  lemma TrimStartPadding(front: string, s: string)
    requires forall i :: 0 <= i < |front| ==> IsWhitespace(front[i])
    requires s == [] || !IsWhitespace(s[0])
    ensures TrimStart(front + s) == s
  {
    TrimStartByPadding(front, s, IsWhitespace);
  }

  /** `str::trim_start_matches` with a string pattern: drops as many leading copies of `p` as there are. */
  function TrimStartMatches(s: string, p: string): (r: string)
    ensures |r| <= |s|
    ensures p != [] && StartsWith(s, p) ==> |r| <= |s| - |p|
    ensures p != [] ==> !StartsWith(r, p)
    decreases |s|
  {
    if p != [] && StartsWith(s, p) then TrimStartMatches(s[|p|..], p) else s
  }

  /** What `TrimStartMatches` keeps is a suffix of its input. */
  lemma {:induction false} TrimStartMatchesSuffix(s: string, p: string)
    ensures var r := TrimStartMatches(s, p); r == s[|s| - |r|..]
    decreases |s|
  {
    if p != [] && StartsWith(s, p) {
      var r := TrimStartMatches(s, p);
      TrimStartMatchesSuffix(s[|p|..], p);
      assert s[|p|..][|s| - |p| - |r|..] == s[|s| - |r|..];
    }
  }

  /** `k` copies of a one-character pattern are `k` copies of that character. */
  lemma {:induction false} RepeatChar(c: char, k: nat)
    ensures |Repeat([c], k)| == k
    ensures forall j :: 0 <= j < k ==> Repeat([c], k)[j] == c
  {
    if k > 0 {
      RepeatChar(c, k - 1);
    }
  }

  /** `trim_start_matches` removes every leading copy of the pattern, not just one:
      `k` copies followed by text that does not start with the pattern leave exactly that text. */
  lemma {:induction false} TrimStartMatchesRepeat(p: string, k: nat, rest: string)
    requires p != [] && !StartsWith(rest, p)
    ensures TrimStartMatches(Repeat(p, k) + rest, p) == rest
  {
    if k > 0 {
      var s := Repeat(p, k) + rest;
      assert s == p + (Repeat(p, k - 1) + rest);
      assert s[|p|..] == Repeat(p, k - 1) + rest;
      TrimStartMatchesRepeat(p, k - 1, rest);
    }
  }

  /** The index of the first `c` in `s`, if any. */
  function IndexOf(s: string, c: char): (r: Option<nat>)
    ensures r.None? <==> c !in s
    ensures r.Some? ==> r.value < |s| && s[r.value] == c && c !in s[..r.value]
  {
    if s == [] then None
    else if s[0] == c then Some(0)
    else match IndexOf(s[1..], c)
      case None => None
      case Some(i) =>
        assert s[..i + 1] == [s[0]] + s[1..][..i];
        Some(i + 1)
  }

  /** `str::split_once` with a character: the text before and after the first `c`. */
  function SplitOnce(s: string, c: char): (r: Option<(string, string)>)
    ensures r.None? <==> c !in s
    ensures r.Some? ==> s == r.value.0 + [c] + r.value.1 && c !in r.value.0
  {
    match IndexOf(s, c)
    case None => None
    case Some(i) =>
      assert s == s[..i] + [c] + s[i + 1..];
      Some((s[..i], s[i + 1..]))
  }

  /** Text free of `c`, then `c`, then anything: `split_once` splits at that `c`. */
  lemma SplitOnceAt(a: string, c: char, b: string)
    requires c !in a
    ensures SplitOnce(a + [c] + b, c) == Some((a, b))
  {
    var s := a + [c] + b;
    assert s[..|a|] == a && s[|a|] == c && s[|a| + 1..] == b;
  }

  /** The pieces of `parts` glued back together with `c` between them. */
  function Join(parts: seq<string>, c: char): string
    requires |parts| >= 1
  {
    if |parts| == 1 then parts[0] else parts[0] + [c] + Join(parts[1..], c)
  }

  /** `str::split` with a character: always at least one piece, none containing `c`,
      and gluing the pieces back with `c` gives `s` again. */
  function Split(s: string, c: char): (parts: seq<string>)
    ensures |parts| >= 1
    ensures forall i :: 0 <= i < |parts| ==> c !in parts[i]
    ensures Join(parts, c) == s
    decreases |s|
  {
    match SplitOnce(s, c)
    case None => [s]
    case Some((before, after)) =>
      var rest := Split(after, c);
      assert ([before] + rest)[1..] == rest;
      [before] + rest
  }
}
