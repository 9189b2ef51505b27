/** The string and list primitives the handlers lean on: JavaScript's `trim`,
    `toLowerCase`/`toUpperCase` (ASCII letters only) and the index filter
    `filter((_, i) => i !== idx)`. */
module Text {

  /** The characters JavaScript's `trim` strips: WhiteSpace and LineTerminator. */
  predicate IsSpace(c: char) {
    || c == ' '
    || ('\t' <= c <= '\r')       // tab, line feed, vertical tab, form feed, carriage return
    || c == '\U{00A0}' || c == '\U{1680}'
    || ('\U{2000}' <= c <= '\U{200A}')
    || c == '\U{2028}' || c == '\U{2029}' || c == '\U{202F}' || c == '\U{205F}'
    || c == '\U{3000}' || c == '\U{FEFF}'
  }

  /** A string that `trim` turns into the empty (falsy) string. */
  predicate IsBlank(s: string) {
    forall i :: 0 <= i < |s| ==> IsSpace(s[i])
  }

  /** `trimStart`: the suffix left after dropping the leading white space. */
  function TrimStart(s: string): (r: string)
    ensures |r| <= |s| && r == s[|s| - |r|..]
    ensures forall k :: 0 <= k < |s| - |r| ==> IsSpace(s[k])
    ensures r == [] || !IsSpace(r[0])
  {
    if |s| > 0 && IsSpace(s[0]) then TrimStart(s[1..]) else s
  }

  /** `trimEnd`: the prefix left after dropping the trailing white space. */
  function TrimEnd(s: string): (r: string)
    ensures |r| <= |s| && r == s[..|r|]
    ensures forall k :: |r| <= k < |s| ==> IsSpace(s[k])
    ensures r == [] || !IsSpace(r[|r| - 1])
  {
    if |s| > 0 && IsSpace(s[|s| - 1]) then TrimEnd(s[..|s| - 1]) else s
  }

  function Trim(s: string): (r: string)
    ensures |r| <= |s|
    ensures r == [] || (!IsSpace(r[0]) && !IsSpace(r[|r| - 1]))
  {
    TrimEnd(TrimStart(s))
  }

  /** `trim` keeps one contiguous piece of the input and drops only white space
      around it. */
  lemma TrimIsSlice(s: string)
    ensures exists i, j :: 0 <= i <= j <= |s| && Trim(s) == s[i..j] && OnlySpaceOutside(s, i, j)
  {
    var t := TrimStart(s);
    var r := TrimEnd(t);
    var i := |s| - |t|;
    assert r == s[i..i + |r|];
    assert forall k :: i + |r| <= k < |s| ==> s[k] == t[k - i];
    assert OnlySpaceOutside(s, i, i + |r|);
  }

  /** Every character of `s` before `i` and from `j` on is white space. */
  predicate OnlySpaceOutside(s: string, i: int, j: int)
    requires 0 <= i <= j <= |s|
  {
    && (forall k :: 0 <= k < i ==> IsSpace(s[k]))
    && (forall k :: j <= k < |s| ==> IsSpace(s[k]))
  }

  /** `!s.trim()` holds exactly for the strings made only of white space. */
  lemma TrimEmptyIffBlank(s: string)
    ensures Trim(s) == [] <==> IsBlank(s)
  {
    var t := TrimStart(s);
    TrimEndKeepsSolidHead(t);
    if Trim(s) == [] {
      assert |t| == 0;
    } else {
      var r := Trim(s);
      assert r[0] == t[0];
      assert t[0] == s[|s| - |t|];
    }
  }

  /** A string starting with a non-blank character does not trim to nothing. */
  lemma TrimEndKeepsSolidHead(t: string)
    ensures t != [] && !IsSpace(t[0]) ==> TrimEnd(t) != []
  {
    if t != [] && TrimEnd(t) == [] {
      assert IsSpace(t[0]);
    }
  }

  /** `trim` only removes characters: a property every character of `s` has, every
      character of the trimmed string has. */
  lemma TrimKeeps(s: string, p: char -> bool)
    requires forall i :: 0 <= i < |s| ==> p(s[i])
    ensures forall i :: 0 <= i < |Trim(s)| ==> p(Trim(s)[i])
  {
    var t := TrimStart(s);
    var r := TrimEnd(t);
    forall i | 0 <= i < |r| ensures p(r[i]) {
      assert r[i] == t[i] == s[|s| - |t| + i];
    }
  }

  function LowerChar(c: char): (d: char)
    ensures !('A' <= d <= 'Z')
    ensures IsSpace(d) <==> IsSpace(c)
  {
    if 'A' <= c <= 'Z' then (c as int + 32) as char else c
  }

  function UpperChar(c: char): (d: char)
    ensures !('a' <= d <= 'z')
    ensures IsSpace(d) <==> IsSpace(c)
  {
    if 'a' <= c <= 'z' then (c as int - 32) as char else c
  }

  /** `toLowerCase`, restricted to the ASCII letters. */
  function ToLower(s: string): (r: string)
    ensures |r| == |s|
    ensures forall i :: 0 <= i < |s| ==> r[i] == LowerChar(s[i])
  {
    seq(|s|, i requires 0 <= i < |s| => LowerChar(s[i]))
  }

  /** `toUpperCase`, restricted to the ASCII letters. */
  function ToUpper(s: string): (r: string)
    ensures |r| == |s|
    ensures forall i :: 0 <= i < |s| ==> r[i] == UpperChar(s[i])
  {
    seq(|s|, i requires 0 <= i < |s| => UpperChar(s[i]))
  }

  /** Case-insensitive comparison as `a.toLowerCase() === b.toLowerCase()`. */
  predicate SameIgnoringCase(a: string, b: string) {
    ToLower(a) == ToLower(b)
  }

  lemma SameIgnoringCaseIsEquivalence(a: string, b: string, c: string)
    ensures SameIgnoringCase(a, a)
    ensures SameIgnoringCase(a, b) ==> SameIgnoringCase(b, a)
    ensures SameIgnoringCase(a, b) && SameIgnoringCase(b, c) ==> SameIgnoringCase(a, c)
  {
  }

  /** Upper-casing keeps the blank characters where they were, so the tag a user
      adds has no white space at either end. */
  lemma TrimOfUpperHasNoOuterSpace(s: string)
    ensures Trim(ToUpper(s)) == [] <==> IsBlank(s)
  {
    TrimEmptyIffBlank(ToUpper(s));
    assert IsBlank(ToUpper(s)) <==> IsBlank(s) by {
      assert forall i :: 0 <= i < |s| ==> (IsSpace(ToUpper(s)[i]) <==> IsSpace(s[i]));
    }
  }

  /** `a` is `b` with some elements left out, the rest in their original order. */
  predicate IsSubsequence<T(==)>(a: seq<T>, b: seq<T>)
    decreases |b|
  {
    || a == []
    || (b != [] && ((a[0] == b[0] && IsSubsequence(a[1..], b[1..])) || IsSubsequence(a, b[1..])))
  }

  /** One step of a filter: keeping or dropping the head of `b` in front of a
      subsequence of its tail gives a subsequence of `b`. */
  lemma FilterStep<T>(keep: bool, b: seq<T>, rest: seq<T>)
    requires b != [] && IsSubsequence(rest, b[1..])
    ensures IsSubsequence((if keep then [b[0]] else []) + rest, b)
  {
    if keep {
      assert ([b[0]] + rest)[1..] == rest;
    } else {
      assert [] + rest == rest;
    }
  }

  /** `xs.filter((_, i) => i !== idx)`, written as the filter runs: element by element. */
  function RemoveAt<T>(xs: seq<T>, idx: int): (r: seq<T>)
    ensures |r| == if 0 <= idx < |xs| then |xs| - 1 else |xs|
  {
    if xs == [] then []
    else (if idx == 0 then [] else [xs[0]]) + RemoveAt(xs[1..], idx - 1)
  }

  /** The filter removes exactly position `idx` and keeps every other element in order;
      an index outside the list leaves it unchanged. */
  lemma {:induction false} RemoveAtSplices<T>(xs: seq<T>, idx: int)
    ensures RemoveAt(xs, idx) == if 0 <= idx < |xs| then xs[..idx] + xs[idx + 1..] else xs
  {
    if xs != [] {
      var rest := RemoveAt(xs[1..], idx - 1);
      RemoveAtSplices(xs[1..], idx - 1);
      if idx == 0 {
        assert rest == xs[1..];
        assert [] + rest == xs[..0] + xs[1..];
      } else if 0 < idx < |xs| {
        assert rest == xs[1..][..idx - 1] + xs[1..][idx..];
        SpliceAfterHead(xs, idx);
      } else {
        assert rest == xs[1..];
        assert [xs[0]] + rest == xs;
      }
    }
  }

  lemma SpliceAfterHead<T>(xs: seq<T>, idx: int)
    requires 0 < idx < |xs|
    ensures [xs[0]] + (xs[1..][..idx - 1] + xs[1..][idx..]) == xs[..idx] + xs[idx + 1..]
  {
    assert xs[1..][..idx - 1] == xs[1..idx];
    assert xs[1..][idx..] == xs[idx + 1..];
    assert [xs[0]] + xs[1..idx] == xs[..idx];
  }
}
