/** The JavaScript string operations the client relies on, with their JavaScript semantics. */
module Strings {

  /** The characters matched by `\s` in a regular expression and removed by `trim()`:
      ECMAScript WhiteSpace and LineTerminator code points. */
  predicate IsSpace(c: char) {
    c == ' ' || c == '\t' || c == '\n' || c == '\r' || c == '\U{000B}' || c == '\U{000C}'
    || c == '\U{00A0}' || c == '\U{1680}' || ('\U{2000}' <= c <= '\U{200A}')
    || c == '\U{2028}' || c == '\U{2029}' || c == '\U{202F}' || c == '\U{205F}'
    || c == '\U{3000}' || c == '\U{FEFF}'
  }

  predicate AllSpace(s: string) {
    forall k :: 0 <= k < |s| ==> IsSpace(s[k])
  }

  /** Neither the first nor the last character is white space. */
  predicate NoSpaceEdges(s: string) {
    s == [] || (!IsSpace(s[0]) && !IsSpace(s[|s| - 1]))
  }

  /** The number of white-space characters at the front of `s`. */
  function LeadingSpace(s: string): (n: nat)
    ensures n <= |s|
    ensures forall k :: 0 <= k < n ==> IsSpace(s[k])
    ensures n == |s| || !IsSpace(s[n])
  {
    if s != [] && IsSpace(s[0]) then
      var n := LeadingSpace(s[1..]);
      assert forall k :: 1 <= k <= n ==> s[k] == s[1..][k - 1];
      n + 1
    else 0
  }

  /** The position just after the last character of `s` that is not white space, or 0. */
  function TextEnd(s: string): (n: nat)
    ensures n <= |s|
    ensures forall k :: n <= k < |s| ==> IsSpace(s[k])
    ensures n == 0 || !IsSpace(s[n - 1])
  {
    if s != [] && IsSpace(s[|s| - 1]) then TextEnd(s[..|s| - 1]) else |s|
  }

  /** The count of leading white space is the only position with white space before it and
      a visible character (or the end) at it. */
  lemma LeadingSpaceIs(s: string, n: nat)
    requires n <= |s| && (forall k :: 0 <= k < n ==> IsSpace(s[k])) && (n == |s| || !IsSpace(s[n]))
    ensures LeadingSpace(s) == n
  {
  }

  /** The end of the text is the only position with white space after it and a visible
      character (or the start) before it. */
  lemma TextEndIs(s: string, n: nat)
    requires n <= |s| && (forall k :: n <= k < |s| ==> IsSpace(s[k])) && (n == 0 || !IsSpace(s[n - 1]))
    ensures TextEnd(s) == n
  {
  }

  /** `s.trimStart()`: the suffix left after dropping leading white space. */
  function TrimStart(s: string): (r: string)
    ensures |r| <= |s| && r == s[|s| - |r|..]
    ensures r == [] || !IsSpace(r[0])
    ensures AllSpace(s[..|s| - |r|])
  {
    s[LeadingSpace(s)..]
  }

  /** `s.trimEnd()`: the prefix left after dropping trailing white space. */
  function TrimEnd(s: string): (r: string)
    ensures |r| <= |s| && r == s[..|r|]
    ensures r == [] || !IsSpace(r[|r| - 1])
    ensures AllSpace(s[|r|..])
  {
    s[..TextEnd(s)]
  }

  /** `s.trim()`: the slice of `s` between its leading and trailing white space. */
  function Trim(s: string): (r: string)
    ensures NoSpaceEdges(r)
    ensures |r| <= |s|
    ensures r == [] <==> AllSpace(s)
    ensures exists i :: OccursAt(s, r, i) && AllSpace(s[..i]) && AllSpace(s[i + |r|..])
  {
    var i, j := LeadingSpace(s), TextEnd(s);
    if i == |s| then
      assert j == 0;
      assert OccursAt(s, [], 0);
      []
    else
      assert i < j;
      assert !AllSpace(s);
      assert OccursAt(s, s[i..j], i);
      s[i..j]
  }

  /** Trimming `p + m` for a blank `p` and an `m` that starts with a visible character only
      trims the end of `m`. */
  lemma TrimPadded(p: string, m: string)
    requires AllSpace(p) && m != [] && !IsSpace(m[0])
    ensures Trim(p + m) == TrimEnd(m)
  {
    var s := p + m;
    LeadingSpaceIs(s, |p|);
    var e := TextEnd(m);
    assert s[|p|] == m[0];
    TextEndIs(s, |p| + e);
    assert s[|p|..|p| + e] == m[..e];
  }

  /** Trailing white space appended to `m` is removed by `TrimEnd`. */
  lemma TrimEndPadded(m: string, q: string)
    requires AllSpace(q)
    ensures TrimEnd(m + q) == TrimEnd(m)
  {
    var e := TextEnd(m);
    TextEndIs(m + q, e);
    assert (m + q)[..e] == m[..e];
  }

  /** `TrimEnd` of a concatenation only touches the right operand when that operand is not blank. */
  lemma TrimEndAppend(a: string, b: string)
    requires TrimEnd(b) != []
    ensures TrimEnd(a + b) == a + TrimEnd(b)
  {
    var e := TextEnd(b);
    TextEndIs(a + b, |a| + e);
    assert (a + b)[..|a| + e] == a + b[..e];
  }

  /** `s.indexOf(c)`: the first position of `c`, or -1. */
  function IndexOf(s: string, c: char): (r: int)
    ensures -1 <= r < |s|
    ensures r == -1 <==> c !in s
    ensures r >= 0 ==> s[r] == c && c !in s[..r]
  {
    if s == [] then -1
    else if s[0] == c then 0
    else
      var k := IndexOf(s[1..], c);
      assert k >= 0 ==> s[..k + 1] == [s[0]] + s[1..][..k];
      if k == -1 then -1 else k + 1
  }

  /** `s.lastIndexOf(c)`: the last position of `c`, or -1. */
  function LastIndexOf(s: string, c: char): (r: int)
    ensures -1 <= r < |s|
    ensures r == -1 <==> c !in s
    ensures r >= 0 ==> s[r] == c && c !in s[r + 1..]
  {
    if s == [] then -1
    else if s[|s| - 1] == c then |s| - 1
    else
      var init := s[..|s| - 1];
      var k := LastIndexOf(init, c);
      if k == -1 then
        assert s == init + [s[|s| - 1]];
        -1
      else
        assert s[k + 1..] == init[k + 1..] + [s[|s| - 1]];
        k
  }

  /** A position holding `c` with no `c` before it is what `IndexOf` returns. */
  lemma IndexOfIs(s: string, c: char, k: nat)
    requires k < |s| && s[k] == c && c !in s[..k]
    ensures IndexOf(s, c) == k
  {
    assert c in s by { assert s[k] == c; }
  }

  /** A position holding `c` with no `c` after it is what `LastIndexOf` returns. */
  lemma LastIndexOfIs(s: string, c: char, k: nat)
    requires k < |s| && s[k] == c && c !in s[k + 1..]
    ensures LastIndexOf(s, c) == k
  {
    assert c in s by { assert s[k] == c; }
  }

  /** The index argument of `substring`, clamped into `[0, len]`. */
  function Clamp(i: int, len: nat): (r: nat)
    ensures r <= len
  {
    if i < 0 then 0 else if i > len then len else i
  }

  /** `s.substring(start, end)`: both bounds are clamped and swapped when `start > end`. */
  function Substring(s: string, start: int, end: int): (r: string)
    ensures 0 <= start <= end <= |s| ==> r == s[start..end]
    ensures 0 <= end <= start <= |s| ==> r == s[end..start]
    ensures exists i :: OccursAt(s, r, i)
  {
    var a := Clamp(start, |s|);
    var b := Clamp(end, |s|);
    var r := if a <= b then s[a..b] else s[b..a];
    assert OccursAt(s, r, if a <= b then a else b);
    r
  }

  /** `t` occurs in `s` at position `i`. */
  predicate OccursAt(s: string, t: string, i: int) {
    0 <= i && i + |t| <= |s| && s[i..i + |t|] == t
  }

  /** `s.includes(t)`. */
  predicate Contains(s: string, t: string) {
    exists i | 0 <= i <= |s| - |t| :: OccursAt(s, t, i)
  }

  /** The text around `t` leaves it contained. */
  lemma ContainsInside(a: string, t: string, b: string)
    ensures Contains(a + t + b, t)
  {
    assert OccursAt(a + t + b, t, |a|);
  }

  /** A string contained in a slice is contained in the whole. */
  lemma ContainsWiden(a: string, s: string, b: string, t: string)
    requires Contains(s, t)
    ensures Contains(a + s + b, t)
  {
    var i :| 0 <= i <= |s| - |t| && OccursAt(s, t, i);
    assert (a + s + b)[|a| + i..|a| + i + |t|] == s[i..i + |t|];
    assert OccursAt(a + s + b, t, |a| + i);
  }

  /** The first position at or after `from` where `pat` occurs, or -1. */
  function FindFrom(s: string, pat: string, from: nat): (r: int)
    requires from <= |s|
    ensures r == -1 || (from <= r && OccursAt(s, pat, r))
    ensures forall j :: from <= j && (r == -1 || j < r) ==> !OccursAt(s, pat, j)
    decreases |s| - from
  {
    if from + |pat| > |s| then -1
    else if s[from..from + |pat|] == pat then from
    else if from == |s| then -1
    else FindFrom(s, pat, from + 1)
  }

  /** `s.indexOf(pat)` for a string pattern. */
  function Find(s: string, pat: string): (r: int)
    ensures r == -1 <==> !Contains(s, pat)
    ensures r >= 0 ==> OccursAt(s, pat, r)
    ensures r >= 0 ==> forall j :: 0 <= j < r ==> !OccursAt(s, pat, j)
  {
    FindFrom(s, pat, 0)
  }

  /** `s.replace(pat, rep)` with a string pattern: only the first occurrence is replaced. */
  function ReplaceFirst(s: string, pat: string, rep: string): (r: string)
    ensures !Contains(s, pat) ==> r == s
    ensures Contains(s, pat) ==> |r| == |s| - |pat| + |rep|
    ensures |pat| <= |s| && s[..|pat|] == pat ==> r == rep + s[|pat|..]
    // the occurrence replaced is the first one, and the text around it is kept
    ensures Contains(s, pat) ==>
      exists i :: && OccursAt(s, pat, i)
                  && (forall j :: 0 <= j < i ==> !OccursAt(s, pat, j))
                  && r == s[..i] + rep + s[i + |pat|..]
  {
    var i := Find(s, pat);
    assert |pat| <= |s| && s[..|pat|] == pat ==> OccursAt(s, pat, 0) && i == 0;
    if i < 0 then s else s[..i] + rep + s[i + |pat|..]
  }

  /** `c.toLowerCase()` for the ASCII and Latin-1 upper-case letters. */
  function LowerChar(c: char): char {
    if 'A' <= c <= 'Z' then (c as int + 32) as char
    else if '\U{00C0}' <= c <= '\U{00DE}' && c != '\U{00D7}' then (c as int + 32) as char
    else c
  }

  /** `s.toLowerCase()`, character by character. */
  function ToLower(s: string): (r: string)
    ensures |r| == |s|
    ensures forall i :: 0 <= i < |s| ==> r[i] == LowerChar(s[i])
  {
    seq(|s|, i requires 0 <= i < |s| => LowerChar(s[i]))
  }

  /** `xs.join(sep)`. */
  function Join(xs: seq<string>, sep: string): string {
    if |xs| == 0 then ""
    else if |xs| == 1 then xs[0]
    else xs[0] + sep + Join(xs[1..], sep)
  }

  /** `s.split(c)` for a one-character separator: always at least one piece. */
  function Split(s: string, c: char): (r: seq<string>)
    ensures |r| >= 1
    ensures forall k :: 0 <= k < |r| ==> c !in r[k]
    decreases |s|
  {
    var i := IndexOf(s, c);
    if i < 0 then [s]
    else
      var rest := Split(s[i + 1..], c);
      var r := [s[..i]] + rest;
      assert r[0] == s[..i];
      assert forall k :: 1 <= k < |r| ==> c !in r[k] by {
        forall k | 1 <= k < |r| ensures c !in r[k] {
          assert r[k] == rest[k - 1];
        }
      }
      r
  }

  /** Joining pieces that do not contain the separator and splitting again gives the pieces back. */
  lemma {:induction false} SplitJoin(xs: seq<string>, c: char)
    requires |xs| >= 1
    requires forall k :: 0 <= k < |xs| ==> c !in xs[k]
    ensures Split(Join(xs, [c]), c) == xs
  {
    var s := Join(xs, [c]);
    if |xs| == 1 {
      assert s == xs[0];
      assert IndexOf(s, c) == -1;
    } else {
      var head := xs[0];
      var rest := Join(xs[1..], [c]);
      assert s == head + [c] + rest;
      IndexOfAfter(head, c, rest);
      assert s[..|head|] == head;
      assert s[|head| + 1..] == rest;
      SplitJoin(xs[1..], c);
      assert Split(s, c) == [head] + Split(rest, c);
      assert xs == [head] + xs[1..];
    }
  }

  /** The separator right after a piece without it is the first one. */
  lemma IndexOfAfter(head: string, c: char, rest: string)
    requires c !in head
    ensures IndexOf(head + [c] + rest, c) == |head|
  {
    var s := head + [c] + rest;
    assert s[..|head|] == head;
    assert s[|head|] == c;
  }

  /** Appending a separator and a last piece without it adds exactly that piece to the split. */
  lemma {:induction false} SplitAppend(a: string, c: char, s: string)
    requires c !in s
    ensures Split(a + [c] + s, c) == Split(a, c) + [s]
    decreases |a|
  {
    var t := a + [c] + s;
    var i := IndexOf(a, c);
    if i < 0 {
      IndexOfAfter(a, c, s);
      assert t[..|a|] == a;
      assert t[|a| + 1..] == s;
      assert Split(s, c) == [s];
      assert Split(t, c) == [a] + [s];
    } else {
      assert t[..i] == a[..i];
      IndexOfIs(t, c, i);
      assert t[i + 1..] == a[i + 1..] + [c] + s;
      SplitAppend(a[i + 1..], c, s);
      assert Split(t, c) == [a[..i]] + (Split(a[i + 1..], c) + [s]);
      assert Split(a, c) == [a[..i]] + Split(a[i + 1..], c);
    }
  }

  /** Splitting and joining again gives the original text back. */
  lemma {:induction false} JoinSplit(s: string, c: char)
    ensures Join(Split(s, c), [c]) == s
    decreases |s|
  {
    var i := IndexOf(s, c);
    if i >= 0 {
      JoinSplit(s[i + 1..], c);
      JoinSplitAt(s, c, i);
    } else {
      assert Split(s, c) == [s];
    }
  }

  /** The step of `JoinSplit` at the first separator. */
  lemma JoinSplitAt(s: string, c: char, i: nat)
    requires i < |s| && IndexOf(s, c) == i
    requires Join(Split(s[i + 1..], c), [c]) == s[i + 1..]
    ensures Join(Split(s, c), [c]) == s
  {
    var head, tail := s[..i], s[i + 1..];
    assert Split(s, c) == [head] + Split(tail, c);
    JoinCons(head, Split(tail, c), [c]);
    CutAt(s, i);
  }

  /** A string is the part before position `i`, the character at `i` and the part after. */
  lemma CutAt(s: string, i: nat)
    requires i < |s|
    ensures s == s[..i] + [s[i]] + s[i + 1..]
  {
  }

  lemma JoinCons(x: string, xs: seq<string>, sep: string)
    requires |xs| >= 1
    ensures Join([x] + xs, sep) == x + sep + Join(xs, sep)
  {
    assert ([x] + xs)[1..] == xs;
  }
}
