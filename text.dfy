/**
 * String operations the library takes from the JavaScript runtime:
 * `trim` and the regex class `\s` (both use the ECMAScript WhiteSpace and
 * LineTerminator code points), `split` on one character and `join`,
 * `split(/\s+/).filter(Boolean)`, `indexOf(p) === 0`, and `toLowerCase`
 * restricted to ASCII letters.
 */
module Text {

  /** ECMAScript WhiteSpace and LineTerminator code points. */
  predicate IsSpace(c: char) {
    || c == '\t' || c == '\n' || c == '\U{000B}' || c == '\U{000C}' || c == '\r'
    || c == ' ' || c == '\U{00A0}' || c == '\U{1680}'
    || ('\U{2000}' <= c <= '\U{200A}')
    || c == '\U{2028}' || c == '\U{2029}' || c == '\U{202F}' || c == '\U{205F}'
    || c == '\U{3000}' || c == '\U{FEFF}'
  }

  predicate AllSpace(s: string) {
    forall k :: 0 <= k < |s| ==> IsSpace(s[k])
  }

  predicate NoSpace(s: string) {
    forall k :: 0 <= k < |s| ==> !IsSpace(s[k])
  }

  /** Number of white-space characters `s` starts with. */
  function Leading(s: string): (n: nat)
    ensures n <= |s|
    ensures forall k :: 0 <= k < n ==> IsSpace(s[k])
    ensures n < |s| ==> !IsSpace(s[n])
  {
    if s != [] && IsSpace(s[0]) then 1 + Leading(s[1..]) else 0
  }

  /** Number of white-space characters `s` ends with. */
  function Trailing(s: string): (n: nat)
    ensures n <= |s|
    ensures forall k :: |s| - n <= k < |s| ==> IsSpace(s[k])
    ensures n < |s| ==> !IsSpace(s[|s| - n - 1])
  {
    if s != [] && IsSpace(s[|s| - 1]) then 1 + Trailing(s[..|s| - 1]) else 0
  }

  /** Number of leading white-space characters `trim` drops. */
  function TrimOffset(s: string): (n: nat)
    ensures n <= |s|
  {
    Leading(s)
  }

  /** `s.trim()`: the stretch between the leading and the trailing white space. */
  function Trim(s: string): (r: string)
    ensures TrimOffset(s) + |r| <= |s| && r == s[TrimOffset(s)..TrimOffset(s) + |r|]
  {
    var lo := Leading(s);
    if lo == |s| then []
    else
      var hi := |s| - Trailing(s);
      assert lo < hi;
      s[lo..hi]
  }

  /** `trim` leaves nothing, or a stretch that starts and ends with non-white-space. */
  lemma TrimEnds(s: string)
    ensures Trim(s) == [] <==> AllSpace(s)
    ensures Trim(s) != [] ==> !IsSpace(Trim(s)[0]) && !IsSpace(Trim(s)[|Trim(s)| - 1])
  {
  }

  /** `trim` drops only white space. */
  lemma TrimSlice(s: string)
    ensures AllSpace(s[..TrimOffset(s)]) && AllSpace(s[TrimOffset(s) + |Trim(s)|..])
  {
    var lo := Leading(s);
    var r := Trim(s);
    assert forall k :: 0 <= k < lo ==> s[..lo][k] == s[k];
    if lo < |s| {
      var n := Trailing(s);
      assert lo + |r| == |s| - n;
      var tail := s[lo + |r|..];
      assert forall k :: 0 <= k < n ==> tail[k] == s[lo + |r| + k];
    }
  }

  /** `s.indexOf(p) === 0`. */
  predicate StartsWith(s: string, p: string) {
    |p| <= |s| && s[..|p|] == p
  }

  function LowerChar(c: char): char {
    if 'A' <= c <= 'Z' then ((c as int) + 32) as char else c
  }

  /** `s.toLowerCase()` on ASCII letters; every other character is kept. */
  function ToLower(s: string): (r: string)
    ensures |r| == |s|
    ensures forall i :: 0 <= i < |s| ==> r[i] == LowerChar(s[i])
  {
    seq(|s|, i requires 0 <= i < |s| => LowerChar(s[i]))
  }

  /** Position of the first c in s. */
  function IndexOf(s: string, c: char): (i: nat)
    requires c in s
    ensures i < |s| && s[i] == c && c !in s[..i]
  {
    if s[0] == c then 0 else 1 + IndexOf(s[1..], c)
  }

  /** `s.split(sep)` for a one-character separator. */
  function Split(s: string, sep: char): (parts: seq<string>)
    ensures |parts| > 0
    ensures forall i :: 0 <= i < |parts| ==> sep !in parts[i]
    decreases |s|
  {
    if sep in s then
      var i := IndexOf(s, sep);
      [s[..i]] + Split(s[i + 1..], sep)
    else [s]
  }

  /** `parts.join(sep)`. */
  function Join(parts: seq<string>, sep: char): string {
    if parts == [] then ""
    else if |parts| == 1 then parts[0]
    else parts[0] + [sep] + Join(parts[1..], sep)
  }

  /** Joining the pieces of a split restores the string. */
  lemma {:induction false} JoinSplit(s: string, sep: char)
    ensures Join(Split(s, sep), sep) == s
    decreases |s|
  {
    if sep in s {
      var i := IndexOf(s, sep);
      JoinSplit(s[i + 1..], sep);
      assert s == s[..i] + [sep] + s[i + 1..];
    }
  }

  /** Splitting a join of separator-free pieces gives the pieces back. */
  lemma {:induction false} SplitJoin(parts: seq<string>, sep: char)
    requires |parts| > 0
    requires forall i :: 0 <= i < |parts| ==> sep !in parts[i]
    ensures Split(Join(parts, sep), sep) == parts
  {
    if |parts| > 1 {
      SplitJoin(parts[1..], sep);
      var s := Join(parts, sep);
      var p := parts[0];
      assert s == p + [sep] + Join(parts[1..], sep);
      assert s[|p|] == sep;
      assert s[..|p|] == p;
      assert IndexOf(s, sep) == |p|;
      assert s[|p| + 1..] == Join(parts[1..], sep);
    }
  }

  /** Length of the run of non-white-space characters s starts with. */
  function WordLength(s: string): (n: nat)
    requires s != [] && !IsSpace(s[0])
    ensures 1 <= n <= |s|
    ensures NoSpace(s[..n])
    ensures n == |s| || IsSpace(s[n])
  {
    if |s| == 1 || IsSpace(s[1]) then 1
    else
      var n := 1 + WordLength(s[1..]);
      assert s[..n] == [s[0]] + s[1..][..n - 1];
      n
  }

  /** `s.split(/\s+/).filter(Boolean)`: the maximal runs of non-white-space. */
  function Words(s: string): (ws: seq<string>)
    ensures forall i :: 0 <= i < |ws| ==> ws[i] != [] && NoSpace(ws[i])
    decreases |s|
  {
    if s == [] then []
    else if IsSpace(s[0]) then Words(s[1..])
    else
      var n := WordLength(s);
      [s[..n]] + Words(s[n..])
  }

  predicate NonSpaceAt(s: string, i: int) {
    0 <= i < |s| && !IsSpace(s[i])
  }

  ghost predicate HasNonSpace(s: string) {
    exists i :: NonSpaceAt(s, i)
  }

  predicate SeparatedAt(s: string, i: int, j: int, k: int) {
    0 <= i < j < k < |s| && !IsSpace(s[i]) && IsSpace(s[j]) && !IsSpace(s[k])
  }

  /** There is a non-white-space character, later a white-space one, later again a non-white-space one. */
  ghost predicate TwoSeparated(s: string) {
    exists i, j, k :: SeparatedAt(s, i, j, k)
  }

  lemma {:induction false} OneWordIff(s: string)
    ensures |Words(s)| >= 1 <==> HasNonSpace(s)
    decreases |s|
  {
    if s != [] && IsSpace(s[0]) {
      OneWordIff(s[1..]);
      if HasNonSpace(s) {
        var i :| NonSpaceAt(s, i);
        assert NonSpaceAt(s[1..], i - 1);
      }
      if HasNonSpace(s[1..]) {
        var i :| NonSpaceAt(s[1..], i);
        assert NonSpaceAt(s, i + 1);
      }
    } else if s != [] {
      assert NonSpaceAt(s, 0);
    }
  }

  /** At least two tokens exactly when two non-white-space runs are separated by white space. */
  lemma {:induction false} TwoWordsIff(s: string)
    ensures |Words(s)| >= 2 <==> TwoSeparated(s)
    decreases |s|
  {
    if s == [] {
    } else if IsSpace(s[0]) {
      TwoWordsIff(s[1..]);
      TwoSeparatedTail(s);
    } else {
      var n := WordLength(s);
      assert Words(s) == [s[..n]] + Words(s[n..]);
      OneWordIff(s[n..]);
      TwoSeparatedAfterWord(s, n);
    }
  }

  lemma TwoSeparatedTail(s: string)
    requires s != [] && IsSpace(s[0])
    ensures TwoSeparated(s) <==> TwoSeparated(s[1..])
  {
    var t := s[1..];
    if TwoSeparated(s) {
      var i, j, k :| SeparatedAt(s, i, j, k);
      assert SeparatedAt(t, i - 1, j - 1, k - 1);
    }
    if TwoSeparated(t) {
      var i, j, k :| SeparatedAt(t, i, j, k);
      assert SeparatedAt(s, i + 1, j + 1, k + 1);
    }
  }

  lemma TwoSeparatedAfterWord(s: string, n: nat)
    requires s != [] && !IsSpace(s[0]) && n == WordLength(s)
    ensures TwoSeparated(s) <==> HasNonSpace(s[n..])
  {
    var t := s[n..];
    if TwoSeparated(s) {
      var i, j, k :| SeparatedAt(s, i, j, k);
      assert j >= n by {
        assert forall x :: 0 <= x < n ==> s[..n][x] == s[x];
      }
      assert NonSpaceAt(t, k - n);
    }
    if HasNonSpace(t) {
      var k :| NonSpaceAt(t, k);
      assert k > 0;
      assert SeparatedAt(s, 0, n, n + k);
    }
  }

  /** A string without white space is its own trim. */
  lemma TrimNoSpace(s: string)
    requires NoSpace(s)
    ensures Trim(s) == s
  {
    assert Leading(s) == 0;
    if s != [] {
      assert Trailing(s) == 0;
    }
  }

  /** A string with non-white-space ends is its own trim, also after one leading space. */
  lemma TrimPadded(x: string)
    requires x != [] && !IsSpace(x[0]) && !IsSpace(x[|x| - 1])
    ensures Trim(x) == x && Trim(" " + x) == x
  {
    var y := " " + x;
    assert y[1..] == x;
    assert Leading(y) == 1;
    assert y[|y| - 1] == x[|x| - 1];
  }

  /** Splitting at the first separator. */
  lemma SplitCons(x: string, y: string, sep: char)
    requires sep !in x
    ensures Split(x + [sep] + y, sep) == [x] + Split(y, sep)
  {
    var s := x + [sep] + y;
    assert s[|x|] == sep;
    assert s[..|x|] == x;
    assert IndexOf(s, sep) == |x|;
    assert s[|x| + 1..] == y;
  }

  /** Concatenation keeps the absence of white space. */
  lemma NoSpaceConcat(a: string, b: string)
    requires NoSpace(a) && NoSpace(b)
    ensures NoSpace(a + b)
  {
    forall k | 0 <= k < |a + b| ensures !IsSpace((a + b)[k]) {
      if k >= |a| {
        assert (a + b)[k] == b[k - |a|];
      }
    }
  }
}
