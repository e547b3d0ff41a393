/** The string operations of the Python runtime that the diagram code relies
    on: `str.strip`, `sep.join`, `str.replace('\n', '; ')`, `str(n)` for a
    natural number, ASCII `str.lower`, `str.startswith`, and `sorted` on
    strings (code-point lexicographic order). */
module Text {

  /** Python's `str.isspace()` for one character. */
  predicate IsSpace(c: char) {
    || c == ' '
    || ('\t' <= c <= '\r')
    || ('\U{1c}' <= c <= '\U{1f}')
    || c == '\U{85}' || c == '\U{a0}' || c == '\U{1680}'
    || ('\U{2000}' <= c <= '\U{200a}')
    || c == '\U{2028}' || c == '\U{2029}' || c == '\U{202f}' || c == '\U{205f}' || c == '\U{3000}'
  }

  predicate AllSpace(s: string) {
    forall i :: 0 <= i < |s| ==> IsSpace(s[i])
  }

  /** `s.lstrip()`: the longest suffix of `s` after leading whitespace. */
  function LStrip(s: string): (r: string)
    ensures |r| <= |s| && r == s[|s| - |r|..]
    ensures AllSpace(s[..|s| - |r|])
    ensures r == [] || !IsSpace(r[0])
  {
    if s != [] && IsSpace(s[0]) then
      var r := LStrip(s[1..]);
      assert s[..|s| - |r|] == [s[0]] + s[1..][..|s| - 1 - |r|];
      r
    else s
  }

  /** `s.rstrip()`: the longest prefix of `s` before trailing whitespace. */
  function RStrip(s: string): (r: string)
    ensures |r| <= |s| && r == s[..|r|]
    ensures AllSpace(s[|r|..])
    ensures r == [] || !IsSpace(r[|r| - 1])
  {
    if s != [] && IsSpace(s[|s| - 1]) then
      var r := RStrip(s[..|s| - 1]);
      assert s[|r|..] == s[..|s| - 1][|r|..] + [s[|s| - 1]];
      r
    else s
  }

  /** `s.strip()`. */
  function Strip(s: string): (r: string)
    ensures r == [] || (!IsSpace(r[0]) && !IsSpace(r[|r| - 1]))
  {
    RStrip(LStrip(s))
  }

  /** Stripping cuts `s` into whitespace, the result, and whitespace. */
  lemma StripSplits(s: string) returns (i: nat, j: nat)
    ensures i <= j <= |s| && Strip(s) == s[i..j] && AllSpace(s[..i]) && AllSpace(s[j..])
  {
    var l := LStrip(s);
    var r := RStrip(l);
    i := |s| - |l|;
    j := i + |r|;
    assert s[i..j] == r;
    assert s[j..] == l[|r|..];
  }

  /** A character that is not whitespace lies between the whitespace margins. */
  lemma InsideMargins(s: string, i: nat, j: nat, k: nat)
    requires i <= j <= |s| && k < |s| && AllSpace(s[..i]) && AllSpace(s[j..])
    requires !IsSpace(s[k])
    ensures i <= k < j
  {
    forall m | 0 <= m < i ensures IsSpace(s[m]) {
      assert s[..i][m] == s[m];
    }
    forall m | j <= m < |s| ensures IsSpace(s[m]) {
      assert s[j..][m - j] == s[m];
    }
  }

  /** A character that is not whitespace survives stripping. */
  lemma StripKeeps(s: string, c: char)
    requires c in s && !IsSpace(c)
    ensures c in Strip(s)
  {
    var i, j := StripSplits(s);
    var k :| 0 <= k < |s| && s[k] == c;
    InsideMargins(s, i, j, k);
    assert Strip(s)[k - i] == c;
  }

  /** Stripping leaves nothing exactly when the string is all whitespace. */
  lemma StripEmptyIff(s: string)
    ensures Strip(s) == [] <==> AllSpace(s)
  {
    var i, j := StripSplits(s);
    if Strip(s) == [] {
      forall k | 0 <= k < |s| ensures IsSpace(s[k]) {
        if k < i { assert s[..i][k] == s[k]; } else { assert s[j..][k - j] == s[k]; }
      }
    } else {
      assert Strip(s)[0] == s[i];
      assert !IsSpace(s[i]);
    }
  }

  /** `w in s` for strings: `w` occurs in `s` as one contiguous piece. */
  predicate Infix(w: string, s: string) {
    exists k :: 0 <= k <= |s| && StartsWith(s[k..], w)
  }

  /** A piece that neither starts nor ends with whitespace survives
      stripping. */
  lemma StripKeepsInfix(s: string, a: nat, w: string)
    requires a + |w| <= |s| && s[a..a + |w|] == w
    requires w != [] && !IsSpace(w[0]) && !IsSpace(w[|w| - 1])
    ensures Infix(w, Strip(s))
  {
    var i, j := StripSplits(s);
    assert s[a] == s[a..a + |w|][0] == w[0];
    InsideMargins(s, i, j, a);
    var last := a + |w| - 1;
    assert s[last] == s[a..a + |w|][|w| - 1] == w[|w| - 1];
    InsideMargins(s, i, j, last);
    SliceOfSlice(s, i, j, a, |w|);
    assert StartsWith(Strip(s)[a - i..], w);
  }

  lemma SliceOfSlice(s: string, i: nat, j: nat, a: nat, n: nat)
    requires i <= a && a + n <= j <= |s|
    ensures s[i..j][a - i..][..n] == s[a..a + n]
  {
    var x := s[i..j][a - i..][..n];
    var y := s[a..a + n];
    forall m | 0 <= m < n ensures x[m] == y[m] {
      assert x[m] == s[a + m];
    }
  }

  /** Stripping the front of a string that ends in a non-whitespace
      character keeps that last character. */
  lemma {:induction false} LStripKeepsLast(w: string)
    requires w != [] && !IsSpace(w[|w| - 1])
    ensures LStrip(w) != [] && LStrip(w)[|LStrip(w)| - 1] == w[|w| - 1]
  {
    if IsSpace(w[0]) {
      assert w[1..][|w| - 2] == w[|w| - 1];
      LStripKeepsLast(w[1..]);
    }
  }

  /** A piece ending in a non-whitespace character keeps everything from its
      first non-whitespace character on when the text around it is
      stripped. */
  lemma PieceSurvivesStrip(prefix: string, w: string, suffix: string)
    requires w != [] && !IsSpace(w[|w| - 1])
    ensures Infix(LStrip(w), Strip(prefix + w + suffix))
  {
    LStripKeepsLast(w);
    var l := LStrip(w);
    var d := |w| - |l|;
    var s := prefix + w + suffix;
    var a := |prefix| + d;
    assert s[|prefix|..|prefix| + |w|] == w;
    assert s[a..a + |l|] == l;
    StripKeepsInfix(s, a, l);
  }

  /** `sep.join(parts)`. */
  function Join(sep: string, parts: seq<string>): string {
    if |parts| == 0 then ""
    else if |parts| == 1 then parts[0]
    else Join(sep, parts[..|parts| - 1]) + sep + parts[|parts| - 1]
  }

  /** Joining non-empty parts gives the empty string only for no parts. */
  lemma {:induction false} JoinEmptyIff(sep: string, parts: seq<string>)
    requires forall p :: p in parts ==> p != ""
    ensures Join(sep, parts) == "" <==> parts == []
  {
    if |parts| > 1 {
      assert parts[|parts| - 1] in parts;
    } else if |parts| == 1 {
      assert parts[0] in parts;
    }
  }

  /** `[v for v in parts if v]`. */
  function NonEmpty(parts: seq<string>): (r: seq<string>)
    ensures |r| <= |parts|
    ensures forall p :: p in r <==> p in parts && p != ""
  {
    if parts == [] then []
    else
      var last := parts[|parts| - 1];
      var init := NonEmpty(parts[..|parts| - 1]);
      assert parts == parts[..|parts| - 1] + [last];
      if last == "" then init else init + [last]
  }

  /** `s.replace('\n', '; ')`. */
  function ReplaceNewlines(s: string): (r: string)
    ensures '\n' !in r
    ensures '\n' !in s ==> r == s
    ensures r == "" <==> s == ""
  {
    if s == [] then []
    else (if s[0] == '\n' then "; " else [s[0]]) + ReplaceNewlines(s[1..])
  }

  function DigitChar(d: nat): (c: char)
    requires d < 10
    ensures '0' <= c <= '9'
  {
    ['0', '1', '2', '3', '4', '5', '6', '7', '8', '9'][d]
  }

  function DigitValue(c: char): nat
    requires '0' <= c <= '9'
  {
    (c as int - '0' as int) as nat
  }

  predicate IsDigits(s: string) {
    forall i :: 0 <= i < |s| ==> '0' <= s[i] <= '9'
  }

  /** The number a string of decimal digits denotes. */
  function DecimalValue(s: string): nat
    requires IsDigits(s)
  {
    if s == [] then 0
    else 10 * DecimalValue(s[..|s| - 1]) + DigitValue(s[|s| - 1])
  }

  /** `str(n)` for a natural number: its decimal digits, read back as `n`. */
  function NatToString(n: nat): (r: string)
    ensures |r| >= 1 && IsDigits(r)
    ensures DecimalValue(r) == n
  {
    if n < 10 then
      assert DigitValue(DigitChar(n)) == n;
      [DigitChar(n)]
    else
      var init := NatToString(n / 10);
      var r := init + [DigitChar(n % 10)];
      assert r[..|r| - 1] == init;
      assert DigitValue(DigitChar(n % 10)) == n % 10;
      r
  }

  function LowerChar(c: char): char {
    if 'A' <= c <= 'Z' then (c as int + 32) as char else c
  }

  /** Python's `str.lower()` restricted to ASCII letters. */
  function LowerAscii(s: string): (r: string)
    ensures |r| == |s|
  {
    seq(|s|, i requires 0 <= i < |s| => LowerChar(s[i]))
  }

  predicate StartsWith(s: string, prefix: string) {
    |prefix| <= |s| && s[..|prefix|] == prefix
  }

  /** Python's `a <= b` on strings: lexicographic by code point. */
  predicate LexLe(a: string, b: string)
    decreases |a|
  {
    |a| == 0 || (|b| > 0 && (a[0] < b[0] || (a[0] == b[0] && LexLe(a[1..], b[1..]))))
  }

  lemma {:induction false} LexLeTotal(a: string, b: string)
    ensures LexLe(a, b) || LexLe(b, a)
    decreases |a|
  {
    if |a| > 0 && |b| > 0 && a[0] == b[0] {
      LexLeTotal(a[1..], b[1..]);
    }
  }

  /** A common prefix does not change the order. */
  lemma {:induction false} LexLeCommonPrefix(p: string, a: string, b: string)
    ensures LexLe(p + a, p + b) == LexLe(a, b)
    decreases |p|
  {
    if p != [] {
      assert (p + a)[1..] == p[1..] + a;
      assert (p + b)[1..] == p[1..] + b;
      LexLeCommonPrefix(p[1..], a, b);
    } else {
      assert p + a == a && p + b == b;
    }
  }

  /** Strings ordered by what they read once `suffix` is appended to each. */
  predicate KeyLe(a: string, b: string, suffix: string) {
    LexLe(a + suffix, b + suffix)
  }

  predicate SortedBy(s: seq<string>, suffix: string) {
    forall i :: 0 < i < |s| ==> KeyLe(s[i - 1], s[i], suffix)
  }

  /** Puts `x` before the first element it does not sort after. */
  function Insert(x: string, s: seq<string>, suffix: string): (r: seq<string>)
    ensures |r| == |s| + 1
  {
    if s == [] || KeyLe(x, s[0], suffix) then [x] + s
    else [s[0]] + Insert(x, s[1..], suffix)
  }

  /** Inserting into a sorted list keeps it sorted, adds exactly `x`, and
      puts in front either `x` or the old first element. */
  lemma {:induction false} InsertSorted(x: string, s: seq<string>, suffix: string)
    requires SortedBy(s, suffix)
    ensures SortedBy(Insert(x, s, suffix), suffix)
    ensures multiset(Insert(x, s, suffix)) == multiset(s) + multiset{x}
    ensures Insert(x, s, suffix)[0] == x || (s != [] && Insert(x, s, suffix)[0] == s[0])
  {
    if s != [] && !KeyLe(x, s[0], suffix) {
      LexLeTotal(x + suffix, s[0] + suffix);
      assert SortedBy(s[1..], suffix) by {
        forall i | 0 < i < |s[1..]| ensures KeyLe(s[1..][i - 1], s[1..][i], suffix) {
          assert s[1..][i - 1] == s[i] && s[1..][i] == s[i + 1];
        }
      }
      InsertSorted(x, s[1..], suffix);
      var tail := Insert(x, s[1..], suffix);
      var r := [s[0]] + tail;
      forall i | 0 < i < |r| ensures KeyLe(r[i - 1], r[i], suffix) {
        if i == 1 {
          assert r[1] == tail[0];
          if tail[0] != x {
            assert tail[0] == s[1];
          }
        } else {
          assert r[i - 1] == tail[i - 2] && r[i] == tail[i - 1];
        }
      }
      assert s == [s[0]] + s[1..];
    }
  }

  /** `sorted(s)` when every element carries the same `suffix` (and a common
      prefix, which does not change the order): insertion sort. */
  function SortBy(s: seq<string>, suffix: string): (r: seq<string>)
    ensures |r| == |s|
  {
    if s == [] then []
    else Insert(s[|s| - 1], SortBy(s[..|s| - 1], suffix), suffix)
  }

  /** `sorted` returns its input's elements, each as often, in order. */
  lemma {:induction false} SortBySorted(s: seq<string>, suffix: string)
    ensures SortedBy(SortBy(s, suffix), suffix)
    ensures multiset(SortBy(s, suffix)) == multiset(s)
  {
    if s != [] {
      var init := s[..|s| - 1];
      SortBySorted(init, suffix);
      InsertSorted(s[|s| - 1], SortBy(init, suffix), suffix);
      assert s == init + [s[|s| - 1]];
    }
  }
}
