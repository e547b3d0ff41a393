/** Facts about sequences that the loops and the record layout use. */
module Seqs {

  /** Taking one more element appends it. */
  lemma TakeSnoc<T>(s: seq<T>, i: nat)
    requires i < |s|
    ensures s[..i + 1] == s[..i] + [s[i]]
  {
  }

  /** Taking every element gives the whole sequence. */
  lemma TakeFull<T>(s: seq<T>, i: nat)
    requires i == |s|
    ensures s[..i] == s
  {
  }

  /** A prefix of a prefix is a prefix. */
  lemma TakeTake<T>(s: seq<T>, i: nat, j: nat)
    requires i <= j <= |s|
    ensures s[..j][..i] == s[..i]
  {
  }

  /** Concatenation is associative. */
  lemma AppendAssoc<T>(a: seq<T>, b: seq<T>, c: seq<T>)
    ensures a + b + c == a + (b + c)
  {
  }

  /** An element other than the last one lies in the prefix before it. */
  lemma InInit<T>(s: seq<T>, x: T)
    requires x in s && x != s[|s| - 1]
    ensures x in s[..|s| - 1]
  {
    var i :| 0 <= i < |s| && s[i] == x;
    assert s[..|s| - 1][i] == x;
  }

  /** Positions in a record: the title, then the column rows, then the
      extra rows. */
  lemma RecordIndex<T>(title: T, columns: seq<T>, extra: seq<T>, j: nat)
    requires j < 1 + |columns| + |extra|
    ensures j == 0 ==> ([title] + columns + extra)[j] == title
    ensures 1 <= j <= |columns| ==> ([title] + columns + extra)[j] == columns[j - 1]
    ensures |columns| < j ==> ([title] + columns + extra)[j] == extra[j - 1 - |columns|]
  {
  }
}
