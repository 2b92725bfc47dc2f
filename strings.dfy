/** The string operations the compiler relies on: splitting at a separator and prefix tests
    (the parts of Go's strings package the search package calls). */
module Strings {

  /** Number of occurrences of c in s. */
  function Count(s: string, c: char): nat
  {
    if |s| == 0 then 0 else (if s[0] == c then 1 else 0) + Count(s[1..], c)
  }

  /** Glues the parts back together with sep between consecutive parts. */
  function Join(parts: seq<string>, sep: char): string
    requires |parts| >= 1
  {
    if |parts| == 1 then parts[0] else parts[0] + [sep] + Join(parts[1..], sep)
  }

  /** strings.SplitN(s, sep, 2): the whole string when sep does not occur, otherwise the
      text before the first sep and everything after it. */
  function SplitFirst(s: string, sep: char): (parts: seq<string>)
    ensures |parts| == 1 || |parts| == 2
    ensures |parts| == 1 <==> sep !in s
    ensures |parts| == 1 ==> parts[0] == s
    ensures |parts| == 2 ==> parts[0] + [sep] + parts[1] == s && sep !in parts[0]
  {
    if |s| == 0 then [s]
    else if s[0] == sep then ["", s[1..]]
    else
      var rest := SplitFirst(s[1..], sep);
      if |rest| == 1 then [s]
      else
        assert s == [s[0]] + s[1..];
        [[s[0]] + rest[0], rest[1]]
  }

  /** strings.Split(s, sep): the maximal sep-free pieces of s, in order. */
  function Split(s: string, sep: char): (parts: seq<string>)
    ensures |parts| == Count(s, sep) + 1
    ensures forall i :: 0 <= i < |parts| ==> sep !in parts[i]
    ensures Join(parts, sep) == s
  {
    if |s| == 0 then [""]
    else
      var rest := Split(s[1..], sep);
      assert s == [s[0]] + s[1..];
      if s[0] == sep then [""] + rest
      else [[s[0]] + rest[0]] + rest[1..]
  }

  /** SplitN at the first sep recovers a sep-free head and the whole remainder, which may
      itself contain sep. */
  lemma {:induction false} SplitFirstOfJoined(head: string, rest: string, sep: char)
    requires sep !in head
    ensures SplitFirst(head + [sep] + rest, sep) == [head, rest]
  {
    if |head| > 0 {
      assert (head + [sep] + rest)[1..] == head[1..] + [sep] + rest;
      SplitFirstOfJoined(head[1..], rest, sep);
      assert [head[0]] + head[1..] == head;
    } else {
      assert head + [sep] + rest == [sep] + rest;
    }
  }

  /** Splitting a text made of two sep-free pieces yields exactly those pieces. */
  lemma {:induction false} SplitOfJoinedPair(a: string, b: string, sep: char)
    requires sep !in a && sep !in b
    ensures Split(a + [sep] + b, sep) == [a, b]
  {
    if |a| == 0 {
      assert a + [sep] + b == [sep] + b;
      SplitOfSepFree(b, sep);
    } else {
      assert (a + [sep] + b)[1..] == a[1..] + [sep] + b;
      SplitOfJoinedPair(a[1..], b, sep);
      assert [a[0]] + a[1..] == a;
    }
  }

  /** A text without sep splits into itself alone. */
  lemma {:induction false} SplitOfSepFree(s: string, sep: char)
    requires sep !in s
    ensures Split(s, sep) == [s]
  {
    if |s| > 0 {
      SplitOfSepFree(s[1..], sep);
      assert [s[0]] + s[1..] == s;
    }
  }

  /** Count is zero exactly when the character does not occur. */
  lemma {:induction false} CountZeroIffAbsent(s: string, c: char)
    ensures Count(s, c) == 0 <==> c !in s
  {
    if |s| > 0 {
      CountZeroIffAbsent(s[1..], c);
      assert s == [s[0]] + s[1..];
    }
  }

  /** strings.HasPrefix. */
  predicate HasPrefix(s: string, prefix: string)
  {
    |prefix| <= |s| && s[..|prefix|] == prefix
  }
}
