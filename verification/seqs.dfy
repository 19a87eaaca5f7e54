/** Sequence and string helpers with the semantics of the Go standard library
    calls the source makes. Strings are `seq<char>`. */
module Seqs {

  /** Go's `strings.HasPrefix`: a plain element-wise prefix test. It knows
      nothing about path segments, so `"a/b"` is a prefix of `"a/bc"`. */
  predicate HasPrefix<T(==)>(s: seq<T>, prefix: seq<T>)
  {
    |prefix| <= |s| && s[..|prefix|] == prefix
  }

  /** `a` is `b` with some elements deleted, the rest kept in order. */
  predicate IsSubsequence<T(==)>(a: seq<T>, b: seq<T>)
    decreases |b|
  {
    if |a| == 0 then true
    else if |b| == 0 then false
    else (a[|a| - 1] == b[|b| - 1] && IsSubsequence(a[..|a| - 1], b[..|b| - 1]))
         || IsSubsequence(a, b[..|b| - 1])
  }

  /** Go's `strings.Join(parts, string(sep))`. */
  function Join(parts: seq<string>, sep: char): string
    decreases |parts|
  {
    if |parts| == 0 then ""
    else if |parts| == 1 then parts[0]
    else parts[0] + [sep] + Join(parts[1..], sep)
  }

  /** Go's `strings.Split(s, string(sep))` for a one-character separator:
      always at least one part, no part contains the separator, joining the
      parts back gives `s`, and `s` without the separator is its own only part. */
  function Split(s: string, sep: char): (parts: seq<string>)
    ensures |parts| >= 1
    ensures forall i :: 0 <= i < |parts| ==> sep !in parts[i]
    ensures Join(parts, sep) == s
    ensures sep !in s <==> parts == [s]
    decreases |s|
  {
    if |s| == 0 then [""]
    else if s[0] == sep then
      assert s == [sep] + s[1..];
      [""] + Split(s[1..], sep)
    else
      var rest := Split(s[1..], sep);
      assert s == [s[0]] + s[1..];
      var parts := [[s[0]] + rest[0]] + rest[1..];
      assert parts[1..] == rest[1..];
      parts
  }

  /** The last part of a join is a suffix of the joined string, and when there
      is more than one part it is preceded by the separator. */
  lemma {:induction false} JoinEndsWithLast(parts: seq<string>, sep: char)
    requires |parts| >= 1
    ensures var j, last := Join(parts, sep), parts[|parts| - 1];
            |last| <= |j| && j[|j| - |last|..] == last
            && (|parts| > 1 ==> |last| < |j| && j[|j| - |last| - 1] == sep)
    decreases |parts|
  {
    if |parts| > 1 {
      var tail := parts[1..];
      JoinEndsWithLast(tail, sep);
      assert tail[|tail| - 1] == parts[|parts| - 1];
      var j := Join(parts, sep);
      var jt := Join(tail, sep);
      assert j == (parts[0] + [sep]) + jt;
      var last := parts[|parts| - 1];
      assert j[|j| - |last|..] == jt[|jt| - |last|..];
      if |tail| == 1 {
        assert jt == last;
        assert j[|j| - |last| - 1] == sep;
      } else {
        assert j[|j| - |last| - 1] == jt[|jt| - |last| - 1];
      }
    }
  }
}
