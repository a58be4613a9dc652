/**
 * The two .NET string operations the URL decomposer relies on: the search for '?' and
 * String.Split(char). The search is modelled as an ordinal search for one char.
 */
module Strings {

  /** Ordinal search: the index of the first occurrence of `c` in `s`, or -1 when there is none. */
  function IndexOf(s: string, c: char): (r: int)
    ensures -1 <= r < |s|
    ensures r == -1 <==> c !in s
    ensures r >= 0 ==> s[r] == c && c !in s[..r]
  {
    if |s| == 0 then -1
    else if s[0] == c then 0
    else
      var i := IndexOf(s[1..], c);
      if i == -1 then -1
      else
        assert s[..i + 1] == [s[0]] + s[1..][..i];
        i + 1
  }

  /** The inverse of Split: the parts glued back together with `sep` between them. */
  function Join(parts: seq<string>, sep: char): string
    requires |parts| > 0
  {
    if |parts| == 1 then parts[0] else parts[0] + [sep] + Join(parts[1..], sep)
  }

  /**
   * String.Split(sep): the text between consecutive separators, empty parts included,
   * so the result always has one part more than `s` has separators.
   */
  function Split(s: string, sep: char): (parts: seq<string>)
    ensures |parts| > 0
    ensures forall i :: 0 <= i < |parts| ==> sep !in parts[i]
    decreases |s|
  {
    var i := IndexOf(s, sep);
    if i == -1 then [s] else [s[..i]] + Split(s[i + 1..], sep)
  }

  /** Join undoes Split: the parts, glued back together with the separator, are the input. */
  lemma {:induction false} JoinSplit(s: string, sep: char)
    ensures Join(Split(s, sep), sep) == s
    decreases |s|
  {
    var i := IndexOf(s, sep);
    if i != -1 {
      JoinSplit(s[i + 1..], sep);
      var parts := Split(s, sep);
      assert parts[1..] == Split(s[i + 1..], sep);
      assert s == s[..i] + [sep] + s[i + 1..];
    }
  }

  /** The first occurrence of `c` in `a + [c] + b` is right after `a` when `a` holds none. */
  lemma IndexOfAfterPrefix(a: string, c: char, b: string)
    requires c !in a
    ensures IndexOf(a + [c] + b, c) == |a|
  {
    var s := a + [c] + b;
    assert s[|a|] == c;
    assert s[..|a|] == a;
  }

  /** One step of Split at the first separator. */
  lemma SplitAtFirst(s: string, sep: char)
    requires sep in s
    ensures var i := IndexOf(s, sep); Split(s, sep) == [s[..i]] + Split(s[i + 1..], sep)
  {
  }

  /** Split undoes Join for parts that contain no separator. */
  lemma {:induction false} SplitJoin(parts: seq<string>, sep: char)
    requires |parts| > 0
    requires forall i :: 0 <= i < |parts| ==> sep !in parts[i]
    ensures Split(Join(parts, sep), sep) == parts
  {
    if |parts| > 1 {
      var head, rest := parts[0], parts[1..];
      var tail := Join(rest, sep);
      var s := Join(parts, sep);
      assert s == head + [sep] + tail;
      IndexOfAfterPrefix(head, sep, tail);
      assert s[|head|] == sep;
      SplitAtFirst(s, sep);
      assert s[..|head|] == head;
      assert s[|head| + 1..] == tail;
      assert forall i :: 0 <= i < |rest| ==> rest[i] == parts[i + 1];
      SplitJoin(rest, sep);
      assert parts == [head] + rest;
    }
  }

  /**
   * Where the first two parts sit in a join: the first part, a separator, the second part,
   * then either the end or another separator.
   */
  lemma JoinFields(parts: seq<string>, sep: char)
    requires |parts| > 1
    ensures var s, k, v := Join(parts, sep), |parts[0]|, parts[1];
      && k + 1 + |v| <= |s|
      && s[..k] == parts[0]
      && s[k] == sep
      && s[k + 1..k + 1 + |v|] == v
      && (k + 1 + |v| == |s| || s[k + 1 + |v|] == sep)
  {
    var k, v := |parts[0]|, parts[1];
    var tail := Join(parts[1..], sep);
    var s := parts[0] + [sep] + tail;
    assert s[..k] == parts[0];
    assert s[k + 1..] == tail;
    assert parts[1..][0] == v;
    if |parts| > 2 {
      assert parts[1..][1..] == parts[2..];
      assert tail == v + [sep] + Join(parts[2..], sep);
    }
    assert tail[..|v|] == v;
  }
}
