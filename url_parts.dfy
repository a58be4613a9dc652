/**
 * The URL decomposer of the test harness (TestsBase.UrlParts): splits a path-plus-query
 * string at its first '?' into the path and a dictionary of query parameters.
 */
module UrlDecomposer {
  import opened Wrappers
  import opened Strings

  /** A Dictionary<string, string> whose values may be null. */
  type Dictionary = map<string, Option<string>>

  /** The key a query segment contributes: the first field of its '='-split. */
  function Key(kvp: string): string {
    Split(kvp, '=')[0]
  }

  /** The value a query segment contributes: the second field of its '='-split, or null. */
  function Value(kvp: string): Option<string> {
    var parts := Split(kvp, '=');
    if |parts| > 1 then Some(parts[1]) else None
  }

  /**
   * The key of a segment, described without Split: the text before its first '=', or the
   * whole segment when it has none; and the value is null exactly in that second case.
   */
  lemma KeyShape(kvp: string)
    ensures '=' !in Key(kvp) && |Key(kvp)| <= |kvp| && kvp[..|Key(kvp)|] == Key(kvp)
    ensures Value(kvp).None? <==> '=' !in kvp
    ensures Value(kvp).None? ==> Key(kvp) == kvp
    ensures Value(kvp).Some? ==> |Key(kvp)| < |kvp| && kvp[|Key(kvp)|] == '='
  {
    var parts := Split(kvp, '=');
    JoinSplit(kvp, '=');
    if |parts| > 1 {
      JoinFields(parts, '=');
    }
  }

  /**
   * The value of a segment that has one, described without Split: the text after the first
   * '=' up to the second '=' or the end. So "a=b=c" gives key "a" and value "b".
   */
  lemma ValueShape(kvp: string)
    requires Value(kvp).Some?
    ensures var k, v := |Key(kvp)|, Value(kvp).value;
      && k + 1 + |v| <= |kvp|
      && kvp[k + 1..k + 1 + |v|] == v
      && '=' !in v
      && (k + 1 + |v| == |kvp| || kvp[k + 1 + |v|] == '=')
  {
    var parts := Split(kvp, '=');
    JoinSplit(kvp, '=');
    JoinFields(parts, '=');
  }

  /** Storing (key, value) entries in order into an empty map with the indexer. */
  function Store<K, V>(entries: seq<(K, V)>): map<K, V> {
    if |entries| == 0 then map[]
    else
      var last := entries[|entries| - 1];
      Store(entries[..|entries| - 1])[last.0 := last.1]
  }

  lemma StoreSnoc<K, V>(entries: seq<(K, V)>, i: nat)
    requires i < |entries|
    ensures Store(entries[..i + 1]) == Store(entries[..i])[entries[i].0 := entries[i].1]
  {
    assert entries[..i + 1][..i] == entries[..i];
  }

  /** The stored keys are exactly the entries' keys. */
  lemma {:induction false} StoreKeys<K, V>(entries: seq<(K, V)>, k: K)
    ensures k in Store(entries) <==> exists i :: 0 <= i < |entries| && entries[i].0 == k
  {
    if |entries| > 0 {
      var init := entries[..|entries| - 1];
      StoreKeys(init, k);
      if exists i :: 0 <= i < |init| && init[i].0 == k {
        var i :| 0 <= i < |init| && init[i].0 == k;
        assert entries[i].0 == k;
      }
      if exists i :: 0 <= i < |entries| && entries[i].0 == k {
        var i :| 0 <= i < |entries| && entries[i].0 == k;
        if i < |init| {
          assert init[i].0 == k;
        }
      }
    }
  }

  /** Last write wins: a key holds the value of the last entry with that key. */
  lemma {:induction false} StoreLastWins<K, V>(entries: seq<(K, V)>, j: nat)
    requires j < |entries|
    requires forall i :: j < i < |entries| ==> entries[i].0 != entries[j].0
    ensures entries[j].0 in Store(entries)
    ensures Store(entries)[entries[j].0] == entries[j].1
  {
    if j < |entries| - 1 {
      var init := entries[..|entries| - 1];
      assert init[j] == entries[j];
      forall i | j < i < |init| ensures init[i].0 != init[j].0 {
        assert init[i] == entries[i];
      }
      StoreLastWins(init, j);
    }
  }

  /** The entry each query segment contributes. */
  function Entries(kvps: seq<string>): (entries: seq<(string, Option<string>)>)
    ensures |entries| == |kvps|
    ensures forall i {:trigger entries[i]} :: 0 <= i < |kvps| ==> entries[i] == (Key(kvps[i]), Value(kvps[i]))
  {
    seq(|kvps|, i requires 0 <= i < |kvps| => (Key(kvps[i]), Value(kvps[i])))
  }

  /** The dictionary after storing the segments in order with the indexer. */
  function QueryMap(kvps: seq<string>): Dictionary {
    Store(Entries(kvps))
  }

  /** Every segment, empty ones included, leaves an entry under its key, and nothing else does. */
  lemma QueryMapKeys(kvps: seq<string>, k: string)
    ensures k in QueryMap(kvps) <==> exists i :: 0 <= i < |kvps| && Key(kvps[i]) == k
  {
    var entries := Entries(kvps);
    StoreKeys(entries, k);
    if exists i :: 0 <= i < |kvps| && Key(kvps[i]) == k {
      var i :| 0 <= i < |kvps| && Key(kvps[i]) == k;
      assert entries[i].0 == k;
    }
  }

  /** A key's stored value is the value of the last segment with that key. */
  lemma QueryMapLastWins(kvps: seq<string>, j: nat)
    requires j < |kvps|
    requires forall i :: j < i < |kvps| ==> Key(kvps[i]) != Key(kvps[j])
    ensures Key(kvps[j]) in QueryMap(kvps)
    ensures QueryMap(kvps)[Key(kvps[j])] == Value(kvps[j])
  {
    var entries := Entries(kvps);
    forall i | j < i < |entries| ensures entries[i].0 != entries[j].0 {
      assert entries[i].0 == Key(kvps[i]);
    }
    StoreLastWins(entries, j);
  }

  /** The decomposed form of a path-plus-query string. */
  datatype Decomposed = Decomposed(pathInfo: string, queryString: Option<Dictionary>)

  /**
   * The value UrlParts computes. The path is the text before the first '?', and the query
   * string is built from the text after it only when there is one; a later '?' stays in
   * the query text.
   */
  function Decompose(raw: string): (d: Decomposed)
    ensures '?' !in d.pathInfo
    ensures d.queryString.None? <==> '?' !in raw
    ensures d.queryString.None? ==> d.pathInfo == raw
    ensures d.queryString.Some? ==>
      && |d.pathInfo| < |raw|
      && raw[..|d.pathInfo|] == d.pathInfo
      && raw[|d.pathInfo|] == '?'
      && d.queryString.value == QueryMap(Split(raw[|d.pathInfo| + 1..], '&'))
  {
    var q := IndexOf(raw, '?');
    if q == -1 then Decomposed(raw, None)
    else Decomposed(raw[..q], Some(QueryMap(Split(raw[q + 1..], '&'))))
  }

  /** A segment's entry, read off its '='-split as the constructor does. */
  lemma EntryOfParts(kvp: string)
    ensures var parts := Split(kvp, '=');
      (Key(kvp), Value(kvp)) == (parts[0], if |parts| > 1 then Some(parts[1]) else None)
  {
  }

  /** Decompose on an input with a '?', unfolded at its first '?'. */
  lemma DecomposeAtFirst(raw: string)
    requires '?' in raw
    ensures var q := IndexOf(raw, '?');
      Decompose(raw) == Decomposed(raw[..q], Some(Store(Entries(Split(raw[q + 1..], '&')))))
  {
  }

  /**
   * TestsBase.UrlParts: its constructor cuts the path at the first '?' and fills the query
   * dictionary from the rest one segment at a time (FillQuery).
   */
  class UrlParts {
    var PathInfo: string
    var QueryString: Option<Dictionary>

    constructor (pathInfo: string)
      ensures PathInfo == Decompose(pathInfo).pathInfo
      ensures QueryString == Decompose(pathInfo).queryString
    {
      var path, query := pathInfo, None;
      var qsIndex := IndexOf(pathInfo, '?');
      if qsIndex != -1 {
        var qs := pathInfo[qsIndex + 1..];
        path := pathInfo[..qsIndex];
        DecomposeAtFirst(pathInfo);
        var dict := FillQuery(Split(qs, '&'));
        query := Some(dict);
      }
      PathInfo, QueryString := path, query;
    }
  }

  /**
   * The constructor's loop over the '&'-separated segments: each one, split on '=', stores
   * its second field (or null) under its first, a later segment overwriting an earlier key.
   */
  method FillQuery(kvps: seq<string>) returns (dict: Dictionary)
    ensures dict == QueryMap(kvps)
  {
    ghost var entries := Entries(kvps);
    dict := map[];
    for i := 0 to |kvps|
      invariant dict == Store(entries[..i])
    {
      var parts := Split(kvps[i], '=');
      EntryOfParts(kvps[i]);
      StoreSnoc(entries, i);
      dict := dict[parts[0] := if |parts| > 1 then Some(parts[1]) else None];
    }
    assert entries[..|kvps|] == entries;
  }

  /** The "k=v" segment of each pair. */
  function Segments(pairs: seq<(string, string)>): (kvps: seq<string>)
    ensures |kvps| == |pairs|
    ensures forall i :: 0 <= i < |pairs| ==> kvps[i] == pairs[i].0 + ['='] + pairs[i].1
  {
    seq(|pairs|, i requires 0 <= i < |pairs| => pairs[i].0 + ['='] + pairs[i].1)
  }

  /** The query text for a list of key/value pairs: "k1=v1&k2=v2&...". */
  function RenderQuery(pairs: seq<(string, string)>): string
    requires |pairs| > 0
  {
    Join(Segments(pairs), '&')
  }

  /** Each pair as a dictionary entry with a non-null value. */
  function PairEntries(pairs: seq<(string, string)>): (entries: seq<(string, Option<string>)>)
    ensures |entries| == |pairs|
    ensures forall i :: 0 <= i < |pairs| ==> entries[i] == (pairs[i].0, Some(pairs[i].1))
  {
    seq(|pairs|, i requires 0 <= i < |pairs| => (pairs[i].0, Some(pairs[i].1)))
  }

  predicate PlainPair(p: (string, string)) {
    '&' !in p.0 && '=' !in p.0 && '&' !in p.1 && '=' !in p.1
  }

  lemma SegmentOfPair(k: string, v: string)
    requires '=' !in k && '=' !in v
    ensures Key(k + ['='] + v) == k && Value(k + ['='] + v) == Some(v)
  {
    assert Join([k, v], '=') == k + ['='] + v;
    SplitJoin([k, v], '=');
  }

  /**
   * Round trip: a path without '?' followed by a query of plain pairs decomposes back into
   * that path and the pairs' dictionary, later pairs overriding earlier ones.
   */
  lemma DecomposeRendered(path: string, pairs: seq<(string, string)>)
    requires '?' !in path
    requires |pairs| > 0
    requires forall i :: 0 <= i < |pairs| ==> PlainPair(pairs[i])
    ensures Decompose(path + ['?'] + RenderQuery(pairs)) == Decomposed(path, Some(Store(PairEntries(pairs))))
  {
    var kvps := Segments(pairs);
    var raw := path + ['?'] + RenderQuery(pairs);
    IndexOfAfterPrefix(path, '?', RenderQuery(pairs));
    assert raw[..|path|] == path;
    assert raw[|path| + 1..] == RenderQuery(pairs);
    forall i | 0 <= i < |kvps| ensures '&' !in kvps[i] {
      assert PlainPair(pairs[i]);
    }
    SplitJoin(kvps, '&');
    forall i | 0 <= i < |pairs| ensures Entries(kvps)[i] == PairEntries(pairs)[i] {
      SegmentOfPair(pairs[i].0, pairs[i].1);
    }
    assert Entries(kvps) == PairEntries(pairs);
    var d := Decompose(raw);
    assert d.pathInfo == path;
  }

  /** A query of one segment yields exactly that segment's entry. */
  lemma DecomposeOneSegment(path: string, kvp: string)
    requires '?' !in path && '&' !in kvp
    ensures Decompose(path + ['?'] + kvp) == Decomposed(path, Some(map[Key(kvp) := Value(kvp)]))
  {
    var raw := path + ['?'] + kvp;
    IndexOfAfterPrefix(path, '?', kvp);
    assert raw[..|path|] == path && raw[|path| + 1..] == kvp;
    assert Split(kvp, '&') == [kvp];
    var entries := Entries([kvp]);
    assert entries[..0] == [];
    assert Store(entries) == map[][Key(kvp) := Value(kvp)];
    var d := Decompose(raw);
    assert d.pathInfo == path;
  }

  /**
   * A segment "k=v=w" stores v under k: the text after a second '=' is dropped, so for
   * "/p?a=b=c" the stored value is "b", not "b=c".
   */
  lemma SecondEqualsTruncates(path: string, k: string, v: string, w: string)
    requires '?' !in path
    requires '&' !in k && '=' !in k && '&' !in v && '=' !in v && '&' !in w && '=' !in w
    ensures Decompose(path + ['?'] + (k + ['='] + v + ['='] + w)) == Decomposed(path, Some(map[k := Some(v)]))
  {
    var kvp := k + ['='] + v + ['='] + w;
    SegmentOfTriple(k, v, w);
    assert forall i :: 0 <= i < |kvp| ==> kvp[i] in k || kvp[i] == '=' || kvp[i] in v || kvp[i] in w;
    DecomposeOneSegment(path, kvp);
  }

  lemma SegmentOfTriple(k: string, v: string, w: string)
    requires '=' !in k && '=' !in v && '=' !in w
    ensures Key(k + ['='] + v + ['='] + w) == k && Value(k + ['='] + v + ['='] + w) == Some(v)
  {
    assert [k, v, w][1..] == [v, w] && [v, w][1..] == [w];
    assert Join([v, w], '=') == v + ['='] + w;
    assert Join([k, v, w], '=') == k + ['='] + v + ['='] + w;
    SplitJoin([k, v, w], '=');
  }

  /** A segment without '=' is stored with a null value under the whole segment. */
  lemma FlagHasNullValue(path: string, flag: string)
    requires '?' !in path && '&' !in flag && '=' !in flag
    ensures Decompose(path + ['?'] + flag) == Decomposed(path, Some(map[flag := None]))
  {
    assert Split(flag, '=') == [flag];
    DecomposeOneSegment(path, flag);
  }
}
