/**
 * EPiServer's `UrlBuilder`, as far as the extension methods and helpers of
 * this repository use it: a path, a query collection that is appended to in
 * place, and an `IsEmpty` flag fixed when the builder is made from a string.
 * A key added twice is kept as two pairs (a `NameValueCollection` keeps both
 * values under one key).
 */
module Urls {
  import opened Wrappers
  import opened Text

  type Pair = (string, string)

  /** The part of a URL before the first `?`. */
  function PathPart(url: string): (r: string)
    ensures |r| <= |url| && '?' !in r
  {
    if url == [] || url[0] == '?' then [] else [url[0]] + PathPart(url[1..])
  }

  /** The part of a URL after the first `?` (empty when there is none). */
  function QueryText(url: string): (r: string)
    ensures |r| <= |url|
  {
    if url == [] then [] else if url[0] == '?' then url[1..] else QueryText(url[1..])
  }

  /** `s.Split(c)` */
  function Split(s: string, c: char): (r: seq<string>)
    ensures |r| > 0
  {
    if s == [] then [[]]
    else if s[0] == c then [[]] + Split(s[1..], c)
    else var rest := Split(s[1..], c); [[s[0]] + rest[0]] + rest[1..]
  }

  /** A `key=value` segment, split at its first `=`. */
  function ParsePair(segment: string): Pair
  {
    var key := PathPartAt(segment, '=');
    (key, if |key| < |segment| then segment[|key| + 1..] else "")
  }

  function PathPartAt(s: string, c: char): (r: string)
    ensures |r| <= |s| && r == s[..|r|] && c !in r
    ensures |r| < |s| ==> s[|r|] == c
  {
    if s == [] || s[0] == c then [] else [s[0]] + PathPartAt(s[1..], c)
  }

  /** The query collection parsed from a query text; empty segments are dropped. */
  function ParseQuery(segments: seq<string>): seq<Pair>
  {
    if segments == [] then []
    else (if segments[0] == "" then [] else [ParsePair(segments[0])]) + ParseQuery(segments[1..])
  }

  function QueryPart(url: string): seq<Pair>
  {
    ParseQuery(Split(QueryText(url), '&'))
  }

  function Segments(q: seq<Pair>): seq<string>
  {
    if q == [] then [] else [q[0].0 + "=" + q[0].1] + Segments(q[1..])
  }

  /** `UrlBuilder.ToString()`: the path, then `?` and the pairs joined by `&`. */
  function Render(path: string, q: seq<Pair>): string
  {
    if q == [] then path else path + "?" + Join("&", Segments(q))
  }

  /** The text of a builder with two pairs. */
  lemma RenderTwo(path: string, a: Pair, b: Pair)
    ensures Render(path, [a, b]) == path + "?" + ((a.0 + "=" + a.1) + "&" + (b.0 + "=" + b.1))
  {
    var q := [a, b];
    assert q[1..] == [b] && q[1..][1..] == [];
    assert Segments(q[1..]) == [b.0 + "=" + b.1] + Segments(q[1..][1..]);
    assert Segments(q) == [a.0 + "=" + a.1] + Segments(q[1..]);
    assert Segments(q) == [a.0 + "=" + a.1, b.0 + "=" + b.1];
    JoinTwo("&", a.0 + "=" + a.1, b.0 + "=" + b.1);
    assert Render(path, q) == path + "?" + Join("&", Segments(q));
  }

  /** A URL without `?` is all path and has no query. */
  lemma {:induction false} NoQuery(url: string)
    requires '?' !in url
    ensures PathPart(url) == url && QueryText(url) == "" && QueryPart(url) == []
  {
    if url != [] {
      assert url[1..] <= url[1..] && forall i :: 0 <= i < |url[1..]| ==> url[1..][i] == url[i + 1];
      NoQuery(url[1..]);
      assert [url[0]] + url[1..] == url;
    }
    assert Split("", '&') == [[]];
  }

  /** The values stored under `key`, in insertion order. */
  function Values(q: seq<Pair>, key: string): seq<string>
  {
    if q == [] then [] else (if q[0].0 == key then [q[0].1] else []) + Values(q[1..], key)
  }

  function RemoveKey(q: seq<Pair>, key: string): seq<Pair>
  {
    if q == [] then [] else (if q[0].0 == key then [] else [q[0]]) + RemoveKey(q[1..], key)
  }

  /** `collection[key] = value`: the first entry for `key` takes the single value `value`, later ones go. */
  function SetValue(q: seq<Pair>, key: string, value: string): seq<Pair>
  {
    if q == [] then [(key, value)]
    else if q[0].0 == key then [(key, value)] + RemoveKey(q[1..], key)
    else [q[0]] + SetValue(q[1..], key, value)
  }

  /** `MergeQueryCollection(qc)`: every key of `qc` is set, in its order. */
  function Merge(q: seq<Pair>, qc: seq<Pair>): seq<Pair>
    decreases |qc|
  {
    if qc == [] then q else Merge(SetValue(q, qc[0].0, qc[0].1), qc[1..])
  }

  lemma {:induction false} ValuesAppend(a: seq<Pair>, b: seq<Pair>, key: string)
    ensures Values(a + b, key) == Values(a, key) + Values(b, key)
  {
    if a == [] {
      assert a + b == b;
    } else {
      assert (a + b)[0] == a[0] && (a + b)[1..] == a[1..] + b;
      ValuesAppend(a[1..], b, key);
      var head: seq<string> := if a[0].0 == key then [a[0].1] else [];
      assert Values(a + b, key) == head + Values(a[1..] + b, key);
      assert Values(a, key) == head + Values(a[1..], key);
      assert head + (Values(a[1..], key) + Values(b, key)) == (head + Values(a[1..], key)) + Values(b, key);
    }
  }

  lemma {:induction false} RemoveKeyValues(q: seq<Pair>, key: string, other: string)
    ensures Values(RemoveKey(q, key), key) == []
    ensures other != key ==> Values(RemoveKey(q, key), other) == Values(q, other)
  {
    if q != [] {
      RemoveKeyValues(q[1..], key, other);
      ValuesAppend(if q[0].0 == key then [] else [q[0]], RemoveKey(q[1..], key), key);
      ValuesAppend(if q[0].0 == key then [] else [q[0]], RemoveKey(q[1..], key), other);
    }
  }

  /** After a set, the key holds exactly the new value and every other key is unchanged. */
  lemma {:induction false} SetValueValues(q: seq<Pair>, key: string, value: string, other: string)
    ensures Values(SetValue(q, key, value), key) == [value]
    ensures other != key ==> Values(SetValue(q, key, value), other) == Values(q, other)
  {
    if q == [] {
    } else if q[0].0 == key {
      ValuesAppend([(key, value)], RemoveKey(q[1..], key), key);
      ValuesAppend([(key, value)], RemoveKey(q[1..], key), other);
      RemoveKeyValues(q[1..], key, other);
    } else {
      SetValueValues(q[1..], key, value, other);
      ValuesAppend([q[0]], SetValue(q[1..], key, value), key);
      ValuesAppend([q[0]], SetValue(q[1..], key, value), other);
    }
  }

  /** The last value `qc` holds for `key`, if any. */
  function LastValue(qc: seq<Pair>, key: string): Option<string>
  {
    if qc == [] then None
    else match LastValue(qc[1..], key)
      case Some(v) => Some(v)
      case None => if qc[0].0 == key then Some(qc[0].1) else None
  }

  /**
   * A merge overwrites exactly the keys of the merged collection, each with
   * its last value there, and leaves every other key of the builder as it was.
   */
  lemma {:induction false} MergeValues(q: seq<Pair>, qc: seq<Pair>, key: string)
    ensures LastValue(qc, key).Some? ==> Values(Merge(q, qc), key) == [LastValue(qc, key).value]
    ensures LastValue(qc, key).None? ==> Values(Merge(q, qc), key) == Values(q, key)
    decreases |qc|
  {
    if qc != [] {
      var q1 := SetValue(q, qc[0].0, qc[0].1);
      MergeValues(q1, qc[1..], key);
      SetValueValues(q, qc[0].0, qc[0].1, key);
    }
  }

  /** The last value of the merged collection for a key is the last of its values there. */
  lemma {:induction false} LastValueIsLast(qc: seq<Pair>, key: string)
    ensures LastValue(qc, key) == if Values(qc, key) == [] then None else Some(Values(qc, key)[|Values(qc, key)| - 1])
  {
    if qc != [] {
      LastValueIsLast(qc[1..], key);
    }
  }

  /**
   * Merging a collection that holds one value for `key` leaves that single
   * value in the builder; merging one without `key` leaves the builder's
   * values for it as they were.
   */
  lemma MergeByValues(q: seq<Pair>, qc: seq<Pair>, key: string)
    ensures |Values(qc, key)| == 1 ==> Values(Merge(q, qc), key) == Values(qc, key)
    ensures Values(qc, key) == [] ==> Values(Merge(q, qc), key) == Values(q, key)
  {
    LastValueIsLast(qc, key);
    MergeValues(q, qc, key);
  }

  /** The keys of a collection, in order. */
  function Keys(q: seq<Pair>): (r: seq<string>)
    ensures |r| == |q|
    ensures forall i :: 0 <= i < |q| ==> r[i] == q[i].0
  {
    if q == [] then [] else [q[0].0] + Keys(q[1..])
  }

  lemma {:induction false} KeysAppend(a: seq<Pair>, b: seq<Pair>)
    ensures Keys(a + b) == Keys(a) + Keys(b)
  {
  }

  /** The pair `(key, value)` when `cond` holds, else nothing: an `Add` inside an `if`. */
  function Opt(cond: bool, key: string, value: string): seq<Pair>
  {
    if cond then [(key, value)] else []
  }

  lemma ValuesOptSame(cond: bool, key: string, v: string)
    ensures Values(Opt(cond, key, v), key) == if cond then [v] else []
  {
  }

  /** An optional pair under another key adds nothing; `i` is where the two keys first differ. */
  lemma ValuesOptOther(cond: bool, k: string, v: string, key: string, i: nat)
    requires i == |k| || i == |key| || (i < |k| && i < |key| && k[i] != key[i])
    requires i <= |k| && i <= |key| && (i == |k| || i == |key| ==> |k| != |key|)
    ensures Values(Opt(cond, k, v), key) == []
  {
  }

  class UrlBuilder {
    const isEmpty: bool
    var path: string
    var query: seq<Pair>

    /** `new UrlBuilder(url)` */
    constructor (url: string)
      ensures isEmpty == (url == "")
      ensures path == PathPart(url) && query == QueryPart(url)
    {
      isEmpty := url == "";
      path := PathPart(url);
      query := QueryPart(url);
    }

    /** `QueryCollection.Add(key, value)`: an unconditional append. */
    method Add(key: string, value: string)
      modifies this
      ensures path == old(path)
      ensures query == old(query) + [(key, value)]
    {
      query := query + [(key, value)];
    }

    /** `QueryCollection.Add(collection)`: every pair appended in order. */
    method AddAll(pairs: seq<Pair>)
      modifies this
      ensures path == old(path)
      ensures query == old(query) + pairs
    {
      query := query + pairs;
    }

    method MergeQueryCollection(qc: seq<Pair>)
      modifies this
      ensures path == old(path)
      ensures query == Merge(old(query), qc)
    {
      query := Merge(query, qc);
    }

    function ToString(): string
      reads this
    {
      Render(path, query)
    }
  }
}
