/** Query strings: `name=value` pairs joined by `&`, and the parse that reads
    them back. */
module UrlQuery {

  /** The pieces of `s` between occurrences of `c` (always at least one). */
  function SplitOn(s: string, c: char): (parts: seq<string>)
    ensures |parts| > 0
  {
    if s == [] then [""]
    else
      var rest := SplitOn(s[1..], c);
      if s[0] == c then [""] + rest else [[s[0]] + rest[0]] + rest[1..]
  }

  /** The pieces glued together with `c` between them. */
  function JoinWith(parts: seq<string>, c: char): string
    requires |parts| > 0
  {
    if |parts| == 1 then parts[0] else parts[0] + [c] + JoinWith(parts[1..], c)
  }

  lemma {:induction false} SplitOnPrefix(a: string, c: char, rest: string)
    requires c !in a
    ensures SplitOn(a + [c] + rest, c) == [a] + SplitOn(rest, c)
  {
    if a == [] {
      assert a + [c] + rest == [c] + rest;
      assert ([c] + rest)[1..] == rest;
    } else {
      SplitOnPrefix(a[1..], c, rest);
      assert (a + [c] + rest)[1..] == a[1..] + [c] + rest;
      assert [a[0]] + a[1..] == a;
    }
  }

  lemma {:induction false} SplitOnFree(a: string, c: char)
    requires c !in a
    ensures SplitOn(a, c) == [a]
  {
    if a != [] {
      SplitOnFree(a[1..], c);
      assert [a[0]] + a[1..] == a;
    }
  }

  /** Splitting undoes joining when no piece holds the separator. */
  lemma {:induction false} SplitJoin(parts: seq<string>, c: char)
    requires |parts| > 0
    requires forall i :: 0 <= i < |parts| ==> c !in parts[i]
    ensures SplitOn(JoinWith(parts, c), c) == parts
  {
    if |parts| == 1 {
      SplitOnFree(parts[0], c);
    } else {
      SplitJoin(parts[1..], c);
      SplitOnPrefix(parts[0], c, JoinWith(parts[1..], c));
    }
  }

  /** The serialised query: `k1=v1&k2=v2…`, the empty string for no pairs. */
  function QueryString(pairs: seq<(string, string)>): (q: string)
    ensures q == "" <==> pairs == []
    ensures pairs != [] ==> |q| > |pairs[0].0| && q[..|pairs[0].0| + 1] == pairs[0].0 + "="
  {
    if pairs == [] then ""
    else
      var parts := seq(|pairs|, i requires 0 <= i < |pairs| => pairs[i].0 + "=" + pairs[i].1);
      JoinPrefix(parts, '&');
      assert parts[0][..|pairs[0].0| + 1] == pairs[0].0 + "=";
      JoinWith(parts, '&')
  }

  /** The position of the first `c` in `s`, or `|s|`. */
  function FirstIndex(s: string, c: char): (i: nat)
    ensures i <= |s|
    ensures i < |s| ==> s[i] == c
    ensures forall j :: 0 <= j < i ==> s[j] != c
  {
    if s == [] then 0 else if s[0] == c then 0 else 1 + FirstIndex(s[1..], c)
  }

  /** One `name=value` piece read back: the name ends at the first `=`. */
  function ParsePair(part: string): (string, string)
  {
    var i := FirstIndex(part, '=');
    if i == |part| then (part, "") else (part[..i], part[i + 1..])
  }

  /** The pairs of a query string, in order. */
  function ParseQuery(s: string): (pairs: seq<(string, string)>)
    ensures s == "" <==> pairs == []
  {
    if s == "" then []
    else
      var parts := SplitOn(s, '&');
      seq(|parts|, i requires 0 <= i < |parts| => ParsePair(parts[i]))
  }

  /** A non-empty query without `&` reads back as one pair. */
  lemma ParseQuerySingle(s: string)
    requires s != "" && '&' !in s
    ensures ParseQuery(s) == [ParsePair(s)]
  {
    SplitOnFree(s, '&');
  }

  lemma ParsePairOf(k: string, v: string)
    requires '=' !in k
    ensures ParsePair(k + "=" + v) == (k, v)
  {
    var part := k + "=" + v;
    assert part[|k|] == '=';
    assert forall j :: 0 <= j < |k| ==> part[j] == k[j];
    assert part[..|k|] == k && part[|k| + 1..] == v;
  }

  /** A query whose names hold neither `&` nor `=` and whose values hold no
      `&` parses back to exactly its pairs, in order. */
  lemma ParseQueryString(pairs: seq<(string, string)>)
    requires forall i :: 0 <= i < |pairs| ==> '&' !in pairs[i].0 && '=' !in pairs[i].0 && '&' !in pairs[i].1
    ensures ParseQuery(QueryString(pairs)) == pairs
  {
    if pairs != [] {
      var parts := seq(|pairs|, i requires 0 <= i < |pairs| => pairs[i].0 + "=" + pairs[i].1);
      forall i | 0 <= i < |parts| ensures '&' !in parts[i] {
        assert parts[i] == pairs[i].0 + "=" + pairs[i].1;
      }
      SplitJoin(parts, '&');
      assert parts[0][|pairs[0].0|] == '=';
      JoinPrefix(parts, '&');
      assert QueryString(pairs) != "";
      forall i | 0 <= i < |pairs| ensures ParsePair(parts[i]) == pairs[i] {
        ParsePairOf(pairs[i].0, pairs[i].1);
      }
    }
  }

  lemma JoinPrefix(parts: seq<string>, c: char)
    requires |parts| > 0
    ensures |JoinWith(parts, c)| >= |parts[0]| && JoinWith(parts, c)[..|parts[0]|] == parts[0]
  {
  }
}
