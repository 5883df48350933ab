/** The query parameters the analytics service sends with each GET request.
    The HTTP call itself is not modelled: a request is its path and its
    parameter object, with the object's keys in insertion order. */
module AnalyticsService {
  import opened Common

  /** A value of the params object: a string, a number or a list of strings. */
  datatype ParamValue = Text(s: string) | Number(n: int) | TextList(items: seq<string>)

  /** A params object: `(key, value)` pairs in insertion order. */
  type Params = seq<(string, ParamValue)>

  datatype Request = Request(path: string, params: Params)

  /** A dated value of a time series (`DataPoint`, `TrendsDataPoint`); values
      are whole numbers here. */
  datatype DataPoint = DataPoint(date: string, value: int)

  /** One term's series in a trends comparison (`TrendsComparisonItem`). */
  datatype TrendsSeries = TrendsSeries(term: string, data: seq<DataPoint>)

  function Keys(p: Params): (ks: seq<string>)
    ensures |ks| == |p|
    ensures forall i :: 0 <= i < |p| ==> ks[i] == p[i].0
  {
    if p == [] then [] else [p[0].0] + Keys(p[1..])
  }

  /** The value stored under `key`, if any. */
  function Lookup(p: Params, key: string): (v: Option<ParamValue>)
    ensures v.None? <==> key !in Keys(p)
  {
    if p == [] then None
    else if p[0].0 == key then Some(p[0].1)
    else Lookup(p[1..], key)
  }

  /** A key found is the value of its FIRST pair in the params. */
  lemma {:induction false} LookupFirst(p: Params, key: string)
    ensures Lookup(p, key).Some? ==>
              exists i :: 0 <= i < |p| && p[i] == (key, Lookup(p, key).value) && forall j :: 0 <= j < i ==> p[j].0 != key
  {
    if p != [] && p[0].0 == key {
      assert p[0] == (key, p[0].1);
    } else if p != [] {
      var v := Lookup(p[1..], key);
      LookupFirst(p[1..], key);
      if v.Some? {
        var i :| 0 <= i < |p[1..]| && p[1..][i] == (key, v.value) && forall j :: 0 <= j < i ==> p[1..][j].0 != key;
        assert p[i + 1] == (key, v.value);
        forall j | 0 <= j < i + 1 ensures p[j].0 != key {
          if j > 0 { assert p[j] == p[1..][j - 1]; }
        }
      }
    }
  }

  lemma KeysAppend(p: Params, k: string, v: ParamValue)
    ensures Keys(p + [(k, v)]) == Keys(p) + [k]
  {
  }

  /** Looking up a key in a params object extended at its end. */
  lemma LookupAppend(p: Params, k: string, v: ParamValue, key: string)
    ensures Lookup(p + [(k, v)], key) == if key in Keys(p) then Lookup(p, key) else if k == key then Some(v) else None
  {
    if p != [] {
      assert (p + [(k, v)])[1..] == p[1..] + [(k, v)];
      LookupAppend(p[1..], k, v, key);
    } else {
      assert ([] + [(k, v)])[1..] == [];
    }
  }

  /** Both `search_group` and `days`, in that order: the params of every
      per-group analytics request. */
  function GroupParams(searchGroup: string, days: int): (p: Params)
    ensures CarriesGroup(p, searchGroup, days)
  {
    var p := [("search_group", Text(searchGroup)), ("days", Number(days))];
    assert p[1..] == [("days", Number(days))] && p[1..][1..] == [];
    p
  }

  /** The params are exactly `{ search_group, days }`, in that order. */
  predicate CarriesGroup(p: Params, searchGroup: string, days: int)
  {
    Keys(p) == ["search_group", "days"]
    && Lookup(p, "search_group") == Some(Text(searchGroup))
    && Lookup(p, "days") == Some(Number(days))
  }

  /** `getKpis`. */
  function KpisRequest(searchGroup: string, days: int): (r: Request)
    ensures r.path == "/analytics/kpis" && CarriesGroup(r.params, searchGroup, days)
  {
    Request("/analytics/kpis", GroupParams(searchGroup, days))
  }

  /** `getCombinedView`. */
  function CombinedViewRequest(searchGroup: string, days: int): (r: Request)
    ensures r.path == "/analytics/combined_view" && CarriesGroup(r.params, searchGroup, days)
  {
    Request("/analytics/combined_view", GroupParams(searchGroup, days))
  }

  /** `getEntitiesCloud`. */
  function EntitiesCloudRequest(searchGroup: string, days: int): (r: Request)
    ensures r.path == "/analytics/entities_cloud" && CarriesGroup(r.params, searchGroup, days)
  {
    Request("/analytics/entities_cloud", GroupParams(searchGroup, days))
  }

  /** `getSentimentDistribution`. */
  function SentimentDistributionRequest(searchGroup: string, days: int): (r: Request)
    ensures r.path == "/analytics/sentiment_distribution" && CarriesGroup(r.params, searchGroup, days)
  {
    Request("/analytics/sentiment_distribution", GroupParams(searchGroup, days))
  }

  /** `getSentimentOverTime`. */
  function SentimentOverTimeRequest(searchGroup: string, days: int): (r: Request)
    ensures r.path == "/analytics/sentiment_over_time" && CarriesGroup(r.params, searchGroup, days)
  {
    Request("/analytics/sentiment_over_time", GroupParams(searchGroup, days))
  }

  /** `getRisingQueries`: the group alone, without a period. */
  function RisingQueriesRequest(searchGroup: string): (r: Request)
    ensures r.path == "/analytics/rising_queries"
    ensures Keys(r.params) == ["search_group"] && Lookup(r.params, "search_group") == Some(Text(searchGroup))
  {
    Request("/analytics/rising_queries", [("search_group", Text(searchGroup))])
  }

  /** `getTrendsComparison`: the whole term list as one value, then the period. */
  function TrendsComparisonRequest(terms: seq<string>, days: int): (r: Request)
    ensures r.path == "/analytics/trends_comparison"
    ensures Keys(r.params) == ["terms", "days"]
    ensures Lookup(r.params, "terms") == Some(TextList(terms)) && Lookup(r.params, "days") == Some(Number(days))
  {
    var p := [("terms", TextList(terms)), ("days", Number(days))];
    assert p[1..] == [("days", Number(days))] && p[1..][1..] == [];
    Request("/analytics/trends_comparison", p)
  }

  /** The keys of the params every mentions request starts with. */
  lemma MentionsBaseFacts(searchGroup: string, days: int, page: int)
    ensures Keys(GroupParams(searchGroup, days) + [("page", Number(page))]) == ["search_group", "days", "page"]
    ensures Lookup(GroupParams(searchGroup, days) + [("page", Number(page))], "search_group") == Some(Text(searchGroup))
    ensures Lookup(GroupParams(searchGroup, days) + [("page", Number(page))], "days") == Some(Number(days))
    ensures Lookup(GroupParams(searchGroup, days) + [("page", Number(page))], "page") == Some(Number(page))
  {
    var g := GroupParams(searchGroup, days);
    KeysAppend(g, "page", Number(page));
    assert "page" !in ["search_group", "days"];
    LookupAppend(g, "page", Number(page), "search_group");
    LookupAppend(g, "page", Number(page), "days");
    LookupAppend(g, "page", Number(page), "page");
  }

  /** `getMentions`: `page` defaults to 1 and `entity` to null; the params
      always hold `search_group`, `days` and `page`, and `entity` is added,
      verbatim, only when it is a non-empty string. */
  function MentionsRequest(searchGroup: string, days: int, page: int := 1, entity: Option<string> := None): (r: Request)
    ensures r.path == "/analytics/mentions"
    ensures Lookup(r.params, "search_group") == Some(Text(searchGroup))
    ensures Lookup(r.params, "days") == Some(Number(days))
    ensures Lookup(r.params, "page") == Some(Number(page))
    ensures "entity" in Keys(r.params) <==> entity.Some? && entity.value != ""
    ensures "entity" in Keys(r.params) ==> Lookup(r.params, "entity") == Some(Text(entity.value))
    ensures Keys(r.params) == ["search_group", "days", "page"] + (if entity.Some? && entity.value != "" then ["entity"] else [])
  {
    var params := GroupParams(searchGroup, days) + [("page", Number(page))];
    MentionsBaseFacts(searchGroup, days, page);
    assert "entity" !in ["search_group", "days", "page"];
    if entity.Some? && entity.value != "" then
      var p := params + [("entity", Text(entity.value))];
      KeysAppend(params, "entity", Text(entity.value));
      LookupAppend(params, "entity", Text(entity.value), "search_group");
      LookupAppend(params, "entity", Text(entity.value), "days");
      LookupAppend(params, "entity", Text(entity.value), "page");
      LookupAppend(params, "entity", Text(entity.value), "entity");
      Request("/analytics/mentions", p)
    else
      Request("/analytics/mentions", params)
  }

  /** The defaults of `getMentions`: first page, no entity filter. */
  lemma MentionsDefaults(searchGroup: string, days: int)
    ensures MentionsRequest(searchGroup, days) == MentionsRequest(searchGroup, days, 1, None)
    ensures Keys(MentionsRequest(searchGroup, days).params) == ["search_group", "days", "page"]
  {
  }
}
