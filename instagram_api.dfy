/** The Instagram dashboard's API client: the endpoint each request goes to,
    the headers it carries, and the message of the error a failed response
    raises. The `fetch` call itself is not modelled. */
module InstagramApi {
  import opened Common
  import Strings
  import opened UrlQuery

  /** A path followed by `?` and its query string. */
  function Endpoint(path: string, query: seq<(string, string)>): string
  {
    path + "?" + QueryString(query)
  }

  /** The template string `${path}?${name}=${value}`: the endpoint with that
      one pair. Nothing is encoded. */
  function WithOnePair(path: string, name: string, value: string): (e: string)
    ensures e == Endpoint(path, [(name, value)])
  {
    path + "?" + name + "=" + value
  }

  /** The template string `${path}?${n1}=${v1}&${n2}=${v2}`: the endpoint with
      those two pairs, in that order. */
  function WithTwoPairs(path: string, n1: string, v1: string, n2: string, v2: string): (e: string)
    ensures e == Endpoint(path, [(n1, v1), (n2, v2)])
  {
    var pairs := [(n1, v1), (n2, v2)];
    var parts := seq(|pairs|, i requires 0 <= i < |pairs| => pairs[i].0 + "=" + pairs[i].1);
    assert parts == [n1 + "=" + v1, n2 + "=" + v2];
    assert parts[1..] == [n2 + "=" + v2];
    assert QueryString(pairs) == JoinWith(parts, '&');
    assert JoinWith(parts, '&') == parts[0] + ['&'] + JoinWith(parts[1..], '&');
    path + "?" + n1 + "=" + v1 + "&" + n2 + "=" + v2
  }

  // ---- builders with a single path parameter (template strings) ----

  /** `getEngagementEvolution`: `days` defaults to 30. */
  function EngagementEvolutionEndpoint(profile: string, days: int := 30): (e: string)
    ensures e == Endpoint("/dashboard/instagram/engagement-evolution/" + profile, [("days", Strings.IntToString(days))])
  {
    WithOnePair("/dashboard/instagram/engagement-evolution/" + profile, "days", Strings.IntToString(days))
  }

  /** `getPostsRanking`: sorted by `likes_count`, ten posts, by default. */
  function PostsRankingEndpoint(profile: string, sortBy: string := "likes_count", limit: int := 10): (e: string)
    ensures e == Endpoint("/dashboard/instagram/posts-ranking/" + profile,
                          [("sort_by", sortBy), ("limit", Strings.IntToString(limit))])
  {
    WithTwoPairs("/dashboard/instagram/posts-ranking/" + profile, "sort_by", sortBy, "limit", Strings.IntToString(limit))
  }

  /** The two kinds of commenter `getTopCommenters` asks for. */
  datatype CommenterType = Supporter | Critic

  function CommenterTypeName(t: CommenterType): string
  {
    match t
    case Supporter => "supporter"
    case Critic => "critic"
  }

  /** `getTopCommenters`: the type goes in `analysis_type`, `limit`
      defaults to 5. */
  function TopCommentersEndpoint(profile: string, t: CommenterType, limit: int := 5): (e: string)
    ensures e == Endpoint("/dashboard/instagram/top-commenters/" + profile,
                          [("analysis_type", CommenterTypeName(t)), ("limit", Strings.IntToString(limit))])
  {
    WithTwoPairs("/dashboard/instagram/top-commenters/" + profile, "analysis_type", CommenterTypeName(t), "limit", Strings.IntToString(limit))
  }

  /** `getCommentersInfluence`: `limit` defaults to 50. */
  function CommentersInfluenceEndpoint(profile: string, limit: int := 50): (e: string)
    ensures e == Endpoint("/dashboard/instagram/commenters-influence/" + profile, [("limit", Strings.IntToString(limit))])
  {
    WithOnePair("/dashboard/instagram/commenters-influence/" + profile, "limit", Strings.IntToString(limit))
  }

  /** `getSentimentByPost`: `limit` defaults to 10. */
  function SentimentByPostEndpoint(profile: string, limit: int := 10): (e: string)
    ensures e == Endpoint("/dashboard/instagram/sentiment-by-post/" + profile, [("limit", Strings.IntToString(limit))])
  {
    WithOnePair("/dashboard/instagram/sentiment-by-post/" + profile, "limit", Strings.IntToString(limit))
  }

  /** `getHashtagFeed`: `limit` defaults to 20. */
  function HashtagFeedEndpoint(hashtag: string, limit: int := 20): (e: string)
    ensures e == Endpoint("/dashboard/instagram/hashtag-feed/" + hashtag, [("limit", Strings.IntToString(limit))])
  {
    WithOnePair("/dashboard/instagram/hashtag-feed/" + hashtag, "limit", Strings.IntToString(limit))
  }

  /** `getTopicSentimentOverTime`: `days` defaults to 30. */
  function TopicSentimentOverTimeEndpoint(hashtag: string, days: int := 30): (e: string)
    ensures e == Endpoint("/dashboard/instagram/topic-sentiment-over-time/" + hashtag, [("days", Strings.IntToString(days))])
  {
    WithOnePair("/dashboard/instagram/topic-sentiment-over-time/" + hashtag, "days", Strings.IntToString(days))
  }

  /** `getTopicInfluencers`: `limit` defaults to 10. */
  function TopicInfluencersEndpoint(hashtag: string, limit: int := 10): (e: string)
    ensures e == Endpoint("/dashboard/instagram/topic-influencers/" + hashtag, [("limit", Strings.IntToString(limit))])
  {
    WithOnePair("/dashboard/instagram/topic-influencers/" + hashtag, "limit", Strings.IntToString(limit))
  }

  /** `getPerformanceByContentType` has no query at all. */
  function PerformanceByContentTypeEndpoint(profile: string): (e: string)
    ensures '?' !in profile ==> '?' !in e
  {
    NoQueryInPerformancePath();
    "/dashboard/instagram/performance-by-content-type/" + profile
  }

  lemma NoQueryInPerformancePath()
    ensures '?' !in "/dashboard/instagram/performance-by-content-type/"
  {
    var p := "/dashboard/instagram/performance-by-content-type/";
    assert p[..20] == "/dashboard/instagram";
    assert '?' !in p[..20];
    assert '?' !in p[20..];
    assert p == p[..20] + p[20..];
  }

  /** The query of a single-profile builder reads back as the pairs it was
      built from, in order, so long as the interpolated values (which these
      template strings do not encode) hold no `&`; the numbers never do. */
  lemma BuilderQueries(profile: string, sortBy: string, limit: int, days: int)
    requires '&' !in sortBy
    ensures ParseQuery(QueryString([("days", Strings.IntToString(days))])) == [("days", Strings.IntToString(days))]
    ensures ParseQuery(QueryString([("sort_by", sortBy), ("limit", Strings.IntToString(limit))]))
              == [("sort_by", sortBy), ("limit", Strings.IntToString(limit))]
    ensures ParseQuery(QueryString([("limit", Strings.IntToString(limit))])) == [("limit", Strings.IntToString(limit))]
  {
    IntToStringHasNoAmpersand(days);
    IntToStringHasNoAmpersand(limit);
    ParseQueryString([("days", Strings.IntToString(days))]);
    ParseQueryString([("sort_by", sortBy), ("limit", Strings.IntToString(limit))]);
    ParseQueryString([("limit", Strings.IntToString(limit))]);
  }

  lemma IntToStringHasNoAmpersand(n: int)
    ensures '&' !in Strings.IntToString(n)
  {
    var s := Strings.IntToString(n);
    if n < 0 {
      var d := Strings.NatToString(-n);
      assert s == "-" + d;
      assert forall i :: 0 <= i < |d| ==> Strings.IsDigit(d[i]);
      assert forall i :: 0 <= i < |s| ==> s[i] == '-' || Strings.IsDigit(s[i]);
    }
  }

  // ---- builders over several profiles (URLSearchParams) ----

  /** A `URLSearchParams` object: its pairs in the order they were
      appended. */
  class SearchParams {
    var pairs: seq<(string, string)>

    constructor ()
      ensures pairs == []
    {
      pairs := [];
    }

    method Append(name: string, value: string)
      modifies this
      ensures pairs == old(pairs) + [(name, value)]
    {
      pairs := pairs + [(name, value)];
    }

    /** `params.toString()`: every name and value passed through the
        form-encoding `enc`, then joined. */
    function ToString(enc: string -> string): (q: string)
      reads this
      ensures q == "" <==> pairs == []
    {
      QueryString(Encoded(pairs, enc))
    }
  }

  function Encoded(pairs: seq<(string, string)>, enc: string -> string): (r: seq<(string, string)>)
    ensures |r| == |pairs|
    ensures forall i :: 0 <= i < |pairs| ==> r[i] == (enc(pairs[i].0), enc(pairs[i].1))
  {
    seq(|pairs|, i requires 0 <= i < |pairs| => (enc(pairs[i].0), enc(pairs[i].1)))
  }

  /** One `profiles` pair per profile, in list order. */
  function ProfilePairs(profiles: seq<string>): (r: seq<(string, string)>)
    ensures |r| == |profiles|
    ensures forall i :: 0 <= i < |profiles| ==> r[i] == ("profiles", profiles[i])
  {
    seq(|profiles|, i requires 0 <= i < |profiles| => ("profiles", profiles[i]))
  }

  /** `profiles.forEach(p => params.append('profiles', p))`. */
  method AppendProfiles(params: SearchParams, profiles: seq<string>)
    modifies params
    ensures params.pairs == old(params.pairs) + ProfilePairs(profiles)
  {
    var i := 0;
    while i < |profiles|
      invariant 0 <= i <= |profiles|
      invariant params.pairs == old(params.pairs) + ProfilePairs(profiles[..i])
    {
      assert ProfilePairs(profiles[..i + 1]) == ProfilePairs(profiles[..i]) + [("profiles", profiles[i])];
      params.Append("profiles", profiles[i]);
      i := i + 1;
    }
    assert profiles[..i] == profiles;
  }

  /** The encoded `profiles=…` pairs of a list of profiles. */
  function ProfilesQuery(profiles: seq<string>, enc: string -> string): (q: string)
    ensures q == "" <==> profiles == []
  {
    QueryString(Encoded(ProfilePairs(profiles), enc))
  }

  /** `getHeadToHeadEngagement`: the profile pairs, then `&days=N` written
      straight after them; `days` defaults to 7. */
  method HeadToHeadEngagementEndpoint(profiles: seq<string>, enc: string -> string, days: int := 7) returns (e: string)
    ensures e == "/dashboard/instagram/head-to-head-engagement?" + ProfilesQuery(profiles, enc) + "&days=" + Strings.IntToString(days)
  {
    var params := new SearchParams();
    AppendProfiles(params, profiles);
    assert params.pairs == ProfilePairs(profiles);
    e := "/dashboard/instagram/head-to-head-engagement?" + params.ToString(enc) + "&days=" + Strings.IntToString(days);
  }

  /** With no profiles the query starts with an empty piece: `?&days=7`. */
  lemma HeadToHeadNoProfiles(enc: string -> string)
    ensures "/dashboard/instagram/head-to-head-engagement?" + ProfilesQuery([], enc) + "&days=" + Strings.IntToString(7)
              == "/dashboard/instagram/head-to-head-engagement?&days=7"
  {
    assert ProfilePairs([]) == [];
    assert Strings.IntToString(7) == "7";
  }

  /** A builder whose query is only the encoded profile pairs. */
  method ProfilesOnlyEndpoint(path: string, profiles: seq<string>, enc: string -> string) returns (e: string)
    ensures e == path + "?" + ProfilesQuery(profiles, enc)
  {
    var params := new SearchParams();
    AppendProfiles(params, profiles);
    assert params.pairs == ProfilePairs(profiles);
    e := path + "?" + params.ToString(enc);
  }

  /** `getContentStrategyComparison`. */
  method ContentStrategyComparisonEndpoint(profiles: seq<string>, enc: string -> string) returns (e: string)
    ensures e == "/dashboard/instagram/content-strategy-comparison?" + ProfilesQuery(profiles, enc)
  {
    e := ProfilesOnlyEndpoint("/dashboard/instagram/content-strategy-comparison", profiles, enc);
  }

  /** `getVulnerabilityIdentification`. */
  method VulnerabilityIdentificationEndpoint(profiles: seq<string>, enc: string -> string) returns (e: string)
    ensures e == "/dashboard/instagram/vulnerability-identification?" + ProfilesQuery(profiles, enc)
  {
    e := ProfilesOnlyEndpoint("/dashboard/instagram/vulnerability-identification", profiles, enc);
  }

  /** `getTopTermsByProfile`: under `/analytics/`, not the dashboard prefix,
      with `days` (default 7) appended as the last pair. */
  method TopTermsByProfileEndpoint(profiles: seq<string>, enc: string -> string, days: int := 7) returns (e: string)
    ensures e == "/analytics/top-terms-by-profile?"
                 + QueryString(Encoded(ProfilePairs(profiles) + [("days", Strings.IntToString(days))], enc))
  {
    var params := new SearchParams();
    AppendProfiles(params, profiles);
    assert params.pairs == ProfilePairs(profiles);
    params.Append("days", Strings.IntToString(days));
    e := "/analytics/top-terms-by-profile?" + params.ToString(enc);
  }

  /** The form encoding never leaves a separator in what it encodes. */
  predicate EncodesSeparators(enc: string -> string, s: string)
  {
    '&' !in enc(s) && '=' !in enc(s)
  }

  /** Read back, the top-terms query is one encoded `profiles` pair per
      profile, in order, followed by the encoded `days` pair. */
  lemma TopTermsQueryParses(profiles: seq<string>, enc: string -> string, days: int)
    requires forall i :: 0 <= i < |profiles| ==> EncodesSeparators(enc, profiles[i])
    requires EncodesSeparators(enc, "profiles") && EncodesSeparators(enc, "days")
    requires EncodesSeparators(enc, Strings.IntToString(days))
    ensures var q := ParseQuery(QueryString(Encoded(ProfilePairs(profiles) + [("days", Strings.IntToString(days))], enc)));
            |q| == |profiles| + 1
            && (forall i :: 0 <= i < |profiles| ==> q[i] == (enc("profiles"), enc(profiles[i])))
            && q[|profiles|] == (enc("days"), enc(Strings.IntToString(days)))
  {
    var pairs := Encoded(ProfilePairs(profiles) + [("days", Strings.IntToString(days))], enc);
    ParseQueryString(pairs);
  }

  // ---- fetchApiData ----

  /** The headers of every request: JSON content type first, then the
      caller's headers, which win on a clash. */
  function RequestHeaders(caller: map<string, string>): (h: map<string, string>)
    ensures h.Keys == caller.Keys + {"Content-Type"}
    ensures forall k :: k in caller ==> h[k] == caller[k]
    ensures "Content-Type" !in caller ==> h["Content-Type"] == "application/json"
  {
    map["Content-Type" := "application/json"] + caller
  }

  /** The body of a failed response: not JSON at all, or JSON that may carry
      a `detail` string. */
  datatype ErrorBody = NotJson | JsonBody(detail: Option<string>)

  const UnknownApiError := "Erro desconhecido na API."

  /** The message of the error thrown for a response that is not OK:
      `detail` when present and non-empty, `Erro <status>` otherwise; a body
      that is not JSON counts as the detail "Erro desconhecido na API.". */
  function FetchErrorMessage(status: int, body: ErrorBody): (m: string)
    ensures body.NotJson? ==> m == UnknownApiError
    ensures body.JsonBody? && body.detail.Some? && body.detail.value != "" ==> m == body.detail.value
    ensures body.JsonBody? && (body.detail.None? || body.detail.value == "") ==> m == "Erro " + Strings.IntToString(status)
  {
    var detail := if body.NotJson? then Some(UnknownApiError) else body.detail;
    OrElse(detail, "Erro " + Strings.IntToString(status))
  }

  /** The fallback names the status, so distinct statuses give distinct
      messages. */
  lemma FetchErrorMessageStatus(s1: nat, s2: nat)
    requires FetchErrorMessage(s1, JsonBody(None)) == FetchErrorMessage(s2, JsonBody(None))
    ensures s1 == s2
  {
    var m1 := FetchErrorMessage(s1, JsonBody(None));
    assert m1[5..] == Strings.IntToString(s1);
    assert FetchErrorMessage(s2, JsonBody(None))[5..] == Strings.IntToString(s2);
    Strings.NatToStringInjective(s1, s2);
  }
}
