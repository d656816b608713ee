/** fetch(): build the Guardian search query, GET it, and project every result
    to a four-field article record. */
module Fetcher {
  import opened Common
  import opened Json
  import opened External

  const SearchBase: string := "https://content.guardianapis.com/search?"
  const RequestTimeout: nat := 5
  const PreviewLimit: nat := 1000

  /** The article record keys, exactly. */
  const ArticleKeys: set<string> := {"webPublicationDate", "webTitle", "webUrl", "contentPreview"}

  /** Python truthiness of the optional `date_from` string: neither None nor "". */
  predicate Truthy(dateFrom: Option<string>) {
    dateFrom.Some? && dateFrom.value != ""
  }

  predicate EndsWith(s: string, suffix: string) {
    |suffix| <= |s| && s[|s| - |suffix|..] == suffix
  }

  /** `from-date={date_from}&` when `date_from` is truthy, nothing otherwise. */
  function DateClause(dateFrom: Option<string>): string {
    if Truthy(dateFrom) then "from-date=" + dateFrom.value + "&" else ""
  }

  /** `q={search}&order-by=newest&show-fields=body&api-key={api_key}` */
  function QueryTail(search: string, apiKey: string): string {
    "q=" + search + "&order-by=newest" + "&show-fields=body" + "&api-key=" + apiKey
  }

  /** The query url, by concatenation; every value is inserted verbatim (no percent-encoding). */
  function BuildQuery(apiKey: string, search: string, dateFrom: Option<string>): string {
    SearchBase + DateClause(dateFrom) + QueryTail(search, apiKey)
  }

  lemma ConcatShape(a: string, b: string, c: string)
    ensures a <= a + b <= a + b + c
    ensures EndsWith(a + b + c, c)
  {
  }

  /** The url starts with the base, a truthy date puts its clause right after the base,
      the url ends with the fixed tail, and nothing else is in it. */
  lemma QueryShape(apiKey: string, search: string, dateFrom: Option<string>)
    ensures var q := BuildQuery(apiKey, search, dateFrom);
            && SearchBase <= q
            && (Truthy(dateFrom) ==> SearchBase + "from-date=" + dateFrom.value + "&" <= q)
            && EndsWith(q, QueryTail(search, apiKey))
            && |q| == |SearchBase| + |DateClause(dateFrom)| + |QueryTail(search, apiKey)|
  {
    ConcatShape(SearchBase, DateClause(dateFrom), QueryTail(search, apiKey));
    if Truthy(dateFrom) {
      Associative(SearchBase, "from-date=" + dateFrom.value, "&");
      Associative(SearchBase, "from-date=", dateFrom.value);
    }
  }

  /** A from-date clause follows the base exactly when `date_from` is truthy. */
  lemma FromDateIffTruthy(apiKey: string, search: string, dateFrom: Option<string>)
    ensures var q := BuildQuery(apiKey, search, dateFrom);
            "from-date=" <= q[|SearchBase|..] <==> Truthy(dateFrom)
  {
    var q := BuildQuery(apiKey, search, dateFrom);
    if !Truthy(dateFrom) {
      assert q[|SearchBase|] == 'q';
    } else {
      assert q[|SearchBase|..][..10] == "from-date=";
    }
  }

  /** The query parameters in the order the url carries them. */
  function QueryParams(apiKey: string, search: string, dateFrom: Option<string>): seq<(string, string)> {
    (if Truthy(dateFrom) then [("from-date", dateFrom.value)] else []) + TailParams(apiKey, search)
  }

  /** `name=value` pairs joined by '&'. */
  function JoinParams(params: seq<(string, string)>): string {
    if params == [] then ""
    else if |params| == 1 then params[0].0 + "=" + params[0].1
    else params[0].0 + "=" + params[0].1 + "&" + JoinParams(params[1..])
  }

  lemma JoinParamsCons(p: (string, string), rest: seq<(string, string)>)
    requires rest != []
    ensures JoinParams([p] + rest) == p.0 + "=" + p.1 + "&" + JoinParams(rest)
  {
  }

  lemma Associative(a: string, b: string, c: string)
    ensures a + (b + c) == a + b + c
  {
  }

  lemma PiecesLiteral()
    ensures "q" + "=" == "q="
    ensures "&" + ("order-by" + "=" + "newest") == "&order-by=newest"
    ensures "&" + ("show-fields" + "=" + "body") == "&show-fields=body"
    ensures "&" + ("api-key" + "=") == "&api-key="
  {
  }

  lemma TailLiteral(search: string, apiKey: string)
    ensures "q" + "=" + search + ("&" + ("order-by" + "=" + "newest" + "&" + ("show-fields" + "=" + "body" + "&" + ("api-key" + "=" + apiKey))))
            == QueryTail(search, apiKey)
  {
    PiecesLiteral();
  }

  /** The four fixed-position parameters after the optional from-date. */
  function TailParams(apiKey: string, search: string): seq<(string, string)> {
    [("q", search), ("order-by", "newest"), ("show-fields", "body"), ("api-key", apiKey)]
  }

  lemma JoinTailParams(apiKey: string, search: string)
    ensures JoinParams(TailParams(apiKey, search)) == QueryTail(search, apiKey)
  {
    var last := [("api-key", apiKey)];
    var show := [("show-fields", "body")] + last;
    var order := [("order-by", "newest")] + show;
    assert TailParams(apiKey, search) == [("q", search)] + order;
    JoinParamsCons(("show-fields", "body"), last);
    JoinParamsCons(("order-by", "newest"), show);
    JoinParamsCons(("q", search), order);
    TailLiteral(search, apiKey);
  }

  lemma JoinQueryParams(apiKey: string, search: string, dateFrom: Option<string>)
    ensures JoinParams(QueryParams(apiKey, search, dateFrom)) == DateClause(dateFrom) + QueryTail(search, apiKey)
  {
    var tail := TailParams(apiKey, search);
    JoinTailParams(apiKey, search);
    if Truthy(dateFrom) {
      JoinParamsCons(("from-date", dateFrom.value), tail);
      assert QueryParams(apiKey, search, dateFrom) == [("from-date", dateFrom.value)] + tail;
      assert "from-date" + "=" + dateFrom.value + "&" == DateClause(dateFrom);
    } else {
      assert QueryParams(apiKey, search, dateFrom) == tail;
    }
  }

  /** The concatenated url is the base followed by the parameters from-date?, q,
      order-by, show-fields, api-key, in that order. */
  lemma QueryIsOrderedParams(apiKey: string, search: string, dateFrom: Option<string>)
    ensures BuildQuery(apiKey, search, dateFrom) == SearchBase + JoinParams(QueryParams(apiKey, search, dateFrom))
  {
    JoinQueryParams(apiKey, search, dateFrom);
    Associative(SearchBase, DateClause(dateFrom), QueryTail(search, apiKey));
  }

  /** Because values are inserted verbatim, the url does not determine the arguments:
      moving an `&q=` from the search string into the date gives the same url. */
  lemma VerbatimQueryIsAmbiguous(apiKey: string, date: string, x: string, y: string)
    requires date != ""
    ensures x + "&q=" + y != y
    ensures BuildQuery(apiKey, x + "&q=" + y, Some(date)) == BuildQuery(apiKey, y, Some(date + "&q=" + x))
  {
    assert |x + "&q=" + y| > |y|;
    var rest := "&order-by=newest" + "&show-fields=body" + "&api-key=" + apiKey;
    TailRegroup(x + "&q=" + y, apiKey);
    TailRegroup(y, apiKey);
    assert "&" + "q=" == "&q=";
    Regroup("from-date=", date, "&", "q=", "&q=", x, y, rest);
    Associative(SearchBase, DateClause(Some(date)), QueryTail(x + "&q=" + y, apiKey));
    Associative(SearchBase, DateClause(Some(date + "&q=" + x)), QueryTail(y, apiKey));
  }

  lemma TailRegroup(search: string, apiKey: string)
    ensures QueryTail(search, apiKey) == "q=" + search + ("&order-by=newest" + "&show-fields=body" + "&api-key=" + apiKey)
  {
  }

  lemma Regroup(f: string, d: string, amp: string, q: string, aq: string, x: string, y: string, rest: string)
    requires amp + q == aq
    ensures f + d + amp + (q + (x + aq + y) + rest) == f + (d + aq + x) + amp + (q + y + rest)
  {
  }

  /** `body[:min(len(body), 1000)]` on `result["fields"]["body"]`: a str or a list is
      sliced; len() of any other kind raises TypeError (and a dict cannot be sliced). */
  function Preview(body: Json): (r: Result<Json>)
    ensures r.Ok? <==> body.JString? || body.JArray?
    ensures body.JString? ==> r.Ok? && r.value.JString? && r.value.text <= body.text
                              && |r.value.text| == Min(|body.text|, PreviewLimit)
    ensures body.JArray? ==> r.Ok? && r.value.JArray? && r.value.items <= body.items
                             && |r.value.items| == Min(|body.items|, PreviewLimit)
    ensures r.Err? ==> r.error == TypeMismatch
  {
    match body
    case JString(s) => Ok(JString(s[..Min(|s|, PreviewLimit)]))
    case JArray(xs) => Ok(JArray(xs[..Min(|xs|, PreviewLimit)]))
    case _ => Err(TypeMismatch)
  }

  /** A body of at most 1000 characters is kept whole; a longer one is cut, never padded. */
  lemma ShortBodyKeptWhole(body: string)
    requires |body| <= PreviewLimit
    ensures Preview(JString(body)) == Ok(JString(body))
  {
    var r := Preview(JString(body));
    assert r.value.text == body[..|body|] == body;
  }

  /** An API result the projection gets through: a dict with the three copied keys and
      a `fields` dict whose `body` is a str or a list. */
  predicate IsApiResult(result: Json) {
    && result.JObject?
    && "webPublicationDate" in result.members
    && "webTitle" in result.members
    && "webUrl" in result.members
    && "fields" in result.members
    && result.members["fields"].JObject?
    && "body" in result.members["fields"].members
    && (result.members["fields"].members["body"].JString? || result.members["fields"].members["body"].JArray?)
  }

  predicate IsArticle(a: Json) {
    a.JObject? && a.members.Keys == ArticleKeys
  }

  /** The dict the comprehension builds for one result. The keys are subscripted in the
      order webPublicationDate, webTitle, webUrl, fields, body, and the first one missing
      raises KeyError; nothing is defaulted. */
  function ProjectResult(result: Json): (r: Result<Json>)
    ensures r.Ok? <==> IsApiResult(result)
    ensures r.Ok? ==> IsArticle(r.value)
    ensures r.Ok? ==> forall key :: key in ArticleKeys && key != "contentPreview" ==> r.value.members[key] == result.members[key]
    ensures r.Ok? ==> Preview(result.members["fields"].members["body"]) == Ok(r.value.members["contentPreview"])
    ensures !result.JObject? ==> r == Err(TypeMismatch)
    ensures result.JObject? ==>
              var m := result.members;
              && ("webPublicationDate" !in m ==> r == Err(MissingKey("webPublicationDate")))
              && ("webPublicationDate" in m && "webTitle" !in m ==> r == Err(MissingKey("webTitle")))
              && ("webPublicationDate" in m && "webTitle" in m && "webUrl" !in m ==> r == Err(MissingKey("webUrl")))
              && ("webPublicationDate" in m && "webTitle" in m && "webUrl" in m && "fields" !in m
                  ==> r == Err(MissingKey("fields")))
              && (("webPublicationDate" in m && "webTitle" in m && "webUrl" in m && "fields" in m
                   && m["fields"].JObject? && "body" !in m["fields"].members) ==> r == Err(MissingKey("body")))
  {
    var date :- Lookup(result, "webPublicationDate");
    var title :- Lookup(result, "webTitle");
    var url :- Lookup(result, "webUrl");
    var fields :- Lookup(result, "fields");
    var body :- Lookup(fields, "body");
    var preview :- Preview(body);
    Ok(JObject(map["webPublicationDate" := date, "webTitle" := title, "webUrl" := url, "contentPreview" := preview]))
  }

  /** The list comprehension over `results`: one article per result, in order; the first
      result that cannot be projected raises its error. */
  function ProjectAll(results: seq<Json>): (r: Result<seq<Json>>)
    ensures r.Ok? <==> forall k :: 0 <= k < |results| ==> ProjectResult(results[k]).Ok?
    ensures r.Ok? ==> |r.value| == |results|
                      && forall k :: 0 <= k < |results| ==> r.value[k] == ProjectResult(results[k]).value
    ensures r.Err? ==> exists k :: 0 <= k < |results| && ProjectResult(results[k]).Err?
                                  && r.error == ProjectResult(results[k]).error
                                  && forall j :: 0 <= j < k ==> ProjectResult(results[j]).Ok?
  {
    if results == [] then Ok([])
    else
      var first :- ProjectResult(results[0]);
      var rest :- ProjectAll(results[1..]);
      Ok([first] + rest)
  }

  /** `response.json()["response"]["results"]` followed by the projection. */
  function SelectResults(parsed: Json): (r: Result<seq<Json>>)
    ensures r.Ok? ==> forall a :: a in r.value ==> IsArticle(a)
    ensures parsed.JObject? && "response" !in parsed.members ==> r == Err(MissingKey("response"))
    ensures (parsed.JObject? && "response" in parsed.members && parsed.members["response"].JObject?
             && "results" !in parsed.members["response"].members) ==> r == Err(MissingKey("results"))
  {
    var response :- Lookup(parsed, "response");
    var results :- Lookup(response, "results");
    var items :- Elements(results);
    ProjectAll(items)
  }

  /** With a results list, the fetched articles correspond one to one and in order to its items. */
  lemma SelectResultsOfList(parsed: Json, items: seq<Json>)
    requires parsed.JObject? && "response" in parsed.members
    requires parsed.members["response"].JObject? && "results" in parsed.members["response"].members
    requires parsed.members["response"].members["results"] == JArray(items)
    ensures SelectResults(parsed).Ok? <==> forall k :: 0 <= k < |items| ==> IsApiResult(items[k])
    ensures SelectResults(parsed).Ok? ==>
              var articles := SelectResults(parsed).value;
              && |articles| == |items|
              && forall k :: 0 <= k < |items| ==> articles[k] == ProjectResult(items[k]).value
  {
  }

  /** What fetch() returns once the GET has answered: an exception from the request or the
      JSON decoder propagates unchanged, otherwise the projection of the parsed body. */
  function FetchOutcome(response: Result<Json>): (r: Result<seq<Json>>)
    ensures response.Err? ==> r == Err(response.error)
    ensures response.Ok? ==> r == SelectResults(response.value)
  {
    var parsed :- response;
    SelectResults(parsed)
  }

  /** fetch(api_key, search, date_from): exactly one GET, of the built query, with a
      five-second timeout. */
  method Fetch(svc: Services, apiKey: string, search: string, dateFrom: Option<string>) returns (r: Result<seq<Json>>)
    modifies svc
    ensures svc.requests == old(svc.requests) + [HttpGet(BuildQuery(apiKey, search, dateFrom), RequestTimeout)]
    ensures r == FetchOutcome(svc.getJson(BuildQuery(apiKey, search, dateFrom)))
  {
    var query := BuildQuery(apiKey, search, dateFrom);
    var response := svc.Get(query, RequestTimeout);
    r := FetchOutcome(response);
  }
}
