/** gather(): look up the API key, fetch, post what was fetched, and add the fetched
    articles to the SQS response under "Fetched". */
module Orchestrator {
  import opened Common
  import opened Json
  import opened Decimal
  import opened Clock
  import opened External
  import Fetcher
  import Poster

  const ApiKeyVar: string := "GUARDIAN_API_KEY"
  const FetchedKey: string := "Fetched"

  /** `response.update({"Fetched": fetch_results})` */
  function Merge(response: map<string, Json>, fetched: seq<Json>): (r: map<string, Json>)
    ensures r.Keys == response.Keys + {FetchedKey}
    ensures r[FetchedKey] == JArray(fetched)
    ensures forall k :: k in response && k != FetchedKey ==> r[k] == response[k]
  {
    response[FetchedKey := JArray(fetched)]
  }

  /** gather(sqs_client, sqs_queue_url, search_string, date_from), with the process
      environment as `env`, the instant post() reads the clock as `now`, and the
      serialiser post() uses as `dumps`. */
  method Gather(svc: Services, env: map<string, string>, queueUrl: string, search: string,
                dateFrom: Option<string>, now: Timestamp, dumps: Json -> string)
    returns (r: Result<map<string, Json>>)
    requires Valid(now)
    modifies svc
    // No key: KeyError before any request.
    ensures ApiKeyVar !in env ==> r == Err(MissingKey(ApiKeyVar)) && svc.requests == old(svc.requests)
    // fetch() gets exactly the environment's key, the search string and date_from.
    ensures ApiKeyVar in env ==>
              var url := Fetcher.BuildQuery(env[ApiKeyVar], search, dateFrom);
              var fetched := Fetcher.FetchOutcome(svc.getJson(url));
              fetched.Err? ==>
                && r == Err(fetched.error)
                && svc.requests == old(svc.requests) + [HttpGet(url, Fetcher.RequestTimeout)]
    // post() gets exactly the list fetch() returned; the result is its response plus "Fetched".
    ensures ApiKeyVar in env ==>
              var url := Fetcher.BuildQuery(env[ApiKeyVar], search, dateFrom);
              var fetched := Fetcher.FetchOutcome(svc.getJson(url));
              fetched.Ok? ==>
                var entries := Poster.PostEntries(fetched.value, now, dumps);
                var sent := svc.sendBatch(queueUrl, entries);
                && svc.requests == old(svc.requests)
                                   + [HttpGet(url, Fetcher.RequestTimeout), SendMessageBatch(queueUrl, entries)]
                && r == (if sent.Err? then Err(sent.error) else Ok(Merge(sent.value, fetched.value)))
  {
    if ApiKeyVar !in env {
      return Err(MissingKey(ApiKeyVar));
    }
    var apiKey := env[ApiKeyVar];
    var fetchResults :- Fetcher.Fetch(svc, apiKey, search, dateFrom);
    var response :- Poster.Post(svc, queueUrl, fetchResults, now, dumps);
    response := Merge(response, fetchResults);
    r := Ok(response);
  }

  /** The ids SQS reports back end in 0..9, and index i names the i-th article of "Fetched". */
  lemma EntryIndexNamesFetchedArticle(fetched: seq<Json>, now: Timestamp, dumps: Json -> string,
                                      loads: string -> Json, i: nat)
    requires Valid(now)
    requires Poster.RoundTrips(dumps, loads)
    requires i < |Poster.PostEntries(fetched, now, dumps)|
    ensures var entry := Poster.PostEntries(fetched, now, dumps)[i];
            && i < |fetched| && i <= 9
            && ParseDecimal(entry.id[16..]) == Some(i)
            && loads(entry.messageBody) == fetched[i]
  {
    Poster.PostEntryIdFormat(fetched, now, dumps, i);
  }
}
