# lp-graun-sifter, modelled in Dafny

lp-graun-sifter fetches recent Guardian articles that match a search term and forwards
them to an SQS queue as one message batch. `gather` reads the Guardian API key from the
environment, calls `fetch`, passes the fetched articles to `post`, and returns the SQS
response with the articles added under `"Fetched"`.

This project models the deterministic parts of those three functions and proves what they
promise. The effects are abstracted away:

- the HTTP GET and `response.json()` become a function from url to parsed JSON (or an exception);
- `send_message_batch` becomes a function from queue url and entries to a response dict (or an exception);
- the clock becomes a `Timestamp` parameter;
- `json.dumps` becomes a `dumps` parameter, and the one fact assumed of it (that `json.loads`
  undoes it) is the precondition `RoundTrips(dumps, loads)`.

`External.Services` records every request made, in order, as a test spy would. That record
is what lets the model prove that no request is made when the key is missing. Otherwise
there is exactly one GET, and it is followed by exactly one send when the fetch succeeds.

Modules, one per concern:

- `Common`: `Option`, `Result` and the errors Python would raise.
  `MissingKey` stands for KeyError, `TypeMismatch` for TypeError, and `Raised` for an
  exception from an external collaborator.
- `Json`: parsed JSON values, with Python's subscript and `for` semantics on them.
- `Decimal`: `f"{i}"` and `int(s)`.
- `Clock`: the `"%Y%m%dT%H%M%S_"` id prefix, with its parse-back.
- `External`: the two services and the request log.
- `Fetcher`: `src/lp_graun_sifter/fetch.py`.
- `Poster`: `src/lp_graun_sifter/post.py`.
- `Orchestrator`: `src/lp_graun_sifter/__init__.py`.

Points where the code's behaviour is easy to misread:

- `gather` reads the key only from `GUARDIAN_API_KEY`. When it is absent, the error is the
  KeyError of `os.environ[...]`.
- `fetch` projects every result. The docstring's "up to 10" (src/lp_graun_sifter/fetch.py:7)
  is the API's page size; the code itself applies no cap.
- Each article record has four keys, including `contentPreview`. The fetch tests
  (test/test_fetch.py:80-89) expect three keys, but the code produces four.

## Model

| member | source | states |
|---|---|---|
| Fetcher.BuildQuery | src/lp_graun_sifter/fetch.py:28-31 | The query url. Its properties are stated by the three lemmas below: its shape (`QueryShape`), the from-date clause appearing exactly for a truthy `date_from` (`FromDateIffTruthy`), and its equality with the base plus the ordered, `&`-joined parameters (`QueryIsOrderedParams`). |
| Fetcher.QueryShape | src/lp_graun_sifter/fetch.py:28-31 | The url built by `BuildQuery` starts with `https://content.guardianapis.com/search?`. A truthy `date_from` puts `from-date={date_from}&` right after the base. The url ends with `q={search}&order-by=newest&show-fields=body&api-key={api_key}`, with both values verbatim. The length shows that nothing else is inserted, so a falsy date adds nothing. |
| Fetcher.FromDateIffTruthy | src/lp_graun_sifter/fetch.py:29-30 | The text after the base starts with `from-date=` if and only if `date_from` is neither None nor "". |
| Fetcher.QueryIsOrderedParams | src/lp_graun_sifter/fetch.py:28-31 | The concatenated url equals the base followed by the `&`-joined `name=value` list from-date (optional), q, order-by=newest, show-fields=body, api-key, in that order. |
| Fetcher.VerbatimQueryIsAmbiguous | src/lp_graun_sifter/fetch.py:30-31 | Nothing is percent-encoded, so the url does not determine the arguments. For every key, non-empty date and strings x, y, the search `x&q=y` with that date gives the same url as the search `y` with the date `{date}&q=x`. |
| Json.Lookup | src/lp_graun_sifter/fetch.py:37-43 | Subscripting succeeds exactly on a dict holding the key and yields that member. A dict without the key gives KeyError; any other kind gives TypeError. |
| Json.Elements | src/lp_graun_sifter/fetch.py:47 | Iterating `results` feeds a list's items in order. Only an empty dict or empty string also gets through, with nothing to iterate. Every other value raises TypeError. |
| Fetcher.Preview | src/lp_graun_sifter/fetch.py:43-45 | The preview of a str (or list) body is a prefix of it, of length `min(len(body), 1000)`. Any other kind of body is an error. |
| Fetcher.ShortBodyKeptWhole | src/lp_graun_sifter/fetch.py:43-45 | A body of at most 1000 characters is kept whole as the preview. |
| Fetcher.ProjectResult | src/lp_graun_sifter/fetch.py:39-46 | Projection succeeds exactly on a well-formed result. It yields a record with exactly the keys webPublicationDate, webTitle, webUrl and contentPreview. The first three are copied unchanged, and contentPreview is the preview of `fields.body`. The first missing key, in evaluation order, is a KeyError; nothing is defaulted. |
| Fetcher.ProjectAll | src/lp_graun_sifter/fetch.py:38-48 | Every result projects exactly when the whole list does. The output has the input's length, and output i is the projection of input i. On failure the error is that of the first failing result. |
| Fetcher.SelectResults | src/lp_graun_sifter/fetch.py:37-48 | Every fetched record is an article with exactly the four keys. A missing `response` or `results` key is a KeyError. |
| Fetcher.SelectResultsOfList | src/lp_graun_sifter/fetch.py:37-48 | For a `results` list, fetching succeeds exactly when every item is a well-formed result. The articles then match the items one to one and in order. |
| Fetcher.FetchOutcome | src/lp_graun_sifter/fetch.py:34-37 | An exception from the GET or the JSON decoder propagates unchanged; otherwise the result is the projection of the parsed body. |
| Fetcher.Fetch | src/lp_graun_sifter/fetch.py:28-50 | Exactly one request is made: a GET of the built url with timeout 5. The return value is that response's outcome. |
| External.Services.Get | src/lp_graun_sifter/fetch.py:34-37 | Appends the GET (url, timeout) to the request log and returns the service's answer for that url. |
| External.Services.Send | src/lp_graun_sifter/post.py:48 | Appends the batch send (queue url, entries) to the request log and returns the client's answer unchanged. |
| Decimal.NatToDecimal | src/lp_graun_sifter/post.py:41 | `f"{i}"` is a non-empty run of digits, with a single digit exactly when i < 10. |
| Decimal.DecimalRoundTrip | test/test_post.py:93-95 | Reading the decimal numeral of i back with `int` yields i. |
| Decimal.NatToDecimalInjective | src/lp_graun_sifter/post.py:41 | Different indices get different numerals. |
| Clock.FormatIdPrefix | src/lp_graun_sifter/post.py:31-32 | The formatted prefix has the shape YYYYMMDDTHHMMSS_: 16 characters, digits everywhere except 'T' at position 8 and '_' at position 15. |
| Clock.Pad2 | src/lp_graun_sifter/post.py:32 | A two-digit field is two digits that read back as its value. |
| Clock.IdPrefixRoundTrip | test/test_post.py:66-73 | Parsing the prefix with `%Y%m%dT%H%M%S` gives back the clock reading. |
| Poster.Cap | src/lp_graun_sifter/post.py:35-36 | The capped list is a prefix of the messages, of length `min(len(messages), 10)`. |
| Poster.EntryId | src/lp_graun_sifter/post.py:41 | The id of entry i is the shared prefix followed by `f"{i}"`. Its properties are stated by `EntryIdsIndexed`, `EntryIdsDistinct` and `PostEntryIdFormat` below. |
| Poster.BuildEntries | src/lp_graun_sifter/post.py:39-45 | There is one entry per message, in order. Entry i has id `prefix + f"{i}"` and, as its body, the serialisation of message i. |
| Poster.PostEntries | src/lp_graun_sifter/post.py:31-45 | post sends `min(len(messages), 10)` entries. Entry i carries the serialisation of messages[i], so with more than ten messages exactly the first ten go out, in input order. |
| Poster.EntryIdsIndexed | src/lp_graun_sifter/post.py:39-45 | Every id starts with the one shared prefix, and its remainder reads back as its own index 0, 1, 2, … in send order. |
| Poster.EntryIdsDistinct | src/lp_graun_sifter/post.py:39-45 | No two entries of a batch share an id. |
| Poster.PostEntryIdFormat | src/lp_graun_sifter/post.py:31-45 | Each sent id is 17 characters and has a single '_' at position 15. The datepart before it parses back to the clock reading, and the index after it is one digit, 0 to 9, equal to the entry's position. |
| Poster.BodiesDecodeToMessages | src/lp_graun_sifter/post.py:42 | Given the serialiser round trip, decoding the body of entry i yields messages[i] field for field. |
| Poster.Post | src/lp_graun_sifter/post.py:31-50 | Exactly one send is made, to `queue_url`, with the built entries. Its response, or its exception, is returned unchanged. |
| Orchestrator.Merge | src/lp_graun_sifter/__init__.py:40 | The result maps "Fetched" to the fetched list, overwriting any earlier value. Every other key of the response keeps its value, and no other key is added. |
| Orchestrator.Gather | src/lp_graun_sifter/__init__.py:37-41 | Without `GUARDIAN_API_KEY` it fails with KeyError and makes no request. Otherwise it makes one GET of the url built from exactly the environment's key, the search and `date_from`. If the fetch fails, nothing more is sent and the error propagates. If it succeeds, exactly one send follows, carrying the entries for exactly the fetched list. The result is that send's response merged with the full, uncapped fetched list. |
| Orchestrator.EntryIndexNamesFetchedArticle | src/lp_graun_sifter/__init__.py:33-34 | The number ending each sent id is between 0 and 9, and it is the index in "Fetched" of the article whose body that entry carries. |

## Left out

- The network behaviour of `requests.get`: the timeout, status codes and connection errors. The model records the timeout of 5 and takes the parsed body (or an exception) as the value of an abstract function of the url.
- The SQS client's behaviour: partial success and failure, message storage, and the rejection of an empty batch. The client is an abstract function of (queue url, entries). So the end-to-end fact that "Successful" plus "Failed" counts add up to the number fetched, and the storage test (test/test_post.py:180-221), are not modelled.
- Both services are fixed functions of the request. A service whose answer depends on time or on earlier requests is not modelled.
- `json.dumps(..., ensure_ascii=False)`: its output text and escaping are not modelled. It is the parameter `dumps`, and the only fact used about it is the stated round trip with `loads`.
- `datetime.now(UTC)`: the clock reading is a parameter.
- Clock.FormatIdPrefix: pads the year to four digits. glibc's `strftime("%Y")` prints years below 1000 without padding; those years cannot occur for a current clock.
- Clock.ParseIdPrefix: accepts day 31 in every month. `strptime` also checks the days in the month.
- Decimal.ParseDecimal: stands for `int()` only on strings of digits, which is all the id suffixes are. Signs, whitespace and underscores are not modelled.
- Python dicts keep insertion order; maps do not. The key order of article records and of the response dict is not modelled.
- JSON numbers are kept as their literal text; floating point is not modelled. A Python str holding a lone surrogate has no counterpart in Dafny's `string`.
- Fetcher.Preview: slicing a dict body is TypeError before Python 3.12 and KeyError from 3.12. The model reports TypeError for both.
- In-place update and aliasing: `gather` updates post's response dict in place, and Python lists are shared. The model works on values, so it does not capture aliasing. For the same reason, "post does not mutate the caller's list" holds by construction: the capped list is a new value, and `Gather` returns the full fetched list under "Fetched".
- The `__main__` command-line blocks of `__init__.py` and `post.py` (argv parsing, dotenv, AWS region lookup, printing) are not part of this model.
- The test fixtures, and the broken or commented-out tests of test/test_fetch.py and test/test_gather.py, are not part of this model.
