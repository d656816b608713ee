/** The two external collaborators the program talks to: the search API reached by
    `requests.get(...).json()` and the SQS client's `send_message_batch`. Their
    behaviour is not modelled: each is a function from its request to its outcome,
    and every request made is recorded in order, as a test spy would record it. */
module External {
  import opened Common
  import opened Json

  /** One entry of a batch, as `send_message_batch` takes it ("Id", "MessageBody"). */
  datatype Entry = Entry(id: string, messageBody: string)

  datatype Request =
    | HttpGet(url: string, timeoutSeconds: nat)
    | SendMessageBatch(queueUrl: string, entries: seq<Entry>)

  class Services {
    /** The parsed JSON body that a GET of the url yields, or the exception it raises. */
    const getJson: string -> Result<Json>
    /** The response dict SQS returns for a batch, or the exception the client raises. */
    const sendBatch: (string, seq<Entry>) -> Result<map<string, Json>>
    /** Every request made so far, oldest first. */
    var requests: seq<Request>

    constructor (getJson: string -> Result<Json>, sendBatch: (string, seq<Entry>) -> Result<map<string, Json>>)
      ensures this.getJson == getJson && this.sendBatch == sendBatch
      ensures requests == []
    {
      this.getJson := getJson;
      this.sendBatch := sendBatch;
      requests := [];
    }

    /** `requests.get(url, timeout=timeoutSeconds).json()` */
    method Get(url: string, timeoutSeconds: nat) returns (r: Result<Json>)
      modifies this
      ensures requests == old(requests) + [HttpGet(url, timeoutSeconds)]
      ensures r == getJson(url)
    {
      requests := requests + [HttpGet(url, timeoutSeconds)];
      r := getJson(url);
    }

    /** `client.send_message_batch(QueueUrl=queueUrl, Entries=entries)` */
    method Send(queueUrl: string, entries: seq<Entry>) returns (r: Result<map<string, Json>>)
      modifies this
      ensures requests == old(requests) + [SendMessageBatch(queueUrl, entries)]
      ensures r == sendBatch(queueUrl, entries)
    {
      requests := requests + [SendMessageBatch(queueUrl, entries)];
      r := sendBatch(queueUrl, entries);
    }
  }
}
