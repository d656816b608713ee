/** post(): cap the messages at ten, give each an id made of one per-call timestamp
    prefix and its index, serialise each to a body, and send them in one batch. */
module Poster {
  import opened Common
  import opened Json
  import opened Decimal
  import opened Clock
  import opened External

  const MaxBatchSize: nat := 10

  /** `if len(messages) > 10: messages = messages[:10]` -- a new local list; the
      caller's list is a value here and cannot change. */
  function Cap(messages: seq<Json>): (r: seq<Json>)
    ensures |r| == Min(|messages|, MaxBatchSize)
    ensures r <= messages
  {
    if |messages| > MaxBatchSize then messages[..MaxBatchSize] else messages
  }

  /** `f"{id_prefix}{i}"` */
  function EntryId(prefix: string, i: nat): string {
    prefix + NatToDecimal(i)
  }

  /** The comprehension over `enumerate(messages)`; `dumps` stands for
      `json.dumps(message, ensure_ascii=False)`. */
  function BuildEntries(prefix: string, messages: seq<Json>, dumps: Json -> string): (r: seq<Entry>)
    ensures |r| == |messages|
    ensures forall i :: 0 <= i < |r| ==> r[i].messageBody == dumps(messages[i])
    ensures forall i :: 0 <= i < |r| ==> r[i].id == EntryId(prefix, i)
  {
    seq(|messages|, i requires 0 <= i < |messages| => Entry(EntryId(prefix, i), dumps(messages[i])))
  }

  /** The entries post() sends for `messages` when the clock reads `now`. */
  function PostEntries(messages: seq<Json>, now: Timestamp, dumps: Json -> string): (r: seq<Entry>)
    requires Valid(now)
    ensures |r| == Min(|messages|, MaxBatchSize)
    ensures forall i :: 0 <= i < |r| ==> r[i].messageBody == dumps(messages[i])
  {
    BuildEntries(FormatIdPrefix(now), Cap(messages), dumps)
  }

  /** Every id starts with the one shared prefix and ends with its own index in decimal. */
  lemma EntryIdsIndexed(prefix: string, messages: seq<Json>, dumps: Json -> string)
    ensures var entries := BuildEntries(prefix, messages, dumps);
            forall i :: 0 <= i < |entries| ==>
              prefix <= entries[i].id && ParseDecimal(entries[i].id[|prefix|..]) == Some(i)
  {
    var entries := BuildEntries(prefix, messages, dumps);
    forall i | 0 <= i < |entries|
      ensures prefix <= entries[i].id && ParseDecimal(entries[i].id[|prefix|..]) == Some(i)
    {
      assert entries[i].id[|prefix|..] == NatToDecimal(i);
      DecimalRoundTrip(i);
    }
  }

  /** No two entries of a batch share an id, as SQS requires of a batch. */
  lemma EntryIdsDistinct(prefix: string, messages: seq<Json>, dumps: Json -> string)
    ensures var entries := BuildEntries(prefix, messages, dumps);
            forall i, j :: 0 <= i < j < |entries| ==> entries[i].id != entries[j].id
  {
    var entries := BuildEntries(prefix, messages, dumps);
    forall i, j | 0 <= i < j < |entries|
      ensures entries[i].id != entries[j].id
    {
      if entries[i].id == entries[j].id {
        assert entries[i].id[|prefix|..] == NatToDecimal(i);
        assert entries[j].id[|prefix|..] == NatToDecimal(j);
        NatToDecimalInjective(i, j);
      }
    }
  }

  /** The shape the tests read back: the id splits at its single '_' into a datepart
      that parses to the clock reading and a one-digit index (0 to 9). */
  lemma PostEntryIdFormat(messages: seq<Json>, now: Timestamp, dumps: Json -> string, i: nat)
    requires Valid(now)
    requires i < |PostEntries(messages, now, dumps)|
    ensures var id := PostEntries(messages, now, dumps)[i].id;
            && i <= 9
            && |id| == 17
            && ParseIdPrefix(id[..16]) == Some(now)
            && id[15] == '_'
            && (forall k :: 0 <= k < |id| && k != 15 ==> id[k] != '_')
            && ParseDecimal(id[16..]) == Some(i)
  {
    var prefix := FormatIdPrefix(now);
    var id := PostEntries(messages, now, dumps)[i].id;
    assert id == prefix + NatToDecimal(i);
    assert id[..16] == prefix;
    assert id[16..] == NatToDecimal(i);
    IdPrefixRoundTrip(now);
    DecimalRoundTrip(i);
  }

  /** `json.loads` undoes `json.dumps` on every JSON value: the one fact assumed of the serialiser. */
  ghost predicate RoundTrips(dumps: Json -> string, loads: string -> Json) {
    forall m :: loads(dumps(m)) == m
  }

  /** Decoding the body of entry i gives back messages[i], field for field. */
  lemma BodiesDecodeToMessages(messages: seq<Json>, now: Timestamp, dumps: Json -> string, loads: string -> Json)
    requires Valid(now)
    requires RoundTrips(dumps, loads)
    ensures var entries := PostEntries(messages, now, dumps);
            forall i :: 0 <= i < |entries| ==> loads(entries[i].messageBody) == messages[i]
  {
  }

  /** post(client, queue_url, messages): exactly one send, of the built entries to
      `queue_url`, whose response (or exception) is returned unchanged. */
  method Post(svc: Services, queueUrl: string, messages: seq<Json>, now: Timestamp, dumps: Json -> string)
    returns (r: Result<map<string, Json>>)
    requires Valid(now)
    modifies svc
    ensures svc.requests == old(svc.requests) + [SendMessageBatch(queueUrl, PostEntries(messages, now, dumps))]
    ensures r == svc.sendBatch(queueUrl, PostEntries(messages, now, dumps))
  {
    var idPrefix := FormatIdPrefix(now);
    var batch := Cap(messages);
    var entries := BuildEntries(idPrefix, batch, dumps);
    r := svc.Send(queueUrl, entries);
  }
}
