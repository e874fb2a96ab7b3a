/** What the forwarder's transform promises, proved against two reference
    definitions: `Kept`, the events that pass the "RequestId:" filter, and
    `EnrichAll`, which turns a list of events into records one by one. The loop
    (`CollectRecords`) is shown to be `EnrichAll` after `Kept`, from which the
    filter, order, length, enrichment and send rules follow. */
module BetterStackProperties {
  import opened PhpValues
  import opened PhpBuiltins
  import opened BetterStack

  /** The events that pass the filter, in their original order. */
  function Kept(events: seq<Event>): (kept: seq<Event>)
    ensures |kept| <= |events|
    ensures forall j :: 0 <= j < |kept| ==> !IsLifecycleLine(kept[j])
  {
    if events == [] then []
    else (if IsLifecycleLine(events[0]) then [] else [events[0]]) + Kept(events[1..])
  }

  /** Record every event, in order; the first event that cannot be recorded
      makes the whole list fail with its error. */
  function EnrichAll(events: seq<Event>, name: string, builtins: Builtins): Result<seq<Value>>
  {
    if events == [] then Ok([])
    else
      match Record(events[0], name, builtins)
      case Err(e) => Err(e)
      case Ok(record) =>
        match EnrichAll(events[1..], name, builtins)
        case Err(e) => Err(e)
        case Ok(records) => Ok([record] + records)
  }

  /** Running two lists in sequence: the first failure wins. */
  function Then(first: Result<seq<Value>>, second: Result<seq<Value>>): Result<seq<Value>>
  {
    if first.Err? then first
    else if second.Err? then second
    else Ok(first.value + second.value)
  }

  lemma {:induction false} KeptAppend(a: seq<Event>, b: seq<Event>)
    ensures Kept(a + b) == Kept(a) + Kept(b)
  {
    if a == [] {
      assert a + b == b;
    } else {
      assert (a + b)[0] == a[0];
      assert (a + b)[1..] == a[1..] + b;
      KeptAppend(a[1..], b);
    }
  }

  lemma {:induction false} EnrichAllAppend(a: seq<Event>, b: seq<Event>, name: string, builtins: Builtins)
    ensures EnrichAll(a + b, name, builtins) == Then(EnrichAll(a, name, builtins), EnrichAll(b, name, builtins))
  {
    if a == [] {
      assert a + b == b;
      var second := EnrichAll(b, name, builtins);
      if second.Ok? {
        assert [] + second.value == second.value;
      }
    } else {
      var ab := a + b;
      assert ab[0] == a[0] && ab[1..] == a[1..] + b;
      EnrichAllAppend(a[1..], b, name, builtins);
      var rest, second := EnrichAll(a[1..], name, builtins), EnrichAll(b, name, builtins);
      match Record(a[0], name, builtins)
      case Err(_) =>
      case Ok(record) =>
        if rest.Ok? && second.Ok? {
          assert [record] + (rest.value + second.value) == ([record] + rest.value) + second.value;
        }
    }
  }

  /** The loop records exactly the kept events: filtering first and enriching
      after gives the same records, or the same first error. */
  lemma {:induction false} CollectIsEnrichAllOfKept(events: seq<Event>, name: string, builtins: Builtins)
    ensures CollectRecords(events, name, builtins) == EnrichAll(Kept(events), name, builtins)
    decreases |events|
  {
    if events != [] {
      var init, last := events[..|events| - 1], events[|events| - 1];
      assert events == init + [last];
      CollectIsEnrichAllOfKept(init, name, builtins);
      var single: seq<Event> := [last];
      KeptAppend(init, single);
      assert single[1..] == [];
      assert Kept(single) == if IsLifecycleLine(last) then [] else single;
      EnrichAllAppend(Kept(init), Kept(single), name, builtins);
      var prior := CollectRecords(init, name, builtins);
      if prior.Ok? && !IsLifecycleLine(last) {
        match Record(last, name, builtins)
        case Err(_) =>
        case Ok(record) =>
          assert EnrichAll(single, name, builtins) == Ok([record] + []);
          assert [record] + [] == [record];
      } else if prior.Ok? {
        assert prior.value + [] == prior.value;
      }
    }
  }

  /** Enriching keeps length and order: record j comes from event j, and the
      list fails exactly when some event cannot be recorded. */
  lemma {:induction false} EnrichAllInOrder(events: seq<Event>, name: string, builtins: Builtins)
    ensures EnrichAll(events, name, builtins).Ok? <==> forall j :: 0 <= j < |events| ==> Record(events[j], name, builtins).Ok?
    ensures EnrichAll(events, name, builtins).Ok? ==>
      && |EnrichAll(events, name, builtins).value| == |events|
      && forall j :: 0 <= j < |events| ==> Record(events[j], name, builtins) == Ok(EnrichAll(events, name, builtins).value[j])
  {
    if events != [] {
      var tail := events[1..];
      EnrichAllInOrder(tail, name, builtins);
      var result, rest := EnrichAll(events, name, builtins), EnrichAll(tail, name, builtins);
      match Record(events[0], name, builtins)
      case Err(_) =>
      case Ok(record) =>
        if rest.Ok? {
          assert result == Ok([record] + rest.value);
          forall j | 1 <= j < |events|
            ensures Record(events[j], name, builtins) == Ok(result.value[j])
          {
            assert events[j] == tail[j - 1];
          }
        } else {
          var k :| 0 <= k < |tail| && Record(tail[k], name, builtins).Err?;
          assert events[k + 1] == tail[k];
        }
    }
  }

  /** The forwarded records are the events that pass the filter, one record per
      event and in the same order; so there are never more records than events. */
  lemma RecordsFollowKeptEvents(events: seq<Event>, name: string, builtins: Builtins)
    requires CollectRecords(events, name, builtins).Ok?
    ensures |CollectRecords(events, name, builtins).value| == |Kept(events)| <= |events|
    ensures forall j :: 0 <= j < |Kept(events)| ==>
      Record(Kept(events)[j], name, builtins) == Ok(CollectRecords(events, name, builtins).value[j])
  {
    CollectIsEnrichAllOfKept(events, name, builtins);
    EnrichAllInOrder(Kept(events), name, builtins);
  }

  /** The loop aborts exactly when some event that passes the filter cannot be
      recorded. */
  lemma AbortsIffSomeKeptEventFails(events: seq<Event>, name: string, builtins: Builtins)
    ensures CollectRecords(events, name, builtins).Err? <==>
      exists j :: 0 <= j < |Kept(events)| && Record(Kept(events)[j], name, builtins).Err?
  {
    CollectIsEnrichAllOfKept(events, name, builtins);
    EnrichAllInOrder(Kept(events), name, builtins);
  }

  /** A message containing "RequestId:" contributes nothing: removing that event
      from anywhere in the list leaves the outcome of the loop unchanged. */
  lemma LifecycleLineContributesNothing(before: seq<Event>, event: Event, after: seq<Event>, name: string, builtins: Builtins)
    requires IsLifecycleLine(event)
    ensures CollectRecords(before + [event] + after, name, builtins) == CollectRecords(before + after, name, builtins)
  {
    var single: seq<Event> := [event];
    assert single[1..] == [];
    assert Kept(single) == [];
    KeptAppend(before + single, after);
    KeptAppend(before, single);
    KeptAppend(before, after);
    assert Kept(before + single + after) == Kept(before + after);
    CollectIsEnrichAllOfKept(before + single + after, name, builtins);
    CollectIsEnrichAllOfKept(before + after, name, builtins);
  }

  /** A message that is not valid JSON, or a missing one, is wrapped: the record
      is `{"message": text, "api_name": name}`, with "" for a missing message. */
  lemma PlainMessageIsWrapped(event: Event, name: string, builtins: Builtins)
    requires Message(event).None? || !builtins.jsonValidate(Message(event).value)
    ensures Record(event, name, builtins) ==
      Ok(Arr([(MessageKey, Str(if Message(event).Some? then Message(event).value else "")), (ApiNameKey, Str(name))]))
  {
    var text := if Message(event).Some? then Message(event).value else "";
    var wrapped := [(MessageKey, Str(text))];
    assert Classify(event, builtins) == Arr(wrapped);
    assert MessageKey != ApiNameKey by {
      assert "message"[0] != "api_name"[0];
    }
    assert wrapped[1..] == [];
    assert Set(wrapped[1..], ApiNameKey, Str(name)) == [(ApiNameKey, Str(name))];
    assert Set(wrapped, ApiNameKey, Str(name)) == [wrapped[0]] + Set(wrapped[1..], ApiNameKey, Str(name));
    assert [wrapped[0]] + [(ApiNameKey, Str(name))] == [(MessageKey, Str(text)), (ApiNameKey, Str(name))];
    assert Record(event, name, builtins) == Ok(Arr(Set(wrapped, ApiNameKey, Str(name))));
  }

  /** A message that is valid JSON and decodes to an array is forwarded as that
      array, not wrapped: every entry keeps its value and the keys keep their
      order, and `api_name` is set to the source name, overwritten in place when
      the message already has one, appended last otherwise. */
  lemma JsonArrayMessageIsForwarded(event: Event, name: string, builtins: Builtins, entries: seq<(Key, Value)>)
    requires Message(event).Some? && builtins.jsonValidate(Message(event).value)
    requires builtins.jsonDecode(Message(event).value) == Arr(entries)
    ensures Record(event, name, builtins).Ok?
    ensures HasApiName(Record(event, name, builtins).value, name)
    ensures forall k :: k != ApiNameKey ==> Lookup(Record(event, name, builtins).value.entries, k) == Lookup(entries, k)
    ensures Keys(Record(event, name, builtins).value.entries) ==
      if ApiNameKey in Keys(entries) then Keys(entries) else Keys(entries) + [ApiNameKey]
  {
    assert Classify(event, builtins) == Arr(entries);
    assert Record(event, name, builtins) == Ok(Arr(Set(entries, ApiNameKey, Str(name))));
    SetKeys(entries, ApiNameKey, Str(name));
  }

  /** A message that is valid JSON but decodes to a scalar: null and false
      become `{"api_name": name}`; true, a number or a string makes PHP throw,
      which aborts the push. */
  lemma JsonScalarMessage(event: Event, name: string, builtins: Builtins)
    requires Message(event).Some? && builtins.jsonValidate(Message(event).value)
    requires !builtins.jsonDecode(Message(event).value).Arr?
    ensures var decoded := builtins.jsonDecode(Message(event).value);
      if decoded == Null || decoded == Bool(false) then Record(event, name, builtins) == Ok(Arr([(ApiNameKey, Str(name))]))
      else Record(event, name, builtins).Err?
  {
  }

  /** The early exits: no `awslogs.data`, data that does not gunzip, or a
      document without `logEvents` each end the call with nothing sent. */
  lemma EarlyExitsSendNothing(token: string, url: string, name: string, payload: Value, builtins: Builtins)
    requires Admissible(payload, builtins)
    ensures AwsLogsData(payload).None? ==> Forward(token, url, name, payload, builtins) == NoData
    ensures AwsLogsData(payload).Some? && builtins.gzDecode(builtins.base64Decode(AwsLogsData(payload).value)).None? ==>
      Forward(token, url, name, payload, builtins) == NotGzip
    ensures (&& AwsLogsData(payload).Some?
             && builtins.gzDecode(builtins.base64Decode(AwsLogsData(payload).value)).Some?
             && LogEvents(builtins.jsonDecode(builtins.gzDecode(builtins.base64Decode(AwsLogsData(payload).value)).value)).None?)
      ==> Forward(token, url, name, payload, builtins) == NoLogEvents
  {
  }

  /** Every forwarded record is an array whose only `api_name` entry holds the
      source name: a message that already carried `api_name` keeps no stale
      copy of it. */
  lemma ForwardedRecordsCarryOneApiName(token: string, url: string, name: string, payload: Value, builtins: Builtins)
    requires Admissible(payload, builtins)
    requires Forward(token, url, name, payload, builtins).Sent?
    ensures var records := Forward(token, url, name, payload, builtins).request.records;
      forall j :: 0 <= j < |records| ==>
        && records[j].Arr?
        && ApiNameKey in Keys(records[j].entries)
        && forall i :: 0 <= i < |records[j].entries| && records[j].entries[i].0 == ApiNameKey ==>
             records[j].entries[i].1 == Str(name)
  {
    var records := Forward(token, url, name, payload, builtins).request.records;
    forall j | 0 <= j < |records|
      ensures forall i :: 0 <= i < |records[j].entries| && records[j].entries[i].0 == ApiNameKey ==>
        records[j].entries[i].1 == Str(name)
    {
      SoleApiName(records[j], name);
    }
  }

  /** Once the log events are reached: nothing is sent when every event is
      filtered out; otherwise, unless a record cannot be built, exactly one POST
      goes to the ingestion URL with the bearer token and JSON content type,
      carrying every record. */
  lemma OneBatchUnlessAllFiltered(token: string, url: string, name: string, payload: Value, builtins: Builtins,
                                  data: string, text: string, events: seq<Event>)
    requires Admissible(payload, builtins)
    requires AwsLogsData(payload) == Some(data)
    requires builtins.gzDecode(builtins.base64Decode(data)) == Some(text)
    requires LogEvents(builtins.jsonDecode(text)) == Some(events)
    ensures Kept(events) == [] ==>
      Forward(token, url, name, payload, builtins) == NoRecords && SentRequests(Forward(token, url, name, payload, builtins)) == []
    ensures Kept(events) != [] && CollectRecords(events, name, builtins).Ok? ==>
      SentRequests(Forward(token, url, name, payload, builtins)) ==
        [Request(url, [("Authorization", "Bearer " + token), ("Content-Type", "application/json")],
                 CollectRecords(events, name, builtins).value)]
    ensures CollectRecords(events, name, builtins).Err? ==>
      Forward(token, url, name, payload, builtins) == Aborted(CollectRecords(events, name, builtins).error)
  {
    CollectIsEnrichAllOfKept(events, name, builtins);
    if CollectRecords(events, name, builtins).Ok? {
      RecordsFollowKeptEvents(events, name, builtins);
    }
  }
}
