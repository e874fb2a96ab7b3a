/** The CloudWatch-to-BetterStack forwarder: one CloudWatch Logs subscription
    payload in, at most one batch POST to the BetterStack (Logtail) ingestion
    endpoint out. */
module BetterStack {
  import opened PhpValues
  import opened PhpStrings
  import opened PhpBuiltins

  const AwsLogsKey: PlainKey := StrKey("awslogs")
  const DataKey: PlainKey := StrKey("data")
  const LogEventsKey: PlainKey := StrKey("logEvents")
  const MessageKey: PlainKey := StrKey("message")
  const ApiNameKey: PlainKey := StrKey("api_name")

  /** The marker of the Lambda runtime's START/END/REPORT lines. */
  const RequestIdMarker: string := "RequestId:"

  /** One outbound HTTP POST: target URL, headers in the order they were set, and
      the JSON body, a list of records. */
  datatype Request = Request(url: string, headers: seq<(string, string)>, records: seq<Value>)

  /** How a call of `push` ends. Only `Aborted` is visible to PHP callers (an
      uncaught Error); the others are the method's silent exits. */
  datatype PushOutcome =
    | NoData                   // `awslogs.data` is not set
    | NotGzip                  // `gzdecode` returned false
    | NoLogEvents              // the decoded document has no `logEvents`
    | NoRecords                // every event was filtered out
    | Sent(request: Request)   // one batch was posted
    | Aborted(error: PhpError) // the `api_name` assignment threw

  /** The requests a call with this outcome has made. */
  function SentRequests(outcome: PushOutcome): (rs: seq<Request>)
    ensures |rs| <= 1
    ensures rs != [] <==> outcome.Sent?
  {
    if outcome.Sent? then [outcome.request] else []
  }

  /** The two headers `push` sets on the client before posting. */
  function BetterStackHeaders(token: string): seq<(string, string)>
  {
    [("Authorization", "Bearer " + token), ("Content-Type", "application/json")]
  }

  /** A `logEvents` element whose `message`, when set, is a string. */
  predicate TextMessage(event: Value)
  {
    Isset(event, MessageKey) ==> Get(event, MessageKey).Str?
  }

  type Event = v: Value | TextMessage(v) witness Null

  /** The event's message when `isset($event["message"])`. */
  function Message(event: Event): Option<string>
  {
    if Isset(event, MessageKey) then Some(Get(event, MessageKey).s) else None
  }

  /** A Lambda start/stop line: its message contains "RequestId:". */
  predicate IsLifecycleLine(event: Event)
  {
    Message(event).Some? && StrContains(Message(event).value, RequestIdMarker)
  }

  /** The filter drops exactly the events whose message has "RequestId:" at
      some index. */
  lemma LifecycleLineSpec(event: Event)
    ensures IsLifecycleLine(event) <==>
      Message(event).Some? && exists i: nat :: OccursAt(Message(event).value, RequestIdMarker, i)
  {
    if Message(event).Some? {
      StrContainsSpec(Message(event).value, RequestIdMarker);
    }
  }

  /** The event's message is set and is valid JSON. */
  predicate IsJsonMessage(event: Event, builtins: Builtins)
  {
    Message(event).Some? && builtins.jsonValidate(Message(event).value)
  }

  /** The message text the wrapped record carries: `$event["message"] ?? ""`. */
  function MessageText(event: Event): string
  {
    if Message(event).Some? then Message(event).value else ""
  }

  /** The record an event becomes before enrichment: a message that is valid
      JSON decoded, anything else wrapped as `["message" => text]`, with the
      empty string for a missing message. Either way it is a value PHP can
      hold. */
  function Classify(event: Event, builtins: Builtins): (r: Value)
    ensures !IsJsonMessage(event, builtins) ==>
      r.Arr? && Keys(r.entries) == [MessageKey] && Get(r, MessageKey) == Str(MessageText(event))
    ensures JsonDecodeWellFormed(builtins) ==> WellFormed(r)
  {
    match Message(event)
    case Some(m) =>
      if builtins.jsonValidate(m) then builtins.jsonDecode(m) else Arr([(MessageKey, Str(m))])
    case None => Arr([(MessageKey, Str(""))])
  }

  /** The classified event with `api_name` set to the source name, or the Error
      PHP throws when the decoded message cannot take an offset. */
  function Record(event: Event, name: string, builtins: Builtins): (r: Result<Value>)
    ensures !IsJsonMessage(event, builtins) ==> r.Ok?
    ensures r.Ok? ==> HasApiName(r.value, name)
    ensures r.Ok? && JsonDecodeWellFormed(builtins) ==> WellFormed(r.value)
  {
    AssignOffset(Classify(event, builtins), ApiNameKey, Str(name))
  }

  /** A record tagged with the forwarder's source name. */
  predicate HasApiName(record: Value, name: string)
  {
    record.Arr? && Lookup(record.entries, ApiNameKey) == Some(Str(name))
  }

  /** In a record PHP can hold, the tag is the only `api_name` entry. */
  lemma SoleApiName(record: Value, name: string)
    requires WellFormed(record) && HasApiName(record, name)
    ensures forall j :: 0 <= j < |record.entries| && record.entries[j].0 == ApiNameKey ==>
      record.entries[j].1 == Str(name)
  {
    GetSpec(record, ApiNameKey);
  }

  /** The records the loop collects from `events`, processing them in order: a
      lifecycle line is skipped, every other event is appended as its record,
      and the first record that cannot be built aborts the whole loop. */
  function CollectRecords(events: seq<Event>, name: string, builtins: Builtins): (r: Result<seq<Value>>)
    ensures r.Ok? ==> |r.value| <= |events|
    ensures r.Ok? ==> forall j :: 0 <= j < |r.value| ==> HasApiName(r.value[j], name)
    ensures r.Ok? && JsonDecodeWellFormed(builtins) ==> forall j :: 0 <= j < |r.value| ==> WellFormed(r.value[j])
    decreases |events|
  {
    if events == [] then Ok([])
    else
      var event := events[|events| - 1];
      var prior := CollectRecords(events[..|events| - 1], name, builtins);
      if prior.Err? then prior
      else if IsLifecycleLine(event) then prior
      else
        match Record(event, name, builtins)
        case Ok(record) => Ok(prior.value + [record])
        case Err(e) => Err(e)
  }

  /** Once the loop has aborted, later events change nothing. */
  lemma {:induction false} CollectErrorIsFinal(events: seq<Event>, i: nat, name: string, builtins: Builtins)
    requires i <= |events|
    requires CollectRecords(events[..i], name, builtins).Err?
    ensures CollectRecords(events, name, builtins) == CollectRecords(events[..i], name, builtins)
    decreases |events| - i
  {
    if i < |events| {
      var next := events[..i + 1];
      assert next[..|next| - 1] == events[..i];
      CollectErrorIsFinal(events, i + 1, name, builtins);
    } else {
      assert events[..i] == events;
    }
  }

  /** `$payload["awslogs"]["data"]`, when it is a string or not set. */
  predicate DataIsText(payload: Value)
  {
    Isset(Get(payload, AwsLogsKey), DataKey) ==> Get(Get(payload, AwsLogsKey), DataKey).Str?
  }

  /** The base64 text of the compressed log batch, when `awslogs.data` is set. */
  function AwsLogsData(payload: Value): (r: Option<string>)
    requires DataIsText(payload)
    ensures r.Some? ==> Get(Get(payload, AwsLogsKey), DataKey) == Str(r.value)
    ensures r.None? ==> Get(Get(payload, AwsLogsKey), DataKey) == Null
  {
    var awslogs := Get(payload, AwsLogsKey);
    if Isset(awslogs, DataKey) then Some(Get(awslogs, DataKey).s) else None
  }

  /** The values `foreach` visits in the decoded document, when `logEvents` is set. */
  function LogEvents(document: Value): (r: Option<seq<Value>>)
    ensures r.None? <==> Get(document, LogEventsKey) == Null
    ensures r.Some? && Get(document, LogEventsKey).Arr? ==> |r.value| == |Get(document, LogEventsKey).entries|
    ensures r.Some? && !Get(document, LogEventsKey).Arr? ==> r.value == []
  {
    if Isset(document, LogEventsKey) then Some(ForeachValues(Get(document, LogEventsKey))) else None
  }

  /** The inputs `push` is modelled for: the payload is an array (the
      parameter's declared type), `awslogs.data` is a string when set, and every
      event's `message` is a string when set. The payload and whatever
      `json_decode` returns are values PHP can hold. */
  ghost predicate Admissible(payload: Value, builtins: Builtins)
  {
    && payload.Arr?
    && WellFormed(payload)
    && JsonDecodeWellFormed(builtins)
    && DataIsText(payload)
    && match AwsLogsData(payload)
       case None => true
       case Some(data) =>
         match builtins.gzDecode(builtins.base64Decode(data))
         case None => true
         case Some(text) =>
           match LogEvents(builtins.jsonDecode(text))
           case None => true
           case Some(values) => forall j :: 0 <= j < |values| ==> TextMessage(values[j])
  }

  /** What one call of `push` does with `payload`, for a forwarder configured
      with `token`, `url` and `name`. */
  function Forward(token: string, url: string, name: string, payload: Value, builtins: Builtins): (r: PushOutcome)
    requires Admissible(payload, builtins)
    ensures r.Sent? ==> r.request.url == url && r.request.headers == BetterStackHeaders(token)
    ensures r.Sent? ==> r.request.records != []
    ensures r.Sent? ==> forall j :: 0 <= j < |r.request.records| ==> HasApiName(r.request.records[j], name)
    ensures r.Sent? ==> forall j :: 0 <= j < |r.request.records| ==> WellFormed(r.request.records[j])
  {
    match AwsLogsData(payload)
    case None => NoData
    case Some(data) =>
      match builtins.gzDecode(builtins.base64Decode(data))
      case None => NotGzip
      case Some(text) =>
        match LogEvents(builtins.jsonDecode(text))
        case None => NoLogEvents
        case Some(values) =>
          var events: seq<Event> := values;
          match CollectRecords(events, name, builtins)
          case Err(e) => Aborted(e)
          case Ok(records) =>
            if records == [] then NoRecords
            else Sent(Request(url, BetterStackHeaders(token), records))
  }

  /** The outside world as `push` affects it: every request posted so far. */
  class Network {
    var requests: seq<Request>

    constructor ()
      ensures requests == []
    {
      requests := [];
    }

    /** `$curl->post($url, $body)`: the response is ignored. */
    method Post(request: Request)
      modifies this
      ensures requests == old(requests) + [request]
    {
      requests := requests + [request];
    }
  }

  class CloudWatchForwarder {
    const sourceToken: string
    const ingestionURL: string
    const sourceName: string

    constructor (sourceToken: string, ingestionURL: string, sourceName: string)
      ensures this.sourceToken == sourceToken
      ensures this.ingestionURL == ingestionURL
      ensures this.sourceName == sourceName
    {
      this.sourceToken := sourceToken;
      this.ingestionURL := ingestionURL;
      this.sourceName := sourceName;
    }

    /** Decode the payload, reshape its log events into records and post them
        as one batch; nothing else is posted, and nothing at all on any early
        exit or abort. */
    method Push(payload: Value, builtins: Builtins, network: Network) returns (outcome: PushOutcome)
      requires Admissible(payload, builtins)
      modifies network
      ensures outcome == Forward(sourceToken, ingestionURL, sourceName, payload, builtins)
      ensures network.requests == old(network.requests) + SentRequests(outcome)
    {
      var awslogs := Get(payload, AwsLogsKey);
      if !Isset(awslogs, DataKey) {
        assert AwsLogsData(payload).None?;
        return NoData;
      }

      assert AwsLogsData(payload) == Some(Get(awslogs, DataKey).s);
      var decodedData := builtins.base64Decode(Get(awslogs, DataKey).s);
      var decompressedData := builtins.gzDecode(decodedData);
      if decompressedData.None? {
        return NotGzip;
      }

      var parsedData := builtins.jsonDecode(decompressedData.value);
      if !Isset(parsedData, LogEventsKey) {
        return NoLogEvents;
      }

      assert LogEvents(parsedData) == Some(ForeachValues(Get(parsedData, LogEventsKey)));
      var logEvents: seq<Event> := ForeachValues(Get(parsedData, LogEventsKey));
      var collected := CollectEvents(logEvents, builtins);
      if collected.Err? {
        return Aborted(collected.error);
      }
      var events := collected.value;

      if events == [] {
        return NoRecords;
      }

      var headers := [("Authorization", "Bearer " + sourceToken)];
      headers := headers + [("Content-Type", "application/json")];
      assert headers == BetterStackHeaders(sourceToken);
      var request := Request(ingestionURL, headers, events);
      network.Post(request);
      return Sent(request);
    }

    /** The `foreach` over `logEvents`: skip lifecycle lines,
        classify and enrich the rest, in order. An Error from the enrichment
        ends the loop, and `push` with it. */
    method CollectEvents(logEvents: seq<Event>, builtins: Builtins) returns (collected: Result<seq<Value>>)
      ensures collected == CollectRecords(logEvents, sourceName, builtins)
    {
      var events: seq<Value> := [];
      for i := 0 to |logEvents|
        invariant CollectRecords(logEvents[..i], sourceName, builtins) == Ok(events)
      {
        var event := logEvents[i];
        assert logEvents[..i + 1][..i] == logEvents[..i];
        var message := Get(event, MessageKey);
        if Isset(event, MessageKey) && StrContains(message.s, RequestIdMarker) {
          continue;
        }

        var parsedEvent;
        if Isset(event, MessageKey) && builtins.jsonValidate(message.s) {
          parsedEvent := builtins.jsonDecode(message.s);
        } else {
          parsedEvent := Arr([(MessageKey, if message != Null then message else Str(""))]);
        }
        assert parsedEvent == Classify(event, builtins);

        var enriched := AssignOffset(parsedEvent, ApiNameKey, Str(sourceName));
        if enriched.Err? {
          CollectErrorIsFinal(logEvents, i + 1, sourceName, builtins);
          return Err(enriched.error);
        }
        assert CollectRecords(logEvents[..i + 1], sourceName, builtins) == Ok(events + [enriched.value]);
        events := events + [enriched.value];
      }
      assert logEvents[..|logEvents|] == logEvents;
      return Ok(events);
    }
  }
}
