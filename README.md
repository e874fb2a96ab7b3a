# CloudWatch-to-BetterStack forwarder, modelled in Dafny

`CloudWatchForwarder::push` receives an AWS CloudWatch Logs subscription event and reads its
`awslogs.data` field. That field holds a base64 text of a gzip-compressed JSON document, whose
`logEvents` list holds the log lines. `push` drops the Lambda runtime's start/stop lines (messages
containing `RequestId:`). Every message that is valid JSON becomes its decoded object; any other
message becomes a `{message: ...}` record. Each record is tagged with `api_name`, the forwarder's
source name. Then at most one POST carries the whole list to the BetterStack (Logtail) ingestion URL,
with the source token as a bearer token.

The model has four modules:

- `PhpValues` (`php_values.dfy`): the PHP values that `json_decode($text, true)` produces. Arrays are
  ordered lists of (key, value) entries. `WellFormed` is PHP's array invariant: no key occurs twice in
  any array, at any depth. The module models `foreach`, and `isset`, `??` and the offset assignment
  `$a[$k] = $x` for plain string keys, the kind `push` uses: keys that start with a letter or `_`. For
  such a key an existing key keeps its place and a new key is appended. `null` and `false` turn into a
  new array. `true`, numbers and strings make PHP throw an Error.
- `PhpStrings` (`php_strings.dfy`): `str_contains`, defined concretely.
- `PhpBuiltins` (`php_builtins.dfy`): `base64_decode`, `gzdecode`, `json_validate` and `json_decode`.
  Each is an arbitrary total function that the caller supplies. Every result holds whatever these
  functions compute.
- `BetterStack` (`betterstack.dfy`): the class `CloudWatchForwarder`, whose constructor fields are
  constants. `Push` keeps the source's guard chain. Its `foreach` loop is the read-only method
  `CollectEvents`. The HTTP client is modelled as a `Network` object. It records every posted
  `Request`: the URL, the headers in the order they are set, and the list of records.
  `Push` is proved equal to the pure function `Forward`, and it appends exactly
  `SentRequests(Forward(...))` to the network, which is zero or one request.
  `CollectRecords` is the loop's meaning.
- `BetterStackProperties` (`betterstack_properties.dfy`): two reference definitions. `Kept` is the
  filter. `EnrichAll` turns a list of events into records one at a time. The lemmas prove that the loop
  equals `EnrichAll` applied to `Kept`. The filter, order, length, enrichment and send rules follow
  from that.

One behaviour is worth knowing. A message that is valid JSON but decodes to `true`, a number or a
string (for instance a Lambda line `42`) makes `$parsedEvent["api_name"] = ...` throw. This aborts
the whole `push`, and none of the batch is sent. The model keeps this as the `Aborted` outcome,
because that is what the code does.

## Model

| member | source | states |
|---|---|---|
| PhpStrings.StrContainsSpec | src/CloudWatchForwarder.php:59 | `str_contains(h, n)` holds exactly when `n` occurs in `h` at some index; both directions |
| PhpValues.IssetSpec | src/CloudWatchForwarder.php:35 | on a value PHP can hold, `isset($v[$k])` holds exactly when `$v` is an array with an entry for `k` whose value is not `null`; a string with a plain key is never set |
| PhpValues.GetSpec | src/CloudWatchForwarder.php:68 | on a value PHP can hold, `$v[$k] ?? null` is the value of the entry for `k`, and `null` when there is no such entry or `$v` is not an array |
| PhpValues.ForeachVisitsKeysInOrder | src/CloudWatchForwarder.php:57 | `foreach` over an array visits the value of each key exactly once, in key order; over any other value it visits nothing |
| PhpValues.Set | src/CloudWatchForwarder.php:72 | after `$a[$k] = $x`, key `k` maps to `x` and every other key maps to what it did before |
| PhpValues.SetKeys | src/CloudWatchForwarder.php:72 | the assignment keeps the key order: an existing key stays in place, a new key is appended last |
| PhpValues.SetEntries | src/CloudWatchForwarder.php:72 | the assignment adds no entry except the assigned one |
| PhpValues.SetWellFormed | src/CloudWatchForwarder.php:72 | the assignment keeps PHP's array invariant: keys stay distinct and nested arrays stay well formed |
| PhpValues.AssignOffset | src/CloudWatchForwarder.php:72 | the assignment succeeds exactly on arrays, `null` and `false`; the result is an array holding the new value; other keys of an array are kept; PHP's array invariant is kept; a string throws |
| BetterStack.LifecycleLineSpec | src/CloudWatchForwarder.php:59 | an event is skipped exactly when its message is set and has `RequestId:` at some index |
| BetterStack.Classify | src/CloudWatchForwarder.php:65-69 | an event whose message is missing or not valid JSON becomes a one-entry array that maps `message` to the text, or to `""` when the message is missing; the candidate record is a value PHP can hold |
| BetterStack.Record | src/CloudWatchForwarder.php:72 | a record built from a plain-text or missing message never throws; every built record is an array whose `api_name` is the source name, and it is a value PHP can hold |
| BetterStack.SoleApiName | src/CloudWatchForwarder.php:72 | in a record PHP can hold, no entry other than the tag has key `api_name` |
| BetterStack.SentRequests | src/CloudWatchForwarder.php:77-86 | a call of `push` makes at most one request, and makes one exactly when it ends by sending |
| BetterStack.CollectRecords | src/CloudWatchForwarder.php:55-75 | the loop yields no more records than events, and every record carries `api_name` equal to the source name and is a value PHP can hold |
| BetterStack.CollectErrorIsFinal | src/CloudWatchForwarder.php:72 | once an enrichment throws, later events do not change the loop's outcome |
| BetterStack.AwsLogsData | src/CloudWatchForwarder.php:35-39 | the data passed to `base64_decode` is the string stored at `awslogs.data`; the call stops when that entry is missing or `null` |
| BetterStack.LogEvents | src/CloudWatchForwarder.php:51-57 | the call stops exactly when `logEvents` is missing or `null`; an array `logEvents` gives one loop step per entry, and any other value gives none |
| BetterStack.Forward | src/CloudWatchForwarder.php:32-87 | a sent request goes to the ingestion URL with the `Authorization: Bearer <token>` and `Content-Type: application/json` headers, and carries a non-empty record list in which every record has `api_name` and is a value PHP can hold |
| BetterStack.Network.Post | src/CloudWatchForwarder.php:85 | posting appends exactly that request to the record of requests |
| BetterStack.CloudWatchForwarder.constructor | src/CloudWatchForwarder.php:20-24 | the forwarder keeps the given source token, ingestion URL and source name |
| BetterStack.CloudWatchForwarder.Push | src/CloudWatchForwarder.php:32-87 | `push` ends as `Forward` says, and the network gains exactly the requests of that outcome (zero or one) and nothing else |
| BetterStack.CloudWatchForwarder.CollectEvents | src/CloudWatchForwarder.php:55-75 | the imperative `foreach` loop, with early exit on a thrown Error, computes exactly `CollectRecords` |
| BetterStackProperties.Kept | src/CloudWatchForwarder.php:59-61 | the filter keeps no more events than it is given, and none of the kept events is a `RequestId:` line |
| BetterStackProperties.KeptAppend | src/CloudWatchForwarder.php:57-61 | filtering a concatenation gives the concatenation of the filtered parts, so order is preserved |
| BetterStackProperties.EnrichAllAppend | src/CloudWatchForwarder.php:63-74 | enriching a concatenation runs the parts in sequence, and the first error wins |
| BetterStackProperties.CollectIsEnrichAllOfKept | src/CloudWatchForwarder.php:55-75 | the loop's outcome is the filter followed by enrichment: the same records, or the same first error |
| BetterStackProperties.EnrichAllInOrder | src/CloudWatchForwarder.php:63-74 | enrichment succeeds exactly when every event can be recorded; then record `j` is the record of event `j`, and the lengths agree |
| BetterStackProperties.RecordsFollowKeptEvents | src/CloudWatchForwarder.php:55-75 | the forwarded list has one record per event that passes the filter, in input order, and is never longer than the input |
| BetterStackProperties.AbortsIffSomeKeptEventFails | src/CloudWatchForwarder.php:65-72 | the loop aborts exactly when some event that passes the filter cannot take `api_name` |
| BetterStackProperties.LifecycleLineContributesNothing | src/CloudWatchForwarder.php:59-61 | removing an event whose message contains `RequestId:` from anywhere in the list leaves the outcome unchanged |
| BetterStackProperties.PlainMessageIsWrapped | src/CloudWatchForwarder.php:65-72 | a message that is not valid JSON becomes `{message: msg, api_name: name}`; a missing message becomes `{message: "", api_name: name}` |
| BetterStackProperties.JsonArrayMessageIsForwarded | src/CloudWatchForwarder.php:65-72 | a message that decodes to an array is forwarded as that array, not wrapped: its other entries and key order are kept, and `api_name` is overwritten in place or appended |
| BetterStackProperties.JsonScalarMessage | src/CloudWatchForwarder.php:65-72 | a message that decodes to `null` or `false` becomes `{api_name: name}`; one that decodes to any other scalar throws |
| BetterStackProperties.EarlyExitsSendNothing | src/CloudWatchForwarder.php:35-53 | a missing `awslogs.data`, a failed `gzdecode` or a missing `logEvents` each end the call with the matching early-exit outcome, which sends no request |
| BetterStackProperties.ForwardedRecordsCarryOneApiName | src/CloudWatchForwarder.php:72-85 | every posted record is an array with an `api_name` entry, and every `api_name` entry in it holds the source name, so a message's own `api_name` leaves no stale copy |
| BetterStackProperties.OneBatchUnlessAllFiltered | src/CloudWatchForwarder.php:77-86 | if every event is filtered out, nothing is sent; otherwise, unless an enrichment throws, exactly one request is sent, with the URL, both headers and the full record list; a throw sends nothing |

## Left out

- The algorithms of `base64_decode`, `gzdecode`, `json_validate` and `json_decode` (RFC 4648 section 4, RFC 1952, RFC 8259). They are PHP built-ins and appear only as arbitrary functions supplied by the caller.
- The `Curl\Curl` client: creating it, `close`, transport failures, retries and responses. The code ignores responses, and the model only records the request that `post` sends.
- How Curl encodes the body. The request carries the record list itself, not its JSON text.
- BetterStack.CloudWatchForwarder.Push: requires `Admissible`. The payload must be an array, as the parameter's type declares. `awslogs.data` must be a string when it is set. Every event's `message` must be a string when it is set. PHP's coercion of other types in `base64_decode`, `str_contains` and `json_validate` is not modelled. The payload and every `json_decode` result must satisfy PHP's array invariant (`WellFormed`), which every PHP value does.
- PhpValues.Get, PhpValues.Isset, PhpValues.Set, PhpValues.AssignOffset: these take only plain string keys (`PlainKey`), because `push` uses no other kind. Integer and numeric-string offsets are not modelled. On a string, those read or write a character; as array keys, strings like `"7"` become integer keys.
- PHP's notices and deprecation warnings are not modelled: `foreach` over a non-array, and turning `false` into an array. Only their effect on values is modelled.
- An Error thrown by the `api_name` assignment is the `Aborted` outcome. The model does not keep PHP's exact Error message text.
- `json_decode` turns numeric-string object keys such as `"7"` into integer keys. The model leaves this to the oracle; it does not affect `message` or `api_name`.
- PHP strings are byte strings, and the model uses Dafny's character strings. The decoding of the decompressed bytes into characters is part of the `gzdecode` oracle. `str_contains` with the ASCII needle `RequestId:` gives the same answer under any ASCII-compatible decoding.
- Floating-point numbers are kept as Dafny `real` values. Their only role here is to be scalars, which cause the throw.
