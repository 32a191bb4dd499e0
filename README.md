# Odoo 18 JSON-RPC client and update scripts, in Dafny

This project models the decision logic of a small set of Odoo 18 JSON-RPC
scripts and proves properties of it:

- **The client** (`OdooJSONRPCClient`, modules `Protocol` and `JsonRpcClient`).
  - It holds the session fields `uid` and `session_id`.
  - It wraps every call in a JSON-RPC 2.0 envelope.
  - On a "Session expired" error it re-authenticates once and resends once.
  - It refuses `call_kw` without a session and refuses empty field
    whitelists before any call.
  - It treats only an exact `true` as a successful write.
- **The bulk update script** (module `UpdateData`).
  - It normalises the updates: for stock.move, `quantity` is mirrored into
    `product_uom_qty`.
  - It rejects entries without an id or without fields.
  - It groups the ids of entries that write the same values and writes each
    group with one `write`, in first-seen order.
  - It counts updated and failed ids with partial-failure semantics.
- **The stock.picking status script** (module `PickingStatus`).
  - It writes the status fields to all the pickings with one call.
  - It reads the pickings back and compares each expected field by the
    script's three rules: truthiness for booleans, the id of a many2one
    pair, and plain equality otherwise.

How the model is built:

- **The server is a scripted oracle.** `JsonRpcClient.Server` holds the
  replies still to come, one consumed per HTTP request, and the log of
  requests sent. When the script is empty, the send fails as a connection
  error.
- **Termination.** Every request consumes one reply while the script
  lasts, and none after it, failing as a connection error. That bounds the
  otherwise unbounded re-entry of `authenticate` through `_make_request`
  (an auth endpoint that keeps answering "Session expired"), so
  `decreases |server.replies|` closes it without fuel.
- **Spec functions and methods.** For each client operation, a pure function
  of module `Protocol` (`RequestSpec`, `AuthSpec`, `CallKwSpec`, ...) gives a
  `Trace`: the outcome, the requests sent, the replies left and the session
  after the call. The methods of `OdooClient` are proved to follow those
  functions. The lemmas about retry counts and session updates are stated on
  the functions.
- **The call log.** Each `call_kw` is appended to a ghost log on the client
  (`calls`). The script methods are specified against it: which calls were
  made, in which order, and what report their outcomes produce.
- **JSON values.** `Json.Json` has distinct Bool, Int and String
  constructors and no floats. Objects are maps, so key order is not
  recorded. A Python exception raised by an unexpected reply shape
  (TypeError, KeyError) becomes `Failure.TypeMismatch`.

Two facts about the code shape the model:

- **A failed re-authentication.** The docstring of `authenticate`
  (odoo_jsonrpc_client.py:125-129) says it returns `False` when
  authentication fails. The code never does: it returns `True` or raises at
  odoo_jsonrpc_client.py:145. So the "Failed to re-authenticate" branch at
  odoo_jsonrpc_client.py:109-110 is dead, and the caller of `_make_request`
  sees the authentication failure itself (`Protocol.ReauthFailureUnreachable`,
  `Protocol.ExpiryWithRejectedLogin`).
- **Verification of a batch.** The `try` at update_picking_status.py:118-169
  wraps the whole loop over the picking ids, not one iteration. An exception
  inside the loop (an unhashable picking id) therefore ends it. The counts
  reached so far are kept, with one "Verification error" entry
  (`PickingStatus.StoppedIffUnhashable`, `PickingStatus.StoppedStays`).

## Model

| member | source | states |
|---|---|---|
| Json.PyIn | odoo_jsonrpc_client.py:98 | defines Python's `in` for a string needle: substring of a str, element of a list, key of a dict, and a TypeError (None) on any other value |
| Json.Mentions | odoo_jsonrpc_client.py:98 | defines `text in str(v)`: some string inside the value, a dict key or a string value, contains the text |
| Protocol.ExpiryMentioned | odoo_jsonrpc_client.py:94-98 | defines the expiry test on the message (default "Unknown error") or on the data (default `{}`); None when the message test raises |
| Protocol.RequestSpec | odoo_jsonrpc_client.py:86-119 | defines _make_request: one request; an error reply goes to ErrorReplySpec; otherwise a connection error, an HTTP error, or `result.get('result', {})` |
| Protocol.ErrorReplySpec | odoo_jsonrpc_client.py:92-112 | defines the error branch: expiry re-authenticates (AfterReauthSpec over AuthSpec), any other error raises after the one request, a message of the wrong type raises TypeError |
| Protocol.AfterReauthSpec | odoo_jsonrpc_client.py:99-110 | defines what follows the re-authentication: its failure propagates, a falsy result raises "Failed to re-authenticate", otherwise the request is resent once |
| Protocol.ResendSpec | odoo_jsonrpc_client.py:101-108 | defines the resend: the same request once, any error reply raises, the session is kept |
| Protocol.SessionFrom | odoo_jsonrpc_client.py:140-145 | defines the session taken from the result: a dict with `uid` gives that uid and `session_id` or null; a falsy result or one without `uid` fails; `in` or indexing on a non-dict raises TypeError |
| Protocol.CallKwSpec | odoo_jsonrpc_client.py:163-174 | defines call_kw: no request without a truthy uid, otherwise RequestSpec of the call_kw envelope |
| Protocol.StripTrailingSlashes | odoo_jsonrpc_client.py:37 | the stored URL is a prefix of the given one, ends in no `/`, and only `/` characters were removed |
| Protocol.AuthSpec | odoo_jsonrpc_client.py:121-145 | authenticate never reports success with `False`: it returns true or fails |
| Protocol.FirstRecord | odoo_jsonrpc_client.py:194-197 | read_record yields the first element of a non-empty list result, not-found for a falsy result, and passes call errors through |
| Protocol.OrEmptyList | odoo_jsonrpc_client.py:215 | search_read yields `[]` for a falsy result and the result itself otherwise; errors pass through |
| Protocol.WriteOutcome | odoo_jsonrpc_client.py:310-311 | write_record is true exactly when the result is the boolean `true`; errors pass through |
| Protocol.SuccessReplyYieldsResult | odoo_jsonrpc_client.py:114 | a reply without error yields its `result`, or `{}` when absent, after exactly one request |
| Protocol.OtherErrorRaisesImmediately | odoo_jsonrpc_client.py:111-112 | an error not mentioning "Session expired" raises after one request: no login, no resend, session unchanged |
| Protocol.AuthStep | odoo_jsonrpc_client.py:137-145 | on an error-free reply, authenticate sends one login request and succeeds exactly when the result yields a session |
| Protocol.ExpiryStep | odoo_jsonrpc_client.py:98-99 | an expiry reply makes _make_request re-authenticate on the following replies |
| Protocol.ResendTakesOneReply | odoo_jsonrpc_client.py:101-108 | the resend sends the same request once, takes one reply and keeps the session; any error on it raises |
| Protocol.AfterLoginResends | odoo_jsonrpc_client.py:99-108 | after a successful re-authentication, the outcome is that of the resend, and the requests sent are the original, the login ones and the resend |
| Protocol.LoginThenResend | odoo_jsonrpc_client.py:99-108 | a successful login reply followed by the resend sends exactly [req, login, req] and installs the returned uid and session_id |
| Protocol.ExpiryReauthenticatesOnce | odoo_jsonrpc_client.py:97-108 | session expiry with a good login: exactly one authentication and one resend; the new session is the login's; an error on the resend raises with no further retry |
| Protocol.ExpiryWithRejectedLogin | odoo_jsonrpc_client.py:97-110 | session expiry with a login that returns no uid: the authentication failure is the outcome, the request is not resent, the session is unchanged |
| Protocol.AuthenticateSetsSessionOnlyOnUid | odoo_jsonrpc_client.py:140-145 | authenticate succeeds exactly when the result is a dict holding `uid`, then sets uid from it and session_id from `session_id` or null when absent; otherwise the session is untouched |
| Protocol.ReauthFailureUnreachable | odoo_jsonrpc_client.py:109-110 | no reply script leads _make_request to the "Failed to re-authenticate" error |
| Protocol.AuthNeverReauthFailed | odoo_jsonrpc_client.py:140-145 | authenticate never yields the "Failed to re-authenticate" error itself |
| Protocol.PlainReplyStep | odoo_jsonrpc_client.py:92-114 | a reply that is not an expiry error is answered with one request and never with a re-authentication failure |
| Protocol.AfterReauthAnswered | odoo_jsonrpc_client.py:99-108 | the expiry reply, the login and the resend together consume one reply per request sent |
| Protocol.RequestsMatchReplies | odoo_jsonrpc_client.py:49-119 | every run of _make_request sends the request first and consumes one reply per request sent, except a last one after the script ran out, which is a connection error |
| Protocol.AuthMatchesReplies | odoo_jsonrpc_client.py:121-145 | the same accounting of requests and replies holds for authenticate |
| Protocol.ExpiringAuthEndpointReentersAuthenticate | odoo_jsonrpc_client.py:98-99 | while the auth endpoint keeps reporting expiry, authenticate re-enters itself with one more login request per reply until the server stops answering |
| Protocol.CallKwNeedsSession | odoo_jsonrpc_client.py:163-164 | without a truthy uid, call_kw raises and sends nothing |
| Protocol.CallKwSendsEnvelope | odoo_jsonrpc_client.py:166-174 | with a uid, call_kw sends model, method, args, kwargs and an empty context in a JSON-RPC 2.0 "call" envelope with id 1 to /web/dataset/call_kw |
| Protocol.WhitelistRequested | odoo_jsonrpc_client.py:211-214 | the request sent asks for exactly the given field list |
| Protocol.OnlyExactTrueIsAccepted | odoo_jsonrpc_client.py:311 | truthy results such as 1 or "true" are not accepted writes |
| JsonRpcClient.Server.Send | odoo_jsonrpc_client.py:88-89 | one request is logged and exactly one scripted reply is consumed, or none, answering NoConnection, when the script is empty |
| JsonRpcClient.OdooClient.constructor | odoo_jsonrpc_client.py:27-47 | the URL is stored with trailing slashes stripped; uid and session_id start unset |
| JsonRpcClient.OdooClient.MakeRequest | odoo_jsonrpc_client.py:49-119 | the method follows RequestSpec: outcome, requests sent, replies left and session |
| JsonRpcClient.OdooClient.OnErrorReply | odoo_jsonrpc_client.py:92-112 | an error reply is handled as ErrorReplySpec says: re-authentication on expiry, an immediate error otherwise |
| JsonRpcClient.OdooClient.Reauthenticate | odoo_jsonrpc_client.py:98-110 | authenticate, then the resend, as AfterReauthSpec says |
| JsonRpcClient.OdooClient.Resend | odoo_jsonrpc_client.py:101-108 | the resend follows ResendSpec |
| JsonRpcClient.OdooClient.Authenticate | odoo_jsonrpc_client.py:121-145 | the method follows AuthSpec, including the new uid and session_id |
| JsonRpcClient.OdooClient.CallKw | odoo_jsonrpc_client.py:147-175 | the method follows CallKwSpec and logs the call with its outcome |
| JsonRpcClient.OdooClient.ReadRecord | odoo_jsonrpc_client.py:177-197 | an empty whitelist fails with nothing sent; otherwise one `read` of `[[id]]` with the fields, whose result gives the first record |
| JsonRpcClient.OdooClient.SearchRead | odoo_jsonrpc_client.py:199-215 | an empty whitelist fails with nothing sent; otherwise one `search_read` of `[domain]` with the fields; a falsy result becomes `[]` |
| JsonRpcClient.OdooClient.ReadAllRecords | odoo_jsonrpc_client.py:232-256 | as search_read, with a missing domain sent as `[]` |
| JsonRpcClient.OdooClient.GetFields | odoo_jsonrpc_client.py:217-230 | one `fields_get` call with no args and no kwargs |
| JsonRpcClient.OdooClient.FieldNames | odoo_jsonrpc_client.py:274 | the names are each key of the field definitions exactly once; a non-dict raises |
| JsonRpcClient.OdooClient.ReadRecordAllFields | odoo_jsonrpc_client.py:258-276 | fields_get first, then a read_record whose whitelist is all the returned field names |
| JsonRpcClient.OdooClient.SearchReadAllFields | odoo_jsonrpc_client.py:278-296 | fields_get first, then a search_read whose whitelist is all the returned field names |
| JsonRpcClient.OdooClient.WriteRecord | odoo_jsonrpc_client.py:298-311 | one `write` of `[[id], values]`; true exactly when the result is `true` |
| JsonRpcClient.KeysOf | odoo_jsonrpc_client.py:274 | the list holds every key of the dict exactly once |
| UpdateData.NormalizeEntry | update_data.py:40-46 | for stock.move with `quantity`, `product_uom_qty` is set to it, overriding any given value; every other key is unchanged; other entries are left as they were |
| UpdateData.Normalized | update_data.py:37-51 | the normalised list keeps the length of the input |
| UpdateData.NormalizeUpdates | update_data.py:23-51 | the loop yields each entry normalised, in input order |
| UpdateData.NormalizeIdempotent | update_data.py:44-46 | normalising twice gives the same entry as normalising once |
| UpdateData.FieldsOf | update_data.py:99 | the values of an entry are all its keys except `id`, with the same values |
| UpdateData.HasId | update_data.py:92-96 | defines `update.get('id')` being truthy |
| UpdateData.Writable | update_data.py:92-104 | defines the entries that take part in a write: a truthy id and at least one other key |
| UpdateData.Rejection | update_data.py:92-104 | an entry without a truthy id is reported as missing its id, with the entry; one with a truthy id but no fields as having no fields, with that id |
| UpdateData.Rejections | update_data.py:91-104 | defines the rejection errors of a list of entries, in input order |
| UpdateData.FirstSeen | update_data.py:106-113 | defines the distinct value maps of the writable entries, in the order first seen |
| UpdateData.IdsWith | update_data.py:106-115 | defines the ids of the writable entries with given values, in input order |
| UpdateData.GroupsOf | update_data.py:106-115 | one batch per distinct value map |
| UpdateData.FirstSeenDistinct | update_data.py:109-113 | no value map opens two batches |
| UpdateData.FirstSeenIsWritableValues | update_data.py:91-113 | the batches' value maps are exactly those of the writable entries |
| UpdateData.SeenIffIds | update_data.py:109-115 | a value map has a batch exactly when some id writes it |
| UpdateData.GroupsSkipRejected | update_data.py:91-104 | a rejected entry changes no batch |
| UpdateData.GroupsJoinSeen | update_data.py:115 | a writable entry whose values were seen appends its id to that batch only |
| UpdateData.GroupsOpenNew | update_data.py:109-115 | a writable entry with new values opens a batch of its own, last |
| UpdateData.GroupedIdsCount | update_data.py:91-115 | the batches hold one id per writable entry |
| UpdateData.RejectedPlusValid | update_data.py:91-104 | each entry is either rejected with one error or writable |
| UpdateData.BatchesAreNonEmpty | update_data.py:109-115 | every batch writes at least one id |
| UpdateData.GroupUpdates | update_data.py:88-115 | the grouping loop yields the batches in first-seen order with their ids in input order, and the rejection errors in input order |
| UpdateData.AddWrite | update_data.py:131-143 | an accepted write adds the batch size to updated; any other outcome adds it to failed with one error |
| UpdateData.AddWrites | update_data.py:117-143 | defines the counters after the writes of all batches, in order |
| UpdateData.BulkReport | update_data.py:117-146 | defines the report: the rejections counted as failed first, then the writes; success exactly when nothing failed |
| UpdateData.WritesCountEveryId | update_data.py:117-143 | over all the writes, every id of every batch is counted once, as updated or failed |
| UpdateData.FailedIffRejectedWrite | update_data.py:117-146 | with non-empty batches, nothing fails exactly when every write is accepted, and each failed write adds one error |
| UpdateData.BulkCountsAddUp | update_data.py:91-146 | for non-empty input, updated + failed is the number of entries, and success holds exactly when failed is 0, that is when nothing was rejected and every write returned `true` |
| UpdateData.WriteBatch | update_data.py:124-129 | one `write` of `[ids, values]` with empty kwargs is logged |
| UpdateData.WriteBatches | update_data.py:117-143 | one write per batch, in order; a failed write does not stop the later ones |
| UpdateData.BulkUpdateRecords | update_data.py:54-148 | empty input fails with no call; otherwise one write per batch in first-seen order, and the report those outcomes give |
| UpdateData.SingleWriteReport | update_data.py:197-213 | all ids updated when the write returns `true`; otherwise all failed, success false, one error |
| UpdateData.UpdateStockPickings | update_data.py:151-215 | no fields or no ids fails with no call; otherwise one stock.picking write of all the given ids and the report of its outcome |
| UpdateData.SameValuesFormOneBatch | update_data.py:106-115 | two writable entries with the same values form one batch of both ids, in order, with nothing rejected |
| UpdateData.ConfiguredUpdatesFormOneBatch | config.py:33-45 | the configured stock.move updates normalise to quantity and product_uom_qty 99 and form one batch of both ids |
| PickingStatus.StatusWriteReport | update_picking_status.py:70-85 | on `true` all ids are updated and listed; otherwise all failed, with one error and no id listed |
| PickingStatus.UpdateStockPickingStatus | update_picking_status.py:19-87 | no fields or no ids fails with no call; otherwise one stock.picking write of all ids and its report |
| PickingStatus.Compared | update_picking_status.py:136-158 | defines the value compared and reported: truthiness (null as false) for a boolean expectation, the first element of a non-empty list, otherwise the value itself |
| PickingStatus.FieldMatches | update_picking_status.py:136-158 | defines a passing field: the compared value equals the expectation |
| PickingStatus.BoolFieldMatchesTruthiness | update_picking_status.py:139-144 | a boolean expectation passes exactly when the stored value's truthiness agrees |
| PickingStatus.MissingFieldReadsFalse | update_picking_status.py:136-141 | a missing field passes an expected `false` and fails an expected `true` |
| PickingStatus.Many2oneComparesId | update_picking_status.py:145-152 | an `[id, name]` pair passes exactly the expected id, whatever the name |
| PickingStatus.EqualScalarMatches | update_picking_status.py:153-158 | a stored value equal to a non-list expectation passes |
| PickingStatus.ExpectedListComparesFirstElement | update_picking_status.py:145-158 | an expected non-empty list passes exactly against a stored list whose first element equals it, so it fails against an equal stored list |
| PickingStatus.Mismatches | update_picking_status.py:133-158 | defines the errors of one record: one FieldMismatch per failing expected field, in field order |
| PickingStatus.MismatchesEmptyIff | update_picking_status.py:133-160 | a record has no mismatch exactly when every expected field matches |
| PickingStatus.MismatchesDescribeFields | update_picking_status.py:135-158 | at most one error per expected field, each naming the picking, a failing field and the value compared |
| PickingStatus.MismatchesReportEveryField | update_picking_status.py:141-158 | every expected field that does not match adds its FieldMismatch, with the value compared and the expectation |
| PickingStatus.FieldErrors | update_picking_status.py:133-158 | the field loop's errors are the mismatches in field order, and all_match holds exactly when there are none |
| PickingStatus.KeyOf | update_picking_status.py:123 | defines the key of one record: its `id` when it is a dict with a hashable `id`, otherwise the comprehension raises |
| PickingStatus.IndexList | update_picking_status.py:123 | defines the dict comprehension over a list of records, later records overriding earlier ones; None when it raises |
| PickingStatus.IndexRecords | update_picking_status.py:120-123 | defines the index of the search_read result; anything but a list raises |
| PickingStatus.IndexListSomeIff | update_picking_status.py:123 | the id map is built exactly when every element is a record with a hashable id |
| PickingStatus.IndexedIdsAreRecordIds | update_picking_status.py:123 | the id map holds the ids of the records and nothing else |
| PickingStatus.LastRecordWins | update_picking_status.py:123 | of several records with one id, the last is kept |
| PickingStatus.CheckId | update_picking_status.py:126-165 | defines one iteration: an unhashable id ends the loop with a "Verification error", a missing record fails, otherwise verified exactly when no field mismatches |
| PickingStatus.CheckAll | update_picking_status.py:126-169 | defines the loop over the ids in order, with nothing changed after it has stopped |
| PickingStatus.StoppedStays | update_picking_status.py:126-169 | once an exception has ended the loop, the later ids change nothing |
| PickingStatus.StoppedIffUnhashable | update_picking_status.py:126-169 | the loop ends early exactly when some picking id is unhashable |
| PickingStatus.CountsAddUp | update_picking_status.py:126-165 | without an exception, verified + failed is the number of ids, duplicates included; every failure has an error |
| PickingStatus.AllVerifiedIff | update_picking_status.py:126-165 | every picking is verified exactly when each is found and all its fields match |
| PickingStatus.CheckPickings | update_picking_status.py:125-169 | the loop over the ids yields the counts and errors of CheckAll |
| PickingStatus.FieldNamesOf | update_picking_status.py:116 | the fields read are the expected field names, in order |
| PickingStatus.VerifyOutcome | update_picking_status.py:118-171 | a failed search or unreadable records give zero counts and one "Verification error" |
| PickingStatus.PickingDomain | update_picking_status.py:119 | defines the domain `[('id', 'in', picking_ids)]` |
| PickingStatus.SearchPickings | update_picking_status.py:119-120 | one search_read of `id in picking_ids` for the expected field names; no call without fields |
| PickingStatus.VerifyPickingUpdates | update_picking_status.py:90-171 | no ids gives an empty report with no call; otherwise one search, then the check of every id |
| PickingStatus.NullBooleanFieldFails | update_picking_status.py:139-144 | a null stored boolean fails an expected `true` and is reported as `false` |
| PickingStatus.ConfiguredPickingVerified | config.py:49-57 | the configured picking, read back with status `[2, name]` and delivered true, is verified with no error |

## Left out

- HTTP transport: the urllib opener, the cookie jar, JSON encoding and decoding, UTF-8, the 30 s timeout and the rewrapping of HTTPError/URLError are I/O. They are replaced by the scripted server; an HTTP failure is `HttpError(status)`, an unreachable server `ConnectionError`.
- Error-message text and printed output: an error is recorded by kind and by the ids or field it names, not by its f-string.
- An `error` member that is not a JSON object, and response bodies that are not JSON, are not modelled: every reply is a well-formed envelope.
- A server that keeps answering "Session expired" forever cannot be written as a finite reply script. The unbounded re-entry is shown for every finite script instead (`Protocol.ExpiringAuthEndpointReentersAuthenticate`).
- Python's recursion limit is not modelled. Each expiry reply on the auth endpoint nests `_make_request` inside `authenticate` once more (odoo_jsonrpc_client.py:99, :137), so a long enough all-expiry script raises `RecursionError` in Python, which no `except` clause there catches. In the model, every finite script ends in a connection error instead.
- Python's numeric equality (`True == 1 == 1.0`) is not modelled: JSON values compare structurally, and there are no floats.
- Dict key order is not modelled for maps. The field names of `fields_get` come in an unspecified order (`JsonRpcClient.KeysOf`), and the expected fields of the verification are an ordered list of pairs.
- UpdateData.BulkUpdateRecords: the report of an empty input and the guard reports of `update_stock_pickings` carry an empty error list, where the source's dicts have no `errors` key.
- The `main()` functions, fetch_data.py, fetch_status.py, call_update_salla.py and validate_picking.py are not part of this model: they are command-line glue, single projections or single calls.
- `update_data.py` takes the inputs as values, so not changing the caller's entries holds by construction, not by a proof about aliasing.
