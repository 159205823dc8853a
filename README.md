# simplegcm: request building and response reconciliation, in Dafny

This project models the core of `simplegcm`, a Google Cloud Messaging
(GCM) HTTP client. The model covers:

- how `Notification` and `Options` serialise to their truthy fields;
- how a `Message` is validated ("`to` XOR `registration_ids`", judged by
  Python truthiness) and turned into a request payload;
- how `Sender._parse_response` turns an HTTP status, a `Retry-After`
  header value and a decoded body into `Result` fields;
- how `Result.get_retry_message` builds a narrowed retry message.

Files, one module each:

- `values.dfy` (`Values`): JSON-like values with Python truthiness, `Option`,
  the exceptions the client raises, and `Outcome` (a value or an exception).
- `serialize.dfy` (`Serialize`): the `InnerDictSerializeMixin.data` rule,
  keyword binding `Cls(**kwargs)`, and `Notification`/`Options` modelled by
  their attribute dictionaries.
- `message.dfy` (`Messages`): `Message.__init__`, `body`, `build_retry_message`.
- `reconcile.dfy` (`Reconciliation`): the 200-branch loop over
  `zip(registration_ids, results)`, proved equal to a recursive
  specification (`Reconcile`) whose properties are lemmas.
- `result.dfy` (`Results`): the `Result` record and `get_retry_message`.
- `sender.dfy` (`Sender`): `_parse_response` and the api-key guard of `send`.

Modelling choices:

- A message is never changed after `__init__`, so it is a value: the subset
  type `Message` holds exactly the attribute tuples that `__init__` accepts.
- `body` and the 200-branch loop build their dictionaries step by step in the
  source. Here they are methods that do the same, and each is proved equal to
  a declarative specification function.
- The decoded 200 body is abstract: `multicast_id`, the `canonical_ids`
  count, and the `results` entries. Each entry has optional `message_id`,
  `registration_id` and `error`.

Quirks of the code that the model keeps:

- A status outside 200, 400, 401 and 500–599 does not raise `GCMException`,
  although the `send` docstring (src/simplegcm/gcm.py:413) says errors do.
  The code reaches `return data` with `data` unassigned, so the model raises
  `UnboundLocalError("data")`.
- On 200 the per-token canonical map is built in a local and then dropped.
  The `Result`'s `canonical_ids` is the response's integer count, although
  the `Result` docstring (src/simplegcm/gcm.py:147-148) documents a map from
  old token to new token.
- After a 5xx, `unavailables` is the message's `_registration_ids`. That is
  `None` when no list was given, and it can be `[]` when one was given, as in
  `Message(to='/topics/x', registration_ids=[])`. On 200, `zip(None, ...)`
  raises, so the 200 branch requires `_registration_ids` not to be `None`; an
  empty list zips to nothing.
- `backoff` is the raw `Retry-After` string and is never parsed, although the
  `Result` docstring (src/simplegcm/gcm.py:159-160) documents an int.
- Field omission uses truthiness, so falsy but set values are dropped:
  `dry_run=False`, `priority=0`, `''`.
- A retry message is rebuilt from the original's `.data`, not its attributes.
  So its notification and options keep only truthy fields.

## Model

| member | source | states |
|---|---|---|
| `Serialize.InnerData` | src/simplegcm/gcm.py:37-44 | a key is kept exactly when it is an attribute with a truthy value, and it keeps that value |
| `Serialize.DataIdempotent` | src/simplegcm/gcm.py:43 | serialising an already serialised map changes nothing |
| `Serialize.Bind` | src/simplegcm/gcm.py:86-101 | `Cls(**kwargs)` succeeds iff every keyword is a declared field; then every field is an attribute, given ones carry their value and the rest are `None`; otherwise `TypeError` |
| `Serialize.NewNotification` | src/simplegcm/gcm.py:86-101 | a notification is built iff all keywords are notification fields, and its `.data` is the truthy part of the keywords |
| `Serialize.NewOptions` | src/simplegcm/gcm.py:129-141 | options are built iff all keywords are option fields, and their `.data` is the truthy part of the keywords |
| `Serialize.NotificationRoundTrip` | src/simplegcm/gcm.py:229-230 | `Notification(**n.data)` always succeeds and has the same `.data` as `n` |
| `Serialize.OptionsRoundTrip` | src/simplegcm/gcm.py:232-233 | `Options(**o.data)` always succeeds and has the same `.data` as `o` |
| `Messages.NewMessage` | src/simplegcm/gcm.py:212-233 | neither `to` nor `registration_ids` truthy raises the "provide" `ValueError`; both truthy raises the "no both" `ValueError`; otherwise the message is built iff the notification/option keywords are valid, and it keeps the given target, data and the serialised notification/options |
| `Messages.ReservedKeysAreNotOptions` | src/simplegcm/gcm.py:253-255 | no option field is `to`, `registration_ids`, `notification` or `data`, so merging options never overwrites those |
| `Messages.BodyOf` | src/simplegcm/gcm.py:235-261 | the payload has exactly one of `to`/`registration_ids`, carrying the given value; `notification` iff one was supplied (even with empty `.data`), nested; `data` iff the data map is non-empty |
| `Messages.OptionsAreFlattened` | src/simplegcm/gcm.py:253-255 | every truthy option field is a top-level payload key with its value, and every key beyond the four reserved ones is such a field |
| `Messages.Body` | src/simplegcm/gcm.py:235-261 | the payload assembled key by key equals `BodyOf` |
| `Messages.BuildRetryMessage` | src/simplegcm/gcm.py:263-278 | succeeds iff the new recipient list is non-empty (else the "provide" `ValueError`); the result has no `to`, the new `registration_ids` and the original data |
| `Messages.RetryBody` | src/simplegcm/gcm.py:263-278 | the retry payload equals the original payload with `to` removed and `registration_ids` set to the new list |
| `Messages.RetryWithSameRecipients` | tests/test_simplegcm.py:198-208 | retrying a `registration_ids` message with its own recipients gives exactly its payload |
| `Reconciliation.KindOf` | src/simplegcm/gcm.py:360-372 | an entry is a delivery iff it has `message_id`; otherwise `Unavailable`/`InternalServerError` mean retry, `NotRegistered` means unregistered, any other error is a failure |
| `Reconciliation.Route` | src/simplegcm/gcm.py:359-372 | one step places its token in at least one outcome, loses no earlier token, adds no other token, and keeps canonical keys among success keys |
| `Reconciliation.Reconcile` | src/simplegcm/gcm.py:353-372 | every processed token lands in some outcome, every token in an outcome was processed, and canonical tokens are recorded only for successes |
| `Reconciliation.ListsKeepRequestOrder` | src/simplegcm/gcm.py:366-370 | `unavailables` and `unregistered` are exactly the tokens whose entries say so, in request order, duplicates included |
| `Reconciliation.DistinctTokensArePartitioned` | src/simplegcm/gcm.py:359-372 | for distinct tokens each token is in exactly the outcome its entry names, with its message id, error code or canonical token, so the four outcomes are disjoint |
| `Reconciliation.Zipped` | src/simplegcm/gcm.py:359 | `zip` yields as many pairs as the shorter of the token list and `results` |
| `Reconciliation.ReconcilePrefix` | src/simplegcm/gcm.py:359 | processing one more aligned pair is one more routing step on the routing of the shorter prefix |
| `Reconciliation.RouteEntry` | src/simplegcm/gcm.py:360-372 | one loop iteration, updating the five dictionaries and lists in turn, has exactly the effect of `Route` on that entry |
| `Reconciliation.ReconcileResults` | src/simplegcm/gcm.py:353-372 | the loop over `zip(tokens, results)` computes `Reconcile` of the zipped prefixes |
| `Results.GetRetryMessage` | src/simplegcm/gcm.py:181-190 | a retry message exists iff `unavailables` is truthy, even when `failure`/`unregistered` are not empty; its `registration_ids` are exactly `unavailables` and its payload is the original one with `to` removed and `registration_ids` replaced |
| `Results.GetRetryMessageAsWritten` | src/simplegcm/gcm.py:187-189 | as written, `NameError` is raised exactly when there is something to retry |
| `Results.RetryAllResendsSamePayload` | src/simplegcm/gcm.py:187-190 | when all recipients are unavailable, as after a 5xx, the retry payload equals the original payload |
| `Results.ServerErrorRetryExample` | tests/test_simplegcm.py:198-208 | for the one-recipient 5xx scenario, as written raises `NameError`, while the corrected version returns a message with the original payload |
| `Results.RetryAfterOkTargetsUnavailable` | src/simplegcm/gcm.py:367-368 | after a 200, a retry exists iff some entry reported `Unavailable`/`InternalServerError`, and it targets exactly those tokens in request order |
| `Sender.ParseResponse` | src/simplegcm/gcm.py:323-387 | 400 and 401 raise `GCMException` (with the raw content or "Unauthorized API_KEY") whatever the body; 5xx gives empty success/failure/unregistered, `unavailables` = the message's `registration_ids`, no ids or counts, and `backoff` = the raw header; 200 gives the routing of the zipped pairs, the `canonical_ids` count and `multicast_id`; other statuses raise `UnboundLocalError`; a result is returned iff the status is 200 or 5xx |
| `Sender.Send` | src/simplegcm/gcm.py:407-418 | a `None` key raises `ValueError` before anything else; with a key set, a result comes back iff the status is 200 or 5xx, and any exception comes from the response |
| `Sender.OkResultPartitionsTokens` | src/simplegcm/gcm.py:349-386 | in a 200 result for distinct tokens, each processed token is in exactly one of `success`, `failure`, `unregistered`, `unavailables`, as its entry says |

## Findings

| source | as written | input that shows it | evidently intended | confidence | as-written member | corrected member |
|---|---|---|---|---|---|---|
| src/simplegcm/gcm.py:189 | `get_retry_message` passes the name `message`, which is not bound in that method | a `Result` with non-empty `unavailables`, e.g. a 501 reply for `registration_ids=['ABC123']` (tests/test_simplegcm.py:198-207) | pass `self.message` | high; not executed | `Results.GetRetryMessageAsWritten` (shown by `Results.ServerErrorRetryExample`) | `Results.GetRetryMessage` |

## Left out

- HTTP I/O is not modelled: `Sender._make_request`, `_build_payload`, `requests.post`, JSON encoding, and the logging and re-raising of transport errors. `Send` takes the response as a parameter.
- `Sender._build_headers` is not modelled: it only formats strings.
- The module logger and `__main__.py` are not modelled. Neither has core logic.
- `Sender.__init__`'s URL default is not modelled: the URL is only used by the HTTP call.
- `Notification._MANDATORY_FIELS_BY_PLATFORM` is not modelled: it is declared but never used.
- Floats are not modelled. Payload `data` is an opaque map of JSON-like values.
- A response body that is not JSON, or that lacks `results`, `multicast_id` or `canonical_ids`, is not modelled. `Decoded` always has those keys, so the `KeyError` cases are left out.
- `error` values are modelled as strings; a non-string `error` in a result entry is not represented.
- Python object identity is not modelled. A message is a value, so "the retry message is a new object" (tests/test_simplegcm.py:208) is not stated.
- `TypeError` is modelled only as the name of the class that rejected the keywords, not with Python's message text.
- The 200 branch requires `_registration_ids` not to be `None`, because `zip(None, ...)` raises; an empty list is allowed and zips to nothing. It also requires every zipped entry without `message_id` to have `error`, because a missing key raises `KeyError`. Both crashes are preconditions, not modelled outcomes.
- `Sender.Send` is stated weaker than the source: its contract does not repeat `ParseResponse`'s per-status results. It only says that the key guard comes first, which statuses return a result, and that later exceptions come from the response.
- The duplicate-token case of the 200 branch is covered only partly. The list outcomes are proved for any tokens. Exact disjointness of the four outcomes is proved only for distinct tokens: with duplicates, later entries overwrite earlier ones in the maps.
