/** The `Result` class: the reconciled outcome of one send, and the
    retry message built from its unavailable recipients. */
module Results {
  import opened Values
  import opened Messages
  import opened Reconciliation

  /** A `Result` instance. `canonicalIds` is the response's integer
      `canonical_ids` count (not a token map); `unavailables` is whatever
      the parser stored, which after a 5xx is the message's own
      `_registration_ids`, possibly `None`. */
  datatype Result = Result(
    canonicalIds: Option<int>,
    multicastId: Option<int>,
    success: map<string, Value>,
    failure: map<string, string>,
    unregistered: seq<string>,
    unavailables: Option<seq<string>>,
    backoff: Option<string>,
    message: Message,
    rawResult: Option<Decoded>)

  /** `Result.get_retry_message()`. The source passes the unbound name
      `message` to `build_retry_message`; this models the evidently
      intended `self.message` (see `GetRetryMessageAsWritten`). */
  function GetRetryMessage(r: Result): (o: Option<Message>)
    ensures o.Some? <==> TruthyList(r.unavailables)
    ensures o.Some? ==> o.value.to == None && o.value.registrationIds == r.unavailables
    ensures o.Some? ==>
              BodyOf(o.value) == (BodyOf(r.message) - {"to"})["registration_ids" := Tokens(r.unavailables.value)]
  {
    if TruthyList(r.unavailables) then
      RetryBody(r.message, r.unavailables.value);
      Some(BuildRetryMessage(r.message, r.unavailables.value).value)
    else
      None
  }

  /** `Result.get_retry_message()` as written: whenever there is something
      to retry, evaluating the unbound name `message` raises `NameError`. */
  function GetRetryMessageAsWritten(r: Result): (o: Outcome<Option<Message>>)
    ensures o.Raised? <==> TruthyList(r.unavailables)
    ensures o.Raised? ==> o.error == NameError("message")
    ensures o.Ok? ==> o.value == None
  {
    if TruthyList(r.unavailables) then Raised(NameError("message")) else Ok(None)
  }

  /** When every recipient of a `registration_ids` message is unavailable
      (the 5xx case), the retry message has the original payload. */
  lemma RetryAllResendsSamePayload(r: Result)
    requires r.message.HasRegistrationIds() && r.unavailables == r.message.registrationIds
    ensures GetRetryMessage(r).Some?
    ensures BodyOf(GetRetryMessage(r).value) == BodyOf(r.message)
  {
    RetryWithSameRecipients(r.message);
  }

  /** The server-error scenario of the test suite: one recipient, a 5xx
      with `Retry-After: 5`. As written the retry raises `NameError`; as
      intended it returns a message with the original payload. */
  lemma ServerErrorRetryExample()
    ensures var m: Message := RawMessage(None, Some(["ABC123"]), Some(map["score" := Int(5)]), None, None);
            var r := Result(None, None, map[], map[], [], m.registrationIds, Some("5"), m, None);
            && GetRetryMessageAsWritten(r) == Raised(NameError("message"))
            && GetRetryMessage(r).Some?
            && BodyOf(GetRetryMessage(r).value) == BodyOf(m)
  {
    var m: Message := RawMessage(None, Some(["ABC123"]), Some(map["score" := Int(5)]), None, None);
    var r := Result(None, None, map[], map[], [], m.registrationIds, Some("5"), m, None);
    RetryAllResendsSamePayload(r);
  }

  /** After a 200 response the retry message addresses exactly the tokens
      whose entries reported `Unavailable` or `InternalServerError`, in
      request order, and there is none when no entry did. */
  lemma RetryAfterOkTargetsUnavailable(r: Result, ids: seq<string>, results: seq<Answer>)
    requires |ids| == |results|
    requires r.unavailables == Some(Reconcile(ids, results).unavailables)
    ensures GetRetryMessage(r).Some? <==> TokensOfKind(ids, results, Unavailable) != []
    ensures GetRetryMessage(r).Some? ==>
              GetRetryMessage(r).value.registrationIds == Some(TokensOfKind(ids, results, Unavailable))
  {
    ListsKeepRequestOrder(ids, results);
  }
}
