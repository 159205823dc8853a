/** The `Sender` class: the api-key guard of `send` and the mapping of an
    HTTP response to `Result` fields (`_parse_response`). The HTTP call
    itself is not modelled: the response it would return is a parameter. */
module Sender {
  import opened Values
  import opened Messages
  import opened Reconciliation
  import opened Results

  const UnauthorizedMsg: string := "Unauthorized API_KEY"
  const MissingApiKeyMsg: string := "The API KEY has not been set yet!"

  /** What `_parse_response` reads of a response: the status code, the
      raw `Retry-After` header value (section 7.1.3 of RFC 7231; never
      parsed here), the raw content, and the decoded JSON body. */
  datatype Response = Response(status: int, retryAfter: Option<string>, content: string, json: Decoded)

  predicate IsServerError(status: int) { 500 <= status <= 599 }

  /** What the 200 branch needs to run without an exception: the message
      has a `registration_ids` list to `zip` (`None` when no list was
      given; an empty list zips to nothing), and every entry the `zip`
      reaches has `message_id` or `error`. */
  predicate Parseable(message: Message, response: Response) {
    response.status == 200 ==>
      && message.registrationIds.Some?
      && AllAnswered(response.json.results[..Zipped(message.registrationIds.value, response.json.results)])
  }

  /** `Sender._parse_response(message, response)`. */
  method ParseResponse(message: Message, response: Response) returns (r: Outcome<Result>)
    requires Parseable(message, response)
    ensures r.Ok? <==> response.status == 200 || IsServerError(response.status)
    ensures response.status == 400 ==> r == Raised(GcmException(response.content))
    ensures response.status == 401 ==> r == Raised(GcmException(UnauthorizedMsg))
    ensures IsServerError(response.status) ==>
              r == Ok(Result(None, None, map[], map[], [], message.registrationIds,
                             response.retryAfter, message, None))
    ensures response.status == 200 ==>
              var ids := message.registrationIds.value;
              var n := Zipped(ids, response.json.results);
              var o := Reconcile(ids[..n], response.json.results[..n]);
              r == Ok(Result(Some(response.json.canonicalIds), Some(response.json.multicastId),
                             o.success, o.failure, o.unregistered, Some(o.unavailables),
                             response.retryAfter, message, Some(response.json)))
    ensures response.status !in {200, 400, 401} && !IsServerError(response.status) ==>
              r == Raised(UnboundLocalError("data"))
  {
    var status := response.status;
    if status == 400 {
      return Raised(GcmException(response.content));
    }
    if status == 401 {
      return Raised(GcmException(UnauthorizedMsg));
    }
    var retryAfter := response.retryAfter;
    if 500 <= status <= 599 {
      r := Ok(Result(None, None, map[], map[], [], message.registrationIds, retryAfter, message, None));
    } else if status == 200 {
      var json := response.json;
      // The routing's `canonical` map is the source's local
      // `canonical_ids` dictionary: built, then not stored in the result.
      var o := ReconcileResults(message.registrationIds.value, json.results);
      r := Ok(Result(Some(json.canonicalIds), Some(json.multicastId),
                     o.success, o.failure, o.unregistered, Some(o.unavailables),
                     retryAfter, message, Some(json)));
    } else {
      // `return data` with `data` never assigned.
      r := Raised(UnboundLocalError("data"));
    }
  }

  /** `Sender.send(message)`, with `response` standing for what the POST
      of `message.body` returns. Only a missing (`None`) key is refused;
      an empty key is sent. */
  method Send(apiKey: Option<string>, message: Message, response: Response) returns (r: Outcome<Result>)
    requires apiKey.Some? ==> Parseable(message, response)
    ensures apiKey.None? ==> r == Raised(ValueError(MissingApiKeyMsg))
    ensures apiKey.Some? ==> (r.Ok? <==> response.status == 200 || IsServerError(response.status))
    ensures apiKey.Some? && r.Raised? ==> r.error.GcmException? || r.error.UnboundLocalError?
  {
    if apiKey.None? {
      return Raised(ValueError(MissingApiKeyMsg));
    }
    r := ParseResponse(message, response);
  }

  /** After a 200 response, for distinct tokens every processed token is
      in exactly one of `success`, `failure`, `unregistered` and
      `unavailables`, as its entry says. */
  lemma OkResultPartitionsTokens(message: Message, json: Decoded, r: Result)
    requires message.registrationIds.Some? && Distinct(message.registrationIds.value)
    requires var ids := message.registrationIds.value;
             var n := Zipped(ids, json.results);
             && AllAnswered(json.results[..n])
             && var o := Reconcile(ids[..n], json.results[..n]);
                && r.success == o.success && r.failure == o.failure
                && r.unregistered == o.unregistered && r.unavailables == Some(o.unavailables)
    ensures var ids := message.registrationIds.value;
            var n := Zipped(ids, json.results);
            forall i :: 0 <= i < n ==>
              && (ids[i] in r.success <==> KindOf(json.results[i]) == Delivered)
              && (ids[i] in r.failure <==> KindOf(json.results[i]) == Failed)
              && (ids[i] in r.unregistered <==> KindOf(json.results[i]) == Unregistered)
              && (ids[i] in r.unavailables.value <==> KindOf(json.results[i]) == Unavailable)
  {
    var ids := message.registrationIds.value;
    var n := Zipped(ids, json.results);
    var prefix: seq<Answer> := json.results[..n];
    assert Distinct(ids[..n]);
    DistinctTokensArePartitioned(ids[..n], prefix);
    forall i | 0 <= i < n
      ensures ids[i] == ids[..n][i] && json.results[i] == prefix[i]
    {
    }
  }
}
