/** The per-recipient reconciliation of a 200 response: the request's
    registration tokens and the response's `results` entries are walked
    positionally (`zip`), and each token is routed to success, failure,
    unregistered or unavailable. */
module Reconciliation {
  import opened Values

  /** One entry of the response's `results`: the keys `message_id`,
      `registration_id` and `error`, each present or absent. */
  datatype Entry = Entry(messageId: Option<Value>, registrationId: Option<Value>, error: Option<string>)

  /** The decoded body of a 200 response. */
  datatype Decoded = Decoded(multicastId: int, canonicalIds: int, results: seq<Entry>)

  /** `resp['error']` is only read when `message_id` is absent, and the
      source assumes it is then present. */
  predicate Answered(e: Entry) {
    e.messageId.Some? || e.error.Some?
  }

  /** An entry the loop can classify without a `KeyError`. */
  type Answer = e: Entry | Answered(e) witness Entry(Some(Null), None, None)

  /** Every entry of `results` is answered. */
  predicate AllAnswered(results: seq<Entry>) {
    forall i :: 0 <= i < |results| ==> Answered(results[i])
  }

  /** Where one token goes. */
  datatype Kind = Delivered | Unavailable | Unregistered | Failed

  /** The classification rule for one entry. */
  function KindOf(e: Answer): (k: Kind)
    ensures k == Delivered <==> e.messageId.Some?
    ensures k == Unavailable <==>
              e.messageId.None? && (e.error.value == "Unavailable" || e.error.value == "InternalServerError")
    ensures k == Unregistered <==> e.messageId.None? && e.error.value == "NotRegistered"
  {
    if e.messageId.Some? then Delivered
    else if e.error.value == "Unavailable" || e.error.value == "InternalServerError" then Unavailable
    else if e.error.value == "NotRegistered" then Unregistered
    else Failed
  }

  /** The dictionaries and lists the loop fills: `success`, `failure`, the
      local `canonical_ids`, `unregistered` and `unavailables`. */
  datatype Routing = Routing(
    success: map<string, Value>,
    failure: map<string, string>,
    canonical: map<string, Value>,
    unregistered: seq<string>,
    unavailables: seq<string>)

  const NoRouting := Routing(map[], map[], map[], [], [])

  /** Token `t` was placed in at least one of the four outcomes. */
  predicate Routed(o: Routing, t: string) {
    t in o.success || t in o.failure || t in o.unregistered || t in o.unavailables
  }

  /** The effect of one loop iteration on the routing. */
  function Route(acc: Routing, token: string, e: Answer): (r: Routing)
    ensures Routed(r, token)
    ensures forall t :: Routed(acc, t) ==> Routed(r, t)
    ensures forall t :: t in r.success ==> t in acc.success || t == token
    ensures forall t :: t in r.failure ==> t in acc.failure || t == token
    ensures forall t :: t in r.unregistered ==> t in acc.unregistered || t == token
    ensures forall t :: t in r.unavailables ==> t in acc.unavailables || t == token
    ensures acc.canonical.Keys <= acc.success.Keys ==> r.canonical.Keys <= r.success.Keys
  {
    match KindOf(e)
    case Delivered =>
      acc.(success := acc.success[token := e.messageId.value],
           canonical := if e.registrationId.Some? then acc.canonical[token := e.registrationId.value]
                        else acc.canonical)
    case Unavailable => acc.(unavailables := acc.unavailables + [token])
    case Unregistered => acc.(unregistered := acc.unregistered + [token])
    case Failed => acc.(failure := acc.failure[token := e.error.value])
  }

  /** The routing of the aligned pairs `(ids[i], results[i])`, in order. */
  function Reconcile(ids: seq<string>, results: seq<Answer>): (o: Routing)
    requires |ids| == |results|
    ensures forall t :: t in o.success ==> t in ids
    ensures forall t :: t in o.failure ==> t in ids
    ensures forall t :: t in o.unregistered ==> t in ids
    ensures forall t :: t in o.unavailables ==> t in ids
    ensures o.canonical.Keys <= o.success.Keys
    ensures forall i :: 0 <= i < |ids| ==> Routed(o, ids[i])
    decreases |ids|
  {
    if |ids| == 0 then NoRouting
    else
      var n := |ids| - 1;
      Route(Reconcile(ids[..n], results[..n]), ids[n], results[n])
  }

  /** The tokens whose entries are of kind `k`, in request order; a
      definition from the front, independent of the loop's order. */
  function TokensOfKind(ids: seq<string>, results: seq<Answer>, k: Kind): (r: seq<string>)
    requires |ids| == |results|
    ensures |r| <= |ids|
    decreases |ids|
  {
    if |ids| == 0 then []
    else (if KindOf(results[0]) == k then [ids[0]] else []) + TokensOfKind(ids[1..], results[1..], k)
  }

  /** `TokensOfKind` of an extended sequence adds at most the last token. */
  lemma {:induction false} TokensOfKindSnoc(ids: seq<string>, results: seq<Answer>, k: Kind)
    requires |ids| == |results| && |ids| > 0
    ensures var n := |ids| - 1;
            TokensOfKind(ids, results, k)
            == TokensOfKind(ids[..n], results[..n], k) + (if KindOf(results[n]) == k then [ids[n]] else [])
    decreases |ids|
  {
    var n := |ids| - 1;
    if n > 0 {
      TokensOfKindSnoc(ids[1..], results[1..], k);
      assert ids[1..][..n - 1] == ids[..n][1..];
      assert results[1..][..n - 1] == results[..n][1..];
    }
  }

  /** `unavailables` and `unregistered` list exactly the tokens whose
      entries say so, in request order, duplicates included. */
  lemma {:induction false} ListsKeepRequestOrder(ids: seq<string>, results: seq<Answer>)
    requires |ids| == |results|
    ensures Reconcile(ids, results).unavailables == TokensOfKind(ids, results, Unavailable)
    ensures Reconcile(ids, results).unregistered == TokensOfKind(ids, results, Unregistered)
    decreases |ids|
  {
    if |ids| > 0 {
      var n := |ids| - 1;
      ListsKeepRequestOrder(ids[..n], results[..n]);
      TokensOfKindSnoc(ids, results, Unavailable);
      TokensOfKindSnoc(ids, results, Unregistered);
    }
  }

  /** The tokens of a request are pairwise distinct. */
  predicate Distinct(ids: seq<string>) {
    forall i, j :: 0 <= i < j < |ids| ==> ids[i] != ids[j]
  }

  /** Token `t` sits in exactly the outcome entry `e` names, with the
      entry's message id, canonical token or error code. */
  predicate RoutedAs(o: Routing, t: string, e: Answer)
  {
    && (t in o.success <==> KindOf(e) == Delivered)
    && (t in o.unavailables <==> KindOf(e) == Unavailable)
    && (t in o.unregistered <==> KindOf(e) == Unregistered)
    && (t in o.failure <==> KindOf(e) == Failed)
    && (t in o.success ==> o.success[t] == e.messageId.value)
    && (t in o.failure ==> o.failure[t] == e.error.value)
    && (t in o.canonical <==> KindOf(e) == Delivered && e.registrationId.Some?)
    && (t in o.canonical ==> o.canonical[t] == e.registrationId.value)
  }

  /** Routing a token not yet seen places it as its entry says. */
  lemma RouteFreshToken(acc: Routing, token: string, e: Answer)
    requires !Routed(acc, token) && token !in acc.canonical
    ensures RoutedAs(Route(acc, token, e), token, e)
  {
  }

  /** Routing one token leaves every other token where it was. */
  lemma RouteOtherToken(acc: Routing, token: string, e: Answer, t: string, f: Answer)
    requires t != token && RoutedAs(acc, t, f)
    ensures RoutedAs(Route(acc, token, e), t, f)
  {
  }

  /** For distinct tokens, each processed token lands in exactly the
      outcome its entry names, with the entry's message id, canonical
      token or error code; so the four outcomes are disjoint. */
  lemma {:induction false} DistinctTokensArePartitioned(ids: seq<string>, results: seq<Answer>)
    requires |ids| == |results| && Distinct(ids)
    ensures forall i :: 0 <= i < |ids| ==> RoutedAs(Reconcile(ids, results), ids[i], results[i])
    decreases |ids|
  {
    if |ids| > 0 {
      var n := |ids| - 1;
      var prefix := ids[..n];
      DistinctTokensArePartitioned(prefix, results[..n]);
      var before := Reconcile(prefix, results[..n]);
      assert ids[n] !in prefix;
      RouteFreshToken(before, ids[n], results[n]);
      forall i | 0 <= i < n
        ensures RoutedAs(Reconcile(ids, results), ids[i], results[i])
      {
        assert ids[i] == prefix[i] && results[i] == results[..n][i];
        RouteOtherToken(before, ids[n], results[n], ids[i], results[i]);
      }
    }
  }

  /** How many pairs `zip(ids, results)` yields. */
  function Zipped(ids: seq<string>, results: seq<Entry>): (n: nat)
    ensures n <= |ids| && n <= |results| && (n == |ids| || n == |results|)
  {
    if |ids| < |results| then |ids| else |results|
  }

  /** `Reconcile` of a one-longer prefix routes one more pair. */
  lemma ReconcilePrefix(ids: seq<string>, results: seq<Answer>, i: nat)
    requires |ids| == |results| && i < |ids|
    ensures Reconcile(ids[..i + 1], results[..i + 1])
            == Route(Reconcile(ids[..i], results[..i]), ids[i], results[i])
  {
    assert ids[..i + 1][..i] == ids[..i];
    assert results[..i + 1][..i] == results[..i];
  }

  /** One iteration of the 200 branch's loop: the entry for `regId` is
      recorded in the dictionary or list its `message_id`/`error` names. */
  method RouteEntry(success: map<string, Value>, failure: map<string, string>,
                    canonical: map<string, Value>, unregistered: seq<string>,
                    unavailables: seq<string>, regId: string, resp: Answer)
    returns (success': map<string, Value>, failure': map<string, string>,
             canonical': map<string, Value>, unregistered': seq<string>,
             unavailables': seq<string>)
    ensures Routing(success', failure', canonical', unregistered', unavailables')
            == Route(Routing(success, failure, canonical, unregistered, unavailables), regId, resp)
  {
    success', failure', canonical', unregistered', unavailables' :=
      success, failure, canonical, unregistered, unavailables;
    if resp.messageId.Some? {
      success' := success[regId := resp.messageId.value];
      if resp.registrationId.Some? {
        canonical' := canonical[regId := resp.registrationId.value];
      }
    } else {
      var error := resp.error.value;
      if error == "Unavailable" || error == "InternalServerError" {
        unavailables' := unavailables + [regId];
      } else if error == "NotRegistered" {
        unregistered' := unregistered + [regId];
      } else {
        failure' := failure[regId := error];
      }
    }
  }

  /** The 200 branch's loop over `zip(r_ids, resp_data['results'])`,
      which stops at the shorter of the two sequences. */
  method ReconcileResults(ids: seq<string>, results: seq<Entry>) returns (o: Routing)
    requires AllAnswered(results[..Zipped(ids, results)])
    ensures o == Reconcile(ids[..Zipped(ids, results)], results[..Zipped(ids, results)])
  {
    var n := Zipped(ids, results);
    var tokens := ids[..n];
    var answers: seq<Answer> := results[..n];
    var success: map<string, Value> := map[];
    var failure: map<string, string> := map[];
    var canonical: map<string, Value> := map[];
    var unregistered: seq<string> := [];
    var unavailables: seq<string> := [];
    var i := 0;
    while i < n
      invariant 0 <= i <= n
      invariant Routing(success, failure, canonical, unregistered, unavailables)
                == Reconcile(tokens[..i], answers[..i])
    {
      success, failure, canonical, unregistered, unavailables :=
        RouteEntry(success, failure, canonical, unregistered, unavailables, tokens[i], answers[i]);
      ReconcilePrefix(tokens, answers, i);
      i := i + 1;
    }
    assert tokens[..n] == tokens && answers[..n] == answers;
    o := Routing(success, failure, canonical, unregistered, unavailables);
  }
}
