/** GET /api/lp: check the two query parameters, obtain a token from the
    cache, call the CCS document endpoint and pass its answer through. */
module LpRoute {
  import opened Http
  import opened Auth

  /** `searchParams.get(...)`: `None` when the parameter is absent. */
  datatype Query = Query(tenantId: Option<string>, documentKey: Option<string>)

  /** What the upstream `fetch` amounts to: it rejects, or it answers with a
      status and a body that parses as JSON (`Some`) or does not (`None`). */
  datatype Upstream = UpstreamThrew | UpstreamReply(status: nat, json: Option<string>)

  /** The upstream request the handler sends. */
  datatype Call = Call(url: string, authorization: string)

  /** The reply, whether a token was asked for, and the upstream request
      if one was sent. */
  datatype Outcome = Outcome(reply: Reply<string>, tokenRequested: bool, upstreamCall: Option<Call>)

  predicate ParamsPresent(q: Query) {
    Truthy(q.tenantId) && Truthy(q.documentKey)
  }

  /** `response.ok`. */
  predicate Ok(status: nat) {
    200 <= status <= 299
  }

  /** `${LP_CCS_GET_URL}${tenantId}/${documentKey}`: the parameters are
      spliced in unencoded. */
  function DocumentUrl(getUrl: string, tenantId: string, documentKey: string): (url: string)
    ensures |url| == |getUrl| + |tenantId| + 1 + |documentKey|
  {
    getUrl + tenantId + "/" + documentKey
  }

  /** A tenant id without `/` can be read back from the URL, and so can
      the document key. */
  lemma DocumentUrlInjective(getUrl: string, t1: string, k1: string, t2: string, k2: string)
    requires '/' !in t1 && '/' !in t2
    requires DocumentUrl(getUrl, t1, k1) == DocumentUrl(getUrl, t2, k2)
    ensures t1 == t2 && k1 == k2
  {
    var u := DocumentUrl(getUrl, t1, k1);
    var n := |getUrl|;
    assert u[n + |t1|] == '/';
    assert DocumentUrl(getUrl, t2, k2)[n + |t2|] == '/';
    if |t1| < |t2| {
      assert false;
    } else if |t2| < |t1| {
      assert false;
    }
    assert t1 == u[n..n + |t1|];
    assert t2 == DocumentUrl(getUrl, t2, k2)[n..n + |t2|];
    assert k1 == u[n + |t1| + 1..];
    assert k2 == DocumentUrl(getUrl, t2, k2)[n + |t2| + 1..];
  }

  /** Without that premise two different parameter pairs name the same
      document URL. */
  lemma DocumentUrlAmbiguous(getUrl: string)
    ensures DocumentUrl(getUrl, "a/b", "c") == DocumentUrl(getUrl, "a", "b/c")
  {
  }

  /** The handler's decision chain. `token` is what `await getAuthToken()`
      does; it is consulted only once the parameters are present, and
      `upstream` only once the token is truthy. */
  function Get(getUrl: string, q: Query, token: TokenResult, upstream: Upstream): (r: Outcome)
    // a missing parameter is answered before any token is asked for
    ensures !ParamsPresent(q) ==>
      r == Outcome(Reply(400, Error("Missing required parameters")), false, None)
    ensures r.tokenRequested <==> ParamsPresent(q)
    // a login failure is an exception: 500, not 401
    ensures ParamsPresent(q) && token.Threw? ==>
      r == Outcome(Reply(500, Error("Internal server error")), true, None)
    ensures r.reply == Reply(401, Error("Failed to authenticate")) <==>
      ParamsPresent(q) && token.Returned? && !Truthy(token.token)
    // the upstream is called exactly when a truthy token is in hand
    ensures r.upstreamCall.Some? <==> ParamsPresent(q) && token.Returned? && Truthy(token.token)
    ensures r.upstreamCall.Some? ==>
      r.upstreamCall.value == Call(
        DocumentUrl(getUrl, q.tenantId.value, q.documentKey.value),
        "Bearer " + token.token.value)
    ensures r.upstreamCall.Some? ==> match upstream
      case UpstreamThrew => r.reply == Reply(500, Error("Internal server error"))
      case UpstreamReply(status, json) =>
        if !Ok(status) then r.reply == Reply(status, Error("Failed to fetch data from LP CCS"))
        else if json.None? then r.reply == Reply(500, Error("Internal server error"))
        else r.reply == Reply(200, Data(json.value))
  {
    if !ParamsPresent(q) then
      Outcome(Reply(400, Error("Missing required parameters")), false, None)
    else match token
      case Threw => Outcome(Reply(500, Error("Internal server error")), true, None)
      case Returned(t) =>
        if !Truthy(t) then
          Outcome(Reply(401, Error("Failed to authenticate")), true, None)
        else
          var call := Call(DocumentUrl(getUrl, q.tenantId.value, q.documentKey.value), "Bearer " + t.value);
          var reply := match upstream
            case UpstreamThrew => Reply(500, Error("Internal server error"))
            case UpstreamReply(status, json) =>
              if !Ok(status) then Reply(status, Error("Failed to fetch data from LP CCS"))
              else if json.None? then Reply(500, Error("Internal server error"))
              else Reply(200, Data(json.value));
          Outcome(reply, true, Some(call))
  }

  /** Every status the handler itself chooses is an error status, and one
      that is neither 400, 401, 500 nor 200 came from the upstream. */
  lemma StatusOrigin(getUrl: string, q: Query, token: TokenResult, upstream: Upstream)
    ensures var r := Get(getUrl, q, token, upstream);
      r.reply.status !in {200, 400, 401, 500} ==>
        && r.upstreamCall.Some?
        && upstream.UpstreamReply?
        && r.reply == Reply(upstream.status, Error("Failed to fetch data from LP CCS"))
  {
  }

  /** An ok reply carries the upstream JSON unchanged. */
  lemma PassThrough(getUrl: string, q: Query, token: TokenResult, upstream: Upstream)
    ensures var r := Get(getUrl, q, token, upstream);
      r.reply.status == 200 ==>
        && upstream.UpstreamReply? && Ok(upstream.status) && upstream.json.Some?
        && r.reply.body == Data(upstream.json.value)
  {
  }

  /** The handler run against the token cache: the token request goes
      through `GetAuthToken` exactly when the parameters are present. */
  method Handle(cache: TokenCache, getUrl: string, q: Query, answer: LoginAnswer, upstream: Upstream)
    returns (r: Outcome)
    modifies cache
    ensures r == Get(getUrl, q, Lookup(old(cache.slot), answer), upstream)
    ensures ParamsPresent(q) ==> cache.slot == NextSlot(old(cache.slot), answer)
    ensures ParamsPresent(q) ==>
      cache.loginCalls == old(cache.loginCalls) + (if CallsLogin(old(cache.slot)) then 1 else 0)
    ensures !ParamsPresent(q) ==> cache.slot == old(cache.slot) && cache.loginCalls == old(cache.loginCalls)
  {
    if !ParamsPresent(q) {
      return Get(getUrl, q, Threw, upstream);
    }
    var token := cache.GetAuthToken(answer);
    r := Get(getUrl, q, token, upstream);
  }
}
