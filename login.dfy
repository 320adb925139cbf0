/** POST /api/auth/login: the mock credential check and the status it
    decides; a successful login also warms the token cache. */
module LoginRoute {
  import opened Http
  import opened Auth

  /** The fields of the request body the handler reads. */
  datatype Credentials = Credentials(username: Option<string>, password: Option<string>)

  /** The reply, and whether the handler fires `getAuthToken()`. */
  datatype Outcome = Outcome(reply: Reply<string>, fetchesToken: bool)

  /** validateCredentials. */
  predicate ValidateCredentials(username: string, password: string) {
    username == "admin" && password == "admin123"
  }

  /** Exactly one pair of credentials is accepted. */
  lemma OnlyAdmin(username: string, password: string)
    ensures ValidateCredentials(username, password) <==> (username, password) == ("admin", "admin123")
  {
  }

  /** The handler. `req` is `None` when reading the body throws; the
      success body is the `message` member. */
  function Post(req: Option<Credentials>): (r: Outcome)
    ensures req.None? ==> r == Outcome(Reply(500, Error("Internal server error")), false)
    ensures req.Some? && !(Truthy(req.value.username) && Truthy(req.value.password)) ==>
      r == Outcome(Reply(400, Error("Username and password are required")), false)
    ensures r.reply.status == 401 <==>
      req.Some? && Truthy(req.value.username) && Truthy(req.value.password)
      && !ValidateCredentials(req.value.username.value, req.value.password.value)
    ensures r.reply.status == 200 <==>
      req.Some? && req.value.username == Some("admin") && req.value.password == Some("admin123")
    // the token fetch happens only on the success path
    ensures r.fetchesToken <==> r.reply.status == 200
    ensures r.reply.status == 200 ==> r.reply.body == Data("Login successful")
    ensures r.reply.status in {200, 400, 401, 500}
  {
    match req
    case None => Outcome(Reply(500, Error("Internal server error")), false)
    case Some(c) =>
      if !Truthy(c.username) || !Truthy(c.password) then
        Outcome(Reply(400, Error("Username and password are required")), false)
      else if !ValidateCredentials(c.username.value, c.password.value) then
        Outcome(Reply(401, Error("Invalid credentials")), false)
      else
        Outcome(Reply(200, Data("Login successful")), true)
  }

  /** The handler run against the token cache. The fetch is not awaited,
      so its outcome (even a throw) never reaches the reply. */
  method Handle(cache: TokenCache, req: Option<Credentials>, answer: LoginAnswer) returns (reply: Reply<string>)
    modifies cache
    ensures reply == Post(req).reply
    ensures Post(req).fetchesToken ==> cache.slot == NextSlot(old(cache.slot), answer)
    ensures Post(req).fetchesToken ==>
      cache.loginCalls == old(cache.loginCalls) + (if CallsLogin(old(cache.slot)) then 1 else 0)
    ensures !Post(req).fetchesToken ==> cache.slot == old(cache.slot) && cache.loginCalls == old(cache.loginCalls)
  {
    var r := Post(req);
    if r.fetchesToken {
      var ignored := cache.GetAuthToken(answer);
    }
    reply := r.reply;
  }
}
