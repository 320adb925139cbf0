/** The process-wide auth-token slot: `getAuthToken` answers from the slot
    when it holds a truthy token and otherwise asks the login service and
    caches what it returns; `clearAuthToken` empties the slot. */
module Auth {
  import opened Http

  /** What the login service's answer amounts to when it is asked: a
      non-ok status (or an unreadable body) fails, otherwise the body's
      `token` member, `None` when it has none. */
  datatype LoginAnswer = LoginFailed | LoginOk(token: Option<string>)

  /** What `await getAuthToken()` does for its caller: it throws, or it
      resolves to a token (which may itself be falsy). */
  datatype TokenResult = Threw | Returned(token: Option<string>)

  /** The slot forces a login call exactly when it does not hold a truthy
      token; an empty string is as good as no token. */
  predicate CallsLogin(slot: Option<string>) {
    !Truthy(slot)
  }

  /** What `getAuthToken` yields from `slot`, given what the login service
      would answer. */
  function Lookup(slot: Option<string>, answer: LoginAnswer): TokenResult {
    if !CallsLogin(slot) then Returned(slot)
    else match answer
      case LoginFailed => Threw
      case LoginOk(t) => Returned(t)
  }

  /** The slot after `getAuthToken`. */
  function NextSlot(slot: Option<string>, answer: LoginAnswer): Option<string> {
    if !CallsLogin(slot) then slot
    else match answer
      case LoginFailed => slot
      case LoginOk(t) => t
  }

  /** A hit answers from the slot and leaves it as it is, whatever the
      login service would say. */
  lemma Hit(slot: Option<string>, answer: LoginAnswer)
    requires Truthy(slot)
    ensures !CallsLogin(slot)
    ensures Lookup(slot, answer) == Returned(slot)
    ensures NextSlot(slot, answer) == slot
  {
  }

  /** A miss returns and caches the token the login service hands out, or
      throws and leaves the slot unchanged. */
  lemma Miss(slot: Option<string>, answer: LoginAnswer)
    requires !Truthy(slot)
    ensures CallsLogin(slot)
    ensures answer.LoginOk? ==> Lookup(slot, answer) == Returned(answer.token) && NextSlot(slot, answer) == answer.token
    ensures answer.LoginFailed? ==> Lookup(slot, answer) == Threw && NextSlot(slot, answer) == slot
  {
  }

  /** Whatever is returned is what the slot then holds. */
  lemma ReturnedIsCached(slot: Option<string>, answer: LoginAnswer)
    ensures Lookup(slot, answer).Returned? ==> Lookup(slot, answer).token == NextSlot(slot, answer)
    ensures Lookup(slot, answer).Threw? <==> CallsLogin(slot) && answer.LoginFailed?
  {
  }

  /** Two calls with no clear in between: once the first has returned a
      truthy token, the second returns the identical token, calls no login
      and leaves the slot alone. */
  lemma SecondCallHits(slot: Option<string>, first: LoginAnswer, second: LoginAnswer)
    requires Lookup(slot, first).Returned? && Truthy(Lookup(slot, first).token)
    ensures !CallsLogin(NextSlot(slot, first))
    ensures Lookup(NextSlot(slot, first), second) == Lookup(slot, first)
    ensures NextSlot(NextSlot(slot, first), second) == NextSlot(slot, first)
  {
    ReturnedIsCached(slot, first);
  }

  /** A cached empty-string token is no token: every call logs in again. */
  lemma EmptyTokenRefetches(answer: LoginAnswer)
    ensures CallsLogin(NextSlot(None, LoginOk(Some(""))))
    ensures Lookup(Some(""), answer) == Lookup(None, answer)
  {
  }

  /** The module-level `authToken` variable. `loginCalls` counts the calls
      made to the login service over the cache's life. */
  class TokenCache {
    var slot: Option<string>
    ghost var loginCalls: nat

    /** The module starts with `authToken = null`. */
    constructor ()
      ensures slot == None && loginCalls == 0
    {
      slot := None;
      loginCalls := 0;
    }

    /** `getAuthToken`; `answer` is what the login service would answer
        were it asked now. */
    method GetAuthToken(answer: LoginAnswer) returns (r: TokenResult)
      modifies this
      ensures r == Lookup(old(slot), answer)
      ensures slot == NextSlot(old(slot), answer)
      ensures loginCalls == old(loginCalls) + (if CallsLogin(old(slot)) then 1 else 0)
    {
      if Truthy(slot) {
        return Returned(slot);
      }
      loginCalls := loginCalls + 1;
      match answer
      case LoginFailed =>
        r := Threw;
      case LoginOk(t) =>
        slot := t;
        r := Returned(t);
    }

    /** `clearAuthToken`. */
    method ClearAuthToken()
      modifies this
      ensures slot == None && loginCalls == old(loginCalls)
    {
      slot := None;
    }
  }

  /** Two successive calls share one login: once the first has yielded a
      truthy token the second yields the very same token. */
  method CallTwice(cache: TokenCache, first: LoginAnswer, second: LoginAnswer) returns (r1: TokenResult, r2: TokenResult)
    modifies cache
    ensures r1 == Lookup(old(cache.slot), first)
    ensures r1.Returned? && Truthy(r1.token) ==>
      r2 == r1 && cache.loginCalls == old(cache.loginCalls) + (if CallsLogin(old(cache.slot)) then 1 else 0)
  {
    r1 := cache.GetAuthToken(first);
    if r1.Returned? && Truthy(r1.token) {
      ReturnedIsCached(old(cache.slot), first);
    }
    r2 := cache.GetAuthToken(second);
  }

  /** After a clear the next call goes to the login service. */
  method ClearThenGet(cache: TokenCache, answer: LoginAnswer) returns (r: TokenResult)
    modifies cache
    ensures cache.loginCalls == old(cache.loginCalls) + 1
    ensures r == Lookup(None, answer) && cache.slot == NextSlot(None, answer)
  {
    cache.ClearAuthToken();
    r := cache.GetAuthToken(answer);
  }
}
