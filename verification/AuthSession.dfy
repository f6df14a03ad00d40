/** The bounded retry loop of src/auth/auth_session.cpp. */
module AuthSessions {
  import opened Basics

  const RETRY_DELAY: int := 200 * MILLISECOND

  // `provider(k)` is what the token provider answers when it is called for the k-th time, counting from 0.
  type Provider = nat -> string

  // How often the provider is called when at most `limit` calls are allowed: up to the first non-empty answer.
  function Calls(provider: Provider, limit: nat): nat {
    if limit == 0 then 0
    else
      var n := Calls(provider, limit - 1);
      if n < limit - 1 || (n > 0 && provider(n - 1) != "") then n else n + 1
  }

  // The calls are exact: all but the last were answered with an empty token, and the loop gave up before the
  // limit only because the last answer was not empty.
  lemma {:induction false} CallsAreExact(provider: Provider, limit: nat)
    ensures var n := Calls(provider, limit);
      && n <= limit
      && (forall k: nat :: k + 1 < n ==> provider(k) == "")
      && (limit > 0 ==> n > 0)
      && (n < limit ==> provider(n - 1) != "")
  {
    if limit > 0 {
      CallsAreExact(provider, limit - 1);
      var n, m := Calls(provider, limit - 1), Calls(provider, limit);
      forall k: nat | k + 1 < m
        ensures provider(k) == ""
      {
        if m == n + 1 && k == n - 1 {
          assert provider(n - 1) == "";
        }
      }
    }
  }

  // And they are determined by that: any loop that stops as described makes the same number of calls.
  lemma CallsAreUnique(provider: Provider, limit: nat, n: nat)
    requires n <= limit && (forall k: nat :: k + 1 < n ==> provider(k) == "")
    requires limit > 0 ==> n > 0
    requires n < limit ==> provider(n - 1) != ""
    ensures n == Calls(provider, limit)
  {
    CallsAreExact(provider, limit);
  }

  class AuthSession {
    const tenant: string
    var token: string
    var authenticated: bool

    constructor (tenant: string)
      ensures this.tenant == tenant && token == "" && !authenticated
    {
      this.tenant := tenant;
      token, authenticated := "", false;
    }

    // `slept` adds up the pauses between attempts.
    method Authenticate(initial: string, hasProvider: bool, provider: Provider, maxRetries: int)
      returns (ok: bool, attempts: nat, slept: int)
      modifies this
      ensures var limit := if hasProvider && initial == "" && maxRetries > 0 then maxRetries else 0;
        && attempts == Calls(provider, limit)
        && token == (if attempts == 0 then initial else provider(attempts - 1))
        && (token == "" <==> initial == "" && forall k: nat :: k < limit ==> provider(k) == "")
        && slept == 200_000_000 * (if attempts == 0 then 0 else attempts - 1)
      ensures ok == authenticated == (token != "")
    {
      token := initial;
      attempts := 0;
      slept := 0;
      ghost var limit: nat := if hasProvider && initial == "" && maxRetries > 0 then maxRetries else 0;
      while token == "" && hasProvider && attempts < maxRetries
        invariant attempts <= limit
        invariant token == if attempts == 0 then initial else provider(attempts - 1)
        invariant forall k: nat :: k + 1 < attempts ==> provider(k) == ""
        invariant slept == RETRY_DELAY *
                  (if attempts == 0 then 0 else if token == "" && attempts < maxRetries then attempts else attempts - 1)
      {
        attempts := attempts + 1;
        token := provider(attempts - 1);
        if token == "" && attempts < maxRetries {
          slept := slept + RETRY_DELAY;
        }
      }
      CallsAreUnique(provider, limit, attempts);
      authenticated := token != "";
      ok := authenticated;
    }
  }
}
