/**
 * The token check every controller runs before it subscribes
 * (`EnsureAuthToken`): use the cached credential, and when that call throws,
 * re-read the signed-in user and force exactly one refresh.
 */
module Auth {
  import opened Wrappers
  import opened Store

  /** One call to `user.TokenAsync(forceRefresh)`. */
  datatype TokenAttempt = CachedToken | ForcedRefresh

  /**
   * The identity provider as the check sees it: the signed-in user when the
   * check starts, the signed-in user when it retries, and whether each kind
   * of token call completes or throws.
   */
  datatype AuthEnv = AuthEnv(user: Option<Uid>, userOnRetry: Option<Uid>, cachedOk: bool, refreshOk: bool)

  /** The verdict and the token calls made, in order. */
  datatype TokenCheck = TokenCheck(ok: bool, attempts: seq<TokenAttempt>)

  predicate Succeeds(env: AuthEnv, a: TokenAttempt) {
    match a
    case CachedToken => env.cachedOk
    case ForcedRefresh => env.refreshOk
  }

  function EnsureAuthToken(env: AuthEnv): (r: TokenCheck)
    ensures |r.attempts| <= 2
    ensures r.ok <==> exists k :: 0 <= k < |r.attempts| && Succeeds(env, r.attempts[k])
    ensures r.attempts == [] <==> env.user.None?
    ensures r.attempts != [] ==> r.attempts[0] == CachedToken
    ensures ForcedRefresh in r.attempts ==> r.attempts == [CachedToken, ForcedRefresh] && !env.cachedOk && env.userOnRetry.Some?
  {
    if env.user.None? then TokenCheck(false, [])
    else if env.cachedOk then
      var r := TokenCheck(true, [CachedToken]);
      assert Succeeds(env, r.attempts[0]);
      r
    else if env.userOnRetry.None? then TokenCheck(false, [CachedToken])
    else
      var r := TokenCheck(env.refreshOk, [CachedToken, ForcedRefresh]);
      assert Succeeds(env, r.attempts[1]) == env.refreshOk;
      r
  }

  /**
   * The check passes exactly when a user is signed in and either the cached
   * token call or the one forced refresh (with a user still signed in) succeeds.
   */
  lemma EnsureAuthTokenVerdict(env: AuthEnv)
    ensures EnsureAuthToken(env).ok <==>
            env.user.Some? && (env.cachedOk || (env.userOnRetry.Some? && env.refreshOk))
  {
    var r := EnsureAuthToken(env);
    if env.user.Some? && !env.cachedOk && env.userOnRetry.Some? && env.refreshOk {
      assert Succeeds(env, r.attempts[1]);
    }
  }
}
