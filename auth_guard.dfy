/** The route guard: let the navigation through for a signed-in user,
    otherwise send it to the login page. */
module AuthGuard {
  import opened Wrappers
  import opened Models
  import opened ApiService
  import opened AuthApi
  import opened AuthService

  /** What `canActivate` resolves to: a boolean or a router tree to navigate to. */
  datatype GuardResult = Bool(value: bool) | UrlTree(commands: seq<string>)

  const LoginTree := UrlTree(["/login"])

  /** The decision: through when the flag is set or the session has a user;
      a rejected session lookup counts as no session. Never a plain `false`. */
  function Decide(authenticated: bool, session: Outcome<AuthSession>): (g: GuardResult)
    ensures g == Bool(true) <==> authenticated || (session.Ok? && session.value.user.Some?)
    ensures g != Bool(true) ==> g == LoginTree
    ensures g != Bool(false)
  {
    if authenticated then Bool(true)
    else if session.Ok? && session.value.user.Some? then Bool(true)
    else LoginTree
  }

  /** With the flag down the guard lets the navigation through exactly when
      a token is stored and the provider's answer names a user. */
  lemma GuardAdmitsIff(env: Environment, token: Option<string>,
                       genericReply: Outcome<Option<AuthUser>>, supabaseReply: Outcome<UserReply>)
    ensures Decide(false, SessionResult(env, token, genericReply, supabaseReply)) == Bool(true) <==>
      FilledText(token)
      && (if ProviderOf(env) == Generic then genericReply.Ok? && genericReply.value.Some?
          else supabaseReply.Ok? && FilledText(supabaseReply.value.id))
  {
  }

  /** `canActivate`: the session is consulted only when the flag is down, and
      the result is the decision on what it returned. */
  method CanActivate(auth: AuthState, env: Environment,
                     genericReply: Outcome<Option<AuthUser>>, supabaseReply: Outcome<UserReply>)
    returns (g: GuardResult, consulted: Option<Outcome<AuthSession>>, requests: seq<AuthRequest>)
    modifies auth.api.storage
    ensures consulted.None? <==> auth.isAuthenticated
    ensures auth.isAuthenticated ==> g == Bool(true) && requests == [] && auth.api.storage.local == old(auth.api.storage.local)
    ensures !auth.isAuthenticated ==>
      consulted == Some(SessionResult(env, old(auth.api.GetToken()), genericReply, supabaseReply))
      && requests == SessionRequests(env, old(auth.api.GetToken()))
      && auth.api.storage.local ==
           SessionStorage(env, old(auth.api.storage.local), old(auth.api.GetToken()), supabaseReply)
    ensures auth.api.storage.available == old(auth.api.storage.available)
      && auth.api.storage.session == old(auth.api.storage.session)
    ensures g == Decide(auth.isAuthenticated, consulted.GetOr(Fail))
  {
    if auth.isAuthenticated {
      return Bool(true), None, [];
    }
    var session;
    session, requests := auth.GetSession(env, genericReply, supabaseReply);
    consulted := Some(session);
    g := Decide(false, session);
  }
}
