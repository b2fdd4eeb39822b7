/** The application's view of who is signed in: the current user and an
    authenticated flag, kept in step with the auth backend. */
module AuthService {
  import opened Wrappers
  import opened Text
  import opened Models
  import opened ApiService
  import opened AuthApi

  /** The key under which the Supabase client library keeps its own session. */
  const SupabaseSessionKey := "sb-dzeawanrkskzsorkyrxi-auth-token"

  /** A Supabase client session key: `sb-<project>-auth-token`. */
  predicate SupabaseTokenKey(k: string) {
    StartsWith(k, "sb-") && EndsWith(k, "-auth-token")
  }

  lemma FixedKeyIsSupabaseTokenKey()
    ensures SupabaseTokenKey(SupabaseSessionKey)
  {
    assert SupabaseSessionKey[..3] == "sb-";
    assert SupabaseSessionKey[|SupabaseSessionKey| - 11..] == "-auth-token";
  }

  /** The local store once every Supabase session key is gone. */
  function WithoutSupabaseKeys(m: map<string, string>): (r: map<string, string>)
    ensures forall k :: k in r <==> k in m && !SupabaseTokenKey(k)
    ensures forall k :: k in r ==> r[k] == m[k]
  {
    map k | k in m && !SupabaseTokenKey(k) :: m[k]
  }

  /** The store part-way through the key scan: keys still to visit are kept,
      visited ones only when they are not Supabase session keys. */
  function KeptSoFar(start: map<string, string>, pending: set<string>): map<string, string> {
    map k | k in start && (k in pending || !SupabaseTokenKey(k)) :: start[k]
  }

  lemma KeptSoFarStep(start: map<string, string>, pending: set<string>, key: string)
    requires key in pending
    ensures KeptSoFar(start, pending - {key}) ==
      if SupabaseTokenKey(key) then KeptSoFar(start, pending) - {key} else KeptSoFar(start, pending)
  {
  }

  lemma KeptSoFarEnds(start: map<string, string>, original: map<string, string>)
    requires SupabaseTokenKey(SupabaseSessionKey) && start == original - {SupabaseSessionKey}
    ensures KeptSoFar(start, start.Keys) == start
    ensures KeptSoFar(start, {}) == WithoutSupabaseKeys(original)
  {
  }

  class AuthState {
    const api: AuthApiService
    var currentUser: Option<AuthUser>
    var isAuthenticated: bool

    /** The two signals agree: a user is present exactly when the flag is set. */
    predicate Valid()
      reads this
    {
      isAuthenticated <==> currentUser.Some?
    }

    constructor (api: AuthApiService)
      ensures this.api == api && currentUser.None? && !isAuthenticated && Valid()
    {
      this.api := api;
      currentUser, isAuthenticated := None, false;
    }

    /** `initializeAuth`, given how the backend answers the session lookup:
        signed in exactly when the session carries a user. A rejected lookup
        leaves the state as it was. */
    method InitializeAuth(env: Environment, genericReply: Outcome<Option<AuthUser>>, supabaseReply: Outcome<UserReply>)
      returns (session: Outcome<AuthSession>, requests: seq<AuthRequest>)
      modifies this, api.storage
      ensures session == SessionResult(env, old(api.GetToken()), genericReply, supabaseReply)
      ensures requests == SessionRequests(env, old(api.GetToken()))
      ensures api.storage.available == old(api.storage.available) && api.storage.session == old(api.storage.session)
      ensures api.storage.local == SessionStorage(env, old(api.storage.local), old(api.GetToken()), supabaseReply)
      ensures session.Ok? ==> currentUser == session.value.user && Valid()
      ensures session.Fail? ==> currentUser == old(currentUser) && isAuthenticated == old(isAuthenticated)
      ensures old(Valid()) ==> Valid()
    {
      session, requests := api.GetSession(env, genericReply, supabaseReply);
      if session.Ok? {
        if session.value.user.Some? {
          currentUser := session.value.user;
          isAuthenticated := true;
          return;
        }
        currentUser := None;
        isAuthenticated := false;
      }
    }

    /** `signIn`: the state changes only when the returned session carries a
        user; the session is handed back either way. */
    method SignIn(env: Environment, email: string, password: string,
                  genericReply: Outcome<AuthSession>, supabaseReply: Outcome<TokenReply>)
      returns (session: Outcome<AuthSession>, request: AuthRequest)
      modifies this, api.storage
      ensures session.Ok? && session.value.user.Some? ==> currentUser == session.value.user && isAuthenticated
      ensures !(session.Ok? && session.value.user.Some?) ==>
        currentUser == old(currentUser) && isAuthenticated == old(isAuthenticated)
      ensures session == SignInResult(env, genericReply, supabaseReply) && request == SignInRequest(env)
      ensures api.storage.available == old(api.storage.available) && api.storage.session == old(api.storage.session)
      ensures api.storage.local ==
        (if session.Ok? && api.storage.available then StoreToken(old(api.storage.local), session.value.accessToken)
         else old(api.storage.local))
      ensures old(Valid()) ==> Valid()
    {
      session, request := api.SignIn(env, email, password, genericReply, supabaseReply);
      if session.Ok? && session.value.user.Some? {
        currentUser := session.value.user;
        isAuthenticated := true;
      }
    }

    /** `resetAuth`. */
    method ResetAuth()
      modifies this
      ensures currentUser.None? && !isAuthenticated && Valid()
    {
      currentUser := None;
      isAuthenticated := false;
    }

    /** `signOut`: signed out, with no token left, once the backend sign-out
        completes; a rejected sign-out changes nothing here. */
    method SignOut(env: Environment, logout: Outcome<()>) returns (r: Outcome<()>, requests: seq<AuthRequest>)
      modifies this, api.storage
      ensures r.Ok? ==> currentUser.None? && !isAuthenticated && api.GetToken().None?
      ensures r.Fail? ==>
        (currentUser == old(currentUser) && isAuthenticated == old(isAuthenticated)
         && api.storage.local == old(api.storage.local))
      ensures r.Fail? <==> ProviderOf(env) == Generic && FilledText(old(api.GetToken())) && logout.Fail?
      ensures api.storage.available == old(api.storage.available) && api.storage.session == old(api.storage.session)
      ensures api.storage.local ==
        (if r.Ok? && api.storage.available then old(api.storage.local) - {StorageKey} else old(api.storage.local))
    {
      r, requests := api.SignOut(env, logout);
      if r.Ok? {
        ResetAuth();
      }
    }

    /** `getSession`: what the backend façade's lookup resolves to with the
        stored token. */
    method GetSession(env: Environment, genericReply: Outcome<Option<AuthUser>>, supabaseReply: Outcome<UserReply>)
      returns (session: Outcome<AuthSession>, requests: seq<AuthRequest>)
      modifies api.storage
      ensures session == SessionResult(env, old(api.GetToken()), genericReply, supabaseReply)
      ensures requests == SessionRequests(env, old(api.GetToken()))
      ensures api.storage.local == SessionStorage(env, old(api.storage.local), old(api.GetToken()), supabaseReply)
      ensures !FilledText(old(api.GetToken())) ==> session == Ok(NoSession) && requests == []
      ensures session.Ok? && session.value.user.Some? ==> FilledText(old(api.GetToken()))
      ensures api.storage.available == old(api.storage.available)
      ensures api.storage.session == old(api.storage.session)
    {
      session, requests := api.GetSession(env, genericReply, supabaseReply);
    }

    /** `forceClearSupabaseSession`: removes the fixed Supabase key from both
        stores and every `sb-…-auth-token` key from local storage; no other
        key changes, and nothing changes when storage throws. */
    method ForceClearSupabaseSession()
      modifies api.storage
      ensures api.storage.available == old(api.storage.available)
      ensures !api.storage.available ==>
        api.storage.local == old(api.storage.local) && api.storage.session == old(api.storage.session)
      ensures api.storage.available ==>
        api.storage.local == WithoutSupabaseKeys(old(api.storage.local))
        && api.storage.session == old(api.storage.session) - {SupabaseSessionKey}
    {
      var store := api.storage;
      if !store.available {
        return;
      }
      FixedKeyIsSupabaseTokenKey();
      store.local := store.local - {SupabaseSessionKey};
      store.session := store.session - {SupabaseSessionKey};
      var start := store.local;
      var pending := start.Keys;
      KeptSoFarEnds(start, old(store.local));
      while pending != {}
        invariant store.local == KeptSoFar(start, pending)
        invariant store.session == old(store.session) - {SupabaseSessionKey}
        invariant store.available
        decreases |pending|
      {
        var key :| key in pending;
        KeptSoFarStep(start, pending, key);
        if SupabaseTokenKey(key) {
          store.local := store.local - {key};
        }
        pending := pending - {key};
      }
    }
  }
}
