/** The sign-in backend façade: a generic REST backend when one is configured,
    the Supabase auth endpoints otherwise; the access token lives in the
    browser's local storage under one fixed key. */
module AuthApi {
  import opened Wrappers
  import opened Models
  import opened ApiService

  const StorageKey := "app-auth-token"

  datatype AuthUser = AuthUser(id: string, email: string)

  datatype AuthSession = AuthSession(accessToken: Option<string>, user: Option<AuthUser>)

  const NoSession := AuthSession(None, None)

  /** The body of Supabase's password-grant response, as far as it is read. */
  datatype TokenReply = TokenReply(access_token: Option<string>, user: Option<AuthUser>)

  /** The body of Supabase's current-user response, as far as it is read. */
  datatype UserReply = UserReply(id: Option<string>, email: string)

  datatype Provider = Generic | Supabase

  /** One request to an auth endpoint: method, URL, and the `apikey` and
      bearer token it carries. */
  datatype AuthRequest = AuthRequest(verb: HttpMethod, url: string, apikey: Option<string>, bearer: Option<string>)

  /** The generic backend is used exactly when it is named and has a base URL. */
  function ProviderOf(env: Environment): (p: Provider)
    ensures p == Generic <==> env.authProvider == Some("generic") && FilledText(env.authBaseUrl)
  {
    if env.authProvider == Some("generic") && FilledText(env.authBaseUrl) then Generic else Supabase
  }

  function GenericUrl(env: Environment, path: string): string
    requires ProviderOf(env) == Generic
  {
    StripTrailingSlashes(env.authBaseUrl.value) + path
  }

  function SupabaseUrl(env: Environment, path: string): string {
    StripTrailingSlashes(env.supabaseUrl) + path
  }

  /** The user a Supabase current-user reply names: one only when it carries an id. */
  function SupabaseUser(reply: UserReply): (u: Option<AuthUser>)
    ensures u.Some? <==> FilledText(reply.id)
    ensures u.Some? ==> u.value.id == reply.id.value && u.value.email == reply.email
  {
    if FilledText(reply.id) then Some(AuthUser(reply.id.value, reply.email)) else None
  }

  /** The user request `getSession` sends with the stored token: none without
      a token, else one GET carrying the token to the provider's user endpoint. */
  function SessionRequests(env: Environment, token: Option<string>): (rs: seq<AuthRequest>)
    ensures rs == [] <==> !FilledText(token)
    ensures rs != [] ==> |rs| == 1 && rs[0].verb == GET && rs[0].bearer == token
    ensures rs != [] ==> (rs[0].apikey.Some? <==> ProviderOf(env) == Supabase)
  {
    if !FilledText(token) then []
    else if ProviderOf(env) == Generic then [AuthRequest(GET, GenericUrl(env, "/session"), None, token)]
    else [AuthRequest(GET, SupabaseUrl(env, "/auth/v1/user"), Some(env.supabaseKey), token)]
  }

  /** What `getSession` resolves to with the stored token and the provider's
      answer: no session without a token; the generic backend's answer, or
      its rejection; Supabase's user, or no session when its request fails.
      A session carries a user only when there is a token, and then that token. */
  function SessionResult(env: Environment, token: Option<string>,
                         genericReply: Outcome<Option<AuthUser>>, supabaseReply: Outcome<UserReply>)
    : (r: Outcome<AuthSession>)
    ensures !FilledText(token) ==> r == Ok(NoSession)
    ensures r.Fail? <==> FilledText(token) && ProviderOf(env) == Generic && genericReply.Fail?
    ensures r.Ok? && r.value.user.Some? ==> FilledText(token) && r.value.accessToken == token
    ensures FilledText(token) && ProviderOf(env) == Generic && genericReply.Ok? ==>
      r.Ok? && r.value.user == genericReply.value
    ensures FilledText(token) && ProviderOf(env) == Supabase ==>
      r.Ok? && (r.value.user.Some? <==> supabaseReply.Ok? && FilledText(supabaseReply.value.id))
  {
    if !FilledText(token) then Ok(NoSession)
    else if ProviderOf(env) == Generic then
      (if genericReply.Ok? then Ok(AuthSession(token, genericReply.value)) else Fail)
    else
      (if supabaseReply.Ok? then Ok(AuthSession(token, SupabaseUser(supabaseReply.value))) else Ok(NoSession))
  }

  /** The login request `signIn` sends: a POST to the provider's login endpoint. */
  function SignInRequest(env: Environment): (q: AuthRequest)
    ensures q.verb == POST && q.bearer.None?
    ensures q.apikey.Some? <==> ProviderOf(env) == Supabase
  {
    if ProviderOf(env) == Generic then AuthRequest(POST, GenericUrl(env, "/login"), None, None)
    else AuthRequest(POST, SupabaseUrl(env, "/auth/v1/token?grant_type=password"), Some(env.supabaseKey), None)
  }

  /** What `signIn` resolves to: the generic backend's session as it came, or
      Supabase's token and user, a failed request being rejected either way. */
  function SignInResult(env: Environment, genericReply: Outcome<AuthSession>, supabaseReply: Outcome<TokenReply>)
    : (r: Outcome<AuthSession>)
    ensures ProviderOf(env) == Generic ==> r == genericReply
    ensures r.Fail? <==> (if ProviderOf(env) == Generic then genericReply.Fail? else supabaseReply.Fail?)
    ensures ProviderOf(env) == Supabase && supabaseReply.Ok? ==>
      r.value.accessToken == supabaseReply.value.access_token && r.value.user == supabaseReply.value.user
  {
    if ProviderOf(env) == Generic then genericReply
    else if supabaseReply.Ok? then
      Ok(AuthSession(supabaseReply.value.access_token, supabaseReply.value.user))
    else Fail
  }

  /** The local store after `persistToken` on an available storage: a
      non-empty token under the token key, otherwise the key removed; no
      other key changes. */
  function StoreToken(local: map<string, string>, token: Option<string>): (m: map<string, string>)
    ensures StorageKey in m <==> FilledText(token)
    ensures FilledText(token) ==> m[StorageKey] == token.value
    ensures forall k :: k != StorageKey ==> (k in m <==> k in local)
    ensures forall k :: k != StorageKey && k in m ==> m[k] == local[k]
  {
    if FilledText(token) then local[StorageKey := token.value] else local - {StorageKey}
  }

  /** The local store after `getSession` with this token: only a failed
      Supabase lookup clears the token key, and no other key ever changes. */
  function SessionStorage(env: Environment, local: map<string, string>, token: Option<string>,
                          supabaseReply: Outcome<UserReply>): (m: map<string, string>)
    ensures m.Keys <= local.Keys && local.Keys - m.Keys <= {StorageKey}
    ensures forall k :: k in m ==> m[k] == local[k]
    ensures StorageKey !in m <==>
      StorageKey !in local || (FilledText(token) && ProviderOf(env) == Supabase && supabaseReply.Fail?)
  {
    if FilledText(token) && ProviderOf(env) == Supabase && supabaseReply.Fail? then local - {StorageKey} else local
  }

  /** `localStorage` and `sessionStorage`; when storage is not available
      every access throws. */
  class WebStorage {
    var local: map<string, string>
    var session: map<string, string>
    var available: bool

    constructor (local: map<string, string>, session: map<string, string>, available: bool)
      ensures this.local == local && this.session == session && this.available == available
    {
      this.local, this.session, this.available := local, session, available;
    }
  }

  class AuthApiService {
    const storage: WebStorage

    constructor (storage: WebStorage)
      ensures this.storage == storage
    {
      this.storage := storage;
    }

    /** `getToken`: the stored token, or nothing when storage throws. */
    function GetToken(): (t: Option<string>)
      reads storage
      ensures t.Some? <==> storage.available && StorageKey in storage.local
      ensures t.Some? ==> t.value == storage.local[StorageKey]
    {
      if storage.available && StorageKey in storage.local then Some(storage.local[StorageKey]) else None
    }

    /** `persistToken`: a non-empty token is stored, anything else removes the
        key; a storage failure is ignored. Only the token key changes. */
    method PersistToken(token: Option<string>)
      modifies storage
      ensures storage.available == old(storage.available) && storage.session == old(storage.session)
      ensures !storage.available ==> storage.local == old(storage.local)
      ensures storage.available && FilledText(token) ==> storage.local == old(storage.local)[StorageKey := token.value]
      ensures storage.available && !FilledText(token) ==> storage.local == old(storage.local) - {StorageKey}
      ensures storage.available ==> GetToken() == (if FilledText(token) then token else None)
      ensures storage.local == (if storage.available then StoreToken(old(storage.local), token) else old(storage.local))
    {
      if !storage.available {
        return;
      }
      if FilledText(token) {
        storage.local := storage.local[StorageKey := token.value];
      } else {
        storage.local := storage.local - {StorageKey};
      }
    }

    /** `clearToken`: afterwards no token can be read. */
    method ClearToken()
      modifies storage
      ensures storage.available == old(storage.available) && storage.session == old(storage.session)
      ensures storage.local == (if storage.available then old(storage.local) - {StorageKey} else old(storage.local))
      ensures GetToken().None?
    {
      PersistToken(None);
    }

    /** `signIn`, given how the provider's login request settles. A failed
        request propagates and leaves the token alone; a successful one
        stores the returned token, or removes it when none came back. */
    method SignIn(env: Environment, email: string, password: string,
                  genericReply: Outcome<AuthSession>, supabaseReply: Outcome<TokenReply>)
      returns (r: Outcome<AuthSession>, request: AuthRequest)
      modifies storage
      ensures storage.available == old(storage.available) && storage.session == old(storage.session)
      ensures ProviderOf(env) == Generic ==>
        (request == AuthRequest(POST, GenericUrl(env, "/login"), None, None) && r == genericReply)
      ensures ProviderOf(env) == Supabase ==>
        request == AuthRequest(POST, SupabaseUrl(env, "/auth/v1/token?grant_type=password"), Some(env.supabaseKey), None)
      ensures ProviderOf(env) == Supabase && supabaseReply.Ok? ==>
        r == Ok(AuthSession(supabaseReply.value.access_token, supabaseReply.value.user))
      ensures ProviderOf(env) == Supabase && supabaseReply.Fail? ==> r.Fail?
      ensures r == SignInResult(env, genericReply, supabaseReply) && request == SignInRequest(env)
      ensures r.Fail? ==> storage.local == old(storage.local)
      ensures r.Ok? && storage.available ==>
        GetToken() == (if FilledText(r.value.accessToken) then r.value.accessToken else None)
      ensures storage.local ==
        (if r.Ok? && storage.available then StoreToken(old(storage.local), r.value.accessToken) else old(storage.local))
    {
      if ProviderOf(env) == Generic {
        request := AuthRequest(POST, GenericUrl(env, "/login"), None, None);
        r := genericReply;
        if genericReply.Ok? {
          PersistToken(genericReply.value.accessToken);
        }
        return;
      }
      request := AuthRequest(POST, SupabaseUrl(env, "/auth/v1/token?grant_type=password"), Some(env.supabaseKey), None);
      match supabaseReply {
        case Fail =>
          r := Fail;
        case Ok(resp) =>
          PersistToken(resp.access_token);
          r := Ok(AuthSession(resp.access_token, resp.user));
      }
    }

    /** `signOut`, given how the logout request settles. With no token no
        request is made. On the generic backend a failed logout propagates
        before the token is cleared; on Supabase the failure is ignored and
        the token is always cleared. */
    method SignOut(env: Environment, logout: Outcome<()>) returns (r: Outcome<()>, requests: seq<AuthRequest>)
      modifies storage
      ensures storage.available == old(storage.available) && storage.session == old(storage.session)
      ensures !FilledText(old(GetToken())) ==> requests == []
      ensures FilledText(old(GetToken())) ==>
        (|requests| == 1 && requests[0].verb == POST && requests[0].bearer == old(GetToken()))
      ensures FilledText(old(GetToken())) && ProviderOf(env) == Generic ==>
        requests[0] == AuthRequest(POST, GenericUrl(env, "/logout"), None, old(GetToken()))
      ensures FilledText(old(GetToken())) && ProviderOf(env) == Supabase ==>
        requests[0] == AuthRequest(POST, SupabaseUrl(env, "/auth/v1/logout"), Some(env.supabaseKey), old(GetToken()))
      ensures r.Fail? <==> ProviderOf(env) == Generic && FilledText(old(GetToken())) && logout.Fail?
      ensures r.Fail? ==> storage.local == old(storage.local)
      ensures r.Ok? ==> GetToken().None?
      ensures storage.local ==
        (if r.Ok? && storage.available then old(storage.local) - {StorageKey} else old(storage.local))
    {
      var token := GetToken();
      requests := [];
      if ProviderOf(env) == Generic {
        if FilledText(token) {
          requests := [AuthRequest(POST, GenericUrl(env, "/logout"), None, token)];
          if logout.Fail? {
            return Fail, requests;
          }
        }
        ClearToken();
        return Ok(()), requests;
      }
      if FilledText(token) {
        requests := [AuthRequest(POST, SupabaseUrl(env, "/auth/v1/logout"), Some(env.supabaseKey), token)];
      }
      ClearToken();
      r := Ok(());
    }

    /** `getSession`, given how the provider's user request settles. No token
        means no session and no request. The generic backend's failure
        propagates; a Supabase failure clears the token and yields no session. */
    method GetSession(env: Environment, genericReply: Outcome<Option<AuthUser>>, supabaseReply: Outcome<UserReply>)
      returns (r: Outcome<AuthSession>, requests: seq<AuthRequest>)
      modifies storage
      ensures storage.available == old(storage.available) && storage.session == old(storage.session)
      ensures !FilledText(old(GetToken())) ==>
        (r == Ok(NoSession) && requests == [] && storage.local == old(storage.local))
      ensures FilledText(old(GetToken())) && ProviderOf(env) == Generic ==>
        (requests == [AuthRequest(GET, GenericUrl(env, "/session"), None, old(GetToken()))]
         && storage.local == old(storage.local)
         && r == (if genericReply.Ok? then Ok(AuthSession(old(GetToken()), genericReply.value)) else Fail))
      ensures FilledText(old(GetToken())) && ProviderOf(env) == Supabase ==>
        requests == [AuthRequest(GET, SupabaseUrl(env, "/auth/v1/user"), Some(env.supabaseKey), old(GetToken()))]
      ensures FilledText(old(GetToken())) && ProviderOf(env) == Supabase && supabaseReply.Ok? ==>
        (storage.local == old(storage.local) && r.Ok? && r.value.accessToken == old(GetToken())
         && (r.value.user.Some? <==> FilledText(supabaseReply.value.id)))
      ensures FilledText(old(GetToken())) && ProviderOf(env) == Supabase && supabaseReply.Fail? ==>
        (r == Ok(NoSession) && GetToken().None?)
      ensures r == SessionResult(env, old(GetToken()), genericReply, supabaseReply)
      ensures requests == SessionRequests(env, old(GetToken()))
      ensures storage.local == SessionStorage(env, old(storage.local), old(GetToken()), supabaseReply)
    {
      var token := GetToken();
      if !FilledText(token) {
        return Ok(NoSession), [];
      }
      if ProviderOf(env) == Generic {
        requests := [AuthRequest(GET, GenericUrl(env, "/session"), None, token)];
        match genericReply {
          case Fail => r := Fail;
          case Ok(user) => r := Ok(AuthSession(token, user));
        }
        return;
      }
      requests := [AuthRequest(GET, SupabaseUrl(env, "/auth/v1/user"), Some(env.supabaseKey), token)];
      match supabaseReply {
        case Ok(resp) =>
          r := Ok(AuthSession(token, SupabaseUser(resp)));
        case Fail =>
          ClearToken();
          r := Ok(NoSession);
      }
    }
  }
}
