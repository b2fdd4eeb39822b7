/** The REST façade over the backend's PostgREST endpoint: how a structured
    query becomes query-string parameters and headers, and which HTTP request
    each of its five operations sends. The network itself is not modelled. */
module ApiService {
  import opened Wrappers
  import opened Text
  import opened KeyValues
  import opened Models

  /** A filter value: `string | number | boolean`. */
  datatype Scalar = Str(s: string) | Num(n: int) | Flag(b: bool)

  /** The text a template literal `${value}` produces for a filter value. */
  function ScalarText(v: Scalar): string {
    match v
    case Str(s) => s
    case Num(n) => IntToString(n)
    case Flag(b) => if b then "true" else "false"
  }

  datatype OrderByOption = OrderByOption(column: string, ascending: Option<bool>)

  /** `orderBy` is either one option or a list of them. */
  datatype OrderBy = One(option: OrderByOption) | Many(options: seq<OrderByOption>)

  /** `QueryOptions`; the record-valued properties are their `Object.entries` lists. */
  datatype QueryOptions = QueryOptions(
    filters: Option<seq<(string, Scalar)>>,
    ilike: Option<seq<(string, string)>>,
    orderBy: Option<OrderBy>,
    limit: Option<int>,
    single: Option<bool>)

  const NoOptions := QueryOptions(None, None, None, None, None)

  /** The configuration the services read from `environment`. */
  datatype Environment = Environment(
    supabaseUrl: string,
    supabaseKey: string,
    authProvider: Option<string>,
    authBaseUrl: Option<string>)

  /** The value of the last entry named `k`: what a run of `set` calls over `es` leaves for `k`. */
  function LastValue<V>(es: seq<(string, V)>, k: string): (r: Option<V>)
    ensures r.None? <==> forall i :: 0 <= i < |es| ==> es[i].0 != k
    ensures r.Some? ==> exists i :: 0 <= i < |es| && es[i] == (k, r.value)
                                    && forall j :: i < j < |es| ==> es[j].0 != k
  {
    if es == [] then None
    else
      var later := LastValue(es[1..], k);
      if later.Some? then
        ghost var i :| 0 <= i < |es[1..]| && es[1..][i] == (k, later.value)
                       && forall j :: i < j < |es[1..]| ==> es[1..][j].0 != k;
        assert es[i + 1] == (k, later.value);
        assert forall j :: i + 1 < j < |es| ==> es[j].0 == es[1..][j - 1].0;
        later
      else if es[0].0 == k then Some(es[0].1)
      else None
  }

  /** The `filters` loop: each entry (k, v) sets k to `eq.v`. */
  function SetFilters(ps: Entries, fs: seq<(string, Scalar)>): Entries
    decreases fs
  {
    if fs == [] then ps else SetFilters(Set(ps, fs[0].0, "eq." + ScalarText(fs[0].1)), fs[1..])
  }

  /** After the `filters` loop, a name holds `eq.` and the value of its last entry,
      and a name without an entry keeps what it had. */
  lemma {:induction false} SetFiltersLookup(ps: Entries, fs: seq<(string, Scalar)>, k: string)
    ensures DistinctKeys(ps) ==> DistinctKeys(SetFilters(ps, fs))
    ensures Lookup(SetFilters(ps, fs), k) ==
      if LastValue(fs, k).Some? then Some("eq." + ScalarText(LastValue(fs, k).value)) else Lookup(ps, k)
    decreases fs
  {
    if fs != [] {
      SetLookup(ps, fs[0].0, "eq." + ScalarText(fs[0].1));
      SetFiltersLookup(Set(ps, fs[0].0, "eq." + ScalarText(fs[0].1)), fs[1..], k);
    }
  }

  /** The `ilike` loop: each entry (k, v) sets k to `ilike.*v*`. */
  function SetIlike(ps: Entries, terms: seq<(string, string)>): Entries
    decreases terms
  {
    if terms == [] then ps else SetIlike(Set(ps, terms[0].0, "ilike.*" + terms[0].1 + "*"), terms[1..])
  }

  lemma {:induction false} SetIlikeLookup(ps: Entries, terms: seq<(string, string)>, k: string)
    ensures DistinctKeys(ps) ==> DistinctKeys(SetIlike(ps, terms))
    ensures Lookup(SetIlike(ps, terms), k) ==
      if LastValue(terms, k).Some? then Some("ilike.*" + LastValue(terms, k).value + "*") else Lookup(ps, k)
    decreases terms
  {
    if terms != [] {
      SetLookup(ps, terms[0].0, "ilike.*" + terms[0].1 + "*");
      SetIlikeLookup(Set(ps, terms[0].0, "ilike.*" + terms[0].1 + "*"), terms[1..], k);
    }
  }

  function OrderList(ob: OrderBy): seq<OrderByOption> {
    match ob
    case One(o) => [o]
    case Many(os) => os
  }

  /** `column.asc` or `column.desc`; a missing `ascending` counts as true. */
  function OrderTerm(o: OrderByOption): string {
    o.column + "." + (if o.ascending.GetOr(true) then "asc" else "desc")
  }

  function OrderTerms(os: seq<OrderByOption>): (ts: seq<string>)
    ensures |ts| == |os| && forall i :: 0 <= i < |os| ==> ts[i] == OrderTerm(os[i])
  {
    if os == [] then [] else [OrderTerm(os[0])] + OrderTerms(os[1..])
  }

  /** The `order` parameter: the terms comma-joined in input order. */
  function OrderValue(ob: OrderBy): string {
    Join(OrderTerms(OrderList(ob)), ',')
  }

  /** Read back, the `order` parameter lists one term per option, in the
      caller's order, each naming its column and its direction. */
  lemma OrderValueRoundTrip(ob: OrderBy)
    requires OrderList(ob) != []
    requires forall i :: 0 <= i < |OrderList(ob)| ==> ',' !in OrderList(ob)[i].column
    ensures var terms := Split(OrderValue(ob), ',');
      && |terms| == |OrderList(ob)|
      && forall i :: 0 <= i < |terms| ==>
           var o := OrderList(ob)[i];
           && terms[i] == o.column + "." + (if o.ascending == Some(false) then "desc" else "asc")
  {
    var os := OrderList(ob);
    var ts := OrderTerms(os);
    forall i | 0 <= i < |ts| ensures ',' !in ts[i] {
      var dir := if os[i].ascending.GetOr(true) then "asc" else "desc";
      assert ts[i] == os[i].column + "." + dir;
    }
    SplitJoin(ts, ',');
  }

  /** Which value `buildParams` leaves under each parameter name, stated by
      priority instead of by the order of the `set` calls: `limit`, then
      `order`, then the last `ilike` entry, then the last `filters` entry. */
  function ExpectedParam(o: QueryOptions, k: string): Option<string> {
    if k == "limit" && o.limit.Some? then Some(IntToString(o.limit.value))
    else if k == "order" && o.orderBy.Some? then Some(OrderValue(o.orderBy.value))
    else if o.ilike.Some? && LastValue(o.ilike.value, k).Some? then
      Some("ilike.*" + LastValue(o.ilike.value, k).value + "*")
    else if o.filters.Some? && LastValue(o.filters.value, k).Some? then
      Some("eq." + ScalarText(LastValue(o.filters.value, k).value))
    else None
  }

  /** `buildParams`, stage by stage: the `filters` loop from no parameters,
      then the `ilike` loop, then `order`, then `limit`. */
  function FilterStage(o: QueryOptions): Entries {
    if o.filters.Some? then SetFilters([], o.filters.value) else []
  }

  function IlikeStage(o: QueryOptions): Entries {
    if o.ilike.Some? then SetIlike(FilterStage(o), o.ilike.value) else FilterStage(o)
  }

  function OrderStage(o: QueryOptions): Entries {
    if o.orderBy.Some? then Set(IlikeStage(o), "order", OrderValue(o.orderBy.value)) else IlikeStage(o)
  }

  /** `buildParams`: the query-string parameters of a query. */
  function BuildParams(o: QueryOptions): Entries {
    if o.limit.Some? then Set(OrderStage(o), "limit", IntToString(o.limit.value)) else OrderStage(o)
  }

  /** The filter and ilike stages leave the last ilike entry of a name, else
      its last filter entry, and never a name twice. */
  lemma SearchStages(o: QueryOptions, k: string)
    ensures DistinctKeys(IlikeStage(o))
    ensures Lookup(IlikeStage(o), k) ==
      if o.ilike.Some? && LastValue(o.ilike.value, k).Some? then
        Some("ilike.*" + LastValue(o.ilike.value, k).value + "*")
      else if o.filters.Some? && LastValue(o.filters.value, k).Some? then
        Some("eq." + ScalarText(LastValue(o.filters.value, k).value))
      else None
  {
    if o.filters.Some? {
      SetFiltersLookup([], o.filters.value, k);
    }
    if o.ilike.Some? {
      SetIlikeLookup(FilterStage(o), o.ilike.value, k);
    }
  }

  /** Whatever the order of the `set` calls, `buildParams` leaves under each name
      exactly the value the priority rule gives it, and never a name twice. */
  lemma BuildParamsMeetsSpec(o: QueryOptions, k: string)
    ensures DistinctKeys(BuildParams(o))
    ensures Lookup(BuildParams(o), k) == ExpectedParam(o, k)
  {
    SearchStages(o, k);
    if o.orderBy.Some? {
      SetLookup(IlikeStage(o), "order", OrderValue(o.orderBy.value));
    }
    if o.limit.Some? {
      SetLookup(OrderStage(o), "limit", IntToString(o.limit.value));
    }
  }

  /** A query yields no parameter at all exactly when it has no filter entry,
      no ilike entry, no ordering and no limit. */
  lemma EmptyParamsIff(o: QueryOptions)
    ensures BuildParams(o) == [] <==>
      && (o.filters.None? || o.filters.value == [])
      && (o.ilike.None? || o.ilike.value == [])
      && o.orderBy.None?
      && o.limit.None?
  {
    var p := BuildParams(o);
    if o.filters.Some? && o.filters.value != [] {
      var k := o.filters.value[0].0;
      BuildParamsMeetsSpec(o, k);
      assert ExpectedParam(o, k).Some?;
    } else if o.ilike.Some? && o.ilike.value != [] {
      var k := o.ilike.value[0].0;
      BuildParamsMeetsSpec(o, k);
      assert ExpectedParam(o, k).Some?;
    } else if o.orderBy.Some? {
      BuildParamsMeetsSpec(o, "order");
    } else if o.limit.Some? {
      BuildParamsMeetsSpec(o, "limit");
    }
  }

  /** Unfolding facts the services' fixed queries are computed with. */
  lemma SetFiltersOne(ps: Entries, k: string, v: Scalar)
    ensures SetFilters(ps, [(k, v)]) == Set(ps, k, "eq." + ScalarText(v))
  {
    assert [(k, v)][1..] == [];
  }

  lemma SetIlikeOne(ps: Entries, k: string, v: string)
    ensures SetIlike(ps, [(k, v)]) == Set(ps, k, "ilike.*" + v + "*")
  {
    assert [(k, v)][1..] == [];
  }

  lemma {:induction false} SetNewKey(es: Entries, k: string, v: string)
    requires forall i :: 0 <= i < |es| ==> es[i].0 != k
    ensures Set(es, k, v) == es + [(k, v)]
  {
    if es != [] {
      assert es == [es[0]] + es[1..];
      SetNewKey(es[1..], k, v);
    }
  }

  /** The options `update` and `delete` build from their match record. */
  function MatchOptions(matching: seq<(string, Scalar)>): QueryOptions {
    NoOptions.(filters := Some(matching))
  }

  /** A match record becomes `eq.` filters only: every name it holds and nothing else. */
  lemma MatchParams(matching: seq<(string, Scalar)>, k: string)
    ensures Lookup(BuildParams(MatchOptions(matching)), k) ==
      if LastValue(matching, k).Some? then Some("eq." + ScalarText(LastValue(matching, k).value)) else None
  {
    BuildParamsMeetsSpec(MatchOptions(matching), k);
  }

  function StripTrailingSlashes(s: string): (r: string)
    ensures r <= s
    ensures r == [] || r[|r| - 1] != '/'
    ensures forall i :: |r| <= i < |s| ==> s[i] == '/'
  {
    if s != [] && s[|s| - 1] == '/' then StripTrailingSlashes(s[..|s| - 1]) else s
  }

  /** `baseUrl`: the configured URL without its trailing slashes, then `/rest/v1`. */
  function BaseUrl(env: Environment): string {
    StripTrailingSlashes(env.supabaseUrl) + "/rest/v1"
  }

  /** However many slashes the configured URL ends with, the base URL is the same. */
  lemma {:induction false} BaseUrlIgnoresTrailingSlashes(env: Environment, n: nat)
    ensures BaseUrl(env.(supabaseUrl := env.supabaseUrl + seq(n, _ => '/'))) == BaseUrl(env)
  {
    if n > 0 {
      var longer := env.supabaseUrl + seq(n, _ => '/');
      var shorter := env.supabaseUrl + seq(n - 1, _ => '/');
      assert longer[|longer| - 1] == '/';
      assert longer[..|longer| - 1] == shorter;
      assert StripTrailingSlashes(longer) == StripTrailingSlashes(shorter);
      BaseUrlIgnoresTrailingSlashes(env, n - 1);
    } else {
      assert env.supabaseUrl + seq(n, _ => '/') == env.supabaseUrl;
    }
  }

  const PgrstObject := "application/vnd.pgrst.object+json"
  const ReturnRepresentation := "return=representation"

  /** `defaultHeaders`. */
  function DefaultHeaders(env: Environment): Entries {
    [("apikey", env.supabaseKey), ("Content-Type", "application/json")]
  }

  /** `getAuthHeaders`: the default headers, plus a bearer token when one is stored. */
  function AuthHeaders(env: Environment, token: Option<string>): (h: Entries)
    ensures DistinctKeys(h)
    ensures Lookup(h, "apikey") == Some(env.supabaseKey)
    ensures Lookup(h, "Content-Type") == Some("application/json")
    ensures Lookup(h, "Authorization") == if FilledText(token) then Some("Bearer " + token.value) else None
    ensures Keys(h) == {"apikey", "Content-Type"} + (if FilledText(token) then {"Authorization"} else {})
  {
    var headers := DefaultHeaders(env);
    assert Keys(headers) == {"apikey", "Content-Type"} by {
      assert headers[0].0 == "apikey" && headers[1].0 == "Content-Type";
    }
    if FilledText(token) then
      SetLookup(headers, "Authorization", "Bearer " + token.value);
      Set(headers, "Authorization", "Bearer " + token.value)
    else headers
  }

  datatype RequestOptions = RequestOptions(headers: Entries, params: Entries)

  /** `buildRequestOptions`: the auth headers and the query's parameters. */
  function BuildRequestOptions(env: Environment, token: Option<string>, o: QueryOptions): (r: RequestOptions)
    ensures r.params == BuildParams(o)
  {
    var headers := AuthHeaders(env, token);
    if o.single == Some(true) then
      RequestOptions(Set(Set(headers, "Accept", PgrstObject), "Prefer", ReturnRepresentation), BuildParams(o))
    else
      RequestOptions(headers, BuildParams(o))
  }

  /** A `single` query also asks for one JSON object and for the stored
      representation; every other header is the auth headers' own. */
  lemma RequestOptionsHeaders(env: Environment, token: Option<string>, o: QueryOptions)
    ensures var h := BuildRequestOptions(env, token, o).headers;
      && DistinctKeys(h)
      && Lookup(h, "Accept") == (if o.single == Some(true) then Some(PgrstObject) else None)
      && Lookup(h, "Prefer") == (if o.single == Some(true) then Some(ReturnRepresentation) else None)
      && forall k :: k != "Accept" && k != "Prefer" ==> Lookup(h, k) == Lookup(AuthHeaders(env, token), k)
  {
    var headers := AuthHeaders(env, token);
    if o.single == Some(true) {
      AcceptAndPrefer(headers);
    } else {
      AuthHeadersOnly(env, token);
    }
  }

  lemma AcceptAndPrefer(headers: Entries)
    requires DistinctKeys(headers)
    ensures var h := Set(Set(headers, "Accept", PgrstObject), "Prefer", ReturnRepresentation);
      && DistinctKeys(h)
      && Lookup(h, "Accept") == Some(PgrstObject)
      && Lookup(h, "Prefer") == Some(ReturnRepresentation)
      && forall k :: k != "Accept" && k != "Prefer" ==> Lookup(h, k) == Lookup(headers, k)
  {
    SetLookup(headers, "Accept", PgrstObject);
    SetLookup(Set(headers, "Accept", PgrstObject), "Prefer", ReturnRepresentation);
  }

  /** The auth headers name neither `Accept` nor `Prefer`. */
  lemma AuthHeadersOnly(env: Environment, token: Option<string>)
    ensures Lookup(AuthHeaders(env, token), "Accept") == None
    ensures Lookup(AuthHeaders(env, token), "Prefer") == None
  {
    LookupKeys(AuthHeaders(env, token), "Accept");
    LookupKeys(AuthHeaders(env, token), "Prefer");
  }

  /** What an insert or update sends as its JSON body. */
  datatype Payload =
    | ClienteRows(clientes: seq<ClienteCreate>)
    | ViajeRows(viajes: seq<ViajeCreate>)
    | ClienteChanges(cliente: ClienteUpdate)
    | ViajeChanges(viaje: ViajeUpdate)

  /** A call of one of the five public operations of the façade. */
  datatype ApiCall =
    | GetList(table: string, options: QueryOptions)
    | GetSingle(table: string, options: QueryOptions)
    | Insert(table: string, payload: Payload)
    | Update(table: string, matching: seq<(string, Scalar)>, payload: Payload)
    | Delete(table: string, matching: seq<(string, Scalar)>)

  datatype HttpMethod = GET | POST | PATCH | DELETE

  datatype HttpRequest = HttpRequest(
    verb: HttpMethod, url: string, headers: Entries, params: Entries, body: Option<Payload>)

  /** The HTTP request each operation sends. */
  function Request(env: Environment, token: Option<string>, call: ApiCall): (r: HttpRequest)
    ensures r.url == BaseUrl(env) + "/" + call.table
    ensures call.GetList? ==> r.verb == GET && r.params == BuildParams(call.options)
    ensures call.GetSingle? ==> r.verb == GET && r.params == BuildParams(call.options.(single := Some(true)))
    ensures (call.Insert? || call.Update?) ==> r.body == Some(call.payload)
    ensures call.Insert? ==> r.verb == POST && r.params == []
    ensures (call.Update? || call.Delete?) ==> r.params == BuildParams(MatchOptions(call.matching))
    ensures call.Update? ==> r.verb == PATCH
    ensures call.Delete? ==> r.verb == DELETE && r.body == None
  {
    var url := BaseUrl(env) + "/" + call.table;
    match call
    case GetList(_, o) =>
      var ro := BuildRequestOptions(env, token, o);
      HttpRequest(GET, url, ro.headers, ro.params, None)
    case GetSingle(_, o) =>
      var ro := BuildRequestOptions(env, token, o.(single := Some(true)));
      HttpRequest(GET, url, ro.headers, ro.params, None)
    case Insert(_, payload) =>
      HttpRequest(POST, url, Set(AuthHeaders(env, token), "Prefer", ReturnRepresentation), [], Some(payload))
    case Update(_, matching, payload) =>
      HttpRequest(PATCH, url, Set(AuthHeaders(env, token), "Prefer", ReturnRepresentation),
                  BuildParams(MatchOptions(matching)), Some(payload))
    case Delete(_, matching) =>
      HttpRequest(DELETE, url, AuthHeaders(env, token), BuildParams(MatchOptions(matching)), None)
  }

  /** Every request authenticates with the project key and, when there is a
      token, the bearer token; a single-row read asks for one object and a
      write asks for the written rows back. */
  lemma RequestHeaders(env: Environment, token: Option<string>, call: ApiCall)
    ensures var h := Request(env, token, call).headers;
      && DistinctKeys(h)
      && Lookup(h, "apikey") == Some(env.supabaseKey)
      && Lookup(h, "Authorization") == (if FilledText(token) then Some("Bearer " + token.value) else None)
      && (call.GetSingle? ==> Lookup(h, "Accept") == Some(PgrstObject))
      && (call.Insert? || call.Update? ==> Lookup(h, "Prefer") == Some(ReturnRepresentation))
  {
    match call
    case GetList(_, o) => QueryHeaders(env, token, o);
    case GetSingle(_, o) => QueryHeaders(env, token, o.(single := Some(true)));
    case Insert(_, _) => WriteHeaders(env, token);
    case Update(_, _, _) => WriteHeaders(env, token);
    case Delete(_, _) =>
  }

  lemma QueryHeaders(env: Environment, token: Option<string>, o: QueryOptions)
    ensures var h := BuildRequestOptions(env, token, o).headers;
      && DistinctKeys(h)
      && Lookup(h, "apikey") == Some(env.supabaseKey)
      && Lookup(h, "Authorization") == (if FilledText(token) then Some("Bearer " + token.value) else None)
      && (o.single == Some(true) ==> Lookup(h, "Accept") == Some(PgrstObject))
  {
    RequestOptionsHeaders(env, token, o);
  }

  lemma WriteHeaders(env: Environment, token: Option<string>)
    ensures var h := Set(AuthHeaders(env, token), "Prefer", ReturnRepresentation);
      && DistinctKeys(h)
      && Lookup(h, "apikey") == Some(env.supabaseKey)
      && Lookup(h, "Authorization") == (if FilledText(token) then Some("Bearer " + token.value) else None)
      && Lookup(h, "Prefer") == Some(ReturnRepresentation)
  {
    SetLookup(AuthHeaders(env, token), "Prefer", ReturnRepresentation);
  }
}
