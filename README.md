# deliver-app, modelled in Dafny

deliver-app is a small Angular application for a parcel courier. It keeps
two tables in a Supabase/PostgREST backend: `viajes` (trips) and `clientes`
(the customers' shipments on a trip). Staff sign in, manage trips and
customers, tick deliveries off, and print a manifest and address labels as
PDF. Customers can look up their own shipments on the public home page.

This project models the core of the application and proves properties of it:

- **The PDF layout engine** (`clientes-list-service.ts`). The jsPDF document
  becomes a trace of drawing events (`PdfEvent`): the manifest's header
  line, its rule, one row per customer, the label rectangles with their five
  texts, and the page breaks. Both generators are imperative methods whose
  loops are proved equal to recursive definitions of the document. Lemmas
  about those definitions prove:
  - the header names the eight columns;
  - the rows and the labels print the selection in order, each customer once;
  - every manifest row lies between the margin and `pageHeight - 15`;
  - on any page at least 100 units high, every label stays inside the
    margins and the labels alternate between the left and right columns;
  - the column widths fill the table exactly;
  - the customer's number and the trip id can be read back from the
    number cell and the file name.
  - the phone column is printed as the program writes it, with
    `+ undefined` for a customer without a phone; the intended row is
    defined beside it (see Findings).
- **The REST façade** (`api.service.ts`) and the two table services. The
  façade turns a structured query into query-string parameters and headers.
  The services fix the query each operation sends.
  - Angular's `HttpParams`/`HttpHeaders` are modelled as ordered pair lists
    whose `set` replaces a name in place or appends it (`KeyValues`).
  - `buildParams` is proved equal, name by name, to a priority rule: the
    limit, then the ordering, then the last `ilike` term, then the last
    filter. It never repeats a name.
  - The `order` value splits back into one term per ordering option.
  - Each service operation is proved to produce its exact query string.
  - Every request carries the API key and, when a token is stored, the
    bearer token.
- **Validators, statistics and page state** (home page, customer and trip
  forms, trip list, customer list). These are classes whose methods update
  their fields as the components do. Each awaited request becomes an
  `Outcome` parameter: the reply, or a rejection.
  - Validation returns the first failing check's message.
  - Edit payloads are proved to leave untouched rows unchanged.
  - The home page's de-duplication is proved equal to an independent
    seen-set definition. It keeps order, never repeats an id, keeps every
    id, and applying it twice changes nothing.
  - The delivered/pending counts partition the customers, overall and per
    trip. The per-trip package sums add up to the total.
  - The delivered percentage is the nearest whole percentage of the exact
    ratio, with halves rounded up. The program rounds a floating-point
    product instead, which can come out one lower at an exact half.
  - Toggling a delivery is its own inverse and matches what the backend
    stores.
- **Authentication** (`auth-api.service.ts`, `auth.service.ts`,
  `auth.guard.ts`). Browser storage is a class holding `localStorage` and
  `sessionStorage` as maps, plus a flag for storage that throws.
  - Sign-in, sign-out and session lookup are proved against both backends:
    the generic REST backend and Supabase.
  - The signed-in flag and the current user stay in step.
  - The forced session cleanup removes exactly the `sb-…-auth-token` keys.
  - The route guard never returns a plain `false`: it lets the navigation
    through or redirects to `/login`.

Modules follow the source files. `Wrappers`, `Text` (JavaScript `trim`,
number formatting, `join`/`split`), `KeyValues`, `Models` (the records of
`cliente.model.ts` and `viaje.model.ts`) and `Stats` (the counts shared by
the two list pages) are shared building blocks.

## Model

| member | source | states |
|---|---|---|
| `Text.Trim` | src/app/components/home/home.component.ts:24 | `trim()` yields a slice of the input with no JavaScript whitespace at either end, and everything cut off on either side is whitespace |
| `Text.TrimEmptyIff` | src/app/components/home/home.component.ts:24 | `!s.trim()` holds exactly when every character is whitespace |
| `Text.IntToStringRoundTrip` | src/app/services/api.service.ts:117 | `String(n)` parses back to `n`, so distinct numbers give distinct texts |
| `Text.SplitJoin` | src/app/services/api.service.ts:113 | splitting a comma-join gives the pieces back when no piece holds a comma |
| `KeyValues.Set` | src/app/services/api.service.ts:99 | after `set`, the pair is present and the list grew by at most one |
| `KeyValues.SetLookup` | src/app/services/api.service.ts:95-120 | after `set(k, v)`, `k` reads `v` and every other name keeps its value; no name is doubled; exactly `k` joins the names |
| `KeyValues.LookupKeys` | src/app/services/api.service.ts:95-120 | a name has a value exactly when it is among the names |
| `KeyValues.LookupDetermines` | src/app/services/api.service.ts:95-120 | two duplicate-free lists that agree on every lookup have the same names and length |
| `ApiService.LastValue` | src/app/services/api.service.ts:98-100 | the value a run of `set` calls leaves for a name is that of its last entry; none when no entry names it |
| `ApiService.SetFiltersLookup` | src/app/services/api.service.ts:97-101 | after the filters loop, a name holds `eq.` plus its last value, others keep theirs, and no name is doubled |
| `ApiService.SetIlikeLookup` | src/app/services/api.service.ts:103-108 | after the ilike loop, a name holds `ilike.*term*` for its last term, others keep theirs, no name doubled |
| `ApiService.OrderTerms` | src/app/services/api.service.ts:111-112 | one `column.asc`/`column.desc` term per option, in the caller's order |
| `ApiService.OrderValueRoundTrip` | src/app/services/api.service.ts:110-114 | the `order` value splits back into one term per option, in order, with a missing `ascending` read as ascending |
| `ApiService.SearchStages` | src/app/services/api.service.ts:97-108 | after filters and ilike, a name holds its last ilike term, else its last filter, else nothing |
| `ApiService.BuildParamsMeetsSpec` | src/app/services/api.service.ts:94-121 | `buildParams` never repeats a name, and each name holds exactly what the priority rule (limit, order, ilike, filter) gives |
| `ApiService.EmptyParamsIff` | src/app/services/api.service.ts:94-121 | no parameter at all exactly when there is no filter, no ilike term, no ordering and no limit |
| `ApiService.MatchParams` | src/app/services/api.service.ts:60-73 | an update's or delete's match record becomes `eq.` filters on exactly its names |
| `ApiService.SetNewKey` | src/app/services/api.service.ts:113-117 | setting a name not yet present appends it at the end |
| `ApiService.StripTrailingSlashes` | src/app/services/api.service.ts:24 | the URL loses exactly its trailing slashes |
| `ApiService.BaseUrlIgnoresTrailingSlashes` | src/app/services/api.service.ts:24 | any number of trailing slashes on the configured URL gives the same base URL |
| `ApiService.AuthHeaders` | src/app/services/api.service.ts:85-92 | the API key and JSON content type always; `Bearer <token>` exactly when a non-empty token is stored; no other header |
| `ApiService.BuildRequestOptions` | src/app/services/api.service.ts:75-83 | the parameters are `buildParams` of the query |
| `ApiService.RequestOptionsHeaders` | src/app/services/api.service.ts:75-83 | a `single` query adds the object `Accept` and `Prefer: return=representation`, otherwise neither; all other headers are the auth headers |
| `ApiService.AcceptAndPrefer` | src/app/services/api.service.ts:78-81 | the two `set` calls add those two headers and change no other |
| `ApiService.AuthHeadersOnly` | src/app/services/api.service.ts:85-92 | the auth headers hold no `Accept` and no `Prefer` |
| `ApiService.Request` | src/app/services/api.service.ts:32-73 | each operation's verb, URL `<base>/<table>`, body and parameters (the query's for reads, none for insert, the match filters for update and delete) |
| `ApiService.RequestHeaders` | src/app/services/api.service.ts:32-73 | every request carries the key and the bearer token when one is stored; a single read asks for one object; writes ask for the stored rows |
| `ApiService.QueryHeaders` | src/app/services/api.service.ts:32-51 | a read's headers: the key, the bearer token, and the object `Accept` when single |
| `ApiService.WriteHeaders` | src/app/services/api.service.ts:53-66 | an insert's or update's headers: the key, the bearer token and `Prefer: return=representation` |
| `ClientesService.GetClientesByViaje` | src/app/services/clientes.service.ts:11-16 | a list read of `clientes`, not single |
| `ClientesService.GetClientesByViajeParams` | src/app/services/clientes.service.ts:11-16 | the query string is `viaje_id=eq.<id>&order=number.asc` |
| `ClientesService.GetAllClientes` | src/app/services/clientes.service.ts:18-25 | a list read of `clientes`, not single |
| `ClientesService.GetAllClientesParams` | src/app/services/clientes.service.ts:18-25 | the query string is `order=viaje_id.desc,number.asc` |
| `ClientesService.GetCliente` | src/app/services/clientes.service.ts:27-32 | a single-row read of `clientes` |
| `ClientesService.GetClienteParams` | src/app/services/clientes.service.ts:27-32 | the query string is `id=eq.<id>` |
| `ClientesService.CreateCliente` | src/app/services/clientes.service.ts:34-36 | an insert of the customer as a one-row array |
| `ClientesService.UpdateCliente` | src/app/services/clientes.service.ts:38-40 | a PATCH of `clientes` with the given changes |
| `ClientesService.DeleteCliente` | src/app/services/clientes.service.ts:42-44 | a delete on `clientes` |
| `ClientesService.ToggleDelivered` | src/app/services/clientes.service.ts:46-48 | applied to any stored row, the PATCH changes `delivered` and nothing else |
| `ClientesService.WritesTargetId` | src/app/services/clientes.service.ts:38-48 | update, delete and the toggle address exactly `id=eq.<id>` |
| `ClientesService.SearchClientesByName` | src/app/services/clientes.service.ts:50-56 | a list read of `clientes`, not single |
| `ClientesService.NameSearchParams` | src/app/services/clientes.service.ts:50-56 | the query string is `name=ilike.*<term>*&order=name.asc&limit=20` |
| `ClientesService.SearchClientesByNameByIdentity` | src/app/services/clientes.service.ts:58-68 | a list read of `clientes`, not single |
| `ClientesService.NameAndCardSearchParams` | src/app/services/clientes.service.ts:58-68 | the card filter comes first: `identity_card=eq.<card>&name=ilike.*<name>*&order=name.asc&limit=20` |
| `ClientesService.OrderAndLimitAppended` | src/app/services/clientes.service.ts:53-54 | on search terms without `order` or `limit`, the ordering and the limit of 20 are appended in that order |
| `ViajesService.GetViajes` | src/app/services/viajes.service.ts:11-15 | a list read of `viajes`, not single |
| `ViajesService.GetViajesParams` | src/app/services/viajes.service.ts:11-15 | the query string is `order=date.desc` |
| `ViajesService.GetViaje` | src/app/services/viajes.service.ts:17-22 | a single-row read of `viajes` |
| `ViajesService.GetViajeParams` | src/app/services/viajes.service.ts:17-22 | the query string is `id=eq.<id>` |
| `ViajesService.CreateViaje` | src/app/services/viajes.service.ts:24-26 | an insert of the trip as a one-row array |
| `ViajesService.UpdateViaje` | src/app/services/viajes.service.ts:28-30 | a PATCH of `viajes` with the given changes |
| `ViajesService.DeleteViaje` | src/app/services/viajes.service.ts:32-34 | a delete on `viajes` |
| `ViajesService.WritesTargetId` | src/app/services/viajes.service.ts:28-34 | update and delete address exactly `id=eq.<id>` |
| `AuthApi.ProviderOf` | src/app/services/auth-api.service.ts:25 | the generic backend is used exactly when it is named and has a non-empty base URL |
| `AuthApi.AuthApiService.GetToken` | src/app/services/auth-api.service.ts:114-120 | the stored token, or none when storage throws or holds no token |
| `AuthApi.SupabaseUser` | src/app/services/auth-api.service.ts:106 | a user exactly when the reply carries an id, with that id and the reply's email |
| `AuthApi.SessionRequests` | src/app/services/auth-api.service.ts:84-103 | no request without a token; otherwise one GET bearing the token, with the `apikey` exactly on Supabase |
| `AuthApi.SessionResult` | src/app/services/auth-api.service.ts:84-112 | no session without a token; a rejection exactly for a failed generic lookup; the generic answer's user as it came; on Supabase a user exactly when the reply succeeded with an id; a user only ever with its token |
| `AuthApi.StoreToken` | src/app/services/auth-api.service.ts:122-132 | the token key holds exactly a non-empty token; every other key and its value stays |
| `AuthApi.SessionStorage` | src/app/services/auth-api.service.ts:84-112 | the local store after a session lookup: only the token key can go, and it goes exactly on a failed Supabase lookup with a token |
| `AuthApi.SignInRequest` | src/app/services/auth-api.service.ts:24-43 | a POST without a bearer, carrying the `apikey` exactly on Supabase |
| `AuthApi.SignInResult` | src/app/services/auth-api.service.ts:24-50 | the generic session as it came; a rejection exactly when the provider's request fails; on Supabase the reply's token and user |
| `AuthApi.AuthApiService.PersistToken` | src/app/services/auth-api.service.ts:122-132 | the local store becomes `StoreToken` of the token, or stays when storage throws; the session store never changes |
| `AuthApi.AuthApiService.ClearToken` | src/app/services/auth-api.service.ts:134-136 | afterwards no token can be read |
| `AuthApi.AuthApiService.SignIn` | src/app/services/auth-api.service.ts:24-50 | resolves to `SignInResult` after sending `SignInRequest`; on success the local store becomes `StoreToken` of the reply's token, otherwise it stays, and no other key changes |
| `AuthApi.AuthApiService.SignOut` | src/app/services/auth-api.service.ts:52-82 | one logout request with the bearer token, or none without a token; only a generic-backend failure propagates and keeps the store; otherwise exactly the token key is removed |
| `AuthApi.AuthApiService.GetSession` | src/app/services/auth-api.service.ts:84-112 | resolves to `SessionResult` of the stored token and sends `SessionRequests` of it; the local store becomes `SessionStorage`, so only a failed Supabase lookup removes the token key |
| `AuthService.FixedKeyIsSupabaseTokenKey` | src/app/services/auth.service.ts:10 | the fixed key has the `sb-…-auth-token` shape |
| `AuthService.WithoutSupabaseKeys` | src/app/services/auth.service.ts:53-57 | a key survives exactly when it is not an `sb-…-auth-token` key, with its value unchanged |
| `AuthService.AuthState.constructor` | src/app/services/auth.service.ts:8-9 | starts signed out, with no user |
| `AuthService.AuthState.InitializeAuth` | src/app/services/auth.service.ts:16-25 | the session is `SessionResult` of the stored token and the replies, and the local store `SessionStorage`; signed in exactly when the session has a user; a rejected lookup changes neither user nor flag; flag and user stay in step |
| `AuthService.AuthState.SignIn` | src/app/services/auth.service.ts:27-34 | the session is `SignInResult` of the replies and the local store as the façade leaves it (`StoreToken` on success); signed in as its user when there is one, unchanged otherwise |
| `AuthService.AuthState.SignOut` | src/app/services/auth.service.ts:36-39 | after a completed sign-out nobody is signed in and exactly the token key is gone; a rejected one changes nothing; the session store never changes |
| `AuthService.AuthState.ResetAuth` | src/app/services/auth.service.ts:41-44 | no user and the flag down |
| `AuthService.AuthState.GetSession` | src/app/services/auth.service.ts:71-73 | the session is `SessionResult` of the stored token and the replies, with its requests, and the local store `SessionStorage`; the session store never changes |
| `AuthService.AuthState.ForceClearSupabaseSession` | src/app/services/auth.service.ts:47-61 | removes the fixed key from both stores and every `sb-…-auth-token` key from local storage, nothing else; nothing when storage throws |
| `AuthGuard.Decide` | src/app/guards/auth.guard.ts:11-29 | through exactly when the flag is up or the session has a user; otherwise the `/login` tree; never `false` |
| `AuthGuard.CanActivate` | src/app/guards/auth.guard.ts:11-29 | with the flag up, through without a request or a store change; otherwise the session consulted is `SessionResult` of the stored token and the replies, the local store becomes `SessionStorage`, and the result is the decision on the session |
| `AuthGuard.GuardAdmitsIff` | src/app/guards/auth.guard.ts:19-28 | with the flag down, through exactly when a token is stored and the provider's answer names a user |
| `HomeComponent.FindIndexById` | src/app/components/home/home.component.ts:48 | the first position holding the id, or -1 when none does |
| `HomeComponent.KeepFirstFromIsDedupSeen` | src/app/components/home/home.component.ts:46-49 | keeping the first position of each id equals dropping ids already seen |
| `HomeComponent.DedupIsDedupSeen` | src/app/components/home/home.component.ts:46-49 | the filter equals the single-pass seen-set definition |
| `HomeComponent.DedupSeenProperties` | src/app/components/home/home.component.ts:46-49 | the single pass keeps order, skips seen ids, never repeats an id, and keeps every unseen id |
| `HomeComponent.DedupProperties` | src/app/components/home/home.component.ts:45-51 | the shown results keep the results' order, hold no id twice, and lose no id |
| `HomeComponent.DedupSeenKeepsDistinct` | src/app/components/home/home.component.ts:46-49 | results whose ids are already distinct pass through unchanged |
| `HomeComponent.DedupIdempotent` | src/app/components/home/home.component.ts:46-49 | de-duplicating twice changes nothing |
| `HomeComponent.StatusText` | src/app/components/home/home.component.ts:70-72 | `Entregado` exactly for a delivered shipment, else `Pendiente` |
| `HomeComponent.StatusClass` | src/app/components/home/home.component.ts:74-76 | `text-success` exactly for a delivered shipment, else `text-warning` |
| `HomeComponent.StatusDistinguishes` | src/app/components/home/home.component.ts:70-76 | label and class each tell delivered and pending apart |
| `HomeComponent.PackageSearch` | src/app/components/home/home.component.ts:22-43 | no request exactly when either trimmed field is blank; otherwise the name-and-card search on the trimmed fields |
| `HomeComponent.Home.constructor` | src/app/components/home/home.component.ts:14-18 | empty fields, no results, not loading, no message |
| `HomeComponent.Home.SearchPackages` | src/app/components/home/home.component.ts:22-62 | a blank field only sets the prompt; otherwise the de-duplicated results, the no-match message when they are empty, or the error message, and loading ends |
| `HomeComponent.Home.SettleSearch` | src/app/components/home/home.component.ts:45-57 | the de-duplicated results with the no-match message when empty, or the search error |
| `HomeComponent.Home.ClearSearch` | src/app/components/home/home.component.ts:64-68 | both fields and the results are emptied; the message stays |
| `HomeComponent.Home.ResetErrorMessage` | src/app/components/home/home.component.ts:78-80 | the message is cleared |
| `ClienteForm.FirstValidationError` | src/app/components/clientes/cliente-form/cliente-form.ts:144-166 | no error exactly when the form is valid; otherwise the message of the first failing check, in the order number, name, destination, packages, trip |
| `ClienteForm.UpdatePayload` | src/app/components/clientes/cliente-form/cliente-form.ts:117-127 | the trip, check and address columns are never sent; card and phone are always sent, as a value or null; family name and note are never sent as null |
| `ClienteForm.UpdateResult` | src/app/components/clientes/cliente-form/cliente-form.ts:116-128 | the stored row after an edit, column by column |
| `ClienteForm.SubmitCall` | src/app/components/clientes/cliente-form/cliente-form.ts:116-131 | a PATCH of exactly the edited row when editing a known id, else an insert of the form |
| `ClienteForm.FormFromCliente` | src/app/components/clientes/cliente-form/cliente-form.ts:86-97 | number, name, destination, packages, delivered flag and trip copied; card and phone kept only when filled; family name and note copied with `''` as the fallback; no address |
| `ClienteForm.EditWithoutChangesKeepsRow` | src/app/components/clientes/cliente-form/cliente-form.ts:86-127 | opening a row and saving it untouched leaves it as it was, unless it held an empty card or a zero phone |
| `ClienteForm.FormFromSelection` | src/app/components/clientes/cliente-form/cliente-form.ts:202-213 | number, name, card, destination, packages and phone copied; family name and note copied or `''`; the delivered flag kept; the trip is `viajeId` or 0 |
| `ClienteForm.SelectionValidIff` | src/app/components/clientes/cliente-form/cliente-form.ts:202-213 | a copied customer passes validation exactly when its details do and the form has a trip |
| `ClienteForm.ClientSearch` | src/app/components/clientes/cliente-form/cliente-form.ts:182-191 | no request exactly when the trimmed term is shorter than two characters; otherwise the name search on the trimmed term |
| `ClienteForm.ClienteFormPage.constructor` | src/app/components/clientes/cliente-form/cliente-form.ts:21-45 | the empty form and the initial page state |
| `ClienteForm.ClienteFormPage.ValidateForm` | src/app/components/clientes/cliente-form/cliente-form.ts:144-166 | true exactly when the form is valid; otherwise the first failing check's message |
| `ClienteForm.ClienteFormPage.OnSubmit` | src/app/components/clientes/cliente-form/cliente-form.ts:109-142 | an invalid form sends nothing; a valid one sends the save and navigates exactly when it succeeds; the error names the failed operation |
| `ClienteForm.ClienteFormPage.SettleSubmit` | src/app/components/clientes/cliente-form/cliente-form.ts:132-141 | navigates exactly on success; otherwise the update or create error |
| `ClienteForm.ClienteFormPage.LoadViaje` | src/app/components/clientes/cliente-form/cliente-form.ts:67-77 | nothing without a trip id; on success the trip it resolved to, a missing one included, and the form joins that trip; otherwise the trip error |
| `ClienteForm.ClienteFormPage.LoadCliente` | src/app/components/clientes/cliente-form/cliente-form.ts:79-107 | nothing without an id; a found row fills the form, selects its trip and, for a non-zero trip, requests it and takes the trip or the trip error; no row changes nothing; a failure shows the load error; loading ends |
| `ClienteForm.ClienteFormPage.ToggleClientSearch` | src/app/components/clientes/cliente-form/cliente-form.ts:173-179 | the panel flips; opening it starts from an empty term and no results |
| `ClienteForm.ClienteFormPage.SearchClients` | src/app/components/clientes/cliente-form/cliente-form.ts:181-198 | a short term empties the results without a request; otherwise the rows found, or the search error |
| `ClienteForm.ClienteFormPage.SettleSearch` | src/app/components/clientes/cliente-form/cliente-form.ts:188-194 | the rows on success, else the search error with the results kept |
| `ClienteForm.ClienteFormPage.SelectClient` | src/app/components/clientes/cliente-form/cliente-form.ts:200-219 | the form takes the chosen customer; the search closes empty |
| `ClienteForm.ClienteFormPage.ClearSearch` | src/app/components/clientes/cliente-form/cliente-form.ts:221-224 | empty term, no results |
| `ClienteForm.ClienteFormPage.OnRoute` | src/app/components/clientes/cliente-form/cliente-form.ts:54-65 | an `id` opens that customer for editing and, when non-zero, does what `LoadCliente` does: the found row fills the form with its trip request and outcome, no row changes nothing, a failure shows the load error; otherwise a non-zero `viajeId` requests that trip and puts the form on it, or shows the trip error; routes that load nothing change no form, trip, error or loading state |
| `ViajeForm.UpdatePayload` | src/app/components/viajes/viaje-form/viaje-form.ts:72-75 | the date always; the note exactly when it is non-empty; never a null |
| `ViajeForm.FormFromViaje` | src/app/components/viajes/viaje-form/viaje-form.ts:48-51 | the stored date, and the note or `''` |
| `ViajeForm.EditWithoutChangesKeepsTrip` | src/app/components/viajes/viaje-form/viaje-form.ts:46-76 | opening a trip and saving it untouched leaves the stored row as it was |
| `ViajeForm.UpdateResult` | src/app/components/viajes/viaje-form/viaje-form.ts:71-76 | a saved edit stores the form's date, and its note unless that is empty |
| `ViajeForm.ViajeFormPage.constructor` | src/app/components/viajes/viaje-form/viaje-form.ts:15-23 | the empty form and the initial page state |
| `ViajeForm.ViajeFormPage.LoadViaje` | src/app/components/viajes/viaje-form/viaje-form.ts:41-59 | nothing without an id; a found trip fills the form; a failure shows the error; loading ends |
| `ViajeForm.ViajeFormPage.OnRoute` | src/app/components/viajes/viaje-form/viaje-form.ts:31-39 | an `id` opens that trip for editing and, when non-zero, requests it and fills the form from the found trip or shows the load error; without one, or with a zero one, no form, error or loading change |
| `ViajeForm.ViajeFormPage.OnSubmit` | src/app/components/viajes/viaje-form/viaje-form.ts:61-90 | an empty date sends nothing; otherwise an update of the known trip or an insert; navigates exactly on success |
| `ViajeForm.UpdateOnlyFromEditRoute` | src/app/components/viajes/viaje-form/viaje-form.ts:31-90 | only a page opened on an `id` route ever sends an update |
| `Stats.Delivered` | src/app/components/clientes/clientes-list/clientes-list.ts:105-107 | at most as many as there are customers |
| `Stats.Pending` | src/app/components/viajes/viajes-list/viajes-list.ts:94-96 | delivered plus pending is every customer |
| `Stats.OnTrip` | src/app/components/viajes/viajes-list/viajes-list.ts:108-110 | at most as many as there are customers |
| `Stats.DeliveredOnTrip` | src/app/components/viajes/viajes-list/viajes-list.ts:112-114 | bounded by the trip's customers and by all delivered ones |
| `Stats.PendingOnTrip` | src/app/components/viajes/viajes-list/viajes-list.ts:116-118 | a trip's delivered plus pending is the trip's customers |
| `Stats.ByTrip` | src/app/components/viajes/viajes-list/viajes-list.ts:121-122 | exactly the trip's customers, as many as it counts |
| `Stats.OtherTrips` | src/app/components/viajes/viajes-list/viajes-list.ts:120-124 | exactly the other trips' customers, the rest of the list |
| `Stats.TripPackagesPartition` | src/app/components/viajes/viajes-list/viajes-list.ts:120-124 | one trip's packages plus every other trip's add up to the total |
| `Stats.TripPackagesBounded` | src/app/components/viajes/viajes-list/viajes-list.ts:120-124 | with no negative counts, a trip holds between 0 and all of the packages |
| `Stats.PackagesNonNegative` | src/app/components/clientes/clientes-list/clientes-list.ts:109-111 | no negative count gives no negative total |
| `Stats.OneTripAgrees` | src/app/components/clientes/clientes-list/clientes-list.ts:105-111 | on one trip's customers, the trip list's per-trip figures equal the customer page's |
| `Stats.RoundedPercent` | src/app/components/viajes/viajes-list/viajes-list.ts:102-104 | between 0 and 100, and the nearest whole percentage of `d / t` |
| `Stats.PercentExtremes` | src/app/components/viajes/viajes-list/viajes-list.ts:98-105 | nobody delivered reads 0, everybody delivered reads 100 |
| `ViajesList.ViajesListPage.constructor` | src/app/components/viajes/viajes-list/viajes-list.ts:17-20 | no trips, no customers, not loading, no error |
| `ViajesList.ViajesListPage.TotalViajes` | src/app/components/viajes/viajes-list/viajes-list.ts:75-77 | the number of trips |
| `ViajesList.ViajesListPage.TotalClientes` | src/app/components/viajes/viajes-list/viajes-list.ts:79-81 | the number of customers |
| `ViajesList.ViajesListPage.TotalPaquetes` | src/app/components/viajes/viajes-list/viajes-list.ts:83-88 | never negative when no count is |
| `ViajesList.ViajesListPage.ClientesEntregados` | src/app/components/viajes/viajes-list/viajes-list.ts:90-92 | at most the number of customers |
| `ViajesList.ViajesListPage.ClientesPendientes` | src/app/components/viajes/viajes-list/viajes-list.ts:94-96 | delivered plus pending is every customer |
| `ViajesList.ViajesListPage.PorcentajeEntregado` | src/app/components/viajes/viajes-list/viajes-list.ts:98-105 | 0 with no customers, else the nearest whole percentage delivered, between 0 and 100 |
| `ViajesList.ViajesListPage.ClientesByViaje` | src/app/components/viajes/viajes-list/viajes-list.ts:108-110 | at most the number of customers |
| `ViajesList.ViajesListPage.EntregadosByViaje` | src/app/components/viajes/viajes-list/viajes-list.ts:112-114 | bounded by the trip's customers and by all delivered ones |
| `ViajesList.ViajesListPage.PendientesByViaje` | src/app/components/viajes/viajes-list/viajes-list.ts:116-118 | on every trip, delivered plus pending is the trip's customers |
| `ViajesList.ViajesListPage.PaquetesByViaje` | src/app/components/viajes/viajes-list/viajes-list.ts:120-124 | with the other trips' packages it makes up the total |
| `ViajesList.ViajesListPage.LoadViajes` | src/app/components/viajes/viajes-list/viajes-list.ts:32-44 | customers are requested only after the trips arrive; either failure shows the error and keeps what was assigned; loading ends |
| `ViajesList.ViajesListPage.DeleteViaje` | src/app/components/viajes/viajes-list/viajes-list.ts:46-56 | nothing unless confirmed; a failed delete shows its error and changes nothing else; after a successful one, exactly the reload's requests and the trips, customers and error the reload leaves; loading ends |
| `ClientesList.FlipAt` | src/app/components/clientes/clientes-list/clientes-list.ts:86 | only the chosen row's flag changes, and it is negated |
| `ClientesList.FlipTwice` | src/app/components/clientes/clientes-list/clientes-list.ts:80-91 | two toggles restore the list |
| `ClientesList.FlipDeliveredCount` | src/app/components/clientes/clientes-list/clientes-list.ts:80-91 | a toggle moves exactly one customer between delivered and pending |
| `ClientesList.FlipMatchesServer` | src/app/components/clientes/clientes-list/clientes-list.ts:82-86 | the local flip equals the row the backend stores for the request |
| `ClientesList.PackagesFacts` | src/app/components/clientes/clientes-list/clientes-list.ts:109-111 | the total is never negative without negative counts, and equals the one-trip sum on a one-trip list |
| `ClientesList.ClientesListPage.constructor` | src/app/components/clientes/clientes-list/clientes-list.ts:17-21 | no customers, no trip, not loading, no error |
| `ClientesList.ClientesListPage.DeliveredCount` | src/app/components/clientes/clientes-list/clientes-list.ts:105-107 | at most the number of customers |
| `ClientesList.ClientesListPage.TotalPackages` | src/app/components/clientes/clientes-list/clientes-list.ts:109-111 | never negative without negative counts; on the trip's own list, the trip list's figure for that trip |
| `ClientesList.ClientesListPage.LoadViaje` | src/app/components/clientes/clientes-list/clientes-list.ts:40-49 | nothing without a trip id; the trip the request resolved to, a missing one included, else the error |
| `ClientesList.ClientesListPage.LoadClientes` | src/app/components/clientes/clientes-list/clientes-list.ts:51-66 | nothing without a trip id; the error is cleared, the trip's customers replace the list on success, else the load error; loading ends |
| `ClientesList.ClientesListPage.SettleViaje` | src/app/components/clientes/clientes-list/clientes-list.ts:43-48 | the trip the request resolved to, a missing one included, else the trip error |
| `ClientesList.ClientesListPage.SettleClientes` | src/app/components/clientes/clientes-list/clientes-list.ts:57-65 | the rows on success, else the load error; loading ends |
| `ClientesList.ClientesListPage.OnRoute` | src/app/components/clientes/clientes-list/clientes-list.ts:30-65 | a non-zero id sends both requests, the error cleared before either reply; whichever order the replies settle in, the trip and rows that arrive are kept, a trip error survives a successful customer load, and with both failing the later error is shown; otherwise nothing |
| `ClientesList.ClientesListPage.ToggleDelivered` | src/app/components/clientes/clientes-list/clientes-list.ts:80-91 | requests the negated flag and flips the row only when the request succeeds |
| `ClientesList.ClientesListPage.DeleteCliente` | src/app/components/clientes/clientes-list/clientes-list.ts:68-78 | nothing unless confirmed; a failed delete shows its error and changes nothing else; after a successful one, the reload of the trip's customers with the rows or the load error it leaves, loading ending; no reload without a trip id |
| `ClientesListService.TextOr` | src/app/components/clientes/clientes-list/clientes-list-service.ts:74-76 | the value when it is non-empty, else the fallback |
| `ClientesListService.PhoneFallbackNeverApplies` | src/app/components/clientes/clientes-list/clientes-list-service.ts:73 | the phone cell as written always starts with `+ `, is never `-`, and is `+ undefined` without a phone |
| `ClientesListService.PhoneCellAsWritten` | src/app/components/clientes/clientes-list/clientes-list-service.ts:73 | the cell is `+ ` followed by the phone or `undefined`, never `-`: the fallback is dead |
| `ClientesListService.PhoneCell` | src/app/components/clientes/clientes-list/clientes-list-service.ts:73 | the intended phone cell: `-` exactly when there is no phone, else the as-written text |
| `ClientesListService.NumberCell` | src/app/components/clientes/clientes-list/clientes-list-service.ts:63-66 | marked `* ` exactly when delivered |
| `ClientesListService.NumberCellRoundTrip` | src/app/components/clientes/clientes-list/clientes-list-service.ts:63-66 | the customer's number reads back from its cell |
| `ClientesListService.ListadoCells` | src/app/components/clientes/clientes-list/clientes-list-service.ts:68-77 | eight cells, one per column |
| `ClientesListService.ListadoCellsShow` | src/app/components/clientes/clientes-list/clientes-list-service.ts:68-77 | what each column shows, with its fallback; the phone column always starts with `+ ` and reads `+ undefined` without a phone |
| `ClientesListService.ListadoCellsIntended` | src/app/components/clientes/clientes-list/clientes-list-service.ts:68-77 | the intended row: the printed row with `-` in the phone column exactly when there is no phone |
| `ClientesListService.IntendedDiffersWithoutPhone` | src/app/components/clientes/clientes-list/clientes-list-service.ts:73 | the printed and intended rows agree exactly for a customer with a phone; otherwise `+ undefined` is printed where `-` is intended |
| `ClientesListService.ColumnWidths` | src/app/components/clientes/clientes-list/clientes-list-service.ts:28-29 | one width per column |
| `ClientesListService.ColumnWidthsFillTable` | src/app/components/clientes/clientes-list/clientes-list-service.ts:28-29 | the percentages add up to 100, so the columns fill the table exactly |
| `ClientesListService.PlaceCells` | src/app/components/clientes/clientes-list/clientes-list-service.ts:79-88 | one cell per text |
| `ClientesListService.PlaceCellsTexts` | src/app/components/clientes/clientes-list/clientes-list-service.ts:79-88 | a placed line prints exactly its texts, in order |
| `ClientesListService.PlaceCellsInside` | src/app/components/clientes/clientes-list/clientes-list-service.ts:79-88 | with no negative width, every cell centre lies within the line |
| `ClientesListService.LayOutLine` | src/app/components/clientes/clientes-list/clientes-list-service.ts:43-48 | the cell loop places the line's cells and moves the cursor by the sum of the widths |
| `ClientesListService.ListadoWidths` | src/app/components/clientes/clientes-list/clientes-list-service.ts:24-29 | one width per column |
| `ClientesListService.TripPart` | src/app/components/clientes/clientes-list/clientes-list-service.ts:95-97 | `sin_viaje` exactly without a trip or with a zero or missing id |
| `ClientesListService.FileNameNamesTrip` | src/app/components/clientes/clientes-list/clientes-list-service.ts:95-97 | the trip id reads back from the file name |
| `ClientesListService.LayOutTop` | src/app/components/clientes/clientes-list/clientes-list-service.ts:22-54 | draws the recursive header-and-rule definition and leaves the cursor 11 below the margin, where the first row goes |
| `ClientesListService.LayOutRows` | src/app/components/clientes/clientes-list/clientes-list-service.ts:57-91 | the row loop draws the recursive row definition |
| `ClientesListService.GenerateListado` | src/app/components/clientes/clientes-list/clientes-list-service.ts:12-99 | an alert for an empty selection; otherwise the manifest as the program draws it (phone cells as written), handed back or saved under its file name |
| `ClientesListService.RowsOnPage` | src/app/components/clientes/clientes-list/clientes-list-service.ts:57-61 | every row lies between the margin and `pageHeight - 15` |
| `ClientesListService.ListadoRows` | src/app/components/clientes/clientes-list/clientes-list-service.ts:68-77 | one row of cells per selected customer, in order |
| `ClientesListService.RowsFollowSelection` | src/app/components/clientes/clientes-list/clientes-list-service.ts:57-91 | the rows print the selected customers, each once, in selection order |
| `ClientesListService.ListadoContents` | src/app/components/clientes/clientes-list/clientes-list-service.ts:30-91 | the manifest opens with the column headers and its rows are the selection's |
| `ClientesListService.LabelFieldsOf` | src/app/components/clientes/clientes-list/clientes-list-service.ts:180-223 | the five label texts: the family member or else the customer, the phone or `No disponible`, the card or `No disponible`, the destination, and the customer as sender |
| `ClientesListService.LabelAgreesWithRow` | src/app/components/clientes/clientes-list/clientes-list-service.ts:180-193 | without a family member the label goes to the sender; the label's phone matches the manifest's when there is one |
| `ClientesListService.LayOutLabels` | src/app/components/clientes/clientes-list/clientes-list-service.ts:132-232 | the label loop draws the recursive label definition from the page corner |
| `ClientesListService.GenerateEtiquetas` | src/app/components/clientes/clientes-list/clientes-list-service.ts:118-240 | an alert for an empty selection; otherwise the labels, handed back or saved under their file name |
| `ClientesListService.LabelStep` | src/app/components/clientes/clientes-list/clientes-list-service.ts:141-231 | one label keeps the grid invariant and fits its page |
| `ClientesListService.LabelsFitPage` | src/app/components/clientes/clientes-list/clientes-list-service.ts:141-231 | on a page at least 100 high, each label lies inside the margins, in the column its count says |
| `ClientesListService.EtiquetasLayout` | src/app/components/clientes/clientes-list/clientes-list-service.ts:128-231 | a whole label document: one label per customer, alternating left and right from the first, inside the margins |
| `ClientesListService.LabelRows` | src/app/components/clientes/clientes-list/clientes-list-service.ts:180-223 | one label text set per selected customer, in order |
| `ClientesListService.LabelsFollowSelection` | src/app/components/clientes/clientes-list/clientes-list-service.ts:140-232 | the labels print the selected customers, each once, in selection order |
| `ClientesListService.PrintListado` | src/app/components/clientes/clientes-list/clientes-list-service.ts:101-104 | printing goes ahead exactly for a non-empty selection, with the manifest |
| `ClientesListService.PrintEtiquetas` | src/app/components/clientes/clientes-list/clientes-list-service.ts:242-248 | printing goes ahead exactly for a non-empty selection, with the labels |

## Left out

- Floating point: positions and widths are exact reals.
- `Stats.RoundedPercent` rounds the exact ratio `d / t * 100`, with halves up. The program rounds the IEEE double product, which can differ by one at a half. For example, 29 delivered of 200 is `Math.round(14.499999999999998) = 14` on the page, while `RoundedPercent(29, 200) == 15`.
- `ViajesList.ViajesListPage.PorcentajeEntregado` shows `RoundedPercent` of the delivered and total customers, so it inherits the same gap: at 29 delivered of 200 the page shows 14 and the model 15.
- Text layout in jsPDF is left out: `splitTextToSize`, multi-line cells, fonts and font sizes. Each cell and each label text is one event holding the whole text.
- The label rectangle's drawing details, the logo image (`addImage` and its failure) and the offsets of the texts inside a label are left out. A label event keeps its position, its size and its five texts.
- `doc.save`, `autoPrint`, the PDF blob, `window.open` and the print window are I/O. The model returns the document or the file name instead.
- The page size is a parameter (`pageWidth`, `pageHeight`), not jsPDF's A4 constant.
- The date in file names is a `today` parameter, standing for `new Date().toISOString().split('T')[0]`.
- `alert` and `confirm` are outside the model. An alert is a result value; the user's answer to `confirm` is a parameter.
- Each awaited HTTP or storage call is an `Outcome` parameter. The network, the response bodies beyond the fields read, `getList`'s `data || []`, and the interleaving of concurrent promises are not modelled. In particular, the list pages' unawaited reloads are taken to settle before anything else happens. The concurrent `loadViaje`/`loadClientes` of the customer list are the exception: they are modelled with both settling orders.
- Route parameters are `Option<int>`: present means a non-empty parameter after unary `+`. A parameter that is not a number (`NaN`) counts as absent.
- JavaScript objects are values. The in-place mutation `cliente.delivered = !cliente.delivered` in `toggleDelivered` updates the page's list at the row's index. Aliasing of that object elsewhere is not captured.
- `ClientesList.ClientesListPage.ToggleDelivered` requires the row to have an id, matching the source's non-null assertion `cliente.id!`.
- Router navigation (`cancel`, `editCliente`, `addCliente`, `backToViajes`, `editViaje`, `viewClientes`, `addViaje`) is left out. The save methods return a `navigated` flag instead.
- `ApiService.BuildParams`: query limits and numeric filter values are integers. JavaScript's `typeof limit === 'number'` also accepts fractions and `NaN`, and their text forms are not modelled.
- `ClienteForm.ClientSearch` counts the trimmed term in code points. JavaScript's `length` counts UTF-16 units, so one astral character counts as two in the program and one here.
- `formatDate` is locale date formatting, so it is left out.
- `getCurrentUser`/`getIsAuthenticated` are the class's fields read directly, so they are left out.
- The `AuthService` constructor's call of `initializeAuth` is a separate method call in the model.
- `console` logging and the caught-and-ignored storage exceptions carry no state.
- `ApiService.BuildRequestOptions`: its own contract states only the parameters. The header facts are proved about it in the lemma `ApiService.RequestOptionsHeaders`.

## Findings

| source | as written | input that shows it | evidently intended | confidence | as-written member | corrected member |
|---|---|---|---|---|---|---|
| src/app/components/clientes/clientes-list/clientes-list-service.ts:73 | the manifest's phone cell is `+ ${cliente.phone?.toString()}` with a `'-'` fallback; the template literal is never empty, so the fallback can never apply | a customer with no phone (`phone` null or missing) prints `+ undefined` | `-` for a customer without a phone, as the other optional columns do | high (not executed) | `ClientesListService.PhoneCellAsWritten`, printed by `ClientesListService.ListadoCells` and exhibited by `ClientesListService.PhoneFallbackNeverApplies` and `ClientesListService.IntendedDiffersWithoutPhone` | `ClientesListService.PhoneCell` in `ClientesListService.ListadoCellsIntended` |
