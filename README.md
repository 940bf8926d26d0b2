# AkibaFlow client core in Dafny

AkibaFlow is a React Native personal-finance client that talks to a REST API.
This project models the logic of that client that does not depend on the
screen or the network, in four parts:

- **The auth session** of the Redux store (`store.ts`). It has two fields,
  `user` and `token`, and two actions, `setAuth` and `clearAuth`. The model is
  a pure reducer `Store.Reduce` with its run over an action sequence, plus a
  class `Store.AuthSlice` whose methods assign the two fields in place.
- **The RTK Query descriptors** of the four `server/*Api.ts` files.
  - Their shared `prepareHeaders` is modelled once as an imperative
    `BaseQuery.PrepareHeaders` over a mutable `Headers` object, specified by
    the pure `BaseQuery.WithBearer`. It adds `authorization: Bearer <token>`
    when the stored token is truthy, the header form of section 2.1 of
    RFC 6750.
  - Each endpoint's `query` builder is a function `Query` from an `Endpoint`
    value to the url, method, body and headers it produces.
  - Each builder has an independent reading `Recognize`, which parses the url
    back (`Url.Parse`, the path and query of section 3 of RFC 3986) and
    classifies it. It is proved to be the inverse of `Query`: exactly for the
    account and category endpoints, and up to `Canonical` for the other two.
    `Canonical` fills in the omitted paging arguments of the transactions
    list. For login it fills in the default grant type and drops `scope`,
    `client_id` and `client_secret`, which the form never sends.
  - Login is the OAuth 2.0 password grant of section 4.3.2 of RFC 6749.
    `grant_type` defaults to `password`.
- **The fetch wrappers** in `server/auth.ts`, `accounts.ts`, `transactions.ts`,
  `categories.ts` and `users.ts`.
  - Each call takes the base url, its arguments and the transport's answer
    `Response(ok, body)`. Every call except `login` and `register` also
    takes the token. It returns the request it sends
    and its result (the parsed body) or thrown error.
  - `error.detail?.[0]?.msg || default` is modelled once (`Http.DetailMessage`),
    with JavaScript semantics. A `null` error body raises a `TypeError`. A
    string `detail` yields its first character, which has no `msg`.
  - For every call the RTK layer also makes, it is proved that the wrapper
    addresses the same path with the same method and body. The two layers
    differ in the credential, in two ways:
    - For the empty token, the account, transaction and category wrappers
      still send `Bearer `, while `prepareHeaders` sends nothing.
    - The `login` and `register` wrappers never send a credential. The RTK
      `login` and `register` carry the stored token whenever it is non-empty.
- **The SMS demo detector** (`components/SMSDetector.tsx`).
  - The guards: accounts first, then categories.
  - The default choices: the first account, and the category chain
    `food` → `transport` → first.
  - The payload it posts.
  - The component state `isEnabled` / `lastDetected`, as a class
    `SmsDetector.Detector`.

Supporting modules:

- `Decimal` is JavaScript's integer-to-string conversion, with a canonical
  parser proved inverse to it.
- `Url` renders and parses relative request targets, with round trips in
  both directions.
- `Json` is the parsed-body value, with property access, `[0]`, truthiness
  and `String()`.

Environment inputs become parameters:

| input in the source | parameter in the model |
|---|---|
| `API_BASE_URL` | `base`, any string; `Types.ApiBaseUrl` separately models how it is computed from the configured value |
| `Math.random()` | an index `pick < 5` |
| today's date | a string `today` |
| `encodeURIComponent` | a function `encode` |
| the outcome of `createTransaction(...).unwrap()` | a `Response` |

## Model

| member | source | states |
|---|---|---|
| Store.Reduce | store.ts:40-51 | after either action the state is consistent (user null exactly when token null); a token is stored exactly after `setAuth`, and then user and token are the payload's |
| Store.AuthSlice.constructor | store.ts:35-38 | the initial state has `user` and `token` both null, and satisfies the invariant |
| Store.AuthSlice.SetAuth | store.ts:44-47 | both fields take the payload values whatever they held; the new state is `Reduce` of the old one, and the invariant is kept |
| Store.AuthSlice.ClearAuth | store.ts:48-51 | both fields become null; the new state is `Reduce` of the old one and keeps the invariant |
| Store.RunConsistent | store.ts:30-51 | every state reached from a consistent one by any sequence of actions is consistent |
| Store.LastActionWins | store.ts:44-51 | after any non-empty run of actions the state depends only on the last action |
| Store.ClearAuthIdempotent | store.ts:48-51 | `clearAuth` twice equals `clearAuth` once, which equals the initial state |
| Store.SetAuthOverwrites | store.ts:44-51 | `setAuth(a); setAuth(b)` equals `setAuth(b)`, and `setAuth(a); clearAuth` equals the initial state |
| Types.ApiBaseUrl | server/types.ts:125 | the base url is the configured one when set and non-empty, otherwise `http://localhost:8000/api/v1`; never empty |
| Types.GrantType | server/authApi.ts:25 | the caller's grant type when it is non-empty, otherwise `password`; never empty |
| Types.TypeNamed | server/types.ts:90 | a wire name stands for a transaction type exactly when it is that type's name (`INCOME` / `EXPENSE`) |
| Types.TransactionCreateJson | server/types.ts:88-95 | the sent object has exactly the six `TransactionCreate` keys and carries the account and category ids as numbers |
| Types.ReadTransactionCreateJson | server/types.ts:88-95 | reading the JSON payload back gives the record, so no field is lost in `JSON.stringify` |
| Decimal.ParseIntIff | server/accountsApi.ts:29 | a string reads as integer n exactly when it is the JavaScript numeral of n, so an interpolated id is recoverable from the path |
| Decimal.IntToStringInjective | server/accountsApi.ts:29 | distinct ids are interpolated as distinct numerals |
| Url.ParseIff | server/transactionsApi.ts:18 | a url text parses to a target exactly when the target is well formed and renders to that text |
| Json.Truthy | server/auth.ts:19 | a value is falsy exactly when it is `null`, `false`, `0` or `""`; every array and object is truthy |
| Json.ToText | server/auth.ts:19 | `String()` gives a string itself, an integer's numeral (which reads back as that integer), and `[object Object]` for an object |
| Http.FirstDetailMsg | server/auth.ts:19 | `detail?.[0]?.msg` is defined exactly when `detail` is present and not null, its first entry is an object, and that object has `msg`; then it is that `msg` |
| Http.BearerHeaders | server/accounts.ts:5-7 | a read sends exactly one header, `authorization` = `Bearer ` + token |
| Http.BearerJsonHeaders | server/accounts.ts:20-23 | a write sends exactly `authorization` = `Bearer ` + token and `content-type` = `application/json` |
| Http.DetailMessage | server/auth.ts:17-20 | a null error body throws a `TypeError`; otherwise the error text is `String(detail[0].msg)` when that value exists and is truthy, and the default text in every other case |
| Http.ValidationErrorMessage | server/types.ts:116-122 | for the documented validation body the error is its first `msg`, or the default when that message is empty |
| Http.FallbackWithoutDetail | server/auth.ts:19 | a body without `detail`, with `detail: null` or with an empty list yields the default text |
| Http.FallbackForTextDetail | server/auth.ts:19 | a plain-string `detail` also yields the default text |
| Http.DetailWins | server/auth.ts:19 | a non-empty first message always wins over the default |
| BaseQuery.WithBearer | server/accountsApi.ts:8-14 | `authorization` is `Bearer ` + token when the token is truthy; every other header is kept; null, absent and `""` leave the headers unchanged |
| BaseQuery.Headers.Set | server/accountsApi.ts:11 | `headers.set` adds or replaces one header and keeps the rest |
| BaseQuery.PrepareHeaders | server/authApi.ts:8-15 | mutates the given headers into `WithBearer` of their old value and the stored token, and returns the same object |
| BaseQuery.Issue | server/accountsApi.ts:6-15 | the request the base query sends is the endpoint's url, method and body with `prepareHeaders` applied to its headers |
| BaseQuery.BearerAfterSetAuth | server/accountsApi.ts:8-14 | after `setAuth` with a non-empty token, any request carries `Bearer ` + that token |
| BaseQuery.SessionCredential | server/accountsApi.ts:8-14 | after any non-empty run of store actions, a request without its own credential carries `Bearer ` + the last action's token when that action is `setAuth` with a non-empty token, and no credential otherwise |
| BaseQuery.NoBearerAfterClearAuth | server/accountsApi.ts:8-14 | after `clearAuth`, a request carries no credential unless its endpoint set one |
| AuthApi.Query | server/authApi.ts:18-41 | only `login` sets a header, `content-type: application/x-www-form-urlencoded`, and it is a POST |
| AuthApi.QueryAddress | server/authApi.ts:18-41 | the three endpoints address `/auth/login`, `/auth/whoami` and `/auth/register` |
| AuthApi.RecognizeQuery | server/authApi.ts:18-41 | reading a request back gives the endpoint exactly when the request is that endpoint's: a POST form of username, password and defaulted grant type for `login`, a body-less GET for `whoami`, a POST of the data unchanged for `register` |
| AuthApi.RecognizeOfQuery | server/authApi.ts:18-41 | each endpoint's request reads back as its canonical login or as itself |
| AuthApi.QueryOfRecognize | server/authApi.ts:18-41 | whatever reads back as an endpoint is exactly that endpoint's request |
| AuthApi.LoginQueryIff | server/authApi.ts:22-26 | two logins send the same request exactly when they agree on username, password and defaulted grant type; `scope`, `client_id` and `client_secret` are dropped |
| AuthApi.Send | server/authApi.ts:8-15 | the credential is present exactly when the stored token is truthy; a login keeps its form content type |
| AuthApi.LoginCarriesStoredToken | server/authApi.ts:8-29 | logging in while a session is stored sends the old token along with the form content type |
| AuthApi.SessionHeader | server/authApi.ts:8-15 | after any non-empty run of store actions the credential is present exactly when the last action was `setAuth` with a non-empty token, and then it is that token |
| AccountsApi.Query | server/accountsApi.ts:17-39 | no endpoint sets headers; create and update send the account unchanged, get and delete send no body |
| AccountsApi.QueryAddress | server/accountsApi.ts:17-39 | get and create address `/accounts/` with the trailing slash, update and delete `/accounts/{id}` |
| AccountsApi.RecognizeQuery | server/accountsApi.ts:17-39 | reading a request back gives the endpoint exactly when the request is that endpoint's; the id appears only in the path |
| AccountsApi.Send | server/accountsApi.ts:8-14 | the header is present exactly when the token is truthy, with value `Bearer ` + token; url, method and body are the query's |
| AccountsApi.SessionHeader | server/accountsApi.ts:8-14 | after `setAuth` with a non-empty token every account request carries it; after `clearAuth` none does |
| TransactionsApi.Query | server/transactionsApi.ts:17-39 | no endpoint sets headers; create and update send the transaction unchanged, list and delete send no body |
| TransactionsApi.QueryAddress | server/transactionsApi.ts:17-39 | the list addresses `/transactions` with `skip` then `limit`, create `/transactions` without a trailing slash, update and delete `/transactions/{id}` |
| TransactionsApi.ListAddress | server/transactionsApi.ts:18 | `?skip=S&limit=L` reads back as exactly the two parameters with the numerals of S and L |
| TransactionsApi.QueryCanonical | server/transactionsApi.ts:18 | filling in the defaults does not change the request |
| TransactionsApi.DefaultPaging | server/transactionsApi.ts:18 | omitted paging gives `skip=0&limit=100`; an explicit 0 is sent as 0 |
| TransactionsApi.RecognizeQuery | server/transactionsApi.ts:17-39 | reading a request back gives an endpoint exactly when the request is that endpoint's and the endpoint carries no omitted paging argument |
| TransactionsApi.Send | server/transactionsApi.ts:8-14 | the header is present exactly when the token is truthy, with value `Bearer ` + token |
| TransactionsApi.SessionHeader | server/transactionsApi.ts:8-14 | the credential follows the last store action |
| CategoriesApi.Query | server/categoriesApi.ts:17-26 | no headers; create sends the category unchanged, get sends no body |
| CategoriesApi.QueryAddress | server/categoriesApi.ts:17-26 | both endpoints address `/categories` |
| CategoriesApi.RecognizeQuery | server/categoriesApi.ts:17-26 | reading a request back gives the endpoint exactly when the request is that endpoint's |
| CategoriesApi.Send | server/categoriesApi.ts:8-14 | the header is present exactly when the token is truthy, its value the literal `Bearer ` followed by the token |
| CategoriesApi.SessionHeader | server/categoriesApi.ts:8-14 | the credential follows the last store action |
| Fetch.ItemPath | server/categories.ts:36 | `/<collection>/<id>` reads back as the collection followed by the id's numeral |
| Fetch.CollectionPath | server/users.ts:18 | `/<collection>` reads back as that one segment |
| Fetch.ReadIgnoresErrorBody | server/accounts.ts:10-12 | a failed read throws its fixed message whatever the error body is |
| Fetch.WriteReportsValidation | server/accounts.ts:27-30 | a failed write answered by the documented validation body throws its first message, or the default when it is empty |
| Fetch.CredentialAgainstRtk | server/accounts.ts:5-7 | the wrapper's unconditional `Bearer ` + token equals what `prepareHeaders` sends after `setAuth` for a non-empty token; for `""` the RTK request has no credential |
| AuthClient.SearchParams.constructor | server/auth.ts:4 | a new form has no pairs |
| AuthClient.SearchParams.Append | server/auth.ts:5-7 | `append` adds one pair at the end and keeps the earlier ones |
| AuthClient.Login | server/auth.ts:3-23 | builds username, password, grant type in that order; posts the RTK login's form to the same path with the form content type and no credential; returns the body on ok, otherwise the detail message with default `Login failed` |
| AuthClient.Register | server/auth.ts:25-40 | posts the data as JSON to `/auth/register` without a credential; returns the body on ok, otherwise the detail message with default `Registration failed` |
| AuthClient.Whoami | server/auth.ts:42-54 | a GET of `/auth/whoami` with `Bearer ` + the given token; on failure always `Failed to fetch user info` |
| AuthClient.AgreesWithRtk | server/auth.ts:25-40 | the `register` wrapper sends the RTK route, method and body with no credential, while the RTK `register` and `login` carry the stored token exactly when it is non-empty and the login form itself has none |
| AuthClient.LoginFailureMessage | server/auth.ts:17-20 | a failed login with a validation body reports its non-empty first message; a body without `detail` reports `Login failed` |
| AccountsClient.GetAccounts | server/accounts.ts:3-15 | the RTK `getAccounts` route with the bearer header; body on ok, else `Failed to fetch accounts` |
| AccountsClient.CreateAccount | server/accounts.ts:17-33 | the RTK `createAccount` route and body with bearer and JSON headers; body on ok, else the detail message with default `Failed to create account` |
| AccountsClient.GetAccountById | server/accounts.ts:35-47 | a body-less GET of the account's own address; body on ok, else `Failed to fetch account` |
| AccountsClient.UpdateAccount | server/accounts.ts:49-65 | the RTK `updateAccount` route (PATCH `/accounts/{id}`) and body; else the detail message with default `Failed to update account` |
| AccountsClient.DeleteAccount | server/accounts.ts:67-79 | the RTK `deleteAccount` route; succeeds with no value exactly on ok, else the detail message with default `Failed to delete account` |
| AccountsClient.AgreesWithRtk | server/accounts.ts:3-79 | for every account endpoint the wrapper sends the RTK url (after the base), method and body; the credential agrees for a non-empty token, and only the wrapper sends one for `""` |
| TransactionsClient.GetTransactions | server/transactions.ts:3-15 | the same `skip`/`limit` url as the RTK endpoint, defaults 0 and 100 for omitted arguments only; else `Failed to fetch transactions` |
| TransactionsClient.CreateTransaction | server/transactions.ts:17-33 | the RTK create route (POST `/transactions`) and body; else the detail message with default `Failed to create transaction` |
| TransactionsClient.GetTransactionById | server/transactions.ts:35-47 | a body-less GET of the transaction's address; else `Failed to fetch transaction` |
| TransactionsClient.UpdateTransaction | server/transactions.ts:49-65 | PATCH of `/transactions/{id}` like the RTK update, with the bearer header; else the detail message with default `Failed to update transaction` |
| TransactionsClient.DeleteTransaction | server/transactions.ts:67-79 | DELETE of `/transactions/{id}` with the bearer header; no value on success, else the detail message with default `Failed to delete transaction` |
| TransactionsClient.AgreesWithRtk | server/transactions.ts:3-79 | every transaction endpoint's wrapper request matches the RTK one, up to the credential for the empty token |
| CategoriesClient.GetCategories | server/categories.ts:3-15 | a GET of `/categories` with the bearer header; else `Failed to fetch categories` |
| CategoriesClient.CreateCategory | server/categories.ts:17-33 | a JSON POST to `/categories`; else the detail message with default `Failed to create category` |
| CategoriesClient.GetCategoryById | server/categories.ts:35-47 | a GET of `/categories/{id}`; else the fixed `Failed to fetch category` |
| CategoriesClient.AgreesWithRtk | server/categories.ts:3-33 | both category endpoints' wrapper requests match the RTK ones, up to the credential for the empty token |
| UsersClient.ListPath | server/users.ts:3-4 | the list address carries `offset` (not `skip`) and `limit`, defaulting to 0 and 100 only when omitted |
| UsersClient.SearchPath | server/users.ts:67-68 | the search address carries the encoded query first, then `offset` and `limit` with the same defaults |
| UsersClient.SearchSeparatesQueries | server/users.ts:67-68 | the search address determines the encoded query, the offset and the limit, whatever characters the encoding leaves |
| UsersClient.GetUsers | server/users.ts:3-15 | a body-less GET of the list address; else `Failed to fetch users` |
| UsersClient.CreateUser | server/users.ts:17-33 | a JSON POST to `/user`; else the detail message with default `Failed to create user` |
| UsersClient.GetUserById | server/users.ts:35-47 | a GET of `/user/{id}`; else `Failed to fetch user` |
| UsersClient.UpdateUser | server/users.ts:49-65 | a PUT (not PATCH) of the same address as `getUserById`; else the detail message with default `Failed to update user` |
| UsersClient.SearchUsers | server/users.ts:67-79 | a GET of the search address; else `Failed to search users` |
| SmsDetector.FindBySystemName | components/SMSDetector.tsx:50-51 | `find` by `system_name` gives the first matching position, and nothing exactly when no category matches |
| SmsDetector.DefaultCategory | components/SMSDetector.tsx:50-52 | the first `food` category if there is one, else the first `transport` one, else `categories[0]`; always a member of the list |
| SmsDetector.Payload | components/SMSDetector.tsx:55-62 | amount, type and description come from the mock entry, the ids from the chosen account and category, the date is today's |
| SmsDetector.Decide | components/SMSDetector.tsx:28-62 | stops with "No Accounts" exactly when accounts are absent or empty, with "No Categories" exactly when accounts exist and categories do not; otherwise submits the picked mock entry for `accounts[0]` and `DefaultCategory` of the categories |
| SmsDetector.AccountsCheckedFirst | components/SMSDetector.tsx:28-36 | with no accounts the result is "No Accounts" whatever the categories are |
| SmsDetector.Summary | components/SMSDetector.tsx:66 | the detected line is the type's wire name, `: KES `, a numeral that reads back as the amount, ` - `, and the description |
| SmsDetector.Detector.constructor | components/SMSDetector.tsx:9-10 | detection starts disabled, with nothing detected |
| SmsDetector.Detector.EnableSmsDetection | components/SMSDetector.tsx:17-24 | sets `isEnabled`, leaves `lastDetected` alone, and alerts "SMS Detection Enabled" |
| SmsDetector.Detector.MockDetectTransaction | components/SMSDetector.tsx:27-81 | the guards send nothing and alert their titles; otherwise it sends the RTK create request for the decided payload, and `lastDetected` becomes the summary only on success and is otherwise unchanged; `isEnabled` never changes |

## Left out

- The network transport: `fetch`, `response.json()` and its parse failures, and the caching and deduplication of RTK Query's `createApi` / `fetchBaseQuery`. Each response is an input `Response(ok, body)`, and a wrapper's call is the request it sends plus its result.
- `fetchBaseQuery` itself: how it joins `baseUrl` with the relative url, its default `content-type` for JSON bodies, and how a `URLSearchParams` body is serialised. The RTK requests are modelled with relative urls, and the form as its ordered pairs.
- Header normalisation by `Headers` beyond lower-case names (value trimming, merging of repeated names).
- Persistence: redux-persist, AsyncStorage and `localStorage` (store.ts:10-28, 55-60, 80), and the `configureStore` wiring (store.ts:64-78).
- The screens `app/login.tsx`, `app/register.tsx`, `app/add-transaction.tsx` and the tab screens: UI, navigation and alerts.
- Floating point: JSON numbers and transaction amounts are integers. `Decimal.IntToString` writes integers the way JavaScript does, but exponent notation and fractions are not modelled. The mock amounts (250.00 and so on) are whole numbers, which JavaScript prints without decimals, so the summary text is exact.
- Json.First: `[0]` on a string takes the first code point, whereas JavaScript takes the first UTF-16 code unit. The two differ only for characters outside the Basic Multilingual Plane.
- Json.ToText: `String()` of an array does not model `undefined` elements or nested cycles, which parsed JSON cannot contain.
- `Date` and `toISOString().split('T')[0]`: the date is the parameter `today`.
- `Math.random()`: the index `pick`, any value below 5.
- UsersClient.SearchPath: `encodeURIComponent` is the parameter `encode`, and the contract states how the address parses only when the encoded query contains no `&`, `=` or `?`. Percent-encoding under section 2.1 of RFC 3986 guarantees this, but the model does not prove it. UsersClient.SearchSeparatesQueries needs no such assumption.
- The SMS component's `isCreating` flag, its JSX rendering and styles, and the message bodies and buttons of its alerts. Only the alert titles are modelled.
- The byte-level spelling of the success title. On disk (components/SMSDetector.tsx:69) it holds the UTF-8 bytes of the check-mark emoji read as Windows-1252 (`âœ…`). `SmsDetector.Detector.MockDetectTransaction` uses the intended character U+2705.
- `console.error` in the failure branch of `mockDetectTransaction`.
