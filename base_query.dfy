/**
 * The part of each `fetchBaseQuery` the four `*Api.ts` files configure the
 * same way: their `prepareHeaders`, which adds the stored bearer token to an
 * outgoing request when the token is truthy (the header form of section 2.1
 * of RFC 6750).
 */
module BaseQuery {
  import opened Optional
  import opened Http
  import opened Store

  /** An endpoint's `query` result: a bare string is a GET of that url with no body. */
  datatype QueryArgs = QueryArgs(url: string, verb: Method, body: Body, headers: map<string, string>)

  function Get(url: string): QueryArgs {
    QueryArgs(url, GET, NoBody, map[])
  }

  /** JavaScript truthiness of the stored token: null, undefined and "" are falsy. */
  predicate TokenTruthy(token: Option<string>) {
    token.Some? && token.value != ""
  }

  /** The headers `prepareHeaders` leaves for `token`. */
  function WithBearer(headers: map<string, string>, token: Option<string>): (r: map<string, string>)
    ensures "authorization" in r <==> "authorization" in headers || TokenTruthy(token)
    ensures TokenTruthy(token) ==> r["authorization"] == Bearer(token.value)
    ensures forall name :: name in r && name != "authorization" ==> name in headers && r[name] == headers[name]
    ensures forall name :: name in headers && name != "authorization" ==> name in r
    ensures !TokenTruthy(token) ==> r == headers
  {
    if TokenTruthy(token) then headers["authorization" := Bearer(token.value)] else headers
  }

  /** The `Headers` object `prepareHeaders` receives and mutates. */
  class Headers {
    var entries: map<string, string>

    constructor (init: map<string, string>)
      ensures entries == init
    {
      entries := init;
    }

    /** `headers.set(name, value)`: adds the header or replaces its value. */
    method Set(name: string, value: string)
      modifies this
      ensures entries == old(entries)[name := value]
    {
      entries := entries[name := value];
    }
  }

  /** `prepareHeaders(headers, { getState })`, reading `auth.token` from the store. */
  method PrepareHeaders(headers: Headers, state: AuthState) returns (result: Headers)
    modifies headers
    ensures result == headers
    ensures headers.entries == WithBearer(old(headers.entries), state.token)
  {
    var token := state.token;
    if token.Some? && token.value != "" {
      headers.Set("authorization", Bearer(token.value));
    }
    result := headers;
  }

  /** The request the base query sends for `args`: the endpoint's own headers, then `prepareHeaders`. */
  function Outgoing(args: QueryArgs, state: AuthState): Request {
    Request(args.url, args.verb, WithBearer(args.headers, state.token), args.body)
  }

  method Issue(args: QueryArgs, state: AuthState) returns (request: Request)
    ensures request == Outgoing(args, state)
  {
    var headers := new Headers(args.headers);
    headers := PrepareHeaders(headers, state);
    request := Request(args.url, args.verb, headers.entries, args.body);
  }

  /** Once `setAuth` stores a non-empty token, a request without its own credential carries that token. */
  lemma BearerAfterSetAuth(args: QueryArgs, s: AuthState, user: Types.User, token: string)
    requires token != ""
    ensures Outgoing(args, Reduce(s, SetAuth(user, token))).headers["authorization"] == Bearer(token)
  {
  }

  /** After `clearAuth`, a request carries no credential unless its endpoint sets one itself. */
  lemma NoBearerAfterClearAuth(args: QueryArgs, s: AuthState)
    requires "authorization" !in args.headers
    ensures "authorization" !in Outgoing(args, Reduce(s, ClearAuth)).headers
  {
  }

  /**
   * After any run of store actions, a request without its own credential
   * carries the token of the last action when that is `setAuth` with a
   * non-empty token, and nothing otherwise.
   */
  lemma SessionCredential(args: QueryArgs, s: AuthState, actions: seq<AuthAction>)
    requires "authorization" !in args.headers
    requires actions != []
    ensures var r := Outgoing(args, Run(s, actions));
            var last := actions[|actions| - 1];
            && ("authorization" in r.headers <==> last.SetAuth? && last.token != "")
            && (last.SetAuth? && last.token != "" ==> r.headers["authorization"] == Bearer(last.token))
  {
    LastActionWins(s, actions);
  }
}
