/**
 * The three shapes every wrapper under server/ takes: a read sent with the
 * bearer credential that fails with a fixed message, a JSON write that fails
 * with the first validation message or a default, and a delete that returns
 * nothing.  Each wrapper is one of these applied to its own url and texts.
 */
module Fetch {
  import opened Optional
  import opened Json
  import opened Http
  import opened Types
  import opened Store
  import opened BaseQuery
  import Url
  import Decimal

  /** On an ok response the wrapper returns the parsed body as it is, and otherwise throws. */
  predicate ReturnsBody(r: Result<Json>, response: Response) {
    (r.Ok? <==> response.ok) && (r.Ok? ==> r.value == response.body)
  }

  /** `fetch(url, { headers: { Authorization } })`, throwing `message` on a non-ok response. */
  function Read(url: string, token: string, response: Response, message: string): Call<Json> {
    Call(Request(url, GET, BearerHeaders(token), NoBody), Settle(response, Fixed(message)))
  }

  /** A JSON `POST`, `PATCH` or `PUT` of `data`, throwing the first detail message or `fallback`. */
  function Write(url: string, verb: Method, headers: map<string, string>, data: Json, response: Response, fallback: string)
    : Call<Json>
  {
    Call(Request(url, verb, headers, JsonBody(data)), Settle(response, DetailOr(fallback)))
  }

  /** A `DELETE` with the bearer credential; on success nothing is read or returned. */
  function Remove(url: string, token: string, response: Response, fallback: string): Call<()> {
    Call(Request(url, DELETE, BearerHeaders(token), NoBody), SettleVoid(response, DetailOr(fallback)))
  }

  /** The address of a whole collection, `/<collection>`. */
  function CollectionPath(collection: string): (p: string)
    requires Url.Segment(collection)
    ensures Url.Parse(p) == Some(Url.Target(["", collection], []))
  {
    Url.ParseCollection(collection);
    "/" + collection
  }

  /** The address of one record, `/<collection>/<id>`, with the id as JavaScript prints it. */
  function ItemPath(collection: string, id: int): (p: string)
    requires Url.Segment(collection)
    ensures Url.Parse(p) == Some(Url.Target(["", collection, Decimal.IntToString(id)], []))
  {
    Url.NumeralFits(id);
    Url.ParseItem(collection, Decimal.IntToString(id));
    "/" + collection + "/" + Decimal.IntToString(id)
  }

  /** A wrapper request goes where the RTK arguments `args` go, with the same method and body. */
  predicate SameRoute(request: Request, base: string, args: QueryArgs) {
    request.url == base + args.url && request.verb == args.verb && request.body == args.body
  }

  /** A read's failure depends on the status alone: the error body is never looked at. */
  lemma ReadIgnoresErrorBody(url: string, token: string, r1: Response, r2: Response, message: string)
    requires !r1.ok && !r2.ok
    ensures Read(url, token, r1, message).result == Read(url, token, r2, message).result == Err(Error(message))
  {
  }

  /** A write answered by the API's documented validation error reports that error's message. */
  lemma WriteReportsValidation(url: string, verb: Method, headers: map<string, string>, data: Json,
                               response: Response, fallback: string, msg: string)
    requires !response.ok && IsValidationError(response.body, msg)
    ensures Write(url, verb, headers, data, response, fallback).result == Err(Error(if msg != "" then msg else fallback))
  {
    ValidationErrorMessage(response.body, msg, fallback);
  }

  /**
   * The wrappers put the token in the header whatever it is; the shared
   * `prepareHeaders` sends the same credential for a non-empty stored token
   * and none at all for the empty one.
   */
  lemma CredentialAgainstRtk(request: Request, args: QueryArgs, token: string, s: AuthState, user: User)
    requires "authorization" in request.headers && request.headers["authorization"] == Bearer(token)
    requires "authorization" !in args.headers
    ensures var rtk := Outgoing(args, Reduce(s, SetAuth(user, token)));
            && ("authorization" in rtk.headers <==> token != "")
            && (token != "" ==> rtk.headers["authorization"] == request.headers["authorization"])
  {
  }
}
