/**
 * Requests, responses and the way the fetch wrappers under server/ turn a
 * response into a result or a thrown error.  Header names are kept in lower
 * case, as the Fetch standard's `Headers` stores them.
 */
module Http {
  import opened Optional
  import opened Json

  datatype Method = GET | POST | PUT | PATCH | DELETE

  datatype Body = NoBody | JsonBody(value: Json) | FormBody(pairs: seq<(string, string)>)

  datatype Request = Request(url: string, verb: Method, headers: map<string, string>, body: Body)

  /** What the transport hands back: the `ok` flag (a 2xx status) and the parsed body. */
  datatype Response = Response(ok: bool, body: Json)

  /**
   * What a failed call throws: an `Error` with a message, or the `TypeError`
   * JavaScript raises when the error body is `null` and `.detail` is read from it.
   */
  datatype Failure = Error(message: string) | TypeError

  datatype Result<T> = Ok(value: T) | Err(failure: Failure)

  /** One call of a fetch wrapper: the request it sends and what it returns or throws. */
  datatype Call<T> = Call(request: Request, result: Result<T>)

  const FormUrlEncoded := "application/x-www-form-urlencoded"
  const ApplicationJson := "application/json"

  function Bearer(token: string): string {
    "Bearer " + token
  }

  /** The headers of a wrapper that reads: only the bearer credential, whatever the token is. */
  function BearerHeaders(token: string): (h: map<string, string>)
    ensures h.Keys == {"authorization"} && h["authorization"] == Bearer(token)
  {
    map["authorization" := Bearer(token)]
  }

  /** The headers of a wrapper that sends JSON with the bearer credential. */
  function BearerJsonHeaders(token: string): (h: map<string, string>)
    ensures h.Keys == {"authorization", "content-type"}
    ensures h["authorization"] == Bearer(token) && h["content-type"] == ApplicationJson
  {
    map["authorization" := Bearer(token), "content-type" := ApplicationJson]
  }

  /** `error.detail?.[0]?.msg` for an error body that is not null. */
  function FirstDetailMsg(body: Json): (r: Option<Json>)
    requires body != Null
    ensures r.Some? <==>
      && body.Obj? && "detail" in body.fields && body.fields["detail"] != Null
      && First(body.fields["detail"]).Some?
      && First(body.fields["detail"]).value.Obj? && "msg" in First(body.fields["detail"]).value.fields
    ensures r.Some? ==> r.value == First(body.fields["detail"]).value.fields["msg"]
  {
    match Property(body, "detail")
    case None => None
    case Some(detail) =>
      if detail == Null then None
      else
        match First(detail)
        case None => None
        case Some(entry) => if entry == Null then None else Property(entry, "msg")
  }

  /** `new Error(error.detail?.[0]?.msg || fallback)`, or the `TypeError` of reading `.detail` from `null`. */
  function DetailMessage(body: Json, fallback: string): (f: Failure)
    ensures f == TypeError <==> body == Null
    ensures body != Null && FirstDetailMsg(body).Some? && Truthy(FirstDetailMsg(body).value) ==>
      f == Error(ToText(FirstDetailMsg(body).value))
    ensures body != Null && (FirstDetailMsg(body).None? || !Truthy(FirstDetailMsg(body).value)) ==> f == Error(fallback)
  {
    if body == Null then TypeError
    else
      match FirstDetailMsg(body)
      case Some(msg) => if Truthy(msg) then Error(ToText(msg)) else Error(fallback)
      case None => Error(fallback)
  }

  /** How a wrapper reports a failed response. */
  datatype OnFailure =
    | Fixed(message: string)       // a constant message, without reading the body
    | DetailOr(fallback: string)   // the first validation message, else the fallback

  function Failed(response: Response, onFailure: OnFailure): Failure {
    match onFailure
    case Fixed(message) => Error(message)
    case DetailOr(fallback) => DetailMessage(response.body, fallback)
  }

  /** `if (!response.ok) throw …; return response.json();` */
  function Settle(response: Response, onFailure: OnFailure): Result<Json> {
    if response.ok then Ok(response.body) else Err(Failed(response, onFailure))
  }

  /** `if (!response.ok) throw …;` with nothing returned on success. */
  function SettleVoid(response: Response, onFailure: OnFailure): Result<()> {
    if response.ok then Ok(()) else Err(Failed(response, onFailure))
  }

  /** The shape the API documents for a 4xx body: `{ "detail": [ { "msg": … }, … ] }`. */
  predicate IsValidationError(body: Json, msg: string) {
    && body.Obj? && "detail" in body.fields
    && body.fields["detail"].Arr? && |body.fields["detail"].items| > 0
    && body.fields["detail"].items[0].Obj? && "msg" in body.fields["detail"].items[0].fields
    && body.fields["detail"].items[0].fields["msg"] == Str(msg)
  }

  /** A documented validation error surfaces its first message, or the fallback when that message is empty. */
  lemma ValidationErrorMessage(body: Json, msg: string, fallback: string)
    requires IsValidationError(body, msg)
    ensures DetailMessage(body, fallback) == Error(if msg != "" then msg else fallback)
  {
  }

  /** Bodies without a first entry carrying a `msg` fall back to the default text. */
  lemma FallbackWithoutDetail(fields: map<string, Json>, fallback: string)
    requires "detail" !in fields || fields["detail"] == Null || fields["detail"] == Arr([])
    ensures DetailMessage(Obj(fields), fallback) == Error(fallback)
  {
  }

  /** A `detail` that is a plain string (as a bare HTTP error carries) also falls back: its first character has no `msg`. */
  lemma FallbackForTextDetail(fields: map<string, Json>, text: string, fallback: string)
    requires "detail" in fields && fields["detail"] == Str(text)
    ensures DetailMessage(Obj(fields), fallback) == Error(fallback)
  {
  }

  /** The fallback is never used while the first entry's `msg` is a non-empty string. */
  lemma DetailWins(body: Json, fallback: string, msg: string)
    requires body != Null && FirstDetailMsg(body) == Some(Str(msg)) && msg != ""
    ensures DetailMessage(body, fallback) == Error(msg)
  {
  }
}
