/** The authentication calls of server/auth.ts, which bypass the store and `prepareHeaders`. */
module AuthClient {
  import opened Json
  import opened Http
  import opened Types
  import opened Fetch
  import opened Store
  import Api = AuthApi

  /** The `URLSearchParams` a login form is built in; `append` keeps every pair, in order. */
  class SearchParams {
    var pairs: seq<(string, string)>

    constructor ()
      ensures pairs == []
    {
      pairs := [];
    }

    method Append(name: string, value: string)
      modifies this
      ensures pairs == old(pairs) + [(name, value)]
    {
      pairs := pairs + [(name, value)];
    }
  }

  /**
   * Posts the same form as the RTK `login`, to the same path, with no
   * credential however the store stands.
   */
  method Login(base: string, credentials: LoginRequest, response: Response) returns (c: Call<Json>)
    ensures c.request.url == base + Api.Query(Api.Login(credentials)).url
    ensures c.request.verb == POST && c.request.body == Api.Query(Api.Login(credentials)).body
    ensures c.request.headers == Api.Query(Api.Login(credentials)).headers
    ensures "authorization" !in c.request.headers
    ensures ReturnsBody(c.result, response)
    ensures !response.ok ==> c.result.failure == DetailMessage(response.body, "Login failed")
  {
    var formData := new SearchParams();
    formData.Append("username", credentials.username);
    formData.Append("password", credentials.password);
    formData.Append("grant_type", GrantType(credentials));
    var request := Request(base + "/auth/login", POST, map["content-type" := FormUrlEncoded], FormBody(formData.pairs));
    c := Call(request, Settle(response, DetailOr("Login failed")));
  }

  /** Posts the caller's data as JSON, without a credential. */
  function Register(base: string, userData: Json, response: Response): (c: Call<Json>)
    ensures c.request.url == base + Api.Query(Api.Register(userData)).url
    ensures c.request.verb == POST && c.request.body == JsonBody(userData)
    ensures c.request.headers == map["content-type" := ApplicationJson]
    ensures ReturnsBody(c.result, response)
    ensures !response.ok ==> c.result.failure == DetailMessage(response.body, "Registration failed")
  {
    Write(base + "/auth/register", POST, map["content-type" := ApplicationJson], userData, response, "Registration failed")
  }

  /** Reads the current user with the token it is given, never the stored one. */
  function Whoami(base: string, token: string, response: Response): (c: Call<Json>)
    ensures c.request.url == base + Api.Query(Api.Whoami).url
    ensures c.request.verb == GET && c.request.body == NoBody
    ensures c.request.headers == BearerHeaders(token)
    ensures ReturnsBody(c.result, response)
    ensures !response.ok ==> c.result.failure == Error("Failed to fetch user info")
  {
    Read(base + "/auth/whoami", token, response, "Failed to fetch user info")
  }

  /** A failed login with the API's validation body reports its first non-empty message; a body without `detail` reports the default. */
  lemma LoginFailureMessage(body: Json, msg: string)
    ensures IsValidationError(body, msg) && msg != "" ==> DetailMessage(body, "Login failed") == Error(msg)
    ensures body.Obj? && "detail" !in body.fields ==> DetailMessage(body, "Login failed") == Error("Login failed")
  {
    if IsValidationError(body, msg) { ValidationErrorMessage(body, msg, "Login failed"); }
    if body.Obj? && "detail" !in body.fields { FallbackWithoutDetail(body.fields, "Login failed"); }
  }

  /**
   * The RTK `login` and `register` go through `prepareHeaders`, so they carry
   * the stored token whenever one is set; the wrappers never send one.  Path,
   * method and body agree.
   */
  lemma AgreesWithRtk(base: string, credentials: LoginRequest, userData: Json, response: Response,
                      s: AuthState, user: User, token: string)
    ensures var rtk := Api.Send(Reduce(s, SetAuth(user, token)), Api.Register(userData));
            var c := Register(base, userData, response);
            && c.request.url == base + rtk.url && c.request.verb == rtk.verb && c.request.body == rtk.body
            && "authorization" !in c.request.headers
            && ("authorization" in rtk.headers <==> token != "")
    ensures var rtk := Api.Send(Reduce(s, SetAuth(user, token)), Api.Login(credentials));
            && "authorization" !in Api.Query(Api.Login(credentials)).headers
            && ("authorization" in rtk.headers <==> token != "")
  {
  }
}
