/** The RTK Query endpoints of server/authApi.ts. */
module AuthApi {
  import opened Optional
  import opened Json
  import opened Http
  import Url
  import opened Types
  import opened Store
  import opened BaseQuery

  datatype Endpoint = Login(credentials: LoginRequest) | Whoami | Register(userData: Json)

  /** The form `login` posts: username, password and grant type, in that order. */
  function LoginForm(credentials: LoginRequest): seq<(string, string)> {
    [("username", credentials.username), ("password", credentials.password), ("grant_type", GrantType(credentials))]
  }

  function Query(e: Endpoint): (q: QueryArgs)
    ensures e.Login? <==> "content-type" in q.headers
    ensures e.Login? ==> q.headers == map["content-type" := FormUrlEncoded] && q.verb == POST
  {
    match e
    case Login(credentials) =>
      QueryArgs("/auth/login", POST, FormBody(LoginForm(credentials)), map["content-type" := FormUrlEncoded])
    case Whoami => Get("/auth/whoami")
    case Register(userData) => QueryArgs("/auth/register", POST, JsonBody(userData), map[])
  }

  /**
   * The login a form stands for.  `scope`, `client_id` and `client_secret`
   * never reach the request, and the grant type is sent already defaulted.
   */
  function Canonical(e: Endpoint): Endpoint {
    match e
    case Login(c) => Login(LoginRequest(c.username, c.password, Some(GrantType(c)), None, None, None))
    case _ => e
  }

  function Recognize(q: QueryArgs): Option<Endpoint> {
    match Url.Parse(q.url)
    case None => None
    case Some(t) =>
      if t.params != [] || |t.segments| != 3 || t.segments[0] != "" || t.segments[1] != "auth" then None
      else Classify(t.segments[2], q.verb, q.body, q.headers)
  }

  function Classify(action: string, verb: Method, body: Body, headers: map<string, string>): Option<Endpoint> {
    if action == "login" then
      if headers == map["content-type" := FormUrlEncoded] && verb == POST && body.FormBody?
         && |body.pairs| == 3 && body.pairs[0].0 == "username" && body.pairs[1].0 == "password"
         && body.pairs[2].0 == "grant_type" && body.pairs[2].1 != ""
      then Some(Login(LoginRequest(body.pairs[0].1, body.pairs[1].1, Some(body.pairs[2].1), None, None, None)))
      else None
    else if headers != map[] then None
    else if action == "whoami" && verb == GET && body == NoBody then Some(Whoami)
    else if action == "register" && verb == POST && body.JsonBody? then Some(Register(body.value))
    else None
  }

  /** The last path segment of each endpoint. */
  function Action(e: Endpoint): (a: string)
    ensures Url.Segment(a)
  {
    match e
    case Login(_) => "login"
    case Whoami => "whoami"
    case Register(_) => "register"
  }

  lemma QueryAddress(e: Endpoint)
    ensures Url.Parse(Query(e).url) == Some(Url.Target(["", "auth", Action(e)], []))
  {
    QueryText(e);
    Url.ParseItem("auth", Action(e));
  }

  lemma QueryText(e: Endpoint)
    ensures Query(e).url == "/" + "auth" + "/" + Action(e)
  {
    assert "/" + "auth" + "/" == "/auth/";
  }

  /**
   * `Recognize` inverts `Query` up to what the request cannot show: two
   * logins are sent alike exactly when they agree on username, password and
   * defaulted grant type.
   */
  lemma RecognizeQuery(q: QueryArgs, e: Endpoint)
    ensures Recognize(q) == Some(e) <==> q == Query(e) && e == Canonical(e)
  {
    if q == Query(e) && e == Canonical(e) { RecognizeOfQuery(e); }
    if Recognize(q) == Some(e) { QueryOfRecognize(q, e); }
  }

  lemma RecognizeOfQuery(e: Endpoint)
    ensures Recognize(Query(e)) == Some(Canonical(e))
  {
    var q := Query(e);
    QueryAddress(e);
    RecognizeAt(q, Url.Target(["", "auth", Action(e)], []));
    ClassifyQuery(e);
  }

  lemma ClassifyQuery(e: Endpoint)
    ensures Classify(Action(e), Query(e).verb, Query(e).body, Query(e).headers) == Some(Canonical(e))
  {
  }

  /** Once the url parses to `/auth/<action>`, recognising is classifying. */
  lemma RecognizeAt(q: QueryArgs, t: Url.Target)
    requires Url.Parse(q.url) == Some(t)
    requires t.params == [] && |t.segments| == 3 && t.segments[0] == "" && t.segments[1] == "auth"
    ensures Recognize(q) == Classify(t.segments[2], q.verb, q.body, q.headers)
  {
  }

  lemma QueryOfRecognize(q: QueryArgs, e: Endpoint)
    requires Recognize(q) == Some(e)
    ensures q == Query(e) && e == Canonical(e)
  {
    var t := Url.Parse(q.url).value;
    RecognizeAt(q, t);
    Url.ThreeSegments(q.url, t);
    QueryOfClassify(q, t.segments[2], e);
  }

  lemma QueryOfClassify(q: QueryArgs, action: string, e: Endpoint)
    requires Classify(action, q.verb, q.body, q.headers) == Some(e)
    requires q.url == "" + "/" + "auth" + "/" + action
    ensures q == Query(e) && e == Canonical(e)
  {
    if action == "login" {
      var pairs := q.body.pairs;
      assert pairs == [(pairs[0].0, pairs[0].1), (pairs[1].0, pairs[1].1), (pairs[2].0, pairs[2].1)];
      assert q.url == "/auth/login";
    } else if action == "whoami" {
      assert q.url == "/auth/whoami";
    } else {
      assert q.url == "/auth/register";
    }
  }

  /** Two logins produce the same arguments exactly when they have the same canonical form. */
  lemma LoginQueryIff(c: LoginRequest, d: LoginRequest)
    ensures Query(Login(c)) == Query(Login(d)) <==> Canonical(Login(c)) == Canonical(Login(d))
  {
    if Query(Login(c)) == Query(Login(d)) {
      assert LoginForm(c)[2].1 == LoginForm(d)[2].1;
    }
  }

  function Send(state: AuthState, e: Endpoint): (r: Request)
    ensures "authorization" in r.headers <==> TokenTruthy(state.token)
    ensures TokenTruthy(state.token) ==> r.headers["authorization"] == Bearer(state.token.value)
    ensures e.Login? ==> "content-type" in r.headers && r.headers["content-type"] == FormUrlEncoded
    ensures r.url == Query(e).url && r.verb == Query(e).verb && r.body == Query(e).body
  {
    Outgoing(Query(e), state)
  }

  /**
   * Logging in while a session is stored sends the old token along: the
   * shared `prepareHeaders` does not exempt `login`.
   */
  lemma LoginCarriesStoredToken(s: AuthState, user: User, token: string, credentials: LoginRequest)
    requires token != ""
    ensures Send(Reduce(s, SetAuth(user, token)), Login(credentials)).headers
         == map["content-type" := FormUrlEncoded, "authorization" := Bearer(token)]
  {
  }

  lemma SessionHeader(s: AuthState, actions: seq<AuthAction>, e: Endpoint)
    requires actions != []
    ensures var r := Send(Run(s, actions), e);
            var last := actions[|actions| - 1];
            && ("authorization" in r.headers <==> last.SetAuth? && last.token != "")
            && (last.SetAuth? && last.token != "" ==> r.headers["authorization"] == Bearer(last.token))
  {
    SessionCredential(Query(e), s, actions);
  }
}
