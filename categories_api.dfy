/** The RTK Query endpoints of server/categoriesApi.ts. */
module CategoriesApi {
  import opened Optional
  import opened Json
  import opened Http
  import Url
  import opened Store
  import opened BaseQuery

  datatype Endpoint = GetCategories | CreateCategory(category: Json)

  function Query(e: Endpoint): (q: QueryArgs)
    ensures q.headers == map[]
    ensures q.body == if e.CreateCategory? then JsonBody(e.category) else NoBody
  {
    match e
    case GetCategories => Get("/categories")
    case CreateCategory(category) => QueryArgs("/categories", POST, JsonBody(category), map[])
  }

  /** Both endpoints address the one collection `/categories`; the method tells them apart. */
  function Recognize(q: QueryArgs): Option<Endpoint> {
    if q.headers != map[] then None
    else
      match Url.Parse(q.url)
      case None => None
      case Some(t) => Classify(q.verb, q.body, t)
  }

  function Classify(verb: Method, body: Body, t: Url.Target): Option<Endpoint> {
    if t != Url.Target(["", "categories"], []) then None
    else
      match (verb, body)
      case (GET, NoBody) => Some(GetCategories)
      case (POST, JsonBody(category)) => Some(CreateCategory(category))
      case _ => None
  }

  /** `Recognize` is the exact inverse of `Query`. */
  lemma RecognizeQuery(q: QueryArgs, e: Endpoint)
    ensures Recognize(q) == Some(e) <==> q == Query(e)
  {
    if q == Query(e) { RecognizeOfQuery(e); }
    if Recognize(q) == Some(e) { QueryOfRecognize(q, e); }
  }

  lemma RecognizeOfQuery(e: Endpoint)
    ensures Recognize(Query(e)) == Some(e)
  {
    var q := Query(e);
    QueryAddress(e);
    assert Recognize(q) == Classify(q.verb, q.body, Url.Target(["", "categories"], []));
  }

  lemma QueryAddress(e: Endpoint)
    ensures Url.Parse(Query(e).url) == Some(Url.Target(["", "categories"], []))
  {
    assert Query(e).url == "/" + "categories";
    Url.ParseCollection("categories");
  }

  lemma QueryOfRecognize(q: QueryArgs, e: Endpoint)
    requires Recognize(q) == Some(e)
    ensures q == Query(e)
  {
    var t := Url.Parse(q.url).value;
    Url.TwoSegments(q.url, t);
    QueryOfClassify(q, t, e);
  }

  lemma QueryOfClassify(q: QueryArgs, t: Url.Target, e: Endpoint)
    requires q.headers == map[] && Classify(q.verb, q.body, t) == Some(e)
    requires |t.segments| == 2 && q.url == t.segments[0] + "/" + t.segments[1]
    ensures q == Query(e)
  {
    assert "" + "/" + "categories" == "/categories";
  }

  function Send(state: AuthState, e: Endpoint): (r: Request)
    ensures "authorization" in r.headers <==> TokenTruthy(state.token)
    ensures TokenTruthy(state.token) ==> r.headers["authorization"] == Bearer(state.token.value)
    ensures r.url == Query(e).url && r.verb == Query(e).verb && r.body == Query(e).body
  {
    Outgoing(Query(e), state)
  }

  lemma SessionHeader(s: AuthState, actions: seq<AuthAction>, e: Endpoint)
    requires actions != []
    ensures var r := Send(Run(s, actions), e);
            var last := actions[|actions| - 1];
            && ("authorization" in r.headers <==> last.SetAuth? && last.token != "")
            && (last.SetAuth? && last.token != "" ==> r.headers["authorization"] == Bearer(last.token))
  {
    SessionCredential(Query(e), s, actions);
  }
}
