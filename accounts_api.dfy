/** The RTK Query endpoints of server/accountsApi.ts. */
module AccountsApi {
  import opened Optional
  import opened Json
  import opened Http
  import Url
  import Decimal
  import opened Store
  import opened BaseQuery

  datatype Endpoint =
    | GetAccounts
    | CreateAccount(account: Json)
    | UpdateAccount(id: int, account: Json)
    | DeleteAccount(id: int)

  /** Each endpoint's `query`. */
  function Query(e: Endpoint): (q: QueryArgs)
    ensures q.headers == map[]
    ensures q.body == match e
      case CreateAccount(account) => JsonBody(account)
      case UpdateAccount(_, account) => JsonBody(account)
      case _ => NoBody
  {
    match e
    case GetAccounts => Get("/accounts/")
    case CreateAccount(account) => QueryArgs("/accounts/", POST, JsonBody(account), map[])
    case UpdateAccount(id, account) => QueryArgs("/accounts/" + Decimal.IntToString(id), PATCH, JsonBody(account), map[])
    case DeleteAccount(id) => QueryArgs("/accounts/" + Decimal.IntToString(id), DELETE, NoBody, map[])
  }

  /** The path each endpoint addresses: the collection `/accounts/` (trailing slash kept) or one account. */
  function Address(e: Endpoint): Url.Target {
    match e
    case UpdateAccount(id, _) => Url.Target(["", "accounts", Decimal.IntToString(id)], [])
    case DeleteAccount(id) => Url.Target(["", "accounts", Decimal.IntToString(id)], [])
    case _ => Url.Target(["", "accounts", ""], [])
  }

  /** Reads an endpoint call back from the arguments it produced. */
  function Recognize(q: QueryArgs): Option<Endpoint> {
    if q.headers != map[] then None
    else
      match Url.Parse(q.url)
      case None => None
      case Some(t) => Classify(q.verb, q.body, t)
  }

  function Classify(verb: Method, body: Body, t: Url.Target): Option<Endpoint> {
    if t.params != [] || |t.segments| != 3 || t.segments[0] != "" || t.segments[1] != "accounts" then None
    else if t.segments[2] == "" then
      match (verb, body)
      case (GET, NoBody) => Some(GetAccounts)
      case (POST, JsonBody(account)) => Some(CreateAccount(account))
      case _ => None
    else
      match Decimal.ParseInt(t.segments[2])
      case None => None
      case Some(id) =>
        match (verb, body)
        case (PATCH, JsonBody(account)) => Some(UpdateAccount(id, account))
        case (DELETE, NoBody) => Some(DeleteAccount(id))
        case _ => None
  }

  /** Each template string denotes the address of its endpoint; the id appears only in the path. */
  lemma QueryAddress(e: Endpoint)
    ensures Url.Parse(Query(e).url) == Some(Address(e))
  {
    var item := Address(e).segments[2];
    ItemFits(e);
    QueryText(e);
    Url.ParseItem("accounts", item);
  }

  lemma ItemFits(e: Endpoint)
    ensures Url.Segment(Address(e).segments[2])
  {
    Url.NumeralFits(if e.UpdateAccount? || e.DeleteAccount? then e.id else 0);
  }

  lemma QueryText(e: Endpoint)
    ensures Query(e).url == "/" + "accounts" + "/" + Address(e).segments[2]
  {
    assert "/" + "accounts" + "/" == "/accounts/";
  }

  /** `Recognize` is the exact inverse of `Query`: every endpoint call gives distinct arguments. */
  lemma RecognizeQuery(q: QueryArgs, e: Endpoint)
    ensures Recognize(q) == Some(e) <==> q == Query(e)
  {
    if q == Query(e) { RecognizeOfQuery(e); }
    if Recognize(q) == Some(e) { QueryOfRecognize(q, e); }
  }

  lemma RecognizeOfQuery(e: Endpoint)
    ensures Recognize(Query(e)) == Some(e)
  {
    var q := Query(e);
    QueryAddress(e);
    ClassifyAddress(e);
    assert Recognize(q) == Classify(q.verb, q.body, Address(e));
  }

  lemma ClassifyAddress(e: Endpoint)
    ensures Classify(Query(e).verb, Query(e).body, Address(e)) == Some(e)
  {
    if e.UpdateAccount? || e.DeleteAccount? {
      Decimal.ParseIntIff(Decimal.IntToString(e.id), e.id);
    }
  }

  lemma QueryOfRecognize(q: QueryArgs, e: Endpoint)
    requires Recognize(q) == Some(e)
    ensures q == Query(e)
  {
    var t := Url.Parse(q.url).value;
    assert Classify(q.verb, q.body, t) == Some(e);
    Url.ThreeSegments(q.url, t);
    QueryOfClassify(q, t, e);
  }

  lemma QueryOfClassify(q: QueryArgs, t: Url.Target, e: Endpoint)
    requires q.headers == map[] && Classify(q.verb, q.body, t) == Some(e)
    requires q.url == t.segments[0] + "/" + t.segments[1] + "/" + t.segments[2]
    ensures q == Query(e)
  {
    var item := t.segments[2];
    ItemText(item);
    if item == "" {
      assert q.url == "/accounts/";
    } else {
      QueryOfItem(q, t, e);
    }
  }

  lemma ItemText(item: string)
    ensures "" + "/" + "accounts" + "/" + item == "/accounts/" + item
  {
    assert "" + "/" + "accounts" + "/" == "/accounts/";
  }

  lemma QueryOfItem(q: QueryArgs, t: Url.Target, e: Endpoint)
    requires q.headers == map[] && Classify(q.verb, q.body, t) == Some(e)
    requires t.segments[2] != "" && q.url == "/accounts/" + t.segments[2]
    ensures q == Query(e)
  {
    var item := t.segments[2];
    var id := Decimal.ParseInt(item).value;
    Decimal.ParseIntIff(item, id);
    assert e.id == id;
  }

  /** The request the base query sends for `e` while the store holds `state`. */
  function Send(state: AuthState, e: Endpoint): (r: Request)
    ensures "authorization" in r.headers <==> TokenTruthy(state.token)
    ensures TokenTruthy(state.token) ==> r.headers["authorization"] == Bearer(state.token.value)
    ensures r.url == Query(e).url && r.verb == Query(e).verb && r.body == Query(e).body
  {
    Outgoing(Query(e), state)
  }

  /** After any run of store actions, a request carries the last `setAuth` token if it is non-empty, and nothing after `clearAuth`. */
  lemma SessionHeader(s: AuthState, actions: seq<AuthAction>, e: Endpoint)
    requires actions != []
    ensures var r := Send(Run(s, actions), e);
            var last := actions[|actions| - 1];
            && ("authorization" in r.headers <==> last.SetAuth? && last.token != "")
            && (last.SetAuth? && last.token != "" ==> r.headers["authorization"] == Bearer(last.token))
  {
    SessionCredential(Query(e), s, actions);
  }
}
