/** The RTK Query endpoints of server/transactionsApi.ts. */
module TransactionsApi {
  import opened Optional
  import opened Json
  import opened Http
  import Url
  import Decimal
  import opened Store
  import opened BaseQuery

  /** `getTransactions` takes `{ skip?, limit? }`; an omitted one is `None`. */
  datatype Endpoint =
    | GetTransactions(skip: Option<int>, limit: Option<int>)
    | CreateTransaction(transaction: Json)
    | UpdateTransaction(id: int, transaction: Json)
    | DeleteTransaction(id: int)

  const DefaultSkip := 0
  const DefaultLimit := 100

  function Query(e: Endpoint): (q: QueryArgs)
    ensures q.headers == map[]
    ensures q.body == match e
      case CreateTransaction(transaction) => JsonBody(transaction)
      case UpdateTransaction(_, transaction) => JsonBody(transaction)
      case _ => NoBody
  {
    match e
    case GetTransactions(skip, limit) =>
      Get("/transactions?skip=" + Decimal.IntToString(skip.GetOr(DefaultSkip))
          + "&limit=" + Decimal.IntToString(limit.GetOr(DefaultLimit)))
    case CreateTransaction(transaction) => QueryArgs("/transactions", POST, JsonBody(transaction), map[])
    case UpdateTransaction(id, transaction) =>
      QueryArgs("/transactions/" + Decimal.IntToString(id), PATCH, JsonBody(transaction), map[])
    case DeleteTransaction(id) => QueryArgs("/transactions/" + Decimal.IntToString(id), DELETE, NoBody, map[])
  }

  /** The call with its defaults filled in: the same request, with nothing left to default. */
  function Canonical(e: Endpoint): Endpoint {
    match e
    case GetTransactions(skip, limit) => GetTransactions(Some(skip.GetOr(DefaultSkip)), Some(limit.GetOr(DefaultLimit)))
    case _ => e
  }

  function Address(e: Endpoint): Url.Target {
    match e
    case GetTransactions(skip, limit) =>
      Url.Target(["", "transactions"], [
        ("skip", Decimal.IntToString(skip.GetOr(DefaultSkip))),
        ("limit", Decimal.IntToString(limit.GetOr(DefaultLimit)))])
    case CreateTransaction(_) => Url.Target(["", "transactions"], [])
    case UpdateTransaction(id, _) => Url.Target(["", "transactions", Decimal.IntToString(id)], [])
    case DeleteTransaction(id) => Url.Target(["", "transactions", Decimal.IntToString(id)], [])
  }

  function Recognize(q: QueryArgs): Option<Endpoint> {
    if q.headers != map[] then None
    else
      match Url.Parse(q.url)
      case None => None
      case Some(t) => Classify(q.verb, q.body, t)
  }

  function Classify(verb: Method, body: Body, t: Url.Target): Option<Endpoint> {
    if t.segments == ["", "transactions"] then
      if t.params == [] then
        match (verb, body)
        case (POST, JsonBody(transaction)) => Some(CreateTransaction(transaction))
        case _ => None
      else if |t.params| == 2 && t.params[0].0 == "skip" && t.params[1].0 == "limit"
              && verb == GET && body == NoBody then
        match (Decimal.ParseInt(t.params[0].1), Decimal.ParseInt(t.params[1].1))
        case (Some(skip), Some(limit)) => Some(GetTransactions(Some(skip), Some(limit)))
        case _ => None
      else None
    else if t.params == [] && |t.segments| == 3 && t.segments[0] == "" && t.segments[1] == "transactions" then
      match Decimal.ParseInt(t.segments[2])
      case None => None
      case Some(id) =>
        match (verb, body)
        case (PATCH, JsonBody(transaction)) => Some(UpdateTransaction(id, transaction))
        case (DELETE, NoBody) => Some(DeleteTransaction(id))
        case _ => None
    else None
  }

  /** The list url carries `skip` then `limit`; posting goes to `/transactions` without a trailing slash. */
  lemma QueryAddress(e: Endpoint)
    ensures Url.Parse(Query(e).url) == Some(Address(e))
  {
    match e
    case GetTransactions(skip, limit) => ListAddress(skip.GetOr(DefaultSkip), limit.GetOr(DefaultLimit));
    case CreateTransaction(_) => Url.ParseCollection("transactions");
    case UpdateTransaction(id, _) => ItemAddress(id);
    case DeleteTransaction(id) => ItemAddress(id);
  }

  lemma ListAddress(skip: int, limit: int)
    ensures Url.Parse("/transactions?skip=" + Decimal.IntToString(skip) + "&limit=" + Decimal.IntToString(limit))
         == Some(Url.Target(["", "transactions"], [("skip", Decimal.IntToString(skip)), ("limit", Decimal.IntToString(limit))]))
  {
    var s, l := Decimal.IntToString(skip), Decimal.IntToString(limit);
    ListWellFormed(skip, limit);
    ListText(s, l);
    Url.ParseTwoParams(["", "transactions"], "skip", s, "limit", l);
  }

  lemma ListWellFormed(skip: int, limit: int)
    ensures Url.WellFormed(Url.Target(["", "transactions"], [
      ("skip", Decimal.IntToString(skip)), ("limit", Decimal.IntToString(limit))]))
  {
    Url.NumeralFits(skip);
    Url.NumeralFits(limit);
    assert Url.Segment("") && Url.Segment("transactions") && Url.Component("skip") && Url.Component("limit");
    Url.TwoParamsWellFormed("", "transactions", "skip", Decimal.IntToString(skip), "limit", Decimal.IntToString(limit));
  }

  lemma ListText(s: string, l: string)
    ensures "/transactions?skip=" + s + "&limit=" + l
         == Url.Join(["", "transactions"], '/') + "?" + "skip" + "=" + s + "&" + "limit" + "=" + l
  {
    Url.Join2("", "transactions", '/');
    var path := Url.Join(["", "transactions"], '/');
    assert path == "/transactions";
    var head, tail := path + "?" + "skip" + "=", "&" + "limit" + "=";
    assert head == "/transactions?skip=";
    assert tail == "&limit=";
    calc {
      path + "?" + "skip" + "=" + s + "&" + "limit" + "=" + l;
      head + s + tail + l;
    }
  }

  lemma ItemAddress(id: int)
    ensures Url.Parse("/transactions/" + Decimal.IntToString(id))
         == Some(Url.Target(["", "transactions", Decimal.IntToString(id)], []))
  {
    Url.NumeralFits(id);
    ItemText(Decimal.IntToString(id));
    Url.ParseItem("transactions", Decimal.IntToString(id));
  }

  lemma ItemText(item: string)
    ensures "/transactions/" + item == "/" + "transactions" + "/" + item
  {
    assert "/" + "transactions" + "/" == "/transactions/";
  }

  /** Omitted paging arguments become 0 and 100; given ones, 0 included, are sent as they are. */
  lemma QueryCanonical(e: Endpoint)
    ensures Query(Canonical(e)) == Query(e)
    ensures Canonical(Canonical(e)) == Canonical(e)
  {
  }

  lemma DefaultPaging()
    ensures Query(GetTransactions(None, None)).url == "/transactions?skip=0&limit=100"
    ensures Query(GetTransactions(Some(0), Some(0))).url == "/transactions?skip=0&limit=0"
  {
    assert Decimal.IntToString(100) == "100";
  }

  /** `Recognize` inverts `Query` up to the defaults: distinct canonical calls give distinct arguments. */
  lemma RecognizeQuery(q: QueryArgs, e: Endpoint)
    ensures Recognize(q) == Some(e) <==> q == Query(e) && e == Canonical(e)
  {
    if q == Query(e) && e == Canonical(e) { RecognizeOfQuery(e); }
    if Recognize(q) == Some(e) { QueryOfRecognize(q, e); }
  }

  lemma RecognizeOfQuery(e: Endpoint)
    ensures Recognize(Query(e)) == Some(Canonical(e))
  {
    var q := Query(e);
    QueryAddress(e);
    ClassifyAddress(e);
    assert Recognize(q) == Classify(q.verb, q.body, Address(e));
  }

  lemma ClassifyAddress(e: Endpoint)
    ensures Classify(Query(e).verb, Query(e).body, Address(e)) == Some(Canonical(e))
  {
    match e
    case GetTransactions(skip, limit) =>
      Decimal.ParseIntIff(Decimal.IntToString(skip.GetOr(DefaultSkip)), skip.GetOr(DefaultSkip));
      Decimal.ParseIntIff(Decimal.IntToString(limit.GetOr(DefaultLimit)), limit.GetOr(DefaultLimit));
    case CreateTransaction(_) =>
    case UpdateTransaction(id, _) =>
      Decimal.ParseIntIff(Decimal.IntToString(id), id);
    case DeleteTransaction(id) =>
      Decimal.ParseIntIff(Decimal.IntToString(id), id);
  }

  lemma QueryOfRecognize(q: QueryArgs, e: Endpoint)
    requires Recognize(q) == Some(e)
    ensures q == Query(e) && e == Canonical(e)
  {
    var t := Url.Parse(q.url).value;
    assert Classify(q.verb, q.body, t) == Some(e);
    if t.segments != ["", "transactions"] {
      Url.ThreeSegments(q.url, t);
      QueryOfItemTarget(q, t, e);
    } else if t.params == [] {
      QueryOfCollection(q, t, e);
    } else {
      Url.TwoParams(q.url, t);
      QueryOfListTarget(q, t, e);
    }
  }

  lemma QueryOfCollection(q: QueryArgs, t: Url.Target, e: Endpoint)
    requires Url.Parse(q.url) == Some(t) && t.segments == ["", "transactions"] && t.params == []
    requires q.headers == map[] && Classify(q.verb, q.body, t) == Some(e)
    ensures q == Query(e) && e == Canonical(e)
  {
    Url.TwoSegments(q.url, t);
    assert "" + "/" + "transactions" == "/transactions";
  }

  lemma QueryOfListTarget(q: QueryArgs, t: Url.Target, e: Endpoint)
    requires q.headers == map[] && t.segments == ["", "transactions"] && |t.params| == 2
    requires Classify(q.verb, q.body, t) == Some(e)
    requires q.url == Url.Join(t.segments, '/') + "?" + t.params[0].0 + "=" + t.params[0].1 + "&" + t.params[1].0 + "=" + t.params[1].1
    ensures q == Query(e) && e == Canonical(e)
  {
    var s, l := t.params[0].1, t.params[1].1;
    var skip, limit := Decimal.ParseInt(s).value, Decimal.ParseInt(l).value;
    ListText(s, l);
    assert q.url == "/transactions?skip=" + s + "&limit=" + l;
    Decimal.ParseIntIff(s, skip);
    Decimal.ParseIntIff(l, limit);
    assert e == GetTransactions(Some(skip), Some(limit));
  }

  lemma QueryOfItemTarget(q: QueryArgs, t: Url.Target, e: Endpoint)
    requires q.headers == map[] && t.segments != ["", "transactions"] && Classify(q.verb, q.body, t) == Some(e)
    requires |t.segments| == 3 && q.url == t.segments[0] + "/" + t.segments[1] + "/" + t.segments[2]
    ensures q == Query(e) && e == Canonical(e)
  {
    ItemUrlText(t.segments[2]);
    QueryOfItem(q, t, e);
  }

  lemma ItemUrlText(item: string)
    ensures "" + "/" + "transactions" + "/" + item == "/transactions/" + item
  {
    assert "" + "/" + "transactions" + "/" == "/transactions/";
  }

  lemma QueryOfItem(q: QueryArgs, t: Url.Target, e: Endpoint)
    requires q.headers == map[] && t.segments != ["", "transactions"] && Classify(q.verb, q.body, t) == Some(e)
    requires |t.segments| == 3 && q.url == "/transactions/" + t.segments[2]
    ensures q == Query(e) && e == Canonical(e)
  {
    var item := t.segments[2];
    var id := Decimal.ParseInt(item).value;
    Decimal.ParseIntIff(item, id);
    assert e.id == id;
  }

  function Send(state: AuthState, e: Endpoint): (r: Request)
    ensures "authorization" in r.headers <==> TokenTruthy(state.token)
    ensures TokenTruthy(state.token) ==> r.headers["authorization"] == Bearer(state.token.value)
    ensures r.url == Query(e).url && r.verb == Query(e).verb && r.body == Query(e).body
  {
    Outgoing(Query(e), state)
  }

  lemma SessionHeader(s: AuthState, actions: seq<AuthAction>, e: Endpoint)
    requires actions != []
    ensures var r := Send(Run(s, actions), e);
            var last := actions[|actions| - 1];
            && ("authorization" in r.headers <==> last.SetAuth? && last.token != "")
            && (last.SetAuth? && last.token != "" ==> r.headers["authorization"] == Bearer(last.token))
  {
    SessionCredential(Query(e), s, actions);
  }
}
