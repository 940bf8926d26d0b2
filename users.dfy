/**
 * The user calls of server/users.ts.  `encodeURIComponent` is a parameter
 * `encode`: percent-encoding (section 2.1 of RFC 3986) is not modelled.
 */
module UsersClient {
  import opened Optional
  import opened Json
  import opened Http
  import opened Fetch
  import Url
  import Decimal

  const DefaultOffset := 0
  const DefaultLimit := 100

  /** `/user?offset=O&limit=L`: paging by `offset`, not `skip`, with defaults for omitted arguments only. */
  function ListPath(offset: Option<int>, limit: Option<int>): (p: string)
    ensures Url.Parse(p) == Some(Url.Target(["", "user"], [
      ("offset", Decimal.IntToString(offset.GetOr(DefaultOffset))),
      ("limit", Decimal.IntToString(limit.GetOr(DefaultLimit)))]))
  {
    var o, l := Decimal.IntToString(offset.GetOr(DefaultOffset)), Decimal.IntToString(limit.GetOr(DefaultLimit));
    ListUrl(offset.GetOr(DefaultOffset), limit.GetOr(DefaultLimit));
    "/user?offset=" + o + "&limit=" + l
  }

  lemma ListUrl(offset: int, limit: int)
    ensures Url.Parse("/user?offset=" + Decimal.IntToString(offset) + "&limit=" + Decimal.IntToString(limit))
         == Some(Url.Target(["", "user"], [("offset", Decimal.IntToString(offset)), ("limit", Decimal.IntToString(limit))]))
  {
    var o, l := Decimal.IntToString(offset), Decimal.IntToString(limit);
    ListWellFormed(offset, limit);
    ListText(o, l);
    Url.ParseTwoParams(["", "user"], "offset", o, "limit", l);
  }

  lemma ListWellFormed(offset: int, limit: int)
    ensures Url.WellFormed(Url.Target(["", "user"], [
      ("offset", Decimal.IntToString(offset)), ("limit", Decimal.IntToString(limit))]))
  {
    Url.NumeralFits(offset);
    Url.NumeralFits(limit);
    assert Url.Segment("") && Url.Segment("user") && Url.Component("offset") && Url.Component("limit");
    Url.TwoParamsWellFormed("", "user", "offset", Decimal.IntToString(offset), "limit", Decimal.IntToString(limit));
  }

  lemma ListText(o: string, l: string)
    ensures "/user?offset=" + o + "&limit=" + l
         == Url.Join(["", "user"], '/') + "?" + "offset" + "=" + o + "&" + "limit" + "=" + l
  {
    Url.Join2("", "user", '/');
    var path := Url.Join(["", "user"], '/');
    assert path == "/user";
    var head, tail := path + "?" + "offset" + "=", "&" + "limit" + "=";
    assert head == "/user?offset=";
    assert tail == "&limit=";
    calc {
      path + "?" + "offset" + "=" + o + "&" + "limit" + "=" + l;
      head + o + tail + l;
    }
  }

  /**
   * `/user/search?query=Q&offset=O&limit=L`: the encoded query comes first.
   * When the encoding leaves no `&`, `=` or `?` (as percent-encoding
   * guarantees), the address reads back as exactly these three parameters.
   */
  function SearchPath(encode: string -> string, query: string, offset: Option<int>, limit: Option<int>): (p: string)
    ensures Url.Component(encode(query)) ==>
      Url.Parse(p) == Some(Url.Target(["", "user", "search"], [
        ("query", encode(query)),
        ("offset", Decimal.IntToString(offset.GetOr(DefaultOffset))),
        ("limit", Decimal.IntToString(limit.GetOr(DefaultLimit)))]))
  {
    var q, o, l := encode(query), Decimal.IntToString(offset.GetOr(DefaultOffset)), Decimal.IntToString(limit.GetOr(DefaultLimit));
    var p := "/user/search?query=" + q + "&offset=" + o + "&limit=" + l;
    if Url.Component(q) then SearchUrl(q, offset.GetOr(DefaultOffset), limit.GetOr(DefaultLimit)); p else p
  }

  lemma SearchUrl(q: string, offset: int, limit: int)
    requires Url.Component(q)
    ensures Url.Parse("/user/search?query=" + q + "&offset=" + Decimal.IntToString(offset) + "&limit=" + Decimal.IntToString(limit))
      == Some(Url.Target(["", "user", "search"], [
           ("query", q), ("offset", Decimal.IntToString(offset)), ("limit", Decimal.IntToString(limit))]))
  {
    var o, l := Decimal.IntToString(offset), Decimal.IntToString(limit);
    SearchWellFormed(q, offset, limit);
    SearchText(q, o, l);
    Url.ParseThreeParams(["", "user", "search"], "query", q, "offset", o, "limit", l);
  }

  lemma SearchWellFormed(q: string, offset: int, limit: int)
    requires Url.Component(q)
    ensures Url.WellFormed(Url.Target(["", "user", "search"], [
      ("query", q), ("offset", Decimal.IntToString(offset)), ("limit", Decimal.IntToString(limit))]))
  {
    Url.NumeralFits(offset);
    Url.NumeralFits(limit);
    assert Url.Segment("") && Url.Segment("user") && Url.Segment("search");
    assert Url.Component("query") && Url.Component("offset") && Url.Component("limit");
    Url.ThreeParamsWellFormed("", "user", "search", "query", q, "offset", Decimal.IntToString(offset),
                              "limit", Decimal.IntToString(limit));
  }

  lemma SearchText(q: string, o: string, l: string)
    ensures "/user/search?query=" + q + "&offset=" + o + "&limit=" + l
         == Url.Join(["", "user", "search"], '/') + "?" + "query" + "=" + q + "&" + "offset" + "=" + o + "&" + "limit" + "=" + l
  {
    Url.Join3("", "user", "search", '/');
    var path := Url.Join(["", "user", "search"], '/');
    assert path == "/user/search";
    var head, mid, tail := path + "?" + "query" + "=", "&" + "offset" + "=", "&" + "limit" + "=";
    assert head == "/user/search?query=";
    assert mid == "&offset=";
    assert tail == "&limit=";
    calc {
      path + "?" + "query" + "=" + q + "&" + "offset" + "=" + o + "&" + "limit" + "=" + l;
      head + q + mid + o + tail + l;
      "/user/search?query=" + q + "&offset=" + o + "&limit=" + l;
    }
  }

  /** In `a + sep + n`, the separator's last `=` is followed only by the characters of `n`. */
  lemma SeparatorAt(a: string, sep: string, n: string, k: int)
    ensures |sep| > 0 && sep[|sep| - 1] == '=' ==> (a + sep + n)[|a| + |sep| - 1] == '='
    ensures '=' !in n && |a| + |sep| <= k < |a + sep + n| ==> (a + sep + n)[k] != '='
  {
    if '=' !in n && |a| + |sep| <= k < |a + sep + n| {
      assert (a + sep + n)[k] == n[k - |a| - |sep|];
    }
  }

  /**
   * Text ending in a separator that closes with `=` and then a word without
   * `=` splits at that separator in one way only.
   */
  lemma StripLast(a: string, sep: string, n: string, b: string, m: string)
    requires |sep| > 0 && sep[|sep| - 1] == '='
    requires '=' !in n && '=' !in m
    requires a + sep + n == b + sep + m
    ensures a == b && n == m
  {
    var x, y := a + sep + n, b + sep + m;
    // A longer tail would put the separator's closing `=` inside the other tail.
    if |n| < |m| {
      SeparatorAt(a, sep, n, |x| - |n| - 1);
      SeparatorAt(b, sep, m, |x| - |n| - 1);
      assert false;
    }
    if |m| < |n| {
      SeparatorAt(a, sep, n, |y| - |m| - 1);
      SeparatorAt(b, sep, m, |y| - |m| - 1);
      assert false;
    }
    assert n == x[|x| - |n|..] == m;
    assert a + sep == x[..|x| - |n|] == b + sep;
    assert a == (a + sep)[..|a|] == (b + sep)[..|b|] == b;
  }

  /**
   * The search address determines the encoded query and the paging,
   * whatever characters the encoding leaves: the numerals at the end hold
   * no `=`, so the last `&offset=` and `&limit=` are the real separators.
   */
  lemma SearchSeparatesQueries(encode: string -> string, q1: string, q2: string,
                               o1: Option<int>, l1: Option<int>, o2: Option<int>, l2: Option<int>)
    ensures SearchPath(encode, q1, o1, l1) == SearchPath(encode, q2, o2, l2) ==>
              && encode(q1) == encode(q2)
              && o1.GetOr(DefaultOffset) == o2.GetOr(DefaultOffset)
              && l1.GetOr(DefaultLimit) == l2.GetOr(DefaultLimit)
  {
    var e1, e2 := encode(q1), encode(q2);
    var n1, n2 := o1.GetOr(DefaultOffset), o2.GetOr(DefaultOffset);
    var m1, m2 := l1.GetOr(DefaultLimit), l2.GetOr(DefaultLimit);
    var s1, s2 := Decimal.IntToString(n1), Decimal.IntToString(n2);
    var t1, t2 := Decimal.IntToString(m1), Decimal.IntToString(m2);
    if SearchPath(encode, q1, o1, l1) == SearchPath(encode, q2, o2, l2) {
      var head := "/user/search?query=";
      assert head + e1 + "&offset=" + s1 + "&limit=" + t1 == head + e2 + "&offset=" + s2 + "&limit=" + t2;
      Url.NumeralFits(n1);
      Url.NumeralFits(n2);
      Url.NumeralFits(m1);
      Url.NumeralFits(m2);
      StripLast(head + e1 + "&offset=" + s1, "&limit=", t1, head + e2 + "&offset=" + s2, t2);
      StripLast(head + e1, "&offset=", s1, head + e2, s2);
      assert e1 == (head + e1)[|head|..] == (head + e2)[|head|..] == e2;
      Decimal.IntToStringInjective(n1, n2);
      Decimal.IntToStringInjective(m1, m2);
    }
  }

  function GetUsers(base: string, token: string, offset: Option<int>, limit: Option<int>, response: Response)
    : (c: Call<Json>)
    ensures c.request.url == base + ListPath(offset, limit)
    ensures c.request.verb == GET && c.request.body == NoBody
    ensures c.request.headers == BearerHeaders(token)
    ensures ReturnsBody(c.result, response)
    ensures !response.ok ==> c.result.failure == Error("Failed to fetch users")
  {
    Read(base + ListPath(offset, limit), token, response, "Failed to fetch users")
  }

  function CreateUser(base: string, token: string, userData: Json, response: Response): (c: Call<Json>)
    ensures c.request.url == base + CollectionPath("user")
    ensures c.request.verb == POST && c.request.body == JsonBody(userData)
    ensures c.request.headers == BearerJsonHeaders(token)
    ensures ReturnsBody(c.result, response)
    ensures !response.ok ==> c.result.failure == DetailMessage(response.body, "Failed to create user")
  {
    Write(base + CollectionPath("user"), POST, BearerJsonHeaders(token), userData, response, "Failed to create user")
  }

  function GetUserById(base: string, token: string, userId: int, response: Response): (c: Call<Json>)
    ensures c.request.url == base + ItemPath("user", userId)
    ensures c.request.verb == GET && c.request.body == NoBody
    ensures c.request.headers == BearerHeaders(token)
    ensures ReturnsBody(c.result, response)
    ensures !response.ok ==> c.result.failure == Error("Failed to fetch user")
  {
    Read(base + ItemPath("user", userId), token, response, "Failed to fetch user")
  }

  /** Users are replaced with `PUT`, where the other resources are patched. */
  function UpdateUser(base: string, token: string, userId: int, userData: Json, response: Response): (c: Call<Json>)
    ensures c.request.url == GetUserById(base, token, userId, response).request.url
    ensures c.request.verb == PUT && c.request.body == JsonBody(userData)
    ensures c.request.headers == BearerJsonHeaders(token)
    ensures ReturnsBody(c.result, response)
    ensures !response.ok ==> c.result.failure == DetailMessage(response.body, "Failed to update user")
  {
    Write(base + ItemPath("user", userId), PUT, BearerJsonHeaders(token), userData, response, "Failed to update user")
  }

  function SearchUsers(base: string, token: string, encode: string -> string, query: string,
                       offset: Option<int>, limit: Option<int>, response: Response): (c: Call<Json>)
    ensures c.request.url == base + SearchPath(encode, query, offset, limit)
    ensures c.request.verb == GET && c.request.body == NoBody
    ensures c.request.headers == BearerHeaders(token)
    ensures ReturnsBody(c.result, response)
    ensures !response.ok ==> c.result.failure == Error("Failed to search users")
  {
    Read(base + SearchPath(encode, query, offset, limit), token, response, "Failed to search users")
  }
}
