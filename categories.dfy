/** The category calls of server/categories.ts. */
module CategoriesClient {
  import opened Optional
  import opened Json
  import opened Http
  import opened Types
  import opened Store
  import opened BaseQuery
  import opened Fetch
  import Url
  import Decimal
  import Api = CategoriesApi

  function GetCategories(base: string, token: string, response: Response): (c: Call<Json>)
    ensures SameRoute(c.request, base, Api.Query(Api.GetCategories))
    ensures c.request.headers == BearerHeaders(token)
    ensures ReturnsBody(c.result, response)
    ensures !response.ok ==> c.result.failure == Error("Failed to fetch categories")
  {
    Read(base + "/categories", token, response, "Failed to fetch categories")
  }

  function CreateCategory(base: string, token: string, categoryData: Json, response: Response): (c: Call<Json>)
    ensures SameRoute(c.request, base, Api.Query(Api.CreateCategory(categoryData)))
    ensures c.request.headers == BearerJsonHeaders(token)
    ensures ReturnsBody(c.result, response)
    ensures !response.ok ==> c.result.failure == DetailMessage(response.body, "Failed to create category")
  {
    Write(base + "/categories", POST, BearerJsonHeaders(token), categoryData, response, "Failed to create category")
  }

  /** The one call without an RTK counterpart: a read of `/categories/<id>`. */
  function GetCategoryById(base: string, token: string, categoryId: int, response: Response): (c: Call<Json>)
    ensures c.request.url == base + ItemPath("categories", categoryId)
    ensures c.request.verb == GET && c.request.body == NoBody
    ensures c.request.headers == BearerHeaders(token)
    ensures ReturnsBody(c.result, response)
    ensures !response.ok ==> c.result.failure == Error("Failed to fetch category")
  {
    Read(base + ItemPath("categories", categoryId), token, response, "Failed to fetch category")
  }

  function RequestFor(base: string, token: string, e: Api.Endpoint, response: Response): Request {
    match e
    case GetCategories => GetCategories(base, token, response).request
    case CreateCategory(data) => CreateCategory(base, token, data, response).request
  }

  /** The wrappers and the RTK endpoints agree, up to the credential for an empty token. */
  lemma AgreesWithRtk(base: string, token: string, s: AuthState, user: User, e: Api.Endpoint, response: Response)
    ensures var request := RequestFor(base, token, e, response);
            var rtk := Api.Send(Reduce(s, SetAuth(user, token)), e);
            && request.url == base + rtk.url && request.verb == rtk.verb && request.body == rtk.body
            && request.headers["authorization"] == Bearer(token)
            && ("authorization" in rtk.headers <==> token != "")
            && (token != "" ==> rtk.headers["authorization"] == request.headers["authorization"])
  {
    CredentialAgainstRtk(RequestFor(base, token, e, response), Api.Query(e), token, s, user);
  }
}
