/** The account calls of server/accounts.ts. */
module AccountsClient {
  import opened Json
  import opened Http
  import opened Types
  import opened Store
  import opened BaseQuery
  import opened Fetch
  import Decimal
  import Api = AccountsApi

  function GetAccounts(base: string, token: string, response: Response): (c: Call<Json>)
    ensures SameRoute(c.request, base, Api.Query(Api.GetAccounts))
    ensures c.request.headers == BearerHeaders(token)
    ensures ReturnsBody(c.result, response)
    ensures !response.ok ==> c.result.failure == Error("Failed to fetch accounts")
  {
    Read(base + "/accounts/", token, response, "Failed to fetch accounts")
  }

  function CreateAccount(base: string, token: string, accountData: Json, response: Response): (c: Call<Json>)
    ensures SameRoute(c.request, base, Api.Query(Api.CreateAccount(accountData)))
    ensures c.request.headers == BearerJsonHeaders(token)
    ensures ReturnsBody(c.result, response)
    ensures !response.ok ==> c.result.failure == DetailMessage(response.body, "Failed to create account")
  {
    Write(base + "/accounts/", POST, BearerJsonHeaders(token), accountData, response, "Failed to create account")
  }

  /** Reads the account at the address the RTK `updateAccount` and `deleteAccount` use. */
  function GetAccountById(base: string, token: string, accountId: int, response: Response): (c: Call<Json>)
    ensures c.request.url == base + Api.Query(Api.DeleteAccount(accountId)).url
    ensures c.request.verb == GET && c.request.body == NoBody
    ensures c.request.headers == BearerHeaders(token)
    ensures ReturnsBody(c.result, response)
    ensures !response.ok ==> c.result.failure == Error("Failed to fetch account")
  {
    Read(base + "/accounts/" + Decimal.IntToString(accountId), token, response, "Failed to fetch account")
  }

  function UpdateAccount(base: string, token: string, accountId: int, accountData: Json, response: Response)
    : (c: Call<Json>)
    ensures SameRoute(c.request, base, Api.Query(Api.UpdateAccount(accountId, accountData)))
    ensures c.request.headers == BearerJsonHeaders(token)
    ensures ReturnsBody(c.result, response)
    ensures !response.ok ==> c.result.failure == DetailMessage(response.body, "Failed to update account")
  {
    Write(base + "/accounts/" + Decimal.IntToString(accountId), PATCH, BearerJsonHeaders(token), accountData, response,
          "Failed to update account")
  }

  /** Succeeds with no value: the body of an ok response is not read. */
  function DeleteAccount(base: string, token: string, accountId: int, response: Response): (c: Call<()>)
    ensures SameRoute(c.request, base, Api.Query(Api.DeleteAccount(accountId)))
    ensures c.request.headers == BearerHeaders(token)
    ensures c.result.Ok? <==> response.ok
    ensures !response.ok ==> c.result.failure == DetailMessage(response.body, "Failed to delete account")
  {
    Remove(base + "/accounts/" + Decimal.IntToString(accountId), token, response, "Failed to delete account")
  }

  /** The wrapper request for the call an RTK endpoint also makes. */
  function RequestFor(base: string, token: string, e: Api.Endpoint, response: Response): Request {
    match e
    case GetAccounts => GetAccounts(base, token, response).request
    case CreateAccount(data) => CreateAccount(base, token, data, response).request
    case UpdateAccount(id, data) => UpdateAccount(base, token, id, data, response).request
    case DeleteAccount(id) => DeleteAccount(base, token, id, response).request
  }

  /**
   * The wrappers and the RTK endpoints send the same request for a session
   * with a non-empty token; for the empty token only the wrappers send a
   * (useless) credential.
   */
  lemma AgreesWithRtk(base: string, token: string, s: AuthState, user: User, e: Api.Endpoint, response: Response)
    ensures var request := RequestFor(base, token, e, response);
            var rtk := Api.Send(Reduce(s, SetAuth(user, token)), e);
            && request.url == base + rtk.url && request.verb == rtk.verb && request.body == rtk.body
            && request.headers["authorization"] == Bearer(token)
            && ("authorization" in rtk.headers <==> token != "")
            && (token != "" ==> rtk.headers["authorization"] == request.headers["authorization"])
  {
    CredentialAgainstRtk(RequestFor(base, token, e, response), Api.Query(e), token, s, user);
  }
}
