/** The transaction calls of server/transactions.ts. */
module TransactionsClient {
  import opened Optional
  import opened Json
  import opened Http
  import opened Types
  import opened Store
  import opened BaseQuery
  import opened Fetch
  import Decimal
  import Api = TransactionsApi

  /** `skip = 0, limit = 100` apply only to an omitted argument, exactly as in the RTK endpoint. */
  function GetTransactions(base: string, token: string, skip: Option<int>, limit: Option<int>, response: Response)
    : (c: Call<Json>)
    ensures SameRoute(c.request, base, Api.Query(Api.GetTransactions(skip, limit)))
    ensures c.request.headers == BearerHeaders(token)
    ensures ReturnsBody(c.result, response)
    ensures !response.ok ==> c.result.failure == Error("Failed to fetch transactions")
  {
    Read(base + "/transactions?skip=" + Decimal.IntToString(skip.GetOr(0)) + "&limit=" + Decimal.IntToString(limit.GetOr(100)),
         token, response, "Failed to fetch transactions")
  }

  function CreateTransaction(base: string, token: string, transactionData: Json, response: Response): (c: Call<Json>)
    ensures SameRoute(c.request, base, Api.Query(Api.CreateTransaction(transactionData)))
    ensures c.request.headers == BearerJsonHeaders(token)
    ensures ReturnsBody(c.result, response)
    ensures !response.ok ==> c.result.failure == DetailMessage(response.body, "Failed to create transaction")
  {
    Write(base + "/transactions", POST, BearerJsonHeaders(token), transactionData, response, "Failed to create transaction")
  }

  /** Reads the transaction at the address the RTK update and delete use. */
  function GetTransactionById(base: string, token: string, transactionId: int, response: Response): (c: Call<Json>)
    ensures c.request.url == base + Api.Query(Api.DeleteTransaction(transactionId)).url
    ensures c.request.verb == GET && c.request.body == NoBody
    ensures c.request.headers == BearerHeaders(token)
    ensures ReturnsBody(c.result, response)
    ensures !response.ok ==> c.result.failure == Error("Failed to fetch transaction")
  {
    Read(base + "/transactions/" + Decimal.IntToString(transactionId), token, response, "Failed to fetch transaction")
  }

  function UpdateTransaction(base: string, token: string, transactionId: int, transactionData: Json, response: Response)
    : (c: Call<Json>)
    ensures SameRoute(c.request, base, Api.Query(Api.UpdateTransaction(transactionId, transactionData)))
    ensures c.request.headers == BearerJsonHeaders(token)
    ensures ReturnsBody(c.result, response)
    ensures !response.ok ==> c.result.failure == DetailMessage(response.body, "Failed to update transaction")
  {
    Write(base + "/transactions/" + Decimal.IntToString(transactionId), PATCH, BearerJsonHeaders(token),
          transactionData, response, "Failed to update transaction")
  }

  function DeleteTransaction(base: string, token: string, transactionId: int, response: Response): (c: Call<()>)
    ensures SameRoute(c.request, base, Api.Query(Api.DeleteTransaction(transactionId)))
    ensures c.request.headers == BearerHeaders(token)
    ensures c.result.Ok? <==> response.ok
    ensures !response.ok ==> c.result.failure == DetailMessage(response.body, "Failed to delete transaction")
  {
    Remove(base + "/transactions/" + Decimal.IntToString(transactionId), token, response, "Failed to delete transaction")
  }

  function RequestFor(base: string, token: string, e: Api.Endpoint, response: Response): Request {
    match e
    case GetTransactions(skip, limit) => GetTransactions(base, token, skip, limit, response).request
    case CreateTransaction(data) => CreateTransaction(base, token, data, response).request
    case UpdateTransaction(id, data) => UpdateTransaction(base, token, id, data, response).request
    case DeleteTransaction(id) => DeleteTransaction(base, token, id, response).request
  }

  /** The wrappers and the RTK endpoints agree, up to the credential for an empty token. */
  lemma AgreesWithRtk(base: string, token: string, s: AuthState, user: User, e: Api.Endpoint, response: Response)
    ensures var request := RequestFor(base, token, e, response);
            var rtk := Api.Send(Reduce(s, SetAuth(user, token)), e);
            && request.url == base + rtk.url && request.verb == rtk.verb && request.body == rtk.body
            && request.headers["authorization"] == Bearer(token)
            && ("authorization" in rtk.headers <==> token != "")
            && (token != "" ==> rtk.headers["authorization"] == request.headers["authorization"])
  {
    CredentialAgainstRtk(RequestFor(base, token, e, response), Api.Query(e), token, s, user);
  }
}
