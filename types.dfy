/** The records of the remote API that the core reads or builds (server/types.ts). */
module Types {
  import opened Optional
  import Json

  const DefaultApiBaseUrl := "http://localhost:8000/api/v1"

  /** `API_BASE_URL`: the configured address when one is set and non-empty, else the local default. */
  function ApiBaseUrl(configured: Option<string>): (u: string)
    ensures u != ""
    ensures configured.Some? && configured.value != "" ==> u == configured.value
    ensures configured.None? || configured.value == "" ==> u == DefaultApiBaseUrl
  {
    match configured
    case Some(c) => if c != "" then c else DefaultApiBaseUrl
    case None => DefaultApiBaseUrl
  }

  datatype User = User(
    id: int, first_name: string, last_name: string, email: string,
    phone_number: string, active: bool, created_at: string, updated_at: string)

  /** The OAuth 2.0 password-grant credentials; only the first three reach the wire. */
  datatype LoginRequest = LoginRequest(
    username: string, password: string, grant_type: Option<string>,
    scope: Option<string>, client_id: Option<string>, client_secret: Option<string>)

  /** `credentials.grant_type || 'password'`: a missing or empty grant type becomes "password". */
  function GrantType(credentials: LoginRequest): (g: string)
    ensures g != ""
    ensures credentials.grant_type.Some? && credentials.grant_type.value != "" ==> g == credentials.grant_type.value
    ensures credentials.grant_type.None? || credentials.grant_type.value == "" ==> g == "password"
  {
    match credentials.grant_type
    case Some(g) => if g != "" then g else "password"
    case None => "password"
  }

  datatype AccountType = Checking | Savings | Credit

  datatype Account = Account(
    id: int, user_id: int, name: string, initial_balance: string, current_balance: string,
    currency: string, kind: AccountType, is_active: bool, created_by: int, updated_by: int,
    created_at: string, updated_at: string)

  datatype Category = Category(id: int, name: string, system_name: string, is_custom: bool, user_id: int)

  datatype TransactionType = Income | Expense {
    function Name(): string {
      match this
      case Income => "INCOME"
      case Expense => "EXPENSE"
    }
  }

  /** The transaction type a wire name stands for. */
  function TypeNamed(name: string): (r: Option<TransactionType>)
    ensures forall k: TransactionType :: r == Some(k) <==> k.Name() == name
  {
    if name == "INCOME" then Some(Income) else if name == "EXPENSE" then Some(Expense) else None
  }

  /** The body of a create-transaction request; amounts are integral here. */
  datatype TransactionCreate = TransactionCreate(
    amount: int, transaction_type: TransactionType, account_id: int,
    category_id: int, description: string, transaction_date: string)

  /** The JSON object `JSON.stringify` sends for a `TransactionCreate`. */
  function TransactionCreateJson(t: TransactionCreate): (j: Json.Json)
    ensures j.Obj? && j.fields.Keys == {"amount", "transaction_type", "account_id", "category_id", "description", "transaction_date"}
    ensures j.fields["account_id"] == Json.Num(t.account_id) && j.fields["category_id"] == Json.Num(t.category_id)
  {
    Json.Obj(map[
      "amount" := Json.Num(t.amount),
      "transaction_type" := Json.Str(t.transaction_type.Name()),
      "account_id" := Json.Num(t.account_id),
      "category_id" := Json.Num(t.category_id),
      "description" := Json.Str(t.description),
      "transaction_date" := Json.Str(t.transaction_date)])
  }

  /** Reads a `TransactionCreate` back from its JSON object. */
  function ReadTransactionCreate(j: Json.Json): Option<TransactionCreate> {
    if !j.Obj? then None
    else
      var f := j.fields;
      if && "amount" in f && f["amount"].Num? && "transaction_type" in f && f["transaction_type"].Str?
         && "account_id" in f && f["account_id"].Num? && "category_id" in f && f["category_id"].Num?
         && "description" in f && f["description"].Str? && "transaction_date" in f && f["transaction_date"].Str?
      then
        match TypeNamed(f["transaction_type"].s)
        case None => None
        case Some(kind) =>
          Some(TransactionCreate(f["amount"].n, kind, f["account_id"].n, f["category_id"].n,
                                 f["description"].s, f["transaction_date"].s))
      else None
  }

  /** The JSON payload carries every field of the record, so distinct records are sent differently. */
  lemma ReadTransactionCreateJson(t: TransactionCreate)
    ensures ReadTransactionCreate(TransactionCreateJson(t)) == Some(t)
  {
    assert TypeNamed(t.transaction_type.Name()) == Some(t.transaction_type);
  }
}
