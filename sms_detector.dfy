/**
 * The demo detector of components/SMSDetector.tsx: it stands in for reading
 * bank SMS messages by posting one of five fixed transactions against the
 * first account and a preferred category.  `Math.random()` becomes the index
 * `pick`, today's date the string `today`, and the outcome of the RTK
 * `createTransaction` call the response it is answered with.
 */
module SmsDetector {
  import opened Optional
  import opened Json
  import opened Http
  import opened Types
  import opened Store
  import Decimal
  import Api = TransactionsApi

  datatype MockEntry = MockEntry(amount: int, kind: TransactionType, description: string)

  const MockTransactions: seq<MockEntry> := [
    MockEntry(250, Expense, "Grocery shopping at QuickMart"),
    MockEntry(1500, Income, "Salary deposit from TechCorp"),
    MockEntry(45, Expense, "Uber ride to downtown"),
    MockEntry(120, Expense, "Electricity bill payment"),
    MockEntry(300, Income, "Freelance payment received")
  ]

  /** `categories.find(cat => cat.system_name === name)`, as the index of the first match. */
  function FindBySystemName(categories: seq<Category>, name: string): (r: Option<nat>)
    ensures r.Some? ==> r.value < |categories| && categories[r.value].system_name == name
    ensures r.Some? ==> forall j :: 0 <= j < r.value ==> categories[j].system_name != name
    ensures r.None? <==> forall j :: 0 <= j < |categories| ==> categories[j].system_name != name
  {
    if |categories| == 0 then None
    else if categories[0].system_name == name then Some(0)
    else
      match FindBySystemName(categories[1..], name)
      case None => None
      case Some(i) => Some(i + 1)
  }

  predicate HasSystemName(categories: seq<Category>, name: string) {
    exists j :: 0 <= j < |categories| && categories[j].system_name == name
  }

  /** Position `i` holds the first category named `name`. */
  predicate FirstWith(categories: seq<Category>, i: int, name: string) {
    && 0 <= i < |categories| && categories[i].system_name == name
    && forall j :: 0 <= j < i ==> categories[j].system_name != name
  }

  /** The first `food` category, else the first `transport` one, else the first of all. */
  function DefaultCategory(categories: seq<Category>): (c: Category)
    requires |categories| > 0
    ensures c in categories
    ensures HasSystemName(categories, "food") ==>
      exists i :: FirstWith(categories, i, "food") && c == categories[i]
    ensures !HasSystemName(categories, "food") && HasSystemName(categories, "transport") ==>
      exists i :: FirstWith(categories, i, "transport") && c == categories[i]
    ensures !HasSystemName(categories, "food") && !HasSystemName(categories, "transport") ==> c == categories[0]
  {
    match FindBySystemName(categories, "food")
    case Some(i) => assert FirstWith(categories, i, "food"); categories[i]
    case None =>
      match FindBySystemName(categories, "transport")
      case Some(i) => assert FirstWith(categories, i, "transport"); categories[i]
      case None => categories[0]
  }

  /** The record `mockDetectTransaction` posts. */
  function Payload(account: Account, category: Category, entry: MockEntry, today: string): (t: TransactionCreate)
    ensures t.account_id == account.id && t.category_id == category.id
    ensures t.amount == entry.amount && t.transaction_type == entry.kind && t.description == entry.description
    ensures t.transaction_date == today
  {
    TransactionCreate(entry.amount, entry.kind, account.id, category.id, entry.description, today)
  }

  /**
   * `${type}: KES ${amount} - ${description}`, the line shown after a success:
   * the type's wire name, then a numeral that reads back as the amount, then
   * the description.
   */
  function Summary(entry: MockEntry): (s: string)
    ensures exists numeral :: Decimal.ParseInt(numeral) == Some(entry.amount)
                            && s == entry.kind.Name() + ": KES " + numeral + " - " + entry.description
  {
    Decimal.ParseIntToString(entry.amount);
    entry.kind.Name() + ": KES " + Decimal.IntToString(entry.amount) + " - " + entry.description
  }

  /** What a detection does before any request: stop at a guard, or submit a payload. */
  datatype Decision = NoAccounts | NoCategories | Submit(payload: TransactionCreate)

  predicate Present<T>(list: Option<seq<T>>) {
    list.Some? && |list.value| > 0
  }

  /** The guards in order, then the default choices. */
  function Decide(accounts: Option<seq<Account>>, categories: Option<seq<Category>>, pick: nat, today: string)
    : (d: Decision)
    requires pick < |MockTransactions|
    ensures d == NoAccounts <==> !Present(accounts)
    ensures d == NoCategories <==> Present(accounts) && !Present(categories)
    ensures d.Submit? ==> && d.payload.account_id == accounts.value[0].id
                          && d.payload.category_id == DefaultCategory(categories.value).id
                          && d.payload.amount == MockTransactions[pick].amount
                          && d.payload.transaction_type == MockTransactions[pick].kind
                          && d.payload.description == MockTransactions[pick].description
                          && d.payload.transaction_date == today
  {
    if !Present(accounts) then NoAccounts
    else if !Present(categories) then NoCategories
    else Submit(Payload(accounts.value[0], DefaultCategory(categories.value), MockTransactions[pick], today))
  }

  /** The accounts check comes first: with no accounts, the categories are never looked at. */
  lemma AccountsCheckedFirst(c1: Option<seq<Category>>, c2: Option<seq<Category>>, pick: nat, today: string)
    requires pick < |MockTransactions|
    ensures Decide(None, c1, pick, today) == Decide(Some([]), c2, pick, today) == NoAccounts
  {
  }

  /** The component's two pieces of state. */
  class Detector {
    var isEnabled: bool
    var lastDetected: Option<string>

    constructor ()
      ensures !isEnabled && lastDetected == None
    {
      isEnabled := false;
      lastDetected := None;
    }

    /** Switches detection on and returns the title of the alert shown; nothing switches it off again. */
    method EnableSmsDetection() returns (title: string)
      modifies this
      ensures isEnabled && lastDetected == old(lastDetected)
      ensures title == "SMS Detection Enabled"
    {
      isEnabled := true;
      title := "SMS Detection Enabled";
    }

    /**
     * `mockDetectTransaction`: returns the request sent, if any, and the
     * title of the alert shown.  `lastDetected` moves only when the request
     * succeeds.
     */
    method MockDetectTransaction(accounts: Option<seq<Account>>, categories: Option<seq<Category>>,
                                 pick: nat, today: string, state: AuthState, response: Response)
      returns (sent: Option<Request>, title: string)
      requires pick < |MockTransactions|
      modifies this
      ensures isEnabled == old(isEnabled)
      ensures Decide(accounts, categories, pick, today) == NoAccounts ==>
        sent == None && title == "No Accounts" && lastDetected == old(lastDetected)
      ensures Decide(accounts, categories, pick, today) == NoCategories ==>
        sent == None && title == "No Categories" && lastDetected == old(lastDetected)
      ensures Decide(accounts, categories, pick, today).Submit? ==>
        var payload := Decide(accounts, categories, pick, today).payload;
        && sent == Some(Api.Send(state, Api.CreateTransaction(TransactionCreateJson(payload))))
        && (response.ok ==> title == "Transaction Added! \U{2705}" && lastDetected == Some(Summary(MockTransactions[pick])))
        && (!response.ok ==> title == "Detection Failed" && lastDetected == old(lastDetected))
    {
      if accounts.None? || |accounts.value| == 0 {
        return None, "No Accounts";
      }
      if categories.None? || |categories.value| == 0 {
        return None, "No Categories";
      }
      var entry := MockTransactions[pick];
      var account := accounts.value[0];
      var category := DefaultCategory(categories.value);
      var payload := Payload(account, category, entry, today);
      sent := Some(Api.Send(state, Api.CreateTransaction(TransactionCreateJson(payload))));
      if response.ok {
        lastDetected := Some(Summary(entry));
        title := "Transaction Added! \U{2705}";
      } else {
        title := "Detection Failed";
      }
    }
  }
}
