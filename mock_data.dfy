/**
 * The mock data module of PaySphere: the seed user and ledger, the chart
 * palette, the mock authentication service that writes the browser's
 * key-value store, and the two payment actions that prepend a new
 * transaction to the shared ledger array.
 *
 * Money is held in integer cents (150.00 is 15000).
 */
module MockData {

  datatype Option<T> = None | Some(value: T)

  /** The account record: `mockUser` and the users that signup builds from it. */
  datatype User = User(id: int, name: string, email: string, avatar: string, balance: int, accountNumber: string)

  const MockUser := User(1, "John Doe", "john.doe@example.com",
    "https://images.unsplash.com/photo-1472099645785-5658abf4ff4e?w=100&h=100&fit=crop&crop=face",
    1245075, "****1234")

  /**
   * One ledger entry. `kind` is the source's `type` ("sent" or "received");
   * `status` is "completed" or "pending"; an empty `category` stands for a
   * missing one.
   */
  datatype Transaction = Transaction(
    id: int, kind: string, recipient: string, amount: int, date: string,
    status: string, category: string, description: string)

  const MockTransactions: seq<Transaction> := [
    Transaction(1, "sent", "Sarah Johnson", 15000, "2024-07-15", "completed", "food", "Dinner payment"),
    Transaction(2, "received", "Mike Chen", 32050, "2024-07-14", "completed", "work", "Freelance payment"),
    Transaction(3, "sent", "Netflix", 1599, "2024-07-13", "completed", "entertainment", "Monthly subscription"),
    Transaction(4, "sent", "Uber", 2345, "2024-07-12", "completed", "transport", "Ride to airport"),
    Transaction(5, "received", "Emma Wilson", 7500, "2024-07-11", "pending", "personal", "Split dinner bill"),
    Transaction(6, "sent", "Amazon", 8999, "2024-07-10", "completed", "shopping", "Online purchase"),
    Transaction(7, "sent", "Starbucks", 1250, "2024-07-09", "completed", "food", "Morning coffee"),
    Transaction(8, "received", "David Kim", 20000, "2024-07-08", "completed", "personal", "Loan repayment")
  ]

  /** An entry of `mockChartData.categorySpending`; the analytics page takes only its colour. */
  datatype ChartCategory = ChartCategory(category: string, amount: int, color: string)

  const MockCategorySpending: seq<ChartCategory> := [
    ChartCategory("Food", 89000, "#22c55e"),
    ChartCategory("Transport", 45000, "#3b82f6"),
    ChartCategory("Entertainment", 32000, "#f59e0b"),
    ChartCategory("Shopping", 65000, "#ef4444"),
    ChartCategory("Utilities", 28000, "#8b5cf6")
  ]

  // ---------------------------------------------------------------------
  // The key-value store and mockAuth
  // ---------------------------------------------------------------------

  /** A stored value: a plain string, or a user record kept as JSON. */
  datatype Stored = Text(text: string) | Json(user: User)

  /** The browser's key-value store, as one finite map. */
  class Storage {
    var items: map<string, Stored>

    constructor (items: map<string, Stored>)
      ensures this.items == items
    {
      this.items := items;
    }
  }

  const IsAuthenticatedKey := "isAuthenticated"
  const UserKey := "user"
  const DemoEmail := "john.doe@example.com"
  const DemoPassword := "password123"
  const InvalidCredentials := "Invalid credentials"

  /** `{ success: true, user }` or `{ success: false, error }`. */
  datatype AuthResult = Success(user: User) | Failure(error: string)

  /** `mockAuth.isAuthenticated()`: the stored flag is the string "true". */
  predicate IsAuthenticated(store: Storage)
    reads store
  {
    IsAuthenticatedKey in store.items && store.items[IsAuthenticatedKey] == Text("true")
  }

  /** `mockAuth.getCurrentUser()`: the stored user record, or null. */
  function GetCurrentUser(store: Storage): (u: Option<User>)
    reads store
    ensures u.Some? <==> UserKey in store.items && store.items[UserKey].Json?
    ensures u.Some? ==> store.items[UserKey] == Json(u.value)
  {
    if UserKey in store.items && store.items[UserKey].Json? then Some(store.items[UserKey].user) else None
  }

  /** The store after a session for `u` was saved: the flag and the record written, every other key kept. */
  function SessionSaved(items: map<string, Stored>, u: User): map<string, Stored>
  {
    items[IsAuthenticatedKey := Text("true")][UserKey := Json(u)]
  }

  /** `mockAuth.login`: only the demo credential pair succeeds; a failure writes nothing. */
  method Login(store: Storage, email: string, password: string) returns (r: AuthResult)
    modifies store
    ensures r.Success? <==> email == DemoEmail && password == DemoPassword
    ensures r.Success? ==> r.user == MockUser && store.items == SessionSaved(old(store.items), MockUser)
    ensures r.Failure? ==> r.error == InvalidCredentials && store.items == old(store.items)
    ensures r.Success? ==> IsAuthenticated(store) && GetCurrentUser(store) == Some(r.user)
  {
    if email == DemoEmail && password == DemoPassword {
      store.items := store.items[IsAuthenticatedKey := Text("true")];
      store.items := store.items[UserKey := Json(MockUser)];
      return Success(MockUser);
    }
    return Failure(InvalidCredentials);
  }

  /** `mockAuth.signup`: always succeeds with the seed user renamed; nothing else of it changes. */
  method Signup(store: Storage, name: string, email: string, password: string) returns (r: AuthResult)
    modifies store
    ensures r.Success?
    ensures r.user.name == name && r.user.email == email
    ensures r.user.id == MockUser.id && r.user.avatar == MockUser.avatar
    ensures r.user.balance == MockUser.balance && r.user.accountNumber == MockUser.accountNumber
    ensures store.items == SessionSaved(old(store.items), r.user)
    ensures IsAuthenticated(store) && GetCurrentUser(store) == Some(r.user)
  {
    var newUser := MockUser.(name := name, email := email);
    store.items := store.items[IsAuthenticatedKey := Text("true")];
    store.items := store.items[UserKey := Json(newUser)];
    return Success(newUser);
  }

  /** `mockAuth.logout`: removes both session keys and keeps every other key. */
  method Logout(store: Storage)
    modifies store
    ensures store.items == old(store.items) - {IsAuthenticatedKey, UserKey}
    ensures !IsAuthenticated(store) && GetCurrentUser(store) == None
  {
    store.items := store.items - {IsAuthenticatedKey};
    store.items := store.items - {UserKey};
  }

  /** Logging out twice leaves the store as logging out once does. */
  method LogoutTwice(store: Storage)
    modifies store
    ensures store.items == old(store.items) - {IsAuthenticatedKey, UserKey}
  {
    Logout(store);
    ghost var once := store.items;
    Logout(store);
    assert store.items == once;
  }

  // ---------------------------------------------------------------------
  // The ledger array and mockPaymentActions
  // ---------------------------------------------------------------------

  /** The module-level `mockTransactions` array, newest first. */
  class Ledger {
    var transactions: seq<Transaction>

    constructor ()
      ensures transactions == MockTransactions
    {
      transactions := MockTransactions;
    }
  }

  /** `{ success: true, transaction }`. */
  datatype PaymentResult = PaymentResult(success: bool, transaction: Transaction)

  /** The record `sendPayment` builds; `id` and `date` stand for `Date.now()` and today's date. */
  function SentTransaction(id: int, recipient: string, amount: int, date: string, description: string): Transaction
  {
    Transaction(id, "sent", recipient, amount, date, "completed", "personal", description)
  }

  /** The record `requestPayment` builds. */
  function RequestedTransaction(id: int, recipient: string, amount: int, date: string, description: string): Transaction
  {
    Transaction(id, "received", recipient, amount, date, "pending", "personal", description)
  }

  /** `mockPaymentActions.sendPayment`: a completed outgoing transfer put at the front of the ledger. */
  method SendPayment(ledger: Ledger, recipient: string, amount: int, description: string, id: int, date: string)
    returns (r: PaymentResult)
    modifies ledger
    ensures r.success
    ensures r.transaction == SentTransaction(id, recipient, amount, date, description)
    ensures ledger.transactions == [r.transaction] + old(ledger.transactions)
    ensures |ledger.transactions| == |old(ledger.transactions)| + 1
    ensures forall i :: 0 <= i < |old(ledger.transactions)| ==> ledger.transactions[i + 1] == old(ledger.transactions)[i]
  {
    var t := SentTransaction(id, recipient, amount, date, description);
    ledger.transactions := [t] + ledger.transactions;
    return PaymentResult(true, t);
  }

  /** `mockPaymentActions.requestPayment`: a pending incoming request put at the front of the ledger. */
  method RequestPayment(ledger: Ledger, recipient: string, amount: int, description: string, id: int, date: string)
    returns (r: PaymentResult)
    modifies ledger
    ensures r.success
    ensures r.transaction == RequestedTransaction(id, recipient, amount, date, description)
    ensures ledger.transactions == [r.transaction] + old(ledger.transactions)
    ensures |ledger.transactions| == |old(ledger.transactions)| + 1
    ensures forall i :: 0 <= i < |old(ledger.transactions)| ==> ledger.transactions[i + 1] == old(ledger.transactions)[i]
  {
    var t := RequestedTransaction(id, recipient, amount, date, description);
    ledger.transactions := [t] + ledger.transactions;
    return PaymentResult(true, t);
  }
}
