/**
 * The dashboard's figures over the ledger: how many transfers are completed
 * and pending, the sent and received totals, the five most recent entries
 * and the first name in the greeting.
 */
module Dashboard {
  import opened MockData
  import opened JsString
  import Analytics

  /** `filter(t => t.status === status).length`. */
  function CountStatus(ts: seq<Transaction>, status: string): (n: nat)
    ensures n <= |ts|
  {
    if ts == [] then 0 else (if ts[0].status == status then 1 else 0) + CountStatus(ts[1..], status)
  }

  /** None is counted exactly when no transfer has the status, all exactly when every one has it. */
  lemma {:induction false} CountStatusExtremes(ts: seq<Transaction>, status: string)
    ensures CountStatus(ts, status) == 0 <==> forall t :: t in ts ==> t.status != status
    ensures CountStatus(ts, status) == |ts| <==> forall t :: t in ts ==> t.status == status
  {
    if ts != [] {
      assert ts == [ts[0]] + ts[1..];
      CountStatusExtremes(ts[1..], status);
    }
  }

  /** Counting over two lists joined is counting over each. */
  lemma {:induction false} CountStatusAppend(a: seq<Transaction>, b: seq<Transaction>, status: string)
    ensures CountStatus(a + b, status) == CountStatus(a, status) + CountStatus(b, status)
  {
    if a == [] {
      assert a + b == b;
    } else {
      assert (a + b)[1..] == a[1..] + b;
      CountStatusAppend(a[1..], b, status);
    }
  }

  /** `completedPayments`: none exactly when no transfer is completed, all exactly when every one is. */
  function CompletedPayments(ts: seq<Transaction>): (n: nat)
    ensures n <= |ts|
    ensures n == 0 <==> forall t :: t in ts ==> t.status != "completed"
    ensures n == |ts| <==> forall t :: t in ts ==> t.status == "completed"
  {
    CountStatusExtremes(ts, "completed");
    CountStatus(ts, "completed")
  }

  /** `pendingPayments`: none exactly when no transfer is pending, all exactly when every one is. */
  function PendingPayments(ts: seq<Transaction>): (n: nat)
    ensures n <= |ts|
    ensures n == 0 <==> forall t :: t in ts ==> t.status != "pending"
    ensures n == |ts| <==> forall t :: t in ts ==> t.status == "pending"
  {
    CountStatusExtremes(ts, "pending");
    CountStatus(ts, "pending")
  }

  /** When every status is "completed" or "pending", the two counts add up to the number of transfers. */
  lemma {:induction false} CountsCoverLedger(ts: seq<Transaction>)
    requires forall t :: t in ts ==> t.status == "completed" || t.status == "pending"
    ensures CompletedPayments(ts) + PendingPayments(ts) == |ts|
  {
    if ts != [] {
      assert ts[0] in ts;
      assert forall t :: t in ts[1..] ==> t in ts;
      CountsCoverLedger(ts[1..]);
    }
  }

  /**
   * The transfers from index `k` on that have the status, counted index by
   * index: the same count as `CountStatus(ts[k..], status)`
   * (`CountStatusUnrolled`), in a form the seed lemma can evaluate cheaply.
   */
  function CountFrom(ts: seq<Transaction>, k: nat, status: string): nat
    requires k <= |ts|
    decreases |ts| - k
  {
    if k == |ts| then 0 else (if ts[k].status == status then 1 else 0) + CountFrom(ts, k + 1, status)
  }

  lemma {:induction false} CountStatusUnrolled(ts: seq<Transaction>, k: nat, status: string)
    requires k <= |ts|
    ensures CountStatus(ts[k..], status) == CountFrom(ts, k, status)
    decreases |ts| - k
  {
    if k < |ts| {
      assert ts[k..][1..] == ts[k + 1..];
      CountStatusUnrolled(ts, k + 1, status);
    } else {
      assert ts[k..] == [];
    }
  }

  /** On the seed ledger: seven completed transfers and one pending. */
  lemma SeedCounts()
    ensures CompletedPayments(MockTransactions) == 7
    ensures PendingPayments(MockTransactions) == 1
  {
    CountStatusUnrolled(MockTransactions, 0, "completed");
    CountStatusUnrolled(MockTransactions, 0, "pending");
    assert MockTransactions[0..] == MockTransactions;
  }

  /** `mockTransactions.slice(0, 5)`: the first five entries, or all of them when there are fewer. */
  function RecentTransactions(ts: seq<Transaction>): (r: seq<Transaction>)
    ensures |r| == if |ts| < 5 then |ts| else 5
    ensures r <= ts
  {
    if |ts| < 5 then ts else ts[..5]
  }

  /** After a payment is put in front, the recent list starts with it and keeps the four entries before. */
  lemma RecentAfterPrepend(t: Transaction, ts: seq<Transaction>)
    ensures RecentTransactions([t] + ts)[0] == t
    ensures RecentTransactions([t] + ts)[1..] == RecentTransactions(ts[..if |ts| < 4 then |ts| else 4])
  {
  }

  /**
   * After a payment is sent, the dashboard shows it first among the recent
   * entries, counts one more completed transfer and no more pending ones,
   * and its sent total (`totalSent`, the analytics page's `totalSpent`)
   * grows by the amount while the received total stays.
   */
  lemma SendShowsOnDashboard(ts: seq<Transaction>, id: int, recipient: string, amount: int, date: string, description: string)
    ensures var t := SentTransaction(id, recipient, amount, date, description);
      && RecentTransactions([t] + ts)[0] == t
      && CompletedPayments([t] + ts) == CompletedPayments(ts) + 1
      && PendingPayments([t] + ts) == PendingPayments(ts)
      && Analytics.TotalSpent([t] + ts) == Analytics.TotalSpent(ts) + amount
      && Analytics.TotalReceived([t] + ts) == Analytics.TotalReceived(ts)
  {
    var t := SentTransaction(id, recipient, amount, date, description);
    assert ([t] + ts)[1..] == ts;
    Analytics.SendRaisesTotalSpent(ts, id, recipient, amount, date, description);
  }

  /** A payment request shows first among the recent entries, counts as one more pending transfer and moves neither total. */
  lemma RequestShowsOnDashboard(ts: seq<Transaction>, id: int, recipient: string, amount: int, date: string, description: string)
    ensures var t := RequestedTransaction(id, recipient, amount, date, description);
      && RecentTransactions([t] + ts)[0] == t
      && CompletedPayments([t] + ts) == CompletedPayments(ts)
      && PendingPayments([t] + ts) == PendingPayments(ts) + 1
      && Analytics.TotalSpent([t] + ts) == Analytics.TotalSpent(ts)
      && Analytics.TotalReceived([t] + ts) == Analytics.TotalReceived(ts)
  {
    var t := RequestedTransaction(id, recipient, amount, date, description);
    assert ([t] + ts)[1..] == ts;
    Analytics.RequestLeavesTotals(ts, id, recipient, amount, date, description);
  }

  /** `user?.name?.split(' ')[0]`: the name up to its first space; nothing when there is no user. */
  function GreetingName(user: Option<User>): (g: string)
    ensures user.None? ==> g == ""
    ensures user.Some? ==> g <= user.value.name && ' ' !in g
    ensures user.Some? && |g| < |user.value.name| ==> user.value.name[|g|] == ' '
  {
    if user.None? then "" else SplitHead(user.value.name, ' ')
  }

  /** For the seed user the greeting says "John". */
  lemma SeedGreeting()
    ensures GreetingName(Some(MockUser)) == "John"
  {
    assert MockUser.name == "John" + [' '] + "Doe";
  }
}
