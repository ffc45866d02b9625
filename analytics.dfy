/**
 * The analytics page's aggregates over the ledger: the spent and received
 * totals, the average amount, the per-category spending fold, the chart
 * entries built from it and the share of each category.
 */
module Analytics {
  import opened MockData
  import opened JsString
  import opened Sequences

  // ---------------------------------------------------------------------
  // Sums
  // ---------------------------------------------------------------------

  /** `reduce((sum, t) => sum + t.amount, 0)`. */
  function SumAmounts(ts: seq<Transaction>): int
  {
    if ts == [] then 0 else ts[0].amount + SumAmounts(ts[1..])
  }

  lemma {:induction false} SumAmountsAppend(a: seq<Transaction>, b: seq<Transaction>)
    ensures SumAmounts(a + b) == SumAmounts(a) + SumAmounts(b)
  {
    if a == [] {
      assert a + b == b;
    } else {
      assert (a + b)[1..] == a[1..] + b;
      SumAmountsAppend(a[1..], b);
    }
  }

  /**
   * `filter(t => t.type === kind && t.status === status)`: an
   * order-preserving subsequence holding each transaction of that kind and
   * status as often as the ledger does, and nothing else.
   */
  function Where(ts: seq<Transaction>, kind: string, status: string): (r: seq<Transaction>)
    ensures IsSubsequence(r, ts)
    ensures forall t :: t in r <==> t in ts && t.kind == kind && t.status == status
    ensures forall t :: multiset(r)[t] == if t.kind == kind && t.status == status then multiset(ts)[t] else 0
  {
    if ts == [] then []
    else
      assert ts == [ts[0]] + ts[1..];
      if ts[0].kind == kind && ts[0].status == status then [ts[0]] + Where(ts[1..], kind, status)
    else Where(ts[1..], kind, status)
  }

  /** Filtering a list with one more transaction in front. */
  lemma WhereCons(t: Transaction, ts: seq<Transaction>, kind: string, status: string)
    ensures Where([t] + ts, kind, status) == if t.kind == kind && t.status == status then [t] + Where(ts, kind, status) else Where(ts, kind, status)
  {
    assert ([t] + ts)[0] == t;
    assert ([t] + ts)[1..] == ts;
  }

  /** The sum over a list with one more transaction in front. */
  lemma SumAmountsCons(t: Transaction, ts: seq<Transaction>)
    ensures SumAmounts([t] + ts) == t.amount + SumAmounts(ts)
  {
    assert ([t] + ts)[1..] == ts;
  }

  /** With no negative amounts, the sum over a filtered ledger lies between 0 and the sum over the whole ledger. */
  lemma {:induction false} WhereBounded(ts: seq<Transaction>, kind: string, status: string)
    ensures NonNegativeAmounts(ts) ==> 0 <= SumAmounts(Where(ts, kind, status)) <= SumAmounts(ts)
  {
    if ts != [] && NonNegativeAmounts(ts) {
      assert ts[0] in ts;
      assert forall t :: t in ts[1..] ==> t in ts;
      WhereBounded(ts[1..], kind, status);
      if ts[0].kind == kind && ts[0].status == status {
        SumAmountsCons(ts[0], Where(ts[1..], kind, status));
      }
    }
  }

  /** `totalSpent`: completed outgoing transfers; with no negative amounts, at most the sum of the ledger. */
  function TotalSpent(ts: seq<Transaction>): (r: int)
    ensures ts == [] ==> r == 0
    ensures NonNegativeAmounts(ts) ==> 0 <= r <= SumAmounts(ts)
  {
    WhereBounded(ts, "sent", "completed");
    SumAmounts(Where(ts, "sent", "completed"))
  }

  /** `totalReceived`: completed incoming transfers, pending requests not counted; bounded like `totalSpent`. */
  function TotalReceived(ts: seq<Transaction>): (r: int)
    ensures ts == [] ==> r == 0
    ensures NonNegativeAmounts(ts) ==> 0 <= r <= SumAmounts(ts)
  {
    WhereBounded(ts, "received", "completed");
    SumAmounts(Where(ts, "received", "completed"))
  }

  /** The sum of the transactions of one kind and status in a list with one more in front. */
  lemma WhereSumCons(t: Transaction, ts: seq<Transaction>, kind: string, status: string)
    ensures SumAmounts(Where([t] + ts, kind, status))
            == SumAmounts(Where(ts, kind, status)) + (if t.kind == kind && t.status == status then t.amount else 0)
  {
    WhereCons(t, ts, kind, status);
    SumAmountsCons(t, Where(ts, kind, status));
  }

  /** Putting one transaction in front adds its amount to the one total it belongs to. */
  lemma TotalsOfPrepend(t: Transaction, ts: seq<Transaction>)
    ensures TotalSpent([t] + ts) == TotalSpent(ts) + (if t.kind == "sent" && t.status == "completed" then t.amount else 0)
    ensures TotalReceived([t] + ts) == TotalReceived(ts) + (if t.kind == "received" && t.status == "completed" then t.amount else 0)
  {
    WhereSumCons(t, ts, "sent", "completed");
    WhereSumCons(t, ts, "received", "completed");
  }

  /** A sent payment raises the spent total by its amount and leaves the received total alone. */
  lemma SendRaisesTotalSpent(ts: seq<Transaction>, id: int, recipient: string, amount: int, date: string, description: string)
    ensures TotalSpent([SentTransaction(id, recipient, amount, date, description)] + ts) == TotalSpent(ts) + amount
    ensures TotalReceived([SentTransaction(id, recipient, amount, date, description)] + ts) == TotalReceived(ts)
  {
    TotalsOfPrepend(SentTransaction(id, recipient, amount, date, description), ts);
  }

  /** A payment request is pending, so it changes neither total. */
  lemma RequestLeavesTotals(ts: seq<Transaction>, id: int, recipient: string, amount: int, date: string, description: string)
    ensures TotalReceived([RequestedTransaction(id, recipient, amount, date, description)] + ts) == TotalReceived(ts)
    ensures TotalSpent([RequestedTransaction(id, recipient, amount, date, description)] + ts) == TotalSpent(ts)
  {
    TotalsOfPrepend(RequestedTransaction(id, recipient, amount, date, description), ts);
  }

  /**
   * When every transaction is sent or received and completed or pending,
   * the sum of all amounts splits into the two totals and the two pending sums.
   */
  lemma {:induction false} LedgerSumSplits(ts: seq<Transaction>)
    requires forall t :: t in ts ==> (t.kind == "sent" || t.kind == "received") && (t.status == "completed" || t.status == "pending")
    ensures SumAmounts(ts) == TotalSpent(ts) + TotalReceived(ts)
                              + SumAmounts(Where(ts, "sent", "pending")) + SumAmounts(Where(ts, "received", "pending"))
  {
    if ts != [] {
      var t, rest := ts[0], ts[1..];
      assert ts == [t] + rest;
      LedgerSumSplits(rest);
      WhereSumCons(t, rest, "sent", "completed");
      WhereSumCons(t, rest, "received", "completed");
      WhereSumCons(t, rest, "sent", "pending");
      WhereSumCons(t, rest, "received", "pending");
    }
  }

  /** `avgTransactionAmount`: 0 for an empty ledger, else the sum of all amounts over their count. */
  function AvgTransactionAmount(ts: seq<Transaction>): (avg: real)
    ensures |ts| == 0 ==> avg == 0.0
    ensures |ts| > 0 ==> avg * (|ts| as real) == SumAmounts(ts) as real
  {
    if |ts| > 0 then SumAmounts(ts) as real / |ts| as real else 0.0
  }

  // ---------------------------------------------------------------------
  // Spending by category
  // ---------------------------------------------------------------------

  /** One key of the `categorySpending` object with its value, in insertion order. */
  datatype CategoryTotal = CategoryTotal(category: string, amount: int)

  /** `transaction.category || "other"`: the category when there is one, "other" otherwise; never empty. */
  function CategoryOf(t: Transaction): (c: string)
    ensures c != ""
    ensures t.category != "" ==> c == t.category
    ensures t.category == "" ==> c == "other"
  {
    if t.category == "" then "other" else t.category
  }

  /** The keys of the accumulator. */
  function Categories(acc: seq<CategoryTotal>): set<string>
  {
    if acc == [] then {} else {acc[0].category} + Categories(acc[1..])
  }

  /** No key appears twice. */
  predicate DistinctKeys(acc: seq<CategoryTotal>)
  {
    acc == [] || (acc[0].category !in Categories(acc[1..]) && DistinctKeys(acc[1..]))
  }

  /** The value stored under `key`, or 0 when there is none (`acc[key] || 0`). */
  function AmountFor(acc: seq<CategoryTotal>, key: string): int
  {
    if acc == [] then 0
    else if acc[0].category == key then acc[0].amount
    else AmountFor(acc[1..], key)
  }

  /** The sum of the accumulator's values. */
  function SumTotals(acc: seq<CategoryTotal>): int
  {
    if acc == [] then 0 else acc[0].amount + SumTotals(acc[1..])
  }

  /**
   * `acc[category] = (acc[category] || 0) + amount`: update the key in
   * place, or add it at the end; the other entries keep their places.
   */
  function Accumulate(acc: seq<CategoryTotal>, category: string, amount: int): (r: seq<CategoryTotal>)
    ensures |r| == if category in Categories(acc) then |acc| else |acc| + 1
    ensures forall i :: 0 <= i < |acc| ==> r[i].category == acc[i].category
    ensures category !in Categories(acc) ==> r[|acc|] == CategoryTotal(category, amount)
  {
    if acc == [] then [CategoryTotal(category, amount)]
    else if acc[0].category == category then [acc[0].(amount := acc[0].amount + amount)] + acc[1..]
    else [acc[0]] + Accumulate(acc[1..], category, amount)
  }

  /** One accumulation step adds `category` to the keys, keeps them distinct, and adds `amount` to that key alone. */
  lemma {:induction false} AccumulateStep(acc: seq<CategoryTotal>, category: string, amount: int)
    ensures Categories(Accumulate(acc, category, amount)) == Categories(acc) + {category}
    ensures SumTotals(Accumulate(acc, category, amount)) == SumTotals(acc) + amount
    ensures forall key :: AmountFor(Accumulate(acc, category, amount), key) == AmountFor(acc, key) + (if key == category then amount else 0)
    ensures DistinctKeys(acc) ==> DistinctKeys(Accumulate(acc, category, amount))
  {
    var r := Accumulate(acc, category, amount);
    if acc == [] {
    } else if acc[0].category == category {
      assert r[1..] == acc[1..];
    } else {
      AccumulateStep(acc[1..], category, amount);
      assert r[1..] == Accumulate(acc[1..], category, amount);
    }
  }

  /** The body of the `reduce` over a list of transactions, from left to right. */
  function Tally(acc: seq<CategoryTotal>, ts: seq<Transaction>): seq<CategoryTotal>
    decreases |ts|
  {
    if ts == [] then acc else Tally(Accumulate(acc, CategoryOf(ts[0]), ts[0].amount), ts[1..])
  }

  /**
   * `categorySpending`: the completed outgoing transfers folded by category
   * into `{}`. Its keys are exactly the categories (missing ones counted as
   * "other") of those transfers, each once, and its values add up to
   * `totalSpent`.
   */
  function CategorySpending(ts: seq<Transaction>): (r: seq<CategoryTotal>)
    ensures Categories(r) == CategoriesOf(Where(ts, "sent", "completed"))
    ensures DistinctKeys(r)
    ensures SumTotals(r) == TotalSpent(ts)
  {
    var sent := Where(ts, "sent", "completed");
    TallySum([], sent);
    TallyKeys([], sent);
    Tally([], sent)
  }

  /** `filter(t => (t.category || "other") === key)`. */
  function InCategory(ts: seq<Transaction>, key: string): seq<Transaction>
  {
    if ts == [] then []
    else if CategoryOf(ts[0]) == key then [ts[0]] + InCategory(ts[1..], key)
    else InCategory(ts[1..], key)
  }

  /** The categories the transactions fall into. */
  function CategoriesOf(ts: seq<Transaction>): set<string>
  {
    if ts == [] then {} else {CategoryOf(ts[0])} + CategoriesOf(ts[1..])
  }

  lemma {:induction false} TallySum(acc: seq<CategoryTotal>, ts: seq<Transaction>)
    ensures SumTotals(Tally(acc, ts)) == SumTotals(acc) + SumAmounts(ts)
    decreases |ts|
  {
    if ts != [] {
      AccumulateStep(acc, CategoryOf(ts[0]), ts[0].amount);
      TallySum(Accumulate(acc, CategoryOf(ts[0]), ts[0].amount), ts[1..]);
    }
  }

  lemma {:induction false} TallyKeys(acc: seq<CategoryTotal>, ts: seq<Transaction>)
    ensures Categories(Tally(acc, ts)) == Categories(acc) + CategoriesOf(ts)
    ensures DistinctKeys(acc) ==> DistinctKeys(Tally(acc, ts))
    decreases |ts|
  {
    if ts != [] {
      AccumulateStep(acc, CategoryOf(ts[0]), ts[0].amount);
      TallyKeys(Accumulate(acc, CategoryOf(ts[0]), ts[0].amount), ts[1..]);
    }
  }

  lemma {:induction false} TallyAmount(acc: seq<CategoryTotal>, ts: seq<Transaction>, key: string)
    ensures AmountFor(Tally(acc, ts), key) == AmountFor(acc, key) + SumAmounts(InCategory(ts, key))
    decreases |ts|
  {
    if ts != [] {
      AccumulateStep(acc, CategoryOf(ts[0]), ts[0].amount);
      TallyAmount(Accumulate(acc, CategoryOf(ts[0]), ts[0].amount), ts[1..], key);
      if CategoryOf(ts[0]) == key {
        SumAmountsCons(ts[0], InCategory(ts[1..], key));
      }
    }
  }

  /** Each category's value is the sum over the completed outgoing transfers of that category. */
  lemma CategorySpendingAmount(ts: seq<Transaction>, key: string)
    ensures AmountFor(CategorySpending(ts), key) == SumAmounts(InCategory(Where(ts, "sent", "completed"), key))
  {
    TallyAmount([], Where(ts, "sent", "completed"), key);
  }

  /** A sent payment adds its amount to the "personal" category and to no other. */
  lemma SendAddsToPersonal(ts: seq<Transaction>, id: int, recipient: string, amount: int, date: string, description: string, key: string)
    ensures AmountFor(CategorySpending([SentTransaction(id, recipient, amount, date, description)] + ts), key)
            == AmountFor(CategorySpending(ts), key) + (if key == "personal" then amount else 0)
  {
    var t := SentTransaction(id, recipient, amount, date, description);
    var sent := Where(ts, "sent", "completed");
    WhereCons(t, ts, "sent", "completed");
    assert ([t] + sent)[0] == t && ([t] + sent)[1..] == sent;
    if key == "personal" {
      SumAmountsCons(t, InCategory(sent, key));
    }
    CategorySpendingAmount([t] + ts, key);
    CategorySpendingAmount(ts, key);
  }

  // ---------------------------------------------------------------------
  // Bounds on the shares
  // ---------------------------------------------------------------------

  predicate NonNegativeAmounts(ts: seq<Transaction>)
  {
    forall t :: t in ts ==> t.amount >= 0
  }

  lemma {:induction false} InCategoryBounded(ts: seq<Transaction>, key: string)
    requires NonNegativeAmounts(ts)
    ensures 0 <= SumAmounts(InCategory(ts, key)) <= SumAmounts(ts)
  {
    if ts != [] {
      InCategoryBounded(ts[1..], key);
      if CategoryOf(ts[0]) == key {
        SumAmountsCons(ts[0], InCategory(ts[1..], key));
      }
    }
  }

  lemma {:induction false} InCategoryPositive(ts: seq<Transaction>, key: string)
    requires forall t :: t in ts ==> t.amount > 0
    requires key in CategoriesOf(ts)
    ensures SumAmounts(InCategory(ts, key)) > 0
  {
    InCategoryBounded(ts[1..], key);
    if CategoryOf(ts[0]) == key {
      SumAmountsCons(ts[0], InCategory(ts[1..], key));
    } else {
      InCategoryPositive(ts[1..], key);
    }
  }

  lemma {:induction false} AmountForEntry(acc: seq<CategoryTotal>, i: int)
    requires DistinctKeys(acc) && 0 <= i < |acc|
    ensures acc[i].category in Categories(acc)
    ensures AmountFor(acc, acc[i].category) == acc[i].amount
  {
    if i > 0 {
      AmountForEntry(acc[1..], i - 1);
    }
  }

  /** With non-negative amounts, each category's value lies between 0 and `totalSpent`. */
  lemma CategoryAtMostTotal(ts: seq<Transaction>, i: int)
    requires NonNegativeAmounts(ts)
    requires 0 <= i < |CategorySpending(ts)|
    ensures 0 <= CategorySpending(ts)[i].amount <= TotalSpent(ts)
  {
    var spending := CategorySpending(ts);
    AmountForEntry(spending, i);
    CategorySpendingAmount(ts, spending[i].category);
    InCategoryBounded(Where(ts, "sent", "completed"), spending[i].category);
  }

  /** `category.amount / totalSpent * 100`, for a non-zero total. */
  function Percentage(amount: int, total: int): (p: real)
    requires total != 0
    ensures 0 <= amount <= total ==> 0.0 <= p <= 100.0
    ensures p * (total as real) == (amount as real) * 100.0
  {
    var q := amount as real / total as real;
    assert q * (total as real) == amount as real;
    assert 0 <= amount <= total ==> 0.0 <= q <= 1.0;
    q * 100.0
  }

  /** With positive amounts, a ledger that yields any category has a positive `totalSpent`, and each share lies in 0..100. */
  lemma SharesAreDefined(ts: seq<Transaction>, i: int)
    requires forall t :: t in ts ==> t.amount > 0
    requires 0 <= i < |CategorySpending(ts)|
    ensures TotalSpent(ts) > 0
    ensures 0.0 <= Percentage(CategorySpending(ts)[i].amount, TotalSpent(ts)) <= 100.0
  {
    var spending := CategorySpending(ts);
    var sent := Where(ts, "sent", "completed");
    AmountForEntry(spending, i);
    CategorySpendingAmount(ts, spending[i].category);
    InCategoryPositive(sent, spending[i].category);
    CategoryAtMostTotal(ts, i);
  }

  // ---------------------------------------------------------------------
  // Chart entries (`categoryData`)
  // ---------------------------------------------------------------------

  datatype CategoryDatum = CategoryDatum(category: string, amount: int, color: string)

  const FallbackColor := "#8b5cf6"

  /**
   * `category.charAt(0).toUpperCase() + category.slice(1)`: at most the
   * first character changes, and only to its upper-case form.
   */
  function Capitalize(s: string): (r: string)
    ensures |r| == |s|
    ensures |s| > 0 ==> r[0] == UpperChar(s[0]) && r[1..] == s[1..]
    ensures |s| > 0 ==> !IsLower(r[0])
  {
    if s == [] then [] else [UpperChar(s[0])] + s[1..]
  }

  /** Capitalising twice is capitalising once. */
  lemma CapitalizeIdempotent(s: string)
    ensures Capitalize(Capitalize(s)) == Capitalize(s)
  {
  }

  /** `mockChartData.categorySpending[index]?.color || "#8b5cf6"`. */
  function ColorAt(index: nat): (c: string)
    ensures index < |MockCategorySpending| ==> c == MockCategorySpending[index].color
    ensures index >= |MockCategorySpending| ==> c == FallbackColor
  {
    if index < |MockCategorySpending| && MockCategorySpending[index].color != "" then MockCategorySpending[index].color
    else FallbackColor
  }

  /** `Object.entries(categorySpending).map(...)`, the entries numbered from `start`. */
  function CategoryDataFrom(acc: seq<CategoryTotal>, start: nat): (r: seq<CategoryDatum>)
    ensures |r| == |acc|
    ensures forall i :: 0 <= i < |acc| ==>
              r[i] == CategoryDatum(Capitalize(acc[i].category), acc[i].amount, ColorAt(start + i))
  {
    if acc == [] then []
    else [CategoryDatum(Capitalize(acc[0].category), acc[0].amount, ColorAt(start))] + CategoryDataFrom(acc[1..], start + 1)
  }

  /** `categoryData`: one chart entry per key, in order, capitalised, with its value and the colour of its position. */
  function CategoryData(acc: seq<CategoryTotal>): (r: seq<CategoryDatum>)
    ensures |r| == |acc|
    ensures forall i :: 0 <= i < |acc| ==>
              r[i] == CategoryDatum(Capitalize(acc[i].category), acc[i].amount, ColorAt(i))
  {
    CategoryDataFrom(acc, 0)
  }

  function SumData(data: seq<CategoryDatum>): int
  {
    if data == [] then 0 else data[0].amount + SumData(data[1..])
  }

  /** The chart shows every category, in order, with its value unchanged, so its slices add up to `totalSpent`. */
  lemma CategoryDataTotal(ts: seq<Transaction>)
    ensures |CategoryData(CategorySpending(ts))| == |CategorySpending(ts)|
    ensures SumData(CategoryData(CategorySpending(ts))) == TotalSpent(ts)
  {
    DataSum(CategorySpending(ts), 0);
  }

  lemma {:induction false} DataSum(acc: seq<CategoryTotal>, start: nat)
    ensures SumData(CategoryDataFrom(acc, start)) == SumTotals(acc)
  {
    if acc != [] {
      DataSum(acc[1..], start + 1);
    }
  }

  // ---------------------------------------------------------------------
  // The seed ledger
  // ---------------------------------------------------------------------

  /** One step of the filtered sum over a suffix of a ledger. */
  lemma WhereSumFrom(ts: seq<Transaction>, k: nat, kind: string, status: string)
    requires k < |ts|
    ensures SumAmounts(Where(ts[k..], kind, status))
            == SumAmounts(Where(ts[k + 1..], kind, status)) + (if ts[k].kind == kind && ts[k].status == status then ts[k].amount else 0)
  {
    assert ts[k..] == [ts[k]] + ts[k + 1..];
    WhereSumCons(ts[k], ts[k + 1..], kind, status);
  }

  /** A ledger's total for one kind and status, summed from index `k` on, step by step. */
  lemma {:induction false} WhereSumUnrolled(ts: seq<Transaction>, k: nat, kind: string, status: string)
    requires k <= |ts|
    ensures SumAmounts(Where(ts[k..], kind, status)) == SumMatching(ts, k, kind, status)
    decreases |ts| - k
  {
    if k < |ts| {
      WhereSumFrom(ts, k, kind, status);
      WhereSumUnrolled(ts, k + 1, kind, status);
    } else {
      assert ts[k..] == [];
    }
  }

  /**
   * The amounts from index `k` on whose kind and status match, added up
   * index by index: the same sum as `SumAmounts(Where(ts[k..], ...))`
   * (`WhereSumUnrolled`, `TotalsUnrolled`), in a form the seed lemma can
   * evaluate cheaply on the eight-entry literal.
   */
  function SumMatching(ts: seq<Transaction>, k: nat, kind: string, status: string): int
    requires k <= |ts|
    decreases |ts| - k
  {
    if k == |ts| then 0
    else (if ts[k].kind == kind && ts[k].status == status then ts[k].amount else 0) + SumMatching(ts, k + 1, kind, status)
  }

  /** Both totals of any ledger, summed index by index. */
  lemma TotalsUnrolled(ts: seq<Transaction>)
    ensures TotalSpent(ts) == SumMatching(ts, 0, "sent", "completed")
    ensures TotalReceived(ts) == SumMatching(ts, 0, "received", "completed")
  {
    WhereSumUnrolled(ts, 0, "sent", "completed");
    WhereSumUnrolled(ts, 0, "received", "completed");
    assert ts[0..] == ts;
  }

  lemma SeedSums()
    ensures SumMatching(MockTransactions, 0, "sent", "completed") == 29193
    ensures SumMatching(MockTransactions, 0, "received", "completed") == 52050
  {
  }

  /** On the seed ledger: 291.93 spent, 520.50 received (the pending 75.00 left out). */
  lemma SeedTotals()
    ensures TotalSpent(MockTransactions) == 29193
    ensures TotalReceived(MockTransactions) == 52050
  {
    TotalsUnrolled(MockTransactions);
    SeedSums();
  }
}
