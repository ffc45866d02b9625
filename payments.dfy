/**
 * The payments page: the search-and-filter view of the ledger, the
 * empty-state hint, and the send and request handlers with their
 * required-field guard.
 */
module Payments {
  import opened MockData
  import opened JsString
  import opened Sequences

  // ---------------------------------------------------------------------
  // The filter (`filteredTransactions`)
  // ---------------------------------------------------------------------

  /** The search text occurs, ignoring case, in the recipient or the description. */
  predicate MatchesSearch(t: Transaction, searchTerm: string)
  {
    || Includes(ToLowerCase(t.recipient), ToLowerCase(searchTerm))
    || Includes(ToLowerCase(t.description), ToLowerCase(searchTerm))
  }

  /** The three conditions of the filter callback, joined by "and". */
  predicate Matches(t: Transaction, searchTerm: string, filterStatus: string, filterType: string)
  {
    && MatchesSearch(t, searchTerm)
    && (filterStatus == "all" || t.status == filterStatus)
    && (filterType == "all" || t.kind == filterType)
  }

  /**
   * `transactions.filter(...)`: an order-preserving subsequence of the
   * ledger holding each matching transaction as often as the ledger does,
   * and nothing else.
   */
  function Filtered(ts: seq<Transaction>, searchTerm: string, filterStatus: string, filterType: string)
    : (r: seq<Transaction>)
    ensures IsSubsequence(r, ts)
    ensures forall t :: t in r ==> Matches(t, searchTerm, filterStatus, filterType)
    ensures forall t :: multiset(r)[t] == if Matches(t, searchTerm, filterStatus, filterType) then multiset(ts)[t] else 0
  {
    if ts == [] then []
    else
      assert ts == [ts[0]] + ts[1..];
      if Matches(ts[0], searchTerm, filterStatus, filterType) then
        [ts[0]] + Filtered(ts[1..], searchTerm, filterStatus, filterType)
      else
        Filtered(ts[1..], searchTerm, filterStatus, filterType)
  }

  /** A list whose every element passes the filter comes through it unchanged. */
  lemma {:induction false} FilterKeepsMatchingList(ts: seq<Transaction>, searchTerm: string, filterStatus: string, filterType: string)
    requires forall t :: t in ts ==> Matches(t, searchTerm, filterStatus, filterType)
    ensures Filtered(ts, searchTerm, filterStatus, filterType) == ts
  {
    if ts != [] {
      FilterKeepsMatchingList(ts[1..], searchTerm, filterStatus, filterType);
    }
  }

  /** Filtering a filtered list with the same settings changes nothing. */
  lemma FilterIdempotent(ts: seq<Transaction>, searchTerm: string, filterStatus: string, filterType: string)
    ensures var once := Filtered(ts, searchTerm, filterStatus, filterType);
            Filtered(once, searchTerm, filterStatus, filterType) == once
  {
    FilterKeepsMatchingList(Filtered(ts, searchTerm, filterStatus, filterType), searchTerm, filterStatus, filterType);
  }

  /** With no search text and both filters at "all" the whole ledger is shown, in order. */
  lemma FilterNothingShowsAll(ts: seq<Transaction>)
    ensures Filtered(ts, "", "all", "all") == ts
  {
    forall t | t in ts ensures Matches(t, "", "all", "all") {
      assert ToLowerCase("") == "";
      assert "" <= ToLowerCase(t.recipient);
    }
    FilterKeepsMatchingList(ts, "", "all", "all");
  }

  /** The search ignores the case of the search text. */
  lemma SearchIgnoresCase(t: Transaction, searchTerm: string)
    ensures MatchesSearch(t, searchTerm) == MatchesSearch(t, ToLowerCase(searchTerm))
  {
    ToLowerCaseIdempotent(searchTerm);
  }

  // ---------------------------------------------------------------------
  // Empty state and the form guard
  // ---------------------------------------------------------------------

  const AdjustHint := "Try adjusting your search or filters"
  const StartHint := "Start by sending your first payment"

  /** The hint under "No transactions found". */
  function EmptyStateHint(searchTerm: string, filterStatus: string, filterType: string): (hint: string)
    ensures hint == AdjustHint || hint == StartHint
    ensures hint == AdjustHint <==> searchTerm != "" || filterStatus != "all" || filterType != "all"
  {
    if searchTerm != "" || filterStatus != "all" || filterType != "all" then AdjustHint else StartHint
  }

  /** The "start by sending" hint is shown over an empty list only when the ledger itself is empty. */
  lemma StartHintMeansEmptyLedger(ts: seq<Transaction>, searchTerm: string, filterStatus: string, filterType: string)
    requires Filtered(ts, searchTerm, filterStatus, filterType) == []
    requires EmptyStateHint(searchTerm, filterStatus, filterType) == StartHint
    ensures ts == []
  {
    FilterNothingShowsAll(ts);
  }

  /** The fields of the send and the request dialog, as the inputs hold them. */
  datatype PaymentForm = PaymentForm(recipient: string, amount: string, description: string)

  const BlankForm := PaymentForm("", "", "")

  /** The guard of both handlers: recipient and amount are non-empty. */
  predicate RequiredFilled(form: PaymentForm)
  {
    form.recipient != "" && form.amount != ""
  }

  // ---------------------------------------------------------------------
  // The page state
  // ---------------------------------------------------------------------

  class PaymentsPage {
    const ledger: Ledger
    var transactions: seq<Transaction>
    var searchTerm: string
    var filterStatus: string
    var filterType: string
    var isPaymentDialogOpen: bool
    var isRequestDialogOpen: bool
    var paymentForm: PaymentForm
    var requestForm: PaymentForm

    /** Mounting the page: the ledger as it stands, no search, both filters at "all", dialogs closed. */
    constructor (ledger: Ledger)
      ensures this.ledger == ledger && transactions == ledger.transactions
      ensures searchTerm == "" && filterStatus == "all" && filterType == "all"
      ensures !isPaymentDialogOpen && !isRequestDialogOpen
      ensures paymentForm == BlankForm && requestForm == BlankForm
    {
      this.ledger := ledger;
      transactions := ledger.transactions;
      searchTerm, filterStatus, filterType := "", "all", "all";
      isPaymentDialogOpen, isRequestDialogOpen := false, false;
      paymentForm, requestForm := BlankForm, BlankForm;
    }

    /** The list the page shows: the page's transfers that match the current search and filters, in order. */
    function FilteredTransactions(): (r: seq<Transaction>)
      reads this
      ensures IsSubsequence(r, transactions)
      ensures forall t :: t in r ==> Matches(t, searchTerm, filterStatus, filterType)
      ensures forall t :: t in transactions && Matches(t, searchTerm, filterStatus, filterType) ==> t in r
    {
      Filtered(transactions, searchTerm, filterStatus, filterType)
    }

    /**
     * `handleSendPayment`. `parsedAmount` is `parseFloat` of the amount
     * field in cents, `id` and `date` stand for `Date.now()` and today.
     * An incomplete form changes nothing; otherwise the new transfer is
     * put in front of both the ledger and the page's list, the form is
     * cleared and the dialog closed.
     */
    method HandleSendPayment(parsedAmount: int, id: int, date: string)
      modifies this, ledger
      ensures searchTerm == old(searchTerm) && filterStatus == old(filterStatus) && filterType == old(filterType)
      ensures requestForm == old(requestForm) && isRequestDialogOpen == old(isRequestDialogOpen)
      ensures !RequiredFilled(old(paymentForm)) ==>
        && transactions == old(transactions) && ledger.transactions == old(ledger.transactions)
        && paymentForm == old(paymentForm) && isPaymentDialogOpen == old(isPaymentDialogOpen)
      ensures RequiredFilled(old(paymentForm)) ==>
        var t := SentTransaction(id, old(paymentForm).recipient, parsedAmount, date, old(paymentForm).description);
        && ledger.transactions == [t] + old(ledger.transactions)
        && transactions == [t] + old(transactions)
        && paymentForm == BlankForm && !isPaymentDialogOpen
      ensures old(transactions) == old(ledger.transactions) ==> transactions == ledger.transactions
    {
      if !(paymentForm.recipient != "" && paymentForm.amount != "") {
        return;
      }
      var result := SendPayment(ledger, paymentForm.recipient, parsedAmount, paymentForm.description, id, date);
      if result.success {
        transactions := [result.transaction] + transactions;
        paymentForm := BlankForm;
        isPaymentDialogOpen := false;
      }
    }

    /** `handleRequestPayment`: as `HandleSendPayment`, with a pending incoming request. */
    method HandleRequestPayment(parsedAmount: int, id: int, date: string)
      modifies this, ledger
      ensures searchTerm == old(searchTerm) && filterStatus == old(filterStatus) && filterType == old(filterType)
      ensures paymentForm == old(paymentForm) && isPaymentDialogOpen == old(isPaymentDialogOpen)
      ensures !RequiredFilled(old(requestForm)) ==>
        && transactions == old(transactions) && ledger.transactions == old(ledger.transactions)
        && requestForm == old(requestForm) && isRequestDialogOpen == old(isRequestDialogOpen)
      ensures RequiredFilled(old(requestForm)) ==>
        var t := RequestedTransaction(id, old(requestForm).recipient, parsedAmount, date, old(requestForm).description);
        && ledger.transactions == [t] + old(ledger.transactions)
        && transactions == [t] + old(transactions)
        && requestForm == BlankForm && !isRequestDialogOpen
      ensures old(transactions) == old(ledger.transactions) ==> transactions == ledger.transactions
    {
      if !(requestForm.recipient != "" && requestForm.amount != "") {
        return;
      }
      var result := RequestPayment(ledger, requestForm.recipient, parsedAmount, requestForm.description, id, date);
      if result.success {
        transactions := [result.transaction] + transactions;
        requestForm := BlankForm;
        isRequestDialogOpen := false;
      }
    }
  }

  // ---------------------------------------------------------------------
  // The handlers as written, with the page state aliasing the ledger array
  // ---------------------------------------------------------------------

  /**
   * What the page's `transactions` state refers to: the ledger array itself
   * (as `useState(mockTransactions)` leaves it on mount), or an array of its
   * own that an earlier prepend produced.
   */
  datatype PageList = SharedWithLedger | OwnArray(items: seq<Transaction>)

  /** The list the page holds, read through that reference. */
  function Shown(p: PageList, ledger: seq<Transaction>): seq<Transaction>
  {
    match p
    case SharedWithLedger => ledger
    case OwnArray(items) => items
  }

  /**
   * One successful send or request as the source performs it: the action
   * `unshift`s transaction `t` into the ledger array, then the handler
   * spreads the page's list, read after that mutation, behind `t`.
   * Yields the new page list and the new ledger.
   */
  function PrependAsWritten(p: PageList, ledger: seq<Transaction>, t: Transaction): (r: (PageList, seq<Transaction>))
    ensures r.1 == [t] + ledger
    ensures r.0.OwnArray? && r.0.items != [] && r.0.items[0] == t
    ensures |Shown(r.0, r.1)| == |Shown(p, r.1)| + 1
  {
    var ledger' := [t] + ledger;
    (OwnArray([t] + Shown(p, ledger')), ledger')
  }

  /** The first send or request after mounting shows the new transaction twice. */
  lemma FirstSendShowsTransactionTwice(ledger: seq<Transaction>, t: Transaction)
    ensures var (p', ledger') := PrependAsWritten(SharedWithLedger, ledger, t);
            && Shown(p', ledger') == [t, t] + ledger
            && Shown(p', ledger') != [t] + Shown(SharedWithLedger, ledger)
            && Shown(p', ledger') != ledger'
  {
    var (p', ledger') := PrependAsWritten(SharedWithLedger, ledger, t);
    assert |Shown(p', ledger')| == |ledger| + 2;
  }

  /** Once the page holds an array of its own, a prepend adds the transaction once. */
  lemma LaterSendsPrependOnce(items: seq<Transaction>, ledger: seq<Transaction>, t: Transaction)
    ensures var (p', ledger') := PrependAsWritten(OwnArray(items), ledger, t);
            Shown(p', ledger') == [t] + items && ledger' == [t] + ledger
  {
  }
}
