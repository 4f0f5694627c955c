/**
 The transaction list of the expense tracker: the records it holds, the
 validation a submitted form goes through before a record is appended, deletion
 by id, and the loop that splits the list into an income list and an expense
 list while summing each. The page's elements, the browser's storage and the
 clock are not part of the model: what the page would show is returned as a
 `View`, and the new record's id is a parameter.
 */
module Tracker {
  import opened JsString
  import opened Filtering

  datatype Option<T> = None | Some(value: T)

  /** One stored record. `kind` is the record's `type` field; the submit path
      copies it from the form without checking it. */
  datatype Transaction = Transaction(id: int, description: string, amount: real, kind: string)

  /** What the form holds when it is submitted: the description as typed, the
      amount as `Number` parsed it (`None` stands for NaN) and the selected type. */
  datatype Form = Form(description: string, amount: Option<real>, kind: string)

  /** The three figures the page shows. */
  datatype Totals = Totals(income: real, expense: real, balance: real)

  /** What one refresh of the page shows: the two lists and the three figures. */
  datatype View = View(incomeList: seq<Transaction>, expenseList: seq<Transaction>, totals: Totals)

  // ---------------------------------------------------------------- submitting

  /** The submit handler's test: a description that is not empty once trimmed,
      and an amount that is a number greater than zero. So a submission is
      rejected exactly when the description is only white space (or empty),
      the amount is NaN, or the amount is zero or negative. */
  predicate IsValid(form: Form): (ok: bool)
    ensures !ok <==>
      AllWhiteSpace(form.description) || form.amount.None? || form.amount.value <= 0.0
  {
    TrimEmptyIff(form.description);
    Trim(form.description) != [] && form.amount.Some? && form.amount.value > 0.0
  }

  /** The list after a submission: a valid form appends one record holding the
      given id, the trimmed description, the parsed amount and the type as
      submitted; an invalid one leaves the list as it was. */
  function Submitted(txs: seq<Transaction>, id: int, form: Form): (r: seq<Transaction>)
    ensures !IsValid(form) ==> r == txs
    ensures IsValid(form) ==> |r| == |txs| + 1 && r[..|txs|] == txs
    ensures IsValid(form) ==> r[|txs|].id == id && r[|txs|].description == Trim(form.description)
    ensures IsValid(form) ==> Some(r[|txs|].amount) == form.amount && r[|txs|].kind == form.kind
  {
    if IsValid(form) then
      txs + [Transaction(id, Trim(form.description), form.amount.value, form.kind)]
    else
      txs
  }

  /** A record the submit path could have created: positive amount, and a
      description that is not empty and already trimmed. */
  predicate WellFormed(t: Transaction) {
    t.amount > 0.0 && t.description != [] && Trim(t.description) == t.description
  }

  /** Submitting keeps every record well formed. */
  lemma SubmitKeepsWellFormed(txs: seq<Transaction>, id: int, form: Form)
    requires forall t :: t in txs ==> WellFormed(t)
    ensures forall t :: t in Submitted(txs, id, form) ==> WellFormed(t)
  {
    if IsValid(form) {
      TrimIdempotent(form.description);
    }
  }

  // ------------------------------------------------------------------ deleting

  /** Strict equality of a record's id with the given id. */
  function HasId(id: int): Transaction -> bool {
    (t: Transaction) => t.id == id
  }

  /** The list without the records whose id is strictly equal to `id`, the
      others kept in order. */
  function Remove(txs: seq<Transaction>, id: int): (r: seq<Transaction>)
    ensures |r| <= |txs|
    ensures forall t :: t in r <==> t in txs && t.id != id
  {
    Filter(txs, Not(HasId(id)))
  }

  /** Deleting keeps the other records in their order: the list is a merge of
      the records with that id and the list that remains. */
  lemma RemoveKeepsOrder(txs: seq<Transaction>, id: int)
    ensures Interleaves(txs, Filter(txs, HasId(id)), Remove(txs, id))
    ensures forall t :: t in Filter(txs, HasId(id)) ==> t.id == id
  {
    FilterSplits(txs, HasId(id));
  }

  /** Deleting drops every copy of every record with that id and keeps every
      copy of every other record. */
  lemma RemoveCounts(txs: seq<Transaction>, id: int)
    ensures forall t :: multiset(Remove(txs, id))[t] == if t.id == id then 0 else multiset(txs)[t]
  {
    var gone, kept := Filter(txs, HasId(id)), Remove(txs, id);
    FilterSplits(txs, HasId(id));
    InterleavesCounts(txs, gone, kept);
    forall t: Transaction ensures multiset(kept)[t] == if t.id == id then 0 else multiset(txs)[t] {
      if t.id == id {
        assert t !in kept;
      } else {
        assert t !in gone;
      }
    }
  }

  /** Deleting leaves the list unchanged exactly when no record has that id. */
  lemma RemoveAbsent(txs: seq<Transaction>, id: int)
    ensures Remove(txs, id) == txs <==> forall t :: t in txs ==> t.id != id
  {
    FilterIdentity(txs, Not(HasId(id)));
  }

  /** Deleting the same id twice is deleting it once. */
  lemma RemoveIdempotent(txs: seq<Transaction>, id: int)
    ensures Remove(Remove(txs, id), id) == Remove(txs, id)
  {
    FilterIdempotent(txs, Not(HasId(id)));
  }

  /** Deleting keeps every record well formed. */
  lemma RemoveKeepsWellFormed(txs: seq<Transaction>, id: int)
    requires forall t :: t in txs ==> WellFormed(t)
    ensures forall t :: t in Remove(txs, id) ==> WellFormed(t)
  {
  }

  // -------------------------------------------------------------------- totals

  /** A record counts as income when its type is exactly the string
      `"income"`; a record of any other type counts as an expense. */
  predicate IsIncome(t: Transaction) {
    t.kind == "income"
  }

  function Incomes(txs: seq<Transaction>): seq<Transaction> {
    Filter(txs, IsIncome)
  }

  function Expenses(txs: seq<Transaction>): seq<Transaction> {
    Filter(txs, Not(IsIncome))
  }

  /** Every amount in the list is greater than zero. */
  predicate AllPositive(txs: seq<Transaction>) {
    forall t :: t in txs ==> t.amount > 0.0
  }

  /** The sum of the amounts, added in list order. A sum of positive amounts
      is never negative, and positive unless the list is empty. */
  function Sum(txs: seq<Transaction>): (total: real)
    ensures AllPositive(txs) ==> total >= 0.0 && (txs != [] ==> total > 0.0)
  {
    if txs == [] then 0.0
    else
      assert AllPositive(txs) ==> AllPositive(txs[..|txs| - 1]) && txs[|txs| - 1] in txs;
      Sum(txs[..|txs| - 1]) + txs[|txs| - 1].amount
  }

  /** What the page shows for a list: the income records, the other records,
      and their totals. The income list holds exactly the `"income"` records,
      the expense list every other one, and together they hold as many
      entries as the list. */
  function Render(txs: seq<Transaction>): (view: View)
    ensures forall t :: t in view.incomeList <==> t in txs && IsIncome(t)
    ensures forall t :: t in view.expenseList <==> t in txs && !IsIncome(t)
    ensures |view.incomeList| + |view.expenseList| == |txs|
  {
    var incomes, expenses := Incomes(txs), Expenses(txs);
    FilterSplits(txs, IsIncome);
    InterleavesCounts(txs, incomes, expenses);
    View(incomes, expenses, Totals(Sum(incomes), Sum(expenses), Sum(incomes) - Sum(expenses)))
  }

  /** The effect of one record on the balance: plus its amount for income,
      minus it for anything else. */
  function Signed(t: Transaction): real {
    if IsIncome(t) then t.amount else -t.amount
  }

  /** The balance computed record by record, without splitting the list. */
  function Net(txs: seq<Transaction>): real {
    if txs == [] then 0.0 else Net(txs[..|txs| - 1]) + Signed(txs[|txs| - 1])
  }

  /** Adding one record to the end of a list adds its amount to the sum. */
  lemma SumAppend(s: seq<Transaction>, t: Transaction)
    ensures Sum(s + [t]) == Sum(s) + t.amount
  {
    assert (s + [t])[..|s|] == s;
  }

  /** One more record of the list lands at the end of exactly one of the two
      shown lists. */
  lemma PrefixStep(txs: seq<Transaction>, i: nat)
    requires i < |txs|
    ensures Incomes(txs[..i + 1]) == if IsIncome(txs[i]) then Incomes(txs[..i]) + [txs[i]] else Incomes(txs[..i])
    ensures Expenses(txs[..i + 1]) == if IsIncome(txs[i]) then Expenses(txs[..i]) else Expenses(txs[..i]) + [txs[i]]
  {
    assert txs[..i + 1] == txs[..i] + [txs[i]];
    FilterAppend(txs[..i], txs[i], IsIncome);
    FilterAppend(txs[..i], txs[i], Not(IsIncome));
  }

  /** Sums add up over a merge. */
  lemma {:induction false} SumSplits(s: seq<Transaction>, a: seq<Transaction>, b: seq<Transaction>)
    requires Interleaves(s, a, b)
    ensures Sum(s) == Sum(a) + Sum(b)
    decreases |s|
  {
    if s != [] {
      var s' := s[..|s| - 1];
      if a != [] && a[|a| - 1] == s[|s| - 1] && Interleaves(s', a[..|a| - 1], b) {
        SumSplits(s', a[..|a| - 1], b);
      } else {
        SumSplits(s', a, b[..|b| - 1]);
      }
    }
  }

  /** Every record lands in exactly one of the two lists, and each list keeps
      the order of the records. */
  lemma RenderPartitions(txs: seq<Transaction>)
    ensures Interleaves(txs, Render(txs).incomeList, Render(txs).expenseList)
  {
    FilterSplits(txs, IsIncome);
  }

  /** The two lists are the only order-keeping split of the records by type. */
  lemma PartitionUnique(txs: seq<Transaction>, incomes: seq<Transaction>, expenses: seq<Transaction>)
    requires Interleaves(txs, incomes, expenses)
    requires forall t :: t in incomes ==> IsIncome(t)
    requires forall t :: t in expenses ==> !IsIncome(t)
    ensures incomes == Render(txs).incomeList && expenses == Render(txs).expenseList
  {
    FilterUnique(txs, incomes, expenses, IsIncome);
  }

  /** Between them the income and expense totals count every amount once. */
  lemma TotalsCoverAll(txs: seq<Transaction>)
    ensures Render(txs).totals.income + Render(txs).totals.expense == Sum(txs)
  {
    FilterSplits(txs, IsIncome);
    SumSplits(txs, Incomes(txs), Expenses(txs));
  }

  /** The balance is the signed sum of the amounts. */
  lemma {:induction false} BalanceIsNet(txs: seq<Transaction>)
    ensures Render(txs).totals.balance == Net(txs)
    decreases |txs|
  {
    if txs != [] {
      var s', x := txs[..|txs| - 1], txs[|txs| - 1];
      BalanceIsNet(s');
      assert txs == s' + [x];
      FilterAppend(s', x, IsIncome);
      FilterAppend(s', x, Not(IsIncome));
    }
  }

  /** When every amount is positive, as the submit path ensures for the
      records it creates, neither total is negative. */
  lemma TotalsNonNegative(txs: seq<Transaction>)
    requires forall t :: t in txs ==> t.amount > 0.0
    ensures Render(txs).totals.income >= 0.0 && Render(txs).totals.expense >= 0.0
  {
  }

  /** A valid submission adds its amount to the income total or to the
      expense total, according to its type, and to nothing else. */
  lemma SubmitUpdatesTotals(txs: seq<Transaction>, id: int, form: Form)
    requires IsValid(form)
    ensures var before, after := Render(txs).totals, Render(Submitted(txs, id, form)).totals;
      if form.kind == "income" then
        after.income == before.income + form.amount.value && after.expense == before.expense
      else
        after.income == before.income && after.expense == before.expense + form.amount.value
  {
    var t := Transaction(id, Trim(form.description), form.amount.value, form.kind);
    FilterAppend(txs, t, IsIncome);
    FilterAppend(txs, t, Not(IsIncome));
    assert (Incomes(txs) + [t])[..|Incomes(txs)|] == Incomes(txs);
    assert (Expenses(txs) + [t])[..|Expenses(txs)|] == Expenses(txs);
  }

  /** Deleting from the list deletes from whichever shown list held the
      record, and moves nothing between the two. */
  lemma RemoveFromShownLists(txs: seq<Transaction>, id: int)
    ensures Render(Remove(txs, id)).incomeList == Remove(Render(txs).incomeList, id)
    ensures Render(Remove(txs, id)).expenseList == Remove(Render(txs).expenseList, id)
  {
    FilterCommutes(txs, Not(HasId(id)), IsIncome);
    FilterCommutes(txs, Not(HasId(id)), Not(IsIncome));
  }

  // --------------------------------------------------------------------- state

  /** The page's state: the module-level list of transactions. */
  class Store {
    var transactions: seq<Transaction>

    /** Page load, with the list read back from storage given as `saved`. */
    constructor (saved: seq<Transaction>)
      ensures transactions == saved
    {
      transactions := saved;
    }

    /** The refresh loop: one pass over the list that appends each record to
        the income or the expense list and adds its amount to that total. */
    method UpdateUI() returns (view: View)
      ensures view == Render(transactions)
    {
      var txs := transactions;
      var incomeTotal, expenseTotal := 0.0, 0.0;
      var incomeList, expenseList := [], [];
      for i := 0 to |txs|
        invariant incomeList == Incomes(txs[..i])
        invariant expenseList == Expenses(txs[..i])
        invariant incomeTotal == Sum(incomeList)
        invariant expenseTotal == Sum(expenseList)
      {
        var tx := txs[i];
        PrefixStep(txs, i);
        if tx.kind == "income" {
          SumAppend(incomeList, tx);
          incomeTotal := incomeTotal + tx.amount;
          incomeList := incomeList + [tx];
        } else {
          SumAppend(expenseList, tx);
          expenseTotal := expenseTotal + tx.amount;
          expenseList := expenseList + [tx];
        }
      }
      assert txs[..|txs|] == txs;
      var balance := incomeTotal - expenseTotal;
      view := View(incomeList, expenseList, Totals(incomeTotal, expenseTotal, balance));
    }

    /** The delete button: drop every record with that id, then refresh. */
    method Delete(id: int) returns (view: View)
      modifies this
      ensures transactions == Remove(old(transactions), id)
      ensures view == Render(transactions)
    {
      transactions := Filter(transactions, Not(HasId(id)));
      view := UpdateUI();
    }

    /** The submit handler. A rejected form changes nothing and shows nothing
        new (`None`); an accepted one appends its record and refreshes. */
    method Submit(id: int, form: Form) returns (shown: Option<View>)
      modifies this
      ensures transactions == Submitted(old(transactions), id, form)
      ensures shown == if IsValid(form) then Some(Render(transactions)) else None
    {
      var description := Trim(form.description);
      if description == [] || form.amount.None? || form.amount.value <= 0.0 {
        return None;
      }
      var transaction := Transaction(id, description, form.amount.value, form.kind);
      transactions := transactions + [transaction];
      var view := UpdateUI();
      return Some(view);
    }
  }

  /** A session as a caller sees it through the contracts alone: a paycheck
      of 2000 and a coffee of 4.50 leave a balance of 1995.50, whatever the
      (valid) descriptions. */
  method SessionAdd(payDescription: string, coffeeDescription: string)
    requires !AllWhiteSpace(payDescription) && !AllWhiteSpace(coffeeDescription)
  {
    TrimEmptyIff(payDescription);
    TrimEmptyIff(coffeeDescription);
    var pay := Form(payDescription, Some(2000.0), "income");
    var coffee := Form(coffeeDescription, Some(4.5), "expense");
    var paycheckTx := Transaction(1, Trim(payDescription), 2000.0, "income");
    var coffeeTx := Transaction(2, Trim(coffeeDescription), 4.5, "expense");

    var store := new Store([]);
    var shown := store.Submit(1, pay);
    assert store.transactions == [paycheckTx];
    shown := store.Submit(2, coffee);
    assert store.transactions == [paycheckTx, coffeeTx];
    BalanceIsNet(store.transactions);
    assert store.transactions[..1] == [paycheckTx];
    assert shown.value.totals.balance == 1995.5;
  }

  /** A blank description is rejected and leaves the list as it was. */
  method SessionReject(blank: string, saved: seq<Transaction>)
    requires AllWhiteSpace(blank)
  {
    var form := Form(blank, Some(10.0), "expense");
    var store := new Store(saved);
    var shown := store.Submit(3, form);
    assert shown == None && store.transactions == saved;
  }

  /** Deleting a paycheck drops it and keeps the coffee; deleting the same id
      again shows the same page. */
  method SessionDeleteTwice(paycheckTx: Transaction, coffeeTx: Transaction)
    requires paycheckTx.id == 1 && coffeeTx.id == 2
  {
    var store := new Store([paycheckTx, coffeeTx]);
    var once := store.Delete(1);
    assert paycheckTx !in store.transactions && coffeeTx in store.transactions;
    var twice := store.Delete(1);
    assert twice == once by {
      RemoveIdempotent([paycheckTx, coffeeTx], 1);
    }
  }
}
