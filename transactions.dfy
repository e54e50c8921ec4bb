/**
 * The unified in-memory `transactions` store of server.js: one array of records that
 * carry a `type` ('income' or 'expense'), a `nextId` counter, the list/create/update/
 * delete routes and the dashboard summary.
 */
module Transactions {
  import opened Common
  import opened Numerals
  import opened Seqs
  import opened Categories

  /**
   * One stored transaction; `kind` is the JSON field `type`. A field the request body did
   * not carry is `None` (undefined in JavaScript). Dates are day numbers, amounts cents.
   */
  datatype Transaction = Transaction(
    id: string,
    kind: Option<string>,
    title: Option<string>,
    amount: int,
    category: Option<string>,
    date: Option<int>,
    description: Option<string>)

  /** A request body: every field optional; `amount` is what `parseFloat(body.amount)` gives. */
  datatype Body = Body(
    id: Option<string>,
    kind: Option<string>,
    title: Option<string>,
    amount: int,
    category: Option<string>,
    date: Option<int>,
    description: Option<string>)

  function TxId(t: Transaction): string { t.id }
  /** The sort key of the listing; a transaction without a date sorts as day 0. */
  function TxDate(t: Transaction): int { if t.date.Some? then t.date.value else 0 }
  function TxAmount(t: Transaction): int { t.amount }
  /** The key `categoryBreakdown[t.category]` uses. */
  function TxCategory(t: Transaction): string { KeyOf(t.category) }

  /** The three transactions the store starts with (dates as yyyymmdd). */
  function Seed(): seq<Transaction> {
    [ Transaction("1", Some("expense"), Some("Grocery Shopping"), 8550, Some("Food"), Some(20240115), Some("Weekly groceries")),
      Transaction("2", Some("income"), Some("Salary"), 300000, Some("Salary"), Some(20240101), Some("Monthly salary")),
      Transaction("3", Some("expense"), Some("Gas"), 4500, Some("Transportation"), Some(20240114), Some("Car fuel")) ]
  }

  /** The first counter value the store hands out. */
  const FirstId: nat := 4

  // ---------------------------------------------------------------- listing

  /** Whether the `type` and `category` query parameters let `t` through. */
  predicate Matches(kind: Option<string>, category: Option<string>, t: Transaction) {
    && (Given(kind) ==> t.kind == kind)
    && (Given(category) && category.value != "all" ==> t.category == category)
  }

  /** GET /api/transactions: filter a copy by `type`, then by `category` unless it is 'all', newest first. */
  function List(ts: seq<Transaction>, kind: Option<string>, category: Option<string>): (r: seq<Transaction>)
    ensures SortedDesc(r, TxDate)
    ensures |r| <= |ts|
  {
    var byType := if Given(kind) then Filter(ts, (t: Transaction) => t.kind == kind) else ts;
    var byCategory := if Given(category) && category.value != "all"
      then Filter(byType, (t: Transaction) => t.category == category) else byType;
    SortDesc(byCategory, TxDate)
  }

  /** A listing holds each matching transaction as often as the store does, and nothing else. */
  lemma ListCount(ts: seq<Transaction>, kind: Option<string>, category: Option<string>, x: Transaction)
    ensures multiset(List(ts, kind, category))[x] == if Matches(kind, category, x) then multiset(ts)[x] else 0
  {
    var byType := if Given(kind) then Filter(ts, (t: Transaction) => t.kind == kind) else ts;
    if Given(kind) {
      FilterCount(ts, (t: Transaction) => t.kind == kind, x);
    }
    if Given(category) && category.value != "all" {
      FilterCount(byType, (t: Transaction) => t.category == category, x);
    }
  }

  /**
   * A listing is sorted newest first, is a sub-multiset of the store, holds exactly the
   * transactions that match the query, each with its full multiplicity.
   */
  lemma ListSpec(ts: seq<Transaction>, kind: Option<string>, category: Option<string>)
    ensures SortedDesc(List(ts, kind, category), TxDate)
    ensures multiset(List(ts, kind, category)) <= multiset(ts)
    ensures forall t :: t in List(ts, kind, category) <==> t in ts && Matches(kind, category, t)
    ensures forall t :: Matches(kind, category, t) ==> multiset(List(ts, kind, category))[t] == multiset(ts)[t]
  {
    forall t {
      ListCount(ts, kind, category, t);
    }
    SelectionOf(List(ts, kind, category), ts, (t: Transaction) => Matches(kind, category, t));
  }

  /** Every transaction a listing returns matches the query. */
  lemma ListMatches(ts: seq<Transaction>, kind: Option<string>, category: Option<string>)
    ensures forall i :: 0 <= i < |List(ts, kind, category)| ==> Matches(kind, category, List(ts, kind, category)[i])
  {
    var r := List(ts, kind, category);
    forall i | 0 <= i < |r| ensures Matches(kind, category, r[i]) {
      ListCount(ts, kind, category, r[i]);
      assert r[i] in multiset(r);
    }
  }

  /** A category of 'all', an empty one or none at all filters nothing. */
  lemma ListAllCategories(ts: seq<Transaction>, kind: Option<string>)
    ensures List(ts, kind, Some("all")) == List(ts, kind, None) == List(ts, kind, Some(""))
  {
  }

  /** Listing a listing with the same query gives that listing again. */
  lemma ListIdempotent(ts: seq<Transaction>, kind: Option<string>, category: Option<string>)
    ensures List(List(ts, kind, category), kind, category) == List(ts, kind, category)
  {
    var r := List(ts, kind, category);
    ListMatches(ts, kind, category);
    var byType := if Given(kind) then Filter(r, (t: Transaction) => t.kind == kind) else r;
    if Given(kind) {
      FilterAllPass(r, (t: Transaction) => t.kind == kind);
    }
    assert byType == r;
    if Given(category) && category.value != "all" {
      FilterAllPass(byType, (t: Transaction) => t.category == category);
    }
    SortDescOfSorted(r, TxDate);
  }

  // ---------------------------------------------------------------- record updates

  /**
   * `{ id: nextId.toString(), ...body, amount }`: the body's own `id`, when it carries one,
   * wins over the generated one.
   */
  function Created(body: Body, nextId: nat): (t: Transaction)
    ensures t.id == if body.id.Some? then body.id.value else NatToString(nextId)
    ensures t.kind == body.kind && t.title == body.title && t.category == body.category
    ensures t.amount == body.amount && t.date == body.date && t.description == body.description
  {
    Transaction(
      if body.id.Some? then body.id.value else NatToString(nextId),
      body.kind, body.title, body.amount, body.category, body.date, body.description)
  }

  /**
   * A client-supplied `id` can collide with a generated one: a body with id "5" created
   * while the counter is 4, then a body without an id created at counter 5, are stored
   * under the same id.
   */
  lemma ClientIdCollides(b1: Body, b2: Body)
    requires b1.id == Some("5") && b2.id == None
    ensures Created(b1, 4).id == Created(b2, 5).id == "5"
  {
    assert NatToString(5) == "5";
  }

  /** `{ ...old, ...body, amount }`. */
  function Merged(t: Transaction, body: Body): (r: Transaction)
    ensures r.amount == body.amount
    ensures r.id == if body.id.Some? then body.id.value else t.id
    ensures r.kind == if body.kind.Some? then body.kind else t.kind
    ensures r.title == if body.title.Some? then body.title else t.title
    ensures r.category == if body.category.Some? then body.category else t.category
    ensures r.date == if body.date.Some? then body.date else t.date
    ensures r.description == if body.description.Some? then body.description else t.description
  {
    Transaction(
      if body.id.Some? then body.id.value else t.id,
      if body.kind.Some? then body.kind else t.kind,
      if body.title.Some? then body.title else t.title,
      body.amount,
      if body.category.Some? then body.category else t.category,
      if body.date.Some? then body.date else t.date,
      if body.description.Some? then body.description else t.description)
  }

  /** A body that names no field but `amount` changes only the amount. */
  lemma MergedAmountOnly(t: Transaction, amount: int)
    ensures Merged(t, Body(None, None, None, amount, None, None, None)) == t.(amount := amount)
  {
  }

  // ---------------------------------------------------------------- summaries

  predicate IsIncome(t: Transaction) { t.kind == Some("income") }
  predicate IsExpense(t: Transaction) { t.kind == Some("expense") }

  /** `transactions.filter(t => t.type === 'expense')`. */
  function Expenses(ts: seq<Transaction>): seq<Transaction> { Filter(ts, IsExpense) }

  /** The key `type` becomes when the transactions are grouped by it. */
  function TxKind(t: Transaction): string { KeyOf(t.kind) }

  /** A transaction's amount where it is an expense, and 0 elsewhere. */
  function ExpenseAmount(t: Transaction): int { if IsExpense(t) then t.amount else 0 }

  /**
   * The summary's `income`: the `reduce` over the income transactions, which is the total
   * of the transactions whose `type` is 'income'.
   */
  function IncomeTotal(ts: seq<Transaction>): (r: int)
    ensures r == Reduce(0, Filter(ts, IsIncome), TxAmount)
    ensures r == CatTotal(ts, TxKind, TxAmount, "income")
  {
    SumOfFilter(ts, IsIncome, TxKind, TxAmount, "income");
    SumOf(Filter(ts, IsIncome), TxAmount)
  }

  /**
   * The summary's `expenses`: the `reduce` over the expense transactions, which is the total
   * of the transactions whose `type` is 'expense'.
   */
  function ExpenseTotal(ts: seq<Transaction>): (r: int)
    ensures r == Reduce(0, Expenses(ts), TxAmount)
    ensures r == CatTotal(ts, TxKind, TxAmount, "expense")
  {
    SumOfFilter(ts, IsExpense, TxKind, TxAmount, "expense");
    SumOf(Expenses(ts), TxAmount)
  }

  /**
   * The summary's `categoryBreakdown`: each expense category with the sum of its amounts,
   * which is the category's total over the whole store with every non-expense counted as 0.
   */
  function Breakdown(ts: seq<Transaction>): (r: map<string, int>)
    ensures forall k :: k in r ==> r[k] == CatTotal(ts, TxCategory, ExpenseAmount, k)
  {
    assert forall k :: CatTotal(Expenses(ts), TxCategory, TxAmount, k) == CatTotal(ts, TxCategory, ExpenseAmount, k) by {
      forall k {
        CatTotalOfFilter(ts, IsExpense, TxCategory, TxAmount, ExpenseAmount, k);
      }
    }
    map k | k in KeySet(Expenses(ts), TxCategory) :: CatTotal(Expenses(ts), TxCategory, TxAmount, k)
  }

  /** A map holding exactly the expense categories, each with its total, is the breakdown. */
  lemma BreakdownOfTotals(ts: seq<Transaction>, m: map<string, int>)
    requires m.Keys == KeySet(Expenses(ts), TxCategory)
    requires forall k :: k in m ==> m[k] == CatTotal(Expenses(ts), TxCategory, TxAmount, k)
    ensures m == Breakdown(ts)
  {
  }

  /**
   * The values of `categoryBreakdown`, summed over its keys in any order, give the
   * `expenses` total.
   */
  lemma BreakdownSumsToExpenses(ts: seq<Transaction>, cs: seq<string>)
    requires Distinct(cs)
    requires forall k :: k in cs <==> k in Breakdown(ts)
    ensures SumValues(cs, Breakdown(ts)) == ExpenseTotal(ts)
  {
    var e := Expenses(ts);
    forall i | 0 <= i < |e| ensures TxCategory(e[i]) in cs {
      assert TxCategory(e[i]) in KeySet(e, TxCategory);
    }
    SumValuesOfTotals(cs, Breakdown(ts), e, TxCategory, TxAmount);
    SumByKeysIsTotal(cs, e, TxCategory, TxAmount);
  }

  /** The keys of `categoryBreakdown` are exactly the categories of expense transactions. */
  lemma BreakdownKeys(ts: seq<Transaction>)
    ensures forall k :: k in Breakdown(ts) <==> exists t :: t in ts && IsExpense(t) && TxCategory(t) == k
  {
    var e := Expenses(ts);
    FilterMembers(ts, IsExpense);
    forall k ensures k in Breakdown(ts) <==> exists t :: t in ts && IsExpense(t) && TxCategory(t) == k {
      if k in Breakdown(ts) {
        var i :| 0 <= i < |e| && TxCategory(e[i]) == k;
        assert e[i] in e;
      }
      if exists t :: t in ts && IsExpense(t) && TxCategory(t) == k {
        var t :| t in ts && IsExpense(t) && TxCategory(t) == k;
        assert t in e;
        var i :| 0 <= i < |e| && e[i] == t;
        assert TxCategory(e[i]) in KeySet(e, TxCategory);
      }
    }
  }

  /** The summary's `balance` is `income - expenses`; removing a transaction moves it by exactly its amount. */
  lemma BalanceAfterDelete(ts: seq<Transaction>, i: nat)
    requires i < |ts|
    ensures var rest := ts[..i] + ts[i + 1..];
      IncomeTotal(rest) - ExpenseTotal(rest) ==
        IncomeTotal(ts) - ExpenseTotal(ts)
        - (if IsIncome(ts[i]) then ts[i].amount else 0)
        + (if IsExpense(ts[i]) then ts[i].amount else 0)
  {
    assert ts == ts[..i] + [ts[i]] + ts[i + 1..];
    FilterConcat(ts[..i] + [ts[i]], ts[i + 1..], IsIncome);
    FilterConcat(ts[..i], [ts[i]], IsIncome);
    FilterConcat(ts[..i], ts[i + 1..], IsIncome);
    FilterConcat(ts[..i] + [ts[i]], ts[i + 1..], IsExpense);
    FilterConcat(ts[..i], [ts[i]], IsExpense);
    FilterConcat(ts[..i], ts[i + 1..], IsExpense);
    var a, b := ts[..i], ts[i + 1..];
    SumConcat(Filter(a, IsIncome) + Filter([ts[i]], IsIncome), Filter(b, IsIncome), TxAmount);
    SumConcat(Filter(a, IsIncome), Filter([ts[i]], IsIncome), TxAmount);
    SumConcat(Filter(a, IsIncome), Filter(b, IsIncome), TxAmount);
    SumConcat(Filter(a, IsExpense) + Filter([ts[i]], IsExpense), Filter(b, IsExpense), TxAmount);
    SumConcat(Filter(a, IsExpense), Filter([ts[i]], IsExpense), TxAmount);
    SumConcat(Filter(a, IsExpense), Filter(b, IsExpense), TxAmount);
  }

  // ---------------------------------------------------------------- the store

  /** The module-level `transactions` array and its `nextId` counter. */
  class Store {
    var transactions: seq<Transaction>
    var nextId: nat

    /** Every id is a numeral the counter handed out before its current value. */
    ghost predicate IdsIssued()
      reads this
    {
      IdsBelow(transactions, TxId, nextId)
    }

    constructor ()
      ensures transactions == Seed() && nextId == FirstId
      ensures IdsIssued()
    {
      transactions := Seed();
      nextId := FirstId;
      new;
      assert NatToString(1) == "1" && NatToString(2) == "2" && NatToString(3) == "3";
      assert ParseNat("1") == 1 && ParseNat("2") == 2 && ParseNat("3") == 3;
    }

    /**
     * POST /api/transactions: appends the new transaction and advances the counter. The new
     * id is fresh when the body carries no `id` of its own.
     */
    method Create(body: Body) returns (t: Transaction)
      modifies this
      ensures t == Created(body, old(nextId))
      ensures transactions == old(transactions) + [t]
      ensures nextId == old(nextId) + 1
      ensures body.id.None? && old(IdsIssued()) ==>
                IdsIssued() && forall u :: u in old(transactions) ==> u.id != t.id
    {
      t := Created(body, nextId);
      transactions := transactions + [t];
      nextId := nextId + 1;
      if body.id.None? && old(IdsIssued()) {
        NumeralOfCounter(old(nextId));
        forall u | u in old(transactions) ensures u.id != t.id {
          var j :| 0 <= j < |old(transactions)| && old(transactions)[j] == u;
          FreshNumeral(u.id, old(nextId));
        }
      }
    }

    /**
     * PUT /api/transactions/:id: merges the body into the first transaction with that id;
     * an unknown id answers not-found and changes nothing.
     */
    method Update(id: string, body: Body) returns (res: Result<Transaction>)
      modifies this
      ensures nextId == old(nextId)
      ensures var i := IndexOf(old(transactions), TxId, id);
        if i == -1 then res == NotFound && transactions == old(transactions)
        else res == Ok(Merged(old(transactions)[i], body)) &&
             transactions == old(transactions)[i := res.value]
    {
      var i := IndexOf(transactions, TxId, id);
      if i == -1 {
        return NotFound;
      }
      var t := Merged(transactions[i], body);
      transactions := transactions[i := t];
      res := Ok(t);
    }

    /**
     * DELETE /api/transactions/:id: removes the first transaction with that id, keeping the
     * others in order; an unknown id answers not-found and changes nothing.
     */
    method Delete(id: string) returns (res: Result<()>)
      modifies this
      ensures nextId == old(nextId)
      ensures res.NotFound? <==> forall j :: 0 <= j < |old(transactions)| ==> old(transactions)[j].id != id
      ensures var i := IndexOf(old(transactions), TxId, id);
        if i == -1 then transactions == old(transactions)
        else transactions == old(transactions)[..i] + old(transactions)[i + 1..] &&
             |transactions| == |old(transactions)| - 1
    {
      var i := IndexOf(transactions, TxId, id);
      if i == -1 {
        return NotFound;
      }
      transactions := transactions[..i] + transactions[i + 1..];
      res := Ok(());
    }

    /**
     * GET /api/summary: the income and expense totals, their difference, and the expense
     * total of each category, accumulated one expense at a time.
     */
    method Summary() returns (income: int, expenses: int, balance: int, breakdown: map<string, int>)
      ensures income == IncomeTotal(transactions)
      ensures expenses == ExpenseTotal(transactions)
      ensures balance == income - expenses
      ensures breakdown == Breakdown(transactions)
    {
      income := IncomeTotal(transactions);
      expenses := ExpenseTotal(transactions);
      balance := income - expenses;
      var e := Expenses(transactions);
      breakdown := map[];
      var i := 0;
      while i < |e|
        invariant 0 <= i <= |e|
        invariant breakdown.Keys == KeySet(e[..i], TxCategory)
        invariant forall k :: k in breakdown ==> breakdown[k] == CatTotal(e[..i], TxCategory, TxAmount, k)
      {
        assert e[..i + 1] == e[..i] + [e[i]];
        breakdown := AddToTotals(breakdown, e[..i], e[i], TxCategory, TxAmount);
        i := i + 1;
      }
      assert e[..i] == e;
      BreakdownOfTotals(transactions, breakdown);
    }
  }
}
