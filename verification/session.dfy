/** The tracker page talking to the data route: how the page turns the rows
    GET returns into its own state, how "Generate/Recalculate Budget" both
    replaces the page's budget and saves it, and why the page's optimistic
    updates agree with what a reload would show. */
module Session {
  import opened Wrappers
  import opened Tracker
  import Store

  /** The page's mapping of stored allocations: category and amount are
      copied, the stored integer flag becomes a boolean (`!!is_locked`) and
      nothing is spent yet. An empty list gives an empty budget. */
  function LoadBudget(rows: seq<Store.AllocationRow>): (items: seq<BudgetItem>)
    ensures |items| == |rows|
    ensures forall i :: 0 <= i < |rows| ==>
              && items[i].category == rows[i].category
              && items[i].amount == rows[i].budgetedAmount
              && (items[i].isLocked <==> rows[i].isLocked != 0)
              && items[i].actual == 0.0
  {
    if rows == [] then []
    else [BudgetItem(rows[0].category, rows[0].budgetedAmount, rows[0].isLocked != 0, 0.0)]
         + LoadBudget(rows[1..])
  }

  /** Incomes as the page reads them from the rows. */
  function LoadIncomes(rows: seq<Store.IncomeRow>): (r: seq<Income>)
    ensures |r| == |rows|
    ensures forall i :: 0 <= i < |rows| ==> r[i] == Income(rows[i].source, Some(rows[i].amount))
  {
    if rows == [] then [] else [Income(rows[0].source, Some(rows[0].amount))] + LoadIncomes(rows[1..])
  }

  /** Expenses as the page reads them from the rows. */
  function LoadExpenses(rows: seq<Store.ExpenseRow>): (r: seq<Expense>)
    ensures |r| == |rows|
    ensures forall i :: 0 <= i < |rows| ==>
              r[i] == Expense(rows[i].category, rows[i].description, rows[i].amount,
                              Some(rows[i].transactionCost), rows[i].date)
  {
    if rows == [] then []
    else [Expense(rows[0].category, rows[0].description, rows[0].amount,
                  Some(rows[0].transactionCost), rows[0].date)]
         + LoadExpenses(rows[1..])
  }

  /** Saving a budget for an existing month and loading it back gives the
      same items with their actuals cleared: the lock flag survives the 1/0
      encoding. A save for a month that does not exist is refused and the
      month's stored budget stays what it was. */
  lemma SaveThenLoadBudget(t: Store.Tables, id: int, items: seq<BudgetItem>, now: string)
    ensures var t' := Store.Post(t, Store.UpdateBudget(id, items), now).0;
            LoadBudget(Store.RowsOf(t'.budgets, Store.BudgetMonth, id))
            == if Store.HasMonth(t, id) || items == [] then ResetActuals(items)
               else LoadBudget(Store.RowsOf(t.budgets, Store.BudgetMonth, id))
  {
  }

  /** The same through GET: once a month exists, its saved budget is what
      the page shows after reopening it, and the page's own budget state and
      the reloaded one yield the same budget-vs-actual table. */
  lemma ReopenShowsSavedBudget(t: Store.Tables, month: int, year: int, items: seq<BudgetItem>,
                               es: seq<Expense>, now: string)
    requires Store.FindMonth(t.months, month, year).Some?
    ensures var m := Store.FindMonth(t.months, month, year).value;
            var t' := Store.Post(t, Store.UpdateBudget(m.id, items), now).0;
            var reply := Store.Get(t', Some(month), Some(year)).1;
            && reply.detail.month == m
            && LoadBudget(reply.detail.budgets) == ResetActuals(items)
            && ProcessedBudget(LoadBudget(reply.detail.budgets), es) == ProcessedBudget(items, es)
  {
    var m := Store.FindMonth(t.months, month, year).value;
    assert Store.HasMonth(t, m.id);
    SaveThenLoadBudget(t, m.id, items, now);
    ResetActualsIdempotent(items);
  }

  /** Clearing actuals a second time changes nothing. */
  lemma ResetActualsIdempotent(items: seq<BudgetItem>)
    ensures ResetActuals(ResetActuals(items)) == ResetActuals(items)
  {
  }

  /** `calculateBudget` together with `saveBudget`: with zero income neither
      the page's budget nor the tables change; otherwise the page shows the
      generated budget and, when the month exists, the month's stored
      allocations are exactly that budget, every other month's allocations
      untouched. When it does not, the save is refused and the page shows a
      budget the tables do not hold. */
  function Recalculate(incomes: seq<Income>, current: seq<BudgetItem>, t: Store.Tables,
                       monthId: int, now: string): (r: (seq<BudgetItem>, Store.Tables))
    ensures TotalIncome(incomes) == 0.0 ==> r == (current, t)
    ensures TotalIncome(incomes) != 0.0 ==>
              && r.0 == CalculateBudget(TotalIncome(incomes), current)
              && SumAmounts(r.0) == TotalIncome(incomes)
              && if Store.HasMonth(t, monthId)
                 then
                   && LoadBudget(Store.RowsOf(r.1.budgets, Store.BudgetMonth, monthId)) == r.0
                   && r.1 == t.(budgets := r.1.budgets)
                   && forall other :: other != monthId ==>
                        Store.RowsOf(r.1.budgets, Store.BudgetMonth, other)
                        == Store.RowsOf(t.budgets, Store.BudgetMonth, other)
                 else r.1 == t
  {
    var income := TotalIncome(incomes);
    if income == 0.0 then (current, t)
    else
      var budget := CalculateBudget(income, current);
      var t' := Store.Post(t, Store.UpdateBudget(monthId, budget), now).0;
      BudgetSumsToIncome(income, current);
      SaveThenLoadBudget(t, monthId, budget, now);
      GeneratedBudgetIsReset(income, current);
      (budget, t')
  }

  /** Pressing "Recalculate Budget" again with the same incomes changes
      neither the page's budget nor the tables. */
  lemma RecalculateIdempotent(incomes: seq<Income>, current: seq<BudgetItem>, t: Store.Tables,
                              monthId: int, now: string)
    ensures var r := Recalculate(incomes, current, t, monthId, now);
            Recalculate(incomes, r.0, r.1, monthId, now) == r
  {
    var income := TotalIncome(incomes);
    if income != 0.0 {
      var budget := CalculateBudget(income, current);
      BudgetIgnoresPrevious(income, current, budget);
      Store.ReplaceBudgetIdempotent(t, monthId, budget);
    }
  }

  /** A generated budget has nothing spent, so clearing its actuals changes nothing. */
  lemma GeneratedBudgetIsReset(income: real, current: seq<BudgetItem>)
    requires income != 0.0
    ensures ResetActuals(CalculateBudget(income, current)) == CalculateBudget(income, current)
  {
  }

  lemma LoadIncomesAppend(a: seq<Store.IncomeRow>, b: seq<Store.IncomeRow>)
    ensures LoadIncomes(a + b) == LoadIncomes(a) + LoadIncomes(b)
  {
  }

  /** `addIncome`: when the month exists, the page's optimistic append is
      exactly what reloading the month would show, so the total rises by the
      amount either way. The page appends without looking at the reply, so
      when the month does not exist a reload shows the incomes unchanged. */
  lemma OptimisticIncomeMatchesReload(t: Store.Tables, id: int, source: string, amount: real, now: string)
    ensures var t' := Store.Post(t, Store.AddIncome(id, source, amount), now).0;
            var before := LoadIncomes(Store.RowsOf(t.incomes, Store.IncomeMonth, id));
            var after := LoadIncomes(Store.RowsOf(t'.incomes, Store.IncomeMonth, id));
            if Store.HasMonth(t, id)
            then after == AppendIncome(before, source, amount) && TotalIncome(after) == TotalIncome(before) + amount
            else after == before
  {
    var row := Store.IncomeRow(id, source, amount);
    Store.AddIncomeOtherMonths(t, id, source, amount, id, now);
    LoadIncomesAppend(Store.RowsOf(t.incomes, Store.IncomeMonth, id), [row]);
    AppendIncomeRaisesTotal(LoadIncomes(Store.RowsOf(t.incomes, Store.IncomeMonth, id)), source, amount);
  }

  lemma LoadExpensesAppend(a: seq<Store.ExpenseRow>, b: seq<Store.ExpenseRow>)
    ensures LoadExpenses(a + b) == LoadExpenses(a) + LoadExpenses(b)
  {
  }

  /** `addExpense`: the page appends the expense with its own timestamp
      while the table stamps it itself, but when the month exists the
      budget-vs-actual table is the same either way. */
  lemma OptimisticExpenseMatchesReload(t: Store.Tables, items: seq<BudgetItem>, id: int, category: string,
                                       description: string, amount: real, cost: real,
                                       pageDate: string, now: string)
    ensures var t' := Store.Post(t, Store.AddExpense(id, category, description, amount, Some(cost)), now).0;
            var before := LoadExpenses(Store.RowsOf(t.expenses, Store.ExpenseMonth, id));
            var after := LoadExpenses(Store.RowsOf(t'.expenses, Store.ExpenseMonth, id));
            if Store.HasMonth(t, id)
            then ProcessedBudget(items, after)
                 == ProcessedBudget(items, AppendExpense(before, category, description, amount, cost, pageDate))
            else after == before
  {
    if Store.HasMonth(t, id) {
      var row := Store.ExpenseRow(id, category, description, amount, cost, now);
      var rows := Store.RowsOf(t.expenses, Store.ExpenseMonth, id);
      assert Store.RowsOf(Store.Post(t, Store.AddExpense(id, category, description, amount, Some(cost)), now).0.expenses,
                          Store.ExpenseMonth, id) == rows + [row] by {
        Store.AddExpenseOtherMonths(t, id, category, description, amount, Some(cost), id, now);
      }
      LoadExpensesAppend(rows, [row]);
      CostsAgree(items, LoadExpenses(rows), row, category, description, amount, cost, pageDate);
    }
  }

  /** The reloaded list and the page's list differ only in the last
      expense's date, which the budget-vs-actual table ignores. */
  lemma CostsAgree(items: seq<BudgetItem>, loaded: seq<Expense>, row: Store.ExpenseRow, category: string,
                   description: string, amount: real, cost: real, pageDate: string)
    requires row.category == category && row.amount == amount && row.transactionCost == cost
    ensures ProcessedBudget(items, loaded + LoadExpenses([row]))
            == ProcessedBudget(items, AppendExpense(loaded, category, description, amount, cost, pageDate))
  {
    var after := loaded + LoadExpenses([row]);
    var optimistic := AppendExpense(loaded, category, description, amount, cost, pageDate);
    assert |after| == |optimistic|;
    forall k | 0 <= k < |after|
      ensures after[k].category == optimistic[k].category && Cost(after[k]) == Cost(optimistic[k])
    {
      if k < |loaded| {
        assert after[k] == loaded[k];
        assert optimistic[k] == loaded[k];
      }
    }
    ProcessedBudgetByCost(items, after, optimistic);
  }
}
