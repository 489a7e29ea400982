/** The data route over the four tables (months, incomes,
    budget_allocations, expenses), held as in-memory sequences of rows in
    insertion order. GET looks a month up, creating it when absent, and
    returns its rows; POST appends incomes and expenses and replaces a
    month's allocations. */
module Store {
  import opened Wrappers
  import Tracker

  datatype MonthRow = MonthRow(id: int, month: int, year: int)
  datatype IncomeRow = IncomeRow(monthId: int, source: string, amount: real)
  /** `isLocked` is the stored integer: 1 for a locked item, 0 otherwise. */
  datatype AllocationRow = AllocationRow(monthId: int, category: string, budgetedAmount: real, isLocked: int)
  datatype ExpenseRow = ExpenseRow(monthId: int, category: string, description: string,
                                   amount: real, transactionCost: real, date: string)

  /** The database; `nextId` is the id AUTOINCREMENT hands to the next month. */
  datatype Tables = Tables(months: seq<MonthRow>, incomes: seq<IncomeRow>,
                           budgets: seq<AllocationRow>, expenses: seq<ExpenseRow>, nextId: int)

  /** A freshly created database: no rows, AUTOINCREMENT starts at 1. */
  const Empty: Tables := Tables([], [], [], [], 1)

  /** Some row of the months table has id `id`: what
      `FOREIGN KEY (month_id) REFERENCES months (id)` asks of a month_id. */
  predicate HasMonth(t: Tables, id: int)
  {
    exists m :: m in t.months && m.id == id
  }

  /** The tables keep their constraints: month ids are distinct and below
      `nextId`, (month, year) is UNIQUE, and every income, allocation and
      expense names an existing month. */
  predicate Valid(t: Tables)
  {
    MonthsValid(t) && RowsHaveMonths(t)
  }

  predicate MonthsValid(t: Tables)
  {
    && (forall i :: 0 <= i < |t.months| ==> t.months[i].id < t.nextId)
    && (forall i, j :: 0 <= i < j < |t.months| ==> t.months[i].id != t.months[j].id)
    && (forall i, j :: 0 <= i < j < |t.months| ==>
          (t.months[i].month, t.months[i].year) != (t.months[j].month, t.months[j].year))
  }

  predicate RowsHaveMonths(t: Tables)
  {
    && (forall x :: x in t.incomes ==> HasMonth(t, x.monthId))
    && (forall x :: x in t.budgets ==> HasMonth(t, x.monthId))
    && (forall x :: x in t.expenses ==> HasMonth(t, x.monthId))
  }

  lemma EmptyIsValid()
    ensures Valid(Empty)
    ensures Empty.months == [] && Empty.incomes == [] && Empty.budgets == [] && Empty.expenses == []
  {
  }

  // ---------------------------------------------------------------------
  // Per-month selection
  // ---------------------------------------------------------------------

  function IncomeMonth(r: IncomeRow): int { r.monthId }
  function BudgetMonth(r: AllocationRow): int { r.monthId }
  function ExpenseMonth(r: ExpenseRow): int { r.monthId }

  /** `SELECT * FROM <table> WHERE month_id = ?`: the rows of month `id`,
      in table order. */
  function RowsOf<T(!new)>(rows: seq<T>, monthOf: T -> int, id: int): (r: seq<T>)
    ensures |r| <= |rows|
    ensures forall x :: x in r <==> x in rows && monthOf(x) == id
  {
    if rows == [] then []
    else (if monthOf(rows[0]) == id then [rows[0]] else []) + RowsOf(rows[1..], monthOf, id)
  }

  /** The selection keeps multiplicity: each row of the month comes back as
      many times as the table holds it, and no row of another month does. */
  lemma {:induction false} RowsOfCounts<T(!new)>(rows: seq<T>, monthOf: T -> int, id: int)
    ensures forall x :: multiset(RowsOf(rows, monthOf, id))[x]
                        == if monthOf(x) == id then multiset(rows)[x] else 0
  {
    if rows != [] {
      assert rows == [rows[0]] + rows[1..];
      RowsOfCounts(rows[1..], monthOf, id);
    }
  }

  lemma {:induction false} RowsOfAppend<T(!new)>(a: seq<T>, b: seq<T>, monthOf: T -> int, id: int)
    ensures RowsOf(a + b, monthOf, id) == RowsOf(a, monthOf, id) + RowsOf(b, monthOf, id)
  {
    if a == [] {
      assert a + b == b;
    } else {
      var head := if monthOf(a[0]) == id then [a[0]] else [];
      assert (a + b)[0] == a[0] && (a + b)[1..] == a[1..] + b;
      calc {
        RowsOf(a + b, monthOf, id);
        head + RowsOf(a[1..] + b, monthOf, id);
        { RowsOfAppend(a[1..], b, monthOf, id); }
        head + (RowsOf(a[1..], monthOf, id) + RowsOf(b, monthOf, id));
        { ConcatAssoc(head, RowsOf(a[1..], monthOf, id), RowsOf(b, monthOf, id)); }
        (head + RowsOf(a[1..], monthOf, id)) + RowsOf(b, monthOf, id);
      }
    }
  }

  lemma ConcatAssoc<T>(x: seq<T>, y: seq<T>, z: seq<T>)
    ensures x + (y + z) == (x + y) + z
  {
  }

  /** Selecting rows of one month is exactly keeping those rows: no row of
      that month is lost and no row of another month comes in. */
  lemma {:induction false} RowsOfAll<T(!new)>(rows: seq<T>, monthOf: T -> int, id: int)
    requires forall k :: 0 <= k < |rows| ==> monthOf(rows[k]) == id
    ensures RowsOf(rows, monthOf, id) == rows
  {
    if rows != [] {
      RowsOfAll(rows[1..], monthOf, id);
    }
  }

  lemma {:induction false} RowsOfNone<T(!new)>(rows: seq<T>, monthOf: T -> int, id: int)
    requires forall k :: 0 <= k < |rows| ==> monthOf(rows[k]) != id
    ensures RowsOf(rows, monthOf, id) == []
  {
    if rows != [] {
      RowsOfNone(rows[1..], monthOf, id);
    }
  }

  // ---------------------------------------------------------------------
  // GET
  // ---------------------------------------------------------------------

  /** `SELECT * FROM months WHERE month = ? AND year = ?`: the first match. */
  function FindMonth(months: seq<MonthRow>, month: int, year: int): (r: Option<MonthRow>)
    ensures r.Some? ==> r.value in months && r.value.month == month && r.value.year == year
    ensures r.None? <==> forall i :: 0 <= i < |months| ==> !(months[i].month == month && months[i].year == year)
  {
    if months == [] then None
    else if months[0].month == month && months[0].year == year then Some(months[0])
    else FindMonth(months[1..], month, year)
  }

  /** The month `(month, year)`, inserted with a fresh id when absent. An
      existing month leaves the tables alone; a missing one adds exactly
      one row, with the next id, and changes nothing else. */
  function GetOrCreate(t: Tables, month: int, year: int): (r: (Tables, MonthRow))
    ensures r.1.month == month && r.1.year == year && r.1 in r.0.months
    ensures FindMonth(t.months, month, year).Some? ==> r.0 == t
    ensures FindMonth(t.months, month, year).None? ==>
              && r.0 == t.(months := t.months + [r.1], nextId := t.nextId + 1)
              && r.1.id == t.nextId
  {
    match FindMonth(t.months, month, year)
    case Some(m) => (t, m)
    case None =>
      var m := MonthRow(t.nextId, month, year);
      (t.(months := t.months + [m], nextId := t.nextId + 1), m)
  }

  /** Asking for the same month twice creates it at most once. */
  lemma GetOrCreateIdempotent(t: Tables, month: int, year: int)
    ensures var (t1, m1) := GetOrCreate(t, month, year);
            GetOrCreate(t1, month, year) == (t1, m1)
  {
  }

  lemma {:induction false} FindMonthAppend(months: seq<MonthRow>, m: MonthRow)
    requires FindMonth(months, m.month, m.year).None?
    ensures FindMonth(months + [m], m.month, m.year) == Some(m)
  {
    if months == [] {
      assert months + [m] == [m];
    } else {
      assert (months + [m])[1..] == months[1..] + [m];
      FindMonthAppend(months[1..], m);
    }
  }

  /** A month's rows, as GET returns them. */
  datatype MonthDetail = MonthDetail(month: MonthRow, incomes: seq<IncomeRow>,
                                     budgets: seq<AllocationRow>, expenses: seq<ExpenseRow>)

  /** The incomes, allocations and expenses whose month_id is the month's id. */
  function DetailOf(t: Tables, m: MonthRow): (d: MonthDetail)
    ensures d.month == m
    ensures forall x :: x in d.incomes <==> x in t.incomes && x.monthId == m.id
    ensures forall x :: x in d.budgets <==> x in t.budgets && x.monthId == m.id
    ensures forall x :: x in d.expenses <==> x in t.expenses && x.monthId == m.id
  {
    MonthDetail(m, RowsOf(t.incomes, IncomeMonth, m.id), RowsOf(t.budgets, BudgetMonth, m.id),
                RowsOf(t.expenses, ExpenseMonth, m.id))
  }

  /** Each of the month's lists holds every row of the month as many times
      as its table does, and nothing else. */
  lemma DetailOfCounts(t: Tables, m: MonthRow)
    ensures var d := DetailOf(t, m);
            && (forall x :: multiset(d.incomes)[x] == if x.monthId == m.id then multiset(t.incomes)[x] else 0)
            && (forall x :: multiset(d.budgets)[x] == if x.monthId == m.id then multiset(t.budgets)[x] else 0)
            && (forall x :: multiset(d.expenses)[x] == if x.monthId == m.id then multiset(t.expenses)[x] else 0)
  {
    RowsOfCounts(t.incomes, IncomeMonth, m.id);
    RowsOfCounts(t.budgets, BudgetMonth, m.id);
    RowsOfCounts(t.expenses, ExpenseMonth, m.id);
  }

  /** What GET answers: the list of months, or one month with its rows. */
  datatype GetReply = MonthList(list: seq<MonthRow>) | Detail(detail: MonthDetail)

  /** `ORDER BY year DESC, month DESC`: `a` may come before `b`. */
  predicate NewerOrSame(a: MonthRow, b: MonthRow)
  {
    a.year > b.year || (a.year == b.year && a.month >= b.month)
  }

  predicate SortedNewestFirst(s: seq<MonthRow>)
  {
    forall i, j :: 0 <= i < j < |s| ==> NewerOrSame(s[i], s[j])
  }

  /** Inserts `m` into a list sorted newest first. */
  function InsertMonth(m: MonthRow, s: seq<MonthRow>): (r: seq<MonthRow>)
    requires SortedNewestFirst(s)
    ensures SortedNewestFirst(r)
    ensures multiset(r) == multiset(s) + multiset{m}
    ensures forall x :: x in r ==> x == m || x in s
  {
    if s == [] then [m]
    else if NewerOrSame(m, s[0]) then [m] + s
    else
      var rest := InsertMonth(m, s[1..]);
      assert s == [s[0]] + s[1..];
      assert forall x :: x in rest ==> NewerOrSame(s[0], x) by {
        forall x | x in rest
          ensures NewerOrSame(s[0], x)
        {
          if x != m {
            var k :| 0 <= k < |s[1..]| && s[1..][k] == x;
            assert s[k + 1] == x;
          }
        }
      }
      SortedCons(s[0], rest);
      [s[0]] + rest
  }

  lemma SortedCons(x: MonthRow, s: seq<MonthRow>)
    requires SortedNewestFirst(s)
    requires forall y :: y in s ==> NewerOrSame(x, y)
    ensures SortedNewestFirst([x] + s)
  {
  }

  /** The months, newest first, as a permutation of the table. */
  function SortMonths(months: seq<MonthRow>): (r: seq<MonthRow>)
    ensures SortedNewestFirst(r)
    ensures multiset(r) == multiset(months)
  {
    if months == [] then []
    else
      assert months == [months[0]] + months[1..];
      InsertMonth(months[0], SortMonths(months[1..]))
  }

  /** GET. Without both a month and a year (None stands for a missing or
      empty parameter) it lists all months newest first and changes
      nothing; with both it returns the month's rows, creating the month
      if needed. */
  function Get(t: Tables, month: Option<int>, year: Option<int>): (r: (Tables, GetReply))
    ensures (month.None? || year.None?) ==>
              && r.0 == t
              && r.1.MonthList?
              && SortedNewestFirst(r.1.list)
              && multiset(r.1.list) == multiset(t.months)
    ensures month.Some? && year.Some? ==>
              && r.1.Detail?
              && r.1.detail.month.month == month.value
              && r.1.detail.month.year == year.value
              && r.1.detail.month in r.0.months
              && r.0.incomes == t.incomes && r.0.budgets == t.budgets && r.0.expenses == t.expenses
              && r.1.detail == DetailOf(r.0, r.1.detail.month)
    ensures month.Some? && year.Some? && FindMonth(t.months, month.value, year.value).Some? ==>
              && r.0 == t
              && r.1.detail.month == FindMonth(t.months, month.value, year.value).value
    ensures month.Some? && year.Some? && FindMonth(t.months, month.value, year.value).None? ==>
              && r.0 == t.(months := t.months + [r.1.detail.month], nextId := t.nextId + 1)
              && r.1.detail.month.id == t.nextId
  {
    if month.None? || year.None? then (t, MonthList(SortMonths(t.months)))
    else
      var (t1, m) := GetOrCreate(t, month.value, year.value);
      (t1, Detail(DetailOf(t1, m)))
  }

  /** GET leaves the tables valid. */
  lemma GetKeepsValid(t: Tables, month: Option<int>, year: Option<int>)
    requires Valid(t)
    ensures Valid(Get(t, month, year).0)
  {
    if month.Some? && year.Some? {
      GetOrCreateKeepsValid(t, month.value, year.value);
    }
  }

  /** Creating a month keeps the tables valid: its id is fresh, its
      (month, year) was absent, and every month a row names is still there. */
  lemma GetOrCreateKeepsValid(t: Tables, month: int, year: int)
    requires Valid(t)
    ensures Valid(GetOrCreate(t, month, year).0)
  {
    var t1 := GetOrCreate(t, month, year).0;
    assert MonthsValid(t1);
    assert RowsHaveMonths(t1) by {
      assert t1.incomes == t.incomes && t1.budgets == t.budgets && t1.expenses == t.expenses;
      forall id | HasMonth(t, id)
        ensures HasMonth(t1, id)
      {
        var m :| m in t.months && m.id == id;
        assert m in t1.months;
      }
    }
  }

  /** A second GET of the same month changes nothing and returns the same rows. */
  lemma GetIdempotent(t: Tables, month: int, year: int)
    ensures var (t1, r1) := Get(t, Some(month), Some(year));
            Get(t1, Some(month), Some(year)) == (t1, r1)
  {
  }

  // ---------------------------------------------------------------------
  // POST
  // ---------------------------------------------------------------------

  /** The request's `action` with its data; any action name other than the
      three the route knows is `Unrecognised`. */
  datatype Action =
    | AddIncome(monthId: int, source: string, amount: real)
    | UpdateBudget(monthId: int, items: seq<Tracker.BudgetItem>)
    | AddExpense(monthId: int, category: string, description: string, amount: real,
                 transactionCost: Option<real>)
    | Unrecognised(name: string)

  datatype Reply = Success | Failure(status: int, message: string)

  /** `is_locked ? 1 : 0` */
  function LockFlag(locked: bool): (flag: int)
    ensures flag == 0 || flag == 1
    ensures flag != 0 <==> locked
  {
    if locked then 1 else 0
  }

  /** The allocation rows inserted for `items`, in order. */
  function AllocationRows(id: int, items: seq<Tracker.BudgetItem>): (r: seq<AllocationRow>)
    ensures |r| == |items|
    ensures forall i :: 0 <= i < |items| ==>
              r[i] == AllocationRow(id, items[i].category, items[i].amount, LockFlag(items[i].isLocked))
  {
    if items == [] then []
    else [AllocationRow(id, items[0].category, items[0].amount, LockFlag(items[0].isLocked))]
         + AllocationRows(id, items[1..])
  }

  /** `DELETE FROM budget_allocations WHERE month_id = ?` */
  function DeleteBudgets(rows: seq<AllocationRow>, id: int): (r: seq<AllocationRow>)
    ensures forall x :: x in r <==> x in rows && x.monthId != id
  {
    if rows == [] then []
    else (if rows[0].monthId != id then [rows[0]] else []) + DeleteBudgets(rows[1..], id)
  }

  /** The delete keeps every row of another month as many times as the
      table holds it. */
  lemma {:induction false} DeleteBudgetsCounts(rows: seq<AllocationRow>, id: int)
    ensures forall x :: multiset(DeleteBudgets(rows, id))[x]
                        == if x.monthId != id then multiset(rows)[x] else 0
  {
    if rows != [] {
      assert rows == [rows[0]] + rows[1..];
      DeleteBudgetsCounts(rows[1..], id);
    }
  }

  /** Deleting one month's allocations leaves every other month's rows as they were. */
  lemma {:induction false} DeleteBudgetsOthers(rows: seq<AllocationRow>, id: int, other: int)
    requires other != id
    ensures RowsOf(DeleteBudgets(rows, id), BudgetMonth, other) == RowsOf(rows, BudgetMonth, other)
  {
    if rows != [] {
      var head := if rows[0].monthId != id then [rows[0]] else [];
      RowsOfAppend(head, DeleteBudgets(rows[1..], id), BudgetMonth, other);
      DeleteBudgetsOthers(rows[1..], id, other);
      if head == [] {
        assert RowsOf(head, BudgetMonth, other) == [];
      } else {
        assert head[1..] == [];
      }
    }
  }

  /** The `update_budget` transaction: the month's allocations are deleted
      and the items inserted in their place, in order. */
  function ReplaceBudget(t: Tables, id: int, items: seq<Tracker.BudgetItem>): (t': Tables)
    ensures RowsOf(t'.budgets, BudgetMonth, id) == AllocationRows(id, items)
    ensures forall other :: other != id ==>
              RowsOf(t'.budgets, BudgetMonth, other) == RowsOf(t.budgets, BudgetMonth, other)
    ensures t' == t.(budgets := t'.budgets)
  {
    ReplacedRows(t.budgets, id, items);
    t.(budgets := DeleteBudgets(t.budgets, id) + AllocationRows(id, items))
  }

  /** After the delete and the inserts, the month's rows are the inserted
      ones and every other month's rows are as before. */
  lemma ReplacedRows(rows: seq<AllocationRow>, id: int, items: seq<Tracker.BudgetItem>)
    ensures RowsOf(DeleteBudgets(rows, id) + AllocationRows(id, items), BudgetMonth, id)
            == AllocationRows(id, items)
    ensures forall other :: other != id ==>
              RowsOf(DeleteBudgets(rows, id) + AllocationRows(id, items), BudgetMonth, other)
              == RowsOf(rows, BudgetMonth, other)
  {
    var kept := DeleteBudgets(rows, id);
    var added := AllocationRows(id, items);
    RowsOfAppend(kept, added, BudgetMonth, id);
    RowsOfNone(kept, BudgetMonth, id);
    RowsOfAll(added, BudgetMonth, id);
    forall other | other != id
      ensures RowsOf(kept + added, BudgetMonth, other) == RowsOf(rows, BudgetMonth, other)
    {
      RowsOfAppend(kept, added, BudgetMonth, other);
      RowsOfNone(added, BudgetMonth, other);
      DeleteBudgetsOthers(rows, id, other);
    }
  }

  lemma {:induction false} DeleteBudgetsAppend(a: seq<AllocationRow>, b: seq<AllocationRow>, id: int)
    ensures DeleteBudgets(a + b, id) == DeleteBudgets(a, id) + DeleteBudgets(b, id)
  {
    if a == [] {
      assert a + b == b;
    } else {
      var head := if a[0].monthId != id then [a[0]] else [];
      assert a + b == [a[0]] + (a[1..] + b);
      DeleteBudgetsCons(a[0], a[1..] + b, id);
      DeleteBudgetsAppend(a[1..], b, id);
      ConcatAssoc(head, DeleteBudgets(a[1..], id), DeleteBudgets(b, id));
    }
  }

  lemma DeleteBudgetsCons(x: AllocationRow, rest: seq<AllocationRow>, id: int)
    ensures DeleteBudgets([x] + rest, id) == (if x.monthId != id then [x] else []) + DeleteBudgets(rest, id)
  {
    assert ([x] + rest)[0] == x && ([x] + rest)[1..] == rest;
  }

  lemma {:induction false} DeleteBudgetsNone(rows: seq<AllocationRow>, id: int)
    requires forall k :: 0 <= k < |rows| ==> rows[k].monthId != id
    ensures DeleteBudgets(rows, id) == rows
  {
    if rows != [] {
      DeleteBudgetsNone(rows[1..], id);
    }
  }

  lemma {:induction false} DeleteBudgetsAll(rows: seq<AllocationRow>, id: int)
    requires forall k :: 0 <= k < |rows| ==> rows[k].monthId == id
    ensures DeleteBudgets(rows, id) == []
  {
    if rows != [] {
      DeleteBudgetsAll(rows[1..], id);
    }
  }

  /** Replacing a month's allocations twice with the same items leaves the
      table as one replacement did. */
  lemma ReplaceBudgetIdempotent(t: Tables, id: int, items: seq<Tracker.BudgetItem>)
    ensures ReplaceBudget(ReplaceBudget(t, id, items), id, items) == ReplaceBudget(t, id, items)
  {
    var kept := DeleteBudgets(t.budgets, id);
    var added := AllocationRows(id, items);
    assert DeleteBudgets(kept + added, id) == kept by {
      DeleteBudgetsAppend(kept, added, id);
      assert DeleteBudgets(kept, id) == kept by {
        forall k | 0 <= k < |kept|
          ensures kept[k].monthId != id
        {
          assert kept[k] in kept;
        }
        DeleteBudgetsNone(kept, id);
      }
      DeleteBudgetsAll(added, id);
    }
  }

  /** What the route answers when an insert names a month_id no month has:
      the foreign key rejects the row and the `catch` turns the error's
      message into a 500 reply. */
  const ForeignKeyFailed: string := "FOREIGN KEY constraint failed"

  /** POST. `add_income` and `add_expense` append exactly one row to their
      table; `update_budget` replaces one month's allocations in a single
      transaction; any other action is refused with status 400. An insert
      whose month_id names no month is refused by the foreign key with status
      500 and, the transaction rolled back, the tables stay as they were.
      Nothing else changes. */
  function Post(t: Tables, a: Action, now: string): (r: (Tables, Reply))
    ensures r.1.Failure? ==> r.0 == t
    ensures r.1 == Failure(400, "Invalid action") <==> a.Unrecognised?
    ensures a.AddIncome? ==>
              if HasMonth(t, a.monthId)
              then r == (t.(incomes := t.incomes + [IncomeRow(a.monthId, a.source, a.amount)]), Success)
              else r == (t, Failure(500, ForeignKeyFailed))
    ensures a.AddExpense? ==>
              if HasMonth(t, a.monthId)
              then r == (t.(expenses := t.expenses + [ExpenseRow(a.monthId, a.category, a.description, a.amount,
                                                                a.transactionCost.GetOr(0.0), now)]), Success)
              else r == (t, Failure(500, ForeignKeyFailed))
    ensures a.UpdateBudget? ==>
              if HasMonth(t, a.monthId) || a.items == []
              then
                && r.1 == Success
                && r.0 == t.(budgets := r.0.budgets)
                && RowsOf(r.0.budgets, BudgetMonth, a.monthId) == AllocationRows(a.monthId, a.items)
                && forall other :: other != a.monthId ==>
                     RowsOf(r.0.budgets, BudgetMonth, other) == RowsOf(t.budgets, BudgetMonth, other)
              else r == (t, Failure(500, ForeignKeyFailed))
  {
    match a
    case AddIncome(id, source, amount) =>
      if HasMonth(t, id) then (t.(incomes := t.incomes + [IncomeRow(id, source, amount)]), Success)
      else (t, Failure(500, ForeignKeyFailed))
    case UpdateBudget(id, items) =>
      if HasMonth(t, id) || items == [] then (ReplaceBudget(t, id, items), Success)
      else (t, Failure(500, ForeignKeyFailed))
    case AddExpense(id, category, description, amount, cost) =>
      if HasMonth(t, id)
      then (t.(expenses := t.expenses + [ExpenseRow(id, category, description, amount, cost.GetOr(0.0), now)]),
            Success)
      else (t, Failure(500, ForeignKeyFailed))
    case Unrecognised(_) =>
      (t, Failure(400, "Invalid action"))
  }

  /** POST never touches the months table and only inserts rows whose month
      exists, so it keeps the tables valid. */
  lemma PostKeepsValid(t: Tables, a: Action, now: string)
    requires Valid(t)
    ensures Post(t, a, now).0.months == t.months
    ensures Valid(Post(t, a, now).0)
  {
    var r := Post(t, a, now);
    if r.1.Success? {
      match a
      case AddIncome(id, _, _) =>
        assert HasMonth(t, id);
      case AddExpense(id, _, _, _, _) =>
        assert HasMonth(t, id);
      case UpdateBudget(id, items) =>
        ReplaceBudgetHasMonths(t, id, items);
      case Unrecognised(_) =>
    }
  }

  /** A successful replacement keeps only allocations that already named
      a month and inserts rows for a month that exists. */
  lemma ReplaceBudgetHasMonths(t: Tables, id: int, items: seq<Tracker.BudgetItem>)
    requires Valid(t)
    requires HasMonth(t, id) || items == []
    ensures Valid(ReplaceBudget(t, id, items))
  {
    var kept := DeleteBudgets(t.budgets, id);
    var rows := AllocationRows(id, items);
    assert ReplaceBudget(t, id, items) == t.(budgets := kept + rows);
    forall x: AllocationRow | x in kept + rows
      ensures HasMonth(t, x.monthId)
    {
      if x in rows {
        AllocationRowsMonth(id, items, x);
      }
    }
    BudgetsChangeKeepsValid(t, kept + rows);
  }

  /** Replacing the allocations by rows that all name existing months keeps
      the tables valid. */
  lemma BudgetsChangeKeepsValid(t: Tables, budgets: seq<AllocationRow>)
    requires Valid(t)
    requires forall x :: x in budgets ==> HasMonth(t, x.monthId)
    ensures Valid(t.(budgets := budgets))
  {
  }

  lemma AllocationRowsMonth(id: int, items: seq<Tracker.BudgetItem>, x: AllocationRow)
    requires x in AllocationRows(id, items)
    ensures x.monthId == id
  {
    var rows := AllocationRows(id, items);
    var k :| 0 <= k < |rows| && rows[k] == x;
  }

  /** Adding an income to an existing month changes no other month's
      incomes and adds it at the end of its own month's list. */
  lemma AddIncomeOtherMonths(t: Tables, id: int, source: string, amount: real, other: int, now: string)
    ensures var t' := Post(t, AddIncome(id, source, amount), now).0;
            RowsOf(t'.incomes, IncomeMonth, other)
            == RowsOf(t.incomes, IncomeMonth, other)
               + (if other == id && HasMonth(t, id) then [IncomeRow(id, source, amount)] else [])
  {
    if HasMonth(t, id) {
      RowsOfAppend(t.incomes, [IncomeRow(id, source, amount)], IncomeMonth, other);
      assert [IncomeRow(id, source, amount)][1..] == [];
    }
  }

  /** The same for expenses. */
  lemma AddExpenseOtherMonths(t: Tables, id: int, category: string, description: string, amount: real,
                              cost: Option<real>, other: int, now: string)
    ensures var t' := Post(t, AddExpense(id, category, description, amount, cost), now).0;
            var row := ExpenseRow(id, category, description, amount, cost.GetOr(0.0), now);
            RowsOf(t'.expenses, ExpenseMonth, other)
            == RowsOf(t.expenses, ExpenseMonth, other) + (if other == id && HasMonth(t, id) then [row] else [])
  {
    if HasMonth(t, id) {
      var row := ExpenseRow(id, category, description, amount, cost.GetOr(0.0), now);
      RowsOfAppend(t.expenses, [row], ExpenseMonth, other);
      assert [row][1..] == [];
    }
  }
}
