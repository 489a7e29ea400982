/** The budget engine of the tracker page: the category and percentage
    tables, total income, budget generation, the folding of expenses into
    actuals, remaining/overspent and the savings sub-split. All amounts are
    exact reals; the page computes them with binary floating point. */
module Tracker {
  import opened Wrappers

  /** One row of the budget-vs-actual table. */
  datatype BudgetItem = BudgetItem(category: string, amount: real, isLocked: bool, actual: real)

  /** An income as the page holds it; `amount` is None when missing or falsy. */
  datatype Income = Income(source: string, amount: Option<real>)

  /** An expense as the page holds it; `transactionCost` is None when missing or falsy. */
  datatype Expense = Expense(category: string, description: string, amount: real,
                             transactionCost: Option<real>, date: string)

  /** One named share of the savings sub-split. */
  datatype SavingsShare = SavingsShare(name: string, amount: real)

  // ---------------------------------------------------------------------
  // Constants
  // ---------------------------------------------------------------------

  const LockedCategories: seq<string> := ["Tithe", "Rent", "Savings"]
  const FlexibleCategories: seq<string> := ["Food", "Transport", "Utilities", "Airtime", "Personal"]

  /** Base share of income per category. */
  const DefaultPct: map<string, real> := map[
    "Tithe" := 0.20, "Savings" := 0.15, "Rent" := 0.20,
    "Food" := 0.25, "Transport" := 0.08, "Utilities" := 0.10,
    "Airtime" := 0.03, "Personal" := 0.10]

  /** The savings sub-split, in the order the page lists it. */
  const SavingsSplit: seq<(string, real)> := [
    ("MFF", 0.40), ("Mali", 0.30), ("Lofty Coban", 0.15), ("Caritus", 0.15)]

  /** The hard-coded rescaling of the flexible categories. */
  const FlexSum: real := 0.56
  const Available: real := 0.45
  const Scale: real := Available / FlexSum

  /** Share of income set aside as savings by the sub-split card. */
  const SavingsRate: real := 0.15

  /** The category has an entry in the percentage table. */
  predicate HasPct(cat: string)
  {
    cat in DefaultPct
  }

  /** `DEFAULT_PCT[cat]` for a category of the table. */
  function Pct(cat: string): real
    requires HasPct(cat)
  {
    DefaultPct[cat]
  }

  /** `DEFAULT_PCT[cat] || 0`: a category missing from the table gets 0. */
  function PctOrZero(cat: string): real
  {
    if HasPct(cat) then Pct(cat) else 0.0
  }

  /** Sum of the table percentages of `cats` (0 for a missing category). */
  function SumPct(cats: seq<string>): real
  {
    SumOf(PctOrZero, cats)
  }

  /** Sum of the percentages `pct` gives `cats`. */
  function SumOf(pct: string -> real, cats: seq<string>): real
  {
    if cats == [] then 0.0 else pct(cats[0]) + SumOf(pct, cats[1..])
  }

  /** The locked percentages add up to 0.55, the flexible ones to exactly
      the hard-coded FlexSum, and 0.55 plus the available share is all of income. */
  lemma PercentageTables()
    ensures SumPct(LockedCategories) == 0.55
    ensures SumPct(FlexibleCategories) == FlexSum
    ensures SumPct(LockedCategories) + Available == 1.0
    ensures Scale * FlexSum == Available
  {
  }

  /** Every category the page iterates over has an entry in the table. */
  lemma FlexibleCategoriesInTable()
    ensures forall i :: 0 <= i < |LockedCategories| ==> HasPct(LockedCategories[i])
    ensures forall i :: 0 <= i < |FlexibleCategories| ==> HasPct(FlexibleCategories[i])
  {
  }

  // ---------------------------------------------------------------------
  // Incomes
  // ---------------------------------------------------------------------

  /** `curr.amount || 0` */
  function IncomeAmount(inc: Income): real
  {
    inc.amount.GetOr(0.0)
  }

  /** Reference definition: the sum of the income amounts, missing ones as 0. */
  function SumIncome(incomes: seq<Income>): real
  {
    if incomes == [] then 0.0 else IncomeAmount(incomes[0]) + SumIncome(incomes[1..])
  }

  /** The left fold `reduce((acc, curr) => acc + (curr.amount || 0), acc)`. */
  function FoldIncome(acc: real, incomes: seq<Income>): real
    decreases |incomes|
  {
    if incomes == [] then acc else FoldIncome(acc + IncomeAmount(incomes[0]), incomes[1..])
  }

  lemma {:induction false} FoldIncomeIsSum(acc: real, incomes: seq<Income>)
    ensures FoldIncome(acc, incomes) == acc + SumIncome(incomes)
    decreases |incomes|
  {
    if incomes != [] {
      FoldIncomeIsSum(acc + IncomeAmount(incomes[0]), incomes[1..]);
    }
  }

  /** Total income: the reduce starting from 0 equals the sum of the amounts. */
  function TotalIncome(incomes: seq<Income>): (total: real)
    ensures total == SumIncome(incomes)
  {
    FoldIncomeIsSum(0.0, incomes);
    FoldIncome(0.0, incomes)
  }

  lemma {:induction false} SumIncomeAppend(incomes: seq<Income>, inc: Income)
    ensures SumIncome(incomes + [inc]) == SumIncome(incomes) + IncomeAmount(inc)
  {
    if incomes == [] {
      assert incomes + [inc] == [inc];
    } else {
      assert (incomes + [inc])[1..] == incomes[1..] + [inc];
      SumIncomeAppend(incomes[1..], inc);
    }
  }

  lemma {:induction false} SumIncomeNonNegative(incomes: seq<Income>)
    requires forall i :: 0 <= i < |incomes| ==> IncomeAmount(incomes[i]) >= 0.0
    ensures SumIncome(incomes) >= 0.0
  {
    if incomes != [] {
      SumIncomeNonNegative(incomes[1..]);
    }
  }

  /** Non-negative amounts give a non-negative total. */
  lemma TotalIncomeNonNegative(incomes: seq<Income>)
    requires forall i :: 0 <= i < |incomes| ==> IncomeAmount(incomes[i]) >= 0.0
    ensures TotalIncome(incomes) >= 0.0
  {
    SumIncomeNonNegative(incomes);
  }

  /** The optimistic update of `addIncome`: the new income goes at the end. */
  function AppendIncome(incomes: seq<Income>, source: string, amount: real): (r: seq<Income>)
    ensures |r| == |incomes| + 1
    ensures r[..|incomes|] == incomes
    ensures r[|incomes|] == Income(source, Some(amount))
  {
    incomes + [Income(source, Some(amount))]
  }

  /** Adding an income raises the total by exactly its amount. */
  lemma AppendIncomeRaisesTotal(incomes: seq<Income>, source: string, amount: real)
    ensures TotalIncome(AppendIncome(incomes, source, amount)) == TotalIncome(incomes) + amount
  {
    SumIncomeAppend(incomes, Income(source, Some(amount)));
  }

  // ---------------------------------------------------------------------
  // Budget generation
  // ---------------------------------------------------------------------

  /** The items pushed for the locked categories: income times the
      category's percentage, locked, nothing spent. `pct` is the percentage
      lookup; the page uses `DEFAULT_PCT[cat] || 0` (PctOrZero). */
  function AllocateLocked(income: real, pct: string -> real, cats: seq<string>): (r: seq<BudgetItem>)
    ensures |r| == |cats|
    ensures forall i :: 0 <= i < |cats| ==>
              r[i] == BudgetItem(cats[i], income * pct(cats[i]), true, 0.0)
  {
    if cats == [] then []
    else [BudgetItem(cats[0], income * pct(cats[0]), true, 0.0)]
         + AllocateLocked(income, pct, cats[1..])
  }

  /** The items pushed for the flexible categories: income times the table
      percentage rescaled by `scale`, not locked, nothing spent. The page
      reads `DEFAULT_PCT[cat]` here without a default; every flexible
      category is in the table (FlexibleCategoriesInTable), so the default
      of PctOrZero never applies. */
  function AllocateFlexible(income: real, scale: real, pct: string -> real, cats: seq<string>)
    : (r: seq<BudgetItem>)
    ensures |r| == |cats|
    ensures forall i :: 0 <= i < |cats| ==>
              r[i] == BudgetItem(cats[i], income * (pct(cats[i]) * scale), false, 0.0)
  {
    if cats == [] then []
    else [BudgetItem(cats[0], income * (pct(cats[0]) * scale), false, 0.0)]
         + AllocateFlexible(income, scale, pct, cats[1..])
  }

  /** The eight category names in the order the budget lists them. */
  const AllCategories: seq<string> := LockedCategories + FlexibleCategories

  /** `calculateBudget`: with zero income the current items stay as they
      are; otherwise a fresh eight-item budget replaces them. */
  function CalculateBudget(income: real, current: seq<BudgetItem>): (r: seq<BudgetItem>)
    ensures income == 0.0 ==> r == current
    ensures income != 0.0 ==> |r| == 8
    ensures income != 0.0 ==> forall i :: 0 <= i < 8 ==>
              && r[i].category == AllCategories[i]
              && r[i].isLocked == (i < 3)
              && r[i].actual == 0.0
    ensures income != 0.0 ==>
              && r[0].amount == income * 0.20
              && r[1].amount == income * 0.20
              && r[2].amount == income * 0.15
    ensures income != 0.0 ==> forall i :: 3 <= i < 8 ==>
              r[i].amount == income * Pct(AllCategories[i]) * 0.45 / 0.56
  {
    if income == 0.0 then current
    else
      FlexibleAmounts(income);
      AllocateLocked(income, PctOrZero, LockedCategories)
      + AllocateFlexible(income, Scale, PctOrZero, FlexibleCategories)
  }

  /** A flexible category's rescaled amount is its base share of the 0.45
      left after the locked categories, over their 0.56 total. */
  lemma FlexibleAmounts(income: real)
    ensures forall i :: 0 <= i < |FlexibleCategories| ==>
              income * (PctOrZero(FlexibleCategories[i]) * Scale)
              == income * Pct(FlexibleCategories[i]) * 0.45 / 0.56
  {
    forall i | 0 <= i < |FlexibleCategories|
      ensures income * (PctOrZero(FlexibleCategories[i]) * Scale)
              == income * Pct(FlexibleCategories[i]) * 0.45 / 0.56
    {
      FlexibleCategoriesInTable();
      Rescale(income, Pct(FlexibleCategories[i]));
    }
  }

  /** `x * (p * (0.45 / 0.56))` regrouped as `x * p * 0.45 / 0.56`. */
  lemma Rescale(x: real, p: real)
    ensures x * (p * Scale) == x * p * 0.45 / 0.56
  {
  }

  /** Generation replaces the budget outright: with non-zero income the
      result does not depend on the items it replaces. */
  lemma BudgetIgnoresPrevious(income: real, a: seq<BudgetItem>, b: seq<BudgetItem>)
    requires income != 0.0
    ensures CalculateBudget(income, a) == CalculateBudget(income, b)
  {
  }

  /** Sum of the budgeted amounts. */
  function SumAmounts(items: seq<BudgetItem>): real
  {
    if items == [] then 0.0 else items[0].amount + SumAmounts(items[1..])
  }

  lemma {:induction false} SumAmountsAppend(a: seq<BudgetItem>, b: seq<BudgetItem>)
    ensures SumAmounts(a + b) == SumAmounts(a) + SumAmounts(b)
  {
    if a == [] {
      assert a + b == b;
    } else {
      assert (a + b)[1..] == a[1..] + b;
      SumAmountsAppend(a[1..], b);
    }
  }

  lemma {:induction false} LockedSum(income: real, pct: string -> real, cats: seq<string>)
    ensures SumAmounts(AllocateLocked(income, pct, cats)) == income * SumOf(pct, cats)
  {
    if cats != [] {
      var r := AllocateLocked(income, pct, cats);
      assert r[1..] == AllocateLocked(income, pct, cats[1..]);
      LockedSum(income, pct, cats[1..]);
      Distribute(income, pct(cats[0]), SumOf(pct, cats[1..]));
    }
  }

  /** Sum of the rescaled percentages of `cats`. */
  function SumScaledPct(scale: real, pct: string -> real, cats: seq<string>): real
  {
    if cats == [] then 0.0 else pct(cats[0]) * scale + SumScaledPct(scale, pct, cats[1..])
  }

  lemma {:induction false} SumScaledPctIsScaled(scale: real, pct: string -> real, cats: seq<string>)
    ensures SumScaledPct(scale, pct, cats) == scale * SumOf(pct, cats)
  {
    if cats != [] {
      SumScaledPctIsScaled(scale, pct, cats[1..]);
      Distribute(scale, pct(cats[0]), SumOf(pct, cats[1..]));
    }
  }

  lemma {:induction false} FlexibleSum(income: real, scale: real, pct: string -> real, cats: seq<string>)
    ensures SumAmounts(AllocateFlexible(income, scale, pct, cats)) == income * SumScaledPct(scale, pct, cats)
  {
    if cats != [] {
      var r := AllocateFlexible(income, scale, pct, cats);
      assert r[1..] == AllocateFlexible(income, scale, pct, cats[1..]);
      FlexibleSum(income, scale, pct, cats[1..]);
      Distribute(income, pct(cats[0]) * scale, SumScaledPct(scale, pct, cats[1..]));
    }
  }

  lemma Distribute(x: real, a: real, b: real)
    ensures x * (a + b) == x * a + x * b
  {
  }

  /** Locked items take 0.55 of income, flexible items 0.45, and together
      the generated budget allocates exactly the whole income. */
  lemma BudgetSumsToIncome(income: real, current: seq<BudgetItem>)
    requires income != 0.0
    ensures SumAmounts(CalculateBudget(income, current)[..3]) == income * 0.55
    ensures SumAmounts(CalculateBudget(income, current)[3..]) == income * 0.45
    ensures SumAmounts(CalculateBudget(income, current)) == income
  {
    var locked := AllocateLocked(income, PctOrZero, LockedCategories);
    var flexible := AllocateFlexible(income, Scale, PctOrZero, FlexibleCategories);
    var r := CalculateBudget(income, current);
    assert r == locked + flexible;
    assert r[..3] == locked;
    assert r[3..] == flexible;
    LockedShare(income);
    FlexibleShare(income);
    SumAmountsAppend(locked, flexible);
    Distribute(income, 0.55, 0.45);
  }

  /** The locked items take 0.55 of income. */
  lemma LockedShare(income: real)
    ensures SumAmounts(AllocateLocked(income, PctOrZero, LockedCategories)) == income * 0.55
  {
    PercentageTables();
    LockedSum(income, PctOrZero, LockedCategories);
  }

  /** The rescaled flexible items take the remaining 0.45 of income. */
  lemma FlexibleShare(income: real)
    ensures SumAmounts(AllocateFlexible(income, Scale, PctOrZero, FlexibleCategories)) == income * 0.45
  {
    PercentageTables();
    SumScaledPctIsScaled(Scale, PctOrZero, FlexibleCategories);
    FlexibleSum(income, Scale, PctOrZero, FlexibleCategories);
  }

  /** Every flexible amount is its base percentage's proportional part of
      the 0.45 share left after the locked categories. */
  lemma FlexibleProportional(income: real, current: seq<BudgetItem>, i: int)
    requires income != 0.0 && 3 <= i < 8
    ensures CalculateBudget(income, current)[i].amount
            == income * 0.45 * (Pct(AllCategories[i]) / SumPct(FlexibleCategories))
  {
    PercentageTables();
    Reassociate(income, Pct(AllCategories[i]));
  }

  /** `x * p * 0.45 / 0.56` regrouped as `x * 0.45 * (p / 0.56)`. */
  lemma Reassociate(x: real, p: real)
    ensures x * p * 0.45 / 0.56 == x * 0.45 * (p / FlexSum)
  {
  }

  // ---------------------------------------------------------------------
  // Actuals aggregation
  // ---------------------------------------------------------------------

  /** What an expense charges: `amount + (transaction_cost || 0)`. */
  function Cost(e: Expense): real
  {
    e.amount + e.transactionCost.GetOr(0.0)
  }

  /** Item `i` is the first one whose category is exactly `cat`. */
  predicate FirstWith(items: seq<BudgetItem>, i: int, cat: string)
  {
    && 0 <= i < |items|
    && items[i].category == cat
    && forall j :: 0 <= j < i ==> items[j].category != cat
  }

  /** `items.find(i => i.category === cat)`, as an index. */
  function FindCategory(items: seq<BudgetItem>, cat: string): (r: Option<nat>)
    ensures r.Some? ==> FirstWith(items, r.value, cat)
    ensures r.None? <==> forall j :: 0 <= j < |items| ==> items[j].category != cat
  {
    if items == [] then None
    else if items[0].category == cat then Some(0)
    else match FindCategory(items[1..], cat)
         case Some(k) => Some(k + 1)
         case None => None
  }

  /** Two budgets agree in everything except, perhaps, the actuals. */
  predicate SameShape(a: seq<BudgetItem>, b: seq<BudgetItem>)
  {
    && |a| == |b|
    && forall i :: 0 <= i < |a| ==>
         && a[i].category == b[i].category
         && a[i].amount == b[i].amount
         && a[i].isLocked == b[i].isLocked
  }

  /** `items.map(b => ({ ...b, actual: 0 }))` */
  function ResetActuals(items: seq<BudgetItem>): (r: seq<BudgetItem>)
    ensures SameShape(r, items)
    ensures forall i :: 0 <= i < |r| ==> r[i].actual == 0.0
  {
    if items == [] then [] else [items[0].(actual := 0.0)] + ResetActuals(items[1..])
  }

  /** One step of the `forEach`: the expense's cost goes to the first item
      of its category, and to nothing else. */
  function Charge(items: seq<BudgetItem>, e: Expense): (r: seq<BudgetItem>)
    ensures SameShape(r, items)
    ensures forall i :: 0 <= i < |items| ==>
              r[i].actual == items[i].actual + (if FirstWith(items, i, e.category) then Cost(e) else 0.0)
    ensures (forall j :: 0 <= j < |items| ==> items[j].category != e.category) ==> r == items
  {
    match FindCategory(items, e.category)
    case Some(k) => items[k := items[k].(actual := items[k].actual + Cost(e))]
    case None => items
  }

  /** Folds the expenses, in order, into the actuals. */
  function ChargeAll(items: seq<BudgetItem>, es: seq<Expense>): (r: seq<BudgetItem>)
    ensures SameShape(r, items)
    decreases |es|
  {
    if es == [] then items else ChargeAll(Charge(items, es[0]), es[1..])
  }

  /** Reference definition: the total cost of the expenses of category `cat`. */
  function SpentOn(es: seq<Expense>, cat: string): real
  {
    if es == [] then 0.0
    else (if es[0].category == cat then Cost(es[0]) else 0.0) + SpentOn(es[1..], cat)
  }

  lemma SameShapeFirstWith(a: seq<BudgetItem>, b: seq<BudgetItem>, i: int, cat: string)
    requires SameShape(a, b)
    ensures FirstWith(a, i, cat) <==> FirstWith(b, i, cat)
  {
  }

  lemma {:induction false} ChargeAllActuals(items: seq<BudgetItem>, es: seq<Expense>, i: int)
    requires 0 <= i < |items|
    ensures ChargeAll(items, es)[i].actual
            == items[i].actual
               + (if FirstWith(items, i, items[i].category) then SpentOn(es, items[i].category) else 0.0)
    decreases |es|
  {
    if es != [] {
      var next := Charge(items, es[0]);
      ChargeAllActuals(next, es[1..], i);
      SameShapeFirstWith(next, items, i, items[i].category);
    }
  }

  /** `processedBudget`: the budget with every actual recomputed from the
      expenses. Categories, amounts, lock flags and order are kept; the
      first item of each category gets the total cost of that category's
      expenses and a later duplicate of a category gets nothing. */
  function ProcessedBudget(items: seq<BudgetItem>, es: seq<Expense>): (r: seq<BudgetItem>)
    ensures SameShape(r, items)
    ensures forall i :: 0 <= i < |items| ==>
              r[i].actual == if FirstWith(items, i, items[i].category)
                             then SpentOn(es, items[i].category) else 0.0
  {
    var start := ResetActuals(items);
    assert forall i :: 0 <= i < |items| ==>
             (FirstWith(start, i, start[i].category) <==> FirstWith(items, i, items[i].category)) by {
      forall i | 0 <= i < |items| {
        SameShapeFirstWith(start, items, i, items[i].category);
      }
    }
    forall i | 0 <= i < |items| {
      ChargeAllActuals(start, es, i);
    }
    ChargeAll(start, es)
  }

  lemma {:induction false} ChargeAllAppend(items: seq<BudgetItem>, es: seq<Expense>, e: Expense)
    ensures ChargeAll(items, es + [e]) == Charge(ChargeAll(items, es), e)
    decreases |es|
  {
    if es == [] {
      assert es + [e] == [e];
    } else {
      assert (es + [e])[1..] == es[1..] + [e];
      ChargeAllAppend(Charge(items, es[0]), es[1..], e);
    }
  }

  /** Recording one more expense updates the processed budget incrementally:
      it is the old processed budget charged with the new expense. */
  lemma ProcessedBudgetAppend(items: seq<BudgetItem>, es: seq<Expense>, e: Expense)
    ensures ProcessedBudget(items, es + [e]) == Charge(ProcessedBudget(items, es), e)
  {
    ChargeAllAppend(ResetActuals(items), es, e);
  }

  /** An expense whose category matches no budget item changes nothing. */
  lemma UnmatchedExpenseIgnored(items: seq<BudgetItem>, es: seq<Expense>, e: Expense)
    requires forall j :: 0 <= j < |items| ==> items[j].category != e.category
    ensures ProcessedBudget(items, es + [e]) == ProcessedBudget(items, es)
  {
    ProcessedBudgetAppend(items, es, e);
  }

  /** The processed budget depends on the expenses only through their
      categories and costs, so descriptions and dates are irrelevant. */
  lemma {:induction false} SpentOnByCost(es1: seq<Expense>, es2: seq<Expense>, cat: string)
    requires |es1| == |es2|
    requires forall k :: 0 <= k < |es1| ==>
               es1[k].category == es2[k].category && Cost(es1[k]) == Cost(es2[k])
    ensures SpentOn(es1, cat) == SpentOn(es2, cat)
  {
    if es1 != [] {
      SpentOnByCost(es1[1..], es2[1..], cat);
    }
  }

  lemma ProcessedBudgetByCost(items: seq<BudgetItem>, es1: seq<Expense>, es2: seq<Expense>)
    requires |es1| == |es2|
    requires forall k :: 0 <= k < |es1| ==>
               es1[k].category == es2[k].category && Cost(es1[k]) == Cost(es2[k])
    ensures ProcessedBudget(items, es1) == ProcessedBudget(items, es2)
  {
    var r1 := ProcessedBudget(items, es1);
    var r2 := ProcessedBudget(items, es2);
    forall i | 0 <= i < |items|
      ensures r1[i] == r2[i]
    {
      SpentOnByCost(es1, es2, items[i].category);
    }
  }

  /** The optimistic update of `addExpense`: the new expense goes at the end. */
  function AppendExpense(es: seq<Expense>, category: string, description: string,
                         amount: real, cost: real, date: string): (r: seq<Expense>)
    ensures |r| == |es| + 1
    ensures r[..|es|] == es
    ensures r[|es|] == Expense(category, description, amount, Some(cost), date)
  {
    es + [Expense(category, description, amount, Some(cost), date)]
  }

  /** The worked example: a Food budget of 1000, a Food expense of 200 with
      a cost of 10 and an expense of 999 in a category without a budget item. */
  lemma FoodExample()
    ensures var r := ProcessedBudget([BudgetItem("Food", 1000.0, false, 0.0)],
                                     [Expense("Food", "", 200.0, Some(10.0), ""),
                                      Expense("Other", "", 999.0, None, "")]);
            r[0].actual == 210.0 && Remaining(r[0]) == 790.0 && !IsOverspent(r[0])
  {
  }

  // ---------------------------------------------------------------------
  // Remaining and overspent
  // ---------------------------------------------------------------------

  /** What is left of an item's budget. */
  function Remaining(item: BudgetItem): (r: real)
    ensures r + item.actual == item.amount
    ensures r < 0.0 <==> item.actual > item.amount
    ensures r == 0.0 <==> item.actual == item.amount
  {
    item.amount - item.actual
  }

  /** An item is overspent when its remaining is negative. */
  predicate IsOverspent(item: BudgetItem)
  {
    Remaining(item) < 0.0
  }

  /** Overspent exactly when more was spent than budgeted; in a processed
      budget, when the category's expenses cost more than its amount. */
  lemma OverspentIffSpentMore(items: seq<BudgetItem>, es: seq<Expense>, i: int)
    requires 0 <= i < |items|
    ensures IsOverspent(ProcessedBudget(items, es)[i])
            <==> ProcessedBudget(items, es)[i].actual > items[i].amount
    ensures FirstWith(items, i, items[i].category) ==>
              (IsOverspent(ProcessedBudget(items, es)[i]) <==> SpentOn(es, items[i].category) > items[i].amount)
    ensures !FirstWith(items, i, items[i].category) ==>
              (IsOverspent(ProcessedBudget(items, es)[i]) <==> items[i].amount < 0.0)
  {
  }

  // ---------------------------------------------------------------------
  // Savings sub-split
  // ---------------------------------------------------------------------

  /** `currentTotalIncome * 0.15` */
  function TotalSavings(income: real): real
  {
    income * SavingsRate
  }

  /** One share per entry of `split`, each the total times its ratio. */
  function Shares(total: real, split: seq<(string, real)>): (r: seq<SavingsShare>)
    ensures |r| == |split|
    ensures forall i :: 0 <= i < |split| ==> r[i] == SavingsShare(split[i].0, total * split[i].1)
  {
    if split == [] then []
    else [SavingsShare(split[0].0, total * split[0].1)] + Shares(total, split[1..])
  }

  function SumRatios(split: seq<(string, real)>): real
  {
    if split == [] then 0.0 else split[0].1 + SumRatios(split[1..])
  }

  function SumShares(shares: seq<SavingsShare>): real
  {
    if shares == [] then 0.0 else shares[0].amount + SumShares(shares[1..])
  }

  lemma {:induction false} SharesSum(total: real, split: seq<(string, real)>)
    ensures SumShares(Shares(total, split)) == total * SumRatios(split)
  {
    if split != [] {
      assert Shares(total, split)[1..] == Shares(total, split[1..]);
      SharesSum(total, split[1..]);
    }
  }

  /** The savings card: the four named shares of 15% of income. */
  function SavingsBreakdown(income: real): (r: seq<SavingsShare>)
    ensures |r| == 4
    ensures r[0].name == "MFF" && r[1].name == "Mali" && r[2].name == "Lofty Coban" && r[3].name == "Caritus"
    ensures r[0].amount == income * 0.15 * 0.40 && r[1].amount == income * 0.15 * 0.30
    ensures r[2].amount == income * 0.15 * 0.15 && r[3].amount == income * 0.15 * 0.15
  {
    Shares(TotalSavings(income), SavingsSplit)
  }

  /** The four ratios make up the whole, so the shares add up to exactly
      15% of income. */
  lemma SavingsSharesSumToSavings(income: real)
    ensures SumRatios(SavingsSplit) == 1.0
    ensures SumShares(SavingsBreakdown(income)) == income * 0.15
  {
    assert SavingsSplit[1..][1..][1..][1..] == [];
    SharesSum(TotalSavings(income), SavingsSplit);
  }

  /** The savings card and the Savings budget item agree, because both use 15%. */
  lemma SavingsCardMatchesBudget(income: real, current: seq<BudgetItem>)
    requires income != 0.0
    ensures CalculateBudget(income, current)[2].category == "Savings"
    ensures SumShares(SavingsBreakdown(income)) == CalculateBudget(income, current)[2].amount
  {
    SavingsSharesSumToSavings(income);
  }
}
