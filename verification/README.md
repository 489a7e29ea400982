# Budget analyzer: the budget engine and the period store

This project models the core of a personal-finance tracker. A user records a
month's incomes and expenses. The tracker page splits total income into
eight budget categories by fixed percentages. It charges each expense to its
category and shows budgeted, spent and remaining amounts, plus a four-way
split of the savings share. The data route keeps four tables: months,
incomes, budget allocations and expenses. It finds or creates a month,
returns that month's rows, appends incomes and expenses, and replaces a
month's allocations in one transaction.

The model has four modules:

- `Wrappers` (wrappers.dfy) holds `Option`. It stands for a missing value and
  for the falsy values that `x || 0` replaces.
- `Tracker` (tracker.dfy) is the budget engine of `src/app/tracker/page.tsx`:
  - the category lists, the percentage table, the savings split and the
    rescaling constants 0.45/0.56;
  - the total-income reduce;
  - `calculateBudget`, `processedBudget` and remaining/overspent;
  - the savings card;
  - the optimistic list appends of `addIncome` and `addExpense`.
- `Store` (store.dfy) models `src/app/api/data/route.ts` over in-memory
  tables. Rows are kept in insertion order, and a `nextId` counter plays the
  role of AUTOINCREMENT. GET and POST become functions from the tables to
  the new tables and a reply. Each income, allocation and expense row must
  name an existing month, as the tables' foreign keys require; an insert
  that does not is refused with status 500 and changes nothing.
- `Session` (session.dfy) connects the page and the route:
  - how the page maps the rows GET returns into its own state;
  - `calculateBudget` together with `saveBudget`;
  - lemmas showing that the page's optimistic updates match what a reload
    would show when the month exists. The page does not look at the reply,
    so after a refused POST its state and a reload differ.

All amounts are `real`. Over the reals the allocation identities hold
exactly: locked items take 0.55 of income, flexible items 0.45, and all
eight items add up to the income. The page computes them in binary floating
point, so there they hold only up to rounding.

Two behaviours of the code shape the contracts:

- Budget generation returns early only when total income is exactly 0. A
  negative income still produces a budget, with negative amounts; it is not
  rejected.
- An expense is charged to the first budget item of its category only
  (`find`). A later duplicate of a category stays at 0 spent. It does not
  receive the category's total.

## Model

| member | source | states |
|---|---|---|
| Tracker.PercentageTables | src/app/tracker/page.tsx:17-26 | Locked percentages total 0.55 and flexible ones exactly the hard-coded 0.56, so 0.55 + 0.45 covers all income and scale × 0.56 = 0.45 |
| Tracker.FlexibleCategoriesInTable | src/app/tracker/page.tsx:14-26 | Every locked and flexible category has an entry in the percentage table, so no lookup falls back |
| Tracker.FoldIncomeIsSum | src/app/tracker/page.tsx:79 | The left-to-right reduce from any start value equals that value plus the reference sum of the amounts |
| Tracker.TotalIncome | src/app/tracker/page.tsx:79 | Total income is the sum of all income amounts, a missing amount counting as 0 |
| Tracker.SumIncomeAppend | src/app/tracker/page.tsx:79 | Summing a list with one more income adds exactly that income's amount |
| Tracker.TotalIncomeNonNegative | src/app/tracker/page.tsx:79 | Non-negative amounts give a non-negative total |
| Tracker.AppendIncome | src/app/tracker/page.tsx:147 | The optimistic update keeps the earlier incomes in order and puts the new one last |
| Tracker.AppendIncomeRaisesTotal | src/app/tracker/page.tsx:147 | Adding an income raises the total income by exactly its amount |
| Tracker.AllocateLocked | src/app/tracker/page.tsx:90-97 | One locked, unspent item per locked category, in list order, worth income × its percentage |
| Tracker.AllocateFlexible | src/app/tracker/page.tsx:105-115 | One unlocked, unspent item per flexible category, in list order, worth income × (percentage × scale) |
| Tracker.CalculateBudget | src/app/tracker/page.tsx:83-119 | Zero income leaves the budget unchanged. Otherwise there are 8 items: Tithe, Rent, Savings (locked) then Food, Transport, Utilities, Airtime, Personal (unlocked), none spent. Locked amounts are 0.20/0.20/0.15 of income; flexible ones are income × pct × 0.45/0.56 |
| Tracker.BudgetIgnoresPrevious | src/app/tracker/page.tsx:86-117 | With non-zero income, generation replaces the budget outright; the result does not depend on the previous items |
| Tracker.SumAmountsAppend | src/app/tracker/page.tsx:87-115 | Concatenating the locked and flexible lists adds their budget totals |
| Tracker.LockedSum | src/app/tracker/page.tsx:90-97 | The locked items total income × the sum of their percentages |
| Tracker.SumScaledPctIsScaled | src/app/tracker/page.tsx:101-108 | Rescaling each flexible percentage rescales their sum by the same factor |
| Tracker.FlexibleSum | src/app/tracker/page.tsx:105-115 | The flexible items total income × the sum of their rescaled percentages |
| Tracker.BudgetSumsToIncome | src/app/tracker/page.tsx:90-115 | A generated budget gives 0.55 of income to locked items and 0.45 to flexible ones, exactly the income in all |
| Tracker.FlexibleProportional | src/app/tracker/page.tsx:105-108 | Each flexible amount is its percentage's proportional part of the 0.45 share |
| Tracker.FindCategory | src/app/tracker/page.tsx:126 | The index found is the first item whose category is exactly the expense's; none is found only when no item has that category |
| Tracker.ResetActuals | src/app/tracker/page.tsx:124 | The cloned budget keeps categories, amounts, lock flags and order, with every actual at 0 |
| Tracker.Charge | src/app/tracker/page.tsx:125-130 | One expense adds amount + cost to the first item of its category and changes nothing else; with no matching item the budget is unchanged |
| Tracker.ChargeAll | src/app/tracker/page.tsx:125-130 | Folding expenses in never changes categories, amounts, lock flags, order or length |
| Tracker.SameShapeFirstWith | src/app/tracker/page.tsx:126 | Budgets that agree except in their actuals have the same first item per category |
| Tracker.ChargeAllActuals | src/app/tracker/page.tsx:125-130 | After the fold, the first item of each category has gained the total cost of that category's expenses, and a duplicate has gained nothing |
| Tracker.ProcessedBudget | src/app/tracker/page.tsx:122-132 | Only actuals are recomputed. The first item of a category shows the summed cost of that category's expenses, and later duplicates show 0 |
| Tracker.ChargeAllAppend | src/app/tracker/page.tsx:125-130 | Folding in one more expense at the end is one more charge on the previous result |
| Tracker.ProcessedBudgetAppend | src/app/tracker/page.tsx:173 | Recording one more expense updates the table incrementally, by charging that expense alone |
| Tracker.UnmatchedExpenseIgnored | src/app/tracker/page.tsx:126-127 | An expense whose category matches no budget item changes nothing |
| Tracker.SpentOnByCost | src/app/tracker/page.tsx:128 | A category's spending depends only on the expenses' categories and charged costs |
| Tracker.ProcessedBudgetByCost | src/app/tracker/page.tsx:128 | Descriptions and dates do not affect the budget-vs-actual table |
| Tracker.AppendExpense | src/app/tracker/page.tsx:173 | The optimistic update keeps the earlier expenses in order and puts the new one last |
| Tracker.FoodExample | src/app/tracker/page.tsx:122-132 | Food budget 1000, a Food expense of 200 + 10 and an unmatched one of 999: spent 210, remaining 790, not overspent |
| Tracker.Remaining | src/app/tracker/page.tsx:244 | Remaining is negative exactly when more was spent than budgeted, and zero exactly when spending equals the budget |
| Tracker.OverspentIffSpentMore | src/app/tracker/page.tsx:244-245 | An item is overspent exactly when its category's expenses cost more than its budget; a duplicate item is overspent only with a negative budget |
| Tracker.Shares | src/app/tracker/page.tsx:217-220 | One share per split entry, same name and order, worth total × ratio |
| Tracker.SharesSum | src/app/tracker/page.tsx:217-220 | The shares add up to the total × the sum of the ratios |
| Tracker.SavingsBreakdown | src/app/tracker/page.tsx:214-222 | The card shows MFF, Mali, Lofty Coban and Caritus in that order, worth 0.40/0.30/0.15/0.15 of 15% of income |
| Tracker.SavingsSharesSumToSavings | src/app/tracker/page.tsx:29-34 | The four ratios sum to 1, so the shares add up to exactly 15% of income |
| Tracker.SavingsCardMatchesBudget | src/app/tracker/page.tsx:214 | The savings card total equals the generated Savings item's amount |
| Store.EmptyIsValid | src/lib/db.ts:12-51 | A fresh database has no rows and satisfies the months table's id and UNIQUE(month, year) constraints and the foreign keys |
| Store.RowsOf | src/app/api/data/route.ts:24-26 | A row comes back exactly when the table holds it with that month_id; there are no more rows than in the table |
| Store.RowsOfCounts | src/app/api/data/route.ts:24-26 | Every row with the month_id comes back as many times as the table holds it, and no row of another month comes back |
| Store.RowsOfAppend | src/app/api/data/route.ts:24-26 | Selecting a month's rows from two stretches of a table concatenates the two selections |
| Store.RowsOfAll | src/app/api/data/route.ts:24-26 | Selecting from rows that all belong to the month keeps every one of them in order |
| Store.RowsOfNone | src/app/api/data/route.ts:24-26 | Selecting from rows of other months yields nothing |
| Store.FindMonth | src/app/api/data/route.ts:16 | The lookup returns a row with that month and year; it finds nothing only when no row has that pair |
| Store.GetOrCreate | src/app/api/data/route.ts:15-21 | An existing month is returned with the tables unchanged. A missing one is inserted as exactly one new row with the next id, and nothing else changes |
| Store.FindMonthAppend | src/app/api/data/route.ts:16-20 | After inserting a missing month, looking it up finds exactly the inserted row |
| Store.GetOrCreateIdempotent | src/app/api/data/route.ts:16-21 | Asking for the same month a second time creates nothing further and returns the same row |
| Store.DetailOf | src/app/api/data/route.ts:24-28 | A month's incomes, allocations and expenses hold exactly the rows whose month_id is its id |
| Store.DetailOfCounts | src/app/api/data/route.ts:24-28 | Each of the month's lists holds every row of the month as many times as its table does, and nothing else |
| Store.InsertMonth | src/app/api/data/route.ts:11 | Inserting a month into a newest-first list keeps it sorted and adds exactly that month |
| Store.SortedCons | src/app/api/data/route.ts:11 | A month newer than everything in a sorted list can head it |
| Store.SortMonths | src/app/api/data/route.ts:11 | The listing holds exactly the months, ordered by year descending then month descending |
| Store.Get | src/app/api/data/route.ts:4-29 | Without month or year, nothing changes and all months are listed newest first. With both, it gets or creates the month and returns exactly that month's rows. An existing month is returned and the tables are unchanged. A missing one is appended as exactly one row whose id is the next id, and nothing else changes |
| Store.GetKeepsValid | src/app/api/data/route.ts:16-21 | GET keeps month ids distinct, (month, year) unique and every row's month present |
| Store.GetOrCreateKeepsValid | src/app/api/data/route.ts:16-21 | Creating a month keeps the constraints: its id is fresh, its (month, year) was absent, and no month disappears |
| Store.GetIdempotent | src/app/api/data/route.ts:15-28 | A repeated GET of the same month changes nothing and returns the same reply |
| Store.LockFlag | src/app/api/data/route.ts:53 | The lock flag is stored as 1 or 0, and is non-zero exactly for locked items |
| Store.AllocationRows | src/app/api/data/route.ts:52-54 | One row per item, in order, with the month id, category, amount and 1/0 flag |
| Store.DeleteBudgets | src/app/api/data/route.ts:51 | A row survives the delete exactly when the table holds it and it belongs to another month |
| Store.DeleteBudgetsCounts | src/app/api/data/route.ts:51 | The delete keeps every row of another month as many times as the table holds it and no row of the month |
| Store.DeleteBudgetsOthers | src/app/api/data/route.ts:51 | The delete leaves every other month's allocations as they were, in order |
| Store.DeleteBudgetsAppend | src/app/api/data/route.ts:51 | Deleting from two stretches of the table deletes from each |
| Store.DeleteBudgetsCons | src/app/api/data/route.ts:51 | The delete keeps the first row exactly when it belongs to another month, and treats the rest independently |
| Store.DeleteBudgetsNone | src/app/api/data/route.ts:51 | Rows of other months survive the delete unchanged |
| Store.DeleteBudgetsAll | src/app/api/data/route.ts:51 | Rows of the month are all deleted |
| Store.ReplaceBudget | src/app/api/data/route.ts:43-57 | Afterwards the month has exactly the given items, in order. Every other month's allocations and all other tables are unchanged |
| Store.ReplacedRows | src/app/api/data/route.ts:50-55 | After the delete and inserts, the month's rows are exactly the inserted ones and other months' rows are as before |
| Store.ReplaceBudgetIdempotent | src/app/api/data/route.ts:50-56 | Replacing a month's allocations twice with the same items leaves the table as one replacement did |
| Store.Post | src/app/api/data/route.ts:36-69 | add_income and add_expense append exactly one row (a missing cost stored as 0); update_budget replaces one month's allocations; any other action, and only that, gets status 400. An insert whose month_id names no month gets status 500 and the tables stay unchanged; every failure leaves them unchanged |
| Store.PostKeepsValid | src/app/api/data/route.ts:36-69 | POST never touches the months table and inserts only rows whose month exists, so the constraints keep holding |
| Store.ReplaceBudgetHasMonths | src/app/api/data/route.ts:50-56 | A replacement for an existing month, or one inserting nothing, keeps every constraint |
| Store.BudgetsChangeKeepsValid | src/lib/db.ts:31-39 | Allocations that all name existing months keep the tables valid |
| Store.AllocationRowsMonth | src/app/api/data/route.ts:52-54 | Every inserted allocation row carries the month_id of the request |
| Store.AddIncomeOtherMonths | src/app/api/data/route.ts:37-40 | A new income for an existing month goes last in its month's list; no other month's incomes change, and nothing changes for an unknown month |
| Store.AddExpenseOtherMonths | src/app/api/data/route.ts:60-63 | A new expense for an existing month goes last in its month's list; no other month's expenses change, and nothing changes for an unknown month |
| Session.LoadBudget | src/app/tracker/page.tsx:60-72 | Stored allocations become page items with the same category and amount, locked exactly when the stored flag is non-zero, and nothing spent |
| Session.LoadIncomes | src/app/tracker/page.tsx:56 | The page shows a month's income rows as incomes in the same order |
| Session.LoadExpenses | src/app/tracker/page.tsx:57 | The page shows a month's expense rows as expenses in the same order, with their stored cost |
| Session.SaveThenLoadBudget | src/app/api/data/route.ts:43-57 | Saving a budget for an existing month and reading it back gives the same items with actuals cleared. A refused save leaves the stored budget as it was |
| Session.ReopenShowsSavedBudget | src/app/tracker/page.tsx:60-72 | Reopening a month after saving shows the saved budget, and the same budget-vs-actual table as before |
| Session.ResetActualsIdempotent | src/app/tracker/page.tsx:124 | Clearing actuals twice is the same as clearing them once |
| Session.Recalculate | src/app/tracker/page.tsx:83-119 | With zero income neither the page nor the tables change. Otherwise the page shows the generated budget, which sums to the income. When the month exists, its stored allocations load back as that budget and other months are untouched. Otherwise the tables do not change |
| Session.RecalculateIdempotent | src/app/tracker/page.tsx:83-119 | Recalculating again with the same incomes changes neither the page's budget nor the tables |
| Session.GeneratedBudgetIsReset | src/app/tracker/page.tsx:90-115 | A generated budget has nothing spent yet |
| Session.LoadIncomesAppend | src/app/tracker/page.tsx:56 | Reading two stretches of income rows concatenates the two lists |
| Session.OptimisticIncomeMatchesReload | src/app/tracker/page.tsx:136-148 | For an existing month the page's optimistic append equals what a reload shows, and the total rises by the amount. For an unknown month a reload shows the incomes unchanged, while the page has appended anyway |
| Session.LoadExpensesAppend | src/app/tracker/page.tsx:57 | Reading two stretches of expense rows concatenates the two lists |
| Session.OptimisticExpenseMatchesReload | src/app/tracker/page.tsx:161-174 | For an existing month the page's optimistic append and a reload give the same budget-vs-actual table, although the timestamps differ. For an unknown month a reload shows the expenses unchanged |
| Session.CostsAgree | src/app/tracker/page.tsx:121-131 | Two expense lists that differ only in the last expense's date give the same budget-vs-actual table |

## Left out

- React rendering, hooks, CSS and `toLocaleString` formatting are not modelled; the memoised values are plain functions.
- `fetch`, JSON bodies and HTTP transport are not modelled, because they are network I/O. Each POST or GET is the state transition it causes.
- The clock is a parameter. Expense timestamps are given as `now` (the table's CURRENT_TIMESTAMP) and `pageDate` (the page's `new Date()`).
- Parsing of the page's form fields and query strings (`parseInt`, `parseFloat`) is not modelled. The page's inputs arrive as numbers, and a missing or empty query parameter of the route is `None`. The route itself never parses `month` and `year` (route.ts:6-7); Store.Get takes them as integers, as the stored rows hold them.
- Store.Get / Store.GetIdempotent: the route passes the `month` and `year` query strings to SQLite unparsed (route.ts:16-20). A newly created month's reply therefore echoes them as strings, while later replies carry the integers SQLite stored. The model gives both replies the integer values. The page reads only `monthData.id` from the reply (page.tsx:141), which is the same in both.
- Store.Post: of the failures the `catch` branch turns into status 500, only the foreign-key rejection of a month_id that names no month is modelled (better-sqlite3 enforces foreign keys by default). Malformed JSON and NOT NULL failures such as a missing amount are not, because typed inputs cannot express them.
- The SQLite WAL pragma, prepared statements and transaction isolation under concurrent access are not modelled. The replacement is one atomic state transition.
- Ids of income, allocation and expense rows are not modelled; only month ids matter to the route.
- Store.SortMonths: ties in (year, month) are not ordered the way SQLite orders them. The UNIQUE constraint (`Store.Valid`) rules out such ties.
- IEEE-754 rounding is not modelled. Every identity is stated over exact reals; a bit-exact floating-point result is not claimed.
- Startup, configuration and the migration call are not part of this model (`next.config.js`, `src/app/layout.tsx`, `src/lib/init.ts`).
