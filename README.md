# Expense tracker record stores, in Dafny

This project models the in-memory record stores behind the expense tracker's REST API.
There are four of them, and each is a module-level array with a `nextId` counter:

- the unified `transactions` store of `server.js`, whose records carry a `type` of
  'income' or 'expense', and its dashboard summary (income, expenses, balance, and a
  per-category breakdown of expenses);
- the expense store of `server/routes/expenses.js`, with lookup by id and per-category
  statistics;
- the income store of `server/routes/income.js`, with total/count statistics;
- the scheduled-charge store of `server/routes/scheduled.js`, whose listing hides
  inactive charges and filters by frequency.

Each store is a Dafny `class` with the array as a `seq` field and the counter as a `nat`
field. Create, update and delete are methods that change the store in place. They answer
`Ok(...)` or `NotFound` where the route answers 200/201 or 404. Listings and summaries are
functions on the stored sequence, so the store is trivially left unchanged (the source
filters a copy). The two `forEach` loops that build category tables are methods with
`while` loops. Each loop is proved against a specification function, and that function's
properties are proved as lemmas.

Modules:

- `Common`: `Option` (JavaScript `undefined`), `Result`, truthiness of query strings, and
  object-key coercion (`undefined` becomes the key "undefined").
- `Numerals`: `nextId.toString()` and its inverse. Reading an id back gives the counter,
  which makes the new ids of the three `_id` stores fresh. In the `transactions` store
  this holds only while every stored id was issued by the counter (see below).
- `Seqs`: `filter` and a stable descending sort by date. Also `reduce` to a sum,
  `findIndex` and `splice`.
- `Categories`: per-category totals, first-appearance key order, and sums over keys.
- `Ids`: the id invariant all three `_id` stores keep.
- `Records`: the record shape that expenses.js and income.js share, their common listing,
  and the create and update merges.
- `Transactions`, `Expenses`, `Income`, `Scheduled`: one module per store.

Dates are integers, so any order-preserving encoding serves. server.js seeds
'2024-01-15' as `20240115`. Amounts are integer cents. The current time is a parameter
`now`.

Some facts about the code that the model states:

- server.js spreads the request body after the generated `id`, so a body that carries an
  `id` replaces it. `Transactions.Store.Create` promises a fresh id only when the body has
  no `id` and every stored `id` was issued by the counter (`IdsIssued`). A client-supplied
  `id` can collide with a later generated one (`Transactions.ClientIdCollides`), and PUT
  can plant one too; after that, PUT and DELETE reach only the first of the two records.
- No in-memory route validates the amount.
- DELETE on a scheduled charge removes it outright.
- Before the expense statistics are sorted, the categories stand in the order in which
  they first occur (`Categories.FirstSeenOrder`), which is what `Object.entries` reports for
  category names that are not array indices. The sort compares totals only, never names.
- No route ever clears `isActive`. So in a store built by these routes every charge is
  active, and the listing's active filter removes nothing (`Scheduled.ActiveFilterKeepsAll`).

## Model

| member | source | states |
|---|---|---|
| `Numerals.NatToString` | server.js:68 | an id is a non-empty string of decimal digits |
| `Numerals.ParseNatToString` | server.js:68 | reading back the numeral of a counter gives the counter |
| `Numerals.NatToStringInjective` | server.js:68-74 | two counter values give the same id exactly when they are equal |
| `Numerals.FreshNumeral` | server/routes/expenses.js:199-209 | the numeral of the counter differs from every id issued below it |
| `Numerals.NumeralOfCounter` | server/routes/expenses.js:199-209 | the id handed out now counts as issued once the counter has advanced |
| `Seqs.Filter` | server.js:56 | a filter is no longer than its input; its contents are stated by `Seqs.FilterCount` and `Seqs.FilterMembers` |
| `Seqs.FilterCount` | server.js:56 | a filter keeps each passing element as often as it occurs and drops every other |
| `Seqs.FilterMembers` | server.js:112 | a filter's members are exactly the input members that pass, and it is a sub-multiset |
| `Seqs.FilterAllPass` | server/routes/expenses.js:70 | filtering a sequence whose every element passes changes nothing |
| `Seqs.SelectionOf` | server.js:53-63 | what holds each passing element as often as the store, and nothing else, is a sub-multiset with exactly the passing members |
| `Seqs.Insert` | server.js:63 | insertion adds exactly the one element, and the result starts with it or with the old first element |
| `Seqs.InsertSorted` | server.js:63 | inserting into a newest-first sequence keeps it newest first |
| `Seqs.SortDesc` | server.js:63 | the sort is a permutation and its result is ordered by date, newest first |
| `Seqs.SortDescOfSorted` | server.js:63 | sorting what is already newest first returns it unchanged |
| `Seqs.Reduce` | server/routes/income.js:101 | the left-to-right `reduce` from an initial value comes to that value plus the sum of the elements |
| `Seqs.SumConcat` | server.js:107-109 | the `reduce` sum of two pieces is the sum of their sums |
| `Seqs.SumRemoveAt` | server.js:102 | after `splice(i, 1)` the sum has lost exactly the removed amount |
| `Seqs.SumUpdateAt` | server.js:86-90 | replacing one element moves the sum by the difference of the two amounts |
| `Seqs.SumSortDesc` | server/routes/expenses.js:146 | sorting does not change a sum |
| `Seqs.IndexOf` | server.js:80 | `findIndex` gives -1 exactly when no id matches, else the first matching index |
| `Seqs.DistinctBySortDesc` | server/routes/expenses.js:146 | sorting keeps the category entries distinct |
| `Categories.FirstSeen` | server/routes/expenses.js:131-140 | the category keys: each key once, and exactly the keys of the records |
| `Categories.FirstSeenOrder` | server/routes/expenses.js:131-140 | of two listed keys, the earlier one first occurs earlier among the records, as `Object.entries` reports keys inserted one by one when they are not array indices |
| `Categories.InFirstOrderSnoc` | server/routes/expenses.js:132-135 | one more record keeps the keys met so far in first-occurrence order, and a key met for the first time goes behind them |
| `Categories.SumOfFilter` | server.js:107-113 | summing the records a predicate picks is the total of the key the predicate tests for |
| `Categories.CatTotalOfFilter` | server.js:119-122 | category totals of the filtered records are the category totals of all records with every rejected amount counted as 0 |
| `Categories.CatTotalSnoc` | server.js:122 | one more record adds its amount to its own category and to no other |
| `Categories.AddToTotals` | server.js:122 | one step adding the amount to the key's running total (0 when new) turns the totals of a prefix into the totals of the next prefix |
| `Categories.SumByKeysIsTotal` | server/routes/expenses.js:131-145 | category totals over distinct keys that cover every record add up to the grand total |
| `Categories.CountByKeysIsLength` | server/routes/expenses.js:131-145 | category counts over distinct keys that cover every record add up to the number of records |
| `Categories.CatTotalUpdateAt` | server.js:86-90 | replacing a record moves its old amount out of its old category and the new amount into the new one |
| `Categories.SumValuesOfTotals` | server.js:118-123 | summing a map of category totals over its keys is summing the totals |
| `Ids.AppendKeepsValid` | server/routes/expenses.js:198-209 | pushing under the counter's numeral and advancing it keeps ids distinct and issued; the new id is fresh and found at the end |
| `Ids.ReplaceKeepsValid` | server/routes/expenses.js:248-255 | replacing a record by one with the same id keeps the ids valid and the record findable at its index |
| `Ids.RemoveKeepsValid` | server/routes/expenses.js:282-286 | `splice(i, 1)` keeps the ids valid and leaves no record with the removed id |
| `Transactions.List` | server.js:51-64 | the listing is newest first and no longer than the store; its contents are stated by `Transactions.ListSpec` |
| `Transactions.ListSpec` | server.js:51-64 | the listing is newest first and a sub-multiset of the store, and holds exactly the matching transactions with their full multiplicity |
| `Transactions.ListMatches` | server.js:55-61 | every listed transaction has the queried `type` and, unless the category is 'all' or absent, the queried category |
| `Transactions.ListAllCategories` | server.js:59-61 | category 'all', an empty category and no category filter nothing |
| `Transactions.ListIdempotent` | server.js:51-64 | listing a listing with the same query returns it unchanged |
| `Transactions.Created` | server.js:66-71 | the new record is the body with `amount` parsed; its id is the body's `id` when it has one, else the counter's numeral |
| `Transactions.Merged` | server.js:86-90 | fields the body carries replace the old ones, absent fields keep their values, `amount` is always replaced |
| `Transactions.MergedAmountOnly` | server.js:86-90 | a body with only an amount changes only the amount |
| `Transactions.IncomeTotal` | server.js:107-109 | the summary's `income` is the `reduce` over the income transactions, and the total of the transactions whose `type` is 'income' |
| `Transactions.ExpenseTotal` | server.js:111-113 | the summary's `expenses` is the `reduce` over the expense transactions, and the total of the transactions whose `type` is 'expense' |
| `Transactions.Breakdown` | server.js:117-123 | each breakdown value is its category's total over the whole store with every non-expense counting 0 |
| `Transactions.BreakdownSumsToExpenses` | server.js:117-123 | the `categoryBreakdown` values summed over its keys, in any order, give the `expenses` total |
| `Transactions.BreakdownKeys` | server.js:118-123 | the breakdown's keys are exactly the categories of expense transactions |
| `Transactions.BalanceAfterDelete` | server.js:106-115 | removing a transaction moves `income - expenses` by exactly its amount, with the sign of its type |
| `Transactions.Store.constructor` | server.js:13-43 | the store starts with the three seeded transactions and `nextId` 4, above every seeded id |
| `Transactions.Store.Create` | server.js:66-77 | appends the created record and advances the counter; when the body has no `id` and every stored `id` was issued by the counter, the new id is fresh and the ids stay issued |
| `Transactions.ClientIdCollides` | server.js:66-74 | a body with `id` "5" created at counter 4 and a body without an `id` created at counter 5 are stored under the same id |
| `Transactions.Store.Update` | server.js:79-93 | an unknown id answers not-found and changes nothing; otherwise only the first matching index is replaced, by the merge |
| `Transactions.Store.Delete` | server.js:95-104 | not-found exactly when no id matches, with nothing changed; otherwise the first match is spliced out and the rest keep their order |
| `Transactions.Store.Summary` | server.js:106-131 | income and expense totals of their types, `balance = income - expenses`, and the breakdown built in the loop is every expense category's total |
| `Records.List` | server/routes/expenses.js:65-81 | the listing is newest first and no longer than the store; its contents are stated by `Records.ListSpec` |
| `Records.ListSpec` | server/routes/expenses.js:65-81 | the listing is newest first and a sub-multiset of the store, and holds exactly the records in the category and the inclusive date range |
| `Records.ListMatches` | server/routes/expenses.js:69-79 | every listed record satisfies `startDate <= date <= endDate` for the given bounds, and the category unless it is 'All' or absent |
| `Records.ListUnfiltered` | server/routes/expenses.js:69-71 | with category 'All' or none, and no bounds, the listing is the whole store newest first |
| `Records.ListIdempotent` | server/routes/income.js:55-70 | listing a listing with the same query returns it unchanged |
| `Records.Created` | server/routes/income.js:129-137 | the new record has the given id, a description defaulting to '', a date defaulting to `now`, creation time `now`, and the body's other fields |
| `Records.Revised` | server/routes/expenses.js:248-255 | the update keeps `_id` and `createdAt`, replaces title, amount and category, defaults the description to '' and keeps the old date when none is given |
| `Records.Find` | server/routes/expenses.js:168 | the lookup is absent exactly when no record has the id, else it is the first record with that id |
| `Expenses.Tallied` | server/routes/expenses.js:132-138 | one `forEach` step turns the `{ total, count }` table of a prefix into the table of the next prefix |
| `Expenses.EntriesOf` | server/routes/expenses.js:140-145 | `Object.entries(categoryTotals).map(...)` gives one entry per key, in the keys' order, each named by its key; its totals and counts are stated by `Expenses.EntriesOfTallies` |
| `Expenses.EntriesOfTallies` | server/routes/expenses.js:140-145 | the entries mapped out of a complete table are each category's total and count |
| `Expenses.EntriesSums` | server/routes/expenses.js:140-145 | the entries' totals and counts sum to the category sums over the same keys |
| `Expenses.CategoryStats` | server/routes/expenses.js:140-146 | the categories are sorted by total, largest first, and each entry holds its own category's total and count |
| `Expenses.CategoryStatsSpec` | server/routes/expenses.js:127-148 | the categories are distinct and exactly the records' categories, each with its own total and count, sorted by total, summing to `total` and `count` |
| `Expenses.SeedStats` | server/routes/expenses.js:6-25 | the seeded store totals 13050 cents, with Food 8550 ahead of Transportation 4500, one record each |
| `Expenses.Store.constructor` | server/routes/expenses.js:6-27 | the store starts with the two seeded expenses and `nextId` 3, above every seeded id |
| `Expenses.Store.Get` | server/routes/expenses.js:168-172 | not-found exactly when no expense has the id, else the first expense of the store with that id |
| `Expenses.Store.Create` | server/routes/expenses.js:198-210 | appends a record with `_id = nextId`, advances the counter, keeps the ids valid, and the new id is fresh and finds the new record |
| `Expenses.Store.Update` | server/routes/expenses.js:243-257 | not-found for an unknown id with nothing changed; otherwise only that index is revised, and it is what the id now finds |
| `Expenses.Store.Delete` | server/routes/expenses.js:282-286 | not-found for an unknown id with nothing changed; otherwise that record is spliced out; no expense with the id is left |
| `Expenses.Store.Stats` | server/routes/expenses.js:127-148 | `total` and `count` of the store, and the categories tallied by the loop are the specified entries, distinct, sorted, and summing to both |
| `Income.TotalsOf` | server/routes/income.js:101-103 | `total` is the `reduce` of the amounts from 0, and an empty store answers a total and count of 0 |
| `Income.TotalsUnderChanges` | server/routes/income.js:101-103 | a push onto any store adds the amount and one; at an index of the store, a splice takes them away and a replacement moves the total by the change of amount |
| `Income.SeedTotals` | server/routes/income.js:6-16 | the seeded store's statistics are 300000 cents over one record |
| `Income.Store.constructor` | server/routes/income.js:6-18 | the store starts with the seeded salary and `nextId` 2, above the seeded id |
| `Income.Store.Create` | server/routes/income.js:129-141 | appends a record with `_id = nextId`, advances the counter, keeps the ids valid; the statistics grow by its amount and one |
| `Income.Store.Update` | server/routes/income.js:174-188 | not-found for an unknown id with nothing changed; otherwise only that index is revised, and the total moves by the change of amount |
| `Income.Store.Delete` | server/routes/income.js:213-217 | not-found for an unknown id with nothing changed; otherwise exactly that record is removed and the statistics lose its amount and one |
| `Scheduled.List` | server/routes/scheduled.js:53-64 | the listing is newest first and no longer than the store; its contents are stated by `Scheduled.ListSpec` |
| `Scheduled.ListSpec` | server/routes/scheduled.js:53-64 | the listing is newest first, a sub-multiset of the store, never shows an inactive charge, and holds exactly the active matching charges with their full multiplicity |
| `Scheduled.ListMatches` | server/routes/scheduled.js:54-62 | every listed charge is active, in the category unless it is 'All' or absent, and of the given frequency |
| `Scheduled.ListIdempotent` | server/routes/scheduled.js:53-64 | listing a listing with the same query returns it unchanged |
| `Scheduled.ListAllCategories` | server/routes/scheduled.js:56-58 | category 'All', an empty category and no category give the same listing |
| `Scheduled.Created` | server/routes/scheduled.js:91-101 | the new charge is active, has the given id, a description defaulting to '', a date defaulting to `now`, and the body's other fields |
| `Scheduled.Revised` | server/routes/scheduled.js:143-151 | the update keeps `_id`, `isActive` and `createdAt`, replaces title, amount, category and frequency, and keeps the old date when none is given |
| `Scheduled.ActiveFilterKeepsAll` | server/routes/scheduled.js:54 | when every charge is active, the listing holds exactly the charges matching category and frequency |
| `Scheduled.Store.constructor` | server/routes/scheduled.js:6-20 | the store starts with the seeded subscription, active, and `nextId` 2 |
| `Scheduled.Store.Create` | server/routes/scheduled.js:91-105 | appends an active charge with `_id = nextId`, advances the counter, and keeps ids valid and every charge active |
| `Scheduled.Store.Update` | server/routes/scheduled.js:138-153 | not-found for an unknown id with nothing changed; otherwise only that index is revised, keeping the store valid |
| `Scheduled.Store.Delete` | server/routes/scheduled.js:178-182 | not-found exactly when no charge has the id; otherwise the charge is removed outright, whatever its flag; no charge with the id is left |

## Left out

- MongoDB branches of every route, and the Mongoose schemas: calls into a library outside this model.
- Dynamic-import model detection (`getExpenseModel` and its siblings): only the in-memory branch is modelled.
- Express setup, CORS, static serving, `listen`, `server/index.js` and `server/config/database.js`: start-up and configuration.
- `req`/`res` plumbing and JSON serialisation: routes become parameters and `Result` values. The `catch` blocks answering 500 are left out, since nothing in the in-memory branches throws.
- `console` logging, and the `ValidationError` paths, which only Mongoose raises.
- Date parsing with `new Date(...)`, ISO strings and the clock: dates are integers and `now` is a parameter. An unparsable date, whose comparisons are all false in JavaScript, is not modelled.
- `Numerals.FreshNumeral`, `Ids.AppendKeepsValid`, `Transactions.Store.Create`, `Expenses.Store.Create`, `Income.Store.Create`, `Scheduled.Store.Create`: `nextId` is a JavaScript number. Past 2^53 `nextId++` no longer changes it, so every later create gets the same id again. The model's counter is an unbounded `nat`, so freshness is proved for every counter value.
- `parseFloat` and floating-point sums: amounts are integer cents and a body's amount is already parsed. A NaN amount is not modelled.
- Query parameters given as arrays (`?category=a&category=b`): every query parameter is one optional string.
- Extra request-body fields: server.js copies any extra body keys into the stored record. The model keeps only the seven known fields.
- `Transactions.Merged`, `Transactions.Created`, `Records.Created`, `Records.Revised`, `Scheduled.Created`, `Scheduled.Revised`: a body field sent as JSON `null` is stored as `null` in the source. It overwrites the old value in a merge, and in server.js an `id` of `null` replaces the generated numeral. The model has no `null`, and an absent field is `None`.
- `Transactions.List`: a transaction without a date sorts as day 0. In the source the comparator then yields NaN, and the order is left to the JavaScript engine.
- `Expenses.CategoryStats`: lists categories in first-appearance order before the sort. `Object.entries` lists integer-like keys (such as "2024") first, in numeric order, so ties among such categories may come out differently in the source.
- `Categories.AddToTotals`: treats `categoryBreakdown` as a map with no properties of its own. A JavaScript `{}` inherits the properties of `Object.prototype`, so a category such as `constructor` reads an inherited function and stores a string, and the assignment to `__proto__` is ignored. Category names that are `Object.prototype` property names are not modelled.
- `Transactions.Store.Summary`: the breakdown it returns, and so `Transactions.BreakdownKeys` and `Transactions.BreakdownSumsToExpenses`, assume no expense category is an `Object.prototype` property name. For such a category the source's breakdown lacks the key or holds a string.
- `Expenses.Tallied`: treats `categoryTotals` as a map with no inherited properties. For a category such as `constructor` or `toString`, `!categoryTotals[category]` is false in the source, no `{ total, count }` entry is made, and the additions write NaN into the inherited function's properties.
- `Expenses.Store.Stats`: the categories it returns, and so `Expenses.CategoryStatsSpec`, assume no expense category is an `Object.prototype` property name. The source leaves such a category out of `categories`, whose totals then fall short of `total`.
- `Seqs.SortDesc`: its contract states a permutation ordered newest first. That it is stable, as JavaScript's sort is, holds by construction of the insertion but is not stated.
- `Records.Created`, `Records.Revised`, `Scheduled.Created`, `Scheduled.Revised`: an empty date string is falsy in JavaScript and falls back like an absent one. Dates here are integers, so there is no empty date.
- Lookup by id for income and scheduled charges: those routes do not exist in the source.
- `script.js`: DOM, `fetch`, modal wiring, canvas drawing of the pie chart, and `Intl` formatting.
- The second copy of the application under `IAD SIMPLIFIED EXPENSE TRACKER/` is not part of this model.
