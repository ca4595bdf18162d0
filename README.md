# ZenFinance: a Dafny model of the tracker's logic

ZenFinance is a personal finance tracker. The user records income and expense
entries in a form. A dashboard shows the totals, a per-category breakdown of
the expenses and the six most recent entries. An advisor panel asks a hosted
language model for a short analysis of the list. The list is kept in the
browser's `localStorage` and rewritten after every change.

This project models that logic in Dafny:

- `types.dfy`: the records of `types.ts` (`Transaction`, `TransactionType`, `AIInsight`), plus `Option` and `Result`.
  Amounts are whole paise (`int`).
- `dashboard.dfy`, module `Dashboard`: the dashboard's derived values as pure functions.
  - The totals are `filter` followed by a left-to-right `reduce`. They are proved equal to reference sums.
  - The category breakdown is modelled as a JavaScript object: its keys in insertion order plus a map.
    The pie chart lists `Object.entries` in that order.
  - The recent-activity list is a prefix of the transaction list.
- `app.dfy`, module `App`: the top-level component as a class `AppState`.
  - Its fields are the transaction list, the active tab and the store entry.
  - Its methods add, delete, switch tab and persist.
  - It also holds the pure list operations behind add and delete, with their laws.
- `form.dfy`, module `Form`: the entry form as a class with its five fields, setters and guarded submit.
- `advisor.dfy`: two modules.
  - `Gemini` is the provider, seen only as "parsed answer or fixed fallback".
  - `Advisor` is the advisor panel as a class with `insight` and `loading`.
    A fetch is split into its start (`FetchAdvice`) and its completion (`ReceiveAdvice`).

Inputs from the browser are parameters of the model:

- the current date (`new Date()`);
- the fresh id (`Math.random`);
- the amount parser (`parseFloat`);
- the provider's reply;
- the text found in `localStorage`.

Several behaviours of the code are easy to misread. The model follows the code in each:

- A stored value that `JSON.parse` rejects is not treated as an empty list. `App.tsx:13` calls `JSON.parse` without a guard, so mounting fails. `App.Load` returns `Err(ParseError)` and `AppState.Mount` returns `null`.
- The breakdown does not omit categories whose total is zero. A category becomes a key as soon as one EXPENSE transaction carries it, whatever the amount. `Dashboard.CategoryDataMap` states exactly this.
- Once an insight is shown there is no manual refresh. The "Refresh Analysis" button exists only in the prompt branch (`components/AIAdvisor.tsx:49`, `84-93`). `Advisor.AIAdvisor.Refresh` requires the prompt view.
- The fetch effect does not look at `loading` (`components/AIAdvisor.tsx:23`). A list change while a fetch is in flight, with no insight yet, starts a second fetch. `Advisor.AIAdvisor.TransactionsChanged` fetches whatever `loading` is, and `Advisor.AIAdvisor.ReceiveAdvice` accepts a completion when `loading` is already cleared.

## Model

| member | source | states |
|---|---|---|
| `Dashboard.SumFrom` | components/Dashboard.tsx:15-19 | The `reduce` left fold from a start value adds exactly the sum of the amounts to that start value. |
| `Dashboard.OfType` | components/Dashboard.tsx:14 | `filter` by kind keeps exactly the transactions of that kind (membership in both directions) and never grows the list. |
| `Dashboard.TotalIncome` | components/Dashboard.tsx:13-15 | Total income is the sum of `amount` over the INCOME transactions. |
| `Dashboard.TotalExpenses` | components/Dashboard.tsx:17-19 | Total expenses is the sum of `amount` over the EXPENSE transactions. |
| `Dashboard.IncomeExpensePartition` | components/Dashboard.tsx:13-21 | The income and expense sums split the whole list. Their difference is the signed sum: income counts plus, an expense counts minus. |
| `Dashboard.Balance` | components/Dashboard.tsx:21 | The balance equals the signed sum of all transactions, and equals total income minus total expenses. |
| `Dashboard.TotalsCoverList` | components/Dashboard.tsx:13-19 | Total income plus total expenses is the sum of every amount in the list. |
| `Dashboard.TotalsAppend` | components/Dashboard.tsx:13-21 | Income, expenses and balance each distribute over concatenation of lists. |
| `Dashboard.TotalsNonNegative` | components/Dashboard.tsx:13-19 | When every amount is non-negative, both totals are non-negative. |
| `Dashboard.AddTo` | components/Dashboard.tsx:27 | One reducer step adds the amount under the transaction's category, makes that category a key if it was not one, and leaves every other category's value and presence unchanged. |
| `Dashboard.TallyKeys` | components/Dashboard.tsx:26-29 | The reducer fold keeps the object well formed: each key is listed once and exactly the listed keys have values. Its key set grows by exactly the categories met. |
| `Dashboard.TallyValues` | components/Dashboard.tsx:26-29 | The reducer fold adds to each category exactly the amounts of the transactions of that category it meets. |
| `Dashboard.TallyTotal` | components/Dashboard.tsx:26-29 | The reducer fold increases the sum of the object's values by the sum of the amounts it meets. |
| `Dashboard.CategoryDataMap` | components/Dashboard.tsx:24-29 | In `categoryDataMap`, a category is a key if and only if some EXPENSE transaction carries it. Each key is listed once. Its value is the sum of the amounts of the EXPENSE transactions with that category. |
| `Dashboard.Slices` | components/Dashboard.tsx:31 | `Object.entries(...).map(...)` gives one slice per key, in key order, carrying that key's value, or 0 for a key without one. |
| `Dashboard.PieData` | components/Dashboard.tsx:31 | There is one slice per key of `categoryDataMap`, named after the key and in insertion order. Each slice's value is the sum of the EXPENSE amounts in its category. |
| `Dashboard.PieDataTotal` | components/Dashboard.tsx:17-31 | The pie slices' values add up to total expenses. |
| `Dashboard.SpendingChart` | components/Dashboard.tsx:54-77 | The "Add some expenses" placeholder shows if and only if the list has no EXPENSE transaction. Otherwise the pie's slices add up to total expenses. |
| `Dashboard.OnlyIncomeNoBreakdown` | components/Dashboard.tsx:24-31 | A list with only INCOME transactions gives an empty map and an empty `pieData`, zero expenses, and a balance equal to the income. |
| `Dashboard.RecentActivity` | components/Dashboard.tsx:84-85 | "No transactions yet." shows exactly for the empty list. Otherwise the list shows exactly the first min(6, n) transactions, in list order. |
| `Dashboard.RecentOfPrepend` | components/Dashboard.tsx:85 | After a prepend, the new transaction heads the recent list, followed by the first five older ones. |
| `Dashboard.EmptyDashboard` | components/Dashboard.tsx:13-85 | The empty list gives zero totals, an empty breakdown, the chart placeholder and the activity placeholder. |
| `Dashboard.ExampleScenario` | components/Dashboard.tsx:13-31 | An income of 1000 and a "Food & Drink" expense of 200 give income 1000, expenses 200, balance 800 and one slice ("Food & Drink", 200). |
| `App.Load` | App.tsx:11-14 | An absent or empty store entry loads as the empty list, and a saved list loads as itself. Only an unparsable entry fails. |
| `App.Save` | App.tsx:16-18 | Loading what the persist effect wrote gives back the same list in the same order. |
| `App.Prepend` | App.tsx:21 | The new list is one longer, starts with the new transaction, and continues with the old list unchanged. |
| `App.RemoveId` | App.tsx:26 | Deleting never makes the list longer. |
| `App.RemoveIdMembers` | App.tsx:26 | An element is in the result if and only if it was in the list and its id differs from the deleted id. |
| `App.RemoveIdAbsent` | App.tsx:26 | Deleting an id that no element carries leaves the list unchanged: the same elements in the same order. |
| `App.RemoveIdAppend` | App.tsx:26 | Deletion distributes over concatenation, so the kept elements keep their relative order. |
| `App.RemoveIdCounts` | App.tsx:26 | Every element carrying the id is gone, and every other element keeps its number of occurrences. |
| `App.RemoveIdIdempotent` | App.tsx:26 | Deleting the same id twice is the same as deleting it once. |
| `App.DeleteUndoesAdd` | App.tsx:20-27 | Deleting a just-added transaction whose id was new restores the previous list. |
| `App.AppState.Persisted` | App.tsx:16-18 | The state the persist effect establishes: when it holds, reloading the store gives back exactly the current list. |
| `App.AppState.constructor` | App.tsx:10-14 | The initial tab is 'dashboard'. The list and the store entry are the ones supplied; `Mount` supplies the loaded list. |
| `App.AppState.Mount` | App.tsx:11-18 | Mounting fails exactly when the loader fails. Otherwise the list is the loaded one, the tab is 'dashboard', and the store holds the list. |
| `App.AppState.Persist` | App.tsx:16-18 | The store entry is overwritten with the whole current list, so a reload reads it back. |
| `App.AppState.AddTransaction` | App.tsx:20-23 | The list becomes the new transaction followed by the old list. The tab becomes 'dashboard'. The store holds the new list. |
| `App.AppState.DeleteTransaction` | App.tsx:25-27 | The list becomes the old list without the id, the tab is unchanged, and the store holds the new list. |
| `App.AppState.SetActiveTab` | App.tsx:30 | Only the tab changes. The list and the store are untouched. |
| `App.AppState.SubmitForm` | App.tsx:38 | A form submit adds a transaction exactly when the form's guard passes. The added transaction is built from the form's fields before the submit, with the fresh id and the parsed amount. Afterwards the form's amount and description are cleared and its other fields kept. A rejected submit changes nothing in the app or the form. |
| `Form.TransactionForm.constructor` | components/TransactionForm.tsx:15-19 | The initial state has empty amount and description, category 'Food & Drink', type EXPENSE, and today's date. |
| `Form.TransactionForm.SetAmount` | components/TransactionForm.tsx:70 | The amount field takes the typed text. Nothing else changes, and validity is kept. |
| `Form.TransactionForm.SetDescription` | components/TransactionForm.tsx:82 | The description field takes the typed text. Nothing else changes, and validity is kept. |
| `Form.TransactionForm.SetCategory` | components/TransactionForm.tsx:92-100 | Only one of the 11 listed categories can be chosen, and the form stays valid. |
| `Form.TransactionForm.SetDate` | components/TransactionForm.tsx:107 | The date field takes the picked date. Nothing else changes, and validity is kept. |
| `Form.TransactionForm.ChooseExpense` | components/TransactionForm.tsx:46 | The Expense button sets the type to EXPENSE. Nothing else changes, and validity is kept. |
| `Form.TransactionForm.ChooseIncome` | components/TransactionForm.tsx:55 | The Income button sets the type to INCOME. Nothing else changes, and validity is kept. |
| `Form.TransactionForm.HandleSubmit` | components/TransactionForm.tsx:21-37 | A submit emits a transaction exactly when amount and description are both non-empty. The transaction is built from the fields, with a listed category. Afterwards only amount and description are cleared. A rejected submit changes nothing. |
| `Form.SubmitTwice` | components/TransactionForm.tsx:23-36 | Of two submits in a row, the second never emits. The first emits exactly when the form could submit, and then emits the transaction built from the original fields. Afterwards amount and description are cleared exactly when the first emitted, and category, type and date are unchanged. |
| `Gemini.GetFinancialAdvice` | services/geminiService.ts:39-46 | A parsed answer passes through unchanged. A failure gives the fixed fallback: the canned summary, three tips and health score 50. |
| `Advisor.AIAdvisor.constructor` | components/AIAdvisor.tsx:11-12 | The panel starts with no insight and not loading. |
| `Advisor.AIAdvisor.CurrentView` | components/AIAdvisor.tsx:43-95 | The skeleton shows whenever loading, taking precedence over the insight. The insight shows when not loading and an insight exists. The prompt with "Refresh Analysis" shows exactly when neither holds. |
| `Advisor.AIAdvisor.FetchAdvice` | components/AIAdvisor.tsx:14-16 | On an empty list nothing changes. Otherwise `loading` is set and the current list is sent. The insight is untouched. |
| `Advisor.AIAdvisor.ReceiveAdvice` | components/AIAdvisor.tsx:17-19 | The provider's result, never an absent one, replaces the insight wholesale. Loading ends and the insight view shows. |
| `Advisor.AIAdvisor.TransactionsChanged` | components/AIAdvisor.tsx:22-27 | A new list starts a fetch exactly when it has more than two transactions and no insight exists yet. The insight is never changed. |
| `Advisor.AIAdvisor.Refresh` | components/AIAdvisor.tsx:88-93 | The button is usable only in the prompt view. It starts a fetch unless the list is empty. |

## Left out

- Rendering is not modelled: markup, CSS classes, colours, icons, `components/Layout.tsx` and the currency formatting with `toLocaleString`. Only the branch conditions (which placeholder or panel shows) are modelled.
- Amounts are integers (paise), not JavaScript floating-point numbers. Float rounding would make the sum laws inexact.
- `parseFloat`, `Math.random` and `new Date()` are parameters. Because of this, `NaN` amounts and id collisions are not modelled.
- `Form.TransactionForm.HandleSubmit` does not model `e.preventDefault()`. It has no effect on state.
- The form allows negative amounts; so does the model. The non-negativity of the totals is therefore proved only under that assumption, in `Dashboard.TotalsNonNegative`.
- `Dashboard.CategoryDataMap` models the accumulator as a plain map. It does not model JavaScript prototype keys such as "constructor" or "__proto__". Nor does it model the reordering `Object.entries` applies to integer-like keys. Categories typed through the form are never such names.
- `localStorage` and JSON are abstracted into three cases: the empty string, the JSON text of a list, and any other text. `App.Load` does not model JSON text that parses to something other than a transaction list. The source would keep such a value as it is.
- The provider call in `services/geminiService.ts` is an oracle that yields either a parsed insight or a failure. The following are not modelled:
  - the prompt text;
  - the response schema;
  - an answer that parses but does not match the schema.
- React mechanics are not modelled: `await`, effect scheduling, re-rendering, and the unmounting of a panel when the tab changes. A fetch is two transitions, a start and a completion. Other transitions may come between them, but completions arrive in the order the requests were sent. `Advisor.AIAdvisor.ReceiveAdvice` therefore does not model a later request's reply overtaking an earlier one's.
- `FinancialStats` in `types.ts` is declared but never built by the source, so it is not modelled.
