# Expense tracker transaction list, modelled in Dafny

The expense tracker is a single browser script. It keeps a module-level array
`transactions` of records `{id, description, amount, type}`, and it does four
things with it:

- Its submit handler trims the description, parses the amount and rejects the
  form when the description is empty, the amount is NaN or the amount is not
  positive. Otherwise it appends a new record and refreshes the page.
- `deleteTransaction(id)` keeps only the records whose id differs and refreshes.
- `updateUI` makes one pass over the list. It puts each record with type
  `"income"` on the income list and every other record on the expense list,
  keeping list order.
- In the same pass it adds each amount to the matching total, and then shows
  `income - expense` as the balance.

This project models that core.

- `jsstring.dfy` (module `JsString`) models `String.prototype.trim`, with the
  exact ECMAScript set of white-space and line-terminator characters.
- `filtering.dfy` (module `Filtering`) models `Array.prototype.filter` as
  `Filter`. It also defines `Interleaves(s, a, b)`: `s` is a merge of `a` and
  `b` in which each list keeps its order. That is the precise sense in which
  both deletion and the income/expense split "keep list order".
- `tracker.dfy` (module `Tracker`) holds the rest:
  - the records (`Transaction`, with the JavaScript `type` field named `kind`);
  - the submitted form (`Form`);
  - the pure specification (`IsValid`, `Submitted`, `Remove`, `Render`);
  - the lemmas about them;
  - the class `Store`, which owns `transactions`. Its `Submit` and `Delete`
    methods replace the stored list with a new one, and its `UpdateUI` method
    is the refresh loop, proved against `Render`.

Modelling choices:

- Amounts are `real`. The value produced by `Number(...)` is an
  `Option<real>`, where `None` stands for NaN.
- The id that the source reads from `Date.now()` is a parameter of `Submit`.
  Nothing is assumed about its uniqueness.
- A refresh returns a `View`: the two lists plus the three totals. `Submit`
  returns `None` when it rejects the form (the source alerts and returns
  without refreshing). Otherwise it returns the refreshed view.

What the code does not check, the model does not check either:

- The code never checks the type, so any type other than `"income"` counts
  as an expense.
- It does not check that the amount is finite.
- It does not make ids unique, so one deletion removes every record with
  that id.

## Model

| member | source | states |
|---|---|---|
| `JsString.Trim` | src/index.js:77 | the trimmed description is no longer than the input and, unless empty, neither starts nor ends with ECMAScript white space |
| `JsString.TrimShape` | src/index.js:77 | the input is exactly leading white space, then the trimmed result, then trailing white space |
| `JsString.TrimEmptyIff` | src/index.js:77-82 | the trimmed description is empty (so `!description` rejects) exactly when the typed description is all white space |
| `JsString.TrimIdempotent` | src/index.js:77 | trimming an already trimmed description changes nothing |
| `Filtering.Filter` | src/index.js:68 | `filter` returns no more elements than it was given, and an element is in the result exactly when it was in the input and passes the test |
| `Filtering.FilterSplits` | src/index.js:68 | the input is a merge, in order, of the elements that pass a test and those that fail it |
| `Filtering.FilterUnique` | src/index.js:47-53 | any order-keeping split into passing and failing elements is the one `filter` gives |
| `Filtering.InterleavesCounts` | src/index.js:47-53 | a merge neither loses nor duplicates an element: the counts of the two parts add up to the whole |
| `Filtering.FilterIdentity` | src/index.js:68 | filtering returns the list unchanged exactly when every element passes |
| `Filtering.FilterIdempotent` | src/index.js:68 | filtering twice by the same test equals filtering once |
| `Filtering.FilterCommutes` | src/index.js:68 | two filters give the same list in either order |
| `Filtering.FilterAppend` | src/index.js:47-53 | filtering a list extended by one element extends the result by that element exactly when it passes |
| `Tracker.IsValid` | src/index.js:77-85 | a form is rejected exactly when the description is only white space, the amount is NaN, or the amount is `<= 0` |
| `Tracker.IsIncome` | src/index.js:47 | a record counts as income exactly when its type is the string `"income"`; every other type counts as an expense |
| `Tracker.HasId` | src/index.js:68 | the strict id comparison used by the deletion filter |
| `Tracker.Submitted` | src/index.js:82-96 | a rejected form leaves the list unchanged. An accepted form grows it by one and keeps every earlier entry. The new last entry holds the given id, the trimmed description, the parsed amount and the submitted type verbatim |
| `Tracker.SubmitKeepsWellFormed` | src/index.js:77-96 | if every record has a positive amount and a non-empty trimmed description, that stays true after a submission |
| `Tracker.Remove` | src/index.js:67-68 | the result is no longer than the list, and a record is kept exactly when it was in the list and its id differs from the given one |
| `Tracker.RemoveKeepsOrder` | src/index.js:68 | the list is an order-keeping merge of the records carrying the id and the records that remain |
| `Tracker.RemoveCounts` | src/index.js:68 | every copy of a record with that id is dropped; every copy of any other record is kept |
| `Tracker.RemoveAbsent` | src/index.js:68 | deleting leaves the list unchanged exactly when no record has that id |
| `Tracker.RemoveIdempotent` | src/index.js:68 | deleting the same id twice gives the same list as deleting it once |
| `Tracker.RemoveKeepsWellFormed` | src/index.js:68 | deletion keeps every record with a positive amount and a non-empty trimmed description |
| `Tracker.SumAppend` | src/index.js:48-51 | adding one record to a list adds its amount to the list's sum |
| `Tracker.PrefixStep` | src/index.js:47-53 | each record of the loop goes onto the end of exactly one of the two lists, chosen by whether its type is exactly `"income"` |
| `Tracker.SumSplits` | src/index.js:27-53 | the sums of the two parts of a merge add up to the sum of the whole |
| `Tracker.Sum` | src/index.js:48-51 | the running total of a list of positive amounts is `>= 0`, and `> 0` unless the list is empty |
| `Tracker.Render` | src/index.js:27-57 | the income list holds exactly the `"income"` records and the expense list every other record, and together they have as many entries as the list |
| `Tracker.RenderPartitions` | src/index.js:27-53 | the list is an order-keeping merge of the income list and the expense list |
| `Tracker.PartitionUnique` | src/index.js:47-53 | the shown lists are the only order-keeping split of the records into income and non-income |
| `Tracker.TotalsCoverAll` | src/index.js:27-53 | income total plus expense total is the sum of all amounts, so every amount is counted exactly once |
| `Tracker.BalanceIsNet` | src/index.js:57 | the balance equals the record-by-record signed sum: plus the amount for income, minus it for anything else |
| `Tracker.TotalsNonNegative` | src/index.js:47-53 | if every stored amount is positive, which the submit path ensures for the records it creates, both totals are `>= 0` |
| `Tracker.SubmitUpdatesTotals` | src/index.js:88-102 | an accepted submission adds its amount to the income total when its type is `"income"` and to the expense total otherwise, leaving the other total unchanged |
| `Tracker.RemoveFromShownLists` | src/index.js:67-69 | after a deletion, each shown list is the old shown list with that id removed; no record moves between the lists |
| `Tracker.Store.constructor` | src/index.js:15 | the store starts with the list it was loaded with |
| `Tracker.Store.UpdateUI` | src/index.js:18-57 | the refresh loop returns exactly `Render` of the current list: both lists and the income, expense and balance totals |
| `Tracker.Store.Delete` | src/index.js:67-70 | the new list is `Remove` of the old one, and the refreshed view is `Render` of the new list |
| `Tracker.Store.Submit` | src/index.js:73-103 | the new list is `Submitted` of the old one. A rejected form shows nothing new; an accepted one shows `Render` of the new list |

## Left out

- Page elements and UI plumbing: element lookup, building the `li`, `span`
  and `button` nodes, clearing `innerHTML`, event wiring, `alert` and
  `form.reset()`. A refresh returns a `View` value instead.
- Saving to `localStorage` and loading from it with `JSON.parse`/`JSON.stringify`.
  This is browser I/O. The loaded list is the constructor's parameter, and
  loaded records are assumed to have numeric amounts.
- `toFixed(2)` formatting of amounts and totals. This is floating-point display.
- IEEE-754 arithmetic: amounts and totals are exact reals. Rounding in the
  running sums is not modelled.
- `Infinity` as an amount: the source accepts it, but a real cannot represent
  it, so the model has no amount for it (it adds no finiteness check either).
- The details of `Number(...)` string parsing: the parsed amount is an input,
  with NaN as `None`.
- `Date.now()` id generation: the id is a parameter, and no uniqueness is claimed.
- Editing, categories, search filtering and dates: these are not present in
  src/index.js.
