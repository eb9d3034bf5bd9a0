# MoneyManager — a Dafny model of the budget core

MoneyManager is a personal-finance app: an Express/Mongoose backend keeps
an overall plan (a master list of categories with default budgets) per
user, and a monthly budget per (year, month, user) that is created from
the plan on first access and then carries its own categories and a ledger
of spending items. A React Native client shows the month's totals, per
category progress bars, the most recent items and an investment
portfolio, and keeps a local list of budget categories and investments.

This project models that core in Dafny:

- `MonthlyBudgetModel`, `OverallPlanModel` — the documents and what
  Mongoose validation requires of them.
- `MonthlyBudgetRoutes` — the month store (a class over a sequence of
  documents and an id counter) with its find-or-create GET, the category
  PUT, and the item POST and DELETE; the document-level logic of the item
  routes is stated as functions (`SaveItem`, `PullItem`) that the store's
  methods are proved against.
- `OverallPlanRoutes` — the plan store: GET, upsert by user, and the
  category PUT.
- `KeyedLists` — the `find` / `filter` / `map`-by-key idioms used
  throughout, with their lemmas.
- `Summary`, `ItemOrder` — the month's totals, a category's spent amount,
  colour bands, and the date-descending ordering.
- `BudgetScreen`, `HomeScreen`, `BudgetItemsScreen`,
  `BudgetCategoriesScreen`, `InvestmentsScreen` — each screen's
  calculations and the requests its forms send; the screens whose handlers
  change component state are classes.
- `AppContext` — the client-side provider of budget categories and
  investments as a class with two list fields.

Modelling choices:

- Money is `real`, with exact arithmetic; dates are `int`, so they are
  totally ordered.
- `_id`s are `nat`s drawn from the store's counter. This counter stands
  for ObjectId generation, so fresh ids need no precondition.
- Client ids (`Date.now().toString()`) are a `string` parameter `now`.
- A required string field that is missing is the empty string, which
  Mongoose's `required` rejects. Numeric fields are always present by
  typing, except in item bodies (`ItemPatch`), where every field is
  optional.
- A collection is a sequence in insertion order. `findOne` is the first
  match, which is what the routes rely on.
- `DELETE /:id/items/:itemId` answers with the whole month document after
  the item is pulled and the document saved.
- The Budget screen's percent is capped at 1 by `Math.min`, so its bar
  never shows more than 100%.
- A budget category's `spent` is an `Option`: the client type declares it,
  but the category form submits only a name and a budget, so a category
  added through the form is stored without one (see Findings).

## Model

| member | source | states |
|---|---|---|
| MonthlyBudgetModel.ValidAppendItem | backend/src/models/MonthlyBudget.ts:39-45 | a month with one more item passes validation exactly when the month and the new item both do |
| MonthlyBudgetModel.NoteIsOptional | backend/src/models/MonthlyBudget.ts:31-37 | an item's validity never depends on its optional note |
| MonthlyBudgetModel.ValidItem | backend/src/models/MonthlyBudget.ts:31-37 | an item passes BudgetItemSchema exactly when its category name and name are present and non-empty; amount and date are present by typing |
| MonthlyBudgetModel.ValidMonthlyBudget | backend/src/models/MonthlyBudget.ts:26-45 | a month passes `save()` exactly when it has a user id, every category has a name and every item is valid |
| OverallPlanModel.ValidPlan | backend/src/models/OverallPlan.ts:14-23 | a plan passes `save()` exactly when its name and user id are non-empty and every category has a name |
| OverallPlanModel.ValidPlanUpdateCategory | backend/src/models/OverallPlan.ts:14-23 | overwriting one category of a valid plan keeps it valid exactly when the new category has a name |
| KeyedLists.FirstIndex | backend/src/routes/overallPlan.ts:32 | the index found carries the key and no earlier entry does; none is found exactly when no entry carries the key |
| KeyedLists.RemoveKey | src/context/AppContext.tsx:87-89 | no entry with the key survives, every other entry does, and nothing new appears |
| KeyedLists.RemoveKeyAppend | src/context/AppContext.tsx:88 | filtering distributes over concatenation, so kept entries stay in their order |
| KeyedLists.RemoveKeyUnique | backend/src/routes/monthlyBudget.ts:65 | with distinct keys, removing the key of entry i removes exactly entry i (length −1) |
| KeyedLists.DistinctRemoveKey | src/context/AppContext.tsx:106-108 | deleting by id keeps ids distinct |
| KeyedLists.ReplaceWhere | src/context/AppContext.tsx:81-85 | the length is kept, every entry with the key becomes the new record, and all others stay |
| KeyedLists.ReplaceWhereAbsent | src/context/AppContext.tsx:83 | updating with an id that no entry has leaves the list unchanged |
| KeyedLists.ReplaceWhereUnique | src/context/AppContext.tsx:100-104 | with distinct ids, updating by the id of entry i overwrites entry i alone |
| Summary.TotalBudget | src/screens/BudgetScreen.tsx:101-102 | the total budget is 0 with no month loaded or no categories |
| Summary.TotalSpent | src/screens/BudgetScreen.tsx:101-103 | the total spent is 0 with no month loaded or no items |
| Summary.Remaining | src/screens/BudgetScreen.tsx:197 | remaining plus spent is the budget, and remaining is negative exactly when more was spent than budgeted |
| Summary.ItemsIn | src/screens/BudgetScreen.tsx:119 | the items kept are exactly those of the month filed under the category's name |
| Summary.CategorySpent | src/screens/BudgetScreen.tsx:119 | a category's spent is the sum of the amounts of the month's items filed under its name |
| Summary.CategorySpentStep | src/screens/BudgetScreen.tsx:119 | one more item adds its amount to a category's spent exactly when it is filed under that category |
| Summary.CategorySpentAtMostTotal | src/screens/BudgetScreen.tsx:103-119 | with non-negative amounts, no category's spent exceeds the month's total spent |
| Summary.SpentPartition | src/screens/BudgetScreen.tsx:103-119 | with distinct category names, total spent is the sum of the categories' spent plus the items filed under no category |
| Summary.SumAmountsNonNegative | src/screens/BudgetScreen.tsx:103 | non-negative amounts give a non-negative total |
| Summary.SumAmountsPush | backend/src/routes/monthlyBudget.ts:51 | appending an item raises the spent total by exactly its amount |
| Summary.SumAmountsUpdateAt | backend/src/routes/monthlyBudget.ts:48 | replacing an item moves the spent total by the change in its amount |
| Summary.SumAmountsRemoveAt | backend/src/routes/monthlyBudget.ts:65 | removing an item lowers the spent total by exactly its amount |
| Summary.SumBudgetsPush | src/screens/BudgetScreen.tsx:93 | appending a category raises the total budget by its budget |
| Summary.SumBudgetsUpdateAt | src/screens/BudgetScreen.tsx:91 | replacing a category moves the total budget by the change in its budget |
| Summary.SumBudgetsRemoveAt | src/screens/BudgetScreen.tsx:82 | removing a category lowers the total budget by its budget |
| Summary.BandOf | src/screens/HomeScreen.tsx:44 | red exactly above 90, orange exactly in (75, 90], green exactly at or below 75 |
| Summary.BandMonotone | src/screens/HomeScreen.tsx:44 | a larger percentage never moves the band towards green |
| Summary.BandOfShare | src/screens/BudgetCategoriesScreen.tsx:57 | for the percentage of a part in a positive whole: red exactly past 9/10 of the whole, green exactly up to 3/4 |
| ItemOrder.SortByDateDesc | src/screens/BudgetItemsScreen.tsx:63 | the result is ordered by date, newest first, and is a permutation of the input |
| ItemOrder.Take | src/screens/HomeScreen.tsx:15 | `slice(0, n)`: the first min(n, length) entries |
| ItemOrder.LeftOutNotMoreRecent | src/screens/HomeScreen.tsx:15 | in a date-descending list, nothing after the first k entries is newer than the k-th |
| HomeScreen.SpentPercentage | src/screens/HomeScreen.tsx:10-12 | 0 without a positive budget, otherwise the percentage p with p·budget = spent·100 |
| HomeScreen.ProgressWidth | src/screens/HomeScreen.tsx:43 | the width is the percentage capped at 100 |
| HomeScreen.BudgetBarBand | src/screens/HomeScreen.tsx:43-44 | the budget bar is red exactly when more than 90% of the budget is spent, green exactly up to 75% |
| HomeScreen.FullBarWhenSpentOut | src/screens/HomeScreen.tsx:43 | the bar is full exactly when spent reaches the budget |
| HomeScreen.RecentItems | src/screens/HomeScreen.tsx:15 | at most three items of the month, newest first, and no item left out is newer than the last one shown |
| InvestmentsScreen.TotalValue | src/screens/InvestmentsScreen.tsx:81 | the sum of the holdings' current values |
| InvestmentsScreen.TotalInitial | src/screens/InvestmentsScreen.tsx:82 | the sum of the holdings' initial investments |
| InvestmentsScreen.TotalReturn | src/screens/InvestmentsScreen.tsx:81-83 | 0 without a positive initial total, otherwise r·initial = (value − initial)·100 |
| InvestmentsScreen.TotalReturnSign | src/screens/HomeScreen.tsx:18-22 | the dashboard's total return is non-negative exactly when there is no positive initial total or the value has not fallen below it |
| InvestmentsScreen.TotalsPush | src/screens/InvestmentsScreen.tsx:81-82 | adding a holding raises both totals by its value and its initial investment |
| InvestmentsScreen.GainLoss | src/screens/InvestmentsScreen.tsx:74 | gain plus initial investment is the current value |
| InvestmentsScreen.IsPositive | src/screens/InvestmentsScreen.tsx:42 | the colour flag is the stored return percentage being non-negative |
| InvestmentsScreen.FlagCanContradictGain | src/screens/InvestmentsScreen.tsx:42-74 | a holding can show the positive colour while its gain/loss is negative |
| InvestmentsScreen.Submission | src/screens/InvestmentsScreen.tsx:32-37 | editing sends the form data under the edited holding's id; adding sends the data alone |
| InvestmentsScreen.EditReplacesOnlyThatHolding | src/screens/InvestmentsScreen.tsx:34 | with distinct ids an edit overwrites exactly the edited holding |
| InvestmentsScreen.Dispatch | src/context/AppContext.tsx:92-104 | an update keeps the number of holdings; an add appends one holding with the new id after the old ones |
| InvestmentsScreen.AddAppendsOneHolding | src/screens/InvestmentsScreen.tsx:36 | an add appends one holding and keeps the others |
| InvestmentsScreen.Deletion | src/screens/InvestmentsScreen.tsx:24-29 | 'Cancel' changes nothing; 'Delete' leaves no holding with the id and keeps every other one |
| BudgetCategoriesScreen.PercentageAsWritten | src/screens/BudgetCategoriesScreen.tsx:41 | the division has a finite result exactly when the budget is not 0, and then r·budget = spent·100 |
| BudgetCategoriesScreen.ZeroBudgetHasNoPercentage | src/screens/BudgetCategoriesScreen.tsx:41 | a category with budget 0 has no finite percentage |
| BudgetCategoriesScreen.Percentage | src/screens/BudgetCategoriesScreen.tsx:41 | agrees with the formula wherever it is defined, and is 0 for a zero budget |
| BudgetCategoriesScreen.CategoryBand | src/screens/BudgetCategoriesScreen.tsx:41-57 | a category's bar is red exactly past 90% of its budget, green exactly up to 75% |
| BudgetCategoriesScreen.RowAsWritten | src/screens/BudgetCategoriesScreen.tsx:41-47 | a row has a percentage to draw exactly when the category has a spent figure and a non-zero budget, and then r·budget = spent·100 |
| BudgetCategoriesScreen.SubmissionAsWritten | src/screens/BudgetCategoriesScreen.tsx:31-38 | an edit keeps the edited category's id and spent and takes the form's name and budget; an add hands on the form's name and budget with no spent |
| BudgetCategoriesScreen.Dispatch | src/context/AppContext.tsx:73-85 | an update keeps the number of categories; an add appends one category with the new id after the old ones |
| BudgetCategoriesScreen.AddedCategoryHasNoSpent | src/screens/BudgetCategoriesScreen.tsx:35-47 | a category added through the form as written has no spent, so its row has nothing to draw |
| BudgetCategoriesScreen.Submission | src/screens/BudgetCategoriesScreen.tsx:31-38 | the corrected submission: an edit as written; an add with the form's name and budget and spent 0 |
| BudgetCategoriesScreen.EditReplacesOnlyThatCategory | src/screens/BudgetCategoriesScreen.tsx:33 | with distinct ids an edit overwrites exactly the edited category, keeping its id and spent and taking the form's name and budget |
| BudgetCategoriesScreen.AddAppendsOneCategory | src/screens/BudgetCategoriesScreen.tsx:35 | the corrected add appends one category with the form's name and budget, the new id and spent 0 |
| BudgetCategoriesScreen.SpentStaysPresent | src/screens/BudgetCategoriesScreen.tsx:31-47 | with the corrected add, a list whose categories all have a spent keeps that after any edit of a stored category or any add |
| BudgetCategoriesScreen.Deletion | src/screens/BudgetCategoriesScreen.tsx:24-29 | 'Cancel' changes nothing; 'Delete' leaves no category with the id and keeps every other one |
| AppContext.CategoryDraft.WithId | src/context/AppContext.tsx:74-77 | the new category carries the draft's fields and the given id |
| AppContext.InvestmentDraft.WithId | src/context/AppContext.tsx:93-96 | the new investment carries the draft's fields and the given id |
| AppContext.InitialDataShape | src/context/AppContext.tsx:5-50 | five initial categories and four initial investments, each list with distinct ids |
| AppContext.AddKeepsIdsDistinct | src/context/AppContext.tsx:73-79 | an add keeps ids distinct when the generated id is not in use |
| AppContext.DeleteRemovesId | src/context/AppContext.tsx:87-89 | after a delete no entry has the id; with distinct ids exactly one entry goes |
| AppContext.AppProvider.constructor | src/context/AppContext.tsx:69-70 | the provider starts with the mock lists |
| AppContext.AppProvider.AddBudgetCategory | src/context/AppContext.tsx:73-79 | the categories gain one entry at the end with the given id; investments unchanged |
| AppContext.AppProvider.UpdateBudgetCategory | src/context/AppContext.tsx:81-85 | every category with the id becomes the given one; investments unchanged |
| AppContext.AppProvider.DeleteBudgetCategory | src/context/AppContext.tsx:87-89 | the categories are filtered by id; investments unchanged |
| AppContext.AppProvider.AddInvestment | src/context/AppContext.tsx:92-98 | the investments gain one entry at the end with the given id; categories unchanged |
| AppContext.AppProvider.UpdateInvestment | src/context/AppContext.tsx:100-104 | every investment with the id becomes the given one; categories unchanged |
| AppContext.AppProvider.DeleteInvestment | src/context/AppContext.tsx:106-108 | the investments are filtered by id; categories unchanged |
| BudgetItemsScreen.DisplayedItems | src/screens/BudgetItemsScreen.tsx:61-63 | the list shown is a permutation of the month's items, newest first; empty with no month |
| BudgetItemsScreen.DeleteRequest | src/screens/BudgetItemsScreen.tsx:24-29 | a delete is sent, for that id, exactly when the user confirms |
| BudgetItemsScreen.ItemFormState.constructor | src/screens/BudgetItemsScreen.tsx:11-12 | the form starts hidden with nothing being edited |
| BudgetItemsScreen.ItemFormState.HandleAdd | src/screens/BudgetItemsScreen.tsx:14-17 | shows the form with nothing being edited |
| BudgetItemsScreen.ItemFormState.HandleEdit | src/screens/BudgetItemsScreen.tsx:19-22 | shows the form editing the given item |
| BudgetItemsScreen.ItemFormState.HandleSubmit | src/screens/BudgetItemsScreen.tsx:32-40 | the request carries the edited item's id when editing and none when adding; afterwards the form is hidden and nothing is edited |
| BudgetItemsScreen.ItemFormState.Close | src/screens/BudgetItemsScreen.tsx:78 | hides the form and forgets the edited item |
| BudgetScreen.Spent | src/screens/BudgetScreen.tsx:119 | 0 with no month loaded |
| BudgetScreen.Percent | src/screens/BudgetScreen.tsx:120 | at most 1, 0 without a positive budget, 1 exactly when the budget is used up, spent/budget below that, never negative for non-negative spent |
| BudgetScreen.Overspent | src/screens/BudgetScreen.tsx:121 | a category is overspent exactly when its spent exceeds its budget |
| BudgetScreen.BarWidth | src/screens/BudgetScreen.tsx:129 | at most 100, and the percent times 100 for a percent up to 1 |
| BudgetScreen.FullBarIffUsedUp | src/screens/BudgetScreen.tsx:120-129 | with a positive budget the bar is full exactly when the budget is used up, so an overspent category's bar is full |
| BudgetScreen.ZeroBudgetOverspentEmptyBar | src/screens/BudgetScreen.tsx:120-121 | a zero-budget category with spending is overspent while its bar is empty |
| BudgetScreen.PlanDeletion | src/screens/BudgetScreen.tsx:45-50 | the plan is saved again with no category of that name and every other one kept; nothing without a plan |
| BudgetScreen.PlanSubmission | src/screens/BudgetScreen.tsx:51-60 | with no plan, a new 'My Plan' for 'default' holding only the new category; when editing, an update of the edited name; otherwise the plan with the category appended |
| BudgetScreen.AddedPlanCategoryIsStored | src/screens/BudgetScreen.tsx:59 | once saved, the user's stored plan is the loaded one with the new category at the end |
| BudgetScreen.MonthDeletion | src/screens/BudgetScreen.tsx:77-85 | categories are sent exactly when a month is loaded and the Alert is confirmed; then no category of that name remains and all others do |
| BudgetScreen.MonthDeletionTotal | src/screens/BudgetScreen.tsx:82 | with distinct names the month's budget falls by exactly the deleted category's budget |
| BudgetScreen.MonthSubmission | src/screens/BudgetScreen.tsx:87-94 | an edit replaces every category of the edited name and keeps the length and the others; an add appends; nothing with no month loaded |
| BudgetScreen.MonthSubmissionTotal | src/screens/BudgetScreen.tsx:91-93 | the month's budget rises by the added budget, or moves by the change of the edited one |
| BudgetScreen.PrevMonth | src/screens/BudgetScreen.tsx:150 | stays in 1..12, and ▶ undoes it |
| BudgetScreen.NextMonth | src/screens/BudgetScreen.tsx:152 | stays in 1..12, and is the month after, modulo 12 |
| BudgetScreen.ForwardSteps | src/screens/BudgetScreen.tsx:152 | after n presses of ▶ the month is n months later, modulo 12 |
| BudgetScreen.TwelveStepsRoundTrip | src/screens/BudgetScreen.tsx:152 | twelve presses of ▶ come back to the same month |
| BudgetScreen.BudgetScreenState.constructor | src/screens/BudgetScreen.tsx:21-27 | starts at the current month (1..12) and year, month mode, form hidden |
| BudgetScreen.BudgetScreenState.HandleAddPlan | src/screens/BudgetScreen.tsx:35-39 | opens the plan form with nothing being edited |
| BudgetScreen.BudgetScreenState.HandleEditPlan | src/screens/BudgetScreen.tsx:40-44 | opens the plan form editing `{ name, budget: defaultBudget }` |
| BudgetScreen.BudgetScreenState.HandleSubmitPlan | src/screens/BudgetScreen.tsx:51-64 | sends the plan request for the edited category, then hides the form and forgets the edit |
| BudgetScreen.BudgetScreenState.HandleAddMonth | src/screens/BudgetScreen.tsx:67-71 | opens the month form with nothing being edited |
| BudgetScreen.BudgetScreenState.HandleEditMonth | src/screens/BudgetScreen.tsx:72-76 | opens the month form editing the category |
| BudgetScreen.BudgetScreenState.HandleSubmitMonth | src/screens/BudgetScreen.tsx:87-97 | does nothing with no month loaded; otherwise sends the categories and hides the form, keeping the edited category |
| BudgetScreen.BudgetScreenState.Close | src/screens/BudgetScreen.tsx:184 | hides the form and changes nothing else |
| BudgetScreen.BudgetScreenState.SetPlanMode | src/screens/BudgetScreen.tsx:156-159 | the switch selects plan or month mode and changes nothing else |
| BudgetScreen.BudgetScreenState.StepMonthBack | src/screens/BudgetScreen.tsx:150 | the month moves back with 1 wrapping to 12; the year is kept |
| BudgetScreen.BudgetScreenState.StepMonthForward | src/screens/BudgetScreen.tsx:152 | the month moves on with 12 wrapping to 1; the year is kept |
| BudgetScreen.BudgetScreenState.StepYear | src/screens/BudgetScreen.tsx:146-148 | the year changes by exactly ±1 and the month is kept |
| OverallPlanRoutes.FindPlan | backend/src/routes/overallPlan.ts:15 | the plan found belongs to the user; none exactly when no stored plan does |
| OverallPlanRoutes.Upsert | backend/src/routes/overallPlan.ts:15-23 | its properties are UpsertThenFind's and UpsertKeepsValid's |
| OverallPlanRoutes.UpsertThenFind | backend/src/routes/overallPlan.ts:14-24 | after saving, the user's plan is the one saved and every other user's plan is unchanged; an existing user's plan is overwritten (same count), a new user's is added (count +1); user ids stay distinct |
| OverallPlanRoutes.UpsertKeepsValid | backend/src/routes/overallPlan.ts:19-22 | saving a valid plan keeps every stored plan valid and user ids distinct |
| OverallPlanRoutes.RenameCategory | backend/src/routes/overallPlan.ts:32-36 | 'Category not found' exactly when no category has the name; otherwise only the first category of that name is overwritten, and name, user, order and length are kept |
| OverallPlanRoutes.RenameCategoryOutcome | backend/src/routes/overallPlan.ts:34-36 | on a stored plan with the category, the edit is accepted exactly when the new name is not empty |
| OverallPlanRoutes.PlanStore.GetPlan | backend/src/routes/overallPlan.ts:7-10 | exactly the first stored plan, whichever user it belongs to, and none only when the collection is empty; that plan is also what its user's lookup finds |
| OverallPlanRoutes.PlanStore.SavePlan | backend/src/routes/overallPlan.ts:13-25 | a valid plan is upserted and then found for its user; an invalid one is refused and nothing changes |
| OverallPlanRoutes.PlanStore.UpdateCategory | backend/src/routes/overallPlan.ts:28-38 | 'Plan not found' exactly when the user has no plan; otherwise the outcome of RenameCategory, stored on success; no change on any error |
| MonthlyBudgetRoutes.EffectiveUserId | backend/src/routes/monthlyBudget.ts:10 | the query's user id when it is given and non-empty, otherwise 'default'; never empty |
| MonthlyBudgetRoutes.FindMonth | backend/src/routes/monthlyBudget.ts:11 | the month found has the requested year, month and user; none exactly when no stored month has them |
| MonthlyBudgetRoutes.FindDoc | backend/src/routes/monthlyBudget.ts:42 | the document found has the id; none exactly when no stored document has it |
| MonthlyBudgetRoutes.ToMonthlyCategories | backend/src/routes/monthlyBudget.ts:20 | same length and order as the plan's categories, each with the plan's name and its default budget as budget |
| MonthlyBudgetRoutes.CopiedCategoriesKeepTotal | backend/src/routes/monthlyBudget.ts:20 | the new month's total budget is the plan's total default budget |
| MonthlyBudgetRoutes.Materialize | backend/src/routes/monthlyBudget.ts:16-22 | the new month has the requested key, the plan's categories copied and no items; it is valid for a valid plan; it budgets the plan's total and has spent nothing |
| MonthlyBudgetRoutes.MergeItem | backend/src/routes/monthlyBudget.ts:48 | every field present in the body overrides, every absent one is kept, and the id is kept |
| MonthlyBudgetRoutes.MergeItemIdempotent | backend/src/routes/monthlyBudget.ts:48 | merging the same body twice equals merging it once, and an empty body changes nothing |
| MonthlyBudgetRoutes.NewItem | backend/src/routes/monthlyBudget.ts:51 | a new item exists exactly when the body has an amount and a date; it carries the given id and the body's category name, name, amount, date and note, with a missing string as empty; it is valid exactly when every required field is present and non-empty |
| MonthlyBudgetRoutes.SaveItem | backend/src/routes/monthlyBudget.ts:44-53 | 'Item not found' exactly for an unknown item id; on success the month is valid and only its items change: an add appends, after the old items, exactly the item NewItem makes of the body with the fresh id, an edit overwrites only the item found with the merged one |
| MonthlyBudgetRoutes.AddItemOutcome | backend/src/routes/monthlyBudget.ts:49-53 | on a valid month an add succeeds exactly for a complete body and raises total spent by its amount |
| MonthlyBudgetRoutes.EditItemOutcome | backend/src/routes/monthlyBudget.ts:44-53 | on a valid month holding the item, an edit succeeds exactly when it blanks no required string, and moves total spent by the change of that item's amount |
| MonthlyBudgetRoutes.PullItem | backend/src/routes/monthlyBudget.ts:63-66 | 'Item not found' exactly for an unknown item id; on success no item with the id remains, every other item does, and only the items change |
| MonthlyBudgetRoutes.DeleteItemOutcome | backend/src/routes/monthlyBudget.ts:61-67 | on a valid month with distinct item ids, deleting an existing item succeeds, removes exactly it (count −1, order kept) and lowers total spent by its amount |
| MonthlyBudgetRoutes.UnnamedCategoryBlocksItemWrites | backend/src/routes/monthlyBudget.ts:32-53 | once the unvalidated PUT has stored a category without a name, every item add, edit and delete on that month fails validation |
| MonthlyBudgetRoutes.MonthlyBudgetStore.GetOrCreate | backend/src/routes/monthlyBudget.ts:8-26 | an existing month is returned and nothing changes; failing that, with no plan 'No plan found' and nothing changes; otherwise the plan is copied into one new month at the end; the month returned is what the same GET finds afterwards |
| MonthlyBudgetRoutes.MonthlyBudgetStore.ReplaceCategories | backend/src/routes/monthlyBudget.ts:29-35 | 'Not found' for an unknown id with nothing changed; otherwise that document's categories become exactly the list given, with no validation, everything else is kept, and the document is then found by its id |
| MonthlyBudgetRoutes.MonthlyBudgetStore.UpsertItem | backend/src/routes/monthlyBudget.ts:39-55 | 'Not found' for an unknown document; otherwise the outcome of SaveItem, stored in place on success (the counter moves on for an add); nothing changes on error |
| MonthlyBudgetRoutes.MonthlyBudgetStore.DeleteItem | backend/src/routes/monthlyBudget.ts:59-68 | 'Not found' for an unknown document; otherwise the outcome of PullItem, stored in place on success; nothing changes on error |
| MonthlyBudgetRoutes.MonthlyBudgetStore.Store | backend/src/routes/monthlyBudget.ts:53 | `save()` of a loaded document overwrites it in place and keeps the store invariant |

The classes keep these invariants (`Valid()`), preserved by every method:

- `MonthlyBudgetStore`: document ids are distinct and below the counter; no two documents share a (year, month, user); every document has a user id; every item is valid, and item ids are distinct and below the counter.
- `PlanStore`: every plan is valid, and no two plans belong to the same user.
- `BudgetScreenState`: the selected month is in 1..12.

## Left out

- HTTP, Express routing, status codes and JSON transport. The client's `fetch` wrappers and the screens' `await`s (including `fetchOverallPlan` and `fetchMonthlyBudget` after a change, and the effect that refetches when the month changes) are I/O. BudgetItems and BudgetScreen handlers return the request they would send instead.
- Rendering, styles, `toFixed` and `toLocaleString` formatting, and `Date` parsing. Dates are ordered integers.
- IEEE floating point. Sums and ratios are exact reals, so rounding, `NaN` and `Infinity` are absent except where the Findings table models them.
- Concurrency. Two requests racing on the same month or plan (last write wins, a duplicate month created by two simultaneous first GETs) are not modelled; each route runs atomically.
- Mongoose casting. A body field of the wrong type (a string amount, `null`), a malformed id (a cast error), and a PUT without `categories` are not modelled. Ids are numbers and body fields are present or absent.
- Category sub-document `_id`s of month and plan categories. Neither any route nor any screen reads them.
- A client that sends `_id` inside an item body, which `Object.assign` would also copy.
- OverallPlanRoutes.PlanStore.SavePlan: a body without `userId` is modelled as the empty user id, which matches no stored plan and fails validation. What `findOne({ userId: undefined })` matches in MongoDB is not modelled.
- OverallPlanRoutes.PlanStore.UpdateCategory: the client sends `{ name, defaultBudget }` without a `userId`. That mismatch between the client and the route is not modelled; the route is modelled as written, with the user id as a parameter.
- The context and screen mismatch. BudgetScreen, HomeScreen and BudgetItemsScreen read `monthlyBudget`, `overallPlan` and the API actions from a context that provides only the two local lists (src/context/AppContext.tsx:53-62). Their logic is modelled as functions of an optional month or plan.
- The add and edit handlers of the Investments and BudgetCategories screens only set form state. They are modelled through the `edit` argument of `Submission`. Their delete handlers ask through an Alert, and only 'Delete' calls the context's delete; this is `Deletion` with its `confirmed` argument.
- OverallPlanScreen, which is marked as removed and refers to names it never defines. The investments and budgetCategories routes, which pass straight through to Mongoose. The form components, whose only logic is a non-empty check and `Number()` parsing.
- AppContext.AddKeepsIdsDistinct: `Date.now()` is not guaranteed to be unique. Distinct ids after an add are proved under the precondition that the new id is unused.
- BudgetCategoriesScreen.Submission: the corrected add stores spent 0. The code as written stores no `spent`; see Findings.
- BudgetCategoriesScreen.Percentage: the corrected percentage returns 0 for a zero budget. The code as written has no such guard; see Findings.

## Findings

| source | as written | input that shows it | evidently intended | confidence | as-written member | corrected member |
|---|---|---|---|---|---|---|
| src/screens/BudgetCategoriesScreen.tsx:35 | `addBudgetCategory(data)` with the form's `{ name, budget }` (src/components/BudgetCategoryForm.tsx:23), so the category is stored without `spent`, which the row reads at lines 41 and 47 | adding "Gym" with budget 50: the new row calls `toFixed` on an undefined `spent`, and its percentage is NaN | a new category starts with spent 0 | not executed | BudgetCategoriesScreen.SubmissionAsWritten (with BudgetCategoriesScreen.AddedCategoryHasNoSpent) | BudgetCategoriesScreen.Submission (with BudgetCategoriesScreen.AddAppendsOneCategory and BudgetCategoriesScreen.SpentStaysPresent) |
| src/screens/BudgetCategoriesScreen.tsx:41 | `(item.spent / item.budget) * 100` with no guard for a zero budget | a category with budget 0 (e.g. spent 50): the percentage is Infinity (or NaN for spent 0), so the bar width becomes `Infinity%` | a zero budget shows 0%, as the guarded Budget and Home screens do | not executed | BudgetCategoriesScreen.PercentageAsWritten (with BudgetCategoriesScreen.ZeroBudgetHasNoPercentage) | BudgetCategoriesScreen.Percentage (with BudgetCategoriesScreen.CategoryBand) |
