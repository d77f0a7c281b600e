# Finny, modelled in Dafny

Finny is a personal-budgeting app written in TypeScript. It comes in two editions:

- the local edition (`finny/`) keeps a profile, fixed expenses, installment ("temporary") expenses, variable expenses and monthly savings goals in a store persisted to the browser;
- the hosted edition (`src/`, `supabase/`) keeps the same records in a backend, limits what a free plan may store, and takes subscriptions through Stripe.

This project models the logic at the centre of both editions and proves what that logic promises:

- the financial aggregator: income, period sums, balance, the monthly goal, leisure budget and the annual roll-up;
- the display rules built on the aggregator: progress bars, the leisure status ladder, goal progress, month status, the daily-average projection and the top-five category ranking;
- the plan limits and usage gating;
- the record collections, updated in place: the store actions and the three data hooks;
- the installment schedule;
- the onboarding wizard and its page;
- snapshot loading, export and import;
- the validators and input parsers;
- the expense listing;
- the subscription derivation, the Stripe webhook, the profile hook, the route decision and the signup checks.

Each source file becomes one module. Code built from expressions becomes functions and lemmas. Code that changes state becomes a class:

- the store;
- the hook lists;
- the forms, the modal and the wizard;
- the storage object.

A class's methods state its whole new state, through `old` and a `State()` function where it has one.

Money is a Dafny `real` (exact rationals). `Math.round` is floor(x + 1/2), and `Math.ceil` is the least integer not below its argument. `Infinity` in the limit table is an explicit `Unbounded` limit.

Everything outside the code's own logic is a parameter:

- backend calls (Supabase queries) are `Result`/`Outcome` values;
- thrown values are `HostedTypes.Thrown`, an `Error` with its message or anything else;
- the Stripe client's answers are `Result` values;
- the clock and fresh ids are plain arguments;
- browser storage is a class holding what `localStorage` holds.

The requests a hook issues and the rows the webhook writes are returned as sequences, so their order and content are part of each contract.

## Model

| member | source | states |
|---|---|---|
| Financials.FixedTotalIsActiveShare | finny/src/hooks/useFinancials.ts:15-27 | the fixed total adds the amount of each active fixed expense and nothing for inactive ones |
| Financials.BalanceRelations | finny/src/hooks/useFinancials.ts:85-112 | balance is available minus the variable total; after-savings ignores monthly goal overrides; income is 0 unless there is a profile |
| Financials.TemporaryTotalIsDueShare | finny/src/hooks/useFinancials.ts:32-41 | an installment counts in (m, y) iff start ≤ y·12+m ≤ end on the month index, both ends included; if start is after end it never counts |
| Financials.LeisureWithinVariable | finny/src/hooks/useFinancials.ts:46-64 | the leisure total is the `lazer` entry of the per-category record; with non-negative amounts it is at most the variable total |
| Financials.ExpensesByCategory | finny/src/hooks/useFinancials.ts:69-80 | the per-category record built by the loop is the per-category totals of the month's expenses |
| Financials.AccumulateByCategory | finny/src/hooks/useFinancials.ts:74-77 | the `forEach` loop leaves each category mapped to the total of its records, keyed only by the categories present |
| Financials.ByCategoryMatchesVariable | finny/src/hooks/useFinancials.ts:69-80 | the record's values sum to the month's variable total; a category is a key iff some expense of that month has it |
| Financials.MonthKeys | finny/src/hooks/useFinancials.ts:69-80 | a category is a key iff an expense of that month and category exists |
| Financials.FindGoal | finny/src/hooks/useFinancials.ts:125-129 | no goal is found iff none matches (m, y); a found goal is the first matching one |
| Financials.MonthlyGoalSources | finny/src/hooks/useFinancials.ts:125-129 | the monthly goal is the first override's target, else the profile's savings goal, else 0 |
| Financials.LeisurePercentage | finny/src/hooks/useFinancials.ts:143-148 | 0 for a zero budget, never above 100, 100 once spending reaches a positive budget, non-negative for non-negative spending |
| Financials.ProjectionIsTwelveGoals | finny/src/hooks/useFinancials.ts:117-120 | the annual projection is 12 times the profile's goal, and 0 without a profile |
| Financials.GetAnnualSummary | finny/src/hooks/useFinancials.ts:175-211 | 12 entries for months 1..12 in order; total income is 12 × income; total saved is the sum of balances and equals income minus expenses; the averages are a twelfth of the totals |
| Financials.EntriesTotals | finny/src/hooks/useFinancials.ts:176-200 | over entries of equal income, the incomes sum to count × income, and the balances sum to incomes minus expenses |
| Financials.MonthEntryFields | finny/src/hooks/useFinancials.ts:182-198 | a month's entry carries that month's income, fixed + temporary + variable expenses, and their difference |
| Limits.PlanTable | src/utils/limits.ts:1-28 | free allows 30 transactions a month, 5 fixed, 3 temporary and 3 history months; premium is unbounded, so every `canAdd*` holds on it |
| Limits.UsagePercentage | src/utils/limits.ts:30-33 | 0 for an unbounded limit; otherwise the rounded share of the limit, capped at 100 |
| Limits.NearLimitThreshold | src/utils/limits.ts:35-38 | near the limit iff the rounded percentage is at least 80, i.e. 200·used ≥ 159·limit; never for an unbounded limit |
| Limits.ReachedImpliesNear | src/utils/limits.ts:35-43 | a reached limit is also near |
| Limits.ReachedIffCannotAdd | src/utils/limits.ts:18-43 | for the same count, a plan's limit is reached iff the matching `canAdd*` is false |
| Premium.PlanAndExport | src/hooks/usePremium.ts:38-40 | without a profile the plan is free; premium iff the profile's plan is premium; exporting is allowed iff premium |
| Premium.ReachedFlagsMatchGates | src/hooks/usePremium.ts:43-78 | each kind's reached flag is the opposite of the gate its hook checks: this month's transactions, active fixed expenses, all temporary expenses; any reached limit is also near |
| Premium.AnyFlagsAreDisjunctions | src/hooks/usePremium.ts:89-90 | `anyLimitNear` and `anyLimitReached` are the disjunctions of the three per-kind flags |
| Premium.PremiumHasNoLimits | src/hooks/usePremium.ts:56-78 | on premium no flag is raised and every percentage is 0 |
| Store.AppStore.constructor | finny/src/store/useStore.ts:18-24 | the store starts from the persisted state |
| Store.AppStore.SetProfile | finny/src/store/useStore.ts:27-29 | only the profile changes, to the given one |
| Store.AppStore.UpdateProfile | finny/src/store/useStore.ts:31-36 | does nothing without a profile; otherwise only the profile changes, to the merge |
| Store.AppStore.AddFixedExpense | finny/src/store/useStore.ts:39-47 | appends exactly one record under the fresh id; everything else is unchanged |
| Store.AppStore.UpdateFixedExpense | finny/src/store/useStore.ts:49-55 | merges the update into the records with that id; nothing else changes |
| Store.AppStore.RemoveFixedExpense | finny/src/store/useStore.ts:57-61 | keeps exactly the records with another id, in order |
| Store.AppStore.AddTemporaryExpense | finny/src/store/useStore.ts:64-72 | appends exactly one installment record under the fresh id |
| Store.AppStore.RemoveTemporaryExpense | finny/src/store/useStore.ts:74-78 | keeps exactly the installments with another id, in order |
| Store.AppStore.AddExpense | finny/src/store/useStore.ts:81-90 | appends exactly one expense with the fresh id and creation time |
| Store.AppStore.RemoveExpense | finny/src/store/useStore.ts:92-96 | keeps exactly the expenses with another id, in order |
| Store.AppStore.SetMonthlyGoal | finny/src/store/useStore.ts:99-111 | the goal list becomes the upsert of the goal; nothing else changes |
| Store.AppStore.ResetAllData | finny/src/store/useStore.ts:114-123 | no profile and four empty collections |
| Store.WithId | finny/src/store/useStore.ts:64-72 | the stored installment has the fresh id and every given field |
| Store.GoalIndex | finny/src/store/useStore.ts:101-103 | -1 iff no goal has the period; otherwise the first index with that period |
| Store.GoalIndexAgreesWithFind | finny/src/store/useStore.ts:101-103 | the store's `findIndex` and the aggregator's `find` agree on whether a goal exists, and on which one |
| Store.UpsertGoalFound | finny/src/store/useStore.ts:99-111 | after the upsert the new goal is the one found for its period |
| Store.UpsertGoalLength | finny/src/store/useStore.ts:99-111 | the list grows by one iff the period had no goal |
| Store.UpsertGoalOthers | finny/src/store/useStore.ts:99-111 | every other period finds the goal it found before |
| Store.UpsertKeepsOneGoalPerPeriod | finny/src/store/useStore.ts:99-111 | at most one goal per period is preserved |
| Store.RemoveFixedExactly | finny/src/store/useStore.ts:57-61 | the kept records are exactly those with another id; with no match nothing changes; removing twice is removing once |
| Store.RemoveKeepsOrder | finny/src/store/useStore.ts:92-96 | removal distributes over concatenation, so order is kept |
| Store.UpdateFixedOnlyMatching | finny/src/store/useStore.ts:49-55 | the length is kept; matching records are merged and the others are unchanged |
| Store.AddFixedRaisesTotal | finny/src/store/useStore.ts:39-47 | appending an active fixed expense raises the fixed total by its amount; an inactive one leaves it unchanged |
| Store.ResetZeroesAggregates | finny/src/store/useStore.ts:114-123 | after a reset, income, every monthly balance and every monthly goal are 0 |
| Domain.MergeProfileLaws | finny/src/store/useStore.ts:31-36 | an empty update leaves the profile; merging twice is merging once |
| Domain.MergeFixedExpenseLaws | finny/src/store/useStore.ts:49-55 | merging twice is merging once, and fields the update omits are kept |
| Domain.BeforeIsStrictTotalOrder | src/components/expenses/ExpenseList.tsx:30-36 | calendar order on dates is irreflexive, asymmetric, transitive and total |
| Persistence.OrElse | src/store/persistence.ts:77-83 | a given value is kept; a missing, null or falsy value gives the fallback |
| Persistence.LoadState | src/store/persistence.ts:23-38 | defaults when nothing is stored, on a read error or on a non-object; otherwise each of the five keys the object has, `null` included, over the defaults, and the default for each key it lacks |
| Persistence.Normalize | src/store/persistence.ts:74-90 | a syntax error or a `null` document fails with `Formato de dados inválido`; a scalar gives the defaults; an object keeps each given field and has each missing, `null` or falsy field set to null or [] |
| Persistence.Storage.SaveState | src/store/persistence.ts:43-50 | the item becomes the serialised state, unless the write fails, which is caught |
| Persistence.Storage.ClearState | src/store/persistence.ts:55-61 | the item is removed |
| Persistence.Storage.Load | src/store/persistence.ts:23-38 | the result is `LoadState` of what the read yields |
| Persistence.Storage.ExportData | src/store/persistence.ts:66-69 | exports the loaded state, serialised |
| Persistence.Storage.ImportData | src/store/persistence.ts:74-90 | the result is the normalised state; it is saved only on success |
| Persistence.ImportOfExport | src/store/persistence.ts:66-83 | importing a well-formed state's serialisation gives that state back |
| Persistence.LoadOfSave | src/store/persistence.ts:23-50 | loading what was saved gives back the saved state |
| Persistence.ExportThenImport | src/store/persistence.ts:66-83 | exporting, then importing, keeps the five fields whenever the loaded state is well formed |
| Persistence.ImportIdempotent | src/store/persistence.ts:74-83 | importing an import's result changes nothing |
| Persistence.NullKeyDiffers | src/store/persistence.ts:29-33 | a null key stays null in `loadState` but becomes [] in `importData`; a `null` document loads as the defaults but fails to import |
| Persistence.EmptyObjectLoadsDefaults | src/store/persistence.ts:29-33 | an empty object loads as the defaults and imports as the default state |
| TransactionsHook.TransactionsList.constructor | src/hooks/useTransactions.ts:11-13 | empty list, loading, no error |
| TransactionsHook.TransactionsList.Fetch | src/hooks/useTransactions.ts:15-50 | cleared without a user; otherwise the rows replace the list, or the error is recorded; loading ends; a thrown `Error` records its message, anything else the fetch fallback |
| TransactionsHook.TransactionsList.Add | src/hooks/useTransactions.ts:58-89 | fails without a user or profile; returns LIMIT_REACHED with the list unchanged once this month's count hits the plan limit; otherwise prepends the inserted row, or reports the backend error; a thrown `Error` gives its message, anything else the add fallback |
| TransactionsHook.TransactionsList.Update | src/hooks/useTransactions.ts:91-114 | after a successful update the matching rows are merged; otherwise nothing changes; a failure returns the thrown `Error` message or the update fallback |
| TransactionsHook.TransactionsList.Delete | src/hooks/useTransactions.ts:116-134 | after a successful delete the rows with that id are gone; otherwise nothing changes; a failure returns the thrown `Error` message or the delete fallback |
| TransactionsHook.ByCategoryMatchesTotal | src/hooks/useTransactions.ts:137-149 | the per-category values sum to the monthly total; keys are exactly that month's categories |
| TransactionsHook.LeisureIsLazerShare | src/hooks/useTransactions.ts:151-155 | the leisure total is the `lazer` entry of the monthly per-category record |
| TransactionsHook.LeisureAtMostMonthly | src/hooks/useTransactions.ts:137-155 | with non-negative amounts the leisure total is at most the monthly total |
| TransactionsHook.PrependEffect | src/hooks/useTransactions.ts:83 | prepending a row of the month raises its count by 1 and its total by the amount; any other row leaves both |
| TransactionsHook.UpdateKeepsIds | src/hooks/useTransactions.ts:106-108 | a merge by id keeps the length and every row's id |
| TransactionsHook.DeleteRemovesExactly | src/hooks/useTransactions.ts:128 | no kept row has the id, and every row with another id is kept |
| FixedExpensesHook.ActiveExpenses | src/hooks/useFixedExpenses.ts:124-126 | exactly the active rows, in order |
| FixedExpensesHook.ActiveExpensesInOrder | src/hooks/useFixedExpenses.ts:124-126 | none of an empty list; a single row exactly when it is active; a concatenation gives the active rows of each part in turn, so order and repeats are kept |
| FixedExpensesHook.ActiveCountAppend | src/hooks/useFixedExpenses.ts:49 | the active count of a concatenation is the sum of the parts' counts; appending a row adds one exactly when it is active |
| FixedExpensesHook.FindById | src/hooks/useFixedExpenses.ts:117 | none iff no row has the id; otherwise the first such row |
| FixedExpensesHook.ByCategoryMatchesTotal | src/hooks/useFixedExpenses.ts:128-140 | the per-category values sum to the active total |
| FixedExpensesHook.InactiveRowsIgnored | src/hooks/useFixedExpenses.ts:49-52 | an inactive row counts toward neither the active count nor the total |
| FixedExpensesHook.ActiveTotalAtMostAll | src/hooks/useFixedExpenses.ts:128-132 | with non-negative amounts the active total is at most the total of all rows |
| FixedExpensesHook.FixedExpensesList.constructor | src/hooks/useFixedExpenses.ts:11-13 | empty list, loading, no error |
| FixedExpensesHook.FixedExpensesList.Fetch | src/hooks/useFixedExpenses.ts:15-37 | cleared without a user; otherwise replaced by the rows, or the error is recorded; a thrown `Error` records its message, anything else the fetch fallback |
| FixedExpensesHook.FixedExpensesList.Add | src/hooks/useFixedExpenses.ts:43-69 | fails without a user or profile; refused with the list unchanged once the active count hits the limit; otherwise prepends the inserted row; a thrown `Error` gives its message, anything else the add fallback |
| FixedExpensesHook.FixedExpensesList.Update | src/hooks/useFixedExpenses.ts:71-94 | after success the matching rows are merged; otherwise nothing changes; a failure returns the thrown `Error` message or the update fallback |
| FixedExpensesHook.FixedExpensesList.Delete | src/hooks/useFixedExpenses.ts:96-114 | after success the rows with that id are gone; a failure returns the thrown `Error` message or the delete fallback |
| FixedExpensesHook.FixedExpensesList.ToggleActive | src/hooks/useFixedExpenses.ts:116-121 | fails when no row has the id; otherwise sends the negated flag of the first match and applies it on success; a failure returns the update's message |
| FixedExpensesHook.ToggleFlipsOnlyMatching | src/hooks/useFixedExpenses.ts:116-121 | the toggle flips the matching rows' flag and touches no other row |
| TemporaryExpensesHook.ActivePeriod | src/hooks/useTemporaryExpenses.ts:116-121 | active iff start ≤ year·12+month ≤ end; a reversed period is never active; a one-month row is active only in its own month |
| TemporaryExpensesHook.ActiveForMonth | src/hooks/useTemporaryExpenses.ts:123-125 | exactly the rows active that month, in order |
| TemporaryExpensesHook.ActiveForMonthInOrder | src/hooks/useTemporaryExpenses.ts:123-125 | none of an empty list; a single row exactly when it is active that month; a concatenation gives each part's active rows in turn, so order and repeats are kept |
| TemporaryExpensesHook.MonthlyTotalAtMostAll | src/hooks/useTemporaryExpenses.ts:127-129 | with non-negative amounts the month's total is at most the total of all rows |
| TemporaryExpensesHook.TemporaryExpensesList.constructor | src/hooks/useTemporaryExpenses.ts:11-13 | empty list, loading, no error |
| TemporaryExpensesHook.TemporaryExpensesList.Fetch | src/hooks/useTemporaryExpenses.ts:15-37 | cleared without a user; otherwise replaced by the rows, or the error is recorded; a thrown `Error` records its message, anything else the fetch fallback |
| TemporaryExpensesHook.TemporaryExpensesList.Add | src/hooks/useTemporaryExpenses.ts:43-68 | fails without a user or profile; refused once the total count hits the limit; otherwise prepends the inserted row; a thrown `Error` gives its message, anything else the add fallback |
| TemporaryExpensesHook.TemporaryExpensesList.Update | src/hooks/useTemporaryExpenses.ts:70-93 | after success the matching rows are merged; a failure returns the thrown `Error` message or the update fallback |
| TemporaryExpensesHook.TemporaryExpensesList.Delete | src/hooks/useTemporaryExpenses.ts:95-113 | after success the rows with that id are gone; a failure returns the thrown `Error` message or the delete fallback |
| HostedTypes.MergeKeepsIdentity | src/hooks/useTransactions.ts:106-108 | a row merge keeps id, owner and creation time; an empty profile update changes nothing |
| Installments.EndOfInstallments | src/components/settings/TemporaryExpenses.tsx:25-31 | the loop keeps the month index, so end index = start index + parcelas − 1, with the month at most 12 |
| Installments.EndPeriodInRange | src/components/settings/TemporaryExpenses.tsx:25-31 | from a month in 1..12 with at least one installment, the end month is in 1..12 |
| Installments.MonthIndexDecomposes | src/components/settings/TemporaryExpenses.tsx:25-31 | a month in 1..12 and a year are recovered from their month index |
| Installments.RemainingParcelas | src/components/settings/TemporaryExpenses.tsx:51-55 | never negative; 0 iff the last installment is before the current month |
| Installments.RemainingOfNew | src/components/settings/TemporaryExpenses.tsx:22-55 | a record added this month has all of its installments left |
| Installments.RemainingCountsDown | src/components/settings/TemporaryExpenses.tsx:51-55 | a month later one installment fewer remains, until none does |
| Installments.ParseIntOfNat | src/components/settings/TemporaryExpenses.tsx:24 | parsing a natural's digits gives it back |
| Installments.ParseIntEmpty | src/components/settings/TemporaryExpenses.tsx:24 | a count with no leading digit parses to no number |
| Installments.TemporaryExpenseForm.constructor | src/components/settings/TemporaryExpenses.tsx:13-17 | the form opens closed and empty, in `outros`, with 12 installments |
| Installments.TemporaryExpenseForm.Reset | src/components/settings/TemporaryExpenses.tsx:43-47 | the five fields return to their defaults |
| Installments.TemporaryExpenseForm.HandleAdd | src/components/settings/TemporaryExpenses.tsx:22-49 | with a field empty nothing changes; otherwise one record starting this month and ending at the loop's end period is appended, and the form resets |
| OnboardingWizard.Wizard.constructor | src/hooks/useOnboarding.ts:29-42 | step 1 with the initial answers |
| OnboardingWizard.Wizard.NextStep | src/hooks/useOnboarding.ts:49-51 | one step on, never past 6; the step stays in 1..6 |
| OnboardingWizard.Wizard.PrevStep | src/hooks/useOnboarding.ts:53-55 | one step back, never below 1 |
| OnboardingWizard.Wizard.GoToStep | src/hooks/useOnboarding.ts:57-61 | moves to a target in 1..6 and ignores any other |
| OnboardingWizard.Wizard.UpdateData | src/hooks/useOnboarding.ts:63-65 | the answers become the merge of the updates |
| OnboardingWizard.MergeDataFields | src/hooks/useOnboarding.ts:63-65 | for each of the eight fields, a given value is supplied and a missing one keeps the old value; merging the same update again changes nothing |
| OnboardingWizard.Wizard.AddExpense | src/hooks/useOnboarding.ts:67-78 | appends one active item; the total rises by its amount |
| OnboardingWizard.Wizard.RemoveExpense | src/hooks/useOnboarding.ts:80-85 | drops the item at the index, if there is one |
| OnboardingWizard.RemoveAt | src/hooks/useOnboarding.ts:80-85 | removes exactly index i and keeps the others in order; an index out of range changes nothing |
| OnboardingWizard.Wizard.UpdateExpense | src/hooks/useOnboarding.ts:87-97 | patches the item at the index only |
| OnboardingWizard.UpdateAt | src/hooks/useOnboarding.ts:87-97 | the length is kept, the index is patched, and every other item is unchanged |
| OnboardingWizard.TotalFixedMasked | src/hooks/useOnboarding.ts:99-105 | the total adds active items' amounts and ignores inactive ones |
| OnboardingWizard.TotalFixedSnoc | src/hooks/useOnboarding.ts:99-105 | adding an item raises the total by its amount if active |
| OnboardingWizard.TotalFixedRemoveAt | src/hooks/useOnboarding.ts:80-105 | removing index i lowers the total by that item's amount when it was active |
| OnboardingWizard.AvailableAfterSavingsIs | src/hooks/useOnboarding.ts:99-115 | available after savings = salary + other income − active fixed total − savings goal |
| OnboardingWizard.FixedFrom | src/hooks/useOnboarding.ts:131-140 | one fixed expense per item under its id, each keeping its name, amount, category and flag |
| OnboardingWizard.Wizard.CompleteOnboarding | src/hooks/useOnboarding.ts:117-144 | the store gets the onboarded profile from the answers, plus one fixed expense per item |
| OnboardingPage.CanProceedRules | src/pages/Onboarding.tsx:67-80 | only steps 2, 4 and 5 can block; step 2 needs salary and pay day above 0; the initial answers block exactly step 2 |
| OnboardingPage.ProgressPercent | src/pages/Onboarding.tsx:136-141 | a percentage is shown iff 1 < step < 6 |
| OnboardingPage.ProgressQuarters | src/pages/Onboarding.tsx:136-141 | steps 2..5 show 25, 50, 75 and 100 |
| OnboardingPage.PayloadExpenses | src/pages/Onboarding.tsx:39-52 | one payload expense per item, in order, with its name, amount and category |
| OnboardingPage.PayloadDropsActive | src/pages/Onboarding.tsx:39-52 | the payload ignores `isActive`, and every item is inserted as an active row |
| OnboardingPage.Page.constructor | src/pages/Onboarding.tsx:15 | not submitting and not navigated |
| OnboardingPage.Page.HandleComplete | src/pages/Onboarding.tsx:33-65 | ignored while submitting; otherwise the profile update is sent first; success goes to /dashboard; a failure clears the flag |
| ProfileHook.ProfileState.constructor | src/hooks/useProfile.ts:8-10 | no profile, loading, no error |
| ProfileHook.ProfileState.FetchProfile | src/hooks/useProfile.ts:12-34 | cleared without a user; otherwise one select, then the row or the error message; loading ends |
| ProfileHook.ProfileState.UpdateProfile | src/hooks/useProfile.ts:40-57 | needs a user; one update request; on success the local profile is merged, and on failure it is kept and the message returned |
| ProfileHook.ProfileState.CompleteOnboarding | src/hooks/useProfile.ts:59-112 | update first, then the insert only when there are expenses, then a refetch; the first failure stops with its message; every inserted row is active |
| ProfileHook.OnboardingUpdateEffect | src/hooks/useProfile.ts:74-84 | the update writes the seven answers and the flag, and keeps id, name, plan and subscription columns |
| ProfileHook.InsertRows | src/hooks/useProfile.ts:90-100 | one active row per expense, in order, owned by the user |
| ProfileHook.InsertRowsAppend | src/hooks/useProfile.ts:90-100 | the rows follow the payload's order: splitting the payload splits the rows |
| ExpensesStep.RemainingAfterAdd | finny/src/components/onboarding/ExpensesStep.tsx:32-36 | remaining is income minus the active total; an active item lowers it by its amount, an inactive one not at all |
| ExpensesStep.AddSuggestedIdempotent | finny/src/components/onboarding/ExpensesStep.tsx:38-47 | after the add the suggestion is marked added; adding again changes nothing; an absent name adds exactly one item |
| ExpensesStep.AddedIgnoresCase | finny/src/components/onboarding/ExpensesStep.tsx:77 | a name added in any letter case marks the suggestion added |
| ExpensesStep.ExpenseForm.constructor | finny/src/components/onboarding/ExpensesStep.tsx:29-30 | closed, empty, category `outros` |
| ExpensesStep.ExpenseForm.HandleAddSuggested | finny/src/components/onboarding/ExpensesStep.tsx:38-47 | the list becomes the deduplicated add; the step is unchanged |
| ExpensesStep.ExpenseForm.HandleAddCustom | finny/src/components/onboarding/ExpensesStep.tsx:49-59 | with name and amount filled in, adds the parsed expense and clears the form; otherwise nothing changes |
| Validators.PositiveIsNonNegative | finny/src/utils/validators.ts:4-13 | a positive number is non-negative, zero is only non-negative, NaN is neither |
| Validators.NotEmptyIff | finny/src/utils/validators.ts:18-20 | not empty iff some character is not whitespace |
| Validators.IntegerInExactly | finny/src/utils/validators.ts:25-41 | a range check accepts exactly the integers of its range |
| Validators.RangesAcceptExactly | finny/src/utils/validators.ts:25-41 | day 1..31, month 1..12 and year 2020..2100 accept exactly their integers and no fraction |
| Validators.ValidateProfile | finny/src/utils/validators.ts:46-61 | the salary message iff a salary is given and not positive, then the pay-day message iff a pay day is given and out of range, in that order |
| Validators.ValidateExpense | finny/src/utils/validators.ts:66-81 | the amount message iff an amount is given and not positive, then the description message iff a description is given and blank |
| Formatters.ParseInputToNumber | finny/src/utils/formatters.ts:53-57 | the number the cleaned text starts with, and 0 when it starts with none |
| Formatters.NoDigitsParseToZero | finny/src/utils/formatters.ts:53-57 | text without a digit parses to 0 |
| Formatters.FormatParseRoundTrip | finny/src/utils/formatters.ts:53-65 | a nonzero value in whole cents is parsed back from what `formatNumberForInput` shows |
| Formatters.ParseFormatted | finny/src/utils/formatters.ts:53-65 | any value's formatted text parses to its magnitude rounded to cents, with the sign |
| Formatters.ZeroRoundTrip | finny/src/utils/formatters.ts:62-65 | 0 shows as the empty input, which parses back to 0 |
| Formatters.FormatShape | finny/src/utils/formatters.ts:62-65 | the formatted text is a sign, integer digits, ',' and two digits |
| Formatters.ReplaceFirst | finny/src/utils/formatters.ts:54-64 | only the first occurrence is replaced |
| Formatters.FormatMonth | finny/src/utils/formatters.ts:39-41 | the month's name for 1..12 and '' otherwise |
| Formatters.FormatMonthYear | finny/src/utils/formatters.ts:46-48 | the name, a space and the year; "undefined" for a month outside 0..12 |
| Formatters.MonthLabel | finny/src/utils/formatters.ts:46-48 | the month name for 1..12, the empty string for 0, and "undefined" past the array |
| CurrencyInput.HandleChange | src/components/ui/Input.tsx:66-83 | the handler's three steps give the as-written sanitised text |
| CurrencyInput.AsWrittenShape | src/components/ui/Input.tsx:69-81 | the result is the integer digits alone, or digits, one comma and a fraction: cut to two digits with one comma, uncut with more |
| CurrencyInput.AsWrittenAlphabet | src/components/ui/Input.tsx:69-81 | only digits and at most one comma remain |
| CurrencyInput.OneCommaCutsFraction | src/components/ui/Input.tsx:78-81 | with exactly one comma typed, at most two digits follow it |
| CurrencyInput.AsWrittenKeepsDigitOrder | src/components/ui/Input.tsx:69-81 | the kept digits are a prefix of the typed digits, and all of them with several commas |
| CurrencyInput.StrippedPieces | src/components/ui/Input.tsx:69-73 | the pieces hold exactly the typed digits, and there is one more piece than commas |
| CurrencyInput.MergedFractionNotCut | src/components/ui/Input.tsx:72-81 | "1,2,345" sanitises to "1,2345", a four-digit fraction |
| CurrencyInput.AsWrittenMergesFraction | src/components/ui/Input.tsx:72-81 | digit runs a, b, c typed around two commas sanitise to a, a comma and b + c: the fraction is every later digit, never cut to two |
| CurrencyInput.SanitizeCutsFraction | src/components/ui/Input.tsx:72-81 | the corrected sanitiser keeps digits and at most one comma, with at most two digits after it |
| CurrencyInput.SanitizeAgreesUpToOneComma | src/components/ui/Input.tsx:72-81 | with at most one comma typed, the corrected and as-written sanitisers agree |
| ExpenseList.SelectedExactly | src/components/expenses/ExpenseList.tsx:21-27 | an expense is selected iff it is present and matches (month, year) when both are set, and the category when one is chosen |
| ExpenseList.InOrderIsTotalPreorder | src/components/expenses/ExpenseList.tsx:30-36 | the comparator is total and transitive |
| ExpenseList.SortByDate | src/components/expenses/ExpenseList.tsx:30-36 | a permutation of its input, newest date first, then newest creation first |
| ExpenseList.FilteredIsSortedSelection | src/components/expenses/ExpenseList.tsx:18-43 | the listing is the selection sorted, and its total is the selection's total |
| ExpenseList.GroupsPartition | src/components/expenses/ExpenseList.tsx:46-57 | the groups have distinct dates; each holds exactly its date's expenses in order; every date has a group |
| ExpenseList.GroupsConcat | src/components/expenses/ExpenseList.tsx:46-57 | for a list with each date's expenses adjacent, reading the groups in order gives the list back |
| ExpenseList.SortedIsContiguous | src/components/expenses/ExpenseList.tsx:30-57 | a sorted listing has each date's expenses adjacent |
| ExpenseList.GroupByDate | src/components/expenses/ExpenseList.tsx:46-57 | the loop builds the groups of the listing |
| ExpenseList.GroupIndex | src/components/expenses/ExpenseList.tsx:50 | -1 iff no group has the date; otherwise the index of that date's group |
| CategoryBreakdown.SortedCategories | finny/src/components/dashboard/CategoryBreakdown.tsx:12-15 | at most five entries, all positive and from the record, largest first; fewer only when fewer are positive; no left-out positive entry is larger than a shown one |
| CategoryBreakdown.PositiveByAmount | finny/src/components/dashboard/CategoryBreakdown.tsx:13-14 | a permutation of the positive entries, largest first |
| CategoryBreakdown.PositiveByAmountMembers | finny/src/components/dashboard/CategoryBreakdown.tsx:13-14 | an entry is among them iff it is a positive entry of the record |
| CategoryBreakdown.TotalCountsEveryEntry | finny/src/components/dashboard/CategoryBreakdown.tsx:17 | the total is the positive entries plus the rest; it is non-negative when every entry is |
| CategoryBreakdown.Percentage | finny/src/components/dashboard/CategoryBreakdown.tsx:41 | 0 for a non-positive total; within 0..100 for a part of the total; positive for a positive part |
| ProgressBar.Percentage | finny/src/components/ui/ProgressBar.tsx:26 | 0 for max ≤ 0; at most 100; the exact share below max; 100 from max on |
| ProgressBar.BarColor | finny/src/components/ui/ProgressBar.tsx:27-29 | red when over budget; otherwise the given colour, else the default green |
| ProgressBar.Width | finny/src/components/ui/ProgressBar.tsx:37 | the bar width is the percentage, never above 100 |
| ProgressBar.Label | finny/src/components/ui/ProgressBar.tsx:44 | the rounded percentage: at most 100, 0 for max ≤ 0, non-negative for a non-negative value |
| ProgressBar.OverBudgetIsFullAndRed | finny/src/components/ui/ProgressBar.tsx:26-29 | an over-budget bar is full and red |
| LeisureBudgetCard.Percentage | finny/src/components/dashboard/LeisureBudgetCard.tsx:11 | 0 for a non-positive budget; otherwise the uncapped share of spending |
| LeisureBudgetCard.StatusLadder | finny/src/components/dashboard/LeisureBudgetCard.tsx:12-25 | exceeded iff spent > budget; almost iff within a positive budget and at least 80% of it; half iff from 50% to under 80%; healthy otherwise |
| LeisureBudgetCard.ShareAtLeast | finny/src/components/dashboard/LeisureBudgetCard.tsx:11-25 | for a positive budget, the share is at least p iff spent ≥ p/100 · budget |
| LeisureBudgetCard.ProgressColorFollowsStatus | finny/src/components/dashboard/LeisureBudgetCard.tsx:29-33 | the bar colour follows the status rung, and the progress bar keeps it unless over budget |
| LeisureBudgetCard.WeeklyRemaining | finny/src/components/dashboard/LeisureBudgetCard.tsx:78 | never negative; a quarter of what remains within budget; 0 once the budget is spent |
| SummaryCard.GoalProgress | src/components/dashboard/SummaryCard.tsx:19-22 | 0 without a positive goal; at most 100; negative for a negative balance; the exact share below the goal |
| SummaryCard.FullExactlyWhenReached | src/components/dashboard/SummaryCard.tsx:19-22 | progress is 100 iff the goal is reached |
| AnnualView.StatusCases | finny/src/pages/AnnualView.tsx:17-25 | goal met iff balance ≥ goal; positive iff 0 ≤ balance < goal; deficit iff balance is below 0 and the goal; a non-positive goal never shows positive |
| AnnualView.Buttons | finny/src/pages/AnnualView.tsx:74-81 | twelve buttons for months 1..12, disabled exactly for future months |
| AnnualView.FutureMonthsDisabled | finny/src/pages/AnnualView.tsx:74-81 | a month after the current one is disabled; an earlier or current one is enabled |
| AnnualView.Render | finny/src/pages/AnnualView.tsx:11-118 | the projection is the year's saving, 12·income − expenses; button i is enabled iff its month is not after the current one and carries that month's status |
| Dashboard.MonthLength | src/pages/Dashboard.tsx:44 | 28..31 days; February has 29 in leap years |
| Dashboard.DaysInMonth | src/pages/Dashboard.tsx:44 | `new Date(year, month, 0)`: the month's length, rolling months 0 and 13 into the neighbouring years |
| Dashboard.YearLength | src/pages/Dashboard.tsx:44 | the months of a year add up to 365 or 366; month 13 is the next January and month 0 the previous December |
| Dashboard.DaysElapsed | src/pages/Dashboard.tsx:45-47 | today's day in the current month, the whole month otherwise |
| Dashboard.AverageDaily | src/pages/Dashboard.tsx:48 | 0 without elapsed days; otherwise average × days is the variable total |
| Dashboard.ProjectionRules | src/pages/Dashboard.tsx:49-50 | not current: the projection is the variable total; current: projection × day = variable × month length |
| AddExpenseModal.ErrorsExactly | finny/src/components/expenses/AddExpenseModal.tsx:41-63 | a field has an error iff it is invalid, with its message; no errors iff every field is valid |
| AddExpenseModal.ValidRecord | finny/src/components/expenses/AddExpenseModal.tsx:65-80 | a record built after validation has a positive amount and a non-blank, trimmed description |
| AddExpenseModal.Modal.constructor | finny/src/components/expenses/AddExpenseModal.tsx:17-21 | closed, empty fields, no category, today's date, no errors |
| AddExpenseModal.Modal.Validate | finny/src/components/expenses/AddExpenseModal.tsx:41-63 | the errors become the field errors; the result is true iff there are none |
| AddExpenseModal.Modal.Close | finny/src/components/expenses/AddExpenseModal.tsx:31-39 | the fields reset to their defaults and the modal closes |
| AddExpenseModal.Modal.HandleSubmit | finny/src/components/expenses/AddExpenseModal.tsx:65-80 | when valid, appends the built expense, closes and resets every field (empty amount and description, no category, today's date, no errors); otherwise the store and all five fields are unchanged and the errors are shown |
| Subscription.DerivationCases | src/hooks/useSubscription.ts:36-53 | active status is active; trialing is active iff the trial end is in the future, with days remaining = ceil of the days left; anything else is inactive |
| Subscription.SubscriptionState.constructor | src/hooks/useSubscription.ts:16-17 | no subscription, loading |
| Subscription.SubscriptionState.FetchSubscription | src/hooks/useSubscription.ts:19-67 | without a user, none; otherwise the derived subscription, or the free fallback on an error; loading ends |
| Subscription.SubscriptionState.OnUserChange | src/hooks/useSubscription.ts:69-77 | without a user the subscription is cleared and loading ends; with one, the fetch's outcome as in `fetchSubscription` |
| Subscription.QuestionsAfterFetch | src/hooks/useSubscription.ts:79-85 | after the fallback a subscription is needed and none is active; after a row, one is needed iff its status is missing or 'none'; an active row is active and needs none; a canceled or past-due row gives no to both; no record gives no to both |
| StripeWebhook.TrialEndMillis | supabase/functions/stripe-webhook/index.ts:38-40 | seconds × 1000 when a trial end is given and nonzero, none otherwise |
| StripeWebhook.MapStatus | supabase/functions/stripe-webhook/index.ts:70-87 | none iff the status is not trialing, active, canceled or past_due |
| StripeWebhook.Handle | supabase/functions/stripe-webhook/index.ts:16-172 | 400 and no write without a signature or on a construct error; a checkout whose retrieval fails gives 400; otherwise 200; the writes are the event's writes |
| StripeWebhook.Writes | supabase/functions/stripe-webhook/index.ts:29-159 | at most one write; none for unhandled events; checkout writes iff user, subscription id and retrieval are present, to the session's user; other events write iff the customer's profile is found, to it |
| StripeWebhook.CheckoutEffect | supabase/functions/stripe-webhook/index.ts:29-56 | checkout writes premium, the mapped status, the ids and the trial end to the session's user |
| StripeWebhook.UpdatedEffect | supabase/functions/stripe-webhook/index.ts:58-106 | an update writes the mapped status and trial end, with premium iff paying |
| StripeWebhook.UpdatedActiveIsActive | supabase/functions/stripe-webhook/index.ts:58-106 | an update to active is read back by the client as an active subscription |
| StripeWebhook.DeletedAndFailedEffects | supabase/functions/stripe-webhook/index.ts:108-156 | deletion sets free and canceled and clears the subscription id; a failed payment sets past_due and changes nothing else |
| AppRoutes.DecisionRules | src/App.tsx:95-136 | spinner while auth loads; signed out, a path is public iff it is /, /login or /signup, and any other redirects to /login; signed in, /login and /signup redirect to /dashboard and a user not onboarded goes to /onboarding |
| AppRoutes.BottomNavRule | src/App.tsx:31-32 | the bottom bar shows iff the user is onboarded and the page is neither /onboarding nor /checkout |
| AppRoutes.RedirectsSettle | src/App.tsx:47-129 | following redirects reaches a non-redirect screen within two steps |
| Signup.CheckPasswords | src/pages/Signup.tsx:20-28 | mismatch error iff the passwords differ; length error iff they match and are shorter than 6 UTF-16 code units; none otherwise |
| Signup.LengthCountsCodeUnits | src/pages/Signup.tsx:25 | three characters above U+FFFF make six code units and pass the length rule; five plain characters do not |
| Text.Utf16LengthAppend | src/pages/Signup.tsx:25 | the code-unit length of a concatenation is the sum of the parts' lengths |
| Text.Utf16LengthOfBmp | src/pages/Signup.tsx:25 | the code-unit length equals the character count exactly when no character lies above U+FFFF |
| Signup.SignupForm.constructor | src/pages/Signup.tsx:11-13 | no error, not loading, no success |
| Signup.SignupForm.HandleSubmit | src/pages/Signup.tsx:16-40 | a failed check (length in UTF-16 code units) gives its error and no call; otherwise exactly one sign-up call, then success or its error |
| Numbers.RoundHalfUp | src/utils/limits.ts:32 | the nearest integer, halves rounded up: r − 1/2 ≤ x < r + 1/2 |
| Numbers.Ceil | src/hooks/useSubscription.ts:43 | the least integer not below x |

## Left out

- Backend, Stripe client and browser storage I/O: every call is a parameter carrying its outcome. Ordering between concurrent React updates and re-renders is not modelled.
- The history cutoff of `fetchTransactions` (useTransactions.ts:34-38) is applied by the backend query. The model does not restrict the fetched rows.
- Intl currency and date formatting, and the presentation markup of the components, are left out. `CircularProgress` in ProgressBar.tsx is left out, apart from sharing the bar's percentage rule.
- JavaScript floating point is left out: NaN, infinities, rounding error and the exponent form of `toFixed`. Money is exact. `parseFloat` is modelled on digits, one '.', and a sign; leading whitespace and exponents are not read.
- Installments.TemporaryExpenseForm.HandleAdd: a count with no leading digit makes `parseInt` give NaN, and the source then stores a record whose end month is NaN. The model adds nothing in that case, because NaN is not a month.
- Text.ToLower lowers ASCII and Latin-1 capitals only, not the full Unicode case table. Text.Trim removes the whole whitespace and line-terminator set of `String.prototype.trim`.
- OnboardingWizard.Wizard.GoToStep takes an integer, so a fractional step is not modelled.
- AddExpenseModal.Modal.HandleSubmit takes the date as year, month and day fields. The UTC-versus-local month of `new Date(date)` is not modelled.
- The sort in ExpenseList.tsx and CategoryBreakdown.tsx is specified as a sorted permutation. The stability of `Array.prototype.sort` is not stated.
- Dates compare by (year, month, day) and `createdAt` as an integer timestamp. `getTime` on an invalid date (NaN) is not modelled.
- src/components/auth/ProtectedRoute.tsx is not part of this model. AppRoutes takes it to render its children for a signed-in user.
- The `catch` branch of `handleComplete` (Onboarding.tsx:61-63) is not modelled, because the profile hook returns its failures instead of throwing.
- `resetAllData` (useStore.ts:114-123) also calls `clearState`. Store.AppStore.ResetAllData models the state only; Persistence.Storage.ClearState models the removal.
- The subscriber that saves the store after every action (useStore.ts:128 onwards) is left out. It is the composition of Store.AppStore.State and Persistence.Storage.SaveState.
- `exportData` and `importData` see JSON as an abstract document: a syntax error, `null`, a scalar, or an object of five keys. Parsing and printing JSON text are not modelled.
- `importData` of the text `null` fails, because reading `parsed.profile` throws; a `null` document does not fall back to the defaults (Persistence.NullKeyDiffers).
- Store.AppStore.constructor: the store is seeded only from a well-formed state, that is a loaded state of the form `Persistence.FromState(s)`. A loaded state with a `null` or falsy collection, such as a stored `{"expenses": null}`, is not modelled as a seed.

## Findings

| source | as written | input that shows it | evidently intended | confidence | as-written member | corrected member |
|---|---|---|---|---|---|---|
| src/components/ui/Input.tsx:72-81 | with more than two comma pieces, the pieces after the first are merged, but the two-decimal cut tests the original piece count, so the merged fraction is never cut | "1,2,345" gives "1,2345" | at most two digits after the comma: "1,23" | not executed | CurrencyInput.MergedFractionNotCut | CurrencyInput.SanitizeCutsFraction |
