# FinTrackrr bookkeeping core in Dafny

FinTrackrr is a personal-finance web client. A signed-in user owns several
profiles (personal, business, family), and each profile owns expenses. This
project models the client-side bookkeeping and proves properties of it:

- the **profile context**: the cached profile list, the active profile, the
  last error, and the handlers that load, add, update and delete profiles;
- the **expense context**: the cached expenses of the active profile, and the
  handlers that load, add, update and delete them;
- the **expense repository's read side**: the profile/date query, the
  payment-method statistics, the monthly total, and the month-over-month
  comparison;
- the **statistics card**: this month's total, count, average and top category;
- the **expense table's ordering**: the sort configuration, its toggle, and the
  comparator;
- the **profile edit dialog**: the form schema, the default values, and the
  submitted update;
- the **records** these all share.

Every call into the hosted document store or the authentication service is an
input of the model. It is a `Reply<T>`: either `Done(value)` or
`Failed(message)`, standing for what the awaited call delivered or threw. So
every handler is a pure function from one state to the next. The clock is an
input too (`now: Time`, or `today: Date` for the statistics card).

Other modelling choices:

- Amounts are integer cents, so sums are exact. JavaScript's floating-point rounding is left out (see `ExpenseService.CompareMonthly` under "## Left out").
- A date is a calendar day `Date(year, month0, day)` with a 0-based month, as
  JavaScript's `Date` constructor takes it.
- JavaScript truthiness of an optional string (`!user?.uid`,
  `!activeProfile?.id`, `!profile.id`) treats a missing value and `""` alike.
  This is the predicate `Replies.Present`.

Modules, one per file:

| file | module | models |
|---|---|---|
| replies.dfy | `Replies` | optional fields, store replies, thrown errors |
| seqs.dfy | `Seqs` | `filter` and the summing `reduce`, with their algebra |
| calendar.dfy | `Calendar` | calendar days, `new Date(y, m, 1)` and `new Date(y, m + 1, 0)` month bounds |
| types.dfy | `Types` | `types/index.ts`: profiles, expenses, their inputs and spread-merges |
| profile_store.dfy | `ProfileStore` | `contexts/ProfileContext.tsx` |
| expense_store.dfy | `ExpenseStore` | `contexts/ExpenseContext.tsx` |
| grouping.dfy | `Grouping` | the reduce-into-a-record grouping both aggregations use |
| expense_service.dfy | `ExpenseService` | `lib/expenseService.ts` read side |
| expense_stats.dfy | `ExpenseStats` | `components/expense-stats.tsx` |
| expense_list.dfy | `ExpenseList` | `components/expense-list.tsx` |
| profile_edit.dfy | `ProfileEdit` | `components/profile-edit-dialog.tsx` |

## Behaviour of the code worth knowing

- **A failed profile load empties the list.** The `catch` of `loadProfiles`
  sets the list to `[]` (contexts/ProfileContext.tsx:32), so the profiles
  cached before the failure are gone (`ProfileStore.Load`).
- **Signing out keeps the active profile.** Without a user id the session
  effect only empties the list and stops loading
  (contexts/ProfileContext.tsx:52-54). The active profile and the error stay as
  they were (`ProfileStore.SessionChanged`).
- **A load can break coherence.** Call the cache coherent when an active
  profile is always one of the cached entries. Add, update and delete keep it
  (`ProfileStore.MutationsPreserveCoherence`). A reload does not: it keeps an
  active profile that is no longer in the fetched list
  (`ProfileStore.LoadMayBreakCoherence`).
- **The profile list reloads whenever the active profile changes.**
  `loadProfiles` is a `useCallback` over `activeProfile`
  (contexts/ProfileContext.tsx:47), and the session effect depends on it
  (line 56). Choosing a profile, the first add, and updating or deleting the
  active profile therefore each trigger a reload while a user is signed in.
  The reload never replaces an active profile that is set
  (`ProfileStore.ReloadKeepsChosenProfile`).
- **An expense update can move an expense.** `UpdateExpenseInput`
  (types/index.ts:41) omits `profileId`, but the expense cache's update takes a
  whole `Partial<Expense>` (contexts/ExpenseContext.tsx:66). So a cached entry
  can change its `id` and its `profileId`
  (`ExpenseStore.UpdateCanMoveExpense`), and the cache then stops showing one
  profile's expenses only (`ExpenseStore.UpdatePreservesOwnershipIff`).
- **A failed expense load shows the previous profile's expenses.** The `catch`
  of `loadExpenses` only logs (contexts/ExpenseContext.tsx:36-37). After a
  switch of the active profile the list of the previous profile stays on show
  under the new one (`ExpenseStore.FailedLoadKeepsStaleList`).
- **No stale-load guard.** Nothing discards a late expense load for a profile
  that is no longer active, so the model has no notion of an in-flight load.
- **Categories named like `Object.prototype` members never make the top.**
  The category sums are folded into a plain `{}` (components/expense-stats.tsx:31-34).
  For a name such as `toString`, `acc[c] || 0` reads the inherited function,
  the sum becomes a string, and `sum > max.sum` is false for it. For
  `__proto__` the assignment is ignored. Either way the top-category reduce
  passes over the category (`ExpenseStats.Inherited`,
  `ExpenseStats.InheritedCategoryIsIgnored`).

Some source files do not compile as written, and the model follows their
evident behaviour:

- `lib/expenseService.ts` uses `orderBy` without importing it.
- `contexts/ProfileContext.tsx` declares its state variables twice and uses
  `FirebaseError` without importing it.
- `components/profile-edit-dialog.tsx` has two `catch` clauses on one `try`.
  The model takes the first one, which only logs. So a failed save leaves the
  dialog open and is otherwise swallowed.

## Model

| member | source | states |
|---|---|---|
| Calendar.DaysInMonth | project/lib/expenseService.ts:138 | Every month has 28 to 31 days, and only February has fewer than 30. |
| Calendar.FirstOfMonth | project/lib/expenseService.ts:137 | `new Date(y, m, 1)` is a real calendar day, the 1st, of the month that month index `y * 12 + m` names, so an out-of-range month rolls over into the neighbouring year. |
| Calendar.DayBefore | project/lib/expenseService.ts:138 | Day 0 of a month is a real day, earlier than the 1st, in the month before, and is that month's last day. |
| Calendar.LastOfMonth | project/lib/expenseService.ts:138 | `new Date(y, m + 1, 0)` is a real day in the same year and month as `new Date(y, m, 1)`, and is its last day. |
| Calendar.MonthRangeIsMonth | project/lib/expenseService.ts:137-140 | For a real day, lying between the first and the last day of a month is the same as being dated in that month. |
| Calendar.PreviousMonth | project/lib/expenseService.ts:153-154 | The previous month is one step back in the linear month index and lies in 0..11. The year drops by one exactly when the month is January. |
| Calendar.PreviousMonthIsAdjacent | project/lib/expenseService.ts:153-156 | The last day of the previous month is the day right before the first of the month. |
| Calendar.OrdinalMonotone | project/components/expense-list.tsx:30-36 | On real days, the day number the comparator subtracts orders days as the calendar does. |
| Types.ParseProfileType | project/types/index.ts:7 | A string is a profile type exactly when it is `personal`, `business` or `family`, and it then reads back as its own literal. |
| Types.ProfileTypeRoundTrip | project/types/index.ts:7 | Each profile type has exactly one literal, and the literal reads back as that type. |
| Types.ParsePaymentMethod | project/types/index.ts:18 | A string is a payment method exactly when it is `cash`, `debit` or `credit`, and it then reads back as its own literal. |
| Types.PaymentMethodRoundTrip | project/types/index.ts:18 | Each payment method has exactly one literal, and the literal reads back as that method. |
| Types.MergeProfile | project/types/index.ts:15 | `{ ...profile, ...updates }` can never change a profile's id or owner. For each of name, type, currency and the two timestamps, a value the update carries wins and an absent one keeps the old value. An empty update changes nothing. |
| Types.MergeProfileIdempotent | project/contexts/ProfileContext.tsx:101 | Merging the same update twice is merging it once. |
| Types.MergeExpense | project/contexts/ExpenseContext.tsx:75 | The merged expense is stamped with the current time. For every other field, `id` and `profileId` included, a value the update carries wins and an absent one keeps the old value. |
| ProfileStore.Load | project/contexts/ProfileContext.tsx:21-47 | Loading always ends. A successful load replaces the list, clears the error, and makes the first profile active only when none was. A failed load empties the list, records the error, and keeps the active profile. |
| ProfileStore.SessionChanged | project/contexts/ProfileContext.tsx:49-56 | With a user id this is a load. Without one the list empties and loading stops, but the active profile and the error stay. |
| ProfileStore.Refresh | project/contexts/ProfileContext.tsx:152-156 | With a user id this is a load. Without one nothing changes. |
| ProfileStore.SetActive | project/contexts/ProfileContext.tsx:165 | Only the active profile changes. |
| ProfileStore.Add | project/contexts/ProfileContext.tsx:58-93 | Without a user it throws and changes nothing. A failed store call records the error, rethrows, and keeps list and active profile. On success the new profile is appended, carries the returned id and the user's id, and becomes active exactly when the list was empty. Earlier entries are unchanged. |
| ProfileStore.UpdateEntries | project/contexts/ProfileContext.tsx:99-103 | Length and order are kept. Entries with the id are merged and no other entry changes. |
| ProfileStore.Update | project/contexts/ProfileContext.tsx:95-123 | On success only entries with the id are merged, and the active profile gets the same merge when it is the one updated. On failure the list and active profile stay, the error is recorded, and the error is rethrown. |
| ProfileStore.Delete | project/contexts/ProfileContext.tsx:125-150 | On success exactly the entries with the id go, and the others stay in their order, each with its number of occurrences. A deleted active profile is replaced by the first remaining profile, or by none. Any other active profile stays. On failure nothing but the error changes, and the error is rethrown. |
| ProfileStore.DeleteKeepsOrder | project/contexts/ProfileContext.tsx:129 | The filter distributes over concatenation, so the survivors keep their relative order. |
| ProfileStore.MutationsPreserveCoherence | project/contexts/ProfileContext.tsx:58-150 | Add, update and delete keep the active profile among the cached entries, whether the store call succeeds or fails. |
| ProfileStore.LoadMayBreakCoherence | project/contexts/ProfileContext.tsx:26-32 | A successful or failed reload can leave an active profile that is not in the list. |
| ProfileStore.DeleteActiveSelectsNext | project/contexts/ProfileContext.tsx:131-134 | With `[A, B, C]` cached and `A` active, deleting `A` makes `B` active. |
| ProfileStore.FirstSignInSelectsFirst | project/contexts/ProfileContext.tsx:14-56 | From the mounted state, a sign-in whose load returns profiles makes the first of them active, and the cache is coherent. |
| ProfileStore.ReloadKeepsChosenProfile | project/contexts/ProfileContext.tsx:21-56 | The reload that follows a change of the active profile keeps the chosen profile active, whatever the load returns. |
| ExpenseStore.Load | project/contexts/ExpenseContext.tsx:24-44 | Loading always ends. Without an active id the list is empty. A successful fetch replaces the list, and a failed one keeps the previous list. |
| ExpenseStore.NewExpense | project/contexts/ExpenseContext.tsx:50-58 | The new expense carries the returned id, the active profile's id and the input's fields. `createdAt` and `updatedAt` are two separate clock readings, so they need not agree. |
| ExpenseStore.Add | project/contexts/ExpenseContext.tsx:46-64 | Without an active id it returns and changes nothing. A failed store call keeps the list and rethrows. On success exactly one expense goes in front of the unchanged list. It carries the new id, the active id, the input's amount, description, category, date and payment method, and the two clock readings as `createdAt` and `updatedAt`. |
| ExpenseStore.UpdateEntries | project/contexts/ExpenseContext.tsx:72-78 | Length and order are kept. Entries with the id are merged and stamped, and no other entry changes. |
| ExpenseStore.Update | project/contexts/ExpenseContext.tsx:66-83 | On success only entries with the id are merged and stamped, and length and order are kept. On failure the list is kept and the error rethrown. |
| ExpenseStore.Delete | project/contexts/ExpenseContext.tsx:85-93 | On success exactly the entries with the id go, and the others stay in their order, each with its number of occurrences. On failure the list is kept and the error rethrown. |
| ExpenseStore.DeleteKeepsOrder | project/contexts/ExpenseContext.tsx:88 | The filter distributes over concatenation, so the survivors keep their relative order. |
| ExpenseStore.DeleteAbsentIsIdentity | project/contexts/ExpenseContext.tsx:88 | Deleting an id no cached expense carries leaves the state as it was. |
| ExpenseStore.UpdateKeepsOwners | project/contexts/ExpenseContext.tsx:66-78 | An update that carries neither `id` nor `profileId` keeps every entry's id and owner. |
| ExpenseStore.EmptyUpdateOnlyStamps | project/contexts/ExpenseContext.tsx:75 | An empty update only refreshes `updatedAt` on the matching entries. |
| ExpenseStore.UpdateCanMoveExpense | project/contexts/ExpenseContext.tsx:66-78 | An update carrying a new `profileId` moves the cached expense to another profile. |
| ExpenseStore.LoadEstablishesOwnership | project/contexts/ExpenseContext.tsx:24-44 | A successful load, with the fetch asking the repository for the active profile's documents, leaves only that profile's expenses in the cache. |
| ExpenseStore.FailedLoadKeepsStaleList | project/contexts/ExpenseContext.tsx:32-40 | A failed load from the mounted state leaves an empty cache. After the active profile changes, it leaves another profile's expenses on show. |
| ExpenseStore.AddPreservesOwnership | project/contexts/ExpenseContext.tsx:46-64 | When the cache holds only the active profile's expenses, it still does after an add, whatever the store answers. |
| ExpenseStore.DeletePreservesOwnership | project/contexts/ExpenseContext.tsx:85-93 | A delete keeps the cache owned by whichever profile owned it. |
| ExpenseStore.UpdatePreservesOwnershipIff | project/contexts/ExpenseContext.tsx:66-83 | An update keeps the cache owned by a profile exactly when it fails, carries no `profileId` or that profile's id, or matches no cached expense. |
| Grouping.Find | project/lib/expenseService.ts:121 | The lookup finds the first entry with the key, or reports that no entry has it. |
| Grouping.GroupBy | project/lib/expenseService.ts:119-129 | The reduce into a record has at most one entry per expense and is empty exactly when there are no expenses. What each entry holds is stated by `Grouping.GroupBySummarises`. The category sums of `components/expense-stats.tsx` (lines 31-34) fold the same way. |
| Grouping.GroupBySummarises | project/lib/expenseService.ts:119-129 | The reduce yields one entry per key that occurs, none for an absent key, and no key twice. Each entry counts and sums exactly that key's expenses. The counts add up to the number of expenses and the totals to their sum. |
| Grouping.GroupByFirstOccurrence | project/components/expense-stats.tsx:31-36 | The record lists each key at the place of its first occurrence among the expenses: every key occurs, and keys stand in the order they were first seen. |
| ExpenseService.GetExpenses | project/lib/expenseService.ts:34-66 | A failed read is rethrown. Otherwise an expense is returned exactly when it is stored, belongs to the profile, and, when both bounds are given, is dated within them. |
| ExpenseService.Matches | project/lib/expenseService.ts:45-55 | A document matches on equal `profileId`, and, only when both bounds are given, on a date between them inclusive. |
| ExpenseService.Select | project/lib/expenseService.ts:43-61 | The query returns exactly the stored documents that match, and no more documents than are stored. |
| ExpenseService.RangeNeedsBothBounds | project/lib/expenseService.ts:49-55 | With only one bound given, the query returns the same as with none. |
| ExpenseService.PaymentMethodStats | project/lib/expenseService.ts:116-134 | A failed read is rethrown. Otherwise the entries summarise the profile's expenses by payment method, as for `Grouping.GroupBySummarises`. |
| ExpenseService.PaymentMethodStatsConserve | project/lib/expenseService.ts:119-129 | Over all entries the counts sum to the number of the profile's expenses and the totals to their overall sum. |
| ExpenseService.PaymentMethodStatsAtMostThree | project/lib/expenseService.ts:119-129 | There are at most three entries. |
| ExpenseService.PaymentMethodStatsExample | project/lib/expenseService.ts:116-134 | Cash 10, cash 5 and credit 20 give cash 15 over 2 and credit 20 over 1, and no debit entry. |
| ExpenseService.MonthlyTotal | project/lib/expenseService.ts:136-142 | A failed read propagates, and a successful read always gives a total. |
| ExpenseService.MonthlyTotalIsMonthSum | project/lib/expenseService.ts:136-141 | For real dates, the monthly total is the sum over the profile's expenses dated in that month, after month rollover. |
| ExpenseService.MonthlyTotalOfOne | project/lib/expenseService.ts:136-141 | A single expense dated in a month is that month's whole total. |
| ExpenseService.CompareMonthly | project/lib/expenseService.ts:144-171 | There is a result exactly when both reads succeed, so failures give null rather than an error. The totals are those of the month and of the previous month. The difference is previous minus current, and `hasSaved` holds exactly when current is below previous. |
| ExpenseService.JanuaryComparesWithDecember | project/lib/expenseService.ts:153-156 | January is compared with December of the year before. |
| ExpenseService.CompareMonthlyExample | project/lib/expenseService.ts:144-166 | 80 this month against 100 last month is a difference of 20, and the profile has saved. |
| ExpenseStats.CurrentMonthIsTodaysMonth | project/components/expense-stats.tsx:14-24 | For real days, an expense counts exactly when it falls in today's year and month. |
| ExpenseStats.CategorySums | project/components/expense-stats.tsx:31-34 | One entry per category that occurs this month, none for an absent one, each holding exactly that category's sum. |
| ExpenseStats.TopCategory | project/components/expense-stats.tsx:31-39 | The top sum is never negative. No category with an ordinary name exceeds it, and entries under inherited names are passed over. A positive top is some ordinary category's own entry. With no positive sum the result is `''` with 0. |
| ExpenseStats.TopIsFirstMaximum | project/components/expense-stats.tsx:36-39 | On a tie the entry seen first in the record wins, because the comparison is strict. |
| ExpenseStats.TopPosition | project/components/expense-stats.tsx:36-39 | A positive top is an ordinary entry of the record, and every ordinary entry before it has a smaller sum. |
| ExpenseStats.Average | project/components/expense-stats.tsx:44 | An empty month averages to its total. Otherwise average times count gives the total back. |
| ExpenseStats.TopBoundsEveryCategory | project/components/expense-stats.tsx:31-39 | The top amount is at least the sum of any category with an ordinary name this month. |
| ExpenseStats.TopIsItsCategorySum | project/components/expense-stats.tsx:31-39 | A positive top amount is the whole sum of the category it names, and that name is an ordinary one. |
| ExpenseStats.Stats | project/components/expense-stats.tsx:13-47 | Count and total are over exactly this month's expenses. An empty month shows total and average 0. The average divides by the count, or by 1. The top amount is non-negative and bounds every ordinary category's sum. When positive it is the named category's own sum, and at 0 the card names no category. |
| ExpenseStats.CategorySumsConserveTotal | project/components/expense-stats.tsx:26-34 | The category sums add up to the month's total. |
| ExpenseStats.TiedCategoryFirstSeenWins | project/components/expense-stats.tsx:31-39 | Of two categories tied at a positive top, the card names the one whose first expense this month comes first. |
| ExpenseStats.TieGoesToFirstSeen | project/components/expense-stats.tsx:31-39 | Over any month's expenses, a category tied with a positive top first occurs after the category the reduce picks. |
| ExpenseStats.InheritedCategoryIsIgnored | project/components/expense-stats.tsx:31-39 | One expense of 50 this month under `toString` counts toward the total of 50, yet the card shows top category `''` with 0. |
| ExpenseList.HandleSort | project/components/expense-list.tsx:47-53 | The clicked column becomes the key. The direction is descending exactly when that column was already sorted ascending. |
| ExpenseList.RepeatedClicksAlternate | project/components/expense-list.tsx:47-53 | Clicking the same column again always flips the direction. |
| ExpenseList.Compare | project/components/expense-list.tsx:29-45 | The comparator is the difference of two ranks, so it is a consistent total preorder. It is 0 for every key other than date and amount. |
| ExpenseList.Insert | project/components/expense-list.tsx:29 | One insertion step of the stable sort adds exactly the inserted expense. |
| ExpenseList.Sort | project/components/expense-list.tsx:29 | The sorted copy holds exactly the expenses of the list, each as often as before. That it is ordered, and stable, is stated by the lemmas below. |
| ExpenseList.SortIsOrderedPermutation | project/components/expense-list.tsx:29-45 | The sorted copy is a permutation of the list, with no pair out of the comparator's order. |
| ExpenseList.SortStable | project/components/expense-list.tsx:29 | Expenses the comparator ties keep their input order. |
| ExpenseList.InitialOrderIsNewestFirst | project/components/expense-list.tsx:22-25 | The table opens with real dates newest first. |
| ExpenseList.SortByAmount | project/components/expense-list.tsx:38-42 | By amount, ascending gives non-decreasing amounts and descending gives non-increasing ones. |
| ExpenseList.SortByDate | project/components/expense-list.tsx:30-36 | By date, ascending puts real days in calendar order and descending in reverse. |
| ExpenseList.OtherKeyKeepsOrder | project/components/expense-list.tsx:44 | Any other key leaves the list exactly as it was. |
| ExpenseList.TieKeepsOrder | project/components/expense-list.tsx:29-45 | Two expenses the comparator ties stay in input order. |
| ExpenseList.DistinctAmountsReverse | project/components/expense-list.tsx:38-42 | With pairwise different amounts, descending is exactly the reverse of ascending. |
| ExpenseList.TiesAreNotReversed | project/components/expense-list.tsx:38-42 | With tied amounts, both directions keep the input order, so they are not mirror images. |
| ProfileEdit.TrimStart | project/components/profile-edit-dialog.tsx:85 | Only leading white space is dropped, and the rest starts visibly. |
| ProfileEdit.TrimEnd | project/components/profile-edit-dialog.tsx:85 | Only trailing white space is dropped, and the rest ends visibly. |
| ProfileEdit.Trim | project/components/profile-edit-dialog.tsx:85 | The result is empty exactly when the name is all white space. Otherwise it starts and ends visibly. |
| ProfileEdit.TrimPadded | project/components/profile-edit-dialog.tsx:85 | Trimming gives back a visibly bounded text from any white-space padding. |
| ProfileEdit.TrimIdempotent | project/components/profile-edit-dialog.tsx:85 | Trimming twice is trimming once. |
| ProfileEdit.Validate | project/components/profile-edit-dialog.tsx:50-54 | The form is accepted exactly when the name is non-empty, the type is one of the three literals, and the currency is non-empty. Accepted data displays as the input it came from. Otherwise every failing field, and only those, is reported. |
| ProfileEdit.ValidateRoundTrip | project/components/profile-edit-dialog.tsx:50-54 | Accepted data with a non-empty name and currency validates back to itself. |
| ProfileEdit.Defaults | project/components/profile-edit-dialog.tsx:71-75 | The form opens on the profile's own name and currency, and on the literal that reads back as its type. |
| ProfileEdit.DefaultsValidate | project/components/profile-edit-dialog.tsx:71-75 | The unchanged form is accepted exactly when the stored name and currency are non-empty, and it then holds the profile's name, type and currency. |
| ProfileEdit.Changes | project/components/profile-edit-dialog.tsx:84-88 | The update carries the trimmed name, the chosen type and the currency, and no timestamps. |
| ProfileEdit.OnSubmit | project/components/profile-edit-dialog.tsx:79-88 | Nothing is sent when the profile has no id or a save is under way. Otherwise the request names the profile's id and carries the trimmed name, the type and the currency, and no timestamps. |
| ProfileEdit.Submit | project/components/profile-edit-dialog.tsx:78-109 | A guarded-out submit changes nothing. A sent one clears the saving flag and closes the dialog exactly when the save succeeded. A failed save leaves the cached profiles and the active profile unchanged. |
| ProfileEdit.SubmitSavesForm | project/components/profile-edit-dialog.tsx:84-88 | After a successful save, the edited profile's cached entries hold the trimmed name, type and currency, and keep their id, owner and creation time. Other entries are untouched. |
| ProfileEdit.BlankNameIsSaved | project/components/profile-edit-dialog.tsx:50-88 | A name of white space alone passes the schema and is saved as the empty name. |

## Left out

- Document-store and authentication I/O (`lib/profileService.ts`, `lib/firebase.ts`, and the query, `addDoc`, `updateDoc` and `deleteDoc` plumbing): these are calls into libraries the model cannot see. Each call is a `Reply` input.
- ExpenseService.GetExpenses: returns the matching documents in stored order. The `orderBy(sortField, sortOrder)` the query asks for is the store's behaviour and is not modelled.
- Toasts, console logging, rendering and the dialog's open/close plumbing: these are view code. Only the observable outcome (dialog closed or not, error recorded or not) is kept.
- Asynchronous interleaving, such as a late load overwriting a newer one, or two overlapping saves: this is concurrency. The code has no guard, and each handler is modelled as one atomic step.
- The effects re-running: the expense effect runs when the active profile's id changes, and the session effect runs when the user or the active profile changes (contexts/ProfileContext.tsx:47 and 56). The model offers `ExpenseStore.Load` and `ProfileStore.SessionChanged` as the steps these effects take. When they run is React's scheduling.
- Time of day: a date is a whole calendar day. The interval test of the statistics card and the query's timestamp bounds are compared on days. `Timestamp` values are opaque integers whose identity is all the caches use.
- Two-digit years in `new Date(y, m, d)`, which JavaScript maps to 1900 to 1999: the model takes every year literally.
- ExpenseList.SortByDate: requires real calendar days. The comparator subtracts a day number (`year * 372 + month * 31 + day`) instead of milliseconds. Its sign agrees with `getTime` only on real days, and only the sign matters to the sort.
- ExpenseService.MonthlyTotalIsMonthSum: requires real calendar days for the same reason. It also compares whole days. The end bound `new Date(year, month + 1, 0)` is midnight at the start of the last day, so `where('date', '<=', end)` leaves out an expense on the last day timed after midnight. The model counts such an expense. The form that stores expense dates is not part of this model, so whether stored dates always fall at midnight is not known here.
- ExpenseService.CompareMonthly: amounts are exact integer cents. JavaScript sums `number`s in floating point, so totals can differ from the exact sums. For example, a previous month of 0.1 + 0.2 against a current month of 0.3 gives `difference > 0` and `hasSaved` true in JavaScript. The model gives `hasSaved` false for the same amounts.
- ExpenseStats.Average: states the average through multiplication (`average * count == total`) over exact reals. Floating-point rounding and the `toFixed` formatting of the card are not modelled.
- Grouping.GroupByFirstOccurrence: keys stand in first-occurrence order for every name. JavaScript's `Object.values` and `Object.entries` list integer-like keys first, in numeric order. This matters only for a category named like an array index, where it decides which of two tied categories wins the top spot (`ExpenseStats.TiedCategoryFirstSeenWins`, `ExpenseStats.TieGoesToFirstSeen`).
- ExpenseStats.CategorySums: for a name inherited from `Object.prototype` the record really holds a string in place of the sum, and for `__proto__` it holds no entry at all. The model keeps the numeric sum under such a name, and `ExpenseStats.TopCategory` passes over those entries. The top-category reduce is the only reader of the record, so the card shows the same in both.
- The counts of the category grouping: the card does not use them.
- `components/profile-wizard.tsx` and its three-field non-empty check: this is wizard UI, and the file is syntactically broken.
- `types/profile.ts`: it is a looser duplicate of `types/index.ts`, which the contexts import.
- Environment checks of the service configuration.
