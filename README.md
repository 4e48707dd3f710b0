# AutoLedger core, modelled in Dafny

AutoLedger is a single-page personal ledger. Transactions are typed in by hand or filled in by a Gemini model from a pasted text or a screenshot. The app shows totals, a pie chart of the categories, and a list grouped by day, month or year. A service worker keeps the app usable offline.

This project models the logic behind those screens, one Dafny module per source file:

| module | file | what it holds |
|---|---|---|
| `Types` | `types.ts` | the transaction type, the twelve categories and their string values, the record shapes; the filter-and-sum used for totals |
| `Gemini` | `services/geminiService.ts` | the request parts sent to the model, the empty-answer error, the stripping of a data URL down to its base64 payload |
| `AddTransaction` | `components/AddTransactionModal.tsx` | the two category lists, the reconciliation of an AI answer's category, and the form as a class whose methods are the component's handlers and effects |
| `Summary` | `components/SummaryList.tsx` | the period key of a date, the grouping loop (a method) against a reference grouping (a function), the newest-first order, and the income/expense ratio bar |
| `Stats` | `components/StatsChart.tsx` | the per-category totals of the pie chart, accumulated in a `Map` (a method) and proved equal to a reference definition |
| `Ledger` | `App.tsx` | the totals and balance, the expense filter, the three recent entries, the share-target text, and the app's store as a class |
| `ServiceWorker` | `sw.js` | the cache-first fetch handler with its storage rule and offline fallback, and the cache clean-up on activation |

`Wrappers`, `Seqs`, `Text` and `LexOrder` are supporting modules:

- `Wrappers`: `Option` and `Result`.
- `Seqs`: distinctness and first-seen deduplication.
- `Text`: digits, `split`, `startsWith`/`includes`, and ECMAScript `trim`.
- `LexOrder`: the code-unit order used for `localeCompare`, and an insertion sort.

State that the source updates in place is modelled as a Dafny `class` whose methods are proved against functions of the old state. This covers the form's `useState` fields, the app's transaction list and modal flags, and the worker's cache storage. Pure derivations are functions, and the promises made about them are lemmas.

Modelling decisions:

- The source's field `type` is called `kind`, because `type` is a Dafny keyword.
- Amounts are `real`.
- Every collection is a `seq` or a `map`.
- Three behaviours of the code that are easy to miss:
  - An AI answer's category is searched in the whole category enumeration, not in the answer's type list. An expense answer can therefore carry an income category (`AddTransaction.AnalysisCanMixTypes`).
  - The fallbacks differ. An unmatched category from an answer becomes `EXPENSE_OTHER` or `INCOME_OTHER`. A type switch falls back to `FOOD` or `SALARY`. A save always resets to `FOOD`, even for an income (`AddTransaction.SaveResetIgnoresType`).
  - The month key is `${getFullYear()}-${getMonth()}`: zero-based and unpadded. Under the descending `localeCompare` sort, "2024-9" (October) is listed before "2024-11" (December) (`Summary.OctoberBeforeDecember`).

## Model

| member | source | states |
|---|---|---|
| Types.CategoryEnumeration | types.ts:3-19 | exactly twelve categories, listed once each, every category is listed, and no two share a string value |
| Types.LabelInjective | types.ts:3-19 | equal string values mean equal categories |
| Types.TypeNames | types.ts:1 | a transaction type is "expense" or "income", and the two differ |
| Types.KindsSplit | copy-of-autoledger-ai/App.tsx:105-106 | the income and expense filters split a list: their sizes and their sums add up to the whole |
| Gemini.BuildParts | copy-of-autoledger-ai/services/geminiService.ts:46-59 | the instructions come first; the labelled text part is present iff the text is non-empty; an inline-data part (with the MIME type, default "image/jpeg") comes last iff there is an image payload; 1 to 3 parts |
| Gemini.AnswerText | copy-of-autoledger-ai/services/geminiService.ts:81-84 | an answer is accepted iff its text is present and non-empty, and then passed on unchanged; otherwise it fails with the empty-response error |
| Gemini.Base64Payload | copy-of-autoledger-ai/services/geminiService.ts:13 | `split(',')[1]` is undefined iff the string has no comma, and never contains a comma |
| Gemini.PayloadBetweenCommas | copy-of-autoledger-ai/services/geminiService.ts:13 | the payload is exactly the text between the first and the second comma (or the end) |
| Gemini.DataUrlRoundTrip | copy-of-autoledger-ai/services/geminiService.ts:13 | for a `data:<mime>;base64,<data>` URL with comma-free parts, the stripped payload is `<data>` |
| AddTransaction.CategoryPartition | copy-of-autoledger-ai/components/AddTransactionModal.tsx:13-21 | 8 expense and 4 income categories, each list without repeats, disjoint, together the whole enumeration |
| AddTransaction.TypeEffect | copy-of-autoledger-ai/components/AddTransactionModal.tsx:78-84 | after the effect the category is in the type's list, and it is unchanged iff it already was |
| AddTransaction.FindIn | copy-of-autoledger-ai/components/AddTransactionModal.tsx:140 | `find` returns a listed category with exactly the given value, and nothing iff no listed category has it |
| AddTransaction.Reconcile | copy-of-autoledger-ai/components/AddTransactionModal.tsx:140-145 | an answer whose category string is the label of some category gets a category with exactly that label; an answer naming no category gets its own type's 'other' category (`EXPENSE_OTHER` or `INCOME_OTHER`) |
| AddTransaction.ReconcileExact | copy-of-autoledger-ai/components/AddTransactionModal.tsx:140-142 | an answer carrying any category's value gets that category, whatever the answer's type |
| AddTransaction.ReconcileUnmatched | copy-of-autoledger-ai/components/AddTransactionModal.tsx:143-145 | an unknown value gets the answer type's "other" category, which is in that type's list |
| AddTransaction.ReconcileAcrossTypes | copy-of-autoledger-ai/components/AddTransactionModal.tsx:140-145 | an expense answer with the salary value reconciles to SALARY, which is not an expense category |
| AddTransaction.TypeSwitchCategory | copy-of-autoledger-ai/components/AddTransactionModal.tsx:78-84 | switching to another type keeps a category valid for it and otherwise picks FOOD/SALARY; the result is always in the new type's list |
| AddTransaction.SameTypeKeepsCategory | copy-of-autoledger-ai/components/AddTransactionModal.tsx:84 | pressing the current type's button changes nothing (the effect depends on `type` only) |
| AddTransaction.FailedAnalysisKeepsForm | copy-of-autoledger-ai/components/AddTransactionModal.tsx:153-157 | a failed analysis leaves every field as it was except that the analysis stops |
| AddTransaction.SuccessfulAnalysisFields | copy-of-autoledger-ai/components/AddTransactionModal.tsx:135-157 | a successful answer sets type, amount text, merchant, the date only when one is given, and opens the manual tab; text box and image are kept; the analysis stops |
| AddTransaction.AnalysisCategory | copy-of-autoledger-ai/components/AddTransactionModal.tsx:78-145 | with an unchanged type the reconciled category stays; with a changed type the effect runs and the category lands in the new type's list |
| AddTransaction.AnalysisCanMixTypes | copy-of-autoledger-ai/components/AddTransactionModal.tsx:136-145 | an expense form given an expense answer with the salary value ends as an expense filed under SALARY |
| AddTransaction.SaveResetIgnoresType | copy-of-autoledger-ai/components/AddTransactionModal.tsx:178-185 | after saving an income the type stays income while the category is reset to FOOD, outside the income list |
| AddTransaction.SavedDisablesAnalysis | copy-of-autoledger-ai/components/AddTransactionModal.tsx:178-185 | after a save the text box and image are cleared, so analysis is disabled, and an empty amount blocks a second save |
| AddTransaction.Form.constructor | copy-of-autoledger-ai/components/AddTransactionModal.tsx:24-37 | the `useState` defaults: expense, FOOD, empty fields, today's date, AI tab unless offline |
| AddTransaction.Form.RunTypeEffect | copy-of-autoledger-ai/components/AddTransactionModal.tsx:78-84 | the category becomes `TypeEffect` of the type and the old category; nothing else changes |
| AddTransaction.Form.ChangeType | copy-of-autoledger-ai/components/AddTransactionModal.tsx:320-336 | the new state is `setType` followed by the effect when the type changed |
| AddTransaction.Form.ReceiveInitialText | copy-of-autoledger-ai/components/AddTransactionModal.tsx:68-75 | an open form copies a non-empty initial text into the text box; otherwise nothing changes |
| AddTransaction.Form.SelectImage | copy-of-autoledger-ai/components/AddTransactionModal.tsx:88-96 | the picked file becomes the selected image; nothing else changes |
| AddTransaction.Form.ShowTab | copy-of-autoledger-ai/components/AddTransactionModal.tsx:203-220 | the manual tab always opens; the AI tab opens only when online |
| AddTransaction.Form.PickCategory | copy-of-autoledger-ai/components/AddTransactionModal.tsx:375-378 | a category from the current type's list is set as picked |
| AddTransaction.Form.PasteFromClipboard | copy-of-autoledger-ai/components/AddTransactionModal.tsx:98-115 | a non-empty clipboard text fills the text box and starts an analysis of that text alone; an empty or unreadable clipboard changes nothing |
| AddTransaction.Form.StartAnalysis | copy-of-autoledger-ai/components/AddTransactionModal.tsx:117-133 | offline: no call, no change; online: the analysis starts and the call carries the text, the image's base64 payload and the image's own MIME type; online, the analyse button (`AnalyzeEnabled`, line 294) is then disabled |
| AddTransaction.Form.AnalyzeSelected | copy-of-autoledger-ai/components/AddTransactionModal.tsx:160-163 | analyses the text box and the selected image |
| AddTransaction.Form.ApplyResult | copy-of-autoledger-ai/components/AddTransactionModal.tsx:135-152 | the answer's type, amount text, merchant, the found category and the given date go into the form, which switches to the manual tab |
| AddTransaction.Form.FinishAnalysis | copy-of-autoledger-ai/components/AddTransactionModal.tsx:133-157 | the new state is `Finished` of the old one: filled on success, kept on failure, analysis stopped, effect run on a type change |
| AddTransaction.Form.Save | copy-of-autoledger-ai/components/AddTransactionModal.tsx:165-187 | without amount or merchant nothing is submitted, nothing changes and the form stays open; otherwise the form's values are submitted, the fields reset and the form asks to be closed (`onClose`) |
| Summary.DayKey | copy-of-autoledger-ai/components/SummaryList.tsx:29-30 | the day key is the date string itself |
| Summary.YearKeyOfWellFormed | copy-of-autoledger-ai/components/SummaryList.tsx:35-36 | the year key of a YYYY-MM-DD date with a non-zero first digit is its first four characters |
| Summary.CalendarDays | copy-of-autoledger-ai/components/SummaryList.tsx:25 | a date is recognised only if it names a real calendar day: 2024-02-29 is, while 2023-02-29 and 2024-02-30 are not |
| Summary.MonthKeysUnpadded | copy-of-autoledger-ai/components/SummaryList.tsx:33 | October 2024 keys as "2024-9", December as "2024-11", and the December key sorts below the October key |
| Summary.Aggregate | copy-of-autoledger-ai/components/SummaryList.tsx:21-55 | the reference grouping: one group per distinct key, in descending key order, each holding that key's transactions |
| Summary.GroupFromAppend | copy-of-autoledger-ai/components/SummaryList.tsx:40-50 | a transaction appended to a run gives the group created on first sight, or the existing one, with the amount added to income or expense |
| Summary.GroupOfSnoc | copy-of-autoledger-ai/components/SummaryList.tsx:40-50 | one more transaction changes only its own key's group, exactly as the loop body does |
| Summary.TableSnoc | copy-of-autoledger-ai/components/SummaryList.tsx:24-51 | one loop step keeps the invariant: keys in creation order, and each entry the group of its key so far |
| Summary.BuildTable | copy-of-autoledger-ai/components/SummaryList.tsx:24-51 | the `forEach` ends with every key in the table, in creation order, each mapped to its reference group |
| Summary.TableFinal | copy-of-autoledger-ai/components/SummaryList.tsx:54 | reading the finished table in sorted key order gives the reference groups |
| Summary.GroupBy | copy-of-autoledger-ai/components/SummaryList.tsx:21-55 | the memo's result equals the reference grouping |
| Summary.GroupTransactions | copy-of-autoledger-ai/components/SummaryList.tsx:21-55 | the list for a period is the reference grouping under that period's keys and titles |
| Summary.GroupKeysAre | copy-of-autoledger-ai/components/SummaryList.tsx:40-42 | groups are created once per key, for every transaction's key, and for no other key |
| Summary.SortedKeysAre | copy-of-autoledger-ai/components/SummaryList.tsx:54 | the sorted keys are descending, distinct, and exactly the transactions' keys |
| Summary.AggregateDescending | copy-of-autoledger-ai/components/SummaryList.tsx:53-54 | groups come in strictly descending key order |
| Summary.AggregateOrderByKey | copy-of-autoledger-ai/components/SummaryList.tsx:54 | of two groups, the one with the greater key is listed first |
| Summary.AggregateHasKey | copy-of-autoledger-ai/components/SummaryList.tsx:40-41 | every transaction's key has a group |
| Summary.AggregateKeyMet | copy-of-autoledger-ai/components/SummaryList.tsx:40-41 | every group's key belongs to some transaction |
| Summary.AggregatePartition | copy-of-autoledger-ai/components/SummaryList.tsx:40-50 | each transaction is in exactly one group, the one of its key |
| Summary.MembersAre | copy-of-autoledger-ai/components/SummaryList.tsx:50 | a group holds exactly the transactions of its key |
| Summary.GroupTotals | copy-of-autoledger-ai/components/SummaryList.tsx:44-48 | a group's income total sums its income transactions, its expense total all the others; together they sum the group |
| Summary.GroupTitleFromFirst | copy-of-autoledger-ai/components/SummaryList.tsx:40-42 | a group is non-empty, starts with the first transaction of its key, and is titled after it |
| Summary.AggregateCount | copy-of-autoledger-ai/components/SummaryList.tsx:50 | the group sizes add up to the number of transactions |
| Summary.AggregateTotals | copy-of-autoledger-ai/components/SummaryList.tsx:44-48 | the groups' income totals add up to all income, and their expense totals to all expense |
| Summary.AggregateEmpty | copy-of-autoledger-ai/components/SummaryList.tsx:21-63 | there are no groups iff there are no transactions (the empty state) |
| Summary.OctoberBeforeDecember | copy-of-autoledger-ai/components/SummaryList.tsx:33-54 | in the month list, the October 2024 group precedes the December 2024 group |
| Summary.ShareBounds | copy-of-autoledger-ai/components/SummaryList.tsx:116-120 | for non-negative totals both bar widths are in [0, 1), sum below 1, and are 0 for an empty group |
| LexOrder.SortDescending | copy-of-autoledger-ai/components/SummaryList.tsx:54 | `sort((a, b) => b.localeCompare(a))` of distinct keys: a permutation in descending order |
| LexOrder.BelowTotal | copy-of-autoledger-ai/components/SummaryList.tsx:54 | the comparison orders any two distinct keys |
| LexOrder.BelowTransitive | copy-of-autoledger-ai/components/SummaryList.tsx:54 | the comparison is transitive |
| Stats.Put | components/StatsChart.tsx:14-17 | one `map.set` adds the amount to its category's total and appends a new category to the key order |
| Stats.TotalsSnoc | components/StatsChart.tsx:14-17 | one callback keeps the invariant: keys in insertion order, each value its category's total so far |
| Stats.Accumulate | components/StatsChart.tsx:13-17 | the finished map holds, in first-seen order, every category met, each with its summed amount |
| Stats.Entries | components/StatsChart.tsx:19 | the entries come out in key order as `{ name, value }` pairs |
| Stats.EntriesAreSlices | components/StatsChart.tsx:19 | the finished map's entries are the reference slices |
| Stats.ChartData | components/StatsChart.tsx:12-20 | the chart data equals the reference: one slice per category in first-seen order, worth its total |
| Stats.SlicesFor | components/StatsChart.tsx:12-20 | the reference slice of each name is its category's summed amount |
| Stats.SliceNamesDistinct | components/StatsChart.tsx:13-19 | no category has two slices |
| Stats.SliceForEveryCategory | components/StatsChart.tsx:14-16 | every transaction's category has a slice |
| Stats.SliceCategoryMet | components/StatsChart.tsx:14-16 | every slice's category is carried by some transaction |
| Stats.SliceValue | components/StatsChart.tsx:15-16 | a slice's value sums exactly the transactions of its category |
| Stats.SlicesFirstSeenOrder | components/StatsChart.tsx:13-19 | slices follow the order in which their categories first appear |
| Stats.SlicesTotal | components/StatsChart.tsx:14-19 | the slices add up to the sum of all amounts |
| Stats.SlicesEmpty | components/StatsChart.tsx:22-28 | there are no slices iff there are no transactions |
| Ledger.BalanceIsSignedSum | copy-of-autoledger-ai/App.tsx:105-107 | the balance is the sum of amounts with incomes counted positive and expenses negative |
| Ledger.ExpenseTransactionsAre | copy-of-autoledger-ai/App.tsx:110 | the chart's input holds exactly the expense transactions |
| Ledger.ExpenseTransactionsOrder | copy-of-autoledger-ai/App.tsx:110 | the filter keeps the list's order |
| Ledger.ChartMatchesExpenseTotal | copy-of-autoledger-ai/App.tsx:105-110 | the pie chart's slices add up to the total expense shown |
| Ledger.Recent | copy-of-autoledger-ai/App.tsx:235 | the first three transactions, or all when there are fewer |
| Ledger.Added | copy-of-autoledger-ai/App.tsx:78-84 | the new record goes in front and the old list follows unchanged |
| Ledger.AddedRecord | copy-of-autoledger-ai/App.tsx:78-82 | the new record has the given id and every field of the submitted data |
| Ledger.AddedKeepsIdsUnique | copy-of-autoledger-ai/App.tsx:79-80 | with a fresh id, ids stay unique |
| Ledger.AddedTotals | copy-of-autoledger-ai/App.tsx:105-107 | adding a record adds its amount to its type's total and moves the balance by it |
| Ledger.RecentAfterAdds | copy-of-autoledger-ai/App.tsx:235 | after three additions the recent list shows them newest first |
| Ledger.ShareText | copy-of-autoledger-ai/App.tsx:58-62 | the combined text starts and ends with a non-space character (or is empty) |
| Ledger.SharedText | copy-of-autoledger-ai/App.tsx:53-64 | a shared text is only taken on a share-target launch and is never empty |
| Ledger.ShareTextEmpty | copy-of-autoledger-ai/App.tsx:62-64 | the combined text is empty iff title, text and url are all white space |
| Ledger.ShareTextOnlyText | copy-of-autoledger-ai/App.tsx:58-62 | with only a text parameter the combined text is that text trimmed |
| Ledger.ShareTextJoined | copy-of-autoledger-ai/App.tsx:62 | title, text and url are joined by single spaces when the ends are not white space |
| Ledger.App.constructor | copy-of-autoledger-ai/App.tsx:14-17 | an empty list, modal closed, empty initial text |
| Ledger.App.AddTransaction | copy-of-autoledger-ai/App.tsx:78-84 | the list becomes `Added` of the old list; the modal state is kept |
| Ledger.App.ImportData | copy-of-autoledger-ai/App.tsx:92-96 | the imported list replaces the old one |
| Ledger.App.ClearData | copy-of-autoledger-ai/App.tsx:98-102 | the list is emptied, so all totals and the balance are 0 |
| Ledger.App.OpenModal | copy-of-autoledger-ai/App.tsx:86-90 | the form opens with an empty initial text |
| Ledger.App.CloseModal | copy-of-autoledger-ai/App.tsx:282 | the form closes; the rest is kept |
| Ledger.App.ReceiveShare | copy-of-autoledger-ai/App.tsx:53-71 | a share-target launch with a non-empty combined text opens the form with that text; otherwise nothing changes |
| Text.Trim | copy-of-autoledger-ai/App.tsx:62 | `trim()` leaves the slice between the leading and trailing white space, with non-space ends; empty iff all white space |
| Text.TrimPadded | copy-of-autoledger-ai/App.tsx:62 | one extra space on each side does not change the trimmed text |
| ServiceWorker.Respond | copy-of-autoledger-ai/sw.js:29-62 | a fetch can only add the request's own URL to the cache and never drops or alters an entry |
| ServiceWorker.Opened | copy-of-autoledger-ai/sw.js:30 | `caches.open` yields the named cache, created empty when missing, and leaves the other caches alone |
| ServiceWorker.CacheHit | copy-of-autoledger-ai/sw.js:32-35 | a cached URL is served from the cache, without the network and without changing the cache |
| ServiceWorker.CacheMissDelivered | copy-of-autoledger-ai/sw.js:38-53 | on a miss the network's response is returned and is stored iff it is a 200 for the own origin or one of the three CDN hosts |
| ServiceWorker.CacheMissOffline | copy-of-autoledger-ai/sw.js:54-60 | offline, a navigation gets the cached `./index.html` (or nothing) and any other request fails; the cache is kept |
| ServiceWorker.RespondKeepsOnlyStorable | copy-of-autoledger-ai/sw.js:42-50 | the cache only ever holds 200 responses to http URLs worth keeping |
| ServiceWorker.StoredThenServed | copy-of-autoledger-ai/sw.js:32-49 | once stored, the same request is served from the cache whatever the network does |
| ServiceWorker.Worker.constructor | copy-of-autoledger-ai/sw.js:1 | the worker starts on the existing caches |
| ServiceWorker.Worker.Fetch | copy-of-autoledger-ai/sw.js:22-64 | non-GET and non-http requests are not handled and change nothing; otherwise the reply and the new storage are `Respond` on the opened cache |
| ServiceWorker.Worker.Activate | copy-of-autoledger-ai/sw.js:7-20 | every cache but `autoledger-dynamic-v1` is deleted, and that one is kept as it is |

## Left out

- Rendering (JSX, class names, icons, animations), the haptic `vibrate` calls, `alert` messages and the text inputs' plain `onChange` setters.
- `Summary.WellFormedDate`: only `YYYY-MM-DD` strings naming a real calendar day (leap years included) are read as dates; every other string gets the year key "NaN" and the month key "NaN-NaN", as an invalid `Date` does. The JavaScript engine reads more than that: its fallback parser accepts forms such as "2024-1-5" or "2024/01/05", and an overflowing day such as "2024-02-30" rolls into the next month (month key "2024-2"). The model gives these strings the "NaN" and "NaN-NaN" keys. The date picker only produces real calendar days; other strings can arrive from an AI answer or an imported file.
- `Summary.Aggregate`, `Summary.BuildTable`: the groups are modelled as a map from key to group. The code uses a plain object (`const groups = {}`), whose lookup `groups[key]` also finds inherited `Object.prototype` members. A day key equal to one of their names ("constructor", "toString", "valueOf", "hasOwnProperty", "__proto__" and the like) therefore finds a truthy value, creates no group, and the `push` at components/SummaryList.tsx:50 throws a TypeError, so the list does not render. The model makes an ordinary group for such a key. Only free-text dates from an AI answer or an imported file can produce these keys.
- Time zones are not modelled. The keys are those of a UTC or positive-offset clock.
- The day and month titles (`toLocaleDateString` with `zh-CN`) are a parameter (`localeTitle`). Only the year title "{year}年" is modelled.
- `LexOrder.Below`: `localeCompare` is modelled as code-unit order. Year and month keys are made of digits, "-" and "NaN", and on those the two orders agree. Day keys are the raw date strings. For strings outside that alphabet, such as letters of mixed case or other punctuation, the locale order can differ from the model's.
- Amounts are `real`, not IEEE doubles. Float rounding and `toFixed(2)` formatting are not modelled.
- `Summary.Share`: amounts may be negative, because the amount field has no minimum, the save guard only rejects an empty amount, and imported data is not checked. So a group whose income and expense add up to -0.001 is possible. For it the code divides by zero and renders a NaN or infinite bar width. `Share` requires a non-zero denominator and does not model that case. `Summary.ShareBounds` is stated for non-negative totals only.
- `Number.prototype.toString` and `parseFloat` are parameters of the form (`numberText`, `parseNumber`).
- The Gemini SDK call, `JSON.parse` of the answer and the schema's enforcement are not modelled. The answer arrives as a `Result` of an already-parsed `AnalysisResult`.
- The prompt's wording is a parameter of `BuildParts`.
- `FileReader` is not modelled. An image is given as its MIME type and data URL.
- `navigator.clipboard` is not modelled; its result is a parameter.
- Connectivity is fixed when the form is created (`isOffline`). The `online`/`offline` listeners of the form and of the app are not modelled.
- `localStorage` loading and saving, `window.history.replaceState`, the view and period switches, and the backup modal (`components/DataBackupModal.tsx`) are not modelled.
- `uuidv4` is a parameter (`id`). Uniqueness of ids is proved under the assumption that the given id is fresh (`Ledger.AddedKeepsIdsUnique`).
- React's scheduling is not modelled. A handler's `setState` calls take effect together when it returns, and the effect on `[type]` runs after a handler only when `type` changed.
- The asynchronous steps of `analyzeWithData` are split at the `await` into `StartAnalysis` and `FinishAnalysis`. Interleavings of two analyses are not modelled.
- Service worker: `install`/`skipWaiting`, `clients.claim`, `waitUntil`, and the asynchronous, unordered completion of `cache.put` and `caches.delete` are not modelled.
- Service worker: `caches.keys()` is taken as a set, so deletion order is not modelled.
- Service worker: a response's body and `clone()` are carried along unchanged.
- Service worker: the network is a parameter of each fetch (`Delivered` or `Unreachable`).
- `ServiceWorker.Respond` does not model `cache.match` ignoring URL fragments or `Vary` headers; cache entries are keyed by the exact URL.
