# WalleTracker core in Dafny

WalleTracker is a personal-finance tracker driven by a Telegram bot. Bank and
e-wallet receipt e-mails are posted to an `email-ingest` function. It
authenticates the request, drops duplicates, stores the raw e-mail, parses
amount, direction, merchant and source of funds from the text, and stores a
pending transaction. The bot lets the user:

- confirm, reject or categorise pending transactions;
- enter transactions by hand through a small state machine stored in `bot_sessions`;
- read monthly, daily and per-period reports;
- recalculate the actual totals of the budget summary table.

This project models that core and proves properties of the model:

| file | module | models |
|---|---|---|
| `common.dfy` | `Common` | the JavaScript string operations the core relies on: `\s`, `trim`, `toLowerCase`, `includes`, `split`/`join`, the digit filter, `parseInt`, template-literal numbers, `.single()` |
| `keyboard.dfy` | `Keyboard` | inline keyboards and the row-of-two loop that five pickers share |
| `email_text.dfy` | `EmailText` | `cleanText` |
| `email_parser.dfy` | `EmailParser` | `parseEmail`: the amount regex, direction keywords, merchant, source keywords, rules and evidence |
| `email_ingest.dfy` | `EmailIngest` | the `serve` handler as a class over the `raw_emails`, `source_of_funds` and `transactions` tables |
| `js_object.dfy` | `JsObject` | the inherited names of a plain object and the key order of `Object.values` |
| `reporting.dfy` | `Reporting` | the reports and `recalculateAllSummaries` over the transaction, budget and summary tables |
| `bot_logic.dfy` | `BotLogic` | sessions, commands, state input, callbacks, the transaction list and the category keyboards |
| `ingest_helpers.dfy` | `IngestHelpers` | the three ingest pickers and `processIngestedTransaction` |
| `db_compatibility.dfy` | `DbCompatibility` | the new-schema/legacy-schema fallbacks and the category update payload |

Store tables are `seq` fields of classes: `IngestStore`, `SummaryTable`,
`BotStore` and `IngestQueue`. A query is a filter function over the rows.
The environment is made of parameters:

- the rows a query returns;
- the ids and timestamps the database or the clock would supply;
- whether a write fails, together with its error message.

Telegram messages are returned as values (`Reply`, `Outcome`, `Listing`) instead of being sent.

Notes on how the code was read:

- `rules_triggered` is built by three conditional pushes. `RuleTrail` states the list those pushes produce.
- The subject clean-up removes the first case-insensitive `"receipt from "` anywhere in the subject, not only a leading one. `RemoveFirstIgnoringCase` models that. `ReceiptPrefixStripped` states the prefix case.
- The source keywords are tried in list order (`OVO`, `GoPay`, `Dana`, `BCA`, ...). A text that names both Dana and BCA therefore yields `Dana`.
- A failing Telegram notification is awaited inside the handler's `try`. So it turns the response into a 500, although the pending transaction is already stored. `Serve` states that outcome.
- `recalculateAllSummaries` returns only `count` (or `error`), and its caller prints two more fields that do not exist.
- `categoryStats` in `getMonthlyReport` is a plain object. A category named like a property of `Object.prototype` (`constructor`, `toString`, ...) finds that inherited member, which is truthy, so it never gets a stat and is missing from the totals. `Object.values` lists keys that are array indices (such as "2024") first, in ascending numeric order, then the others in insertion order. The `JsObject` module models both, and `GetMonthlyReport` states its result in those terms.
- `getMonthlyReport`'s `totalSpent` and `getPeriodStats`' `totalExpense` agree only while no category is named like an inherited member: a debit under `constructor` counts in the second and not in the first (`InheritedExpenseDiverges`).
- The fund lookup uses `.single()`, which yields a fund only when exactly one matches. Once two funds share a name up to case ("BCA" and "bca"), every later e-mail naming that source creates yet another fund (`AmbiguousNameCreatesFund`). `CreatedFundIsFound` covers only a source with no match at all.
- `Lower` maps A-Z and the Kelvin sign U+212A to ASCII lower case and leaves every other character as it is. Outside A-Z, only U+0130 (which lower-cases to "i" followed by U+0307) and U+212A lower-case to ASCII. No keyword the source compares (the direction keywords at index.ts:205-206, `"receipt from "`, `"today"`) ends in 'i' or contains U+0307, so each containment or equality test under `Lower` agrees with one under the full `toLowerCase`.
- A session inserted by `handleMessage` carries no context. The model takes it as the empty context (the column default is not part of this model).

## Model

| member | source | states |
|---|---|---|
| Common.Single | src/lib/botLogic.ts:30-35 | `.single()` yields a row exactly when the query matched exactly one, and then that row |
| Common.TrimStart | supabase/functions/email-ingest/index.ts:264 | the result is the suffix after the leading white space and starts with a non-space |
| Common.TrimEnd | supabase/functions/email-ingest/index.ts:264 | the result is the prefix before the trailing white space and ends with a non-space |
| Common.LowerIdempotent | supabase/functions/email-ingest/index.ts:208-209 | lower-casing text that is already lower-cased changes nothing |
| Common.FirstIndex | supabase/functions/email-ingest/index.ts:222 | the index found is an occurrence, no earlier occurrence exists, and none means no occurrence at all |
| Common.ContainsIffFound | supabase/functions/email-ingest/index.ts:211 | `includes` holds exactly when a first occurrence is found |
| Common.DigitsOf | supabase/functions/email-ingest/index.ts:197 | `replace(/[^0-9]/g, "")` keeps only digits, and is empty exactly when the text has no digit |
| Common.DigitsOfChar | supabase/functions/email-ingest/index.ts:197 | a single character is kept exactly when it is a digit |
| Common.DigitsOfConcat | supabase/functions/email-ingest/index.ts:197 | the digits of a concatenation are the digits of each part, in order, so with `DigitsOfChar` the filter is fixed character by character |
| Common.ParseIntOfDigits | supabase/functions/email-ingest/index.ts:198 | `parseInt` of a digit string is NaN exactly for "" and otherwise its decimal value |
| Common.NatToString | src/lib/botLogic.ts:286-287 | a number prints as a non-empty digit string that reads back as the number |
| Common.ParseIntToString | src/lib/botLogic.ts:320 | `parseInt` reads back every integer a template literal printed |
| Common.Split | src/lib/botLogic.ts:300 | `split` yields at least one part and no part contains the separator |
| Common.JoinSplit | src/lib/botLogic.ts:300 | joining the parts of a split gives the original text |
| Common.SplitJoin | src/lib/botLogic.ts:300 | splitting a join of separator-free parts gives the parts back |
| Common.JoinSnoc | src/lib/botLogic.ts:300 | joining one more part appends the separator and that part |
| Common.SplitHead | src/lib/ingestHelpers.ts:107 | `split('T')[0]` is the text before the first 'T': a 'T'-free prefix followed by a 'T' or the end, and the whole text when it has no 'T' |
| Keyboard.ChunkPairs | src/lib/botLogic.ts:419-428 | every item once, in order, in rows of two with at most the last row short |
| Keyboard.ChoiceRoute | src/lib/botLogic.ts:421-422 | a picker button shows its choice's name, and its data splits into the prefix's parts followed by the choice's id |
| EmailText.StripTags | supabase/functions/email-ingest/index.ts:262 | no '<' remains after tags are replaced |
| EmailText.CollapseShape | supabase/functions/email-ingest/index.ts:264 | after collapsing, every white-space run is one blank and no '<' is introduced |
| EmailText.CleanText | supabase/functions/email-ingest/index.ts:259-266 | the result has no '<', no double or non-blank white space, and no leading or trailing white space |
| EmailText.NormalizedIsFixed | supabase/functions/email-ingest/index.ts:259-266 | an already clean text is returned unchanged |
| EmailText.CleanTextIdempotent | supabase/functions/email-ingest/index.ts:259-266 | cleaning twice equals cleaning once |
| EmailParser.MarkerLength | supabase/functions/email-ingest/index.ts:192 | a case-insensitive `Rp` or `IDR` marker is 2 or 3 characters long and fits in the text |
| EmailParser.RunEndMaximal | supabase/functions/email-ingest/index.ts:192 | `[0-9.,]+` is greedy: the run ends at the text's end or at another character |
| EmailParser.MatchAt | supabase/functions/email-ingest/index.ts:192 | a match starts with a marker and captures a non-empty group after it |
| EmailParser.FindAmountLeftmost | supabase/functions/email-ingest/index.ts:193 | `match` reports the leftmost match, and none means no position matches |
| EmailParser.MatchedRun | supabase/functions/email-ingest/index.ts:192-195 | the captured group is a maximal run of digits, dots and commas |
| EmailParser.AmountCases | supabase/functions/email-ingest/index.ts:189-201 | no match gives 0; a match gives NaN when its group has no digit and otherwise the number of its digits |
| EmailParser.ExtractAmount | supabase/functions/email-ingest/index.ts:189-201 | the amount, and an amount line exactly when the regex matched, equal to the whole match |
| EmailParser.AmountWithSeparator | supabase/functions/email-ingest/index.ts:190 | "Rp 35.000" reads as 35000 |
| EmailParser.AmountSeparatorsOnly | supabase/functions/email-ingest/index.ts:197-198 | a marker followed only by separators gives NaN |
| EmailParser.RemoveFirstIgnoringCase | supabase/functions/email-ingest/index.ts:223 | text without a case-insensitive occurrence is unchanged; otherwise the text is the result with the first occurrence put back at its index, and no occurrence starts earlier |
| EmailParser.ReceiptPrefixStripped | supabase/functions/email-ingest/index.ts:221-224 | a subject starting with "receipt from " loses exactly that prefix |
| EmailParser.ExtractMerchant | supabase/functions/email-ingest/index.ts:220-229 | the last matching sender domain wins; with none, the cleaned subject or "Unknown Merchant" |
| EmailParser.FirstListedSpec | supabase/functions/email-ingest/index.ts:233-241 | the source is the earliest listed keyword in the content, and none exactly when no keyword occurs |
| EmailParser.FirstSourceKeyword | supabase/functions/email-ingest/index.ts:232-241 | the loop with `break` returns the first listed keyword contained in the content |
| EmailParser.RuleTrail | supabase/functions/email-ingest/index.ts:185-241 | rules in amount, direction, source order, each at most once, each exactly when it fired, debit only without credit |
| EmailParser.AmountLine | supabase/functions/email-ingest/index.ts:199 | the evidence line exists exactly when the regex matched |
| EmailParser.ParseEmail | supabase/functions/email-ingest/index.ts:180-257 | amount, confidence 0.8 exactly for a positive amount, credit exactly when a credit keyword occurs, merchant, source, note, rules and evidence |
| EmailIngest.WithMessageIdEmpty | supabase/functions/email-ingest/index.ts:45-49 | the dedup query finds nothing exactly when no stored e-mail has the message id |
| EmailIngest.FirstTxOf | supabase/functions/email-ingest/index.ts:56 | `transactions?.[0]?.id` is the first transaction referring to the e-mail, and none when none refers to it |
| EmailIngest.FundsNamed | supabase/functions/email-ingest/index.ts:95-99 | `ilike` selects only funds of the table whose name equals the source ignoring case, at most as many as the table holds |
| EmailIngest.FundsNamedMembers | supabase/functions/email-ingest/index.ts:95-99 | a fund is selected exactly when it is in the table and its name equals the source ignoring case |
| EmailIngest.FundsNamedAppend | supabase/functions/email-ingest/index.ts:95-99 | the selection of a concatenation is the concatenation of the selections, so order and repeats are kept |
| EmailIngest.FundsNamedOne | supabase/functions/email-ingest/index.ts:95-99 | a one-fund table is selected exactly when the name matches ignoring case |
| EmailIngest.ResolvedFundId | supabase/functions/email-ingest/index.ts:93-115 | no source: none; exactly one fund matching the source ignoring case: its id; none or several: the new id when the insert succeeds and none when it fails |
| EmailIngest.AmbiguousNameCreatesFund | supabase/functions/email-ingest/index.ts:95-113 | with two or more funds matching the source, the lookup finds none, so a successful insert adds one more fund of that name |
| EmailIngest.ResolvedFundExists | supabase/functions/email-ingest/index.ts:93-115 | a resolved id belongs to a fund of the table after resolution whose name equals the source ignoring case |
| EmailIngest.IngestStore.ResolveFund | supabase/functions/email-ingest/index.ts:93-115 | the lookup-or-create sequence and the funds table after it |
| EmailIngest.IngestStore.Serve | supabase/functions/email-ingest/index.ts:9-176 | OPTIONS, 401, duplicate, raw-insert error, transaction error and notification error each with their response and store, and the pending transaction stored otherwise |
| EmailIngest.StoredIsDuplicate | supabase/functions/email-ingest/index.ts:45-64 | an e-mail stored once is found as a duplicate next time, with its transaction |
| EmailIngest.NewIdIsNotDuplicate | supabase/functions/email-ingest/index.ts:45-51 | an unseen message id is not a duplicate |
| EmailIngest.CreatedFundIsFound | supabase/functions/email-ingest/index.ts:104-114 | a created fund is found by the next lookup and is not created twice |
| EmailIngest.ResolutionGrowsByAtMostOne | supabase/functions/email-ingest/index.ts:92-115 | resolving a source adds at most one fund row |
| JsObject.KeyOrderPermutes | src/lib/reporting.ts:58 | `Object.values` visits every own key, and each exactly once |
| JsObject.KeyOrderShape | src/lib/reporting.ts:58 | the array-index keys come first, in ascending numeric order, then the other keys in insertion order |
| JsObject.KeyOrderWithoutIndices | src/lib/reporting.ts:58 | without array-index keys the insertion order is kept |
| JsObject.KeyOrderExample | src/lib/reporting.ts:58 | categories inserted as "Food", "2024", "10" are listed as "10", "2024", "Food" |
| JsObject.SortIndicesProps | src/lib/reporting.ts:58 | the index keys are rearranged, not changed: same length, same keys, ascending, still distinct |
| Reporting.FilterMembers | src/lib/reporting.ts:18-21 | exactly the completed debits inside the month |
| Reporting.FilterAppend | src/lib/reporting.ts:18-21 | filtering keeps the rows in order: the filter of a concatenation is the concatenation of the filters |
| Reporting.FilterOne | src/lib/reporting.ts:18-21 | a single row is kept exactly when it is a completed debit inside the range |
| Reporting.MonthlySpentIsPeriodExpense | src/lib/reporting.ts:18-21 | the expense query's sum over a range, before rows under inherited names are dropped, equals the debit total that `ActualFor` (and so `GetPeriodStats`) gives for it |
| Reporting.MonthlyTotalIsPeriodExpense | src/lib/reporting.ts:39-59 | when no expense of the range has an inherited category name, the monthly `totalSpent` equals the period statistics' debit total |
| Reporting.InheritedExpenseDiverges | src/lib/reporting.ts:39-59 | a completed debit of 10 under `constructor` gives a monthly total of 0 but a period debit total of 10 |
| Reporting.OwnMembers | src/lib/reporting.ts:40-44 | a row reaches an own stat exactly when its category name is not one that `Object.prototype` defines |
| Reporting.OwnOfPlainNames | src/lib/reporting.ts:40-44 | without such names every row reaches its stat, in order |
| Reporting.OwnDropsInherited | src/lib/reporting.ts:40-44 | an expense under the category `constructor` reaches no stat |
| Reporting.ExpenseOwnStep | src/lib/reporting.ts:39-45 | one expense under an inherited name changes nothing; any other is tallied and keeps the keys free of inherited names |
| Reporting.BudgetOwnStep | src/lib/reporting.ts:48-54 | the same for one budget row |
| Reporting.ExpenseCallback | src/lib/reporting.ts:39-45 | the callback leaves the object unchanged for an inherited name, and otherwise creates the category at zero when new and adds the amount to `spent` |
| Reporting.BudgetCallback | src/lib/reporting.ts:48-54 | the same for `budget` |
| Reporting.DedupDistinct | src/lib/reporting.ts:58 | no category is listed twice in `stats` |
| Reporting.DedupMembers | src/lib/reporting.ts:39-54 | a category is in `stats` exactly when it has an expense or a budget row |
| Reporting.Partition | src/lib/reporting.ts:59-60 | summing per distinct category adds up to the sum of all rows |
| Reporting.SpentTotalIsSum | src/lib/reporting.ts:59 | `totalSpent` is the sum of the categories' `spent` |
| Reporting.BudgetTotalIsSum | src/lib/reporting.ts:60 | `totalBudget` is the sum of the categories' `budget` |
| Reporting.ExpenseStep | src/lib/reporting.ts:39-45 | one expense creates its category at zero when new and adds its amount to `spent` only |
| Reporting.BudgetStep | src/lib/reporting.ts:48-54 | one budget creates its category at zero when new and adds its amount to `budget` only |
| Reporting.SumExpenses | src/lib/reporting.ts:39-45 | after the loop each own category's `spent` is the sum of its expenses, and no key is an inherited name |
| Reporting.SumBudgets | src/lib/reporting.ts:48-54 | after the loop each own category's `budget` is the sum of its budget rows, and no key is an inherited name |
| Reporting.Values | src/lib/reporting.ts:58 | `Object.values` gives one stat per key, in the key order |
| Reporting.ValuesOfTally | src/lib/reporting.ts:56-61 | the values of a finished tally are named in `Object.values` order, carry their own sums, and add up to the sums of all own rows |
| Reporting.GetMonthlyReport | src/lib/reporting.ts:4-62 | one stat per category in `Object.values` order (numeric names ascending, then first appearance), each with its sums, and totals equal to the sums of all expenses and budgets whose category is not an inherited name |
| Reporting.SumToday | src/lib/reporting.ts:78-84 | the total is the sum of the rows' amounts and there is one line per row, in order, with its category or "Uncat", amount and merchant |
| Reporting.GetTodaySummary | src/lib/reporting.ts:64-90 | a failed query gives 0 and no lines; otherwise `total` is the sum of today's completed debits and there is one line per transaction, in order |
| Reporting.FirstPerStartDistinct | src/lib/reporting.ts:110-121 | no start date is listed twice |
| Reporting.FirstPerStartCovers | src/lib/reporting.ts:113-121 | every row's start date is listed |
| Reporting.FirstPerStartFirst | src/lib/reporting.ts:113-121 | each listed period is that of the first row with its start date |
| Reporting.Take5 | src/lib/reporting.ts:123 | exactly the first min(5, n) periods |
| Reporting.GetAvailablePeriods | src/lib/reporting.ts:92-124 | a query error gives no periods; otherwise the first five distinct-start periods in query order |
| Reporting.GetPeriodStats | src/lib/reporting.ts:126-175 | budgeted sums by category type, debit and credit totals, `net` as their difference, or the transaction query's error |
| Reporting.OtherDirectionsIgnored | src/lib/reporting.ts:158-164 | a transaction that is neither debit nor credit changes neither total |
| Reporting.ApplyUpdateLastWins | src/lib/reporting.ts:211-219 | of two updates of one key only the later counts |
| Reporting.ApplyUpdateCommutes | src/lib/reporting.ts:211-219 | updates of different keys can be applied in either order |
| Reporting.SummaryTable.RecalculateAll | src/lib/reporting.ts:177-225 | a read error changes nothing; otherwise every row is recalculated in turn and `count` is the number of rows |
| Reporting.ReplayKeepsKeys | src/lib/reporting.ts:211-215 | recalculation changes only `total_actual` |
| Reporting.ReplayCorrect | src/lib/reporting.ts:185-222 | after k fault-free steps the rows keyed by the first k rows carry their correct actual and the others are untouched |
| Reporting.RecalcAllCorrect | src/lib/reporting.ts:185-222 | a fault-free run leaves every row with the sum of its direction's completed transactions in its period |
| Reporting.RecalcIdempotent | src/lib/reporting.ts:185-222 | recalculating twice equals recalculating once |
| Reporting.RecalcAgreesWithPeriodStats | src/lib/reporting.ts:185-222 | after a fault-free recalculation each expense row carries the period's debit total and each income row its credit total, the `totalExpense` and `totalIncome` that `GetPeriodStats` reports |
| BotLogic.NewEntryIffCommand | src/lib/botLogic.ts:67-91 | `/new` starts an entry exactly when it is the first word |
| BotLogic.StartSendsKeys | src/lib/botLogic.ts:76-87 | `/start` sends the welcome with the persistent reply keyboard Period/Today, Recalculate/Pending, whose keys are the menu texts and so commands |
| BotLogic.MenuTextsArePlainWords | src/lib/botLogic.ts:66-72 | every menu text is one word without a slash |
| BotLogic.PlainWordAction | src/lib/botLogic.ts:66-114 | a single word without a slash runs Pending, Today, Period or Recalculate exactly when it is that text, and otherwise is an unknown command |
| BotLogic.WithKey | src/lib/botLogic.ts:30-35 | the lookup selects only sessions of the table with both the chat id and the user id |
| BotLogic.ApplyWrites | src/lib/botLogic.ts:377-379 | a run of `updateSession` calls on one id leaves every session with another id as it was |
| BotLogic.LastWriteWins | src/lib/botLogic.ts:48-51 | after several updates of one session the last alone decides its state and context |
| BotLogic.CommandCancels | src/lib/botLogic.ts:47-52 | a command leaves a busy session idle and empty, `/new` leaves it awaiting an amount with `{type: "manual_entry"}`, and an idle session is otherwise untouched |
| BotLogic.AmountStep | src/lib/botLogic.ts:462-469 | no digits leaves the session as it is; otherwise `await_direction` with the digits' integer added to the context |
| BotLogic.InputKeepsContext | src/lib/botLogic.ts:462-489 | the first write of every step keeps the keys the context already had; `await_date` then ends with an empty context |
| BotLogic.PatchTxsIdempotent | src/lib/botLogic.ts:328-356 | applying the same update twice equals applying it once |
| BotLogic.PatchTxsCommute | src/lib/botLogic.ts:328-356 | a status update and a category update of one transaction commute |
| BotLogic.PatchMissingId | src/lib/botLogic.ts:328-356 | an update without an id changes no row |
| BotLogic.TxDirLosesAmount | src/lib/botLogic.ts:359-369 | as written, choosing a direction erases the amount and type of the entry |
| BotLogic.TxDirKeepsContext | src/lib/botLogic.ts:359-369 | as intended, the session moves to `await_merchant` with its context plus the direction and no other session changes |
| BotLogic.ManualEntryKeepsAmount | src/lib/botLogic.ts:462-503 | as intended, with the corrected `tx_dir` merge, amount, direction and merchant entered step by step all reach the saved transaction |
| BotLogic.UpdateKeepsIdCount | src/lib/botLogic.ts:362-367 | an `updateSession` changes no id, so the re-read after the first write finds as many sessions as before it |
| BotLogic.TxDirOverwrites | src/lib/botLogic.ts:359-369 | as written, `tx_dir` on a lone session leaves `{direction}` as its whole context |
| BotLogic.ManualEntryLosesAmount | src/lib/botLogic.ts:359-369 | as written, an amount entered before choosing the direction is missing from the saved transaction |
| BotLogic.CategoryRoute | src/lib/botLogic.ts:421-422 | a category button's data splits into `set_cat`, the transaction and the category |
| BotLogic.SubcategoryRoute | src/lib/botLogic.ts:441-442 | a subcategory button's data splits into `set_sub`, the transaction and the subcategory |
| BotLogic.CategoryKeyboard | src/lib/botLogic.ts:412-433 | "No categories found." for none, else every category once, in order, two per row |
| BotLogic.SubcategoryKeyboard | src/lib/botLogic.ts:435-456 | every subcategory once, in order, two per row, then a Skip row |
| BotLogic.BotStore.UpdateSessionSteps | src/lib/botLogic.ts:48-51 | successive `updateSession` calls give the table of the writes in order |
| BotLogic.WithKeyMembers | src/lib/botLogic.ts:29-35 | the lookup selects every session with both the chat id and the user id, and only those |
| BotLogic.WithKeyAppend | src/lib/botLogic.ts:29-35 | the lookup of a concatenation is the concatenation of the lookups, so order and repeats are kept |
| BotLogic.LoneSessionReused | src/lib/botLogic.ts:29-44 | a session that is the only one with its chat and user is the one used, and nothing is inserted |
| BotLogic.WithIdMembers | src/lib/botLogic.ts:367 | `.eq("id", id)` selects every session with the id, and only those |
| BotLogic.BotStore.GetOrCreateSession | src/lib/botLogic.ts:29-44 | the single session of the chat and user, else a new idle one, else none when the insert fails |
| BotLogic.BotStore.HandleStateInput | src/lib/botLogic.ts:458-509 | each state's session writes, the manual transaction inserted on a successful save, and each reply |
| BotLogic.BotStore.HandleMessage | src/lib/botLogic.ts:24-64 | no session does nothing; a command resets a busy session and dispatches; other text feeds a busy session or gets the help text |
| BotLogic.BotStore.HandleCallback | src/lib/botLogic.ts:294-375 | each action's store change and outcome; `tx_dir` as written (`TxDirAsWritten`), replying only when exactly one session has the id and a direction is given, since otherwise `session.context` or `direction.toUpperCase()` throws before the reply; `set_sub` always completes and writes the subcategory only when it is not "skip" |
| BotLogic.SkipDataIsSkip | src/lib/botLogic.ts:451 | the Skip button's data splits into `set_sub`, the transaction and "skip" |
| BotLogic.PendingRowsRoute | src/lib/botLogic.ts:402-405 | each pending-transaction button's data splits into its action and the transaction id |
| BotLogic.Shorten | src/lib/botLogic.ts:269 | a description of at most 6 characters is kept; a longer one becomes its first 6 characters and "..." |
| BotLogic.PageCount | src/lib/botLogic.ts:259 | `Math.ceil(total / 10)`: the fewest pages of ten that hold `total` rows |
| BotLogic.ListTransactions | src/lib/botLogic.ts:250-292 | no rows gives the notice; otherwise one line per row in order, and the Prev/Next row exactly when `page > 0` or `(page+1)*10 < total` |
| BotLogic.ListDataRoundTrip | src/lib/botLogic.ts:286-320 | a page button's data read back by the `list_tx` callback gives the same period, type and page |
| BotLogic.PageFlags | src/lib/botLogic.ts:281-282 | Next exactly before the last page; after a page with Next the following page has Prev and starts at an existing row; a Prev page with rows has Next on the page before |
| IngestHelpers.CategoriesForIngested | src/lib/ingestHelpers.ts:7-28 | "No categories found." for none, else every category once, in order, two per row |
| IngestHelpers.CategoryRoute | src/lib/ingestHelpers.ts:17 | a category button's data splits into `ingest_cat`, the ingest row and the category |
| IngestHelpers.SubcategoryRoute | src/lib/ingestHelpers.ts:37 | a subcategory button's data splits into `ingest_sub`, the ingest row, the category and the subcategory |
| IngestHelpers.FundRoute | src/lib/ingestHelpers.ts:64 | a fund button's data splits into `ingest_fund`, the ingest row, the category, the subcategory and the fund |
| IngestHelpers.SubcategoriesForIngested | src/lib/ingestHelpers.ts:30-51 | every subcategory once, in order, two per row, then always a Skip row |
| IngestHelpers.FundsForIngested | src/lib/ingestHelpers.ts:53-75 | a missing or empty result gives "No funds found.", else every fund once, in order, two per row |
| IngestHelpers.KindOf | src/lib/ingestHelpers.ts:91-96 | the type is "income" exactly for a credit, and "expense" otherwise |
| IngestHelpers.Picked | src/lib/ingestHelpers.ts:103-104 | none exactly for "skip", else the id |
| IngestHelpers.DateOf | src/lib/ingestHelpers.ts:107 | the date is the prefix of `happened_at` (or of today's timestamp when it is missing) up to its first 'T' or its end |
| IngestHelpers.FinalRowFields | src/lib/ingestHelpers.ts:99-111 | bot user, "paid", amount, direction, timestamp and fund copied, the merchant or "No description", the picked category and subcategory with skip as null, and the date pinned as in `DateOf` |
| IngestHelpers.WithIdMembers | src/lib/ingestHelpers.ts:79-83 | `.eq("id", ingestId)` selects every ingest row with the id, and only those |
| IngestHelpers.WithoutExactly | src/lib/ingestHelpers.ts:119 | the delete removes exactly the rows with the id |
| IngestHelpers.IngestQueue.ProcessIngested | src/lib/ingestHelpers.ts:77-122 | missing row: nothing inserted or deleted; insert error: nothing deleted; success: one row inserted, then the ingest row deleted |
| IngestHelpers.ProcessedOnce | src/lib/ingestHelpers.ts:79-88 | a processed and deleted ingest row is not found again |
| DbCompatibility.FallbackCases | src/lib/dbCompatibility.ts:6-23 | the new rows when there are any, else the legacy rows when the query returned data, else [] |
| DbCompatibility.FallbackSource | src/lib/dbCompatibility.ts:11-23 | a returned row comes from the new table, or from the legacy one only when the new had none |
| DbCompatibility.ChildrenOf | src/lib/dbCompatibility.ts:32 | exactly the rows whose parent column is the category |
| DbCompatibility.SubcategoriesOfCategory | src/lib/dbCompatibility.ts:27-49 | the subcategories all belong to the category, from the new table when it has any for it |
| DbCompatibility.Matching | src/lib/dbCompatibility.ts:63-64 | exactly the rows that satisfy each status and direction option given |
| DbCompatibility.Query | src/lib/dbCompatibility.ts:63-66 | limit 0 gives all matching rows; otherwise the first min(limit, n) matching rows, in order |
| DbCompatibility.WithIdMembers | src/lib/dbCompatibility.ts:74-86 | `.eq("id", ...)` selects every legacy row with the id, and only those |
| DbCompatibility.FillRule | src/lib/dbCompatibility.ts:72-88 | a join is never overwritten, is filled only when missing and the id is present, and then holds the legacy row's name |
| DbCompatibility.FillIdempotent | src/lib/dbCompatibility.ts:72-88 | filling twice equals filling once |
| DbCompatibility.TransactionsWithCategories | src/lib/dbCompatibility.ts:52-93 | no data gives []; otherwise the queried rows in order, each with its missing joins filled |
| DbCompatibility.CategoryPayload | src/lib/dbCompatibility.ts:96-100 | `category_id` always, `subcategory_id` exactly when given, non-empty and not "skip" |
| DbCompatibility.ApplyPayloadIdempotent | src/lib/dbCompatibility.ts:102 | applying a payload twice equals applying it once |
| DbCompatibility.LaterPayloadWins | src/lib/dbCompatibility.ts:102 | of two payloads the later one's category wins, and its subcategory when it carries one |
| DbCompatibility.SkipKeepsSubcategory | src/lib/dbCompatibility.ts:98-102 | skipping keeps the subcategory the transaction had |

## Left out

- Telegram calls are left out: `sendTelegramMessage`, `editMessageText`, `answerCallbackQuery`, the menu-button calls and `sendTelegramNotification`. They are HTTP output; messages are returned as values, and the notification is a success/failure parameter of `Serve`. The `resize_keyboard` and `persistent` flags of the `/start` reply keyboard are presentation and are not modelled; its keys are.
- The message text of the report views is left out: `showPeriodMenu`, `showPeriodsForYear`, `showPeriodStats`, `showPendingTransactions`, `showBudget` and `showToday`. It is presentation: HTML, `Intl.NumberFormat` and `formatDate`, which depend on locale and time zone. The data they show is modelled in `Reporting`, and the pending buttons in `BotLogic.PendingRows`.
- Year filtering and sorting by `new Date(...)` are left out (time-zone dependent). So are `startOfMonth`/`endOfMonth`, `setHours` and the `format` month label. Range bounds are inputs.
- Database `ORDER BY` is left out: each query's rows are taken in the order given.
- Floating point is left out:
  - Amounts and `total_budgeted` are integers; `parseFloat` is not modelled.
  - `parseInt` of more than 15 digits has no loss of precision here.
  - Confidence is a real constant.
- Strings are sequences of code points, not UTF-16 code units. So `length` and `substring` in `Shorten` count characters; lower-casing covers ASCII and the Kelvin sign only.
- Reporting.GetMonthlyReport: the `+=` on an inherited member (for a category named `constructor`, `__proto__`, ...) writes a property of that prototype object; the model drops the row and does not model that side effect.
- EmailIngest.PendingRow: a NaN amount is kept as `NaN` in the stored row. The client serialises the insert as JSON, where NaN becomes `null`, so the database sees a null amount, or refuses the insert if the column is `NOT NULL`. The column's constraints are not part of this model.
- Concurrency between simultaneous requests is left out: two e-mails with the same message id may both pass the dedup check.
- The webhook route, the Supabase client setup and the UI are not part of this model.
- The `try/catch` around `handleCommand` ("Error processing command") and the failure of a report query inside a command are left out. Those handlers' replies come from the reporting results.
- The thrown `TypeError` paths (for example `direction.toUpperCase()` on a missing direction, or `session.state` without a session) are modelled as the handler stopping after the writes made so far.
- BotLogic.BotStore.HandleMessage: for text fed to a busy session it does not restate the replies; `HandleStateInput`, which it calls, states them.
- BotLogic.BotStore.HandleCallback: for `period`, `year_periods` and `list_tx` it returns the request, with the parsed parts, instead of running the report or list. `ListTransactions` and `Reporting` model those.

## Findings

| source | as written | input that shows it | evidently intended | confidence | as-written member | corrected member |
|---|---|---|---|---|---|---|
| src/lib/botLogic.ts:359-369 | `tx_dir` stores `{ direction }` as the whole context before re-reading the session, so the context it then merges is already `{ direction }` | a session in `await_direction` with context `{type: "manual_entry", amount: 50000}` and data `tx_dir:s1:debit` | the session's own context plus `direction`, so the saved manual transaction keeps its amount | not executed | BotLogic.TxDirLosesAmount | BotLogic.TxDirKeepsContext |

`BotLogic.BotStore.HandleCallback` models the `tx_dir` callback as written
(`TxDirAsWritten`), and `BotLogic.ManualEntryLosesAmount` shows the
consequence: an amount entered before the direction does not reach the saved
transaction. The corrected merge is `BotLogic.TxDir`; `TxDirKeepsContext` and
`ManualEntryKeepsAmount` are proved about it.
