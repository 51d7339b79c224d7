# Matching marketplace: ranking, analytics and page logic in Dafny

This project models the decision-making parts of a local-services marketplace web
application. They are:

- the **auto-matching handler**: it scores every business profile against a customer's needs, keeps the five best in a stable descending order, and writes one `pending` match row for each;
- the **usage-analysis handler**: it counts match rows, computes the percentage of completed matches and the mean transaction amount, and packs them into a report summary;
- the **usage-history page**: a date-prefix filter and a case-insensitive company-name filter over the transaction history; the company filter throws on a row without a joined business, and the list on screen then stays as it was;
- the **FAQ page**: questions grouped under fixed categories, a search filter that drops categories left empty, and a single-open accordion;
- the **service-reservation page**: the de-duplicated list of service keys across all business profiles, and the option checkboxes;
- the **payment page**: the submit handler's guard chain, the request it posts and the outcome branching.

Files and modules:

- `auto_matching.dfy` (`AutoMatching`): the ranking pipeline, the rows written and the handler.
- `usage_analysis.dfy` (`UsageAnalysis`): `analyzeData`, the summary of `generateReport` and the handler.
- `usage_history.dfy` (`UsageHistory`): the filter and the page state, as a class.
- `faq.dfy` (`Faq`): grouping, search, toggling and the page state, as a class.
- `service_reservation.dfy` (`ServiceReservation`): the option toggle, de-duplication and the page state, as a class.
- `payment.dfy` (`Payment`): the guard chain and the page state, as a class.
- `seqs.dfy` (`Seqs`): `Array.prototype.filter` and "is a subsequence of", with their lemmas.
- `text.dfy` (`Text`): `toLowerCase`, `startsWith` and `includes`.
- `catalog.dfy` (`Catalog`): a `business_profiles` row.
- `wrappers.dfy` (`Wrappers`): `Option`.

The API handlers and the pure list logic are functions over datatypes. Every datastore read
or write is a parameter: `None` stands for a failed read, and a boolean stands for the
datastore's answer to an insert. A page's React state is a class. Each `useState` hook is a
field, and each handler is a method whose `modifies` clause names the fields it sets. Where
the page's state has an invariant, the class states it as `Valid()`: on the usage-history
page the list on screen is drawn, in order, from the full history, and on the reservation
page no option is ticked twice. Every handler of such a class re-establishes it.

Division follows JavaScript. The analytics divide without a guard. With no match rows, or
with no transactions, the quotient is `0 / 0`. That is `NaN`, not an error, and the model
returns `NaN` there (`UsageAnalysis.Num`). It does not substitute 0 for the empty case: it
follows the code as written.

## Model

| member | source | states |
|---|---|---|
| AutoMatching.HandleAutoMatching | src/pages/api/auto-matching.ts:7-49 | 405 exactly when the method is not `POST`, before any other input matters; 200 exactly when both reads and the insert succeed, and then the body is the ranking of the catalog and the rows written are that ranking's rows, at most five |
| AutoMatching.ScoreAll | src/pages/api/auto-matching.ts:31-33 | the `map` step computes one scored entry per business, in catalog order, so there are as many entries as businesses (that each entry surviving the sort and slice is one business's id, name and score is stated by RankEntriesFromCatalog) |
| AutoMatching.Insert | src/pages/api/auto-matching.ts:34 | one step of the sort: the result is the list with that one entry added (same multiset plus the entry), one longer (that it lands after every entry scoring strictly more and before its ties is stated by InsertAtMost, InsertSorted and InsertStable) |
| AutoMatching.SortByScore | src/pages/api/auto-matching.ts:34 | the descending sort returns exactly the entries it was given, as many as it was given (order and stability are stated by SortByScoreSortedPermutation and SortByScoreStable) |
| AutoMatching.TopMatches | src/pages/api/auto-matching.ts:34 | sort then `slice(0, 5)`: min(5, n) entries, all drawn from the scored entries without repetition (order and the best five are stated by TopMatchesShape and TopMatchesKeepsBest) |
| AutoMatching.Rank | src/pages/api/auto-matching.ts:31-34 | score, sort and slice: min(5, catalog size) entries |
| AutoMatching.ToRows | src/pages/api/auto-matching.ts:39-44 | one row per ranked entry (the row contents are stated by RowsMatchRanking) |
| AutoMatching.SortByScoreSortedPermutation | src/pages/api/auto-matching.ts:34 | the sort yields a non-increasing permutation of the scored entries |
| AutoMatching.SortByScoreStable | src/pages/api/auto-matching.ts:34 | for every score value, the entries with that score appear in the sorted list in catalog order (stable sort) |
| AutoMatching.TopMatchesShape | src/pages/api/auto-matching.ts:34 | the ranking holds min(5, n) entries, is non-increasing, and is a sub-multiset of the scored catalog, so no row appears twice |
| AutoMatching.TopMatchesStable | src/pages/api/auto-matching.ts:34 | each tie class of the ranking is a prefix of that class in catalog order |
| AutoMatching.TopMatchesKeepsBest | src/pages/api/auto-matching.ts:34 | no entry left out scores more than any entry kept |
| AutoMatching.RankEmpty | src/pages/api/auto-matching.ts:31-34 | an empty catalog gives an empty ranking |
| AutoMatching.RankEntriesFromCatalog | src/pages/api/auto-matching.ts:31-34 | each ranked entry is the id, company name and score of one catalog row; a scorer within [0, 1) gives ranked scores within [0, 1) |
| AutoMatching.RowsMatchRanking | src/pages/api/auto-matching.ts:39-44 | one row per ranked entry, same order, with the request's customer id, the entry's business id and score, and status `pending` |
| AutoMatching.HandlerWritesRanking | src/pages/api/auto-matching.ts:31-49 | a successful run returns and writes min(5, catalog size) non-increasing entries, every row pending and for the requesting customer |
| UsageAnalysis.Divide | src/pages/api/usage-analysis.ts:71-73 | JavaScript division: a finite quotient exactly when the divisor is non-zero, `NaN` for `0 / 0` |
| UsageAnalysis.Newest | src/pages/api/usage-analysis.ts:18-30 | a read ordered newest first with limit 1000 returns the first min(1000, n) rows |
| UsageAnalysis.AnalyzeData | src/pages/api/usage-analysis.ts:66-80 | the match count is the number of rows; the rate is a finite number exactly when there are rows and the average exactly when there are transactions, `NaN` otherwise (the values are stated by SuccessRateSpec and AverageSpec) |
| UsageAnalysis.Scale | src/pages/api/usage-analysis.ts:71 | the `* 100`: finite exactly when its operand is, and a non-negative quotient stays non-negative |
| UsageAnalysis.SumAmounts | src/pages/api/usage-analysis.ts:72 | the `reduce` from 0: no transactions sum to 0, a single one to its amount (bounds are stated by SumBounds) |
| UsageAnalysis.SumBounds | src/pages/api/usage-analysis.ts:72 | n amounts that each lie in [lo, hi] sum to a value in [n × lo, n × hi] |
| UsageAnalysis.GenerateSummary | src/pages/api/usage-analysis.ts:85-92 | the summary carries the analysis's match count, rate and average unchanged (the fixed categories and growth rate are stated by SummaryShape) |
| UsageAnalysis.HandleUsageAnalysis | src/pages/api/usage-analysis.ts:11-49 | 405 exactly when the method is not `GET`; a summary exactly when both reads and the report insert succeed, computed from the newest 1000 rows of each table |
| UsageAnalysis.SuccessRateSpec | src/pages/api/usage-analysis.ts:69-71 | totalMatches is the row count; completed rows never exceed it; the rate is 100 × completed / total within [0, 100], and `NaN` for no rows |
| UsageAnalysis.AverageSpec | src/pages/api/usage-analysis.ts:72-73 | the average is the sum of the amounts over their count, and `NaN` for no transactions |
| UsageAnalysis.AverageWithinBounds | src/pages/api/usage-analysis.ts:72-73 | when every amount lies in [lo, hi], so does the average |
| UsageAnalysis.WorkedExample | src/pages/api/usage-analysis.ts:66-80 | three matches with two completed, and amounts 5000 and 7000, give the rate 200/3 and the average 6000 |
| UsageAnalysis.SummaryShape | src/pages/api/usage-analysis.ts:85-92 | the summary copies the match count, at most 1000, and carries the fixed three categories and the growth rate 15.2 |
| UsageHistory.FilteredHistoryIsOnePass | src/pages/UsageHistory.tsx:78-89 | the two successive filters equal one filter by both active conditions |
| UsageHistory.FilteredHistory | src/pages/UsageHistory.tsx:78-87 | the date filter, then the company filter, each only when its input is set: never longer than the history, and only rows of the history (exact membership and order are stated by FilteredHistorySpec) |
| UsageHistory.FilterOutcome | src/pages/UsageHistory.tsx:78-89 | the company filter throws, and no list is produced, exactly when the term is set and a row that passes the date filter has no joined company name; otherwise the outcome is the filtered list |
| UsageHistory.FilteredHistorySpec | src/pages/UsageHistory.tsx:78-87 | the filtered list is an order-preserving subsequence of the history, and a row is in it exactly when its date starts with a set date and it has a company name whose lower-cased form contains a set lower-cased term |
| UsageHistory.NoFilterShowsAll | src/pages/UsageHistory.tsx:80-83 | with both inputs empty, the result is the whole history |
| UsageHistory.FilteredHistoryIdempotent | src/pages/UsageHistory.tsx:78-89 | filtering the filtered list again with the same inputs changes nothing |
| UsageHistory.UsageHistoryPage.constructor | src/pages/UsageHistory.tsx:9-12 | both lists and both filters start empty |
| UsageHistory.UsageHistoryPage.LoadHistory | src/pages/UsageHistory.tsx:36-37 | a successful fetch sets both the full and the filtered list to the rows read |
| UsageHistory.UsageHistoryPage.FilterHistory | src/pages/UsageHistory.tsx:78-89 | the list on screen becomes the filter of the full history alone, never of the previous list on screen; when the company filter throws, the list on screen stays as it was |
| UsageHistory.UsageHistoryPage.HandleDateFilter | src/pages/UsageHistory.tsx:68-71 | stores the date and filters with it and the current search term, or keeps the list on screen when the filter throws; the history is unchanged |
| UsageHistory.UsageHistoryPage.HandleSearch | src/pages/UsageHistory.tsx:73-76 | stores the term and filters with the current date and it, or keeps the list on screen when the filter throws; the history is unchanged |
| Faq.GroupByCategorySpec | src/pages/FAQ.tsx:31-34 | grouping keeps each category's id, name and position; a category holds exactly the rows filed under its name, every copy of each, in row order |
| Faq.GroupDropsUnknownCategories | src/pages/FAQ.tsx:31-34 | a row whose category matches no category name appears in no category |
| Faq.GroupByCategory | src/pages/FAQ.tsx:31-34 | one category out for each category in (what each holds is stated by GroupByCategorySpec) |
| Faq.Narrow | src/pages/FAQ.tsx:63-68 | a category narrowed to its matching questions keeps its id and name, never gains a question, and every question it keeps matches the term |
| Faq.NarrowAll | src/pages/FAQ.tsx:63-68 | the `categories.map` step narrows each category in place, so there are as many categories as before |
| Faq.FilteredCategories | src/pages/FAQ.tsx:63-69 | never more categories than given, and none of them empty (exact membership is stated by FilteredCategoriesSpec) |
| Faq.FilteredCategoriesSpec | src/pages/FAQ.tsx:63-69 | a question survives exactly when its lower-cased question or answer contains the lower-cased term; a category is shown exactly when some question survives; shown categories keep their order and are never empty |
| Faq.EmptySearchKeepsAll | src/pages/FAQ.tsx:63-69 | an empty term keeps every question, so only already empty categories disappear |
| Faq.Toggled | src/pages/FAQ.tsx:59-61 | after a toggle the chosen category is open exactly when it was not open before, and nothing is open exactly when it was |
| Faq.ToggleTwice | src/pages/FAQ.tsx:60 | toggling one category twice restores the state when nothing or that category was open |
| Faq.ToggleTwiceFromOther | src/pages/FAQ.tsx:60 | when another category was open, toggling twice leaves everything closed |
| Faq.FaqPage.constructor | src/pages/FAQ.tsx:10-16 | the three fixed categories without questions, an empty term, nothing open |
| Faq.FaqPage.LoadFaqs | src/pages/FAQ.tsx:31-36 | a successful fetch regroups the rows read under the current categories |
| Faq.FaqPage.HandleSearch | src/pages/FAQ.tsx:55-57 | stores the search term |
| Faq.FaqPage.ToggleCategory | src/pages/FAQ.tsx:59-61 | the open category becomes the toggle of the previous one |
| ServiceReservation.ToggleOption | src/pages/ServiceReservation.tsx:61-67 | the chosen option's membership flips, every other option keeps its membership, and an absent option is appended at the end |
| ServiceReservation.ToggleKeepsOthers | src/pages/ServiceReservation.tsx:62-66 | the other options keep their relative order |
| ServiceReservation.ToggleAbsentTwice | src/pages/ServiceReservation.tsx:62-66 | ticking an absent option and unticking it restores the selection |
| ServiceReservation.TogglePreservesDistinct | src/pages/ServiceReservation.tsx:62-66 | a selection without duplicates has none after a toggle |
| Catalog.ServiceKeys | src/pages/ServiceReservation.tsx:28 | `Object.keys(profile.services)` on a non-null `services`: one key per service entry |
| ServiceReservation.AllServiceKeys | src/pages/ServiceReservation.tsx:28 | when no profile's `services` is null, the `flatMap` collects every service key of every profile (that it collects nothing else is stated by ServiceListSpec) |
| ServiceReservation.Dedup | src/pages/ServiceReservation.tsx:29 | the spread of a `Set` is never longer than its input and holds exactly the input's values |
| ServiceReservation.ServiceList | src/pages/ServiceReservation.tsx:28-29 | there is no list exactly when some profile's `services` is null, which makes `Object.keys` throw |
| ServiceReservation.DedupSpec | src/pages/ServiceReservation.tsx:29 | the de-duplicated list holds each value exactly once, the same values, ordered by first occurrence |
| ServiceReservation.ServiceListSpec | src/pages/ServiceReservation.tsx:28-29 | when there is a list, a key is in it exactly when some profile offers it, and it is listed once |
| ServiceReservation.ReservationPage.constructor | src/pages/ServiceReservation.tsx:10-14 | every selection and list starts empty |
| ServiceReservation.ReservationPage.LoadServices | src/pages/ServiceReservation.tsx:27-34 | rows read replace the services list by their de-duplicated keys; a profile with a null `services` makes the `catch` show the sample list; a `null` result leaves the list |
| ServiceReservation.ReservationPage.FetchServicesFailed | src/pages/ServiceReservation.tsx:26-34 | a failed read makes the `catch` show the three sample services |
| ServiceReservation.ReservationPage.LoadOptions | src/pages/ServiceReservation.tsx:44-46 | option names read replace the options list; a `null` result leaves it |
| ServiceReservation.ReservationPage.FetchOptionsFailed | src/pages/ServiceReservation.tsx:43-49 | a failed read makes the `catch` show the three sample options |
| ServiceReservation.ReservationPage.HandleServiceChange | src/pages/ServiceReservation.tsx:53-55 | stores the chosen service |
| ServiceReservation.ReservationPage.HandleDateChange | src/pages/ServiceReservation.tsx:57-59 | stores the chosen date |
| ServiceReservation.ReservationPage.HandleOptionChange | src/pages/ServiceReservation.tsx:61-67 | the selection becomes its toggle and stays free of duplicates |
| Payment.ValidationError | src/pages/Payment.tsx:43-51 | the method error exactly when no method is chosen; the card error exactly when the method is credit and a card field is empty; no error exactly otherwise |
| Payment.RequestFor | src/pages/Payment.tsx:54-58 | the request carries the total amount and the method, and card details exactly for credit |
| Payment.OutcomeError | src/pages/Payment.tsx:60-68 | no message exactly on a successful response; the failure message on an unsuccessful one; the processing message on a thrown error |
| Payment.MethodCheckFirst | src/pages/Payment.tsx:43-51 | an empty method reports the method error, never the card error |
| Payment.NonCreditSkipsCardChecks | src/pages/Payment.tsx:48-57 | a non-credit method is never stopped by the card fields and, whatever the amount, sends no card details |
| Payment.PaymentPage.constructor | src/pages/Payment.tsx:11-16 | a zero amount and empty fields |
| Payment.PaymentPage.LoadTotalAmount | src/pages/Payment.tsx:28-29 | a successful fetch stores the amount |
| Payment.PaymentPage.SelectPaymentMethod | src/pages/Payment.tsx:86-102 | stores the chosen method |
| Payment.PaymentPage.EnterCard | src/pages/Payment.tsx:118-145 | stores the card number, expiry date and CVV |
| Payment.PaymentPage.HandlePaymentSubmit | src/pages/Payment.tsx:39-69 | a request is sent exactly when the guard chain passes; a guard leaves its message as the error; otherwise the request is the total amount with card details only for credit, and the error is cleared and then set by the outcome, or the page navigates to `/ServiceCompletion` on success |
| Seqs.Filter | src/pages/UsageHistory.tsx:81 | `Array.prototype.filter`: never longer than its input, every element kept satisfies the predicate, and each is drawn from the input |
| Seqs.FilterMembership | src/pages/UsageHistory.tsx:81 | a value is in the filtered list exactly when it is in the input and satisfies the predicate |
| Seqs.FilterCount | src/pages/FAQ.tsx:33 | the filter keeps every copy of an element that satisfies the predicate and no copy of one that does not |
| Text.Lower | src/pages/UsageHistory.tsx:85 | `toLowerCase` restricted to ASCII letters, which keeps the length of the string |
| Text.StartsWithIff | src/pages/UsageHistory.tsx:81 | `s.startsWith(p)` holds exactly when `s` is `p` followed by some string |
| Text.IncludesIff | src/pages/UsageHistory.tsx:85 | `s.includes(t)` holds exactly when `t` occurs in `s` at some position |

## Left out

- The match scorer `calculateMatchScore` (src/pages/api/auto-matching.ts:64-68) returns `Math.random()`. It is a parameter of the model, so the ranking is proved for every scorer.
- Datastore and authentication calls are left out. Their results are parameters. Whether the bulk insert of match rows is atomic is not modelled.
- The fallback sample payloads in the handlers' `catch` blocks are left out: they are constants with no logic, and the model reports those paths only as `ServerError`. Of the pages, only the reservation page's `catch` branches, which show sample service and option lists, are modelled. The other pages have no method for the failing branch of a fetch.
- UsageAnalysis.GenerateSummary, UsageAnalysis.SummaryShape: the success rate and the average are kept as exact numbers. The `toFixed(1)` and `toFixed(2)` string formatting is not modelled, because floating-point formatting is out of scope.
- Amounts and scores are exact reals, not IEEE doubles. Rounding, `-0` and an amount read from the datastore as a string are not modelled.
- `generateReport`'s `detailedAnalysis`, `recommendations` and `generatedAt` are left out. They are constants and a clock reading.
- Text.Lower lower-cases only ASCII letters. JavaScript's full Unicode `toLowerCase` also maps other scripts' capitals.
- `Object.keys` is modelled as the order of a profile's service entries. The rule that integer-like keys come first is not modelled.
- `fetchOptions` maps rows to their `name`. The model receives the names directly.
- The reservation page's `handleSubmit` only logs and navigates, and it is left out.
- Rendering, navigation menus, charts, file uploads and the other pages are left out. So are the payment, push-notification and recommendation API clients.
