# Swing AI admin dashboard: metrics and record updates

This is a model of the core of the admin dashboard of the Swing AI golf coaching app.
An administrator uses the dashboard to watch the user base, subscriptions, AI coach
usage, support tickets and in-app feedback. The model covers two parts:

- **The metrics the pages derive from fetched rows.** These are counts over a trailing
  window, dictionaries of counts keyed by tier, status, type or topic, revenue
  estimates, a conversion rate, charts with one bucket per day, rankings and list
  filters.
- **What the `/api/data` route does.** The GET side picks which rows to return by
  `type`. The POST side changes a subscription, a ticket, a tip or a drill by `action`.

The pages hold local copies of their rows after an update, and the model covers those
copies too.

Conventions:

- A timestamp is an integer number of milliseconds on the dashboard's local clock.
  "The same calendar day" is equality of `Records.Day`.
- Money is an integer number of cents: 1299 for Premium, 2499 for Pro and 2 for each
  AI message.
- Percentages and averages are integers in tenths, rounded half up (`Rates.RoundedRatio`).
- A JavaScript object used as a counting dictionary is a sequence of
  `Counting.Entry(key, count)` with distinct keys, kept in insertion order. This is the
  order `Object.entries` lists string keys in.
- A nullable column is `Records.Option`, and a missing list from the store is `None`.

The modules follow the source files:

| module | file | models |
|---|---|---|
| `Records` | records.dfy | the rows, the clock, JavaScript truthiness and message counts |
| `Seqs` | seqs.dfy | `Array.prototype.filter`, and the stable descending sort behind `sort((a, b) => key(b) - key(a))` |
| `Counting` | tally.dfy | the `d[k] = (d[k] \|\| 0) + 1` counting idiom over a seeded or empty dictionary |
| `Series` | series.dfy | per-day buckets of a trailing chart window |
| `Rates` | rates.dfy | the price constants and rounded ratios |
| `Tiers` | tiers.dfy | the tier dictionary and the MRR that both the overview and the subscriptions page compute |
| `Overview` | overview.dfy | app/dashboard/page.js |
| `Subscriptions` | subscriptions.dfy | app/dashboard/subscriptions/page.js |
| `AiAnalytics` | ai_analytics.dfy | app/dashboard/ai-analytics/page.js |
| `FeedbackPage` | feedback.dfy | app/dashboard/feedback/page.js |
| `Support` | support.dfy | app/dashboard/support/page.js |
| `UsersPage` | users.dfy | app/dashboard/users/page.js |
| `DataRoute` | data_route.dfy | app/api/data/route.js: the GET dispatch, and the POST store as the class `Store` |

There are three loops in the source:

- the counting `forEach` calls;
- the `for (let i = 29; i >= 0; i--)` chart loops;
- the `map` that replaces one ticket.

Each becomes a `method` with a `while` loop. Its `ensures` ties the result to a
function of the input, and the properties that matter are proved about that function.
The tables that the POST handler writes to are the fields of the class
`DataRoute.Store`. Each write action is a method with a `modifies this`. Its `ensures`
states the whole new state, and `Post` ties the dispatch to the pure function
`DataRoute.Apply`.

## Model

| member | source | states |
|---|---|---|
| Records.DayShift | app/dashboard/page.js:47-49 | `subDays(now, n)` lands exactly n calendar days before the day of `now` |
| Records.OrElse | app/dashboard/ai-analytics/page.js:28 | `s \|\| fallback` is either the fallback or the field's own non-empty text (the text whenever there is some), so a non-empty fallback never yields '' |
| Records.TotalMessages | app/dashboard/page.js:44 | the message total is at least each conversation's own count, and is 0 when no conversation has an array of messages |
| Records.TotalMessagesAppend | app/dashboard/page.js:44 | the `reduce` total of two lists put together is the sum of their totals |
| Seqs.FilterFacts | app/dashboard/users/page.js:36-40 | `filter` keeps items in their order (a subsequence), keeps only items that pass, keeps every passing item as many times as it occurs, and its length is the number of passing positions |
| Seqs.FilterComplement | app/dashboard/subscriptions/page.js:27-32 | filters by a test and by its negation together hold every item exactly as often as the input does (their multisets add up to the input's), so their lengths add up too |
| Seqs.SortDescSortedPermutation | app/dashboard/ai-analytics/page.js:35 | the descending sort yields a permutation of its input, ordered by key from largest to smallest |
| Seqs.SortDescStable | app/dashboard/ai-analytics/page.js:45-49 | the sort is stable: items with equal keys keep their input order |
| Seqs.StableSortUnique | app/dashboard/ai-analytics/page.js:35 | any two descending orderings that keep each key's items in the same order are equal, so a stable comparator sort has exactly one result |
| Counting.Occurrences | app/dashboard/page.js:38 | the number of times a key occurs is at most the length of the list, and is 0 exactly when the key is absent |
| Counting.CountKeys | app/dashboard/page.js:38 | the counting `forEach` loop computes the dictionary `Tally(seed, keys)` |
| Counting.TallyGet | app/dashboard/page.js:38 | after the loop, each key's count is its seed value plus its number of occurrences |
| Counting.TallyTotal | app/dashboard/page.js:38 | the counts add up to the seed total plus the number of items counted |
| Counting.TallyKeys | app/dashboard/page.js:37-38 | the seed keys stay first in their order, the keys stay distinct, a key is present exactly when it was seeded or counted, and each new key comes after the keys seen before it |
| Counting.SeededTally | app/dashboard/page.js:37-39 | for a dictionary seeded with zeros: the seed keys lead, each count is the number of occurrences, the counts sum to the number of items, and unseeded keys follow in first-seen order |
| Series.WithinExtend | app/dashboard/page.js:47-53 | widening a window by one day adds exactly that day's bucket |
| Series.BucketsCoverWindow | app/dashboard/page.js:47-53 | consecutive per-day buckets add up to the count of the whole window they cover, so nothing is counted twice or missed |
| Series.OnesWeight | app/dashboard/page.js:51 | when each record counts once, the total weight is the number of records |
| Rates.RoundedRatio | app/dashboard/subscriptions/page.js:24 | `toFixed(1)` of `num / den * 100`, in tenths: 0 when den is 0, otherwise the nearest integer (halves round up), and at most `scale` when `num <= den` |
| Tiers.CountTiers | app/dashboard/page.js:37-38 | the tier loop yields a dictionary with free, premium and pro first and distinct keys; each tier's count is its number of profiles, and the counts sum to the number of profiles |
| Tiers.MonthlyRevenueCents | app/dashboard/page.js:41 | MRR is 1299 cents per Premium profile plus 2499 cents per Pro profile |
| Tiers.PayingAtMostAll | app/dashboard/subscriptions/page.js:24 | Premium plus Pro profiles never exceed all profiles, so the conversion rate is at most 100% |
| Overview.NewUsersWeek | app/dashboard/page.js:36 | the number of profiles created in the last 7 days, bounded by the number of profiles |
| Overview.RoundsThisWeek | app/dashboard/page.js:42 | the number of rounds created in the last 7 days, bounded by the number of rounds |
| Overview.SwingsThisWeek | app/dashboard/page.js:43 | the number of swing analyses created in the last 7 days, bounded by their number |
| Overview.ActiveSubscribers | app/dashboard/page.js:40 | the number of profiles whose tier is not free and whose status is active |
| Overview.OpenTickets | app/dashboard/page.js:45 | the number of tickets whose status is open or in_progress |
| Overview.BugReports | app/dashboard/page.js:80 | the number of feedback items whose type is bug |
| Overview.PieDataOrder | app/dashboard/page.js:37-39 | the pie lists free, premium and pro first; then every other tier value once, none of them a seeded tier, in the order of their first profile |
| Overview.GrowthData | app/dashboard/page.js:47-53 | 30 points for the 30 days ending today, oldest first; each holds the profiles created that day, and together they hold exactly the profiles of the window, at most all profiles |
| Overview.ActivityData | app/dashboard/page.js:55-62 | 7 points for the 7 days ending today, each with that day's rounds and swings; the sums equal the window counts and are bounded by the totals |
| Subscriptions.AnnualRevenueCents | app/dashboard/subscriptions/page.js:20-21 | ARR is 12 times the MRR computed from the tier counts |
| Subscriptions.TrialsEndingSoon | app/dashboard/subscriptions/page.js:22 | exactly the profiles whose trial end is set and lies strictly between now and 3 days from now, in order and with their multiplicity |
| Subscriptions.RecentlyCancelled | app/dashboard/subscriptions/page.js:23 | exactly the cancelled profiles updated in the last 30 days, in order and with their multiplicity |
| Subscriptions.ConversionTenths | app/dashboard/subscriptions/page.js:24 | 0 for no profiles; otherwise the paying share in tenths of a percent, rounded half up, and never above 1000 |
| Subscriptions.PieSlices | app/dashboard/subscriptions/page.js:25 | three slices, Free, Premium and Pro, in that order, each with its tier's count |
| Subscriptions.KnownTiersCount | app/dashboard/subscriptions/page.js:25 | the keys in free, premium or pro are at most all keys, and equal all keys exactly when every key is one of the three |
| Subscriptions.PieAccountsForProfiles | app/dashboard/subscriptions/page.js:18-25 | the three slices total at most the number of profiles, and equal it exactly when every profile's tier is one of the three |
| Subscriptions.Listing | app/dashboard/subscriptions/page.js:27-32 | 'all' shows every profile; any other filter shows, in order and with multiplicity, exactly the profiles its branch accepts (paying, trial, cancelled, or that tier) |
| Subscriptions.PayingAndFreePartition | app/dashboard/subscriptions/page.js:28-31 | the 'paying' and 'free' listings together hold every profile exactly as often as the subscriber list does (multisets), and their lengths add up to the number of profiles |
| Subscriptions.ListingCountsTier | app/dashboard/subscriptions/page.js:31 | a tier filter shows as many rows as that tier's count |
| AiAnalytics.WeekConversations | app/dashboard/ai-analytics/page.js:22 | the number of conversations created in the last 7 days |
| AiAnalytics.TopicKeys | app/dashboard/ai-analytics/page.js:28 | each conversation's key is its topic, or 'general' when the topic is empty or null; no key is ever '' |
| AiAnalytics.TopicTallyFacts | app/dashboard/ai-analytics/page.js:24-30 | the topic dictionary has distinct keys in first-seen order; each topic counts its conversations, the counts sum to the number of conversations, and a topic is present exactly when some conversation has it |
| AiAnalytics.Aggregate | app/dashboard/ai-analytics/page.js:23-30 | the `forEach` computes the message total and the topic dictionary at once, with the facts above |
| AiAnalytics.AverageTenths | app/dashboard/ai-analytics/page.js:31 | the average number of messages per conversation in tenths, rounded half up, or 0 when there are no conversations |
| AiAnalytics.MessagesSince | app/dashboard/ai-analytics/page.js:32-33 | messages in a window are at most all messages, and equal them when every conversation lies inside the window |
| AiAnalytics.SinceMonotone | app/dashboard/ai-analytics/page.js:32-33 | a later bound counts no more messages than an earlier one |
| AiAnalytics.WeekWithinMonth | app/dashboard/ai-analytics/page.js:32-33 | week messages ≤ month messages ≤ all messages |
| AiAnalytics.MonthlyCostCents | app/dashboard/ai-analytics/page.js:34 | the estimated cost is 2 cents per message of the last 30 days, bounded by 2 cents per message overall |
| AiAnalytics.TopicDataRanks | app/dashboard/ai-analytics/page.js:35 | the topic chart lists every topic once, with its number of conversations, largest first |
| AiAnalytics.TopicDataKeepsTies | app/dashboard/ai-analytics/page.js:35 | topics with equal counts stay in the dictionary's insertion order |
| AiAnalytics.TopicDataIsTheStableRanking | app/dashboard/ai-analytics/page.js:35 | any ranking that is descending and keeps ties in insertion order is the topic chart |
| AiAnalytics.MessageMarksWeight | app/dashboard/ai-analytics/page.js:41 | the chart's message weights add up to the message total |
| AiAnalytics.DailyData | app/dashboard/ai-analytics/page.js:36-43 | 7 points for the 7 days ending today, each with that day's conversations and messages; the sums equal the window counts and are bounded by the totals |
| AiAnalytics.UserIds | app/dashboard/ai-analytics/page.js:44 | the distinct user ids are exactly those of some conversation, and there are at most as many as conversations |
| AiAnalytics.UserIdsCountAll | app/dashboard/ai-analytics/page.js:44 | there are as many distinct users as conversations exactly when every user has one conversation |
| AiAnalytics.LongestConversations | app/dashboard/ai-analytics/page.js:45-49 | the list holds min(10, n) conversations |
| AiAnalytics.LongestAreLongest | app/dashboard/ai-analytics/page.js:45-49 | the list is ordered longest first, is drawn from the conversations, and no conversation left out is longer than one kept |
| AiAnalytics.LongestKeepTies | app/dashboard/ai-analytics/page.js:45-49 | for each length, the conversations kept are the first ones of that length in the input |
| FeedbackPage.CountTypes | app/dashboard/feedback/page.js:17-18 | bug, feature_request, general and complaint lead, each type counts its items, other types follow in first-seen order, and the counts sum to the number of items |
| FeedbackPage.ThisWeek | app/dashboard/feedback/page.js:19 | the number of items submitted in the last 7 days |
| FeedbackPage.ByType | app/dashboard/feedback/page.js:20 | 'all' shows everything; a type shows exactly the items of that type, in order and with multiplicity |
| FeedbackPage.ByTypeMatchesCount | app/dashboard/feedback/page.js:18-20 | a type filter shows as many items as that type's counter says |
| Support.CountStatuses | app/dashboard/support/page.js:24-25 | open, in_progress, resolved and closed lead, each status counts its tickets, other statuses follow in first-seen order, and the counts sum to the number of tickets |
| Support.ByStatus | app/dashboard/support/page.js:26 | 'all' shows everything; a status shows exactly its tickets, in order and with multiplicity |
| Support.ByStatusMatchesCount | app/dashboard/support/page.js:25-26 | a status filter shows as many tickets as that status's counter says |
| Support.LocalTicketAsWritten | app/dashboard/support/page.js:18 | the local copy as written: the new status, the new notes only when they are a non-empty string, and every other field unchanged |
| Support.ClearedNotesDiverge | app/dashboard/support/page.js:17-18 | saving empty notes over "called back" writes '' to the store, while the page keeps showing "called back" |
| Support.AsWrittenDiffersOnlyWhenClearing | app/dashboard/support/page.js:18 | the copy as written differs from the stored row exactly when the notes are cleared over notes that were not already empty |
| Support.LocalTicket | app/dashboard/support/page.js:18 | the corrected local copy: the new status, the sent notes as they are (or the old notes when none were sent), and every other field unchanged |
| Support.LocalTicketMatchesStore | app/dashboard/support/page.js:17-18 | the corrected copy is exactly the row that update_ticket stores |
| Support.ApplyLocalUpdateAsWritten | app/dashboard/support/page.js:18 | the `map` as written: each ticket with the id gets `notes \|\| t.admin_notes` and the new status, and the rest are untouched |
| Support.LocalListAsWritten | app/dashboard/support/page.js:18 | the list as written keeps its length and every ticket's id |
| Support.LocalListAsWrittenMatchesStoreIff | app/dashboard/support/page.js:17-18 | the list as written equals the store's ticket table after the update exactly when the update does not clear notes that a ticket with the id still has |
| Support.SelectedAfterUpdateAsWritten | app/dashboard/support/page.js:19 | the panel as written: still open when it was, and unchanged when it does not show the ticket |
| Support.SelectedAsWrittenFacts | app/dashboard/support/page.js:18-19 | as written, a panel showing a listed ticket agrees with the list, and it shows the stored row exactly when non-empty notes are not being cleared |
| Support.ApplyLocalUpdate | app/dashboard/support/page.js:18 | the corrected `map` from "## Findings" (not the code as written): each ticket with the id gets `LocalTicket`, the rest are untouched, and the list equals the store's ticket table after the update |
| Support.SelectedAfterUpdate | app/dashboard/support/page.js:19 | the corrected panel update from "## Findings" (not the code as written): the panel gets `LocalTicket` when it shows the ticket, and is unchanged otherwise |
| Support.SelectedFollowsList | app/dashboard/support/page.js:18-19 | with the corrections, a panel showing a listed ticket shows that ticket's row as the store now holds it |
| UsersPage.Lower | app/dashboard/users/page.js:37 | `toLowerCase` keeps the length and lower-cases each character |
| UsersPage.LowerIdempotent | app/dashboard/users/page.js:37 | lower-casing twice is lower-casing once |
| UsersPage.Includes | app/dashboard/users/page.js:37 | `includes` holds exactly when the text occurs at some position |
| UsersPage.SearchFacts | app/dashboard/users/page.js:37 | the search ignores the case of what is typed, and a user is found by their own display name or e-mail |
| UsersPage.Filtered | app/dashboard/users/page.js:36-40 | the users shown are exactly those matching both the search and the tier filter, in order and with multiplicity; with no search and 'all', every user is shown |
| UsersPage.SubscriptionSetLocally | app/dashboard/users/page.js:30 | the local listing keeps its length and every user's round and swing counts |
| UsersPage.LocalListingMatchesStore | app/dashboard/users/page.js:30 | after a change, the local listing's profiles are exactly the profiles the store holds |
| UsersPage.DetailAfterUpdate | app/dashboard/users/page.js:31-33 | the detail panel gets the new tier and status when it shows that user, and is unchanged otherwise |
| UsersPage.DetailFollowsListing | app/dashboard/users/page.js:30-33 | a panel showing a listed user shows the same profile as the listing |
| DataRoute.ParseType | app/api/data/route.js:10 | a read type is recognised only from its own name |
| DataRoute.ParseTypeInverse | app/api/data/route.js:10-100 | every read type is reached by its name, and a type is unknown exactly when it names none of the nine |
| DataRoute.Respond | app/api/data/route.js:10-100 | GET refuses a missing or unknown type with 400 'Invalid type' and only then; a known type gets its body |
| DataRoute.NullListsBecomeEmpty | app/api/data/route.js:11-97 | each list query that returned null (profiles, rounds, swings, conversations, tickets, feedback, tips, drills) reaches the page as an empty list, in every read that carries that list; null owner lists count 0 rounds or swings per user; user_detail passes its single profile on as it came |
| DataRoute.OwnerCounts | app/api/data/route.js:34-37 | the owner dictionaries count each user's rounds and swings |
| DataRoute.UsersListing | app/api/data/route.js:38-42 | every profile in fetched order and otherwise unchanged, with its number of rounds and of swing analyses (0 when it has none) |
| DataRoute.ListUsers | app/api/data/route.js:30-44 | the users read's loops compute `UsersListing` |
| DataRoute.SubscriptionUpdated | app/api/data/route.js:115-120 | rows with the user id get the new tier and status; no other row and no other column changes |
| DataRoute.SubscriptionUpdateIdempotent | app/api/data/route.js:117 | the same subscription update applied twice is the same as once |
| DataRoute.StoredTicket | app/api/data/route.js:123-126 | the status is always set; admin_notes is replaced only when the body carried it (null included); nothing else changes |
| DataRoute.TicketUpdated | app/api/data/route.js:126 | every ticket with the id is updated as above, and the rest are untouched |
| DataRoute.TicketUpdateFacts | app/api/data/route.js:124-126 | a status-only update never touches the notes, and a repeated update changes nothing |
| DataRoute.Find | app/api/data/route.js:89-97 | a lookup finds nothing exactly when no row has the id |
| DataRoute.Replaced | app/api/data/route.js:133-136 | an update by id keeps the number of rows and every row's id |
| DataRoute.Deleted | app/api/data/route.js:144-149 | a delete keeps the other rows in order and with their multiplicity, and leaves no row with the id |
| DataRoute.FindReplaced | app/api/data/route.js:133-136 | after an update, the id reads the new fields if it was present, and every id reads as before otherwise |
| DataRoute.FindAppended | app/api/data/route.js:137-139 | after an insert, the ids already present read as before, and the new id reads the inserted fields |
| DataRoute.FindDeleted | app/api/data/route.js:144-149 | after a delete, the id reads nothing and every other id reads as before |
| DataRoute.SaveThenFind | app/api/data/route.js:131-142 | save_tip and save_drill keep the table well formed; the saved id reads the draft (an update of a missing id changes nothing); every other id reads as before |
| DataRoute.DeleteThenFind | app/api/data/route.js:144-149 | delete_tip and delete_drill keep the table well formed, remove the id and leave every other id alone |
| DataRoute.ApplyFacts | app/api/data/route.js:114-172 | every action keeps the tables well formed; an unknown action, and only that, is refused with 400 'Invalid action' and changes nothing |
| DataRoute.Store.constructor | app/api/data/route.js:108-109 | a store with the given profiles and tickets and no content rows |
| DataRoute.Store.UpdateSubscription | app/api/data/route.js:115-120 | profiles become `SubscriptionUpdated` of the old profiles; every other table is unchanged |
| DataRoute.Store.UpdateTicket | app/api/data/route.js:122-129 | tickets become `TicketUpdated` of the old tickets; every other table is unchanged |
| DataRoute.Store.SaveTip | app/api/data/route.js:131-142 | tips become `Saved` of the old tips, a new id is used only for an insert, and every other table is unchanged |
| DataRoute.Store.DeleteTip | app/api/data/route.js:144-149 | tips become `Deleted` of the old tips; every other table is unchanged |
| DataRoute.Store.SaveDrill | app/api/data/route.js:151-162 | drills become `Saved` of the old drills, a new id is used only for an insert, and every other table is unchanged |
| DataRoute.Store.DeleteDrill | app/api/data/route.js:164-169 | drills become `Deleted` of the old drills; every other table is unchanged |
| DataRoute.Store.Post | app/api/data/route.js:108-178 | POST answers with `Outcome(a)` and leaves the store in `Apply(old state, a)`, keeping the store well formed |

## Left out

- JSX rendering, the `replace('_', ' ')` display labels, the date labels (`'MMM d'`, `'EEE'`), colours and the loading and empty states are not modelled. They change no number.
- `fetch`, `Promise.all`, the React state hooks and `useEffect` are not modelled. A page's metrics are functions of the rows it received, and `now` is a parameter.
- The Supabase queries are not modelled. Their column lists, `order`, `eq` and `limit` become assumptions on the input lists, so the model does not prove that `user_detail` returns at most 20 rounds, for example. A query's `error` is not modelled either.
- The 500 responses of the `catch` blocks (app/api/data/route.js:102-105 and 174-177) are not modelled. The same goes for the unhandled rejection when the POST body is not JSON (route.js:110) and for a save whose `tip` or `drill` is missing. `DataRoute.Action` is the body already decoded, and `Other` stands for any other `action`.
- Every `created_at` and `updated_at` is assumed present and parseable, so each is a plain integer. For a null or unparseable one, the source's `isAfter(parseISO(x), ...)` is false, which quietly leaves the row out of the weekly and 30-day counts (app/dashboard/page.js:36, app/dashboard/subscriptions/page.js:23). `format(parseISO(x), ...)` throws a RangeError there and breaks the chart loops (app/dashboard/page.js:51, 59-60; app/dashboard/ai-analytics/page.js:40). The model has neither case. Only `trial_end_date` is optional.
- The calendar is a fixed day length on a local clock. Daylight-saving days, time zones, and the difference between `startOfDay` and the formatted day string are not modelled.
- Floating point is not modelled. The `12.99` / `24.99` products, `toFixed(1)`, `toFixed(2)` and the division are exact integers in cents or tenths here. `Rates.RoundedRatio` rounds halves up, where `toFixed` rounds the binary value, so ties may come out differently.
- Rates.RoundedRatio: its contract is stated over exact rationals, which is weaker than modelling the JavaScript number that `toFixed` actually rounds.
- The `forEach` counters use string keys in insertion order. JavaScript lists integer-like keys (such as a tier "1") first in numeric order, and the model does not. A null `subscription_tier`, `status`, `topic` or `user_id` key becomes the string "null" in JavaScript. In the model every key is a string, and a null topic is `None`, which turns into 'general'.
- UsersPage.Lower: lower-cases ASCII letters only. JavaScript's `toLowerCase` applies full Unicode case mapping.
- The longest-conversations list sorts a copy (`[...conversations]`), so the page's own list keeps its order. In the model, `AiAnalytics.LongestConversations` takes the list as an immutable value, so this holds by construction and has no lemma of its own.
- The content tables number rows with a counter starting at 1, which stands in for the database's identity column. An explicit `id: 0` on a tip or drill takes the insert branch, as `if (tip.id)` does. The source then inserts the row with its `id: 0` field still in it (app/api/data/route.js:137-138, 157-158), while `Saved` inserts it under the next counter value. An update that sends only some columns is modelled as replacing the whole field record.
- app/api/auth/route.js is not part of this model. It checks a password against an environment variable with a hardcoded fallback (app/api/auth/route.js:5), which matters for security but derives nothing the dashboard shows.
- app/page.js, app/dashboard/layout.js and app/dashboard/content/page.js are not part of this model. The content page's editor is reached only through the save and delete actions modelled above.

## Findings

| source | as written | input that shows it | evidently intended | confidence | as-written member | corrected member |
|---|---|---|---|---|---|---|
| app/dashboard/support/page.js:18-19 | the local copy takes `notes \|\| t.admin_notes`, while the request sends `admin_notes: notes` as is | a ticket whose notes are "called back"; the admin clears the textarea and presses Save Notes, so notes is '' | the local copy and the open panel show what the store now holds, which is '' | not executed | Support.LocalTicketAsWritten, with Support.ClearedNotesDiverge and Support.AsWrittenDiffersOnlyWhenClearing; for the list and panel, Support.ApplyLocalUpdateAsWritten, Support.LocalListAsWrittenMatchesStoreIff and Support.SelectedAsWrittenFacts | Support.LocalTicket, with Support.LocalTicketMatchesStore, used by Support.ApplyLocalUpdate and Support.SelectedAfterUpdate |
