# Paycal subscription tracker — a Dafny model of its core

Paycal (the trypaycal repository) is a subscription tracker with a Node/Express server, a React web
client and a React Native mobile app. Users record their subscriptions, log when they use them, see
monthly totals in Turkish lira, befriend other users, follow their friends' activity, invite people
by code, buy a premium plan and see trending services and recommendations. This project models its
core in Dafny:

- the database layer (`server/database.js`): the choice of backend, the `?`-to-`$n` placeholder
  rewriting for PostgreSQL and the uniform `run`/`get` results of both backends (module `QueryShim`);
  the tables themselves are the fields of one `Domain.Store` object, one sequence per table plus
  the next fresh id, and `Store.Valid()` is the invariant every handler keeps (unique emails, one
  settings, consent and profile row per user, symmetric friendships, at most one request per pair,
  unique ids);
- the token check (`server/middleware/auth.js`, module `AuthMiddleware`), with the JWT signature
  check as a parameter;
- every route file under `server/routes/` (modules `AuthRoutes`, `SubscriptionRoutes`,
  `AnalyticsRoutes`, `FriendsRoutes`, `InviteRoutes`, `ProfileRoutes`, `PremiumRoutes`,
  `ConsentRoutes`, `DiscoverRoutes`, `RecommendationsRoutes`): each handler that writes is a method
  whose `modifies` names exactly the tables it touches and whose `ensures` gives the response and the
  new tables; each handler that only reads is a function of the store;
- the pure helpers of the clients: the mobile calendar, dashboard, statistics, discover and
  registration screens (`CalendarScreen`, `DashboardScreen`, `StatsScreen`, `DiscoverScreen`,
  `RegisterForms`) and the web dashboard and registration page (`WebDashboard`, `RegisterForms`).

Shared modules: `Wrappers` (Option), `Strings` (split, join, trim, substring search, decimal
rendering), `SqlLike` (the `LIKE` matcher with its `%` and `_` wildcards), `Http` (a response: status and body or error message), `Grouping` (SQL `GROUP BY` as
groups in order of first appearance, with sums and counts per group), `Ordering` (a stable sort on a
real key, `LIMIT`/`OFFSET`, with the proof that the first k rows of the sort are the k largest).

Times are integers in milliseconds since the epoch and calendar days are whole day numbers; prices
are reals. The server's clock, its random bytes, bcrypt and the JWT library are parameters of the
handlers. An absent and an empty request field are the same value (`""`), as JavaScript's `||` and
`!x` treat them.

## Model

| member | source | states |
|---|---|---|
| Strings.Split | server/middleware/auth.js:5 | `split` on one character: one more piece than separators, no piece holds the separator, the first piece is a prefix, and joining the pieces back with the separator gives the input |
| Strings.SplitJoin | server/routes/discover.js:58 | splitting a comma-joined list whose names hold no comma gives the list back |
| Strings.SplitAfterPiece | mobile/src/screens/DiscoverScreen.js:117 | a text whose first separator follows a separator-free piece splits with that piece first |
| Strings.Trim | server/routes/profile.js:121-126 | `trim`: a piece of the input that starts and ends with a non-space, and is empty exactly when the input is all whitespace |
| Strings.Contains | server/routes/friends.js:18 | the reference substring test: true exactly when the needle occurs at some position of the text; a search pattern without wildcards is shown to match exactly these texts |
| SqlLike.SearchPattern | server/routes/friends.js:20 | the pattern is the query with one `%` before it and one after it |
| SqlLike.PercentMatchesAll | server/routes/friends.js:18 | `%` alone matches every text, the empty one included |
| SqlLike.LikePlainPrefix | server/routes/friends.js:18 | a pattern that starts with wildcard-free characters matches exactly the texts that start with them and whose remainder matches the rest of the pattern |
| SqlLike.LikeLeadingPercent | server/routes/friends.js:18 | a leading `%` matches exactly when the rest of the pattern matches some suffix of the text |
| SqlLike.PlainPatternIsSubstring | server/routes/friends.js:18-20 | for a query without `%` or `_`, `LIKE '%q%'` holds exactly when the text contains the query |
| SqlLike.DoublePercentMatchesAll | server/routes/friends.js:18-20 | the query "%%" gives a pattern that matches every text |
| SqlLike.UnderscoreIsAWildcard | server/routes/friends.js:18-20 | `_` in a query matches any one character: "a_c" finds "abc", which does not contain it |
| Strings.UpperFirst | mobile/src/screens/DashboardScreen.js:65 | `charAt(0).toUpperCase()`: one character, the first one in upper case, or nothing for an empty text |
| Strings.NatToString | mobile/src/screens/DiscoverScreen.js:135-138 | a template number: at least one character, all decimal digits |
| Strings.NatToStringValue | mobile/src/screens/DiscoverScreen.js:135-138 | the digits read back as a decimal number give the number rendered |
| QueryShim.SelectBackend | server/database.js:9-26 | PostgreSQL exactly when `DATABASE_URL` is non-empty, SQLite otherwise |
| QueryShim.NumberedHasNoPlaceholder | server/database.js:61-62 | after numbering, no `?` is left in the text |
| QueryShim.ConvertPlaceholders | server/database.js:39-40 | the counter-driven replace loop produces exactly `Translate(text)` and leaves no `?` |
| QueryShim.StatementText | server/database.js:31-55 | SQLite receives the query unchanged; PostgreSQL receives a text without `?` |
| QueryShim.NumberedAppend | server/database.js:83-84 | numbering a concatenation numbers the second part from where the first stopped (first count plus the `?`s seen) |
| QueryShim.NumberedIdentity | server/database.js:83-84 | a text without `?` is left exactly as it is |
| QueryShim.NumberedJoin | server/database.js:83-84 | numbering pieces joined by `?` interleaves the unchanged pieces with `$k`, `$k+1`, ... |
| QueryShim.TranslateShape | server/database.js:83-84 | the translation is the query's `?`-separated pieces in order with `$1`, `$2`, ... between them; one marker per placeholder |
| QueryShim.TranslateNoPlaceholders | server/database.js:83-84 | a query without placeholders reaches PostgreSQL as written |
| QueryShim.TranslateKth | server/database.js:83-84 | the `?` preceded by n other `?`s becomes `$(n+1)` |
| QueryShim.QuotedPlaceholderNumbered | server/database.js:40 | a `?` inside a quoted SQL literal is numbered like any other: there is no escaping |
| QueryShim.PgRun | server/database.js:87-95 | PostgreSQL `run`: `changes` is `rowCount`; `lastID` is the first returned row's id, or null when no row came back |
| QueryShim.SqliteRun | server/database.js:100-103 | SQLite `run` passes the statement's `lastID` and `changes` through |
| QueryShim.FirstRow | server/database.js:42-47 | `get` yields nothing exactly for an empty answer, otherwise its first row |
| AuthMiddleware.ExtractToken | server/middleware/auth.js:4-5 | a token is the non-empty second space-separated field of a present header, and every such field is taken |
| AuthMiddleware.ExtractFromScheme | server/middleware/auth.js:5 | `<scheme> <token>` yields the token whatever the scheme word is |
| AuthMiddleware.NoSpaceNoToken | server/middleware/auth.js:5-9 | a header without a space carries no token |
| AuthMiddleware.Authenticate | server/middleware/auth.js:3-18 | 401 exactly when no token, 403 exactly when the token does not verify, otherwise passes on with the verified claims |
| AuthMiddleware.CheckPremium | server/middleware/auth.js:20-28 | 403 'Premium feature' exactly when the premium claim is false, otherwise passes the same user on |
| Domain.Store.FreshId | server/routes/subscriptions.js:59-66 | the id handed out is the counter's old value and the counter moves past it, so every inserted row gets a fresh id |
| Domain.Bit | server/routes/subscriptions.js:63 | booleans are stored as 1 exactly when true, 0 otherwise |
| Domain.FindUser | server/routes/subscriptions.js:46 | the row found is in the table and has that id; nothing found means no row has it |
| Domain.SubsOf | server/routes/subscriptions.js:45 | `WHERE user_id = ?` keeps exactly the caller's rows |
| Domain.OwnedSub | server/routes/subscriptions.js:22-25 | the row found has that id and belongs to the caller; nothing found means no such row exists |
| Domain.SubsOfAppend | server/routes/subscriptions.js:45 | appending a row adds it to its owner's rows only |
| Domain.AddedEntry | server/routes/subscriptions.js:71-75 | the feed entry belongs to the subscription's owner, names that subscription and has type 'subscription_added' |
| SubscriptionRoutes.OrDefault | server/routes/subscriptions.js:63 | `x \|\| fallback`: a present value is kept, an empty one replaced by the fallback |
| SubscriptionRoutes.List | server/routes/subscriptions.js:7-17 | 200 with exactly the caller's rows (same multiset), newest first |
| SubscriptionRoutes.Get | server/routes/subscriptions.js:20-33 | 200 with a row of the caller having that id, 404 exactly when there is none |
| SubscriptionRoutes.Insert | server/routes/subscriptions.js:59-76 | the row is appended with a fresh id and the defaults '₺', 'Diğer', 'bg-blue-500', 'monthly'; a feed entry follows unless the row is private |
| SubscriptionRoutes.Create | server/routes/subscriptions.js:36-86 | 400 exactly for a missing name or price (`MissingField`); 500 for a vanished user; 403 exactly for a non-premium caller at five rows; otherwise 201 with one row (and feed entry) added; a non-premium caller never passes five rows |
| SubscriptionRoutes.AssignAllAppend | server/routes/subscriptions.js:110-130 | applying the SET items of two lists in turn equals applying their concatenation |
| SubscriptionRoutes.AssignPushIf | server/routes/subscriptions.js:113-119 | a conditional push sets its field exactly when the field is present |
| SubscriptionRoutes.AssignmentsPatch | server/routes/subscriptions.js:113-130 | running the pushed SET items on a row gives the patched row: every present field set, every other kept |
| SubscriptionRoutes.AssignmentsEmpty | server/routes/subscriptions.js:113-123 | the list of SET items is empty exactly when the patch carries no field, and holds at most seven |
| SubscriptionRoutes.PushWhen | server/routes/subscriptions.js:113-119 | one `if (field) updates.push(...)` step appends the item exactly when the field is present |
| SubscriptionRoutes.CollectAssignments | server/routes/subscriptions.js:110-119 | the collected items are the patch's present fields in push order, none exactly for an empty patch, and they produce the patched row |
| SubscriptionRoutes.ItemPlaceholders | server/routes/subscriptions.js:113-119 | every SET item carries exactly one placeholder |
| SubscriptionRoutes.SetClausePlaceholders | server/routes/subscriptions.js:128 | the joined SET clause carries one placeholder per item |
| SubscriptionRoutes.UpdateStatementArity | server/routes/subscriptions.js:125-130 | the UPDATE text has exactly as many placeholders as values bound (items plus id and user id) |
| SubscriptionRoutes.PatchRows | server/routes/subscriptions.js:127-130 | the UPDATE patches the caller's row with that id, leaves every other row, and keeps ids and owners |
| SubscriptionRoutes.RecordPriceChange | server/routes/subscriptions.js:103-108 | one price-history row (old, new) exactly when a price is given and differs from the stored one |
| SubscriptionRoutes.ApplyPatch | server/routes/subscriptions.js:127-130 | the table becomes the patched rows |
| SubscriptionRoutes.Update | server/routes/subscriptions.js:89-140 | 404 exactly for a missing or foreign id; 400 exactly for an empty patch; on 200 the row is patched, returned, and a price change recorded when the price differs; nothing changes on an error |
| SubscriptionRoutes.UpdateFound | server/routes/subscriptions.js:103-130 | once the caller's row is found: 400 exactly for a patch with no field, changing nothing; otherwise the row patched, the patched row returned, and a price-history row exactly when the price is present and differs |
| SubscriptionRoutes.RemoveOwned | server/routes/subscriptions.js:145-148 | the DELETE removes exactly the caller's rows with that id, and removes some row exactly when one exists |
| SubscriptionRoutes.RemoveOwnedUnique | server/routes/subscriptions.js:145-148 | deleting keeps the ids unique |
| SubscriptionRoutes.RemoveNothing | server/routes/subscriptions.js:149-151 | with no matching row the table is unchanged |
| SubscriptionRoutes.Delete | server/routes/subscriptions.js:143-156 | 404 exactly when no row was deleted (the table unchanged), otherwise the row is gone |
| SubscriptionRoutes.LastUsedMonotonic | server/routes/subscriptions.js:172-177 | a given `used_at` never moves `last_used` back; a later one replaces it; an earlier one keeps it; none means now |
| SubscriptionRoutes.WithLastUsed | server/routes/subscriptions.js:173-176 | the UPDATE sets `last_used` of the row with that id and nothing else |
| SubscriptionRoutes.WithOwnLastUsed | server/routes/subscriptions.js:172 | writing a row's own `last_used` back changes nothing |
| SubscriptionRoutes.LogUsage | server/routes/subscriptions.js:159-190 | 404 exactly for a missing or foreign id with nothing changed; otherwise `last_used` moves as the guard says and one usage row dated `used_at` or now is appended |
| Grouping.IndexOfKey | server/routes/analytics.js:149-155 | the position found holds a group with that key; -1 means no group has it |
| Grouping.GroupByCorrect | server/routes/analytics.js:149-155 | `GROUP BY` yields one group per key, with no key twice, each holding exactly the rows with that key |
| Grouping.WithKeyNone | server/routes/analytics.js:149-155 | a key no row has selects no row |
| Grouping.SumGroupsUpdate | server/routes/analytics.js:149-155 | adding a row to a group adds its value to the total of the sums and one to the total count |
| Grouping.GroupByTotals | server/routes/analytics.js:149-155 | grouping loses and invents no row: the group sizes add up to the row count and the group sums to the total |
| Grouping.SumOverAppend | server/routes/analytics.js:12-14 | `SUM` over two lists of rows is the sum of their sums |
| Grouping.Where | mobile/src/screens/CalendarScreen.js:172 | `filter`: exactly the elements that satisfy the test are kept |
| Grouping.WhereCounts | mobile/src/screens/CalendarScreen.js:172 | a kept element occurs as many times as in the input, a dropped one not at all |
| Grouping.WhereAppend | mobile/src/screens/CalendarScreen.js:172 | filtering a concatenation is the concatenation of the filtered parts, so the input order is kept |
| Grouping.WhereAll | mobile/src/screens/CalendarScreen.js:172 | a test every element passes keeps the whole input |
| Grouping.WhereNone | server/routes/discover.js:62-66 | a filter no row passes selects nothing |
| Grouping.SumOverPermutation | server/routes/analytics.js:150 | reordering rows does not change their `SUM` |
| Ordering.Insert | server/routes/analytics.js:56-59 | inserting into a descending list keeps it descending and adds exactly that element |
| Ordering.SortDesc | server/routes/analytics.js:56-59 | `ORDER BY key DESC` gives a permutation of the rows in descending key order |
| Ordering.SortAsc | mobile/src/screens/StatsScreen.js:60-65 | an ascending sort gives a permutation of the rows in ascending key order |
| Ordering.Take | server/routes/discover.js:33-34 | `LIMIT n` keeps a prefix of length min(n, rows) |
| Ordering.Drop | server/routes/discover.js:33-34 | `OFFSET n` drops the first min(n, rows) rows and keeps the rest in order |
| Ordering.CutSortedDesc | server/routes/discover.js:33-34 | cutting a descending list leaves no key in the rest above a key in the prefix |
| Ordering.TopByKey | server/routes/discover.js:90-101 | the first n of a descending sort and the rest partition the rows, and no row left out has a larger key than one taken |
| Ordering.BottomByKey | mobile/src/screens/StatsScreen.js:60-65 | the first n of an ascending sort and the rest partition the rows, and no row left out has a smaller key than one taken |
| Ordering.SortedPage | server/routes/discover.js:33-34 | a page of a descending list is descending |
| Ordering.PageOfSort | server/routes/discover.js:33-34 | a page of a descending sort is descending and holds only input rows |
| Ordering.TopElements | server/routes/discover.js:90-101 | a row left out of the first n of a descending sort has no larger key than a row taken |
| Ordering.BottomElements | mobile/src/screens/StatsScreen.js:60-65 | a row left out of the first n of an ascending sort has no smaller key than a row taken |
| AnalyticsRoutes.Rate | server/routes/analytics.js:16-20 | lira counts once, dollars 34 times, euros 36 times; any other currency is not counted |
| AnalyticsRoutes.CurrencyTotalLast | server/routes/analytics.js:12-14 | one more row adds its price to its own currency's sum only |
| AnalyticsRoutes.TotalMonthlyConverted | server/routes/analytics.js:12-20 | the three-currency formula equals the sum of every subscription's price converted to lira |
| AnalyticsRoutes.GetSummary | server/routes/analytics.js:7-49 | the total is the converted price sum of the caller's rows, the count is their number, the underused count the number failing the 30-day test |
| Domain.UnderusedDialectsAgree | server/routes/analytics.js:28-36 | the PostgreSQL and SQLite forms of the 30-day test select the same rows |
| AnalyticsRoutes.GetUnderused | server/routes/analytics.js:52-72 | exactly the caller's underused rows (same multiset), most expensive first |
| AnalyticsRoutes.SummaryCountsTheList | server/routes/analytics.js:25-43 | the summary's underused count is the length of the underused list |
| AnalyticsRoutes.UnderusedListComplete | server/routes/analytics.js:52-68 | every underused row of the caller appears in the list |
| AnalyticsRoutes.RecentDialectsAgree | server/routes/analytics.js:88-102 | the two dialects' 30-day windows over usage rows agree |
| AnalyticsRoutes.DayCounts | server/routes/analytics.js:89-94 | each `DATE, COUNT(*)` row is its group's day and size |
| AnalyticsRoutes.DayCountsTotal | server/routes/analytics.js:89-94 | the per-day counts add up to the number of grouped rows |
| AnalyticsRoutes.UsageRows | server/routes/analytics.js:89-94 | the per-day rows are the grouped counts, newest day first |
| AnalyticsRoutes.UsageRowsTotal | server/routes/analytics.js:104-106 | `totalUsage` equals the number of recent usage rows |
| AnalyticsRoutes.UsageRowsCount | server/routes/analytics.js:89-94 | each row counts exactly the usage rows inserted on its day, at least one |
| AnalyticsRoutes.UsageRowsCover | server/routes/analytics.js:89-94 | every day with a usage row has its row |
| AnalyticsRoutes.UsageRowsDistinct | server/routes/analytics.js:89-94 | no day has two rows |
| AnalyticsRoutes.UsageReportOf | server/routes/analytics.js:104-117 | newest day first, one row per active day, `daysActive` the row count, `totalUsage` the entry count, `avgPerDay` the nearest tenth to total/30, or 0 when no day is active |
| AnalyticsRoutes.AvgPerDay | server/routes/analytics.js:115 | `(total / 30).toFixed(1)` as a number: a whole number of tenths, less than half a tenth away from total/30 |
| AnalyticsRoutes.DistinctAfterSort | server/routes/analytics.js:93-94 | sorting the per-day rows keeps their dates distinct |
| AnalyticsRoutes.GetUsage | server/routes/analytics.js:75-122 | 404 exactly for a missing or foreign id, otherwise the report over the last thirty days' rows |
| AnalyticsRoutes.GetPriceHistory | server/routes/analytics.js:125-144 | 404 exactly for a missing or foreign id, otherwise exactly that subscription's price changes, newest first |
| AnalyticsRoutes.CategoryTotals | server/routes/analytics.js:149-155 | each category row is its group's key, size and raw price sum |
| AnalyticsRoutes.CategoryRowsExact | server/routes/analytics.js:149-155 | each row counts and sums exactly the subscriptions of its category; no category has two rows |
| AnalyticsRoutes.CategoryRowsCover | server/routes/analytics.js:149-155 | every subscription's category has its row |
| AnalyticsRoutes.GetCategories | server/routes/analytics.js:147-160 | the breakdown is over the caller's rows only |
| AnalyticsRoutes.CategoryTotalsSum | server/routes/analytics.js:149-155 | the rows' counts and totals add up to the grouped rows' count and sum |
| AnalyticsRoutes.CategoriesCoverAll | server/routes/analytics.js:149-155 | the counts add up to the caller's subscription count and the totals to the raw price sum |
| PremiumRoutes.Status | server/routes/premium.js:7-20 | premium is active exactly when the flag is set and the expiry is absent or still ahead; the expiry is reported as stored; a missing user row is the 500 answer |
| PremiumRoutes.SetPremium | server/routes/premium.js:93-132 | the update changes the flag and expiry of the caller's row only; every other row, and every id and email, is kept |
| PremiumRoutes.FindAfterSetPremium | server/routes/premium.js:93-132 | the caller's row after the update is the old one with the new flag and expiry, and exists exactly when it existed before |
| PremiumRoutes.Subscribe | server/routes/premium.js:72-127 | an unknown plan is 400 and changes nothing; a known plan sets flag and expiry, records an 'active' purchase, adds the plan as a lira subscription due on the expiry date and announces it in the feed, and leaves the caller premium now |
| PremiumRoutes.RecordPurchase | server/routes/premium.js:92-100 | the purchase half of a subscribe: the flag and expiry, then one 'active' purchase row with a fresh id |
| PremiumRoutes.Cancel | server/routes/premium.js:130-137 | the caller's flag goes off and the expiry is cleared; no other table changes |
| PremiumRoutes.CancelledIsInactive | server/routes/premium.js:11-12 | after a cancellation the status test reports not premium at every time |
| PremiumRoutes.SubscribedActiveUntilExpiry | server/routes/premium.js:11-12 | after a purchase the status test reports premium exactly before the expiry |
| AuthRoutes.FindByEmail | server/routes/auth.js:54 | a user found has that email; nothing found means no row has it |
| AuthRoutes.NewUser | server/routes/auth.js:20-21 | the inserted user carries the email and hash, the name or '' when none was sent, and starts without premium or invite token |
| AuthRoutes.Register | server/routes/auth.js:9-43 | missing email or password is 400; an email in use is 400 'Bu e-posta zaten kullanımda'; neither adds a row; otherwise exactly one user is appended and the 201 answer carries its id and a token whose premium claim is false |
| AuthRoutes.Login | server/routes/auth.js:46-85 | missing fields are 400; success happens exactly when the email exists and the password matches its hash, and signs the stored premium flag; every other failure is the same 401 |
| AuthRoutes.LoginFailuresIndistinguishable | server/routes/auth.js:56-63 | an unknown email and a wrong password produce identical answers |
| AuthRoutes.ExpiredPremiumPassesCheck | server/routes/auth.js:65-69 | a user whose premium has expired still gets a true premium claim at login and so passes the premium middleware |
| AuthRoutes.Me | server/routes/auth.js:88-100 | 404 exactly when the caller's row is gone; otherwise the user with the premium flag as a boolean |
| ConsentRoutes.FindConsent | server/routes/consent.js:9-32 | a row found belongs to the user; nothing found means the user has no row |
| ConsentRoutes.Status | server/routes/consent.js:7-25 | 'answered' exactly when the user has a row, and consent exactly when that row's flag is non-zero |
| ConsentRoutes.UpsertContents | server/routes/consent.js:34-44 | after a save the user's row holds the answer as 1/0 and other users' rows are neither lost nor added |
| ConsentRoutes.UpsertOneRowPerUser | server/routes/consent.js:32-44 | the read-then-update-or-insert save keeps one consent row per user |
| ConsentRoutes.SaveThenStatus | server/routes/consent.js:9-44 | round trip: a lookup after saving finds exactly the saved answer |
| ConsentRoutes.FindUniqueConsent | server/routes/consent.js:9 | with one row per user, the lookup returns the user's only row |
| ConsentRoutes.SaveIdempotent | server/routes/consent.js:34-44 | saving the same answer twice gives the same table as saving it once |
| ConsentRoutes.Save | server/routes/consent.js:28-49 | the table becomes the upsert of the answer, and the status then reports it back |
| FriendsRoutes.SearchHits | server/routes/friends.js:15-21 | exactly the users other than the caller whose email or name matches the `LIKE` pattern of the query, wildcards included, in table order |
| FriendsRoutes.PlainQueryFindsSubstrings | server/routes/friends.js:18-20 | for a query without `%` or `_`, a user is a hit exactly when it is not the caller and its email or name contains the query |
| FriendsRoutes.DoublePercentFindsEveryone | server/routes/friends.js:10-20 | the two-character query "%%" passes the length guard and finds every user but the caller |
| FriendsRoutes.Search | server/routes/friends.js:7-26 | a query under two characters is 400; otherwise the first twenty hits in table order, as many as there are up to twenty, none the caller |
| FriendsRoutes.RequestRefusal | server/routes/friends.js:36-61 | a request may be stored exactly when the target is not the caller, the two are not friends and no request exists between them in either direction; the refusals come in the route's order |
| FriendsRoutes.NewRequestWellFormed | server/routes/friends.js:42-67 | a request that passed the guards keeps the invariant: at most one request per pair, and none pending between friends |
| FriendsRoutes.InsertRequest | server/routes/friends.js:64-67 | one pending request from the caller to the target is appended under a fresh id |
| FriendsRoutes.SendRequest | server/routes/friends.js:29-72 | a missing target and every guard failure are 400 with their messages and change nothing; otherwise exactly one pending request is added and its id returned |
| FriendsRoutes.PendingEntries | server/routes/friends.js:77-101 | exactly the pending requests to (incoming) or from (outgoing) the caller whose other user still exists, each with that user's contact |
| FriendsRoutes.RequestList | server/routes/friends.js:75-106 | the listed entries, all and only them, newest first |
| FriendsRoutes.RequestListSound | server/routes/friends.js:81-98 | every entry of either list comes from a pending request in the right direction for the caller |
| FriendsRoutes.FindRequest | server/routes/friends.js:113-146 | the position found holds that id; nothing found means no request has it |
| FriendsRoutes.AcceptedFriendsWellFormed | server/routes/friends.js:127-130 | inserting both rows of a new friendship keeps the friends table mirrored and without repeats |
| FriendsRoutes.AcceptedRequestsWellFormed | server/routes/friends.js:122-130 | marking the request accepted and adding the friendship keeps the request invariant |
| FriendsRoutes.ApplyAccept | server/routes/friends.js:122-130 | the request's status becomes accepted and the two mirrored friendship rows are appended |
| FriendsRoutes.Accept | server/routes/friends.js:109-136 | 404 exactly when no pending request with that id is addressed to the caller, and then nothing changes; otherwise the request is accepted and the two become friends both ways |
| FriendsRoutes.Reject | server/routes/friends.js:139-157 | 404 exactly when the caller has no request with that id; otherwise that request becomes rejected whatever its status, and friendships are untouched |
| FriendsRoutes.FriendEntries | server/routes/friends.js:162-169 | one entry per caller's friends row whose friend still exists (the inner join), each with that friend's email and name, and nothing else |
| FriendsRoutes.List | server/routes/friends.js:160-174 | everyone listed is a friend of the caller with the friend's own email and name, every joined row of the caller is listed, and the list has one entry per joined row |
| FriendsRoutes.WithoutPair | server/routes/friends.js:181-185 | the delete removes exactly the rows joining the two users in either direction; the table shrinks exactly when such a row existed |
| FriendsRoutes.WithoutPairWellFormed | server/routes/friends.js:181-185 | removing a pair keeps the friends table mirrored and without repeats |
| FriendsRoutes.MirrorKept | server/routes/friends.js:181-185 | the mirror of every row kept is kept too |
| FriendsRoutes.NoRepeatsKept | server/routes/friends.js:181-185 | the delete introduces no repeated pair |
| FriendsRoutes.WithoutPairKeepsRequests | server/routes/friends.js:181-185 | fewer friendship rows never break the request invariant |
| FriendsRoutes.Unfriend | server/routes/friends.js:177-195 | 404 exactly when the two were not friends in either direction, changing nothing; afterwards no row joins them |
| FriendsRoutes.UnchangedFilter | server/routes/friends.js:187-189 | a delete that matches nothing leaves the table as it was |
| FriendsRoutes.FriendshipSymmetric | server/routes/friends.js:127-130 | since rows are added and removed in pairs, a is b's friend exactly when b is a's |
| InviteRoutes.Link | server/routes/invite.js:15-24 | the link is the fixed `paycal://invite/` prefix followed by the token, and nothing else |
| InviteRoutes.LinkInjective | server/routes/invite.js:15-24 | different tokens give different links: the token can be read back from its link |
| InviteRoutes.IssuedToken | server/routes/invite.js:12-19 | a stored non-empty token is reused; otherwise the freshly drawn one is issued |
| InviteRoutes.TokenIdempotent | server/routes/invite.js:12-20 | once stored, a later call returns the same token whatever it draws |
| InviteRoutes.SetToken | server/routes/invite.js:20 | only the caller's row gets the token; every other row is kept |
| InviteRoutes.FindAfterSetToken | server/routes/invite.js:20 | the caller's row after the update is the old one holding the new token |
| InviteRoutes.Token | server/routes/invite.js:8-29 | 500 exactly when the caller's row is gone, changing nothing; otherwise the issued token and its link, stored on the caller's row, with other users untouched |
| InviteRoutes.FindByToken | server/routes/invite.js:36-75 | a user found holds that token; nothing found means nobody does |
| InviteRoutes.Resolve | server/routes/invite.js:32-68 | 404 exactly for an unknown token and 400 exactly for the caller's own; otherwise the holder with 'friend' exactly when a friends row joins the two either way and 'pending' exactly when any request joins them |
| InviteRoutes.AcceptByToken | server/routes/invite.js:71-114 | 404 exactly for an unknown token, 400 exactly when the direct request's guards refuse the holder; neither changes anything; otherwise one pending request to the holder is added under a fresh id |
| ProfileRoutes.FindSettings | server/routes/profile.js:136-160 | a row found belongs to the user; nothing found means the user has no settings row |
| ProfileRoutes.PrivacyGet | server/routes/profile.js:134-153 | the stored flags when the user has a row, and the defaults public 1, subscriptions 1, spending 0, requests 1 otherwise |
| ProfileRoutes.Merge | server/routes/profile.js:168-184 | each field given in the body replaces the old value and each field left out keeps it |
| ProfileRoutes.UpdateSettings | server/routes/profile.js:163-174 | only the user's row changes, to the merge of its flags with the body; every other row is kept |
| ProfileRoutes.FindOnlySettings | server/routes/profile.js:136-160 | with one row per user the lookup finds the user's only row |
| ProfileRoutes.FoundSettingsAt | server/routes/profile.js:136 | a row the lookup finds is at some position of the table |
| ProfileRoutes.PrivacyPut | server/routes/profile.js:156-192 | updates the row or inserts the body over the defaults; one row per user remains, and a later GET reports the merge of the previous GET with the body |
| ProfileRoutes.EmptyPatchKeepsView | server/routes/profile.js:168-171 | a body with no fields changes nothing a GET reports |
| ProfileRoutes.FriendRowCount | server/routes/profile.js:38-41 | the count is at most the table size, and zero exactly when no row starts at the user |
| ProfileRoutes.OwnProfileOf | server/routes/profile.js:7-56 | 404 exactly without a user row; otherwise the user, the settings as the left join gives them, the subscription count, the raw price sum (0 with none) and the friend count |
| ProfileRoutes.ProfileTotalIsUnconverted | server/routes/profile.js:32 | the profile's total adds prices as stored: a 10-dollar subscription counts 10, where the dashboard counts 340 lira |
| ProfileRoutes.PriceSum | server/routes/profile.js:32 | `SUM(price)` is NULL exactly for no rows, and otherwise the sum of the prices |
| ProfileRoutes.OtherProfileOf | server/routes/profile.js:59-115 | 404 exactly without the user; 403 exactly when the joined public flag is falsy and the caller has no friends row to the user; otherwise the profile, with the count shown only under its flag and the monthly total shown exactly when a settings row exists, its spending flag is truthy and the user has a subscription, and then equal to the sum of their prices |
| ProfileRoutes.UnsavedSettingsHideProfile | server/routes/profile.js:68-89 | a user without a settings row is told their profile is public, yet a non-friend gets 403 |
| ProfileRoutes.OtherProfileIntended | server/routes/profile.js:59-115 | the same answers, judged by the flags the owner is shown (defaults included): the total is shown exactly when that spending flag is truthy and the user has a subscription, and is the sum of their prices |
| ProfileRoutes.IntendedAgreesWithSavedSettings | server/routes/profile.js:68-89 | for a user with a settings row the intended and the written route agree |
| ProfileRoutes.IntendedUnsavedIsPublic | server/routes/profile.js:138-146 | under the intended rule a user without settings is visible to all, with the count shown and the total hidden |
| ProfileRoutes.SetName | server/routes/profile.js:126 | only the caller's name changes; every other row is kept |
| ProfileRoutes.UpdateName | server/routes/profile.js:118-131 | 400 exactly when the trimmed name has fewer than two characters, changing nothing; otherwise the trimmed name is stored and echoed, and it has no leading or trailing space |
| DiscoverRoutes.ItemsWhere | server/routes/discover.js:22-24 | exactly the feed entries satisfying the filter whose author still exists, each joined with that author's name and email |
| DiscoverRoutes.PageOf | server/routes/discover.js:8 | `limit` and `offset` default to 50 and 0 when the query string leaves them out; given ones are used as they are (non-negative whole numbers only) |
| DiscoverRoutes.FeedItems | server/routes/discover.js:11-25 | exactly the entries by somebody else to whom the caller has a friends row, joined with their authors |
| DiscoverRoutes.Feed | server/routes/discover.js:7-34 | one page, newest first, of the friends' entries: nothing of the caller's own or of a non-friend, at most `limit` entries, after skipping `offset` |
| DiscoverRoutes.DistinctNames | server/routes/discover.js:45 | every friend's name of the group appears, no name twice, and no other name does |
| DiscoverRoutes.SplitNames | server/routes/discover.js:58 | a NULL list and an empty one (both falsy) give no names; any other gives pieces that join back with commas to the list, one more than its commas |
| DiscoverRoutes.Popular | server/routes/discover.js:37-65 | at most ten rows, most-announced first, the top of the per-name rows of the friends' announcements |
| DiscoverRoutes.PopularRowsExact | server/routes/discover.js:44-50 | each name's count is the number of friends' announcements of it (at least one), and no name has two rows |
| DiscoverRoutes.PopularIsTop | server/routes/discover.js:51-52 | no name left out of the ten is more popular than one shown |
| DiscoverRoutes.TopCounts | server/routes/discover.js:51-52 | the first ten of the descending order have counts at least as large as every row left out |
| DiscoverRoutes.FriendNamesRoundTrip | server/routes/discover.js:45-58 | when no friend's name holds a comma, splitting the concatenation gives back the distinct names, except that a group whose friends all have the empty name (stored as `''` by server/routes/auth.js:21) sends no names at all |
| DiscoverRoutes.CommaInNameSplits | server/routes/discover.js:58 | a friend named "Ali,Veli" comes back as two names |
| DiscoverRoutes.TwoNamesSplit | server/routes/discover.js:58 | two comma-free names joined by a comma, the first non-empty, come back as those two names |
| DiscoverRoutes.RecentAnnouncements | server/routes/discover.js:76-78 | exactly the platform's 'subscription_added' entries of the last thirty days |
| DiscoverRoutes.Trending | server/routes/discover.js:68-88 | always 200, and exactly the first twenty (or all, if fewer) per-name rows of the recent announcements in descending order of announcements |
| DiscoverRoutes.TrendingRowsExact | server/routes/discover.js:73-79 | each name's count is its number of recent announcements (at least one), the average times the count is their price sum, and no name has two rows |
| DiscoverRoutes.TrendingIsTop | server/routes/discover.js:80-81 | no name left out of the twenty has more recent announcements than one shown |
| DiscoverRoutes.MatchingSubs | server/routes/discover.js:102-104 | the subscriptions rows the join pairs with a name are that name's rows in the category, of any user |
| DiscoverRoutes.SuggestionJoinCount | server/routes/discover.js:101-104 | the joined rows for a name number the friends' announcements of it times its subscriptions rows in the category |
| DiscoverRoutes.Suggestions | server/routes/discover.js:91-114 | always 200, and exactly the first ten (or all, if fewer) per-name rows of the friends' join in descending order of count |
| DiscoverRoutes.SuggestionsIsTop | server/routes/discover.js:105-106 | no name left out of the ten has a higher count than one shown |
| DiscoverRoutes.SuggestionCounts | server/routes/discover.js:100-105 | a suggestion's count is the product above and at least one, and no name has two rows |
| DiscoverRoutes.SuggestionCountInflated | server/routes/discover.js:100-102 | one friend adding a name twice counts 2 with one matching subscriptions row, and 4 with two |
| DiscoverRoutes.FriendActivity | server/routes/discover.js:117-146 | 403 exactly when the caller has no friends row to that user; otherwise at most fifty of that user's entries, newest first |
| DiscoverRoutes.FriendActivityIsTheFriends | server/routes/discover.js:137 | every entry shown is by that friend |
| DiscoverRoutes.WeeklyFeatured | server/routes/discover.js:149-166 | at most three slots, best paid first, each active and running on today's UTC date |
| DiscoverRoutes.WeeklyFeaturedIsTop | server/routes/discover.js:158-159 | a running slot not shown is paid no more than any slot shown |
| DiscoverRoutes.CountImpression | server/routes/discover.js:178-181 | the slot with that id gains one impression, and nothing else of any slot changes |
| DiscoverRoutes.CountClick | server/routes/discover.js:194-197 | the slot with that id gains one click, and nothing else of any slot changes |
| DiscoverRoutes.Impression | server/routes/discover.js:169-187 | one impression row with a fresh id for the caller is appended and the slot's count goes up by one; an unknown id still gets its row; the `impressionId` answered is the new row's id on SQLite and null on PostgreSQL |
| DiscoverRoutes.InsertLastId | server/database.js:87-103 | the `lastID` of an insert without `RETURNING`: the new row's id on SQLite and null on PostgreSQL |
| DiscoverRoutes.Click | server/routes/discover.js:190-202 | the slot's click count goes up by one and nothing else changes |
| RecommendationsRoutes.FindProfile | server/routes/recommendations.js:11-45 | a row found belongs to the user; nothing found exactly when the user has no row |
| RecommendationsRoutes.ProfileRow | server/routes/recommendations.js:18-23 | the saved row carries occupation and interests as sent and the student flag as 1 or 0 |
| RecommendationsRoutes.UpsertKeepsOnePerUser | server/routes/recommendations.js:11-25 | the read-then-update-or-insert save keeps one profile per user |
| RecommendationsRoutes.FindOnlyProfile | server/routes/recommendations.js:35 | with one profile per user the lookup finds the user's only row |
| RecommendationsRoutes.SavedProfileFound | server/routes/recommendations.js:11-35 | round trip: after a save the user's profile is the row saved |
| RecommendationsRoutes.UpsertLeavesOthers | server/routes/recommendations.js:14-24 | a save leaves every other user's profile as it was |
| RecommendationsRoutes.GetProfile | server/routes/recommendations.js:33-40 | null exactly when the caller has no row; otherwise the caller's row |
| RecommendationsRoutes.SaveProfile | server/routes/recommendations.js:7-30 | the table becomes the upsert of the row; a later GET returns exactly that row, and no other user's profile changes |
| RecommendationsRoutes.CommunitySubs | server/routes/recommendations.js:51-53 | exactly the subscriptions whose owner has a profile matching the caller's by occupation or by both being students |
| RecommendationsRoutes.DistinctUsers | server/routes/recommendations.js:50 | `COUNT(DISTINCT s.user_id)` is at least one for a non-empty group and at most its size |
| RecommendationsRoutes.UserIdsBound | server/routes/recommendations.js:50 | a group has no more distinct owners than rows |
| RecommendationsRoutes.Community | server/routes/recommendations.js:43-63 | no profile gives no rows and no target group; otherwise at most ten groups, most users first, and the target group 'Öğrenciler' for a student or else the occupation |
| RecommendationsRoutes.CommunityRowsExact | server/routes/recommendations.js:50-54 | each row is one (name, category, currency) group, counted by its distinct owners (at least one), and no group has two rows |
| RecommendationsRoutes.CommunityIsTop | server/routes/recommendations.js:55 | no group left out of the ten has more users than one shown |
| RecommendationsRoutes.StudentsSeeStudents | server/routes/recommendations.js:53 | a student's community includes every subscription of every student with a profile, whatever the occupation |
| RecommendationsRoutes.NoOccupationNoRows | server/routes/recommendations.js:53 | a non-student without an occupation gets no rows, since NULL equals nothing in SQL |
| RecommendationsRoutes.Occupations | server/routes/recommendations.js:66-76 | the fixed list of five, 'student' first and 'other' last, every id once |
| CalendarScreen.FilterSubs | mobile/src/screens/CalendarScreen.js:51-54 | without a filter id (or with 0) every subscription; otherwise exactly those with that id |
| CalendarScreen.FetchLogs | mobile/src/screens/CalendarScreen.js:59-67 | one entry per subscription, in order, holding the fetched usage rows, or none when the request failed |
| CalendarScreen.LogsOf | mobile/src/screens/CalendarScreen.js:129-143 | `usageLogs[id] \|\| []`: no rows for an id without an entry, and rows only from that id's entry |
| CalendarScreen.FindSub | mobile/src/screens/CalendarScreen.js:84 | a subscription found has that id; nothing found means none has it |
| CalendarScreen.ObjectEntries | mobile/src/screens/CalendarScreen.js:83 | the same entries, in ascending numeric key order, as for an object's integer-like keys |
| CalendarScreen.AddToGroupsKeys | mobile/src/screens/CalendarScreen.js:89-90 | adding a name under a date keeps one entry per date and adds that date |
| CalendarScreen.AddDaysKeys | mobile/src/screens/CalendarScreen.js:87-91 | after one subscription's rows, the dates present are the old ones plus that subscription's usage dates, each once |
| CalendarScreen.DailyUsageKeys | mobile/src/screens/CalendarScreen.js:83-92 | `dailyUsage` has one entry per date, and a date has one exactly when a listed subscription was used on it |
| CalendarScreen.Initials | mobile/src/screens/CalendarScreen.js:100-103 | at most three letters, exactly one per name for the first three non-empty names |
| CalendarScreen.InitialsOf | mobile/src/screens/CalendarScreen.js:102-103 | one letter per non-empty name, never more letters than names |
| CalendarScreen.InitialsAreFirstLetters | mobile/src/screens/CalendarScreen.js:102 | each letter is the upper-case first character of its name |
| CalendarScreen.UsageMarksShape | mobile/src/screens/CalendarScreen.js:95-105 | the usage pass marks exactly the dates of `dailyUsage`, each with the initials of its names and no renewal yet |
| CalendarScreen.WithRenewalsShape | mobile/src/screens/CalendarScreen.js:108-116 | the renewal pass adds exactly the billing dates, flags a date as a renewal exactly when one falls on it or it was flagged before, and keeps the initials |
| CalendarScreen.GenerateMarkedDates | mobile/src/screens/CalendarScreen.js:77-119 | the three passes compute the marked dates |
| CalendarScreen.CollectDailyUsage | mobile/src/screens/CalendarScreen.js:83-92 | the first pass computes `dailyUsage`, skipping entries whose subscription is not listed |
| CalendarScreen.AddAll | mobile/src/screens/CalendarScreen.js:87-91 | the inner loop adds the subscription's name under each of its usage dates, in order |
| CalendarScreen.MarkUsage | mobile/src/screens/CalendarScreen.js:95-105 | the second pass computes the usage marks |
| CalendarScreen.MarkRenewals | mobile/src/screens/CalendarScreen.js:108-116 | the third pass computes the renewal marks |
| CalendarScreen.MarkedDatesShape | mobile/src/screens/CalendarScreen.js:77-119 | exactly the days with usage or a renewal are marked; a usage day shows at most three initials; a day is a renewal exactly when a billing date falls on it |
| CalendarScreen.UsageDayMarked | mobile/src/screens/CalendarScreen.js:83-105 | every day on which a listed subscription has a usage row is marked with initials |
| CalendarScreen.FindLog | mobile/src/screens/CalendarScreen.js:130 | a row found has that date; nothing found exactly when no row has it |
| CalendarScreen.UsageForDate | mobile/src/screens/CalendarScreen.js:126-136 | exactly the subscriptions with a usage row for that date, each with that row's count, in list order |
| CalendarScreen.RenewalsForDate | mobile/src/screens/CalendarScreen.js:138-140 | exactly the subscriptions whose next billing date is that date |
| CalendarScreen.Toggle | mobile/src/screens/CalendarScreen.js:170-176 | a selected id is removed and nothing else is; an unselected id is appended |
| CalendarScreen.ToggleNoDuplicates | mobile/src/screens/CalendarScreen.js:170-176 | toggling never selects an id twice |
| CalendarScreen.NoDuplicatesWhere | mobile/src/screens/CalendarScreen.js:172 | filtering a list without repeats leaves it without repeats |
| CalendarScreen.ToggleTwice | mobile/src/screens/CalendarScreen.js:170-176 | toggling an id twice gives back the same selection, and the very same list when it was not selected |
| CalendarScreen.WhereLastDropped | mobile/src/screens/CalendarScreen.js:172-174 | removing an id just appended gives back the list before |
| CalendarScreen.WhereAllKept | mobile/src/screens/CalendarScreen.js:172 | a filter every element passes changes nothing |
| CalendarScreen.AddUsage | mobile/src/screens/CalendarScreen.js:147-168 | nothing selected is the alert and no request; otherwise one request per selected id, in order, at noon of the chosen date |
| CalendarScreen.CeilDiv | mobile/src/screens/CalendarScreen.js:357-359 | `Math.ceil(a / b)`: the least whole number at least a/b |
| CalendarScreen.RoundPercent | mobile/src/screens/CalendarScreen.js:361 | `Math.round((used / days) * 100)`: the whole number nearest the exact ratio times 100, halves rounding up |
| CalendarScreen.UsagePercentage | mobile/src/screens/CalendarScreen.js:355-361 | 0 unless some time has passed since creation; otherwise the usage days (`getTotalUsageDays`, the number of usage rows) over the whole days since creation, rounded to a percent |
| CalendarScreen.FullUsageIsHundred | mobile/src/screens/CalendarScreen.js:361 | a subscription used on every day shows 100%, and never more while the usage days do not exceed the days |
| DashboardScreen.ServiceIcon | mobile/src/screens/DashboardScreen.js:64-66 | a name that is a key of the icon table shows its own icon; any other name its upper-case first letter, and nothing for an empty name (names of inherited object properties are not covered) |
| DashboardScreen.PopularNamesHaveIcons | mobile/src/screens/DashboardScreen.js:24-62 | every one-tap choice of the add form has an icon of its own |
| DashboardScreen.IsoDayShift | mobile/src/screens/DashboardScreen.js:143 | east of UTC, local midnight falls on the previous UTC day; on or west of UTC, on the same day |
| DashboardScreen.BillingDateAsWritten | mobile/src/screens/DashboardScreen.js:132-145 | a date is sent exactly when the billing day parses to 1..31 |
| DashboardScreen.ComputeBillingDate | mobile/src/screens/DashboardScreen.js:132-145 | the step-by-step block, moving the date in place, computes the date as written |
| DashboardScreen.NextBillingDate | mobile/src/screens/DashboardScreen.js:132-145 | the date meant: given exactly when the day parses to 1..31, never before today and at most 30 days ahead, this month's day when not yet passed, else that day a month on |
| DashboardScreen.BillingDateEastOneDayEarly | mobile/src/screens/DashboardScreen.js:139-143 | east of UTC a billing day later this month is sent one day early |
| DashboardScreen.BillingTodayPushedAMonth | mobile/src/screens/DashboardScreen.js:139-141 | a billing day equal to today's, chosen after midnight, is pushed a whole month on |
| DashboardScreen.BillingDateCounterexamples | mobile/src/screens/DashboardScreen.js:132-145 | on the 15th of a 30-day month at 10:00, UTC+3, day 20 is sent as the 19th; at UTC, day 15 is sent a month on |
| DashboardScreen.AddRequest | mobile/src/screens/DashboardScreen.js:125-152 | an empty name or price sends nothing; otherwise one request with the typed fields, the parsed price and the colour 'bg-purple-500', with a billing date exactly when a day between 1 and 31 was typed, and then the date the code as written computes (local midnight printed in UTC) |
| DashboardScreen.BillingDateWestAsIntended | mobile/src/screens/DashboardScreen.js:139-143 | on or west of UTC, a billing day later in the month than today is saved as that very day of this month |
| DashboardScreen.ZeroPricePassesFormOnly | mobile/src/screens/DashboardScreen.js:126-149 | a price typed as "0" passes the form, and the request it sends is missing a field in the server's sense, so the server answers 400 |
| DashboardScreen.DaysUntilRenewal | mobile/src/screens/DashboardScreen.js:214-220 | nothing without a date; otherwise the whole days up to the date's UTC midnight, rounded up |
| DashboardScreen.RenewalBadges | mobile/src/screens/DashboardScreen.js:350-352 | overdue exactly once the renewal day has wholly passed, upcoming exactly from seven days before it to its end, never both |
| DashboardScreen.LastUsedLabelOf | mobile/src/screens/DashboardScreen.js:222-229 | never used without a date; today and yesterday by whole days elapsed; otherwise the count, with the warning exactly past 30 days |
| DashboardScreen.WarningShownInText | mobile/src/screens/DashboardScreen.js:227 | the label ends in the warning exactly when the warning is shown |
| DashboardScreen.WarnedIsUnderused | mobile/src/screens/DashboardScreen.js:227 | a card with the warning is also underused for the server's analytics |
| DashboardScreen.UnderusedWithoutWarning | mobile/src/screens/DashboardScreen.js:224-228 | the converse fails: a use 30 days and a moment ago is underused, with no warning |
| StatsScreen.MostExpensive | mobile/src/screens/StatsScreen.js:53-58 | the three (or fewer) most expensive subscriptions, dearest first, all from the list; none left out costs more than one shown |
| StatsScreen.MostExpensiveFacts | mobile/src/screens/StatsScreen.js:55-57 | the first three of the descending sort are in price order, come from the list and cost at least as much as every one left out |
| StatsScreen.Cheapest | mobile/src/screens/StatsScreen.js:60-65 | the three (or fewer) cheapest subscriptions, cheapest first, all from the list; none left out costs less than one shown |
| StatsScreen.CheapestFacts | mobile/src/screens/StatsScreen.js:62-64 | the first three of the ascending sort are in price order, come from the list and cost at most as much as every one left out |
| StatsScreen.CheapestInOrder | mobile/src/screens/StatsScreen.js:63-64 | the first three of the ascending sort are in ascending price order |
| StatsScreen.CheapestFromList | mobile/src/screens/StatsScreen.js:62-64 | sorting a copy and slicing it takes only subscriptions of the list |
| StatsScreen.YearlyTotal | mobile/src/screens/StatsScreen.js:67-70 | 0 before the summary has arrived, twelve times the monthly total after |
| StatsScreen.YearlyTotalOfStore | mobile/src/screens/StatsScreen.js:67-70 | with the server's summary, the yearly total is twelve times the caller's prices converted to lira |
| StatsScreen.CategoryColor | mobile/src/screens/StatsScreen.js:72-75 | every category gets a colour of the six-colour palette |
| StatsScreen.CategoryColorCycle | mobile/src/screens/StatsScreen.js:74 | the colours repeat every six categories, and six consecutive categories get six different colours |
| StatsScreen.RoundHalfUp | mobile/src/screens/StatsScreen.js:127 | `Math.round`: the nearest integer, halves rounding up |
| StatsScreen.Percentage | mobile/src/screens/StatsScreen.js:126-128 | 0 before the summary; no number (NaN or Infinity) for a zero total; otherwise the rounded share of the total |
| StatsScreen.CategoryPercentagesAsWritten | mobile/src/screens/StatsScreen.js:125-128 | one percentage per category row, dividing the row's raw total by the converted monthly total |
| StatsScreen.TotalsInTl | mobile/src/screens/StatsScreen.js:125-128 | one lira total per category, in the breakdown's order |
| StatsScreen.TotalsInTlSum | mobile/src/screens/StatsScreen.js:125-128 | the per-category lira totals add up to the sum over the groups |
| StatsScreen.CategoryTotalsInTlAddUp | mobile/src/screens/StatsScreen.js:125-128 | the categories' lira totals add up to the monthly total, so the intended shares are parts of one whole |
| StatsScreen.CategoryPercentages | mobile/src/screens/StatsScreen.js:125-128 | the intended percentages: each category's lira total over the lira monthly total, one per category in order |
| StatsScreen.SumOverAgree | mobile/src/screens/StatsScreen.js:127 | two pricings that agree on every row give the same sum |
| StatsScreen.WithKeyFrom | mobile/src/screens/StatsScreen.js:125 | a category's rows come from the list |
| StatsScreen.LiraCategoryTotal | mobile/src/screens/StatsScreen.js:127 | for lira subscriptions a category's raw and converted totals are equal |
| StatsScreen.LiraOnlyAgrees | mobile/src/screens/StatsScreen.js:125-128 | when every subscription is in lira, the screen's percentages are the intended ones |
| StatsScreen.DollarCategoryCounterexample | mobile/src/screens/StatsScreen.js:126-128 | a single $10 subscription shows its category at 3% of ₺340 rather than 100% |
| DiscoverScreen.DisplayName | mobile/src/screens/DiscoverScreen.js:117 | the user's name when set; otherwise a prefix of the email containing no '@' |
| DiscoverScreen.LocalPartOfAddress | mobile/src/screens/DiscoverScreen.js:117 | without a name, the sentence names the address's part before its first '@' |
| DiscoverScreen.ActivityMessage | mobile/src/screens/DiscoverScreen.js:116-127 | an 'ekledi' sentence for an added subscription, a 'kullandı' one for a use, a generic one otherwise, each starting with the display name |
| DiscoverScreen.TimeAgo | mobile/src/screens/DiscoverScreen.js:129-139 | 'Az önce' exactly under a minute; otherwise the floor of the elapsed time in the largest unit below the next bound, at least one and below the next unit |
| DiscoverScreen.FutureIsJustNow | mobile/src/screens/DiscoverScreen.js:132-134 | a date in the future reads 'Az önce' |
| DiscoverScreen.TimeAgoMovesOn | mobile/src/screens/DiscoverScreen.js:132-138 | as time passes the label never goes back to a smaller unit |
| DiscoverScreen.IdsOf | mobile/src/screens/DiscoverScreen.js:53-54 | the ids of the featured items, one per item, in order |
| DiscoverScreen.ImpressionRows | mobile/src/screens/DiscoverScreen.js:53-54 | one impression row per id, with consecutive fresh ids, for the caller |
| DiscoverScreen.CountImpressions | mobile/src/screens/DiscoverScreen.js:53-54 | the slots after one impression per posted id keep their number |
| DiscoverScreen.CountImpressionsTotal | mobile/src/screens/DiscoverScreen.js:53-54 | each slot gains one impression per time its id was posted, and nothing else changes |
| DiscoverScreen.PostImpressions | mobile/src/screens/DiscoverScreen.js:51-57 | one impression post per featured item received, in order: one row each and the slots' counts raised accordingly |
| DiscoverScreen.ShownItemsCounted | mobile/src/screens/DiscoverScreen.js:51-57 | every featured item shown has gained at least one impression |
| WebDashboard.ColorOfRoll | client/src/pages/Dashboard.jsx:70-75 | the colour drawn is one of the eight of the palette |
| WebDashboard.EveryColorPossible | client/src/pages/Dashboard.jsx:75 | every colour of the palette can be drawn |
| WebDashboard.WebAddRequest | client/src/pages/Dashboard.jsx:63-76 | an empty name or price posts nothing; otherwise one request with the typed fields, the parsed price and a palette colour, without a billing date |
| WebDashboard.DaysApart | client/src/pages/Dashboard.jsx:111-127 | the whole days between the two instants, rounded up, in either direction; 0 exactly when they coincide |
| WebDashboard.WebLastUsedOf | client/src/pages/Dashboard.jsx:106-119 | never used without a date; 'Bugün' exactly at the same instant; days below a week, whole weeks below 30 days, whole 30-day months after |
| WebDashboard.FutureReadsAsPast | client/src/pages/Dashboard.jsx:111 | a use in the future reads like the same distance in the past |
| WebDashboard.MomentAgoOnBothClients | client/src/pages/Dashboard.jsx:112-115 | a use a moment ago reads 'Bugün kullanıldı' on the phone and '1 gün önce' on the web |
| WebDashboard.WebUsagePercentage | client/src/pages/Dashboard.jsx:121-130 | between 10 and 100; 10 without a date; 100 exactly at the instant of use; otherwise 100 less two per day apart, floored at 10 |
| WebDashboard.UsageBarFalls | client/src/pages/Dashboard.jsx:126-129 | a use further away never shows a fuller bar |
| WebDashboard.ApproxTl | client/src/pages/Dashboard.jsx:293-298 | the approximate lira line appears exactly for dollar and euro prices |
| WebDashboard.ApproxTlMatchesServer | client/src/pages/Dashboard.jsx:293-298 | the line shows the same lira price the server's monthly total counts, and a lira price has no line |
| RegisterForms.WebCheck | client/src/pages/Register.jsx:20-28 | passwords that differ are reported first, then one shorter than six; the form passes exactly when they match and are long enough |
| RegisterForms.WebSubmit | client/src/pages/Register.jsx:16-40 | a failed guard shows its message and calls nothing; otherwise one register call, then '/' on success or the server's error or 'Kayıt başarısız' |
| RegisterForms.PreviousErrorForgotten | client/src/pages/Register.jsx:18 | nothing of the previous submit's error survives a new submit |
| RegisterForms.MismatchBeforeLength | client/src/pages/Register.jsx:20-28 | a short mismatched password is reported as a mismatch on the web and never as too short on the phone |
| RegisterForms.MobileCheck | mobile/src/screens/RegisterScreen.js:26-39 | any empty field is reported first; a mismatch exactly when all are filled and the passwords differ; the form passes exactly when all are filled and the password matches and is long enough |
| RegisterForms.MobileSubmit | mobile/src/screens/RegisterScreen.js:25-51 | a failed guard alerts and calls nothing; otherwise one register call, then the 'Consent' screen on success or an alert with the server's error or 'Kayıt başarısız' |
| RegisterForms.MobileStricterThanWeb | mobile/src/screens/RegisterScreen.js:26-39 | a form the phone accepts the web accepts too, and it carries an email and a password, so the server's missing-field answer cannot come back |
| RegisterForms.WebGuardIgnoresEmptyFields | client/src/pages/Register.jsx:20-28 | the web guards pass an empty name and email that the phone refuses |

## Left out

- Input and output: HTTP transport, JSON encoding, the Express routing itself, React rendering and JSX, navigation (apart from the route or screen a form goes to), alerts and `fetch` failures in the clients are not modelled; a handler's answer is a `Response` value and a screen's outcome is a value.
- Database failures: the `catch` branches that answer 500 when a query throws are not modelled, except where a query fails for a reason the model can see (these are stated in the handler's contract).
- The static endpoints `GET /premium/features`, `GET /consent/privacy-policy` and the occupation list return constant JSON; only the occupation list is modelled, as `RecommendationsRoutes.Occupations`.
- `server/database.js` `initialize` and the schema: the tables are the fields of `Domain.Store`, and the column defaults are written into each insert.
- The dead `pgText` replacement in `get` (server/database.js:33-36) is computed and never used; it is not modelled.
- Cryptography is an oracle: bcrypt hashing and comparison, JWT signing and verification and `crypto.randomBytes` for invite codes are parameters of the handlers that use them.
- The clock: `Date.now()` / `NOW()` / `datetime('now')` are a `now` parameter in milliseconds; time zones and daylight saving appear only in the mobile billing date, as a clock record (day number, day of month, month length, time into the day, offset from UTC).
- Month arithmetic (`setMonth`, `setFullYear` in premium.js and the mobile dashboard) is given as the length of the month or the expiry instant rather than computed from a calendar.
- DiscoverRoutes.PageOf: `limit` and `offset` are taken as absent or a non-negative whole number. `parseInt` of the query string (server/routes/discover.js:28) can also give a negative number, which SQLite reads as no limit (for `LIMIT`) or as zero (for `OFFSET`) and PostgreSQL rejects, so the route answers 500; and it can give NaN for a non-numeric text. None of these cases is modelled.
- DiscoverRoutes.Feed: the page bound `|page| <= limit` holds for the non-negative limits that DiscoverRoutes.PageOf admits; the unbounded page of a negative limit on SQLite and the 500 on PostgreSQL are not modelled.
- AnalyticsRoutes.UsageReportOf: `avgPerDay` is the number that the `toFixed(1)` string spells (AnalyticsRoutes.AvgPerDay), not the string itself; JSON carries it as a string such as "0.3" and, when no day is active, as the number 0.
- DashboardScreen.ServiceIcon: the icon table is a plain object, so a name such as "constructor", "toString" or "__proto__" finds an inherited property (a function or an object), which is truthy and is shown instead of a letter; the model treats the table as a map holding only its own keys and gives such names their first letter.
- Number formatting: `parseInt` and `parseFloat` of form fields are given as their results; the texts the screens build from numbers use a plain decimal rendering.
- AnalyticsRoutes.GetSummary: the `toFixed(2)` of the monthly total (server/routes/analytics.js:41) is not modelled; the total answered is the exact, unrounded sum, and the string form of the number is not modelled either.
- CalendarScreen.RoundPercent, CalendarScreen.UsagePercentage and StatsScreen.Percentage: the division and the multiplication by 100 are on exact reals, so IEEE double rounding before `Math.round` is not modelled; where the double product falls just under a half the app and the model differ (23/40 days is 57 in the app and 58 in the model).
- Text: strings are sequences of characters; UTF-16 code units, locale collation and case folding beyond `toUpperCase` of one character are not modelled.
- SqlLike.Like: SQLite's case-insensitive matching of ASCII letters and PostgreSQL's backslash escape in `LIKE` patterns are not modelled; `%` and `_` are wildcards, every other character matches only itself, so FriendsRoutes.SearchHits is case-sensitive.
- CalendarScreen.Initials: `toUpperCase` of one character is modelled as one character, whereas in JavaScript some characters grow (`'ß'.toUpperCase()` is "SS"); the bound of at most three letters relies on that simplification.
- SQL dialects: the popular, trending and suggestion queries of server/routes/discover.js use SQLite-only forms (`GROUP_CONCAT`, `datetime('now', '-30 days')`, columns outside `GROUP BY`); on these queries the model follows SQLite. SQLite gives a column outside `GROUP BY` the value of some row of the group without saying which; the model's choice is the group's first row in table order.
- DiscoverRoutes.DistinctNames: SQLite does not specify the order in which `GROUP_CONCAT(DISTINCT u.name)` (server/routes/discover.js:45) concatenates; the model's choice is the order of first appearance among the group's announcements, so the names are exact but their order is the model's.
- Ties: where SQL's `ORDER BY` leaves ties in an unspecified order, the model keeps the rows' original order (a stable sort).
- FriendsRoutes.List: the `ORDER BY u.name, u.email` of server/routes/friends.js:167 is not modelled; the list comes in the order of the caller's friends rows, so its contents are exact but its order is not the source's.
- Domain.Store.FreshId: the model hands out ids from one counter shared by all tables, while the databases keep one sequence per table; ids are fresh and increasing in both, but the model's ids of one table are not consecutive.
- DiscoverScreen.PostImpressions: the app fires the impression posts without waiting for each other; the model posts them one after another in list order.
- The mobile discover screen also calls endpoints outside the modelled server (affiliate offers, services used together); those calls are not modelled.
- RegisterForms.WebSubmit: the browser's `required` attribute on the name and email inputs is not modelled; the lemma `RegisterForms.WebGuardIgnoresEmptyFields` states what the page's own guards let through.

## Findings

| source | as written | input that shows it | evidently intended | confidence | as-written member | corrected member |
|---|---|---|---|---|---|---|
| server/routes/profile.js:68-89 | a user who never saved privacy settings has no `user_settings` row, the LEFT JOIN gives NULL flags, and a non-friend gets 403 "Bu profil gizli" | a registered user without a settings row, viewed by a user who is not a friend | the flags default to public, as GET /settings/privacy (profile.js:138-146) reports to the owner, so the profile is shown | not executed | ProfileRoutes.UnsavedSettingsHideProfile | ProfileRoutes.IntendedUnsavedIsPublic |
| mobile/src/screens/DashboardScreen.js:139-143 | the billing date is built at local midnight and printed with `toISOString`, which is in UTC, so east of UTC the date saved is one day before the day chosen | billing day 20 chosen on the 15th of a 30-day month at 10:00 in UTC+3: day 104 is saved instead of day 105 | the chosen day of the month, as a local calendar date | not executed | DashboardScreen.BillingDateCounterexamples | DashboardScreen.NextBillingDate |
| mobile/src/screens/DashboardScreen.js:139-141 | a billing day equal to today's date is compared as local midnight against the current instant, which is later, so it is pushed a month on | billing day 15 chosen on the 15th at 10:00 UTC: day 130 instead of today, day 100 | a billing date due today stays today | not executed | DashboardScreen.BillingTodayPushedAMonth | DashboardScreen.NextBillingDate |
| mobile/src/screens/StatsScreen.js:126-128 | each category's percentage divides the sum of its raw prices by the monthly total converted to lira | one subscription of 10 dollars: the total is 340 lira and its only category shows 3% | every category total converted to lira before dividing, so one category alone shows 100% | not executed | StatsScreen.DollarCategoryCounterexample | StatsScreen.CategoryTotalsInTlAddUp |
