# CamOrphanage Connect — a Dafny model of the platform's core rules

CamOrphanage Connect is a web platform that puts orphanages in Cameroon in
touch with the organizations that visit and support them. Orphanages publish
a profile and a list of needs. Organizations propose events and log visits.
Both sides exchange messages, and an admin verifies orphanage profiles.

This project models the rules behind that platform in Dafny and proves
properties of them:

- form validation;
- the engagement score and the ranking built on it;
- the orphanage listing and search;
- messaging and notifications;
- the analytics histograms and the dashboard that draws them;
- file uploads;
- needs, events, visits and verification, each a guard chain followed by
  one store update;
- the user directory and the dashboard redirect.

Each source file of the core has its own module, whose name follows the
file. Four shared modules support them:

- `Text`: trimming, white space, lower-casing and digits as JavaScript
  defines them.
- `Seqs`: `filter`, `slice`, `reverse` and a stable sort.
- `Http`: option values, responses, roles, sessions and `parseInt`.
- `Store`: the entity records and a `Database` class holding one
  `map` per table.

## How the model is built

- **Route handlers** are methods on a `Database`. Each one takes the
  session and the request fields as parameters. It returns `Ok(value)` or
  `Err(status, message)` with the handler's own status codes and texts. Its
  `ensures` give each error branch with its condition, the condition under
  which the request succeeds, and the rows it writes. Its `modifies` clause
  names the one table it may change.
- **Profiles.** `Database.Valid` keeps a ghost index from each user to the
  key of their profile, as the store's unique index on `userId` does. So
  "the caller's profile" is one row, and a route's success condition can
  name it.
  It also keeps the foreign key from each profile to its user, so the
  score refresh, which reads the user's creation date, never meets a
  missing user.
- **Store queries.** A `findMany` with `orderBy` is `Store.Select` or
  `Store.SelectAll`. Both return the matching rows stably sorted from some
  enumeration of the table, because the store fixes no order for ties.
  Paging is a slice.
- **React components** whose handlers replace state are classes. Their
  fields are the component's state variables, and their methods are the
  handlers. Request outcomes, `confirm` answers and server replies are
  parameters of these methods.
- **Pure helpers** (validators, reducers, formatters) are functions.
  Lemmas state what the source promises about them.
- **Parameters.** Clocks, `Math.random`, `Math.log10`, date parsing and the
  blob store are parameters.

## Model

| member | source | states |
|---|---|---|
| Validation.ValidatePhoneNumber | src/lib/validation.ts:9-15 | valid iff blank or, once non-digits are dropped, 9 digits starting 6/2 or 12 digits "237" then 6/2; a non-blank value gets the verdict on its digits |
| Validation.DigitsVerdict | src/lib/validation.ts:22-37 | valid iff the digits are a Cameroon number; nine digits with a bad lead give the lead message, "237" and nine with a bad lead the format message, any other length the length message |
| Validation.FormatPhoneNumber | src/lib/validation.ts:158-171 | 9 digits, or 12 starting "237", become an 18-character "+237 " display of "237" and the last nine digits, with spaces at positions 6, 9, 12 and 15; any other value is returned unchanged |
| Validation.BlankFormatsToItself | src/lib/validation.ts:158-170 | a blank value has no digits and is displayed unchanged |
| Text.TrimsToEmpty | src/lib/validation.ts:10 | the trimmed value is empty exactly when every character is white space |
| Validation.FormatKeepsValid | src/lib/validation.ts:158-171 | formatting a valid phone number keeps it valid |
| Validation.FormatIdempotent | src/lib/validation.ts:158-171 | formatting a formatted number changes nothing |
| Validation.FormatIgnoresCountryCode | src/lib/validation.ts:161-168 | the local and the "237"-prefixed spellings of a number format identically |
| Validation.FormattedLocalValid | src/lib/validation.ts:158-163 | the display form of a 9-digit number starting 6/2 passes phone validation |
| Validation.EmailShapeIsRegex | src/lib/validation.ts:46 | the scanning check equals the regex `^[^\s@]+@[^\s@]+\.[^\s@]+$` (both directions) |
| Validation.ValidateEmail | src/lib/validation.ts:41-52 | valid iff the regex matches the untrimmed input; blank gives "Email is required" |
| Validation.PaddedEmailRejected | src/lib/validation.ts:46-48 | an address with a leading blank is rejected (the pattern is matched against the raw input) |
| Validation.ValidateName | src/lib/validation.ts:55-75 | valid iff the trimmed name has 2..100 characters from the name set; required, too-short and too-long errors in that order |
| Validation.ValidateOrganizationName | src/lib/validation.ts:78-98 | valid iff the trimmed name has 3..150 characters from the wider set; errors in source order |
| Validation.NameIsOrganizationName | src/lib/validation.ts:69-92 | a valid person name of at least 3 characters is a valid organization name |
| Validation.ValidateAddress | src/lib/validation.ts:101-115 | valid iff the trimmed length is in 10..300; blank gives "Address is required" |
| Validation.ValidateDescription | src/lib/validation.ts:118-132 | valid iff the trimmed length is in 20..1000; blank gives "Description is required" |
| Validation.ValidateRegistrationNumber | src/lib/validation.ts:135-155 | valid iff blank, or 3..50 trimmed characters from `[a-zA-Z0-9\s\-/]` |
| Validation.TrimmedInputSameVerdict | src/lib/validation.ts:56-155 | the trimming validators give the same verdict on trimmed input |
| Score.VerificationPoints | lib/scoreCalculation.ts:23-35 | 20 points for VERIFIED, 10 for PENDING, none for any other status |
| Score.ViewPoints | lib/scoreCalculation.ts:39-41 | at most 25 points, and none when the profile has no views |
| Score.VisitPoints | lib/scoreCalculation.ts:45-47 | 3 points per organization visit, saturating at 30 from 10 visits |
| Score.EventPoints | lib/scoreCalculation.ts:50-52 | 2 points per event, saturating at 15 from 8 events |
| Score.NeedPoints | lib/scoreCalculation.ts:56-58 | 1.5 points per active need, saturating at 10 from 7 needs |
| Score.RecencyPoints | lib/scoreCalculation.ts:62-66 | +5 exactly under 30 days, −5 exactly past 365 days with no views, otherwise 0: at most one branch applies |
| Score.Round | lib/scoreCalculation.ts:69 | `Math.round`: the integer within half a unit, halves rounded up |
| Score.CalculateScore | lib/scoreCalculation.ts:19-70 | the score always lies in 0..100 |
| Score.RawScoreBounds | lib/scoreCalculation.ts:23-66 | before clamping the sum lies in −5..105, and is non-negative once the profile has views |
| Score.ScoreMonotone | lib/scoreCalculation.ts:44-69 | with the other factors fixed, more visits, events or needs never lower the score, rounding and clamp included |
| Score.FinishMonotone | lib/scoreCalculation.ts:69 | rounding to two decimals and clamping preserve order |
| Score.VisitsSaturate | lib/scoreCalculation.ts:45-47 | beyond ten organization visits the score no longer changes |
| Score.NewIdleProfileScoresFive | lib/scoreCalculation.ts:19-70 | a new profile with no activity and an unknown status scores 5 |
| Score.OldIdleVerifiedScoresFifteen | lib/scoreCalculation.ts:19-70 | a verified profile older than a year with no activity scores 15 (20 − 5) |
| Score.OldIdleUnverifiedScoresZero | lib/scoreCalculation.ts:19-70 | an unverified idle profile older than a year is clamped from −5 to 0 |
| Score.BusyVerifiedProfile | lib/scoreCalculation.ts:19-70 | a week-old verified profile with 10 visits, 8 events and 7 needs scores 80 |
| Score.DaysSinceCreation | lib/scoreCalculation.ts:97-99 | whole days elapsed, rounded down |
| Score.UpdateOrphanageScore | lib/scoreCalculation.ts:75-124 | stores the fresh score (in 0..100) in that profile only; every stored profile has its user, so it fails exactly for a missing profile, which changes nothing |
| Score.IncrementVisitCount | lib/scoreCalculation.ts:178-197 | one more view for the profile, then its score refreshed from the bumped table; it fails exactly for a missing profile, which changes nothing; only the orphanage table may change |
| Score.ViewNeverLowersScore | lib/scoreCalculation.ts:39-69 | given a growing, non-negative log10, one more view never lowers the score (a first view also lifts the old-profile penalty) |
| Score.RefreshIsStable | lib/scoreCalculation.ts:101-117 | a refresh does not change any input of the score, so a second refresh stores the same value |
| Score.EveryFreshScoreDefined | lib/scoreCalculation.ts:97-99 | every stored profile, and only a stored one, has a fresh score, because its user row exists |
| Score.UpdateAllOrphanageScores | lib/scoreCalculation.ts:129-146 | every profile gets its fresh score computed from the untouched tables; only the orphanage table may change; no refresh fails, so the source's stop at the first failure never happens |
| Score.RankLeTotalPreorder | lib/scoreCalculation.ts:156-160 | the order score desc, visitCount desc, name asc is total and transitive |
| Score.TopOrphanagesSpec | lib/scoreCalculation.ts:151-172 | at most limit VERIFIED profiles, best first; every omitted verified profile ranks no better than each returned one; all are returned when they fit |
| TopScored.GetTopScored | src/app/api/orphanages/top-scored/route.ts:5-32 | 400 exactly for a numeric limit outside 1..50, 500 exactly for a limit that does not parse; otherwise the ranking `TopOrphanages` of the rows for that limit (at most limit verified profiles, best first; see `Score.TopOrphanagesSpec`) with its count |
| TopScored.DefaultLimitIsTen | src/app/api/orphanages/top-scored/route.ts:8 | without a limit the route returns the ten best verified profiles |
| TopScored.LimitInRange | src/app/api/orphanages/top-scored/route.ts:8-18 | a decimal limit in 1..50 reaches the ranking unchanged |
| TopScored.NonNumericLimitNotRangeChecked | src/app/api/orphanages/top-scored/route.ts:8-30 | a non-numeric limit parses to NaN, passes the range test and fails later as a 500 |
| Http.OrDefault | src/app/api/orphanages/route.ts:13-21 | `get(k) \|\| d`: the parameter when it is present and not empty, otherwise the default |
| Http.ParseIntOfNatToString | src/app/api/orphanages/route.ts:20-21 | `parseInt` of the decimal text of a natural number gives that number back |
| Http.Window | src/app/api/orphanages/route.ts:20-119 | skip = (page − 1) · limit and take = limit; no window for NaN or a negative skip (a store error), nor for a negative take (see Left out) |
| Http.DefaultWindow | src/app/api/orphanages/route.ts:20-25 | with no page and no limit the window is skip 0, take 20 |
| OrphanagesRoute.VerifiedFilterOf | src/app/api/orphanages/route.ts:44-46 | no condition without `verified`; "true" keeps only VERIFIED; any other value keeps the rest |
| OrphanagesRoute.OrderOf | src/app/api/orphanages/route.ts:99-108 | name, created and location sort in the requested direction; any other key sorts by name ascending |
| OrphanagesRoute.BuildQuery | src/app/api/orphanages/route.ts:12-108 | each clause is built from its parameter, with the source's defaults and truthiness tests |
| OrphanagesRoute.OrderLeTotalPreorder | src/app/api/orphanages/route.ts:99-108 | each of the six orders is total and transitive |
| OrphanagesRoute.Pages | src/app/api/orphanages/route.ts:128 | `Math.ceil(total / limit)`: the least page count covering total, and null for limit 0 |
| OrphanagesRoute.IncludeNeeds | src/app/api/orphanages/route.ts:86-96 | each row carries at most five of its own ACTIVE needs when asked (all when it has at most five), and none otherwise |
| OrphanagesRoute.ListedRow | src/app/api/orphanages/route.ts:86-96 | one listed row: its profile, and with `includeNeeds` at most five of its own ACTIVE needs (all of them when it has at most five), otherwise none |
| OrphanagesRoute.ListOrphanages | src/app/api/orphanages/route.ts:8-144 | a 500 exactly when the store refuses the window or the direction; otherwise the page is rows `(page-1)*limit` onward, at most `limit`, of the matching rows sorted by the requested order, and the total counts every match |
| OrphanagesRoute.ListingAnswers | src/app/api/orphanages/route.ts:110-129 | the shape of an answer: matching rows in the requested order, at most `limit`, the count of all matches and the page arithmetic |
| OrphanagesRoute.ListingIsWindow | src/app/api/orphanages/route.ts:110-127 | the rows and count the store returns for `skip`/`take` are the page and total of the answer |
| OrphanagesRoute.ListingSize | src/app/api/orphanages/route.ts:110-127 | an answer holds `min(limit, total - (page-1)*limit)` orphanages, none past the last match |
| OrphanagesRoute.DefaultQuery | src/app/api/orphanages/route.ts:13-101 | without parameters the query has no condition, sorts by name ascending and takes the first 20 |
| OrphanagesRoute.DirectionCheckedOnlyForKnownKeys | src/app/api/orphanages/route.ts:100-108 | a bad direction reaches the store only with a known sort key; an unknown key replaces it with "asc" |
| OrphanageSearch.FilteredOrphanages | src/OrphanageSearch.tsx:24-33 | nothing for a blank term; otherwise at most six profiles, each matching the lower-cased term in name, description or address |
| OrphanageSearch.ResultsArePrefixOfMatches | src/OrphanageSearch.tsx:28-32 | the results are the first matches in list order, all of them when there are at most six |
| OrphanageSearch.CaseInsensitive | src/OrphanageSearch.tsx:27-31 | terms that lower-case alike give the same results |
| OrphanageSearch.ShowResults | src/OrphanageSearch.tsx:35 | the dropdown shows exactly when the term is not blank and the input has focus |
| AdvancedSearch.Get | src/component/search/AdvancedSearch.tsx:57-69 | `URLSearchParams.get`: present iff some pair has the key, and then the first such pair's value |
| AdvancedSearch.SearchForm.constructor | src/component/search/AdvancedSearch.tsx:30-38 | the cleared form: empty texts, sort by name ascending, no results, not searching |
| AdvancedSearch.SearchForm.Entries | src/component/search/AdvancedSearch.tsx:10-59 | `Object.entries(filters)`: seven pairs, one for each filter with its current value |
| AdvancedSearch.SearchForm.UpdateFilter | src/component/search/AdvancedSearch.tsx:85-87 | sets that filter and leaves the other six unchanged |
| AdvancedSearch.SearchForm.ClearFilters | src/component/search/AdvancedSearch.tsx:89-99 | restores the initial filters (empty texts, name, asc) |
| AdvancedSearch.SearchForm.BuildParams | src/component/search/AdvancedSearch.tsx:57-67 | the non-empty filters in declaration order, then includeNeeds and includeCoordinates set to "true" |
| AdvancedSearch.SearchForm.FinishSearch | src/component/search/AdvancedSearch.tsx:71-82 | the listing reaches the parent only on success; the spinner always stops; the filters are untouched |
| AdvancedSearch.ParamsReachRoute | src/component/search/AdvancedSearch.tsx:57-69 | the listing route reads each filter back from the query string, with an empty filter as absent, and always sees includeNeeds=true |
| AdvancedSearch.ActiveIffNotCleared | src/component/search/AdvancedSearch.tsx:89-103 | the corrected test: filters are active exactly when they differ from the cleared form |
| AdvancedSearch.SearchForNameNotActive | src/component/search/AdvancedSearch.tsx:101-103 | as written, a search for the word "name" counts as no filter, although it differs from the cleared form |
| Conversations.Grouped | src/messaging/MessageCenterClient.tsx:20-30 | the conversation list is no longer than the message list and holds only the user's own messages |
| Conversations.GroupedIsSubsequence | src/messaging/MessageCenterClient.tsx:20-30 | the conversation list keeps the messages it holds in their original order |
| Conversations.GroupedKeepsNoneCovered | src/messaging/MessageCenterClient.tsx:20-30 | a list whose every message opens a new partner is grouped to itself |
| Conversations.GroupedIdempotent | src/messaging/MessageCenterClient.tsx:20-30 | grouping the grouped list changes nothing |
| Conversations.FindInvolving | src/messaging/MessageCenterClient.tsx:22-24 | the `find` succeeds exactly when some kept message has the partner as sender or recipient |
| Conversations.UniqueConversations | src/messaging/MessageCenterClient.tsx:20-30 | the loop computes the grouping of the messages in their order |
| Conversations.EveryPartnerCovered | src/messaging/MessageCenterClient.tsx:19-30 | every partner the user exchanged a message with has an entry in the list |
| Conversations.PartnersDistinct | src/messaging/MessageCenterClient.tsx:19-30 | no two entries of the list have the same partner |
| Conversations.FirstMessageKept | src/messaging/MessageCenterClient.tsx:20-30 | the entry kept for a partner is the first message in the list with that partner |
| Conversations.DisplayName | src/messaging/MessageCenterClient.tsx:54-55 | the orphanage name, else the organization name, else the e-mail; empty only when the e-mail is |
| Conversations.AvatarLetter | src/messaging/MessageCenterClient.tsx:73 | the first letter, upper-cased; nothing for an empty name |
| MessagesApi.MarkRead | src/app/api/messages/route.ts:53-60 | the update keeps the set of messages |
| MessagesApi.MarkReadEffect | src/app/api/messages/route.ts:53-60 | only the read flag changes, and a message ends up read iff it was read or goes from the other user to the caller |
| MessagesApi.MarkReadIdempotent | src/app/api/messages/route.ts:53-60 | reading a conversation a second time changes nothing more |
| MessagesApi.ReadThread | src/app/api/messages/route.ts:22-62 | rows `skip` onward, at most `take`, of the thread between the two users sorted newest first, then reversed to oldest first; then the other user's messages to the caller are read |
| MessagesApi.ThreadWindow | src/app/api/messages/route.ts:24-62 | rows `skip` onward, at most `take`, of the thread between the two users sorted newest first, reversed: thread messages only, oldest first, the whole thread when the window holds it |
| MessagesApi.ReversedSelection | src/app/api/messages/route.ts:24-62 | reversing the newest-first rows the store returns gives the thread window oldest first |
| MessagesApi.ThreadPageSize | src/app/api/messages/route.ts:24-62 | a thread page holds `min(take, thread - skip)` messages, none when `skip` is past the thread |
| MessagesApi.GetMessages | src/app/api/messages/route.ts:9-96 | 401 without a session; the summary branch without `with`; 500 on a negative or non-numeric window; otherwise, with a valid window, always the thread: the window `skip..skip+limit` of the newest-first thread, oldest first, and the read marks |
| MessagesApi.SendMessage | src/app/api/messages/route.ts:99-152 | 401, 400 "Missing recipientId or content", 404 "Recipient not found"; with a session, both fields and a known recipient it succeeds exactly when the new id is free, else 500; on success one new unread message from the caller is stored and only the messages table may change |
| Notifications.UnreadCount | src/component/notifications/NotificationCenter.tsx:136 | the unread count is at most the list's length and is zero exactly when every notification is read |
| Notifications.IconsAndColors | src/component/notifications/NotificationCenter.tsx:94-134 | the seven known types get seven distinct icons and only unknown types the fallback; the fallback colour is shared only with EVENT_PROPOSAL |
| Notifications.NotificationCenter.constructor | src/component/notifications/NotificationCenter.tsx:21-23 | an empty, closed, not loading menu |
| Notifications.NotificationCenter.StartLoading | src/component/notifications/NotificationCenter.tsx:29-30 | the menu is loading once a fetch starts, and nothing else changes |
| Notifications.NotificationCenter.Toggle | src/component/notifications/NotificationCenter.tsx:142 | the bell button flips the menu between open and closed, and nothing else changes |
| Notifications.NotificationCenter.Close | src/component/notifications/NotificationCenter.tsx:170 | the close button closes the menu, and nothing else changes; the backdrop (line 280) and a followed link (line 243) do the same |
| Notifications.NotificationCenter.Loaded | src/component/notifications/NotificationCenter.tsx:29-42 | the list is replaced only by a successful answer, and loading ends either way |
| Notifications.NotificationCenter.MarkAsRead | src/component/notifications/NotificationCenter.tsx:44-60 | after an ok answer exactly the notifications with that id become read; otherwise nothing changes |
| Notifications.NotificationCenter.MarkAllAsRead | src/component/notifications/NotificationCenter.tsx:62-76 | after an ok answer every notification is read and the unread count is zero |
| Notifications.NotificationCenter.Delete | src/component/notifications/NotificationCenter.tsx:78-92 | after an ok answer the notifications with that id are removed |
| Notifications.MarkedRead | src/component/notifications/NotificationCenter.tsx:51-55 | the same list with the notifications of that id read |
| Notifications.MarkedReadCount | src/component/notifications/NotificationCenter.tsx:51-136 | marking one id read lowers the unread count by exactly the unread notifications with that id |
| Notifications.DeleteRemovesOnly | src/component/notifications/NotificationCenter.tsx:85-87 | nothing with the id is left, every other notification stays, in order |
| Notifications.GetNotifications | src/app/api/notifications/route.ts:9-65 | 401 exactly without a session, success exactly with one; the samples, in order, holding exactly those whose type the caller's role may see |
| Notifications.SamplesPerRole | src/app/api/notifications/route.ts:18-58 | orphanages get the proposal and the message, organizations the message and the visit, administrators all three, any other role none |
| Notifications.VisibleOfSampleKinds | src/app/api/notifications/route.ts:49-58 | for any three notifications of kinds proposal, message and visit, the role filter keeps the first two for orphanages, the last two for organizations, all for administrators and none otherwise |
| Notifications.CreateNotification | src/app/api/notifications/route.ts:68-101 | 401 unless an administrator; 400 iff a required field is missing; success exactly for an administrator with every field present, answering an unread record echoing the body, its id the current time |
| Notifications.Badge | src/component/notifications/NotificationCenter.tsx:146-150 | no badge without unread notifications, "9+" above nine, otherwise the one-digit count |
| AnalyticsApi.MonthsBack | src/app/api/analytics/route.ts:17-37 | the period is 1, 3, 6 or 12 months; 12 when no timeframe is given or it is not recognised |
| AnalyticsApi.MonthOf | src/app/api/analytics/route.ts:84 | the month key is at most the seven characters `YYYY-MM` |
| AnalyticsApi.Purposes | src/app/api/analytics/route.ts:77-80 | the purpose of each visit, in order |
| AnalyticsApi.Months | src/app/api/analytics/route.ts:83-87 | the month key of each visit, in order |
| AnalyticsApi.OrganizationIds | src/app/api/analytics/route.ts:90 | the organization id of each visit, in order |
| AnalyticsApi.OrphanageIds | src/app/api/analytics/route.ts:166 | the orphanage id of each visit, in order |
| AnalyticsApi.OrganizationNames | src/app/api/analytics/route.ts:69-117 | each visit's organization name; absent exactly when some visit's organization row is missing |
| AnalyticsApi.OrphanageNames | src/app/api/analytics/route.ts:145-189 | each visit's orphanage name; absent exactly when some visit's orphanage row is missing |
| AnalyticsApi.OrganizationsResolvedIffNamed | src/app/api/analytics/route.ts:69-117 | for the store's selection of an orphanage's visits, the organization names resolve exactly when every such visit names a stored organization |
| AnalyticsApi.OrphanagesResolvedIffNamed | src/app/api/analytics/route.ts:145-189 | for the store's selection of an organization's visits, the orphanage names resolve exactly when every such visit names a stored orphanage |
| AnalyticsApi.OrphanageStatsFacts | src/app/api/analytics/route.ts:76-125 | both breakdowns add up to the visit total, distinct visitors never exceed the visits, and the top list holds at most five names, largest first, none left out larger than one shown |
| AnalyticsApi.Breakdowns | src/app/api/analytics/route.ts:76-124 | the reduces compute the purpose and month histograms and the top five names |
| AnalyticsApi.ReportForOrphanage | src/app/api/analytics/route.ts:63-125 | the statistics of the orphanage's visits in the period, its active needs and its pending events; present exactly when every visit in the period names a stored organization |
| AnalyticsApi.ReportForOrganization | src/app/api/analytics/route.ts:139-197 | the statistics of the organization's visits in the period, its events and its approved events; present exactly when every visit in the period names a stored orphanage |
| AnalyticsApi.OrphanageAnalytics | src/app/api/analytics/route.ts:54-128 | 404 "Orphanage profile not found" exactly when the user has no profile, 500 "Internal Server Error" exactly when one of its visits names a missing organization, no other error; otherwise that profile's report |
| AnalyticsApi.OrganizationAnalytics | src/app/api/analytics/route.ts:130-200 | 404 "Organization profile not found" exactly when the user has no profile, 500 "Internal Server Error" exactly when one of its visits names a missing orphanage, no other error; otherwise that profile's report |
| AnalyticsApi.PlatformAnalytics | src/app/api/analytics/route.ts:202-240 | the five table counts, and breakdowns over the same period whose totals equal the visit count |
| AnalyticsApi.GetAnalytics | src/app/api/analytics/route.ts:8-52 | 401 exactly without a session, 403 exactly for an unknown role; an orphanage or organization user gets 404 exactly without a profile, else that profile's report for the period, 500 exactly when a visit names a missing counterpart; an admin gets the platform statistics for the period |
| Histograms.Bump | src/app/api/analytics/route.ts:78 | one reduce step adds at most one entry |
| Histograms.Count | src/app/api/analytics/route.ts:77-80 | the loop computes the histogram of the keys |
| Histograms.BumpFacts | src/app/api/analytics/route.ts:78 | a step raises exactly the count of its key by one, adds no other key and keeps the keys distinct |
| Histograms.TallyFacts | src/app/api/analytics/route.ts:77-87 | the histogram counts every key as often as it occurs, holds no other key and holds each key once |
| Histograms.BumpTotal | src/app/api/analytics/route.ts:78 | a step raises the sum of the counts by one |
| Histograms.TallyTotal | src/app/api/analytics/route.ts:77-87 | the counts add up to the number of keys |
| Histograms.SetSize | src/app/api/analytics/route.ts:90 | the number of distinct values is at most the number of values, and at least one when there are any |
| Histograms.SetSizeIsTallySize | src/app/api/analytics/route.ts:90-121 | the distinct values are as many as the histogram's entries |
| Histograms.Top5 | src/app/api/analytics/route.ts:122-123 | at most five entries |
| Histograms.Top5Facts | src/app/api/analytics/route.ts:115-124 | the top list holds histogram entries in decreasing count, no entry left out counts more than one shown, and all entries when there are at most five |
| AnalyticsDashboard.ProgressColor | src/component/analytics/AnalyticsDashboard.tsx:51-56 | one of the four progress colours |
| AnalyticsDashboard.Band | src/component/analytics/AnalyticsDashboard.tsx:51-56 | the colour's position in the worst-to-best palette |
| AnalyticsDashboard.ProgressColorMonotone | src/component/analytics/AnalyticsDashboard.tsx:51-56 | a larger percentage never gets a worse colour; red exactly below 40, green exactly from 80 |
| AnalyticsDashboard.Label | src/component/analytics/AnalyticsDashboard.tsx:27-141 | a non-empty purpose never gets an empty label |
| AnalyticsDashboard.UnknownPurposeShownRaw | src/component/analytics/AnalyticsDashboard.tsx:141 | a purpose outside the label table is shown as its key |
| AnalyticsDashboard.KnownPurposesRelabelled | src/component/analytics/AnalyticsDashboard.tsx:27-141 | every table purpose gets a different name, while ONLINE_CLASS and VOLUNTEERING are shown raw |
| AnalyticsDashboard.Percentage | src/component/analytics/AnalyticsDashboard.tsx:134 | a share between 0 and 100; 100 for the whole, 0 for nothing |
| AnalyticsDashboard.EntryAtMostTotal | src/component/analytics/AnalyticsDashboard.tsx:58-134 | one purpose counts no more than the total |
| AnalyticsDashboard.PurposeBreakdown | src/component/analytics/AnalyticsDashboard.tsx:129-164 | the empty state exactly when the total is zero, otherwise one row per purpose |
| AnalyticsDashboard.PurposeBreakdownFacts | src/component/analytics/AnalyticsDashboard.tsx:129-157 | the rows are the histogram's entries, largest first, each with its rounded share, its colour and its label |
| AnalyticsDashboard.ZeroTotalIsEmptyState | src/component/analytics/AnalyticsDashboard.tsx:58-129 | the empty state is shown exactly when no visit was counted |
| AnalyticsDashboard.MaxCount | src/component/analytics/AnalyticsDashboard.tsx:212 | the largest monthly count, reached by some month |
| AnalyticsDashboard.MonthlyTrend | src/component/analytics/AnalyticsDashboard.tsx:207-213 | the empty state exactly without months, otherwise one row per month |
| AnalyticsDashboard.MonthlyTrendFacts | src/component/analytics/AnalyticsDashboard.tsx:207-230 | each month once, in date order, with a bar 0-100 wide that is full exactly for the busiest months |
| AnalyticsDashboard.WidthFacts | src/component/analytics/AnalyticsDashboard.tsx:213 | a bar is between 0 and 100 wide and full exactly when its count is the positive maximum |
| FileUpload.KindOf | src/component/upload/FileUpload.tsx:30-38 | a recognised `type` string names the kind whose name it is |
| FileUpload.KindNameRoundTrip | src/component/upload/FileUpload.tsx:30-38 | each kind's name reads back as that kind |
| FileUpload.AllowedTypes | src/component/upload/FileUpload.tsx:46-50 | three types per kind, JPEG and PNG always among them |
| FileUpload.Join | src/component/upload/FileUpload.tsx:53 | `join` of nothing is empty and of one string is that string |
| FileUpload.AcceptTypes | src/component/upload/FileUpload.tsx:27-39 | an explicit `accept` wins; otherwise a non-empty list that is never `*/*` |
| FileUpload.DialogAgreesWithValidation | src/component/upload/FileUpload.tsx:27-54 | the dialog's default filter is the kind's allowed types, the ones validation accepts |
| FileUpload.Megabytes | src/component/upload/FileUpload.tsx:43 | the limit rounded to the nearest megabyte |
| FileUpload.ValidateFile | src/component/upload/FileUpload.tsx:41-57 | a file passes iff it is within the limit and of an allowed type; size is reported before type |
| FileUpload.DefaultLimit | src/component/upload/FileUpload.tsx:18-43 | with the default the message says 10MB, and a file of exactly 10MB passes |
| FileUpload.RejectionsAreTruthy | src/component/upload/FileUpload.tsx:60-64 | every rejection message is non-empty, so `uploadFile` stops on each |
| FileUpload.OutcomeError | src/component/upload/FileUpload.tsx:79-87 | no error after a success, a non-empty one after a rejection, the thrown message after a failed fetch |
| FileUpload.Uploader.constructor | src/component/upload/FileUpload.tsx:14-24 | the given or the default limit; idle, no error, no highlight |
| FileUpload.Uploader.BeginUpload | src/component/upload/FileUpload.tsx:59-67 | a rejected file only sets its message; an accepted one clears the error and marks the widget busy |
| FileUpload.Uploader.FinishUpload | src/component/upload/FileUpload.tsx:69-90 | the URL is handed on only after a success; any other outcome sets its error; the widget ends idle |
| FileUpload.Uploader.HandleDrag | src/component/upload/FileUpload.tsx:100-108 | enter and over highlight, leave clears, other events change nothing |
| FileUpload.Uploader.HandleDrop | src/component/upload/FileUpload.tsx:110-119 | the highlight is cleared and only the first dropped file is uploaded |
| FileUpload.Uploader.UploadFile | src/component/upload/FileUpload.tsx:59-91 | an invalid file never reaches the server; otherwise the widget ends idle with a URL exactly on success and an error after a rejection |
| UploadApi.LookupAllowed | src/app/api/upload/route.ts:29-35 | `allowedTypes[type]` is the kind's own list for the three kinds, an inherited member for prototype names, and missing otherwise |
| UploadApi.StoredNameKeepsExtension | src/app/api/upload/route.ts:40-43 | the stored name ends in the original file's extension |
| UploadApi.StoredNameStartsWithKind | src/app/api/upload/route.ts:43 | the stored name starts with the kind (or "file") and a dash |
| UploadApi.CheckAsWritten | src/app/api/upload/route.ts:9-59 | as written: 401 exactly without a session, and a 500 exactly for a small file whose `type` is an inherited name |
| UploadApi.Check | src/app/api/upload/route.ts:9-37 | the corrected checks: 401 without a session, and a file is accepted iff present, within 10MB, and of an allowed type when the kind is one of the three |
| UploadApi.CheckAgreesOffPrototype | src/app/api/upload/route.ts:35 | the two checks agree whenever `type` is not an inherited name |
| UploadApi.InheritedTypeFails | src/app/api/upload/route.ts:35-59 | a small PNG sent with `type` "toString" fails with 500 as written and is accepted by the corrected check |
| UploadApi.StoreChecked | src/app/api/upload/route.ts:39-60 | a refused request keeps the checks' error; an accepted file is put under the generated name and answered with the URL the store gave it, or 500 "Upload failed" when the store throws |
| UploadApi.Upload | src/app/api/upload/route.ts:7-60 | the route as written: an error of the checks as written, an inherited `type` included, is the answer; after passing checks the file is answered with the store's URL when `put` succeeds and 500 "Upload failed" otherwise; a stored file carries the generated name |
| UploadApi.UploadIntended | src/app/api/upload/route.ts:7-60 | the route with the corrected check: the same answers, success exactly when the check passes and `put` succeeds, with only the table's own keys selecting a MIME list |
| UploadApi.UploadAgreesOffPrototype | src/app/api/upload/route.ts:29-58 | the route as written and the corrected one answer alike unless `type` is an inherited name; then an authorised, small enough file gets 500 "Upload failed" as written |
| UploadApi.WidgetAndRouteLimitsAgree | src/app/api/upload/route.ts:23-37 | whatever the widget lets through with its default limit, the route's checks as written accept too |
| NeedsApi.ListNeeds | src/app/api/needs/route.ts:10-30 | 401 without an orphanage session, 404 without its profile, otherwise exactly the needs of the caller's orphanage, newest first |
| NeedsApi.CreateNeed | src/app/api/needs/route.ts:33-60 | 401, 404, 400 "Description is required"; with a profile and a description it succeeds exactly when the new id is free; on success one new ACTIVE need of the caller's orphanage is stored and only the needs table may change |
| NeedsApi.DeleteNeed | src/app/api/needs/route.ts:63-101 | 401, 404, 400 "Need ID is required"; an unknown id or a need of another orphanage is 404 and kept; a need of the caller's orphanage is removed, alone, and 204 answered |
| NeedsManager.ReplaceById | src/needs/NeedsManager.tsx:57-61 | the list keeps its length |
| NeedsManager.ReplaceByIdFacts | src/needs/NeedsManager.tsx:57-61 | every position holding the id gets the update, every other need stays where it was |
| NeedsManager.DeleteKeepsOthers | src/needs/NeedsManager.tsx:79-81 | a delete keeps exactly the needs with other ids, in order |
| NeedsManager.ShownFulfilled | src/needs/NeedsManager.tsx:90-213 | the first three fulfilled needs, or all of them when there are fewer |
| NeedsManager.Partitions | src/needs/NeedsManager.tsx:89-90 | the active and fulfilled sections keep the list's order, hold exactly the needs of their status, and share none |
| NeedsManager.PartitionCount | src/needs/NeedsManager.tsx:89-90 | the two sections together hold no more needs than the list |
| NeedsManager.CanAddNeeds | src/needs/NeedsManager.tsx:97-114 | the Add button needs an editable panel of a verified orphanage |
| NeedsManager.ShowsVerificationNotice | src/needs/NeedsManager.tsx:97-114 | the notice appears only in an editable panel |
| NeedsManager.ButtonXorNotice | src/needs/NeedsManager.tsx:97-114 | an editable panel shows exactly one of button and notice, a read-only one neither |
| NeedsManager.TextToSend | src/needs/NeedsManager.tsx:19-29 | nothing is sent for a blank text; otherwise the trimmed, non-empty text |
| NeedsManager.NeedsPanel.constructor | src/needs/NeedsManager.tsx:14-16 | the given needs, the form closed and empty, not loading |
| NeedsManager.NeedsPanel.AddNeed | src/needs/NeedsManager.tsx:18-44 | a blank text changes nothing; a created need is appended and the form closed and cleared; a failure keeps the list and the form |
| NeedsManager.NeedsPanel.UpdateNeed | src/needs/NeedsManager.tsx:46-68 | on success the need with that id is replaced by the server's copy; a failure changes nothing |
| NeedsManager.NeedsPanel.DeleteNeed | src/needs/NeedsManager.tsx:70-87 | nothing without confirmation; a successful delete drops the needs with that id |
| DashboardNeeds.NeedsList.constructor | src/dashboard/NeedsManager.tsx:14-17 | loading, nothing listed, no error |
| DashboardNeeds.NeedsList.View | src/dashboard/NeedsManager.tsx:69-70 | once loaded, an error hides the list; an error view always has a message |
| DashboardNeeds.NeedsList.FinishLoading | src/dashboard/NeedsManager.tsx:20-34 | the loaded needs, or "Failed to fetch needs", or the thrown `Error`'s message (empty included), or "An unknown error occurred" for anything else thrown; loading ends |
| DashboardNeeds.NeedsList.AddNeed | src/dashboard/NeedsManager.tsx:36-53 | a blank input sends nothing; otherwise the untrimmed text is sent, a created need goes first and the input is cleared, a non-2xx reply sets the error, and a thrown `fetch` or `json()` changes nothing |
| DashboardNeeds.NeedsList.DeleteNeed | src/dashboard/NeedsManager.tsx:55-67 | nothing without confirmation; success drops the needs with that id; a non-2xx reply sets the error and keeps the list; a thrown `fetch` changes nothing |
| DashboardNeeds.SentTextIsPresent | src/dashboard/NeedsManager.tsx:38-43 | a text the panel sends is never rejected as missing by the route |
| DashboardNeeds.ErrorSticks | src/dashboard/NeedsManager.tsx:50-70 | once an error is shown, no later add or delete brings the list back |
| Store.ParseStatus | src/app/api/events/manage/route.ts:59-61 | a recognised status is the enum value spelled that way |
| Store.ParseStatusName | src/app/api/events/manage/route.ts:59-61 | every enum value reads back as itself |
| Store.Select | src/app/api/visits/route.ts:55-68 | a window of the matching rows in order, at most `take` of them, with the total count, and every match when the first window holds them all |
| Store.SelectionSize | src/app/api/visits/route.ts:55-68 | a window starting past the matches is empty, otherwise it holds `min(take, total - skip)` rows |
| Store.SelectAll | src/app/api/events/manage/route.ts:24-33 | exactly the matching rows, each once, in order |
| Store.CountRows | src/app/api/analytics/route.ts:93-106 | the number of matching rows |
| Store.Database.OrphanageOfUser | src/app/api/needs/route.ts:16-18 | the user's orphanage profile, absent exactly when there is none |
| Store.Database.OrganizationOfUser | src/app/api/events/route.ts:18-20 | the user's organization profile, absent exactly when there is none |
| Store.CallerOrphanage | src/app/api/needs/route.ts:12-22 | 401 for anyone but an orphanage user, 404 "Orphanage profile not found" without a profile, otherwise that user's profile |
| Store.CallerOrganization | src/app/api/events/route.ts:13-25 | 401 for anyone but an organization user, 404 "Organization profile not found" without a profile, otherwise that user's profile |
| EventsApi.ProposeEvent | src/app/api/events/route.ts:8-51 | 401, 404, 400 "Missing required fields"; with every field it succeeds exactly when the date parses, the orphanage exists and the new id is free, else 500; on success one new PENDING event from the caller's organization is stored and only the events table may change |
| EventsApi.ListProposals | src/app/api/events/manage/route.ts:10-36 | 401, 404, otherwise exactly the events proposed to the caller's orphanage, earliest first |
| EventsApi.SetEventStatus | src/app/api/events/manage/route.ts:39-78 | 401, 404, 400 for a missing field or an unknown status, 404 for an unknown event or another orphanage's event; an event of the caller's orphanage is answered with its new status, and only that event's status changes |
| EventManager.WithStatus | src/dashboard/EventManager.tsx:47-51 | the board keeps its length |
| EventManager.WithStatusFacts | src/dashboard/EventManager.tsx:47-51 | only cards with that id change, and in them only the status |
| EventManager.Sections | src/dashboard/EventManager.tsx:73-95 | each section keeps the board's order and holds exactly its status; declined and completed cards are in neither |
| EventManager.Actions | src/dashboard/EventManager.tsx:64 | Approve and Decline exactly on pending cards |
| EventManager.ProposalBoard.constructor | src/dashboard/EventManager.tsx:20-22 | loading, no cards, no error |
| EventManager.ProposalBoard.View | src/dashboard/EventManager.tsx:73-95 | once loaded and without error, the two sections of the cards; an error view shows the error |
| EventManager.ProposalBoard.FinishLoading | src/dashboard/EventManager.tsx:24-38 | the loaded cards, or "Failed to fetch events", or the thrown `Error`'s message (empty included), or "An unknown error occurred" for anything else thrown; loading ends |
| EventManager.ProposalBoard.UpdateStatus | src/dashboard/EventManager.tsx:40-55 | a successful PATCH changes the status of the cards with that id; a non-2xx answer only raises the alert; a thrown `fetch` neither alerts nor changes anything |
| EventManager.ApproveMovesCard | src/dashboard/EventManager.tsx:40-95 | approving a pending card moves it from the pending section to the approved one, and the pending section shrinks |
| EventManager.PendingShrinks | src/dashboard/EventManager.tsx:83-89 | turning one pending card into another status, and no other change of status, shrinks the pending section |
| EventManager.SameStatusSameCount | src/dashboard/EventManager.tsx:83-89 | boards with the same statuses position by position have pending sections of the same size |
| VisitsApi.LatestFirstTotalPreorder | src/app/api/visits/route.ts:63 | the newest-first order compares any two visits consistently |
| VisitsApi.Truthy | src/app/api/visits/route.ts:47-50 | a filter is applied exactly when it is a non-empty string |
| VisitsApi.ScopeOf | src/app/api/visits/route.ts:9-53 | 401, 404 for a missing orphanage or organization profile, 403 for another role; success exactly when the role is known and its profile exists; an orphanage gets its own visits, an organization its own, an admin the truthy filters |
| VisitsApi.ListVisits | src/app/api/visits/route.ts:9-75 | the scoping errors; with a scope, 500 exactly on a bad window; success exactly with a scope and a valid window, answering one window of the visits in scope, newest first, and an orphanage or organization user sees only its own visits |
| VisitsApi.OnlyOwnVisits | src/app/api/visits/route.ts:25-46 | everything in an orphanage's or organization's scope belongs to that user's profile |
| VisitsApi.StoredNotes | src/app/api/visits/route.ts:123 | an empty or missing note is stored as none, any other note as written |
| VisitsApi.LogVisit | src/app/api/visits/route.ts:78-140 | 401 unless an organization; 400 for missing fields or an unknown purpose; 404 for a missing profile or orphanage; with all of them present it succeeds exactly when the date parses and the new id is free; on success one new visit by the caller's organization is stored and only the visits table may change |
| VisitsApi.LoggedVisitIsListed | src/app/api/visits/route.ts:25-133 | a logged visit lies in the scope GET gives the logging organization and the visited orphanage |
| VerifyOrphanage.Confirmation | src/app/api/admin/verify-orphanage/route.ts:39-42 | "Orphanage ", the lower-cased status, " successfully" |
| VerifyOrphanage.ConfirmationsOfDecisions | src/app/api/admin/verify-orphanage/route.ts:22-42 | the two messages read "Orphanage verified successfully" and "Orphanage rejected successfully" |
| VerifyOrphanage.Verify | src/app/api/admin/verify-orphanage/route.ts:9-47 | 401 unless an admin, 400 for a missing field or another status, 500 for an unknown id; on success only that profile's verification status changes |
| VerifyOrphanage.DecisionSettlesPoints | lib/scoreCalculation.ts:22-35 | after a decision the profile scores all 20 verification points or none, and counts as verified exactly when VERIFIED |
| UsersApi.ParseRole | src/app/api/users/route.ts:18-25 | a recognised role names itself; none exactly for text outside the three roles |
| UsersApi.ListUsers | src/app/api/users/route.ts:8-76 | 401 without a session, 400 without a role or with an unknown one, otherwise a list |
| UsersApi.ListUsersExact | src/app/api/users/route.ts:28-76 | the list keeps the store's order and holds exactly the users of the role, other than the caller, with a verified orphanage or an organization profile as the role requires |
| UsersApi.CallerNeverListed | src/app/api/users/route.ts:28-33 | the caller never appears in the list |
| DashboardRouter.Redirect | src/app/dashboard/page.tsx:8-58 | one of the five routes; login when the session or its id or role is missing |
| DashboardRouter.RedirectTable | src/app/dashboard/page.tsx:17-57 | each dashboard is reached exactly by its role (with a profile for the two profile roles), setup exactly by a profile role without a profile, login by any other role |
| DashboardRouter.RouterAgreesWithGuards | src/app/dashboard/page.tsx:22-48 | whoever the page sends to the orphanage or organization dashboard passes that role's API guard |
| Text.Trim | src/lib/validation.ts:10 | `trim()` yields a text no longer than the input that neither starts nor ends with white space |
| Text.TrimIsInfix | src/lib/validation.ts:10 | the trimmed text occurs in the input |
| Text.BlankIffTrimEmpty | src/lib/validation.ts:10 | `!s.trim()` holds exactly for a text made only of white space |
| Text.TrimIdempotent | src/lib/validation.ts:10 | trimming twice is trimming once |
| Text.Lower | src/OrphanageSearch.tsx:27 | `toLowerCase` maps each character on its own and keeps the length |
| Text.LowerIdempotent | src/OrphanageSearch.tsx:27-31 | lower-casing twice is lower-casing once |
| Text.Contains | src/OrphanageSearch.tsx:29-31 | `includes` holds exactly when the text occurs at some position |
| Text.AfterLast | src/app/api/upload/route.ts:42 | `split('.').pop()`: an end of the name that holds no dot |
| Text.AfterLastBoundary | src/app/api/upload/route.ts:42 | the whole name when it has no dot; otherwise the kept end follows a dot, so it is the part after the last dot |
| Text.NatToString | src/app/api/upload/route.ts:43 | the decimal text of a number is one or more digits |

## Left out

- Floating point: `Math.log10` is a parameter, of which only non-negativity from 1 (and, for `Score.ViewNeverLowersScore`, growth) is assumed; sums, `Math.round` and percentages are exact on reals, without IEEE-754 rounding error.
- `toLowerCase` is modelled for ASCII and Latin-1 letters only; other scripts keep their case in `Text.Lower`.
- The database's string collation: name ordering compares texts by code units, not by the collation of the store.
- Http.Window: a negative `limit` gives a negative `take`, which the store accepts and answers with the last rows of the ordered matches (`page=1&limit=-5` is a 200 with up to five rows and `pages` from a negative divisor). The model has no window for it and answers 500, in the orphanage, message and visit listings alike. Only a non-numeric value or a negative `skip` is a store error, and its exact error text is not modelled.
- OrphanagesRoute.ListOrphanages: answers 500 for a negative `limit` where the store would return the last rows (see Http.Window).
- MessagesApi.GetMessages: answers 500 for a negative `limit` where the store would return the oldest messages of the thread (see Http.Window).
- VisitsApi.ListVisits: answers 500 for a negative `limit` where the store would return the oldest visits in scope (see Http.Window).
- Request bodies whose fields are not strings, and a `request.json()` that fails to parse, are not modelled: each body field is an optional text.
- Asynchrony and timers: `fetch` promises, the 500 ms debounce of the advanced search, the blur timeout of the quick search, and `localStorage`. Each request outcome is a parameter of the handler that awaits it.
- The blob store `put` is a parameter returning the stored URL; its own failures are part of that outcome.
- The raw SQL conversation summaries of the messages route: a GET without a partner answers `MessagesApi.ConversationSummaries`, whose rows are not modelled.
- The notifications served by the notifications route are a fixed sample list; the mark-read, mark-all-read and delete routes are not part of this model, only the component's own state changes are.
- Calendar and text formatting of dates (`toISOString`, month arithmetic of the analytics time frames, `toLocaleDateString`) are parameters: the start of a time frame, an ISO text and a date parser are passed in.
- `Object.entries` lists integer-like keys first in JavaScript; the histograms keep insertion order, which agrees for the purpose and month keys the source produces.
- AnalyticsApi.ReportForOrphanage: organization names are keys of a plain object. A name inherited from `Object.prototype` ("constructor", "toString") starts from the inherited function, so its count becomes a string and the top-five sort compares NaN; an integer-like name ("2024") is listed before the others by `Object.entries`. The model counts every name from zero and keeps insertion order.
- AnalyticsApi.ReportForOrganization: the same holds for the orphanage names of its top-orphanages list.
- The texts and layout of the dashboard cards are presentation and are left out. The notification icons and colours and the colour thresholds of the analytics bars are modelled.
- The analytics dashboard's `timeRange` state and the analytics route's `type` parameter do not affect any computed value and are not modelled.
- Related rows that listings `include` (organization and orphanage names, message sender and recipient) are not attached to the listed rows: the model returns the rows themselves.
- A new need's status is "ACTIVE" by default in the store schema, which is not part of this model; the model writes that default explicitly.
- An event proposed for an unknown orphanage fails at the store's foreign key, modelled as a 500.
- `Math.random`, `Date.now`, `confirm` and `alert` are parameters.
- The users route's `orderBy` on the profile's name and its selected columns are not modelled: `UsersApi.ListUsersExact` keeps the order of the rows the store returns.
- The orphanage listing's `includeCoordinates` select clause only shapes the returned columns and is not modelled.
- A verification of an unknown orphanage id fails at the store update, modelled as a 500.
- The `metadata` field of notifications is carried by no modelled operation and is left out.
- The `*/*` default of the file upload's accepted types is unreachable for the typed `type` prop and is not modelled.
- Store tie order: `Store.Select` and `Store.SelectAll` promise a stable sort of some enumeration of the table, because the store fixes no order between rows with equal keys.
- Authentication, password hashing, geocoding, the rendering of every component and the data-loading server pages are not part of this model.

## Findings

| source | as written | input that shows it | evidently intended | confidence | as-written member | corrected member |
|---|---|---|---|---|---|---|
| src/app/api/upload/route.ts:35 | `allowedTypes[type]` also finds names inherited from `Object.prototype`, whose value has no `includes` | an authorised upload of a 10-byte PNG with `type` "toString": `.includes` is not a function, the catch answers 500 "Upload failed" | only the table's own keys select a MIME list; any other `type` skips the check and the file is stored | not executed | UploadApi.InheritedTypeFails | UploadApi.CheckAgreesOffPrototype |
| src/component/search/AdvancedSearch.tsx:101-103 | a filter counts as inactive when its value is "name" or "asc", whichever field holds it | the search text "name" with every other filter at its initial value: no clear button is shown | the filters are active exactly when they differ from the cleared form | not executed | AdvancedSearch.SearchForNameNotActive | AdvancedSearch.ActiveIffNotCleared |
