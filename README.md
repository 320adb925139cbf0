# lp-reports in Dafny

A model of the server-side logic of lp-reports, a Next.js support-operations
dashboard. It covers:

- the five mock report generators and the POST handlers around them: daily
  report, branch report, conversation report, dashboard stats and category
  details;
- the process-wide auth-token cache in `lib/auth.ts`;
- the two handlers that use that cache: `GET /api/lp` and
  `POST /api/auth/login`;
- the branch report page's selection toggle, colour cycle, request guard and
  chart series.

Modules follow the source files:

| module | file | source |
|---|---|---|
| `Http`, `Seqs`, `FilterSplits` | common.dfy | Shared pieces: the reply envelope, JS truthiness of a field, `Math.round` as exact rounding, and sequence helpers (`filter`, sum, max, reverse). |
| `DailyReport` | daily.dfy | app/api/reports/daily/route.ts |
| `BranchReport` | branch.dfy | app/api/reports/branch/route.ts |
| `ConversationReport` | conversation.dfy | app/api/reports/conversation/route.ts |
| `DashboardStats` | stats.dfy | app/api/dashboard/stats/route.ts |
| `CategoryDetails` | category_details.dfy | app/api/dashboard/category-details/route.ts |
| `Auth` | auth.dfy | lib/auth.ts |
| `LpRoute` | lp.dfy | app/api/lp/route.ts |
| `LoginRoute` | login.dfy | app/api/auth/login/route.ts |
| `BranchPage` | branch_page.dfy | app/reports/branch/page.tsx |

Modelling conventions:

- **Random draws.** Every `Math.floor(Math.random() * k)` is an integer
  parameter with `0 <= v < k`, stated as a `requires` predicate named
  `InRange` or `DrawsInRange`. The branch report's continuous random factor
  is a function `noise(dayIndex, branchIndex)` that returns tenths. Every
  property holds for every admissible draw.
- **Request bodies.** A request body is an `Option` of a record of `Option`
  fields. A field is truthy when it is present and not `""`. A body that
  `request.json()` cannot parse is `None`, and the handler's `catch` turns it
  into a 500 reply.
- **Replies.** A reply is a status and either `Data(payload)` or
  `Error(message)`. In the five report routes `Data` stands for
  `{ success: true, data }` and `Error` for `{ success: false, error }`.
  The LP and login routes send no `success` member: there `Error` is
  `{ error }`, `Data` of the login route is `{ message }`, and `Data` of the
  LP route is the upstream JSON, passed through unchanged.
- **Dates and times.** Dates are day numbers counted from 1970-01-01.
  `getDay()` is `(day + 4) % 7`. Conversation timestamps are minutes in the
  day.
- **Rounding.** The model rounds on exact rationals: `Math.round(n / d)`
  becomes `RoundDiv(n, d)`, rounding half up. The source computes these
  quotients in binary floating point, which in a few cases lands on the
  other side of a half; "## Left out" lists where it matters. The category
  details' `toFixed(1)` percentage is held in integer tenths.
- **Token cache.** The cache is the class `Auth.TokenCache`. The login
  service is an oracle value `LoginAnswer`. The CCS upstream call is an
  oracle value `Upstream`.

In-place code stays imperative:

- the branch trend loop (`BranchReport.DayLoop`, whose body is `AddDay`);
- the conversation sort (an insertion sort on an `array`);
- the two `forEach` passes that set percentages on an `array` of buckets;
- the token slot (a field that `GetAuthToken` and `ClearAuthToken` assign).

Each of these methods except the sort is specified by a function of its
inputs. The sort is specified by a relation instead: its result is sorted
by timestamp and has the same multiset of records. The remaining
properties are proved as lemmas about those functions.

## Model

| member | source | states |
|---|---|---|
| `Seqs.Max` | app/api/reports/daily/route.ts:38 | The result is at least every element and equals one of them. |
| `DailyReport.Generate` | app/api/reports/daily/route.ts:13-61 | The total lies in [200, 699]. Contained, not-contained and escalated add up to the total, and escalated is at least 1. There are 24 hourly buckets, bucket h has hour h, and each count is under total/8. The peak load is the maximum hourly count. There are five categories in the fixed name order, with counts under total/3. All timing metrics lie in their ranges. The date is echoed. |
| `DailyReport.Post` | app/api/reports/daily/route.ts:63-90 | An unreadable body gives 500 "Failed to generate daily report". A falsy date gives 400 "Date is required". The reply is 200 exactly when the date is truthy, and then the data carries that date. |
| `BranchReport.LowerAt` | app/api/reports/branch/route.ts:44-46 | The model's ASCII `toLowerCase` keeps the length and maps each character on its own: `A`–`Z` to `a`–`z`, every other character unchanged. |
| `BranchReport.IncludesAt` | app/api/reports/branch/route.ts:44-46 | `includes(t)` holds exactly when `t` occurs in the string at some position. |
| `BranchReport.BaseCountChoice` | app/api/reports/branch/route.ts:43-48 | The base count is 30, 40 or 50. It is 50 when the name contains "main" in any letter case, otherwise 40 when it contains "downtown", otherwise 30. |
| `BranchReport.WeekdayNext` | app/api/reports/branch/route.ts:54 | `getDay()` lies in [0, 6] and moves on by one per day, Saturday (6) wrapping to Sunday (0). Day 0 (1970-01-01) is a Thursday (4). |
| `BranchReport.TwoWeekendDays` | app/api/reports/branch/route.ts:54-56 | Any seven consecutive days contain exactly two days that get the weekend factor. |
| `BranchReport.PointCount` | app/api/reports/branch/route.ts:59 | A point's count is never negative. |
| `BranchReport.CountRange` | app/api/reports/branch/route.ts:43-59 | On a weekday a count lies within 10 of the name-chosen base. On a weekend (weekday 0 or 6) ten times the count lies within [7·base − 70, 7·base + 70]. |
| `BranchReport.Average` | app/api/reports/branch/route.ts:74 | The average is absent (JSON null) exactly when the divisor `daysDiff × branches.length` is zero. |
| `BranchReport.Generate` | app/api/reports/branch/route.ts:26-81 | The loop builds exactly `Trend(branches, start, daysDiff)`. The total is the sum of the trend's counts. The average is `Average(total, daysDiff × n)`. Branches and date range are returned as given. |
| `BranchReport.DayLoop` | app/api/reports/branch/route.ts:35-69 | The day loop leaves the trend of the first `daysDiff` days, or none for `daysDiff <= 0`, and a running total equal to the sum of its counts. |
| `BranchReport.AddDay` | app/api/reports/branch/route.ts:41-68 | One pass of `forEach` appends that day's row, one point per branch in order, and adds the row's counts to the running total. |
| `BranchReport.TrendAt` | app/api/reports/branch/route.ts:35-65 | The trend has `days × n` points. Point `i·n + j` is branch j on day start + i, with that branch's count. |
| `BranchReport.TrendLength` | app/api/reports/branch/route.ts:35-69 | The trend has `days × n` points. |
| `BranchReport.EmptyRange` | app/api/reports/branch/route.ts:29-35 | An empty or reversed date range gives no points and a total of 0. |
| `BranchReport.TrendCountsNonNegative` | app/api/reports/branch/route.ts:59-65 | Every count in the trend is non-negative. |
| `BranchReport.TotalNonNegative` | app/api/reports/branch/route.ts:67 | A sum of non-negative counts is non-negative. |
| `BranchReport.AverageOfRange` | app/api/reports/branch/route.ts:74 | With a non-empty range and a non-empty branch list, the average is present. It is the mean count per point rounded half up, bracketed as `2d·avg <= 2·total + d < 2d·avg + 2d`. |
| `BranchReport.Post` | app/api/reports/branch/route.ts:83-108 | An unreadable body gives 500. A missing or empty branch list, or a missing date, gives 400 with the source's message. The reply is 200 exactly otherwise, and then it carries the generated trend, its total, the average over `daysDiff × branches.length`, and the echoed branches and range. |
| `ConversationReport.LookupTaxonomy` | app/api/reports/conversation/route.ts:8-39 | Every key of the category map finds its own four subcategories. |
| `ConversationReport.ParseShow` | app/api/reports/conversation/route.ts:58 | Reading back the decimal rendering of an index gives the index. |
| `ConversationReport.IdInjective` | app/api/reports/conversation/route.ts:58 | `conv-<date>-<i>` equals `conv-<date>-<j>` only when i = j. |
| `ConversationReport.Record` | app/api/reports/conversation/route.ts:46-66 | A record's id is `conv-<date>-<index>` and its status is one of the three. Its timestamp is a minute of the day. Its subcategory belongs to its category's list. Duration lies in [300, 2099], user messages in [2, 11] and bot messages in [3, 17]. |
| `ConversationReport.Records` | app/api/reports/conversation/route.ts:45 | Between 5 and 19 records are generated, record i built from draw i. |
| `ConversationReport.RecordIdsDistinct` | app/api/reports/conversation/route.ts:45-58 | Generated records have pairwise distinct ids. |
| `ConversationReport.StagedFilter` | app/api/reports/conversation/route.ts:70-75 | The staged `if (category) … if (subcategory)` filtering equals one filter by `Matches`. |
| `ConversationReport.SortByTimestamp` | app/api/reports/conversation/route.ts:78 | The array ends sorted by timestamp and is a permutation of what it held. |
| `ConversationReport.Insert` | app/api/reports/conversation/route.ts:78 | One insertion step extends the sorted prefix by one and keeps the multiset. |
| `ConversationReport.Generate` | app/api/reports/conversation/route.ts:42-88 | The output is sorted by timestamp. It is a permutation of the generated records kept by the filters. The five taxonomy entries are listed in map order whatever the filters. The date is echoed. |
| `ConversationReport.ListedMatch` | app/api/reports/conversation/route.ts:70-75 | Every listed record was generated and passes the filters. With a category given, it has that category. |
| `ConversationReport.MatchListed` | app/api/reports/conversation/route.ts:70-75 | Every generated record that passes the filters is listed. |
| `ConversationReport.SubcategoryAloneIgnored` | app/api/reports/conversation/route.ts:70-75 | With no category, a subcategory filters nothing out: the output is a permutation of all generated records. |
| `ConversationReport.Post` | app/api/reports/conversation/route.ts:59-117 | An unreadable body gives 500. A falsy date gives 400 "Date is required". A truthy date that `new Date` cannot parse gives 500 "Failed to generate conversation report", because the first record's `toISOString()` throws. The reply is 200 exactly for a truthy date that parses, with the sorted, permuted, filtered records and the full taxonomy. |
| `Seqs.FilterMembers` | app/api/reports/conversation/route.ts:71-73 | `filter` keeps exactly the elements that satisfy the predicate, none more often than the input holds them. |
| `DashboardStats.PercentageNearest` | app/api/dashboard/stats/route.ts:22-28 | A bucket's percentage is the integer nearest to `count / total × 100`, halves rounded up, taken on exact rationals. |
| `DashboardStats.FillPercentages` | app/api/dashboard/stats/route.ts:22-28 | In place, each bucket's percentage becomes `round(count·100 / total)` and nothing else changes. |
| `DashboardStats.WithPercentages` | app/api/dashboard/stats/route.ts:22-28 | Names and counts are unchanged, and each percentage is `round(count·100 / total)`. |
| `DashboardStats.Generate` | app/api/dashboard/stats/route.ts:5-37 | The total lies in [500, 1499]. There are three subjects and four branches in fixed name order, with counts in their ranges and percentages against `totalConversations`. The date range and the clock reading are echoed. |
| `DashboardStats.PercentagesBounded` | app/api/dashboard/stats/route.ts:9-28 | Every percentage lies in [0, 100], since no count reaches the smallest total. |
| `Http.ShareBounds` | app/api/dashboard/stats/route.ts:23 | `round(scale·count / whole)` lies in [0, scale] when 0 <= count <= whole. |
| `Http.RoundDivBounds` | app/api/dashboard/stats/route.ts:23 | `RoundDiv` is rounding half up: `2d·r <= 2n + d < 2d·r + 2d`. |
| `DashboardStats.Post` | app/api/dashboard/stats/route.ts:39-73 | An unreadable body gives 500 "Internal server error". A falsy start or end date gives 400 "Start date and end date are required". The reply is 200 exactly otherwise. It then carries the echoed range, a total in [500, 1499], the three subjects and four branches in name order with counts in their ranges, and each percentage taken against the total. |
| `CategoryDetails.TotalStep` | app/api/dashboard/category-details/route.ts:22 | The `reduce` starts at 0 and adds one sub-category's count per step. |
| `CategoryDetails.PercentTenthsNearest` | app/api/dashboard/category-details/route.ts:24 | A sub-category's percentage in tenths is the one nearest to `count / total × 1000`, halves rounded up. |
| `CategoryDetails.FillPercentages` | app/api/dashboard/category-details/route.ts:23-25 | In place, each sub-category's percentage becomes `count/total·100` in tenths and nothing else changes. |
| `CategoryDetails.TotalPositive` | app/api/dashboard/category-details/route.ts:22 | A total of positive counts is positive, so the division is defined. |
| `CategoryDetails.PercentagesNearHundred` | app/api/dashboard/category-details/route.ts:22-25 | The five percentages, each taken against the sum of the counts, add up to 100% within rounding: [99.8, 100.2]. |
| `Seqs.ReverseAt` | app/api/dashboard/category-details/route.ts:35 | Entry k of the reversed sequence is entry `n − 1 − k` of the original. |
| `CategoryDetails.TimeDistributionOrder` | app/api/dashboard/category-details/route.ts:28-35 | The series has 7 entries, oldest first: entry k is day today − 6 + k. |
| `CategoryDetails.Generate` | app/api/dashboard/category-details/route.ts:4-41 | There are five sub-categories named `<category> - Type A` … `E` in order, with counts in their ranges and a positive total. Each percentage is taken against the sum of the counts. The 7-day series runs from today − 6 to today, with counts in [10, 59]. |
| `CategoryDetails.Post` | app/api/dashboard/category-details/route.ts:43-69 | An unreadable body gives 500 "Internal server error". A falsy category gives 400 "Category is required". The reply is 200 exactly when the category is truthy. It then carries the five named sub-categories with counts in their ranges, a positive total, each percentage against that total, and the 7-day series. |
| `Auth.Hit` | lib/auth.ts:10-13 | A truthy cached token is returned without a login call, and the slot is unchanged. |
| `Auth.Miss` | lib/auth.ts:15-39 | An empty slot calls login. Success returns the service's token and caches it. Failure throws and leaves the slot unchanged. |
| `Auth.ReturnedIsCached` | lib/auth.ts:33-35 | Whatever is returned is what the slot then holds. A call throws exactly when it had to log in and the login failed. |
| `Auth.SecondCallHits` | lib/auth.ts:10-35 | After a call has returned a truthy token, the next call returns the identical token, calls no login and keeps the slot. |
| `Auth.EmptyTokenRefetches` | lib/auth.ts:10 | A cached empty string counts as no token, so the next call logs in again. |
| `Auth.TokenCache.constructor` | lib/auth.ts:6 | The slot starts empty, and no login has been made. |
| `Auth.TokenCache.GetAuthToken` | lib/auth.ts:8-40 | The result and the new slot are `Lookup` and `NextSlot` of the old slot. The login counter rises by one exactly on a miss. |
| `Auth.TokenCache.ClearAuthToken` | lib/auth.ts:42-44 | Empties the slot. |
| `Auth.CallTwice` | lib/auth.ts:8-40 | Two successive calls on the cache: once the first has yielded a truthy token, the second yields the same token, and at most the first logged in. |
| `Auth.ClearThenGet` | lib/auth.ts:42-44 | After a clear, the next call always logs in. |
| `LpRoute.DocumentUrlInjective` | app/api/lp/route.ts:28 | When neither tenant id contains `/`, equal document URLs come from equal tenant ids and document keys. |
| `LpRoute.DocumentUrlAmbiguous` | app/api/lp/route.ts:28 | The parameters are spliced in unencoded, so the pairs (`a/b`, `c`) and (`a`, `b/c`) name the same URL. |
| `LpRoute.Get` | app/api/lp/route.ts:5-54 | A missing parameter gives 400 before any token request. After that, a token is requested. A login throw gives 500. 401 "Failed to authenticate" comes back exactly when the token is falsy. The upstream is called exactly when the token is truthy, with the built URL and `Bearer <token>`. A non-ok upstream status is forwarded. An unreadable upstream body or a failed fetch gives 500. Otherwise the reply is 200 with the upstream JSON. |
| `LpRoute.StatusOrigin` | app/api/lp/route.ts:37-41 | A status other than 200, 400, 401 or 500 is always a forwarded upstream status. |
| `LpRoute.PassThrough` | app/api/lp/route.ts:44-45 | A 200 reply carries exactly the upstream JSON of an ok upstream response. |
| `LpRoute.Handle` | app/api/lp/route.ts:18 | Run against the cache, the route asks `GetAuthToken` exactly when the parameters are present. Its reply then uses the cache's answer. The slot and the login count move as one `GetAuthToken` call moves them, and without the parameters they do not move. |
| `LoginRoute.OnlyAdmin` | app/api/auth/login/route.ts:6-9 | Credentials are valid iff they are `admin` / `admin123`. |
| `LoginRoute.Post` | app/api/auth/login/route.ts:11-48 | An unreadable body gives 500. A missing username or password gives 400. A wrong pair gives 401. The reply is 200 "Login successful" exactly for `admin` / `admin123`. The token fetch fires exactly on the 200 path. |
| `LoginRoute.Handle` | app/api/auth/login/route.ts:35-40 | Run against the cache, the reply does not depend on the token fetch. On the 200 path the slot and the login count move as one `GetAuthToken` call moves them; otherwise they do not move. |
| `BranchPage.Toggle` | app/reports/branch/page.tsx:72-79 | The toggled branch flips membership, and every other branch keeps its membership. |
| `BranchPage.ToggleRemoves` | app/reports/branch/page.tsx:74-75 | With no duplicates, toggling the branch at index k removes just it and keeps the others in order. |
| `BranchPage.ToggleAppends` | app/reports/branch/page.tsx:77 | An unselected branch is appended at the end. |
| `BranchPage.ToggleNoDup` | app/reports/branch/page.tsx:72-79 | Toggling preserves "no duplicates". |
| `BranchPage.ToggleTwiceAbsent` | app/reports/branch/page.tsx:72-79 | Toggling an unselected branch twice restores the selection. |
| `BranchPage.ToggleTwicePresent` | app/reports/branch/page.tsx:72-79 | Toggling a selected branch twice moves it to the end. |
| `BranchPage.BranchColor` | app/reports/branch/page.tsx:115-125 | Every colour comes from the six-colour palette. |
| `BranchPage.ColorCycle` | app/reports/branch/page.tsx:124 | Colours repeat with period 6. Two indices share a colour iff they agree mod 6. |
| `BranchPage.FetchRequest` | app/reports/branch/page.tsx:81-98 | A request is sent iff both dates are non-empty and a branch is selected. It carries the selection and the date texts. |
| `BranchPage.GuardAgreesWithRoute` | app/reports/branch/page.tsx:165 | The button is enabled iff the page is idle and the guard passes. Every request the page sends passes the route's 400 check. |
| `BranchPage.Datasets` | app/reports/branch/page.tsx:224-230 | There is one dataset per selected branch, in order, labelled by the branch and coloured by its index. |
| `BranchPage.SeriesOfTrend` | app/reports/branch/page.tsx:226-228 | With distinct names, branch j's series in a generated trend is its count on each day, oldest first. |
| `BranchPage.DatasetsOfReport` | app/reports/branch/page.tsx:224-228 | For a report generated for the page's own selection, dataset k holds branch k's daily counts in trend order. |

## Left out

- I/O and framework glue are parameters or absent: `fetch`, `request.json()`, `NextResponse`, `process.env`, `btoa` and the Basic header, and `console` logging (including the credential logging in lib/auth.ts:16).
- `Date` handling is replaced by day and minute numbers: parsing, time zones, `setHours`/`setDate`, `toISOString`, and a malformed date's NaN. `Math.ceil` of the millisecond difference is the plain day difference.
- Floating-point fields with no structure to verify are not modelled: the satisfaction scores, `firstContactResolutionRate`, `returningUsers` and `multipleQueriesUsers` (app/api/reports/daily/route.ts:30, 39-47).
- BranchReport.Lower: only `A`–`Z` are lowered. JavaScript's `toLowerCase` also lowers non-ASCII capitals (`É` to `é`) and can lengthen a string (`İ` becomes two code units). The only non-ASCII characters that lower to ASCII letters are U+0130 (to `i` and a combining dot) and U+212A (Kelvin sign, to `k`). Neither can complete "main" or "downtown", so the 30/40/50 base choice is the same.
- ConversationReport.Post: the date's validity is the parameter `parses`, standing for `new Date(date)`. The model does not decide which strings parse. It does follow the 500 that an unparsable date causes.
- `BranchReport.PointCount`: the random factor `Math.random() * 20 - 10` is taken in tenths, and the weekend factor 0.7 is kept exactly as 7/10. Intermediate floating-point error is not modelled.
- `CategoryDetails.PercentTenths`: `Number(x.toFixed(1))` is exact rounding half up on rationals, so binary floating-point ties are not modelled.
- `BranchReport.Average`: the average is modelled as `Option<int>` (null for a zero divisor) rather than being restricted to a positive divisor; a negative divisor is rounded exactly as well.
- `ConversationReport.SortByTimestamp`: the sort is proved sorted and a permutation. Stability is not stated, because it is not needed for the page's order by timestamp.
- Concurrency is out: the unsynchronised read-then-write on the token slot, and the un-awaited `getAuthToken()` in app/api/auth/login/route.ts:35. Its rejection never reaches the reply, and the model runs it to completion.
- Request fields of non-string JSON types (numbers, objects) are not modelled; each field is absent or a string, and the branch list is absent or a list of strings.
- Rendering and chart configuration are not modelled: the JSX, the date labels, `formatDate`, alpha values in colours and `useState` wiring. Only the pieces above are.
- The stats percentages are taken against `totalConversations` (app/api/dashboard/stats/route.ts:23,27), which is drawn independently of the bucket counts. This is not the sum of the buckets, so the percentages need not add up to 100. No sum-to-100 property is claimed for them. The category details divide by their own sum, and there the sum is proved (`CategoryDetails.PercentagesNearHundred`).
- DashboardStats.Percentage: rounds `count / total × 100` on exact rationals. The source forms `(count / total) * 100` in binary floating point. For a few draws, e.g. 145 of 1000, that product falls just below the half (14.499…), and the source returns 14 where the model returns 15.
