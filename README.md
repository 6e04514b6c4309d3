# Hooklens dashboard core, modelled in Dafny

Hooklens is a dashboard that shows webhook delivery attempts for a content
project. Apart from its UI, it has three small pieces of logic, and this
project models and proves all three:

- **The attempt aggregator** (`src/utils/mockDataProcessor.ts`, module
  `MockData`). It takes the loaded messages, each with its delivery attempts,
  and makes one summary per message that has attempts. Each summary holds the
  first and last attempt time, the number of attempts, and the status. The
  status is `Failed` if any attempt failed. The summary also holds the latest
  failure and the latest success, the response code and the issue text. The
  summaries are sorted newest first. `getMockDataSummary` then reduces them to
  totals and a success rate. `getRelativeTime` turns a millisecond difference
  into "N minutes/hours/days ago", with the current time passed in as `now`.
  `loadMockData`'s module-level cache is the class `MockDataCache`.
- **The attempts table's state** (`src/components/WebhookAttemptsTable.tsx`,
  module `WebhookAttemptsTable`). This covers the page arithmetic (ten rows per
  page), the "Showing X-Y of N" range and the five page-number buttons. It
  also covers the class `AttemptsTable`, whose fields `rows`, `currentPage` and
  `expanded` are the component's state. Its methods are the component's
  handlers: the reset to page 1 when the data changes, expand/collapse of a
  row, the page buttons, and Previous/Next.
- **The Dashboard's filter** (`src/components/Dashboard.tsx`, module
  `Dashboard`). It is the search-and-status predicate applied to the
  summaries, together with the Clear button's reset.

Two helper modules support them. `Wrappers` holds `Option`. `Decimal` holds
the decimal text of an integer, which stands in for JavaScript's
`Number.prototype.toString` on integral numbers. `Decimal` also holds a parser
for that text, and the round trip proves that the text determines the number.

Times are integer milliseconds since the epoch. `Math.floor` of a millisecond
difference divided by a positive constant is Dafny's `/`, which floors for
positive divisors. The source's sorts of each message's attempts, and its
`filter(...)[0]` steps, are modelled by what they return:
- the smallest and largest `createdAt`;
- for the latest failure and the latest success, the first attempt in input
  order among those with the largest `createdAt`. This is what two stable
  sorts followed by taking element `[0]` give. At most one attempt meets that
  description (`LatestIsUnique`), so the choice is deterministic.

The table's handlers are modelled under the conditions in which the component
can call them:
- the Previous and Next buttons are rendered only when there is more than one
  page (WebhookAttemptsTable.tsx:521);
- a page number passed to `handlePageChange` always comes from the button
  window, so it lies in 1..totalPages (proved by `PageWindow`).

Three facts of the code are worth stating:
- the code computes `successMessages = total - failed`;
- `Math.round` rounds halves up;
- a timestamp that cannot be parsed is not handled at all in the code, so the
  model has integer timestamps only.

## Model

| member | source | states |
|---|---|---|
| `Decimal.IntToString` | src/utils/mockDataProcessor.ts:154 | `resultCode.toString()`: non-empty text that starts with "-" iff the code is negative, and is all digits otherwise. Its partner `IntRoundTrip` reads it back. |
| `Decimal.NatToString` | src/utils/mockDataProcessor.ts:154 | The decimal text of a count is non-empty, all digits, and has no leading zero unless the count is 0. |
| `Decimal.IntRoundTrip` | src/utils/mockDataProcessor.ts:154 | The text `resultCode.toString()` reads back as that result code. |
| `Decimal.IntToStringInjective` | src/utils/mockDataProcessor.ts:154 | Distinct codes give distinct issue texts. |
| `MockData.AgeOf` | src/utils/mockDataProcessor.ts:72-86 | The unit is minutes iff 0 ≤ diff < 1 h, hours iff 1 h ≤ diff < 1 day, "1 day" iff 1 day ≤ diff < 2 days, and days otherwise, negative differences included. Minutes lie in 0..59, hours in 1..23, days are neither 0 nor 1. Each count is the floor of diff over its unit. |
| `MockData.Render` | src/utils/mockDataProcessor.ts:79-85 | Every phrase ends in " ago", and only the one-day age reads "1 day ago". Its partner `RenderInjective` shows the phrase determines the age. |
| `MockData.RelativeTime` | src/utils/mockDataProcessor.ts:69-87 | getRelativeTime at time `now`: a phrase ending in " ago", and "1 day ago" iff one to two days have passed. The phrase for every range is given by `RelativeTimePhrases`. |
| `MockData.RelativeTimePhrases` | src/utils/mockDataProcessor.ts:69-87 | The exact phrase for each range of `now - t`: "⟨minutes⟩ minutes ago", "⟨hours⟩ hours ago", "1 day ago", "⟨days⟩ days ago". |
| `MockData.RenderInjective` | src/utils/mockDataProcessor.ts:79-85 | Two ages with the same phrase are the same age, so the phrase determines the unit and the count. |
| `MockData.EarliestAt` | src/utils/mockDataProcessor.ts:121-126 | The first attempt's time is the time of some attempt and is at most every attempt's time. |
| `MockData.LatestAt` | src/utils/mockDataProcessor.ts:121-127 | The last attempt's time is the time of some attempt and is at least every attempt's time. |
| `MockData.LatestMatching` | src/utils/mockDataProcessor.ts:134-147 | There is no result iff no attempt has the wanted outcome. Otherwise the result is a wanted attempt with the largest `createdAt` among them, and the first in input order among those sharing that time. |
| `MockData.LatestIsUnique` | src/utils/mockDataProcessor.ts:134-147 | At most one attempt is "the latest" with a given outcome, so the pick is deterministic. |
| `MockData.ReasonOrDefault` | src/utils/mockDataProcessor.ts:165 | A missing or empty failure reason becomes "Unknown error". Any other reason is kept. |
| `MockData.SummaryOf` | src/utils/mockDataProcessor.ts:118-193 | The summary has the message's id and attempt count. First ≤ every attempt time ≤ last, and both are attained. Status is Failed iff some attempt failed. Failure details exist iff some attempt failed, and they describe the latest failure. Success details exist iff some attempt succeeded, and they describe the latest success. A response code is always present: on Failed it is the latest failure's code with `issue` its text, and on Success it is the latest success's code with `issue` null. |
| `MockData.SummaryOrderIndependent` | src/utils/mockDataProcessor.ts:120-131 | Permuting a message's attempts changes none of these: status, count, first and last time, whether failure details exist, whether success details exist. |
| `MockData.FailureThenSuccess` | src/utils/mockDataProcessor.ts:129-158 | Take a failure (502) followed by a later success (200). The message is Failed with response code 502 and issue "502", and it carries both details. |
| `MockData.Collected` | src/utils/mockDataProcessor.ts:118-195 | The forEach's pushes: at most one summary per message, each with at least one attempt. Its partner `CollectedExactlyOnePerMessage` gives the exact count and membership. |
| `MockData.CollectedExactlyOnePerMessage` | src/utils/mockDataProcessor.ts:118-195 | The pushed summaries are exactly the summaries of the messages whose attempts are present and non-empty, one per such message. |
| `MockData.SortKey` | src/utils/mockDataProcessor.ts:200 | The comparator's key is the last attempt time rounded down to its minute, because the re-parsed formatted text has no seconds. |
| `MockData.SortKeyMonotone` | src/utils/mockDataProcessor.ts:200 | The minute key never reverses the order of two times. |
| `MockData.MinuteOrderWithinAMinute` | src/utils/mockDataProcessor.ts:197-201 | In the source's order, a later summary is never a full minute newer than an earlier one. |
| `MockData.NewestFirstIsMinuteOrder` | src/utils/mockDataProcessor.ts:197-201 | The exact newest-first order is also sorted by the minute key. |
| `MockData.MinuteOrderMisorders` | src/utils/mockDataProcessor.ts:197-201 | Any two summaries whose last attempts are 1 s and 59 s into the same minute, pushed older first, are already sorted by the minute key. Sorting leaves them as they are, so the result is not newest first. |
| `MockData.InsertByKey` | src/utils/mockDataProcessor.ts:198-201 | Inserting into a sequence sorted descending by the key keeps it sorted, and adds exactly the new summary. |
| `MockData.SortNewestFirst` | src/utils/mockDataProcessor.ts:198-201 | The result is sorted descending by the key and is a permutation of the input. |
| `MockData.InsertAtEnd` | src/utils/mockDataProcessor.ts:198-201 | A summary whose key is no larger than any key already placed goes last, as a stable sort places it. |
| `MockData.EqualKeysKeepOrder` | src/utils/mockDataProcessor.ts:198-201 | Two summaries with equal keys come out in the order they went in. |
| `MockData.ProcessMessages` | src/utils/mockDataProcessor.ts:114-202 | The output is a permutation of the pushed summaries, one for each message with attempts. A summary is in the output iff it is the summary of such a message. The output is sorted descending by the given key. With `SortKey` this is processMockData as written, sorted by minute only. With `ExactTime` the output is newest first (`NewestFirst`). |
| `MockData.Tally` | src/utils/mockDataProcessor.ts:208-215 | The `filter(...).length` count and the `reduce` sum: zero on no summaries, and at least the weight of each summary. Its partners `TallyPermutation` and `CollectedTallies` show it does not depend on order and what it counts. |
| `MockData.TallyPermutation` | src/utils/mockDataProcessor.ts:207-215 | The failed count and the attempt sum do not depend on the order of the summaries. |
| `MockData.CollectedTallies` | src/utils/mockDataProcessor.ts:207-215 | Over the collected summaries, the failed count equals the number of messages with a failing attempt. The attempt sum equals the number of attempts of the messages that have some. |
| `MockData.SuccessRate` | src/utils/mockDataProcessor.ts:222-225 | The rate is 0 when there are no messages. Otherwise it is 100·success/total rounded half up. It always lies in 0..100. |
| `MockData.MockDataSummary` | src/utils/mockDataProcessor.ts:205-227 | success + failed = total messages. The total counts the summaries, failed counts the Failed ones, and total attempts is the sum of the attempt counts. The rate is as above. The empty input gives all zeros. |
| `MockData.GetMockDataSummary` | src/utils/mockDataProcessor.ts:205-227 | The statistics computed through processing equal counts taken on the messages themselves: messages with attempts, messages with a failure, the attempt total, and the rounded success rate. |
| `MockData.MockDataCache.constructor` | src/utils/mockDataProcessor.ts:90 | Nothing is cached at start. |
| `MockData.MockDataCache.LoadMockData` | src/utils/mockDataProcessor.ts:93-111 | With data cached, it returns that data and ignores the fetch. Otherwise a successful fetch is cached and returned. A failed fetch returns `[]` and caches nothing. |
| `MockData.MockDataCache.Refresh` | src/components/Dashboard.tsx:96-113 | Refresh as the comment intends: the result is the new fetch, or `[]` if it failed, and the cache holds the new fetch. |
| `MockData.StaleRefresh` | src/components/Dashboard.tsx:96-113 | The refresh as written returns the first load even when the refetch holds other data. |
| `WebhookAttemptsTable.TotalPages` | src/components/WebhookAttemptsTable.tsx:146 | `ceil(n/10)`: the fewest pages of ten that hold n rows. It is zero iff there are no rows. |
| `WebhookAttemptsTable.PageRows` | src/components/WebhookAttemptsTable.tsx:147-151 | The page holds at most ten rows. The k-th row of page p is row (p−1)·10+k. The page has min(p·10, n) − (p−1)·10 rows, or none past the end. |
| `WebhookAttemptsTable.PageRowsNonEmpty` | src/components/WebhookAttemptsTable.tsx:146-151 | A page has rows iff its number is at most totalPages. |
| `WebhookAttemptsTable.PageOfRow` | src/components/WebhookAttemptsTable.tsx:146-151 | Row i is shown at position i mod 10 of page ⌊i/10⌋+1, which exists, and it is on no other page. |
| `WebhookAttemptsTable.ShownRange` | src/components/WebhookAttemptsTable.tsx:526 | When the page starts inside the data, "Showing X-Y" has 1 ≤ X ≤ Y ≤ n and at most ten rows between them. Its partner `ShownRangeMatchesPage` ties it to the page's rows. |
| `WebhookAttemptsTable.ShownRangeMatchesPage` | src/components/WebhookAttemptsTable.tsx:526 | On an existing page, "Showing X-Y" has 1 ≤ X ≤ Y ≤ n, and Y − X + 1 is the number of rows on the page, starting at row X. |
| `WebhookAttemptsTable.PageWindow` | src/components/WebhookAttemptsTable.tsx:543-553 | There are min(5, totalPages) buttons, numbered consecutively and all within 1..totalPages. The current page is among them whenever it is a valid page. |
| `WebhookAttemptsTable.PageWindowIncreasing` | src/components/WebhookAttemptsTable.tsx:543-553 | Button numbers strictly increase, so no page repeats. |
| `WebhookAttemptsTable.Toggled` | src/components/WebhookAttemptsTable.tsx:160-170 | Toggling flips the membership of the one id and no other. |
| `WebhookAttemptsTable.ToggleTwice` | src/components/WebhookAttemptsTable.tsx:160-170 | Toggling the same id twice restores the set. |
| `WebhookAttemptsTable.AttemptsTable.constructor` | src/components/WebhookAttemptsTable.tsx:139-143 | The first render is on page 1 with nothing expanded. |
| `WebhookAttemptsTable.AttemptsTable.ReceiveData` | src/components/WebhookAttemptsTable.tsx:153-158 | With new data, the page goes back to 1 iff it exceeds totalPages > 0, and otherwise stays. Expanded rows stay. The state stays valid. |
| `WebhookAttemptsTable.AttemptsTable.ToggleExpand` | src/components/WebhookAttemptsTable.tsx:160-170 | The expanded set becomes the toggled set. Nothing else changes, and the state stays valid. |
| `WebhookAttemptsTable.AttemptsTable.HandlePageChange` | src/components/WebhookAttemptsTable.tsx:172-176 | The page becomes the chosen one and the expanded set is emptied. |
| `WebhookAttemptsTable.AttemptsTable.HandlePrevious` | src/components/WebhookAttemptsTable.tsx:178-182 | Above page 1 it moves back one page and collapses every row. Otherwise nothing changes. The page stays within 1..totalPages. |
| `WebhookAttemptsTable.AttemptsTable.HandleNext` | src/components/WebhookAttemptsTable.tsx:184-188 | Below the last page it moves on one page and collapses every row. Otherwise nothing changes. The page stays within 1..totalPages. |
| `WebhookAttemptsTable.AttemptsTable.PaginatedData` | src/components/WebhookAttemptsTable.tsx:147-151 | The visible rows are at most ten consecutive rows starting at the page's start index. They are non-empty whenever there is data. |
| `WebhookAttemptsTable.AttemptsTable.PageNumbers` | src/components/WebhookAttemptsTable.tsx:543-553 | Every button is a page that exists, and the current page has a button whenever there are rows. |
| `Dashboard.FilteredAttempts` | src/components/Dashboard.tsx:74-91 | A summary is kept iff the search is empty or its lower-cased id contains the lower-cased search, and its status matches the filter ("success" → Success, "failed" → Failed, anything else → any). Each kept summary keeps its multiplicity. |
| `Dashboard.FilteredIsSubsequence` | src/components/Dashboard.tsx:74-75 | The filtered list is a subsequence of the input, in the same relative order. |
| `Dashboard.FilterIdempotent` | src/components/Dashboard.tsx:74-91 | Filtering the filtered list again with the same settings changes nothing. |
| `Dashboard.StatusFiltersPartition` | src/components/Dashboard.tsx:81-87 | For any search, the "success" and "failed" results together are as many as the "all" result. |
| `Dashboard.Cleared` | src/components/Dashboard.tsx:268-271 | Clear sets the search to "" and the status to "all". Its partner `ClearedIsIdentity` shows the filter then returns its input. |
| `Dashboard.ClearedIsIdentity` | src/components/Dashboard.tsx:264-271 | After Clear (empty search, "all"), and whenever the Clear button is hidden, the filter returns its input unchanged. |

## Left out

- `formatDate` (`toLocaleString`) and `new Date(string)` are library calls and are not modelled. A summary keeps the millisecond time where the source keeps the formatted text. Only the final sort's consequence of that formatting is modelled, by `SortKey`, which assumes whole-minute time-zone offsets and no daylight-saving ambiguity.
- The fields of a raw attempt that the core never reads are not modelled: `projectId`, `inProgress`, `duration`, `updatedAt` and `hookId` (mockDataProcessor.ts:2-15).
- The fields of a raw message that the core never reads are not modelled: `createdAt`, `projectId`, `dataset`, `failureCount`, `resultCode`, `payload` and `status` (mockDataProcessor.ts:17-27).
- The `console.error` logging at mockDataProcessor.ts:107 and Dashboard.tsx:63 and :108 is output only, and is not modelled.
- `fetch`, `response.json()` and the async/Promise plumbing are I/O. The outcome of the fetch is a parameter of `LoadMockData`, and the loaded messages are a parameter of `ProcessMessages`.
- `new Date()` in `getRelativeTime` is the parameter `now`. One `now` serves both relative strings of a summary.
- `Math.round` on floating point is modelled as exact rounding half up. Floating-point artefacts are not reproduced.
- `Number.prototype.toString` is modelled for integers in plain decimal notation. Exponent notation for huge values is not modelled.
- `toLowerCase` is modelled on ASCII letters only. Unicode case mapping is not modelled.
- MockData.SortNewestFirst: proves the result is sorted and a permutation. Stability is proved only for a pair of equal keys (`EqualKeysKeepOrder`), not for a whole sequence, although JavaScript's sort is stable.
- WebhookAttemptsTable.PageRows: defined for pages from 1. `slice`'s handling of negative indices is not modelled, because the current page never drops below 1.
- React hook semantics are not modelled: `useState`, `useMemo`, and re-render scheduling. The reset-to-page-1 step runs as part of `ReceiveData`.
- Calls of the Previous/Next handlers while the pagination controls are hidden are not modelled. Page changes to numbers outside the button window are not modelled either.
- All JSX rendering is not modelled: `ResponseBodyDisplay` (`JSON.parse`/`JSON.stringify`), styling, icons and theming.
- The Dashboard's loading/error flags, its summary state and its settings dialog are UI state only and are not modelled.
- `src/components/SettingsDialog.tsx`, `src/App.tsx` and `src/components/Loading.tsx` hold form state, provider wiring and a spinner only, and are not modelled. The Sanity SDK calls are not modelled.

## Findings

| source | as written | input that shows it | evidently intended | confidence | as-written member | corrected member |
|---|---|---|---|---|---|---|
| src/utils/mockDataProcessor.ts:197-201 | The sort compares `new Date(lastAttempt)` of the minute-precision formatted text. Two last attempts in the same minute therefore compare equal and keep the order in which they were pushed. | Message m1 pushed first with last attempt at 00:00:01, m2 with last attempt at 00:00:59. The result is [m1, m2]. | The newest last attempt comes first (the code comment says "newest first"). This is `ProcessMessages` with key `ExactTime`; with `SortKey` it is the code as written. | medium, not executed | `MockData.MinuteOrderMisorders` | `MockData.ProcessMessages` |
| src/components/Dashboard.tsx:96-113 | `handleRefresh` is commented "Clear cache and reload", but `cachedMessages` is never cleared. `processMockData` and `getMockDataSummary` therefore return the first load again. | Load [m1], then refresh while the data source now holds [m2]. The refresh shows [m1]. | The refresh drops the cache and loads again. | high, not executed | `MockData.StaleRefresh` | `MockData.MockDataCache.Refresh` |
