# Recycling scoreboard: statistics cache and score-event builder

This project models the logic of a three-team recycling scoreboard. Fans of
Galatasaray (`gs`), Fenerbahçe (`fb`) and Beşiktaş (`ts`) compete. The model
covers three parts:

- **The statistics context** (`statistics_context.dfy`). This is the
  reducer-held state `{selectedDate, dailyStats, loading, error, cache}` and
  its five action kinds. It includes the cache of per-day aggregates, where an
  entry is served while at most five minutes old and evicted after that. The
  provider is a class whose `state` field is replaced on every dispatch.
- **The statistics view** (`statistics.dfy`). This covers the winner rule,
  the summing of `*_delta` fields over a day's documents, and the cache-first
  fetch. The fetch is split at its only `await`: `StartFetch` runs the
  synchronous part and returns a `FetchRequest`, and `CompleteFetch` applies
  the settled query. Nothing is written once `Cleanup` has cleared the
  request's `isActive` flag.
- **The admin panel** (`admin.dfy`). This covers the event built by a click
  from the displayed totals, its decimal document id, the live listener that
  copies totals with 0 for a missing field, the per-team loading flags and
  the snackbar. `handleAddBottle` is split at its `await` in the same way.

`pipeline.dfy` joins the two halves through the store. The events written by
successive clicks during one day aggregate to each team's click count,
whatever totals they carry. The stored collection keeps all of them only when
no two clicks share a millisecond. Document ids are timestamps, so a second
write at the same instant replaces the first. When the listener delivers each event before the
next click, and no other writer exists, those totals are also running sums of
the deltas. A click built from totals the listener has not yet updated breaks
this, and `Pipeline.StaleTotalsLoseEarlierClick` shows how. `decimal.dfy`
renders a timestamp as `toString()` does and parses it back. `teams.dfy` holds
`Option` (the source's `null` or missing field) and the `Team` enumeration.

The clock (`Date.now()`), the day string (`dayjs().format(...)`), the day
query's result and the outcome of a write are parameters. The reducer reads
the clock only for a cache insertion, and `Dispatch` takes it as a `now`
parameter. `SetDate` passes a fixed reading, because `SET_DATE` never reads
the clock (`StatisticsContext.ReduceReadsClockOnlyForInsert`). The thin `setStats`, `setLoading`, `setError` and
`updateCache` callbacks are `Dispatch` of the matching `Action`. The "goal"
test the scoreboard applies to each new document (src/App.js:164, "some delta
is exactly 1") is the predicate `Admin.IsGoal`. `Admin.MakeEvent` promises
that every event it builds satisfies it.

The model keeps five behaviours exactly as the code has them:

- The code does not validate the day key. The selected date is stored and
  queried as given.
- A cache insertion overwrites any entry under the same key, fresh or not.
- An unknown team cannot occur, because teams are an enumeration.
- Moving from a day whose query is still pending to a day with a fresh cache
  entry leaves `loading` raised, so the spinner hides the cached stats. The
  cancelled request never clears the flag, and the cache-hit path does not
  clear it either.
- On a cache miss, a stale entry for the day is evicted before the query is
  issued. A failed refetch therefore leaves the day with no cached value,
  rather than keeping the stale one available.

## Model

| member | source | states |
|---|---|---|
| `StatisticsContext.InitialState` | src/context/StatisticsContext.js:5-19 | the initial state has the given day, zero totals, winner BERABERE with score 0, loading off, no error and an empty cache |
| `StatisticsContext.Reduce` | src/context/StatisticsContext.js:29-68 | SET_DATE, SET_STATS, SET_LOADING and SET_ERROR each set their one field to the payload and leave every other field, cache included, unchanged; UPDATE_CACHE with data maps the key to {data, now}; UPDATE_CACHE with null removes the key; both keep every other key's entry and all non-cache fields; deleting an absent key and an unknown action type leave the state unchanged |
| `StatisticsContext.ReduceReadsClockOnlyForInsert` | src/context/StatisticsContext.js:29-68 | every action other than a cache insertion gives the same state whatever the clock reads |
| `StatisticsContext.SelectDate` | src/context/StatisticsContext.js:77-81 | afterwards the selected date is the given one, no other field changed, and selecting the already selected date changes nothing |
| `StatisticsContext.SelectDateIdempotent` | src/context/StatisticsContext.js:77-81 | selecting the same date twice equals selecting it once |
| `StatisticsContext.Lookup` | src/context/StatisticsContext.js:99-112 | a value is returned exactly when the key is cached and `now - timestamp <= 300000`, and then it is the stored data with the state untouched; an absent key gives null and changes nothing; a stale entry gives null, its key is removed and every other entry and field is kept |
| `StatisticsContext.StatisticsProvider.constructor` | src/context/StatisticsContext.js:75 | the provider starts in the initial state |
| `StatisticsContext.StatisticsProvider.Dispatch` | src/context/StatisticsContext.js:75 | the held state becomes the reducer applied to the old state |
| `StatisticsContext.StatisticsProvider.SetDate` | src/context/StatisticsContext.js:77-81 | dispatches SET_DATE only when the date differs, so the state is unchanged otherwise |
| `StatisticsContext.StatisticsProvider.GetCachedData` | src/context/StatisticsContext.js:99-112 | returns the value and leaves the state that `Lookup` gives, evicting a stale entry through a dispatch |
| `Statistics.Max3` | src/components/Statistics.js:248 | the result is one of the three counts and at least each of them |
| `Statistics.CalculateWinner` | src/components/Statistics.js:235-249 | the score is always the maximum of the three counts; a team is named exactly when its count is strictly above both others; the result is BERABERE exactly when no team holds a strict maximum; all zero gives BERABERE with 0 |
| `Statistics.WinnerExamples` | src/components/Statistics.js:235-249 | (0,0,0), (5,5,5) and (5,5,2) are ties at 0, 5 and 5; (7,3,2), (3,7,2) and (2,3,7) are won by the team holding 7 |
| `Statistics.DeltaOf` | src/components/Statistics.js:278-280 | a document's delta for a team is its field, or 0 when the field is missing |
| `Statistics.Aggregate` | src/components/Statistics.js:274-284 | the aggregate holds the three day sums, a winner scored with the largest sum, and a named team exactly when its sum strictly leads |
| `Statistics.SumDeltas` | src/components/Statistics.js:274-281 | the loop's three accumulators end as the per-team sums of deltas over the documents |
| `Statistics.DaySumPermutation` | src/components/Statistics.js:276-281 | a team's day sum is the same for any reordering of the documents |
| `Statistics.AggregateOrderIndependent` | src/components/Statistics.js:274-284 | the whole aggregate (sums and winner) does not depend on document order |
| `Statistics.EndToEndExample` | src/components/Statistics.js:274-284 | three Galatasaray and one Fenerbahçe increment aggregate to 3, 1, 0 with Galatasaray winning on 3 |
| `Statistics.Begin` | src/components/Statistics.js:255-266 | a query is issued exactly when the selected day has no fresh cache entry; on a hit the error is cleared, the stats become the cached value and nothing else changes; on a miss the error is cleared, loading is set, a stale entry for the day is evicted and the stats are kept |
| `Statistics.Finish` | src/components/Statistics.js:283-299 | an inactive request changes nothing, and loading stays set; an active success writes the same aggregate to the day's cache entry, stamped with now, and to the stats, then clears loading; an active failure sets the error message, clears loading and leaves cache and stats untouched |
| `Statistics.RefetchWithinWindowHitsCache` | src/components/Statistics.js:259-289 | after a successful fetch, fetching the same day again within five minutes issues no query and shows the same aggregate |
| `Statistics.RefetchAfterWindowQueries` | src/components/Statistics.js:259-273 | after more than five minutes, fetching the same day issues a new query |
| `Statistics.FailedRefetchLeavesNoEntry` | src/components/Statistics.js:259-299 | when the selected day's entry is stale, a query is issued and, if it fails, the day has no cache entry afterwards |
| `Statistics.SwitchToCachedDayKeepsLoading` | src/components/Statistics.js:259-306 | after a query for one day is issued and its request is cleaned up on a switch to a day with a fresh entry, the new day is shown from the cache, no query is issued, and loading stays raised |
| `Statistics.FetchRequest.constructor` | src/components/Statistics.js:252 | a new request is for the given day and active |
| `Statistics.FetchRequest.Cleanup` | src/components/Statistics.js:304-306 | the cleanup makes the request inactive |
| `Statistics.StartFetch` | src/components/Statistics.js:254-273 | returns a fresh active request for the selected day, and the issued flag and new state that `Begin` gives |
| `Statistics.CompleteFetch` | src/components/Statistics.js:273-299 | the new state is `Finish` of the old one for the request's day and activity, and a cleaned-up request leaves the state unchanged |
| `Admin.IsGoal` | src/App.js:164 | a document is a goal exactly when some team's delta is exactly 1 |
| `Admin.MakeEvent` | src/components/Admin.js:65-74 | the chosen team's total is one above the displayed total and the others are copied; the chosen delta is 1 and the others 0; each total is the displayed total plus the delta; day key and timestamp are as given; the event is a goal |
| `Admin.DocId` | src/components/Admin.js:63-77 | the document id is a non-empty decimal numeral of the timestamp |
| `Admin.DocIdIdentifiesTimestamp` | src/components/Admin.js:63-77 | parsing the id gives back the timestamp, and two events share an id exactly when their timestamps are equal |
| `Admin.FromSnapshot` | src/components/Admin.js:47-51 | each displayed total is the document's field, or 0 when missing |
| `Admin.SnapshotOfNewEvent` | src/components/Admin.js:44-77 | when the just-written event comes back through the listener, the chosen team shows one more and the others are unchanged |
| `Admin.Report` | src/components/Admin.js:79-90 | the snackbar is open; its severity is success exactly when the write went through; it carries the success text or the error prefix followed by the error's message |
| `Admin.AdminPanel.constructor` | src/components/Admin.js:25-39 | totals start at zero, every team's flag is off, the snackbar is closed with severity success |
| `Admin.AdminPanel.OnSnapshot` | src/components/Admin.js:44-53 | the totals become those of the last delivered document, and an empty delivery keeps them |
| `Admin.AdminPanel.StartAddBottle` | src/components/Admin.js:58-74 | the chosen team's flag is raised and the others kept; the event is built from the displayed totals and the id from its timestamp |
| `Admin.AdminPanel.FinishAddBottle` | src/components/Admin.js:77-93 | the snackbar reports the outcome and the chosen team's flag is lowered, the others kept |
| `Admin.AdminPanel.HandleAddBottle` | src/components/Admin.js:58-94 | on success and on failure the displayed totals are unchanged, the chosen flag ends off, other flags are kept and the snackbar reports the outcome |
| `Admin.AdminPanel.CloseSnackbar` | src/components/Admin.js:96-98 | only the snackbar's open flag is cleared |
| `Decimal.Show` | src/components/Admin.js:77 | the numeral is non-empty, all digits, has no leading zero, and is one digit exactly for values below ten |
| `Decimal.ParseShow` | src/components/Admin.js:77 | parsing the rendered numeral gives back the number |
| `Decimal.ShowInjective` | src/components/Admin.js:63-77 | two timestamps render to the same id exactly when they are equal |
| `Pipeline.Docs` | src/components/Statistics.js:273-281 | position by position, the delta fields of each event in a list, one document per event; the collection's replacement of a repeated id is `Pipeline.WriteAll`'s |
| `Pipeline.Session` | src/components/Admin.js:58-77 | each event of a session is stamped with the day and its click's instant, and has a one-hot delta for its click's team |
| `Pipeline.SessionDaySum` | src/components/Statistics.js:274-281 | summing a team's deltas over the events a day's clicks write (before the collection merges repeated ids) gives that team's number of clicks |
| `Pipeline.SessionRunningTotals` | src/components/Admin.js:65-68 | when each event is delivered back before the next click, the last event of a session carries the starting total plus the team's clicks |
| `Pipeline.StaleTotalsLoseEarlierClick` | src/components/Admin.js:44-68 | two clicks for different teams built from the same displayed totals leave the newest event's total for the first team without the first click |
| `Pipeline.Put` | src/components/Admin.js:77 | writing under an id no document has appends the document at the end |
| `Pipeline.PutReplacesExisting` | src/components/Admin.js:77 | writing under an id already present replaces that document at its position, keeps the collection's size and leaves every other document unchanged |
| `Pipeline.Events` | src/components/Statistics.js:273-276 | the query sees each stored document's fields, position by position |
| `Pipeline.DistinctWritesKeepAll` | src/components/Admin.js:63-77 | events with pairwise distinct timestamps whose ids are not yet taken are all kept, in order, after the existing documents |
| `Pipeline.SameInstantWritesCollide` | src/components/Admin.js:63-77 | two writes with the same timestamp leave a single document, the later one |
| `Pipeline.StoredSessionDaySum` | src/components/Statistics.js:268-281 | when a day's clicks fall at distinct instants, the day sum over the stored collection is each team's click count |
| `Pipeline.SameInstantClicksCountOnce` | src/components/Admin.js:63-77 | two clicks for one team in the same millisecond leave one document, and that team's day sum is 1, not 2 |
| `Pipeline.SessionWinner` | src/components/Statistics.js:274-284 | the aggregate of a session's written events is the click counts with the winner computed from them |

## Left out

- Firestore (`getDocs`, `setDoc`, `onSnapshot`, `query`/`where`/`orderBy`/`limit`) is external I/O. The day query is a `QueryOutcome` parameter (the documents returned, or a failure). The write is a `WriteOutcome` parameter. A listener delivery is a sequence of documents. The `dayKey` filter is assumed to be applied by the store.
- `Date.now()` and `dayjs().format('YYYY-MM-DD')` are a clock and a date library. They become the `now`/`timestamp` and `dayKey`/`today` parameters.
- React scheduling is left out: `useReducer`, `useCallback` and `useMemo` dependency semantics, re-renders and promise interleaving. The effect re-runs whenever `selectedDate` or `getCachedData` changes. Which `StartFetch`/`Cleanup`/`CompleteFetch` calls happen, and in what order, is up to the caller.
- Statistics.StartFetch: the `if (!isActive) return;` at the top of `fetchData` is not modelled as a branch. `fetchData` is called synchronously right after the flag is set, so that check always passes.
- `console.error` logging on a failed fetch or write is left out. It is output only.
- Statistics.DeltaOf and Admin.FromSnapshot: only integer or missing fields are modelled; the model's fields are `Option<int>`. JavaScript's `|| 0` also maps `NaN`, `false` and `""` to 0 and would concatenate a string field. JavaScript numbers are doubles, so non-integer deltas are not modelled either.
- Statistics.SumDeltas, Admin.MakeEvent: Dafny's `int` is unbounded, while JavaScript sums and totals are exact only below 2^53. From there on `scores.gs_total + 1` (src/components/Admin.js:66-68) can leave the value unchanged, which the model does not capture.
- Pipeline.Docs: reads a list of written events one document per event. The collection itself is modelled by `Pipeline.WriteAll`, where a write under an id already present replaces that document. Ids are timestamps, so two writes in the same millisecond keep only the later one. That includes a click and any other writer that uses timestamp ids. `Pipeline.SessionDaySum` is about the events written; `Pipeline.StoredSessionDaySum` carries the count over to the stored collection only when the clicks fall at distinct instants, and `Pipeline.SameInstantClicksCountOnce` shows that a collision loses a click.
- Decimal.Show: renders plain decimal digits. JavaScript switches to exponent notation only at 10^21 and above, far beyond millisecond timestamps.
- Admin.AdminPanel.HandleAddBottle: a team string other than `gs`, `fb` and `ts` cannot be passed, because `Team` is an enumeration. In the source such a string would write an event with all deltas 0 and add a stray loading flag.
- Presentation code is left out: `getTeamColor`, `getTeamLogo`, `WinnerCard`, `TeamStatsCard`, `DailyStatsCard`, confetti, window resizing, navigation, and the rest of src/App.js (layout, animation, sound playback, `localStorage`).
- The unused `newCache` copy in `getCachedData` (src/context/StatisticsContext.js:105-106) is dead code and is not modelled. The eviction goes through the dispatch.
- Pipeline.SessionRunningTotals: proved only for the schedule `Session` fixes. Under that schedule the listener delivers each written event before the next click, and no other writer exists. The source does not guarantee this. `handleAddBottle` builds from the displayed `scores` (src/components/Admin.js:66-68), and only the clicked team's button is disabled while its write is pending (src/components/Admin.js:250). So clicks for two teams in quick succession can both start from the same totals. `Pipeline.StaleTotalsLoseEarlierClick` states that case.
