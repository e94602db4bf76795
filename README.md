# Speed-test orchestration, page history and stats endpoint — a Dafny model

This project models the three pieces of sequential logic in the LibreSpeed-based
speed-test application:

1. **The `useSpeedtest` hook** (`resources/js/Hooks/use-speedtest.ts`). It owns a
   measurement worker and a polling interval, posts the commands `"start " + config`,
   `"status"` and `"abort"` to the worker, and folds every status message into the
   published `SpeedtestResult` by a last-write-wins merge. It also appends to a
   `chartData` log that takes points only in states 1–3, skips a point equal to the
   last one and keeps 60 points at most. Polling stops when a message reports state
   4 or more, and text that does not parse is ignored.
   - `SpeedtestStatus` (speedtest_status.dfy) holds the record, the merge and the
     chart fold as functions.
   - `UseSpeedtest` (use_speedtest.dfy) holds the handle state machine. Its
     `After…` functions specify each operation, `Inv` is the invariant they keep, and
     class `Hook` performs the operations field by field.
   - The host's side (which handles are live, which commands were posted) is kept
     in ghost fields.
2. **The page's history effect** (`resources/js/pages/Speedtest.tsx`), in
   `SpeedtestPage` (speedtest_page.dfy). A download history records in state 1, an
   upload history in state 3, each deduplicated on its value and capped at 30. Both
   are cleared in state -1. An empty history is drawn as a 20-point zero line; the
   start button shows unless `0 < testState < 4`.
3. **The stats endpoint** (`dist/results/api.php`), in `StatsApi` (stats_api.dfy).
   `Respond` is the whole script as a step function
   (request, configured password, session flag, fetch result → status, body, new flag).
   `Session.Handle` runs it statement by statement against a session object.
   `SummarizeRows` is the summing loop.

Both deduplicated logs are instances of `RecentLog.Push` (recent_log.dfy). It is
proved against an independent reference, `Collapse`. `Collapse` keeps an element
exactly when its key differs from that of the element received just before it.
A log built by `Push` from empty is always the last `cap` elements of the collapsed
input (`RecentLog.FromEmpty`, the special case of the general
`RecentLog.PushAllCollapse`, which starts from the window of any collapsed prefix).
For the hook this is
`SpeedtestStatus.ChartIsRecentDistinctSamples`; for the page it is
`SpeedtestPage.HistoriesAreRecentDistinctSamples`.

Behaviour of the code that the model keeps on purpose:
- A chart point stores the message's own `dlStatus`/`ulStatus`. These are absent
  (`undefined`) when the message lacks them, so `ChartPoint` holds `Option<string>`.
  The merged value is not what is stored.
- The phase is not forced to move forward, and `clientIp` is not frozen once set.
  The code trusts every message field, and so does the model.
- The unmount teardown terminates the worker but keeps the reference. `Inv` therefore
  only asks that a live worker be the referenced one.
- The start button also shows in state 0, while a test is being set up.

## Model

| member | source | states |
|---|---|---|
| `UseSpeedtest.Hook.constructor` | resources/js/Hooks/use-speedtest.ts:17-32 | starts from `SpeedtestStatus.InitialResult` (lines 18-29), stated field by field: state -1, rates "0.00", ping and jitter "0", empty IP, progress 0, empty chart; no worker, no interval |
| `UseSpeedtest.MountedSatisfiesInv` | resources/js/Hooks/use-speedtest.ts:18-32 | the mounted state satisfies the hook invariant |
| `SpeedtestStatus.ApplyMessage` | resources/js/Hooks/use-speedtest.ts:61-72 | specification of the `setResult` updater: a present `testState`, `dlStatus` or `ulStatus` wins over the previous one, `{}` changes nothing, and a chart of at most 60 points stays so; further properties are in `Merge`, `AppendChart`, `ReceiveAllMerges` and `ReceiveAllChart` |
| `UseSpeedtest.AfterCleanup` | resources/js/Hooks/use-speedtest.ts:34-39 | specification of `cleanup`: afterwards there is no interval, the cleared one is no longer live, and nothing else changes; its other properties are in `StepKeepsInv`, `QuietWhileStopped` and `Hook.Cleanup` |
| `UseSpeedtest.AfterTerminate` | resources/js/Hooks/use-speedtest.ts:43-46 | terminating the current worker takes it out of the live workers and changes nothing else; the reference itself is kept |
| `UseSpeedtest.AfterStart` | resources/js/Hooks/use-speedtest.ts:50-98 | specification of `startTest`: a new worker and a new interval with distinct fresh handles, exactly one `start` command posted to the new worker, state 0 and an empty chart; its other properties are in `StartReplacesHandles`, `StepKeepsInv` and `Hook.StartTest` |
| `UseSpeedtest.AfterAbort` | resources/js/Hooks/use-speedtest.ts:101-109 | specification of `abortTest`: no worker, no interval and state -1 afterwards, an `abort` posted exactly when there was a worker, no handle becomes live and the chart is kept; its other properties are in `AbortReleasesHandles`, `AbortIdempotent`, `NoPollingAfterAbort` and `Hook.AbortTest` |
| `UseSpeedtest.AfterTick` | resources/js/Hooks/use-speedtest.ts:93-97 | specification of the interval callback: it changes only the posted commands, and posts one `status` to the held worker exactly when an interval and a worker exist, nothing otherwise; its other properties are in `TickPostsAtMostOneStatus`, `PollsWhileRunning`, `QuietWhileStopped` and `Hook.Tick` |
| `UseSpeedtest.AfterMessage` | resources/js/Hooks/use-speedtest.ts:58-81 | specification of `onmessage`: the record becomes `Receive` of the event, nothing is posted and no worker changes, and the interval is cleared exactly when the message reports state 4 or more; its other properties are in `GarbledChangesNothing`, `NoPollingAfterFinish`, `StepKeepsInv` and `Hook.OnMessage` |
| `UseSpeedtest.AfterUnmount` | resources/js/Hooks/use-speedtest.ts:41-48 | specification of the unmount teardown: no interval, the current worker no longer live, no handle becomes live, nothing posted and the record kept; its other properties are in `UnmountReleasesAll` and `Hook.Unmount` |
| `SpeedtestStatus.Merge` | resources/js/Hooks/use-speedtest.ts:62 | every field a message carries overrides the old value and every absent field keeps it; the chart is untouched by the spread |
| `SpeedtestStatus.MergeNothing` | resources/js/Hooks/use-speedtest.ts:62 | merging `{}` changes nothing |
| `SpeedtestStatus.MergeSnapshot` | resources/js/Hooks/use-speedtest.ts:62 | a message carrying every field replaces every published field |
| `SpeedtestStatus.MergeOverlay` | resources/js/Hooks/use-speedtest.ts:58-72 | merging a then b equals merging their overlay in which b wins (last write wins) |
| `SpeedtestStatus.OverlayNothing` | resources/js/Hooks/use-speedtest.ts:62 | `{}` is neutral on both sides of an overlay |
| `SpeedtestStatus.AppendChart` | resources/js/Hooks/use-speedtest.ts:63-70 | chart unchanged unless the message's state is 1–3; unchanged if the last point equals the message's (dl, ul); otherwise the new point is last, preceded by the last ≤59 old points; never more than 60 |
| `SpeedtestStatus.ReceiveAllMerges` | resources/js/Hooks/use-speedtest.ts:58-72 | after any run of events each published field is the last value a message carried for it, or the value before the run |
| `SpeedtestStatus.ReceiveAllChart` | resources/js/Hooks/use-speedtest.ts:61-72 | the chart after a run of events is the run's measuring samples pushed in order |
| `SpeedtestStatus.ChartIsRecentDistinctSamples` | resources/js/Hooks/use-speedtest.ts:63-70 | from an empty chart, the chart is the last 60 received samples with consecutive repeats removed; ≤60 points, no equal neighbours |
| `SpeedtestStatus.ChartStaysBounded` | resources/js/Hooks/use-speedtest.ts:68 | a chart of ≤60 points stays ≤60 whatever messages arrive |
| `SpeedtestStatus.RepeatedMessageAddsOnePoint` | resources/js/Hooks/use-speedtest.ts:65-69 | the same measuring message twice leaves the chart as once: the repeat adds no point |
| `SpeedtestStatus.GarbledIsIgnored` | resources/js/Hooks/use-speedtest.ts:78-80 | text that fails to parse leaves the record unchanged |
| `UseSpeedtest.EncodeInjective` | resources/js/Hooks/use-speedtest.ts:83-90 | the posted strings `"start "+config`, `"status"`, `"abort"` are pairwise distinct and determine the command |
| `UseSpeedtest.StepKeepsInv` | resources/js/Hooks/use-speedtest.ts:34-109 | start, abort, tick, message and unmount each keep the invariant: the only live timer is the one held, a live worker is the one held, a live timer implies a live worker, chart ≤60 |
| `UseSpeedtest.RunKeepsInv` | resources/js/Hooks/use-speedtest.ts:34-109 | over every sequence of events at most one interval and at most one worker are live |
| `UseSpeedtest.StartReplacesHandles` | resources/js/Hooks/use-speedtest.ts:50-98 | start terminates the previous worker and clears the previous interval, posts exactly one `start` with the configuration to the new worker, empties the chart and sets state 0, everything else unchanged |
| `UseSpeedtest.AbortReleasesHandles` | resources/js/Hooks/use-speedtest.ts:101-109 | abort leaves no worker and no interval, state -1 with other fields unchanged, and posts `abort` exactly when a worker existed |
| `UseSpeedtest.AbortIdempotent` | resources/js/Hooks/use-speedtest.ts:101-109 | aborting twice has the effect of aborting once |
| `UseSpeedtest.GarbledChangesNothing` | resources/js/Hooks/use-speedtest.ts:58-80 | a message that fails to parse leaves result, both handles and the post log unchanged |
| `UseSpeedtest.TickPostsAtMostOneStatus` | resources/js/Hooks/use-speedtest.ts:93-97 | a tick changes only the post log, adding at most one `status`, to the live worker |
| `UseSpeedtest.PollsWhileRunning` | resources/js/Hooks/use-speedtest.ts:93-97 | while the interval is held, its worker is held and live, and every tick posts `status` to it |
| `UseSpeedtest.UnmountReleasesAll` | resources/js/Hooks/use-speedtest.ts:41-48 | after unmount no worker and no timer is live |
| `UseSpeedtest.QuietWhileStopped` | resources/js/Hooks/use-speedtest.ts:93-97 | with no interval held, no event short of a new start posts `status`; the post log only grows |
| `UseSpeedtest.NoPollingAfterFinish` | resources/js/Hooks/use-speedtest.ts:75-77 | after a message with state ≥4 the interval is null and no further `status` is posted until a new start |
| `UseSpeedtest.NoPollingAfterAbort` | resources/js/Hooks/use-speedtest.ts:101-109 | after abort no further `status` is posted until a new start |
| `UseSpeedtest.Hook.Cleanup` | resources/js/Hooks/use-speedtest.ts:34-39 | clears and forgets the interval, if any |
| `UseSpeedtest.Hook.StartTest` | resources/js/Hooks/use-speedtest.ts:50-99 | performs `AfterStart` step by step and keeps the invariant |
| `UseSpeedtest.Hook.AbortTest` | resources/js/Hooks/use-speedtest.ts:101-109 | performs `AfterAbort` step by step and keeps the invariant |
| `UseSpeedtest.Hook.Tick` | resources/js/Hooks/use-speedtest.ts:93-97 | the interval callback: posts `status` when a worker is held |
| `UseSpeedtest.Hook.OnMessage` | resources/js/Hooks/use-speedtest.ts:58-81 | folds a parsed message into the result and cleans up on state ≥4; ignores garbled text |
| `UseSpeedtest.Hook.Unmount` | resources/js/Hooks/use-speedtest.ts:41-48 | cleans up and terminates the worker; afterwards nothing is live |
| `RecentLog.Push` | resources/js/pages/Speedtest.tsx:30-33 | a repeat of the last key leaves the log unchanged; otherwise the new entry is last after the most recent cap-1 entries; stays within the cap; keeps "no adjacent repeats" |
| `RecentLog.PushAllCollapse` | resources/js/Hooks/use-speedtest.ts:64-69 | pushing any sequence onto the window of a collapsed prefix gives the window of the collapsed whole |
| `RecentLog.PushIdempotent` | resources/js/pages/Speedtest.tsx:31 | pushing the same entry twice equals pushing it once |
| `SpeedtestPage.Record` | resources/js/pages/Speedtest.tsx:36-39 | the history updater: unchanged when the last value equals the new one; otherwise the new sample is last after the last ≤29 old samples; ≤30 |
| `SpeedtestPage.HistoryEffect` | resources/js/pages/Speedtest.tsx:20-41 | state -1 empties both histories; the download history changes only in state 1 and the upload history only in state 3 |
| `SpeedtestPage.HistoryEffectsPush` | resources/js/pages/Speedtest.tsx:28-40 | between resets each history is its state-1 (resp. state-3) samples pushed in order |
| `SpeedtestPage.HistoriesStayBounded` | resources/js/pages/Speedtest.tsx:20-41 | over any sequence of effect runs, resets included, each history holds at most 30 samples |
| `SpeedtestPage.HistoriesAreRecentDistinctSamples` | resources/js/pages/Speedtest.tsx:20-41 | after a reset each history is the last 30 of its samples with consecutive equal values reduced to one; ≤30, no equal neighbours |
| `SpeedtestPage.HistoryEffectIdempotent` | resources/js/pages/Speedtest.tsx:41 | re-running the effect on the same state and readings, at any time, changes nothing |
| `SpeedtestPage.Placeholder` | resources/js/pages/Speedtest.tsx:44 | 20 points `{time: i, val: 0}` for i in 0..19 |
| `SpeedtestPage.ChartData` | resources/js/pages/Speedtest.tsx:43-51 | the placeholder when the history is empty, the history otherwise; never empty |
| `SpeedtestPage.IsTesting` | resources/js/pages/Speedtest.tsx:53 | the page counts a test as running in exactly the states in which the hook records chart points (1 to 3, `SpeedtestStatus.Measuring`) |
| `SpeedtestPage.ControlFor` | resources/js/pages/Speedtest.tsx:53 | the start button shows iff not `0 < testState < 4`, that is iff not `IsTesting` |
| `SpeedtestPage.ButtonPerState` | resources/js/pages/Speedtest.tsx:220-228 | start button in states -1, 0 and 4; abort button in 1, 2 and 3 |
| `SpeedtestPage.Page.constructor` | resources/js/pages/Speedtest.tsx:17-18 | both histories start empty |
| `SpeedtestPage.Page.RunHistoryEffect` | resources/js/pages/Speedtest.tsx:20-41 | overwrites the two history slots as `HistoryEffect` says |
| `StatsApi.Respond` | dist/results/api.php:10-86 | status is one of 200/400/401/403/500, and 200 iff the body is not a failure; 403 iff the op is neither login nor check and the session is not logged; only a successful login (to true) or a logged-in logout (to false) changes the session |
| `StatsApi.LoginOutcome` | dist/results/api.php:13-23 | login succeeds and logs in iff a password is configured and equals the posted one (default ''); otherwise 401 and the session unchanged |
| `StatsApi.CheckOutcome` | dist/results/api.php:26-29 | check answers 200, never changes the session, and reports logged iff the flag is exactly true |
| `StatsApi.GuardOutcome` | dist/results/api.php:32-36 | any other op, logout included, without a logged session: 403 and session unchanged |
| `StatsApi.LogoutOutcome` | dist/results/api.php:39-43 | logout while logged sets the flag to false and succeeds |
| `StatsApi.StatsOutcome` | dist/results/api.php:46-82 | stats while logged: 500 if the fetch returns false; otherwise 200 with the rows, total = number of rows, all means 0 for zero rows |
| `StatsApi.UnknownOpOutcome` | dist/results/api.php:85-86 | a missing op behaves as ''; an unknown op while logged answers 400 |
| `StatsApi.Summarize` | dist/results/api.php:55-79 | total is the row count; means are 0 for no rows, else each mean times the count is the column sum |
| `StatsApi.SummarizeRows` | dist/results/api.php:56-70 | the accumulation loop computes exactly `Summarize` |
| `StatsApi.Session.constructor` | dist/results/api.php:2 | a fresh session has no `logged` flag |
| `StatsApi.Session.Handle` | dist/results/api.php:10-86 | runs the script statement by statement; status, body and new session equal `Respond` |

## Left out

- The measurement worker (`/speedtest_worker.js`) and the measurements themselves. Only
  the commands posted to it and the parsed messages it sends back are modelled.
- Timing and scheduling. The 100 ms cadence, React's batching of updates, and the
  ordering of `setResult` updaters against renders are not modelled. Ticks, messages,
  clicks and unmount are discrete steps on one thread.
  The page effect's dependency filtering is not modelled either; `HistoryEffectIdempotent`
  shows that re-running the effect on unchanged inputs has no effect.
- A message may arrive at any time in the model, even after its worker was terminated.
  The browser delivers none then, so the proved properties cover more cases than occur.
- JSON parsing itself is not modelled: an event is either garbled text or a message
  whose fields have the expected types. These cases are left out:
  - text that parses to `null`: the handler's own read of `testState` throws and is
    caught, but the queued `setResult` updater reads `data.testState` again when React
    runs it during rendering, and that throw is not caught;
  - text that parses to another primitive (`5`, `true`, a string), which throws nothing
    and acts like `{}` on the published fields; a string's characters are spread into the
    record as unused index keys (`"0"`, `"1"`, …);
  - fields of other JSON types (for example `null`, or a number where a string is expected);
  - keys the hook does not read, which the spread copies into the record unused;
  - a `chartData` key inside a message, which would replace the chart.
- `parseFloat` and `Date.now()` in the page. Readings arrive already parsed, as reals,
  and time is an opaque integer parameter. Because a real always equals itself, the
  model does not capture that `NaN` never equals itself (`parseFloat("")` gives `NaN`),
  so the source's deduplication never matches a `NaN` reading.
- Progress values are reals that are only compared; floating point is not modelled.
- `StatsApi.Summarize` computes the means as exact real quotients. It does not model
  floating-point summation or `round(…, 2)` / `round(…, 1)`.
- In `api.php`, `$_SESSION['logged']` is modelled as unset, `true` or `false`, the
  only values the script writes. The `$_GET` and `$_POST` values are modelled as strings
  or missing; PHP arrays are not. The `Content-Type` header and the JSON encoding of
  the bodies are not modelled.
- `results` rows keep only `dl`, `ul` and `ping`. The other columns of a stored test,
  which the script echoes unchanged, are not modelled, because nothing it computes reads them.
- `getLatestSpeedtestUsers()` and the required settings and database files that
  provide it are not part of this model. Their result is a parameter.
- Not part of this model, because they are rendering, network I/O or framework and
  database wrappers: `src/components/Stats.tsx`, `resources/js/components/*.tsx`,
  `app/Http/Controllers/TelemetryController.php`, `app/Models/SpeedtestUser.php`,
  the migration and `routes/api.php`. The page's markup outside the history effect,
  the chart data and the control-bar choice is also left out.
