# rust-tracker-bot: playtime tracker core

A Dafny model of the bookkeeping inside a Discord bot that follows one
player's Rust playtime. The bot keeps a single record, `stats.json`, holding
`lastTotal` (the last cumulative hours it accepted) and `history` (up to seven
dated daily snapshots). Three jobs use it:

- **checkRust**, every two hours: the first check (while `lastTotal` is 0)
  takes the fetched total as the baseline and says nothing; later checks
  announce the growth `total - lastTotal` and take `total` as the new baseline
  only when that growth exceeds 0.1 hours. Smaller growth, and any fall, leaves
  the record untouched.
- **saveDaily**, at midnight: appends `{date, hours: lastTotal}` to the history
  and drops the oldest entry once there are more than seven.
- **generateChartURL**: derives two charts from the history: a bar chart of
  the day-to-day differences, labelled with every date but the first, and a
  line chart of the cumulative hours, labelled with every date.

Files:

- `wrappers.dfy`: `Option`.
- `history.dfy`: the snapshot entry, the window rotation, its first-in
  first-out property over any number of days, and the label and hour
  projections.
- `charts.dfy`: the consecutive-difference series, the chart descriptor and
  the sum of the daily bars.
- `tracker.dfy`: the record as a value (`Snapshot`) with the specification
  functions `Check` and `DailySnapshot`; the invariant kept by any
  interleaving of checks and midnight jobs; and the class `Stats`, whose
  fields are the record and whose methods are the three jobs, each proved
  against those functions. `ChartData`, `DailySeries` and `TotalSeries` have
  no `modifies` clause, so producing a report cannot change the record.

Hours are `real`: the code only subtracts and compares them.

## Model

| member | source | states |
|---|---|---|
| `Tracker.Check` | index.js:40-64 | a check never touches the history; a notification is only produced while tracking, carries `total - lastTotal`, which exceeds 0.1, and comes with `lastTotal` becoming `total` |
| `Tracker.CheckBootstrap` | index.js:45-48 | with `lastTotal == 0` the fetched total becomes the baseline, nothing is announced, the history is unchanged |
| `Tracker.CheckNotifies` | index.js:51-62 | when tracking and `total - lastTotal > 0.1`: exactly one notification carrying that difference, and `lastTotal` becomes `total` |
| `Tracker.CheckBelowThreshold` | index.js:51-64 | when tracking and the difference is at most 0.1 (negative included): the whole record is unchanged and nothing is announced |
| `Tracker.CheckMonotone` | index.js:51-62 | when tracking, `lastTotal` never decreases; it changes exactly when a notification is produced, and then by more than 0.1 |
| `Tracker.CheckRepeatIsNoOp` | index.js:45-64 | a second check with the same total changes nothing and announces nothing |
| `Tracker.Stats.CheckRust` | index.js:40-64 | the in-place job: history untouched; a failed fetch saves nothing; the bootstrap, notify and below-threshold cases with their exact new `lastTotal` and notification; when the channel lookup fails in the notify case, nothing is announced or saved; with the channel found it agrees with `Check` |
| `Tracker.Stats.constructor` | index.js:30-32 | the object holds exactly the stored record it was loaded from |
| `History.Rotate` | index.js:73-80 | the new entry is last; below seven entries the result is old history plus the entry, otherwise the old history minus its oldest entry plus the entry; a window within seven stays within seven |
| `History.RotateIsLastN` | index.js:73-80 | from a window of at most seven, one rotation keeps exactly the last seven of the old entries plus the new one |
| `History.WindowKeepsLastSeven` | index.js:73-80 | from a window of at most seven, any number of midnight jobs leave exactly the last seven snapshots ever recorded, in order |
| `Tracker.DailySnapshot` | index.js:68-83 | the midnight job leaves `lastTotal` unchanged, puts `{today, lastTotal}` last and keeps a window of at most seven within seven |
| `Tracker.Stats.SaveDaily` | index.js:68-83 | the in-place job: `lastTotal` unchanged, history is the rotation of the old history with `{today, lastTotal}` |
| `Tracker.MidnightKeepsConsistent` | index.js:68-83 | the midnight job keeps the window within seven, its hours non-decreasing and none above `lastTotal` |
| `Tracker.StepKeepsConsistent` | index.js:40-83 | a check with a non-negative playtime or a midnight job keeps that invariant and never lowers `lastTotal` |
| `Tracker.RunKeepsConsistent` | index.js:40-83 | any interleaving of checks and midnight jobs keeps the invariant and never lowers `lastTotal` |
| `Tracker.ReportsFromAnyRun` | index.js:40-115 | from the first-run record `{0, []}`, the history never exceeds seven entries and the daily chart never has a negative bar |
| `History.Dates` | index.js:90 | the labels: one per entry, each the entry's date |
| `History.Hours` | index.js:112 | the cumulative series: one value per entry, each the entry's hours |
| `Charts.Deltas` | index.js:94-98 | length is the input length minus one (zero for an empty input); element `i` is `xs[i+1] - xs[i]` |
| `Charts.DropFirst` | index.js:102 | `slice(1)`: every element but the first, empty for an empty list |
| `Charts.SumOfDeltas` | index.js:94-98 | the daily differences add up to the last cumulative value minus the first |
| `Charts.NondecreasingHasNonnegativeDeltas` | index.js:94-98 | a non-decreasing series has no negative daily difference |
| `Tracker.Stats.DailySeries` | index.js:92-104 | the loop-built bar chart: as many values as labels, `max(|history| - 1, 0)` of them, value `i` is `history[i+1].hours - history[i].hours` and label `i` is `history[i+1].date`; equals `Deltas` of the hours and `DropFirst` of the dates |
| `Tracker.Stats.TotalSeries` | index.js:107-114 | the line chart: one value and one label per entry, the entry's hours and date |
| `Tracker.Stats.ChartData` | index.js:87-115 | `"daily"` gives exactly the bar chart (shape, legend, labels `DropFirst(Dates)`, data `Deltas(Hours)`), `"total"` exactly the line chart, any other kind nothing; the result is a function of the history alone |

## Left out

- Fetching the playtime (index.js:17-26, an HTTP request and a search in the
  returned JSON) is replaced by the `fetched` parameter of `CheckRust`:
  `Some(hours)` for a successful fetch, `None` when the fetch throws, in
  which case the job ends before saving anything.
- A response whose game entry lacks its minutes field makes the fetch return
  NaN rather than throw; NaN and all other IEEE-754 effects on `> 0.1` are not
  modelled, hours being exact reals.
- Reading and writing `stats.json` (index.js:30-36) are not modelled: the
  fields of `Stats` are the record, and its constructor takes the record as
  loaded.
- Tracker.Stats.CheckRust models the two ways a check can end early, a
  failed playtime fetch (`fetched == None`) and a failed channel lookup
  before a notification (`channelFound == false`, index.js:55), both of
  which leave the record as loaded; that neither rejection is caught
  (index.js:150-151 call the job bare) is not modelled, nor is a failing
  `channel.send`, which is not awaited (index.js:57).
- The Discord client, the channel messages, the slash command and its reply
  (index.js:7-9, 55-58, 123-134, 140-171) are external messaging; the
  notification is the `Option<real>` that `CheckRust` returns.
- Number formatting with `toFixed`, the chart service URL text with its
  `JSON.stringify` of numbers, and `toLocaleDateString` (index.js:58, 71,
  100-113) are library rendering; the date is an opaque string parameter and a
  chart is its shape, legend, labels and values.
- The timers (index.js:119, 151) are not modelled as time: `Run` applies any
  sequence of checks and midnight jobs, each one whole. Two asynchronous jobs
  overlapping between their load and their save, which can lose an update in
  the source, are not modelled.
- Whether the record starts as `{0, []}` is up to whoever creates the file;
  the invariant lemmas start from a consistent record, and `ReportsFromAnyRun`
  from `{0, []}`.
- `Tracker.RunKeepsConsistent` assumes every fetched playtime is non-negative;
  the code does not check it, and a negative first total would make the
  baseline negative.
- The bootstrap test is the code's `lastTotal === 0` (index.js:45), not
  `lastTotal > 0`: a negative baseline counts as tracking.
- A stored history already longer than seven loses only one entry per
  midnight job (one push, one shift), so it stays at its length; `Rotate`
  states this and the bound lemmas require a window of at most seven.
