# Reign live job monitor and dashboard helpers, in Dafny

This project models the core of `reign`, the terminal client of an inference
daemon:

- **The live job monitor** (`internal/ui/livejobs.go`). This is an Elm-style
  loop. `Update` takes the monitor state, one message and the wall clock,
  and returns the next state and a command. `View` renders the state as a
  pure function. `fetchJobs` turns the daemon's active and recent job
  records into one snapshot.
- **The dashboard helpers** (`internal/ui/dashboard.go`). These are the
  progress bar, the star rating, `abs`, the trend arrows, the temperature
  colour, the status and alert icons, and the empty-list branches.
- **The selection logic of the `reign` command** (`cmd/reign/main.go`).
  This covers grouping network models by type, sorting a model's locations
  into trackers, local and remotes, choosing dashboards by role, the
  commands that skip the daemon check, and the eight-character commit.

Modules:

- `Runtime` (`runtime.dfy`): `Outcome` (returned or panicked), `Option`,
  `strings.Repeat`, Go's float-to-int truncation, and int64 wrap-around and
  saturation.
- `Clock` (`clock.dfy`): an instant is nanoseconds since Go's zero time.
  `Since` saturates like `Time.Sub`. `FromMillis` wraps like an int64
  product.
- `LiveJobs` (`livejobs.dfy`): `Job`, `Monitor`, `Msg`, `Cmd`,
  `InitialJobsModel`, `Init`, `Update`, the tick, and `Run`, which is the
  loop over a sequence of events.
- `JobsView` (`livejobs_view.dfy`): the status counts, `RenderJob` and
  `View`, as structured frames instead of styled text.
- `JobsFetch` (`livejobs_fetch.dfy`): the conversion from wire records to
  jobs, and the collapse of every failure into an empty snapshot.
- `Dashboard` (`dashboard.dfy`): the dashboard helpers. A colour is an
  enumeration and a float is a `real`.
- `ReignCli` (`reign.dfy`): the command's selection logic, with the
  printing removed.

The wall clock is an explicit `now` parameter. Some collaborators are
parameters too:

- the spinner component's own update;
- loading the configuration;
- the daemon call;
- `time.Parse`.

A Go panic is the `Panicked` outcome. The panics modelled are:

- a slice of an id or commit shorter than eight characters;
- a repeat count that is negative, or whose result would be longer than the
  largest int64 in bytes (every glyph repeated is three bytes in UTF-8);
- a nil dashboard section;
- an operator reputation score at most minus a fifth of the maximum, or at
  least 1.1 times it, whose full or empty star count comes out negative.
  Scores just outside zero to the maximum, such as 10.5 or -1 out of 10,
  still render five stars.

`status` prints one dashboard before it renders the next. So its result
keeps the screens printed before a panic as well as the panic itself.
Go's `int` is taken to be 64 bits wide.

Behaviour of the code worth noting:

- A tick adds 0.05 whenever progress is below 0.95. So 0.94 becomes 0.99,
  and there is no cap at 0.95 (`TickPassesCeiling`).
- `Init` issues the spinner tick and the monitor tick but no fetch.
- Only lowercase `r` refreshes. Only `q`, `esc` and `ctrl+c` quit. Any other
  key leaves the state unchanged, issues no command, and is not forwarded to
  the spinner.
- A snapshot replaces the job list wholesale. The next tick still advances
  simulated progress on top of the reported value.
- Nothing checks that a job's status only moves toward completed or failed
  across snapshots. A later snapshot may report any status for the same id.

## Model

| member | source | states |
|---|---|---|
| Runtime.Repeat | internal/ui/dashboard.go:458 | `strings.Repeat` of one character panics exactly on a negative count or a result longer than the largest int64 in bytes, and otherwise gives that many copies |
| Runtime.Utf8Length | internal/ui/dashboard.go:458 | a character takes one to four bytes in UTF-8, and one exactly when it is ASCII |
| Runtime.RepeatThreeBytes | internal/ui/dashboard.go:458 | repeating a three-byte glyph panics exactly on a negative count or one above a third of the largest int64 |
| Runtime.Trunc | internal/ui/dashboard.go:455 | `int(x)` truncates toward zero: the result lies within one of x on the side of zero (also used for the stars at dashboard.go:474) |
| Clock.Since | internal/ui/livejobs.go:91 | `time.Since` is now minus start when that fits in int64, and saturates at the int64 bounds |
| Clock.FromMillis | internal/ui/livejobs.go:290 | `time.Duration(ms) * time.Millisecond` is the exact nanosecond count when it fits in int64, and otherwise wraps modulo 2^64 into int64 |
| LiveJobs.InitialJobsModel | internal/ui/livejobs.go:48-61 | the monitor starts with no jobs, not quitting, last update at the start time |
| LiveJobs.Init | internal/ui/livejobs.go:63-68 | the start command is a batch of two: the spinner tick and a 500 ms monitor tick, with no other command, no fetch and no quit |
| LiveJobs.TickJob | internal/ui/livejobs.go:89-96 | a tick leaves id, model, type, status, start and node alone and a non-running job untouched; a running job's duration becomes now minus start and its progress rises by 0.05 exactly when below 0.95 |
| LiveJobs.TickJobs | internal/ui/livejobs.go:87-98 | the tick keeps the number and order of jobs and applies the per-job rule at every position |
| LiveJobs.Update | internal/ui/livejobs.go:70-107 | quit keys set quitting and return Quit; `r` returns the fetch and changes nothing; other keys change nothing and return no command; a snapshot replaces the jobs and stamps now; a tick applies the tick rule and re-schedules itself; other messages go to the spinner only; quitting is set exactly by a quit key or an earlier quit |
| LiveJobs.TickProgressBounds | internal/ui/livejobs.go:93-95 | simulated progress never decreases, never passes 1 from at most 1, and stays below 1 when it moves |
| LiveJobs.TickPassesCeiling | internal/ui/livejobs.go:93-95 | a running job at 0.94 moves to 0.99, past 0.95 |
| LiveJobs.TickIdleJobsUnchanged | internal/ui/livejobs.go:89-90 | a tick on a list with no running job changes nothing |
| LiveJobs.UnparsedStartSaturates | internal/ui/livejobs.go:91 | a running job with the zero start time shows the maximum duration once now is beyond the int64 range |
| LiveJobs.QuittingIsSticky | internal/ui/livejobs.go:74-76 | once quitting, no sequence of later messages clears it |
| LiveJobs.RunKeepsProgressInRange | internal/ui/livejobs.go:82-98 | if the state and every snapshot keep progress in [0, 1], so does every later state |
| JobsView.CountsCoverJobs | internal/ui/livejobs.go:152-167 | the four status counts sum to at most the number of jobs, with equality exactly when every status is one of the four |
| JobsView.TickKeepsCounts | internal/ui/livejobs.go:87-98 | a tick changes none of the header counts |
| JobsView.RenderJob | internal/ui/livejobs.go:194-256 | a card panics exactly on an id shorter than 8; it shows the first 8 characters, "-" exactly for queued jobs, a progress bar 70 cells wide with the job's fraction and percentage exactly for running jobs, the ONNX icon exactly for type "onnx", and the running (with the spinner), queued, completed or failed badge for those statuses, with no badge exactly for an unknown status |
| JobsView.RenderJobs | internal/ui/livejobs.go:181-186 | the job cards are one per job in order, and rendering panics exactly when some id is shorter than 8 |
| JobsView.View | internal/ui/livejobs.go:109-192 | a quitting monitor renders blank; otherwise the frame carries the status counts and either the empty-list line with the last update time, when there are no jobs, or card i rendering job i for every job |
| JobsView.QuitBlanksEveryLaterView | internal/ui/livejobs.go:110-112 | after a quit key, every later render is blank whatever messages follow |
| JobsView.SnapshotReplacesScreen | internal/ui/livejobs.go:82-85 | after a snapshot the screen shows exactly the snapshot's jobs and counts; an empty snapshot shows the empty-list line stamped with its arrival time |
| JobsView.RunningAndQueuedScenario | internal/ui/livejobs.go:82-98 | a snapshot of one running job at 0.3 and one queued job counts one of each, and a tick takes the running job to 0.35 and leaves the queued job as it was |
| JobsFetch.ToJob | internal/ui/livejobs.go:281-292 | each wire field is carried over; a start time that does not parse becomes the zero time; milliseconds become nanoseconds, exact within int64 |
| JobsFetch.ConvertResponse | internal/ui/livejobs.go:277-310 | the snapshot is the active records followed by the recent records, one job each, in order |
| JobsFetch.FetchJobs | internal/ui/livejobs.go:259-311 | a configuration or daemon failure yields an empty snapshot; otherwise the converted active-then-recent jobs |
| JobsFetch.DurationWrapsBeyondInt64 | internal/ui/livejobs.go:290 | a reported duration is exact up to the int64 limit and wraps negative one millisecond beyond it |
| Dashboard.Clamp | internal/ui/dashboard.go:448-453 | the bar fraction is clamped into [0, 1] and unchanged inside it |
| Dashboard.Band | internal/ui/dashboard.go:460-467 | below 0.5 is success, from 0.5 below 0.8 is warning, from 0.8 is error |
| Dashboard.RenderProgressBar | internal/ui/dashboard.go:447-470 | the bar panics exactly for a negative width or a filled or empty run above a third of the largest int64; otherwise it is width + 2 characters, bracketed, with floor(clamped percent × width) filled cells followed by empty ones, coloured by the band of the clamped percent |
| Dashboard.BarWithinLimitReturns | internal/ui/dashboard.go:455-458 | a bar whose width is between zero and a third of the largest int64 never panics |
| Dashboard.FilledBounds | internal/ui/dashboard.go:455-456 | the filled count lies in [0, width] for a non-negative width and in [width, 0] for a negative one |
| Dashboard.FilledCellsMonotone | internal/ui/dashboard.go:447-455 | a larger percent never fills fewer cells |
| Dashboard.FilledCellsAtExtremes | internal/ui/dashboard.go:447-455 | a percent of at least 1 fills the bar and one of at most 0 fills nothing |
| Dashboard.RenderQueueBar | internal/ui/dashboard.go:265 | the queue bar never panics; cell i is filled exactly from 5·i queued jobs, so it is full at 50; it is green below 25, amber from 25 below 40 and red from 40 queued jobs |
| Dashboard.TenthFilled | internal/ui/dashboard.go:448-455 | after clamping and truncation, cell i of a ten-cell bar is filled exactly when the unclamped fraction reaches i tenths |
| Dashboard.TenCellBar | internal/ui/dashboard.go:447-470 | every ten-cell bar returns, fills cell i exactly when the fraction reaches i tenths, and is green below 0.5, amber below 0.8 and red from 0.8 |
| Dashboard.RenderHardwareBars | internal/ui/dashboard.go:336-339 | the GPU, CPU, RAM and disk bars never panic and each shows its percentage out of 100: cell i filled exactly from 10·i per cent, green below 50, amber below 80, red from 80 |
| Dashboard.StarSplit | internal/ui/dashboard.go:473-479 | full stars, the half star and empty stars always add up to five |
| Dashboard.RenderStars | internal/ui/dashboard.go:472-488 | the rating panics exactly when the full or empty count is negative; otherwise it is five glyphs, full stars then hollow ones |
| Dashboard.StarsPanicExactly | internal/ui/dashboard.go:472-485 | for a non-zero maximum the rating panics exactly when score / maximum is at most -0.2 or at least 1.1 |
| Dashboard.StarsWellFormed | internal/ui/dashboard.go:472-487 | a score between zero and a positive maximum never panics and has between 0 and 5 full stars |
| Dashboard.StarsAboveMaximumPanic | internal/ui/dashboard.go:473-485 | 11 out of 10 gives five full stars, a half star and minus one empty star, which panics |
| Dashboard.StarsBelowZeroPanic | internal/ui/dashboard.go:473-481 | -3 out of 10 truncates to minus one full star, which panics |
| Dashboard.Abs | internal/ui/dashboard.go:490-495 | abs is non-negative and equals x or -x |
| Dashboard.CreditsTrend | internal/ui/dashboard.go:218-223 | spending shows the up arrow exactly when the trend is positive, in the error colour, else the down arrow in the success colour |
| Dashboard.EarningsTrend | internal/ui/dashboard.go:277-282 | earnings show the down arrow exactly when the trend is negative, in the error colour, else the up arrow in the success colour |
| Dashboard.TrendsDifferOnlyAtZero | internal/ui/dashboard.go:218-223 | away from zero both arrows agree in opposite colours; at zero spending shows a fall and earnings a rise |
| Dashboard.TemperatureColour | internal/ui/dashboard.go:341-347 | above 85 is error, above 75 up to 85 is warning, otherwise success |
| Dashboard.TemperatureMonotone | internal/ui/dashboard.go:341-347 | a hotter GPU is never shown in a milder colour |
| Dashboard.ServedStatusIcon | internal/ui/dashboard.go:374-382 | "warning" gives ⚠, "idle" gives ○, anything else ✓ |
| Dashboard.AlertIcon | internal/ui/dashboard.go:413-424 | "error" gives ✗, "info" gives ✓, "warning" and unknown levels share → and differ in colour |
| Dashboard.RenderModelTable | internal/ui/dashboard.go:187-215 | an empty model list shows the placeholder line, otherwise one row per model |
| Dashboard.RenderModelsServed | internal/ui/dashboard.go:367-393 | an empty list shows the placeholder line, otherwise one row per model in order with that model's status icon, name, request count, average latency and revenue |
| Dashboard.RenderAlerts | internal/ui/dashboard.go:410-432 | one line per alert in order, with that alert's icon |
| Dashboard.DeveloperSections | internal/ui/dashboard.go:62-113 | inference metrics, credits, performance, network health and quick actions in that order, with smart insights before network health exactly when there are insights |
| Dashboard.OperatorSections | internal/ui/dashboard.go:115-179 | earnings, revenue breakdown, workload, hardware, models served, network participation and quick actions in that order, with alerts before quick actions exactly when there are alerts |
| ReignCli.PartitionByType | cmd/reign/main.go:289-298 | the Ollama group and the other group are the models of each kind in original order; sizes sum to the total and the two multisets sum to the models' multiset |
| ReignCli.KeepSplits | cmd/reign/main.go:392-393 | a filter and its complement split a list: sizes sum to its length and the two multisets sum to its multiset |
| ReignCli.KeepAppend | cmd/reign/main.go:292-298 | grouping distributes over concatenation, so relative order is kept |
| ReignCli.KeepMembers | cmd/reign/main.go:292-298 | a model is in a group exactly when it is in the list and of that group's kind |
| ReignCli.LastLocal | cmd/reign/main.go:317-329 | the local slot is filled exactly when some location is local; only this presence is printed |
| ReignCli.ClassifyLocations | cmd/reign/main.go:315-327 | trackers and remotes are the locations of each kind in order, the local slot is filled exactly when some location is local, and every location is counted once |
| ReignCli.LocationKindsCover | cmd/reign/main.go:319-327 | trackers, locals and remotes together number the locations |
| ReignCli.DescribeModel | cmd/reign/main.go:303-342 | a model's block shows the tracker count exactly when positive, the local line exactly when a local location exists, tracker names and remote nodes in order, and the pull command exactly when non-empty |
| ReignCli.DescribeAll | cmd/reign/main.go:303-343 | block i is the full description of model i, for every model |
| ReignCli.ListNetworkModels | cmd/reign/main.go:284-393 | an empty list prints only the not-found notice; otherwise block i of each group fully describes the i-th model of that kind, and the group sizes sum to the total |
| ReignCli.PreRun | cmd/reign/main.go:48-55 | "version", "help" and "completion" skip the daemon check; every other command returns what ensuring the daemon returns |
| ReignCli.ShortCommit | cmd/reign/main.go:206 | printing the commit panics exactly when it is shorter than 8; otherwise it is the first 8 characters |
| ReignCli.StatusScreens | cmd/reign/main.go:438-466 | "developer", "operator" and "both" show their dashboards, with both in developer-then-operator order; what is printed is always a prefix of the role's screens, and it is all of them exactly when nothing panics; the developer dashboard panics exactly on a missing section, the operator dashboard on a missing section or a reputation whose stars panic, and "both" prints the developer dashboard and a blank line before an operator panic; any other role or a failed stats call falls back to the simple status |
| ReignCli.OperatorInRangeShows | internal/ui/dashboard.go:115-158 | an operator with a reputation between zero and a positive maximum sees the operator dashboard and no panic |
| ReignCli.OverfullReputationPanics | cmd/reign/main.go:456-460 | a reputation of 11 out of 10 panics the operator dashboard: for "operator" nothing is printed, for "both" the developer dashboard and a blank line come first |

## Left out

- Styling is left out: lipgloss colour codes, borders, padding and widths. The fixed title, header and footer text is left out too. These are presentation only. A colour is an enumeration.
- The spinner and progress components are opaque. `spin.View()` is the spinner state carried in the badge. `prog.ViewAs` is the fraction and width carried in the card.
- Bubble Tea's runtime is left out: scheduling, `tea.Tick` timing and concurrency. `Update` is a pure step, and `Run` consumes events in order.
- Formatting is left out: `%.0f`, `Duration.Round` and `Duration.String`, and the `HH:MM:SS` time stamp. Reals and integers are kept instead.
- IEEE-754 rounding of float64 is left out. Reals are exact, so `0.3 + 0.05` is exactly `0.35`. Division by zero, infinities, NaN and out-of-range float-to-int conversions are not modelled.
- Dashboard.RenderStars: requires a non-zero maximum, because the float division by zero gives an infinity or NaN, which reals cannot represent.
- Dashboard.StarSplit: requires a non-zero maximum for the same reason. A missing `max_score` decodes to 0, so Go does reach this case, with an implementation-defined conversion of the infinite or NaN rating.
- Runtime.Repeat: models the negative-count and length-overflow panics of `strings.Repeat` itself, but not the allocator's panic or out-of-memory failure for results above the platform's largest allocation (about 2^48 bytes on 64-bit Linux). No call site shows the difference: every bar is ten cells wide, and a star count that large leaves a negative empty count, which panics in the model too.
- ReignCli.StatusScreens: requires a non-zero maximum reputation score whenever the operator dashboard renders its stars, for the same reason as `Dashboard.RenderStars`.
- Go strings are byte sequences, but the model uses character sequences. So `ID[:8]` and `Commit[:8]` count characters, and a non-ASCII id may panic differently in Go.
- JobsView.RenderJob: the progress percentage is kept as `progress × 100` before rounding to a whole number.
- The HTTP client, JSON decoding and configuration loading are I/O. They are the `config`, `call` and `parse` parameters of `FetchJobs`. The definitions of `GetLiveJobs`, `NetworkModel` and `ModelTypeOllama` are not part of this model. `ModelTypeOllama` is taken to be "ollama", the wire tag.
- Error returns are left out. `runModelsNetwork` returns a configuration error unchanged and wraps a listing error as "failed to list network models". `runStatus` returns a configuration error unchanged, and falls back to the simple status when the stats call fails; that fallback is modelled as absent stats. The model starts from the fetched list or from the stats.
- `runSimpleStatus` and the dashboard bodies are left out: credits, performance, earnings, workload, revenue percentages and reputation text. They are formatting and I/O. Only their sections, branches and selectors are modelled.
- The rest of the repository is left out: bootstrap, daemon control, the tview screens, the other commands and the mock data. They are process control, widget mutation or fixtures outside this core.
