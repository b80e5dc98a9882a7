# NNUE dashboard client state, in Dafny

This project models the client-side state layer of the NNUE training
dashboard, together with the pure view helpers the dashboard's pages use.

- **`js.dfy` (module `Js`)**: the JavaScript values the state is made of.
  - Functions for truthiness, `typeof`, property reads and spreads.
  - The way a value prints when it is used as a property key.
- **`ascii.dfy` (module `Ascii`)**: ASCII upper/lower case, `trim` and `includes`, with lemmas relating them.
- **`updates.dfy` (module `Updates`)**: `shallowMerge` and the updater every action of `app.js` hands to the store.
  - Each updater is a function from the old state to the new one.
  - Each comes with a lemma showing it equal to `shallowMerge` of the literal patch the action writes.
  - Each comes with a lemma saying which entries it replaces and that nothing else changes.
  - The rating updater throws a TypeError when `s.data` is null or undefined. It returns `Raised` then.
  - An updater that hands back the same object returns `Same`. This is what a reference comparison sees.
- **`store.dfy` (module `Stores`)**: `createStore` as a class.
  - It holds the current state and the subscriber set.
  - A ghost history of every notice sent lets the invariant say exactly what each subscriber has been sent.
  - Its methods are proved against that history. They keep the bookkeeping of when each subscriber joined, so every caller, up to `refreshOnce`, can conclude that each subscriber has been sent exactly the notices published during the call (`Stores.SentSince`).
- **`app.dfy` (module `App`)**: the `actions` object as a class over the store, and the data service's `refreshOnce`.
  - `createDataService` returns an object whose state is the `inFlight` flag and the two `missing` counters, and `refreshOnce` is one of its methods. Here that object is the class `DataService`, and `refreshOnce` is its method `RefreshOnce`.
  - It takes the four fetch results as inputs.
  - A `Run` is a cycle in progress: the state, the number of notices sent and whether an updater has thrown. Pure functions give the `Run` a cycle produces, and the methods are proved equal to them.
  - Lemmas state the cycle's decision table:
    - the error each result leaves;
    - all loading flags cleared at the end;
    - the data received;
    - when receiving ratings can throw.
- **`log_view.dfy` (module `LogView`)**: the pure helpers of `js/main.js`.
  - Tab and phase validation and the duration label.
  - Log-line classification, filtering, text, the stable de-duplication key and the render window.
- **`theme.dfy` (module `Theme`)**: theme-name normalisation and the three-way toggle of `js/theme.js`.

Behaviour worth knowing, modelled as the code has it:

- `shallowMerge` merges one level deep. A patch `{meta: {lastUpdated: {elo: t}}}` therefore replaces the whole `lastUpdated` object, so it holds only the latest domain's time (`Updates.LastUpdatedHoldsOnlyLatest`). The initial state's four-domain `lastUpdated` suggests per-domain times were meant, but nothing in the code reads `lastUpdated`.
- `receiveTraining` stores `sessionStart || Date.now()`. The session start is read back as "truthy, else null", so a stored clock reading of 0 counts as unset.
- `receiveElo` reads `s.data.eloLiveHistory` without a guard. It throws when `s.data` is null or undefined. The store then keeps its state, and `refreshOnce` skips the tournaments and logs results but still clears the loading flags.
  - No action ever replaces `data` with a non-object (`App.ViewUpdatersKeepDataObject`, `App.DataUpdatersKeepDataObject`), and neither does a whole cycle (`App.CycleKeepsDataObject`). So no cycle from a state reached from the initial state throws: the first by `App.InitialCycleNeverRaises`, every later one by `App.CycleNeverRaises`.
- `js/main.js` calls `actions.setLogsUi`, which `app.js` does not define. The log filters are therefore model inputs (`LogView.LogFilters`).

## Model

| member | source | states |
|---|---|---|
| Js.IsPlainObject | app.js:15-17 | A value is a plain object exactly when it is an object that is not an array and not null. |
| Js.NatToStringInjective | app.js:210-220 | Different non-negative integral version numbers print as different property keys, so their histories never share a slot. |
| Js.IntToStringInjective | app.js:210-220 | Different integers, negative ones included, print as different property keys. |
| Js.ParseNatToString | app.js:210-220 | Reading back the decimal digits of a printed non-negative integer gives the integer. |
| Js.Truthy | app.js:41 | Definition; specified by Stores.MetaOrEmpty, Updates.FalsyErrorIsNull, Updates.SetDemoMode. |
| Js.Spread | app.js:207 | Definition; specified through `Updates.LiveStart` by Updates.LiveStartCopies. |
| Ascii.LowerOfUpper | js/theme.js:3 | Lower-casing an upper-cased string is lower-casing the string. |
| Ascii.TrimPadded | js/theme.js:3 | `trim` ignores any white space added on either side. |
| Ascii.TrimLower | js/theme.js:3 | Trimming and lower-casing commute. |
| Ascii.Includes | js/main.js:124-131 | `includes` holds exactly when the pattern occurs at some index. |
| Theme.NormalizeTheme | js/theme.js:2-7 | The result is one of "", "winter", "cyber-frost": "winter" exactly when the trimmed lower-cased name is "winter", "cyber-frost" exactly when it is one of the three cyber aliases, "" otherwise. |
| Theme.NormalizeFixesThemes | js/theme.js:2-7 | Each of the three themes normalises to itself. |
| Theme.NormalizeIdempotent | js/theme.js:2-7 | Normalising twice is normalising once. |
| Theme.NormalizeIgnoresPadding | js/theme.js:3 | Surrounding white space does not change the theme. |
| Theme.NormalizeIgnoresCase | js/theme.js:3 | An upper-cased name normalises like the original. |
| Theme.NormalizeIgnoresPaddingAndCase | js/theme.js:3-5 | Padding and case together are ignored. |
| Theme.CyberFrostAliases | js/theme.js:5 | "cyber_frost", "cyber" and "cyber-frost" all give "cyber-frost". |
| Theme.NextTheme | js/theme.js:26-31 | The toggle always yields one of the three themes. |
| Theme.NextThemeIsNormal | js/theme.js:26-31 | Every toggle output is a fixed point of normalisation. |
| Theme.NextThemeSteps | js/theme.js:26-31 | The toggle steps "" to "winter" to "cyber-frost" to "". |
| Theme.NextThemeCycle | js/theme.js:26-31 | Three toggles from any name return to its normalised theme. |
| Theme.NextOfUnknownIsWinter | js/theme.js:28 | A name that is no theme counts as the default, so the toggle gives "winter". |
| LogView.NormalizeTab | js/main.js:9-12 | The result is one of the five tabs: the input when it is one, "overview" otherwise. |
| LogView.NormalizeTabIdempotent | js/main.js:9-12 | Validating a validated tab changes nothing. |
| LogView.NormalizePhase | js/main.js:14-17 | The result is one of the three phases: the input when it is one, "opening" otherwise. |
| LogView.NormalizePhaseIdempotent | js/main.js:14-17 | Validating a validated phase changes nothing. |
| LogView.TotalMinutes | js/main.js:27 | The floor of `ms / 60000`: the largest whole number of minutes not exceeding `ms`. |
| LogView.FormatDuration | js/main.js:25-32 | Anything but a non-negative number gives "—". Under an hour gives "{m}m" with m < 60. Otherwise "{h}h {m}m" with m < 60 and 60h + m the total minutes. |
| LogView.FormatDurationRoundTrip | js/main.js:25-32 | Parsing the label back gives the total minutes, so the label loses nothing but the sub-minute part. |
| LogView.ClassifyLogLine | js/main.js:110-134 | A record is graded by its exact upper-cased level (ERROR, WARN, else info) and subsystem (TOURNAMENT, TRAIN, EVAL, IO, else misc). A text line is graded by keyword, with error ahead of warn and tournament ahead of train ahead of eval ahead of io. |
| LogView.ClassifyIgnoresCase | js/main.js:121-124 | A text line is classified regardless of letter case. |
| LogView.FatalLineIsError | js/main.js:124 | Any text line containing "FATAL" is an error. |
| LogView.TournamentLineCategory | js/main.js:128 | Any text line mentioning TOURNAMENT is in the tournament category, whatever else it mentions. |
| LogView.FatalRecordIsInfo | js/main.js:112-114 | A record whose level is "fatal" is graded info: only an exact ERROR or WARN counts. |
| LogView.RecordWithoutSubsystemIsMisc | js/main.js:113-118 | A record without a subsystem is misc. |
| LogView.LogsPassFilter | js/main.js:136-141 | A line passes exactly when each filter that is not "all" equals its severity or category name. |
| LogView.AllFiltersPassAll | js/main.js:136-141 | With both filters "all", every line passes. |
| LogView.UnknownLevelHidesAll | js/main.js:138 | A level filter naming no severity hides every line. |
| LogView.RelaxingFiltersKeepsLines | js/main.js:136-141 | Setting either filter to "all" keeps every line that passed. |
| LogView.GetLogLineText | js/main.js:143-154 | A record with a non-empty `line` shows it. Otherwise it shows `[level] [subsystem] message`, with INFO / MISC / "" defaults, behind `[ts] ` only when `ts` is non-empty. A text line shows as itself, null as "null". |
| LogView.TimestampPrefix | js/main.js:146-151 | A non-empty timestamp only adds the `[ts] ` prefix to the text. |
| LogView.GetLogStableKey | js/main.js:156-163 | A non-empty `key` wins, then a non-empty `line`, else the shown text. |
| LogView.StableKeyIsShownText | js/main.js:156-163 | Without a key, the stable key is the shown text. |
| LogView.LastNCount | js/main.js:166-172 | The "lastN" count is at least 1: n when n >= 1, 200 when n is absent or 0, and 1 when n is negative. |
| LogView.ComputeLogSlice | js/main.js:165-176 | Always 0 <= start <= end = the number of lines. "latest" covers min(300, lines). "lastN" covers min(count, lines). Any other window starts at 0. |
| Updates.ShallowMerge | app.js:19-28 | Keys are those of both sides. A key only in `a` keeps `a`'s value. A key of `b` takes `b`'s value unless both values are plain objects, in which case it gets the key-wise union with `b` winning. |
| Updates.MergeGroup | app.js:24 | Merging a plain-object patch into a group gives the group's entries overridden by the patch's. |
| Updates.MergeOnlyChanges | app.js:19-28 | Keys the patch does not name are untouched. |
| Updates.MergeIdempotent | app.js:19-28 | Merging the same patch twice is merging it once. |
| Updates.MergeEmpty | app.js:21 | An empty patch changes nothing. |
| Updates.MergeIntoIsShallowMerge | app.js:19-28 | A one-group patch is one update of that group. |
| Updates.MergeTwoIsShallowMerge | app.js:19-28 | A two-group patch is one update of each group. |
| Updates.SetActiveTab | app.js:111-116 | The same state exactly when the tab is already active. Otherwise only `activeTab` changes, to the tab. |
| Updates.SetHeatmapPhase | app.js:118-123 | The same state exactly when the phase is already active. Otherwise only `activeHeatmapPhase` changes. |
| Updates.SetActiveTabTwice | app.js:111-116 | Activating the same tab again is no change. |
| Updates.OpenExplainIsMerge | app.js:125-136 | The open-explain updater is `shallowMerge` of `{ui: {explain: {open: true, version}}}`. |
| Updates.CloseExplainIsMerge | app.js:138-149 | The close-explain updater is `shallowMerge` of `{ui: {explain: {open: false, version: null}}}`. |
| Updates.ExplainEffect | app.js:125-149 | Only `ui.explain` is replaced, and nothing outside `ui` changes. |
| Updates.OpenThenClose | app.js:125-149 | Closing after opening is closing, which leaves the panel closed with no version. |
| Updates.SetDemoMode | app.js:151-157 | The same state exactly when the demo flag already has the truthiness of `enabled`. Otherwise the flag takes it. |
| Updates.SetDemoModeIsMerge | app.js:153-157 | A fresh state is `shallowMerge` of `{ui: {demo: {enabled: !!enabled}}}`. |
| Updates.SetDemoModeEffect | app.js:156 | Only `ui.demo` is replaced. |
| Updates.SetDemoModeTwice | app.js:151-157 | Setting the same mode again is no change. |
| Updates.WithLoadingIsMerge | app.js:161-166 | `_setLoading` is `shallowMerge` of `{loading: {[key]: !!value}}`. |
| Updates.WithErrorIsMerge | app.js:168-173 | `_setError` is `shallowMerge` of `{error: {[key]: value \|\| null}}`. |
| Updates.FlagsEffect | app.js:161-173 | Each flag updater replaces one entry of its group and nothing outside it. |
| Updates.FalsyErrorIsNull | app.js:169 | A falsy error value is stored as null. |
| Updates.PositiveProp | app.js:186-189 | Present exactly when the property is a number above 0, and then it is that number. |
| Updates.TargetTotal | app.js:185-191 | A total found is positive. |
| Updates.FirstPositive | app.js:185-191 | A result is positive and is the value of some alias before which no alias holds a positive number. None means no alias holds one. |
| Updates.TargetTotalIsFirstPositive | app.js:185-191 | The total is the first positive one of `target_games`, `total_games`, `max_games`, `target`. |
| Updates.Clamp01 | app.js:183 | The result lies in [0, 1], is the input inside it and the nearer end outside it. |
| Updates.PayloadPercent | app.js:181-193 | A numeric `progress` above 1 is divided by 100, then clamped. Otherwise numeric `games` over the first positive total is clamped. Otherwise there is none. Any percent lies in [0, 1]. |
| Updates.NextProgress | app.js:180-193 | The new progress record holds the payload's percent when there is one, and is the previous progress otherwise. |
| Updates.ReceiveTrainingIsMerge | app.js:175-202 | The training updater is `shallowMerge` of `{data: {training, progress}, meta: {sessionStart: {training}, lastUpdated: {training}}}`. |
| Updates.ReceiveTrainingEffect | app.js:195-201 | Exactly `data.training`, `data.progress`, `meta.sessionStart` and `meta.lastUpdated` are replaced. |
| Updates.ReceiveTrainingPercentInRange | app.js:180-193 | A progress percent null or in [0, 1] stays so. |
| Updates.ProgressPercentageScale | app.js:182-183 | 150 gives 1.0, 57 gives 0.57, 0.4 stays 0.4. |
| Updates.ReceiveTrainingSessionStart | app.js:177-178 | The session start is kept when set, else becomes the clock reading. |
| Updates.SessionStartKept | app.js:177-178 | Once set, no sequence of later training payloads changes the session start. |
| Updates.Tail | app.js:219 | `slice(-n)`: the last min(n, length) elements. |
| Updates.TailAppend | app.js:219 | Capping before appending more does not change the capped result. |
| Updates.PointDefaultsToRating | app.js:213-218 | Without a confidence interval a point's low and high are its rating. |
| Updates.AddPointAt | app.js:209-220 | One row appends a point to its version's series and caps it at 60. Every other version is untouched. |
| Updates.FillLive | app.js:207-221 | The `forEach` loop over `top5` computes the history the pure fold `LiveAfter` defines. |
| Updates.LiveStartCopies | app.js:207 | The working copy starts as the stored history's own properties: all of an object's entries, nothing when the history is missing or falsy, one key per index of an array. |
| Updates.LiveAfterUntouched | app.js:209-221 | Versions no row names keep their history. |
| Updates.LiveAfterSeries | app.js:209-221 | A version some row names ends with the last 60 of its old points followed by one new point per row naming it. |
| Updates.LiveAfterEndsWithLatest | app.js:219-220 | The last row's version ends with that row's point. |
| Updates.LiveAfterBounded | app.js:219 | Every series stays within 60 points. |
| Updates.ReceiveElo | app.js:205-229 | Throws exactly when `s.data` is null or undefined. Otherwise it returns a fresh state. |
| Updates.ReceiveEloIsMerge | app.js:222-228 | A returned state is `shallowMerge` of `{data: {elo, eloLiveHistory}, meta: {lastUpdated: {elo}}}`. |
| Updates.ReceiveEloEffect | app.js:222-228 | Exactly `data.elo`, `data.eloLiveHistory` and `meta.lastUpdated` are replaced. |
| Updates.ReceiveEloKeepsSeriesBounded | app.js:205-229 | After any call, every version's history holds at most 60 points. |
| Updates.LastUpdatedHoldsOnlyLatest | app.js:227 | After receiving ratings, `meta.lastUpdated` holds only the rating time. |
| Updates.ReceiveOptionalIsMerge | app.js:232-239 | The optional updater is `shallowMerge` of `{data: {[key]: payload}, meta: {lastUpdated: {[key]}}}`. |
| Updates.ReceiveOptionalEffect | app.js:234-237 | Exactly `data[key]` and `meta.lastUpdated` are replaced. |
| Updates.AppendLogLinesIsMerge | app.js:244-251 | The append updater is `shallowMerge` of `{data: {logs}, meta: {lastUpdated: {logs}}}`, with logs the capped concatenation. |
| Updates.AppendLogLinesEffect | app.js:247-250 | Exactly `data.logs` and `meta.lastUpdated` are replaced. |
| Updates.AppendLogLinesKeepsNewest | app.js:245-246 | The buffer becomes the last min(1000, old + new) lines of the old buffer followed by the new lines. |
| Updates.AppendLogLinesTwice | app.js:246 | Two appends keep the last 1000 of everything appended. |
| Updates.SetProgressIsMerge | app.js:254-258 | The progress updater is `shallowMerge` of `{data: {progress}}`. |
| Updates.SetProgressEffect | app.js:256 | Only `data.progress` is replaced. |
| Updates.OpenExplain | app.js:125-136 | Definition; specified by Updates.OpenExplainIsMerge, Updates.ExplainEffect. |
| Updates.CloseExplain | app.js:138-149 | Definition; specified by Updates.CloseExplainIsMerge, Updates.ExplainEffect, Updates.OpenThenClose. |
| Updates.WithLoading | app.js:161-166 | Definition; specified by Updates.WithLoadingIsMerge, Updates.FlagsEffect, App.LoadingStep. |
| Updates.WithError | app.js:168-173 | Definition; specified by Updates.WithErrorIsMerge, Updates.FlagsEffect, Updates.FalsyErrorIsNull, App.ErrorStep. |
| Updates.ReceiveTraining | app.js:175-202 | Definition; specified by Updates.ReceiveTrainingIsMerge, Updates.ReceiveTrainingEffect, Updates.ReceiveTrainingSessionStart, Updates.ReceiveTrainingPercentInRange. |
| Updates.AddPoint | app.js:209-220 | Definition; specified by Updates.AddPointAt. |
| Updates.LiveAfter | app.js:207-221 | Definition; specified by Updates.FillLive, Updates.LiveAfterUntouched, Updates.LiveAfterSeries, Updates.LiveAfterEndsWithLatest, Updates.LiveAfterBounded. |
| Updates.ReceiveOptional | app.js:232-239 | Definition; specified by Updates.ReceiveOptionalIsMerge, Updates.ReceiveOptionalEffect, App.OptionalEntry. |
| Updates.AppendLogLines | app.js:244-251 | Definition; specified by Updates.AppendLogLinesIsMerge, Updates.AppendLogLinesEffect, Updates.AppendLogLinesKeepsNewest, Updates.AppendLogLinesTwice. |
| Updates.SetProgress | app.js:254-258 | Definition; specified by Updates.SetProgressIsMerge, Updates.SetProgressEffect. |
| Stores.MetaOrEmpty | app.js:41 | `meta \|\| {}` is truthy and is `meta` when that is truthy. |
| Stores.Without | app.js:53 | `delete` keeps every other subscriber and removes `fn`. |
| Stores.WithoutConcat | app.js:53 | `delete` is a filter: removing from a concatenation is removing from each part, so the remaining subscribers keep their order and later notices still reach them in subscription order. |
| Stores.WithoutDistinct | app.js:53 | Deleting keeps the subscribers distinct. |
| Stores.Store.constructor | app.js:30-32 | A store with the initial state, no subscribers and nothing sent. |
| Stores.Store.GetState | app.js:33-35 | The current state. |
| Stores.Store.SetState | app.js:36-46 | The same object changes nothing and notifies no one. A new state is stored and each subscriber is sent it once with `meta \|\| {}`, even when an earlier one throws. The subscribers and their join bookkeeping are unchanged. |
| Stores.Store.Update | app.js:47-50 | A throwing updater leaves state and history alone, notifies no one and reports the throw. Otherwise the updater's result goes through `setState`: a fresh state reaches every subscriber exactly once as `(state, meta \|\| {})`, and the same object reaches no one. The subscribers and their join bookkeeping are unchanged. |
| Stores.Store.Subscribe | app.js:51-52 | A new subscriber is added at the end, recorded as having joined at the current history length with what it had already received; a second add changes nothing, bookkeeping included. |
| Stores.Store.Unsubscribe | app.js:53 | The subscriber is removed; it reports whether it was there. The join bookkeeping of the other subscribers is unchanged. |
| Stores.SentSince | app.js:36-53 | With the join bookkeeping unchanged and the history only extended, a subscriber has been sent exactly what it had plus the notices published since. |
| App.InitialStateFacts | app.js:58-106 | The initial state: `data` an object, demo off, no session start, empty log buffer, unknown progress, empty history. |
| App.ViewUpdatersKeepDataObject | app.js:111-173 | The view and flag updaters keep `data` a plain object. |
| App.DataUpdatersKeepDataObject | app.js:175-258 | The data updaters keep `data` a plain object, and receiving ratings on such a state never throws. |
| App.Actions.SetActiveTab | app.js:111-116 | Stores the updater's result, with one notice `{type: "state/activeTab"}` when it is fresh. |
| App.Actions.SetHeatmapPhase | app.js:118-123 | Likewise, with `{type: "state/heatmapPhase"}`. |
| App.Actions.OpenExplain | app.js:125-136 | Stores the open-explain state with one notice. |
| App.Actions.CloseExplain | app.js:138-149 | Stores the close-explain state with one notice. |
| App.Actions.SetDemoMode | app.js:151-157 | Stores the demo updater's result, with one notice when it is fresh. |
| App.Actions.SetLoading | app.js:161-166 | Stores the loading flag with notice `{type: "data/loading", key}`. |
| App.Actions.SetError | app.js:168-173 | Stores the error with notice `{type: "data/error", key}`. |
| App.Actions.ReceiveTraining | app.js:175-203 | Stores the training updater's state with one notice. |
| App.Actions.ReceiveElo | app.js:205-230 | Reports exactly when `s.data` is null or undefined, leaving the store alone; otherwise stores the new state with one notice. |
| App.Actions.ReceiveOptional | app.js:232-239 | Stores the optional updater's state with notice `{type: "data/optional", key}`. |
| App.Actions.AppendLogLines | app.js:241-252 | A non-array or empty list changes nothing. Otherwise it stores the appended buffer with one notice. |
| App.Actions.Append | app.js:244-251 | Stores the appended buffer with one notice `{type: "data/logsAppend"}`. |
| App.Actions.SetProgress | app.js:254-258 | Stores the progress with one notice. |
| App.LogPayloadLines | app.js:325 | An array payload is its lines, a string is one line, anything else no lines. |
| App.MissingAfter | app.js:314-331 | A success resets the missing counter, a 404 counts it up, any other failure keeps it. |
| App.DataService.constructor | app.js:277-285 | Not in flight, both missing counters 0. |
| App.DataService.RaiseLoadingFlags | app.js:291-295 | The four loading flags are set from the data present in the state read before, with four notices. |
| App.DataService.ClearErrorFlags | app.js:296-299 | The four errors become null, with four notices. |
| App.DataService.RefreshStart | app.js:287-299 | Starts exactly when not in flight; then it is in flight, with the loading and error flags set and eight notices sent. |
| App.DataService.HandleTraining | app.js:308-309 | The training result as the pure `TrainingResult` says. |
| App.DataService.HandleElo | app.js:311-312 | The rating result as `EloResult` says, reporting a throw. |
| App.DataService.StoreTournaments | app.js:314-321 | The tournaments result: a non-array becomes `[]`, a 404 sets no error. |
| App.DataService.StoreLogs | app.js:323-331 | The logs result: the last 1000 payload lines, a 404 sets no error. |
| App.DataService.ClearLoadingFlags | app.js:332-336 | The `finally` block's four cleared flags. |
| App.DataService.Settle | app.js:314-331 | The missing counters follow their results unless handling threw first. The cycle is no longer in flight. |
| App.DataService.HandleAll | app.js:308-331 | The four results in order; a thrown rating update skips the last two. |
| App.DataService.RefreshFinish | app.js:301-338 | After the `await`: the handled results, the cleared flags, the counters and `inFlight` false. |
| App.DataService.RefreshOnce | app.js:287-339 | While in flight, nothing changes at all. Otherwise the store ends where the pure `Cycle` says, the counters follow the results, and it is no longer in flight. |
| App.LoadingStep | app.js:161-166 | One `_setLoading` sets its key's flag and keeps every other flag, `data` and `error`. |
| App.ErrorStep | app.js:168-173 | One `_setError` sets its key's error and keeps every other error, `data` and `loading`. |
| App.BeginLoading | app.js:291-295 | A domain is marked loading exactly when its data is absent (an empty list for tournaments and logs). |
| App.BeginErrors | app.js:296-299 | All four errors are cleared before fetching, and `data` is untouched. |
| App.ClearErrorsKeeps | app.js:296-299 | Clearing the four errors changes neither `data` nor `loading`. |
| App.ClearLoadingEffect | app.js:332-336 | The `finally` block clears the four flags, keeps `data` and `error`, and sends four notices. |
| App.TrainingErrors | app.js:308-309 | Only a non-404 training failure writes an error, its message. |
| App.EloErrors | app.js:311-312 | Only a non-404 rating failure writes an error, its message. |
| App.TournamentsErrors | app.js:314-321 | Only a non-404 tournaments failure writes an error, its message. |
| App.LogsErrors | app.js:323-331 | Only a non-404 logs failure writes an error, its message. |
| App.TrainingKeepsDataObject | app.js:195-201 | The training step keeps `data` a plain object. |
| App.LogsResultKeeps | app.js:323-331 | The logs step changes no entry of `data` other than `logs`. |
| App.TrainingResultKeeps | app.js:308-309 | The training step changes no entry of `data` other than `training` and `progress`. |
| App.EloResultKeeps | app.js:311-312 | The rating step changes no entry of `data` other than `elo` and `eloLiveHistory`. |
| App.TournamentsResultKeeps | app.js:314-321 | The tournaments step changes no entry of `data` other than `tournaments`. |
| App.LastStepsKeep | app.js:314-331 | The tournaments and logs steps together change no entry of `data` other than theirs. |
| App.AfterTrainingKeeps | app.js:311-331 | The steps after the training one keep `data.training` and `data.progress`. |
| App.TrainingStep | app.js:308 | A successful training fetch stores its payload and the progress it implies. |
| App.EloStep | app.js:311 | A rating update that returns stores the payload and the history built from its rows. |
| App.EloKeepsDataObject | app.js:311-312 | The rating step keeps `data` a plain object. |
| App.TournamentsKeepsDataObject | app.js:314-321 | The tournaments step keeps `data` a plain object. |
| App.LogsKeepsDataObject | app.js:323-331 | The logs step keeps `data` a plain object. |
| App.HandleKeepsDataObject | app.js:308-331 | Handling the four results keeps `data` a plain object. |
| App.CycleKeepsDataObject | app.js:287-339 | A whole cycle keeps `data` a plain object, so the next cycle does not throw either. |
| App.CycleErrors | app.js:296-331 | After a cycle each domain's error is its message exactly when its result failed other than by 404, and null otherwise. Tournaments and logs stay null when handling threw. |
| App.CycleClearsLoading | app.js:332-336 | After a cycle no domain is loading, whether or not handling threw. |
| App.CycleNotices | app.js:308-336 | After the `await` a cycle sends between 4 and 8 notices. |
| App.HandleNotices | app.js:308-331 | Handling the four results sends at most one notice each. |
| App.CycleRaisesOnlyOnElo | app.js:207 | A cycle throws exactly when the rating result is ok and `data` is null or undefined at that point. |
| App.CycleNeverRaises | app.js:207 | From a state whose `data` is an object, no cycle throws. |
| App.InitialCycleNeverRaises | app.js:75-85 | No cycle from the initial state throws. |
| App.OptionalEntry | app.js:235 | Receiving an optional payload writes only `data[key]`. |
| App.CycleLogs | app.js:323-326 | An ok logs result leaves its last 1000 lines as the buffer, and a string payload as a one-line buffer. |
| App.CycleTournaments | app.js:314-316 | An ok tournaments result leaves its array, or `[]`, as the list. |
| App.CycleTraining | app.js:308 | An ok training result leaves its payload as `data.training` and the progress it implies as `data.progress`, whether or not the rating step throws. |
| App.CycleElo | app.js:311 | An ok rating result, when its update does not throw, leaves its payload as `data.elo` and the history built from its rows as `data.eloLiveHistory`. |
| App.RaiseLoading | app.js:291-295 | Definition; specified by App.BeginLoading. |
| App.ClearErrors | app.js:296-299 | Definition; specified by App.ClearErrorsKeeps, App.BeginErrors. |
| App.BeginState | app.js:287-299 | Definition; specified by App.BeginLoading, App.BeginErrors. |
| App.TrainingResult | app.js:308-309 | Definition; specified by App.TrainingErrors, App.TrainingKeepsDataObject. |
| App.EloResult | app.js:311-312 | Definition; specified by App.EloErrors, App.CycleRaisesOnlyOnElo. |
| App.TournamentsResult | app.js:314-321 | Definition; specified by App.TournamentsErrors, App.CycleTournaments. |
| App.LogsResult | app.js:323-331 | Definition; specified by App.LogsErrors, App.LogsResultKeeps, App.CycleLogs. |
| App.HandleResults | app.js:308-331 | Definition; specified by App.HandleNotices, App.CycleRaisesOnlyOnElo. |
| App.ClearLoading | app.js:332-336 | Definition; specified by App.ClearLoadingEffect. |
| App.FinishRun | app.js:301-338 | Definition; specified by App.CycleClearsLoading, App.CycleNotices. |
| App.Cycle | app.js:287-339 | Definition; specified by App.CycleErrors, App.CycleClearsLoading, App.CycleNotices, App.CycleNeverRaises, App.CycleKeepsDataObject, App.CycleTraining, App.CycleElo, App.CycleLogs, App.CycleTournaments. |

## Left out

- `fetchJSON` (network, abort controller, timeouts): its result record `{ok, status, data}` is an input of the cycle.
- The clock: `Date.now()` and `nowIso()` are the parameters `now` and `iso`. One reading stands for every reading within one updater and within one cycle. The source reads the clock afresh each time (app.js:178, 199, 217 for each rating row, 227, 236, 249). So in the model all new points of one `receiveElo` share one `t`, and all `lastUpdated` stamps of one cycle are equal.
- `start`, `stop`, the refresh timer and the demo mock streams: timers driven by wall-clock time and `Math.random`. So is the data service's `setDemoMode`, which `actions.setDemoMode` calls after updating the store.
- `refreshOnce` is modelled as its two halves around the `await` and as the two run back to back. Another call interleaving at the `await` is not modelled; such a call returns at once because `inFlight` is set.
- App.DataService.RefreshStart: its eight notices are stated only as a count. The new history extends the old one by that many notices, but their states and metas are not listed one by one. The final state is stated exactly.
- App.DataService.RaiseLoadingFlags: its four notices are stated only as a count, like `RefreshStart`'s.
- App.DataService.ClearErrorFlags: its four notices are stated only as a count.
- App.DataService.HandleTraining: its notice, when there is one, is counted through `Now`, not listed.
- App.DataService.HandleElo: its notice, when there is one, is counted through `Now`, not listed.
- App.DataService.StoreTournaments: its notice, when there is one, is counted through `Now`, not listed.
- App.DataService.StoreLogs: its notice, when there is one, is counted through `Now`, not listed.
- App.DataService.ClearLoadingFlags: its four notices are counted through `Now`, not listed.
- App.DataService.HandleAll: its notices are counted through `Now`, not listed.
- App.DataService.RefreshFinish: its notices are counted through `Now`, not listed.
- App.DataService.RefreshOnce: its notices are counted through `Now` and `Cycle`, not listed. Each subscriber has been sent exactly the notices the history gained (`Stores.SentSince`).
- App.CycleNotices: bounds the notices sent after the `await` to 4 to 8. It does not give the exact number for each combination of results.
- Stores.Subscriber.Call: a subscriber is a recorder that may throw. A subscriber that calls back into the store while it is being notified is not modelled.
- The order of an object's keys: states are maps, and no modelled operation depends on key order.
- Updates.AddPoint: a version whose text is `__proto__` is stored as an ordinary history entry. In JavaScript, `live[key] = next` with that key (app.js:219) sets the working copy's prototype instead of adding an entry, so the stored history keeps no series for it and the next `{ ...eloLiveHistory }` (app.js:207) drops it.
- Updates.FillLive: the `__proto__` version is an ordinary entry here, as under Updates.AddPoint; the same holds for Updates.LiveAfter.
- Js.KeyString: a non-integral or very large number used as a history key prints as a placeholder, not as JavaScript's number formatting. Distinct integers still give distinct keys (`Js.IntToStringInjective`).
- Ascii: case mapping covers ASCII letters only; Unicode case folding is not modelled. `trim` uses ECMAScript's full white-space and line-terminator set.
- LogView: a log record's fields are strings or absent. A non-string `level` or `subsystem`, or a numeric or boolean log line, is not modelled.
- LogView.LastNCount: `Number(filters.n || 200)` on a non-numeric value (NaN) is not modelled; `n` is an optional integer.
- LogView.FormatDuration: the number is a real, so infinities and NaN are not modelled, only the "not a non-negative number" case.
- All DOM rendering of `js/main.js`, the chart canvas, the garland and snow animation, `js/heatmap.js` and `experience.js`: presentation only.
- `getStoredTheme`, `setStoredTheme`, `renderToggle` and `init` in `js/theme.js`: local storage, media queries and the DOM.
- `actions.setLogsUi` is called by `js/main.js` but `app.js` does not define it, so it is not part of this model.
