/**
 * The application object of app.js: the initial state, the `actions` that
 * hand updaters to the store, and the data service's `refreshOnce`, which
 * raises the loading flags, waits for four fetches and turns each result
 * into a received payload, a missing-file count or an error message.
 */
module App {
  import opened Js
  import opened Updates
  import opened Stores

  /** `{ type }`. */
  function TypeMeta(t: string): Value
  {
    Single("type", Str(t))
  }

  /** `{ type, key }`. */
  function KeyMeta(t: string, key: string): Value
  {
    Obj(map["type" := Str(t), "key" := Str(key)])
  }

  const InitialState: State := map[
    "activeTab" := Str("overview"),
    "activeHeatmapPhase" := Str("opening"),
    "loading" := Obj(map["training" := Bool(false), "elo" := Bool(false), "heatmap" := Bool(false),
                         "tournaments" := Bool(false), "logs" := Bool(false)]),
    "error" := Obj(map["training" := Null, "elo" := Null, "heatmap" := Null, "tournaments" := Null, "logs" := Null]),
    "data" := Obj(map["training" := Null, "elo" := Null, "eloLiveHistory" := Obj(map[]), "tournaments" := Arr([]),
                      "logs" := Arr([]), "progress" := NoProgress]),
    "ui" := Obj(map["explain" := ExplainPanel(false, Null), "demo" := Single("enabled", Bool(false))]),
    "meta" := Obj(map["sessionStart" := Single("training", Null),
                      "lastUpdated" := Obj(map["training" := Null, "elo" := Null, "tournaments" := Null, "logs" := Null])])]

  /** `s.data` is a plain object, so reading a property of it never throws. */
  predicate DataIsObject(s: State)
  {
    Field(s, "data").Obj?
  }

  /** The initial state: demo off, no session start, empty buffers, progress unknown. */
  lemma InitialStateFacts()
    ensures DataIsObject(InitialState)
    ensures !DemoEnabled(InitialState)
    ensures SessionStart(InitialState) == Null
    ensures LogBuffer(InitialState) == []
    ensures Progress(InitialState) == NoProgress && PercentInRange(Progress(InitialState))
    ensures History(InitialState).Obj? && SeriesBounded(History(InitialState).fields)
  {
  }

  /** No updater of the view state replaces `data`. */
  lemma ViewUpdatersKeepDataObject(s: State, v: Value, key: string)
    requires DataIsObject(s)
    ensures SetActiveTab(s, key).Fresh? ==> DataIsObject(SetActiveTab(s, key).state)
    ensures SetHeatmapPhase(s, key).Fresh? ==> DataIsObject(SetHeatmapPhase(s, key).state)
    ensures DataIsObject(OpenExplain(s, v)) && DataIsObject(CloseExplain(s))
    ensures SetDemoMode(s, v).Fresh? ==> DataIsObject(SetDemoMode(s, v).state)
    ensures DataIsObject(WithLoading(s, key, v)) && DataIsObject(WithError(s, key, v))
  {
  }

  /** The data updaters keep `data` a plain object, and receiving ratings then never throws. */
  lemma DataUpdatersKeepDataObject(s: State, v: Value, key: string, now: int, iso: string, list: seq<Value>)
    requires DataIsObject(s)
    ensures DataIsObject(ReceiveTraining(s, v, now, iso))
    ensures ReceiveElo(s, v, now, iso).Returned? && DataIsObject(ReceiveElo(s, v, now, iso).next.state)
    ensures DataIsObject(ReceiveOptional(s, key, v, iso)) && DataIsObject(AppendLogLines(s, list, iso))
    ensures DataIsObject(SetProgress(s, v))
  {
  }

  /** `Array.isArray(lines) ? lines : []`. */
  function ListOrEmpty(v: Value): seq<Value>
  {
    if v.Arr? then v.items else []
  }

  // ---------------------------------------------------------------------
  // The actions

  /** The `actions` object: each action hands its updater and meta record to the store. */
  class Actions {
    const store: Store

    constructor(store: Store)
      ensures this.store == store
    {
      this.store := store;
    }

    /** `setActiveTab(tab)`: selecting the tab already shown publishes nothing. */
    method SetActiveTab(tab: string)
      requires store.Valid()
      modifies store, store.subs
      ensures store.Valid() && store.subs == old(store.subs)
      ensures store.joined == old(store.joined) && store.before == old(store.before)
      ensures Updates.SetActiveTab(old(store.state), tab).Same? ==>
                store.state == old(store.state) && store.published == old(store.published)
      ensures Updates.SetActiveTab(old(store.state), tab).Fresh? ==>
                store.state == Updates.SetActiveTab(old(store.state), tab).state
                && store.published == old(store.published) + [Notice(store.state, TypeMeta("state/activeTab"))]
    {
      var raised := store.Update(s => Returned(Updates.SetActiveTab(s, tab)), TypeMeta("state/activeTab"));
    }

    /** `setHeatmapPhase(phase)`: selecting the phase already shown publishes nothing. */
    method SetHeatmapPhase(phase: string)
      requires store.Valid()
      modifies store, store.subs
      ensures store.Valid() && store.subs == old(store.subs)
      ensures store.joined == old(store.joined) && store.before == old(store.before)
      ensures Updates.SetHeatmapPhase(old(store.state), phase).Same? ==>
                store.state == old(store.state) && store.published == old(store.published)
      ensures Updates.SetHeatmapPhase(old(store.state), phase).Fresh? ==>
                store.state == Updates.SetHeatmapPhase(old(store.state), phase).state
                && store.published == old(store.published) + [Notice(store.state, TypeMeta("state/heatmapPhase"))]
    {
      var raised := store.Update(s => Returned(Updates.SetHeatmapPhase(s, phase)), TypeMeta("state/heatmapPhase"));
    }

    method OpenExplain(version: Value)
      requires store.Valid()
      modifies store, store.subs
      ensures store.Valid() && store.subs == old(store.subs)
      ensures store.joined == old(store.joined) && store.before == old(store.before)
      ensures store.state == Updates.OpenExplain(old(store.state), version)
      ensures store.published == old(store.published) + [Notice(store.state, TypeMeta("ui/explainOpen"))]
    {
      var raised := store.Update(s => Returned(Fresh(Updates.OpenExplain(s, version))), TypeMeta("ui/explainOpen"));
    }

    method CloseExplain()
      requires store.Valid()
      modifies store, store.subs
      ensures store.Valid() && store.subs == old(store.subs)
      ensures store.joined == old(store.joined) && store.before == old(store.before)
      ensures store.state == Updates.CloseExplain(old(store.state))
      ensures store.published == old(store.published) + [Notice(store.state, TypeMeta("ui/explainClose"))]
    {
      var raised := store.Update(s => Returned(Fresh(Updates.CloseExplain(s))), TypeMeta("ui/explainClose"));
    }

    /** `setDemoMode(enabled)`: asking for the setting already in force publishes nothing. */
    method SetDemoMode(enabled: Value)
      requires store.Valid()
      modifies store, store.subs
      ensures store.Valid() && store.subs == old(store.subs)
      ensures store.joined == old(store.joined) && store.before == old(store.before)
      ensures Updates.SetDemoMode(old(store.state), enabled).Same? ==>
                store.state == old(store.state) && store.published == old(store.published)
      ensures Updates.SetDemoMode(old(store.state), enabled).Fresh? ==>
                store.state == Updates.SetDemoMode(old(store.state), enabled).state
                && store.published == old(store.published) + [Notice(store.state, TypeMeta("ui/demoMode"))]
    {
      var raised := store.Update(s => Returned(Updates.SetDemoMode(s, enabled)), TypeMeta("ui/demoMode"));
    }

    /** `_setLoading(key, value)`. */
    method SetLoading(key: string, value: Value)
      requires store.Valid()
      modifies store, store.subs
      ensures store.Valid() && store.subs == old(store.subs)
      ensures store.joined == old(store.joined) && store.before == old(store.before)
      ensures store.state == WithLoading(old(store.state), key, value)
      ensures store.published == old(store.published) + [Notice(store.state, KeyMeta("data/loading", key))]
    {
      var raised := store.Update(s => Returned(Fresh(WithLoading(s, key, value))), KeyMeta("data/loading", key));
    }

    /** `_setError(key, value)`. */
    method SetError(key: string, value: Value)
      requires store.Valid()
      modifies store, store.subs
      ensures store.Valid() && store.subs == old(store.subs)
      ensures store.joined == old(store.joined) && store.before == old(store.before)
      ensures store.state == WithError(old(store.state), key, value)
      ensures store.published == old(store.published) + [Notice(store.state, KeyMeta("data/error", key))]
    {
      var raised := store.Update(s => Returned(Fresh(WithError(s, key, value))), KeyMeta("data/error", key));
    }

    method ReceiveTraining(payload: Value, now: int, iso: string)
      requires store.Valid()
      modifies store, store.subs
      ensures store.Valid() && store.subs == old(store.subs)
      ensures store.joined == old(store.joined) && store.before == old(store.before)
      ensures store.state == Updates.ReceiveTraining(old(store.state), payload, now, iso)
      ensures store.published == old(store.published) + [Notice(store.state, TypeMeta("data/training"))]
    {
      var raised := store.Update(s => Returned(Fresh(Updates.ReceiveTraining(s, payload, now, iso))), TypeMeta("data/training"));
    }

    /** `receiveElo(payload)`; `raised` reports the TypeError its updater throws, which leaves the store alone. */
    method ReceiveElo(payload: Value, now: int, iso: string) returns (raised: bool)
      requires store.Valid()
      modifies store, store.subs
      ensures store.Valid() && store.subs == old(store.subs)
      ensures store.joined == old(store.joined) && store.before == old(store.before)
      ensures raised <==> Field(old(store.state), "data").Undefined? || Field(old(store.state), "data").Null?
      ensures raised ==> store.state == old(store.state) && store.published == old(store.published)
      ensures !raised ==>
                store.state == Updates.ReceiveElo(old(store.state), payload, now, iso).next.state
                && store.published == old(store.published) + [Notice(store.state, TypeMeta("data/elo"))]
    {
      raised := store.Update(s => Updates.ReceiveElo(s, payload, now, iso), TypeMeta("data/elo"));
    }

    method ReceiveOptional(key: string, payload: Value, iso: string)
      requires store.Valid()
      modifies store, store.subs
      ensures store.Valid() && store.subs == old(store.subs)
      ensures store.joined == old(store.joined) && store.before == old(store.before)
      ensures store.state == Updates.ReceiveOptional(old(store.state), key, payload, iso)
      ensures store.published == old(store.published) + [Notice(store.state, KeyMeta("data/optional", key))]
    {
      var raised := store.Update(s => Returned(Fresh(Updates.ReceiveOptional(s, key, payload, iso))), KeyMeta("data/optional", key));
    }

    /** `appendLogLines(lines)`: anything but a non-empty array leaves the store alone. */
    method AppendLogLines(lines: Value, iso: string)
      requires store.Valid()
      modifies store, store.subs
      ensures store.Valid() && store.subs == old(store.subs)
      ensures store.joined == old(store.joined) && store.before == old(store.before)
      ensures ListOrEmpty(lines) == [] ==> store.state == old(store.state) && store.published == old(store.published)
      ensures ListOrEmpty(lines) != [] ==>
                store.state == Updates.AppendLogLines(old(store.state), ListOrEmpty(lines), iso)
                && store.published == old(store.published) + [Notice(store.state, TypeMeta("data/logsAppend"))]
    {
      var list := ListOrEmpty(lines);
      if |list| == 0 {
        return;
      }
      Append(list, iso);
    }

    /** The update `appendLogLines` hands to the store for a non-empty list. */
    method Append(list: seq<Value>, iso: string)
      requires store.Valid()
      modifies store, store.subs
      ensures store.Valid() && store.subs == old(store.subs)
      ensures store.joined == old(store.joined) && store.before == old(store.before)
      ensures store.state == Updates.AppendLogLines(old(store.state), list, iso)
      ensures store.published == old(store.published) + [Notice(store.state, TypeMeta("data/logsAppend"))]
    {
      var raised := store.Update(s => Returned(Fresh(Updates.AppendLogLines(s, list, iso))), TypeMeta("data/logsAppend"));
    }

    method SetProgress(progress: Value)
      requires store.Valid()
      modifies store, store.subs
      ensures store.Valid() && store.subs == old(store.subs)
      ensures store.joined == old(store.joined) && store.before == old(store.before)
      ensures store.state == Updates.SetProgress(old(store.state), progress)
      ensures store.published == old(store.published) + [Notice(store.state, TypeMeta("data/progress"))]
    {
      var raised := store.Update(s => Returned(Fresh(Updates.SetProgress(s, progress))), TypeMeta("data/progress"));
    }
  }

  // ---------------------------------------------------------------------
  // refreshOnce

  /** The record `fetchJSON` resolves to. */
  datatype Fetched = Fetched(ok: bool, status: int, data: Value)

  const TrainingError: string := "Training data unavailable."
  const EloError: string := "ELO data unavailable."
  const TournamentsError: string := "Tournaments data unavailable."
  const LogsError: string := "Logs unavailable."

  /** `Array.isArray(v) && v.length`, as a truth value. */
  predicate NonEmptyList(v: Value)
  {
    v.Arr? && |v.items| > 0
  }

  /** The loading flags raised before the fetches: one for each domain that has no data yet. */
  function RaiseLoading(s: State): State
  {
    var l1 := WithLoading(s, "training", Bool(!Truthy(Entry2(s, "data", "training"))));
    var l2 := WithLoading(l1, "elo", Bool(!Truthy(Entry2(s, "data", "elo"))));
    var l3 := WithLoading(l2, "tournaments", Bool(!NonEmptyList(Entry2(s, "data", "tournaments"))));
    WithLoading(l3, "logs", Bool(!NonEmptyList(Entry2(s, "data", "logs"))))
  }

  /** The four errors cleared before the fetches. */
  function ClearErrors(s: State): State
  {
    WithError(WithError(WithError(WithError(s, "training", Null), "elo", Null), "tournaments", Null), "logs", Null)
  }

  /**
   * The state before the fetches: the loading flags (judged on the state at
   * the start), then the errors cleared; eight notices.
   */
  function BeginState(s: State): State
  {
    ClearErrors(RaiseLoading(s))
  }

  const BeginNotices: nat := 8

  /**
   * A cycle in progress: the store's state, how many notices it has sent in
   * all, and whether an updater has thrown.
   */
  datatype Run = Run(state: State, notices: nat, raised: bool)

  /** A new state stored and announced. */
  function Announce(run: Run, t: State): Run
  {
    Run(t, run.notices + 1, run.raised)
  }

  /** The training result: received when fetched, an error unless the file is merely missing. */
  function TrainingResult(run: Run, r: Fetched, now: int, iso: string): Run
  {
    if r.ok then Announce(run, ReceiveTraining(run.state, r.data, now, iso))
    else if r.status != 404 then Announce(run, WithError(run.state, "training", Str(TrainingError)))
    else run
  }

  /** The rating result, like the training one, except that receiving it may throw. */
  function EloResult(run: Run, r: Fetched, now: int, iso: string): Run
  {
    if r.ok then
      match ReceiveElo(run.state, r.data, now, iso)
      case Raised => Run(run.state, run.notices, true)
      case Returned(Same) => run
      case Returned(Fresh(t)) => Announce(run, t)
    else if r.status != 404 then Announce(run, WithError(run.state, "elo", Str(EloError)))
    else run
  }

  /** The tournaments result: a non-array payload is stored as `[]`; a 404 is no error. */
  function TournamentsResult(run: Run, r: Fetched, iso: string): Run
  {
    if r.ok then Announce(run, ReceiveOptional(run.state, "tournaments", Arr(ListOrEmpty(r.data)), iso))
    else if r.status == 404 then run
    else Announce(run, WithError(run.state, "tournaments", Str(TournamentsError)))
  }

  /** The lines a logs payload stands for: an array as is, a string as one line, anything else none. */
  function LogPayloadLines(data: Value): (r: seq<Value>)
    ensures data.Arr? ==> r == data.items
    ensures data.Str? ==> r == [data]
    ensures !data.Arr? && !data.Str? ==> r == []
  {
    if data.Arr? then data.items else if data.Str? then [data] else []
  }

  /** The logs result: the payload's last 1000 lines replace the buffer; a 404 is no error. */
  function LogsResult(run: Run, r: Fetched, iso: string): Run
  {
    if r.ok then Announce(run, ReceiveOptional(run.state, "logs", Arr(Tail(LogPayloadLines(r.data), MaxLogLines)), iso))
    else if r.status == 404 then run
    else Announce(run, WithError(run.state, "logs", Str(LogsError)))
  }

  /** The four results in order; a thrown rating update skips the last two. */
  function HandleResults(run: Run, training: Fetched, elo: Fetched, tournaments: Fetched, logs: Fetched,
                         now: int, iso: string): Run
  {
    var r := EloResult(TrainingResult(run, training, now, iso), elo, now, iso);
    if r.raised then r else LogsResult(TournamentsResult(r, tournaments, iso), logs, iso)
  }

  /** The `finally` block: all four loading flags are cleared. */
  function ClearLoading(run: Run): Run
  {
    var r1 := Announce(run, WithLoading(run.state, "training", Bool(false)));
    var r2 := Announce(r1, WithLoading(r1.state, "elo", Bool(false)));
    var r3 := Announce(r2, WithLoading(r2.state, "tournaments", Bool(false)));
    Announce(r3, WithLoading(r3.state, "logs", Bool(false)))
  }

  /** Everything after the `await`. */
  function FinishRun(run: Run, training: Fetched, elo: Fetched, tournaments: Fetched, logs: Fetched,
                     now: int, iso: string): Run
  {
    ClearLoading(HandleResults(run, training, elo, tournaments, logs, now, iso))
  }

  /** A whole cycle from state `s` with `n` notices sent before it. */
  function Cycle(s: State, n: nat, training: Fetched, elo: Fetched, tournaments: Fetched, logs: Fetched,
                 now: int, iso: string): Run
  {
    FinishRun(Run(BeginState(s), n + BeginNotices, false), training, elo, tournaments, logs, now, iso)
  }

  /** A missing-file counter after a result: reset by success, counted up by a 404, else kept. */
  function MissingAfter(count: nat, r: Fetched): (c: nat)
    ensures r.ok ==> c == 0
    ensures !r.ok && r.status == 404 ==> c == count + 1
    ensures !r.ok && r.status != 404 ==> c == count
  {
    if r.ok then 0 else if r.status == 404 then count + 1 else count
  }

  /** `createDataService()`: the overlap flag and the missing-file counters. */
  class DataService {
    const actions: Actions
    var inFlight: bool
    var missingTournaments: nat
    var missingLogs: nat

    constructor(actions: Actions)
      ensures this.actions == actions && !inFlight && missingTournaments == 0 && missingLogs == 0
    {
      this.actions := actions;
      inFlight := false;
      missingTournaments := 0;
      missingLogs := 0;
    }

    /** The store as a cycle in progress. */
    ghost function Now(raised: bool): Run
      reads actions, actions.store
    {
      Run(actions.store.state, |actions.store.published|, raised)
    }

    /** The four `_setLoading` calls at the start of `refreshOnce`. */
    method RaiseLoadingFlags()
      requires actions.store.Valid()
      modifies actions.store, actions.store.subs
      ensures actions.store.Valid() && actions.store.subs == old(actions.store.subs)
      ensures actions.store.joined == old(actions.store.joined) && actions.store.before == old(actions.store.before)
      ensures old(actions.store.published) <= actions.store.published
      ensures actions.store.state == RaiseLoading(old(actions.store.state))
      ensures |actions.store.published| == |old(actions.store.published)| + 4
    {
      var s0 := actions.store.GetState();
      actions.SetLoading("training", Bool(!Truthy(Entry2(s0, "data", "training"))));
      actions.SetLoading("elo", Bool(!Truthy(Entry2(s0, "data", "elo"))));
      actions.SetLoading("tournaments", Bool(!NonEmptyList(Entry2(s0, "data", "tournaments"))));
      actions.SetLoading("logs", Bool(!NonEmptyList(Entry2(s0, "data", "logs"))));
    }

    /** The four `_setError(key, null)` calls at the start of `refreshOnce`. */
    method ClearErrorFlags()
      requires actions.store.Valid()
      modifies actions.store, actions.store.subs
      ensures actions.store.Valid() && actions.store.subs == old(actions.store.subs)
      ensures actions.store.joined == old(actions.store.joined) && actions.store.before == old(actions.store.before)
      ensures old(actions.store.published) <= actions.store.published
      ensures actions.store.state == ClearErrors(old(actions.store.state))
      ensures |actions.store.published| == |old(actions.store.published)| + 4
    {
      actions.SetError("training", Null);
      actions.SetError("elo", Null);
      actions.SetError("tournaments", Null);
      actions.SetError("logs", Null);
    }

    /**
     * `refreshOnce` up to its `await`: a call while another is in flight
     * returns at once; otherwise it marks itself in flight, raises the
     * loading flags and clears the errors.
     */
    method RefreshStart() returns (started: bool)
      requires actions.store.Valid()
      modifies this, actions.store, actions.store.subs
      ensures actions.store.Valid() && actions.store.subs == old(actions.store.subs)
      ensures actions.store.joined == old(actions.store.joined) && actions.store.before == old(actions.store.before)
      ensures old(actions.store.published) <= actions.store.published
      ensures started <==> !old(inFlight)
      ensures inFlight
      ensures missingTournaments == old(missingTournaments) && missingLogs == old(missingLogs)
      ensures !started ==> actions.store.state == old(actions.store.state) && actions.store.published == old(actions.store.published)
      ensures started ==>
                actions.store.state == BeginState(old(actions.store.state))
                && |actions.store.published| == |old(actions.store.published)| + BeginNotices
    {
      if inFlight {
        return false;
      }
      inFlight := true;
      started := true;
      RaiseLoadingFlags();
      ClearErrorFlags();
    }

    /** The training branch after the `await`. */
    method HandleTraining(r: Fetched, now: int, iso: string)
      requires actions.store.Valid()
      modifies actions.store, actions.store.subs
      ensures actions.store.Valid() && actions.store.subs == old(actions.store.subs)
      ensures actions.store.joined == old(actions.store.joined) && actions.store.before == old(actions.store.before)
      ensures old(actions.store.published) <= actions.store.published
      ensures Now(false) == TrainingResult(old(Now(false)), r, now, iso)
    {
      if r.ok {
        actions.ReceiveTraining(r.data, now, iso);
      } else if r.status != 404 {
        actions.SetError("training", Str(TrainingError));
      }
    }

    /** The rating branch after the `await`; `raised` reports the exception `receiveElo` throws. */
    method HandleElo(r: Fetched, now: int, iso: string) returns (raised: bool)
      requires actions.store.Valid()
      modifies actions.store, actions.store.subs
      ensures actions.store.Valid() && actions.store.subs == old(actions.store.subs)
      ensures actions.store.joined == old(actions.store.joined) && actions.store.before == old(actions.store.before)
      ensures old(actions.store.published) <= actions.store.published
      ensures Now(raised) == EloResult(old(Now(false)), r, now, iso)
    {
      raised := false;
      if r.ok {
        raised := actions.ReceiveElo(r.data, now, iso);
      } else if r.status != 404 {
        actions.SetError("elo", Str(EloError));
      }
    }

    /** The tournaments branch: a non-array payload is stored as `[]`; a 404 only counts up the missing-file counter. */
    method StoreTournaments(r: Fetched, iso: string)
      requires actions.store.Valid()
      modifies actions.store, actions.store.subs
      ensures actions.store.Valid() && actions.store.subs == old(actions.store.subs)
      ensures actions.store.joined == old(actions.store.joined) && actions.store.before == old(actions.store.before)
      ensures old(actions.store.published) <= actions.store.published
      ensures Now(false) == TournamentsResult(old(Now(false)), r, iso)
    {
      if r.ok {
        actions.ReceiveOptional("tournaments", Arr(ListOrEmpty(r.data)), iso);
      } else if r.status != 404 {
        actions.SetError("tournaments", Str(TournamentsError));
      }
    }

    /** The logs branch: the last 1000 lines of the payload; a 404 only counts up the missing-file counter. */
    method StoreLogs(r: Fetched, iso: string)
      requires actions.store.Valid()
      modifies actions.store, actions.store.subs
      ensures actions.store.Valid() && actions.store.subs == old(actions.store.subs)
      ensures actions.store.joined == old(actions.store.joined) && actions.store.before == old(actions.store.before)
      ensures old(actions.store.published) <= actions.store.published
      ensures Now(false) == LogsResult(old(Now(false)), r, iso)
    {
      if r.ok {
        var payload := Arr(Tail(LogPayloadLines(r.data), MaxLogLines));
        actions.ReceiveOptional("logs", payload, iso);
      } else if r.status != 404 {
        actions.SetError("logs", Str(LogsError));
      }
    }

    /** The `finally` block's four `_setLoading(key, false)` calls. */
    method ClearLoadingFlags(ghost raised: bool)
      requires actions.store.Valid()
      modifies actions.store, actions.store.subs
      ensures actions.store.Valid() && actions.store.subs == old(actions.store.subs)
      ensures actions.store.joined == old(actions.store.joined) && actions.store.before == old(actions.store.before)
      ensures old(actions.store.published) <= actions.store.published
      ensures Now(raised) == ClearLoading(old(Now(raised)))
    {
      actions.SetLoading("training", Bool(false));
      actions.SetLoading("elo", Bool(false));
      actions.SetLoading("tournaments", Bool(false));
      actions.SetLoading("logs", Bool(false));
    }

    /**
     * The service's own fields after handling: each optional file's missing
     * counter follows its result unless handling threw first, and the cycle is
     * no longer in flight.
     */
    method Settle(raised: bool, tournaments: Fetched, logs: Fetched)
      modifies this
      ensures !inFlight
      ensures missingTournaments == if raised then old(missingTournaments) else MissingAfter(old(missingTournaments), tournaments)
      ensures missingLogs == if raised then old(missingLogs) else MissingAfter(old(missingLogs), logs)
    {
      if !raised {
        missingTournaments := MissingAfter(missingTournaments, tournaments);
        missingLogs := MissingAfter(missingLogs, logs);
      }
      inFlight := false;
    }

    /** The four results handled in order; a thrown rating update skips the last two. */
    method HandleAll(training: Fetched, elo: Fetched, tournaments: Fetched, logs: Fetched, now: int, iso: string)
      returns (raised: bool)
      requires actions.store.Valid()
      modifies actions.store, actions.store.subs
      ensures actions.store.Valid() && actions.store.subs == old(actions.store.subs)
      ensures actions.store.joined == old(actions.store.joined) && actions.store.before == old(actions.store.before)
      ensures old(actions.store.published) <= actions.store.published
      ensures Now(raised) == HandleResults(old(Now(false)), training, elo, tournaments, logs, now, iso)
    {
      HandleTraining(training, now, iso);
      raised := HandleElo(elo, now, iso);
      if !raised {
        StoreTournaments(tournaments, iso);
        StoreLogs(logs, iso);
      }
    }

    /**
     * `refreshOnce` after its `await`: handles the four results, then clears
     * the loading flags and the in-flight mark whether or not handling threw.
     */
    method RefreshFinish(training: Fetched, elo: Fetched, tournaments: Fetched, logs: Fetched, now: int, iso: string)
      returns (raised: bool)
      requires actions.store.Valid()
      modifies this, actions.store, actions.store.subs
      ensures actions.store.Valid() && actions.store.subs == old(actions.store.subs)
      ensures actions.store.joined == old(actions.store.joined) && actions.store.before == old(actions.store.before)
      ensures old(actions.store.published) <= actions.store.published
      ensures !inFlight
      ensures Now(raised) == FinishRun(old(Now(false)), training, elo, tournaments, logs, now, iso)
      ensures missingTournaments == if raised then old(missingTournaments) else MissingAfter(old(missingTournaments), tournaments)
      ensures missingLogs == if raised then old(missingLogs) else MissingAfter(old(missingLogs), logs)
    {
      raised := HandleAll(training, elo, tournaments, logs, now, iso);
      ClearLoadingFlags(raised);
      Settle(raised, tournaments, logs);
    }

    /**
     * `refreshOnce` when nothing else runs between its two halves: a call
     * while in flight changes nothing at all.
     */
    method RefreshOnce(training: Fetched, elo: Fetched, tournaments: Fetched, logs: Fetched, now: int, iso: string)
      returns (raised: bool)
      requires actions.store.Valid()
      modifies this, actions.store, actions.store.subs
      ensures actions.store.Valid() && actions.store.subs == old(actions.store.subs)
      ensures actions.store.joined == old(actions.store.joined) && actions.store.before == old(actions.store.before)
      ensures old(actions.store.published) <= actions.store.published
      ensures old(inFlight) ==>
                !raised && inFlight
                && actions.store.state == old(actions.store.state) && actions.store.published == old(actions.store.published)
                && missingTournaments == old(missingTournaments) && missingLogs == old(missingLogs)
      ensures !old(inFlight) ==>
                !inFlight && Now(raised) == Cycle(old(actions.store.state), |old(actions.store.published)|,
                                                  training, elo, tournaments, logs, now, iso)
      ensures !old(inFlight) ==>
                missingTournaments == (if raised then old(missingTournaments) else MissingAfter(old(missingTournaments), tournaments))
                && missingLogs == (if raised then old(missingLogs) else MissingAfter(old(missingLogs), logs))
    {
      var started := RefreshStart();
      if !started {
        return false;
      }
      raised := RefreshFinish(training, elo, tournaments, logs, now, iso);
    }
  }

  // ---------------------------------------------------------------------
  // Properties of a refresh cycle

  /** `s.error[k]`. */
  function ErrorOf(s: State, k: string): Value
  {
    Entry2(s, "error", k)
  }

  /** `s.loading[k]`. */
  function LoadingOf(s: State, k: string): Value
  {
    Entry2(s, "loading", k)
  }

  /** The error message a result leaves: none for success or a 404, `msg` otherwise. */
  function ExpectedError(r: Fetched, msg: string): Value
  {
    if !r.ok && r.status != 404 then Str(msg) else Null
  }

  /** One `_setLoading` step: only flag `key` changes; `data` and `error` are kept. */
  lemma LoadingStep(s: State, key: string, v: Value, k: string)
    ensures LoadingOf(WithLoading(s, key, v), k) == if k == key then Bool(Truthy(v)) else LoadingOf(s, k)
    ensures Field(WithLoading(s, key, v), "data") == Field(s, "data")
    ensures Field(WithLoading(s, key, v), "error") == Field(s, "error")
  {
  }

  /** One `_setError` step: only error `key` changes; `data` and `loading` are kept. */
  lemma ErrorStep(s: State, key: string, v: Value, k: string)
    ensures ErrorOf(WithError(s, key, v), k) == if k == key then (if Truthy(v) then v else Null) else ErrorOf(s, k)
    ensures Field(WithError(s, key, v), "data") == Field(s, "data")
    ensures Field(WithError(s, key, v), "loading") == Field(s, "loading")
  {
  }

  /** The start of a cycle shows a domain as loading exactly when it has no data yet. */
  lemma BeginLoading(s: State)
    ensures LoadingOf(BeginState(s), "training") == Bool(!Truthy(Entry2(s, "data", "training")))
    ensures LoadingOf(BeginState(s), "elo") == Bool(!Truthy(Entry2(s, "data", "elo")))
    ensures LoadingOf(BeginState(s), "tournaments") == Bool(!NonEmptyList(Entry2(s, "data", "tournaments")))
    ensures LoadingOf(BeginState(s), "logs") == Bool(!NonEmptyList(Entry2(s, "data", "logs")))
  {
    var v1 := Bool(!Truthy(Entry2(s, "data", "training")));
    var v2 := Bool(!Truthy(Entry2(s, "data", "elo")));
    var v3 := Bool(!NonEmptyList(Entry2(s, "data", "tournaments")));
    var v4 := Bool(!NonEmptyList(Entry2(s, "data", "logs")));
    var l1 := WithLoading(s, "training", v1);
    var l2 := WithLoading(l1, "elo", v2);
    var l3 := WithLoading(l2, "tournaments", v3);
    LoadingStep(s, "training", v1, "training");
    LoadingStep(l1, "elo", v2, "training");
    LoadingStep(l2, "tournaments", v3, "training");
    LoadingStep(l3, "logs", v4, "training");
    LoadingStep(l1, "elo", v2, "elo");
    LoadingStep(l2, "tournaments", v3, "elo");
    LoadingStep(l3, "logs", v4, "elo");
    LoadingStep(l2, "tournaments", v3, "tournaments");
    LoadingStep(l3, "logs", v4, "tournaments");
    LoadingStep(l3, "logs", v4, "logs");
    ClearErrorsKeeps(RaiseLoading(s));
  }

  /** Clearing the errors touches neither `data` nor `loading`. */
  lemma ClearErrorsKeeps(s: State)
    ensures Field(ClearErrors(s), "data") == Field(s, "data")
    ensures Field(ClearErrors(s), "loading") == Field(s, "loading")
  {
    var e1 := WithError(s, "training", Null);
    var e2 := WithError(e1, "elo", Null);
    var e3 := WithError(e2, "tournaments", Null);
    ErrorStep(s, "training", Null, "");
    ErrorStep(e1, "elo", Null, "");
    ErrorStep(e2, "tournaments", Null, "");
    ErrorStep(e3, "logs", Null, "");
  }

  /** The start of a cycle clears every error and leaves `data` alone. */
  lemma BeginErrors(s: State)
    ensures ErrorOf(BeginState(s), "training") == Null && ErrorOf(BeginState(s), "elo") == Null
    ensures ErrorOf(BeginState(s), "tournaments") == Null && ErrorOf(BeginState(s), "logs") == Null
    ensures Field(BeginState(s), "data") == Field(s, "data")
  {
    var r := RaiseLoading(s);
    var l1 := WithLoading(s, "training", Bool(!Truthy(Entry2(s, "data", "training"))));
    var l2 := WithLoading(l1, "elo", Bool(!Truthy(Entry2(s, "data", "elo"))));
    var l3 := WithLoading(l2, "tournaments", Bool(!NonEmptyList(Entry2(s, "data", "tournaments"))));
    LoadingStep(s, "training", Bool(!Truthy(Entry2(s, "data", "training"))), "");
    LoadingStep(l1, "elo", Bool(!Truthy(Entry2(s, "data", "elo"))), "");
    LoadingStep(l2, "tournaments", Bool(!NonEmptyList(Entry2(s, "data", "tournaments"))), "");
    LoadingStep(l3, "logs", Bool(!NonEmptyList(Entry2(s, "data", "logs"))), "");
    ClearErrorsKeeps(r);
    var e1 := WithError(r, "training", Null);
    var e2 := WithError(e1, "elo", Null);
    var e3 := WithError(e2, "tournaments", Null);
    ErrorStep(r, "training", Null, "training");
    ErrorStep(e1, "elo", Null, "training");
    ErrorStep(e2, "tournaments", Null, "training");
    ErrorStep(e3, "logs", Null, "training");
    ErrorStep(e1, "elo", Null, "elo");
    ErrorStep(e2, "tournaments", Null, "elo");
    ErrorStep(e3, "logs", Null, "elo");
    ErrorStep(e2, "tournaments", Null, "tournaments");
    ErrorStep(e3, "logs", Null, "tournaments");
    ErrorStep(e3, "logs", Null, "logs");
  }

  /** Clearing the loading flags sets all four false and touches neither `data` nor `error`. */
  lemma ClearLoadingEffect(run: Run)
    ensures var st := ClearLoading(run).state;
            && LoadingOf(st, "training") == Bool(false) && LoadingOf(st, "elo") == Bool(false)
            && LoadingOf(st, "tournaments") == Bool(false) && LoadingOf(st, "logs") == Bool(false)
    ensures Field(ClearLoading(run).state, "data") == Field(run.state, "data")
    ensures Field(ClearLoading(run).state, "error") == Field(run.state, "error")
    ensures ClearLoading(run).notices == run.notices + 4 && ClearLoading(run).raised == run.raised
  {
    var s := run.state;
    var f := Bool(false);
    var l1 := WithLoading(s, "training", f);
    var l2 := WithLoading(l1, "elo", f);
    var l3 := WithLoading(l2, "tournaments", f);
    LoadingStep(s, "training", f, "training");
    LoadingStep(l1, "elo", f, "training");
    LoadingStep(l2, "tournaments", f, "training");
    LoadingStep(l3, "logs", f, "training");
    LoadingStep(l1, "elo", f, "elo");
    LoadingStep(l2, "tournaments", f, "elo");
    LoadingStep(l3, "logs", f, "elo");
    LoadingStep(l2, "tournaments", f, "tournaments");
    LoadingStep(l3, "logs", f, "tournaments");
    LoadingStep(l3, "logs", f, "logs");
  }

  /** The training step sets at most its own error entry: its message on a failure other than 404. */
  lemma TrainingErrors(run: Run, r: Fetched, now: int, iso: string, k: string)
    ensures ErrorOf(TrainingResult(run, r, now, iso).state, k) ==
              if k == "training" && !r.ok && r.status != 404 then Str(TrainingError) else ErrorOf(run.state, k)
  {
    ErrorStep(run.state, "training", Str(TrainingError), k);
  }

  /** The same for the rating step, whether or not receiving the ratings throws. */
  lemma EloErrors(run: Run, r: Fetched, now: int, iso: string, k: string)
    ensures ErrorOf(EloResult(run, r, now, iso).state, k) ==
              if k == "elo" && !r.ok && r.status != 404 then Str(EloError) else ErrorOf(run.state, k)
  {
    ErrorStep(run.state, "elo", Str(EloError), k);
  }

  /** The same for the tournaments step. */
  lemma TournamentsErrors(run: Run, r: Fetched, iso: string, k: string)
    ensures ErrorOf(TournamentsResult(run, r, iso).state, k) ==
              if k == "tournaments" && !r.ok && r.status != 404 then Str(TournamentsError) else ErrorOf(run.state, k)
  {
    ErrorStep(run.state, "tournaments", Str(TournamentsError), k);
  }

  /** The same for the logs step. */
  lemma LogsErrors(run: Run, r: Fetched, iso: string, k: string)
    ensures ErrorOf(LogsResult(run, r, iso).state, k) ==
              if k == "logs" && !r.ok && r.status != 404 then Str(LogsError) else ErrorOf(run.state, k)
  {
    ErrorStep(run.state, "logs", Str(LogsError), k);
  }

  /**
   * The error table of a whole cycle: after it each domain holds its
   * message exactly when its fetch failed with a status other than 404;
   * the two domains a thrown rating update skips are left cleared.
   */
  lemma CycleErrors(s: State, n: nat, training: Fetched, elo: Fetched, tournaments: Fetched, logs: Fetched,
                    now: int, iso: string, k: string)
    requires k in {"training", "elo", "tournaments", "logs"}
    ensures var c := Cycle(s, n, training, elo, tournaments, logs, now, iso);
            ErrorOf(c.state, k) ==
              if k == "training" then ExpectedError(training, TrainingError)
              else if k == "elo" then ExpectedError(elo, EloError)
              else if c.raised then Null
              else if k == "tournaments" then ExpectedError(tournaments, TournamentsError)
              else ExpectedError(logs, LogsError)
  {
    var r0 := Run(BeginState(s), n + BeginNotices, false);
    BeginErrors(s);
    var r1 := TrainingResult(r0, training, now, iso);
    var r2 := EloResult(r1, elo, now, iso);
    TrainingErrors(r0, training, now, iso, k);
    EloErrors(r1, elo, now, iso, k);
    var h := HandleResults(r0, training, elo, tournaments, logs, now, iso);
    if !r2.raised {
      var r3 := TournamentsResult(r2, tournaments, iso);
      TournamentsErrors(r2, tournaments, iso, k);
      LogsErrors(r3, logs, iso, k);
    }
    ClearLoadingEffect(h);
  }

  /** Whatever the results, and even when handling throws, a cycle ends with every loading flag false. */
  lemma CycleClearsLoading(run: Run, training: Fetched, elo: Fetched, tournaments: Fetched, logs: Fetched,
                           now: int, iso: string)
    ensures var st := FinishRun(run, training, elo, tournaments, logs, now, iso).state;
            && LoadingOf(st, "training") == Bool(false) && LoadingOf(st, "elo") == Bool(false)
            && LoadingOf(st, "tournaments") == Bool(false) && LoadingOf(st, "logs") == Bool(false)
  {
    ClearLoadingEffect(HandleResults(run, training, elo, tournaments, logs, now, iso));
  }

  /** A cycle sends between 4 and 8 notices after the `await`: one per handled result and four for the flags. */
  lemma CycleNotices(run: Run, training: Fetched, elo: Fetched, tournaments: Fetched, logs: Fetched,
                     now: int, iso: string)
    ensures var f := FinishRun(run, training, elo, tournaments, logs, now, iso);
            run.notices + 4 <= f.notices <= run.notices + 8
  {
    var h := HandleResults(run, training, elo, tournaments, logs, now, iso);
    HandleNotices(run, training, elo, tournaments, logs, now, iso);
    assert ClearLoading(h).notices == h.notices + 4;
  }

  /** Each handled result sends at most one notice. */
  lemma HandleNotices(run: Run, training: Fetched, elo: Fetched, tournaments: Fetched, logs: Fetched,
                      now: int, iso: string)
    ensures var h := HandleResults(run, training, elo, tournaments, logs, now, iso);
            run.notices <= h.notices <= run.notices + 4
  {
    var r1 := TrainingResult(run, training, now, iso);
    assert run.notices <= r1.notices <= run.notices + 1;
    var r2 := EloResult(r1, elo, now, iso);
    assert r1.notices <= r2.notices <= r1.notices + 1;
    if !r2.raised {
      var r3 := TournamentsResult(r2, tournaments, iso);
      assert r2.notices <= r3.notices <= r2.notices + 1;
      var r4 := LogsResult(r3, logs, iso);
      assert r3.notices <= r4.notices <= r3.notices + 1;
    }
  }

  /** Rating data that throws when received is what ends handling early; the cycle's raised flag says so. */
  lemma CycleRaisesOnlyOnElo(run: Run, training: Fetched, elo: Fetched, tournaments: Fetched, logs: Fetched,
                             now: int, iso: string)
    requires !run.raised
    ensures var f := FinishRun(run, training, elo, tournaments, logs, now, iso);
            var d := Field(TrainingResult(run, training, now, iso).state, "data");
            f.raised <==> elo.ok && (d.Undefined? || d.Null?)
  {
  }

  /** The training step keeps `data` a plain object. */
  lemma TrainingKeepsDataObject(run: Run, r: Fetched, now: int, iso: string)
    requires DataIsObject(run.state)
    ensures DataIsObject(TrainingResult(run, r, now, iso).state)
  {
    ErrorStep(run.state, "training", Str(TrainingError), "");
  }

  /** A cycle on a state whose `data` is a plain object never throws. */
  lemma CycleNeverRaises(s: State, n: nat, training: Fetched, elo: Fetched, tournaments: Fetched, logs: Fetched,
                         now: int, iso: string)
    requires DataIsObject(s)
    ensures !Cycle(s, n, training, elo, tournaments, logs, now, iso).raised
  {
    BeginErrors(s);
    var r0 := Run(BeginState(s), n + BeginNotices, false);
    TrainingKeepsDataObject(r0, training, now, iso);
    CycleRaisesOnlyOnElo(r0, training, elo, tournaments, logs, now, iso);
  }

  /** The app's own first cycle never throws: the initial state's `data` is a plain object. */
  lemma InitialCycleNeverRaises(training: Fetched, elo: Fetched, tournaments: Fetched, logs: Fetched, now: int, iso: string)
    ensures !Cycle(InitialState, 0, training, elo, tournaments, logs, now, iso).raised
  {
    InitialStateFacts();
    CycleNeverRaises(InitialState, 0, training, elo, tournaments, logs, now, iso);
  }

  /** `receiveOptional(key, …)` stores the payload under `data[key]` and keeps the other entries of `data`. */
  lemma OptionalEntry(s: State, key: string, payload: Value, iso: string, k: string)
    ensures Entry2(ReceiveOptional(s, key, payload, iso), "data", k) == if k == key then payload else Entry2(s, "data", k)
  {
  }

  /** The logs step touches no entry of `data` but `logs`. */
  lemma LogsResultKeeps(run: Run, logs: Fetched, iso: string, k: string)
    requires k != "logs"
    ensures Entry2(LogsResult(run, logs, iso).state, "data", k) == Entry2(run.state, "data", k)
  {
    if logs.ok {
      OptionalEntry(run.state, "logs", Arr(Tail(LogPayloadLines(logs.data), MaxLogLines)), iso, k);
    } else if logs.status != 404 {
      ErrorStep(run.state, "logs", Str(LogsError), "");
    }
  }

  /**
   * After a cycle whose logs fetch succeeded the log buffer is the payload's
   * last 1000 lines; a string payload is one line.
   */
  lemma CycleLogs(run: Run, training: Fetched, elo: Fetched, tournaments: Fetched, logs: Fetched, now: int, iso: string)
    requires logs.ok
    ensures var f := FinishRun(run, training, elo, tournaments, logs, now, iso);
            !f.raised ==> Entry2(f.state, "data", "logs") == Arr(Tail(LogPayloadLines(logs.data), MaxLogLines))
    ensures var f := FinishRun(run, training, elo, tournaments, logs, now, iso);
            !f.raised && logs.data.Str? ==> Entry2(f.state, "data", "logs") == Arr([logs.data])
  {
    var h := HandleResults(run, training, elo, tournaments, logs, now, iso);
    ClearLoadingEffect(h);
    if !h.raised {
      var r2 := EloResult(TrainingResult(run, training, now, iso), elo, now, iso);
      var r3 := TournamentsResult(r2, tournaments, iso);
      assert h == LogsResult(r3, logs, iso);
      OptionalEntry(r3.state, "logs", Arr(Tail(LogPayloadLines(logs.data), MaxLogLines)), iso, "logs");
    }
  }

  /** After a cycle whose tournaments fetch succeeded the list is the payload, or empty when it is not an array. */
  lemma CycleTournaments(run: Run, training: Fetched, elo: Fetched, tournaments: Fetched, logs: Fetched, now: int, iso: string)
    requires tournaments.ok
    ensures var f := FinishRun(run, training, elo, tournaments, logs, now, iso);
            !f.raised ==> Entry2(f.state, "data", "tournaments") == Arr(ListOrEmpty(tournaments.data))
  {
    var h := HandleResults(run, training, elo, tournaments, logs, now, iso);
    ClearLoadingEffect(h);
    if !h.raised {
      var r2 := EloResult(TrainingResult(run, training, now, iso), elo, now, iso);
      var r3 := TournamentsResult(r2, tournaments, iso);
      assert h == LogsResult(r3, logs, iso);
      OptionalEntry(r2.state, "tournaments", Arr(ListOrEmpty(tournaments.data)), iso, "tournaments");
      LogsResultKeeps(r3, logs, iso, "tournaments");
    }
  }

  /** The training step keeps every entry of `data` but `training` and `progress`. */
  lemma TrainingResultKeeps(run: Run, r: Fetched, now: int, iso: string, k: string)
    requires k != "training" && k != "progress"
    ensures Entry2(TrainingResult(run, r, now, iso).state, "data", k) == Entry2(run.state, "data", k)
  {
    if r.ok {
      ReceiveTrainingEffect(run.state, r.data, now, iso);
    } else if r.status != 404 {
      ErrorStep(run.state, "training", Str(TrainingError), "");
    }
  }

  /** The rating step keeps every entry of `data` but `elo` and `eloLiveHistory`. */
  lemma EloResultKeeps(run: Run, r: Fetched, now: int, iso: string, k: string)
    requires k != "elo" && k != "eloLiveHistory"
    ensures Entry2(EloResult(run, r, now, iso).state, "data", k) == Entry2(run.state, "data", k)
  {
    if r.ok && ReceiveElo(run.state, r.data, now, iso).Returned? {
      ReceiveEloEffect(run.state, r.data, now, iso);
    } else if !r.ok && r.status != 404 {
      ErrorStep(run.state, "elo", Str(EloError), "");
    }
  }

  /** The tournaments step keeps every entry of `data` but `tournaments`. */
  lemma TournamentsResultKeeps(run: Run, r: Fetched, iso: string, k: string)
    requires k != "tournaments"
    ensures Entry2(TournamentsResult(run, r, iso).state, "data", k) == Entry2(run.state, "data", k)
  {
    if r.ok {
      OptionalEntry(run.state, "tournaments", Arr(ListOrEmpty(r.data)), iso, k);
    } else if r.status != 404 {
      ErrorStep(run.state, "tournaments", Str(TournamentsError), "");
    }
  }

  /** The rating step keeps `data` a plain object. */
  lemma EloKeepsDataObject(run: Run, r: Fetched, now: int, iso: string)
    requires DataIsObject(run.state)
    ensures DataIsObject(EloResult(run, r, now, iso).state)
  {
    ErrorStep(run.state, "elo", Str(EloError), "");
  }

  /** The tournaments step keeps `data` a plain object. */
  lemma TournamentsKeepsDataObject(run: Run, r: Fetched, iso: string)
    requires DataIsObject(run.state)
    ensures DataIsObject(TournamentsResult(run, r, iso).state)
  {
    ErrorStep(run.state, "tournaments", Str(TournamentsError), "");
  }

  /** The logs step keeps `data` a plain object. */
  lemma LogsKeepsDataObject(run: Run, r: Fetched, iso: string)
    requires DataIsObject(run.state)
    ensures DataIsObject(LogsResult(run, r, iso).state)
  {
    ErrorStep(run.state, "logs", Str(LogsError), "");
  }

  /** Handling the four results keeps `data` a plain object. */
  lemma HandleKeepsDataObject(run: Run, training: Fetched, elo: Fetched, tournaments: Fetched, logs: Fetched,
                              now: int, iso: string)
    requires DataIsObject(run.state)
    ensures DataIsObject(HandleResults(run, training, elo, tournaments, logs, now, iso).state)
  {
    TrainingKeepsDataObject(run, training, now, iso);
    var r1 := TrainingResult(run, training, now, iso);
    EloKeepsDataObject(r1, elo, now, iso);
    var r2 := EloResult(r1, elo, now, iso);
    TournamentsKeepsDataObject(r2, tournaments, iso);
    LogsKeepsDataObject(TournamentsResult(r2, tournaments, iso), logs, iso);
  }

  /** A whole cycle keeps `data` a plain object, so every later cycle is as safe as the first. */
  lemma CycleKeepsDataObject(s: State, n: nat, training: Fetched, elo: Fetched, tournaments: Fetched, logs: Fetched,
                             now: int, iso: string)
    requires DataIsObject(s)
    ensures DataIsObject(Cycle(s, n, training, elo, tournaments, logs, now, iso).state)
  {
    BeginErrors(s);
    var r0 := Run(BeginState(s), n + BeginNotices, false);
    HandleKeepsDataObject(r0, training, elo, tournaments, logs, now, iso);
    ClearLoadingEffect(HandleResults(r0, training, elo, tournaments, logs, now, iso));
  }

  /** The tournaments and logs steps keep every other entry of `data`. */
  lemma LastStepsKeep(run: Run, tournaments: Fetched, logs: Fetched, iso: string, k: string)
    requires k != "tournaments" && k != "logs"
    ensures Entry2(LogsResult(TournamentsResult(run, tournaments, iso), logs, iso).state, "data", k) == Entry2(run.state, "data", k)
  {
    TournamentsResultKeeps(run, tournaments, iso, k);
    LogsResultKeeps(TournamentsResult(run, tournaments, iso), logs, iso, k);
  }

  /** The steps after the training one keep `data.training` and `data.progress`. */
  lemma AfterTrainingKeeps(r1: Run, elo: Fetched, tournaments: Fetched, logs: Fetched, now: int, iso: string, k: string)
    requires k == "training" || k == "progress"
    ensures var r2 := EloResult(r1, elo, now, iso);
            var h := if r2.raised then r2 else LogsResult(TournamentsResult(r2, tournaments, iso), logs, iso);
            Entry2(h.state, "data", k) == Entry2(r1.state, "data", k)
  {
    EloResultKeeps(r1, elo, now, iso, k);
    LastStepsKeep(EloResult(r1, elo, now, iso), tournaments, logs, iso, k);
  }

  /** The training step, on success, stores the payload and the progress it implies. */
  lemma TrainingStep(run: Run, r: Fetched, now: int, iso: string)
    requires r.ok
    ensures Entry2(TrainingResult(run, r, now, iso).state, "data", "training") == r.data
    ensures Entry2(TrainingResult(run, r, now, iso).state, "data", "progress") == NextProgress(run.state, r.data)
  {
    ReceiveTrainingEffect(run.state, r.data, now, iso);
  }

  /** After a cycle whose training fetch succeeded, `data.training` is the payload and `data.progress` follows it. */
  lemma CycleTraining(run: Run, training: Fetched, elo: Fetched, tournaments: Fetched, logs: Fetched, now: int, iso: string)
    requires training.ok
    ensures var f := FinishRun(run, training, elo, tournaments, logs, now, iso);
            Entry2(f.state, "data", "training") == training.data
    ensures var f := FinishRun(run, training, elo, tournaments, logs, now, iso);
            Entry2(f.state, "data", "progress") == NextProgress(run.state, training.data)
  {
    TrainingStep(run, training, now, iso);
    var r1 := TrainingResult(run, training, now, iso);
    AfterTrainingKeeps(r1, elo, tournaments, logs, now, iso, "training");
    AfterTrainingKeeps(r1, elo, tournaments, logs, now, iso, "progress");
    ClearLoadingEffect(HandleResults(run, training, elo, tournaments, logs, now, iso));
  }

  /** The rating step, when it returns, stores the payload and the history built from the rows. */
  lemma EloStep(run: Run, training: Fetched, elo: Fetched, now: int, iso: string)
    requires elo.ok
    ensures var r2 := EloResult(TrainingResult(run, training, now, iso), elo, now, iso);
            !r2.raised ==> Entry2(r2.state, "data", "elo") == elo.data
                           && Entry2(r2.state, "data", "eloLiveHistory") == NewHistory(run.state, elo.data, now)
  {
    var r1 := TrainingResult(run, training, now, iso);
    TrainingResultKeeps(run, training, now, iso, "eloLiveHistory");
    assert LiveStart(r1.state) == LiveStart(run.state);
    if ReceiveElo(r1.state, elo.data, now, iso).Returned? {
      ReceiveEloEffect(r1.state, elo.data, now, iso);
    }
  }

  /** After a cycle whose rating fetch succeeded and did not throw, `data.elo` is the payload and the history takes its rows. */
  lemma CycleElo(run: Run, training: Fetched, elo: Fetched, tournaments: Fetched, logs: Fetched, now: int, iso: string)
    requires elo.ok
    ensures var f := FinishRun(run, training, elo, tournaments, logs, now, iso);
            !f.raised ==> Entry2(f.state, "data", "elo") == elo.data
    ensures var f := FinishRun(run, training, elo, tournaments, logs, now, iso);
            !f.raised ==> Entry2(f.state, "data", "eloLiveHistory") == NewHistory(run.state, elo.data, now)
  {
    EloStep(run, training, elo, now, iso);
    var r2 := EloResult(TrainingResult(run, training, now, iso), elo, now, iso);
    LastStepsKeep(r2, tournaments, logs, iso, "elo");
    LastStepsKeep(r2, tournaments, logs, iso, "eloLiveHistory");
    ClearLoadingEffect(HandleResults(run, training, elo, tournaments, logs, now, iso));
  }
}
