/**
 * The pure half of the client state layer: the application state as a
 * JavaScript object, `shallowMerge`, and the updater each action hands to
 * the store. An updater either returns the state it was given (the same
 * object: nothing to publish), returns a new object, or throws.
 */
module Updates {
  import opened Js

  /** The application state: a plain object. */
  type State = map<string, Value>

  const MaxEloPoints: nat := 60
  const MaxLogLines: nat := 1000

  /** What an updater returns: the very same state object, or a new one. */
  datatype Next = Same | Fresh(state: State)

  /** An updater's outcome: a returned state, or a TypeError it raised. */
  datatype Outcome = Returned(next: Next) | Raised

  /** `s.k`. */
  function Field(s: State, k: string): Value
  {
    if k in s then s[k] else Undefined
  }

  /** The entries of the plain object `s.g` (none when `s.g` is not a plain object). */
  function Group(s: State, g: string): map<string, Value>
  {
    if g in s && s[g].Obj? then s[g].fields else map[]
  }

  /** `s.g.k`. */
  function Entry2(s: State, g: string, k: string): Value
  {
    Prop(Field(s, g), k)
  }

  /** `s` and `t` agree on key `k`: both lack it or both hold the same value. */
  predicate Agree(s: State, t: State, k: string)
  {
    (k in s <==> k in t) && (k in s ==> s[k] == t[k])
  }

  /** `t` differs from `s` at most at the keys `ks`. */
  ghost predicate OnlyChanged(s: State, t: State, ks: set<string>)
  {
    forall k :: k !in ks ==> Agree(s, t, k)
  }

  /** The object literal `{ k: v }`. */
  function Single(k: string, v: Value): Value
  {
    Obj(map[k := v])
  }

  // ---------------------------------------------------------------------
  // shallowMerge

  /**
   * `shallowMerge(a, b)`: every key of `b` takes `b`'s value, except that
   * where both sides hold plain objects the result is their key-wise union
   * with `b` winning; keys only in `a` keep `a`'s value.
   */
  function ShallowMerge(a: State, b: State): (r: State)
    ensures r.Keys == a.Keys + b.Keys
    ensures forall k :: k in a && k !in b ==> r[k] == a[k]
    ensures forall k :: k in b && !(k in a && a[k].Obj? && b[k].Obj?) ==> r[k] == b[k]
    ensures forall k :: k in a && k in b && a[k].Obj? && b[k].Obj? ==>
              r[k].Obj? && r[k].fields.Keys == a[k].fields.Keys + b[k].fields.Keys
              && (forall j :: j in b[k].fields ==> r[k].fields[j] == b[k].fields[j])
              && (forall j :: j in a[k].fields && j !in b[k].fields ==> r[k].fields[j] == a[k].fields[j])
  {
    map k | k in a.Keys + b.Keys ::
      if k in b then
        (if k in a && IsPlainObject(a[k]) && IsPlainObject(b[k]) then Obj(a[k].fields + b[k].fields) else b[k])
      else a[k]
  }

  /** Merging a plain-object patch into a group gives the group's entries overridden by the patch's. */
  lemma MergeGroup(a: State, b: State, g: string)
    requires g in b && b[g].Obj?
    ensures g in ShallowMerge(a, b) && ShallowMerge(a, b)[g].Obj?
    ensures Group(ShallowMerge(a, b), g) == Group(a, g) + b[g].fields
  {
    var r := ShallowMerge(a, b);
    if g in a && a[g].Obj? {
      assert r[g] == Obj(a[g].fields + b[g].fields);
    } else {
      assert Group(a, g) + b[g].fields == b[g].fields;
    }
  }

  /** Overriding by a two-entry object is updating two entries. */
  lemma UnionPair(m: map<string, Value>, a: string, x: Value, b: string, y: Value)
    requires a != b
    ensures m + map[a := x, b := y] == m[a := x][b := y]
  {
  }

  /** Keys the patch does not mention are untouched. */
  lemma MergeOnlyChanges(a: State, b: State)
    ensures OnlyChanged(a, ShallowMerge(a, b), b.Keys)
  {
  }

  /** Merging the same patch twice is merging it once. */
  lemma MergeIdempotent(a: State, b: State)
    ensures ShallowMerge(ShallowMerge(a, b), b) == ShallowMerge(a, b)
  {
    var r := ShallowMerge(a, b);
    var r2 := ShallowMerge(r, b);
    forall k | k in r2.Keys
      ensures r2[k] == r[k]
    {
      if k in b && b[k].Obj? {
        assert r[k].Obj?;
        assert r2[k] == Obj(r[k].fields + b[k].fields);
        assert r[k].fields + b[k].fields == r[k].fields;
      }
    }
  }

  /** An empty patch changes no entry. */
  lemma MergeEmpty(a: State)
    ensures ShallowMerge(a, map[]) == a
  {
  }

  /**
   * Group `g` of `s` overridden by `entries`: what merging the patch
   * `{ g: entries }` does, written as the one update it is. Every updater
   * below is built from it; the `...Merges` lemmas show each one equal to
   * `shallowMerge` of the patch the action writes.
   */
  function MergeInto(s: State, g: string, entries: map<string, Value>): State
  {
    s[g := Obj(Group(s, g) + entries)]
  }

  /** A one-group patch: `MergeInto` is `shallowMerge`. */
  lemma MergeIntoIsShallowMerge(s: State, g: string, entries: map<string, Value>)
    ensures MergeInto(s, g, entries) == ShallowMerge(s, map[g := Obj(entries)])
  {
    var r := ShallowMerge(s, map[g := Obj(entries)]);
    if !(g in s && s[g].Obj?) {
      assert Group(s, g) + entries == entries;
      assert r[g] == Obj(entries);
    }
    assert forall k :: k in r ==> r[k] == MergeInto(s, g, entries)[k];
  }

  /** A two-group patch: merging is updating one group, then the other. */
  lemma MergeTwoIsShallowMerge(s: State, g1: string, e1: map<string, Value>, g2: string, e2: map<string, Value>)
    requires g1 != g2
    ensures MergeInto(MergeInto(s, g1, e1), g2, e2) == ShallowMerge(s, map[g1 := Obj(e1), g2 := Obj(e2)])
  {
    var r := ShallowMerge(s, map[g1 := Obj(e1), g2 := Obj(e2)]);
    var t := MergeInto(MergeInto(s, g1, e1), g2, e2);
    assert r.Keys == t.Keys;
    forall k | k in r
      ensures r[k] == t[k]
    {
      MergeTwoAt(s, g1, e1, g2, e2, k);
    }
  }

  lemma MergeTwoAt(s: State, g1: string, e1: map<string, Value>, g2: string, e2: map<string, Value>, k: string)
    requires g1 != g2 && k in s.Keys + {g1, g2}
    ensures var r := ShallowMerge(s, map[g1 := Obj(e1), g2 := Obj(e2)]);
            k in r && r[k] == MergeInto(MergeInto(s, g1, e1), g2, e2)[k]
  {
    var b := map[g1 := Obj(e1), g2 := Obj(e2)];
    var t1 := MergeInto(s, g1, e1);
    if k == g1 {
      MergeGroup(s, b, g1);
      assert MergeInto(t1, g2, e2)[g1] == t1[g1] == Obj(Group(s, g1) + e1);
    } else if k == g2 {
      MergeGroup(s, b, g2);
      assert Group(t1, g2) == Group(s, g2);
      assert MergeInto(t1, g2, e2)[g2] == Obj(Group(s, g2) + e2);
    } else {
      assert MergeInto(t1, g2, e2)[k] == t1[k] == s[k];
    }
  }

  /** `MergeInto` overrides the entries of group `g` and touches no other key. */
  lemma MergeIntoFacts(s: State, g: string, entries: map<string, Value>)
    ensures Field(MergeInto(s, g, entries), g).Obj?
    ensures Group(MergeInto(s, g, entries), g) == Group(s, g) + entries
    ensures OnlyChanged(s, MergeInto(s, g, entries), {g})
  {
  }

  /** Two `MergeInto`s on different groups override each group's entries and touch no other key. */
  lemma MergeTwoFacts(s: State, g1: string, e1: map<string, Value>, g2: string, e2: map<string, Value>)
    requires g1 != g2
    ensures var t := MergeInto(MergeInto(s, g1, e1), g2, e2);
            && Group(t, g1) == Group(s, g1) + e1
            && Group(t, g2) == Group(s, g2) + e2
            && OnlyChanged(s, t, {g1, g2})
  {
  }

  // ---------------------------------------------------------------------
  // Selectors of the active tab and heatmap phase

  /** `setActiveTab`: the same state when the tab is already active, else a copy with the new tab. */
  function SetActiveTab(s: State, tab: string): (r: Next)
    ensures r.Same? <==> Field(s, "activeTab") == Str(tab)
    ensures r.Fresh? ==> Field(r.state, "activeTab") == Str(tab) && OnlyChanged(s, r.state, {"activeTab"})
  {
    if Field(s, "activeTab") == Str(tab) then Same else Fresh(s["activeTab" := Str(tab)])
  }

  /** `setHeatmapPhase`: the same state when the phase is already selected, else a copy with the new phase. */
  function SetHeatmapPhase(s: State, phase: string): (r: Next)
    ensures r.Same? <==> Field(s, "activeHeatmapPhase") == Str(phase)
    ensures r.Fresh? ==>
              Field(r.state, "activeHeatmapPhase") == Str(phase) && OnlyChanged(s, r.state, {"activeHeatmapPhase"})
  {
    if Field(s, "activeHeatmapPhase") == Str(phase) then Same else Fresh(s["activeHeatmapPhase" := Str(phase)])
  }

  /** Selecting the tab that is selected again after any selection publishes nothing. */
  lemma SetActiveTabTwice(s: State, tab: string)
    ensures var r := SetActiveTab(s, tab);
            r.Fresh? ==> SetActiveTab(r.state, tab).Same?
  {
  }

  // ---------------------------------------------------------------------
  // Explanation panel and demo flag

  function ExplainPanel(open: bool, version: Value): Value
  {
    Obj(map["open" := Bool(open), "version" := version])
  }

  /** `openExplain`'s updater: `ui.explain` becomes `{open: true, version}`. */
  function OpenExplain(s: State, version: Value): State
  {
    MergeInto(s, "ui", map["explain" := ExplainPanel(true, version)])
  }

  /** `closeExplain`'s updater: `ui.explain` becomes `{open: false, version: null}`. */
  function CloseExplain(s: State): State
  {
    MergeInto(s, "ui", map["explain" := ExplainPanel(false, Null)])
  }

  lemma OpenExplainIsMerge(s: State, version: Value)
    ensures OpenExplain(s, version) == ShallowMerge(s, map["ui" := Single("explain", ExplainPanel(true, version))])
  {
    MergeIntoIsShallowMerge(s, "ui", map["explain" := ExplainPanel(true, version)]);
  }

  lemma CloseExplainIsMerge(s: State)
    ensures CloseExplain(s) == ShallowMerge(s, map["ui" := Single("explain", ExplainPanel(false, Null))])
  {
    MergeIntoIsShallowMerge(s, "ui", map["explain" := ExplainPanel(false, Null)]);
  }

  /** The panel record is replaced; the rest of `ui` and every other key are kept. */
  lemma ExplainEffect(s: State, version: Value)
    ensures Group(OpenExplain(s, version), "ui") == Group(s, "ui")["explain" := ExplainPanel(true, version)]
    ensures Group(CloseExplain(s), "ui") == Group(s, "ui")["explain" := ExplainPanel(false, Null)]
    ensures OnlyChanged(s, OpenExplain(s, version), {"ui"}) && OnlyChanged(s, CloseExplain(s), {"ui"})
  {
    MergeIntoFacts(s, "ui", map["explain" := ExplainPanel(true, version)]);
    MergeIntoFacts(s, "ui", map["explain" := ExplainPanel(false, Null)]);
  }

  /** Opening then closing the panel ends as closing alone would: closed, no version. */
  lemma OpenThenClose(s: State, version: Value)
    ensures CloseExplain(OpenExplain(s, version)) == CloseExplain(s)
    ensures Entry2(CloseExplain(s), "ui", "explain") == ExplainPanel(false, Null)
  {
    var o := OpenExplain(s, version);
    var closed := map["explain" := ExplainPanel(false, Null)];
    assert Group(o, "ui") == Group(s, "ui") + map["explain" := ExplainPanel(true, version)];
    assert Group(o, "ui") + closed == Group(s, "ui") + closed;
    assert o["ui" := Obj(Group(s, "ui") + closed)] == s["ui" := Obj(Group(s, "ui") + closed)];
  }

  /** `!!(s.ui && s.ui.demo && s.ui.demo.enabled)`. */
  predicate DemoEnabled(s: State)
  {
    Truthy(Prop(Entry2(s, "ui", "demo"), "enabled"))
  }

  /** `setDemoMode`'s updater: the same state when the flag already has the asked value. */
  function SetDemoMode(s: State, enabled: Value): (r: Next)
    ensures r.Same? <==> DemoEnabled(s) == Truthy(enabled)
    ensures r.Fresh? ==> DemoEnabled(r.state) == Truthy(enabled)
  {
    var on := Truthy(enabled);
    if DemoEnabled(s) == on then Same
    else Fresh(MergeInto(s, "ui", map["demo" := Single("enabled", Bool(on))]))
  }

  /** A change of the flag is `shallowMerge` of `{ui: {demo: {enabled}}}`. */
  lemma SetDemoModeIsMerge(s: State, enabled: Value)
    requires SetDemoMode(s, enabled).Fresh?
    ensures var patch := map["ui" := Single("demo", Single("enabled", Bool(Truthy(enabled))))];
            SetDemoMode(s, enabled).state == ShallowMerge(s, patch)
  {
    MergeIntoIsShallowMerge(s, "ui", map["demo" := Single("enabled", Bool(Truthy(enabled)))]);
  }

  /** A change of the flag replaces `ui.demo` and keeps everything else. */
  lemma SetDemoModeEffect(s: State, enabled: Value)
    requires SetDemoMode(s, enabled).Fresh?
    ensures Group(SetDemoMode(s, enabled).state, "ui") == Group(s, "ui")["demo" := Single("enabled", Bool(Truthy(enabled)))]
    ensures OnlyChanged(s, SetDemoMode(s, enabled).state, {"ui"})
  {
    MergeIntoFacts(s, "ui", map["demo" := Single("enabled", Bool(Truthy(enabled)))]);
  }

  /** Asking for the same demo setting twice publishes only once. */
  lemma SetDemoModeTwice(s: State, enabled: Value)
    requires SetDemoMode(s, enabled).Fresh?
    ensures SetDemoMode(SetDemoMode(s, enabled).state, enabled).Same?
  {
  }

  // ---------------------------------------------------------------------
  // Per-domain loading and error flags

  /** `_setLoading(key, value)`'s updater: `loading[key]` becomes `!!value`. */
  function WithLoading(s: State, key: string, value: Value): State
  {
    MergeInto(s, "loading", map[key := Bool(Truthy(value))])
  }

  /** `_setError(key, value)`'s updater: `error[key]` becomes `value || null`. */
  function WithError(s: State, key: string, value: Value): State
  {
    MergeInto(s, "error", map[key := if Truthy(value) then value else Null])
  }

  lemma WithLoadingIsMerge(s: State, key: string, value: Value)
    ensures WithLoading(s, key, value) == ShallowMerge(s, map["loading" := Single(key, Bool(Truthy(value)))])
  {
    MergeIntoIsShallowMerge(s, "loading", map[key := Bool(Truthy(value))]);
  }

  lemma WithErrorIsMerge(s: State, key: string, value: Value)
    ensures WithError(s, key, value) == ShallowMerge(s, map["error" := Single(key, if Truthy(value) then value else Null)])
  {
    MergeIntoIsShallowMerge(s, "error", map[key := if Truthy(value) then value else Null]);
  }

  /** One flag changes, nothing else. */
  lemma FlagsEffect(s: State, key: string, value: Value)
    ensures Group(WithLoading(s, key, value), "loading") == Group(s, "loading")[key := Bool(Truthy(value))]
    ensures Group(WithError(s, key, value), "error") == Group(s, "error")[key := if Truthy(value) then value else Null]
    ensures OnlyChanged(s, WithLoading(s, key, value), {"loading"}) && OnlyChanged(s, WithError(s, key, value), {"error"})
  {
    MergeIntoFacts(s, "loading", map[key := Bool(Truthy(value))]);
    MergeIntoFacts(s, "error", map[key := if Truthy(value) then value else Null]);
  }

  /** A falsy error value (`""`, `0`, `false`, `undefined`) is stored as `null`. */
  lemma FalsyErrorIsNull(s: State, key: string, value: Value)
    requires !Truthy(value)
    ensures Entry2(WithError(s, key, value), "error", key) == Null
  {
  }

  // ---------------------------------------------------------------------
  // Training status and progress

  /** `typeof v.k === "number" ? v.k : absent`. */
  function NumProp(v: Value, k: string): Option<real>
  {
    match Prop(v, k)
    case Num(x) => Some(x)
    case _ => None
  }

  /** The value of `v.k` when it is a positive number. */
  function PositiveProp(v: Value, k: string): (r: Option<real>)
    ensures r.Some? <==> NumProp(v, k).Some? && NumProp(v, k).value > 0.0
    ensures r.Some? ==> r == NumProp(v, k)
  {
    var n := NumProp(v, k);
    if n.Some? && n.value > 0.0 then n else None
  }

  /** The target game count: the first positive of `target_games`, `total_games`, `max_games`, `target`. */
  function TargetTotal(payload: Value): (r: Option<real>)
    ensures r.Some? ==> r.value > 0.0
  {
    if PositiveProp(payload, "target_games").Some? then PositiveProp(payload, "target_games")
    else if PositiveProp(payload, "total_games").Some? then PositiveProp(payload, "total_games")
    else if PositiveProp(payload, "max_games").Some? then PositiveProp(payload, "max_games")
    else if PositiveProp(payload, "target").Some? then PositiveProp(payload, "target")
    else None
  }

  const TotalAliases: seq<string> := ["target_games", "total_games", "max_games", "target"]

  /** Reference definition: the first of `names` whose value in `v` is a positive number. */
  function FirstPositive(v: Value, names: seq<string>): (r: Option<real>)
    ensures r.Some? ==> r.value > 0.0
    ensures r.Some? ==> exists i :: 0 <= i < |names| && NumProp(v, names[i]) == r &&
                         forall j :: 0 <= j < i ==> PositiveProp(v, names[j]).None?
    ensures r.None? ==> forall i :: 0 <= i < |names| ==> PositiveProp(v, names[i]).None?
  {
    if names == [] then None
    else if PositiveProp(v, names[0]).Some? then
      assert NumProp(v, names[0]) == PositiveProp(v, names[0]);
      PositiveProp(v, names[0])
    else
      var rest := FirstPositive(v, names[1..]);
      assert forall i :: 1 <= i < |names| ==> names[i] == names[1..][i - 1];
      if rest.Some? then
        var i' :| 0 <= i' < |names[1..]| && NumProp(v, names[1..][i']) == rest &&
                  forall j :: 0 <= j < i' ==> PositiveProp(v, names[1..][j]).None?;
        assert forall j :: 0 <= j < i' + 1 ==> PositiveProp(v, names[j]).None?;
        rest
      else rest
  }

  /** The target total is exactly the first positive alias, in the fixed priority order. */
  lemma TargetTotalIsFirstPositive(payload: Value)
    ensures TargetTotal(payload) == FirstPositive(payload, TotalAliases)
  {
    var n0 := TotalAliases;
    var n1: seq<string> := ["total_games", "max_games", "target"];
    var n2: seq<string> := ["max_games", "target"];
    var n3: seq<string> := ["target"];
    assert n0[1..] == n1 && n1[1..] == n2 && n2[1..] == n3 && n3[1..] == [];
    assert FirstPositive(payload, n3) == (if PositiveProp(payload, "target").Some? then PositiveProp(payload, "target") else None);
    assert FirstPositive(payload, n2) ==
             (if PositiveProp(payload, "max_games").Some? then PositiveProp(payload, "max_games") else FirstPositive(payload, n3));
    assert FirstPositive(payload, n1) ==
             (if PositiveProp(payload, "total_games").Some? then PositiveProp(payload, "total_games") else FirstPositive(payload, n2));
    assert FirstPositive(payload, n0) ==
             (if PositiveProp(payload, "target_games").Some? then PositiveProp(payload, "target_games") else FirstPositive(payload, n1));
  }

  /** `Math.max(0, Math.min(1, p))`. */
  function Clamp01(p: real): (r: real)
    ensures 0.0 <= r <= 1.0
    ensures 0.0 <= p <= 1.0 ==> r == p
    ensures p > 1.0 ==> r == 1.0
    ensures p < 0.0 ==> r == 0.0
  {
    if p > 1.0 then 1.0 else if p < 0.0 then 0.0 else p
  }

  /**
   * The completed fraction a training payload reports, if any: a numeric
   * `progress` (read as a percentage when above 1), else `games` over the
   * target total.
   */
  function PayloadPercent(payload: Value): (r: Option<real>)
    ensures r.Some? ==> 0.0 <= r.value <= 1.0
    ensures NumProp(payload, "progress").Some? ==>
              var x := NumProp(payload, "progress").value;
              r == Some(Clamp01(if x > 1.0 then x / 100.0 else x))
    ensures NumProp(payload, "progress").None? ==>
              r == (if NumProp(payload, "games").Some? && TargetTotal(payload).Some?
                    then Some(Clamp01(NumProp(payload, "games").value / TargetTotal(payload).value))
                    else None)
  {
    match NumProp(payload, "progress")
    case Some(x) => Some(Clamp01(if x > 1.0 then x / 100.0 else x))
    case None =>
      match NumProp(payload, "games")
      case Some(g) =>
        (match TargetTotal(payload)
         case Some(total) => Some(Clamp01(g / total))
         case None => None)
      case None => None
  }

  function ProgressRecord(p: real): Value
  {
    Obj(map["percent" := Num(p), "text" := Null])
  }

  const NoProgress: Value := Obj(map["percent" := Null, "text" := Null])

  /** `s.data.progress`. */
  function Progress(s: State): Value
  {
    Entry2(s, "data", "progress")
  }

  /** `(s.data && s.data.progress) ? s.data.progress : {percent: null, text: null}`. */
  function CurrentProgress(s: State): Value
  {
    if Truthy(Progress(s)) then Progress(s) else NoProgress
  }

  /** The progress record `receiveTraining` stores. */
  function NextProgress(s: State, payload: Value): (r: Value)
    ensures PayloadPercent(payload).None? ==> r == CurrentProgress(s)
    ensures PayloadPercent(payload).Some? ==>
              r == ProgressRecord(PayloadPercent(payload).value) && 0.0 <= PayloadPercent(payload).value <= 1.0
  {
    match PayloadPercent(payload)
    case Some(p) => ProgressRecord(p)
    case None => CurrentProgress(s)
  }

  /** `percent` is `null` or a number in [0, 1]. */
  predicate PercentInRange(v: Value)
  {
    var p := Prop(v, "percent");
    p.Null? || (p.Num? && 0.0 <= p.x <= 1.0)
  }

  /** `s.meta.sessionStart.training` when truthy, else `null`. */
  function SessionStart(s: State): Value
  {
    var v := Prop(Entry2(s, "meta", "sessionStart"), "training");
    if Truthy(v) then v else Null
  }

  /** The entries `receiveTraining` writes into `data`. */
  function TrainingData(s: State, payload: Value): map<string, Value>
  {
    map["training" := payload, "progress" := NextProgress(s, payload)]
  }

  /** The entries `receiveTraining` writes into `meta`. */
  function TrainingMeta(s: State, now: int, iso: string): map<string, Value>
  {
    map["sessionStart" := Single("training", Start(s, now)), "lastUpdated" := Single("training", Str(iso))]
  }

  /**
   * `receiveTraining(payload)`'s updater at clock reading `now` (milliseconds)
   * and ISO time `iso`: stores the payload and the derived progress under
   * `data`, and under `meta` the session start (kept once set) and a
   * `lastUpdated` object holding only the training time.
   */
  function ReceiveTraining(s: State, payload: Value, now: int, iso: string): State
  {
    MergeInto(MergeInto(s, "data", TrainingData(s, payload)), "meta", TrainingMeta(s, now, iso))
  }

  /** It is `shallowMerge` of `{data: {training, progress}, meta: {sessionStart, lastUpdated}}`. */
  lemma ReceiveTrainingIsMerge(s: State, payload: Value, now: int, iso: string)
    ensures var patch := map["data" := Obj(TrainingData(s, payload)), "meta" := Obj(TrainingMeta(s, now, iso))];
            ReceiveTraining(s, payload, now, iso) == ShallowMerge(s, patch)
  {
    MergeTwoIsShallowMerge(s, "data", TrainingData(s, payload), "meta", TrainingMeta(s, now, iso));
  }

  /** The two entries of `data` and of `meta` are replaced; nothing else changes. */
  lemma ReceiveTrainingEffect(s: State, payload: Value, now: int, iso: string)
    ensures Group(ReceiveTraining(s, payload, now, iso), "data") ==
              Group(s, "data")["training" := payload]["progress" := NextProgress(s, payload)]
    ensures Group(ReceiveTraining(s, payload, now, iso), "meta") ==
              Group(s, "meta")["sessionStart" := Single("training", Start(s, now))]
                              ["lastUpdated" := Single("training", Str(iso))]
    ensures OnlyChanged(s, ReceiveTraining(s, payload, now, iso), {"data", "meta"})
  {
    MergeTwoFacts(s, "data", TrainingData(s, payload), "meta", TrainingMeta(s, now, iso));
    UnionPair(Group(s, "data"), "training", payload, "progress", NextProgress(s, payload));
    UnionPair(Group(s, "meta"), "sessionStart", Single("training", Start(s, now)),
              "lastUpdated", Single("training", Str(iso)));
  }

  /** `sessionStart || Date.now()`. */
  function Start(s: State, now: int): Value
  {
    if Truthy(SessionStart(s)) then SessionStart(s) else Num(now as real)
  }

  /** After receiving training data the progress percent is null or within [0, 1], if it was before. */
  lemma ReceiveTrainingPercentInRange(s: State, payload: Value, now: int, iso: string)
    requires !Truthy(Progress(s)) || PercentInRange(Progress(s))
    ensures PercentInRange(Progress(ReceiveTraining(s, payload, now, iso)))
  {
    var r := ReceiveTraining(s, payload, now, iso);
    assert Progress(r) == NextProgress(s, payload);
  }

  /** A payload's numeric progress above 1 is a percentage: 150 is clamped to 1.0, 57 is 0.57. */
  lemma ProgressPercentageScale()
    ensures PayloadPercent(Single("progress", Num(150.0))) == Some(1.0)
    ensures PayloadPercent(Single("progress", Num(57.0))) == Some(0.57)
    ensures PayloadPercent(Single("progress", Num(0.4))) == Some(0.4)
  {
  }

  /** The session start after receiving training data. */
  lemma ReceiveTrainingSessionStart(s: State, payload: Value, now: int, iso: string)
    ensures SessionStart(ReceiveTraining(s, payload, now, iso)) ==
              if Truthy(SessionStart(s)) then SessionStart(s)
              else if now != 0 then Num(now as real) else Null
  {
    var r := ReceiveTraining(s, payload, now, iso);
    assert Entry2(r, "meta", "sessionStart") == Single("training", Start(s, now));
  }

  /** One poll of training data: the payload and the clock readings. */
  datatype TrainingTick = TrainingTick(payload: Value, now: int, iso: string)

  /** The state after receiving each tick's training data in turn. */
  function ReceiveTrainingAll(s: State, ticks: seq<TrainingTick>): State
    decreases |ticks|
  {
    if ticks == [] then s
    else
      var t := ticks[|ticks| - 1];
      ReceiveTraining(ReceiveTrainingAll(s, ticks[..|ticks| - 1]), t.payload, t.now, t.iso)
  }

  /** Once the session start is set, no later training data changes it. */
  lemma {:induction false} SessionStartKept(s: State, ticks: seq<TrainingTick>)
    requires Truthy(SessionStart(s))
    ensures SessionStart(ReceiveTrainingAll(s, ticks)) == SessionStart(s)
    decreases |ticks|
  {
    if ticks != [] {
      var t := ticks[|ticks| - 1];
      SessionStartKept(s, ticks[..|ticks| - 1]);
      ReceiveTrainingSessionStart(ReceiveTrainingAll(s, ticks[..|ticks| - 1]), t.payload, t.now, t.iso);
    }
  }

  // ---------------------------------------------------------------------
  // Rating history

  /** `xs.slice(-n)`: the last `n` elements (all of them when there are fewer). */
  function Tail<T>(xs: seq<T>, n: nat): (r: seq<T>)
    requires n > 0
    ensures |r| == (if |xs| <= n then |xs| else n)
    ensures r == xs[|xs| - |r|..]
  {
    if |xs| <= n then xs else xs[|xs| - n..]
  }

  /** Keeping the last `n` before appending more does not change the last `n` after. */
  lemma TailAppend<T>(x: seq<T>, y: seq<T>, n: nat)
    requires n > 0
    ensures Tail(Tail(x, n) + y, n) == Tail(x + y, n)
  {
    if |x| > n {
      var t := Tail(x, n);
      assert t + y == (x + y)[|x| - n..];
    }
  }

  /** The version key of a `top5` row (`r && r.version`, as a property key), when truthy. */
  function RowKey(r: Value): Option<string>
  {
    var key := if Truthy(r) then Prop(r, "version") else r;
    if Truthy(key) then Some(KeyString(key)) else None
  }

  /** One end of a row's confidence interval, defaulting to its rating. */
  function Bound(r: Value, i: nat): Value
  {
    var c := Prop(r, "confidence");
    if Truthy(c) && !Member(c, i).Null? && !Member(c, i).Undefined? then Member(c, i) else Prop(r, "elo")
  }

  /** The history point recorded for a row at clock reading `now`. */
  function Point(r: Value, now: int): Value
  {
    Obj(map["elo" := Prop(r, "elo"), "low" := Bound(r, 0), "high" := Bound(r, 1), "t" := Num(now as real)])
  }

  /** Without a confidence interval a point's low and high are its rating. */
  lemma PointDefaultsToRating(r: Value, now: int)
    requires !Truthy(Prop(r, "confidence"))
    ensures Prop(Point(r, now), "low") == Prop(r, "elo") == Prop(Point(r, now), "high")
  {
  }

  /** The series stored for version `k` (`Array.isArray(live[k]) ? live[k] : []`). */
  function Series(live: map<string, Value>, k: string): seq<Value>
  {
    if k in live && live[k].Arr? then live[k].items else []
  }

  /** One turn of the `forEach` over `top5`. */
  function AddPoint(live: map<string, Value>, r: Value, now: int): map<string, Value>
  {
    match RowKey(r)
    case None => live
    case Some(k) => live[k := Arr(Tail(Series(live, k) + [Point(r, now)], MaxEloPoints))]
  }

  /** What one turn does to the series of version `k`. */
  lemma AddPointAt(live: map<string, Value>, r: Value, now: int, k: string)
    ensures RowKey(r) == Some(k) ==>
              k in AddPoint(live, r, now)
              && AddPoint(live, r, now)[k] == Arr(Tail(Series(live, k) + [Point(r, now)], MaxEloPoints))
    ensures RowKey(r) != Some(k) ==>
              (k in AddPoint(live, r, now) <==> k in live)
              && (k in live ==> AddPoint(live, r, now)[k] == live[k])
  {
  }

  /** The history after recording a point for every row of `rows` in order. */
  function LiveAfter(live: map<string, Value>, rows: seq<Value>, now: int): map<string, Value>
    decreases |rows|
  {
    if rows == [] then live
    else AddPoint(LiveAfter(live, rows[..|rows| - 1], now), rows[|rows| - 1], now)
  }

  /**
   * The `forEach` of `receiveElo` over a copy of the history, as the loop it
   * is; it computes `LiveAfter`.
   */
  method FillLive(live0: map<string, Value>, rows: seq<Value>, now: int) returns (live: map<string, Value>)
    ensures live == LiveAfter(live0, rows, now)
  {
    live := live0;
    for i := 0 to |rows|
      invariant live == LiveAfter(live0, rows[..i], now)
    {
      assert rows[..i + 1][..i] == rows[..i];
      var r := rows[i];
      var key := if Truthy(r) then Prop(r, "version") else r;
      if !Truthy(key) {
        continue;
      }
      var k := KeyString(key);
      var prev := if k in live && live[k].Arr? then live[k].items else [];
      var point := Obj(map["elo" := Prop(r, "elo"), "low" := Bound(r, 0), "high" := Bound(r, 1),
                           "t" := Num(now as real)]);
      live := live[k := Arr(Tail(prev + [point], MaxEloPoints))];
    }
    assert rows[..|rows|] == rows;
  }

  /** The points `rows` contribute to version `k`, in order. */
  function PointsFor(rows: seq<Value>, k: string, now: int): seq<Value>
    decreases |rows|
  {
    if rows == [] then []
    else
      var last := rows[|rows| - 1];
      PointsFor(rows[..|rows| - 1], k, now) + (if RowKey(last) == Some(k) then [Point(last, now)] else [])
  }

  ghost predicate Mentions(rows: seq<Value>, k: string)
  {
    exists i :: 0 <= i < |rows| && RowKey(rows[i]) == Some(k)
  }

  /** Some row names `k` exactly when an earlier row or the last one does. */
  lemma MentionsSplit(rows: seq<Value>, k: string)
    requires rows != []
    ensures Mentions(rows, k) <==> Mentions(rows[..|rows| - 1], k) || RowKey(rows[|rows| - 1]) == Some(k)
  {
    var pre := rows[..|rows| - 1];
    if Mentions(rows, k) && RowKey(rows[|rows| - 1]) != Some(k) {
      var i :| 0 <= i < |rows| && RowKey(rows[i]) == Some(k);
      assert pre[i] == rows[i];
    }
    if Mentions(pre, k) {
      var i :| 0 <= i < |pre| && RowKey(pre[i]) == Some(k);
      assert rows[i] == pre[i];
    }
  }

  /** Versions no row names keep their history untouched. */
  lemma {:induction false} LiveAfterUntouched(live: map<string, Value>, rows: seq<Value>, now: int, k: string)
    requires !Mentions(rows, k)
    ensures (k in LiveAfter(live, rows, now) <==> k in live)
    ensures k in live ==> LiveAfter(live, rows, now)[k] == live[k]
    ensures PointsFor(rows, k, now) == []
    decreases |rows|
  {
    if rows != [] {
      var pre := rows[..|rows| - 1];
      MentionsSplit(rows, k);
      LiveAfterUntouched(live, pre, now, k);
    }
  }

  /**
   * A version some row names ends with the last 60 of its old points
   * followed by one new point per row naming it.
   */
  lemma {:induction false} LiveAfterSeries(live: map<string, Value>, rows: seq<Value>, now: int, k: string)
    requires Mentions(rows, k)
    ensures k in LiveAfter(live, rows, now)
    ensures LiveAfter(live, rows, now)[k] == Arr(Tail(Series(live, k) + PointsFor(rows, k, now), MaxEloPoints))
    decreases |rows|
  {
    var pre := rows[..|rows| - 1];
    var last := rows[|rows| - 1];
    var mid := LiveAfter(live, pre, now);
    assert LiveAfter(live, rows, now) == AddPoint(mid, last, now);
    AddPointAt(mid, last, now, k);
    if Mentions(pre, k) {
      LiveAfterSeries(live, pre, now, k);
      if RowKey(last) == Some(k) {
        TailAppend(Series(live, k) + PointsFor(pre, k, now), [Point(last, now)], MaxEloPoints);
        assert Series(live, k) + PointsFor(rows, k, now)
            == (Series(live, k) + PointsFor(pre, k, now)) + [Point(last, now)];
      } else {
        assert PointsFor(rows, k, now) == PointsFor(pre, k, now);
      }
    } else {
      LiveAfterUntouched(live, pre, now, k);
      MentionsSplit(rows, k);
      assert Series(mid, k) == Series(live, k);
      assert PointsFor(rows, k, now) == [Point(last, now)];
    }
  }

  /** The last row naming a version supplies that version's newest point. */
  lemma LiveAfterEndsWithLatest(live: map<string, Value>, rows: seq<Value>, now: int)
    requires rows != [] && RowKey(rows[|rows| - 1]).Some?
    ensures var k := RowKey(rows[|rows| - 1]).value;
            var hist := LiveAfter(live, rows, now)[k].items;
            hist != [] && hist[|hist| - 1] == Point(rows[|rows| - 1], now)
  {
  }

  /** Every history series within the cap. */
  ghost predicate SeriesBounded(live: map<string, Value>)
  {
    forall k :: k in live && live[k].Arr? ==> |live[k].items| <= MaxEloPoints
  }

  /** Recording points never lets a series exceed 60 points. */
  lemma {:induction false} LiveAfterBounded(live: map<string, Value>, rows: seq<Value>, now: int)
    requires SeriesBounded(live)
    ensures SeriesBounded(LiveAfter(live, rows, now))
    decreases |rows|
  {
    if rows != [] {
      LiveAfterBounded(live, rows[..|rows| - 1], now);
    }
  }

  /** `{ ...(s.data.eloLiveHistory || {}) }`. */
  function LiveStart(s: State): map<string, Value>
  {
    var h := Entry2(s, "data", "eloLiveHistory");
    Spread(if Truthy(h) then h else Obj(map[]))
  }

  /**
   * The copy starts as the stored history's own properties: all of them for
   * an object, none when the history is missing or falsy, and one per index
   * for an array.
   */
  lemma LiveStartCopies(s: State)
    ensures Entry2(s, "data", "eloLiveHistory").Obj? ==> LiveStart(s) == Entry2(s, "data", "eloLiveHistory").fields
    ensures !Truthy(Entry2(s, "data", "eloLiveHistory")) ==> LiveStart(s) == map[]
    ensures Entry2(s, "data", "eloLiveHistory").Arr? ==>
              forall i :: 0 <= i < |Entry2(s, "data", "eloLiveHistory").items| ==> NatToString(i) in LiveStart(s)
  {
  }

  /** `Array.isArray(payload && payload.top5) ? payload.top5 : []`. */
  function EloRows(payload: Value): seq<Value>
  {
    var top := Prop(payload, "top5");
    if top.Arr? then top.items else []
  }

  /** `s.data.eloLiveHistory`. */
  function History(s: State): Value
  {
    Entry2(s, "data", "eloLiveHistory")
  }

  /** The entries `receiveElo` writes into `data`. */
  function EloData(s: State, payload: Value, now: int): map<string, Value>
  {
    map["elo" := payload, "eloLiveHistory" := NewHistory(s, payload, now)]
  }

  /**
   * `receiveElo(payload)`'s updater: stores the payload and the extended
   * history under `data` and a `lastUpdated` object holding only the rating
   * time; reading `s.data.eloLiveHistory` throws when `s.data` is null or
   * undefined.
   */
  function ReceiveElo(s: State, payload: Value, now: int, iso: string): (r: Outcome)
    ensures r.Raised? <==> Field(s, "data").Undefined? || Field(s, "data").Null?
    ensures r.Returned? ==> r.next.Fresh?
  {
    var data := Field(s, "data");
    if data.Undefined? || data.Null? then Raised
    else Returned(Fresh(MergeInto(MergeInto(s, "data", EloData(s, payload, now)), "meta",
                                  map["lastUpdated" := Single("elo", Str(iso))])))
  }

  /** When it returns, it is `shallowMerge` of `{data: {elo, eloLiveHistory}, meta: {lastUpdated}}`. */
  lemma ReceiveEloIsMerge(s: State, payload: Value, now: int, iso: string)
    requires ReceiveElo(s, payload, now, iso).Returned?
    ensures var patch := map["data" := Obj(EloData(s, payload, now)),
                             "meta" := Single("lastUpdated", Single("elo", Str(iso)))];
            ReceiveElo(s, payload, now, iso).next.state == ShallowMerge(s, patch)
  {
    MergeTwoIsShallowMerge(s, "data", EloData(s, payload, now), "meta", map["lastUpdated" := Single("elo", Str(iso))]);
  }

  /** When it returns, the two entries of `data` and `meta.lastUpdated` are replaced; nothing else changes. */
  lemma ReceiveEloEffect(s: State, payload: Value, now: int, iso: string)
    requires ReceiveElo(s, payload, now, iso).Returned?
    ensures var r := ReceiveElo(s, payload, now, iso).next.state;
            && Group(r, "data") == Group(s, "data")["elo" := payload]["eloLiveHistory" := NewHistory(s, payload, now)]
            && Group(r, "meta") == Group(s, "meta")["lastUpdated" := Single("elo", Str(iso))]
            && OnlyChanged(s, r, {"data", "meta"})
  {
    MergeTwoFacts(s, "data", EloData(s, payload, now), "meta", map["lastUpdated" := Single("elo", Str(iso))]);
    UnionPair(Group(s, "data"), "elo", payload, "eloLiveHistory", NewHistory(s, payload, now));
  }

  /** The history `receiveElo` stores: a point per `top5` row added to a copy of the old one. */
  function NewHistory(s: State, payload: Value, now: int): Value
  {
    Obj(LiveAfter(LiveStart(s), EloRows(payload), now))
  }

  /** After any rating update every stored series is within 60 points, if it was before. */
  lemma ReceiveEloKeepsSeriesBounded(s: State, payload: Value, now: int, iso: string)
    requires History(s).Obj? && SeriesBounded(History(s).fields)
    requires ReceiveElo(s, payload, now, iso).Returned?
    ensures History(ReceiveElo(s, payload, now, iso).next.state).Obj?
    ensures SeriesBounded(History(ReceiveElo(s, payload, now, iso).next.state).fields)
  {
    LiveAfterBounded(LiveStart(s), EloRows(payload), now);
    assert History(ReceiveElo(s, payload, now, iso).next.state) == NewHistory(s, payload, now);
  }

  /**
   * One merge level only: after a rating update `meta.lastUpdated` holds the
   * rating time alone, whatever other domains it held before.
   */
  lemma LastUpdatedHoldsOnlyLatest(s: State, payload: Value, now: int, iso: string)
    requires ReceiveElo(s, payload, now, iso).Returned?
    ensures Entry2(ReceiveElo(s, payload, now, iso).next.state, "meta", "lastUpdated") == Single("elo", Str(iso))
  {
  }

  // ---------------------------------------------------------------------
  // Optional domains and the log buffer

  /** `receiveOptional(key, payload)`'s updater: `data[key]` and a `lastUpdated` holding only `key`'s time. */
  function ReceiveOptional(s: State, key: string, payload: Value, iso: string): State
  {
    MergeInto(MergeInto(s, "data", map[key := payload]), "meta", map["lastUpdated" := Single(key, Str(iso))])
  }

  /** It is `shallowMerge` of `{data: {[key]: payload}, meta: {lastUpdated: {[key]: iso}}}`. */
  lemma ReceiveOptionalIsMerge(s: State, key: string, payload: Value, iso: string)
    ensures var patch := map["data" := Single(key, payload), "meta" := Single("lastUpdated", Single(key, Str(iso)))];
            ReceiveOptional(s, key, payload, iso) == ShallowMerge(s, patch)
  {
    MergeTwoIsShallowMerge(s, "data", map[key := payload], "meta", map["lastUpdated" := Single(key, Str(iso))]);
  }

  /** `data[key]` and `meta.lastUpdated` are replaced; nothing else changes. */
  lemma ReceiveOptionalEffect(s: State, key: string, payload: Value, iso: string)
    ensures Group(ReceiveOptional(s, key, payload, iso), "data") == Group(s, "data")[key := payload]
    ensures Group(ReceiveOptional(s, key, payload, iso), "meta") == Group(s, "meta")["lastUpdated" := Single(key, Str(iso))]
    ensures OnlyChanged(s, ReceiveOptional(s, key, payload, iso), {"data", "meta"})
  {
    MergeTwoFacts(s, "data", map[key := payload], "meta", map["lastUpdated" := Single(key, Str(iso))]);
  }

  /** `Array.isArray(s.data && s.data.logs) ? s.data.logs : []`. */
  function LogBuffer(s: State): seq<Value>
  {
    var logs := Entry2(s, "data", "logs");
    if logs.Arr? then logs.items else []
  }

  /**
   * `appendLogLines`'s updater: the buffer becomes the last 1000 lines of the
   * old buffer followed by `list`.
   */
  function AppendLogLines(s: State, list: seq<Value>, iso: string): State
  {
    MergeInto(MergeInto(s, "data", map["logs" := Arr(Tail(LogBuffer(s) + list, MaxLogLines))]), "meta",
              map["lastUpdated" := Single("logs", Str(iso))])
  }

  /** It is `shallowMerge` of `{data: {logs}, meta: {lastUpdated: {logs: iso}}}`. */
  lemma AppendLogLinesIsMerge(s: State, list: seq<Value>, iso: string)
    ensures var patch := map["data" := Single("logs", Arr(Tail(LogBuffer(s) + list, MaxLogLines))),
                             "meta" := Single("lastUpdated", Single("logs", Str(iso)))];
            AppendLogLines(s, list, iso) == ShallowMerge(s, patch)
  {
    MergeTwoIsShallowMerge(s, "data", map["logs" := Arr(Tail(LogBuffer(s) + list, MaxLogLines))], "meta",
                           map["lastUpdated" := Single("logs", Str(iso))]);
  }

  /** `data.logs` and `meta.lastUpdated` are replaced; nothing else changes. */
  lemma AppendLogLinesEffect(s: State, list: seq<Value>, iso: string)
    ensures Group(AppendLogLines(s, list, iso), "data") == Group(s, "data")["logs" := Arr(Tail(LogBuffer(s) + list, MaxLogLines))]
    ensures Group(AppendLogLines(s, list, iso), "meta") == Group(s, "meta")["lastUpdated" := Single("logs", Str(iso))]
    ensures OnlyChanged(s, AppendLogLines(s, list, iso), {"data", "meta"})
  {
    MergeTwoFacts(s, "data", map["logs" := Arr(Tail(LogBuffer(s) + list, MaxLogLines))], "meta",
                  map["lastUpdated" := Single("logs", Str(iso))]);
  }

  /** The buffer keeps the newest lines, at most 1000 of them. */
  lemma AppendLogLinesKeepsNewest(s: State, list: seq<Value>, iso: string)
    ensures var all := LogBuffer(s) + list;
            var buf := LogBuffer(AppendLogLines(s, list, iso));
            buf == all[|all| - |buf|..] && |buf| == (if |all| <= MaxLogLines then |all| else MaxLogLines)
  {
    assert LogBuffer(AppendLogLines(s, list, iso)) == Tail(LogBuffer(s) + list, MaxLogLines);
  }

  /** Two appends leave the buffer one append of both lists would. */
  lemma AppendLogLinesTwice(s: State, a: seq<Value>, b: seq<Value>, iso1: string, iso2: string)
    ensures LogBuffer(AppendLogLines(AppendLogLines(s, a, iso1), b, iso2)) == Tail(LogBuffer(s) + a + b, MaxLogLines)
  {
    var s1 := AppendLogLines(s, a, iso1);
    assert LogBuffer(s1) == Tail(LogBuffer(s) + a, MaxLogLines);
    TailAppend(LogBuffer(s) + a, b, MaxLogLines);
  }

  /** `setProgress(progress)`'s updater: `data.progress` becomes `progress`. */
  function SetProgress(s: State, progress: Value): State
  {
    MergeInto(s, "data", map["progress" := progress])
  }

  /** It is `shallowMerge` of `{data: {progress}}`. */
  lemma SetProgressIsMerge(s: State, progress: Value)
    ensures SetProgress(s, progress) == ShallowMerge(s, map["data" := Single("progress", progress)])
  {
    MergeIntoIsShallowMerge(s, "data", map["progress" := progress]);
  }

  /** `data.progress` is replaced; the rest of `data` and every other key are kept. */
  lemma SetProgressEffect(s: State, progress: Value)
    ensures Group(SetProgress(s, progress), "data") == Group(s, "data")["progress" := progress]
    ensures OnlyChanged(s, SetProgress(s, progress), {"data"})
  {
    MergeIntoFacts(s, "data", map["progress" := progress]);
  }

}
