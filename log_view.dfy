/**
 * The pure helpers of the dashboard view: tab and heatmap-phase
 * validation, the session-duration label, and the classification,
 * filtering, text, de-duplication key and render window of log lines.
 */
module LogView {
  import opened Js
  import opened Ascii

  // ---------------------------------------------------------------------
  // Tabs and heatmap phases

  const Tabs: seq<string> := ["overview", "elo", "heatmap", "tournaments", "logs"]
  const Phases: seq<string> := ["opening", "midgame", "endgame"]

  /** `normalizeTab`: a known tab name is kept, anything else opens the overview. */
  function NormalizeTab(t: Value): (r: string)
    ensures r in Tabs
    ensures t.Str? && t.s in Tabs ==> r == t.s
    ensures !(t.Str? && t.s in Tabs) ==> r == "overview"
  {
    if t.Str? && t.s in Tabs then t.s else "overview"
  }

  /** `normalizePhase`: a known phase is kept, anything else is the opening. */
  function NormalizePhase(p: Value): (r: string)
    ensures r in Phases
    ensures p.Str? && p.s in Phases ==> r == p.s
    ensures !(p.Str? && p.s in Phases) ==> r == "opening"
  {
    if p.Str? && p.s in Phases then p.s else "opening"
  }

  lemma NormalizeTabIdempotent(t: Value)
    ensures NormalizeTab(Str(NormalizeTab(t))) == NormalizeTab(t)
  {
  }

  lemma NormalizePhaseIdempotent(p: Value)
    ensures NormalizePhase(Str(NormalizePhase(p))) == NormalizePhase(p)
  {
  }

  // ---------------------------------------------------------------------
  // Session duration

  const MsPerMinute: real := 60000.0

  /** Whole minutes in a non-negative number of milliseconds (`Math.floor(ms / 60000)`). */
  function TotalMinutes(ms: real): (m: nat)
    requires ms >= 0.0
    ensures (m as real) * MsPerMinute <= ms < ((m + 1) as real) * MsPerMinute
  {
    (ms / MsPerMinute).Floor
  }

  /**
   * `formatDuration`: "—" for anything but a non-negative number, else
   * "{m}m" under an hour and "{h}h {m}m" from an hour on.
   */
  function FormatDuration(ms: Value): (r: string)
    ensures !(ms.Num? && ms.x >= 0.0) ==> r == "—"
    ensures ms.Num? && 0.0 <= ms.x < 3600000.0 ==>
              TotalMinutes(ms.x) < 60 && r == NatToString(TotalMinutes(ms.x)) + "m"
    ensures ms.Num? && ms.x >= 3600000.0 ==>
              var t := TotalMinutes(ms.x);
              t / 60 >= 1 && t % 60 < 60 && 60 * (t / 60) + t % 60 == t &&
              r == NatToString(t / 60) + "h " + NatToString(t % 60) + "m"
  {
    if !ms.Num? || ms.x < 0.0 then "—"
    else
      var totalMin := TotalMinutes(ms.x);
      var h := totalMin / 60;
      var m := totalMin % 60;
      if h <= 0 then NatToString(m) + "m" else NatToString(h) + "h " + NatToString(m) + "m"
  }

  /** The length of the run of decimal digits that starts `s`. */
  function DigitRun(s: string): (n: nat)
    ensures n <= |s| && AllDigits(s[..n]) && (n == |s| || !IsDigit(s[n]))
    decreases |s|
  {
    if s != [] && IsDigit(s[0]) then
      var n := 1 + DigitRun(s[1..]);
      assert s[..n] == [s[0]] + s[1..][..n - 1];
      n
    else 0
  }

  /** Reads a duration label back as a number of whole minutes. */
  function ParseDuration(s: string): Option<nat>
  {
    if |s| < 2 || s[|s| - 1] != 'm' then None
    else
      var body := s[..|s| - 1];
      var d := DigitRun(body);
      if d == |body| then Some(ParseDigits(body))
      else if 1 <= d && d + 3 <= |body| && body[d] == 'h' && body[d + 1] == ' '
              && AllDigits(body[d + 2..])
      then Some(60 * ParseDigits(body[..d]) + ParseDigits(body[d + 2..]))
      else None
  }

  lemma DigitRunOfDigits(a: string, b: string)
    requires AllDigits(a) && (b == [] || !IsDigit(b[0]))
    ensures DigitRun(a + b) == |a|
    decreases |a|
  {
    if a != [] {
      assert (a + b)[1..] == a[1..] + b;
      DigitRunOfDigits(a[1..], b);
    } else {
      assert a + b == b;
    }
  }

  /** The label determines the whole minutes it was made from. */
  lemma FormatDurationRoundTrip(x: real)
    requires x >= 0.0
    ensures ParseDuration(FormatDuration(Num(x))) == Some(TotalMinutes(x))
  {
    var t := TotalMinutes(x);
    var h, m := t / 60, t % 60;
    var shown := FormatDuration(Num(x));
    var hs, ms := NatToString(h), NatToString(m);
    ParseNatToString(h);
    ParseNatToString(m);
    if h <= 0 {
      assert shown == ms + "m";
      assert shown[..|shown| - 1] == ms;
      DigitRunOfDigits(ms, []);
      assert ms + [] == ms;
    } else {
      assert shown == hs + "h " + ms + "m";
      var body := shown[..|shown| - 1];
      assert body == hs + ("h " + ms);
      DigitRunOfDigits(hs, "h " + ms);
      assert body[..|hs|] == hs;
      assert body[|hs| + 2..] == ms;
    }
  }

  // ---------------------------------------------------------------------
  // Log lines

  /**
   * An entry of the log buffer: a plain text line, `null`, or a structured
   * record whose fields are strings or absent.
   */
  datatype LogLine =
    | Text(text: string)
    | NullLine
    | Record(key: Option<string>, line: Option<string>, ts: Option<string>,
             level: Option<string>, subsystem: Option<string>, message: Option<string>)

  datatype Severity = Error | Warn | Info
  datatype Category = Tournament | Train | Eval | Io | Misc
  datatype Class = Class(sev: Severity, cat: Category)

  function SeverityName(s: Severity): string
  {
    match s
    case Error => "error"
    case Warn => "warn"
    case Info => "info"
  }

  function CategoryName(c: Category): string
  {
    match c
    case Tournament => "tournament"
    case Train => "train"
    case Eval => "eval"
    case Io => "io"
    case Misc => "misc"
  }

  /** A present, non-empty field (`typeof f === "string" && f`). */
  predicate Given(f: Option<string>)
  {
    f.Some? && f.value != ""
  }

  /** `f || d` for a field that is a string or absent. */
  function OrElse(f: Option<string>, d: string): string
  {
    if Given(f) then f.value else d
  }

  /** `String(line || "")` for a line that is not a record. */
  function PlainText(line: LogLine): string
    requires !line.Record?
  {
    if line.Text? then line.text else ""
  }

  /**
   * `classifyLogLine`. A record is classified by its exact (upper-cased)
   * level and subsystem; a plain line by the keywords it contains, with
   * ERROR/FATAL ahead of WARN and TOURNAMENT ahead of TRAIN, EVAL and IO.
   */
  function ClassifyLogLine(line: LogLine): (r: Class)
    ensures line.Record? ==>
      var lv := Upper(OrElse(line.level, "INFO"));
      var sub := Upper(OrElse(line.subsystem, "MISC"));
      && (r.sev == Error <==> lv == "ERROR")
      && (r.sev == Warn <==> lv == "WARN")
      && (r.cat == Tournament <==> sub == "TOURNAMENT")
      && (r.cat == Train <==> sub == "TRAIN")
      && (r.cat == Eval <==> sub == "EVAL")
      && (r.cat == Io <==> sub == "IO")
    ensures !line.Record? ==>
      var up := Upper(PlainText(line));
      && (r.sev == Error <==> Includes(up, "ERROR") || Includes(up, "FATAL"))
      && (r.sev == Warn <==> !Includes(up, "ERROR") && !Includes(up, "FATAL") && Includes(up, "WARN"))
      && (r.cat == Tournament <==> Includes(up, "TOURNAMENT"))
      && (r.cat == Train <==> !Includes(up, "TOURNAMENT") && Includes(up, "TRAIN"))
      && (r.cat == Eval <==> !Includes(up, "TOURNAMENT") && !Includes(up, "TRAIN") && Includes(up, "EVAL"))
      && (r.cat == Io <==> !Includes(up, "TOURNAMENT") && !Includes(up, "TRAIN") && !Includes(up, "EVAL")
                           && Includes(up, "IO"))
  {
    if line.Record? then
      var level := Upper(OrElse(line.level, "INFO"));
      var subsystem := Upper(OrElse(line.subsystem, "MISC"));
      var sev := if level == "ERROR" then Error else if level == "WARN" then Warn else Info;
      var cat := if subsystem == "TOURNAMENT" then Tournament
                 else if subsystem == "TRAIN" then Train
                 else if subsystem == "EVAL" then Eval
                 else if subsystem == "IO" then Io
                 else Misc;
      Class(sev, cat)
    else
      var up := Upper(PlainText(line));
      var sev := if Includes(up, "ERROR") || Includes(up, "FATAL") then Error
                 else if Includes(up, "WARN") then Warn
                 else Info;
      var cat := if Includes(up, "TOURNAMENT") then Tournament
                 else if Includes(up, "TRAIN") then Train
                 else if Includes(up, "EVAL") then Eval
                 else if Includes(up, "IO") then Io
                 else Misc;
      Class(sev, cat)
  }

  /** Classification of a plain line ignores letter case. */
  lemma ClassifyIgnoresCase(s: string)
    ensures ClassifyLogLine(Text(Upper(s))) == ClassifyLogLine(Text(s))
  {
    UpperIdempotent(s);
  }

  /** A keyword anywhere in a plain line, in any case, is seen. */
  lemma {:induction false} KeywordAnywhere(a: string, k: string, b: string)
    requires forall i :: 0 <= i < |k| ==> 'A' <= k[i] <= 'Z'
    ensures Includes(Upper(a + k + b), k)
  {
    var s := a + k + b;
    assert Upper(s)[|a|..|a| + |k|] == k by {
      forall i | 0 <= i < |k| ensures Upper(s)[|a|..|a| + |k|][i] == k[i] {
        assert s[|a| + i] == k[i];
      }
    }
    assert OccursAt(Upper(s), k, |a|);
  }

  /** Any plain line mentioning "fatal" is an error, however it also mentions "warn". */
  lemma FatalLineIsError(a: string, b: string)
    ensures ClassifyLogLine(Text(a + "FATAL" + b)).sev == Error
  {
    KeywordAnywhere(a, "FATAL", b);
  }

  /** Any plain line mentioning "tournament" is in the tournament category. */
  lemma TournamentLineCategory(a: string, b: string)
    ensures ClassifyLogLine(Text(a + "TOURNAMENT" + b)).cat == Tournament
  {
    KeywordAnywhere(a, "TOURNAMENT", b);
  }

  /**
   * Records and plain lines disagree on FATAL: a record's level must be
   * exactly ERROR or WARN, so a "fatal" record is info.
   */
  lemma FatalRecordIsInfo(r: LogLine)
    requires r.Record? && r.level == Some("fatal")
    ensures ClassifyLogLine(r).sev == Info
  {
    assert Upper("fatal") == "FATAL";
  }

  /** A record without a subsystem is in the misc category. */
  lemma RecordWithoutSubsystemIsMisc(r: LogLine)
    requires r.Record? && !Given(r.subsystem)
    ensures ClassifyLogLine(r).cat == Misc
  {
    assert Upper("MISC") == "MISC";
  }

  /** The log pane's filter settings (`ui.logs`). */
  datatype LogFilters = LogFilters(level: string, subsystem: string, window: string, n: Option<int>)

  /** `logsPassFilter`: each filter other than "all" must name the line's class. */
  function LogsPassFilter(line: LogLine, filters: LogFilters): (r: bool)
    ensures r <==> ((filters.level == "all" || SeverityName(ClassifyLogLine(line).sev) == filters.level)
                    && (filters.subsystem == "all" || CategoryName(ClassifyLogLine(line).cat) == filters.subsystem))
  {
    var c := ClassifyLogLine(line);
    if filters.level != "all" && SeverityName(c.sev) != filters.level then false
    else if filters.subsystem != "all" && CategoryName(c.cat) != filters.subsystem then false
    else true
  }

  /** With both filters at "all" every line is shown. */
  lemma AllFiltersPassAll(line: LogLine, f: LogFilters)
    requires f.level == "all" && f.subsystem == "all"
    ensures LogsPassFilter(line, f)
  {
  }

  /** A level filter that names no severity hides every line. */
  lemma UnknownLevelHidesAll(line: LogLine, f: LogFilters)
    requires f.level !in {"all", "error", "warn", "info"}
    ensures !LogsPassFilter(line, f)
  {
  }

  /** Relaxing a filter to "all" never hides a line that was shown. */
  lemma RelaxingFiltersKeepsLines(line: LogLine, f: LogFilters)
    requires LogsPassFilter(line, f)
    ensures LogsPassFilter(line, f.(level := "all"))
    ensures LogsPassFilter(line, f.(subsystem := "all"))
  {
  }

  /**
   * `getLogLineText`: a record's own non-empty `line`, or
   * "[ts] [LEVEL] [SUBSYSTEM] message" with the "[ts] " part left out when
   * there is no timestamp; a plain line is its own text.
   */
  function GetLogLineText(x: LogLine): (r: string)
    ensures x.Record? && Given(x.line) ==> r == x.line.value
    ensures x.Record? && !Given(x.line) && !Given(x.ts) ==>
              r == "[" + OrElse(x.level, "INFO") + "] [" + OrElse(x.subsystem, "MISC") + "] "
                   + OrElse(x.message, "")
    ensures x.Record? && !Given(x.line) && Given(x.ts) ==>
              r == "[" + x.ts.value + "] [" + OrElse(x.level, "INFO") + "] [" + OrElse(x.subsystem, "MISC") + "] "
                   + OrElse(x.message, "")
    ensures x.Text? ==> r == x.text
    ensures x.NullLine? ==> r == "null"
  {
    match x
    case Text(s) => s
    case NullLine => "null"
    case Record(_, line, ts, level, subsystem, message) =>
      if Given(line) then line.value
      else
        var t := OrElse(ts, "");
        var lv := OrElse(level, "INFO");
        var sub := OrElse(subsystem, "MISC");
        var msg := OrElse(message, "");
        if t == "" then "[" + lv + "] [" + sub + "] " + msg
        else "[" + t + "] [" + lv + "] [" + sub + "] " + msg
  }

  /** A timestamp only adds its "[ts] " prefix to the text of a record without its own line. */
  lemma TimestampPrefix(x: LogLine, ts: string)
    requires x.Record? && !Given(x.line) && ts != ""
    ensures GetLogLineText(x.(ts := Some(ts))) == "[" + ts + "] " + GetLogLineText(x.(ts := None))
  {
  }

  /**
   * `getLogStableKey`: a record's non-empty `key`, else its non-empty
   * `line`, else its formatted text; a plain line is its own key.
   */
  function GetLogStableKey(x: LogLine): (r: string)
    ensures x.Record? && Given(x.key) ==> r == x.key.value
    ensures x.Record? && !Given(x.key) && Given(x.line) ==> r == x.line.value
    ensures !(x.Record? && (Given(x.key) || Given(x.line))) ==> r == GetLogLineText(x)
  {
    match x
    case Text(s) => s
    case NullLine => "null"
    case Record(key, line, _, _, _, _) =>
      if Given(key) then key.value
      else if Given(line) then line.value
      else GetLogLineText(x)
  }

  /** Without an explicit key, a line is de-duplicated by exactly the text shown for it. */
  lemma StableKeyIsShownText(x: LogLine)
    requires !(x.Record? && Given(x.key))
    ensures GetLogStableKey(x) == GetLogLineText(x)
  {
  }

  datatype Slice = Slice(start: nat, end: nat)

  const LatestWindow: nat := 300

  /** `Number(filters.n || 200)`, then `Math.max(1, n || 200)`. */
  function LastNCount(n: Option<int>): (c: nat)
    ensures c >= 1
    ensures n.Some? && n.value >= 1 ==> c == n.value
    ensures n.None? || n == Some(0) ==> c == 200
    ensures n.Some? && n.value < 0 ==> c == 1
  {
    var k := if n.None? || n.value == 0 then 200 else n.value;
    if k < 1 then 1 else k
  }

  /**
   * `computeLogSlice`: the render window always ends at the last line;
   * "latest" shows the last 300 lines, "lastN" the last n, anything else
   * all of them.
   */
  function ComputeLogSlice<T>(lines: seq<T>, filters: LogFilters): (r: Slice)
    ensures r.start <= r.end == |lines|
    ensures filters.window == "latest" ==> r.end - r.start == Min(LatestWindow, |lines|)
    ensures filters.window == "lastN" ==> r.end - r.start == Min(LastNCount(filters.n), |lines|)
    ensures filters.window != "latest" && filters.window != "lastN" ==> r.start == 0
  {
    if filters.window == "latest" then
      Slice(Max0(|lines| - LatestWindow), |lines|)
    else if filters.window == "lastN" then
      Slice(Max0(|lines| - LastNCount(filters.n)), |lines|)
    else Slice(0, |lines|)
  }

  function Min(a: int, b: int): int
  {
    if a <= b then a else b
  }

  /** `Math.max(0, x)`. */
  function Max0(x: int): nat
  {
    if x < 0 then 0 else x
  }
}
