/** The client-side habit check-in state (client/src/habitCheckService.js):
    the reminder schedule `computeNextCheckAt`, the pure transformer `addLog`,
    and the normalisation `loadHabitCheck` / `saveHabitCheck` apply around
    local storage. Clock readings are parameters. */
module HabitCheck {
  import opened Outcomes

  /** A JSON value as the service reads it from parsed storage or from a
      caller; `Undefined` is a missing key. */
  datatype Json = Undefined | Null | Bool(b: bool) | Num(n: int)

  /** JavaScript truthiness (`!!x`). */
  predicate JsTruthy(j: Json) {
    match j
    case Bool(b) => b
    case Num(n) => n != 0
    case _ => false
  }

  /** `Number(x)`; `None` is NaN. */
  function JsNumber(j: Json): Option<int> {
    match j
    case Undefined => None
    case Null => Some(0)
    case Bool(b) => Some(if b then 1 else 0)
    case Num(n) => Some(n)
  }

  const DEFAULT_FREQUENCY_MINUTES: int := 60
  const MAX_LOGS_SAVED: int := 200
  const MINUTE_MS: int := 60 * 1000

  datatype Config = Config(enabled: Json, frequencyMinutes: Json)

  /** `DEFAULT_CONFIG`: reminders off, one an hour. */
  const DefaultConfig: Config := Config(Bool(false), Num(DEFAULT_FREQUENCY_MINUTES))

  datatype LogEntry = LogEntry(timestamp: int, used: bool, units: int)

  /** The state the page keeps: the config, the next prompt time (`null` is
      `None`) and the check-in log. */
  datatype State = State(config: Config, nextCheckAt: Option<int>, logs: seq<LogEntry>)

  const DefaultState: State := State(DefaultConfig, None, [])

  /** `Number(config?.frequencyMinutes) || 60`: a missing, `null`, `false`
      or zero frequency falls back to 60 minutes; `true` is 1 minute; any
      other number, negative ones included, is kept. */
  function Frequency(config: Option<Config>): (f: int)
    ensures f != 0
    ensures config.Some? && config.value.frequencyMinutes.Num? && config.value.frequencyMinutes.n != 0 ==>
      f == config.value.frequencyMinutes.n
    ensures config.None? || config.value.frequencyMinutes in {Undefined, Null, Num(0), Bool(false)} ==>
      f == DEFAULT_FREQUENCY_MINUTES
    ensures config.Some? && config.value.frequencyMinutes == Bool(true) ==> f == 1
  {
    var n := if config.Some? then JsNumber(config.value.frequencyMinutes) else None;
    if n.None? || n.value == 0 then DEFAULT_FREQUENCY_MINUTES else n.value
  }

  /** `computeNextCheckAt(config, fromTimeMs)`: `frequency` minutes after the
      given time, or after `now` when no time is given. */
  function ComputeNextCheckAt(config: Option<Config>, fromTimeMs: Option<int>, now: int): (t: int)
    ensures t - fromTimeMs.GetOr(now) == Frequency(config) * MINUTE_MS
  {
    var base := if fromTimeMs.Some? then fromTimeMs.value else now;
    base + Frequency(config) * MINUTE_MS
  }

  /** The caller's check-in answer. */
  datatype Answer = Answer(used: Json, units: Json)

  /** `entry.used ? Number(entry.units || 0) : 0`. */
  function UnitsOf(a: Answer): (u: int)
    ensures !JsTruthy(a.used) ==> u == 0
    ensures JsTruthy(a.used) && a.units.Num? ==> u == a.units.n
    ensures JsTruthy(a.used) && a.units in {Undefined, Null, Bool(false)} ==> u == 0
    ensures JsTruthy(a.used) && a.units == Bool(true) ==> u == 1
  {
    if !JsTruthy(a.used) then 0
    else if !JsTruthy(a.units) then 0
    else match a.units
      case Bool(_) => 1
      case Num(n) => n
      case _ => 0
  }

  /** `addLog(prevState, entry)` at clock reading `now`: a fresh state for a
      `null` one, the log copied with one entry appended, and the next prompt
      rescheduled from `now`. */
  function AddLog(prev: Option<State>, entry: Answer, now: int): (s: State)
    ensures var base := prev.GetOr(DefaultState);
      && s.config == base.config
      && |s.logs| == |base.logs| + 1 && s.logs[..|base.logs|] == base.logs
      && s.logs[|base.logs|] == LogEntry(now, JsTruthy(entry.used), UnitsOf(entry))
      && s.nextCheckAt.Some? && s.nextCheckAt.value - now == Frequency(Some(base.config)) * MINUTE_MS
  {
    var base := prev.GetOr(DefaultState);
    var logs := base.logs + [LogEntry(now, JsTruthy(entry.used), UnitsOf(entry))];
    State(base.config, Some(ComputeNextCheckAt(Some(base.config), None, now)), logs)
  }

  /** `addLog` appends exactly one entry and leaves the earlier ones, and the
      config, as they were. */
  lemma AddLogAppends(prev: State, entry: Answer, now: int)
    ensures var s := AddLog(Some(prev), entry, now);
      && |s.logs| == |prev.logs| + 1
      && s.logs[..|prev.logs|] == prev.logs
      && s.logs[|prev.logs|] == LogEntry(now, JsTruthy(entry.used), UnitsOf(entry))
      && s.config == prev.config
      && s.nextCheckAt == Some(now + Frequency(Some(prev.config)) * MINUTE_MS)
  {
    var s := AddLog(Some(prev), entry, now);
    assert s.logs[..|prev.logs|] == prev.logs;
  }

  /** On a `null` state `addLog` starts from the defaults: reminders off, an
      hour to the next prompt, and a log of one entry. */
  lemma AddLogFromNothing(entry: Answer, now: int)
    ensures var s := AddLog(None, entry, now);
      && s.config == DefaultConfig
      && s.nextCheckAt == Some(now + 60 * MINUTE_MS)
      && s.logs == [LogEntry(now, JsTruthy(entry.used), UnitsOf(entry))]
  {
  }

  // ---- local storage ------------------------------------------------------

  /** What `JSON.parse` gives back from storage: the `config` object if it is
      truthy (`None` otherwise), the raw `nextCheckAt`, and `logs` if it is an
      array (`None` otherwise). */
  datatype Stored = Stored(config: Option<Config>, nextCheckAt: Json, logs: Option<seq<LogEntry>>)

  /** `slice(-200)`. */
  function LastLogs(logs: seq<LogEntry>): (r: seq<LogEntry>)
    ensures |r| == if |logs| <= MAX_LOGS_SAVED then |logs| else MAX_LOGS_SAVED
    ensures r == logs[|logs| - |r|..]
  {
    if |logs| <= MAX_LOGS_SAVED then logs else logs[|logs| - MAX_LOGS_SAVED..]
  }

  /** `{ ...DEFAULT_CONFIG, ...(parsed.config || {}) }`: each key present in
      the stored config overrides the default, and a missing key takes the
      default's value. */
  function MergeConfig(stored: Option<Config>): (c: Config)
    ensures stored.None? ==> c == DefaultConfig
    ensures stored.Some? && stored.value.enabled != Undefined ==> c.enabled == stored.value.enabled
    ensures stored.Some? && stored.value.frequencyMinutes != Undefined ==> c.frequencyMinutes == stored.value.frequencyMinutes
    ensures stored.Some? && stored.value.enabled == Undefined ==> c.enabled == DefaultConfig.enabled
    ensures stored.Some? && stored.value.frequencyMinutes == Undefined ==> c.frequencyMinutes == DefaultConfig.frequencyMinutes
    ensures c.enabled != Undefined && c.frequencyMinutes != Undefined
  {
    match stored
    case None => DefaultConfig
    case Some(p) =>
      Config(
        if p.enabled == Undefined then DefaultConfig.enabled else p.enabled,
        if p.frequencyMinutes == Undefined then DefaultConfig.frequencyMinutes else p.frequencyMinutes)
  }

  /** `loadHabitCheck`: `None` is "nothing readable" (no window, no stored
      value, or JSON that fails to parse), which gives the default state. */
  function LoadHabitCheck(raw: Option<Stored>): (s: State)
    ensures raw.None? ==> s == DefaultState
    ensures raw.Some? ==> s.config == MergeConfig(raw.value.config)
    ensures raw.Some? ==> (s.nextCheckAt.Some? <==> raw.value.nextCheckAt.Num?)
    ensures raw.Some? && raw.value.nextCheckAt.Num? ==> s.nextCheckAt == Some(raw.value.nextCheckAt.n)
    ensures raw.Some? ==> s.logs == raw.value.logs.GetOr([])
  {
    match raw
    case None => DefaultState
    case Some(p) =>
      State(
        MergeConfig(p.config),
        if p.nextCheckAt.Num? then Some(p.nextCheckAt.n) else None,
        if p.logs.Some? then p.logs.value else [])
  }

  /** `saveHabitCheck`: the clean object written to storage. `enabled` becomes
      a boolean, the frequency a non-zero number, and only the newest 200
      log entries are kept. */
  function SaveHabitCheck(state: Option<State>): (r: Stored)
    ensures r.config.Some? && r.config.value.enabled.Bool? && r.config.value.frequencyMinutes.Num?
    ensures r.config.value.frequencyMinutes.n != 0
    ensures r.logs.Some? && |r.logs.value| <= MAX_LOGS_SAVED
    ensures state.Some? ==> r.config.value.enabled == Bool(JsTruthy(state.value.config.enabled))
    ensures state.Some? ==> r.logs.value == LastLogs(state.value.logs)
    ensures state.None? ==> r == Stored(Some(DefaultConfig), Null, Some([]))
  {
    match state
    case None => Stored(Some(Config(Bool(false), Num(Frequency(None)))), Null, Some([]))
    case Some(s) =>
      Stored(
        Some(Config(Bool(JsTruthy(s.config.enabled)), Num(Frequency(Some(s.config))))),
        if s.nextCheckAt.Some? then Num(s.nextCheckAt.value) else Null,
        Some(LastLogs(s.logs)))
  }

  /** Saving, then loading, gives back the state with `enabled` coerced to a
      boolean, the frequency resolved, the prompt time kept and the log cut
      to its newest 200 entries. */
  lemma LoadAfterSave(s: State)
    ensures LoadHabitCheck(Some(SaveHabitCheck(Some(s)))) ==
      State(Config(Bool(JsTruthy(s.config.enabled)), Num(Frequency(Some(s.config)))), s.nextCheckAt, LastLogs(s.logs))
  {
  }

  /** Saving is idempotent through a load: a saved state re-saves unchanged. */
  lemma SaveLoadSaveIdempotent(s: Option<State>)
    ensures SaveHabitCheck(Some(LoadHabitCheck(Some(SaveHabitCheck(s))))) == SaveHabitCheck(s)
  {
  }
}
