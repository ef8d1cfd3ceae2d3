/** The state logic of the habit handlers of habitController.js as functions
    of the user record and the day store: `saveHabitSettings`, `logHabitUse`,
    `postHabitCheckIn` and `postHabitEvent`, with the streak-anchor state
    machine they drive. A failed request changes nothing. */
module Handlers {
  import opened Outcomes
  import opened UtcDay
  import opened Coerce
  import opened UserModel
  import opened Ledger
  import opened HabitLog
  import opened StatsProjection

  /** What a successful handler leaves behind: the user record, the day store,
      and (for `logHabitUse`) the row it updated. */
  datatype Effect = Effect(account: Account, logs: map<LogKey, int>, row: Option<LogRow>)

  // ---- saveHabitSettings --------------------------------------------------

  /** The request body of `saveHabitSettings`; `None` is a missing field. */
  datatype SettingsInput = SettingsInput(
    substance: Option<string>,
    customName: Option<string>,
    intent: Option<string>,
    unitsPerDay: Value,
    packCost: Value,
    unitsPerPack: Value,
    currency: Option<string>)

  /** `substance || habit.substance || "cigarettes"`, then the enum check. */
  function ChosenSubstance(prev: Option<Habit>, requested: Option<string>): (r: Option<Substance>)
    ensures Truthy(requested) ==> r == ParseSubstance(requested.value)
    ensures !Truthy(requested) ==> r == Some(if prev.Some? then prev.value.substance else DefaultHabit.substance)
  {
    var fallback := if prev.Some? then prev.value.substance else DefaultHabit.substance;
    SubstanceRoundTrip(fallback);
    ParseSubstance(OrElse(requested, SubstanceName(fallback)))
  }

  /** `intent || habit.intent || "quit"`, then the enum check. */
  function ChosenIntent(prev: Option<Habit>, requested: Option<string>): (r: Option<Intent>)
    ensures Truthy(requested) ==> r == ParseIntent(requested.value)
    ensures !Truthy(requested) ==> r == Some(if prev.Some? then prev.value.intent else DefaultHabit.intent)
  {
    var fallback := if prev.Some? then prev.value.intent else DefaultHabit.intent;
    IntentRoundTrip(fallback);
    ParseIntent(OrElse(requested, IntentName(fallback)))
  }

  /** The settings normalisation: numbers go through `toNumber`, a zero or
      invalid units-per-pack becomes 20, texts are trimmed, and a substance or
      intent outside the schema's enum makes the save fail. */
  function NormalizeHabit(prev: Option<Habit>, input: SettingsInput): (r: Outcome<Habit>)
    ensures r.Ok? ==> ValidHabit(r.value)
    ensures r.Ok? <==> ChosenSubstance(prev, input.substance).Some? && ChosenIntent(prev, input.intent).Some?
    ensures r.Fail? ==> r.error == SaveRejected
    ensures r.Ok? ==> r.value.substance == ChosenSubstance(prev, input.substance).value
                      && r.value.intent == ChosenIntent(prev, input.intent).value
    ensures r.Ok? ==> r.value.unitsPerPack == (if ToNumber(input.unitsPerPack, DefaultHabit.unitsPerPack) == 0 then DefaultHabit.unitsPerPack else ToNumber(input.unitsPerPack, DefaultHabit.unitsPerPack))
    ensures r.Ok? ==> r.value.unitsPerDay == ToNumber(input.unitsPerDay, 0) && r.value.packCost == ToNumber(input.packCost, 0)
    ensures r.Ok? ==> r.value.customName == Trim(OrElse(input.customName, ""))
    ensures r.Ok? ==> r.value.currency == Trim(OrElse(input.currency, OrElse(if prev.Some? then Some(prev.value.currency) else None, "USD")))
  {
    var substance := ChosenSubstance(prev, input.substance);
    var intent := ChosenIntent(prev, input.intent);
    var pack := ToNumber(input.unitsPerPack, DefaultHabit.unitsPerPack);
    var currency := Trim(OrElse(input.currency, OrElse(if prev.Some? then Some(prev.value.currency) else None, DefaultHabit.currency)));
    if substance.Some? && intent.Some? then
      Ok(Habit(
        substance.value,
        Trim(OrElse(input.customName, DefaultHabit.customName)),
        intent.value,
        ToNumber(input.unitsPerDay, 0),
        ToNumber(input.packCost, 0),
        if pack == 0 then DefaultHabit.unitsPerPack else pack,
        currency))
    else
      Fail(SaveRejected)
  }

  /** `saveHabitSettings`: stores the normalised habit and starts the streak
      today if it never started. */
  function SaveHabitSettings(acct: Option<Account>, logs: map<LogKey, int>, input: SettingsInput, now: int): (r: Outcome<Effect>)
    ensures acct.None? ==> r == Fail(UserNotFound)
    ensures acct.Some? ==> (r.Ok? <==> NormalizeHabit(acct.value.habit, input).Ok?)
    ensures acct.Some? && r.Fail? ==> r.error == SaveRejected
    ensures r.Ok? ==> r.value.account.habit == Some(NormalizeHabit(acct.value.habit, input).value)
                      && r.value.logs == logs
    ensures r.Ok? ==> r.value.account.events == acct.value.events
    ensures r.Ok? ==> r.value.account.stats ==
                        (if acct.value.stats.streakStartedAt.None?
                         then acct.value.stats.(streakStartedAt := Some(StartOfUtcDay(now)))
                         else acct.value.stats)
  {
    if acct.None? then Fail(UserNotFound)
    else
      var a := acct.value;
      var h :- NormalizeHabit(a.habit, input);
      var stats := if a.stats.streakStartedAt.None? then a.stats.(streakStartedAt := Some(StartOfUtcDay(now))) else a.stats;
      Ok(Effect(Account(Some(h), stats, a.events), logs, None))
  }

  // ---- logHabitUse -------------------------------------------------------

  /** `units`: missing means 1; anything else must be a non-negative number. */
  function ParseUnits(units: Value): (r: Outcome<int>)
    ensures r.Ok? ==> r.value >= 0
    ensures r.Fail? ==> r.error == UnitsInvalid
    ensures units.Absent? ==> r == Ok(1)
    ensures units.Num? ==> (r.Ok? <==> units.n >= 0) && (r.Ok? ==> r.value == units.n)
    ensures units.NotFinite? ==> r.Fail?
  {
    match units
    case Absent => Ok(1)
    case Num(n) => if n < 0 then Fail(UnitsInvalid) else Ok(n)
    case NotFinite => Fail(UnitsInvalid)
  }

  /** A use restarts the streak on the day of the use. */
  function AfterUse(s: Stats, when: int): Stats {
    s.(lastUseAt := Some(when), streakStartedAt := Some(StartOfUtcDay(when)), lastResetAt := Some(when))
  }

  /** `logHabitUse`: adds the raw `units` to the day's row even when it is 0;
      only a positive amount is a use, which moves the anchors and is recorded
      with its quantity clamped to [1, 999]. */
  function LogHabitUse(acct: Option<Account>, logs: map<LogKey, int>, user: UserId, units: Value, ts: Value, now: int): (r: Outcome<Effect>)
    ensures ParseUnits(units).Fail? ==> r == Fail(UnitsInvalid)
    ensures ParseUnits(units).Ok? && AcceptTimestamp(ts, now).Fail? ==> r == Fail(AcceptTimestamp(ts, now).error)
    ensures ParseUnits(units).Ok? && AcceptTimestamp(ts, now).Ok? && acct.None? ==> r == Fail(UserNotFound)
    ensures r.Ok? <==> ParseUnits(units).Ok? && AcceptTimestamp(ts, now).Ok? && acct.Some?
    ensures r.Ok? ==> forall k :: UnitsFor(logs, k) <= UnitsFor(r.value.logs, k)
    ensures r.Ok? ==> r.value.row.Some? && r.value.row.value.day == StartOfUtcDay(AcceptTimestamp(ts, now).value)
  {
    var unitsNum :- ParseUnits(units);
    var when :- AcceptTimestamp(ts, now);
    if acct.None? then Fail(UserNotFound)
    else
      var logs' := Incremented(logs, user, when, unitsNum);
      var row := LogRow(StartOfUtcDay(when), UnitsFor(logs', KeyFor(user, when)));
      Ok(Effect(UseLogged(acct.value, unitsNum, when), logs', Some(row)))
  }

  /** What `logHabitUse` does to the user record for `unitsNum` units at `when`. */
  function UseLogged(a: Account, unitsNum: int, when: int): (b: Account)
    ensures b.habit == a.habit && b.stats.bestStreakDays == a.stats.bestStreakDays
    ensures b.stats.lastActivityAt == Some(when)
    ensures unitsNum > 0 ==>
      && b.stats == a.stats.(lastActivityAt := Some(when), lastUseAt := Some(when),
                             streakStartedAt := Some(StartOfUtcDay(when)), lastResetAt := Some(when))
      && b.events == Pushed(a.events, HabitEvent(Use, Clamp(unitsNum, 1, 999), when, "", None))
    ensures unitsNum <= 0 ==> b.stats == a.stats.(lastActivityAt := Some(when)) && b.events == a.events
  {
    var stats := a.stats.(lastActivityAt := Some(when));
    if unitsNum > 0 then
      var ev := HabitEvent(Use, Clamp(unitsNum, 1, 999), when, "", None);
      a.(stats := AfterUse(stats, when), events := Pushed(a.events, ev))
    else
      a.(stats := stats)
  }

  // ---- postHabitCheckIn --------------------------------------------------

  /** The throttle: the stored check-in falls on the UTC day of `when`. */
  predicate CheckedInSameDay(s: Stats, when: int)
    ensures CheckedInSameDay(s, when) <==> s.lastCheckInAt.Some? && DayNumber(s.lastCheckInAt.value) == DayNumber(when)
  {
    && s.lastCheckInAt.Some?
    && (SameDayIffSameDayNumber(s.lastCheckInAt.value, when);
        StartOfUtcDay(s.lastCheckInAt.value) == StartOfUtcDay(when))
  }

  /** `postHabitCheckIn`: at most one check-in per UTC day of the event time;
      records the mood and note, starts the streak if it never started, and
      raises the best streak to the current one. */
  function PostHabitCheckIn(acct: Option<Account>, logs: map<LogKey, int>, mood: Option<string>, note: Option<string>, ts: Value, now: int): (r: Outcome<Effect>)
    ensures AcceptTimestamp(ts, now).Fail? ==> r == Fail(AcceptTimestamp(ts, now).error)
    ensures AcceptTimestamp(ts, now).Ok? && acct.None? ==> r == Fail(UserNotFound)
    ensures r.Ok? <==> AcceptTimestamp(ts, now).Ok? && acct.Some?
                       && !CheckedInSameDay(acct.value.stats, AcceptTimestamp(ts, now).value)
    ensures r.Ok? ==> r.value.logs == logs
  {
    var when :- AcceptTimestamp(ts, now);
    var moodClean := CleanText(mood, MOOD_MAX);
    var noteClean := CleanText(note, NOTE_MAX);
    if acct.None? then Fail(UserNotFound)
    else if CheckedInSameDay(acct.value.stats, when) then Fail(AlreadyCheckedIn)
    else Ok(Effect(CheckedIn(acct.value, moodClean, noteClean, when, now), logs, None))
  }

  /** What an accepted `postHabitCheckIn` does to the user record: a check-in
      at `when`, with the streak evaluated as of `now`. */
  function CheckedIn(a: Account, moodClean: string, noteClean: string, when: int, now: int): (b: Account)
    ensures b.habit == a.habit
    ensures b.stats.lastCheckInAt == Some(when) && b.stats.lastCheckInMood == moodClean && b.stats.lastCheckInNote == noteClean
    ensures b.stats.streakStartedAt == (if a.stats.streakStartedAt.Some? then a.stats.streakStartedAt else Some(StartOfUtcDay(when)))
    ensures b.stats.lastUseAt == a.stats.lastUseAt && b.stats.bestStreakDays >= a.stats.bestStreakDays
    ensures b.stats.(bestStreakDays := a.stats.bestStreakDays)
         == a.stats.(lastCheckInAt := Some(when), lastCheckInMood := moodClean, lastCheckInNote := noteClean,
                     lastActivityAt := Some(when), streakStartedAt := b.stats.streakStartedAt)
    ensures b.events == Pushed(a.events, HabitEvent(CheckIn, 1, when, noteClean, Some(moodClean)))
  {
    var s1 := a.stats.(lastCheckInAt := Some(when), lastCheckInMood := moodClean,
                       lastCheckInNote := noteClean, lastActivityAt := Some(when));
    var s2 := if s1.streakStartedAt.None? then s1.(streakStartedAt := Some(StartOfUtcDay(when))) else s1;
    var streak := StreakDays(s2, now);
    var s3 := if streak > s2.bestStreakDays then s2.(bestStreakDays := streak) else s2;
    var ev := HabitEvent(CheckIn, 1, when, noteClean, Some(moodClean));
    a.(stats := s3, events := Pushed(a.events, ev))
  }

  // ---- postHabitEvent ----------------------------------------------------

  /** `clamp(Number(quantity || 1), 1, 999)` for a numeric or missing quantity. */
  function EventQuantity(quantity: Option<int>): (q: int)
    ensures 1 <= q <= 999
    ensures quantity.Some? && 1 <= quantity.value <= 999 ==> q == quantity.value
    ensures quantity.None? ==> q == 1
    ensures quantity.Some? && quantity.value < 1 ==> q == 1
    ensures quantity.Some? && quantity.value > 999 ==> q == 999
  {
    Clamp(if quantity.None? || quantity.value == 0 then 1 else quantity.value, 1, 999)
  }

  /** `postHabitEvent`: a use moves the anchors and adds to the day's row; a
      resist only adds to `resistsTotal`. Both are recorded in the history. */
  function PostHabitEvent(acct: Option<Account>, logs: map<LogKey, int>, user: UserId, kind: string,
                          quantity: Option<int>, note: Option<string>, ts: Value, now: int): (r: Outcome<Effect>)
    ensures kind != "use" && kind != "resist" ==> r == Fail(TypeInvalid)
    ensures r.Ok? <==> (kind == "use" || kind == "resist") && AcceptTimestamp(ts, now).Ok? && acct.Some?
    ensures r.Fail? && (kind == "use" || kind == "resist") ==>
      r.error == (if AcceptTimestamp(ts, now).Fail? then AcceptTimestamp(ts, now).error else UserNotFound)
    ensures r.Ok? && kind == "resist" ==> r.value.logs == logs
    ensures r.Ok? ==> forall k :: UnitsFor(logs, k) <= UnitsFor(r.value.logs, k)
  {
    if kind != "use" && kind != "resist" then Fail(TypeInvalid)
    else
      var when :- AcceptTimestamp(ts, now);
      var qty := EventQuantity(quantity);
      var noteClean := CleanText(note, NOTE_MAX);
      if acct.None? then Fail(UserNotFound)
      else
        var logs' := if kind == "resist" then logs else Incremented(logs, user, when, qty);
        Ok(Effect(EventRecorded(acct.value, kind == "resist", qty, noteClean, when), logs', None))
  }

  /** What an accepted `postHabitEvent` does to the user record: a resist or a
      use of `qty` at `when`. */
  function EventRecorded(a: Account, resist: bool, qty: nat, noteClean: string, when: int): (b: Account)
    ensures b.habit == a.habit && b.stats.bestStreakDays == a.stats.bestStreakDays
    ensures b.events == Pushed(a.events, HabitEvent(if resist then Resist else Use, qty, when, noteClean, None))
    ensures resist ==> b.stats == a.stats.(lastActivityAt := Some(when), resistsTotal := a.stats.resistsTotal + qty,
                                           lastResistAt := Some(when))
    ensures !resist ==> b.stats == a.stats.(lastActivityAt := Some(when), lastUseAt := Some(when),
                                            streakStartedAt := Some(StartOfUtcDay(when)), lastResetAt := Some(when))
  {
    var stats := a.stats.(lastActivityAt := Some(when));
    if resist then
      var ev := HabitEvent(Resist, qty, when, noteClean, None);
      a.(stats := stats.(resistsTotal := stats.resistsTotal + qty, lastResistAt := Some(when)),
         events := Pushed(a.events, ev))
    else
      var ev := HabitEvent(Use, qty, when, noteClean, None);
      a.(stats := AfterUse(stats, when), events := Pushed(a.events, ev))
  }

  // ---- one request at a time --------------------------------------------

  datatype Request =
    | SettingsRequest(input: SettingsInput)
    | LogUseRequest(units: Value, ts: Value)
    | CheckInRequest(mood: Option<string>, note: Option<string>, checkInTs: Value)
    | EventRequest(kind: string, quantity: Option<int>, note': Option<string>, eventTs: Value)

  /** A request together with the server clock when it is handled. */
  datatype Timed = Timed(request: Request, now: int)

  /** One request for a user that exists: it is never answered with 404, and
      no day's total ever goes down. */
  function Handle(a: Account, logs: map<LogKey, int>, user: UserId, r: Request, now: int): (e: Outcome<Effect>)
    ensures e.Fail? ==> e.error != UserNotFound
    ensures e.Ok? ==> forall k :: UnitsFor(logs, k) <= UnitsFor(e.value.logs, k)
  {
    match r
    case SettingsRequest(input) => SaveHabitSettings(Some(a), logs, input, now)
    case LogUseRequest(units, ts) => LogHabitUse(Some(a), logs, user, units, ts, now)
    case CheckInRequest(mood, note, ts) => PostHabitCheckIn(Some(a), logs, mood, note, ts, now)
    case EventRequest(kind, q, note, ts) => PostHabitEvent(Some(a), logs, user, kind, q, note, ts, now)
  }

  /** The state after handling `reqs` in order; a refused request changes nothing. */
  function Run(a: Account, logs: map<LogKey, int>, user: UserId, reqs: seq<Timed>): (res: (Account, map<LogKey, int>))
    ensures forall k :: UnitsFor(logs, k) <= UnitsFor(res.1, k)
    decreases |reqs|
  {
    if reqs == [] then (a, logs)
    else
      var r := Handle(a, logs, user, reqs[0].request, reqs[0].now);
      if r.Ok? then Run(r.value.account, r.value.logs, user, reqs[1..])
      else Run(a, logs, user, reqs[1..])
  }
}
