/** The handlers of habitController.js as they run: a user document whose
    fields are updated step by step, and the HabitLog collection. Each handler
    is proved to leave exactly the state its functional model in module
    Handlers describes, and to keep the record invariants. */
module Controller {
  import opened Outcomes
  import opened UtcDay
  import opened Coerce
  import opened UserModel
  import opened Ledger
  import opened HabitLog
  import opened StatsProjection
  import Handlers
  import HandlerProperties

  /** The JSON a successful handler answers with. */
  datatype Reply =
    | Saved                                    // { success: true }
    | Logged(row: LogRow, stats: StatsPayload) // { success, log, stats }
    | Updated(stats: StatsPayload)             // { success, stats }

  /** The habit-related fields of a user document. */
  class User {
    const id: UserId
    var habit: Option<Habit>
    var stats: Stats
    var habitEvents: seq<HabitEvent>

    /** The record as a value. */
    function State(): Account
      reads this
    {
      Account(habit, stats, habitEvents)
    }

    /** A newly registered user: no habit, fresh stats, empty history. */
    constructor (id: UserId)
      ensures this.id == id && State() == NewAccount
    {
      this.id := id;
      habit := None;
      stats := DefaultStats;
      habitEvents := [];
    }

    /** `pushHabitEvent(user, ev)`: append, then keep the newest
        MAX_EVENTS_STORED entries. */
    method PushHabitEvent(ev: HabitEvent)
      modifies this`habitEvents
      ensures habitEvents == Pushed(old(habitEvents), ev)
      ensures |habitEvents| <= MAX_EVENTS_STORED && habitEvents[|habitEvents| - 1] == ev
    {
      habitEvents := habitEvents + [ev];
      if |habitEvents| > MAX_EVENTS_STORED {
        habitEvents := habitEvents[|habitEvents| - MAX_EVENTS_STORED..];
      }
    }

    /** The record updates of an accepted `logHabitUse`. */
    method RecordUse(units: int, when: int)
      modifies this
      ensures State() == Handlers.UseLogged(old(State()), units, when)
    {
      stats := stats.(lastActivityAt := Some(when));
      if units > 0 {
        // a use happened: reset the streak anchors to the event time
        stats := stats.(lastUseAt := Some(when));
        stats := stats.(streakStartedAt := Some(StartOfUtcDay(when)));
        stats := stats.(lastResetAt := Some(when));
        PushHabitEvent(HabitEvent(Use, Clamp(units, 1, 999), when, "", None));
      }
    }

    /** The record updates of an accepted `postHabitCheckIn`. */
    method RecordCheckIn(moodClean: string, noteClean: string, when: int, now: int)
      modifies this
      ensures State() == Handlers.CheckedIn(old(State()), moodClean, noteClean, when, now)
    {
      stats := stats.(lastCheckInAt := Some(when));
      stats := stats.(lastCheckInMood := moodClean);
      stats := stats.(lastCheckInNote := noteClean);
      stats := stats.(lastActivityAt := Some(when));
      if stats.streakStartedAt.None? {
        stats := stats.(streakStartedAt := Some(StartOfUtcDay(when)));
      }
      var streakDays := StreakDays(stats, now);
      if streakDays > stats.bestStreakDays {
        stats := stats.(bestStreakDays := streakDays);
      }
      PushHabitEvent(HabitEvent(CheckIn, 1, when, noteClean, Some(moodClean)));
    }

    /** The record updates of an accepted `postHabitEvent`. */
    method RecordEvent(resist: bool, qty: nat, noteClean: string, when: int)
      modifies this
      ensures State() == Handlers.EventRecorded(old(State()), resist, qty, noteClean, when)
    {
      stats := stats.(lastActivityAt := Some(when));
      if resist {
        stats := stats.(resistsTotal := stats.resistsTotal + qty);
        stats := stats.(lastResistAt := Some(when));
        PushHabitEvent(HabitEvent(Resist, qty, when, noteClean, None));
      } else {
        PushHabitEvent(HabitEvent(Use, qty, when, noteClean, None));
        // anchors follow the event time, not the server clock
        stats := stats.(lastUseAt := Some(when));
        stats := stats.(streakStartedAt := Some(StartOfUtcDay(when)));
        stats := stats.(lastResetAt := Some(when));
      }
    }
  }

  /** The record `User.findById` finds, if any. */
  ghost function Snapshot(user: User?): Option<Account>
    reads user
  {
    if user == null then None else Some(user.State())
  }

  /** `buildHabitStatsPayload` over the stored record and today's row. */
  function StatsFor(user: User, store: HabitLogStore, now: int): StatsPayload
    reads user, store
  {
    BuildHabitStatsPayload(user.State(), store.UnitsOn(user.id, StartOfUtcDay(now)), now)
  }

  function IdOf(user: User?): UserId
    reads user
  {
    if user == null then 0 else user.id
  }

  /** `saveHabitSettings`. */
  method SaveHabitSettings(user: User?, store: HabitLogStore, input: Handlers.SettingsInput, now: int)
    returns (r: Outcome<Reply>)
    modifies user
    ensures var spec := Handlers.SaveHabitSettings(old(Snapshot(user)), store.logs, input, now);
      && (spec.Ok? ==> user != null && r == Ok(Saved) && user.State() == spec.value.account)
      && (spec.Fail? ==> r == Fail(spec.error) && Snapshot(user) == old(Snapshot(user)))
    ensures user != null && old(ValidAccount(user.State())) ==> ValidAccount(user.State())
  {
    if user == null {
      return Fail(UserNotFound);
    }
    var normalized := Handlers.NormalizeHabit(user.habit, input);
    if normalized.Fail? {
      // the schema validation inside `user.save()` throws: nothing is stored
      return Fail(normalized.error);
    }
    ghost var before := user.State();
    user.habit := Some(normalized.value);
    if user.stats.streakStartedAt.None? {
      user.stats := user.stats.(streakStartedAt := Some(StartOfUtcDay(now)));
    }
    if ValidAccount(before) {
      HandlerProperties.SettingsPreservesValid(before, store.logs, input, now);
    }
    r := Ok(Saved);
  }

  /** `logHabitUse`. */
  method LogHabitUse(user: User?, store: HabitLogStore, units: Value, ts: Value, now: int)
    returns (r: Outcome<Reply>)
    modifies user, store
    ensures old(store.Valid()) ==> store.Valid()
    ensures var spec := Handlers.LogHabitUse(old(Snapshot(user)), old(store.logs), IdOf(user), units, ts, now);
      && (spec.Ok? ==> user != null && user.State() == spec.value.account && store.logs == spec.value.logs
                       && r == Ok(Logged(spec.value.row.value, StatsFor(user, store, now))))
      && (spec.Fail? ==> r == Fail(spec.error) && Snapshot(user) == old(Snapshot(user)) && store.logs == old(store.logs))
    ensures user != null && old(ValidAccount(user.State())) ==> ValidAccount(user.State())
  {
    ghost var spec := Handlers.LogHabitUse(Snapshot(user), store.logs, IdOf(user), units, ts, now);
    var unitsNum := Handlers.ParseUnits(units);
    if unitsNum.Fail? {
      return Fail(unitsNum.error);
    }
    var timeOk := ValidateWhenNotFuture(SafeDateFromTs(ts, now), now);
    if timeOk.Fail? {
      assert spec == Fail(timeOk.error);
      return Fail(timeOk.error);
    }
    if user == null {
      assert spec == Fail(UserNotFound);
      return Fail(UserNotFound);
    }
    ghost var before := user.State();
    var when := timeOk.value;
    ghost var logs' := Incremented(store.logs, user.id, when, unitsNum.value);
    ghost var expected := LogRow(StartOfUtcDay(when), UnitsFor(logs', KeyFor(user.id, when)));
    assert spec == Ok(Handlers.Effect(Handlers.UseLogged(before, unitsNum.value, when), logs', Some(expected)));
    var row := store.IncrementHabitLog(user.id, when, unitsNum.value);
    assert row == expected && store.logs == logs' && user.State() == before;
    user.RecordUse(unitsNum.value, when);
    if ValidAccount(before) {
      HandlerProperties.UseLoggedValid(before, unitsNum.value, when);
      assert ValidAccount(user.State());
    }
    r := Ok(Logged(row, StatsFor(user, store, now)));
  }

  /** `postHabitCheckIn`. */
  method PostHabitCheckIn(user: User?, store: HabitLogStore, mood: Option<string>, note: Option<string>, ts: Value, now: int)
    returns (r: Outcome<Reply>)
    modifies user
    ensures var spec := Handlers.PostHabitCheckIn(old(Snapshot(user)), store.logs, mood, note, ts, now);
      && (spec.Ok? ==> user != null && user.State() == spec.value.account && r == Ok(Updated(StatsFor(user, store, now))))
      && (spec.Fail? ==> r == Fail(spec.error) && Snapshot(user) == old(Snapshot(user)))
    ensures user != null && old(ValidAccount(user.State())) ==> ValidAccount(user.State())
  {
    ghost var spec := Handlers.PostHabitCheckIn(Snapshot(user), store.logs, mood, note, ts, now);
    var timeOk := ValidateWhenNotFuture(SafeDateFromTs(ts, now), now);
    if timeOk.Fail? {
      assert spec == Fail(timeOk.error);
      return Fail(timeOk.error);
    }
    var when := timeOk.value;
    var moodClean := CleanText(mood, MOOD_MAX);
    var noteClean := CleanText(note, NOTE_MAX);
    if user == null {
      assert spec == Fail(UserNotFound);
      return Fail(UserNotFound);
    }
    // one check-in per UTC day of the event time
    if user.stats.lastCheckInAt.Some? {
      var lastDay := StartOfUtcDay(user.stats.lastCheckInAt.value);
      var nowDay := StartOfUtcDay(when);
      if lastDay == nowDay {
        assert spec == Fail(AlreadyCheckedIn);
        return Fail(AlreadyCheckedIn);
      }
    }
    ghost var before := user.State();
    assert spec == Ok(Handlers.Effect(Handlers.CheckedIn(before, moodClean, noteClean, when, now), store.logs, None));
    user.RecordCheckIn(moodClean, noteClean, when, now);
    assert user.State() == spec.value.account;
    if ValidAccount(before) {
      HandlerProperties.CheckedInValid(before, moodClean, noteClean, when, now);
      assert ValidAccount(user.State());
    }
    r := Ok(Updated(StatsFor(user, store, now)));
  }

  /** `postHabitEvent`. */
  method PostHabitEvent(user: User?, store: HabitLogStore, kind: string, quantity: Option<int>, note: Option<string>, ts: Value, now: int)
    returns (r: Outcome<Reply>)
    modifies user, store
    ensures old(store.Valid()) ==> store.Valid()
    ensures var spec := Handlers.PostHabitEvent(old(Snapshot(user)), old(store.logs), IdOf(user), kind, quantity, note, ts, now);
      && (spec.Ok? ==> user != null && user.State() == spec.value.account && store.logs == spec.value.logs
                       && r == Ok(Updated(StatsFor(user, store, now))))
      && (spec.Fail? ==> r == Fail(spec.error) && Snapshot(user) == old(Snapshot(user)) && store.logs == old(store.logs))
    ensures user != null && old(ValidAccount(user.State())) ==> ValidAccount(user.State())
  {
    ghost var spec := Handlers.PostHabitEvent(Snapshot(user), store.logs, IdOf(user), kind, quantity, note, ts, now);
    if kind != "use" && kind != "resist" {
      assert spec == Fail(TypeInvalid);
      return Fail(TypeInvalid);
    }
    var timeOk := ValidateWhenNotFuture(SafeDateFromTs(ts, now), now);
    if timeOk.Fail? {
      assert spec == Fail(timeOk.error);
      return Fail(timeOk.error);
    }
    var when := timeOk.value;
    var qty := Handlers.EventQuantity(quantity);
    var noteClean := CleanText(note, NOTE_MAX);
    if user == null {
      assert spec == Fail(UserNotFound);
      return Fail(UserNotFound);
    }
    var resist := kind == "resist";
    ghost var logs' := if resist then store.logs else Incremented(store.logs, user.id, when, qty);
    assert spec == Ok(Handlers.Effect(Handlers.EventRecorded(user.State(), resist, qty, noteClean, when), logs', None));
    ApplyEvent(user, store, resist, qty, noteClean, when);
    r := Ok(Updated(StatsFor(user, store, now)));
  }

  /** The accepted part of `postHabitEvent`: record the event on the user and,
      for a use, add its quantity to the day's row. */
  method ApplyEvent(user: User, store: HabitLogStore, resist: bool, qty: nat, noteClean: string, when: int)
    requires 1 <= qty <= 999 && |noteClean| <= NOTE_MAX
    modifies user, store
    ensures user.State() == Handlers.EventRecorded(old(user.State()), resist, qty, noteClean, when)
    ensures store.logs == if resist then old(store.logs) else Incremented(old(store.logs), user.id, when, qty)
    ensures old(store.Valid()) ==> store.Valid()
    ensures old(ValidAccount(user.State())) ==> ValidAccount(user.State())
  {
    ghost var before := user.State();
    user.RecordEvent(resist, qty, noteClean, when);
    ghost var after := user.State();
    if !resist {
      var _ := store.IncrementHabitLog(user.id, when, qty);
      assert user.State() == after;
    }
    if ValidAccount(before) {
      HandlerProperties.EventRecordedValid(before, resist, qty, noteClean, when);
      assert ValidAccount(user.State());
    }
  }

  /** `getHabitStats` / the tail of every handler: the payload, or 404. */
  method GetHabitStats(user: User?, store: HabitLogStore, now: int) returns (r: Outcome<StatsPayload>)
    ensures user == null <==> r == Fail(UserNotFound)
    ensures user != null ==> r == Ok(StatsFor(user, store, now))
    ensures r.Ok? ==> r.value.bestStreakDays == user.stats.bestStreakDays
                      && r.value.moneySaved == MoneySaved(r.value.streakDays, r.value.baselineSpendPerDay)
  {
    if user == null {
      return Fail(UserNotFound);
    }
    r := Ok(StatsFor(user, store, now));
  }
}
