/** What the habit handlers promise, stated over their functional model:
    the use/resist split, the check-in throttle, the best-streak ratchet,
    day bucketing of usage, and the record invariants every request keeps. */
module HandlerProperties {
  import opened Outcomes
  import opened UtcDay
  import opened Coerce
  import opened UserModel
  import opened Ledger
  import opened HabitLog
  import opened StatsProjection
  import opened Handlers

  // ---- settings ----------------------------------------------------------

  /** Leaving substance and intent out never fails the save: the stored (or
      default) enum values are reused. */
  lemma SettingsDefaultsAccepted(prev: Option<Habit>, input: SettingsInput)
    requires !Truthy(input.substance) && !Truthy(input.intent)
    ensures NormalizeHabit(prev, input).Ok?
    ensures NormalizeHabit(prev, input).value.intent == (if prev.Some? then prev.value.intent else Quit)
  {
    if prev.Some? {
      SubstanceRoundTrip(prev.value.substance);
      IntentRoundTrip(prev.value.intent);
    }
  }

  /** A saved settings record keeps the schema ranges and leaves the streak
      anchored at a UTC midnight. */
  lemma SaveSettingsAnchorsStreak(a: Account, logs: map<LogKey, int>, input: SettingsInput, now: int)
    requires SaveHabitSettings(Some(a), logs, input, now).Ok?
    ensures var e := SaveHabitSettings(Some(a), logs, input, now).value;
      && e.account.habit.Some? && ValidHabit(e.account.habit.value)
      && e.account.stats.streakStartedAt == (if a.stats.streakStartedAt.Some? then a.stats.streakStartedAt else Some(StartOfUtcDay(now)))
      && e.account.stats.bestStreakDays == a.stats.bestStreakDays
      && e.account.events == a.events && e.logs == logs
  {
  }

  // ---- logHabitUse -------------------------------------------------------

  /** `logHabitUse` with `units = n >= 0`: the day's row grows by the raw n
      (not clamped); a positive n moves both anchors to the use and records a
      use of clamp(n, 1, 999); n = 0 only touches `lastActivityAt`. */
  lemma LogUseEffect(a: Account, logs: map<LogKey, int>, user: UserId, n: int, ts: Value, now: int)
    requires n >= 0 && AcceptTimestamp(ts, now).Ok?
    ensures var when := AcceptTimestamp(ts, now).value;
      var r := LogHabitUse(Some(a), logs, user, Num(n), ts, now);
      && r.Ok?
      && UnitsFor(r.value.logs, KeyFor(user, when)) == UnitsFor(logs, KeyFor(user, when)) + n
      && (forall k :: k != KeyFor(user, when) ==> UnitsFor(r.value.logs, k) == UnitsFor(logs, k))
      && r.value.row == Some(LogRow(StartOfUtcDay(when), UnitsFor(logs, KeyFor(user, when)) + n))
      && (n > 0 ==>
            && r.value.account.stats.lastUseAt == Some(when)
            && r.value.account.stats.streakStartedAt == Some(StartOfUtcDay(when))
            && r.value.account.events == Pushed(a.events, HabitEvent(Use, Clamp(n, 1, 999), when, "", None)))
      && (n == 0 ==>
            r.value.account == a.(stats := a.stats.(lastActivityAt := Some(when))))
  {
  }

  /** Units that are negative or not a finite number are refused before
      anything else is looked at. */
  lemma LogUseRejectsBadUnits(acct: Option<Account>, logs: map<LogKey, int>, user: UserId, units: Value, ts: Value, now: int)
    requires units.NotFinite? || (units.Num? && units.n < 0)
    ensures LogHabitUse(acct, logs, user, units, ts, now) == Fail(UnitsInvalid)
  {
  }

  // ---- postHabitEvent ----------------------------------------------------

  /** A `use` event sets `lastUseAt` to the event time and restarts the streak
      on its UTC day, records a quantity in [1, 999], and adds exactly that
      quantity to the event day's row. */
  lemma UseEventResetsAnchors(a: Account, logs: map<LogKey, int>, user: UserId, q: Option<int>, note: Option<string>, ts: Value, now: int)
    requires AcceptTimestamp(ts, now).Ok?
    ensures var when := AcceptTimestamp(ts, now).value;
      var r := PostHabitEvent(Some(a), logs, user, "use", q, note, ts, now);
      && r.Ok?
      && r.value.account.stats.lastUseAt == Some(when)
      && r.value.account.stats.streakStartedAt == Some(StartOfUtcDay(when))
      && r.value.account.stats.resistsTotal == a.stats.resistsTotal
      && r.value.account.stats.bestStreakDays == a.stats.bestStreakDays
      && UnitsFor(r.value.logs, KeyFor(user, when)) == UnitsFor(logs, KeyFor(user, when)) + EventQuantity(q)
    ensures var r := PostHabitEvent(Some(a), logs, user, "use", q, note, ts, now);
      var ev := r.value.account.events[|r.value.account.events| - 1];
      ev.kind == Use && ev.at == AcceptTimestamp(ts, now).value && 1 <= ev.quantity <= 999
  {
  }

  /** A `resist` event adds its quantity to `resistsTotal` and leaves the
      streak anchors, the best streak and the day store alone. */
  lemma ResistKeepsAnchors(a: Account, logs: map<LogKey, int>, user: UserId, q: Option<int>, note: Option<string>, ts: Value, now: int)
    requires AcceptTimestamp(ts, now).Ok?
    ensures var r := PostHabitEvent(Some(a), logs, user, "resist", q, note, ts, now);
      && r.Ok?
      && r.value.account.stats.resistsTotal == a.stats.resistsTotal + EventQuantity(q)
      && r.value.account.stats.lastUseAt == a.stats.lastUseAt
      && r.value.account.stats.streakStartedAt == a.stats.streakStartedAt
      && r.value.account.stats.bestStreakDays == a.stats.bestStreakDays
      && StreakDays(r.value.account.stats, now) == StreakDays(a.stats, now)
      && r.value.logs == logs
  {
  }

  /** Any type other than `use` and `resist` is refused. */
  lemma EventRejectsUnknownType(acct: Option<Account>, logs: map<LogKey, int>, user: UserId, kind: string,
                                q: Option<int>, note: Option<string>, ts: Value, now: int)
    requires kind != "use" && kind != "resist"
    ensures PostHabitEvent(acct, logs, user, kind, q, note, ts, now) == Fail(TypeInvalid)
  {
  }

  // ---- postHabitCheckIn --------------------------------------------------

  /** The throttle, both ways: a check-in for a found user with an accepted
      timestamp is refused with a conflict exactly when the stored check-in
      lies on the same UTC day as the new one's event time. */
  lemma CheckInThrottle(a: Account, logs: map<LogKey, int>, mood: Option<string>, note: Option<string>, ts: Value, now: int)
    requires AcceptTimestamp(ts, now).Ok?
    ensures var when := AcceptTimestamp(ts, now).value;
      PostHabitCheckIn(Some(a), logs, mood, note, ts, now) == Fail(AlreadyCheckedIn)
      <==> a.stats.lastCheckInAt.Some? && DayNumber(a.stats.lastCheckInAt.value) == DayNumber(when)
    ensures PostHabitCheckIn(Some(a), logs, mood, note, ts, now).Fail? ==>
      PostHabitCheckIn(Some(a), logs, mood, note, ts, now) == Fail(AlreadyCheckedIn)
  {
    var when := AcceptTimestamp(ts, now).value;
    if a.stats.lastCheckInAt.Some? {
      SameDayIffSameDayNumber(a.stats.lastCheckInAt.value, when);
    }
  }

  /** An accepted check-in raises the best streak to max(old best, current
      streak), never lowers it, records one check-in and leaves the day
      store alone. */
  lemma CheckInRatchet(a: Account, logs: map<LogKey, int>, mood: Option<string>, note: Option<string>, ts: Value, now: int)
    requires PostHabitCheckIn(Some(a), logs, mood, note, ts, now).Ok?
    ensures var e := PostHabitCheckIn(Some(a), logs, mood, note, ts, now).value;
      var streak := StreakDays(e.account.stats, now);
      && e.account.stats.bestStreakDays == (if streak > a.stats.bestStreakDays then streak else a.stats.bestStreakDays)
      && e.account.stats.bestStreakDays >= a.stats.bestStreakDays
      && e.account.stats.lastCheckInAt == Some(AcceptTimestamp(ts, now).value)
      && e.account.stats.lastUseAt == a.stats.lastUseAt
      && e.account.events[|e.account.events| - 1].kind == CheckIn
      && e.logs == logs
  {
    var when := AcceptTimestamp(ts, now).value;
    var m, n := CleanText(mood, MOOD_MAX), CleanText(note, NOTE_MAX);
    assert PostHabitCheckIn(Some(a), logs, mood, note, ts, now) == Ok(Effect(CheckedIn(a, m, n, when, now), logs, None));
    CheckedInRatchet(a, m, n, when, now);
  }

  /** The accepted part of a check-in on its own. */
  lemma CheckedInRatchet(a: Account, m: string, n: string, when: int, now: int)
    ensures var b := CheckedIn(a, m, n, when, now);
      var streak := StreakDays(b.stats, now);
      && b.stats.bestStreakDays == (if streak > a.stats.bestStreakDays then streak else a.stats.bestStreakDays)
      && b.stats.lastCheckInAt == Some(when)
      && b.stats.lastUseAt == a.stats.lastUseAt
      && b.events[|b.events| - 1] == HabitEvent(CheckIn, 1, when, n, Some(m))
  {
    var b := CheckedIn(a, m, n, when, now);
    var s1 := a.stats.(lastCheckInAt := Some(when), lastCheckInMood := m,
                       lastCheckInNote := n, lastActivityAt := Some(when));
    var s2 := if s1.streakStartedAt.None? then s1.(streakStartedAt := Some(StartOfUtcDay(when))) else s1;
    assert StreakDays(b.stats, now) == StreakDays(s2, now);
  }

  /** After an accepted check-in, a check-in whose event time falls on a
      later UTC day is accepted too. */
  lemma NextDayCheckInAccepted(a: Account, logs: map<LogKey, int>, mood: Option<string>, note: Option<string>, ts: Value, now: int,
                               mood2: Option<string>, note2: Option<string>, ts2: Value, now2: int)
    requires PostHabitCheckIn(Some(a), logs, mood, note, ts, now).Ok?
    requires AcceptTimestamp(ts2, now2).Ok?
    requires DayNumber(AcceptTimestamp(ts2, now2).value) > DayNumber(AcceptTimestamp(ts, now).value)
    ensures PostHabitCheckIn(Some(PostHabitCheckIn(Some(a), logs, mood, note, ts, now).value.account), logs, mood2, note2, ts2, now2).Ok?
  {
    var when, when2 := AcceptTimestamp(ts, now).value, AcceptTimestamp(ts2, now2).value;
    var m, n := CleanText(mood, MOOD_MAX), CleanText(note, NOTE_MAX);
    var b := CheckedIn(a, m, n, when, now);
    assert PostHabitCheckIn(Some(a), logs, mood, note, ts, now) == Ok(Effect(b, logs, None));
    CheckedInRatchet(a, m, n, when, now);
    SameDayIffSameDayNumber(when, when2);
    assert !CheckedInSameDay(b.stats, when2);
  }

  /** Check in, then resist `q` times: resistsTotal grows by exactly `q`,
      the streak is whatever it was after the check-in, and no use is
      recorded. */
  lemma CheckInThenResistScenario(a: Account, logs: map<LogKey, int>, user: UserId, mood: Option<string>, q: int,
                                  ts0: Value, now0: int, ts1: Value, now1: int)
    requires a.stats.lastUseAt.None? && a.stats.resistsTotal == 0 && 1 <= q <= 999
    requires PostHabitCheckIn(Some(a), logs, mood, None, ts0, now0).Ok?
    requires AcceptTimestamp(ts1, now1).Ok?
    ensures var e0 := PostHabitCheckIn(Some(a), logs, mood, None, ts0, now0).value;
      var r1 := PostHabitEvent(Some(e0.account), e0.logs, user, "resist", Some(q), None, ts1, now1);
      && r1.Ok?
      && r1.value.account.stats.resistsTotal == q
      && r1.value.account.stats.lastUseAt.None?
      && StreakDays(r1.value.account.stats, now1) == StreakDays(e0.account.stats, now1)
  {
    var when0, when1 := AcceptTimestamp(ts0, now0).value, AcceptTimestamp(ts1, now1).value;
    var b := CheckedIn(a, CleanText(mood, MOOD_MAX), "", when0, now0);
    assert PostHabitCheckIn(Some(a), logs, mood, None, ts0, now0) == Ok(Effect(b, logs, None));
    assert b.stats.resistsTotal == 0 && b.stats.lastUseAt.None?;
    var c := EventRecorded(b, true, q, "", when1);
    assert PostHabitEvent(Some(b), logs, user, "resist", Some(q), None, ts1, now1) == Ok(Effect(c, logs, None));
    assert StreakAnchor(c.stats) == StreakAnchor(b.stats);
  }

  // ---- every request -----------------------------------------------------

  /** Only a check-in can change the best streak, and then only upwards. */
  lemma HandleBestStreak(a: Account, logs: map<LogKey, int>, user: UserId, r: Request, now: int)
    requires Handle(a, logs, user, r, now).Ok?
    ensures Handle(a, logs, user, r, now).value.account.stats.bestStreakDays >= a.stats.bestStreakDays
    ensures !r.CheckInRequest? ==> Handle(a, logs, user, r, now).value.account.stats.bestStreakDays == a.stats.bestStreakDays
  {
    match r
    case SettingsRequest(_) =>
    case LogUseRequest(units, ts) => LogUseKeepsBest(a, logs, user, units, ts, now);
    case CheckInRequest(mood, note, ts) => CheckInRatchet(a, logs, mood, note, ts, now);
    case EventRequest(kind, q, note, ts) => EventKeepsBest(a, logs, user, kind, q, note, ts, now);
  }

  /** The check-in fields are written only by a check-in, so no other request
      re-opens the once-a-day throttle; every accepted use, resist or check-in
      marks the event time as the last activity. */
  lemma HandleCheckInFields(a: Account, logs: map<LogKey, int>, user: UserId, r: Request, now: int)
    requires Handle(a, logs, user, r, now).Ok?
    ensures var b := Handle(a, logs, user, r, now).value.account;
      !r.CheckInRequest? ==>
        && b.stats.lastCheckInAt == a.stats.lastCheckInAt
        && b.stats.lastCheckInMood == a.stats.lastCheckInMood
        && b.stats.lastCheckInNote == a.stats.lastCheckInNote
    ensures var b := Handle(a, logs, user, r, now).value.account;
      && (r.LogUseRequest? ==> b.stats.lastActivityAt == Some(AcceptTimestamp(r.ts, now).value))
      && (r.CheckInRequest? ==> b.stats.lastActivityAt == Some(AcceptTimestamp(r.checkInTs, now).value))
      && (r.EventRequest? ==> b.stats.lastActivityAt == Some(AcceptTimestamp(r.eventTs, now).value))
  {
    match r
    case SettingsRequest(input) =>
      var h := NormalizeHabit(a.habit, input).value;
      var st := if a.stats.streakStartedAt.None? then a.stats.(streakStartedAt := Some(StartOfUtcDay(now))) else a.stats;
      assert Handle(a, logs, user, r, now) == Ok(Effect(Account(Some(h), st, a.events), logs, None));
    case LogUseRequest(units, ts) =>
      var when := AcceptTimestamp(ts, now).value;
      var n := ParseUnits(units).value;
      assert Handle(a, logs, user, r, now).value.account == UseLogged(a, n, when);
    case CheckInRequest(mood, note, ts) =>
      var when := AcceptTimestamp(ts, now).value;
      assert Handle(a, logs, user, r, now).value.account
          == CheckedIn(a, CleanText(mood, MOOD_MAX), CleanText(note, NOTE_MAX), when, now);
    case EventRequest(kind, q, note, ts) =>
      var when := AcceptTimestamp(ts, now).value;
      assert Handle(a, logs, user, r, now).value.account
          == EventRecorded(a, kind == "resist", EventQuantity(q), CleanText(note, NOTE_MAX), when);
  }

  /** An accepted check-in stores the mood and note as `trim().slice(0, 20)`
      and `trim().slice(0, 500)` of what was sent, "" for a non-string. */
  lemma CheckInStoresCleanText(a: Account, logs: map<LogKey, int>, mood: Option<string>, note: Option<string>, ts: Value, now: int)
    requires PostHabitCheckIn(Some(a), logs, mood, note, ts, now).Ok?
    ensures var b := PostHabitCheckIn(Some(a), logs, mood, note, ts, now).value.account;
      && b.stats.lastCheckInMood == CleanText(mood, MOOD_MAX)
      && b.stats.lastCheckInNote == CleanText(note, NOTE_MAX)
      && b.events[|b.events| - 1].note == CleanText(note, NOTE_MAX)
      && b.events[|b.events| - 1].mood == Some(CleanText(mood, MOOD_MAX))
  {
    var when := AcceptTimestamp(ts, now).value;
    assert PostHabitCheckIn(Some(a), logs, mood, note, ts, now).value.account
        == CheckedIn(a, CleanText(mood, MOOD_MAX), CleanText(note, NOTE_MAX), when, now);
  }

  /** An accepted use or resist event stores its note as `trim().slice(0, 500)`. */
  lemma EventStoresCleanNote(a: Account, logs: map<LogKey, int>, user: UserId, kind: string,
                             q: Option<int>, note: Option<string>, ts: Value, now: int)
    requires PostHabitEvent(Some(a), logs, user, kind, q, note, ts, now).Ok?
    ensures var b := PostHabitEvent(Some(a), logs, user, kind, q, note, ts, now).value.account;
      && b.events[|b.events| - 1].note == CleanText(note, NOTE_MAX)
      && b.events[|b.events| - 1].quantity == EventQuantity(q)
  {
    var when := AcceptTimestamp(ts, now).value;
    assert PostHabitEvent(Some(a), logs, user, kind, q, note, ts, now).value.account
        == EventRecorded(a, kind == "resist", EventQuantity(q), CleanText(note, NOTE_MAX), when);
  }

  lemma LogUseKeepsBest(a: Account, logs: map<LogKey, int>, user: UserId, units: Value, ts: Value, now: int)
    requires LogHabitUse(Some(a), logs, user, units, ts, now).Ok?
    ensures LogHabitUse(Some(a), logs, user, units, ts, now).value.account.stats.bestStreakDays == a.stats.bestStreakDays
  {
    var when := AcceptTimestamp(ts, now).value;
    assert LogHabitUse(Some(a), logs, user, units, ts, now).value.account == UseLogged(a, ParseUnits(units).value, when);
  }

  lemma EventKeepsBest(a: Account, logs: map<LogKey, int>, user: UserId, kind: string,
                       q: Option<int>, note: Option<string>, ts: Value, now: int)
    requires PostHabitEvent(Some(a), logs, user, kind, q, note, ts, now).Ok?
    ensures PostHabitEvent(Some(a), logs, user, kind, q, note, ts, now).value.account.stats.bestStreakDays == a.stats.bestStreakDays
  {
    var when := AcceptTimestamp(ts, now).value;
    assert PostHabitEvent(Some(a), logs, user, kind, q, note, ts, now).value.account
        == EventRecorded(a, kind == "resist", EventQuantity(q), CleanText(note, NOTE_MAX), when);
  }

  lemma SettingsPreservesValid(a: Account, logs: map<LogKey, int>, input: SettingsInput, now: int)
    requires ValidAccount(a) && SaveHabitSettings(Some(a), logs, input, now).Ok?
    ensures ValidAccount(SaveHabitSettings(Some(a), logs, input, now).value.account)
    ensures SaveHabitSettings(Some(a), logs, input, now).value.logs == logs
  {
  }

  lemma LogUsePreservesValid(a: Account, logs: map<LogKey, int>, user: UserId, units: Value, ts: Value, now: int)
    requires ValidAccount(a) && ValidLogs(logs)
    requires LogHabitUse(Some(a), logs, user, units, ts, now).Ok?
    ensures ValidAccount(LogHabitUse(Some(a), logs, user, units, ts, now).value.account)
    ensures ValidLogs(LogHabitUse(Some(a), logs, user, units, ts, now).value.logs)
  {
    var n := ParseUnits(units).value;
    var when := AcceptTimestamp(ts, now).value;
    IncrementPreservesValid(logs, user, when, n);
    UseLoggedValid(a, n, when);
  }

  lemma UseLoggedValid(a: Account, n: int, when: int)
    requires ValidAccount(a)
    ensures ValidAccount(UseLogged(a, n, when))
  {
    if n > 0 {
      PushPreservesValid(a.events, HabitEvent(Use, Clamp(n, 1, 999), when, "", None));
    }
  }

  lemma CheckInPreservesValid(a: Account, logs: map<LogKey, int>, mood: Option<string>, note: Option<string>, ts: Value, now: int)
    requires ValidAccount(a)
    requires PostHabitCheckIn(Some(a), logs, mood, note, ts, now).Ok?
    ensures ValidAccount(PostHabitCheckIn(Some(a), logs, mood, note, ts, now).value.account)
    ensures PostHabitCheckIn(Some(a), logs, mood, note, ts, now).value.logs == logs
  {
    var when := AcceptTimestamp(ts, now).value;
    var m, n := CleanText(mood, MOOD_MAX), CleanText(note, NOTE_MAX);
    CheckedInValid(a, m, n, when, now);
  }

  lemma CheckedInValid(a: Account, m: string, n: string, when: int, now: int)
    requires ValidAccount(a) && |m| <= MOOD_MAX && |n| <= NOTE_MAX
    ensures ValidAccount(CheckedIn(a, m, n, when, now))
  {
    PushPreservesValid(a.events, HabitEvent(CheckIn, 1, when, n, Some(m)));
  }

  lemma EventPreservesValid(a: Account, logs: map<LogKey, int>, user: UserId, kind: string,
                            q: Option<int>, note: Option<string>, ts: Value, now: int)
    requires ValidAccount(a) && ValidLogs(logs)
    requires PostHabitEvent(Some(a), logs, user, kind, q, note, ts, now).Ok?
    ensures ValidAccount(PostHabitEvent(Some(a), logs, user, kind, q, note, ts, now).value.account)
    ensures ValidLogs(PostHabitEvent(Some(a), logs, user, kind, q, note, ts, now).value.logs)
  {
    var when := AcceptTimestamp(ts, now).value;
    var n := CleanText(note, NOTE_MAX);
    IncrementPreservesValid(logs, user, when, EventQuantity(q));
    EventRecordedValid(a, kind == "resist", EventQuantity(q), n, when);
  }

  lemma EventRecordedValid(a: Account, resist: bool, qty: nat, n: string, when: int)
    requires ValidAccount(a) && 1 <= qty <= 999 && |n| <= NOTE_MAX
    ensures ValidAccount(EventRecorded(a, resist, qty, n, when))
  {
    PushPreservesValid(a.events, HabitEvent(if resist then Resist else Use, qty, when, n, None));
  }

  /** Every request keeps the record invariants (schema ranges, midnight
      anchors, a valid capped history) and the day store's invariants. */
  lemma HandlePreservesValid(a: Account, logs: map<LogKey, int>, user: UserId, r: Request, now: int)
    requires ValidAccount(a) && ValidLogs(logs)
    requires Handle(a, logs, user, r, now).Ok?
    ensures ValidAccount(Handle(a, logs, user, r, now).value.account)
    ensures ValidLogs(Handle(a, logs, user, r, now).value.logs)
  {
    match r
    case SettingsRequest(input) => SettingsPreservesValid(a, logs, input, now);
    case LogUseRequest(units, ts) => LogUsePreservesValid(a, logs, user, units, ts, now);
    case CheckInRequest(mood, note, ts) => CheckInPreservesValid(a, logs, mood, note, ts, now);
    case EventRequest(kind, q, note, ts) => EventPreservesValid(a, logs, user, kind, q, note, ts, now);
  }

  /** Over any sequence of requests, refused or not: the record stays valid,
      the history never exceeds its cap, and the best streak never decreases. */
  lemma {:induction false} RunKeepsInvariants(a: Account, logs: map<LogKey, int>, user: UserId, reqs: seq<Timed>)
    requires ValidAccount(a) && ValidLogs(logs)
    ensures ValidAccount(Run(a, logs, user, reqs).0) && ValidLogs(Run(a, logs, user, reqs).1)
    ensures |Run(a, logs, user, reqs).0.events| <= MAX_EVENTS_STORED
    ensures Run(a, logs, user, reqs).0.stats.bestStreakDays >= a.stats.bestStreakDays
    decreases |reqs|
  {
    if reqs != [] {
      var r := Handle(a, logs, user, reqs[0].request, reqs[0].now);
      if r.Ok? {
        HandlePreservesValid(a, logs, user, reqs[0].request, reqs[0].now);
        HandleBestStreak(a, logs, user, reqs[0].request, reqs[0].now);
        RunKeepsInvariants(r.value.account, r.value.logs, user, reqs[1..]);
      } else {
        RunKeepsInvariants(a, logs, user, reqs[1..]);
      }
    }
  }
}
