/** The read-only stats projection of habitController.js
    (`buildHabitStatsPayload`): the clean streak derived from the anchors, the
    baseline money figures and today's usage. Money is exact `real`
    arithmetic. */
module StatsProjection {
  import opened Outcomes
  import opened UtcDay
  import opened Coerce
  import opened UserModel
  import opened Ledger

  /** `diffMs >= 0 ? Math.floor(diffMs / DAY_MS) : 0` between two midnights. */
  function WholeDaysSince(fromDay: int, todayStart: int): nat {
    if todayStart - fromDay >= 0 then (todayStart - fromDay) / DAY_MS else 0
  }

  /** The instant the clean streak counts from: the last use, or else the
      streak start. */
  function StreakAnchor(s: Stats): Option<int> {
    if s.lastUseAt.Some? then s.lastUseAt else s.streakStartedAt
  }

  /** The clean streak as of `now`: the number of UTC midnights passed since
      the anchor's day, never negative, and 0 without an anchor. */
  function StreakDays(s: Stats, now: int): (n: nat)
    ensures StreakAnchor(s).None? ==> n == 0
    ensures StreakAnchor(s).Some? ==>
      n == (if DayNumber(StreakAnchor(s).value) <= DayNumber(now)
            then DayNumber(now) - DayNumber(StreakAnchor(s).value) else 0)
  {
    var today := StartOfUtcDay(now);
    match s.lastUseAt
    case Some(u) =>
      DaysBetweenStarts(u, now);
      StartIsDayNumberTimesDay(u);
      StartIsDayNumberTimesDay(now);
      WholeDaysSince(StartOfUtcDay(u), today)
    case None =>
      match s.streakStartedAt
      case Some(d) =>
        DaysBetweenStarts(d, now);
        StartIsDayNumberTimesDay(d);
        StartIsDayNumberTimesDay(now);
        WholeDaysSince(StartOfUtcDay(d), today)
      case None => 0
  }

  /** The three baseline settings as the projection reads them. */
  datatype Baseline = Baseline(unitsPerDay: int, unitsPerPack: int, packCost: int)

  /** `toNumber(habit.unitsPerDay, 0)`, `toNumber(habit.unitsPerPack, 20) || 20`
      and `toNumber(habit.packCost, 0)`, over `user.habit || {}`. */
  function BaselineOf(h: Option<Habit>): (b: Baseline)
    ensures b.unitsPerDay >= 0 && b.unitsPerPack >= 1 && b.packCost >= 0
    ensures h.None? ==> b == Baseline(0, 20, 0)
    ensures h.Some? && ValidHabit(h.value) ==>
      b == Baseline(h.value.unitsPerDay, h.value.unitsPerPack, h.value.packCost)
  {
    match h
    case None => Baseline(ToNumber(Absent, 0), DefaultHabit.unitsPerPack, ToNumber(Absent, 0))
    case Some(hb) =>
      var pack := ToNumber(Num(hb.unitsPerPack), DefaultHabit.unitsPerPack);
      Baseline(ToNumber(Num(hb.unitsPerDay), 0), if pack == 0 then DefaultHabit.unitsPerPack else pack, ToNumber(Num(hb.packCost), 0))
  }

  /** `baselineSpendPerDay`: units per day times the cost of one unit
      (`packCost / unitsPerPack`); the zero guard changes nothing because a
      zero factor makes the product zero anyway. */
  function BaselineSpendPerDay(b: Baseline): (r: real)
    requires b.unitsPerPack >= 1
    ensures r == b.unitsPerDay as real * (b.packCost as real / b.unitsPerPack as real)
  {
    if b.unitsPerDay != 0 && b.unitsPerPack != 0 && b.packCost != 0
    then (b.unitsPerDay as real / b.unitsPerPack as real) * b.packCost as real
    else 0.0
  }

  /** `todaySpend`: today's units priced at the baseline's cost per unit, or 0
      when no baseline is configured. */
  function TodaySpend(todayUnits: int, b: Baseline): (r: real)
    requires b.unitsPerPack >= 1
    ensures b.unitsPerDay != 0 ==> r == todayUnits as real * (b.packCost as real / b.unitsPerPack as real)
    ensures b.unitsPerDay == 0 ==> r == 0.0
  {
    var spend := BaselineSpendPerDay(b);
    if b.unitsPerDay != 0 && spend != 0.0
    then (todayUnits as real / b.unitsPerDay as real) * spend
    else 0.0
  }

  /** `streakDays * baselineSpendPerDay`: what the clean days are worth. */
  function MoneySaved(streakDays: nat, spendPerDay: real): (r: real)
    ensures streakDays == 0 || spendPerDay == 0.0 ==> r == 0.0
    ensures spendPerDay >= 0.0 ==> r >= 0.0
  {
    streakDays as real * spendPerDay
  }

  /** Money saved grows by one day's spend per clean day: nothing for no
      streak, and one more day's spend for each further day. */
  lemma MoneySavedPerDay(n: nat, spendPerDay: real)
    ensures MoneySaved(0, spendPerDay) == 0.0
    ensures MoneySaved(n + 1, spendPerDay) == MoneySaved(n, spendPerDay) + spendPerDay
  {
  }

  /** With a non-negative daily spend, a longer streak never saves less. */
  lemma MoneySavedMonotone(n: nat, m: nat, spendPerDay: real)
    requires n <= m && spendPerDay >= 0.0
    ensures MoneySaved(n, spendPerDay) <= MoneySaved(m, spendPerDay)
  {
    assert MoneySaved(m, spendPerDay) - MoneySaved(n, spendPerDay) == (m - n) as real * spendPerDay;
  }

  /** The stats payload (the keys `currentStreak`, `daysClean` and
      `longestStreak` repeat `streakDays` and `bestStreakDays`). */
  datatype StatsPayload = StatsPayload(
    hasHabit: bool,
    substance: Option<Substance>,
    customName: string,
    intent: Intent,
    currency: string,
    baselineUnitsPerDay: int,
    baselineSpendPerDay: real,
    unitsPerPack: int,
    packCost: int,
    streakDays: nat,
    bestStreakDays: nat,
    lastCheckInAt: Option<int>,
    moneySaved: real,
    todayUnits: int,
    todaySpend: real,
    todayVsBaseline: Option<int>,
    recentEvents: seq<HabitEvent>,
    dashboardDefaultLimit: int)

  /** `buildHabitStatsPayload` for a found user, given the units of today's
      row (`todayLog?.units || 0`). */
  function BuildHabitStatsPayload(a: Account, todayUnits: int, now: int): (p: StatsPayload)
    ensures p.hasHabit <==> a.habit.Some?
    ensures a.habit.Some? ==> p.substance == Some(a.habit.value.substance) && p.customName == a.habit.value.customName
                              && p.intent == a.habit.value.intent
    ensures a.habit.None? ==> p.substance == None && p.customName == "" && p.intent == Quit
    ensures p.currency == (if a.habit.Some? && a.habit.value.currency != "" then a.habit.value.currency else "USD")
    ensures p.todayUnits == todayUnits && p.lastCheckInAt == a.stats.lastCheckInAt
    ensures p.streakDays == StreakDays(a.stats, now)
    ensures p.bestStreakDays == a.stats.bestStreakDays
    ensures var b := BaselineOf(a.habit);
      && p.baselineUnitsPerDay == b.unitsPerDay && p.unitsPerPack == b.unitsPerPack && p.packCost == b.packCost
      && p.baselineSpendPerDay == BaselineSpendPerDay(b)
      && p.todaySpend == TodaySpend(todayUnits, b)
    ensures p.moneySaved == MoneySaved(p.streakDays, p.baselineSpendPerDay)
    ensures p.unitsPerPack >= 1 && p.baselineUnitsPerDay >= 0 && p.packCost >= 0
    ensures p.todayVsBaseline.Some? <==> p.baselineUnitsPerDay != 0
    ensures p.todayVsBaseline.Some? ==> p.todayVsBaseline.value == p.baselineUnitsPerDay - todayUnits
    ensures p.recentEvents == RecentEvents(a.events)
    ensures |p.recentEvents| <= MAX_EVENTS_STORED
    ensures p.currency != ""
  {
    var b := BaselineOf(a.habit);
    var spend := BaselineSpendPerDay(b);
    var streak := StreakDays(a.stats, now);
    StatsPayload(
      hasHabit := a.habit.Some?,
      substance := if a.habit.Some? then Some(a.habit.value.substance) else None,
      customName := if a.habit.Some? then a.habit.value.customName else "",
      intent := if a.habit.Some? then a.habit.value.intent else DefaultHabit.intent,
      currency := if a.habit.Some? && a.habit.value.currency != "" then a.habit.value.currency else "USD",
      baselineUnitsPerDay := b.unitsPerDay,
      baselineSpendPerDay := spend,
      unitsPerPack := b.unitsPerPack,
      packCost := b.packCost,
      streakDays := streak,
      bestStreakDays := a.stats.bestStreakDays,
      lastCheckInAt := a.stats.lastCheckInAt,
      moneySaved := MoneySaved(streak, spend),
      todayUnits := todayUnits,
      todaySpend := TodaySpend(todayUnits, b),
      todayVsBaseline := if b.unitsPerDay != 0 then Some(b.unitsPerDay - todayUnits) else None,
      recentEvents := RecentEvents(a.events),
      dashboardDefaultLimit := DASHBOARD_EVENTS_DEFAULT)
  }

  /** The last use decides the streak whenever there is one. */
  lemma StreakCountsFromLastUse(s: Stats, now: int)
    requires s.lastUseAt.Some? && s.lastUseAt.value <= now
    ensures StreakDays(s, now) == DayNumber(now) - DayNumber(s.lastUseAt.value)
  {
  }

  /** A use on the day of `now` leaves a streak of 0 whatever the streak start. */
  lemma UseTodayZeroStreak(s: Stats, when: int, now: int)
    requires DayNumber(when) == DayNumber(now)
    ensures StreakDays(s.(lastUseAt := Some(when)), now) == 0
  {
  }

  /** The streak only depends on the day of each anchor, not its time of day. */
  lemma StreakIgnoresTimeOfDay(s: Stats, now: int, now': int)
    requires DayNumber(now) == DayNumber(now')
    ensures StreakDays(s, now) == StreakDays(s, now')
  {
  }

  /** A use on day d and a stats read on day d + 4, with 20 units a day at 10
      per pack of 20: a 4-day streak worth 4 * 20 * 0.5 = 40 saved. */
  lemma FourDayScenario(a: Account, useAt: int, now: int, todayUnits: int)
    requires a.habit == Some(Habit(Cigarettes, "", Quit, 20, 10, 20, "USD"))
    requires a.stats.lastUseAt == Some(useAt)
    requires DayNumber(now) == DayNumber(useAt) + 4
    ensures BuildHabitStatsPayload(a, todayUnits, now).streakDays == 4
    ensures BuildHabitStatsPayload(a, todayUnits, now).baselineSpendPerDay == 10.0
    ensures BuildHabitStatsPayload(a, todayUnits, now).moneySaved == 40.0
  {
  }

  /** A fresh user reports nothing: no streak, no best streak, nothing saved,
      no events. */
  lemma FreshUserScenario(now: int)
    ensures BuildHabitStatsPayload(NewAccount, 0, now).streakDays == 0
    ensures BuildHabitStatsPayload(NewAccount, 0, now).bestStreakDays == 0
    ensures BuildHabitStatsPayload(NewAccount, 0, now).moneySaved == 0.0
    ensures BuildHabitStatsPayload(NewAccount, 0, now).recentEvents == []
    ensures BuildHabitStatsPayload(NewAccount, 0, now).todayVsBaseline == None
  {
  }

  /** The next UTC day, with no new use or check-in in between: the streak is
      one day longer and one more day's spend is saved, whatever today's row. */
  lemma NextDayAddsOneDaySpend(a: Account, todayUnits: int, laterUnits: int, now: int)
    requires StreakAnchor(a.stats).Some? && DayNumber(StreakAnchor(a.stats).value) <= DayNumber(now)
    ensures var p := BuildHabitStatsPayload(a, todayUnits, now);
      var q := BuildHabitStatsPayload(a, laterUnits, now + DAY_MS);
      && q.streakDays == p.streakDays + 1
      && q.baselineSpendPerDay == p.baselineSpendPerDay
      && q.moneySaved == p.moneySaved + p.baselineSpendPerDay
  {
    assert DayNumber(now + DAY_MS) == DayNumber(now) + 1;
    var p := BuildHabitStatsPayload(a, todayUnits, now);
    MoneySavedPerDay(p.streakDays, p.baselineSpendPerDay);
  }
}
