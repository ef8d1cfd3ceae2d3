/** The habit, stats and habit-event records of the user document
    (server/models/User.js), extended with the fields habitController.js
    writes, and their schema constraints stated as invariants. */
module UserModel {
  import opened Outcomes
  import opened UtcDay

  /** Hard cap on the stored event history. */
  const MAX_EVENTS_STORED: int := 500
  /** Longest stored check-in mood and event note. */
  const MOOD_MAX: int := 20
  const NOTE_MAX: int := 500

  // ---- habit settings --------------------------------------------------

  datatype Substance = Cigarettes | Vape | Alcohol | Weed | OtherSubstance

  function SubstanceName(s: Substance): string {
    match s
    case Cigarettes => "cigarettes"
    case Vape => "vape"
    case Alcohol => "alcohol"
    case Weed => "weed"
    case OtherSubstance => "other"
  }

  /** The schema's enum check: a name outside the enum is refused. */
  function ParseSubstance(name: string): (r: Option<Substance>)
    ensures r.Some? ==> SubstanceName(r.value) == name
  {
    if name == "cigarettes" then Some(Cigarettes)
    else if name == "vape" then Some(Vape)
    else if name == "alcohol" then Some(Alcohol)
    else if name == "weed" then Some(Weed)
    else if name == "other" then Some(OtherSubstance)
    else None
  }

  /** Every enum value's name is accepted and parses back to it. */
  lemma SubstanceRoundTrip(s: Substance)
    ensures ParseSubstance(SubstanceName(s)) == Some(s)
  {
  }

  datatype Intent = Quit | CutBack | Break | Taper

  function IntentName(i: Intent): string {
    match i
    case Quit => "quit"
    case CutBack => "cut-back"
    case Break => "break"
    case Taper => "taper"
  }

  function ParseIntent(name: string): (r: Option<Intent>)
    ensures r.Some? ==> IntentName(r.value) == name
  {
    if name == "quit" then Some(Quit)
    else if name == "cut-back" then Some(CutBack)
    else if name == "break" then Some(Break)
    else if name == "taper" then Some(Taper)
    else None
  }

  lemma IntentRoundTrip(i: Intent)
    ensures ParseIntent(IntentName(i)) == Some(i)
  {
  }

  /** The `habit` sub-document. */
  datatype Habit = Habit(
    substance: Substance,
    customName: string,
    intent: Intent,
    unitsPerDay: int,
    packCost: int,
    unitsPerPack: int,
    currency: string)

  /** `min: 0` on unitsPerDay and packCost, `min: 1` on unitsPerPack. */
  predicate ValidHabit(h: Habit) {
    h.unitsPerDay >= 0 && h.packCost >= 0 && h.unitsPerPack >= 1
  }

  /** The schema defaults. */
  const DefaultHabit: Habit := Habit(Cigarettes, "", Quit, 0, 0, 20, "USD")

  lemma DefaultHabitValid()
    ensures ValidHabit(DefaultHabit)
    ensures DefaultHabit.substance == Cigarettes && DefaultHabit.intent == Quit
    ensures DefaultHabit.unitsPerPack == 20 && DefaultHabit.unitsPerDay == 0 && DefaultHabit.packCost == 0
  {
  }

  // ---- streak anchors ----------------------------------------------------

  /** The `stats` sub-document with every field the controller writes.
      Instants are epoch milliseconds; `None` is an unset date. */
  datatype Stats = Stats(
    streakStartedAt: Option<int>,
    bestStreakDays: nat,
    lastResetAt: Option<int>,
    lastActivityAt: Option<int>,
    lastUseAt: Option<int>,
    lastCheckInAt: Option<int>,
    lastCheckInMood: string,
    lastCheckInNote: string,
    resistsTotal: nat,
    lastResistAt: Option<int>)

  /** Fresh stats: no anchors, best streak 0 (the schema default), no resists. */
  const DefaultStats: Stats := Stats(None, 0, None, None, None, None, "", "", 0, None)

  /** The streak start is always a UTC midnight; the check-in texts are cut. */
  predicate ValidStats(s: Stats) {
    && (s.streakStartedAt.Some? ==> IsDayStart(s.streakStartedAt.value))
    && |s.lastCheckInMood| <= MOOD_MAX
    && |s.lastCheckInNote| <= NOTE_MAX
  }

  // ---- event history -----------------------------------------------------

  datatype EventKind = Use | Resist | CheckIn

  /** One entry of `habitEvents`; `mood` is present on check-ins only. */
  datatype HabitEvent = HabitEvent(
    kind: EventKind,
    quantity: int,
    at: int,
    note: string,
    mood: Option<string>)

  /** `quantity` is at least 1 (the schema's `min: 1`; every writer clamps it
      to at most 999), a check-in counts 1 and carries its mood, notes and
      moods are cut to their limits. */
  predicate ValidEvent(e: HabitEvent) {
    && 1 <= e.quantity <= 999
    && |e.note| <= NOTE_MAX
    && (e.kind == CheckIn <==> e.mood.Some?)
    && (e.kind == CheckIn ==> e.quantity == 1 && |e.mood.value| <= MOOD_MAX)
  }

  // ---- the user record ---------------------------------------------------

  /** The habit-related part of a user document. `habit` is absent until the
      settings are first saved; `habitEvents` defaults to the empty list. */
  datatype Account = Account(habit: Option<Habit>, stats: Stats, events: seq<HabitEvent>)

  const NewAccount: Account := Account(None, DefaultStats, [])

  predicate ValidAccount(a: Account) {
    && (a.habit.Some? ==> ValidHabit(a.habit.value))
    && ValidStats(a.stats)
    && |a.events| <= MAX_EVENTS_STORED
    && forall i :: 0 <= i < |a.events| ==> ValidEvent(a.events[i])
  }

  lemma NewAccountValid()
    ensures ValidAccount(NewAccount)
    ensures NewAccount.events == [] && NewAccount.stats.bestStreakDays == 0
  {
  }
}
