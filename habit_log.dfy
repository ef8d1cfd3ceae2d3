/** The daily aggregate store (server/models/HabitLog.js): one row per
    (user, UTC day) holding the units used that day, and the upsert-increment
    `incrementHabitLog` of habitController.js. */
module HabitLog {
  import opened UtcDay

  type UserId = nat

  /** The unique compound index `{ user: 1, day: 1 }`: a map key, so two
      rows for one (user, day) cannot exist. */
  datatype LogKey = LogKey(user: UserId, day: int)

  /** What `incrementHabitLog` hands back: the row's day and new units. */
  datatype LogRow = LogRow(day: int, units: int)

  /** The key of the row that buckets instant `when` for `user`. */
  function KeyFor(user: UserId, when: int): (k: LogKey)
    ensures k.user == user && IsDayStart(k.day) && k.day <= when < k.day + DAY_MS
  {
    LogKey(user, StartOfUtcDay(when))
  }

  /** The units of a row; a missing row reads as the default 0. */
  function UnitsFor(logs: map<LogKey, int>, k: LogKey): (u: int)
    ensures k !in logs ==> u == 0
    ensures k in logs ==> u == logs[k]
  {
    if k in logs then logs[k] else 0
  }

  /** Every row buckets a UTC midnight and holds non-negative units. */
  predicate ValidLogs(logs: map<LogKey, int>) {
    forall k :: k in logs ==> IsDayStart(k.day) && logs[k] >= 0
  }

  /** The rows after the upsert `$inc: { units: u }` on (user, day of `when`):
      that row gains exactly `u` (counting from 0 when it is new) and every
      other row, of this user or another, is unchanged. */
  function Incremented(logs: map<LogKey, int>, user: UserId, when: int, u: int): (r: map<LogKey, int>)
    ensures r.Keys == logs.Keys + {KeyFor(user, when)}
    ensures UnitsFor(r, KeyFor(user, when)) == UnitsFor(logs, KeyFor(user, when)) + u
    ensures forall k :: k != KeyFor(user, when) ==> UnitsFor(r, k) == UnitsFor(logs, k)
  {
    var k := KeyFor(user, when);
    logs[k := UnitsFor(logs, k) + u]
  }

  /** Non-negative increments keep the schema's `min: 0` and the midnight keys. */
  lemma IncrementPreservesValid(logs: map<LogKey, int>, user: UserId, when: int, u: int)
    requires ValidLogs(logs) && u >= 0
    ensures ValidLogs(Incremented(logs, user, when, u))
  {
  }

  /** Instants of the same UTC day update the same row. */
  lemma SameDaySameRow(user: UserId, a: int, b: int)
    requires DayNumber(a) == DayNumber(b)
    ensures KeyFor(user, a) == KeyFor(user, b)
  {
    SameDayIffSameDayNumber(a, b);
  }

  function Sum(qs: seq<int>): int {
    if qs == [] then 0 else qs[0] + Sum(qs[1..])
  }

  /** Increments one after another, all at instant `when`. */
  function IncrementAll(logs: map<LogKey, int>, user: UserId, when: int, qs: seq<int>): map<LogKey, int>
    decreases |qs|
  {
    if qs == [] then logs else IncrementAll(Incremented(logs, user, when, qs[0]), user, when, qs[1..])
  }

  /** N increments of the same day add up: the row ends at its old units plus
      the sum of all the quantities, and no other row moves. */
  lemma {:induction false} IncrementAllAddsSum(logs: map<LogKey, int>, user: UserId, when: int, qs: seq<int>)
    ensures UnitsFor(IncrementAll(logs, user, when, qs), KeyFor(user, when)) == UnitsFor(logs, KeyFor(user, when)) + Sum(qs)
    ensures forall k :: k != KeyFor(user, when) ==> UnitsFor(IncrementAll(logs, user, when, qs), k) == UnitsFor(logs, k)
    decreases |qs|
  {
    if qs != [] {
      IncrementAllAddsSum(Incremented(logs, user, when, qs[0]), user, when, qs[1..]);
    }
  }

  /** The HabitLog collection, updated in place by upserts. */
  class HabitLogStore {
    var logs: map<LogKey, int>

    ghost predicate Valid()
      reads this
    {
      ValidLogs(logs)
    }

    constructor ()
      ensures Valid() && logs == map[]
    {
      logs := map[];
    }

    /** `todayLog?.units || 0`: the units of the row, 0 when there is none. */
    function UnitsOn(user: UserId, day: int): (u: int)
      reads this
      ensures LogKey(user, day) !in logs ==> u == 0
      ensures LogKey(user, day) in logs ==> u == logs[LogKey(user, day)]
      ensures Valid() ==> u >= 0
    {
      UnitsFor(logs, LogKey(user, day))
    }

    /** `incrementHabitLog(user, when, u)`: upserts the row of `when`'s UTC day
        and returns it as updated. The `$inc` itself does not run the schema's
        `min: 0` check; the store stays valid because both handlers pass an
        amount they have already checked to be non-negative. */
    method IncrementHabitLog(user: UserId, when: int, u: int) returns (row: LogRow)
      modifies this
      ensures old(Valid()) && u >= 0 ==> Valid()
      ensures logs == Incremented(old(logs), user, when, u)
      ensures row == LogRow(StartOfUtcDay(when), UnitsFor(old(logs), KeyFor(user, when)) + u)
    {
      var day := StartOfUtcDay(when);
      var k := LogKey(user, day);
      var current := if k in logs then logs[k] else 0;
      if Valid() && u >= 0 {
        IncrementPreservesValid(logs, user, when, u);
      }
      logs := logs[k := current + u];
      row := LogRow(day, current + u);
    }
  }
}
