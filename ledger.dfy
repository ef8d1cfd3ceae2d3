/** The capped event history of habitController.js: `pushHabitEvent`
    (append, then keep the newest MAX_EVENTS_STORED) and `buildRecentEvents`
    (newest first). */
module Ledger {
  import opened UserModel

  /** What the UI shows by default; reported in the stats, not applied. */
  const DASHBOARD_EVENTS_DEFAULT: int := 25

  function Min(a: int, b: int): int {
    if a <= b then a else b
  }

  /** `slice(-MAX_EVENTS_STORED)`: the newest MAX_EVENTS_STORED entries. */
  function Capped(s: seq<HabitEvent>): (r: seq<HabitEvent>)
    ensures |r| == Min(|s|, MAX_EVENTS_STORED)
    ensures r == s[|s| - |r|..]
  {
    if |s| > MAX_EVENTS_STORED then s[|s| - MAX_EVENTS_STORED..] else s
  }

  /** The history after `pushHabitEvent(user, ev)`. */
  function Pushed(s: seq<HabitEvent>, ev: HabitEvent): (r: seq<HabitEvent>)
    ensures |r| == Min(|s| + 1, MAX_EVENTS_STORED)
    ensures r == (s + [ev])[|s| + 1 - |r|..]
    ensures r[|r| - 1] == ev
  {
    Capped(s + [ev])
  }

  /** Below the cap nothing is evicted. */
  lemma PushBelowCap(s: seq<HabitEvent>, ev: HabitEvent)
    requires |s| < MAX_EVENTS_STORED
    ensures Pushed(s, ev) == s + [ev]
  {
  }

  /** At or above the cap the oldest entries go first: what stays is the
      newest MAX_EVENTS_STORED - 1 old entries, then `ev`. */
  lemma PushAtCapEvictsOldest(s: seq<HabitEvent>, ev: HabitEvent)
    requires |s| >= MAX_EVENTS_STORED
    ensures Pushed(s, ev) == s[|s| - MAX_EVENTS_STORED + 1..] + [ev]
  {
    assert (s + [ev])[|s| + 1 - MAX_EVENTS_STORED..] == s[|s| - MAX_EVENTS_STORED + 1..] + [ev];
  }

  /** Pushing keeps every entry valid and the length within the cap. */
  lemma PushPreservesValid(s: seq<HabitEvent>, ev: HabitEvent)
    requires forall i :: 0 <= i < |s| ==> ValidEvent(s[i])
    requires ValidEvent(ev)
    ensures |Pushed(s, ev)| <= MAX_EVENTS_STORED
    ensures forall i :: 0 <= i < |Pushed(s, ev)| ==> ValidEvent(Pushed(s, ev)[i])
  {
    var r := Pushed(s, ev);
    forall i | 0 <= i < |r| ensures ValidEvent(r[i]) {
      var j := |s| + 1 - |r| + i;
      assert r[i] == (s + [ev])[j];
      if j < |s| {
        assert (s + [ev])[j] == s[j];
      }
    }
  }

  /** Pushing a list of events one at a time. */
  function PushAll(s: seq<HabitEvent>, evs: seq<HabitEvent>): seq<HabitEvent>
    decreases |evs|
  {
    if evs == [] then s else PushAll(Pushed(s, evs[0]), evs[1..])
  }

  lemma CappedOfAppend(s: seq<HabitEvent>, ev: HabitEvent)
    ensures Capped(Capped(s) + [ev]) == Capped(s + [ev])
  {
    var c := Capped(s);
    if |s| > MAX_EVENTS_STORED {
      assert c + [ev] == (s + [ev])[|s| - MAX_EVENTS_STORED..];
    }
  }

  /** FIFO eviction over any run of pushes: the history is the newest
      MAX_EVENTS_STORED entries of everything ever appended, in order. */
  lemma {:induction false} PushAllIsCapped(s: seq<HabitEvent>, evs: seq<HabitEvent>)
    ensures PushAll(Capped(s), evs) == Capped(s + evs)
    decreases |evs|
  {
    if evs == [] {
      assert s + evs == s;
    } else {
      var s' := s + [evs[0]];
      calc {
        PushAll(Capped(s), evs);
        PushAll(Pushed(Capped(s), evs[0]), evs[1..]);
        { CappedOfAppend(s, evs[0]); }
        PushAll(Capped(s'), evs[1..]);
        { PushAllIsCapped(s', evs[1..]); }
        Capped(s' + evs[1..]);
        { assert s' + evs[1..] == s + evs; }
        Capped(s + evs);
      }
    }
  }

  /** `reverse()`. */
  function Reverse(s: seq<HabitEvent>): seq<HabitEvent> {
    if s == [] then [] else Reverse(s[1..]) + [s[0]]
  }

  lemma {:induction false} ReverseAt(s: seq<HabitEvent>)
    ensures |Reverse(s)| == |s|
    ensures forall i :: 0 <= i < |s| ==> Reverse(s)[i] == s[|s| - 1 - i]
  {
    if s != [] {
      ReverseAt(s[1..]);
    }
  }

  /** `buildRecentEvents(user)`: the stored history newest first, at most
      MAX_EVENTS_STORED entries, position i holding the i-th newest entry. */
  function RecentEvents(events: seq<HabitEvent>): (r: seq<HabitEvent>)
    ensures |r| == Min(|events|, MAX_EVENTS_STORED)
    ensures forall i :: 0 <= i < |r| ==> r[i] == events[|events| - 1 - i]
  {
    var newest := Capped(events);
    ReverseAt(newest);
    Take(Reverse(newest), MAX_EVENTS_STORED)
  }

  /** `slice(0, n)`. */
  function Take(s: seq<HabitEvent>, n: nat): (r: seq<HabitEvent>)
    ensures |r| == Min(|s|, n) && r == s[..|r|]
  {
    if |s| <= n then s else s[..n]
  }

  /** Every reported event is a stored one. */
  lemma RecentEventsAreStored(events: seq<HabitEvent>, e: HabitEvent)
    requires e in RecentEvents(events)
    ensures e in events
  {
    var r := RecentEvents(events);
    var i :| 0 <= i < |r| && r[i] == e;
    assert events[|events| - 1 - i] == e;
  }

  /** Right after a push, the newest reported event is the one pushed. */
  lemma RecentAfterPush(s: seq<HabitEvent>, ev: HabitEvent)
    ensures RecentEvents(Pushed(s, ev))[0] == ev
  {
  }
}
