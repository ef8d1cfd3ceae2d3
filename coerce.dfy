/** Input normalisation and validation of habitController.js: `toNumber`,
    `clamp`, `safeDateFromTs`, `validateWhenNotFuture`, and the
    `trim().slice(0, n)` clean-up of free text. */
module Coerce {
  import opened Outcomes

  /** A raw request value as `Number(...)` sees it: `Absent` is `undefined`,
      `null` or the empty string, `Num` a finite integer, `NotFinite` anything
      `Number` turns into NaN or an infinity. */
  datatype Value = Absent | Num(n: int) | NotFinite

  /** Allowed clock skew for client timestamps: 5 minutes. */
  const FUTURE_SKEW_MS: int := 5 * 60 * 1000

  /** Largest time value a JavaScript `Date` holds (100 000 000 days). */
  const MAX_TIME_MS: int := 8640000000000000

  /** `toNumber(value, fallback)`: keeps a finite, non-negative number. */
  function ToNumber(v: Value, fallback: int): (r: int)
    ensures v.Num? && v.n >= 0 ==> r == v.n
    ensures r != fallback ==> v == Num(r) && r >= 0
    ensures fallback >= 0 ==> r >= 0
  {
    match v
    case Num(n) => if n >= 0 then n else fallback
    case _ => fallback
  }

  /** `clamp(n, lo, hi)` as `Math.max(lo, Math.min(hi, n))`. */
  function Clamp(n: int, lo: int, hi: int): (r: int)
    ensures lo <= hi ==> lo <= r <= hi
    ensures lo <= n <= hi ==> r == n
    ensures n < lo ==> r == lo
    ensures lo <= hi < n ==> r == hi
  {
    var m := if hi < n then hi else n;
    if lo > m then lo else m
  }

  /** A JavaScript `Date`: a time value, or the invalid date. */
  datatype Date = At(ms: int) | InvalidDate

  /** `safeDateFromTs(ts)`: a missing, non-finite or non-positive timestamp
      becomes `now`; one beyond the `Date` range is an invalid date. */
  function SafeDateFromTs(ts: Value, now: int): (d: Date)
    ensures ts.Num? && 0 < ts.n <= MAX_TIME_MS ==> d == At(ts.n)
    ensures ts.Num? && ts.n > MAX_TIME_MS ==> d == InvalidDate
    ensures !(ts.Num? && ts.n > 0) ==> d == At(now)
  {
    match ts
    case Num(n) =>
      if n <= 0 then At(now)
      else if n <= MAX_TIME_MS then At(n)
      else InvalidDate
    case _ => At(now)
  }

  /** `validateWhenNotFuture(when)`: yields the accepted time value. */
  function ValidateWhenNotFuture(when: Date, now: int): (r: Outcome<int>)
    ensures r.Ok? <==> when.At? && when.ms <= now + FUTURE_SKEW_MS
    ensures r.Ok? ==> r.value == when.ms
    ensures when.InvalidDate? ==> r == Fail(InvalidTimestamp)
    ensures when.At? && when.ms > now + FUTURE_SKEW_MS ==> r == Fail(FutureTimestamp)
  {
    match when
    case InvalidDate => Fail(InvalidTimestamp)
    case At(t) => if t > now + FUTURE_SKEW_MS then Fail(FutureTimestamp) else Ok(t)
  }

  /** The timestamp rule every handler applies to its `ts` field: a missing
      or non-positive `ts` stands for now; a positive one is refused when it
      lies beyond the `Date` range or more than five minutes ahead. */
  function AcceptTimestamp(ts: Value, now: int): (r: Outcome<int>)
    ensures r.Ok? <==> !(ts.Num? && ts.n > 0) || (ts.n <= MAX_TIME_MS && ts.n <= now + FUTURE_SKEW_MS)
    ensures r.Ok? ==> r.value == (if ts.Num? && ts.n > 0 then ts.n else now)
    ensures r.Fail? ==> r.error == InvalidTimestamp || r.error == FutureTimestamp
  {
    ValidateWhenNotFuture(SafeDateFromTs(ts, now), now)
  }

  /** A timestamp is refused exactly when it is a positive number beyond the
      `Date` range or more than five minutes ahead of `now`; otherwise the
      accepted instant is `ts` itself, or `now` when `ts` is missing or not
      positive. For a clock reading in the `Date` range that is: exactly when
      `ts` is more than five minutes ahead of `now`. */
  lemma TimestampRule(ts: Value, now: int)
    requires 0 <= now && now + FUTURE_SKEW_MS <= MAX_TIME_MS
    ensures AcceptTimestamp(ts, now).Fail? <==> ts.Num? && ts.n > now + FUTURE_SKEW_MS
    ensures AcceptTimestamp(ts, now).Ok? ==>
      AcceptTimestamp(ts, now).value == (if ts.Num? && ts.n > 0 then ts.n else now)
  {
  }

  /** The same rule without assumptions on `now`: the refused inputs are all
      positive numbers, so a missing timestamp is never refused. */
  lemma MissingTimestampAccepted(ts: Value, now: int)
    requires !(ts.Num? && ts.n > 0)
    ensures AcceptTimestamp(ts, now) == Ok(now)
  {
  }

  /** Any instant in the past is accepted (events may be backfilled). */
  lemma PastTimestampAccepted(t: int, now: int)
    requires t <= now <= MAX_TIME_MS
    ensures AcceptTimestamp(Num(t), now).Ok?
  {
  }

  // ---- free text -------------------------------------------------------

  /** The characters `String.prototype.trim` removes: white space and line
      terminators of ECMA-262. */
  predicate IsJsSpace(c: char) {
    || c == '\t' || c == '\n' || c == '\U{000B}' || c == '\U{000C}' || c == '\r'
    || c == ' ' || c == '\U{00A0}' || c == '\U{1680}'
    || ('\U{2000}' <= c <= '\U{200A}')
    || c == '\U{2028}' || c == '\U{2029}' || c == '\U{202F}' || c == '\U{205F}'
    || c == '\U{3000}' || c == '\U{FEFF}'
  }

  /** Drops leading white space: the result is a suffix of `s` that does not
      start with white space, and everything dropped was white space. */
  function TrimStart(s: string): (r: string)
    ensures |r| <= |s| && r == s[|s| - |r|..]
    ensures r == [] || !IsJsSpace(r[0])
    ensures forall i :: 0 <= i < |s| - |r| ==> IsJsSpace(s[i])
  {
    if |s| > 0 && IsJsSpace(s[0]) then TrimStart(s[1..]) else s
  }

  /** Drops trailing white space: the result is a prefix of `s` that does not
      end with white space, and everything dropped was white space. */
  function TrimEnd(s: string): (r: string)
    ensures |r| <= |s| && r == s[..|r|]
    ensures r == [] || !IsJsSpace(r[|r| - 1])
    ensures forall i :: |r| <= i < |s| ==> IsJsSpace(s[i])
  {
    if |s| > 0 && IsJsSpace(s[|s| - 1]) then TrimEnd(s[..|s| - 1]) else s
  }

  /** `s.trim()`: the middle of `s` with only white space cut from both
      ends, and no white space left at either end. */
  function Trim(s: string): (r: string)
    ensures r == [] || (!IsJsSpace(r[0]) && !IsJsSpace(r[|r| - 1]))
    ensures |r| <= |s|
    ensures exists k :: CutAt(s, r, k)
  {
    CutCompose(s, TrimStart(s), TrimEnd(TrimStart(s)));
    TrimEnd(TrimStart(s))
  }

  /** Cutting white space off the front of `s` (giving `t`) and then off the
      back of `t` (giving `r`) cuts `s` at `|s| - |t|`. */
  lemma CutCompose(s: string, t: string, r: string)
    requires |t| <= |s| && t == s[|s| - |t|..]
    requires forall i :: 0 <= i < |s| - |t| ==> IsJsSpace(s[i])
    requires |r| <= |t| && r == t[..|r|]
    requires forall i :: |r| <= i < |t| ==> IsJsSpace(t[i])
    ensures CutAt(s, r, |s| - |t|)
  {
    var k := |s| - |t|;
    assert r == s[k..k + |r|];
    SpacesShift(s, k, |r|);
  }

  /** White space from `from` on in `s[k..]` is white space from `k + from`
      on in `s`. */
  lemma SpacesShift(s: string, k: nat, from: nat)
    requires k <= |s|
    requires forall i :: from <= i < |s| - k ==> IsJsSpace(s[k..][i])
    ensures forall i :: k + from <= i < |s| ==> IsJsSpace(s[i])
  {
    forall i | k + from <= i < |s| ensures IsJsSpace(s[i]) {
      assert s[i] == s[k..][i - k];
    }
  }

  /** `r` is `s` from index `k` on, with only white space cut before `k` and
      after `k + |r|`. */
  predicate CutAt(s: string, r: string, k: int) {
    && 0 <= k <= |s| - |r| && r == s[k..k + |r|]
    && (forall i :: 0 <= i < k ==> IsJsSpace(s[i]))
    && (forall i :: k + |r| <= i < |s| ==> IsJsSpace(s[i]))
  }

  /** `s.slice(0, n)`. */
  function SliceTo(s: string, n: nat): (r: string)
    ensures |r| <= n && r <= s
    ensures |s| <= n ==> r == s
    ensures |s| > n ==> |r| == n
  {
    if |s| <= n then s else s[..n]
  }

  /** `typeof x === "string" ? x.trim().slice(0, limit) : ""`; `None` stands
      for any value that is not a string. */
  function CleanText(x: Option<string>, limit: nat): (r: string)
    ensures |r| <= limit
    ensures x.None? ==> r == []
    ensures x.Some? ==> r <= Trim(x.value)
    ensures x.Some? ==> |r| == if |Trim(x.value)| <= limit then |Trim(x.value)| else limit
  {
    match x
    case Some(s) => SliceTo(Trim(s), limit)
    case None => ""
  }

  /** JavaScript truthiness of an optional string (`""` is falsy). */
  predicate Truthy(x: Option<string>) {
    x.Some? && x.value != ""
  }

  /** `a || b` for an optional string and a fallback. */
  function OrElse(a: Option<string>, b: string): (r: string)
    ensures Truthy(a) ==> r == a.value
    ensures !Truthy(a) ==> r == b
  {
    if Truthy(a) then a.value else b
  }
}
