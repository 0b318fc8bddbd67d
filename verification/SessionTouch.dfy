/** Batched renewal of session rows: a request moves the expiry forward only when that gains at
    least an interval, and the decision is one conditional UPDATE, so it holds however requests
    of several processes interleave.

    Times in the table are whole seconds; a missing key is a session that does not exist.
  */
module SessionTouch {
  import opened Options

  const TOUCH_INTERVAL_SECONDS: int := 60

  function Min(a: int, b: int): int { if a <= b then a else b }
  function Max(a: int, b: int): int { if a >= b then a else b }

  /** Math.ceil(ms / 1000) */
  function CeilSeconds(ms: int): int { (ms + 999) / 1000 }

  datatype CookieExpiry = Unset | At(ms: int) | NotADate

  function Interval(expires: int, now: int): int {
    Min(TOUCH_INTERVAL_SECONDS, Max(0, expires - now) / 4)
  }

  predicate Renews(expire: int, now: int, expires: int) {
    expire >= now && expire < expires && expire <= expires - Interval(expires, now)
  }

  /** The row after one UPDATE. */
  function Touched(expire: Option<int>, now: int, expires: int): Option<int> {
    if expire.Some? && Renews(expire.value, now, expires) then Some(expires) else expire
  }

  function ExpiresAt(cookie: CookieExpiry, now: int, fallbackTtl: int): Option<int> {
    match cookie
    case Unset => Some(now + fallbackTtl)
    case At(ms) => Some(CeilSeconds(ms))
    case NotADate => None
  }

  class SessionStore {
    var rows: map<string, int>
    const fallbackTtl: int

    constructor (ttl: Option<int>)
      ensures rows == map[]
      ensures fallbackTtl == if ttl == None || ttl == Some(0) then 86400 else ttl.value
    {
      rows := map[];
      fallbackTtl := if ttl == None || ttl == Some(0) then 86400 else ttl.value;
    }

    function Expire(sid: string): Option<int>
      reads this
    {
      if sid in rows then Some(rows[sid]) else None
    }

    method Touch(sid: string, nowMs: int, cookie: CookieExpiry) returns (ok: bool)
      modifies this
      ensures ok <==> cookie != NotADate
      ensures rows.Keys == old(rows.Keys)
      ensures forall other :: other in rows && other != sid ==> rows[other] == old(rows)[other]
      ensures ok ==>
        Expire(sid) == Touched(old(Expire(sid)), CeilSeconds(nowMs),
                               ExpiresAt(cookie, CeilSeconds(nowMs), fallbackTtl).value)
      ensures !ok ==> rows == old(rows)
    {
      var now := CeilSeconds(nowMs);
      var expires;
      match cookie {
        case Unset => expires := now + fallbackTtl;
        case At(ms) => expires := CeilSeconds(ms);
        case NotADate => return false;
      }
      var interval := Min(TOUCH_INTERVAL_SECONDS, Max(0, expires - now) / 4);
      if sid in rows && rows[sid] >= now && rows[sid] < expires && rows[sid] <= expires - interval {
        rows := rows[sid := expires];
      }
      return true;
    }
  }

  // ---------- what a request asks for ----------

  /** The clock and the cookie's expiry are counted in whole seconds, rounded up. */
  lemma SecondsRoundUp(ms: int)
    ensures 1000 * (CeilSeconds(ms) - 1) < ms <= 1000 * CeilSeconds(ms)
  {
  }

  /** A request asks for its cookie's own expiry; without one for the store's lifetime from now, 24
      hours if none was configured; a cookie whose expiry is no date is an error. */
  lemma AskedExpiry(cookie: CookieExpiry, nowMs: int, ttl: int)
    ensures
      var now := CeilSeconds(nowMs);
      var asked := ExpiresAt(cookie, now, ttl);
      && (asked.None? <==> cookie == NotADate)
      && (cookie.Unset? ==> asked == Some(now + ttl))
      && (cookie.At? ==> asked.Some? && 1000 * (asked.value - 1) < cookie.ms <= 1000 * asked.value)
  {
  }

  /** The row is written exactly when the session is still alive, the request asks for more, and it
      gains a minute or a quarter of the lifetime asked for, whichever is less; then it holds the
      expiry asked for. */
  lemma WrittenIff(expire: int, now: int, expires: int)
    ensures
      var lifetime := if expires > now then expires - now else 0;
      var enough := expires - expire >= 60 || 4 * (expires - expire) > lifetime - 4;
      && (now <= expire < expires && enough ==> Touched(Some(expire), now, expires) == Some(expires))
      && (!(now <= expire < expires && enough) ==> Touched(Some(expire), now, expires) == Some(expire))
    ensures Touched(None, now, expires) == None
  {
  }

  // ---------- any requests, landing in any order ----------

  /** A request's UPDATE, carrying the clock and the expiry the request computed. */
  datatype Touch = Touch(now: int, expires: int)

  function Landed(expire: Option<int>, touches: seq<Touch>): Option<int> {
    if touches == [] then expire
    else
      var last := touches[|touches| - 1];
      Touched(Landed(expire, touches[..|touches| - 1]), last.now, last.expires)
  }

  predicate Writes(expire: Option<int>, touches: seq<Touch>)
    requires touches != []
  {
    Landed(expire, touches) != Landed(expire, touches[..|touches| - 1])
  }

  function WriteCount(expire: Option<int>, touches: seq<Touch>): nat {
    if touches == [] then 0
    else WriteCount(expire, touches[..|touches| - 1]) + if Writes(expire, touches) then 1 else 0
  }

  /** Every write gains at least the interval, and at least a second. */
  predicate LongLived(touches: seq<Touch>, gain: int) {
    forall i :: 0 <= i < |touches| ==> Max(1, Interval(touches[i].expires, touches[i].now)) >= gain
  }

  /** Whatever requests touch a session, in whatever order their updates land: the session is
      never created, never removed, never moved back, and each physical write moved its expiry
      by at least the interval. */
  lemma {:induction false} WritesMoveForward(expire: int, touches: seq<Touch>, gain: int)
    requires LongLived(touches, gain) && 0 <= gain
    ensures Landed(None, touches) == None
    ensures Landed(Some(expire), touches).Some?
    ensures Landed(Some(expire), touches).value >= expire + WriteCount(Some(expire), touches) * gain
  {
    if touches != [] {
      var front, last := touches[..|touches| - 1], touches[|touches| - 1];
      WritesMoveForward(expire, front, gain);
      assert Max(1, Interval(last.expires, last.now)) >= gain;
      OneMore(WriteCount(Some(expire), front), gain);
      WriteGains(Landed(Some(expire), front).value, last, gain);
    }
  }

  lemma OneMore(writes: nat, gain: int)
    ensures (writes + 1) * gain == writes * gain + gain
  {
  }

  lemma WriteGains(expire: int, touch: Touch, gain: int)
    requires Max(1, Interval(touch.expires, touch.now)) >= gain
    ensures Touched(Some(expire), touch.now, touch.expires).Some?
    ensures
      var next := Touched(Some(expire), touch.now, touch.expires).value;
      next == expire || next >= expire + gain
  {
  }

  predicate TooLate(expire: int, touches: seq<Touch>) {
    forall i :: 0 <= i < |touches| ==> touches[i].now > expire
  }

  /** A session that has expired by the time of every request stays expired. */
  lemma {:induction false} ExpiredStaysExpired(expire: int, touches: seq<Touch>)
    requires TooLate(expire, touches)
    ensures Landed(Some(expire), touches) == Some(expire)
  {
    if touches != [] {
      ExpiredStaysExpired(expire, touches[..|touches| - 1]);
      assert touches[|touches| - 1].now > expire;
    }
  }

  // ---------- sessions of a fixed lifetime ----------

  /** Requests at `times` of sessions that live for `ttl` seconds. */
  function Renewals(times: seq<int>, ttl: int): seq<Touch> {
    if times == [] then []
    else Renewals(times[..|times| - 1], ttl) + [Touch(times[|times| - 1], times[|times| - 1] + ttl)]
  }

  function ExpireAfter(login: int, times: seq<int>, ttl: int): Option<int> {
    Landed(Some(login + ttl), Renewals(times, ttl))
  }

  /** The latest request that has landed, or the login. */
  function Newest(login: int, times: seq<int>): int {
    if times == [] then login else Max(Newest(login, times[..|times| - 1]), times[|times| - 1])
  }

  /** Each request comes at most `gap` seconds after the latest one landed before it; it may be
      older than that one. */
  predicate Spaced(login: int, times: seq<int>, gap: int) {
    times == []
    || (Spaced(login, times[..|times| - 1], gap) && times[|times| - 1] <= Newest(login, times[..|times| - 1]) + gap)
  }

  /** Whether each request finds the session still alive. */
  predicate NeverLapses(login: int, times: seq<int>, ttl: int) {
    times == []
    || (NeverLapses(login, times[..|times| - 1], ttl)
        && ExpireAfter(login, times[..|times| - 1], ttl).Some?
        && ExpireAfter(login, times[..|times| - 1], ttl).value >= times[|times| - 1])
  }

  /** What a renewal may leave unwritten: one second less than the interval. */
  function Slack(ttl: int): int { Max(0, Interval(ttl, 0) - 1) }

  lemma RenewalStep(expire: int, ttl: int, time: int, newest: int)
    requires ttl > 0 && expire >= newest + ttl - Slack(ttl) && expire >= time
    ensures Touched(Some(expire), time, time + ttl).Some?
    ensures Touched(Some(expire), time, time + ttl).value >= Max(newest, time) + ttl - Slack(ttl)
  {
  }

  lemma {:induction false} SpacedNeverLapses(login: int, times: seq<int>, ttl: int, gap: int)
    requires ttl > 0 && gap <= ttl - Slack(ttl) && Spaced(login, times, gap)
    ensures NeverLapses(login, times, ttl)
    ensures ExpireAfter(login, times, ttl).Some?
    ensures ExpireAfter(login, times, ttl).value >= Newest(login, times) + ttl - Slack(ttl)
  {
    if times != [] {
      var front, last := times[..|times| - 1], times[|times| - 1];
      SpacedNeverLapses(login, front, ttl, gap);
      var all := Renewals(times, ttl);
      assert all[..|all| - 1] == Renewals(front, ttl);
      RenewalStep(ExpireAfter(login, front, ttl).value, ttl, last, Newest(login, front));
    }
  }

  lemma SlackIsSmall(ttl: int)
    requires ttl > 0
    ensures 0 <= Slack(ttl) && 2 * Slack(ttl) <= ttl
    ensures !Renews(ttl, Slack(ttl), Slack(ttl) + ttl)
  {
  }

  lemma TwoSpaced(first: int, second: int, gap: int)
    requires 0 <= first <= gap && second <= first + gap
    ensures Spaced(0, [first, second], gap)
  {
    assert [first, second][..1] == [first] && [first][..0] == [];
    assert Newest(0, [first]) == first;
    assert Spaced(0, [first], gap);
  }

  lemma UnwrittenThenLate(ttl: int, first: int)
    requires !Renews(ttl, first, first + ttl)
    ensures !NeverLapses(0, [first, ttl + 1], ttl)
  {
    assert [first, ttl + 1][..1] == [first] && [first][..0] == [];
    var touch := Touch(first, first + ttl);
    assert Renewals([first], ttl) == [touch];
    assert [touch][..0] == [];
    assert Landed(Some(ttl), []) == Some(ttl);
    assert ExpireAfter(0, [first], ttl) == Some(ttl);
  }

  /** A first request just too early to be written, then one a second too late. */
  lemma WiderGapLapses(ttl: int, gap: int)
    requires ttl > 0 && gap > ttl - Slack(ttl)
    ensures Spaced(0, [Slack(ttl), ttl + 1], gap) && !NeverLapses(0, [Slack(ttl), ttl + 1], ttl)
  {
    SlackIsSmall(ttl);
    TwoSpaced(Slack(ttl), ttl + 1, gap);
    UnwrittenThenLate(ttl, Slack(ttl));
  }

  /** Requests at most `gap` seconds apart keep every session alive exactly when the gap is at
      most the lifetime less the slack: 59 seconds for lifetimes of four minutes and more. */
  lemma NoLapseIff(ttl: int, gap: int)
    requires ttl > 0
    ensures (forall login, times :: Spaced(login, times, gap) ==> NeverLapses(login, times, ttl))
       <==> gap <= ttl - Slack(ttl)
    ensures ttl >= 240 ==> Slack(ttl) == 59
  {
    if gap <= ttl - Slack(ttl) {
      forall login, times | Spaced(login, times, gap)
        ensures NeverLapses(login, times, ttl)
      {
        SpacedNeverLapses(login, times, ttl, gap);
      }
    } else {
      WiderGapLapses(ttl, gap);
    }
  }
}
