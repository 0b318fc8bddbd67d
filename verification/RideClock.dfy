/** The ride clock: cumulative free pause, live timers and per-minute overage, and the writes
    that pause, resume, extend and end a ride.

    All times are integer milliseconds, all money integer kopecks.
  */
module RideClock {
  import opened Options

  const MINUTE_MS: int := 60 * 1000
  const PAUSE_FREE_GRACE_MS: int := 10 * 60 * 1000
  const OVERAGE_MINUTE_KOPECKS: int := 12 * 100

  function Min(a: int, b: int): int { if a <= b then a else b }
  function Max(a: int, b: int): int { if a >= b then a else b }

  /** `Retired` stands for any tariff id that is no longer in the catalogue. */
  datatype Tariff = H1 | H2 | H3 | M1 | Retired

  function DurationMs(t: Tariff): nat {
    match t
    case H1 => 60 * MINUTE_MS
    case H2 => 120 * MINUTE_MS
    case H3 => 180 * MINUTE_MS
    case M1 => MINUTE_MS
    case Retired => 0
  }

  function PriceKopecks(t: Tariff): nat {
    match t
    case H1 => 35000
    case H2 => 60000
    case H3 => 80000
    case M1 => 1000
    case Retired => 0
  }

  /** The columns of a ride that the clock reads and writes. */
  datatype Ride = Ride(
    startedAt: int, tariff: Tariff, isTest: bool,
    paidUntilAt: Option<int>, pausedAt: Option<int>, totalPausedMs: int,
    totalTariffMs: int, cost: int, endedAt: Option<int>)

  // ---------- the live values ----------

  function RemainingGrace(ride: Ride): int {
    Max(0, PAUSE_FREE_GRACE_MS - Max(0, ride.totalPausedMs))
  }

  /** Free grace used up as of `now`, an ongoing pause included. */
  function FrozenSoFarMs(ride: Ride, now: int): int {
    var prior := Max(0, ride.totalPausedMs);
    match ride.pausedAt
    case None => Min(prior, PAUSE_FREE_GRACE_MS)
    case Some(at) =>
      var freeThisPause := Min(Max(0, now - at), Max(0, PAUSE_FREE_GRACE_MS - prior));
      Min(prior + freeThisPause, PAUSE_FREE_GRACE_MS)
  }

  /** What the ongoing pause adds to the paid window if it is resolved now. */
  function PendingPauseCreditMs(ride: Ride, now: int): int {
    match ride.pausedAt
    case None => 0
    case Some(at) => Min(Max(0, now - at), RemainingGrace(ride))
  }

  function LiveElapsedRidingMs(ride: Ride, now: int): int {
    Max(0, (now - ride.startedAt) - FrozenSoFarMs(ride, now))
  }

  function EffectivePaidUntilAt(ride: Ride, now: int): int {
    (match ride.paidUntilAt case Some(until) => until case None => ride.startedAt) + PendingPauseCreditMs(ride, now)
  }

  function ComputeOverage(usedMs: int, paidMs: int): int {
    if paidMs <= 0 || usedMs <= paidMs then 0
    else (usedMs - paidMs) / MINUTE_MS * OVERAGE_MINUTE_KOPECKS
  }

  function LiveOverage(ride: Ride, now: int): int {
    ComputeOverage(now - ride.startedAt, EffectivePaidUntilAt(ride, now) - ride.startedAt)
  }

  function LiveOverageElapsedMs(ride: Ride, now: int): int {
    Max(0, now - EffectivePaidUntilAt(ride, now))
  }

  function LiveRemainingPaidMs(ride: Ride, now: int): int {
    Max(0, EffectivePaidUntilAt(ride, now) - now)
  }

  function RemainingFreeGraceMs(ride: Ride, now: int): int {
    Max(0, PAUSE_FREE_GRACE_MS - FrozenSoFarMs(ride, now))
  }

  // ---------- the writes ----------

  /** The window sold at the start; only a staff test ride may override the tariff's. */
  function WindowMs(tariff: Tariff, isTest: bool, testWindow: Option<int>): nat {
    if isTest && testWindow.Some? && testWindow.value > 0 then testWindow.value else DurationMs(tariff)
  }

  function Charged(isTest: bool, tariff: Tariff): nat {
    if isTest then 0 else PriceKopecks(tariff)
  }

  function Started(tariff: Tariff, isTest: bool, testWindow: Option<int>, now: int): Ride {
    var window := WindowMs(tariff, isTest, testWindow);
    Ride(now, tariff, isTest, Some(now + window), None, 0, window, Charged(isTest, tariff), None)
  }

  predicate Active(ride: Ride) { ride.endedAt.None? }

  function Paused(ride: Ride, now: int): Ride {
    if Active(ride) && ride.pausedAt.None? then ride.(pausedAt := Some(now)) else ride
  }

  /** The paid-until instant the server settles with: unlike the live value, a ride without one
      falls back to its tariff's nominal window. */
  function SettledPaidUntilAt(ride: Ride, now: int): int {
    (match ride.paidUntilAt case Some(until) => until case None => ride.startedAt + DurationMs(ride.tariff))
    + PendingPauseCreditMs(ride, now)
  }

  function Resumed(ride: Ride, now: int): Ride {
    if Active(ride) && ride.pausedAt.Some? then
      ride.(pausedAt := None,
            totalPausedMs := ride.totalPausedMs + Max(0, now - ride.pausedAt.value),
            paidUntilAt := Some(SettledPaidUntilAt(ride, now)))
    else ride
  }

  predicate Extendable(ride: Ride, bought: Tariff) { Active(ride) && bought != Retired }

  /** An extension also folds the pending credit of an ongoing pause into the window, but leaves
      the pause and its total as they are; past the deadline it counts from `now`. */
  function Extended(ride: Ride, bought: Tariff, now: int): Ride {
    if Extendable(ride, bought) then
      ride.(paidUntilAt := Some(Max(now, SettledPaidUntilAt(ride, now)) + DurationMs(bought)),
            cost := ride.cost + Charged(ride.isTest, bought),
            totalTariffMs := ride.totalTariffMs + DurationMs(bought))
    else ride
  }

  function SettledOverage(ride: Ride, now: int): int {
    if ride.isTest then 0
    else ComputeOverage(now - ride.startedAt, SettledPaidUntilAt(ride, now) - ride.startedAt)
  }

  function Ended(ride: Ride, now: int): Ride {
    if Active(ride) then
      ride.(endedAt := Some(now), cost := ride.cost + SettledOverage(ride, now),
            totalPausedMs := ride.totalPausedMs
              + (if ride.pausedAt.Some? then Max(0, now - ride.pausedAt.value) else 0))
    else ride
  }

  /** The ride row, updated in place; each method is one transaction of the server. */
  class RideRow {
    var startedAt: int
    var tariff: Tariff
    var isTest: bool
    var paidUntilAt: Option<int>
    var pausedAt: Option<int>
    var totalPausedMs: int
    var totalTariffMs: int
    var cost: int
    var endedAt: Option<int>

    function Snapshot(): Ride
      reads this
    {
      Ride(startedAt, tariff, isTest, paidUntilAt, pausedAt, totalPausedMs, totalTariffMs, cost, endedAt)
    }

    constructor (tariff: Tariff, isTest: bool, testWindow: Option<int>, now: int)
      ensures Snapshot() == Started(tariff, isTest, testWindow, now)
    {
      var overridden := isTest && testWindow.Some? && testWindow.value > 0;
      var windowMs := if overridden then testWindow.value else DurationMs(tariff);
      startedAt, this.tariff, this.isTest := now, tariff, isTest;
      paidUntilAt, pausedAt, totalPausedMs := Some(now + windowMs), None, 0;
      totalTariffMs, cost, endedAt := windowMs, if isTest then 0 else PriceKopecks(tariff), None;
    }

    method Pause(now: int) returns (ok: bool)
      modifies this
      ensures Snapshot() == Paused(old(Snapshot()), now)
      ensures ok <==> old(endedAt.None? && pausedAt.None?)
    {
      if endedAt.Some? || pausedAt.Some? {
        return false;
      }
      pausedAt := Some(now);
      return true;
    }

    method Resume(now: int) returns (ok: bool)
      modifies this
      ensures Snapshot() == Resumed(old(Snapshot()), now)
      ensures ok <==> old(endedAt.None?)
    {
      if endedAt.Some? {
        return false;
      }
      if pausedAt.None? {
        return true;
      }
      var credit := PendingPauseCreditMs(Snapshot(), now);
      var actual := Max(0, now - pausedAt.value);
      var base := if paidUntilAt.Some? then paidUntilAt.value else startedAt + DurationMs(tariff);
      pausedAt, totalPausedMs, paidUntilAt := None, totalPausedMs + actual, Some(base + credit);
      return true;
    }

    method Extend(bought: Tariff, now: int) returns (ok: bool)
      modifies this
      ensures Snapshot() == Extended(old(Snapshot()), bought, now)
      ensures ok <==> old(endedAt.None?) && bought != Retired
    {
      if bought == Retired || endedAt.Some? {
        return false;
      }
      var credit := PendingPauseCreditMs(Snapshot(), now);
      var base := if paidUntilAt.Some? then paidUntilAt.value else startedAt + DurationMs(tariff);
      paidUntilAt := Some(Max(now, base + credit) + DurationMs(bought));
      cost := cost + (if isTest then 0 else PriceKopecks(bought));
      totalTariffMs := totalTariffMs + DurationMs(bought);
      return true;
    }

    method End(now: int) returns (overage: int)
      modifies this
      ensures Snapshot() == Ended(old(Snapshot()), now)
      ensures overage == if old(endedAt.None?) then SettledOverage(old(Snapshot()), now) else 0
    {
      if endedAt.Some? {
        return 0;
      }
      var credit := PendingPauseCreditMs(Snapshot(), now);
      var base := if paidUntilAt.Some? then paidUntilAt.value else startedAt + DurationMs(tariff);
      var raw := ComputeOverage(now - startedAt, base + credit - startedAt);
      overage := if isTest then 0 else raw;
      endedAt, cost := Some(now), cost + overage;
      totalPausedMs := totalPausedMs + (if pausedAt.Some? then Max(0, now - pausedAt.value) else 0);
    }
  }
}
