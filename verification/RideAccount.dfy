/** What the ride clock keeps over whole rides: where every millisecond of the paid window came
    from, that no timer jumps when a pause begins or is settled, and what the final bill is. */
module RideAccount {
  import opened Options
  import opened RideClock

  datatype Event =
    | PauseAt(now: int)
    | ResumeAt(now: int)
    | ExtendAt(now: int, bought: Tariff)
    | EndAt(now: int)

  function Apply(ride: Ride, e: Event): Ride {
    match e
    case PauseAt(now) => Paused(ride, now)
    case ResumeAt(now) => Resumed(ride, now)
    case ExtendAt(now, bought) => Extended(ride, bought, now)
    case EndAt(now) => Ended(ride, now)
  }

  function After(start: Ride, es: seq<Event>): Ride {
    if es == [] then start else Apply(After(start, es[..|es| - 1]), es[|es| - 1])
  }

  /** The instant of the last event. */
  function Clock(begin: int, es: seq<Event>): int {
    if es == [] then begin else es[|es| - 1].now
  }

  /** From `begin` on, time never runs backwards along `es`. */
  predicate Timely(begin: int, es: seq<Event>)
    decreases |es|
  {
    es == [] || (Timely(begin, es[..|es| - 1]) && Clock(begin, es[..|es| - 1]) <= es[|es| - 1].now)
  }

  predicate IsStart(ride: Ride, tariff: Tariff, isTest: bool, testWindow: Option<int>, now: int) {
    ride == Started(tariff, isTest, testWindow, now)
  }

  ghost predicate Fresh(start: Ride) {
    exists tariff, isTest, testWindow, now :: IsStart(start, tariff, isTest, testWindow, now)
  }

  // ---------- what every reachable ride keeps ----------

  predicate Sound(ride: Ride, clock: int) {
    && ride.paidUntilAt.Some?
    && 0 <= ride.totalPausedMs
    && 0 <= ride.totalTariffMs
    && ride.startedAt <= clock
    && (ride.pausedAt.None? ==> ride.totalPausedMs <= clock - ride.startedAt)
    && (ride.pausedAt.Some? ==>
          ride.pausedAt.value <= clock
          && (Active(ride) ==> ride.totalPausedMs <= ride.pausedAt.value - ride.startedAt))
  }

  lemma ApplySound(ride: Ride, clock: int, e: Event)
    requires Sound(ride, clock) && clock <= e.now
    ensures Sound(Apply(ride, e), e.now)
  {
  }

  lemma {:induction false} AfterSound(start: Ride, es: seq<Event>)
    requires Fresh(start) && Timely(start.startedAt, es)
    ensures Sound(After(start, es), Clock(start.startedAt, es))
  {
    if es != [] {
      AfterSound(start, es[..|es| - 1]);
      ApplySound(After(start, es[..|es| - 1]), Clock(start.startedAt, es[..|es| - 1]), es[|es| - 1]);
    }
  }

  // ---------- where the paid window comes from ----------

  /** Pause credit an extension hands out although the pause it belongs to goes on, so that the
      resume will hand it out again. */
  function DoubledBy(ride: Ride, e: Event): int {
    if e.ExtendAt? && Extendable(ride, e.bought) then PendingPauseCreditMs(ride, e.now) else 0
  }

  /** Overtime an extension writes off by counting from the present. */
  function ForgivenBy(ride: Ride, e: Event): int {
    if e.ExtendAt? && Extendable(ride, e.bought) then Max(0, e.now - SettledPaidUntilAt(ride, e.now)) else 0
  }

  function Doubled(start: Ride, es: seq<Event>): int {
    if es == [] then 0
    else Doubled(start, es[..|es| - 1]) + DoubledBy(After(start, es[..|es| - 1]), es[|es| - 1])
  }

  function Forgiven(start: Ride, es: seq<Event>): int {
    if es == [] then 0
    else Forgiven(start, es[..|es| - 1]) + ForgivenBy(After(start, es[..|es| - 1]), es[|es| - 1])
  }

  lemma {:induction false} GiftsNonNegative(start: Ride, es: seq<Event>)
    ensures 0 <= Doubled(start, es) && 0 <= Forgiven(start, es)
  {
    if es != [] {
      GiftsNonNegative(start, es[..|es| - 1]);
    }
  }

  predicate Accounted(ride: Ride, gifts: int) {
    ride.paidUntilAt.Some?
    && ride.paidUntilAt.value
       == ride.startedAt + ride.totalTariffMs + Min(ride.totalPausedMs, PAUSE_FREE_GRACE_MS) + gifts
  }

  lemma ApplyAccounted(ride: Ride, clock: int, e: Event, gifts: int)
    requires Sound(ride, clock) && clock <= e.now && Active(ride) && Active(Apply(ride, e))
    requires Accounted(ride, gifts)
    ensures Accounted(Apply(ride, e), gifts + DoubledBy(ride, e) + ForgivenBy(ride, e))
  {
  }

  /** Every paid window is made of exactly five parts: the start, the tariffs bought, the free
      pause time within the grace, pause credit granted twice, and overtime forgiven. */
  lemma {:induction false} PaidWindowAccount(start: Ride, es: seq<Event>)
    requires Fresh(start) && Timely(start.startedAt, es)
    requires Active(After(start, es))
    ensures Accounted(After(start, es), Doubled(start, es) + Forgiven(start, es))
  {
    if es != [] {
      var before := es[..|es| - 1];
      AfterSound(start, before);
      PaidWindowAccount(start, before);
      ApplyAccounted(After(start, before), Clock(start.startedAt, before), es[|es| - 1],
                     Doubled(start, before) + Forgiven(start, before));
    }
  }

  /** An extension made with no pause credit pending and the paid window still open. */
  predicate CleanExtension(ride: Ride, now: int) {
    PendingPauseCreditMs(ride, now) == 0 && now <= SettledPaidUntilAt(ride, now)
  }

  predicate CleanStep(ride: Ride, e: Event) {
    e.ExtendAt? && Extendable(ride, e.bought) ==> CleanExtension(ride, e.now)
  }

  predicate CleanRun(start: Ride, es: seq<Event>) {
    es == [] || (CleanRun(start, es[..|es| - 1]) && CleanStep(After(start, es[..|es| - 1]), es[|es| - 1]))
  }

  lemma {:induction false} CleanIffNoGifts(start: Ride, es: seq<Event>)
    requires Fresh(start) && Timely(start.startedAt, es)
    ensures CleanRun(start, es) <==> Doubled(start, es) + Forgiven(start, es) == 0
  {
    if es != [] {
      var before := es[..|es| - 1];
      CleanIffNoGifts(start, before);
      GiftsNonNegative(start, before);
      AfterSound(start, before);
    }
  }

  /** The promised law, that pauses add their time up to one grace per ride and nothing else
      moves the deadline, holds of a run exactly when each extension in it was clean. */
  lemma PaidWindowLawIff(start: Ride, es: seq<Event>)
    requires Fresh(start) && Timely(start.startedAt, es) && Active(After(start, es))
    ensures CleanRun(start, es)
       <==> After(start, es).paidUntilAt
              == Some(start.startedAt + After(start, es).totalTariffMs
                      + Min(After(start, es).totalPausedMs, PAUSE_FREE_GRACE_MS))
  {
    PaidWindowAccount(start, es);
    CleanIffNoGifts(start, es);
    StartKept(start, es);
  }

  lemma {:induction false} StartKept(start: Ride, es: seq<Event>)
    ensures After(start, es).startedAt == start.startedAt && After(start, es).isTest == start.isTest
  {
    if es != [] {
      StartKept(start, es[..|es| - 1]);
    }
  }

  /** Two clean runs that bought and paused equally long end at the same deadline, however the
      pauses were split. */
  lemma SplittingPausesChangesNothing(start: Ride, es: seq<Event>, fs: seq<Event>)
    requires Fresh(start) && Timely(start.startedAt, es) && Timely(start.startedAt, fs)
    requires Active(After(start, es)) && Active(After(start, fs))
    requires CleanRun(start, es) && CleanRun(start, fs)
    requires After(start, es).totalTariffMs == After(start, fs).totalTariffMs
    requires After(start, es).totalPausedMs == After(start, fs).totalPausedMs
    ensures After(start, es).paidUntilAt == After(start, fs).paidUntilAt
  {
    PaidWindowLawIff(start, es);
    PaidWindowLawIff(start, fs);
  }

  /** Extending `n` times late in one pause credits that pause `n` times, and resuming credits it
      once more: the free time of a ride has no bound. */
  function PauseExtendedTimes(n: nat): seq<Event> {
    if n == 0 then [PauseAt(0)] else PauseExtendedTimes(n - 1) + [ExtendAt(PAUSE_FREE_GRACE_MS, H1)]
  }

  function StillPaused(n: nat): Ride {
    Ride(0, H1, false, Some((n + 1) * DurationMs(H1) + n * PAUSE_FREE_GRACE_MS), Some(0), 0,
         (n + 1) * DurationMs(H1), (n + 1) * PriceKopecks(H1), None)
  }

  lemma OneMoreExtension(n: nat)
    ensures Extended(StillPaused(n), H1, PAUSE_FREE_GRACE_MS) == StillPaused(n + 1)
  {
  }

  lemma {:induction false} ManyExtensions(n: nat)
    ensures PauseExtendedTimes(n) != [] && Timely(0, PauseExtendedTimes(n))
    ensures 0 <= Clock(0, PauseExtendedTimes(n)) <= PAUSE_FREE_GRACE_MS
    ensures After(Started(H1, false, None, 0), PauseExtendedTimes(n)) == StillPaused(n)
  {
    var es := PauseExtendedTimes(n);
    if n > 0 {
      ManyExtensions(n - 1);
      OneMoreExtension(n - 1);
      assert es[..|es| - 1] == PauseExtendedTimes(n - 1);
    } else {
      assert es[..0] == [];
    }
  }

  lemma ExtendingWhilePausedMultipliesGrace(n: nat)
    ensures
      var start := Started(H1, false, None, 0);
      var es := PauseExtendedTimes(n) + [ResumeAt(PAUSE_FREE_GRACE_MS)];
      && Fresh(start) && Timely(start.startedAt, es)
      && After(start, es).totalPausedMs == PAUSE_FREE_GRACE_MS
      && After(start, es).paidUntilAt
           == Some(start.startedAt + After(start, es).totalTariffMs + (n + 1) * PAUSE_FREE_GRACE_MS)
  {
    var start := Started(H1, false, None, 0);
    var es := PauseExtendedTimes(n) + [ResumeAt(PAUSE_FREE_GRACE_MS)];
    assert IsStart(start, H1, false, None, 0);
    ManyExtensions(n);
    assert es[..|es| - 1] == PauseExtendedTimes(n);
  }

  // ---------- no jumps ----------

  /** Everything the rider's screen derives from the clock at `now`. */
  datatype Dials = Dials(elapsed: int, remaining: int, graceLeft: int, overtime: int, overage: int)

  function Show(ride: Ride, now: int): Dials {
    Dials(LiveElapsedRidingMs(ride, now), LiveRemainingPaidMs(ride, now), RemainingFreeGraceMs(ride, now),
          LiveOverageElapsedMs(ride, now), LiveOverage(ride, now))
  }

  /** Beginning a pause moves no dial at that instant. */
  lemma PauseMovesNoDial(ride: Ride, now: int)
    ensures Show(Paused(ride, now), now) == Show(ride, now)
  {
  }

  /** Settling a pause moves no dial at that instant exactly when the ride has a paid-until
      instant of its own, or its tariff is a retired one, or nothing is there to settle. */
  lemma ResumeMovesNoDialIff(ride: Ride, now: int)
    requires 0 <= ride.totalPausedMs && Active(ride) && ride.pausedAt.Some?
    ensures EffectivePaidUntilAt(Resumed(ride, now), now) == EffectivePaidUntilAt(ride, now)
       <==> ride.paidUntilAt.Some? || ride.tariff == Retired
    ensures ride.paidUntilAt.Some? ==> Show(Resumed(ride, now), now) == Show(ride, now)
  {
    assert PendingPauseCreditMs(Resumed(ride, now), now) == 0;
  }

  /** An extension moves the deadline by what was bought, plus what it credits twice once the
      pause is over, plus what it forgives. */
  lemma ExtensionMovesDeadlineBy(ride: Ride, bought: Tariff, now: int)
    requires Extendable(ride, bought) && ride.paidUntilAt.Some?
    ensures EffectivePaidUntilAt(Extended(ride, bought, now), now)
         == EffectivePaidUntilAt(ride, now) + DurationMs(bought)
            + PendingPauseCreditMs(ride, now) + Max(0, now - EffectivePaidUntilAt(ride, now))
  {
  }

  lemma ElapsedPlusRemainingStep(ride: Ride, clock: int, now: int, gifts: int)
    requires Sound(ride, clock) && clock <= now && Active(ride) && Accounted(ride, gifts)
    ensures LiveElapsedRidingMs(ride, now) + (EffectivePaidUntilAt(ride, now) - now) == ride.totalTariffMs + gifts
    ensures LiveOverageElapsedMs(ride, now) == Max(0, LiveElapsedRidingMs(ride, now) - (ride.totalTariffMs + gifts))
    ensures LiveRemainingPaidMs(ride, now) == Max(0, (ride.totalTariffMs + gifts) - LiveElapsedRidingMs(ride, now))
  {
  }

  /** At every instant of every ride, riding time shown plus time left is the time bought (and
      given), and overtime is riding time beyond it. */
  lemma ElapsedPlusRemainingIsBought(start: Ride, es: seq<Event>, now: int)
    requires Fresh(start) && Timely(start.startedAt, es) && Active(After(start, es))
             && Clock(start.startedAt, es) <= now
    ensures
      var ride := After(start, es);
      var bought := ride.totalTariffMs + Doubled(start, es) + Forgiven(start, es);
      && LiveElapsedRidingMs(ride, now) + (EffectivePaidUntilAt(ride, now) - now) == bought
      && LiveOverageElapsedMs(ride, now) == Max(0, LiveElapsedRidingMs(ride, now) - bought)
      && LiveRemainingPaidMs(ride, now) == Max(0, bought - LiveElapsedRidingMs(ride, now))
  {
    AfterSound(start, es);
    PaidWindowAccount(start, es);
    ElapsedPlusRemainingStep(After(start, es), Clock(start.startedAt, es), now,
      Doubled(start, es) + Forgiven(start, es));
  }

  // ---------- overage ----------

  function WholeMinutes(ms: int): int { ms / MINUTE_MS }

  lemma WholeMinutesMonotone(a: int, b: int)
    requires a <= b
    ensures WholeMinutes(a) <= WholeMinutes(b)
  {
  }

  /** The amount shown is the minute price of the whole minutes on the overtime timer exactly
      when there is a paid window, or less than a minute is on the timer. */
  lemma OverageMatchesTimerIff(ride: Ride, now: int)
    ensures LiveOverage(ride, now) == OVERAGE_MINUTE_KOPECKS * WholeMinutes(LiveOverageElapsedMs(ride, now))
       <==> EffectivePaidUntilAt(ride, now) > ride.startedAt || LiveOverageElapsedMs(ride, now) < MINUTE_MS
  {
  }

  /** Overtime and the deadline only move forward. */
  predicate NoEarlier(ride: Ride, now: int, other: Ride, later: int) {
    && other.startedAt == ride.startedAt
    && LiveOverageElapsedMs(ride, now) <= LiveOverageElapsedMs(other, later)
    && EffectivePaidUntilAt(ride, now) <= EffectivePaidUntilAt(other, later)
  }

  lemma OvertimeStep(ride: Ride, clock: int, e: Event)
    requires Sound(ride, clock) && clock <= e.now && (e.PauseAt? || e.ResumeAt?)
    ensures NoEarlier(ride, clock, Apply(ride, e), e.now)
  {
  }

  predicate NoExtension(es: seq<Event>) {
    forall i :: 0 <= i < |es| ==> es[i].PauseAt? || es[i].ResumeAt?
  }

  /** Until the ride is extended, overtime and the amount shown for it only grow, through any
      pauses and resumes. */
  lemma {:induction false} OverageNeverDecreases(ride: Ride, clock: int, es: seq<Event>, now: int)
    requires Sound(ride, clock)
    requires Timely(clock, es) && NoExtension(es) && Clock(clock, es) <= now
    ensures Sound(After(ride, es), Clock(clock, es))
    ensures NoEarlier(ride, clock, After(ride, es), now)
    ensures LiveOverage(ride, clock) <= LiveOverage(After(ride, es), now)
    decreases |es|
  {
    if es != [] {
      var before, e := es[..|es| - 1], es[|es| - 1];
      var soFar := Clock(clock, before);
      OverageNeverDecreases(ride, clock, before, soFar);
      OvertimeStep(After(ride, before), soFar, e);
      ApplySound(After(ride, before), soFar, e);
    }
    AmountFollowsTimer(ride, clock, After(ride, es), now);
  }

  lemma AmountFollowsTimer(ride: Ride, now: int, other: Ride, later: int)
    requires NoEarlier(ride, now, other, later)
    ensures LiveOverage(ride, now) <= LiveOverage(other, later)
  {
    if EffectivePaidUntilAt(ride, now) > ride.startedAt {
      OverageMatchesTimerIff(ride, now);
      OverageMatchesTimerIff(other, later);
      WholeMinutesMonotone(LiveOverageElapsedMs(ride, now), LiveOverageElapsedMs(other, later));
    }
  }

  /** Time spent in a pause lengthens overtime by exactly the part of it that lies beyond the
      grace; so free pause time adds nothing. */
  lemma PausedTimeAddsOnlyPastGrace(ride: Ride, clock: int, now: int, later: int)
    requires Sound(ride, clock) && Active(ride) && ride.pausedAt.Some? && clock <= now <= later
    requires LiveRemainingPaidMs(ride, now) == 0
    ensures LiveOverageElapsedMs(ride, later) - LiveOverageElapsedMs(ride, now)
         == (later - now) - (RemainingFreeGraceMs(ride, now) - RemainingFreeGraceMs(ride, later))
    ensures RemainingFreeGraceMs(ride, later) > 0 ==>
      LiveOverageElapsedMs(ride, later) == LiveOverageElapsedMs(ride, now)
  {
  }

  // ---------- settlement ----------

  /** The preview equals what ending the ride now would charge: always for a paying ride with a
      paid-until instant; without that instant, only while neither rule has counted a minute. A
      test ride is never charged, whatever its preview says. */
  lemma PreviewIsSettlementIff(ride: Ride, now: int)
    ensures ride.isTest ==> SettledOverage(ride, now) == 0
    ensures !ride.isTest && ride.paidUntilAt.Some? ==> LiveOverage(ride, now) == SettledOverage(ride, now)
    ensures !ride.isTest && ride.paidUntilAt.None? ==>
      (LiveOverage(ride, now) == SettledOverage(ride, now)
       <==> (ride.tariff == Retired
             || (if PendingPauseCreditMs(ride, now) > 0
                 then now - ride.startedAt - PendingPauseCreditMs(ride, now) < MINUTE_MS
                 else now - ride.startedAt - DurationMs(ride.tariff) < MINUTE_MS)))
  {
  }

  /** What the tariffs bought along `es` cost. */
  function Bought(start: Ride, es: seq<Event>): int {
    if es == [] then 0
    else
      var ride := After(start, es[..|es| - 1]);
      var e := es[|es| - 1];
      Bought(start, es[..|es| - 1])
      + if e.ExtendAt? && Extendable(ride, e.bought) then Charged(ride.isTest, e.bought) else 0
  }

  lemma {:induction false} CostWhileRiding(start: Ride, es: seq<Event>)
    requires Active(After(start, es))
    ensures After(start, es).cost == start.cost + Bought(start, es)
  {
    if es != [] {
      CostWhileRiding(start, es[..|es| - 1]);
    }
  }

  /** The final bill of any ride: the tariffs bought plus the minute price of every whole minute
      of riding time (wall clock less paused time within the grace) beyond the time bought and
      given. Test rides are free, and so is overtime when no window was ever sold or given. */
  lemma FinalBill(start: Ride, es: seq<Event>, now: int)
    requires Fresh(start) && Timely(start.startedAt, es) && Active(After(start, es))
    requires Clock(start.startedAt, es) <= now
    ensures
      var bought := After(start, es).totalTariffMs + Doubled(start, es) + Forgiven(start, es);
      var free := Min(After(start, es + [EndAt(now)]).totalPausedMs, PAUSE_FREE_GRACE_MS);
      After(start, es + [EndAt(now)]).cost
        == start.cost + Bought(start, es)
           + if start.isTest || bought + free <= 0 then 0
             else OVERAGE_MINUTE_KOPECKS * WholeMinutes(Max(0, now - start.startedAt - free - bought))
  {
    var ride := After(start, es);
    var all := es + [EndAt(now)];
    assert all[..|all| - 1] == es;
    CostWhileRiding(start, es);
    StartKept(start, es);
    AfterSound(start, es);
    var gifts := Doubled(start, es) + Forgiven(start, es);
    PaidWindowAccount(start, es);
    FinalOverage(ride, Clock(start.startedAt, es), now);
    FinalWindow(ride, Clock(start.startedAt, es), now, gifts);
    assert After(start, all) == Ended(ride, now);
  }

  lemma FinalWindow(ride: Ride, clock: int, now: int, gifts: int)
    requires Sound(ride, clock) && clock <= now && Active(ride) && Accounted(ride, gifts)
    ensures
      var bought, free := ride.totalTariffMs + gifts, Min(Ended(ride, now).totalPausedMs, PAUSE_FREE_GRACE_MS);
      && EffectivePaidUntilAt(ride, now) == ride.startedAt + bought + free
      && LiveOverageElapsedMs(ride, now) == Max(0, now - ride.startedAt - free - bought)
  {
  }

  lemma FinalOverage(ride: Ride, clock: int, now: int)
    requires Sound(ride, clock) && clock <= now && Active(ride)
    ensures LiveElapsedRidingMs(ride, now)
         == now - ride.startedAt - Min(Ended(ride, now).totalPausedMs, PAUSE_FREE_GRACE_MS)
    ensures Ended(ride, now).cost
         == ride.cost + if ride.isTest || EffectivePaidUntilAt(ride, now) <= ride.startedAt then 0
                        else OVERAGE_MINUTE_KOPECKS * WholeMinutes(LiveOverageElapsedMs(ride, now))
  {
    OverageMatchesTimerIff(ride, now);
  }

  /** The price of the tariff a ride was started with and of each extension that went through; while
      the ride lasts, each for a tariff in the catalogue has. */
  function Kopecks(tariff: Tariff, es: seq<Event>): nat {
    if es == [] then PriceKopecks(tariff)
    else
      var e := es[|es| - 1];
      Kopecks(tariff, es[..|es| - 1]) + if e.ExtendAt? && e.bought != Retired then PriceKopecks(e.bought) else 0
  }

  /** The time sold along a ride; a staff test ride may begin with a window of its own. */
  function SoldMs(tariff: Tariff, isTest: bool, testWindow: Option<int>, es: seq<Event>): nat {
    if es == [] then
      if isTest && testWindow.Some? && testWindow.value > 0 then testWindow.value else DurationMs(tariff)
    else
      var e := es[|es| - 1];
      SoldMs(tariff, isTest, testWindow, es[..|es| - 1])
      + if e.ExtendAt? && e.bought != Retired then DurationMs(e.bought) else 0
  }

  /** What is on sale. */
  lemma Catalogue()
    ensures PriceKopecks(H1) == 350_00 && PriceKopecks(H2) == 600_00 && PriceKopecks(H3) == 800_00
    ensures PriceKopecks(M1) == 10_00
    ensures DurationMs(H1) == 3_600_000 && DurationMs(H2) == 7_200_000 && DurationMs(H3) == 10_800_000
    ensures DurationMs(M1) == 60_000
  {
  }

  predicate Billed(
    ride: Ride, tariff: Tariff, isTest: bool, testWindow: Option<int>, now: int, es: seq<Event>)
  {
    && ride.startedAt == now && ride.tariff == tariff && ride.isTest == isTest
    && (isTest ==> ride.cost == 0)
    && (Active(ride) && !isTest ==> ride.cost == Kopecks(tariff, es))
    && (Active(ride) ==> ride.totalTariffMs == SoldMs(tariff, isTest, testWindow, es))
  }

  /** What a ride has cost and bought: nothing is ever charged to a test ride, before or after its
      end; any other ride costs, while it lasts, the blocks sold. */
  lemma {:induction false} BlocksAreBilled(
    tariff: Tariff, isTest: bool, testWindow: Option<int>, now: int, es: seq<Event>)
    ensures Billed(After(Started(tariff, isTest, testWindow, now), es), tariff, isTest, testWindow, now, es)
  {
    if es != [] {
      BlocksAreBilled(tariff, isTest, testWindow, now, es[..|es| - 1]);
      StartKept(Started(tariff, isTest, testWindow, now), es[..|es| - 1]);
    }
  }

  /** The bill of a ride that has ended, in kopecks and milliseconds, and the instant of its end. */
  lemma FinalBillInKopecks(
    tariff: Tariff, isTest: bool, testWindow: Option<int>, begin: int, es: seq<Event>, now: int)
    requires
      var start := Started(tariff, isTest, testWindow, begin);
      Timely(begin, es) && Active(After(start, es)) && Clock(begin, es) <= now
    ensures
      var start := Started(tariff, isTest, testWindow, begin);
      var ride := After(start, es + [EndAt(now)]);
      var bought := SoldMs(tariff, isTest, testWindow, es) + Doubled(start, es) + Forgiven(start, es);
      var free := if ride.totalPausedMs < 600_000 then ride.totalPausedMs else 600_000;
      var overtime := now - begin - free - bought;
      && ride.endedAt == Some(now)
      && ride.cost == if isTest then 0
                      else Kopecks(tariff, es)
                           + if overtime <= 0 || bought + free <= 0 then 0 else 12_00 * (overtime / 60_000)
  {
    var start := Started(tariff, isTest, testWindow, begin);
    var all := es + [EndAt(now)];
    assert IsStart(start, tariff, isTest, testWindow, begin);
    assert all[..|es|] == es;
    BlocksAreBilled(tariff, isTest, testWindow, begin, es);
    StartKept(start, es);
    AddedAtEnd(start, es, now);
    var bought := After(start, es).totalTariffMs + Doubled(start, es) + Forgiven(start, es);
    OvertimeInKopecks(After(start, all).totalPausedMs, now - begin, bought);
  }

  /** What the end adds to the cost. */
  lemma AddedAtEnd(start: Ride, es: seq<Event>, now: int)
    requires Fresh(start) && Timely(start.startedAt, es) && Active(After(start, es))
    requires Clock(start.startedAt, es) <= now
    ensures
      var bought := After(start, es).totalTariffMs + Doubled(start, es) + Forgiven(start, es);
      var ride := After(start, es + [EndAt(now)]);
      var free := Min(ride.totalPausedMs, PAUSE_FREE_GRACE_MS);
      && ride.endedAt == Some(now)
      && ride.cost == After(start, es).cost
                      + if start.isTest || bought + free <= 0 then 0
                        else OVERAGE_MINUTE_KOPECKS * WholeMinutes(Max(0, now - start.startedAt - free - bought))
  {
    assert (es + [EndAt(now)])[..|es|] == es;
    CostWhileRiding(start, es);
    FinalBill(start, es, now);
  }

  lemma OvertimeInKopecks(paused: int, elapsed: int, bought: int)
    ensures
      var free := if paused < 600_000 then paused else 600_000;
      var overtime := elapsed - free - bought;
      && free == Min(paused, PAUSE_FREE_GRACE_MS)
      && (if overtime <= 0 then 0 else 12_00 * (overtime / 60_000))
         == OVERAGE_MINUTE_KOPECKS * WholeMinutes(Max(0, elapsed - free - bought))
  {
  }

  /** Nothing that happens after the end changes the ride: it is billed once. */
  lemma {:induction false} EndedForGood(ride: Ride, es: seq<Event>)
    requires !Active(ride)
    ensures After(ride, es) == ride
  {
    if es != [] {
      EndedForGood(ride, es[..|es| - 1]);
    }
  }
}
