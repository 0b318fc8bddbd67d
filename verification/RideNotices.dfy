/** Push notices about a ride: what is due now, and the claim-then-send protocol by which any
    number of sweeps, each working on a row it read earlier, send it. */
module RideNotices {
  import opened Options
  import opened RideClock
  import opened RideAccount

  const WARN_10_MS: int := 10 * 60 * 1000
  const WARN_5_MS: int := 5 * 60 * 1000
  const PAUSE_WARN_MS: int := 2 * 60 * 1000

  datatype Stage = Warn2 | GraceEnded | Warn10 | Warn5 | Overtime

  /** The place of a stage in its own family. */
  function Rank(stage: Stage): nat {
    match stage
    case Warn2 | Warn10 => 1
    case GraceEnded | Warn5 => 2
    case Overtime => 3
  }

  function Bit(stage: Stage): bv8 {
    match stage
    case Warn2 | Warn10 => 1
    case GraceEnded | Warn5 => 2
    case Overtime => 4
  }

  /** The mask to record with a stage: its own bit and those of every earlier stage. */
  function Covering(stage: Stage): bv8 {
    match stage
    case Warn2 | Warn10 => 1
    case GraceEnded | Warn5 => 1 | 2
    case Overtime => 1 | 2 | 4
  }

  /** The columns `*_notified_mask` and `*_notified_for`. */
  datatype Marks = Marks(mask: bv8, sentFor: Option<int>)

  datatype Row = Row(ride: Ride, pause: Marks, expiry: Marks)

  datatype Notice = Notice(stage: Stage, nextMask: bv8)

  /** The mask as far as it concerns `key`; what was sent about another key does not count. */
  function Prior(marks: Marks, key: Option<int>): bv8 {
    if key.None? || marks.sentFor != key then 0 else marks.mask
  }

  function Unsent(prior: bv8, due: Option<Stage>): Option<Notice> {
    if due.None? || prior & Bit(due.value) != 0 then None
    else Some(Notice(due.value, prior | Covering(due.value)))
  }

  function PauseStageDue(ride: Ride, now: int): Option<Stage> {
    if ride.pausedAt.None? || Max(0, ride.totalPausedMs) >= PAUSE_FREE_GRACE_MS then None
    else if RemainingFreeGraceMs(ride, now) <= 0 then Some(GraceEnded)
    else if RemainingFreeGraceMs(ride, now) <= PAUSE_WARN_MS then Some(Warn2)
    else None
  }

  function PauseNotice(row: Row, now: int): Option<Notice> {
    Unsent(Prior(row.pause, row.ride.pausedAt), PauseStageDue(row.ride, now))
  }

  function ExpiryStageDue(ride: Ride, now: int): Option<Stage> {
    if ride.paidUntilAt.None? then None
    else
      var remaining := EffectivePaidUntilAt(ride, now) - now;
      var window := ride.paidUntilAt.value - ride.startedAt;
      if remaining <= 0 then Some(Overtime)
      else if remaining <= WARN_5_MS && window > WARN_5_MS then Some(Warn5)
      else if remaining <= WARN_10_MS && window > WARN_10_MS then Some(Warn10)
      else None
  }

  function ExpiryNotice(row: Row, now: int): Option<Notice> {
    Unsent(Prior(row.expiry, row.ride.paidUntilAt), ExpiryStageDue(row.ride, now))
  }

  method NextPauseNotice(row: Row, now: int) returns (notice: Option<Notice>)
    ensures notice == PauseNotice(row, now)
  {
    if row.ride.pausedAt.None? {
      return None;
    }
    if Max(0, row.ride.totalPausedMs) >= PAUSE_FREE_GRACE_MS {
      return None;
    }
    var remaining := RemainingFreeGraceMs(row.ride, now);
    var mask := if row.pause.sentFor != row.ride.pausedAt then 0 else row.pause.mask;
    var stage, bit, nextMask := None, 0 as bv8, 0 as bv8;
    if remaining <= 0 {
      stage, bit, nextMask := Some(GraceEnded), 2, 1 | 2;
    } else if remaining <= PAUSE_WARN_MS {
      stage, bit, nextMask := Some(Warn2), 1, 1;
    }
    if stage.None? || mask & bit != 0 {
      return None;
    }
    return Some(Notice(stage.value, mask | nextMask));
  }

  method NextExpiryNotice(row: Row, now: int) returns (notice: Option<Notice>)
    ensures notice == ExpiryNotice(row, now)
  {
    if row.ride.paidUntilAt.None? {
      return None;
    }
    var remaining := EffectivePaidUntilAt(row.ride, now) - now;
    var window := row.ride.paidUntilAt.value - row.ride.startedAt;
    var mask := if row.expiry.sentFor != row.ride.paidUntilAt then 0 else row.expiry.mask;
    var stage, bit, nextMask := None, 0 as bv8, 0 as bv8;
    if remaining <= 0 {
      stage, bit, nextMask := Some(Overtime), 4, 1 | 2 | 4;
    } else if remaining <= WARN_5_MS && window > WARN_5_MS {
      stage, bit, nextMask := Some(Warn5), 2, 1 | 2;
    } else if remaining <= WARN_10_MS && window > WARN_10_MS {
      stage, bit, nextMask := Some(Warn10), 1, 1;
    }
    if stage.None? || mask & bit != 0 {
      return None;
    }
    return Some(Notice(stage.value, mask | nextMask));
  }

  // ---------- the ledger both kinds of notice keep ----------

  datatype Sent = Sent(key: int, stage: Stage)

  function MaskOf(rank: nat): bv8
    requires rank <= 3
  {
    if rank == 0 then 0 else if rank == 1 then 1 else if rank == 2 then 3 else 7
  }

  predicate Marked(mask: bv8, rank: nat) { rank <= 3 && mask == MaskOf(rank) }

  predicate ProperMask(mask: bv8) { mask == 0 || mask == 1 || mask == 3 || mask == 7 }

  function Reached(mask: bv8): nat {
    if mask == 0 then 0 else if mask == 1 then 1 else if mask == 3 then 2 else 3
  }

  /** A notice is of a later stage than all its mask records, and its own mask records it. */
  lemma UnsentIsLater(prior: bv8, due: Option<Stage>)
    requires ProperMask(prior) && Unsent(prior, due).Some?
    ensures ProperMask(Unsent(prior, due).value.nextMask)
    ensures Reached(prior) < Rank(due.value) == Reached(Unsent(prior, due).value.nextMask)
  {
  }

  predicate SentInOrder(sent: seq<Sent>) {
    forall i, j :: 0 <= i < j < |sent| ==>
      sent[i].key < sent[j].key || (sent[i].key == sent[j].key && Rank(sent[i].stage) < Rank(sent[j].stage))
  }

  /** The marks record the last notice sent, and nothing was sent about a later key. */
  predicate Ledger(marks: Marks, sent: seq<Sent>) {
    && ProperMask(marks.mask)
    && SentInOrder(sent)
    && (sent == [] ==> marks.sentFor.None?)
    && (sent != [] ==>
          var last := sent[|sent| - 1];
          marks.sentFor == Some(last.key) && Reached(marks.mask) == Rank(last.stage))
  }

  /** The conditional UPDATE of a sweep that read `seen`, against the current marks. */
  predicate Claimable(marks: Marks, seen: Marks, key: int) {
    marks.sentFor != Some(key) || marks.mask == Prior(seen, Some(key))
  }

  lemma ClaimKeepsLedger(marks: Marks, sent: seq<Sent>, seen: Marks, key: int, due: Option<Stage>)
    requires Ledger(marks, sent) && ProperMask(seen.mask) && Claimable(marks, seen, key)
    requires sent != [] ==> sent[|sent| - 1].key <= key
    requires Unsent(Prior(seen, Some(key)), due).Some?
    ensures Ledger(Marks(Unsent(Prior(seen, Some(key)), due).value.nextMask, Some(key)), sent + [Sent(key, due.value)])
  {
    UnsentIsLater(Prior(seen, Some(key)), due);
    var all := sent + [Sent(key, due.value)];
    if sent != [] {
      var last := sent[|sent| - 1];
      assert last.key < key || Rank(last.stage) < Rank(due.value);
      forall i | 0 <= i < |sent|
        ensures all[i].key < key || (all[i].key == key && Rank(all[i].stage) < Rank(due.value))
      {
      }
    }
  }

  /** A notice of this stage or a later one is out about `key`. */
  predicate OutBy(sent: seq<Sent>, key: int, stage: Stage) {
    exists i :: 0 <= i < |sent| && sent[i].key == key && Rank(sent[i].stage) >= Rank(stage)
  }

  /** The ledger withholds a stage only when it, or a later one, is out already. */
  lemma WithheldIsOut(marks: Marks, sent: seq<Sent>, key: int, due: Stage)
    requires Ledger(marks, sent) && Unsent(Prior(marks, Some(key)), Some(due)).None?
    ensures OutBy(sent, key, due)
  {
    var last := sent[|sent| - 1];
    assert last.key == key && Rank(last.stage) >= Rank(due);
  }

  lemma AppendedIsOut(sent: seq<Sent>, key: int, due: Stage)
    ensures OutBy(sent + [Sent(key, due)], key, due)
  {
    var all := sent + [Sent(key, due)];
    assert all[|sent|] == Sent(key, due);
  }

  // ---------- rides and sweeps, interleaved ----------

  /** A row as some sweep read it, with the instant the sweep began. */
  datatype Seen = Seen(row: Row, now: int)

  datatype State = State(
    row: Row, clock: int,
    expirySeen: seq<Seen>, pauseSeen: seq<Seen>,
    expirySent: seq<Sent>, pauseSent: seq<Sent>)

  datatype Step =
    | RideStep(e: Event)
    | Wait(until: int)
    | ReadExpiry(now: int)
    | ClaimExpiry(seen: Seen)
    | ReadPause(now: int)
    | ClaimPause(seen: Seen)

  /** Time moves forward; a sweep's own instant is taken before it reads; and a claim works on
      something that was read. */
  predicate Allowed(s: State, step: Step) {
    match step
    case RideStep(e) => s.clock <= e.now
    case Wait(until) => s.clock <= until
    case ReadExpiry(now) => now <= s.clock
    case ReadPause(now) => now <= s.clock
    case ClaimExpiry(seen) => seen in s.expirySeen
    case ClaimPause(seen) => seen in s.pauseSeen
  }

  /** The filter of the expiry sweep's query. */
  predicate ExpirySelected(ride: Ride, now: int) {
    Active(ride) && ride.paidUntilAt.Some? && ride.paidUntilAt.value <= now + WARN_10_MS + PAUSE_FREE_GRACE_MS
  }

  predicate PauseSelected(ride: Ride) { Active(ride) && ride.pausedAt.Some? }

  predicate ExpiryClaimed(row: Row, seen: Seen) {
    && ExpiryNotice(seen.row, seen.now).Some?
    && Active(row.ride)
    && row.ride.paidUntilAt == seen.row.ride.paidUntilAt
    && Claimable(row.expiry, seen.row.expiry, seen.row.ride.paidUntilAt.value)
  }

  predicate PauseClaimed(row: Row, seen: Seen) {
    && PauseNotice(seen.row, seen.now).Some?
    && Active(row.ride)
    && row.ride.pausedAt == seen.row.ride.pausedAt
    && Claimable(row.pause, seen.row.pause, seen.row.ride.pausedAt.value)
  }

  function AfterExpiryClaim(s: State, seen: Seen): State {
    if ExpiryClaimed(s.row, seen) then
      var notice := ExpiryNotice(seen.row, seen.now).value;
      var key := seen.row.ride.paidUntilAt;
      s.(row := s.row.(expiry := Marks(notice.nextMask, key)),
         expirySent := s.expirySent + [Sent(key.value, notice.stage)])
    else s
  }

  function AfterPauseClaim(s: State, seen: Seen): State {
    if PauseClaimed(s.row, seen) then
      var notice := PauseNotice(seen.row, seen.now).value;
      var key := seen.row.ride.pausedAt;
      s.(row := s.row.(pause := Marks(notice.nextMask, key)),
         pauseSent := s.pauseSent + [Sent(key.value, notice.stage)])
    else s
  }

  function Next(s: State, step: Step): State {
    match step
    case RideStep(e) => s.(row := s.row.(ride := Apply(s.row.ride, e)), clock := e.now)
    case Wait(until) => s.(clock := until)
    case ReadExpiry(now) =>
      if ExpirySelected(s.row.ride, now) then s.(expirySeen := s.expirySeen + [Seen(s.row, now)]) else s
    case ReadPause(now) =>
      if PauseSelected(s.row.ride) then s.(pauseSeen := s.pauseSeen + [Seen(s.row, now)]) else s
    case ClaimExpiry(seen) => AfterExpiryClaim(s, seen)
    case ClaimPause(seen) => AfterPauseClaim(s, seen)
  }

  function Initial(ride: Ride): State {
    var none := Marks(0, None);
    State(Row(ride, none, none), ride.startedAt, [], [], [], [])
  }

  function Run(ride: Ride, steps: seq<Step>): State {
    if steps == [] then Initial(ride) else Next(Run(ride, steps[..|steps| - 1]), steps[|steps| - 1])
  }

  predicate Legal(ride: Ride, steps: seq<Step>) {
    steps == [] || (Legal(ride, steps[..|steps| - 1]) && Allowed(Run(ride, steps[..|steps| - 1]), steps[|steps| - 1]))
  }

  // ---------- expiry notices ----------

  predicate ExpirySeenFits(sent: seq<Sent>, seen: Seen) {
    && ProperMask(seen.row.expiry.mask)
    && seen.row.ride.paidUntilAt.Some?
    && (seen.row.expiry.mask == 7 && seen.row.expiry.sentFor.Some? ==>
          Sent(seen.row.expiry.sentFor.value, Overtime) in sent)
  }

  predicate ExpiryKept(s: State) {
    && Sound(s.row.ride, s.clock)
    && Ledger(s.row.expiry, s.expirySent)
    && (s.expirySent != [] ==> s.expirySent[|s.expirySent| - 1].key <= s.row.ride.paidUntilAt.value)
    && forall k :: 0 <= k < |s.expirySeen| ==> ExpirySeenFits(s.expirySent, s.expirySeen[k])
  }

  lemma DeadlineNeverMovesBack(ride: Ride, e: Event)
    requires ride.paidUntilAt.Some?
    ensures Apply(ride, e).paidUntilAt.Some? && ride.paidUntilAt.value <= Apply(ride, e).paidUntilAt.value
  {
  }

  lemma FullMaskMeansOvertime(marks: Marks, sent: seq<Sent>, key: int)
    requires Ledger(marks, sent) && (sent != [] ==> sent[|sent| - 1].key <= key)
    ensures Sent(key, Overtime) in sent <==> marks == Marks(7, Some(key))
  {
    if Sent(key, Overtime) in sent {
      var i :| 0 <= i < |sent| && sent[i] == Sent(key, Overtime);
      assert i == |sent| - 1;
    } else if sent != [] {
      assert sent[|sent| - 1] != Sent(key, Overtime);
    }
  }

  lemma ReadKeepsExpiry(s: State, now: int)
    requires ExpiryKept(s)
    ensures ExpiryKept(Next(s, ReadExpiry(now)))
  {
    if s.row.expiry.mask == 7 && s.row.expiry.sentFor.Some? {
      FullMaskMeansOvertime(s.row.expiry, s.expirySent, s.row.expiry.sentFor.value);
    }
  }

  lemma ClaimKeepsExpiry(s: State, seen: Seen)
    requires ExpiryKept(s) && seen in s.expirySeen && ExpiryClaimed(s.row, seen)
    ensures ExpiryKept(Next(s, ClaimExpiry(seen)))
  {
    ClaimKeepsLedger(s.row.expiry, s.expirySent, seen.row.expiry, seen.row.ride.paidUntilAt.value,
                     ExpiryStageDue(seen.row.ride, seen.now));
  }

  lemma StepKeepsExpiry(s: State, step: Step)
    requires ExpiryKept(s) && Allowed(s, step)
    ensures ExpiryKept(Next(s, step))
  {
    match step
    case RideStep(e) =>
      DeadlineNeverMovesBack(s.row.ride, e);
      ApplySound(s.row.ride, s.clock, e);
    case ReadExpiry(now) => ReadKeepsExpiry(s, now);
    case ClaimExpiry(seen) =>
      if ExpiryClaimed(s.row, seen) {
        ClaimKeepsExpiry(s, seen);
      }
    case _ =>
  }

  lemma {:induction false} RunKeepsExpiry(ride: Ride, steps: seq<Step>)
    requires Fresh(ride) && Legal(ride, steps)
    ensures ExpiryKept(Run(ride, steps))
  {
    if steps != [] {
      RunKeepsExpiry(ride, steps[..|steps| - 1]);
      StepKeepsExpiry(Run(ride, steps[..|steps| - 1]), steps[|steps| - 1]);
    }
  }

  /** For each deadline a ride ever has, expiry notices go out in strictly rising stages, each at
      most once, whatever sweeps race; and no notice about an older deadline follows. */
  lemma ExpiryNoticesRise(ride: Ride, steps: seq<Step>)
    requires Fresh(ride) && Legal(ride, steps)
    ensures SentInOrder(Run(ride, steps).expirySent)
  {
    RunKeepsExpiry(ride, steps);
  }

  /** The query's filter hides no row with a notice due, even without the grace it adds. */
  lemma FilterMissesNothing(row: Row, now: int)
    requires Active(row.ride) && ExpiryNotice(row, now).Some?
    ensures ExpirySelected(row.ride, now)
    ensures row.ride.paidUntilAt.value <= now + WARN_10_MS
  {
  }

  /** When a sweep that found the ride past its deadline makes its claim, the overtime notice for
      that deadline is out afterwards exactly when it was out before, or the row's marks do not
      concern this deadline, or they are still those the sweep read. */
  lemma SweepPastDeadlineSendsOvertimeIff(ride: Ride, steps: seq<Step>, seen: Seen)
    requires Fresh(ride) && Legal(ride, steps)
    requires
      var s := Run(ride, steps);
      && seen in s.expirySeen && EffectivePaidUntilAt(seen.row.ride, seen.now) <= seen.now
      && Active(s.row.ride) && s.row.ride.paidUntilAt == seen.row.ride.paidUntilAt
    ensures
      var s := Run(ride, steps);
      s.row.ride.paidUntilAt.Some?
      && var key := s.row.ride.paidUntilAt.value;
         (Sent(key, Overtime) in Next(s, ClaimExpiry(seen)).expirySent
          <==> || s.row.expiry == Marks(7, Some(key))
               || s.row.expiry.sentFor != Some(key)
               || s.row.expiry.mask == Prior(seen.row.expiry, Some(key)))
  {
    RunKeepsExpiry(ride, steps);
    OvertimeByClaim(Run(ride, steps), seen);
  }

  lemma OvertimeByClaim(s: State, seen: Seen)
    requires ExpiryKept(s) && seen in s.expirySeen
    requires EffectivePaidUntilAt(seen.row.ride, seen.now) <= seen.now
    requires Active(s.row.ride) && s.row.ride.paidUntilAt == seen.row.ride.paidUntilAt
    ensures Sent(s.row.ride.paidUntilAt.value, Overtime) in Next(s, ClaimExpiry(seen)).expirySent
       <==> || s.row.expiry == Marks(7, s.row.ride.paidUntilAt)
            || Claimable(s.row.expiry, seen.row.expiry, s.row.ride.paidUntilAt.value)
  {
    var key := s.row.ride.paidUntilAt;
    assert ExpiryStageDue(seen.row.ride, seen.now) == Some(Overtime);
    FullMaskMeansOvertime(s.row.expiry, s.expirySent, key.value);
    if ExpiryClaimed(s.row, seen) {
      var sent := Next(s, ClaimExpiry(seen)).expirySent;
      assert sent[|sent| - 1] == Sent(key.value, Overtime);
    } else if Claimable(s.row.expiry, seen.row.expiry, key.value) {
      assert Prior(seen.row.expiry, key) == 7;
    }
  }

  lemma OneMoreStep(ride: Ride, steps: seq<Step>, step: Step)
    requires Legal(ride, steps) && Allowed(Run(ride, steps), step)
    ensures Legal(ride, steps + [step]) && Run(ride, steps + [step]) == Next(Run(ride, steps), step)
  {
    assert (steps + [step])[..|steps|] == steps;
  }

  /** Two sweeps have read the row of a ride of one hour: one a minute before its deadline, one
      at it. */
  lemma TwoSweepsRead() returns (steps: seq<Step>)
    ensures
      var ride := Started(H1, false, None, 0);
      var until := DurationMs(H1);
      var row := Initial(ride).row;
      && Legal(ride, steps)
      && Run(ride, steps) == Initial(ride).(clock := until,
                                            expirySeen := [Seen(row, until - MINUTE_MS), Seen(row, until)])
  {
    var ride := Started(H1, false, None, 0);
    var until := DurationMs(H1);
    OneMoreStep(ride, [], Wait(until));
    OneMoreStep(ride, [] + [Wait(until)], ReadExpiry(until - MINUTE_MS));
    steps := [] + [Wait(until)] + [ReadExpiry(until - MINUTE_MS)];
    assert Run(ride, steps).expirySeen == [Seen(Initial(ride).row, until - MINUTE_MS)];
    OneMoreStep(ride, steps, ReadExpiry(until));
    steps := steps + [ReadExpiry(until)];
    assert [Seen(Initial(ride).row, until - MINUTE_MS)] + [Seen(Initial(ride).row, until)]
        == [Seen(Initial(ride).row, until - MINUTE_MS), Seen(Initial(ride).row, until)];
  }

  /** A sweep that found the ride past its deadline achieves nothing by its claim, although only
      a warning is out. */
  predicate LosesOvertime(ride: Ride, steps: seq<Step>, seen: Seen) {
    var s := Run(ride, steps);
    && Legal(ride, steps) && seen in s.expirySeen && Active(s.row.ride)
    && EffectivePaidUntilAt(seen.row.ride, seen.now) <= seen.now
    && Next(s, ClaimExpiry(seen)) == s
    && ride.paidUntilAt.Some? && s.expirySent == [Sent(ride.paidUntilAt.value, Warn5)]
  }

  /** That happens when an older sweep marks the row with a warning between the read and the
      claim of the later one. */
  lemma RacingSweepLosesOvertime()
    ensures exists ride, steps, seen :: Fresh(ride) && LosesOvertime(ride, steps, seen)
  {
    var ride := Started(H1, false, None, 0);
    assert IsStart(ride, H1, false, None, 0);
    var until := DurationMs(H1);
    var early, late := Seen(Initial(ride).row, until - MINUTE_MS), Seen(Initial(ride).row, until);
    var steps := TwoSweepsRead();
    assert early in Run(ride, steps).expirySeen && late in Run(ride, steps).expirySeen;
    OneMoreStep(ride, steps, ClaimExpiry(early));
    EarlyClaim(Run(ride, steps), early, late);
    assert LosesOvertime(ride, steps + [ClaimExpiry(early)], late);
  }

  lemma EarlyClaim(s: State, early: Seen, late: Seen)
    requires
      var ride := Started(H1, false, None, 0);
      && s.row == early.row == late.row == Initial(ride).row && s.expirySent == []
      && early.now == DurationMs(H1) - MINUTE_MS && late.now == DurationMs(H1)
    ensures
      var n := AfterExpiryClaim(s, early);
      && n.row.ride == s.row.ride && n.expirySeen == s.expirySeen
      && n.expirySent == [Sent(DurationMs(H1), Warn5)] && AfterExpiryClaim(n, late) == n
  {
    assert ExpiryNotice(early.row, early.now) == Some(Notice(Warn5, 3));
    assert !Claimable(Marks(3, Some(DurationMs(H1))), late.row.expiry, DurationMs(H1));
  }

  // ---------- pause notices ----------

  /** What ties an earlier reading to the present row: the row was paused no earlier, and once
      more pausing was booked since, any present pause is a later one. */
  predicate PauseSeenFits(row: Row, clock: int, seen: Seen) {
    && ProperMask(seen.row.pause.mask)
    && seen.now <= clock
    && seen.row.ride.pausedAt.Some?
    && var p := seen.row.ride.pausedAt.value;
       && p <= clock
       && 0 <= seen.row.ride.totalPausedMs
       && (Active(row.ride) && row.ride.pausedAt.Some? ==> p <= row.ride.pausedAt.value)
       && (Active(row.ride) ==>
             || row.ride.totalPausedMs == seen.row.ride.totalPausedMs
             || (p < clock && (row.ride.pausedAt.Some? ==> p < row.ride.pausedAt.value)))
  }

  /** The free grace is used up: booked, or running out in a pause already marked so. */
  predicate GraceSpent(row: Row, clock: int) {
    || row.ride.totalPausedMs >= PAUSE_FREE_GRACE_MS
    || (&& row.ride.pausedAt.Some?
        && row.pause == Marks(3, row.ride.pausedAt)
        && row.ride.totalPausedMs + clock - row.ride.pausedAt.value >= PAUSE_FREE_GRACE_MS)
  }

  /** Any number of two-minute warnings, then at most one end of grace, then nothing. */
  predicate WarnsThenEnds(sent: seq<Sent>) {
    forall i :: 0 <= i < |sent| - 1 ==> sent[i].stage == Warn2
  }

  predicate Over(sent: seq<Sent>) { sent != [] && sent[|sent| - 1].stage != Warn2 }

  predicate PauseKept(s: State) {
    && Sound(s.row.ride, s.clock)
    && Ledger(s.row.pause, s.pauseSent)
    && WarnsThenEnds(s.pauseSent)
    && (s.pauseSent != [] ==>
          var last := s.pauseSent[|s.pauseSent| - 1].key;
          last <= s.clock && (Active(s.row.ride) && s.row.ride.pausedAt.Some? ==> last <= s.row.ride.pausedAt.value))
    && (Active(s.row.ride) && Over(s.pauseSent) ==> GraceSpent(s.row, s.clock))
    && forall k :: 0 <= k < |s.pauseSeen| ==> PauseSeenFits(s.row, s.clock, s.pauseSeen[k])
  }

  lemma RideStepKeepsFit(row: Row, clock: int, e: Event, seen: Seen)
    requires Sound(row.ride, clock) && clock <= e.now && PauseSeenFits(row, clock, seen)
    ensures PauseSeenFits(row.(ride := Apply(row.ride, e)), e.now, seen)
  {
  }

  lemma RideStepKeepsSpent(row: Row, clock: int, e: Event)
    requires Sound(row.ride, clock) && clock <= e.now && GraceSpent(row, clock)
    ensures GraceSpent(row.(ride := Apply(row.ride, e)), e.now)
  {
  }

  lemma RideStepKeepsPause(s: State, e: Event)
    requires PauseKept(s) && s.clock <= e.now
    ensures PauseKept(Next(s, RideStep(e)))
  {
    ApplySound(s.row.ride, s.clock, e);
    if GraceSpent(s.row, s.clock) {
      RideStepKeepsSpent(s.row, s.clock, e);
    }
    forall k | 0 <= k < |s.pauseSeen|
      ensures PauseSeenFits(s.row.(ride := Apply(s.row.ride, e)), e.now, s.pauseSeen[k])
    {
      RideStepKeepsFit(s.row, s.clock, e, s.pauseSeen[k]);
    }
  }

  /** A claim that succeeds was computed from the pausing the row still has. */
  lemma ClaimIsCurrent(row: Row, clock: int, seen: Seen)
    requires PauseSeenFits(row, clock, seen) && PauseClaimed(row, seen)
    ensures row.ride.totalPausedMs == seen.row.ride.totalPausedMs < PAUSE_FREE_GRACE_MS
    ensures !GraceSpent(row, clock)
    ensures PauseNotice(seen.row, seen.now).value.stage == GraceEnded ==>
      row.ride.totalPausedMs + clock - row.ride.pausedAt.value >= PAUSE_FREE_GRACE_MS
  {
  }

  lemma PauseClaimKeeps(s: State, seen: Seen)
    requires PauseKept(s) && seen in s.pauseSeen && PauseClaimed(s.row, seen)
    ensures PauseKept(Next(s, ClaimPause(seen)))
  {
    ClaimIsCurrent(s.row, s.clock, seen);
    ClaimKeepsLedger(s.row.pause, s.pauseSent, seen.row.pause, seen.row.ride.pausedAt.value,
                     PauseStageDue(seen.row.ride, seen.now));
    var next := Next(s, ClaimPause(seen));
    forall k | 0 <= k < |s.pauseSeen|
      ensures PauseSeenFits(next.row, next.clock, s.pauseSeen[k])
    {
    }
  }

  lemma StepKeepsPause(s: State, step: Step)
    requires PauseKept(s) && Allowed(s, step)
    ensures PauseKept(Next(s, step))
  {
    match step
    case RideStep(e) => RideStepKeepsPause(s, e);
    case ClaimPause(seen) =>
      if PauseClaimed(s.row, seen) {
        PauseClaimKeeps(s, seen);
      }
    case _ =>
  }

  lemma {:induction false} RunKeepsPause(ride: Ride, steps: seq<Step>)
    requires Fresh(ride) && Legal(ride, steps)
    ensures PauseKept(Run(ride, steps))
  {
    if steps != [] {
      RunKeepsPause(ride, steps[..|steps| - 1]);
      StepKeepsPause(Run(ride, steps[..|steps| - 1]), steps[|steps| - 1]);
    }
  }

  /** Over a whole ride, with any pauses and any sweeps racing on rows read at any earlier time,
      the rider gets two-minute warnings, at most one per pause, then at most one notice that the
      free time has ended, then none. */
  lemma PauseNoticesEnd(ride: Ride, steps: seq<Step>)
    requires Fresh(ride) && Legal(ride, steps)
    ensures WarnsThenEnds(Run(ride, steps).pauseSent)
    ensures SentInOrder(Run(ride, steps).pauseSent)
  {
    RunKeepsPause(ride, steps);
  }

  // ---------- what a sweep achieves ----------

  /** A sweep of an active ride that nothing disturbs between its read and its claim leaves every
      stage that is due sent, or a later one. */
  lemma SweepSendsWhatIsDue(ride: Ride, steps: seq<Step>, now: int)
    requires Fresh(ride) && Legal(ride, steps) && Active(Run(ride, steps).row.ride)
    ensures
      var s := Run(ride, steps);
      var due := ExpiryStageDue(s.row.ride, now);
      due.Some? ==> OutBy(AfterExpiryClaim(s, Seen(s.row, now)).expirySent, s.row.ride.paidUntilAt.value, due.value)
    ensures
      var s := Run(ride, steps);
      var due := PauseStageDue(s.row.ride, now);
      due.Some? ==> OutBy(AfterPauseClaim(s, Seen(s.row, now)).pauseSent, s.row.ride.pausedAt.value, due.value)
  {
    RunKeepsExpiry(ride, steps);
    RunKeepsPause(ride, steps);
    var s := Run(ride, steps);
    if ExpiryStageDue(s.row.ride, now).Some? {
      ExpirySweep(s, now);
    }
    if PauseStageDue(s.row.ride, now).Some? {
      PauseSweep(s, now);
    }
  }

  lemma ExpirySweep(s: State, now: int)
    requires ExpiryKept(s) && Active(s.row.ride) && ExpiryStageDue(s.row.ride, now).Some?
    ensures OutBy(AfterExpiryClaim(s, Seen(s.row, now)).expirySent, s.row.ride.paidUntilAt.value,
                  ExpiryStageDue(s.row.ride, now).value)
  {
    var key, due := s.row.ride.paidUntilAt.value, ExpiryStageDue(s.row.ride, now).value;
    if ExpiryNotice(s.row, now).None? {
      WithheldIsOut(s.row.expiry, s.expirySent, key, due);
    } else {
      AppendedIsOut(s.expirySent, key, due);
    }
  }

  lemma PauseSweep(s: State, now: int)
    requires PauseKept(s) && Active(s.row.ride) && PauseStageDue(s.row.ride, now).Some?
    ensures OutBy(AfterPauseClaim(s, Seen(s.row, now)).pauseSent, s.row.ride.pausedAt.value,
                  PauseStageDue(s.row.ride, now).value)
  {
    var key, due := s.row.ride.pausedAt.value, PauseStageDue(s.row.ride, now).value;
    if PauseNotice(s.row, now).None? {
      WithheldIsOut(s.row.pause, s.pauseSent, key, due);
    } else {
      AppendedIsOut(s.pauseSent, key, due);
    }
  }

  // ---------- in terms of time alone ----------

  /** A notice of one of these stages is out about `key`. */
  predicate OutOf(sent: seq<Sent>, key: int, stages: set<Stage>) {
    exists i :: 0 <= i < |sent| && sent[i].key == key && sent[i].stage in stages
  }

  /** Time left until the deadline at `now`, and the length of the window it ends. */
  function LeftMs(ride: Ride, now: int): int { EffectivePaidUntilAt(ride, now) - now }

  function WindowLength(ride: Ride): int
    requires ride.paidUntilAt.Some?
  {
    ride.paidUntilAt.value - ride.startedAt
  }

  /** The time at which each notice of the expiry family is to go out. */
  predicate ExpiryTimely(ride: Ride, now: int, stage: Stage)
    requires ride.paidUntilAt.Some?
  {
    match stage
    case Overtime => LeftMs(ride, now) <= 0
    case Warn5 => 0 < LeftMs(ride, now) <= 300_000 && WindowLength(ride) > 300_000
    case Warn10 =>
      && 0 < LeftMs(ride, now) <= 600_000 && WindowLength(ride) > 600_000
      && !(LeftMs(ride, now) <= 300_000 && WindowLength(ride) > 300_000)
    case _ => false
  }

  /** The free pause time that is left to a paused ride at `now`. */
  function PauseLeftMs(ride: Ride, now: int): int
    requires ride.pausedAt.Some?
  {
    var ongoing := now - ride.pausedAt.value;
    600_000 - (if ride.totalPausedMs > 0 then ride.totalPausedMs else 0) - (if ongoing > 0 then ongoing else 0)
  }

  predicate PauseTimely(ride: Ride, now: int, stage: Stage)
    requires ride.pausedAt.Some?
  {
    && ride.totalPausedMs < 600_000
    && match stage
       case GraceEnded => PauseLeftMs(ride, now) <= 0
       case Warn2 => 0 < PauseLeftMs(ride, now) <= 120_000
       case _ => false
  }

  lemma DueIsTimely(ride: Ride, now: int)
    requires ride.paidUntilAt.Some?
    ensures forall stage :: ExpiryStageDue(ride, now) == Some(stage) <==> ExpiryTimely(ride, now, stage)
  {
  }

  lemma PauseDueIsTimely(ride: Ride, now: int)
    requires ride.pausedAt.Some?
    ensures forall stage :: PauseStageDue(ride, now) == Some(stage) <==> PauseTimely(ride, now, stage)
  {
  }

  /** What has gone out belongs to its own family. */
  predicate Families(s: State) {
    && (forall i :: 0 <= i < |s.expirySent| ==> s.expirySent[i].stage in {Warn10, Warn5, Overtime})
    && (forall i :: 0 <= i < |s.pauseSent| ==> s.pauseSent[i].stage in {Warn2, GraceEnded})
  }

  /** A notice that is out was due, by the time alone, when some sweep read the row. */
  ghost predicate WasTimely(seen: seq<Seen>, sent: Sent) {
    exists k :: 0 <= k < |seen| && TimelyAt(seen[k], sent)
  }

  predicate TimelyAt(seen: Seen, sent: Sent) {
    && seen.row.ride.paidUntilAt == Some(sent.key) && Active(seen.row.ride)
    && ExpiryTimely(seen.row.ride, seen.now, sent.stage)
  }

  ghost predicate WasPauseTimely(seen: seq<Seen>, sent: Sent) {
    exists k :: 0 <= k < |seen| && PauseTimelyAt(seen[k], sent)
  }

  predicate PauseTimelyAt(seen: Seen, sent: Sent) {
    && seen.row.ride.pausedAt == Some(sent.key) && Active(seen.row.ride)
    && PauseTimely(seen.row.ride, seen.now, sent.stage)
  }

  ghost predicate OnTime(s: State) {
    && Families(s)
    && (forall k :: 0 <= k < |s.expirySeen| ==> Active(s.expirySeen[k].row.ride))
    && (forall k :: 0 <= k < |s.pauseSeen| ==> Active(s.pauseSeen[k].row.ride))
    && (forall i :: 0 <= i < |s.expirySent| ==> WasTimely(s.expirySeen, s.expirySent[i]))
    && (forall i :: 0 <= i < |s.pauseSent| ==> WasPauseTimely(s.pauseSeen, s.pauseSent[i]))
  }

  lemma StillTimely(seen: seq<Seen>, more: Seen, sent: Sent)
    ensures WasTimely(seen, sent) ==> WasTimely(seen + [more], sent)
    ensures WasPauseTimely(seen, sent) ==> WasPauseTimely(seen + [more], sent)
  {
    if WasTimely(seen, sent) {
      var k :| 0 <= k < |seen| && TimelyAt(seen[k], sent);
      assert (seen + [more])[k] == seen[k];
    }
    if WasPauseTimely(seen, sent) {
      var k :| 0 <= k < |seen| && PauseTimelyAt(seen[k], sent);
      assert (seen + [more])[k] == seen[k];
    }
  }

  lemma ReadOnTime(s: State, now: int)
    requires OnTime(s)
    ensures OnTime(Next(s, ReadExpiry(now))) && OnTime(Next(s, ReadPause(now)))
  {
    forall i | 0 <= i < |s.expirySent| ensures WasTimely(s.expirySeen + [Seen(s.row, now)], s.expirySent[i]) {
      StillTimely(s.expirySeen, Seen(s.row, now), s.expirySent[i]);
    }
    forall i | 0 <= i < |s.pauseSent| ensures WasPauseTimely(s.pauseSeen + [Seen(s.row, now)], s.pauseSent[i]) {
      StillTimely(s.pauseSeen, Seen(s.row, now), s.pauseSent[i]);
    }
  }

  lemma ClaimOnTime(s: State, seen: Seen)
    requires OnTime(s) && seen in s.expirySeen
    ensures OnTime(Next(s, ClaimExpiry(seen)))
  {
    if ExpiryClaimed(s.row, seen) {
      DueIsTimely(seen.row.ride, seen.now);
      var key := seen.row.ride.paidUntilAt.value;
      var sent := Sent(key, ExpiryNotice(seen.row, seen.now).value.stage);
      assert ExpiryTimely(seen.row.ride, seen.now, sent.stage);
      var k :| 0 <= k < |s.expirySeen| && s.expirySeen[k] == seen;
      assert TimelyAt(s.expirySeen[k], sent);
    }
  }

  lemma PauseClaimOnTime(s: State, seen: Seen)
    requires OnTime(s) && seen in s.pauseSeen
    ensures OnTime(Next(s, ClaimPause(seen)))
  {
    if PauseClaimed(s.row, seen) {
      PauseDueIsTimely(seen.row.ride, seen.now);
      var key := seen.row.ride.pausedAt.value;
      var sent := Sent(key, PauseNotice(seen.row, seen.now).value.stage);
      assert PauseTimely(seen.row.ride, seen.now, sent.stage);
      var k :| 0 <= k < |s.pauseSeen| && s.pauseSeen[k] == seen;
      assert PauseTimelyAt(s.pauseSeen[k], sent);
    }
  }

  lemma StepOnTime(s: State, step: Step)
    requires OnTime(s) && Allowed(s, step)
    ensures OnTime(Next(s, step))
  {
    match step
    case ReadExpiry(now) => ReadOnTime(s, now);
    case ReadPause(now) => ReadOnTime(s, now);
    case ClaimExpiry(seen) => ClaimOnTime(s, seen);
    case ClaimPause(seen) => PauseClaimOnTime(s, seen);
    case _ =>
  }

  /** In every run, with any sweeps racing, no notice goes out that was not due by the time alone
      when its sweep read the row of a ride that was still on. */
  lemma {:induction false} NoNoticeBeforeItsTime(ride: Ride, steps: seq<Step>)
    requires Legal(ride, steps)
    ensures OnTime(Run(ride, steps))
  {
    if steps != [] {
      NoNoticeBeforeItsTime(ride, steps[..|steps| - 1]);
      StepOnTime(Run(ride, steps[..|steps| - 1]), steps[|steps| - 1]);
    }
  }

  /** And none goes out about a ride that has ended, or about a deadline or pause that is no longer
      the ride's. */
  lemma ClaimSendsOnlyCurrent(s: State, seen: Seen)
    ensures
      var n := Next(s, ClaimExpiry(seen));
      n.expirySent != s.expirySent ==>
        Active(s.row.ride) && exists stage ::
          s.row.ride.paidUntilAt.Some? && n.expirySent == s.expirySent + [Sent(s.row.ride.paidUntilAt.value, stage)]
    ensures
      var n := Next(s, ClaimPause(seen));
      n.pauseSent != s.pauseSent ==>
        Active(s.row.ride) && exists stage ::
          s.row.ride.pausedAt.Some? && n.pauseSent == s.pauseSent + [Sent(s.row.ride.pausedAt.value, stage)]
  {
  }

  /** One sweep: it reads the row if its query lets it through, and claims at once. */
  function SweptExpiry(s: State, now: int): State {
    var read := Next(s, ReadExpiry(now));
    if read == s then s else Next(read, ClaimExpiry(Seen(s.row, now)))
  }

  function SweptPause(s: State, now: int): State {
    var read := Next(s, ReadPause(now));
    if read == s then s else Next(read, ClaimPause(Seen(s.row, now)))
  }

  lemma ExpirySwept(s: State, now: int)
    requires ExpiryKept(s) && Families(s) && Active(s.row.ride) && ExpiryStageDue(s.row.ride, now).Some?
    ensures
      var key, sent := s.row.ride.paidUntilAt.value, SweptExpiry(s, now).expirySent;
      var due := ExpiryStageDue(s.row.ride, now).value;
      OutOf(sent, key, if due == Overtime then {Overtime} else if due == Warn5 then {Warn5, Overtime}
                       else {Warn10, Warn5, Overtime})
  {
    var read := Next(s, ReadExpiry(now));
    assert ExpirySelected(s.row.ride, now);
    assert |read.expirySeen| == |s.expirySeen| + 1;
    ExpirySweep(s, now);
    var n := AfterExpiryClaim(read, Seen(s.row, now));
    assert n.expirySent == AfterExpiryClaim(s, Seen(s.row, now)).expirySent;
    var key, due := s.row.ride.paidUntilAt.value, ExpiryStageDue(s.row.ride, now).value;
    var i :| 0 <= i < |n.expirySent| && n.expirySent[i].key == key && Rank(n.expirySent[i].stage) >= Rank(due);
    assert n.expirySent[i].stage in {Warn10, Warn5, Overtime};
  }

  lemma PauseSwept(s: State, now: int)
    requires PauseKept(s) && Families(s) && Active(s.row.ride) && PauseStageDue(s.row.ride, now).Some?
    ensures
      var key, sent := s.row.ride.pausedAt.value, SweptPause(s, now).pauseSent;
      OutOf(sent, key, if PauseStageDue(s.row.ride, now) == Some(GraceEnded) then {GraceEnded} else {Warn2, GraceEnded})
  {
    var read := Next(s, ReadPause(now));
    assert |read.pauseSeen| == |s.pauseSeen| + 1;
    PauseSweep(s, now);
    var n := AfterPauseClaim(read, Seen(s.row, now));
    assert n.pauseSent == AfterPauseClaim(s, Seen(s.row, now)).pauseSent;
    var key, due := s.row.ride.pausedAt.value, PauseStageDue(s.row.ride, now).value;
    var i :| 0 <= i < |n.pauseSent| && n.pauseSent[i].key == key && Rank(n.pauseSent[i].stage) >= Rank(due);
    assert n.pauseSent[i].stage in {Warn2, GraceEnded};
  }

  /** An undisturbed sweep warns in time: at most ten and five minutes before the deadline, unless
      the whole window is no longer than that, and at the deadline. */
  lemma SweepWarnsInTime(ride: Ride, steps: seq<Step>, now: int)
    requires Fresh(ride) && Legal(ride, steps) && Active(Run(ride, steps).row.ride)
    ensures
      var s := Run(ride, steps);
      s.row.ride.paidUntilAt.Some?
      && var sent, left := SweptExpiry(s, now).expirySent, EffectivePaidUntilAt(s.row.ride, now) - now;
         var key := s.row.ride.paidUntilAt.value;
         var window := key - s.row.ride.startedAt;
         && (left <= 0 ==> OutOf(sent, key, {Overtime}))
         && (left <= 300_000 && window > 300_000 ==> OutOf(sent, key, {Warn5, Overtime}))
         && (left <= 600_000 && window > 600_000 ==> OutOf(sent, key, {Warn10, Warn5, Overtime}))
  {
    RunKeepsExpiry(ride, steps);
    NoNoticeBeforeItsTime(ride, steps);
    var s := Run(ride, steps);
    if ExpiryStageDue(s.row.ride, now).Some? { ExpirySwept(s, now); }
  }

  /** And at most two minutes before the free pause time ends, and at its end. */
  lemma SweepWarnsOfPauseInTime(ride: Ride, steps: seq<Step>, now: int)
    requires Fresh(ride) && Legal(ride, steps) && Active(Run(ride, steps).row.ride)
    requires Run(ride, steps).row.ride.pausedAt.Some? && Run(ride, steps).row.ride.totalPausedMs < 600_000
    ensures
      var s := Run(ride, steps);
      var sent, key, left := SweptPause(s, now).pauseSent, s.row.ride.pausedAt.value, PauseLeftMs(s.row.ride, now);
      && (left <= 0 ==> OutOf(sent, key, {GraceEnded}))
      && (left <= 120_000 ==> OutOf(sent, key, {Warn2, GraceEnded}))
  {
    RunKeepsPause(ride, steps);
    NoNoticeBeforeItsTime(ride, steps);
    var s := Run(ride, steps);
    if PauseStageDue(s.row.ride, now).Some? { PauseSwept(s, now); }
  }
}
