/** The repair every boot runs on rides and bikes before it creates the partial UNIQUE indexes:
    five set-level UPDATE statements in a row. */
module BootRepair {
  import opened Options

  const MAX_ACTIVE_RIDES_PER_USER: nat := 2

  datatype RideStatus = Active | Completed | Cancelled

  datatype Ride = Ride(
    id: int, userId: int, bikeId: int, startedAt: int, status: RideStatus, activeSlot: Option<int>)

  datatype BikeStatus = Available | Rented | Reserved | Offline | Maintenance

  datatype Bike = Bike(id: int, status: BikeStatus)

  datatype Tables = Tables(rides: seq<Ride>, bikes: seq<Bike>)

  /** `ORDER BY started_at DESC, id DESC`: `a` comes before `b`. */
  predicate Newer(a: Ride, b: Ride) {
    a.startedAt > b.startedAt || (a.startedAt == b.startedAt && a.id > b.id)
  }

  predicate PrimaryKey(rides: seq<Ride>) {
    forall i, j :: 0 <= i < j < |rides| ==> rides[i].id != rides[j].id
  }

  // ---------- the statements ----------

  /** Whether `DISTINCT ON (bike_id)` over the active rides keeps `ride`. */
  predicate KeptForBike(rides: seq<Ride>, ride: Ride) {
    forall i :: 0 <= i < |rides| && rides[i].status == Active && rides[i].bikeId == ride.bikeId ==>
      !Newer(rides[i], ride)
  }

  predicate RankedBefore(a: Ride, b: Ride) {
    a.status == Active && a.userId == b.userId && Newer(a, b)
  }

  function CountBefore(rides: seq<Ride>, ride: Ride): nat {
    if rides == [] then 0
    else CountBefore(rides[..|rides| - 1], ride) + if RankedBefore(rides[|rides| - 1], ride) then 1 else 0
  }

  /** `ROW_NUMBER()` of an active ride among its rider's active rides. */
  function Rank(rides: seq<Ride>, ride: Ride): nat { CountBefore(rides, ride) + 1 }

  function CancelledOlderOnBike(rides: seq<Ride>, ride: Ride): Ride {
    if ride.status == Active && !KeptForBike(rides, ride) then ride.(status := Cancelled) else ride
  }

  function CancelledPastLimit(rides: seq<Ride>, ride: Ride): Ride {
    if ride.status == Active && Rank(rides, ride) > MAX_ACTIVE_RIDES_PER_USER
    then ride.(status := Cancelled, activeSlot := None) else ride
  }

  function Slotted(rides: seq<Ride>, ride: Ride): Ride {
    if ride.status == Active && ride.activeSlot != Some(Rank(rides, ride))
    then ride.(activeSlot := Some(Rank(rides, ride))) else ride
  }

  function Unslotted(ride: Ride): Ride {
    if ride.status != Active && ride.activeSlot != None then ride.(activeSlot := None) else ride
  }

  predicate Ridden(rides: seq<Ride>, bikeId: int) {
    exists i :: 0 <= i < |rides| && rides[i].status == Active && rides[i].bikeId == bikeId
  }

  function Freed(rides: seq<Ride>, bike: Bike): Bike {
    if bike.status == Rented && !Ridden(rides, bike.id) then bike.(status := Available) else bike
  }

  /** An UPDATE sees the table as it was: every row is rewritten from the same snapshot. */
  function Updated<T>(rows: seq<T>, f: T -> T): (r: seq<T>)
    ensures |r| == |rows|
    ensures forall i :: 0 <= i < |rows| ==> r[i] == f(rows[i])
  {
    seq(|rows|, i requires 0 <= i < |rows| => f(rows[i]))
  }

  function Step1(rides: seq<Ride>): seq<Ride> { Updated(rides, r => CancelledOlderOnBike(rides, r)) }
  function Step2(rides: seq<Ride>): seq<Ride> { Updated(rides, r => CancelledPastLimit(rides, r)) }
  function Step3(rides: seq<Ride>): seq<Ride> { Updated(rides, r => Slotted(rides, r)) }
  function Step4(rides: seq<Ride>): seq<Ride> { Updated(rides, Unslotted) }
  function Step5(rides: seq<Ride>, bikes: seq<Bike>): seq<Bike> { Updated(bikes, b => Freed(rides, b)) }

  function RepairedRides(rides: seq<Ride>): seq<Ride> { Step4(Step3(Step2(Step1(rides)))) }

  function Repaired(db: Tables): Tables {
    Tables(RepairedRides(db.rides), Step5(RepairedRides(db.rides), db.bikes))
  }

  class Database {
    var rides: seq<Ride>
    var bikes: seq<Bike>

    function Contents(): Tables
      reads this
    {
      Tables(rides, bikes)
    }

    /** createRideRaceGuardIndexes, up to the creation of the indexes. */
    method Repair()
      modifies this
      ensures Contents() == Repaired(old(Contents()))
    {
      CancelOlderOnBike();
      CancelPastLimit();
      RewriteSlots();
      ClearStraySlots();
      FreeBikes();
    }

    method CancelOlderOnBike()
      modifies this`rides
      ensures rides == Step1(old(rides))
    {
      var before := rides;
      var row := 0;
      while row < |rides|
        invariant 0 <= row <= |rides| == |before|
        invariant forall i :: 0 <= i < row ==> rides[i] == CancelledOlderOnBike(before, before[i])
        invariant forall i :: row <= i < |rides| ==> rides[i] == before[i]
      {
        if rides[row].status == Active && !KeptForBike(before, rides[row]) {
          rides := rides[row := rides[row].(status := Cancelled)];
        }
        row := row + 1;
      }
    }

    method CancelPastLimit()
      modifies this`rides
      ensures rides == Step2(old(rides))
    {
      var before := rides;
      var row := 0;
      while row < |rides|
        invariant 0 <= row <= |rides| == |before|
        invariant forall i :: 0 <= i < row ==> rides[i] == CancelledPastLimit(before, before[i])
        invariant forall i :: row <= i < |rides| ==> rides[i] == before[i]
      {
        if rides[row].status == Active && Rank(before, rides[row]) > MAX_ACTIVE_RIDES_PER_USER {
          rides := rides[row := rides[row].(status := Cancelled, activeSlot := None)];
        }
        row := row + 1;
      }
    }

    method RewriteSlots()
      modifies this`rides
      ensures rides == Step3(old(rides))
    {
      var before := rides;
      var row := 0;
      while row < |rides|
        invariant 0 <= row <= |rides| == |before|
        invariant forall i :: 0 <= i < row ==> rides[i] == Slotted(before, before[i])
        invariant forall i :: row <= i < |rides| ==> rides[i] == before[i]
      {
        if rides[row].status == Active && rides[row].activeSlot != Some(Rank(before, rides[row])) {
          rides := rides[row := rides[row].(activeSlot := Some(Rank(before, rides[row])))];
        }
        row := row + 1;
      }
    }

    method ClearStraySlots()
      modifies this`rides
      ensures rides == Step4(old(rides))
    {
      rides := Updated(rides, Unslotted);
    }

    method FreeBikes()
      modifies this`bikes
      ensures bikes == Step5(rides, old(bikes))
    {
      var row := 0;
      var before := bikes;
      while row < |bikes|
        invariant 0 <= row <= |bikes| == |before|
        invariant forall i :: 0 <= i < row ==> bikes[i] == Freed(rides, before[i])
        invariant forall i :: row <= i < |bikes| ==> bikes[i] == before[i]
      {
        if bikes[row].status == Rented && !Ridden(rides, bikes[row].id) {
          bikes := bikes[row := bikes[row].(status := Available)];
        }
        row := row + 1;
      }
    }
  }

  // ---------- what a repaired database looks like ----------

  predicate OneActivePerBike(rides: seq<Ride>) {
    forall i, j :: 0 <= i < j < |rides| && rides[i].status == Active && rides[j].status == Active ==>
      rides[i].bikeId != rides[j].bikeId
  }

  predicate SlotsAreRanks(rides: seq<Ride>) {
    forall i :: 0 <= i < |rides| && rides[i].status == Active ==>
      rides[i].activeSlot == Some(Rank(rides, rides[i])) && Rank(rides, rides[i]) <= MAX_ACTIVE_RIDES_PER_USER
  }

  predicate NoStraySlots(rides: seq<Ride>) {
    forall i :: 0 <= i < |rides| && rides[i].status != Active ==> rides[i].activeSlot == None
  }

  predicate NoStuckBikes(db: Tables) {
    forall i :: 0 <= i < |db.bikes| && db.bikes[i].status == Rented ==> Ridden(db.rides, db.bikes[i].id)
  }

  predicate Settled(db: Tables) {
    OneActivePerBike(db.rides) && SlotsAreRanks(db.rides) && NoStraySlots(db.rides) && NoStuckBikes(db)
  }

  predicate SameRider(a: Ride, b: Ride) { a.status == Active && b.status == Active && a.userId == b.userId }

  /** The partial UNIQUE index on (user_id, active_slot). */
  predicate SlotIndex(rides: seq<Ride>) {
    forall i, j :: 0 <= i < j < |rides| && SameRider(rides[i], rides[j]) && rides[i].activeSlot.Some? ==>
      rides[i].activeSlot != rides[j].activeSlot
  }

  predicate AtMostTwoPerRider(rides: seq<Ride>) {
    forall i, j, k :: 0 <= i < j < k < |rides| && SameRider(rides[i], rides[j]) ==> !SameRider(rides[j], rides[k])
  }

  // ---------- ranks ----------

  /** Rewritings that leave the order of one rider's active rides as it is. */
  predicate SameBefore(a: seq<Ride>, b: seq<Ride>, ride: Ride, other: Ride) {
    |a| == |b| && forall i :: 0 <= i < |a| ==> (RankedBefore(a[i], ride) <==> RankedBefore(b[i], other))
  }

  lemma {:induction false} SameCount(a: seq<Ride>, b: seq<Ride>, ride: Ride, other: Ride)
    requires SameBefore(a, b, ride, other)
    ensures CountBefore(a, ride) == CountBefore(b, other)
  {
    if a != [] {
      assert RankedBefore(a[|a| - 1], ride) <==> RankedBefore(b[|b| - 1], other);
      var frontA, frontB := a[..|a| - 1], b[..|b| - 1];
      forall i | 0 <= i < |frontA|
        ensures RankedBefore(frontA[i], ride) <==> RankedBefore(frontB[i], other)
      {
        assert frontA[i] == a[i] && frontB[i] == b[i];
      }
      SameCount(frontA, frontB, ride, other);
    }
  }

  lemma {:induction false} CountGrows(rides: seq<Ride>, newer: Ride, older: Ride, at: nat)
    requires RankedBefore(newer, older)
    ensures CountBefore(rides, newer) + (if at < |rides| && rides[at] == newer then 1 else 0)
         <= CountBefore(rides, older)
  {
    if rides != [] {
      CountGrows(rides[..|rides| - 1], newer, older, at);
    }
  }

  /** A newer active ride of the same rider ranks strictly lower. */
  lemma RanksAreOrdered(rides: seq<Ride>, i: nat, ride: Ride)
    requires i < |rides| && RankedBefore(rides[i], ride)
    ensures Rank(rides, rides[i]) < Rank(rides, ride)
  {
    CountGrows(rides, rides[i], ride, i);
  }

  lemma RanksDiffer(rides: seq<Ride>, i: nat, j: nat)
    requires PrimaryKey(rides) && i < |rides| && j < |rides| && i != j
    requires SameRider(rides[i], rides[j])
    ensures Rank(rides, rides[i]) != Rank(rides, rides[j])
  {
    assert rides[i].id != rides[j].id;
    if Newer(rides[i], rides[j]) {
      RanksAreOrdered(rides, i, rides[j]);
    } else {
      RanksAreOrdered(rides, j, rides[i]);
    }
  }

  /** Slots equal to ranks satisfy the slot index and the limit per rider. */
  lemma RanksMakeIndex(rides: seq<Ride>)
    requires PrimaryKey(rides) && SlotsAreRanks(rides)
    ensures SlotIndex(rides) && AtMostTwoPerRider(rides)
  {
    forall i, j | 0 <= i < j < |rides| && SameRider(rides[i], rides[j])
      ensures rides[i].activeSlot != rides[j].activeSlot
    {
      RanksDiffer(rides, i, j);
    }
    forall i, j, k | 0 <= i < j < k < |rides| && SameRider(rides[i], rides[j])
      ensures !SameRider(rides[j], rides[k])
    {
      if SameRider(rides[j], rides[k]) {
        RanksDiffer(rides, i, j);
        RanksDiffer(rides, j, k);
        RanksDiffer(rides, i, k);
        assert false;
      }
    }
  }

  // ---------- the steps establish it ----------

  /** A later table with the same rides, some of them cancelled. */
  predicate OnlyCancels(before: seq<Ride>, after: seq<Ride>) {
    |before| == |after|
    && forall i :: 0 <= i < |before| ==> SameRide(before[i], after[i])
  }

  predicate SameRide(a: Ride, b: Ride) {
    && a.id == b.id && a.userId == b.userId && a.bikeId == b.bikeId && a.startedAt == b.startedAt
    && (b.status == a.status || (a.status == Active && b.status == Cancelled))
  }

  lemma OnlyCancelsOnward(a: seq<Ride>, b: seq<Ride>, c: seq<Ride>)
    requires OnlyCancels(a, b) && OnlyCancels(b, c)
    ensures OnlyCancels(a, c)
  {
    forall i | 0 <= i < |a|
      ensures SameRide(a[i], c[i])
    {
      assert SameRide(a[i], b[i]) && SameRide(b[i], c[i]);
    }
  }

  lemma StepsOnlyCancel(rides: seq<Ride>)
    ensures OnlyCancels(rides, Step1(rides))
    ensures OnlyCancels(rides, Step2(rides))
    ensures OnlyCancels(rides, Step3(rides))
    ensures OnlyCancels(rides, Step4(rides))
  {
  }

  lemma KeepsPrimaryKey(before: seq<Ride>, after: seq<Ride>)
    requires PrimaryKey(before) && OnlyCancels(before, after)
    ensures PrimaryKey(after)
  {
    forall i, j | 0 <= i < j < |after|
      ensures after[i].id != after[j].id
    {
      assert SameRide(before[i], after[i]) && SameRide(before[j], after[j]);
    }
  }

  lemma KeepsOnePerBike(before: seq<Ride>, after: seq<Ride>)
    requires OneActivePerBike(before) && OnlyCancels(before, after)
    ensures OneActivePerBike(after)
  {
    forall i, j | 0 <= i < j < |after| && after[i].status == Active && after[j].status == Active
      ensures after[i].bikeId != after[j].bikeId
    {
      assert SameRide(before[i], after[i]) && SameRide(before[j], after[j]);
    }
  }

  lemma Step1OnePerBike(rides: seq<Ride>)
    requires PrimaryKey(rides)
    ensures OneActivePerBike(Step1(rides))
  {
    var after := Step1(rides);
    forall i, j | 0 <= i < j < |after| && after[i].status == Active && after[j].status == Active
      ensures after[i].bikeId != after[j].bikeId
    {
      assert rides[i].id != rides[j].id;
      assert KeptForBike(rides, rides[i]) && KeptForBike(rides, rides[j]);
      assert Newer(rides[i], rides[j]) || Newer(rides[j], rides[i]);
    }
  }

  /** Every ride newer than one within the limit is within the limit too, so cancelling past the
      limit leaves the ranks of the rest as they were. */
  lemma Step2KeepsRank(rides: seq<Ride>, ride: Ride)
    requires Rank(rides, ride) <= MAX_ACTIVE_RIDES_PER_USER
    ensures Rank(Step2(rides), ride) == Rank(rides, ride)
  {
    var after := Step2(rides);
    forall i | 0 <= i < |rides|
      ensures RankedBefore(rides[i], ride) <==> RankedBefore(after[i], ride)
    {
      if RankedBefore(rides[i], ride) {
        RanksAreOrdered(rides, i, ride);
      }
    }
    SameCount(rides, after, ride, ride);
  }

  predicate WithinLimit(rides: seq<Ride>) {
    forall i :: 0 <= i < |rides| && rides[i].status == Active ==> Rank(rides, rides[i]) <= MAX_ACTIVE_RIDES_PER_USER
  }

  lemma Step2WithinLimit(rides: seq<Ride>)
    ensures WithinLimit(Step2(rides))
  {
    var after := Step2(rides);
    forall i | 0 <= i < |after| && after[i].status == Active
      ensures Rank(after, after[i]) <= MAX_ACTIVE_RIDES_PER_USER
    {
      Step2KeepsRank(rides, rides[i]);
    }
  }

  /** Ranks do not look at slots. */
  predicate SameButSlots(before: seq<Ride>, after: seq<Ride>) {
    |before| == |after|
    && forall i :: 0 <= i < |before| ==> SameButSlot(before[i], after[i])
  }

  predicate SameButSlot(a: Ride, b: Ride) { b == a.(activeSlot := b.activeSlot) }

  lemma SlotsDoNotRank(before: seq<Ride>, after: seq<Ride>, ride: Ride, other: Ride)
    requires SameButSlots(before, after) && SameButSlot(ride, other)
    ensures Rank(after, other) == Rank(before, ride)
  {
    forall i | 0 <= i < |before|
      ensures RankedBefore(before[i], ride) <==> RankedBefore(after[i], other)
    {
      assert SameButSlot(before[i], after[i]);
    }
    SameCount(before, after, ride, other);
  }

  lemma LastStepsSettle(rides: seq<Ride>)
    requires WithinLimit(rides)
    ensures SlotsAreRanks(Step4(Step3(rides))) && NoStraySlots(Step4(Step3(rides)))
  {
    var after := Step4(Step3(rides));
    assert SameButSlots(rides, after);
    forall i | 0 <= i < |after| && after[i].status == Active
      ensures after[i].activeSlot == Some(Rank(after, after[i]))
      ensures Rank(after, after[i]) <= MAX_ACTIVE_RIDES_PER_USER
    {
      assert rides[i].status == Active;
      SlotsDoNotRank(rides, after, rides[i], after[i]);
    }
  }

  lemma RepairOnlyCancels(rides: seq<Ride>)
    ensures OnlyCancels(Step1(rides), RepairedRides(rides))
    ensures OnlyCancels(rides, RepairedRides(rides))
  {
    var one := Step1(rides);
    var two := Step2(one);
    var three := Step3(two);
    StepsOnlyCancel(rides);
    StepsOnlyCancel(one);
    StepsOnlyCancel(two);
    StepsOnlyCancel(three);
    OnlyCancelsOnward(one, two, three);
    OnlyCancelsOnward(one, three, Step4(three));
    OnlyCancelsOnward(rides, one, Step4(three));
  }

  /** A bike is freed if it was rented and nobody rides it any more, and left alone otherwise. */
  predicate OnlyFrees(before: seq<Bike>, after: seq<Bike>, rides: seq<Ride>) {
    |before| == |after|
    && forall i :: 0 <= i < |before| ==>
         after[i].id == before[i].id
         && (after[i].status != before[i].status <==> before[i].status == Rented && !Ridden(rides, before[i].id))
         && (after[i].status != before[i].status ==> after[i].status == Available)
  }

  /** From any tables whatever, the repair leaves a settled database on which both indexes can be
      built, and on the way only cancels active rides: none is revived, moved or renumbered. */
  lemma RepairSettles(db: Tables)
    requires PrimaryKey(db.rides)
    ensures Settled(Repaired(db))
    ensures SlotIndex(Repaired(db).rides) && AtMostTwoPerRider(Repaired(db).rides)
    ensures OnlyCancels(db.rides, Repaired(db).rides) && PrimaryKey(Repaired(db).rides)
    ensures OnlyFrees(db.bikes, Repaired(db).bikes, Repaired(db).rides)
  {
    var rides := db.rides;
    RepairOnlyCancels(rides);
    Step1OnePerBike(rides);
    KeepsOnePerBike(Step1(rides), RepairedRides(rides));
    Step2WithinLimit(Step1(rides));
    LastStepsSettle(Step2(Step1(rides)));
    KeepsPrimaryKey(rides, RepairedRides(rides));
    RanksMakeIndex(RepairedRides(rides));
  }

  // ---------- what survives ----------

  /** Whether the rider's ride is the newest on its bike. */
  predicate NewestOnBike(rides: seq<Ride>, i: nat)
    requires i < |rides|
  {
    rides[i].status == Active && KeptForBike(rides, rides[i])
  }

  /** The first statement keeps of each bike the active ride that started last, and of two that
      started at the same instant the one with the greater id. */
  predicate LastOnBike(rides: seq<Ride>, i: nat)
    requires i < |rides|
  {
    && rides[i].status == Active
    && forall j :: 0 <= j < |rides| && j != i && rides[j].status == Active && rides[j].bikeId == rides[i].bikeId ==>
         || rides[j].startedAt < rides[i].startedAt
         || (rides[j].startedAt == rides[i].startedAt && rides[j].id < rides[i].id)
  }

  lemma FirstStatementKeepsLast(rides: seq<Ride>, i: nat)
    requires PrimaryKey(rides) && i < |rides|
    ensures Step1(rides)[i].status == Active <==> LastOnBike(rides, i)
  {
    if NewestOnBike(rides, i) {
      forall j | 0 <= j < |rides| && j != i && rides[j].status == Active && rides[j].bikeId == rides[i].bikeId
        ensures rides[j].startedAt < rides[i].startedAt
                || (rides[j].startedAt == rides[i].startedAt && rides[j].id < rides[i].id)
      {
        assert !Newer(rides[j], rides[i]);
        assert rides[i].id != rides[j].id;
      }
    }
  }

  /** Every bike with an active ride keeps exactly one. */
  lemma EveryBikeKeepsOne(rides: seq<Ride>, i: nat)
    requires PrimaryKey(rides) && i < |rides| && rides[i].status == Active
    ensures exists k :: 0 <= k < |rides| && rides[k].bikeId == rides[i].bikeId && Step1(rides)[k].status == Active
    ensures OneActivePerBike(Step1(rides))
    ensures forall k :: 0 <= k < |rides| ==> Step1(rides)[k].bikeId == rides[k].bikeId
  {
    Step1OnePerBike(rides);
    var k := LastOf(rides, i, |rides|);
    assert NewestOnBike(rides, k);
  }

  /** The newest of the first `n` rides on the bike of ride `i`, and that ride. */
  lemma {:induction false} LastOf(rides: seq<Ride>, i: nat, n: nat) returns (k: nat)
    requires n <= |rides| && i < |rides| && rides[i].status == Active
    ensures k < |rides| && rides[k].status == Active && rides[k].bikeId == rides[i].bikeId
    ensures forall j :: 0 <= j < n && rides[j].status == Active && rides[j].bikeId == rides[i].bikeId ==>
              !Newer(rides[j], rides[k])
    decreases n
  {
    if n == 0 {
      k := i;
    } else {
      k := LastOf(rides, i, n - 1);
      if rides[n - 1].status == Active && rides[n - 1].bikeId == rides[i].bikeId && Newer(rides[n - 1], rides[k]) {
        k := n - 1;
      }
    }
  }

  /** Another ride of the rider that is the last on its own bike and started later. */
  predicate LaterOfRider(rides: seq<Ride>, j: nat, i: nat)
    requires j < |rides| && i < |rides|
  {
    && LastOnBike(rides, j) && rides[j].userId == rides[i].userId
    && (|| rides[j].startedAt > rides[i].startedAt
        || (rides[j].startedAt == rides[i].startedAt && rides[j].id > rides[i].id))
  }

  /** A ride survives exactly when it was the last one started on its bike and its rider has fewer
      than two later rides of which that can be said. */
  lemma SurvivesIff(rides: seq<Ride>, i: nat)
    requires PrimaryKey(rides) && i < |rides|
    ensures RepairedRides(rides)[i].status == Active
       <==> LastOnBike(rides, i)
            && !(exists j, k ::
                   && 0 <= j < |rides| && 0 <= k < |rides| && j != k
                   && LaterOfRider(rides, j, i) && LaterOfRider(rides, k, i))
  {
    RankedByLater(rides, i);
    CountAtLeastTwo(Step1(rides), Step1(rides)[i]);
    FirstStatementKeepsLast(rides, i);
  }

  lemma RankedByLater(rides: seq<Ride>, i: nat)
    requires PrimaryKey(rides) && i < |rides|
    ensures forall j :: 0 <= j < |rides| ==>
              (RankedBefore(Step1(rides)[j], Step1(rides)[i]) <==> LaterOfRider(rides, j, i))
  {
    forall j | 0 <= j < |rides|
      ensures RankedBefore(Step1(rides)[j], Step1(rides)[i]) <==> LaterOfRider(rides, j, i)
    {
      FirstStatementKeepsLast(rides, j);
    }
  }

  /** The slots of what survives: 1 for the rider's last ride, 2 for the one before it. */
  lemma SlotsByRecency(rides: seq<Ride>, i: nat)
    requires PrimaryKey(rides) && i < |rides| && RepairedRides(rides)[i].status == Active
    ensures RepairedRides(rides)[i].activeSlot
         == Some(if exists j :: 0 <= j < |rides| && LaterOfRider(rides, j, i) then 2 else 1)
  {
    var one, two := Step1(rides), Step2(Step1(rides));
    RankedByLater(rides, i);
    CountAtLeastOne(one, one[i]);
    CountAtLeastTwo(one, one[i]);
    Step2KeepsRank(one, one[i]);
  }

  lemma {:induction false} CountAtLeastOne(rides: seq<Ride>, ride: Ride)
    ensures CountBefore(rides, ride) >= 1 <==> exists j :: 0 <= j < |rides| && RankedBefore(rides[j], ride)
  {
    if rides != [] {
      var front := rides[..|rides| - 1];
      CountAtLeastOne(front, ride);
      if j :| 0 <= j < |front| && RankedBefore(front[j], ride) {
        assert RankedBefore(rides[j], ride);
      }
      if j :| 0 <= j < |rides| && RankedBefore(rides[j], ride) && !RankedBefore(rides[|rides| - 1], ride) {
        assert RankedBefore(front[j], ride);
      }
    }
  }

  predicate TwoBefore(rides: seq<Ride>, ride: Ride) {
    exists j, k :: 0 <= j < |rides| && 0 <= k < |rides| && j != k
      && RankedBefore(rides[j], ride) && RankedBefore(rides[k], ride)
  }

  lemma {:induction false} CountAtLeastTwo(rides: seq<Ride>, ride: Ride)
    ensures CountBefore(rides, ride) >= 2 <==> TwoBefore(rides, ride)
  {
    if rides != [] {
      var front, last := rides[..|rides| - 1], rides[|rides| - 1];
      CountAtLeastTwo(front, ride);
      CountAtLeastOne(front, ride);
      TwoBeforeSplits(rides, ride);
    }
  }

  lemma TwoBeforeSplits(rides: seq<Ride>, ride: Ride)
    requires rides != []
    ensures
      var front, last := rides[..|rides| - 1], rides[|rides| - 1];
      TwoBefore(rides, ride)
      <==> TwoBefore(front, ride)
           || (RankedBefore(last, ride) && exists j :: 0 <= j < |front| && RankedBefore(front[j], ride))
  {
    var front, last := rides[..|rides| - 1], rides[|rides| - 1];
    if TwoBefore(rides, ride) {
      var j, k :| 0 <= j < |rides| && 0 <= k < |rides| && j != k
                  && RankedBefore(rides[j], ride) && RankedBefore(rides[k], ride);
      if j < |front| {
        assert RankedBefore(front[j], ride);
      }
      if k < |front| {
        assert RankedBefore(front[k], ride);
      }
    }
    if TwoBefore(front, ride) {
      var j, k :| 0 <= j < |front| && 0 <= k < |front| && j != k
                  && RankedBefore(front[j], ride) && RankedBefore(front[k], ride);
      assert RankedBefore(rides[j], ride) && RankedBefore(rides[k], ride);
    }
    if RankedBefore(last, ride) && exists j :: 0 <= j < |front| && RankedBefore(front[j], ride) {
      var j :| 0 <= j < |front| && RankedBefore(front[j], ride);
      assert RankedBefore(rides[j], ride) && RankedBefore(rides[|rides| - 1], ride);
    }
  }

  // ---------- repeating it ----------

  lemma SettledStaysPut(db: Tables)
    requires PrimaryKey(db.rides) && Settled(db)
    ensures Repaired(db) == db
  {
    forall i | 0 <= i < |db.rides|
      ensures CancelledOlderOnBike(db.rides, db.rides[i]) == db.rides[i]
    {
      if db.rides[i].status == Active {
        AloneOnBike(db.rides, i);
      }
    }
    assert Step1(db.rides) == db.rides;
    assert Step2(db.rides) == db.rides;
    assert Step3(db.rides) == db.rides;
    assert Step4(db.rides) == db.rides;
    assert Step5(db.rides, db.bikes) == db.bikes;
  }

  lemma AloneOnBike(rides: seq<Ride>, i: nat)
    requires OneActivePerBike(rides) && i < |rides| && rides[i].status == Active
    ensures KeptForBike(rides, rides[i])
  {
    forall j | 0 <= j < |rides| && rides[j].status == Active && rides[j].bikeId == rides[i].bikeId
      ensures !Newer(rides[j], rides[i])
    {
      assert i == j;
    }
  }

  /** The repair changes nothing exactly on settled tables. */
  lemma RepairIsNoOpIff(db: Tables)
    requires PrimaryKey(db.rides)
    ensures Repaired(db) == db <==> Settled(db)
  {
    RepairSettles(db);
    if Settled(db) {
      SettledStaysPut(db);
    }
  }

  /** Repairing twice is repairing once. */
  lemma RepairIsIdempotent(db: Tables)
    requires PrimaryKey(db.rides)
    ensures Repaired(Repaired(db)) == Repaired(db)
  {
    RepairSettles(db);
    SettledStaysPut(Repaired(db));
  }

  // ---------- a healthy database is not always settled ----------

  /** What the server itself maintains between boots. */
  predicate Healthy(db: Tables) {
    && PrimaryKey(db.rides) && OneActivePerBike(db.rides) && SlotIndex(db.rides) && AtMostTwoPerRider(db.rides)
    && NoStraySlots(db.rides) && NoStuckBikes(db)
    && forall i :: 0 <= i < |db.rides| && db.rides[i].status == Active ==>
         db.rides[i].activeSlot.Some? && 1 <= db.rides[i].activeSlot.value <= MAX_ACTIVE_RIDES_PER_USER
  }

  /** startRide takes the lowest slot the rider does not use. */
  predicate SlotUsed(rides: seq<Ride>, userId: int, slot: int) {
    exists i :: 0 <= i < |rides| && rides[i].status == Active && rides[i].userId == userId
      && rides[i].activeSlot == Some(slot)
  }

  function StartSlot(rides: seq<Ride>, userId: int): int {
    if !SlotUsed(rides, userId, 1) then 1 else if !SlotUsed(rides, userId, 2) then 2 else 3
  }

  /** Of the two slots, the lowest that no active ride of the rider has. */
  lemma StartSlotIsLowest(rides: seq<Ride>, userId: int)
    ensures
      var slot := StartSlot(rides, userId);
      && 1 <= slot <= 3
      && (forall lower :: 1 <= lower < slot ==>
            exists i :: 0 <= i < |rides| && rides[i].status == Active && rides[i].userId == userId
                        && rides[i].activeSlot == Some(lower))
      && (slot <= 2 ==>
            !exists i :: 0 <= i < |rides| && rides[i].status == Active && rides[i].userId == userId
                         && rides[i].activeSlot == Some(slot))
  {
    assert forall lower :: 1 <= lower < StartSlot(rides, userId) ==> SlotUsed(rides, userId, lower);
    assert StartSlot(rides, userId) <= 2 ==> !SlotUsed(rides, userId, StartSlot(rides, userId));
  }

  predicate InRange(rides: seq<Ride>, order: seq<nat>) { forall k :: 0 <= k < |order| ==> order[k] < |rides| }

  /** The slot rewrite with only the rows of `order` written so far, as an index that is checked
      on every write sees it. */
  function Written(rides: seq<Ride>, order: seq<nat>): (r: seq<Ride>)
    requires InRange(rides, order)
    ensures |r| == |rides|
    ensures forall i :: 0 <= i < |rides| ==> r[i] == if i in order then Slotted(rides, rides[i]) else rides[i]
  {
    seq(|rides|, i requires 0 <= i < |rides| => if i in order then Slotted(rides, rides[i]) else rides[i])
  }

  /** An order in which the statement may visit the rows it changes. */
  predicate VisitsChanges(rides: seq<Ride>, order: seq<nat>) {
    && InRange(rides, order)
    && forall i :: 0 <= i < |rides| && Slotted(rides, rides[i]) != rides[i] ==> i in order
  }

  predicate Aborts(rides: seq<Ride>, order: seq<nat>)
    requires InRange(rides, order)
  {
    exists k :: 0 <= k <= |order| && !SlotIndex(Written(rides, order[..k]))
  }

  /** A rider whose later ride has slot 2 and whose earlier one has slot 1. */
  predicate SwappedPair(rides: seq<Ride>, later: int, earlier: int) {
    && 0 <= later < |rides| && 0 <= earlier < |rides|
    && SameRider(rides[later], rides[earlier]) && Newer(rides[later], rides[earlier])
    && rides[later].activeSlot == Some(2) && rides[earlier].activeSlot == Some(1)
  }

  lemma NoThird(rides: seq<Ride>, i: nat, j: nat, k: nat)
    requires AtMostTwoPerRider(rides) && i < |rides| && j < |rides| && k < |rides|
    requires i != j && j != k && i != k
    requires SameRider(rides[i], rides[j])
    ensures !SameRider(rides[j], rides[k])
  {
    if SameRider(rides[j], rides[k]) {
      if i < j < k || i < k < j || j < i < k {
        assert SameRider(rides[i], rides[k]) && SameRider(rides[k], rides[j]) && SameRider(rides[j], rides[i]);
      } else {
        assert SameRider(rides[k], rides[i]) && SameRider(rides[k], rides[j]) && SameRider(rides[j], rides[i]);
      }
    }
  }

  lemma TwoArePerRider(rides: seq<Ride>)
    requires AtMostTwoPerRider(rides)
    ensures WithinLimit(rides)
  {
    forall i | 0 <= i < |rides| && rides[i].status == Active
      ensures Rank(rides, rides[i]) <= MAX_ACTIVE_RIDES_PER_USER
    {
      CountAtLeastTwo(rides, rides[i]);
      if j, k :| 0 <= j < |rides| && 0 <= k < |rides| && j != k
                 && RankedBefore(rides[j], rides[i]) && RankedBefore(rides[k], rides[i])
      {
        NoThird(rides, j, i, k);
      }
    }
  }

  predicate RankedPair(rides: seq<Ride>, later: nat, earlier: nat)
    requires later < |rides| && earlier < |rides|
  {
    Rank(rides, rides[later]) == 1 && Rank(rides, rides[earlier]) == 2
  }

  lemma PairRanks(rides: seq<Ride>, later: nat, earlier: nat)
    requires WithinLimit(rides) && later < |rides| && earlier < |rides|
    requires SameRider(rides[later], rides[earlier]) && Newer(rides[later], rides[earlier])
    ensures RankedPair(rides, later, earlier)
  {
    RanksAreOrdered(rides, later, rides[earlier]);
  }

  lemma AbortsWhenLonger(rides: seq<Ride>, order: seq<nat>, k: nat)
    requires InRange(rides, order) && k <= |order| && Aborts(rides, order[..k])
    ensures Aborts(rides, order)
  {
    var m :| 0 <= m <= k && !SlotIndex(Written(rides, order[..k][..m]));
    assert order[..k][..m] == order[..m];
  }

  lemma InFrontOrLast(order: seq<nat>, i: nat)
    requires order != []
    ensures i in order <==> i in order[..|order| - 1] || i == order[|order| - 1]
  {
  }

  /** The first of the two writes meets the other row still holding the slot. */
  lemma {:induction false} SwapMeetsItself(rides: seq<Ride>, order: seq<nat>, later: nat, earlier: nat)
    requires InRange(rides, order) && SwappedPair(rides, later, earlier) && RankedPair(rides, later, earlier)
    requires later in order || earlier in order
    ensures Aborts(rides, order)
    decreases |order|
  {
    var front := order[..|order| - 1];
    if later in front || earlier in front {
      SwapMeetsItself(rides, front, later, earlier);
      AbortsWhenLonger(rides, order, |order| - 1);
    } else {
      InFrontOrLast(order, later);
      InFrontOrLast(order, earlier);
      FirstWriteCollides(rides, order, later, earlier);
      AbortsAtTheEnd(rides, order);
    }
  }

  lemma AbortsAtTheEnd(rides: seq<Ride>, order: seq<nat>)
    requires InRange(rides, order) && !SlotIndex(Written(rides, order))
    ensures Aborts(rides, order)
  {
    assert order[..|order|] == order;
  }

  lemma FirstWriteShares(rides: seq<Ride>, order: seq<nat>, later: nat, earlier: nat)
    requires InRange(rides, order) && SwappedPair(rides, later, earlier) && RankedPair(rides, later, earlier)
    requires later in order <==> earlier !in order
    ensures
      var now := Written(rides, order);
      && SameRider(now[later], now[earlier])
      && now[later].activeSlot == now[earlier].activeSlot && now[later].activeSlot.Some?
  {
  }

  lemma FirstWriteCollides(rides: seq<Ride>, order: seq<nat>, later: nat, earlier: nat)
    requires InRange(rides, order) && SwappedPair(rides, later, earlier) && RankedPair(rides, later, earlier)
    requires later in order <==> earlier !in order
    ensures !SlotIndex(Written(rides, order))
  {
    FirstWriteShares(rides, order, later, earlier);
    SharedSlotBreaksIndex(Written(rides, order), later, earlier);
  }

  lemma SharedSlotBreaksIndex(rides: seq<Ride>, i: nat, j: nat)
    requires i < |rides| && j < |rides| && i != j && SameRider(rides[i], rides[j])
    requires rides[i].activeSlot == rides[j].activeSlot && rides[i].activeSlot.Some?
    ensures !SlotIndex(rides)
  {
    assert SameRider(rides[j], rides[i]);
    var low, high := if i < j then i else j, if i < j then j else i;
    assert SameRider(rides[low], rides[high]);
  }

  // ---------- exactly when the slot rewrite aborts ----------

  predicate FirstOf(done: seq<nat>, a: int, b: int) { a in done && b !in done }

  /** One of a rider's two rides has been given the slot that the other still holds. */
  predicate Halfway(rides: seq<Ride>, done: seq<nat>, later: nat, earlier: nat)
    requires later < |rides| && earlier < |rides|
  {
    || (rides[earlier].activeSlot == Some(1) && FirstOf(done, later, earlier))
    || (rides[later].activeSlot == Some(2) && FirstOf(done, earlier, later))
  }

  predicate Pair(rides: seq<Ride>, later: int, earlier: int) {
    && 0 <= later < |rides| && 0 <= earlier < |rides|
    && SameRider(rides[later], rides[earlier]) && Newer(rides[later], rides[earlier])
  }

  /** The order writes one of a rider's two rides while the other still holds its slot. */
  predicate Blocks(rides: seq<Ride>, order: seq<nat>, later: int, earlier: int) {
    Pair(rides, later, earlier) && exists k :: 0 <= k <= |order| && Halfway(rides, order[..k], later, earlier)
  }

  /** What the first two statements leave of tables that the index has always guarded. */
  predicate Rewritable(rides: seq<Ride>) { PrimaryKey(rides) && WithinLimit(rides) && SlotIndex(rides) }

  /** Of two rides of a rider, with their ranks, only the half-written pair can share a slot. */
  lemma PairCollidesIff(rides: seq<Ride>, done: seq<nat>, later: nat, earlier: nat)
    requires InRange(rides, done) && Rewritable(rides) && later < |rides| && earlier < |rides|
    requires SameRider(rides[later], rides[earlier]) && RankedPair(rides, later, earlier)
    ensures
      var now := Written(rides, done);
      (now[later].activeSlot == now[earlier].activeSlot && now[later].activeSlot.Some?)
      <==> Halfway(rides, done, later, earlier)
  {
    assert later != earlier;
    var low, high := if later < earlier then later else earlier, if later < earlier then earlier else later;
    assert SameRider(rides[low], rides[high]);
  }

  lemma BlockAborts(rides: seq<Ride>, order: seq<nat>, later: nat, earlier: nat)
    requires InRange(rides, order) && Rewritable(rides) && Blocks(rides, order, later, earlier)
    ensures Aborts(rides, order)
  {
    PairRanks(rides, later, earlier);
    var k :| 0 <= k <= |order| && Halfway(rides, order[..k], later, earlier);
    PairCollidesIff(rides, order[..k], later, earlier);
    SharedSlotBreaksIndex(Written(rides, order[..k]), later, earlier);
  }

  lemma AbortIsBlock(rides: seq<Ride>, order: seq<nat>, k: nat, later: nat, earlier: nat)
    requires InRange(rides, order) && Rewritable(rides) && k <= |order|
    requires Pair(rides, later, earlier)
    requires
      var now := Written(rides, order[..k]);
      now[later].activeSlot == now[earlier].activeSlot && now[later].activeSlot.Some?
    ensures Blocks(rides, order, later, earlier)
  {
    PairRanks(rides, later, earlier);
    PairCollidesIff(rides, order[..k], later, earlier);
  }

  lemma CollisionHasPair(rides: seq<Ride>, order: seq<nat>, k: nat) returns (later: nat, earlier: nat)
    requires InRange(rides, order) && Rewritable(rides) && k <= |order| && !SlotIndex(Written(rides, order[..k]))
    ensures Blocks(rides, order, later, earlier)
  {
    var now := Written(rides, order[..k]);
    var i, j :| 0 <= i < j < |now| && SameRider(now[i], now[j]) && now[i].activeSlot.Some?
                && now[i].activeSlot == now[j].activeSlot;
    later, earlier := Ordered(rides, i, j);
    AbortIsBlock(rides, order, k, later, earlier);
  }

  lemma Ordered(rides: seq<Ride>, i: nat, j: nat) returns (later: nat, earlier: nat)
    requires PrimaryKey(rides) && i < j < |rides| && SameRider(rides[i], rides[j])
    ensures Pair(rides, later, earlier) && ((later == i && earlier == j) || (later == j && earlier == i))
  {
    assert rides[i].id != rides[j].id;
    later, earlier := if Newer(rides[i], rides[j]) then i else j, if Newer(rides[i], rides[j]) then j else i;
  }

  /** With the slot index in place, and checked on each row as it is written, the slot rewrite
      aborts exactly when it writes one of a rider's two rides while the other still holds its slot. */
  lemma SlotRewriteAbortsIff(rides: seq<Ride>, order: seq<nat>)
    requires InRange(rides, order) && Rewritable(rides)
    ensures Aborts(rides, order) <==> exists later, earlier :: Blocks(rides, order, later, earlier)
  {
    if Aborts(rides, order) {
      var k :| 0 <= k <= |order| && !SlotIndex(Written(rides, order[..k]));
      var later, earlier := CollisionHasPair(rides, order, k);
    }
    if later, earlier :| Blocks(rides, order, later, earlier) {
      BlockAborts(rides, order, later, earlier);
    }
  }

  lemma FirstStepsRewritable(rides: seq<Ride>)
    requires PrimaryKey(rides) && SlotIndex(rides)
    ensures Rewritable(Step2(Step1(rides)))
  {
    var two := Step2(Step1(rides));
    StepsOnlyCancel(rides);
    StepsOnlyCancel(Step1(rides));
    OnlyCancelsOnward(rides, Step1(rides), two);
    KeepsPrimaryKey(rides, two);
    Step2WithinLimit(Step1(rides));
    forall i, j | 0 <= i < j < |two| && SameRider(two[i], two[j]) && two[i].activeSlot.Some?
      ensures two[i].activeSlot != two[j].activeSlot
    {
      assert two[i] == rides[i] && two[j] == rides[j];
    }
  }

  /** The rows whose slot their rider's other ride is waiting for. */
  predicate InTheWay(rides: seq<Ride>, i: nat)
    requires i < |rides|
  {
    || (rides[i].activeSlot == Some(1) && Rank(rides, rides[i]) == 2)
    || (rides[i].activeSlot == Some(2) && Rank(rides, rides[i]) == 1)
  }

  function Rows(rides: seq<Ride>, n: nat, all: bool): (rows: seq<nat>)
    requires n <= |rides|
    ensures InRange(rides, rows)
    ensures forall i :: i in rows <==> 0 <= i < n && (all || InTheWay(rides, i))
  {
    if n == 0 then []
    else if all || InTheWay(rides, n - 1) then Rows(rides, n - 1, all) + [n - 1]
    else Rows(rides, n - 1, all)
  }

  /** First the rows in the way, then all of them. */
  function ClearingOrder(rides: seq<Ride>): seq<nat> { Rows(rides, |rides|, false) + Rows(rides, |rides|, true) }

  lemma ClearedFirst(rides: seq<Ride>, a: nat, b: nat)
    requires a < |rides| && b < |rides| && InTheWay(rides, a) && !InTheWay(rides, b)
    ensures forall k :: 0 <= k <= |ClearingOrder(rides)| ==> !FirstOf(ClearingOrder(rides)[..k], b, a)
  {
    var first, order := Rows(rides, |rides|, false), ClearingOrder(rides);
    forall k | 0 <= k <= |order|
      ensures !FirstOf(order[..k], b, a)
    {
      if k <= |first| {
        assert order[..k] == first[..k];
      } else {
        assert order[..k] == first + order[..k][|first|..];
      }
    }
  }

  lemma ClearingVisits(rides: seq<Ride>)
    ensures VisitsChanges(rides, ClearingOrder(rides))
  {
  }

  lemma UnblockedByClearing(rides: seq<Ride>, later: int, earlier: int)
    requires Rewritable(rides) && !SwappedPair(rides, later, earlier)
    ensures !Blocks(rides, ClearingOrder(rides), later, earlier)
  {
    if Blocks(rides, ClearingOrder(rides), later, earlier) {
      PairRanks(rides, later, earlier);
      if rides[earlier].activeSlot == Some(1) {
        ClearedFirst(rides, earlier, later);
      } else {
        ClearedFirst(rides, later, earlier);
      }
    }
  }

  /** No order of visiting the rows gets the rewrite through exactly when some rider's later ride
      has slot 2 and the earlier one slot 1. */
  lemma SlotRewriteAlwaysAbortsIff(rides: seq<Ride>)
    requires Rewritable(rides)
    ensures (forall order :: VisitsChanges(rides, order) ==> Aborts(rides, order))
       <==> exists later, earlier :: SwappedPair(rides, later, earlier)
  {
    if later, earlier :| SwappedPair(rides, later, earlier) {
      forall order | VisitsChanges(rides, order)
        ensures Aborts(rides, order)
      {
        SwapAborts(rides, order, later, earlier);
      }
    } else {
      var order := ClearingOrder(rides);
      ClearingVisits(rides);
      forall later, earlier ensures !Blocks(rides, order, later, earlier) {
        UnblockedByClearing(rides, later, earlier);
      }
      SlotRewriteAbortsIff(rides, order);
    }
  }

  /** On what the server itself maintains the order does not matter: every visiting order aborts,
      or none does. */
  lemma HealthyRewriteAbortsIff(db: Tables, order: seq<nat>)
    requires Healthy(db) && VisitsChanges(db.rides, order)
    ensures Rewritable(db.rides)
    ensures Aborts(db.rides, order) <==> exists later, earlier :: SwappedPair(db.rides, later, earlier)
  {
    TwoArePerRider(db.rides);
    if Aborts(db.rides, order) {
      HealthyAbortIsSwap(db, order);
    }
    if later, earlier :| SwappedPair(db.rides, later, earlier) {
      SwapAborts(db.rides, order, later, earlier);
    }
  }

  lemma SwapAborts(rides: seq<Ride>, order: seq<nat>, later: nat, earlier: nat)
    requires Rewritable(rides) && SwappedPair(rides, later, earlier) && VisitsChanges(rides, order)
    ensures Aborts(rides, order)
  {
    PairRanks(rides, later, earlier);
    SwapMeetsItself(rides, order, later, earlier);
  }

  lemma HealthyAbortIsSwap(db: Tables, order: seq<nat>)
    requires Healthy(db) && Rewritable(db.rides) && InRange(db.rides, order) && Aborts(db.rides, order)
    ensures exists later, earlier :: SwappedPair(db.rides, later, earlier)
  {
    SlotRewriteAbortsIff(db.rides, order);
    var later, earlier :| Blocks(db.rides, order, later, earlier);
    HealthyBlockIsSwap(db, order, later, earlier);
  }

  lemma HealthyBlockIsSwap(db: Tables, order: seq<nat>, later: nat, earlier: nat)
    requires Healthy(db) && Blocks(db.rides, order, later, earlier)
    ensures SwappedPair(db.rides, later, earlier)
  {
    var low, high := if later < earlier then later else earlier, if later < earlier then earlier else later;
    assert SameRider(db.rides[low], db.rides[high]);
  }

  // ---------- a second start leads there ----------

  function RentedOut(bikes: seq<Bike>, bikeId: int): seq<Bike> {
    Updated(bikes, (b: Bike) => if b.id == bikeId then b.(status := Rented) else b)
  }

  /** A start that startRide lets through: a fresh row on a bike without an active ride. */
  predicate Starts(rides: seq<Ride>, next: Ride) {
    && next.status == Active && next.activeSlot == Some(StartSlot(rides, next.userId))
    && forall i :: 0 <= i < |rides| ==>
         next.id != rides[i].id && (rides[i].status == Active ==> rides[i].bikeId != next.bikeId)
  }

  lemma SecondSlot(rides: seq<Ride>, first: nat, next: Ride)
    requires first < |rides| && rides[first].status == Active && rides[first].activeSlot == Some(1)
    requires forall i :: 0 <= i < |rides| && i != first ==> !SameRider(rides[i], rides[first])
    requires next.userId == rides[first].userId && Starts(rides, next)
    ensures next.activeSlot == Some(2)
  {
    assert SlotUsed(rides, next.userId, 1);
    if SlotUsed(rides, next.userId, 2) {
      var i :| 0 <= i < |rides| && rides[i].status == Active && rides[i].userId == next.userId
               && rides[i].activeSlot == Some(2);
      assert SameRider(rides[i], rides[first]);
    }
  }

  lemma SecondStartBikes(rides: seq<Ride>, bikes: seq<Bike>, next: Ride)
    requires NoStuckBikes(Tables(rides, bikes)) && next.status == Active
    ensures NoStuckBikes(Tables(rides + [next], RentedOut(bikes, next.bikeId)))
  {
    var after := RentedOut(bikes, next.bikeId);
    forall i | 0 <= i < |after| && after[i].status == Rented
      ensures Ridden(rides + [next], after[i].id)
    {
      if after[i].id == next.bikeId {
        assert (rides + [next])[|rides|] == next;
      } else {
        assert Ridden(rides, bikes[i].id);
        var j :| 0 <= j < |rides| && rides[j].status == Active && rides[j].bikeId == bikes[i].id;
        assert (rides + [next])[j] == rides[j];
      }
    }
  }

  /** The ordinary state of a rider who started two rides one after the other is healthy, and the
      slot rewrite of the next boot cannot get through it. */
  lemma SecondStartSwaps(rides: seq<Ride>, bikes: seq<Bike>, first: nat, next: Ride)
    requires Healthy(Tables(rides, bikes))
    requires first < |rides| && rides[first].status == Active && rides[first].activeSlot == Some(1)
    requires forall i :: 0 <= i < |rides| && i != first ==> !SameRider(rides[i], rides[first])
    requires next.userId == rides[first].userId && Newer(next, rides[first]) && Starts(rides, next)
    ensures Healthy(Tables(rides + [next], RentedOut(bikes, next.bikeId)))
    ensures SwappedPair(rides + [next], |rides|, first)
  {
    SecondSlot(rides, first, next);
    SecondStartBikes(rides, bikes, next);
    forall i | 0 <= i < |rides| && i != first ensures !SameRider(rides[i], next) {
      assert !SameRider(rides[i], rides[first]);
    }
  }

  /** Such a database is not settled, whatever else it holds. */
  lemma SwappedIsNotSettled(db: Tables, later: nat, earlier: nat)
    requires SwappedPair(db.rides, later, earlier)
    ensures !Settled(db)
  {
    RanksAreOrdered(db.rides, later, db.rides[earlier]);
  }

  /** There is a healthy database that the boot repair would change, and whose slot rewrite aborts
      in every order. */
  lemma HealthyDatabaseAborts()
    ensures exists db ::
      && Healthy(db) && !Settled(db)
      && forall order :: VisitsChanges(db.rides, order) ==> Aborts(db.rides, order)
  {
    var one, two := Ride(1, 1, 1, 0, Active, Some(1)), Ride(2, 1, 2, 1, Active, Some(2));
    SecondStartSwaps([one], [], 0, two);
    var db := Tables([one] + [two], RentedOut([], 2));
    SwappedIsNotSettled(db, 1, 0);
    TwoArePerRider(db.rides);
    SlotRewriteAlwaysAbortsIff(db.rides);
  }
}
