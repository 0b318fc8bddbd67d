/** How much one payment buys: when the route's extension or a notification's is the only one there
    will ever be, and how many starts and extensions there can be. */
module ChargeTally {
  import opened Options
  import opened RidePayment
  import opened ChargeProtocol
  import opened ChargeInvariants
  import opened ChargeTruth
  import opened ChargeEffects
  import opened ChargeExtensions
  import opened ChargeOutcomes
  import opened ChargeContinuations
  import opened ChargeAgain
  import opened ChargeStarts
  import opened ChargeStartsAgain

  // ---------- the only extension there will be ----------

  /** However the run goes on, the payment has extended its ride once. */
  ghost predicate OnceForGood(s: State, o: OrderId, calm: bool) {
    forall n :: MayLead(s, n, o, calm) ==> Count(n.effects, o) == 1
  }

  lemma CountGrows(s: State, e: Event, o: OrderId)
    ensures Count(s.effects, o) <= Count(Next(s, e).effects, o)
  {
    if e.Step? && e.task in s.tasks {
      var d := Plan(s, e.task, e.choice);
      if d.effect.Some? { CountOfMore(s.effects, d.effect.value, o); }
    }
  }

  lemma {:induction false} CountGrowsOn(s: State, more: seq<Event>, o: OrderId)
    ensures Count(s.effects, o) <= Count(Run(s, more).effects, o)
  {
    if more != [] {
      CountGrowsOn(s, more[..|more| - 1], o);
      CountGrows(Run(s, more[..|more| - 1]), more[|more| - 1], o);
    }
  }

  lemma OnceForGoodIff(s: State, o: OrderId, ride: RideId, calm: bool)
    requires Reachable(s) && IsExtension(s, o, ride) && Got(s, o) && (calm ==> Quiet(s, o)) && Bought(s, o)
    ensures OnceForGood(s, o, calm) <==> Count(s.effects, o) == 1 && !OpenTo(s, o, calm)
  {
    ExtendsAgainIff(s, o, ride, calm);
    BoughtIsCounted(s, o);
    LeadsSelf(s, {});
    assert MayLead(s, s, o, calm);
    if Count(s.effects, o) == 1 && !OpenTo(s, o, calm) {
      forall n | MayLead(s, n, o, calm) ensures Count(n.effects, o) == 1 {
        var more :| Continues(s, n, {}, more);
        CountGrowsOn(s, more, o);
      }
    } else if OpenTo(s, o, calm) {
      var n :| MayLead(s, n, o, calm) && Count(n.effects, o) > Count(s.effects, o);
      assert Count(n.effects, o) != 1;
    }
  }

  /** What an extension by a handler of the order leaves. */
  lemma ExtensionLeaves(s: State, t: TaskId, o: OrderId, ride: RideId, calm: bool)
    requires o in s.orders && t in s.tasks && s.tasks[t].order == Some(o) && IsExtension(s, o, ride)
    requires s.tasks[t].pc.Extend? && s.tasks[t].target == Some(ride) && (calm ==> Quiet(s, o)) && Got(s, o)
    ensures
      var n := Next(s, Step(t, Go));
      && n == s.(tasks := s.tasks[t := s.tasks[t].(pc := MarkPaid(None, true))],
         effects := s.effects + [Extended(o, ride, t)])
      && IsExtension(n, o, ride) && Got(n, o) && (calm ==> Quiet(n, o)) && Bought(n, o)
      && Count(n.effects, o) == Count(s.effects, o) + 1
  {
    HandlerExtends(s, o, t, ride);
    var n := Next(s, Step(t, Go));
    CountOfMore(s.effects, Extended(o, ride, t), o);
    BoughtIsCounted(n, o);
  }

  /** After the route's own extension the payment has extended its ride once for good exactly when
      it had not extended it before, the order cannot be claimed, and no notification of it stands
      where it may still extend. What it had done before is what the order shows, as long as its
      notifications stayed calm; the route looks at none of this. */
  lemma RouteExtendsOnceIff(s: State, o: OrderId, ride: RideId, calm: bool)
    requires Reachable(s) && IsExtension(s, o, ride) && (calm ==> Quiet(s, o))
    requires s.tasks[s.orders[o].maker].pc.Extend?
    ensures OnceForGood(Next(s, Step(s.orders[o].maker, Go)), o, calm)
       <==> !Bought(s, o) && !Unclaimed(s.orders[o]) && !NoticeMay(s, o, calm)
    ensures Quiet(s, o) ==> (Bought(s, o) <==> AlreadyExtended(s, o))
  {
    var t := s.orders[o].maker;
    ReachableKeeps(s);
    RouteStands(s, o, ride);
    ExtensionLeaves(s, t, o, ride, calm);
    var n := Next(s, Step(t, Go));
    ReachableNext(s, Step(t, Go));
    OnceForGoodIff(n, o, ride, calm);
    BoughtIsCounted(s, o);
    SameNotices(s, n, t, o, calm);
  }

  lemma RouteStands(s: State, o: OrderId, ride: RideId)
    requires Safe(s) && Honest(s) && AllExtensions(s) && IsExtension(s, o, ride)
    requires s.tasks[s.orders[o].maker].pc.Extend?
    ensures
      var t := s.orders[o].maker;
      t in s.tasks && s.tasks[t].order == Some(o) && s.tasks[t].kind.Request? && s.tasks[t].target == Some(ride)
    ensures Got(s, o) && (Quiet(s, o) ==> (Bought(s, o) <==> AlreadyExtended(s, o)))
  {
    var t := s.orders[o].maker;
    assert Sorted(s, o, ride) && OwnRow(s, o) && OwnTask(s, t) && HonestTask(s, t);
    assert ExtTask(s.tasks[t], ride);
  }

  /** A step of the request moves no notification. */
  lemma SameNotices(s: State, n: State, t: TaskId, o: OrderId, calm: bool)
    requires t in s.tasks && s.tasks[t].kind.Request?
    requires n.tasks == s.tasks[t := s.tasks[t].(pc := MarkPaid(None, true))]
    ensures NoticeMay(n, o, calm) <==> NoticeMay(s, o, calm)
  {
    if u :| u in s.tasks && Notified(s.tasks[u], o) && MayExtend(s.tasks[u], calm) {
      assert u in n.tasks && Notified(n.tasks[u], o) && MayExtend(n.tasks[u], calm);
    }
    if u :| u in n.tasks && Notified(n.tasks[u], o) && MayExtend(n.tasks[u], calm) {
      assert u in s.tasks && Notified(s.tasks[u], o) && MayExtend(s.tasks[u], calm);
    }
  }

  /** The mirror image: after a notification's extension the payment has extended its ride once
      for good exactly when it had not extended it before, the request is past its own extension,
      and no exception is to come. If exceptions count, it never is: the notification itself may
      throw at its last write and open the order to the next. */
  lemma NoticeExtendsOnceIff(s: State, h: TaskId, o: OrderId, ride: RideId, calm: bool)
    requires Reachable(s) && IsExtension(s, o, ride) && (calm ==> Quiet(s, o))
    requires h in s.tasks && Notified(s.tasks[h], o) && s.tasks[h].pc.Extend?
    ensures OnceForGood(Next(s, Step(h, Go)), o, calm)
       <==> calm && !Bought(s, o) && PastExtend(s.tasks[s.orders[o].maker].pc)
  {
    NoticeStandsAt(s, h, o, ride);
    ExtensionLeaves(s, h, o, ride, calm);
    var n := Next(s, Step(h, Go));
    ReachableNext(s, Step(h, Go));
    OnceForGoodIff(n, o, ride, calm);
    BoughtIsCounted(s, o);
    if calm {
      ReachableKeeps(s);
      CalmlyExtended(s, n, h, o, ride);
    } else { assert Notified(n.tasks[h], o) && MayExtend(n.tasks[h], false); }
  }

  lemma NoticeStandsAt(s: State, h: TaskId, o: OrderId, ride: RideId)
    requires Reachable(s) && IsExtension(s, o, ride)
    requires h in s.tasks && Notified(s.tasks[h], o) && s.tasks[h].pc.Extend?
    ensures s.tasks[h].target == Some(ride) && Got(s, o)
  {
    ReachableKeeps(s);
    assert Sorted(s, o, ride) && HonestTask(s, h);
    assert ExtTask(s.tasks[h], ride);
  }

  /** A calm notification that extends holds the order alone. */
  lemma CalmlyExtended(s: State, n: State, h: TaskId, o: OrderId, ride: RideId)
    requires Safe(s) && Honest(s) && AllExtensions(s) && IsExtension(s, o, ride) && Quiet(s, o)
    requires h in s.tasks && Notified(s.tasks[h], o) && s.tasks[h].pc.Extend?
    requires n.tasks == s.tasks[h := s.tasks[h].(pc := MarkPaid(None, true))] && n.orders == s.orders
    ensures !Unclaimed(s.orders[o]) && !NoticeMay(n, o, true) && s.orders[o].maker != h
  {
    HoldsAlone(s, h, o, ride);
    forall u | u in n.tasks && Notified(n.tasks[u], o) ensures !MayExtend(n.tasks[u], true) {
      if u != h { OnlyApplying(s, o, ride, h, u); }
    }
  }

  lemma HoldsAlone(s: State, h: TaskId, o: OrderId, ride: RideId)
    requires Safe(s) && Honest(s) && AllExtensions(s) && IsExtension(s, o, ride) && Quiet(s, o)
    requires h in s.tasks && Notified(s.tasks[h], o) && s.tasks[h].pc.Extend?
    ensures Sorted(s, o, ride) && s.tasks[h].target == Some(ride) && !Unclaimed(s.orders[o]) && s.orders[o].maker != h
  {
    assert Sorted(s, o, ride) && HonestTask(s, h) && OwnRow(s, o);
    assert ExtTask(s.tasks[h], ride) && Held(s, o, h);
  }

  lemma OnlyApplying(s: State, o: OrderId, ride: RideId, h: TaskId, u: TaskId)
    requires o in s.orders && Sorted(s, o, ride) && Quiet(s, o) && h != u
    requires h in s.tasks && Notified(s.tasks[h], o) && s.tasks[h].pc.Extend?
    requires u in s.tasks && Notified(s.tasks[u], o)
    ensures !s.tasks[u].pc.Extend?
  {
    assert ExtTask(s.tasks[h], ride) && ExtTask(s.tasks[u], ride);
  }

  // ---------- how many there can be ----------

  /** The notifications of the order's capture that have won a claim. */
  function Winners(s: State, o: OrderId): set<TaskId> {
    set t | t in s.tasks && Applying(s.tasks[t], o)
  }

  lemma {:induction false} SubsetIsSmaller(a: set<TaskId>, b: set<TaskId>)
    requires a <= b
    ensures |a| <= |b|
    decreases |a|
  {
    if a != {} {
      var x :| x in a;
      SubsetIsSmaller(a - {x}, b - {x});
    }
  }

  /** A handler past the only place where it may buy something. */
  predicate PastEffect(pc: Pc) { pc.MarkPaid? || pc.MarkFailed? || pc.Release? || pc.Done? }

  predicate Buyer(s: State, o: OrderId, t: TaskId)
    requires o in s.orders && t in s.tasks
  {
    s.tasks[t].order == Some(o) && (t == s.orders[o].maker || Applying(s.tasks[t], o))
  }

  /** The handlers of the order that have had their turn. */
  function Acted(s: State, o: OrderId): set<TaskId>
    requires o in s.orders
  {
    set t | t in s.tasks && Buyer(s, o, t) && PastEffect(s.tasks[t].pc)
  }

  /** A notification that settles a payment has won its claim for a capture. */
  predicate PaidApplies(s: State) {
    forall t :: t in s.tasks && s.tasks[t].kind.Notice? && ForPaid(s.tasks[t].pc) ==>
      s.tasks[t].claimed && s.tasks[t].kind.outcome == Succeeded
  }

  predicate Bounded(s: State) {
    && Listed(s) && PaidApplies(s)
    && forall o :: o in s.orders ==> Count(s.effects, o) <= |Acted(s, o)|
  }

  lemma PastStays(s: State, t: TaskId, c: Choice)
    requires t in s.tasks && OwnTask(s, t) && PastEffect(s.tasks[t].pc)
    ensures PastEffect(Plan(s, t, c).task.pc) && Plan(s, t, c).effect.None?
  {
    if s.tasks[t].pc.Done? { assert Plan(s, t, c) == Move(s.tasks[t]); }
  }

  lemma EffectEnds(s: State, t: TaskId, c: Choice)
    requires t in s.tasks && OwnTask(s, t) && Plan(s, t, c).effect.Some?
    ensures Plan(s, t, c).effect.value.order == Id(s.tasks[t]) && Id(s.tasks[t]) in s.orders
    ensures Plan(s, t, c).task.pc.MarkPaid? && (s.tasks[t].pc.BeginRide? || s.tasks[t].pc.Extend?)
  {
    if s.tasks[t].pc.Done? { DoneStays(s, t, c); }
  }

  lemma PaidAppliesStep(s: State, t: TaskId, c: Choice)
    requires Safe(s) && PaidApplies(s) && t in s.tasks
    ensures PaidApplies(Next(s, Step(t, c)))
  {
    assert Told(s, t) && OwnTask(s, t);
    PlanLegal(s, t, c);
    if s.tasks[t].pc.Done? { DoneStays(s, t, c); } else { PlanFollows(s, t, c); }
  }

  /** A handler that has had its turn stays one that has. */
  lemma ActedStays(s: State, t: TaskId, c: Choice, o: OrderId)
    requires Safe(s) && ClaimsWon(s) && t in s.tasks && o in s.orders
    ensures o in Next(s, Step(t, c)).orders && Acted(s, o) <= Acted(Next(s, Step(t, c)), o)
  {
    var n := Next(s, Step(t, c));
    StatusTurns(s, t, c, o);
    forall u | u in Acted(s, o) ensures u in Acted(n, o) {
      TasksStay(s, Step(t, c), u);
      if u == t {
        assert OwnTask(s, t);
        PastStays(s, t, c);
      }
    }
  }

  /** An effect is the turn of a handler of the order that had not had it. */
  lemma ActsNow(s: State, t: TaskId, c: Choice)
    requires Owned(s) && PaidApplies(s) && t in s.tasks && Plan(s, t, c).effect.Some?
    ensures
      var o := Id(s.tasks[t]);
      o in s.orders && Plan(s, t, c).effect.value.order == o && Buyer(s, o, t) && t !in Acted(s, o)
    ensures Plan(s, t, c).task.pc.MarkPaid?
  {
    assert OwnTask(s, t);
    EffectEnds(s, t, c);
  }

  lemma ActsOnce(s: State, t: TaskId, c: Choice, o: OrderId)
    requires Safe(s) && ClaimsWon(s) && t in s.tasks && o in s.orders && o in Next(s, Step(t, c)).orders
    requires Buyer(s, o, t) && Plan(s, t, c).task.pc.MarkPaid?
    requires Next(s, Step(t, c)).orders[o].maker == s.orders[o].maker
    ensures t in Acted(Next(s, Step(t, c)), o)
  {
    TasksStay(s, Step(t, c), t);
  }

  lemma CountApply(s: State, t: TaskId, d: Delta, o: OrderId)
    ensures Count(Apply(s, t, d).effects, o)
         == Count(s.effects, o) + if Buys(d, o) then 1 else 0
  {
    if d.effect.Some? { CountOfMore(s.effects, d.effect.value, o); }
  }

  predicate Buys(d: Delta, o: OrderId) { d.effect.Some? && d.effect.value.order == o }

  lemma BuyerAdded(s: State, t: TaskId, c: Choice, o: OrderId)
    requires Safe(s) && ClaimsWon(s) && PaidApplies(s) && t in s.tasks && Buys(Plan(s, t, c), o)
    requires o in s.orders && o in Next(s, Step(t, c)).orders && Acted(s, o) <= Acted(Next(s, Step(t, c)), o)
    ensures |Acted(s, o)| + 1 <= |Acted(Next(s, Step(t, c)), o)|
  {
    ActsNow(s, t, c);
    StatusTurns(s, t, c, o);
    ActsOnce(s, t, c, o);
    SubsetIsSmaller(Acted(s, o) + {t}, Acted(Next(s, Step(t, c)), o));
  }

  lemma ActedGrows(s: State, t: TaskId, c: Choice, o: OrderId)
    requires Safe(s) && ClaimsWon(s) && PaidApplies(s) && t in s.tasks && o in s.orders
    ensures
      var n := Next(s, Step(t, c));
      o in n.orders && |Acted(s, o)| + (if Buys(Plan(s, t, c), o) then 1 else 0) <= |Acted(n, o)|
  {
    ActedStays(s, t, c, o);
    if Buys(Plan(s, t, c), o) {
      BuyerAdded(s, t, c, o);
    } else {
      SubsetIsSmaller(Acted(s, o), Acted(Next(s, Step(t, c)), o));
    }
  }

  lemma CountAfter(s: State, t: TaskId, c: Choice, o: OrderId)
    requires Safe(s) && ClaimsWon(s) && PaidApplies(s) && t in s.tasks && o in s.orders
    requires Count(s.effects, o) <= |Acted(s, o)|
    ensures
      var n := Next(s, Step(t, c));
      o in n.orders && Count(n.effects, o) <= |Acted(n, o)|
  {
    ActedGrows(s, t, c, o);
    CountApply(s, t, Plan(s, t, c), o);
  }

  lemma CountOfNew(s: State, t: TaskId, c: Choice, o: OrderId)
    requires Safe(s) && Listed(s) && t in s.tasks && o !in s.orders && o in Next(s, Step(t, c)).orders
    ensures Count(Next(s, Step(t, c)).effects, o) == 0
  {
    assert OwnTask(s, t);
    CountOfNone(s.effects, o);
    NewRowPending(s, t, c, o);
    InsertStarts(s, t, c);
  }

  lemma BoundedBeside(s: State, e: Event)
    requires Bounded(s) && !(e.Step? && e.task in s.tasks)
    ensures Bounded(Next(s, e))
  {
    SpawnedBeside(s, e);
    forall o | o in s.orders ensures Count(s.effects, o) <= |Acted(Next(s, e), o)| {
      ActedBeside(s, e, o);
      SubsetIsSmaller(Acted(s, o), Acted(Next(s, e), o));
    }
  }

  lemma SpawnedBeside(s: State, e: Event)
    requires PaidApplies(s) && !(e.Step? && e.task in s.tasks)
    ensures PaidApplies(Next(s, e)) && Next(s, e).effects == s.effects && Next(s, e).orders == s.orders
  {
  }

  lemma ActedBeside(s: State, e: Event, o: OrderId)
    requires o in s.orders && !(e.Step? && e.task in s.tasks)
    ensures Next(s, e).orders == s.orders && Acted(s, o) <= Acted(Next(s, e), o)
  {
  }

  lemma NextBounded(s: State, e: Event)
    requires Safe(s) && ClaimsWon(s) && Bounded(s)
    ensures Bounded(Next(s, e))
  {
    if e.Step? && e.task in s.tasks {
      var n := Next(s, e);
      StepListed(s, e.task, e.choice);
      PaidAppliesStep(s, e.task, e.choice);
      forall o | o in n.orders ensures Count(n.effects, o) <= |Acted(n, o)| {
        if o in s.orders { CountAfter(s, e.task, e.choice, o); } else { CountOfNew(s, e.task, e.choice, o); }
      }
    } else {
      BoundedBeside(s, e);
    }
  }

  lemma {:induction false} RunBounded(events: seq<Event>)
    ensures Bounded(Run(Empty, events))
  {
    if events != [] {
      var before := events[..|events| - 1];
      RunBounded(before);
      RunSafe(before);
      RunClaims(before);
      NextBounded(Run(Empty, before), events[|events| - 1]);
    }
  }

  lemma {:induction false} TalliesAreCount(effects: seq<Effect>, o: OrderId)
    ensures Tally(effects, o, true) + Tally(effects, o, false) == Count(effects, o)
  {
    if effects != [] { TalliesAreCount(effects[..|effects| - 1], o); }
  }

  /** Whatever fails half-way, however often the acquirer notifies and whatever it says: an order
      of any kind buys at most one thing, a start or an extension, for its request and one for each
      notification of its capture that won a claim. */
  lemma PurchasesBounded(events: seq<Event>, o: OrderId)
    requires o in Run(Empty, events).orders
    ensures
      var s := Run(Empty, events);
      Tally(s.effects, o, true) + Tally(s.effects, o, false) == Count(s.effects, o) <= 1 + |Winners(s, o)|
  {
    var s := Run(Empty, events);
    RunBounded(events);
    TalliesAreCount(s.effects, o);
    SubsetIsSmaller(Acted(s, o), {s.orders[o].maker} + Winners(s, o));
    assert |{s.orders[o].maker} + Winners(s, o)| <= 1 + |Winners(s, o)|;
  }

  // ---------- and that many there are ----------

  /** A charge whose reply is still under way, after `k` notifications that each won a claim,
      extended the ride and were left by an exception. */
  ghost predicate AfterHalfFailures(s: State, ride: RideId, k: nat) {
    && Reachable(s) && IsExtension(s, 0, ride) && Got(s, 0) && |s.charges| == 1
    && s.orders[0].rideId == Some(ride) && !s.orders[0].overage && Unclaimed(s.orders[0])
    && s.tasks[s.orders[0].maker].order == Some(0) && s.tasks[s.orders[0].maker].pc.AwaitCharge?
    && Count(s.effects, 0) == k && |Winners(s, 0)| == k
  }

  /** What one more such notification leaves. */
  function HalfFailed(s: State, t: TaskId, ride: RideId): State
    requires 0 in s.orders && s.orders[0].rideId == Some(ride)
  {
    s.(tasks := s.tasks[t := Won(s.orders[0], 0).(threw := true, pc := Done(NoOrder))],
       orders := s.orders[0 := s.orders[0].(status := Pending)],
       effects := s.effects + [Extended(0, ride, t)])
  }

  lemma ClaimedAndExtended(s: State, t: TaskId, ride: RideId)
    requires Reachable(s) && 0 in s.orders && Got(s, 0) && Unclaimed(s.orders[0]) && t !in s.tasks
    requires s.orders[0].rideId == Some(ride) && !s.orders[0].overage
    ensures Reachable(s.(tasks := s.tasks[t := Won(s.orders[0], 0).(pc := MarkPaid(None, true))],
                         orders := s.orders[0 := s.orders[0].(status := Processing)],
                         effects := s.effects + [Extended(0, ride, t)]))
  {
    ClaimLeads(s, t, 0);
    ReachableOn(s, Claimed(s, t, 0), {});
    var won := Won(s.orders[0], 0);
    var b := s.(tasks := s.tasks[t := won], orders := s.orders[0 := s.orders[0].(status := Processing)]);
    HandlerExtends(b, 0, t, ride);
    ReachableNext(b, Step(t, Go));
    assert b.tasks[t := won.(pc := MarkPaid(None, true))] == s.tasks[t := won.(pc := MarkPaid(None, true))];
  }

  lemma ThrownAndReleased(s: State, t: TaskId)
    requires Reachable(s) && 0 in s.orders && t in s.tasks && Notified(s.tasks[t], 0) && s.tasks[t].pc.MarkPaid?
    ensures Reachable(s.(tasks := s.tasks[t := s.tasks[t].(threw := true, pc := Done(NoOrder))],
                         orders := s.orders[0 := s.orders[0].(status := Pending)]))
  {
    NoticeThrows(s, 0, t);
    ReachableNext(s, Step(t, Throws));
    var a := Next(s, Step(t, Throws));
    NoticeReleases(a, 0, t);
    ReachableNext(a, Step(t, Go));
    assert s.tasks[t := s.tasks[t].(threw := true, pc := Release)][t := s.tasks[t].(threw := true, pc := Done(NoOrder))]
        == s.tasks[t := s.tasks[t].(threw := true, pc := Done(NoOrder))];
  }

  lemma OneMoreHalfFailure(s: State, t: TaskId, ride: RideId)
    requires Reachable(s) && 0 in s.orders && Got(s, 0) && Unclaimed(s.orders[0]) && t !in s.tasks
    requires s.orders[0].rideId == Some(ride) && !s.orders[0].overage
    ensures Reachable(HalfFailed(s, t, ride))
  {
    ClaimedAndExtended(s, t, ride);
    var task := Won(s.orders[0], 0).(pc := MarkPaid(None, true));
    var m := s.(tasks := s.tasks[t := task], orders := s.orders[0 := s.orders[0].(status := Processing)],
                effects := s.effects + [Extended(0, ride, t)]);
    ThrownAndReleased(m, t);
    assert s.tasks[t := task][t := task.(threw := true, pc := Done(NoOrder))]
        == s.tasks[t := Won(s.orders[0], 0).(threw := true, pc := Done(NoOrder))];
    assert s.orders[0 := s.orders[0].(status := Processing)][0 := s.orders[0].(status := Pending)]
        == s.orders[0 := s.orders[0].(status := Pending)];
  }

  lemma HalfFailureCounts(s: State, t: TaskId, ride: RideId, k: nat)
    requires AfterHalfFailures(s, ride, k) && t !in s.tasks
    ensures AfterHalfFailures(HalfFailed(s, t, ride), ride, k + 1)
  {
    OneMoreHalfFailure(s, t, ride);
    var n := HalfFailed(s, t, ride);
    CountOfMore(s.effects, Extended(0, ride, t), 0);
    OneMoreWinner(s, t, ride);
  }

  lemma OneMoreWinner(s: State, t: TaskId, ride: RideId)
    requires 0 in s.orders && s.orders[0].rideId == Some(ride) && t !in s.tasks
    ensures |Winners(HalfFailed(s, t, ride), 0)| == |Winners(s, 0)| + 1
  {
    var n := HalfFailed(s, t, ride);
    assert Applying(n.tasks[t], 0);
    forall x ensures x in Winners(n, 0) <==> x in Winners(s, 0) + {t} {
      if x != t { assert x in n.tasks ==> n.tasks[x] == s.tasks[x]; }
    }
    assert Winners(n, 0) == Winners(s, 0) + {t} && t !in Winners(s, 0);
  }

  lemma {:induction false} HalfFailures(start: State, ride: RideId, k: nat) returns (s: State)
    requires AfterHalfFailures(start, ride, 0)
    ensures AfterHalfFailures(s, ride, k)
  {
    if k == 0 {
      s := start;
    } else {
      var before := HalfFailures(start, ride, k - 1);
      var t := FreshTask(before.tasks.Keys);
      HalfFailureCounts(before, t, ride, k - 1);
      s := HalfFailed(before, t, ride);
    }
  }

  /** From a charge whose reply is under way, the bound is met for every number of notifications:
      each wins a claim, extends and is left by an exception, and then the reply arrives. */
  lemma BoundIsMet(start: State, ride: RideId, k: nat)
    requires AfterHalfFailures(start, ride, 0)
    ensures exists s ::
      Reachable(s) && IsExtension(s, 0, ride) && |s.charges| == 1 && |Winners(s, 0)| == k
        && Count(s.effects, 0) == k + 1
  {
    var s := HalfFailures(start, ride, k);
    LastExtension(s, ride, k);
  }

  lemma LastReply(s: State, ride: RideId, k: nat) returns (a: State)
    requires AfterHalfFailures(s, ride, k)
    ensures Reachable(a) && a.orders == s.orders && a.effects == s.effects && a.charges == s.charges
    ensures
      var t := s.orders[0].maker;
      t in s.tasks && a.tasks == s.tasks[t := s.tasks[t].(target := Some(ride), pc := Extend)]
  {
    var t := s.orders[0].maker;
    ReplyCaptured(s, 0, t);
    ReachableNext(s, Step(t, ChargeReply(Capture, None)));
    a := Next(s, Step(t, ChargeReply(Capture, None)));
  }

  lemma LastExtension(s: State, ride: RideId, k: nat)
    requires AfterHalfFailures(s, ride, k)
    ensures exists n ::
      Reachable(n) && IsExtension(n, 0, ride) && |n.charges| == 1 && |Winners(n, 0)| == k
        && Count(n.effects, 0) == k + 1
  {
    var t := s.orders[0].maker;
    var a := LastReply(s, ride, k);
    HandlerExtends(a, 0, t, ride);
    ReachableNext(a, Step(t, Go));
    var n := a.(tasks := a.tasks[t := a.tasks[t].(pc := MarkPaid(None, true))],
      effects := a.effects + [Extended(0, ride, t)]);
    CountOfMore(s.effects, Extended(0, ride, t), 0);
    assert Winners(n, 0) == Winners(s, 0);
  }

  // ---------- and as many starts ----------

  /** What one more notification leaves that won its claim, started a ride and was then left by an
      exception before its last write. */
  function HalfStarted(s: State, t: TaskId): State
    requires 0 in s.orders
  {
    var bike := s.orders[0].spec.bike;
    s.(tasks := s.tasks[t := Won(s.orders[0], 0).(threw := true, pc := Done(NoOrder))],
       orders := s.orders[0 := s.orders[0].(status := Pending)],
       effects := s.effects + [Started(0, s.nextRide, bike)],
       active := (s.active - {bike})[bike := ActiveRide(s.orders[0].spec.key.user, s.nextRide)],
       nextRide := s.nextRide + 1)
  }

  lemma ClaimedAndStarted(s: State, t: TaskId)
    requires Reachable(s) && 0 in s.orders && Got(s, 0) && Unclaimed(s.orders[0]) && t !in s.tasks
    requires s.orders[0].rideId.None? && !s.orders[0].overage
    ensures Reachable(Begun(Claimed(s, t, 0), t, 0))
  {
    ClaimLeads(s, t, 0);
    ReachableOn(s, Claimed(s, t, 0), {});
    FindLeads(Claimed(s, t, 0), t, 0);
    ReachableOn(Claimed(s, t, 0), Begun(Claimed(s, t, 0), t, 0), {});
  }

  lemma HalfStartedSame(s: State, t: TaskId)
    requires 0 in s.orders && t !in s.tasks
    ensures
      var m := Begun(Claimed(s, t, 0), t, 0);
      m.(tasks := m.tasks[t := m.tasks[t].(threw := true, pc := Done(NoOrder))],
         orders := m.orders[0 := m.orders[0].(status := Pending)])
      == HalfStarted(s, t)
  {
    var m, won := Begun(Claimed(s, t, 0), t, 0), Won(s.orders[0], 0);
    assert m.tasks[t := m.tasks[t].(threw := true, pc := Done(NoOrder))]
        == s.tasks[t := won.(threw := true, pc := Done(NoOrder))];
    assert m.orders[0 := m.orders[0].(status := Pending)] == s.orders[0 := s.orders[0].(status := Pending)];
  }

  lemma OneMoreHalfStart(s: State, t: TaskId)
    requires Reachable(s) && 0 in s.orders && Got(s, 0) && Unclaimed(s.orders[0]) && t !in s.tasks
    requires s.orders[0].rideId.None? && !s.orders[0].overage
    ensures Reachable(HalfStarted(s, t))
  {
    ClaimedAndStarted(s, t);
    ThrownAndReleased(Begun(Claimed(s, t, 0), t, 0), t);
    HalfStartedSame(s, t);
  }

  /** A charge of a start whose reply is still under way, after `k` such notifications. */
  ghost predicate AfterHalfStarts(s: State, k: nat) {
    && Reachable(s) && IsStart(s, 0) && Got(s, 0) && |s.charges| == 1
    && s.orders[0].rideId.None? && !s.orders[0].overage && Unclaimed(s.orders[0])
    && s.tasks[s.orders[0].maker].order == Some(0) && s.tasks[s.orders[0].maker].Is(StartRide)
    && s.tasks[s.orders[0].maker].pc.AwaitCharge?
    && Tally(s.effects, 0, true) == k && |Winners(s, 0)| == k
  }

  lemma StartWinner(s: State, t: TaskId)
    requires 0 in s.orders && t !in s.tasks
    ensures |Winners(HalfStarted(s, t), 0)| == |Winners(s, 0)| + 1
  {
    var n := HalfStarted(s, t);
    assert Applying(n.tasks[t], 0);
    forall x ensures x in Winners(n, 0) <==> x in Winners(s, 0) + {t} {
      if x != t { assert x in n.tasks ==> n.tasks[x] == s.tasks[x]; }
    }
    assert Winners(n, 0) == Winners(s, 0) + {t} && t !in Winners(s, 0);
  }

  lemma HalfStartCounts(s: State, t: TaskId, k: nat)
    requires AfterHalfStarts(s, k) && t !in s.tasks
    ensures AfterHalfStarts(HalfStarted(s, t), k + 1)
  {
    OneMoreHalfStart(s, t);
    TallyOfMore(s.effects, Started(0, s.nextRide, s.orders[0].spec.bike), 0, true);
    StartWinner(s, t);
  }

  lemma {:induction false} HalfStarts(start: State, k: nat) returns (s: State)
    requires AfterHalfStarts(start, 0)
    ensures AfterHalfStarts(s, k)
  {
    if k == 0 {
      s := start;
    } else {
      var before := HalfStarts(start, k - 1);
      var t := FreshTask(before.tasks.Keys);
      HalfStartCounts(before, t, k - 1);
      s := HalfStarted(before, t);
    }
  }

  /** The bound is met by starts alone, for every number of notifications. */
  lemma StartBoundIsMet(start: State, k: nat)
    requires AfterHalfStarts(start, 0)
    ensures exists n ::
      Reachable(n) && IsStart(n, 0) && |n.charges| == 1 && |Winners(n, 0)| == k && Tally(n.effects, 0, true) == k + 1
  {
    var s := HalfStarts(start, k);
    LastStart(s, k);
  }

  lemma LastStartReply(s: State, k: nat) returns (a: State)
    requires AfterHalfStarts(s, k)
    ensures Reachable(a) && a.orders == s.orders && a.effects == s.effects && a.charges == s.charges
    ensures
      var t := s.orders[0].maker;
      t in s.tasks && a.tasks == s.tasks[t := s.tasks[t].(target := None, pc := FindRide)]
  {
    var t := s.orders[0].maker;
    ReplyCaptured(s, 0, t);
    ReachableNext(s, Step(t, ChargeReply(Capture, None)));
    a := Next(s, Step(t, ChargeReply(Capture, None)));
  }

  lemma LastStart(s: State, k: nat)
    requires AfterHalfStarts(s, k)
    ensures exists n ::
      Reachable(n) && IsStart(n, 0) && |n.charges| == 1 && |Winners(n, 0)| == k && Tally(n.effects, 0, true) == k + 1
  {
    var t := s.orders[0].maker;
    var a := LastStartReply(s, k);
    FindLeads(a, t, 0);
    var n := Begun(a, t, 0);
    ReachableOn(a, n, {});
    TallyOfMore(a.effects, Started(0, a.nextRide, a.orders[0].spec.bike), 0, true);
    SameWinners(s, n, t);
  }

  lemma SameWinners(s: State, n: State, t: TaskId)
    requires t in s.tasks && s.tasks[t].kind.Request? && n.tasks.Keys == s.tasks.Keys && n.tasks[t].kind.Request?
    requires forall x :: x in s.tasks && x != t ==> n.tasks[x] == s.tasks[x]
    ensures Winners(n, 0) == Winners(s, 0)
  {
  }
}
