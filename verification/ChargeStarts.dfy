/** When the payment of a ride start extends a ride: only after a notification of the order was
    left by an exception. */
module ChargeStarts {
  import opened Options
  import opened RidePayment
  import opened ChargeProtocol
  import opened ChargeInvariants
  import opened ChargeTruth
  import opened ChargeEffects
  import opened ChargeExtensions
  import opened ChargeOutcomes
  import opened ChargeContinuations
  import opened ChargeAgain

  predicate ForStart(kind: Kind) { kind == Request(StartRide) || kind == Request(Hosted) }

  /** An order of one of the two routes that start rides. */
  predicate IsStart(s: State, o: OrderId) {
    o in s.orders && s.orders[o].maker in s.tasks && ForStart(s.tasks[s.orders[o].maker].kind)
  }

  /** While its notifications stay calm, a start order that carries a ride is paid. */
  predicate StartRow(row: Order) { !row.overage && (row.rideId.Some? ==> row.status == Paid) }

  predicate StartTask(task: Task) { !task.pc.Extend? && (task.pc.Release? ==> task.threw) }

  predicate StartOnly(s: State, o: OrderId)
    requires o in s.orders
  {
    && StartRow(s.orders[o])
    && (forall t :: t in s.tasks && s.tasks[t].order == Some(o) ==> StartTask(s.tasks[t]))
    && (forall i :: 0 <= i < |s.effects| && s.effects[i].order == o ==> s.effects[i].Started?)
  }

  predicate Listed(s: State) { forall i :: 0 <= i < |s.effects| ==> s.effects[i].order in s.orders }

  /** The routes that start rides never stand at an extension. */
  predicate RoutesStart(s: State) { forall t :: t in s.tasks && ForStart(s.tasks[t].kind) ==> !s.tasks[t].pc.Extend? }

  ghost predicate StartsKeep(s: State) {
    Listed(s) && RoutesStart(s) && forall o :: IsStart(s, o) && Quiet(s, o) ==> StartOnly(s, o)
  }

  /** What a step must be like to leave a start order one. */
  predicate LeavesStart(s: State, t: TaskId, d: Delta, o: OrderId)
    requires t in s.tasks
  {
    && (d.effect.Some? && d.effect.value.order == o ==> d.effect.value.Started?)
    && (d.task.order == Some(o) ==> StartTask(d.task))
    && o in Apply(s, t, d).orders && StartRow(Apply(s, t, d).orders[o])
  }

  // ---------- one step ----------

  lemma OtherStart(s: State, t: TaskId, c: Choice, o: OrderId)
    requires Safe(s) && t in s.tasks && s.tasks[t].order != Some(o) && o in s.orders && StartRow(s.orders[o])
    ensures LeavesStart(s, t, Plan(s, t, c), o)
  {
    OtherStep(s, t, c, o);
    assert Told(s, t) && OwnTask(s, t) && OwnRow(s, o) && OwnTask(s, s.orders[o].maker);
    PlanLegal(s, t, c);
    NoNewHolder(s, t, Plan(s, t, c), o);
  }

  /** What a step of a handler of a start order is like, but for its row. */
  predicate StaysStart(d: Delta, o: OrderId) {
    (d.effect.Some? ==> d.effect.value.Started?) && StartTask(d.task) && !d.write.InsertRow? && d.task.order == Some(o)
  }

  /** A handler of a start order is its request, past its insert, or a notification of it. */
  lemma StartHolder(s: State, t: TaskId, o: OrderId)
    requires Owned(s) && IsStart(s, o) && t in s.tasks && s.tasks[t].order == Some(o)
    ensures ForStart(s.tasks[t].kind) || Notified(s.tasks[t], o)
    ensures !Reserving(s.tasks[t].pc)
  {
    Holders(s, o, t);
    assert OwnTask(s, t) && OwnRow(s, o);
  }

  lemma AcquirerStart(task: Task, o: OrderId, c: Choice)
    requires WellPlaced(task) && task.order == Some(o) && ForStart(task.kind) && AtAcquirer(task.pc)
    ensures StaysStart(if task.pc.CallInit? then PlanInit(task, c) else PlanPay(task, o, c), o)
  {
  }

  lemma ClaimStart(task: Task, o: OrderId, row: Order)
    requires Settling(task) && task.order == Some(o) && StartRow(row) && task.pc.Claim?
    ensures StaysStart(PlanClaim(task, row), o)
  {
  }

  lemma ThrowStart(task: Task, o: OrderId)
    requires Settling(task) && task.order == Some(o) && StartTask(task)
    ensures StaysStart(PlanThrow(task), o)
  {
  }

  lemma EffectStart(s: State, task: Task, row: Order, t: TaskId, o: OrderId, c: Choice)
    requires Settling(task) && task.order == Some(o) && (task.pc.FindRide? || task.pc.BeginRide?)
    ensures StaysStart(PlanEffect(s, task, row, t, o, c), o)
  {
  }

  lemma MarkStart(task: Task, o: OrderId, c: Choice)
    requires Settling(task) && task.order == Some(o) && (task.pc.MarkPaid? || task.pc.MarkFailed? || task.pc.Release?)
    ensures StaysStart(PlanMark(task, o, c), o)
  {
  }

  /** Where a step of a handler of a start order can lead. */
  lemma OwnStart(s: State, t: TaskId, c: Choice, o: OrderId)
    requires t in s.tasks && OwnTask(s, t) && s.tasks[t].order == Some(o) && o in s.orders && StartRow(s.orders[o])
    requires ForStart(s.tasks[t].kind) || s.tasks[t].kind.Notice?
    requires StartTask(s.tasks[t]) && !Reserving(s.tasks[t].pc)
    ensures StaysStart(Plan(s, t, c), o)
  {
    var task := s.tasks[t];
    if task.pc.Done? { assert Plan(s, t, c) == Move(task); }
    else if AtAcquirer(task.pc) { AcquirerStart(task, o, c); }
    else if c.Throws? { ThrowStart(task, o); }
    else if task.pc.Claim? { ClaimStart(task, o, s.orders[o]); }
    else if task.pc.FindRide? || task.pc.BeginRide? { EffectStart(s, task, s.orders[o], t, o, c); }
    else { MarkStart(task, o, c); }
  }

  /** While the notifications are calm, a ride once on the row keeps it paid. */
  lemma RowStaysStart(s: State, t: TaskId, c: Choice, o: OrderId)
    requires Safe(s) && ClaimsWon(s) && Honest(s) && IsStart(s, o) && Quiet(s, o) && StartOnly(s, o)
    requires t in s.tasks && s.tasks[t].order == Some(o) && Plan(s, t, c).task.order == Some(o)
    requires !Plan(s, t, c).write.InsertRow?
    ensures o in Apply(s, t, Plan(s, t, c)).orders && StartRow(Apply(s, t, Plan(s, t, c)).orders[o])
  {
    RideIsPaid(s, t, Plan(s, t, c), o);
    if s.orders[o].status == Paid { PaidStart(s, t, c, o); }
  }

  lemma PaidStart(s: State, t: TaskId, c: Choice, o: OrderId)
    requires Safe(s) && ClaimsWon(s) && Honest(s) && IsStart(s, o) && Quiet(s, o) && StartOnly(s, o)
    requires t in s.tasks && s.tasks[t].order == Some(o) && s.orders[o].status == Paid
    ensures o in Apply(s, t, Plan(s, t, c)).orders && Apply(s, t, Plan(s, t, c)).orders[o].status == Paid
  {
    PaidTurns(s, t, c, o);
    StaysPaidStart(s, t, c, o);
  }

  lemma StaysPaidStart(s: State, t: TaskId, c: Choice, o: OrderId)
    requires Owned(s) && IsStart(s, o) && Quiet(s, o) && StartOnly(s, o)
    requires t in s.tasks && s.tasks[t].order == Some(o)
    ensures !Releases(s, Step(t, c), o) && !FailsOverage(s, Step(t, c), o)
  {
    StartHolder(s, t, o);
    assert OwnTask(s, t) && StartTask(s.tasks[t]);
  }

  lemma RideIsPaid(s: State, t: TaskId, d: Delta, o: OrderId)
    requires o in s.orders && d.task.order == Some(o) && !d.write.InsertRow?
    ensures
      var n := Written(s.orders, d.task, t, d.write);
      o in n && n[o].overage == s.orders[o].overage && (n[o].rideId == s.orders[o].rideId || n[o].status == Paid)
  {
  }

  lemma OwnLeavesStart(s: State, t: TaskId, c: Choice, o: OrderId)
    requires Safe(s) && ClaimsWon(s) && Honest(s) && IsStart(s, o) && Quiet(s, o) && StartOnly(s, o)
    requires t in s.tasks && s.tasks[t].order == Some(o)
    ensures LeavesStart(s, t, Plan(s, t, c), o)
  {
    assert OwnTask(s, t);
    StartHolder(s, t, o);
    OwnStart(s, t, c, o);
    RowStaysStart(s, t, c, o);
  }

  lemma StartApply(s: State, t: TaskId, d: Delta, o: OrderId)
    requires o in s.orders && StartOnly(s, o) && t in s.tasks && LeavesStart(s, t, d, o)
    ensures StartOnly(Apply(s, t, d), o)
  {
  }

  /** An order id that a step has just put into the table. */
  lemma NewStart(s: State, t: TaskId, c: Choice, o: OrderId)
    requires Safe(s) && Listed(s) && t in s.tasks && o !in s.orders && IsStart(Next(s, Step(t, c)), o)
    ensures StartOnly(Next(s, Step(t, c)), o)
  {
    var d, n := Plan(s, t, c), Next(s, Step(t, c));
    assert Told(s, t) && OwnTask(s, t);
    PlanLegal(s, t, c);
    WriteFrame(s, t, d);
    InsertStarts(s, t, c);
    forall u | u in n.tasks && n.tasks[u].order == Some(o) ensures StartTask(n.tasks[u]) {
      NobodyElse(s, t, o, u);
    }
  }

  /** Before its row is inserted an order has one handler. */
  lemma NobodyElse(s: State, t: TaskId, o: OrderId, u: TaskId)
    requires Owned(s) && t in s.tasks && Numbered(s.tasks[t]) && s.tasks[t].order == Some(o) && o !in s.orders
    ensures u in s.tasks && s.tasks[u].order == Some(o) ==> u == t
  {
    if u in s.tasks { assert OwnTask(s, u); }
  }

  lemma InsertStarts(s: State, t: TaskId, c: Choice)
    requires t in s.tasks && OwnTask(s, t) && Plan(s, t, c).write.InsertRow?
    ensures s.tasks[t].pc.Insert? && StartTask(Plan(s, t, c).task) && Plan(s, t, c).effect.None?
  {
    var task := s.tasks[t];
    if !task.pc.Insert? { NoInsert(s, t, c); }
  }

  lemma NoInsert(s: State, t: TaskId, c: Choice)
    requires t in s.tasks && !s.tasks[t].pc.Insert?
    ensures !Plan(s, t, c).write.InsertRow?
  {
  }

  lemma StepListed(s: State, t: TaskId, c: Choice)
    requires Safe(s) && Listed(s) && t in s.tasks
    ensures Listed(Next(s, Step(t, c)))
  {
    assert Told(s, t) && OwnTask(s, t);
    PlanLegal(s, t, c);
    WriteFrame(s, t, Plan(s, t, c));
    EffectListed(s, t, c);
    ListedApply(s, t, Plan(s, t, c));
  }

  lemma ListedApply(s: State, t: TaskId, d: Delta)
    requires Listed(s) && s.orders.Keys <= Apply(s, t, d).orders.Keys
    requires d.effect.Some? ==> d.effect.value.order in s.orders
    ensures Listed(Apply(s, t, d))
  {
  }

  lemma EffectListed(s: State, t: TaskId, c: Choice)
    requires t in s.tasks && OwnTask(s, t)
    ensures Plan(s, t, c).effect.Some? ==> Plan(s, t, c).effect.value.order in s.orders
  {
    if s.tasks[t].pc.Done? { DoneStays(s, t, c); }
  }

  lemma RouteStays(s: State, t: TaskId, c: Choice)
    requires Safe(s) && RoutesStart(s) && t in s.tasks
    ensures RoutesStart(Next(s, Step(t, c)))
  {
    assert Told(s, t) && OwnTask(s, t);
    PlanLegal(s, t, c);
    if ForStart(s.tasks[t].kind) { RouteMoves(s, t, c); }
  }

  lemma RouteMoves(s: State, t: TaskId, c: Choice)
    requires Owned(s) && t in s.tasks && ForStart(s.tasks[t].kind) && !s.tasks[t].pc.Extend?
    ensures !Plan(s, t, c).task.pc.Extend?
  {
    var task := s.tasks[t];
    assert OwnTask(s, t);
    if task.pc.Done? {
      assert Plan(s, t, c) == Move(task);
    } else if task.pc.AwaitCharge? {
      AcquirerStart(task, task.order.value, c);
      assert Plan(s, t, c) == PlanPay(task, task.order.value, c);
    } else {
      PlanFollows(s, t, c);
    }
  }

  lemma StepStarts(s: State, t: TaskId, c: Choice, o: OrderId)
    requires Safe(s) && ClaimsWon(s) && Honest(s) && StartsKeep(s) && t in s.tasks
    requires IsStart(Next(s, Step(t, c)), o) && Quiet(Next(s, Step(t, c)), o)
    ensures StartOnly(Next(s, Step(t, c)), o)
  {
    if o in s.orders {
      QuietBack(s, Step(t, c), o);
      StartBefore(s, t, c, o);
      if s.tasks[t].order == Some(o) { OwnLeavesStart(s, t, c, o); } else { OtherStart(s, t, c, o); }
      StartApply(s, t, Plan(s, t, c), o);
    } else {
      NewStart(s, t, c, o);
    }
  }

  lemma StartBefore(s: State, t: TaskId, c: Choice, o: OrderId)
    requires Safe(s) && ClaimsWon(s) && t in s.tasks && o in s.orders && IsStart(Next(s, Step(t, c)), o)
    ensures IsStart(s, o)
  {
    StatusTurns(s, t, c, o);
    assert OwnRow(s, o);
    TasksStay(s, Step(t, c), s.orders[o].maker);
  }

  // ---------- every run ----------

  lemma BesideStarts(s: State, e: Event)
    requires Safe(s) && ClaimsWon(s) && StartsKeep(s) && !e.Step?
    ensures StartsKeep(Next(s, e))
  {
    var n := Next(s, e);
    forall o | IsStart(n, o) && Quiet(n, o) ensures StartOnly(n, o) { BesideStart(s, e, o); }
  }

  lemma BesideStart(s: State, e: Event, o: OrderId)
    requires Safe(s) && ClaimsWon(s) && StartsKeep(s) && !e.Step? && IsStart(Next(s, e), o) && Quiet(Next(s, e), o)
    ensures StartOnly(Next(s, e), o)
  {
    assert OwnRow(s, o);
    TasksStay(s, e, s.orders[o].maker);
    QuietBack(s, e, o);
    assert IsStart(s, o);
    SpawnedStart(s, e, o);
  }

  lemma SpawnedStart(s: State, e: Event, o: OrderId)
    requires o in s.orders && StartOnly(s, o) && !e.Step?
    ensures StartOnly(Next(s, e), o)
  {
  }

  lemma NextStarts(s: State, e: Event)
    requires Safe(s) && ClaimsWon(s) && Honest(s) && StartsKeep(s)
    ensures StartsKeep(Next(s, e))
  {
    if !e.Step? {
      BesideStarts(s, e);
    } else if e.task in s.tasks {
      StepListed(s, e.task, e.choice);
      RouteStays(s, e.task, e.choice);
      forall o | IsStart(Next(s, e), o) && Quiet(Next(s, e), o) ensures StartOnly(Next(s, e), o) {
        StepStarts(s, e.task, e.choice, o);
      }
    }
  }

  lemma {:induction false} RunStarts(events: seq<Event>)
    requires TruthfulRun(events)
    ensures StartsKeep(Run(Empty, events))
  {
    if events != [] {
      var before := events[..|events| - 1];
      RunStarts(before);
      RunSafe(before);
      RunClaims(before);
      RunHonest(before);
      NextStarts(Run(Empty, before), events[|events| - 1]);
    }
  }

  /** The payment of a ride start extends no ride, as long as no notification of it was left by
      an exception. */
  lemma StartExtendsOnlyAfterThrow(s: State, o: OrderId, i: nat)
    requires Reachable(s) && IsStart(s, o) && i < |s.effects| && s.effects[i].order == o && s.effects[i].Extended?
    ensures exists t :: t in s.tasks && Notified(s.tasks[t], o) && s.tasks[t].threw
  {
    var events :| Reaches(events, s);
    RunStarts(events);
    assert !Quiet(s, o);
  }
}
