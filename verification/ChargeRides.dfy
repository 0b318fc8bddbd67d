/** Which rides an order may touch: the overage charge none, and a start only rides of its own
    rider on its own bike. */
module ChargeRides {
  import opened Options
  import opened RidePayment
  import opened ChargeProtocol
  import opened ChargeInvariants
  import opened ChargeTruth
  import opened ChargeEffects
  import opened ChargeOutcomes
  import opened ChargeAnswers
  import opened ChargeStarts

  predicate Touching(pc: Pc) { pc.FindRide? || pc.BeginRide? || pc.Extend? }

  // ---------- the overage charge touches no ride ----------

  predicate ForRide(s: State, o: OrderId) { o in s.orders && !s.orders[o].overage }

  predicate RidesOnly(s: State) {
    && (forall t :: t in s.tasks && Touching(s.tasks[t].pc) ==> ForRide(s, Id(s.tasks[t])))
    && (forall i :: 0 <= i < |s.effects| ==> ForRide(s, s.effects[i].order))
  }

  lemma AcquirerTouches(task: Task, o: OrderId, c: Choice)
    requires WellPlaced(task) && AtAcquirer(task.pc)
    ensures
      var d := if task.pc.CallInit? then PlanInit(task, c) else PlanPay(task, o, c);
      Touching(d.task.pc) ==> task.pc.AwaitCharge? && !task.IsOverage() && d.task.order == task.order
  {
  }

  lemma ClaimTouches(s: State, t: TaskId, c: Choice)
    requires t in s.tasks && OwnTask(s, t) && s.tasks[t].pc.Claim? && Touching(Plan(s, t, c).task.pc)
    ensures ForRide(s, Id(s.tasks[t])) && Plan(s, t, c).task.order == s.tasks[t].order
  {
  }

  lemma OtherTouches(s: State, t: TaskId, c: Choice)
    requires Owned(s) && t in s.tasks && !AtAcquirer(s.tasks[t].pc) && !s.tasks[t].pc.Claim?
    requires Legal(s, s.tasks[t], Plan(s, t, c)) && Touching(Plan(s, t, c).task.pc)
    ensures Touching(s.tasks[t].pc) && Plan(s, t, c).task.order == s.tasks[t].order
  {
    assert OwnTask(s, t);
    if s.tasks[t].pc.Done? {
      DoneStays(s, t, c);
    } else {
      PlanFollows(s, t, c);
    }
  }

  lemma PlanTouches(s: State, t: TaskId, c: Choice)
    requires Safe(s) && RidesOnly(s) && t in s.tasks && Touching(Plan(s, t, c).task.pc)
    ensures ForRide(s, Id(Plan(s, t, c).task))
  {
    assert OwnTask(s, t) && Told(s, t);
    if AtAcquirer(s.tasks[t].pc) {
      PaysForRide(s, t, c);
    } else if s.tasks[t].pc.Claim? {
      ClaimTouches(s, t, c);
    } else {
      PlanLegal(s, t, c);
      OtherTouches(s, t, c);
    }
  }

  lemma PaysForRide(s: State, t: TaskId, c: Choice)
    requires Owned(s) && t in s.tasks && AtAcquirer(s.tasks[t].pc) && Touching(Plan(s, t, c).task.pc)
    ensures ForRide(s, Id(Plan(s, t, c).task))
  {
    assert OwnTask(s, t);
    AcquirerTouches(s.tasks[t], Id(s.tasks[t]), c);
    assert OwnRow(s, Id(s.tasks[t]));
  }

  lemma EffectTouches(s: State, t: TaskId, c: Choice)
    requires t in s.tasks && OwnTask(s, t) && Plan(s, t, c).effect.Some?
    ensures Touching(s.tasks[t].pc) && Plan(s, t, c).effect.value.order == Id(s.tasks[t])
  {
    if s.tasks[t].pc.Done? { DoneStays(s, t, c); }
  }

  lemma ForRideStays(s: State, t: TaskId, c: Choice)
    requires Safe(s) && t in s.tasks
    ensures forall o :: ForRide(s, o) ==> ForRide(Next(s, Step(t, c)), o)
  {
    assert Told(s, t);
    PlanLegal(s, t, c);
    WriteFrame(s, t, Plan(s, t, c));
  }

  lemma StepRidesOnly(s: State, t: TaskId, c: Choice)
    requires Safe(s) && RidesOnly(s) && t in s.tasks
    ensures RidesOnly(Next(s, Step(t, c)))
  {
    var d := Plan(s, t, c);
    ForRideStays(s, t, c);
    if Touching(d.task.pc) { PlanTouches(s, t, c); }
    if d.effect.Some? {
      assert OwnTask(s, t);
      EffectTouches(s, t, c);
    }
    RidesOnlyApply(s, t, d);
  }

  lemma RidesOnlyApply(s: State, t: TaskId, d: Delta)
    requires RidesOnly(s) && forall o :: ForRide(s, o) ==> ForRide(Apply(s, t, d), o)
    requires Touching(d.task.pc) ==> ForRide(s, Id(d.task))
    requires d.effect.Some? ==> ForRide(s, d.effect.value.order)
    ensures RidesOnly(Apply(s, t, d))
  {
  }

  lemma BesideRidesOnly(s: State, e: Event)
    requires RidesOnly(s) && !e.Step?
    ensures RidesOnly(Next(s, e))
  {
    OrdersOutside(s, e);
  }

  lemma NextRidesOnly(s: State, e: Event)
    requires Safe(s) && RidesOnly(s)
    ensures RidesOnly(Next(s, e))
  {
    if !e.Step? {
      BesideRidesOnly(s, e);
    } else if e.task in s.tasks {
      StepRidesOnly(s, e.task, e.choice);
    }
  }

  lemma {:induction false} RunRidesOnly(events: seq<Event>)
    ensures RidesOnly(Run(Empty, events))
  {
    if events != [] {
      var before := events[..|events| - 1];
      RunRidesOnly(before);
      RunSafe(before);
      NextRidesOnly(Run(Empty, before), events[|events| - 1]);
    }
  }

  /** In every run, no overage order starts or extends a ride. */
  lemma OverageTouchesNoRide(events: seq<Event>, i: nat)
    requires i < |Run(Empty, events).effects|
    ensures
      var s := Run(Empty, events);
      s.effects[i].order in s.orders && !s.orders[s.effects[i].order].overage
  {
    RunRidesOnly(events);
    assert ForRide(Run(Empty, events), Run(Empty, events).effects[i].order);
  }

  // ---------- a start takes no other rider's ride ----------

  /** The k-th effect started the ride on the bike, for an order of the rider. */
  predicate StartedAt(s: State, k: nat, ride: RideId, user: string, bike: string) {
    && k < |s.effects| && s.effects[k].Started? && s.effects[k].ride == ride && s.effects[k].bike == bike
    && s.effects[k].order in s.orders && s.orders[s.effects[k].order].spec.key.user == user
  }

  ghost predicate StartedFor(s: State, ride: RideId, user: string, bike: string) {
    exists k: nat :: StartedAt(s, k, ride, user, bike)
  }

  ghost predicate RowRides(s: State, o: OrderId)
    requires o in s.orders
  {
    var row := s.orders[o];
    row.rideId.Some? ==>
      || StartedFor(s, row.rideId.value, row.spec.key.user, row.spec.bike)
      || (row.maker in s.tasks && s.tasks[row.maker].kind.Request?
          && row.rideId == RideOf(s.tasks[row.maker].kind.route))
  }

  ghost predicate TaskRides(s: State, t: TaskId)
    requires t in s.tasks
  {
    var task := s.tasks[t];
    task.pc.MarkPaid? && task.pc.started.Some? ==>
      StartedFor(s, task.pc.started.value, task.spec.key.user, task.spec.bike)
  }

  ghost predicate OwnRides(s: State) {
    && (forall bike :: bike in s.active ==> StartedFor(s, s.active[bike].ride, s.active[bike].user, bike))
    && (forall t :: t in s.tasks ==> TaskRides(s, t))
    && (forall o :: o in s.orders ==> RowRides(s, o))
  }

  lemma StartedStays(s: State, n: State, ride: RideId, user: string, bike: string)
    requires StartedFor(s, ride, user, bike) && s.effects <= n.effects
    requires forall o :: o in s.orders ==> o in n.orders && n.orders[o].spec == s.orders[o].spec
    ensures StartedFor(n, ride, user, bike)
  {
    var k: nat :| StartedAt(s, k, ride, user, bike);
    assert StartedAt(n, k, ride, user, bike);
  }

  predicate Onward(s: State, n: State) {
    && s.effects <= n.effects
    && forall o :: o in s.orders ==> o in n.orders && n.orders[o].spec == s.orders[o].spec
  }

  lemma StepOnward(s: State, t: TaskId, c: Choice)
    requires Safe(s) && t in s.tasks
    ensures Onward(s, Next(s, Step(t, c)))
  {
    assert Told(s, t);
    PlanLegal(s, t, c);
    WriteFrame(s, t, Plan(s, t, c));
  }

  /** A handler about to record a ride has started it, or found it under its own rider's name. */
  predicate RideSourced(s: State, task: Task, row: Order, o: OrderId, d: Delta) {
    d.task.pc.MarkPaid? && d.task.pc.started.Some? && !task.pc.MarkPaid? ==>
      && d.task.spec == task.spec
      && var spec, ride := row.spec, d.task.pc.started.value;
         || (task.pc.FindRide? && spec.bike in s.active && s.active[spec.bike] == ActiveRide(spec.key.user, ride))
         || (task.pc.BeginRide? && d.effect == Some(Started(o, ride, spec.bike)))
  }

  lemma ReserveSource(s: State, task: Task, c: Choice)
    requires Reserving(task.pc)
    ensures !PlanReserve(s, task, c).task.pc.MarkPaid?
  {
  }

  lemma AcquirerSource(s: State, task: Task, row: Order, o: OrderId, c: Choice)
    requires WellPlaced(task) && AtAcquirer(task.pc)
    ensures RideSourced(s, task, row, o, if task.pc.CallInit? then PlanInit(task, c) else PlanPay(task, o, c))
  {
  }

  lemma ThrowSource(s: State, task: Task, row: Order, o: OrderId)
    requires Settling(task)
    ensures RideSourced(s, task, row, o, PlanThrow(task))
  {
  }

  lemma ClaimSource(s: State, task: Task, row: Order, o: OrderId)
    ensures RideSourced(s, task, row, o, PlanClaim(task, row))
  {
  }

  lemma EffectSource(s: State, task: Task, row: Order, t: TaskId, o: OrderId, c: Choice)
    requires task.pc.FindRide? || task.pc.BeginRide? || task.pc.Extend?
    ensures RideSourced(s, task, row, o, PlanEffect(s, task, row, t, o, c))
  {
  }

  lemma MarkedSource(s: State, task: Task, row: Order, o: OrderId, c: Choice)
    requires task.pc.MarkPaid? || task.pc.MarkFailed? || task.pc.Release?
    ensures RideSourced(s, task, row, o, PlanMark(task, o, c))
  {
  }

  lemma MarkSource(s: State, t: TaskId, c: Choice, row: Order)
    requires t in s.tasks && OwnTask(s, t)
    requires Settling(s.tasks[t]) ==> Id(s.tasks[t]) in s.orders && row == s.orders[Id(s.tasks[t])]
    ensures RideSourced(s, s.tasks[t], row, Id(s.tasks[t]), Plan(s, t, c))
  {
    var task := s.tasks[t];
    if Reserving(task.pc) { ReserveSource(s, task, c); }
    else if !task.pc.Done? {
      var o := task.order.value;
      if AtAcquirer(task.pc) { AcquirerSource(s, task, row, o, c); }
      else if c.Throws? { ThrowSource(s, task, row, o); }
      else if task.pc.Claim? { ClaimSource(s, task, row, o); }
      else if task.pc.FindRide? || task.pc.BeginRide? || task.pc.Extend? { EffectSource(s, task, row, t, o, c); }
      else { MarkedSource(s, task, row, o, c); }
    }
  }

  /** The spec of a handler's order is its own. */
  lemma SpecOfOrder(s: State, t: TaskId)
    requires Safe(s) && t in s.tasks && Settling(s.tasks[t])
    ensures Id(s.tasks[t]) in s.orders && s.orders[Id(s.tasks[t])].spec == s.tasks[t].spec
  {
    assert OwnTask(s, t) && OwnRow(s, Id(s.tasks[t]));
  }

  lemma StartedNow(s: State, t: TaskId, d: Delta, o: OrderId, ride: RideId, bike: string)
    requires d.effect == Some(Started(o, ride, bike)) && o in Apply(s, t, d).orders
    ensures StartedFor(Apply(s, t, d), ride, Apply(s, t, d).orders[o].spec.key.user, bike)
  {
    assert StartedAt(Apply(s, t, d), |s.effects|, ride, Apply(s, t, d).orders[o].spec.key.user, bike);
  }

  lemma MarkedTaskRides(s: State, t: TaskId, c: Choice)
    requires Safe(s) && OwnRides(s) && t in s.tasks && !s.tasks[t].pc.MarkPaid?
    ensures TaskRides(Next(s, Step(t, c)), t)
  {
    var d := Plan(s, t, c);
    if d.task.pc.MarkPaid? && d.task.pc.started.Some? {
      assert OwnTask(s, t);
      if Settling(s.tasks[t]) {
        SpecOfOrder(s, t);
        MarkSource(s, t, c, s.orders[Id(s.tasks[t])]);
        StepOnward(s, t, c);
        SourcedRides(s, t, d, s.orders[Id(s.tasks[t])]);
      } else {
        MarkSource(s, t, c, NewRow(s.tasks[t], t));
      }
    }
  }

  lemma SourcedRides(s: State, t: TaskId, d: Delta, row: Order)
    requires OwnRides(s) && t in s.tasks && Id(s.tasks[t]) in s.orders && s.orders[Id(s.tasks[t])] == row
    requires row.spec == s.tasks[t].spec && !s.tasks[t].pc.MarkPaid? && d.task.pc.MarkPaid? && d.task.pc.started.Some?
    requires RideSourced(s, s.tasks[t], row, Id(s.tasks[t]), d) && Onward(s, Apply(s, t, d))
    ensures TaskRides(Apply(s, t, d), t)
  {
    var spec, ride := row.spec, d.task.pc.started.value;
    if s.tasks[t].pc.FindRide? {
      StartedStays(s, Apply(s, t, d), ride, spec.key.user, spec.bike);
    } else {
      StartedNow(s, t, d, Id(s.tasks[t]), ride, spec.bike);
    }
  }

  lemma PastMark(s: State, t: TaskId, c: Choice)
    requires t in s.tasks && OwnTask(s, t) && s.tasks[t].pc.MarkPaid?
    ensures !Plan(s, t, c).task.pc.MarkPaid?
  {
  }

  lemma OtherTaskRides(s: State, t: TaskId, c: Choice, u: TaskId)
    requires Safe(s) && OwnRides(s) && t in s.tasks && u in s.tasks && u != t
    ensures TaskRides(Next(s, Step(t, c)), u)
  {
    StepOnward(s, t, c);
    var task := s.tasks[u];
    assert TaskRides(s, u);
    if task.pc.MarkPaid? && task.pc.started.Some? {
      StartedStays(s, Next(s, Step(t, c)), task.pc.started.value, task.spec.key.user, task.spec.bike);
    }
  }

  lemma StepTaskRides(s: State, t: TaskId, c: Choice, u: TaskId)
    requires Safe(s) && OwnRides(s) && t in s.tasks && u in Next(s, Step(t, c)).tasks
    ensures TaskRides(Next(s, Step(t, c)), u)
  {
    if u != t { OtherTaskRides(s, t, c, u); }
    else if s.tasks[t].pc.MarkPaid? {
      assert OwnTask(s, t);
      PastMark(s, t, c);
    }
    else { MarkedTaskRides(s, t, c); }
  }

  /** Where the ride on a row comes from. */
  lemma RowSource(s: State, t: TaskId, d: Delta, o: OrderId)
    requires o in Written(s.orders, d.task, t, d.write)
    ensures
      var n := Written(s.orders, d.task, t, d.write);
      || (o in s.orders && n[o].rideId == s.orders[o].rideId)
      || (d.write.InsertRow? && o == Id(d.task) && n[o] == NewRow(d.task, t))
      || (d.write.SetPaid? && o == Id(d.task) && o in s.orders && n[o].rideId == d.write.started)
  {
  }

  lemma InsertedRowRides(s: State, t: TaskId, d: Delta)
    requires d.task.kind.Request? && Id(d.task) in Apply(s, t, d).orders
    requires Apply(s, t, d).orders[Id(d.task)] == NewRow(d.task, t)
    ensures RowRides(Apply(s, t, d), Id(d.task))
  {
  }

  lemma InsertsForRequest(s: State, t: TaskId, c: Choice)
    requires t in s.tasks && OwnTask(s, t) && Plan(s, t, c).write.InsertRow?
    ensures Plan(s, t, c).task.kind.Request?
  {
    InsertStarts(s, t, c);
  }

  lemma MarkedRowRides(s: State, t: TaskId, c: Choice)
    requires Safe(s) && OwnRides(s) && t in s.tasks && Plan(s, t, c).write.SetPaid?
    requires Plan(s, t, c).write.started.Some?
    ensures
      var n, w := Next(s, Step(t, c)), Plan(s, t, c).write;
      && Id(s.tasks[t]) in s.orders && Plan(s, t, c).task.order == s.tasks[t].order
      && StartedFor(n, w.started.value, s.orders[Id(s.tasks[t])].spec.key.user, s.orders[Id(s.tasks[t])].spec.bike)
  {
    assert Told(s, t) && OwnTask(s, t) && TaskRides(s, t);
    PlanLegal(s, t, c);
    if s.tasks[t].pc.Done? { DoneStays(s, t, c); } else { PlanFollows(s, t, c); }
    SpecOfOrder(s, t);
    StepOnward(s, t, c);
    var task := s.tasks[t];
    StartedStays(s, Next(s, Step(t, c)), task.pc.started.value, task.spec.key.user, task.spec.bike);
  }

  lemma KeptRowRides(s: State, t: TaskId, c: Choice, o: OrderId)
    requires Safe(s) && ClaimsWon(s) && OwnRides(s) && t in s.tasks && o in s.orders && o in Next(s, Step(t, c)).orders
    requires Next(s, Step(t, c)).orders[o].rideId == s.orders[o].rideId
    ensures RowRides(Next(s, Step(t, c)), o)
  {
    StatusTurns(s, t, c, o);
    StepOnward(s, t, c);
    assert RowRides(s, o) && OwnRow(s, o);
    TasksStay(s, Step(t, c), s.orders[o].maker);
    var row := s.orders[o];
    if row.rideId.Some? && StartedFor(s, row.rideId.value, row.spec.key.user, row.spec.bike) {
      StartedStays(s, Next(s, Step(t, c)), row.rideId.value, row.spec.key.user, row.spec.bike);
    }
  }

  lemma StepRowRides(s: State, t: TaskId, c: Choice, o: OrderId)
    requires Safe(s) && ClaimsWon(s) && OwnRides(s) && t in s.tasks && o in Next(s, Step(t, c)).orders
    ensures RowRides(Next(s, Step(t, c)), o)
  {
    var d := Plan(s, t, c);
    RowSource(s, t, d, o);
    if o in s.orders && Next(s, Step(t, c)).orders[o].rideId == s.orders[o].rideId {
      KeptRowRides(s, t, c, o);
    } else if d.write.InsertRow? {
      assert OwnTask(s, t);
      InsertsForRequest(s, t, c);
      InsertedRowRides(s, t, d);
    } else if d.write.started.Some? {
      MarkedRowRides(s, t, c);
      StepOnward(s, t, c);
    }
  }

  lemma StepActive(s: State, t: TaskId, c: Choice, bike: string)
    requires Safe(s) && OwnRides(s) && t in s.tasks && bike in Next(s, Step(t, c)).active
    ensures
      var n := Next(s, Step(t, c));
      StartedFor(n, n.active[bike].ride, n.active[bike].user, bike)
  {
    var d, n := Plan(s, t, c), Next(s, Step(t, c));
    StepOnward(s, t, c);
    if bike in s.active && n.active[bike] == s.active[bike] {
      StartedStays(s, n, s.active[bike].ride, s.active[bike].user, bike);
    } else {
      NewlyActive(s, t, c, bike);
      SpecOfOrder(s, t);
      StartedNow(s, t, d, Id(s.tasks[t]), s.nextRide, bike);
    }
  }

  lemma NewlyActive(s: State, t: TaskId, c: Choice, bike: string)
    requires Safe(s) && t in s.tasks && bike in Next(s, Step(t, c)).active
    requires !(bike in s.active && Next(s, Step(t, c)).active[bike] == s.active[bike])
    ensures
      var d := Plan(s, t, c);
      && Settling(s.tasks[t]) && d.effect == Some(Started(Id(s.tasks[t]), s.nextRide, bike))
      && Next(s, Step(t, c)).active[bike] == ActiveRide(s.tasks[t].spec.key.user, s.nextRide)
  {
    assert OwnTask(s, t) && Told(s, t);
    PlanLegal(s, t, c);
    if s.tasks[t].pc.Done? { DoneStays(s, t, c); } else { PlanFollows(s, t, c); }
  }

  lemma NextOwnRides(s: State, e: Event)
    requires Safe(s) && ClaimsWon(s) && OwnRides(s)
    ensures OwnRides(Next(s, e))
  {
    var n := Next(s, e);
    if e.Step? {
      if e.task in s.tasks {
        forall bike | bike in n.active ensures StartedFor(n, n.active[bike].ride, n.active[bike].user, bike) {
          StepActive(s, e.task, e.choice, bike);
        }
        forall u | u in n.tasks ensures TaskRides(n, u) { StepTaskRides(s, e.task, e.choice, u); }
        forall o | o in n.orders ensures RowRides(n, o) { StepRowRides(s, e.task, e.choice, o); }
      }
    } else {
      BesideOwnRides(s, e);
    }
  }

  lemma BesideStarted(s: State, e: Event, ride: RideId, user: string, bike: string)
    requires !e.Step? && StartedFor(s, ride, user, bike)
    ensures StartedFor(Next(s, e), ride, user, bike)
  {
    OrdersOutside(s, e);
    StartedStays(s, Next(s, e), ride, user, bike);
  }

  lemma BesideOwnRides(s: State, e: Event)
    requires Safe(s) && ClaimsWon(s) && OwnRides(s) && !e.Step?
    ensures OwnRides(Next(s, e))
  {
    var n := Next(s, e);
    OrdersOutside(s, e);
    forall bike | bike in n.active ensures StartedFor(n, n.active[bike].ride, n.active[bike].user, bike) {
      BesideStarted(s, e, s.active[bike].ride, s.active[bike].user, bike);
    }
    forall u | u in n.tasks ensures TaskRides(n, u) { BesideTask(s, e, u); }
    forall o | o in n.orders ensures RowRides(n, o) { BesideRow(s, e, o); }
  }

  lemma BesideTask(s: State, e: Event, u: TaskId)
    requires OwnRides(s) && !e.Step? && u in Next(s, e).tasks
    ensures TaskRides(Next(s, e), u)
  {
    var task := Next(s, e).tasks[u];
    if task.pc.MarkPaid? && task.pc.started.Some? {
      assert u in s.tasks && s.tasks[u] == task && TaskRides(s, u);
      BesideStarted(s, e, task.pc.started.value, task.spec.key.user, task.spec.bike);
    }
  }

  lemma BesideRow(s: State, e: Event, o: OrderId)
    requires Safe(s) && ClaimsWon(s) && OwnRides(s) && !e.Step? && o in s.orders && Next(s, e).orders == s.orders
    ensures RowRides(Next(s, e), o)
  {
    assert RowRides(s, o) && OwnRow(s, o);
    TasksStay(s, e, s.orders[o].maker);
    var row := s.orders[o];
    if row.rideId.Some? && StartedFor(s, row.rideId.value, row.spec.key.user, row.spec.bike) {
      BesideStarted(s, e, row.rideId.value, row.spec.key.user, row.spec.bike);
    }
  }

  lemma {:induction false} RunOwnRides(events: seq<Event>)
    ensures OwnRides(Run(Empty, events))
  {
    if events != [] {
      var before := events[..|events| - 1];
      RunOwnRides(before);
      RunSafe(before);
      RunClaims(before);
      NextOwnRides(Run(Empty, before), events[|events| - 1]);
    }
  }

  /** In every run, the ride on an order is the one its request named, or one that was started on the
      order's bike for an order of the same rider: no start takes over another rider's ride. */
  lemma RideIsTheRiders(events: seq<Event>, o: OrderId)
    requires o in Run(Empty, events).orders && Run(Empty, events).orders[o].rideId.Some?
    ensures
      var s := Run(Empty, events);
      var row := s.orders[o];
      || StartedFor(s, row.rideId.value, row.spec.key.user, row.spec.bike)
      || (row.maker in s.tasks && s.tasks[row.maker].kind.Request?
          && row.rideId == RideOf(s.tasks[row.maker].kind.route))
  {
    RunOwnRides(events);
    assert RowRides(Run(Empty, events), o);
  }
}
