/** What one captured payment may buy: the ride it starts, and how often it extends one. */
module ChargeEffects {
  import opened Options
  import opened RidePayment
  import opened ChargeProtocol
  import opened ChargeInvariants
  import opened ChargeTruth

  /** How a step reaches and leaves the program points that touch a ride. */
  predicate Tracks(s: State, task: Task, t: TaskId, d: Delta) {
    var o := Id(task);
    && (d.effect.Some? && d.effect.value.Started? ==>
        && task.pc.BeginRide? && o in s.orders && d.effect.value == Started(o, s.nextRide, s.orders[o].spec.bike)
        && s.orders[o].spec.bike !in s.active)
    && (d.effect.Some? && d.effect.value.Extended? ==>
        task.pc.Extend? && task.target.Some? && d.effect.value == Extended(o, task.target.value, t)
        && d.task.pc == MarkPaid(None, true))
    && (d.task.pc.MarkPaid? && task.pc.Extend? ==> d.task.pc == MarkPaid(None, d.effect.Some?))
    && (d.task.pc.MarkPaid? ==>
        || task.pc.Extend? || task.pc.FindRide? || task.pc.BeginRide?
        || (task.pc.AwaitCharge? && task.IsOverage()) || (task.pc.Claim? && o in s.orders && s.orders[o].overage))
    && (d.task.pc.Extend? ==>
        || (task.pc.AwaitCharge? && d.task.target == RouteRide(task.kind))
        || (task.pc.Claim? && o in s.orders && d.task.target == s.orders[o].rideId))
    && (d.task.pc.FindRide? ==>
        || (task.pc.AwaitCharge? && RouteRide(task.kind) == None)
        || (task.pc.Claim? && o in s.orders && s.orders[o].rideId == None))
    && (d.task.pc.BeginRide? ==> task.pc.FindRide?)
  }

  /** How a notification's claim is kept and what its last write is. */
  predicate Claims(task: Task, d: Delta) {
    && (task.claimed ==> d.task.claimed)
    && (d.task.claimed && !task.claimed ==> d.write == SetStatus(Processing))
    && (d.write == SetStatus(Processing) ==> d.task.claimed && !d.task.pc.Done?)
    && (task.kind.Notice? && task.pc.MarkPaid? && !d.task.threw ==> d.write == SetPaid(task.pc.started, task.pc.ok))
    && (d.write == SetStatus(Failed) ==> d.task.pc.Done? || d.task.threw)
    && (d.write.SetPaid? ==>
        && task.pc == MarkPaid(d.write.started, d.write.ok)
        && (d.task.pc.Done? || (d.task.threw && (task.kind.Notice? || task.IsOverage()))))
    && (d.task.pc.Release? ==> d.task.threw)
    && (task.pc.Release? ==> d.task.pc.Done?)
    && (task.kind == Notice(Succeeded) && !task.pc.MarkFailed? ==> !d.task.pc.MarkFailed?)
    && !d.task.pc.Claim?
    && (task.pc.MarkPaid? ==> d.task.pc.Done? || d.task.pc.Release? || task.IsOverage())
    && (task.kind.Notice? && ForPaid(task.pc) && !d.task.threw ==> ForPaid(d.task.pc) || task.pc.MarkPaid?)
    && (ForPaid(d.task.pc) && task.kind.Notice? ==>
        ForPaid(task.pc) || (d.task.claimed && task.kind.outcome == Succeeded))
  }

  ghost predicate Follows(s: State, task: Task, t: TaskId, d: Delta) {
    Tracks(s, task, t, d) && Claims(task, d)
  }

  lemma ReserveFollows(s: State, task: Task, t: TaskId, c: Choice)
    requires WellPlaced(task) && Reserving(task.pc)
    ensures Follows(s, task, t, PlanReserve(s, task, c))
  {
  }

  lemma InitFollows(s: State, task: Task, t: TaskId, c: Choice)
    requires WellPlaced(task) && task.pc.CallInit?
    ensures Follows(s, task, t, PlanInit(task, c))
  {
  }

  lemma PayFollows(s: State, task: Task, t: TaskId, o: OrderId, c: Choice)
    requires WellPlaced(task) && task.order == Some(o) && (task.pc.Persist? || task.pc.Charge? || task.pc.AwaitCharge?)
    ensures Follows(s, task, t, PlanPay(task, o, c))
  {
  }

  lemma ThrowFollows(s: State, task: Task, t: TaskId)
    requires Settling(task) && (ForPaid(task.pc) || task.pc.Claim? || task.pc.MarkFailed? || task.pc.Release?)
    ensures Follows(s, task, t, PlanThrow(task))
  {
  }

  lemma ClaimFollows(s: State, task: Task, t: TaskId, o: OrderId)
    requires Settling(task) && task.pc.Claim? && task.order == Some(o) && o in s.orders
    ensures Follows(s, task, t, PlanClaim(task, s.orders[o]))
  {
  }

  lemma EffectFollows(s: State, task: Task, t: TaskId, o: OrderId, c: Choice)
    requires Settling(task) && task.order == Some(o) && o in s.orders
    requires task.pc.FindRide? || task.pc.BeginRide? || task.pc.Extend?
    ensures Follows(s, task, t, PlanEffect(s, task, s.orders[o], t, o, c))
  {
  }

  lemma MarkFollows(s: State, task: Task, t: TaskId, o: OrderId, c: Choice)
    requires Settling(task) && task.order == Some(o) && (task.pc.MarkPaid? || task.pc.MarkFailed? || task.pc.Release?)
    ensures Follows(s, task, t, PlanMark(task, o, c))
  {
  }

  lemma PlanFollows(s: State, t: TaskId, c: Choice)
    requires Owned(s) && t in s.tasks && !s.tasks[t].pc.Done?
    ensures Follows(s, s.tasks[t], t, Plan(s, t, c))
  {
    var task := s.tasks[t];
    assert OwnTask(s, t);
    if Reserving(task.pc) { ReserveFollows(s, task, t, c); }
    else {
      var o := task.order.value;
      if task.pc.CallInit? { InitFollows(s, task, t, c); }
      else if AtAcquirer(task.pc) { PayFollows(s, task, t, o, c); }
      else if c.Throws? { ThrowFollows(s, task, t); }
      else if task.pc.Claim? { ClaimFollows(s, task, t, o); }
      else if task.pc.FindRide? || task.pc.BeginRide? || task.pc.Extend? { EffectFollows(s, task, t, o, c); }
      else { MarkFollows(s, task, t, o, c); }
    }
  }

  // ---------- a ride is started once while it lasts ----------

  predicate OnItsBike(s: State, e: Effect) {
    e.Started? ==>
      && e.ride < s.nextRide && e.order in s.orders && s.orders[e.order].spec.bike == e.bike
      && forall b :: b in s.active && s.active[b].ride == e.ride ==> b == e.bike
  }

  predicate IsActive(s: State, ride: RideId) {
    exists b :: b in s.active && s.active[b].ride == ride
  }

  predicate StartsOnce(s: State) {
    && (forall b :: b in s.active ==> s.active[b].ride < s.nextRide)
    && (forall i :: 0 <= i < |s.effects| ==> OnItsBike(s, s.effects[i]))
    && (forall i, j :: (0 <= i < j < |s.effects| && s.effects[i].Started? && s.effects[j].Started?
                        && s.effects[i].order == s.effects[j].order) ==> !IsActive(s, s.effects[i].ride))
  }

  lemma StepOnItsBike(s: State, t: TaskId, d: Delta, e: Effect)
    requires Owned(s) && StartsOnce(s) && t in s.tasks && Legal(s, s.tasks[t], d) && Follows(s, s.tasks[t], t, d)
    requires OnItsBike(s, e) || d.effect == Some(e)
    ensures OnItsBike(Apply(s, t, d), e)
  {
    WriteFrame(s, t, d);
  }

  /** A ride that a new start of the same order would double is over by then: both would be
      on the order's bike, and that bike must be free. */
  lemma StepEnded(s: State, t: TaskId, d: Delta, e: Effect)
    requires StartsOnce(s) && t in s.tasks && Follows(s, s.tasks[t], t, d) && OnItsBike(s, e) && e.Started?
    requires !IsActive(s, e.ride) || (d.effect.Some? && d.effect.value.Started? && d.effect.value.order == e.order)
    ensures !IsActive(Apply(s, t, d), e.ride)
  {
  }

  lemma StepStartsOnce(s: State, t: TaskId, d: Delta)
    requires Owned(s) && StartsOnce(s) && t in s.tasks && Legal(s, s.tasks[t], d) && Follows(s, s.tasks[t], t, d)
    ensures StartsOnce(Apply(s, t, d))
  {
    var n := Apply(s, t, d);
    forall i | 0 <= i < |n.effects| ensures OnItsBike(n, n.effects[i]) { StepOnItsBike(s, t, d, n.effects[i]); }
    forall i, j | 0 <= i < j < |n.effects| && n.effects[i].Started? && n.effects[j].Started?
                  && n.effects[i].order == n.effects[j].order ensures !IsActive(n, n.effects[i].ride) {
      EarlierEnded(s, t, d, i, j);
    }
  }

  lemma EarlierEnded(s: State, t: TaskId, d: Delta, i: nat, j: nat)
    requires StartsOnce(s) && t in s.tasks && Follows(s, s.tasks[t], t, d) && i < j < |Apply(s, t, d).effects|
    requires
      var effects := Apply(s, t, d).effects;
      effects[i].Started? && effects[j].Started? && effects[i].order == effects[j].order
    ensures !IsActive(Apply(s, t, d), s.effects[i].ride)
  {
    assert OnItsBike(s, s.effects[i]);
    StepEnded(s, t, d, s.effects[i]);
  }

  lemma TaskStartsOnce(s: State, t: TaskId, c: Choice)
    requires Safe(s) && StartsOnce(s) && t in s.tasks && !s.tasks[t].pc.Done?
    ensures StartsOnce(Apply(s, t, Plan(s, t, c)))
  {
    assert Told(s, t);
    PlanLegal(s, t, c);
    PlanFollows(s, t, c);
    StepStartsOnce(s, t, Plan(s, t, c));
  }

  lemma NextStartsOnce(s: State, e: Event)
    requires Safe(s) && StartsOnce(s)
    ensures StartsOnce(Next(s, e))
  {
    if e.Step? && e.task in s.tasks {
      if s.tasks[e.task].pc.Done? { DoneStays(s, e.task, e.choice); } else { TaskStartsOnce(s, e.task, e.choice); }
    } else {
      KeepStartsOnce(s, Next(s, e));
    }
  }

  lemma KeepStartsOnce(s: State, n: State)
    requires StartsOnce(s) && n.effects == s.effects && n.nextRide == s.nextRide && n.orders == s.orders
    requires forall b :: b in n.active ==> b in s.active && n.active[b] == s.active[b]
    ensures StartsOnce(n)
  {
    forall i | 0 <= i < |n.effects| ensures OnItsBike(n, n.effects[i]) { assert OnItsBike(s, s.effects[i]); }
    forall r | !IsActive(s, r) ensures !IsActive(n, r) {}
  }

  lemma {:induction false} RunStartsOnce(events: seq<Event>)
    ensures StartsOnce(Run(Empty, events))
  {
    if events != [] {
      var before := events[..|events| - 1];
      RunStartsOnce(before);
      RunSafe(before);
      NextStartsOnce(Run(Empty, before), events[|events| - 1]);
    }
  }

  /** A second ride is started for an order, by a racing notification or a slow reply, only
      after the first one has ended. */
  lemma SecondStartOnlyAfterEnd(events: seq<Event>, i: nat, j: nat)
    requires var s := Run(Empty, events);
             i < j < |s.effects| && s.effects[i].Started? && s.effects[j].Started?
               && s.effects[i].order == s.effects[j].order
    ensures var s := Run(Empty, events); forall b :: b in s.active ==> s.active[b].ride != s.effects[i].ride
  {
    RunStartsOnce(events);
    var s := Run(Empty, events);
    assert !IsActive(s, s.effects[i].ride);
  }
}
