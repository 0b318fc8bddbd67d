/** What the captured payment of a ride start may still buy: from which states it can start another
    ride, and from which it can extend one. */
module ChargeStartsAgain {
  import opened Options
  import opened RidePayment
  import opened ChargeProtocol
  import opened ChargeInvariants
  import opened ChargeTruth
  import opened ChargeEffects
  import opened ChargeExtensions
  import opened ChargeOutcomes
  import opened ChargeContinuations
  import opened ChargeAgain
  import opened ChargeStarts

  predicate OfKind(e: Effect, o: OrderId, started: bool) { e.order == o && e.Started? == started }

  /** How many rides the order has started, or how often it has extended one. */
  function Tally(effects: seq<Effect>, o: OrderId, started: bool): nat {
    if effects == [] then 0
    else Tally(effects[..|effects| - 1], o, started) + if OfKind(effects[|effects| - 1], o, started) then 1 else 0
  }

  lemma TallyOfMore(effects: seq<Effect>, e: Effect, o: OrderId, started: bool)
    ensures Tally(effects + [e], o, started) == Tally(effects, o, started) + if OfKind(e, o, started) then 1 else 0
  {
    assert (effects + [e])[..|effects|] == effects;
  }

  lemma {:induction false} TallyOfNone(effects: seq<Effect>, o: OrderId, started: bool)
    requires forall i :: 0 <= i < |effects| ==> !OfKind(effects[i], o, started)
    ensures Tally(effects, o, started) == 0
  {
    if effects != [] { TallyOfNone(effects[..|effects| - 1], o, started); }
  }

  /** Some continuation starts a ride for the order, or extends one. */
  ghost predicate BuysOn(s: State, o: OrderId, started: bool, calm: bool) {
    exists n :: MayLead(s, n, o, calm) && Tally(n.effects, o, started) > Tally(s.effects, o, started)
  }

  /** A notification of the order that has won its claim and may yet give it back. */
  ghost predicate MayRelease(s: State, o: OrderId) {
    exists t :: t in s.tasks && Notified(s.tasks[t], o) && (ForPaid(s.tasks[t].pc) || s.tasks[t].pc.Release?)
  }

  ghost predicate NoticeStarting(s: State, o: OrderId) {
    exists t :: t in s.tasks && Notified(s.tasks[t], o) && (s.tasks[t].pc.FindRide? || s.tasks[t].pc.BeginRide?)
  }

  /** A request that starts no ride any more; a hosted one never does. */
  predicate RequestPast(task: Task) { PastExtend(task.pc) || task.IsHosted() }

  /** The order can be claimed, or its claim may be given back. */
  ghost predicate OpenToClaim(s: State, o: OrderId, calm: bool)
    requires o in s.orders
  {
    Unclaimed(s.orders[o]) || (!calm && MayRelease(s, o))
  }

  /** The request has not come to its start yet, a notification is about to make one, or the order
      has no ride on it and can still fall to a notification that arrives. */
  ghost predicate OpenToStart(s: State, o: OrderId, calm: bool)
    requires IsStart(s, o)
  {
    || !RequestPast(s.tasks[s.orders[o].maker])
    || NoticeStarting(s, o)
    || (s.orders[o].rideId.None? && OpenToClaim(s, o, calm))
  }

  // ---------- continuations that buy ----------

  lemma BuysAfter(s: State, m: State, o: OrderId, started: bool, calm: bool)
    requires Leads(s, m, {}) && m.effects == s.effects && BuysOn(m, o, started, calm)
    ensures BuysOn(s, o, started, calm)
  {
    var n :| MayLead(m, n, o, calm) && Tally(n.effects, o, started) > Tally(m.effects, o, started);
    LeadsOn(s, m, n, {});
    assert MayLead(s, n, o, calm);
  }

  /** What a handler about to start a ride leads to, once the ride on its bike has ended. */
  function Begun(s: State, t: TaskId, o: OrderId): State
    requires o in s.orders && t in s.tasks
  {
    var bike := s.orders[o].spec.bike;
    s.(tasks := s.tasks[t := s.tasks[t].(pc := MarkPaid(Some(s.nextRide), true))],
       effects := s.effects + [Started(o, s.nextRide, bike)],
       active := (s.active - {bike})[bike := ActiveRide(s.tasks[t].spec.key.user, s.nextRide)],
       nextRide := s.nextRide + 1)
  }

  lemma BeginLeads(s: State, t: TaskId, o: OrderId)
    requires o in s.orders && t in s.tasks && s.tasks[t].order == Some(o) && s.tasks[t].pc.BeginRide?
    ensures Leads(s, Begun(s, t, o), {})
  {
    var bike := s.orders[o].spec.bike;
    LeadsBy(s, EndRide(bike));
    var m := s.(active := s.active - {bike});
    HandlerStarts(m, o, t);
    LeadsBy(m, Step(t, Go));
    LeadsOn(s, m, Begun(s, t, o), {});
  }

  lemma FindLeads(s: State, t: TaskId, o: OrderId)
    requires o in s.orders && t in s.tasks && s.tasks[t].order == Some(o) && s.tasks[t].pc.FindRide?
    ensures Leads(s, Begun(s, t, o), {})
  {
    var bike := s.orders[o].spec.bike;
    LeadsBy(s, EndRide(bike));
    var m := s.(active := s.active - {bike});
    HandlerFinds(m, o, t);
    LeadsBy(m, Step(t, Go));
    var n := m.(tasks := s.tasks[t := s.tasks[t].(pc := BeginRide)]);
    LeadsOn(s, m, n, {});
    BeginLeads(n, t, o);
    BegunSame(s, n, t, o);
    LeadsOn(s, n, Begun(s, t, o), {});
  }

  lemma BegunSame(s: State, n: State, t: TaskId, o: OrderId)
    requires o in s.orders && t in s.tasks
    requires
      var bike := s.orders[o].spec.bike;
      n == s.(active := s.active - {bike}, tasks := s.tasks[t := s.tasks[t].(pc := BeginRide)])
    ensures Begun(n, t, o) == Begun(s, t, o)
  {
    var pc := MarkPaid(Some(s.nextRide), true);
    assert n.tasks[t := n.tasks[t].(pc := pc)] == s.tasks[t := s.tasks[t].(pc := pc)];
    assert n.active - {s.orders[o].spec.bike} == n.active;
  }

  lemma StartingLeads(s: State, t: TaskId, o: OrderId)
    requires o in s.orders && t in s.tasks && s.tasks[t].order == Some(o)
    requires s.tasks[t].pc.FindRide? || s.tasks[t].pc.BeginRide?
    ensures Leads(s, Begun(s, t, o), {})
  {
    if s.tasks[t].pc.FindRide? { FindLeads(s, t, o); } else { BeginLeads(s, t, o); }
  }

  lemma StartingBuys(s: State, t: TaskId, o: OrderId, calm: bool)
    requires o in s.orders && t in s.tasks && s.tasks[t].order == Some(o) && (calm ==> Quiet(s, o))
    requires s.tasks[t].pc.FindRide? || s.tasks[t].pc.BeginRide?
    ensures BuysOn(s, o, true, calm)
  {
    StartingLeads(s, t, o);
    TallyOfMore(s.effects, Started(o, s.nextRide, s.orders[o].spec.bike), o, true);
    assert MayLead(s, Begun(s, t, o), o, calm);
  }

  /** A notification that arrives at an unclaimed order and wins its claim. */
  function Claimed(s: State, t: TaskId, o: OrderId): State
    requires o in s.orders
  {
    s.(tasks := s.tasks[t := Won(s.orders[o], o)], orders := s.orders[o := s.orders[o].(status := Processing)])
  }

  lemma ClaimLeads(s: State, t: TaskId, o: OrderId)
    requires o in s.orders && Got(s, o) && Unclaimed(s.orders[o]) && t !in s.tasks
    ensures Leads(s, Claimed(s, t, o), {})
  {
    NoticeArrives(s, o, t);
    LeadsBy(s, Notify(t, o, Capture, None));
    var m := s.(tasks := s.tasks[t := Arrived(s.orders[o].spec, o)]);
    NoticeClaims(m, o, t);
    LeadsBy(m, Step(t, Go));
    WonSame(s, m, t, o);
    LeadsOn(s, m, Claimed(s, t, o), {});
  }

  lemma WonSame(s: State, m: State, t: TaskId, o: OrderId)
    requires o in s.orders && m == s.(tasks := s.tasks[t := Arrived(s.orders[o].spec, o)])
    ensures Claimed(m, t, o) == Claimed(s, t, o)
  {
    assert m.tasks[t := Won(s.orders[o], o)] == s.tasks[t := Won(s.orders[o], o)];
  }

  lemma ClaimStarts(s: State, o: OrderId, calm: bool)
    requires o in s.orders && Got(s, o) && Unclaimed(s.orders[o]) && (calm ==> Quiet(s, o))
    requires s.orders[o].rideId.None? && !s.orders[o].overage
    ensures BuysOn(s, o, true, calm)
  {
    var t := FreshTask(s.tasks.Keys);
    assert t !in s.tasks;
    ClaimLeads(s, t, o);
    StartingBuys(Claimed(s, t, o), t, o, calm);
    BuysAfter(s, Claimed(s, t, o), o, true, calm);
  }

  /** What a notification leaves that gives its claim back. */
  predicate LetGo(s: State, n: State, o: OrderId)
    requires o in s.orders
  {
    n.payments == s.payments && n.effects == s.effects && n.orders == s.orders[o := s.orders[o].(status := Pending)]
  }

  lemma ReleaseLeads(s: State, t: TaskId, o: OrderId) returns (n: State)
    requires o in s.orders && t in s.tasks && s.tasks[t].order == Some(o) && s.tasks[t].pc.Release?
    ensures Leads(s, n, {}) && LetGo(s, n, o)
  {
    NoticeReleases(s, o, t);
    LeadsBy(s, Step(t, Go));
    n := Next(s, Step(t, Go));
  }

  lemma LetGoLeads(s: State, t: TaskId, o: OrderId) returns (n: State)
    requires o in s.orders && t in s.tasks && Notified(s.tasks[t], o)
    requires ForPaid(s.tasks[t].pc) || s.tasks[t].pc.Release?
    ensures Leads(s, n, {}) && LetGo(s, n, o)
  {
    if ForPaid(s.tasks[t].pc) {
      NoticeThrows(s, o, t);
      LeadsBy(s, Step(t, Throws));
      var m := s.(tasks := s.tasks[t := s.tasks[t].(threw := true, pc := Release)]);
      n := ReleaseLeads(m, t, o);
      LeadsOn(s, m, n, {});
    } else {
      n := ReleaseLeads(s, t, o);
    }
  }

  /** An order with a ride on it is extended by a notification that arrives. */
  lemma RiddenExtends(s: State, o: OrderId)
    requires o in s.orders && Got(s, o) && Unclaimed(s.orders[o])
    requires s.orders[o].rideId.Some? && !s.orders[o].overage
    ensures BuysOn(s, o, false, false)
  {
    var t := FreshTask(s.tasks.Keys);
    var ride := s.orders[o].rideId.value;
    assert t !in s.tasks;
    ClaimLeads(s, t, o);
    var m := Claimed(s, t, o);
    HandlerExtends(m, o, t, ride);
    LeadsBy(m, Step(t, Go));
    TallyOfMore(s.effects, Extended(o, ride, t), o, false);
    assert MayLead(m, Next(m, Step(t, Go)), o, false);
    BuysAfter(s, m, o, false, false);
  }

  /** A notification whose last write gets through although it is left by an exception. */
  function MarkedLate(s: State, t: TaskId, o: OrderId): State
    requires o in s.orders && t in s.tasks && s.tasks[t].pc.MarkPaid?
  {
    s.(tasks := s.tasks[t := s.tasks[t].(threw := true, pc := Release)],
       orders := s.orders[o := PaidRow(s.orders[o], s.tasks[t].pc)])
  }

  lemma LateMark(s: State, t: TaskId, o: OrderId)
    requires o in s.orders && t in s.tasks && Notified(s.tasks[t], o) && s.tasks[t].pc.MarkPaid?
    ensures Next(s, Step(t, Late)) == MarkedLate(s, t, o)
  {
  }

  lemma LateExtends(s: State, t: TaskId, o: OrderId)
    requires o in s.orders && Got(s, o) && !s.orders[o].overage && t in s.tasks && Notified(s.tasks[t], o)
    requires s.tasks[t].pc.MarkPaid? && s.tasks[t].pc.started.Some?
    ensures BuysOn(s, o, false, false)
  {
    LateMark(s, t, o);
    LeadsBy(s, Step(t, Late));
    var m := MarkedLate(s, t, o);
    var n := LetGoLeads(m, t, o);
    RiddenExtends(n, o);
    BuysAfter(m, n, o, false, false);
    BuysAfter(s, m, o, false, false);
  }

  lemma BegunExtends(s: State, t: TaskId, o: OrderId)
    requires o in s.orders && Got(s, o) && !s.orders[o].overage && t in s.tasks && Notified(s.tasks[t], o)
    requires s.tasks[t].pc.FindRide?
    ensures BuysOn(s, o, false, false)
  {
    StartingLeads(s, t, o);
    var m := Begun(s, t, o);
    LateExtends(m, t, o);
    TallyOfMore(s.effects, Started(o, s.nextRide, s.orders[o].spec.bike), o, false);
    var n :| MayLead(m, n, o, false) && Tally(n.effects, o, false) > Tally(m.effects, o, false);
    LeadsOn(s, m, n, {});
    assert MayLead(s, n, o, false);
  }

  /** One without a ride is first given one, by a notification that throws after its last write. */
  lemma ClaimExtends(s: State, o: OrderId)
    requires o in s.orders && Got(s, o) && Unclaimed(s.orders[o]) && !s.orders[o].overage
    ensures BuysOn(s, o, false, false)
  {
    if s.orders[o].rideId.Some? {
      RiddenExtends(s, o);
    } else {
      var t := FreshTask(s.tasks.Keys);
      assert t !in s.tasks;
      ClaimLeads(s, t, o);
      BegunExtends(Claimed(s, t, o), t, o);
      BuysAfter(s, Claimed(s, t, o), o, false, false);
    }
  }

  /** The request of a captured start order that has not come to its start yet. */
  lemma ReplyStarts(s: State, t: TaskId, o: OrderId, calm: bool)
    requires o in s.orders && Got(s, o) && (calm ==> Quiet(s, o))
    requires t in s.tasks && s.tasks[t].order == Some(o) && s.tasks[t].Is(StartRide) && s.tasks[t].pc.AwaitCharge?
    ensures BuysOn(s, o, true, calm)
  {
    ReplyCaptured(s, o, t);
    var e := Step(t, ChargeReply(Capture, None));
    LeadsBy(s, e);
    StartingBuys(Next(s, e), t, o, calm);
    BuysAfter(s, Next(s, e), o, true, calm);
  }

  lemma SendStarts(s: State, t: TaskId, o: OrderId, calm: bool)
    requires o in s.orders && Got(s, o) && (calm ==> Quiet(s, o))
    requires t in s.tasks && s.tasks[t].order == Some(o) && s.tasks[t].Is(StartRide) && s.tasks[t].pc.Charge?
    ensures BuysOn(s, o, true, calm)
  {
    var n := Next(s, Step(t, Go));
    assert n.orders == s.orders && n.effects == s.effects && n.tasks == s.tasks[t := s.tasks[t].(pc := AwaitCharge)];
    assert Got(n, o);
    LeadsBy(s, Step(t, Go));
    ReplyStarts(n, t, o, calm);
    BuysAfter(s, n, o, true, calm);
  }

  lemma PersistStarts(s: State, t: TaskId, o: OrderId, calm: bool)
    requires o in s.orders && Got(s, o) && (calm ==> Quiet(s, o))
    requires t in s.tasks && s.tasks[t].order == Some(o) && s.tasks[t].Is(StartRide) && s.tasks[t].pc.Persist?
    ensures BuysOn(s, o, true, calm)
  {
    var n := Next(s, Step(t, Go));
    assert o in n.orders && n.effects == s.effects && n.payments == s.payments;
    assert n.tasks == s.tasks[t := s.tasks[t].(pc := Charge)];
    LeadsBy(s, Step(t, Go));
    SendStarts(n, t, o, calm);
    BuysAfter(s, n, o, true, calm);
  }

  /** What holds wherever a captured start order is reachable. */
  ghost predicate StartPlaced(s: State, o: OrderId) {
    && Safe(s) && ClaimsWon(s) && Honest(s) && StartsKeep(s) && IsStart(s, o) && Got(s, o)
  }

  lemma RequestStands(s: State, o: OrderId)
    requires StartPlaced(s, o)
    ensures
      var t := s.orders[o].maker;
      && s.tasks[t].order == Some(o) && !s.orders[o].overage
      && (|| RequestPast(s.tasks[t])
          || (s.tasks[t].Is(StartRide)
              && var pc := s.tasks[t].pc;
                 pc.Persist? || pc.Charge? || pc.AwaitCharge? || pc.FindRide? || pc.BeginRide?))
  {
    assert OwnRow(s, o);
    var t := s.orders[o].maker;
    assert OwnTask(s, t) && HonestTask(s, t);
  }

  lemma RequestStarts(s: State, o: OrderId, calm: bool)
    requires StartPlaced(s, o) && (calm ==> Quiet(s, o)) && !RequestPast(s.tasks[s.orders[o].maker])
    ensures BuysOn(s, o, true, calm)
  {
    RequestStands(s, o);
    var t := s.orders[o].maker;
    var pc := s.tasks[t].pc;
    if pc.Persist? { PersistStarts(s, t, o, calm); }
    else if pc.Charge? { SendStarts(s, t, o, calm); }
    else if pc.AwaitCharge? { ReplyStarts(s, t, o, calm); }
    else { StartingBuys(s, t, o, calm); }
  }

  lemma OpenStarts(s: State, o: OrderId, calm: bool)
    requires StartPlaced(s, o) && (calm ==> Quiet(s, o)) && OpenToStart(s, o, calm)
    ensures BuysOn(s, o, true, calm)
  {
    RequestStands(s, o);
    if !RequestPast(s.tasks[s.orders[o].maker]) {
      RequestStarts(s, o, calm);
    } else if t :| t in s.tasks && Notified(s.tasks[t], o) && (s.tasks[t].pc.FindRide? || s.tasks[t].pc.BeginRide?) {
      StartingBuys(s, t, o, calm);
    } else if Unclaimed(s.orders[o]) {
      ClaimStarts(s, o, calm);
    } else {
      ReleaseStarts(s, o);
    }
  }

  lemma ReleaseStarts(s: State, o: OrderId)
    requires o in s.orders && Got(s, o) && s.orders[o].rideId.None? && !s.orders[o].overage && MayRelease(s, o)
    ensures BuysOn(s, o, true, false)
  {
    var t :| t in s.tasks && Notified(s.tasks[t], o) && (ForPaid(s.tasks[t].pc) || s.tasks[t].pc.Release?);
    var n := LetGoLeads(s, t, o);
    ClaimStarts(n, o, false);
    BuysAfter(s, n, o, true, false);
  }

  lemma OpenExtends(s: State, o: OrderId)
    requires StartPlaced(s, o) && OpenToClaim(s, o, false)
    ensures BuysOn(s, o, false, false)
  {
    RequestStands(s, o);
    if Unclaimed(s.orders[o]) {
      ClaimExtends(s, o);
    } else {
      var t :| t in s.tasks && Notified(s.tasks[t], o) && (ForPaid(s.tasks[t].pc) || s.tasks[t].pc.Release?);
      var n := LetGoLeads(s, t, o);
      ClaimExtends(n, o);
      BuysAfter(s, n, o, false, false);
    }
  }

  // ---------- states from which nothing more is bought ----------

  /** A handler with which the order starts no more rides (`started`) or extends none. `ridden`
      says that the order has a ride on it. */
  predicate BarrenTask(task: Task, started: bool, ridden: bool, calm: bool) {
    if task.kind.Request? then
      if started then RequestPast(task) else ForStart(task.kind) && !task.pc.Extend?
    else if started && ridden then !task.pc.FindRide? && !task.pc.BeginRide? && (calm ==> !task.pc.Release?)
    else task.pc.Claim? || task.pc.Done? || (started && calm && (task.pc.Extend? || task.pc.MarkPaid?))
  }

  predicate BarrenRow(row: Order, started: bool) {
    !row.overage && (!Unclaimed(row) || (started && row.rideId.Some?))
  }

  predicate Barren(s: State, o: OrderId, started: bool, calm: bool) {
    && o in s.orders && BarrenRow(s.orders[o], started)
    && forall t :: t in s.tasks && s.tasks[t].order == Some(o) ==>
         BarrenTask(s.tasks[t], started, s.orders[o].rideId.Some?, calm)
  }

  /** What a step of a handler of such an order may do. */
  predicate StaysBarren(d: Delta, o: OrderId, row: Order, started: bool, calm: bool) {
    && (d.effect.Some? ==> d.effect.value.Started? != started)
    && BarrenTask(d.task, started, row.rideId.Some?, calm)
    && d.task.order == Some(o) && !d.write.InsertRow?
    && (d.write.SetStatus? ==> d.write.status == Processing || (started && row.rideId.Some?))
  }

  lemma AcquirerBarren(task: Task, o: OrderId, c: Choice, row: Order, started: bool, calm: bool)
    requires WellPlaced(task) && task.order == Some(o) && ForStart(task.kind) && AtAcquirer(task.pc)
    requires BarrenTask(task, started, row.rideId.Some?, calm)
    ensures StaysBarren(if task.pc.CallInit? then PlanInit(task, c) else PlanPay(task, o, c), o, row, started, calm)
  {
  }

  lemma ClaimBarren(task: Task, o: OrderId, row: Order, started: bool, calm: bool)
    requires Settling(task) && task.order == Some(o) && task.pc.Claim? && BarrenRow(row, started)
    requires BarrenTask(task, started, row.rideId.Some?, calm)
    ensures StaysBarren(PlanClaim(task, row), o, row, started, calm)
  {
  }

  lemma ThrowBarren(task: Task, o: OrderId, row: Order, started: bool, calm: bool)
    requires Settling(task) && task.order == Some(o) && (ForStart(task.kind) || task.kind.Notice?)
    requires BarrenTask(task, started, row.rideId.Some?, calm) && !task.pc.MarkFailed?
    requires calm && task.kind.Notice? ==> !PlanThrow(task).task.threw
    ensures StaysBarren(PlanThrow(task), o, row, started, calm)
  {
  }

  lemma EffectBarren(s: State, task: Task, row: Order, t: TaskId, o: OrderId, c: Choice, started: bool, calm: bool)
    requires Settling(task) && task.order == Some(o) && (task.pc.FindRide? || task.pc.BeginRide? || task.pc.Extend?)
    requires BarrenTask(task, started, row.rideId.Some?, calm)
    ensures StaysBarren(PlanEffect(s, task, row, t, o, c), o, row, started, calm)
  {
  }

  lemma MarkBarren(task: Task, o: OrderId, c: Choice, row: Order, started: bool, calm: bool)
    requires Settling(task) && task.order == Some(o) && (task.pc.MarkPaid? || task.pc.Release?)
    requires BarrenTask(task, started, row.rideId.Some?, calm) && (ForStart(task.kind) || task.kind.Notice?)
    requires calm && task.kind.Notice? ==> !PlanMark(task, o, c).task.threw
    ensures StaysBarren(PlanMark(task, o, c), o, row, started, calm)
  {
  }

  lemma OwnBarren(s: State, t: TaskId, c: Choice, o: OrderId, started: bool, calm: bool)
    requires t in s.tasks && OwnTask(s, t) && s.tasks[t].order == Some(o) && o in s.orders
    requires ForStart(s.tasks[t].kind) || s.tasks[t].kind.Notice?
    requires BarrenRow(s.orders[o], started) && BarrenTask(s.tasks[t], started, s.orders[o].rideId.Some?, calm)
    requires !Reserving(s.tasks[t].pc) && !s.tasks[t].pc.MarkFailed?
    requires calm && s.tasks[t].kind.Notice? ==> !Plan(s, t, c).task.threw
    ensures StaysBarren(Plan(s, t, c), o, s.orders[o], started, calm)
  {
    var task, row := s.tasks[t], s.orders[o];
    if task.pc.Done? { assert Plan(s, t, c) == Move(task); }
    else if AtAcquirer(task.pc) { AcquirerBarren(task, o, c, row, started, calm); }
    else if c.Throws? { ThrowBarren(task, o, row, started, calm); }
    else if task.pc.Claim? { ClaimBarren(task, o, row, started, calm); }
    else if task.pc.FindRide? || task.pc.BeginRide? || task.pc.Extend? {
      EffectBarren(s, task, row, t, o, c, started, calm);
    }
    else { MarkBarren(task, o, c, row, started, calm); }
  }

  /** What a step must be like to leave the order barren. */
  predicate LeavesBarren(s: State, t: TaskId, d: Delta, o: OrderId, started: bool, calm: bool)
    requires o in s.orders && t in s.tasks
  {
    && (d.effect.Some? ==> !OfKind(d.effect.value, o, started))
    && o in Apply(s, t, d).orders && BarrenRow(Apply(s, t, d).orders[o], started)
    && (s.orders[o].rideId.Some? ==> Apply(s, t, d).orders[o].rideId.Some?)
    && (d.task.order == Some(o) ==> BarrenTask(d.task, started, Apply(s, t, d).orders[o].rideId.Some?, calm))
  }

  lemma OwnLeavesBarren(s: State, t: TaskId, d: Delta, o: OrderId, started: bool, calm: bool)
    requires o in s.orders && t in s.tasks && BarrenRow(s.orders[o], started)
    requires StaysBarren(d, o, s.orders[o], started, calm)
    ensures LeavesBarren(s, t, d, o, started, calm)
  {
  }

  lemma OtherLeavesBarren(s: State, t: TaskId, c: Choice, o: OrderId, started: bool, calm: bool)
    requires Safe(s) && t in s.tasks && s.tasks[t].order != Some(o) && o in s.orders && BarrenRow(s.orders[o], started)
    ensures LeavesBarren(s, t, Plan(s, t, c), o, started, calm)
  {
    OtherStep(s, t, c, o);
    assert Told(s, t) && OwnTask(s, t) && OwnRow(s, o) && OwnTask(s, s.orders[o].maker);
    PlanLegal(s, t, c);
    NoNewHolder(s, t, Plan(s, t, c), o);
  }

  lemma BarrenApply(s: State, t: TaskId, d: Delta, o: OrderId, started: bool, calm: bool)
    requires t in s.tasks && Barren(s, o, started, calm) && LeavesBarren(s, t, d, o, started, calm)
    ensures Barren(Apply(s, t, d), o, started, calm)
    ensures Tally(Apply(s, t, d).effects, o, started) == Tally(s.effects, o, started)
  {
    if d.effect.Some? { TallyOfMore(s.effects, d.effect.value, o, started); }
  }

  lemma CalmNotice(s: State, t: TaskId, c: Choice, o: OrderId)
    requires t in s.tasks && OwnTask(s, t) && Notified(s.tasks[t], o) && Legal(s, s.tasks[t], Plan(s, t, c))
    requires Quiet(Next(s, Step(t, c)), o)
    ensures !Plan(s, t, c).task.threw
  {
    assert Next(s, Step(t, c)).tasks[t] == Plan(s, t, c).task;
  }

  lemma HolderBarren(s: State, t: TaskId, c: Choice, o: OrderId, started: bool, calm: bool)
    requires Safe(s) && Honest(s) && IsStart(s, o) && Got(s, o) && Barren(s, o, started, calm)
    requires t in s.tasks && s.tasks[t].order == Some(o) && (calm ==> Quiet(Next(s, Step(t, c)), o))
    ensures LeavesBarren(s, t, Plan(s, t, c), o, started, calm)
  {
    assert Told(s, t) && OwnTask(s, t) && HonestTask(s, t);
    StartHolder(s, t, o);
    PlanLegal(s, t, c);
    if calm && s.tasks[t].kind.Notice? { CalmNotice(s, t, c, o); }
    OwnBarren(s, t, c, o, started, calm);
    OwnLeavesBarren(s, t, Plan(s, t, c), o, started, calm);
  }

  lemma BarrenBeside(s: State, e: Event, o: OrderId, started: bool, calm: bool)
    requires Barren(s, o, started, calm) && !e.Step?
    ensures Barren(Next(s, e), o, started, calm) && Next(s, e).effects == s.effects
  {
  }

  lemma BarrenNext(s: State, e: Event, o: OrderId, started: bool, calm: bool)
    requires Safe(s) && Honest(s) && IsStart(s, o) && Got(s, o) && Barren(s, o, started, calm)
    requires calm ==> Quiet(Next(s, e), o)
    ensures Barren(Next(s, e), o, started, calm)
    ensures Tally(Next(s, e).effects, o, started) == Tally(s.effects, o, started)
  {
    if !e.Step? {
      BarrenBeside(s, e, o, started, calm);
    } else if e.task in s.tasks {
      var t, c := e.task, e.choice;
      if s.tasks[t].order == Some(o) {
        HolderBarren(s, t, c, o, started, calm);
      } else {
        OtherLeavesBarren(s, t, c, o, started, calm);
      }
      BarrenApply(s, t, Plan(s, t, c), o, started, calm);
    }
  }

  /** A captured start order stays one. */
  lemma GotStays(s: State, e: Event, o: OrderId)
    requires Safe(s) && Honest(s) && Truthful(s, e) && Got(s, o)
    ensures Got(Next(s, e), o)
  {
    if e.Step? && e.task in s.tasks {
      PlanSound(s, e.task, e.choice);
      SoundHere(s, e.task, e.choice, Plan(s, e.task, e.choice));
      PaymentsFrame(s, e.task, e.choice, Plan(s, e.task, e.choice));
    }
  }

  lemma IsStartStays(s: State, e: Event, o: OrderId)
    requires Safe(s) && ClaimsWon(s) && IsStart(s, o)
    ensures IsStart(Next(s, e), o)
  {
    TasksStay(s, e, s.orders[o].maker);
    if e.Step? && e.task in s.tasks { StatusTurns(s, e.task, e.choice, o); } else { OrdersOutside(s, e); }
  }

  lemma NextPlaced(s: State, e: Event, o: OrderId)
    requires StartPlaced(s, o) && Truthful(s, e)
    ensures StartPlaced(Next(s, e), o)
  {
    NextSafe(s, e);
    NextClaims(s, e);
    NextHonest(s, e);
    NextStarts(s, e);
    GotStays(s, e, o);
    IsStartStays(s, e, o);
  }

  lemma {:induction false} PlacedOn(s: State, more: seq<Event>, o: OrderId)
    requires StartPlaced(s, o) && TruthfulFrom(s, more)
    ensures StartPlaced(Run(s, more), o)
    decreases |more|
  {
    if more != [] {
      PlacedOn(s, more[..|more| - 1], o);
      NextPlaced(Run(s, more[..|more| - 1]), more[|more| - 1], o);
    }
  }

  lemma {:induction false} BarrenStays(s: State, more: seq<Event>, o: OrderId, started: bool, calm: bool)
    requires StartPlaced(s, o) && TruthfulFrom(s, more) && Barren(s, o, started, calm)
    requires calm ==> Quiet(Run(s, more), o)
    ensures Barren(Run(s, more), o, started, calm)
    ensures Tally(Run(s, more).effects, o, started) == Tally(s.effects, o, started)
    decreases |more|
  {
    if more != [] {
      var front, e := more[..|more| - 1], more[|more| - 1];
      PlacedOn(s, front, o);
      if calm { QuietBack(Run(s, front), e, o); }
      BarrenStays(s, front, o, started, calm);
      BarrenNext(Run(s, front), e, o, started, calm);
    }
  }

  lemma BarrenBuysNothing(s: State, o: OrderId, started: bool, calm: bool)
    requires StartPlaced(s, o) && Barren(s, o, started, calm)
    ensures !BuysOn(s, o, started, calm)
  {
    forall n | MayLead(s, n, o, calm) ensures Tally(n.effects, o, started) == Tally(s.effects, o, started) {
      var more :| Continues(s, n, {}, more);
      BarrenStays(s, more, o, started, calm);
    }
  }

  // ---------- exactly when more is bought ----------

  /** Where a notification of a captured start order can stand. */
  lemma NoticePlaced(s: State, o: OrderId, t: TaskId, calm: bool)
    requires StartPlaced(s, o) && t in s.tasks && Notified(s.tasks[t], o) && (calm ==> Quiet(s, o))
    ensures
      var pc := s.tasks[t].pc;
      pc.Claim? || pc.Done? || ForPaid(pc) || (pc.Release? && !calm)
  {
    assert OwnTask(s, t) && HonestTask(s, t);
    if calm { assert StartOnly(s, o) && StartTask(s.tasks[t]); }
  }

  lemma ClosedToStarts(s: State, o: OrderId, calm: bool)
    requires StartPlaced(s, o) && (calm ==> Quiet(s, o)) && !OpenToStart(s, o, calm)
    ensures Barren(s, o, true, calm)
  {
    RequestStands(s, o);
    forall t | t in s.tasks && s.tasks[t].order == Some(o)
      ensures BarrenTask(s.tasks[t], true, s.orders[o].rideId.Some?, calm)
    {
      Holders(s, o, t);
      if Notified(s.tasks[t], o) { NoticePlaced(s, o, t, calm); }
    }
  }

  lemma ClosedToExtensions(s: State, o: OrderId)
    requires StartPlaced(s, o) && !OpenToClaim(s, o, false)
    ensures Barren(s, o, false, false)
  {
    RequestStands(s, o);
    forall t | t in s.tasks && s.tasks[t].order == Some(o)
      ensures BarrenTask(s.tasks[t], false, s.orders[o].rideId.Some?, false)
    {
      StartHolder(s, t, o);
      if Notified(s.tasks[t], o) { NoticePlaced(s, o, t, false); }
    }
  }

  lemma ReachablePlaced(s: State, o: OrderId)
    requires Reachable(s) && IsStart(s, o) && Got(s, o)
    ensures StartPlaced(s, o)
  {
    ReachableKeeps(s);
    var events :| Reaches(events, s);
    RunStarts(events);
  }

  /** From any reachable state, a captured start payment can start a ride that it has not started
      yet, be it the first or another one, exactly when its request has not come to its start, a
      notification is about to make one, or there is no ride on the order and it can be claimed or
      its claim given back. With `calm`, no notification is left by an exception. */
  lemma StartsAgainIff(s: State, o: OrderId, calm: bool)
    requires Reachable(s) && IsStart(s, o) && Got(s, o) && (calm ==> Quiet(s, o))
    ensures BuysOn(s, o, true, calm) <==> OpenToStart(s, o, calm)
  {
    ReachablePlaced(s, o);
    if OpenToStart(s, o, calm) {
      OpenStarts(s, o, calm);
    } else {
      ClosedToStarts(s, o, calm);
      BarrenBuysNothing(s, o, true, calm);
    }
  }

  lemma CalmNeverExtends(s: State, o: OrderId)
    requires StartPlaced(s, o)
    ensures !BuysOn(s, o, false, true)
  {
    forall n | MayLead(s, n, o, true) ensures Tally(n.effects, o, false) == 0 {
      var more :| Continues(s, n, {}, more);
      PlacedOn(s, more, o);
      assert StartOnly(n, o);
      TallyOfNone(n.effects, o, false);
    }
  }

  /** And it can extend a ride, or extend one again, exactly when its order can be claimed or a
      notification that has won its claim may give it back; never while no notification of it is
      left by an exception. */
  lemma StartExtendsAgainIff(s: State, o: OrderId, calm: bool)
    requires Reachable(s) && IsStart(s, o) && Got(s, o)
    ensures BuysOn(s, o, false, calm) <==> !calm && OpenToClaim(s, o, calm)
  {
    ReachablePlaced(s, o);
    if calm {
      CalmNeverExtends(s, o);
    } else if OpenToClaim(s, o, false) {
      OpenExtends(s, o);
    } else {
      ClosedToExtensions(s, o);
      BarrenBuysNothing(s, o, false, false);
    }
  }
}
