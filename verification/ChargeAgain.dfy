/** How often one captured extension payment extends its ride in all that may still happen, with
    and without exceptions in its notifications. */
module ChargeAgain {
  import opened Options
  import opened RidePayment
  import opened ChargeProtocol
  import opened ChargeInvariants
  import opened ChargeTruth
  import opened ChargeEffects
  import opened ChargeExtensions
  import opened ChargeOutcomes
  import opened ChargeContinuations

  function Count(effects: seq<Effect>, o: OrderId): nat {
    if effects == [] then 0
    else Count(effects[..|effects| - 1], o) + if effects[|effects| - 1].order == o then 1 else 0
  }

  lemma CountOfMore(effects: seq<Effect>, e: Effect, o: OrderId)
    ensures Count(effects + [e], o) == Count(effects, o) + if e.order == o then 1 else 0
  {
    assert (effects + [e])[..|effects|] == effects;
  }

  lemma {:induction false} CountOfNone(effects: seq<Effect>, o: OrderId)
    ensures Count(effects, o) > 0 <==> exists i :: 0 <= i < |effects| && effects[i].order == o
  {
    if effects != [] {
      var front := effects[..|effects| - 1];
      CountOfNone(front, o);
      if i :| 0 <= i < |front| && front[i].order == o { assert effects[i].order == o; }
    }
  }

  lemma BoughtIsCounted(s: State, o: OrderId)
    ensures Bought(s, o) <==> Count(s.effects, o) > 0
  {
    CountOfNone(s.effects, o);
  }

  // ---------- where another extension can come from ----------

  predicate PastExtend(pc: Pc) { pc.MarkPaid? || pc.Done? }

  /** A notification that may still extend: it is about to, or, unless all notifications stay
      calm, an exception may yet make it give its claim back. */
  predicate MayExtend(task: Task, calm: bool) { task.pc.Extend? || (!calm && (task.pc.MarkPaid? || task.pc.Release?)) }

  ghost predicate NoticeMay(s: State, o: OrderId, calm: bool) {
    exists t :: t in s.tasks && Notified(s.tasks[t], o) && MayExtend(s.tasks[t], calm)
  }

  /** The order can still be claimed, its request has not extended yet, or a notification may. */
  ghost predicate OpenTo(s: State, o: OrderId, calm: bool)
    requires o in s.orders
  {
    || Unclaimed(s.orders[o])
    || (s.orders[o].maker in s.tasks && !PastExtend(s.tasks[s.orders[o].maker].pc))
    || NoticeMay(s, o, calm)
  }

  /** A continuation the claim is about: any, or one in which no notification of the order is
      left by an exception. */
  ghost predicate MayLead(s: State, n: State, o: OrderId, calm: bool) {
    Leads(s, n, {}) && (calm ==> Quiet(n, o))
  }

  ghost predicate ExtendsOn(s: State, o: OrderId, calm: bool) {
    exists n :: MayLead(s, n, o, calm) && Count(n.effects, o) > Count(s.effects, o)
  }

  lemma ExtendsAfter(s: State, e: Event, o: OrderId, calm: bool)
    requires Truthful(s, e) && Next(s, e).effects == s.effects && ExtendsOn(Next(s, e), o, calm)
    ensures ExtendsOn(s, o, calm)
  {
    var n :| MayLead(Next(s, e), n, o, calm) && Count(n.effects, o) > Count(s.effects, o);
    LeadsSelf(s, {});
    LeadsNext(s, s, {}, e);
    LeadsOn(s, Next(s, e), n, {});
    assert MayLead(s, n, o, calm);
  }

  lemma ExtendsNow(s: State, t: TaskId, o: OrderId, ride: RideId, calm: bool)
    requires o in s.orders && t in s.tasks && s.tasks[t].order == Some(o) && (calm ==> Quiet(s, o))
    requires s.tasks[t].pc.Extend? && s.tasks[t].target == Some(ride)
    ensures ExtendsOn(s, o, calm)
  {
    HandlerExtends(s, o, t, ride);
    var n := Next(s, Step(t, Go));
    CountOfMore(s.effects, Extended(o, ride, t), o);
    LeadsSelf(s, {});
    LeadsNext(s, s, {}, Step(t, Go));
    assert MayLead(s, n, o, calm);
  }

  /** An order of an extension that can be claimed is extended by a notification that arrives. */
  lemma ClaimExtends(s: State, o: OrderId, ride: RideId, calm: bool)
    requires o in s.orders && Got(s, o) && Unclaimed(s.orders[o]) && (calm ==> Quiet(s, o))
    requires s.orders[o].rideId == Some(ride) && !s.orders[o].overage
    ensures ExtendsOn(s, o, calm)
  {
    var t := FreshTask(s.tasks.Keys);
    NoticeArrives(s, o, t);
    var m := Next(s, Notify(t, o, Capture, None));
    NoticeClaims(m, o, t);
    var n := Next(m, Step(t, Go));
    ExtendsNow(n, t, o, ride, calm);
    ExtendsAfter(m, Step(t, Go), o, calm);
    ExtendsAfter(s, Notify(t, o, Capture, None), o, calm);
  }

  lemma ReleaseExtends(s: State, t: TaskId, o: OrderId, ride: RideId)
    requires o in s.orders && Got(s, o) && s.orders[o].rideId == Some(ride) && !s.orders[o].overage
    requires t in s.tasks && s.tasks[t].order == Some(o) && s.tasks[t].pc.Release?
    ensures ExtendsOn(s, o, false)
  {
    NoticeReleases(s, o, t);
    ClaimExtends(Next(s, Step(t, Go)), o, ride, false);
    ExtendsAfter(s, Step(t, Go), o, false);
  }

  lemma ThrowExtends(s: State, t: TaskId, o: OrderId, ride: RideId)
    requires o in s.orders && Got(s, o) && s.orders[o].rideId == Some(ride) && !s.orders[o].overage
    requires t in s.tasks && Notified(s.tasks[t], o) && s.tasks[t].pc.MarkPaid?
    ensures ExtendsOn(s, o, false)
  {
    NoticeThrows(s, o, t);
    ReleaseExtends(Next(s, Step(t, Throws)), t, o, ride);
    ExtendsAfter(s, Step(t, Throws), o, false);
  }

  lemma ReplyExtends(s: State, t: TaskId, o: OrderId, ride: RideId, calm: bool)
    requires o in s.orders && Got(s, o) && (calm ==> Quiet(s, o))
    requires t in s.tasks && s.tasks[t].order == Some(o) && s.tasks[t].Is(ExtendRide(ride))
             && s.tasks[t].pc.AwaitCharge?
    ensures ExtendsOn(s, o, calm)
  {
    ReplyCaptured(s, o, t);
    var e := Step(t, ChargeReply(Capture, None));
    ExtendsNow(Next(s, e), t, o, ride, calm);
    ExtendsAfter(s, e, o, calm);
  }

  lemma SendExtends(s: State, t: TaskId, o: OrderId, ride: RideId, calm: bool)
    requires o in s.orders && Got(s, o) && (calm ==> Quiet(s, o))
    requires t in s.tasks && s.tasks[t].order == Some(o) && s.tasks[t].Is(ExtendRide(ride)) && s.tasks[t].pc.Charge?
    ensures ExtendsOn(s, o, calm)
  {
    var n := Next(s, Step(t, Go));
    assert n.orders == s.orders && n.effects == s.effects && n.tasks == s.tasks[t := s.tasks[t].(pc := AwaitCharge)];
    assert Got(n, o);
    ReplyExtends(n, t, o, ride, calm);
    ExtendsAfter(s, Step(t, Go), o, calm);
  }

  lemma PersistExtends(s: State, t: TaskId, o: OrderId, ride: RideId, calm: bool)
    requires o in s.orders && Got(s, o) && (calm ==> Quiet(s, o))
    requires t in s.tasks && s.tasks[t].order == Some(o) && s.tasks[t].Is(ExtendRide(ride)) && s.tasks[t].pc.Persist?
    ensures ExtendsOn(s, o, calm)
  {
    var n := Next(s, Step(t, Go));
    assert o in n.orders && n.effects == s.effects && n.payments == s.payments;
    assert n.tasks == s.tasks[t := s.tasks[t].(pc := Charge)];
    SendExtends(n, t, o, ride, calm);
    ExtendsAfter(s, Step(t, Go), o, calm);
  }

  /** Where the request of a captured extension can stand before it extends. */
  lemma MakerStands(s: State, o: OrderId, ride: RideId)
    requires Safe(s) && Honest(s) && AllExtensions(s) && IsExtension(s, o, ride) && Got(s, o)
    ensures
      var t := s.orders[o].maker;
      && t in s.tasks && s.tasks[t].order == Some(o) && s.tasks[t].Is(ExtendRide(ride))
      && (|| PastExtend(s.tasks[t].pc) || s.tasks[t].pc.Persist? || s.tasks[t].pc.Charge? || s.tasks[t].pc.AwaitCharge?
          || (s.tasks[t].pc.Extend? && s.tasks[t].target == Some(ride)))
    ensures s.orders[o].rideId == Some(ride) && !s.orders[o].overage
  {
    var t := s.orders[o].maker;
    assert Sorted(s, o, ride) && OwnRow(s, o) && OwnTask(s, t) && HonestTask(s, t);
    assert ExtTask(s.tasks[t], ride);
  }

  /** Where a notification of a captured extension can stand. */
  lemma NoticeStands(s: State, o: OrderId, ride: RideId, t: TaskId)
    requires Safe(s) && Honest(s) && AllExtensions(s) && IsExtension(s, o, ride) && Got(s, o)
    requires t in s.tasks && Notified(s.tasks[t], o)
    ensures
      var pc := s.tasks[t].pc;
      || pc.Claim? || PastExtend(pc) || (pc.Release? && s.tasks[t].threw)
      || (pc.Extend? && s.tasks[t].target == Some(ride))
  {
    assert Sorted(s, o, ride) && OwnTask(s, t) && HonestTask(s, t);
    assert ExtTask(s.tasks[t], ride);
  }

  lemma OpenExtends(s: State, o: OrderId, ride: RideId, calm: bool)
    requires Safe(s) && Honest(s) && AllExtensions(s) && IsExtension(s, o, ride) && Got(s, o)
    requires (calm ==> Quiet(s, o)) && OpenTo(s, o, calm)
    ensures ExtendsOn(s, o, calm)
  {
    MakerStands(s, o, ride);
    var m := s.orders[o].maker;
    if Unclaimed(s.orders[o]) { ClaimExtends(s, o, ride, calm); }
    else if s.tasks[m].pc.Extend? { ExtendsNow(s, m, o, ride, calm); }
    else if s.tasks[m].pc.AwaitCharge? { ReplyExtends(s, m, o, ride, calm); }
    else if s.tasks[m].pc.Charge? { SendExtends(s, m, o, ride, calm); }
    else if s.tasks[m].pc.Persist? { PersistExtends(s, m, o, ride, calm); }
    else {
      var t :| t in s.tasks && Notified(s.tasks[t], o) && MayExtend(s.tasks[t], calm);
      NoticeStands(s, o, ride, t);
      if s.tasks[t].pc.Extend? { ExtendsNow(s, t, o, ride, calm); }
      else if s.tasks[t].pc.MarkPaid? { ThrowExtends(s, t, o, ride); }
      else { ReleaseExtends(s, t, o, ride); }
    }
  }

  // ---------- when none can ----------

  predicate SpentTask(task: Task, calm: bool) {
    && !task.IsOverage()
    && if task.kind.Request? then PastExtend(task.pc)
       else task.pc.Claim? || task.pc.Done? || (calm && task.pc.MarkPaid?)
  }

  predicate Spent(s: State, o: OrderId, calm: bool) {
    && o in s.orders && !Unclaimed(s.orders[o])
    && forall t :: t in s.tasks && s.tasks[t].order == Some(o) ==> SpentTask(s.tasks[t], calm)
  }

  /** What a step of a handler of a spent order must be like. */
  predicate LeavesSpent(s: State, t: TaskId, d: Delta, o: OrderId, calm: bool)
    requires t in s.tasks
  {
    && (d.effect.Some? ==> d.effect.value.order != o)
    && (d.task.order == Some(o) ==> SpentTask(d.task, calm))
    && o in Apply(s, t, d).orders && !Unclaimed(Apply(s, t, d).orders[o])
  }

  lemma RequestSpent(s: State, t: TaskId, c: Choice, o: OrderId, calm: bool)
    requires t in s.tasks && OwnTask(s, t) && s.tasks[t].order == Some(o) && o in s.orders
    requires s.tasks[t].kind.Request? && !Unclaimed(s.orders[o]) && SpentTask(s.tasks[t], calm)
    ensures LeavesSpent(s, t, Plan(s, t, c), o, calm)
  {
    if s.tasks[t].pc.Done? {
      assert Plan(s, t, c) == Move(s.tasks[t]);
    } else if c.Throws? {
      assert Plan(s, t, c) == PlanThrow(s.tasks[t]);
    } else {
      assert Plan(s, t, c) == PlanMark(s.tasks[t], o, c);
    }
  }

  lemma ClaimSpent(s: State, t: TaskId, c: Choice, o: OrderId, calm: bool)
    requires t in s.tasks && OwnTask(s, t) && s.tasks[t].order == Some(o) && o in s.orders
    requires s.tasks[t].kind.Notice? && !Unclaimed(s.orders[o]) && (s.tasks[t].pc.Claim? || s.tasks[t].pc.Done?)
    ensures LeavesSpent(s, t, Plan(s, t, c), o, calm)
  {
  }

  lemma MarkSpent(s: State, t: TaskId, c: Choice, o: OrderId)
    requires t in s.tasks && OwnTask(s, t) && Notified(s.tasks[t], o) && o in s.orders
    requires !Unclaimed(s.orders[o]) && s.tasks[t].pc.MarkPaid? && !Plan(s, t, c).task.threw
    ensures LeavesSpent(s, t, Plan(s, t, c), o, true)
  {
  }

  lemma SpentApply(s: State, t: TaskId, d: Delta, o: OrderId, calm: bool)
    requires Spent(s, o, calm) && t in s.tasks && LeavesSpent(s, t, d, o, calm)
    ensures Spent(Apply(s, t, d), o, calm) && Count(Apply(s, t, d).effects, o) == Count(s.effects, o)
  {
    if d.effect.Some? { CountOfMore(s.effects, d.effect.value, o); }
  }

  /** A notification that is to stay calm has not just been left by an exception. */
  lemma CalmStep(s: State, t: TaskId, c: Choice, o: OrderId)
    requires t in s.tasks && OwnTask(s, t) && Notified(s.tasks[t], o) && s.tasks[t].pc.MarkPaid?
    requires Quiet(Next(s, Step(t, c)), o)
    ensures !Plan(s, t, c).task.threw
  {
    assert Plan(s, t, c).task.order == s.tasks[t].order && Plan(s, t, c).task.kind == s.tasks[t].kind;
    assert Next(s, Step(t, c)).tasks[t] == Plan(s, t, c).task;
  }

  lemma OwnSpent(s: State, t: TaskId, c: Choice, o: OrderId, calm: bool)
    requires t in s.tasks && OwnTask(s, t) && s.tasks[t].order == Some(o) && o in s.orders
    requires !Unclaimed(s.orders[o]) && SpentTask(s.tasks[t], calm) && (calm ==> Quiet(Next(s, Step(t, c)), o))
    ensures LeavesSpent(s, t, Plan(s, t, c), o, calm)
  {
    if s.tasks[t].kind.Request? { RequestSpent(s, t, c, o, calm); }
    else if s.tasks[t].pc.MarkPaid? {
      CalmStep(s, t, c, o);
      MarkSpent(s, t, c, o);
    } else {
      ClaimSpent(s, t, c, o, calm);
    }
  }

  lemma SpentTurn(s: State, t: TaskId, c: Choice, o: OrderId, calm: bool)
    requires Safe(s) && Spent(s, o, calm) && t in s.tasks && (calm ==> Quiet(Next(s, Step(t, c)), o))
    ensures
      var n := Apply(s, t, Plan(s, t, c));
      Spent(n, o, calm) && Count(n.effects, o) == Count(s.effects, o)
  {
    assert OwnTask(s, t);
    if s.tasks[t].order == Some(o) { OwnSpent(s, t, c, o, calm); } else { OtherSpent(s, t, c, o, calm); }
    SpentApply(s, t, Plan(s, t, c), o, calm);
  }

  lemma OtherSpent(s: State, t: TaskId, c: Choice, o: OrderId, calm: bool)
    requires Safe(s) && t in s.tasks && s.tasks[t].order != Some(o) && o in s.orders && !Unclaimed(s.orders[o])
    ensures LeavesSpent(s, t, Plan(s, t, c), o, calm)
  {
    OtherStep(s, t, c, o);
    assert Told(s, t) && OwnTask(s, t) && OwnRow(s, o) && OwnTask(s, s.orders[o].maker);
    PlanLegal(s, t, c);
    NoNewHolder(s, t, Plan(s, t, c), o);
  }

  lemma SpentNext(s: State, e: Event, o: OrderId, calm: bool)
    requires Safe(s) && Spent(s, o, calm) && (calm ==> Quiet(Next(s, e), o))
    ensures Spent(Next(s, e), o, calm) && Count(Next(s, e).effects, o) == Count(s.effects, o)
  {
    if e.Step? {
      if e.task in s.tasks { SpentTurn(s, e.task, e.choice, o, calm); }
    } else {
      SpentBeside(s, e, o, calm);
    }
  }

  lemma SpentBeside(s: State, e: Event, o: OrderId, calm: bool)
    requires Spent(s, o, calm) && !e.Step?
    ensures Spent(Next(s, e), o, calm) && Next(s, e).effects == s.effects
  {
  }

  lemma QuietBack(s: State, e: Event, o: OrderId)
    requires Safe(s) && ClaimsWon(s) && Quiet(Next(s, e), o)
    ensures Quiet(s, o)
  {
    AllStay(s, e);
    forall t | t in s.tasks && Notified(s.tasks[t], o) ensures !s.tasks[t].threw {
      assert SameHandler(s.tasks[t], Next(s, e).tasks[t]);
    }
  }

  lemma {:induction false} SpentStays(s: State, more: seq<Event>, o: OrderId, calm: bool)
    requires Safe(s) && ClaimsWon(s) && Spent(s, o, calm) && (calm ==> Quiet(Run(s, more), o))
    ensures
      var n := Run(s, more);
      Safe(n) && ClaimsWon(n) && Spent(n, o, calm) && Count(n.effects, o) == Count(s.effects, o)
    decreases |more|
  {
    if more != [] {
      var front, e := more[..|more| - 1], more[|more| - 1];
      SafeOn(s, front);
      if calm { QuietBack(Run(s, front), e, o); }
      SpentStays(s, front, o, calm);
      NextSafe(Run(s, front), e);
      NextClaims(Run(s, front), e);
      SpentNext(Run(s, front), e, o, calm);
    }
  }

  lemma {:induction false} SafeOn(s: State, more: seq<Event>)
    requires Safe(s) && ClaimsWon(s)
    ensures Safe(Run(s, more)) && ClaimsWon(Run(s, more))
  {
    if more != [] {
      SafeOn(s, more[..|more| - 1]);
      NextSafe(Run(s, more[..|more| - 1]), more[|more| - 1]);
      NextClaims(Run(s, more[..|more| - 1]), more[|more| - 1]);
    }
  }

  lemma ClosedIsSpent(s: State, o: OrderId, ride: RideId, calm: bool)
    requires Safe(s) && Honest(s) && AllExtensions(s) && IsExtension(s, o, ride) && Got(s, o)
    requires (calm ==> Quiet(s, o)) && !OpenTo(s, o, calm)
    ensures Spent(s, o, calm)
  {
    MakerStands(s, o, ride);
    forall t | t in s.tasks && s.tasks[t].order == Some(o) ensures SpentTask(s.tasks[t], calm) {
      Holders(s, o, t);
      if Notified(s.tasks[t], o) { NoticeStands(s, o, ride, t); }
    }
  }

  /** From any reachable state, a captured extension payment can extend its ride again exactly
      when its order can still be claimed, its request has not extended yet, or a notification
      stands where it may. With `calm`, only continuations without an exception in a notification
      of the order count; without it, a notification that has extended may still throw, and with
      that opens the order to the next. */
  lemma ExtendsAgainIff(s: State, o: OrderId, ride: RideId, calm: bool)
    requires Reachable(s) && IsExtension(s, o, ride) && Got(s, o) && (calm ==> Quiet(s, o))
    ensures ExtendsOn(s, o, calm) <==> OpenTo(s, o, calm)
  {
    ReachableKeeps(s);
    if OpenTo(s, o, calm) {
      OpenExtends(s, o, ride, calm);
    } else {
      ClosedIsSpent(s, o, ride, calm);
      forall n | MayLead(s, n, o, calm) ensures Count(n.effects, o) == Count(s.effects, o) {
        var more :| Continues(s, n, {}, more);
        SpentStays(s, more, o, calm);
      }
    }
  }
}
