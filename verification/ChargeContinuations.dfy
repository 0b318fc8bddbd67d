/** What can still happen from a reachable state: which further extensions a captured payment may
    buy, and whether a captured order can still be settled. */
module ChargeContinuations {
  import opened Options
  import opened RidePayment
  import opened Text
  import opened ChargeProtocol
  import opened ChargeInvariants
  import opened ChargeTruth
  import opened ChargeEffects
  import opened ChargeExtensions
  import opened ChargeOutcomes

  /** Handlers whose process has died take no step. */
  ghost predicate Spares(events: seq<Event>, dead: set<TaskId>) {
    forall e :: e in events && e.Step? ==> e.task !in dead
  }

  ghost predicate Continues(s: State, n: State, dead: set<TaskId>, more: seq<Event>) {
    TruthfulFrom(s, more) && Spares(more, dead) && Run(s, more) == n
  }

  /** A truthful continuation that spares `dead` leads from `s` to `n`. */
  ghost predicate Leads(s: State, n: State, dead: set<TaskId>) {
    exists more :: Continues(s, n, dead, more)
  }

  ghost predicate Reaches(events: seq<Event>, s: State) { TruthfulRun(events) && Run(Empty, events) == s }

  ghost predicate Reachable(s: State) { exists events :: Reaches(events, s) }

  lemma LeadsSelf(s: State, dead: set<TaskId>)
    ensures Leads(s, s, dead)
  {
    assert Continues(s, s, dead, []);
  }

  lemma LeadsNext(s: State, n: State, dead: set<TaskId>, e: Event)
    requires Leads(s, n, dead) && Truthful(n, e) && (e.Step? ==> e.task !in dead)
    ensures Leads(s, Next(n, e), dead)
  {
    var more :| Continues(s, n, dead, more);
    var longer := more + [e];
    assert longer[..|longer| - 1] == more;
    assert Continues(s, Next(n, e), dead, longer);
  }

  lemma LeadsBy(s: State, e: Event)
    requires Truthful(s, e)
    ensures Leads(s, Next(s, e), {})
  {
    LeadsSelf(s, {});
    LeadsNext(s, s, {}, e);
  }

  lemma {:induction false} TruthfulInTwoParts(s: State, first: seq<Event>, second: seq<Event>)
    requires TruthfulFrom(s, first) && TruthfulFrom(Run(s, first), second)
    ensures TruthfulFrom(s, first + second)
    decreases |second|
  {
    var all := first + second;
    if second == [] {
      assert all == first;
    } else {
      var front, e := second[..|second| - 1], second[|second| - 1];
      assert all[..|all| - 1] == first + front && all[|all| - 1] == e;
      TruthfulInTwoParts(s, first, front);
      RunInTwoParts(s, first, front);
      assert Truthful(Run(s, first + front), e);
    }
  }

  lemma ReachableOn(s: State, n: State, dead: set<TaskId>)
    requires Reachable(s) && Leads(s, n, dead)
    ensures Reachable(n)
  {
    var events :| Reaches(events, s);
    var more :| Continues(s, n, dead, more);
    TruthfulInTwoParts(Empty, events, more);
    RunInTwoParts(Empty, events, more);
    assert Reaches(events + more, n);
  }

  lemma ReachableNext(s: State, e: Event)
    requires Reachable(s) && Truthful(s, e)
    ensures Reachable(Next(s, e))
  {
    LeadsSelf(s, {});
    LeadsNext(s, s, {}, e);
    ReachableOn(s, Next(s, e), {});
  }

  lemma ReachableEmpty()
    ensures Reachable(Empty)
  {
    assert Reaches([], Empty);
  }

  lemma ReachableKeeps(s: State)
    requires Reachable(s)
    ensures Safe(s) && Honest(s) && ClaimsWon(s) && AllExtensions(s)
  {
    var events :| Reaches(events, s);
    RunSafe(events);
    RunHonest(events);
    RunClaims(events);
    RunAll(events);
  }

  lemma Confirmed()
    ensures Classify("CONFIRMED", None) == Succeeded
  {
    assert Trim("CONFIRMED") == "CONFIRMED";
    assert Upper("CONFIRMED") == "CONFIRMED";
  }

  lemma {:induction false} FreshTask(used: set<TaskId>) returns (t: TaskId)
    ensures forall u :: u in used ==> u < t
    decreases |used|
  {
    if used == {} {
      t := 0;
    } else {
      var x :| x in used;
      var rest := FreshTask(used - {x});
      t := if rest > x then rest else x + 1;
      forall u | u in used ensures u < t {
        if u != x { assert u in used - {x}; }
      }
    }
  }

  // ---------- single steps of a notification ----------

  function Arrived(spec: Spec, o: OrderId): Task {
    Task(Notice(Succeeded), spec, Some(o), false, 0, false, false, None, Claim)
  }

  function Won(row: Order, o: OrderId): Task {
    Task(Notice(Succeeded), row.spec, Some(o), false, 0, true, false, row.rideId, EffectPc(row.overage, row.rideId))
  }

  const Capture: string := "CONFIRMED"

  lemma NoticeArrives(s: State, o: OrderId, t: TaskId)
    requires o in s.orders && Got(s, o) && s.orders[o].status != Paid && t !in s.tasks
    ensures
      var e := Notify(t, o, Capture, None);
      Truthful(s, e) && Next(s, e) == s.(tasks := s.tasks[t := Arrived(s.orders[o].spec, o)])
  {
    Confirmed();
  }

  lemma NoticeClaims(s: State, o: OrderId, t: TaskId)
    requires o in s.orders && Unclaimed(s.orders[o]) && t in s.tasks && s.tasks[t] == Arrived(s.orders[o].spec, o)
    ensures Next(s, Step(t, Go))
         == s.(tasks := s.tasks[t := Won(s.orders[o], o)],
               orders := s.orders[o := s.orders[o].(status := Processing)])
  {
  }

  lemma HandlerExtends(s: State, o: OrderId, t: TaskId, ride: RideId)
    requires o in s.orders && t in s.tasks && s.tasks[t].order == Some(o)
    requires s.tasks[t].pc.Extend? && s.tasks[t].target == Some(ride)
    ensures Next(s, Step(t, Go))
         == s.(tasks := s.tasks[t := s.tasks[t].(pc := MarkPaid(None, true))],
               effects := s.effects + [Extended(o, ride, t)])
  {
  }

  lemma HandlerFinds(s: State, o: OrderId, t: TaskId)
    requires o in s.orders && t in s.tasks && s.tasks[t].order == Some(o)
    requires s.tasks[t].pc.FindRide? && s.orders[o].spec.bike !in s.active
    ensures Next(s, Step(t, Go)) == s.(tasks := s.tasks[t := s.tasks[t].(pc := BeginRide)])
  {
  }

  lemma HandlerStarts(s: State, o: OrderId, t: TaskId)
    requires o in s.orders && t in s.tasks && s.tasks[t].order == Some(o)
    requires s.tasks[t].pc.BeginRide? && s.orders[o].spec.bike !in s.active
    ensures
      var bike := s.orders[o].spec.bike;
      Next(s, Step(t, Go))
      == s.(tasks := s.tasks[t := s.tasks[t].(pc := MarkPaid(Some(s.nextRide), true))],
            effects := s.effects + [Started(o, s.nextRide, bike)],
            active := s.active[bike := ActiveRide(s.tasks[t].spec.key.user, s.nextRide)],
            nextRide := s.nextRide + 1)
  {
  }

  lemma HandlerMarks(s: State, o: OrderId, t: TaskId)
    requires o in s.orders && t in s.tasks && s.tasks[t].order == Some(o) && s.tasks[t].pc.MarkPaid?
    ensures
      var n := Next(s, Step(t, Go));
      && t in n.tasks && n.tasks[t].pc.Done?
      && n == s.(tasks := s.tasks[t := s.tasks[t].(pc := n.tasks[t].pc)],
                 orders := s.orders[o := PaidRow(s.orders[o], s.tasks[t].pc)])
  {
  }

  lemma ReplyCaptured(s: State, o: OrderId, t: TaskId)
    requires o in s.orders && Got(s, o) && t in s.tasks && s.tasks[t].order == Some(o)
    requires s.tasks[t].kind.Request? && !s.tasks[t].IsOverage() && s.tasks[t].pc.AwaitCharge?
    ensures
      var e := Step(t, ChargeReply(Capture, None));
      var ride := RouteRide(s.tasks[t].kind);
      && Truthful(s, e)
      && Next(s, e) == s.(tasks := s.tasks[t := s.tasks[t].(target := ride, pc := EffectPc(false, ride))])
  {
    Confirmed();
  }

  lemma NoticeThrows(s: State, o: OrderId, t: TaskId)
    requires o in s.orders && t in s.tasks && Notified(s.tasks[t], o) && ForPaid(s.tasks[t].pc)
    ensures Next(s, Step(t, Throws)) == s.(tasks := s.tasks[t := s.tasks[t].(threw := true, pc := Release)])
  {
  }

  lemma NoticeReleases(s: State, o: OrderId, t: TaskId)
    requires o in s.orders && t in s.tasks && s.tasks[t].order == Some(o) && s.tasks[t].pc.Release?
    ensures Next(s, Step(t, Go))
         == s.(tasks := s.tasks[t := s.tasks[t].(pc := Done(NoOrder))],
               orders := s.orders[o := s.orders[o].(status := Pending)])
  {
  }

  // ---------- settling a captured order ----------

  ghost predicate SettlesOn(s: State, o: OrderId, dead: set<TaskId>) {
    exists n :: Leads(s, n, dead) && o in n.orders && n.orders[o].status == Paid
  }

  lemma SettlesAfter(s: State, e: Event, o: OrderId, dead: set<TaskId>)
    requires Truthful(s, e) && (e.Step? ==> e.task !in dead) && SettlesOn(Next(s, e), o, dead)
    ensures SettlesOn(s, o, dead)
  {
    var n :| Leads(Next(s, e), n, dead) && o in n.orders && n.orders[o].status == Paid;
    LeadsSelf(s, dead);
    LeadsNext(s, s, dead, e);
    LeadsOn(s, Next(s, e), n, dead);
  }

  lemma LeadsOn(s: State, m: State, n: State, dead: set<TaskId>)
    requires Leads(s, m, dead) && Leads(m, n, dead)
    ensures Leads(s, n, dead)
  {
    var first :| Continues(s, m, dead, first);
    var second :| Continues(m, n, dead, second);
    TruthfulInTwoParts(s, first, second);
    RunInTwoParts(s, first, second);
    assert Continues(s, n, dead, first + second);
  }

  /** A handler at its last write marks the order paid. */
  lemma MarkSettles(s: State, t: TaskId, o: OrderId, dead: set<TaskId>)
    requires o in s.orders && t in s.tasks && t !in dead && s.tasks[t].order == Some(o) && s.tasks[t].pc.MarkPaid?
    ensures SettlesOn(s, o, dead)
  {
    var n := Next(s, Step(t, Go));
    assert o in n.orders && n.orders[o].status == Paid;
    LeadsSelf(s, dead);
    LeadsNext(s, s, dead, Step(t, Go));
  }

  lemma BeginSettles(s: State, t: TaskId, o: OrderId, dead: set<TaskId>)
    requires o in s.orders && t in s.tasks && t !in dead && s.tasks[t].order == Some(o)
    requires s.tasks[t].pc.BeginRide? || s.tasks[t].pc.Extend?
    ensures SettlesOn(s, o, dead)
  {
    var n := Next(s, Step(t, Refuse));
    assert n == s.(tasks := s.tasks[t := s.tasks[t].(pc := MarkPaid(None, false))]);
    MarkSettles(n, t, o, dead);
    SettlesAfter(s, Step(t, Refuse), o, dead);
  }

  lemma FindSettles(s: State, t: TaskId, o: OrderId, dead: set<TaskId>)
    requires o in s.orders && t in s.tasks && t !in dead && s.tasks[t].order == Some(o) && s.tasks[t].pc.FindRide?
    ensures SettlesOn(s, o, dead)
  {
    var n := Next(s, Step(t, Go));
    assert o in n.orders && t in n.tasks && n.tasks[t].order == Some(o);
    if n.tasks[t].pc.MarkPaid? { MarkSettles(n, t, o, dead); } else { BeginSettles(n, t, o, dead); }
    SettlesAfter(s, Step(t, Go), o, dead);
  }

  lemma HolderSettles(s: State, t: TaskId, o: OrderId, dead: set<TaskId>)
    requires o in s.orders && t in s.tasks && t !in dead && s.tasks[t].order == Some(o) && ForPaid(s.tasks[t].pc)
    ensures SettlesOn(s, o, dead)
  {
    if s.tasks[t].pc.MarkPaid? { MarkSettles(s, t, o, dead); }
    else if s.tasks[t].pc.FindRide? { FindSettles(s, t, o, dead); }
    else { BeginSettles(s, t, o, dead); }
  }

  /** A captured order that can be claimed is settled by a notification that arrives now. */
  lemma ClaimSettles(s: State, o: OrderId, dead: set<TaskId>)
    requires o in s.orders && Got(s, o) && Unclaimed(s.orders[o])
    ensures SettlesOn(s, o, dead)
  {
    var t := FreshTask(s.tasks.Keys + dead);
    assert t !in s.tasks && t !in dead;
    NoticeArrives(s, o, t);
    var m := Next(s, Notify(t, o, Capture, None));
    NoticeClaims(m, o, t);
    var n := Next(m, Step(t, Go));
    HolderSettles(n, t, o, dead);
    SettlesAfter(m, Step(t, Go), o, dead);
    SettlesAfter(s, Notify(t, o, Capture, None), o, dead);
  }

  lemma ReleaseSettles(s: State, t: TaskId, o: OrderId, dead: set<TaskId>)
    requires o in s.orders && Got(s, o) && t in s.tasks && t !in dead
    requires s.tasks[t].order == Some(o) && s.tasks[t].pc.Release?
    ensures SettlesOn(s, o, dead)
  {
    NoticeReleases(s, o, t);
    ClaimSettles(Next(s, Step(t, Go)), o, dead);
    SettlesAfter(s, Step(t, Go), o, dead);
  }

  lemma FailureSettles(s: State, t: TaskId, o: OrderId, dead: set<TaskId>)
    requires o in s.orders && Got(s, o) && t in s.tasks && t !in dead
    requires s.tasks[t].order == Some(o) && s.tasks[t].pc.MarkFailed?
    ensures SettlesOn(s, o, dead)
  {
    var n := Next(s, Step(t, Go));
    assert o in n.orders && n.orders[o].status == Failed && n.payments == s.payments;
    ClaimSettles(n, o, dead);
    SettlesAfter(s, Step(t, Go), o, dead);
  }

  lemma ReplyMoves(s: State, t: TaskId, o: OrderId)
    requires o in s.orders && Got(s, o) && t in s.tasks && s.tasks[t].order == Some(o) && s.tasks[t].pc.AwaitCharge?
    ensures
      var e := Step(t, ChargeReply(Capture, None));
      var n := Next(s, e);
      Truthful(s, e) && o in n.orders && t in n.tasks && n.tasks[t].order == Some(o) && ForPaid(n.tasks[t].pc)
  {
    Confirmed();
  }

  lemma ReplySettles(s: State, t: TaskId, o: OrderId, dead: set<TaskId>)
    requires o in s.orders && Got(s, o) && t in s.tasks && t !in dead
    requires s.tasks[t].order == Some(o) && s.tasks[t].pc.AwaitCharge?
    ensures SettlesOn(s, o, dead)
  {
    var e := Step(t, ChargeReply(Capture, None));
    ReplyMoves(s, t, o);
    HolderSettles(Next(s, e), t, o, dead);
    SettlesAfter(s, e, o, dead);
  }

  lemma SendSettles(s: State, t: TaskId, o: OrderId, dead: set<TaskId>)
    requires o in s.orders && Got(s, o) && t in s.tasks && t !in dead
    requires s.tasks[t].order == Some(o) && s.tasks[t].pc.Charge?
    ensures SettlesOn(s, o, dead)
  {
    var n := Next(s, Step(t, Go));
    assert o in n.orders && Got(n, o) && n.tasks[t] == s.tasks[t].(pc := AwaitCharge);
    ReplySettles(n, t, o, dead);
    SettlesAfter(s, Step(t, Go), o, dead);
  }

  lemma PersistSettles(s: State, t: TaskId, o: OrderId, dead: set<TaskId>)
    requires o in s.orders && Got(s, o) && t in s.tasks && t !in dead
    requires s.tasks[t].order == Some(o) && s.tasks[t].pc.Persist? && !s.tasks[t].IsHosted()
    ensures SettlesOn(s, o, dead)
  {
    var n := Next(s, Step(t, Go));
    assert o in n.orders && n.payments == s.payments && n.tasks[t] == s.tasks[t].(pc := Charge);
    SendSettles(n, t, o, dead);
    SettlesAfter(s, Step(t, Go), o, dead);
  }

  /** A handler that will not touch the order any more: done, about to lose a claim, or a hosted
      request that only has its PaymentId to write down. */
  predicate Idle(task: Task) {
    task.pc.Done? || task.pc.Claim? || (task.IsHosted() && task.pc.Persist?)
  }

  /** An order being processed whose live handlers are all idle. */
  predicate Stuck(s: State, o: OrderId, dead: set<TaskId>) {
    && o in s.orders && s.orders[o].status == Processing
    && forall t :: t in s.tasks && t !in dead && s.tasks[t].order == Some(o) ==> Idle(s.tasks[t])
  }

  /** Where a live handler of a captured order can stand. */
  lemma BusyHolder(s: State, t: TaskId, o: OrderId)
    requires Safe(s) && Honest(s) && o in s.orders && Got(s, o)
    requires t in s.tasks && s.tasks[t].order == Some(o) && !Idle(s.tasks[t])
    ensures
      var pc := s.tasks[t].pc;
      || ForPaid(pc) || pc.Release? || pc.MarkFailed? || pc.AwaitCharge? || pc.Charge?
      || (pc.Persist? && !s.tasks[t].IsHosted())
  {
    assert OwnTask(s, t) && HonestTask(s, t) && OwnRow(s, o);
    var maker := s.orders[o].maker;
    assert OwnTask(s, maker);
    if s.tasks[t].kind.Request? { assert t == maker; }
  }

  lemma BusySettles(s: State, t: TaskId, o: OrderId, dead: set<TaskId>)
    requires Safe(s) && Honest(s) && o in s.orders && Got(s, o) && t !in dead
    requires t in s.tasks && s.tasks[t].order == Some(o) && !Idle(s.tasks[t])
    ensures SettlesOn(s, o, dead)
  {
    BusyHolder(s, t, o);
    var pc := s.tasks[t].pc;
    if ForPaid(pc) { HolderSettles(s, t, o, dead); }
    else if pc.Release? { ReleaseSettles(s, t, o, dead); }
    else if pc.MarkFailed? { FailureSettles(s, t, o, dead); }
    else if pc.AwaitCharge? { ReplySettles(s, t, o, dead); }
    else if pc.Charge? { SendSettles(s, t, o, dead); }
    else { PersistSettles(s, t, o, dead); }
  }

  // ---------- an order whose claimant died ----------

  /** A stuck order on which not even a hosted request has a write to make. */
  predicate Wedged(s: State, o: OrderId, dead: set<TaskId>) {
    && o in s.orders && s.orders[o].status == Processing
    && forall t :: t in s.tasks && t !in dead && s.tasks[t].order == Some(o) ==>
         s.tasks[t].pc.Claim? || s.tasks[t].pc.Done?
  }

  /** The row, but for its PaymentId. */
  predicate SameRow(a: Order, b: Order) { b == a.(paymentId := b.paymentId) }

  /** A step of an idle handler of an order being processed: no effect, no settling write. */
  lemma IdleStep(s: State, t: TaskId, c: Choice, o: OrderId)
    requires t in s.tasks && OwnTask(s, t) && s.tasks[t].order == Some(o) && o in s.orders
    requires s.orders[o].status == Processing && Idle(s.tasks[t])
    ensures
      var d := Plan(s, t, c);
      && d.effect.None? && d.task.pc.Done? && d.task.order == Some(o)
      && (d.write.NoWrite? || (d.write.SetPaymentId? && s.tasks[t].pc.Persist?))
  {
  }

  /** What a step must be like to leave a stuck order stuck. */
  predicate LeavesStuck(s: State, t: TaskId, d: Delta, o: OrderId)
    requires o in s.orders && t in s.tasks
  {
    && (d.task.order == Some(o) ==> Idle(d.task) && d.task.pc.Done?)
    && (d.effect.Some? ==> d.effect.value.order != o)
    && o in Apply(s, t, d).orders && SameRow(s.orders[o], Apply(s, t, d).orders[o])
    && (s.tasks[t].order != Some(o) || !s.tasks[t].pc.Persist? ==> Apply(s, t, d).orders[o] == s.orders[o])
  }

  lemma OwnIdleStep(s: State, t: TaskId, c: Choice, o: OrderId)
    requires t in s.tasks && OwnTask(s, t) && s.tasks[t].order == Some(o) && o in s.orders
    requires s.orders[o].status == Processing && Idle(s.tasks[t])
    ensures LeavesStuck(s, t, Plan(s, t, c), o)
  {
    IdleStep(s, t, c, o);
  }

  lemma OtherStep(s: State, t: TaskId, c: Choice, o: OrderId)
    requires Safe(s) && t in s.tasks && s.tasks[t].order != Some(o) && o in s.orders
    ensures LeavesStuck(s, t, Plan(s, t, c), o)
  {
    assert Told(s, t) && OwnTask(s, t) && OwnRow(s, o);
    assert OwnTask(s, s.orders[o].maker);
    PlanLegal(s, t, c);
    PlanSourced(s, t, c);
    WriteFrame(s, t, Plan(s, t, c));
    OtherDelta(s, t, Plan(s, t, c), o);
  }

  lemma OtherDelta(s: State, t: TaskId, d: Delta, o: OrderId)
    requires t in s.tasks && OwnTask(s, t) && s.tasks[t].order != Some(o) && o in s.orders && o < s.nextOrder
    requires SameTask(s, s.tasks[t], d) && InPlace(s.tasks[t], d)
    requires !d.write.InsertRow? && !d.write.NoWrite? ==> s.tasks[t].owned || s.tasks[t].kind.Notice?
    requires o in Apply(s, t, d).orders && (o != Id(d.task) ==> Apply(s, t, d).orders[o] == s.orders[o])
    requires d.write.InsertRow? ==> Id(d.task) !in s.orders
    ensures LeavesStuck(s, t, d, o)
  {
  }

  lemma StuckApply(s: State, t: TaskId, d: Delta, o: OrderId, dead: set<TaskId>)
    requires Stuck(s, o, dead) && t in s.tasks && t !in dead && LeavesStuck(s, t, d, o)
    ensures
      var n := Apply(s, t, d);
      && Stuck(n, o, dead) && SameRow(s.orders[o], n.orders[o]) && (Bought(n, o) <==> Bought(s, o))
      && (Wedged(s, o, dead) ==> Wedged(n, o, dead) && n.orders[o] == s.orders[o])
  {
    SameBought(s, Apply(s, t, d), o);
  }

  lemma StuckStep(s: State, t: TaskId, c: Choice, o: OrderId, dead: set<TaskId>)
    requires Safe(s) && Stuck(s, o, dead) && t in s.tasks && t !in dead
    ensures
      var n := Apply(s, t, Plan(s, t, c));
      && Stuck(n, o, dead) && SameRow(s.orders[o], n.orders[o]) && (Bought(n, o) <==> Bought(s, o))
      && (Wedged(s, o, dead) ==> Wedged(n, o, dead) && n.orders[o] == s.orders[o])
  {
    assert OwnTask(s, t);
    if s.tasks[t].order == Some(o) { OwnIdleStep(s, t, c, o); } else { OtherStep(s, t, c, o); }
    StuckApply(s, t, Plan(s, t, c), o, dead);
  }

  lemma StuckNext(s: State, e: Event, o: OrderId, dead: set<TaskId>)
    requires Safe(s) && Stuck(s, o, dead) && (e.Step? ==> e.task !in dead)
    ensures
      var n := Next(s, e);
      && Stuck(n, o, dead) && SameRow(s.orders[o], n.orders[o]) && (Bought(n, o) <==> Bought(s, o))
      && (Wedged(s, o, dead) ==> Wedged(n, o, dead) && n.orders[o] == s.orders[o])
  {
    if e.Step? {
      if e.task in s.tasks { StuckStep(s, e.task, e.choice, o, dead); }
    } else {
      StuckBeside(s, e, o, dead);
    }
  }

  lemma StuckBeside(s: State, e: Event, o: OrderId, dead: set<TaskId>)
    requires Stuck(s, o, dead) && !e.Step?
    ensures
      var n := Next(s, e);
      Stuck(n, o, dead) && n.orders == s.orders && n.effects == s.effects && (Wedged(s, o, dead) ==> Wedged(n, o, dead))
  {
  }

  /** A process that dies between the claim and the last write takes the order with it: no later
      notification, retry or request ever changes its row, but for the PaymentId that a hosted
      request may still have to write, or brings the rider what was paid for. */
  lemma {:induction false} DeadClaimWedgesOrder(s: State, events: seq<Event>, o: OrderId, dead: set<TaskId>)
    requires Safe(s) && Stuck(s, o, dead) && Spares(events, dead)
    ensures
      var n := Run(s, events);
      && Safe(n) && Stuck(n, o, dead) && SameRow(s.orders[o], n.orders[o]) && (Bought(n, o) <==> Bought(s, o))
      && (Wedged(s, o, dead) ==> Wedged(n, o, dead) && n.orders[o] == s.orders[o])
  {
    if events != [] {
      var before := events[..|events| - 1];
      DeadClaimWedgesOrder(s, before, o, dead);
      assert events[|events| - 1] in events;
      NextSafe(Run(s, before), events[|events| - 1]);
      StuckNext(Run(s, before), events[|events| - 1], o, dead);
    }
  }

  lemma StuckForGood(s: State, n: State, o: OrderId, dead: set<TaskId>)
    requires Safe(s) && Stuck(s, o, dead) && Leads(s, n, dead)
    ensures o in n.orders && n.orders[o].status == Processing
  {
    var more :| Continues(s, n, dead, more);
    DeadClaimWedgesOrder(s, more, o, dead);
  }

  /** However many handlers have died, a captured order that is not paid can still be settled, by
      a notification that arrives or a handler that goes on, exactly unless it is being processed
      and every live handler of it is idle. */
  lemma CapturedOrderSettlesIff(s: State, o: OrderId, dead: set<TaskId>)
    requires Reachable(s) && o in s.orders && Got(s, o) && s.orders[o].status != Paid
    ensures SettlesOn(s, o, dead) <==> !Stuck(s, o, dead)
  {
    ReachableKeeps(s);
    if Stuck(s, o, dead) {
      forall n | Leads(s, n, dead) ensures o in n.orders && n.orders[o].status == Processing {
        StuckForGood(s, n, o, dead);
      }
    } else if Unclaimed(s.orders[o]) {
      ClaimSettles(s, o, dead);
    } else {
      var t :| t in s.tasks && t !in dead && s.tasks[t].order == Some(o) && !Idle(s.tasks[t]);
      BusySettles(s, t, o, dead);
    }
  }
}
