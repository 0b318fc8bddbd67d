/** How the status of an order changes over a run: what fails it, what reopens it, and what is
    left of it when a call of its request is lost. */
module ChargeOutcomes {
  import opened Options
  import opened RidePayment
  import opened ChargeProtocol
  import opened ChargeInvariants
  import opened ChargeTruth

  /** A notification past its claim has won it, and one of no terminal outcome never claims. */
  predicate ClaimsFirst(task: Task) {
    task.kind.Notice? ==>
      (task.pc.Claim? || task.pc.Done? || task.claimed) && (task.kind.outcome == InFlight ==> task.pc.Done?)
  }

  predicate Settles(w: Write) { w.SetStatus? || w.SetPaid? }

  /** Why a handler goes on to mark its order failed. */
  predicate Refusal(task: Task, c: Choice) {
    || (task.pc.CallInit? && !c.InitOk? && !c.LostInit? && !c.Throws?)
    || (task.pc.AwaitCharge? && c.ChargeReply? && Classify(c.status, c.success) == Rejected)
    || (task.pc.Claim? && task.kind == Notice(Rejected))
    || (task.IsOverage() && (c.Throws? || c.Late? || c.LostInit?))
  }

  /** What a step does to a status, and on whose account. */
  predicate Accounts(task: Task, c: Choice, d: Delta) {
    && (task.kind.Notice? && Settles(d.write) ==> d.task.claimed)
    && (task.kind.Notice? ==> d.task.claimed || d.task.pc.Done? || d.task.pc.Claim?)
    && (task.claimed ==> d.task.claimed) && (task.threw ==> d.task.threw)
    && (task.kind.Request? && Settles(d.write) ==> AtSettle(task.pc) && !AtAcquirer(d.task.pc))
    && (d.task.pc.MarkFailed? && !task.pc.MarkFailed? ==> Refusal(task, c))
    && (d.write == SetStatus(Failed) ==> task.pc.MarkFailed?)
    && (task.owned && AtAcquirer(d.task.pc) ==> AtAcquirer(task.pc))
  }

  lemma EnterAccounts(s: State, task: Task, c: Choice)
    requires WellPlaced(task) && (task.pc.Validate? || task.pc.Insert?)
    ensures Accounts(task, c, PlanReserve(s, task, c))
  {
  }

  lemma LookupAccounts(s: State, task: Task, c: Choice)
    requires WellPlaced(task) && (task.pc.Lookup? || task.pc.ReserveLookup? || task.pc.Reread?)
    ensures Accounts(task, c, PlanReserve(s, task, c))
  {
  }

  lemma AcquirerAccounts(task: Task, o: OrderId, c: Choice)
    requires WellPlaced(task) && AtAcquirer(task.pc)
    ensures Accounts(task, c, if task.pc.CallInit? then PlanInit(task, c) else PlanPay(task, o, c))
  {
  }

  lemma ThrowAccounts(task: Task)
    requires Settling(task) && ClaimsFirst(task)
    ensures Accounts(task, Throws, PlanThrow(task))
  {
  }

  lemma ClaimAccounts(task: Task, row: Order, c: Choice)
    requires Settling(task) && ClaimsFirst(task) && task.pc.Claim?
    ensures Accounts(task, c, PlanClaim(task, row))
  {
  }

  lemma EffectAccounts(s: State, task: Task, row: Order, t: TaskId, o: OrderId, c: Choice)
    requires Settling(task) && ClaimsFirst(task) && (task.pc.FindRide? || task.pc.BeginRide? || task.pc.Extend?)
    ensures Accounts(task, c, PlanEffect(s, task, row, t, o, c))
  {
  }

  lemma MarkAccounts(task: Task, o: OrderId, c: Choice)
    requires Settling(task) && ClaimsFirst(task) && (task.pc.MarkPaid? || task.pc.MarkFailed? || task.pc.Release?)
    ensures Accounts(task, c, PlanMark(task, o, c))
  {
  }

  lemma PlanAccounts(s: State, t: TaskId, c: Choice)
    requires t in s.tasks && OwnTask(s, t) && ClaimsFirst(s.tasks[t])
    ensures Accounts(s.tasks[t], c, Plan(s, t, c))
  {
    var task := s.tasks[t];
    if task.pc.Validate? || task.pc.Insert? { EnterAccounts(s, task, c); }
    else if Reserving(task.pc) { LookupAccounts(s, task, c); }
    else if !task.pc.Done? {
      var o := task.order.value;
      if AtAcquirer(task.pc) { AcquirerAccounts(task, o, c); }
      else if c.Throws? { ThrowAccounts(task); }
      else if task.pc.Claim? { ClaimAccounts(task, s.orders[o], c); }
      else if task.pc.FindRide? || task.pc.BeginRide? || task.pc.Extend? {
        EffectAccounts(s, task, s.orders[o], t, o, c);
      }
      else { MarkAccounts(task, o, c); }
    }
  }

  // ---------- every run ----------

  ghost predicate ClaimsWon(s: State) {
    forall t :: t in s.tasks ==> ClaimsFirst(s.tasks[t])
  }

  lemma StepClaims(s: State, t: TaskId, c: Choice)
    requires Safe(s) && ClaimsWon(s) && t in s.tasks
    ensures ClaimsFirst(Plan(s, t, c).task)
  {
    assert OwnTask(s, t) && Told(s, t);
    PlanAccounts(s, t, c);
    PlanLegal(s, t, c);
    if s.tasks[t].pc.Done? { DoneStays(s, t, c); }
  }

  lemma NextClaims(s: State, e: Event)
    requires Safe(s) && ClaimsWon(s)
    ensures ClaimsWon(Next(s, e))
  {
    if e.Step? && e.task in s.tasks { StepClaims(s, e.task, e.choice); }
  }

  lemma {:induction false} RunClaims(events: seq<Event>)
    ensures ClaimsWon(Run(Empty, events))
  {
    if events != [] {
      RunClaims(events[..|events| - 1]);
      RunSafe(events[..|events| - 1]);
      NextClaims(Run(Empty, events[..|events| - 1]), events[|events| - 1]);
    }
  }

  /** A status changes only under a step of the order's own handler, at a place that settles. */
  lemma StatusTurns(s: State, t: TaskId, c: Choice, o: OrderId)
    requires Safe(s) && ClaimsWon(s) && t in s.tasks && o in s.orders
    ensures var n := Next(s, Step(t, c)); var task := s.tasks[t];
            && o in n.orders && n.orders[o].maker == s.orders[o].maker
            && (n.orders[o].status != s.orders[o].status ==>
                && task.order == Some(o) && Settles(Plan(s, t, c).write)
                && (if task.kind.Notice? then n.tasks[t].claimed else t == s.orders[o].maker))
            && (n.orders[o].status == Failed && s.orders[o].status != Failed ==> task.pc.MarkFailed?)
  {
    assert Told(s, t);
    PlanLegal(s, t, c);
    WriteFrame(s, t, Plan(s, t, c));
    StatusWriter(s, t, c, o);
  }

  lemma StatusWriter(s: State, t: TaskId, c: Choice, o: OrderId)
    requires t in s.tasks && OwnTask(s, t) && ClaimsFirst(s.tasks[t]) && o in s.orders
    requires Legal(s, s.tasks[t], Plan(s, t, c)) && (Plan(s, t, c).write.InsertRow? ==> Id(Plan(s, t, c).task) != o)
    ensures var n := Next(s, Step(t, c)); var task := s.tasks[t];
            && o in n.orders && n.orders[o].maker == s.orders[o].maker
            && (n.orders[o].status != s.orders[o].status ==>
                && task.order == Some(o) && Settles(Plan(s, t, c).write)
                && (if task.kind.Notice? then n.tasks[t].claimed else t == s.orders[o].maker))
            && (n.orders[o].status == Failed && s.orders[o].status != Failed ==> task.pc.MarkFailed?)
  {
    PlanAccounts(s, t, c);
    if s.tasks[t].pc.Done? { DoneStays(s, t, c); }
  }

  // ---------- an order fails only after a refusal ----------

  /** The k-th event of the run is the refusal of a handler of the order. */
  ghost predicate RefusedAt(events: seq<Event>, k: nat, o: OrderId) {
    && k < |events| && events[k].Step?
    && var s := Run(Empty, events[..k]);
       && events[k].task in s.tasks && s.tasks[events[k].task].order == Some(o)
       && Refusal(s.tasks[events[k].task], events[k].choice)
  }

  ghost predicate WasRefused(events: seq<Event>, o: OrderId) { exists k: nat :: RefusedAt(events, k, o) }

  lemma RefusedEarlier(events: seq<Event>, o: OrderId)
    requires events != [] && WasRefused(events[..|events| - 1], o)
    ensures WasRefused(events, o)
  {
    var k: nat :| RefusedAt(events[..|events| - 1], k, o);
    assert events[..|events| - 1][..k] == events[..k];
    assert RefusedAt(events, k, o);
  }

  lemma RefusedNow(events: seq<Event>, t: TaskId, c: Choice, o: OrderId)
    requires events != [] && events[|events| - 1] == Step(t, c)
    requires
      var s := Run(Empty, events[..|events| - 1]);
      t in s.tasks && s.tasks[t].order == Some(o) && Refusal(s.tasks[t], c)
    ensures WasRefused(events, o)
  {
    assert RefusedAt(events, |events| - 1, o);
  }

  /** A handler that is newly about to mark its order failed has just been refused. */
  lemma MarkFailedTurns(s: State, t: TaskId, c: Choice)
    requires Safe(s) && ClaimsWon(s) && t in s.tasks
    ensures
      var d := Plan(s, t, c);
      d.task.pc.MarkFailed? && !s.tasks[t].pc.MarkFailed? ==> Refusal(s.tasks[t], c) && d.task.order == s.tasks[t].order
  {
    assert OwnTask(s, t) && Told(s, t);
    PlanAccounts(s, t, c);
    PlanLegal(s, t, c);
  }

  ghost predicate AllRefused(events: seq<Event>) {
    var s := Run(Empty, events);
    && (forall t :: t in s.tasks && s.tasks[t].pc.MarkFailed? ==> WasRefused(events, Id(s.tasks[t])))
    && (forall o :: o in s.orders && s.orders[o].status == Failed ==> WasRefused(events, o))
  }

  lemma MarkTurns(s: State, e: Event, u: TaskId)
    requires Safe(s) && ClaimsWon(s) && u in Next(s, e).tasks && Next(s, e).tasks[u].pc.MarkFailed?
    ensures u in s.tasks
    ensures
      || (s.tasks[u].pc.MarkFailed? && Id(Next(s, e).tasks[u]) == Id(s.tasks[u]))
      || (e.Step? && e.task == u && s.tasks[u].order == Some(Id(Next(s, e).tasks[u])) && Refusal(s.tasks[u], e.choice))
  {
    if e.Step? && e.task == u && u in s.tasks && !s.tasks[u].pc.MarkFailed? {
      MarkFailedTurns(s, u, e.choice);
      assert OwnTask(s, u);
    } else {
      SameMark(s, e, u);
    }
  }

  lemma RunMarkTurns(before: seq<Event>, e: Event, u: TaskId)
    requires
      var s := Run(Empty, before);
      u in Next(s, e).tasks && Next(s, e).tasks[u].pc.MarkFailed?
    ensures
      var s := Run(Empty, before);
      && u in s.tasks
      && (|| (s.tasks[u].pc.MarkFailed? && Id(Next(s, e).tasks[u]) == Id(s.tasks[u]))
          || (e.Step? && e.task == u && s.tasks[u].order == Some(Id(Next(s, e).tasks[u]))
             && Refusal(s.tasks[u], e.choice)))
  {
    RunSafe(before);
    RunClaims(before);
    MarkTurns(Run(Empty, before), e, u);
  }

  lemma TasksRefused(events: seq<Event>, u: TaskId)
    requires events != [] && AllRefused(events[..|events| - 1])
    requires u in Run(Empty, events).tasks && Run(Empty, events).tasks[u].pc.MarkFailed?
    ensures WasRefused(events, Id(Run(Empty, events).tasks[u]))
  {
    var before, e := events[..|events| - 1], events[|events| - 1];
    RunMarkTurns(before, e, u);
    var s := Run(Empty, before);
    if s.tasks[u].pc.MarkFailed? && Id(Next(s, e).tasks[u]) == Id(s.tasks[u]) {
      RefusedEarlier(events, Id(s.tasks[u]));
    } else {
      RefusedNow(events, u, e.choice, Id(Next(s, e).tasks[u]));
    }
  }

  lemma SameMark(s: State, e: Event, u: TaskId)
    requires Safe(s) && u in Next(s, e).tasks && Next(s, e).tasks[u].pc.MarkFailed?
    requires e.Step? && e.task == u && u in s.tasks ==> s.tasks[u].pc.MarkFailed?
    ensures u in s.tasks && s.tasks[u].pc.MarkFailed? && Id(Next(s, e).tasks[u]) == Id(s.tasks[u])
  {
    if e.Step? && e.task in s.tasks {
      assert Told(s, e.task);
      PlanLegal(s, e.task, e.choice);
    }
  }

  /** An order that is newly failed has a handler that was marking it so. */
  lemma FailedTurns(before: seq<Event>, e: Event, o: OrderId)
    requires
      var s := Run(Empty, before);
      o in Next(s, e).orders && Next(s, e).orders[o].status == Failed
    ensures
      var s := Run(Empty, before);
      || (o in s.orders && s.orders[o].status == Failed)
      || (e.Step? && e.task in s.tasks && s.tasks[e.task].pc.MarkFailed? && Id(s.tasks[e.task]) == o)
  {
    var s := Run(Empty, before);
    RunSafe(before);
    RunClaims(before);
    if e.Step? && e.task in s.tasks {
      if o in s.orders { StatusTurns(s, e.task, e.choice, o); } else { NewRowPending(s, e.task, e.choice, o); }
    }
  }

  lemma OrdersRefused(events: seq<Event>, o: OrderId)
    requires events != [] && AllRefused(events[..|events| - 1])
    requires o in Run(Empty, events).orders && Run(Empty, events).orders[o].status == Failed
    ensures WasRefused(events, o)
  {
    var before := events[..|events| - 1];
    FailedTurns(before, events[|events| - 1], o);
    RefusedKnown(before, o);
    RefusedEarlier(events, o);
  }

  lemma RefusedKnown(events: seq<Event>, o: OrderId)
    requires AllRefused(events)
    requires
      var s := Run(Empty, events);
      || (o in s.orders && s.orders[o].status == Failed)
      || exists t :: t in s.tasks && s.tasks[t].pc.MarkFailed? && Id(s.tasks[t]) == o
    ensures WasRefused(events, o)
  {
  }

  lemma NewRowPending(s: State, t: TaskId, c: Choice, o: OrderId)
    requires Safe(s) && t in s.tasks && o !in s.orders && o in Next(s, Step(t, c)).orders
    ensures Next(s, Step(t, c)).orders[o].status == Pending
    ensures Next(s, Step(t, c)).orders[o].maker == t && Plan(s, t, c).write.InsertRow?
  {
    assert Told(s, t);
    PlanLegal(s, t, c);
    WriteFrame(s, t, Plan(s, t, c));
  }

  lemma {:induction false} RunAllRefused(events: seq<Event>)
    ensures AllRefused(events)
  {
    if events != [] {
      RunAllRefused(events[..|events| - 1]);
      var s := Run(Empty, events);
      forall t | t in s.tasks && s.tasks[t].pc.MarkFailed? ensures WasRefused(events, Id(s.tasks[t])) {
        TasksRefused(events, t);
      }
      forall o | o in s.orders && s.orders[o].status == Failed ensures WasRefused(events, o) {
        OrdersRefused(events, o);
      }
    }
  }

  /** Whatever the acquirer says, an order is failed only after one of its own handlers met a
      rejected Init, a Charge reply or a notification classified as failed, or, for the server's
      own overage charge alone, an exception. */
  lemma FailedOnlyAfterRefusal(events: seq<Event>, o: OrderId)
    requires o in Run(Empty, events).orders && Run(Empty, events).orders[o].status == Failed
    ensures WasRefused(events, o)
  {
    RunAllRefused(events);
  }

  // ---------- a lost call ends the request's part ----------

  /** The row is as it was inserted, unless a notification has won its claim. */
  ghost predicate PendingOrNoticed(s: State, o: OrderId)
    requires o in s.orders
  {
    s.orders[o].status == Pending || exists u :: ClaimedBy(s, o, u)
  }

  /** A handler that keeps its kind, its order, its claim and the exception that left it. */
  predicate SameHandler(a: Task, b: Task) {
    b.kind == a.kind && (a.order.Some? ==> b.order == a.order) && (a.claimed ==> b.claimed) && (a.threw ==> b.threw)
  }

  predicate HandlersStay(s: State, n: State) {
    forall u :: u in s.tasks ==> u in n.tasks && SameHandler(s.tasks[u], n.tasks[u])
  }

  predicate ClaimedBy(s: State, o: OrderId, u: TaskId) {
    u in s.tasks && Notified(s.tasks[u], o) && s.tasks[u].claimed
  }

  lemma NoticedStays(s: State, n: State, o: OrderId, writer: TaskId)
    requires o in s.orders && o in n.orders && PendingOrNoticed(s, o) && HandlersStay(s, n)
    requires n.orders[o].status != s.orders[o].status ==> ClaimedBy(n, o, writer)
    ensures PendingOrNoticed(n, o)
  {
    if u :| ClaimedBy(s, o, u) {
      assert ClaimedBy(n, o, u);
    }
  }

  lemma TasksStay(s: State, e: Event, u: TaskId)
    requires Safe(s) && ClaimsWon(s) && u in s.tasks
    ensures
      var n := Next(s, e);
      && u in n.tasks && SameHandler(s.tasks[u], n.tasks[u])
      && (!(e.Step? && e.task == u) || s.tasks[u].pc.Done? ==> n.tasks[u] == s.tasks[u])
  {
    if e.Step? && e.task == u {
      assert OwnTask(s, u) && Told(s, u);
      PlanAccounts(s, u, e.choice);
      PlanLegal(s, u, e.choice);
      if s.tasks[u].pc.Done? { DoneStays(s, u, e.choice); }
    }
  }

  lemma AllStay(s: State, e: Event)
    requires Safe(s) && ClaimsWon(s)
    ensures HandlersStay(s, Next(s, e))
  {
    forall u | u in s.tasks ensures u in Next(s, e).tasks && SameHandler(s.tasks[u], Next(s, e).tasks[u]) {
      TasksStay(s, e, u);
    }
  }

  /** Unless its maker is about to settle it, only a notification changes an order's status. */
  lemma NoticeTurns(s: State, t: TaskId, c: Choice, o: OrderId)
    requires Safe(s) && ClaimsWon(s) && o in s.orders && t in s.tasks
    requires s.orders[o].maker in s.tasks && !AtSettle(s.tasks[s.orders[o].maker].pc)
    ensures
      var n := Next(s, Step(t, c));
      && o in n.orders && n.orders[o].maker == s.orders[o].maker
      && (n.orders[o].status != s.orders[o].status ==> Notified(s.tasks[t], o) && ClaimedBy(n, o, t))
  {
    StatusTurns(s, t, c, o);
    assert OwnTask(s, t);
    if Settles(Plan(s, t, c).write) { SettlesAtSettle(s, t, c); }
    TasksStay(s, Step(t, c), t);
  }

  lemma NextNoticed(s: State, e: Event, o: OrderId)
    requires Safe(s) && ClaimsWon(s) && o in s.orders && PendingOrNoticed(s, o)
    requires s.orders[o].maker in s.tasks && !AtSettle(s.tasks[s.orders[o].maker].pc)
    ensures
      var n := Next(s, e);
      && o in n.orders && n.orders[o].maker == s.orders[o].maker && PendingOrNoticed(n, o)
      && (n.orders[o].status != s.orders[o].status ==>
            e.Step? && e.task in s.tasks && Notified(s.tasks[e.task], o))
  {
    if e.Step? && e.task in s.tasks { NoticeTurns(s, e.task, e.choice, o); }
    AllStay(s, e);
    NoticedStays(s, Next(s, e), o, if e.Step? then e.task else 0);
  }

  lemma SettlesAtSettle(s: State, t: TaskId, c: Choice)
    requires t in s.tasks && OwnTask(s, t) && ClaimsFirst(s.tasks[t]) && Settles(Plan(s, t, c).write)
    ensures s.tasks[t].kind.Request? ==> AtSettle(s.tasks[t].pc) && !AtAcquirer(Plan(s, t, c).task.pc)
  {
    PlanAccounts(s, t, c);
  }

  /** Until its maker reaches a place that settles, an order is pending or a notification's. */
  ghost predicate Unsettled(s: State) {
    forall o :: o in s.orders && s.orders[o].maker in s.tasks && AtAcquirer(s.tasks[s.orders[o].maker].pc) ==>
      PendingOrNoticed(s, o)
  }

  lemma StillAtAcquirer(s: State, e: Event, t: TaskId)
    requires Safe(s) && ClaimsWon(s) && t in s.tasks && s.tasks[t].owned && t in Next(s, e).tasks
    requires AtAcquirer(Next(s, e).tasks[t].pc)
    ensures AtAcquirer(s.tasks[t].pc)
  {
    assert OwnTask(s, t);
    if e.Step? && e.task == t { PlanAccounts(s, t, e.choice); }
  }

  lemma MakerStays(s: State, e: Event, o: OrderId)
    requires Safe(s) && o in s.orders
    ensures o in Next(s, e).orders && Next(s, e).orders[o].maker == s.orders[o].maker
    ensures s.orders[o].maker in s.tasks && s.tasks[s.orders[o].maker].owned
  {
    assert OwnRow(s, o);
    if e.Step? && e.task in s.tasks {
      assert Told(s, e.task);
      PlanLegal(s, e.task, e.choice);
      WriteFrame(s, e.task, Plan(s, e.task, e.choice));
    }
  }

  lemma OrderUnsettled(s: State, e: Event, o: OrderId)
    requires Safe(s) && ClaimsWon(s) && Unsettled(s) && o in Next(s, e).orders
    requires
      var n := Next(s, e);
      n.orders[o].maker in n.tasks && AtAcquirer(n.tasks[n.orders[o].maker].pc)
    ensures PendingOrNoticed(Next(s, e), o)
  {
    if o in s.orders {
      MakerStays(s, e, o);
      StillAtAcquirer(s, e, s.orders[o].maker);
      NextNoticed(s, e, o);
    } else if e.Step? && e.task in s.tasks {
      NewRowPending(s, e.task, e.choice, o);
    }
  }

  lemma {:induction false} RunUnsettled(events: seq<Event>)
    ensures Unsettled(Run(Empty, events))
  {
    if events != [] {
      var before := events[..|events| - 1];
      RunUnsettled(before);
      RunSafe(before);
      RunClaims(before);
      var n := Run(Empty, events);
      forall o | o in n.orders && n.orders[o].maker in n.tasks && AtAcquirer(n.tasks[n.orders[o].maker].pc)
        ensures PendingOrNoticed(n, o)
      {
        OrderUnsettled(Run(Empty, before), events[|events| - 1], o);
      }
    }
  }

  /** The call of the step is left by an exception, before or after it took effect. */
  predicate CallLost(task: Task, c: Choice) {
    && AtAcquirer(task.pc) && !task.pc.Charge?
    && (c.Throws? || (c.LostInit? && task.pc.CallInit?) || (c.Late? && task.pc.Persist?))
  }

  lemma LostCallStep(s: State, t: TaskId, c: Choice)
    requires t in s.tasks && OwnTask(s, t) && s.tasks[t].kind.Request? && CallLost(s.tasks[t], c)
    ensures !Settles(Plan(s, t, c).write)
    ensures Plan(s, t, c).task.pc == if s.tasks[t].IsOverage() then MarkFailed else Done(NoOrder)
  {
  }

  lemma LostCallKeeps(events: seq<Event>, t: TaskId, c: Choice, o: OrderId)
    requires
      var s := Run(Empty, events);
      && t in s.tasks && s.tasks[t].kind.Request? && !s.tasks[t].IsOverage() && CallLost(s.tasks[t], c)
      && o in s.orders && s.orders[o].maker == t
    ensures
      var n := Next(Run(Empty, events), Step(t, c));
      && t in n.tasks && n.tasks[t].pc == Done(NoOrder) && o in n.orders && n.orders[o].maker == t
      && PendingOrNoticed(n, o)
  {
    var s := Run(Empty, events);
    RunSafe(events);
    RunClaims(events);
    RunUnsettled(events);
    assert OwnTask(s, t);
    LostCallStep(s, t, c);
    assert PendingOrNoticed(s, o);
    NextNoticed(s, Step(t, c), o);
  }

  predicate MakerDone(s: State, t: TaskId, o: OrderId) {
    t in s.tasks && s.tasks[t].pc.Done? && o in s.orders && s.orders[o].maker == t
  }

  lemma DoneMakerStep(events: seq<Event>, e: Event, t: TaskId, o: OrderId)
    requires MakerDone(Run(Empty, events), t, o) && PendingOrNoticed(Run(Empty, events), o)
    ensures
      var s := Run(Empty, events);
      var n := Next(s, e);
      && MakerDone(n, t, o) && PendingOrNoticed(n, o) && n.tasks[t] == s.tasks[t]
      && (n.orders[o].status != s.orders[o].status ==> e.Step? && e.task in s.tasks && Notified(s.tasks[e.task], o))
  {
    RunSafe(events);
    RunClaims(events);
    NextNoticed(Run(Empty, events), e, o);
    TasksStay(Run(Empty, events), e, t);
  }

  lemma {:induction false} DoneMakerKeeps(events: seq<Event>, more: seq<Event>, t: TaskId, o: OrderId)
    requires MakerDone(Run(Empty, events), t, o) && PendingOrNoticed(Run(Empty, events), o)
    ensures
      var n, m := Run(Empty, events), Run(Empty, events + more);
      MakerDone(m, t, o) && PendingOrNoticed(m, o) && m.tasks[t] == n.tasks[t]
    decreases |more|
  {
    var all := events + more;
    if more == [] {
      assert all == events;
    } else {
      assert all[..|all| - 1] == events + more[..|more| - 1];
      DoneMakerKeeps(events, more[..|more| - 1], t, o);
      DoneMakerStep(events + more[..|more| - 1], all[|all| - 1], t, o);
    }
  }

  /** When an acquirer call or the write between them is lost to a charge route, the request is
      over for good: through every continuation it takes no further part, the order it made stays
      pending until a notification has won a claim of it, and only steps of notifications of the
      order change its status. */
  lemma LostCallEndsRequest(events: seq<Event>, t: TaskId, c: Choice, o: OrderId, more: seq<Event>, e: Event)
    requires
      var s := Run(Empty, events);
      && t in s.tasks && s.tasks[t].kind.Request? && !s.tasks[t].IsOverage() && CallLost(s.tasks[t], c)
      && o in s.orders && s.orders[o].maker == t
    ensures
      var m := Run(Empty, events + [Step(t, c)] + more);
      var n := Next(m, e);
      && t in m.tasks && m.tasks[t].pc == Done(NoOrder)
      && o in m.orders && PendingOrNoticed(m, o)
      && o in n.orders
      && (n.orders[o].status != m.orders[o].status ==> e.Step? && e.task in m.tasks && Notified(m.tasks[e.task], o))
  {
    var lost := events + [Step(t, c)];
    assert lost[..|lost| - 1] == events;
    LostCallKeeps(events, t, c, o);
    DoneMakerKeeps(lost, more, t, o);
    DoneMakerStep(lost + more, e, t, o);
  }

  // ---------- captured orders ----------

  lemma MarkFailedWrites(s: State, t: TaskId, c: Choice)
    requires t in s.tasks && OwnTask(s, t) && s.tasks[t].pc.MarkFailed?
    ensures Plan(s, t, c).write == if c.Throws? then NoWrite else SetStatus(Failed)
    ensures s.tasks[t].order.Some? && s.tasks[t].order.value in s.orders && Plan(s, t, c).task.order == s.tasks[t].order
  {
  }

  /** The catch block of a notification writes the row back to pending, unless that write fails
      too. */
  lemma ReleaseWrites(s: State, t: TaskId, c: Choice)
    requires t in s.tasks && OwnTask(s, t) && s.tasks[t].pc.Release?
    ensures Plan(s, t, c).write == if c.Throws? then NoWrite else SetStatus(Pending)
    ensures s.tasks[t].order.Some? && s.tasks[t].order.value in s.orders && Plan(s, t, c).task.order == s.tasks[t].order
  {
  }

  /** The step by which the overage call, left by an exception, marks its order failed. */
  predicate FailsOverage(s: State, e: Event, o: OrderId) {
    && e.Step? && e.task in s.tasks && !e.choice.Throws? && s.tasks[e.task].order == Some(o)
    && s.tasks[e.task].pc.MarkFailed? && ThrownOverage(s.tasks[e.task])
  }

  lemma CapturedMark(s: State, t: TaskId, o: OrderId)
    requires Honest(s) && t in s.tasks && s.tasks[t].pc.MarkFailed? && s.tasks[t].order == Some(o) && Got(s, o)
    ensures ThrownOverage(s.tasks[t])
  {
    assert HonestTask(s, t);
  }

  lemma CapturedFails(s: State, e: Event, o: OrderId)
    requires Safe(s) && ClaimsWon(s) && Honest(s) && o in s.orders && Got(s, o) && s.orders[o].status != Failed
    ensures o in Next(s, e).orders
    ensures Next(s, e).orders[o].status == Failed <==> FailsOverage(s, e, o)
    ensures FailsOverage(s, e, o) ==> e.task == s.orders[o].maker
  {
    if e.Step? && e.task in s.tasks {
      StatusTurns(s, e.task, e.choice, o);
      assert OwnTask(s, e.task);
      if s.tasks[e.task].pc.MarkFailed? && s.tasks[e.task].order == Some(o) {
        MarkFailedTurn(s, e.task, e.choice, o);
        CapturedMark(s, e.task, o);
      }
    } else {
      OrdersOutside(s, e);
    }
  }

  lemma OrdersOutside(s: State, e: Event)
    requires !(e.Step? && e.task in s.tasks)
    ensures Next(s, e).orders == s.orders
  {
  }

  lemma MarkFailedTurn(s: State, t: TaskId, c: Choice, o: OrderId)
    requires t in s.tasks && OwnTask(s, t) && s.tasks[t].pc.MarkFailed? && s.tasks[t].order == Some(o)
    requires o in s.orders && s.orders[o].status != Failed
    ensures o in Next(s, Step(t, c)).orders
    ensures Next(s, Step(t, c)).orders[o].status == Failed <==> !c.Throws?
  {
    MarkFailedWrites(s, t, c);
  }

  /** A captured order becomes failed by one kind of step only, and always by that: its maker is
      the server's own overage call, was left by an exception, and its failure mark gets through. */
  lemma CapturedFailsIff(events: seq<Event>, o: OrderId, e: Event)
    requires TruthfulRun(events)
    requires var s := Run(Empty, events); o in s.orders && Got(s, o) && s.orders[o].status != Failed
    ensures
      var s := Run(Empty, events);
      && o in Next(s, e).orders
      && (Next(s, e).orders[o].status == Failed <==> FailsOverage(s, e, o))
      && (FailsOverage(s, e, o) ==> e.task == s.orders[o].maker)
  {
    RunSafe(events);
    RunClaims(events);
    RunHonest(events);
    CapturedFails(Run(Empty, events), e, o);
  }

  /** The step by which a notification's catch block gives its claim back. */
  predicate Releases(s: State, e: Event, o: OrderId) {
    && e.Step? && e.task in s.tasks && !e.choice.Throws? && s.tasks[e.task].order == Some(o)
    && s.tasks[e.task].pc.Release?
  }

  /** A write that takes a paid row elsewhere is a failure mark or a release. */
  lemma PaidWrites(s: State, t: TaskId, d: Delta, o: OrderId)
    requires t in s.tasks && o in s.orders && s.orders[o].status == Paid && s.tasks[t].order == Some(o)
    requires RightCalls(s, s.tasks[t], d) && InPlace(s.tasks[t], d) && Settles(d.write) && !d.write.SetPaid?
    ensures s.tasks[t].pc.MarkFailed? || s.tasks[t].pc.Release?
  {
  }

  lemma PaidSource(s: State, t: TaskId, c: Choice, o: OrderId)
    requires Safe(s) && ClaimsWon(s) && t in s.tasks && o in s.orders && s.orders[o].status == Paid
    requires o in Next(s, Step(t, c)).orders && Next(s, Step(t, c)).orders[o].status != Paid
    ensures s.tasks[t].order == Some(o) && (s.tasks[t].pc.MarkFailed? || s.tasks[t].pc.Release?)
  {
    StatusTurns(s, t, c, o);
    assert Told(s, t) && OwnTask(s, t);
    PlanLegal(s, t, c);
    PlanSourced(s, t, c);
    if Plan(s, t, c).write.SetPaid? { StillPaid(s, t, Plan(s, t, c), o); }
    PaidWrites(s, t, Plan(s, t, c), o);
  }

  lemma StillPaid(s: State, t: TaskId, d: Delta, o: OrderId)
    requires t in s.tasks && o in s.orders && s.tasks[t].order == Some(o) == d.task.order && d.write.SetPaid?
    ensures o in Apply(s, t, d).orders && Apply(s, t, d).orders[o].status == Paid
  {
  }

  lemma PaidTurns(s: State, t: TaskId, c: Choice, o: OrderId)
    requires Safe(s) && ClaimsWon(s) && Honest(s) && t in s.tasks && o in s.orders && s.orders[o].status == Paid
    ensures
      var e := Step(t, c);
      && o in Next(s, e).orders
      && (Next(s, e).orders[o].status != Paid ==> Releases(s, e, o) || FailsOverage(s, e, o))
  {
    StatusTurns(s, t, c, o);
    if Next(s, Step(t, c)).orders[o].status != Paid {
      PaidSource(s, t, c, o);
      PaidMark(s, t, c, o);
    }
  }

  lemma PaidMark(s: State, t: TaskId, c: Choice, o: OrderId)
    requires Safe(s) && ClaimsWon(s) && Honest(s) && t in s.tasks && o in s.orders && s.orders[o].status == Paid
    requires s.tasks[t].order == Some(o) && (s.tasks[t].pc.MarkFailed? || s.tasks[t].pc.Release?)
    requires Settles(Plan(s, t, c).write)
    ensures Releases(s, Step(t, c), o) || FailsOverage(s, Step(t, c), o)
  {
    assert OwnTask(s, t) && HonestRow(s, o);
    if s.tasks[t].pc.Release? {
      ReleaseWrites(s, t, c);
    } else {
      CapturedMark(s, t, o);
      MarkFailedWrites(s, t, c);
    }
  }

  lemma PaidLeaves(s: State, e: Event, o: OrderId)
    requires Safe(s) && o in s.orders && (Releases(s, e, o) || FailsOverage(s, e, o))
    ensures o in Next(s, e).orders && Next(s, e).orders[o].status != Paid
  {
    assert OwnTask(s, e.task);
    if s.tasks[e.task].pc.Release? {
      ReleaseWrites(s, e.task, e.choice);
    } else {
      MarkFailedWrites(s, e.task, e.choice);
    }
  }

  /** A paid order stays paid under every step but two: a notification gives back the claim it
      won before the order was paid, or the overage call marks its order failed. */
  lemma PaidReopensIff(events: seq<Event>, o: OrderId, e: Event)
    requires TruthfulRun(events)
    requires var s := Run(Empty, events); o in s.orders && s.orders[o].status == Paid
    ensures
      var s := Run(Empty, events);
      && o in Next(s, e).orders
      && (Next(s, e).orders[o].status != Paid <==> Releases(s, e, o) || FailsOverage(s, e, o))
  {
    RunSafe(events);
    RunClaims(events);
    RunHonest(events);
    var s := Run(Empty, events);
    if e.Step? && e.task in s.tasks {
      PaidTurns(s, e.task, e.choice, o);
      if Releases(s, e, o) || FailsOverage(s, e, o) { PaidLeaves(s, e, o); }
    }
  }
}
