/** What every step of the charge protocol keeps, and the properties of all runs that follow
    without any assumption about the acquirer. */
module ChargeInvariants {
  import opened Options
  import opened RidePayment
  import opened ChargeProtocol

  // ---------- ownership: one request per order row ----------

  predicate AtSettle(pc: Pc) {
    pc.FindRide? || pc.BeginRide? || pc.Extend? || pc.MarkPaid? || pc.MarkFailed?
  }

  predicate Notified(task: Task, o: OrderId) {
    task.kind.Notice? && task.order == Some(o)
  }

  predicate Numbered(task: Task) {
    task.kind.Request? && task.order.Some?
  }

  predicate WellPlaced(task: Task) {
    if task.kind.Notice? then
      !task.owned && task.order.Some? && (task.pc.Claim? || AtSettle(task.pc) || task.pc.Release? || task.pc.Done?)
    else if task.pc.Lookup? || task.pc.Validate? then task.order.None? && !task.owned
    else if Reserving(task.pc) then task.order.Some? && !task.owned
    else if task.pc.CallInit? then task.order.Some? && (task.owned <==> !task.IsHosted())
    else if task.pc.Persist? then task.order.Some? && task.owned
    else if task.pc.Done? then task.owned ==> task.order.Some?
    else !task.pc.Claim? && !task.pc.Release? && task.order.Some? && task.owned && !task.IsHosted()
  }

  predicate OwnRow(s: State, o: OrderId)
    requires o in s.orders
  {
    var row := s.orders[o];
    && row.maker in s.tasks
    && var task := s.tasks[row.maker];
       && task.owned && task.order == Some(o) && task.spec == row.spec && row.overage == task.IsOverage()
  }

  predicate OwnTask(s: State, t: TaskId)
    requires t in s.tasks
  {
    var task := s.tasks[t];
    && WellPlaced(task)
    && (task.owned ==> task.order.value in s.orders && s.orders[task.order.value].maker == t)
    && (task.order.Some? ==> task.order.value < s.nextOrder)
    && (task.kind.Notice? ==> task.order.value in s.orders && s.orders[task.order.value].spec == task.spec)
  }

  predicate Distinct(s: State) {
    forall t, u :: (t in s.tasks && u in s.tasks && Numbered(s.tasks[t]) && Numbered(s.tasks[u])
                    && s.tasks[t].order == s.tasks[u].order) ==> t == u
  }

  predicate Owned(s: State) {
    && (forall o :: o in s.orders ==> OwnRow(s, o))
    && (forall t :: t in s.tasks ==> OwnTask(s, t))
    && Distinct(s)
  }

  predicate PastCharge(pc: Pc) {
    AtSettle(pc) || pc.AwaitCharge? || pc.Done?
  }

  /** How a planned step may differ from the handler it moves. */
  predicate SameTask(s: State, task: Task, d: Delta) {
    && d.task.kind == task.kind && d.task.spec == task.spec && WellPlaced(d.task)
    && (if d.issued then task.order.None? && task.kind.Request? && d.task.order == Some(s.nextOrder)
        else d.task.order == task.order)
    && (if d.write.InsertRow? then task.order.Some? && !task.owned && d.task.owned else d.task.owned == task.owned)
  }

  /** Which writes and calls a planned step may make. */
  ghost predicate RightCalls(s: State, task: Task, d: Delta) {
    && (d.write.InsertRow? ==> !Holds(s, task.spec.key))
    && (!d.write.InsertRow? && !d.write.NoWrite? ==> task.owned || task.kind.Notice?)
    && (d.write == SetStatus(Processing) ==> task.pc.Claim? && Id(task) in s.orders && Unclaimed(s.orders[Id(task)]))
    && (d.call.ChargeSent? <==> task.pc.Charge?)
    && (d.call.InitCall? ==> task.pc.CallInit?)
    && (d.task.pc.Charge? ==> d.write.SetPaymentId?)
    && (task.kind.Request? && (task.pc.Charge? || PastCharge(task.pc)) ==> PastCharge(d.task.pc))
    && Replies(s, task.spec.key, d.task.pc)
    && (SaysPaid(d.task.pc) && !task.pc.Done? ==>
        || (task.pc.MarkPaid? && d.task.pc.reply.order == Id(task))
        || s.orders[d.task.pc.reply.order].status == Paid)
  }

  predicate SaysPaid(pc: Pc) {
    pc.Done? && pc.reply.Named? && pc.reply.status == Paid
  }

  /** A row a notification may claim: neither paid nor being processed. */
  predicate Unclaimed(row: Order) {
    row.status != Paid && row.status != Processing
  }

  predicate Replies(s: State, key: Key, pc: Pc) {
    pc.Done? && pc.reply.Named? ==>
      && pc.reply.order in s.orders && s.orders[pc.reply.order].spec.key == key
      && s.orders[pc.reply.order].spec.amount == pc.reply.amount
  }

  ghost predicate Legal(s: State, task: Task, d: Delta) {
    SameTask(s, task, d) && RightCalls(s, task, d)
  }

  predicate Matches(s: State, task: Task, o: OrderId) {
    task.order == Some(o) && (task.owned || task.kind.Notice? ==> o in s.orders && s.orders[o].spec == task.spec)
  }

  lemma EnterSameTask(s: State, task: Task, c: Choice)
    requires WellPlaced(task) && (task.pc.Validate? || task.pc.Insert?)
    ensures SameTask(s, task, PlanReserve(s, task, c))
  {
  }

  lemma LookupSameTask(s: State, task: Task, c: Choice)
    requires WellPlaced(task) && (task.pc.Lookup? || task.pc.ReserveLookup? || task.pc.Reread?)
    ensures SameTask(s, task, PlanReserve(s, task, c))
  {
  }

  lemma EnterRightCalls(s: State, task: Task, c: Choice)
    requires WellPlaced(task) && (task.pc.Validate? || task.pc.Insert?)
    ensures RightCalls(s, task, PlanReserve(s, task, c))
  {
  }

  lemma LookupRightCalls(s: State, task: Task, c: Choice)
    requires WellPlaced(task) && (task.pc.Lookup? || task.pc.ReserveLookup? || task.pc.Reread?)
    ensures RightCalls(s, task, PlanReserve(s, task, c))
  {
  }

  lemma ReserveLegal(s: State, task: Task, c: Choice)
    requires WellPlaced(task) && Reserving(task.pc)
    ensures Legal(s, task, PlanReserve(s, task, c))
  {
    if task.pc.Validate? || task.pc.Insert? {
      EnterSameTask(s, task, c);
      EnterRightCalls(s, task, c);
    } else {
      LookupSameTask(s, task, c);
      LookupRightCalls(s, task, c);
    }
  }

  lemma InitLegal(s: State, task: Task, c: Choice)
    requires WellPlaced(task) && task.pc.CallInit?
    ensures Legal(s, task, PlanInit(task, c))
  {
  }

  lemma PersistLegal(s: State, task: Task, o: OrderId, c: Choice)
    requires WellPlaced(task) && Matches(s, task, o) && task.pc.Persist?
    ensures Legal(s, task, PlanPay(task, o, c))
  {
  }

  lemma ChargeLegal(s: State, task: Task, o: OrderId, c: Choice)
    requires WellPlaced(task) && Matches(s, task, o) && task.pc.Charge?
    ensures Legal(s, task, PlanPay(task, o, c))
  {
  }

  lemma ReplyLegal(s: State, task: Task, o: OrderId, c: Choice)
    requires WellPlaced(task) && Matches(s, task, o) && task.pc.AwaitCharge?
    ensures Legal(s, task, PlanPay(task, o, c))
  {
  }

  lemma PayLegal(s: State, task: Task, o: OrderId, c: Choice)
    requires WellPlaced(task) && Matches(s, task, o) && (task.pc.Persist? || task.pc.Charge? || task.pc.AwaitCharge?)
    ensures Legal(s, task, PlanPay(task, o, c))
  {
    if task.pc.Persist? { PersistLegal(s, task, o, c); }
    else if task.pc.Charge? { ChargeLegal(s, task, o, c); }
    else { ReplyLegal(s, task, o, c); }
  }

  predicate Settling(task: Task) {
    WellPlaced(task) && !AtAcquirer(task.pc) && !Reserving(task.pc) && !task.pc.Done?
  }

  lemma ThrowLegal(s: State, task: Task)
    requires Settling(task)
    ensures Legal(s, task, PlanThrow(task))
  {
  }

  lemma ClaimLegal(s: State, task: Task, row: Order)
    requires Settling(task) && task.pc.Claim? && Id(task) in s.orders && row == s.orders[Id(task)]
    ensures Legal(s, task, PlanClaim(task, row))
  {
  }

  lemma EffectLegal(s: State, task: Task, row: Order, t: TaskId, o: OrderId, c: Choice)
    requires Settling(task) && (task.pc.FindRide? || task.pc.BeginRide? || task.pc.Extend?)
    ensures Legal(s, task, PlanEffect(s, task, row, t, o, c))
  {
  }

  lemma MarkLegal(s: State, task: Task, o: OrderId, c: Choice)
    requires Settling(task) && Matches(s, task, o) && (task.pc.MarkPaid? || task.pc.MarkFailed? || task.pc.Release?)
    ensures Legal(s, task, PlanMark(task, o, c))
  {
  }

  lemma PlanLegal(s: State, t: TaskId, c: Choice)
    requires Owned(s) && t in s.tasks && Replies(s, s.tasks[t].spec.key, s.tasks[t].pc)
    ensures Legal(s, s.tasks[t], Plan(s, t, c))
  {
    var task := s.tasks[t];
    assert OwnTask(s, t);
    if Reserving(task.pc) { ReserveLegal(s, task, c); }
    else if task.pc.Done? { }
    else {
      var o := task.order.value;
      if o in s.orders { assert OwnRow(s, o); }
      if task.pc.CallInit? { InitLegal(s, task, c); }
      else if AtAcquirer(task.pc) { PayLegal(s, task, o, c); }
      else if c.Throws? { ThrowLegal(s, task); }
      else if task.pc.Claim? { ClaimLegal(s, task, s.orders[o]); }
      else if task.pc.FindRide? || task.pc.BeginRide? || task.pc.Extend? { EffectLegal(s, task, s.orders[o], t, o, c); }
      else { MarkLegal(s, task, o, c); }
    }
  }

  // ---------- every step keeps the invariant ----------

  predicate UniqueKeys(s: State) {
    forall o, p :: (o in s.orders && p in s.orders && s.orders[o].spec.key == s.orders[p].spec.key) ==> o == p
  }

  /** A Charge call is for the order of its key, whose maker has got past Charge, and the
      PaymentId is already on the row. */
  predicate ChargeOf(s: State, call: ChargeCall) {
    && call.order in s.orders && s.orders[call.order].spec.key == call.key && s.orders[call.order].paymentId.Some?
    && s.orders[call.order].maker in s.tasks && PastCharge(s.tasks[s.orders[call.order].maker].pc)
  }

  predicate ChargedOnce(s: State) {
    && (forall i :: 0 <= i < |s.charges| ==> ChargeOf(s, s.charges[i]))
    && (forall i, j :: 0 <= i < j < |s.charges| ==> s.charges[i].order != s.charges[j].order)
  }

  predicate Told(s: State, t: TaskId)
    requires t in s.tasks
  {
    && Replies(s, s.tasks[t].spec.key, s.tasks[t].pc)
    && (s.tasks[t].pc.Charge? && Id(s.tasks[t]) in s.orders ==> s.orders[Id(s.tasks[t])].paymentId.Some?)
  }

  predicate Safe(s: State) {
    && Owned(s) && UniqueKeys(s) && ChargedOnce(s)
    && (forall t :: t in s.tasks ==> Told(s, t))
  }

  /** What a write leaves of a row it does not insert. */
  lemma RowFrame(s: State, t: TaskId, d: Delta, o: OrderId)
    requires o in s.orders && (d.write.InsertRow? ==> Id(d.task) != o)
    ensures var n := Written(s.orders, d.task, t, d.write);
            && o in n && n[o].spec == s.orders[o].spec && n[o].overage == s.orders[o].overage
            && n[o].maker == s.orders[o].maker
            && (s.orders[o].paymentId.Some? ==> n[o].paymentId.Some?)
            && (o != Id(d.task) || d.write.NoWrite? ==> n[o] == s.orders[o])
  {
  }

  /** What a write leaves of the rows: everything but the written row, and of that row
      everything an order is for; a PaymentId once written stays. */
  lemma WriteFrame(s: State, t: TaskId, d: Delta)
    requires Owned(s) && t in s.tasks && Legal(s, s.tasks[t], d)
    ensures var n := Written(s.orders, d.task, t, d.write);
            && n.Keys == s.orders.Keys + (if d.write.InsertRow? then {Id(d.task)} else {})
            && (d.write.InsertRow? ==> Id(d.task) !in s.orders && n[Id(d.task)] == NewRow(d.task, t))
            && forall o :: o in s.orders ==>
                && n[o].spec == s.orders[o].spec && n[o].overage == s.orders[o].overage
                && n[o].maker == s.orders[o].maker
                && (s.orders[o].paymentId.Some? ==> n[o].paymentId.Some?)
                && (o != Id(d.task) ==> n[o] == s.orders[o])
  {
    assert OwnTask(s, t);
  }

  /** An order id that is in the table is neither drawn nor inserted again. */
  lemma NoNewHolder(s: State, t: TaskId, d: Delta, o: OrderId)
    requires t in s.tasks && OwnTask(s, t) && SameTask(s, s.tasks[t], d) && Distinct(s)
    requires o in s.orders && OwnRow(s, o) && OwnTask(s, s.orders[o].maker)
    ensures s.tasks[t].order != Some(o) ==> d.task.order != Some(o)
    ensures d.write.InsertRow? ==> Id(d.task) != o
  {
  }

  lemma RowsApply(s: State, t: TaskId, d: Delta, o: OrderId)
    requires Owned(s) && t in s.tasks && Legal(s, s.tasks[t], d)
    requires o in Apply(s, t, d).orders
    ensures OwnRow(Apply(s, t, d), o)
  {
    WriteFrame(s, t, d);
    assert OwnTask(s, t);
    if o in s.orders { assert OwnRow(s, o); }
  }

  lemma TasksApply(s: State, t: TaskId, d: Delta, u: TaskId)
    requires Owned(s) && t in s.tasks && Legal(s, s.tasks[t], d)
    requires u in s.tasks
    ensures OwnTask(Apply(s, t, d), u)
  {
    WriteFrame(s, t, d);
    assert OwnTask(s, t) && OwnTask(s, u);
  }

  lemma OwnedApply(s: State, t: TaskId, d: Delta)
    requires Owned(s) && t in s.tasks && Legal(s, s.tasks[t], d)
    ensures Owned(Apply(s, t, d))
  {
    var n := Apply(s, t, d);
    forall o | o in n.orders ensures OwnRow(n, o) { RowsApply(s, t, d, o); }
    forall u | u in n.tasks ensures OwnTask(n, u) { TasksApply(s, t, d, u); }
    forall u, v | u in n.tasks && v in n.tasks && Numbered(n.tasks[u]) && Numbered(n.tasks[v])
                  && n.tasks[u].order == n.tasks[v].order ensures u == v {
      assert OwnTask(s, u) && OwnTask(s, v) && OwnTask(s, t);
    }
  }

  lemma KeysApply(s: State, t: TaskId, d: Delta)
    requires Owned(s) && UniqueKeys(s) && t in s.tasks && Legal(s, s.tasks[t], d)
    ensures UniqueKeys(Apply(s, t, d))
  {
    WriteFrame(s, t, d);
  }

  lemma ChargeKept(s: State, t: TaskId, d: Delta, call: ChargeCall)
    requires Safe(s) && t in s.tasks && Legal(s, s.tasks[t], d) && ChargeOf(s, call)
    ensures ChargeOf(Apply(s, t, d), call)
  {
    WriteFrame(s, t, d);
    assert OwnRow(s, call.order);
  }

  lemma ChargeFresh(s: State, t: TaskId, d: Delta)
    requires Safe(s) && t in s.tasks && Legal(s, s.tasks[t], d) && d.call.ChargeSent?
    ensures ChargeOf(Apply(s, t, d), ChargeCall(d.task.spec.key, Id(d.task)))
    ensures forall i :: 0 <= i < |s.charges| ==> s.charges[i].order != Id(d.task)
  {
    WriteFrame(s, t, d);
    assert OwnTask(s, t) && Told(s, t);
    assert OwnRow(s, Id(s.tasks[t]));
    forall i | 0 <= i < |s.charges| ensures s.charges[i].order != Id(d.task) {
      assert ChargeOf(s, s.charges[i]);
    }
  }

  lemma ChargesApply(s: State, t: TaskId, d: Delta)
    requires Safe(s) && t in s.tasks && Legal(s, s.tasks[t], d)
    ensures ChargedOnce(Apply(s, t, d))
  {
    var n := Apply(s, t, d);
    if d.call.ChargeSent? { ChargeFresh(s, t, d); }
    forall i | 0 <= i < |n.charges| ensures ChargeOf(n, n.charges[i]) {
      if i < |s.charges| { ChargeKept(s, t, d, s.charges[i]); }
    }
  }

  lemma ToldApply(s: State, t: TaskId, d: Delta, u: TaskId)
    requires Safe(s) && t in s.tasks && u in s.tasks && Legal(s, s.tasks[t], d)
    ensures Told(Apply(s, t, d), u)
  {
    WriteFrame(s, t, d);
    assert Told(s, u) && OwnTask(s, t) && OwnTask(s, u);
  }

  lemma StepSafe(s: State, t: TaskId, c: Choice)
    requires Safe(s) && t in s.tasks
    ensures Safe(Apply(s, t, Plan(s, t, c)))
  {
    assert Told(s, t);
    PlanLegal(s, t, c);
    var d := Plan(s, t, c);
    OwnedApply(s, t, d);
    KeysApply(s, t, d);
    ChargesApply(s, t, d);
    forall u | u in s.tasks ensures Told(Apply(s, t, d), u) { ToldApply(s, t, d, u); }
  }

  /** A new handler has neither drawn an order id, unless it was notified of one, nor charged. */
  predicate Newborn(s: State, task: Task) {
    && WellPlaced(task) && !task.owned && !task.pc.Charge? && (task.pc.Done? ==> task.pc.reply.NoOrder?)
    && if task.kind.Notice? then task.order.value in s.orders && s.orders[task.order.value].spec == task.spec
       else task.order.None?
  }

  lemma RowsSpawn(s: State, t: TaskId, task: Task, o: OrderId)
    requires o in s.orders && OwnRow(s, o) && t !in s.tasks
    ensures OwnRow(Spawn(s, t, task), o)
  {
  }

  lemma TasksSpawn(s: State, t: TaskId, task: Task, u: TaskId)
    requires u in s.tasks && OwnTask(s, u) && Told(s, u) && t !in s.tasks
    ensures OwnTask(Spawn(s, t, task), u) && Told(Spawn(s, t, task), u)
  {
  }

  lemma NewbornOwned(s: State, t: TaskId, task: Task)
    requires Owned(s) && Newborn(s, task) && t !in s.tasks
    ensures OwnTask(Spawn(s, t, task), t) && Told(Spawn(s, t, task), t)
  {
    if task.kind.Notice? {
      assert OwnRow(s, task.order.value);
      assert OwnTask(s, s.orders[task.order.value].maker);
    }
  }

  lemma ChargesSpawn(s: State, t: TaskId, task: Task, call: ChargeCall)
    requires ChargeOf(s, call) && t !in s.tasks
    ensures ChargeOf(Spawn(s, t, task), call)
  {
  }

  lemma SpawnSafe(s: State, t: TaskId, task: Task)
    requires Safe(s) && Newborn(s, task) && t !in s.tasks
    ensures Safe(Spawn(s, t, task))
  {
    var n := Spawn(s, t, task);
    forall o | o in n.orders ensures OwnRow(n, o) { RowsSpawn(s, t, task, o); }
    forall u | u in n.tasks ensures OwnTask(n, u) && Told(n, u) {
      if u == t { NewbornOwned(s, t, task); } else { TasksSpawn(s, t, task, u); }
    }
    forall i | 0 <= i < |n.charges| ensures ChargeOf(n, n.charges[i]) { ChargesSpawn(s, t, task, s.charges[i]); }
  }

  lemma OutsideSafe(s: State, n: State)
    requires Safe(s) && n.orders == s.orders && n.tasks == s.tasks && n.charges == s.charges
             && n.nextOrder == s.nextOrder
    ensures Safe(n)
  {
    forall o | o in n.orders ensures OwnRow(n, o) { assert OwnRow(s, o); }
    forall u | u in n.tasks ensures OwnTask(n, u) && Told(n, u) { assert OwnTask(s, u) && Told(s, u); }
    forall i | 0 <= i < |n.charges| ensures ChargeOf(n, n.charges[i]) { assert ChargeOf(s, s.charges[i]); }
  }

  lemma NextSafe(s: State, e: Event)
    requires Safe(s)
    ensures Safe(Next(s, e))
  {
    match e
    case Arrive(t, route, spec) => if t !in s.tasks { SpawnSafe(s, t, NewRequest(route, spec)); }
    case Notify(t, o, status, success) =>
      if o in s.orders && t !in s.tasks { SpawnSafe(s, t, NewNotice(o, s.orders[o], Classify(status, success))); }
    case Step(t, c) => if t in s.tasks { StepSafe(s, t, c); }
    case _ => OutsideSafe(s, Next(s, e));
  }

  lemma {:induction false} RunSafe(events: seq<Event>)
    ensures Safe(Run(Empty, events))
  {
    if events != [] {
      RunSafe(events[..|events| - 1]);
      NextSafe(Run(Empty, events[..|events| - 1]), events[|events| - 1]);
    }
  }

  // ---------- putting runs together ----------

  /** A step of a finished handler changes nothing. */
  lemma DoneStays(s: State, t: TaskId, c: Choice)
    requires t in s.tasks && s.tasks[t].pc.Done?
    ensures Next(s, Step(t, c)) == s
  {
    assert Plan(s, t, c) == Move(s.tasks[t]);
    assert s.tasks[t := s.tasks[t]] == s.tasks;
  }

  lemma {:induction false} RunInTwoParts(s: State, first: seq<Event>, second: seq<Event>)
    ensures Run(s, first + second) == Run(Run(s, first), second)
    decreases |second|
  {
    var all := first + second;
    if second == [] {
      assert all == first;
    } else {
      var front, e := second[..|second| - 1], second[|second| - 1];
      assert all[..|all| - 1] == first + front && all[|all| - 1] == e;
      RunInTwoParts(s, first, front);
      assert Run(s, all) == Next(Run(s, first + front), e);
    }
  }

  // ---------- what holds in every run ----------

  /** However many requests carry the same key, and however they interleave or die, at most
      one Charge or ChargeQr is sent for the key, after its PaymentId was written down. */
  lemma OneChargePerKey(events: seq<Event>, i: nat, j: nat)
    requires var s := Run(Empty, events); i < |s.charges| && j < |s.charges| && s.charges[i].key == s.charges[j].key
    ensures i == j
    ensures var s := Run(Empty, events);
            s.charges[i].order in s.orders && s.orders[s.charges[i].order].paymentId.Some?
  {
    RunSafe(events);
    var s := Run(Empty, events);
    assert ChargeOf(s, s.charges[i]) && ChargeOf(s, s.charges[j]);
  }

  /** All replies that name an order for one key name the same order and the same amount. */
  lemma RepliesAgree(events: seq<Event>, t: TaskId, u: TaskId)
    requires var s := Run(Empty, events);
             && t in s.tasks && u in s.tasks && s.tasks[t].spec.key == s.tasks[u].spec.key
             && s.tasks[t].pc.Done? && s.tasks[t].pc.reply.Named?
             && s.tasks[u].pc.Done? && s.tasks[u].pc.reply.Named?
    ensures var s := Run(Empty, events);
            && s.tasks[t].pc.reply.order == s.tasks[u].pc.reply.order
            && s.tasks[t].pc.reply.amount == s.tasks[u].pc.reply.amount
  {
    RunSafe(events);
    var s := Run(Empty, events);
    assert Told(s, t) && Told(s, u);
  }
}
