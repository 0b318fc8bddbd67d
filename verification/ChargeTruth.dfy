/** The charge protocol against a truthful acquirer: one that reports a payment as captured
    only when it has captured it, and as refused only when it never will. */
module ChargeTruth {
  import opened Options
  import opened RidePayment
  import opened ChargeProtocol
  import opened ChargeInvariants

  ghost predicate Got(s: State, o: OrderId) {
    o in s.payments && s.payments[o].verdict == Captured
  }

  predicate Refused(s: State, o: OrderId) {
    o in s.payments && s.payments[o].verdict == Declined
  }

  ghost predicate TellsTruth(s: State, o: OrderId, outcome: Outcome) {
    && (outcome == Succeeded ==> Got(s, o))
    && (outcome == Rejected ==> Refused(s, o))
  }

  ghost predicate Truthful(s: State, e: Event) {
    match e
    case Notify(_, o, status, success) => TellsTruth(s, o, Classify(status, success))
    case Step(t, ChargeReply(status, success)) =>
      t in s.tasks && s.tasks[t].pc.AwaitCharge? ==> TellsTruth(s, Id(s.tasks[t]), Classify(status, success))
    case _ => true
  }

  /** Every event of a run from `s` is truthful when it happens. */
  ghost predicate TruthfulFrom(s: State, events: seq<Event>)
    decreases |events|
  {
    events != [] ==>
      && TruthfulFrom(s, events[..|events| - 1])
      && Truthful(Run(s, events[..|events| - 1]), events[|events| - 1])
  }

  ghost predicate TruthfulRun(events: seq<Event>) { TruthfulFrom(Empty, events) }

  predicate BeforeInit(task: Task) {
    task.pc.ReserveLookup? || task.pc.CallInit? || (!task.IsHosted() && (task.pc.Insert? || task.pc.Reread?))
  }

  /** No money will ever be captured for this order: the acquirer has refused it, or its
      maker's Init left nothing registered and will not be repeated. */
  ghost predicate Lost(s: State, o: OrderId) {
    if o in s.payments then Refused(s, o)
    else o in s.orders && s.orders[o].maker in s.tasks && PastCharge(s.tasks[s.orders[o].maker].pc)
  }

  predicate ForPaid(pc: Pc) {
    pc.FindRide? || pc.BeginRide? || pc.Extend? || pc.MarkPaid?
  }

  predicate ThrownOverage(task: Task) {
    task.IsOverage() && task.threw
  }

  ghost predicate HonestTask(s: State, t: TaskId)
    requires t in s.tasks
  {
    var task := s.tasks[t];
    var o := Id(task);
    && (BeforeInit(task) && task.kind.Request? ==> o !in s.payments)
    && (ForPaid(task.pc) ==> Got(s, o))
    && (SaysPaid(task.pc) ==> Got(s, task.pc.reply.order))
    && (task.pc.MarkFailed? && !ThrownOverage(task) ==> Lost(s, o))
    && (task.kind.Notice? && task.pc.Claim? ==> TellsTruth(s, o, task.kind.outcome) && task.kind.outcome != InFlight)
  }

  ghost predicate HonestRow(s: State, o: OrderId)
    requires o in s.orders
  {
    var row := s.orders[o];
    && (row.status == Paid ==> Got(s, o))
    && (row.status == Failed ==> Lost(s, o) || (row.maker in s.tasks && ThrownOverage(s.tasks[row.maker])))
  }

  ghost predicate Honest(s: State) {
    && (forall o :: o in s.payments ==> o < s.nextOrder)
    && (forall t :: t in s.tasks ==> HonestTask(s, t))
    && (forall o :: o in s.orders ==> HonestRow(s, o))
    && (forall i :: 0 <= i < |s.effects| ==> Got(s, s.effects[i].order))
  }

  // ---------- where a planned step comes from ----------

  /** Why a step may lead to settling a payment or to failing it. */
  predicate Prompted(task: Task, c: Choice, d: Delta) {
    var told := if task.pc.AwaitCharge? && c.ChargeReply? then Classify(c.status, c.success) else InFlight;
    var notified := if task.kind.Notice? && task.pc.Claim? then task.kind.outcome else InFlight;
    && (ForPaid(d.task.pc) ==> ForPaid(task.pc) || told == Succeeded || notified == Succeeded)
    && (d.task.pc.MarkFailed? && !ThrownOverage(d.task) ==>
        || told == Rejected || (notified != Succeeded && task.kind.Notice? && task.pc.Claim?)
        || (task.pc.CallInit? && d.call.NoCall?))
    && (BeforeInit(d.task) && task.kind.Request? ==> d.issued || BeforeInit(task))
    && (BeforeInit(d.task) ==> d.call.NoCall?)
    && !d.task.pc.Claim?
  }

  /** Which writes and effects come with which program point. */
  predicate InPlace(task: Task, d: Delta) {
    && (d.write.SetPaid? ==> task.pc.MarkPaid?)
    && (d.write == SetStatus(Failed) ==> task.pc.MarkFailed?)
    && (d.write == SetStatus(Pending) ==> task.pc.Release?)
    && d.write != SetStatus(Paid)
    && (d.effect.Some? ==> ForPaid(task.pc) && d.effect.value.order == Id(task))
    && (task.threw ==> d.task.threw)
  }

  predicate Sourced(task: Task, c: Choice, d: Delta) {
    Prompted(task, c, d) && InPlace(task, d)
  }

  lemma EnterPrompted(s: State, task: Task, c: Choice)
    requires WellPlaced(task) && (task.pc.Validate? || task.pc.Insert?)
    ensures Prompted(task, c, PlanReserve(s, task, c))
  {
  }

  lemma LookupPrompted(s: State, task: Task, c: Choice)
    requires WellPlaced(task) && (task.pc.Lookup? || task.pc.ReserveLookup? || task.pc.Reread?)
    ensures Prompted(task, c, PlanReserve(s, task, c))
  {
  }

  lemma ReservePrompted(s: State, task: Task, c: Choice)
    requires WellPlaced(task) && Reserving(task.pc)
    ensures Prompted(task, c, PlanReserve(s, task, c))
  {
    if task.pc.Validate? || task.pc.Insert? { EnterPrompted(s, task, c); } else { LookupPrompted(s, task, c); }
  }

  lemma ReserveInPlace(s: State, task: Task, c: Choice)
    requires WellPlaced(task) && Reserving(task.pc)
    ensures InPlace(task, PlanReserve(s, task, c))
  {
  }

  lemma InitSourced(task: Task, c: Choice)
    requires WellPlaced(task) && task.pc.CallInit?
    ensures Sourced(task, c, PlanInit(task, c))
  {
  }

  lemma PaySourced(task: Task, o: OrderId, c: Choice)
    requires WellPlaced(task) && task.order == Some(o) && (task.pc.Persist? || task.pc.Charge? || task.pc.AwaitCharge?)
    ensures Sourced(task, c, PlanPay(task, o, c))
  {
  }

  lemma ThrowSourced(task: Task, c: Choice)
    requires Settling(task)
    ensures Sourced(task, c, PlanThrow(task))
  {
  }

  lemma ClaimSourced(task: Task, row: Order, c: Choice)
    requires Settling(task) && task.pc.Claim?
    ensures Sourced(task, c, PlanClaim(task, row))
  {
  }

  lemma EffectSourced(s: State, task: Task, row: Order, t: TaskId, o: OrderId, c: Choice)
    requires Settling(task) && task.order == Some(o) && (task.pc.FindRide? || task.pc.BeginRide? || task.pc.Extend?)
    ensures Sourced(task, c, PlanEffect(s, task, row, t, o, c))
  {
  }

  lemma MarkSourced(task: Task, o: OrderId, c: Choice)
    requires Settling(task) && task.order == Some(o) && (task.pc.MarkPaid? || task.pc.MarkFailed? || task.pc.Release?)
    ensures Sourced(task, c, PlanMark(task, o, c))
  {
  }

  lemma PlanSourced(s: State, t: TaskId, c: Choice)
    requires Owned(s) && t in s.tasks
    ensures Sourced(s.tasks[t], c, Plan(s, t, c))
  {
    var task := s.tasks[t];
    assert OwnTask(s, t);
    if Reserving(task.pc) { ReservePrompted(s, task, c); ReserveInPlace(s, task, c); }
    else if !task.pc.Done? {
      var o := task.order.value;
      if o in s.orders { assert OwnRow(s, o); }
      if task.pc.CallInit? { InitSourced(task, c); }
      else if AtAcquirer(task.pc) { PaySourced(task, o, c); }
      else if c.Throws? { ThrowSourced(task, c); }
      else if task.pc.Claim? { ClaimSourced(task, s.orders[o], c); }
      else if task.pc.FindRide? || task.pc.BeginRide? || task.pc.Extend? {
        EffectSourced(s, task, s.orders[o], t, o, c);
      }
      else { MarkSourced(task, o, c); }
    }
  }

  // ---------- every truthful step keeps the books honest ----------

  /** What is known of a planned step when it is taken. */
  ghost predicate Sound(s: State, t: TaskId, c: Choice, d: Delta) {
    && Safe(s) && Honest(s) && t in s.tasks && Truthful(s, Step(t, c))
    && Legal(s, s.tasks[t], d) && Sourced(s.tasks[t], c, d) && (s.tasks[t].pc.Done? ==> d.task.pc == s.tasks[t].pc)
  }

  /** What of it concerns the stepping task alone. */
  ghost predicate Here(s: State, t: TaskId, c: Choice, d: Delta) {
    && t in s.tasks && OwnTask(s, t) && HonestTask(s, t) && Truthful(s, Step(t, c))
    && SameTask(s, s.tasks[t], d) && Calls(s.tasks[t], d) && Sourced(s.tasks[t], c, d)
    && (s.tasks[t].pc.Done? ==> d.task.pc == s.tasks[t].pc)
  }

  /** The part of `RightCalls` about acquirer calls. */
  predicate Calls(task: Task, d: Delta) {
    && (d.call.ChargeSent? <==> task.pc.Charge?)
    && (d.call.InitCall? ==> task.pc.CallInit?)
    && (task.kind.Request? && (task.pc.Charge? || PastCharge(task.pc)) ==> PastCharge(d.task.pc))
  }

  lemma PlanSound(s: State, t: TaskId, c: Choice)
    requires Safe(s) && Honest(s) && t in s.tasks && Truthful(s, Step(t, c))
    ensures Sound(s, t, c, Plan(s, t, c))
  {
    assert Told(s, t);
    PlanLegal(s, t, c);
    PlanSourced(s, t, c);
  }

  lemma SoundHere(s: State, t: TaskId, c: Choice, d: Delta)
    requires Sound(s, t, c, d)
    ensures Here(s, t, c, d)
  {
    assert OwnTask(s, t) && HonestTask(s, t);
  }

  /** A step registers a payment at most once and never changes a verdict. */
  lemma PaymentsFrame(s: State, t: TaskId, c: Choice, d: Delta)
    requires Here(s, t, c, d)
    ensures var n := Apply(s, t, d);
            && (forall o :: o in s.payments ==> o in n.payments && n.payments[o].verdict == s.payments[o].verdict)
            && (forall o :: o in n.payments && o !in s.payments ==> d.call.InitCall? && o == Id(s.tasks[t]))
  {
  }

  /** A program point that settles a payment is only reached on the acquirer's word. */
  lemma PaidHonest(s: State, t: TaskId, c: Choice, d: Delta)
    requires Here(s, t, c, d)
    ensures ForPaid(d.task.pc) ==> Got(Apply(s, t, d), Id(d.task))
  {
    PaymentsFrame(s, t, c, d);
    if ForPaid(d.task.pc) { assert Got(s, Id(s.tasks[t])); }
  }

  /** A refused Init registers nothing, and its maker will not call Init again. */
  lemma InitLost(s: State, t: TaskId, c: Choice, d: Delta)
    requires Here(s, t, c, d) && s.tasks[t].pc.CallInit? && d.call.NoCall? && d.task.pc.MarkFailed?
    ensures Lost(Apply(s, t, d), Id(d.task))
  {
    var o := Id(s.tasks[t]);
    PaymentsFrame(s, t, c, d);
    assert s.tasks[t].owned && o in s.orders && s.orders[o].maker == t;
    RowFrame(s, t, d, o);
  }

  lemma RefusalLost(s: State, t: TaskId, c: Choice, d: Delta)
    requires Here(s, t, c, d) && d.task.pc.MarkFailed? && !ThrownOverage(d.task) && !s.tasks[t].pc.CallInit?
    ensures Lost(Apply(s, t, d), Id(d.task))
  {
    PaymentsFrame(s, t, c, d);
    assert Refused(s, Id(s.tasks[t]));
  }

  lemma FailHonest(s: State, t: TaskId, c: Choice, d: Delta)
    requires Here(s, t, c, d)
    ensures d.task.pc.MarkFailed? && !ThrownOverage(d.task) ==> Lost(Apply(s, t, d), Id(d.task))
  {
    if d.task.pc.MarkFailed? && !ThrownOverage(d.task) {
      if s.tasks[t].pc.CallInit? { InitLost(s, t, c, d); } else { RefusalLost(s, t, c, d); }
    }
  }

  lemma LostStable(s: State, t: TaskId, c: Choice, d: Delta, o: OrderId)
    requires Sound(s, t, c, d) && Lost(s, o)
    ensures Lost(Apply(s, t, d), o)
  {
    SoundHere(s, t, c, d);
    PaymentsFrame(s, t, c, d);
    if o !in s.payments {
      assert OwnRow(s, o);
      assert OwnTask(s, s.orders[o].maker);
      WriteFrame(s, t, d);
      LostRowStable(s, t, c, d, o);
    }
  }

  lemma LostRowStable(s: State, t: TaskId, c: Choice, d: Delta, o: OrderId)
    requires Here(s, t, c, d) && o !in s.payments && o in s.orders && OwnRow(s, o) && OwnTask(s, s.orders[o].maker)
    requires PastCharge(s.tasks[s.orders[o].maker].pc)
    requires s.tasks[t].kind.Request? && s.tasks[t].order == Some(o) ==> t == s.orders[o].maker
    requires o in Apply(s, t, d).orders && Apply(s, t, d).orders[o].maker == s.orders[o].maker
    ensures Lost(Apply(s, t, d), o)
  {
    PaymentsFrame(s, t, c, d);
  }

  /** No reply says paid before the money is there. */
  lemma ReplyHonest(s: State, t: TaskId, c: Choice, d: Delta)
    requires Sound(s, t, c, d)
    ensures SaysPaid(d.task.pc) && !s.tasks[t].pc.Done? && !s.tasks[t].pc.MarkPaid? ==> Got(s, d.task.pc.reply.order)
    ensures SaysPaid(d.task.pc) && s.tasks[t].pc.MarkPaid? ==>
              d.task.pc.reply.order == Id(s.tasks[t]) || Got(s, d.task.pc.reply.order)
  {
    if SaysPaid(d.task.pc) && !s.tasks[t].pc.Done? && d.task.pc.reply.order in s.orders {
      assert HonestRow(s, d.task.pc.reply.order);
    }
  }

  lemma TaskHonest(s: State, t: TaskId, c: Choice, d: Delta)
    requires Sound(s, t, c, d)
    ensures HonestTask(Apply(s, t, d), t)
  {
    SoundHere(s, t, c, d);
    ReplyHonest(s, t, c, d);
    StepperHonest(s, t, c, d);
  }

  lemma StepperHonest(s: State, t: TaskId, c: Choice, d: Delta)
    requires Here(s, t, c, d) && s.nextOrder !in s.payments
    requires SaysPaid(d.task.pc) && !s.tasks[t].pc.Done? ==>
               Got(s, d.task.pc.reply.order) || (s.tasks[t].pc.MarkPaid? && d.task.pc.reply.order == Id(s.tasks[t]))
    ensures HonestTask(Apply(s, t, d), t)
  {
    PaymentsFrame(s, t, c, d);
    PaidHonest(s, t, c, d);
    FailHonest(s, t, c, d);
  }

  /** What another task needs of a step: its own order's payment is not registered behind it,
      and nothing lost is found again. */
  ghost predicate Beside(s: State, n: State, u: TaskId)
    requires u in s.tasks
  {
    && u in n.tasks && n.tasks[u] == s.tasks[u]
    && (forall o :: o in s.payments ==> o in n.payments && n.payments[o].verdict == s.payments[o].verdict)
    && (s.tasks[u].kind.Request? && Id(s.tasks[u]) !in s.payments && s.tasks[u].order.Some? ==>
       Id(s.tasks[u]) !in n.payments)
    && (Lost(s, Id(s.tasks[u])) ==> Lost(n, Id(s.tasks[u])))
  }

  lemma BesideHonest(s: State, n: State, u: TaskId)
    requires u in s.tasks && HonestTask(s, u) && Beside(s, n, u) && WellPlaced(s.tasks[u])
    ensures HonestTask(n, u)
  {
  }

  lemma StepBeside(s: State, t: TaskId, c: Choice, d: Delta, u: TaskId)
    requires Sound(s, t, c, d) && u in s.tasks && u != t
    ensures Beside(s, Apply(s, t, d), u)
  {
    SoundHere(s, t, c, d);
    PaymentsFrame(s, t, c, d);
    assert OwnTask(s, u) && OwnTask(s, t);
    if Lost(s, Id(s.tasks[u])) { LostStable(s, t, c, d, Id(s.tasks[u])); }
  }

  lemma OthersHonest(s: State, t: TaskId, c: Choice, d: Delta, u: TaskId)
    requires Sound(s, t, c, d) && u in s.tasks && u != t
    ensures HonestTask(Apply(s, t, d), u)
  {
    StepBeside(s, t, c, d, u);
    assert HonestTask(s, u) && OwnTask(s, u);
    BesideHonest(s, Apply(s, t, d), u);
  }

  /** A row becomes paid or failed only under the task whose turn it is. */
  lemma RowTurns(s: State, t: TaskId, c: Choice, d: Delta, o: OrderId)
    requires Here(s, t, c, d) && o in s.orders && (d.write.InsertRow? ==> Id(d.task) != o)
    ensures var n := Apply(s, t, d); var task := s.tasks[t];
            && o in n.orders && n.orders[o].maker == s.orders[o].maker
            && (n.orders[o].status == Paid ==> s.orders[o].status == Paid || (task.pc.MarkPaid? && o == Id(task)))
            && (n.orders[o].status == Failed ==>
                s.orders[o].status == Failed || (task.pc.MarkFailed? && o == Id(task) && (task.threw ==> d.task.threw)))
  {
  }

  /** What a row is worth is settled by its own payment and its own maker. */
  lemma RowStays(s: State, t: TaskId, c: Choice, d: Delta, o: OrderId)
    requires Here(s, t, c, d) && o in s.orders && HonestRow(s, o) && (d.write.InsertRow? ==> Id(d.task) != o)
    requires s.orders[o].maker in s.tasks
    requires s.tasks[t].IsOverage() && s.tasks[t].order == Some(o) ==> t == s.orders[o].maker
    requires Lost(s, o) ==> Lost(Apply(s, t, d), o)
    ensures HonestRow(Apply(s, t, d), o)
  {
    RowTurns(s, t, c, d, o);
    PaymentsFrame(s, t, c, d);
  }

  lemma RowHonest(s: State, t: TaskId, c: Choice, d: Delta, o: OrderId)
    requires Sound(s, t, c, d) && o in s.orders
    ensures HonestRow(Apply(s, t, d), o)
  {
    SoundHere(s, t, c, d);
    WriteFrame(s, t, d);
    assert HonestRow(s, o) && OwnRow(s, o);
    if Lost(s, o) { LostStable(s, t, c, d, o); }
    RowStays(s, t, c, d, o);
  }

  lemma RowsHonest(s: State, t: TaskId, c: Choice, d: Delta)
    requires Sound(s, t, c, d)
    ensures forall o :: o in Apply(s, t, d).orders ==> HonestRow(Apply(s, t, d), o)
  {
    WriteFrame(s, t, d);
    forall o | o in Apply(s, t, d).orders ensures HonestRow(Apply(s, t, d), o) {
      if o in s.orders { RowHonest(s, t, c, d, o); }
    }
  }

  lemma TasksHonest(s: State, t: TaskId, c: Choice, d: Delta)
    requires Sound(s, t, c, d)
    ensures forall u :: u in Apply(s, t, d).tasks ==> HonestTask(Apply(s, t, d), u)
  {
    forall u | u in Apply(s, t, d).tasks ensures HonestTask(Apply(s, t, d), u) {
      if u == t { TaskHonest(s, t, c, d); } else { OthersHonest(s, t, c, d, u); }
    }
  }

  lemma EffectsHonest(s: State, t: TaskId, c: Choice, d: Delta)
    requires Sound(s, t, c, d)
    ensures forall i :: 0 <= i < |Apply(s, t, d).effects| ==> Got(Apply(s, t, d), Apply(s, t, d).effects[i].order)
  {
    SoundHere(s, t, c, d);
    PaymentsFrame(s, t, c, d);
  }

  lemma PaymentsNumbered(s: State, t: TaskId, c: Choice, d: Delta)
    requires Sound(s, t, c, d)
    ensures forall o :: o in Apply(s, t, d).payments ==> o < Apply(s, t, d).nextOrder
  {
    SoundHere(s, t, c, d);
    PaymentsFrame(s, t, c, d);
  }

  lemma StepHonest(s: State, t: TaskId, c: Choice, d: Delta)
    requires Sound(s, t, c, d)
    ensures Honest(Apply(s, t, d))
  {
    TasksHonest(s, t, c, d);
    RowsHonest(s, t, c, d);
    EffectsHonest(s, t, c, d);
    PaymentsNumbered(s, t, c, d);
  }

  /** A new handler starts where nothing is claimed of its order, or at a claim. */
  ghost predicate Starting(s: State, task: Task) {
    && !task.owned && !SaysPaid(task.pc)
    && (task.pc.Lookup? || task.pc.Validate? || task.pc.Done?
        || (task.pc.Claim? && task.kind.Notice? && TellsTruth(s, Id(task), task.kind.outcome)
            && task.kind.outcome != InFlight))
  }

  /** A step outside the table: the same rows and payments, and no task gone. */
  predicate Widens(s: State, n: State) {
    && n.orders == s.orders && n.payments == s.payments && n.effects == s.effects && n.nextOrder == s.nextOrder
    && forall u :: u in s.tasks ==> u in n.tasks && n.tasks[u] == s.tasks[u]
  }

  lemma LostWidens(s: State, n: State, o: OrderId)
    requires Widens(s, n) && Lost(s, o)
    ensures Lost(n, o)
  {
  }

  lemma TaskWidens(s: State, n: State, u: TaskId)
    requires Widens(s, n) && u in s.tasks && HonestTask(s, u)
    ensures HonestTask(n, u)
  {
    if Lost(s, Id(s.tasks[u])) { LostWidens(s, n, Id(s.tasks[u])); }
  }

  lemma RowWidens(s: State, n: State, o: OrderId)
    requires Widens(s, n) && o in s.orders && HonestRow(s, o)
    ensures HonestRow(n, o)
  {
    if Lost(s, o) { LostWidens(s, n, o); }
  }

  lemma WidenedHonest(s: State, n: State)
    requires Honest(s) && Widens(s, n)
    requires forall u :: u in n.tasks && u !in s.tasks ==> HonestTask(n, u)
    ensures Honest(n)
  {
    forall u | u in n.tasks ensures HonestTask(n, u) { if u in s.tasks { TaskWidens(s, n, u); } }
    forall o | o in n.orders ensures HonestRow(n, o) { RowWidens(s, n, o); }
  }

  lemma SpawnHonest(s: State, t: TaskId, task: Task)
    requires Honest(s) && t !in s.tasks && Starting(s, task)
    ensures Honest(Spawn(s, t, task))
  {
    WidenedHonest(s, Spawn(s, t, task));
  }

  /** A verdict is passed once, on an open payment: what was lost or got stays so. */
  predicate Judges(s: State, n: State) {
    && n.orders == s.orders && n.tasks == s.tasks && n.effects == s.effects && n.nextOrder == s.nextOrder
    && n.payments.Keys == s.payments.Keys
    && forall o :: o in s.payments && s.payments[o].verdict != Open ==> n.payments[o] == s.payments[o]
  }

  lemma TaskJudged(s: State, n: State, u: TaskId)
    requires Judges(s, n) && u in s.tasks && HonestTask(s, u)
    ensures HonestTask(n, u)
  {
  }

  lemma RowJudged(s: State, n: State, o: OrderId)
    requires Judges(s, n) && o in s.orders && HonestRow(s, o)
    ensures HonestRow(n, o)
  {
  }

  lemma SettleHonest(s: State, n: State)
    requires Honest(s) && Judges(s, n)
    ensures Honest(n)
  {
    forall u | u in n.tasks ensures HonestTask(n, u) { TaskJudged(s, n, u); }
    forall p | p in n.orders ensures HonestRow(n, p) { RowJudged(s, n, p); }
  }

  lemma NoticeStarting(s: State, o: OrderId, outcome: Outcome)
    requires o in s.orders && TellsTruth(s, o, outcome)
    ensures Starting(s, NewNotice(o, s.orders[o], outcome))
  {
  }

  lemma TaskNextHonest(s: State, t: TaskId, c: Choice)
    requires Safe(s) && Honest(s) && t in s.tasks && Truthful(s, Step(t, c))
    ensures Honest(Apply(s, t, Plan(s, t, c)))
  {
    PlanSound(s, t, c);
    StepHonest(s, t, c, Plan(s, t, c));
  }

  lemma SettledJudges(s: State, o: OrderId, verdict: Verdict)
    ensures Judges(s, Next(s, Settle(o, verdict)))
  {
  }

  lemma NextHonest(s: State, e: Event)
    requires Safe(s) && Honest(s) && Truthful(s, e)
    ensures Honest(Next(s, e))
  {
    match e
    case Arrive(t, route, spec) => if t !in s.tasks { SpawnHonest(s, t, NewRequest(route, spec)); }
    case Notify(t, o, status, success) =>
      if o in s.orders && t !in s.tasks {
        NoticeStarting(s, o, Classify(status, success));
        SpawnHonest(s, t, NewNotice(o, s.orders[o], Classify(status, success)));
      }
    case Step(t, c) => if t in s.tasks { TaskNextHonest(s, t, c); }
    case Settle(o, verdict) => SettledJudges(s, o, verdict); SettleHonest(s, Next(s, e));
    case EndRide(bike) => WidenedHonest(s, Next(s, e));
  }

  lemma {:induction false} RunHonest(events: seq<Event>)
    requires TruthfulRun(events)
    ensures Honest(Run(Empty, events))
  {
    if events != [] {
      RunHonest(events[..|events| - 1]);
      RunSafe(events[..|events| - 1]);
      NextHonest(Run(Empty, events[..|events| - 1]), events[|events| - 1]);
    }
  }

  // ---------- what holds in every run against a truthful acquirer ----------

  /** Every ride started and every block of time added was paid for: the money is captured. */
  lemma EffectsArePaidFor(events: seq<Event>, i: nat)
    requires TruthfulRun(events) && i < |Run(Empty, events).effects|
    ensures Got(Run(Empty, events), Run(Empty, events).effects[i].order)
  {
    RunHonest(events);
  }

  /** A reply that says paid names a captured order. */
  lemma PaidReplyIsCaptured(events: seq<Event>, t: TaskId)
    requires TruthfulRun(events) && t in Run(Empty, events).tasks && SaysPaid(Run(Empty, events).tasks[t].pc)
    ensures Got(Run(Empty, events), Run(Empty, events).tasks[t].pc.reply.order)
  {
    RunHonest(events);
    assert HonestTask(Run(Empty, events), t);
  }

  /** An order recorded as paid has been captured; a captured order recorded as failed is an
      overage charge whose call was left by an exception, never one of the two charge routes. */
  lemma CapturedIsNotFailed(events: seq<Event>, o: OrderId)
    requires TruthfulRun(events) && o in Run(Empty, events).orders
    ensures var s := Run(Empty, events); var row := s.orders[o];
            && (row.status == Paid ==> Got(s, o))
            && (row.status == Failed && Got(s, o) ==>
                row.overage && row.maker in s.tasks && ThrownOverage(s.tasks[row.maker]))
  {
    RunSafe(events);
    RunHonest(events);
    var s := Run(Empty, events);
    assert HonestRow(s, o) && OwnRow(s, o);
  }
}
