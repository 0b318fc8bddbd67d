/** How often one captured extension payment extends its ride. The route and the notification
    each apply it, and the route does not look at the row again before it does. */
module ChargeExtensions {
  import opened Options
  import opened RidePayment
  import opened ChargeProtocol
  import opened ChargeInvariants
  import opened ChargeTruth
  import opened ChargeEffects

  predicate IsExtension(s: State, o: OrderId, ride: RideId) {
    o in s.orders && s.orders[o].maker in s.tasks && s.tasks[s.orders[o].maker].kind == Request(ExtendRide(ride))
  }

  /** No notification of the order has been left by an exception. */
  predicate Quiet(s: State, o: OrderId) {
    forall t :: t in s.tasks && Notified(s.tasks[t], o) ==> !s.tasks[t].threw
  }

  predicate Applying(task: Task, o: OrderId) {
    Notified(task, o) && task.claimed && task.kind.outcome == Succeeded
  }

  predicate ExtTask(task: Task, ride: RideId) {
    && !task.pc.FindRide? && !task.pc.BeginRide? && !task.IsOverage()
    && (task.pc.MarkPaid? ==> task.pc.started == None)
    && (task.pc.Extend? ==> task.target == Some(ride))
    && (ForPaid(task.pc) && task.kind.Notice? ==> task.claimed && task.kind.outcome == Succeeded)
    && (task.kind == Notice(Succeeded) ==> !task.pc.MarkFailed? && (task.claimed ==> !task.pc.Claim?))
    && (task.pc.Release? ==> task.threw)
  }

  predicate ExtEffect(s: State, o: OrderId, ride: RideId, e: Effect)
    requires o in s.orders
  {
    e.order == o ==>
      && e.Extended? && e.ride == ride && e.task in s.tasks
      && var task := s.tasks[e.task];
         && task.order == Some(o) && (e.task == s.orders[o].maker || Applying(task, o))
         && (task.pc.Done? || task.pc.Release? || task.pc == MarkPaid(None, true))
  }

  /** Only extensions of the ride, each by the maker or by a notification that claimed the row,
      and none of them twice. */
  predicate ExtOnly(s: State, o: OrderId, ride: RideId)
    requires o in s.orders
  {
    && s.orders[o].rideId == Some(ride) && !s.orders[o].overage
    && (forall t :: t in s.tasks && s.tasks[t].order == Some(o) ==> ExtTask(s.tasks[t], ride))
    && (forall i :: 0 <= i < |s.effects| ==> ExtEffect(s, o, ride, s.effects[i]))
    && (forall i, j :: (0 <= i < j < |s.effects| && s.effects[i].order == o && s.effects[j].order == o) ==>
        s.effects[i].task != s.effects[j].task)
  }

  /** What a planned step of a running task is known to do. */
  ghost predicate Taken(s: State, t: TaskId, c: Choice, d: Delta) {
    Sound(s, t, c, d) && Follows(s, s.tasks[t], t, d) && !s.tasks[t].pc.Done?
  }

  lemma NewExtHolder(s: State, t: TaskId, c: Choice, d: Delta, o: OrderId, ride: RideId, u: TaskId)
    requires Taken(s, t, c, d) && o !in s.orders && IsExtension(Apply(s, t, d), o, ride)
    requires u in s.tasks && Apply(s, t, d).tasks[u].order == Some(o)
    ensures u == t && d.task.pc != Extend && !ForPaid(d.task.pc) && o !in s.payments
  {
    WriteFrame(s, t, d);
    assert OwnTask(s, t) && OwnTask(s, u) && HonestTask(s, t);
  }

  lemma NewExtOnly(s: State, t: TaskId, c: Choice, d: Delta, o: OrderId, ride: RideId)
    requires Taken(s, t, c, d)
    requires o !in s.orders && IsExtension(Apply(s, t, d), o, ride)
    ensures ExtOnly(Apply(s, t, d), o, ride)
    ensures forall e :: e in Apply(s, t, d).effects ==> e.order != o
  {
    var n := Apply(s, t, d);
    WriteFrame(s, t, d);
    NewExtHolder(s, t, c, d, o, ride, t);
    forall u | u in n.tasks && n.tasks[u].order == Some(o) ensures ExtTask(n.tasks[u], ride) {
      NewExtHolder(s, t, c, d, o, ride, u);
    }
    forall i | 0 <= i < |n.effects| ensures n.effects[i].order != o {
      if i < |s.effects| { assert Got(s, s.effects[i].order); }
    }
  }

  /** Who may hold the order: its maker and its notifications. */
  lemma Holders(s: State, o: OrderId, t: TaskId)
    requires Owned(s) && o in s.orders && t in s.tasks && s.tasks[t].order == Some(o)
    ensures t == s.orders[o].maker || Notified(s.tasks[t], o)
  {
    assert OwnRow(s, o) && OwnTask(s, t);
  }

  lemma StepExtRow(s: State, t: TaskId, c: Choice, d: Delta, o: OrderId, ride: RideId)
    requires Taken(s, t, c, d)
    requires IsExtension(s, o, ride) && ExtOnly(s, o, ride)
    ensures var n := Apply(s, t, d);
            && IsExtension(n, o, ride) && n.orders[o].rideId == Some(ride) && !n.orders[o].overage
            && n.orders[o].maker == s.orders[o].maker
            && (d.write.NoWrite? || s.tasks[t].order != Some(o) ==> n.orders[o] == s.orders[o])
  {
    assert OwnTask(s, t) && OwnRow(s, o) && OwnTask(s, s.orders[o].maker);
    NoNewHolder(s, t, d, o);
    RowFrame(s, t, d, o);
    if d.write.SetPaid? && Id(d.task) == o { MakesNoRide(s, t, d, o, ride); }
    RideStays(s, t, d, o, ride);
  }

  lemma MakesNoRide(s: State, t: TaskId, d: Delta, o: OrderId, ride: RideId)
    requires t in s.tasks && Claims(s.tasks[t], d) && SameTask(s, s.tasks[t], d)
    requires forall u :: u in s.tasks && s.tasks[u].order == Some(o) ==> ExtTask(s.tasks[u], ride)
    requires s.tasks[t].order.Some? && Id(d.task) == o && d.write.SetPaid?
    ensures d.write.started.None?
  {
  }

  /** An update of an extension's row keeps its ride. */
  lemma RideStays(s: State, t: TaskId, d: Delta, o: OrderId, ride: RideId)
    requires o in s.orders && s.orders[o].rideId == Some(ride)
    requires d.write.InsertRow? ==> Id(d.task) != o
    requires Id(d.task) == o && d.write.SetPaid? ==> d.write.started.None?
    ensures Written(s.orders, d.task, t, d.write)[o].rideId == Some(ride)
  {
  }

  lemma StepExtTask(s: State, t: TaskId, c: Choice, d: Delta, o: OrderId, ride: RideId)
    requires Taken(s, t, c, d)
    requires IsExtension(s, o, ride) && ExtOnly(s, o, ride)
    ensures d.task.order == Some(o) ==> s.tasks[t].order == Some(o) && ExtTask(d.task, ride)
  {
    assert OwnTask(s, t) && OwnRow(s, o) && OwnTask(s, s.orders[o].maker);
    if s.tasks[t].order == Some(o) {
      Holders(s, o, t);
      OwnExtTask(s, t, d, o, ride);
    } else {
      NoNewHolder(s, t, d, o);
    }
  }

  lemma OwnExtTask(s: State, t: TaskId, d: Delta, o: OrderId, ride: RideId)
    requires t in s.tasks && SameTask(s, s.tasks[t], d) && Follows(s, s.tasks[t], t, d) && WellPlaced(s.tasks[t])
    requires s.tasks[t].order == Some(o) && ExtTask(s.tasks[t], ride)
    requires o in s.orders && s.orders[o].rideId == Some(ride) && !s.orders[o].overage
    requires s.tasks[t].kind == Request(ExtendRide(ride)) || s.tasks[t].kind.Notice?
    ensures ExtTask(d.task, ride)
  {
  }

  lemma StepExtEffects(s: State, t: TaskId, c: Choice, d: Delta, o: OrderId, ride: RideId, e: Effect)
    requires Taken(s, t, c, d)
    requires IsExtension(s, o, ride) && ExtOnly(s, o, ride)
    requires ExtEffect(s, o, ride, e) || d.effect == Some(e)
    ensures ExtEffect(Apply(s, t, d), o, ride, e)
  {
    StepExtRow(s, t, c, d, o, ride);
    assert OwnTask(s, t);
    if e.order == o {
      if ExtEffect(s, o, ride, e) { OldExtEffect(s, t, d, o, ride, e); } else { NewExtEffect(s, t, c, d, o, ride, e); }
    }
  }

  lemma OldExtEffect(s: State, t: TaskId, d: Delta, o: OrderId, ride: RideId, e: Effect)
    requires t in s.tasks && SameTask(s, s.tasks[t], d) && Follows(s, s.tasks[t], t, d) && !s.tasks[t].pc.Done?
    requires o in s.orders && ExtEffect(s, o, ride, e) && e.order == o
    requires o in Apply(s, t, d).orders && Apply(s, t, d).orders[o].maker == s.orders[o].maker
    requires s.tasks[t].order == Some(o) ==> WellPlaced(s.tasks[t]) && !s.tasks[t].IsOverage()
    ensures ExtEffect(Apply(s, t, d), o, ride, e)
  {
  }

  lemma NewExtEffect(s: State, t: TaskId, c: Choice, d: Delta, o: OrderId, ride: RideId, e: Effect)
    requires Taken(s, t, c, d) && IsExtension(s, o, ride) && ExtOnly(s, o, ride) && d.effect == Some(e) && e.order == o
    requires o in Apply(s, t, d).orders && Apply(s, t, d).orders[o].maker == s.orders[o].maker
    ensures ExtEffect(Apply(s, t, d), o, ride, e)
  {
    assert OwnTask(s, t) && HonestTask(s, t);
    Holders(s, o, t);
  }

  /** A second extension of an order is never by the same task: it has left Extend. */
  lemma StepExtOther(s: State, t: TaskId, c: Choice, d: Delta, o: OrderId, ride: RideId, i: nat)
    requires Taken(s, t, c, d) && IsExtension(s, o, ride) && ExtOnly(s, o, ride)
    requires i < |s.effects| && s.effects[i].order == o && d.effect.Some? && d.effect.value.order == o
    ensures s.effects[i].Extended? && d.effect.value.Extended? && s.effects[i].task != d.effect.value.task
  {
    assert ExtEffect(s, o, ride, s.effects[i]);
    assert OwnTask(s, t) && HonestTask(s, t);
    Holders(s, o, t);
  }

  lemma StepExtPairs(s: State, t: TaskId, c: Choice, d: Delta, o: OrderId, ride: RideId, i: nat, j: nat)
    requires Taken(s, t, c, d) && IsExtension(s, o, ride) && ExtOnly(s, o, ride)
    requires i < j < |Apply(s, t, d).effects|
    requires Apply(s, t, d).effects[i].order == o && Apply(s, t, d).effects[j].order == o
    ensures Apply(s, t, d).effects[i].Extended? && Apply(s, t, d).effects[j].Extended?
            && Apply(s, t, d).effects[i].task != Apply(s, t, d).effects[j].task
  {
    assert ExtEffect(s, o, ride, s.effects[i]);
    if j == |s.effects| { StepExtOther(s, t, c, d, o, ride, i); }
    else { assert ExtEffect(s, o, ride, s.effects[j]); }
  }

  lemma StepExtTasks(s: State, t: TaskId, c: Choice, d: Delta, o: OrderId, ride: RideId, u: TaskId)
    requires Taken(s, t, c, d) && IsExtension(s, o, ride) && ExtOnly(s, o, ride)
    requires u in Apply(s, t, d).tasks && Apply(s, t, d).tasks[u].order == Some(o)
    ensures ExtTask(Apply(s, t, d).tasks[u], ride)
  {
    if u == t { StepExtTask(s, t, c, d, o, ride); }
  }

  lemma AllExtTasks(s: State, t: TaskId, c: Choice, d: Delta, o: OrderId, ride: RideId)
    requires Taken(s, t, c, d) && IsExtension(s, o, ride) && ExtOnly(s, o, ride)
    ensures var n := Apply(s, t, d);
            forall u :: u in n.tasks && n.tasks[u].order == Some(o) ==> ExtTask(n.tasks[u], ride)
  {
    var n := Apply(s, t, d);
    forall u | u in n.tasks && n.tasks[u].order == Some(o) ensures ExtTask(n.tasks[u], ride) {
      StepExtTasks(s, t, c, d, o, ride, u);
    }
  }

  lemma AllExtEffects(s: State, t: TaskId, c: Choice, d: Delta, o: OrderId, ride: RideId)
    requires Taken(s, t, c, d) && IsExtension(s, o, ride) && ExtOnly(s, o, ride)
    ensures var n := Apply(s, t, d);
            o in n.orders && forall i :: 0 <= i < |n.effects| ==> ExtEffect(n, o, ride, n.effects[i])
  {
    var n := Apply(s, t, d);
    StepExtRow(s, t, c, d, o, ride);
    forall i | 0 <= i < |n.effects| ensures ExtEffect(n, o, ride, n.effects[i]) {
      StepExtEffects(s, t, c, d, o, ride, n.effects[i]);
    }
  }

  lemma StepExtOnly(s: State, t: TaskId, c: Choice, d: Delta, o: OrderId, ride: RideId)
    requires Taken(s, t, c, d) && IsExtension(s, o, ride) && ExtOnly(s, o, ride)
    ensures IsExtension(Apply(s, t, d), o, ride) && ExtOnly(Apply(s, t, d), o, ride)
  {
    var n := Apply(s, t, d);
    StepExtRow(s, t, c, d, o, ride);
    AllExtTasks(s, t, c, d, o, ride);
    AllExtEffects(s, t, c, d, o, ride);
    forall i, j | 0 <= i < j < |n.effects| && n.effects[i].order == o && n.effects[j].order == o
      ensures n.effects[i].task != n.effects[j].task {
      StepExtPairs(s, t, c, d, o, ride, i, j);
    }
  }

  // ---------- while no notification has been left by an exception ----------

  /** The route has not yet reached its own write to the row. */
  predicate Unmarked(s: State, o: OrderId)
    requires o in s.orders
  {
    s.orders[o].maker in s.tasks && !s.tasks[s.orders[o].maker].pc.MarkPaid? && !s.tasks[s.orders[o].maker].pc.Done?
  }

  predicate Bought(s: State, o: OrderId) {
    exists i :: 0 <= i < |s.effects| && s.effects[i].order == o
  }

  predicate Finishing(task: Task, o: OrderId) {
    Applying(task, o) && task.pc == MarkPaid(None, true)
  }

  /** What the route could see if it looked again: the row is paid without an error, or a
      notification stands between its two writes. */
  predicate AlreadyExtended(s: State, o: OrderId)
    requires o in s.orders
  {
    || (s.orders[o].status == Paid && !s.orders[o].errored)
    || exists h :: h in s.tasks && Finishing(s.tasks[h], o)
  }

  predicate Held(s: State, o: OrderId, h: TaskId)
    requires o in s.orders && h in s.tasks
  {
    Applying(s.tasks[h], o) ==>
      && (s.tasks[h].pc.Done? ==> s.orders[o].status == Paid)
      && (ForPaid(s.tasks[h].pc) ==>
          s.orders[o].status == Processing || (s.orders[o].status == Paid && !Unmarked(s, o)))
  }

  predicate OneClaim(s: State, o: OrderId)
    requires o in s.orders
  {
    && (forall h :: h in s.tasks ==> Held(s, o, h))
    && (forall h, k :: h in s.tasks && k in s.tasks && Applying(s.tasks[h], o) && Applying(s.tasks[k], o) ==> h == k)
    && (Unmarked(s, o) ==> (Bought(s, o) <==> AlreadyExtended(s, o)))
  }

  /** The row under an applying notification is paid or being processed, and its money got. */
  lemma ApplyingGot(s: State, o: OrderId, ride: RideId, h: TaskId)
    requires Safe(s) && Honest(s) && IsExtension(s, o, ride) && ExtOnly(s, o, ride) && Quiet(s, o)
    requires h in s.tasks && Held(s, o, h) && Applying(s.tasks[h], o)
    ensures Got(s, o) && !Unclaimed(s.orders[o]) && (s.tasks[h].pc.Done? || ForPaid(s.tasks[h].pc))
  {
    assert HonestTask(s, h) && HonestRow(s, o) && OwnTask(s, h) && ExtTask(s.tasks[h], ride);
  }

  lemma HeldAfter(s: State, n: State, o: OrderId, h: TaskId)
    requires o in s.orders && o in n.orders && h in s.tasks && h in n.tasks && n.tasks[h] == s.tasks[h]
    requires Held(s, o, h) && !Unclaimed(s.orders[o])
    requires || (n.orders[o].status == s.orders[o].status && (Unmarked(n, o) ==> Unmarked(s, o)))
             || (n.orders[o].status == Paid && (ForPaid(s.tasks[h].pc) ==> !Unmarked(n, o)))
    ensures Held(n, o, h)
  {
  }

  /** While a notification is applying the order, the only other one to mark it paid is its maker. */
  lemma MarkedByMaker(s: State, t: TaskId, c: Choice, d: Delta, o: OrderId, ride: RideId, h: TaskId)
    requires Taken(s, t, c, d) && IsExtension(s, o, ride) && ExtOnly(s, o, ride) && OneClaim(s, o)
    requires h in s.tasks && h != t && Applying(s.tasks[h], o) && s.tasks[t].order == Some(o)
    requires d.write.SetPaid?
    ensures o in Apply(s, t, d).orders && !Unmarked(Apply(s, t, d), o)
  {
    StepExtRow(s, t, c, d, o, ride);
    assert ExtTask(s.tasks[t], ride);
    Holders(s, o, t);
  }

  lemma StaysUnmarked(s: State, t: TaskId, c: Choice, d: Delta, o: OrderId, ride: RideId)
    requires Taken(s, t, c, d) && IsExtension(s, o, ride) && ExtOnly(s, o, ride)
    ensures o in Apply(s, t, d).orders && (Unmarked(Apply(s, t, d), o) ==> Unmarked(s, o))
  {
    StepExtRow(s, t, c, d, o, ride);
    if Unmarked(Apply(s, t, d), o) { StepUnmarked(s, t, c, d, o, ride); }
  }

  /** What a write under an applying notification leaves of the row's status. */
  lemma WrittenUnder(s: State, t: TaskId, c: Choice, d: Delta, o: OrderId, ride: RideId, h: TaskId)
    requires Taken(s, t, c, d) && IsExtension(s, o, ride) && ExtOnly(s, o, ride) && Quiet(s, o) && OneClaim(s, o)
    requires h in s.tasks && h != t && Applying(s.tasks[h], o)
    requires Got(s, o) && !Unclaimed(s.orders[o]) && s.tasks[t].order == Some(o)
    ensures var n := Apply(s, t, d);
            && o in n.orders
            && (n.orders[o].status == s.orders[o].status || (n.orders[o].status == Paid && !Unmarked(n, o)))
  {
    StepWrites(s, t, c, d, o, ride);
    if d.write.SetPaid? { MarkedByMaker(s, t, c, d, o, ride, h); }
  }

  lemma HeldUnderWrite(s: State, t: TaskId, c: Choice, d: Delta, o: OrderId, ride: RideId, h: TaskId)
    requires Taken(s, t, c, d) && IsExtension(s, o, ride) && ExtOnly(s, o, ride) && Quiet(s, o) && OneClaim(s, o)
    requires h in s.tasks && h != t && Held(s, o, h) && Applying(s.tasks[h], o)
    requires Got(s, o) && !Unclaimed(s.orders[o]) && s.tasks[t].order == Some(o)
    ensures o in Apply(s, t, d).orders && Held(Apply(s, t, d), o, h)
  {
    WrittenUnder(s, t, c, d, o, ride, h);
    StaysUnmarked(s, t, c, d, o, ride);
    HeldAfter(s, Apply(s, t, d), o, h);
  }

  /** A write by another holder never takes the row away from an applying notification. */
  lemma StepHeld(s: State, t: TaskId, c: Choice, d: Delta, o: OrderId, ride: RideId, h: TaskId)
    requires Taken(s, t, c, d) && IsExtension(s, o, ride) && ExtOnly(s, o, ride)
    requires Quiet(s, o) && OneClaim(s, o) && h in s.tasks && h != t
    ensures o in Apply(s, t, d).orders && Held(Apply(s, t, d), o, h)
  {
    StepExtRow(s, t, c, d, o, ride);
    assert OwnTask(s, t) && Held(s, o, h);
    if Applying(s.tasks[h], o) && s.tasks[t].order == Some(o) {
      ApplyingGot(s, o, ride, h);
      HeldUnderWrite(s, t, c, d, o, ride, h);
    }
  }

  /** What a holder of a captured order may write to its row. */
  lemma StepWrites(s: State, t: TaskId, c: Choice, d: Delta, o: OrderId, ride: RideId)
    requires Taken(s, t, c, d) && IsExtension(s, o, ride) && ExtOnly(s, o, ride)
    requires s.tasks[t].order == Some(o) && Quiet(s, o) && Got(s, o)
    ensures var n := Apply(s, t, d);
            && o in n.orders
            && ((n.orders[o].status == s.orders[o].status && n.orders[o].errored == s.orders[o].errored)
                || (d.write == SetStatus(Processing) && Unclaimed(s.orders[o]) && s.tasks[t].kind.Notice?
                    && n.orders[o].errored == s.orders[o].errored && n.orders[o].status == Processing)
                || (d.write.SetPaid? && s.tasks[t].pc == MarkPaid(None, d.write.ok)
                    && n.orders[o].status == Paid && n.orders[o].errored == !d.write.ok))
  {
    WriteKnown(s, t, c, d, o, ride);
    RowWrites(s, t, d, o);
  }

  /** An extension's holder writes its PaymentId, a claim, or what it has bought. */
  predicate HoldersWrite(s: State, task: Task, d: Delta, o: OrderId)
    requires o in s.orders
  {
    && d.task.order == Some(o) && !d.write.InsertRow?
    && (d.write.SetStatus? ==> d.write.status == Processing && Unclaimed(s.orders[o]) && task.kind.Notice?)
    && (d.write.SetPaid? ==> task.pc == MarkPaid(None, d.write.ok))
  }

  lemma WriteKnown(s: State, t: TaskId, c: Choice, d: Delta, o: OrderId, ride: RideId)
    requires Taken(s, t, c, d) && IsExtension(s, o, ride) && ExtOnly(s, o, ride)
    requires s.tasks[t].order == Some(o) && Quiet(s, o) && Got(s, o)
    ensures HoldersWrite(s, s.tasks[t], d, o)
  {
    assert HonestTask(s, t) && OwnTask(s, t) && ExtTask(s.tasks[t], ride);
    assert OwnRow(s, o) && OwnTask(s, s.orders[o].maker);
    NoNewHolder(s, t, d, o);
    Holders(s, o, t);
  }

  lemma RowWrites(s: State, t: TaskId, d: Delta, o: OrderId)
    requires t in s.tasks && o in s.orders && HoldersWrite(s, s.tasks[t], d, o)
    ensures var n := Apply(s, t, d);
            && o in n.orders
            && ((n.orders[o].status == s.orders[o].status && n.orders[o].errored == s.orders[o].errored)
                || (d.write == SetStatus(Processing) && Unclaimed(s.orders[o]) && s.tasks[t].kind.Notice?
                    && n.orders[o].errored == s.orders[o].errored && n.orders[o].status == Processing)
                || (d.write.SetPaid? && s.tasks[t].pc == MarkPaid(None, d.write.ok)
                    && n.orders[o].status == Paid && n.orders[o].errored == !d.write.ok))
  {
  }

  /** Everything a step of a holder of the order depends on, without the rest of the state. */
  ghost predicate Local(s: State, t: TaskId, c: Choice, d: Delta, o: OrderId, ride: RideId) {
    && t in s.tasks && o in s.orders && s.tasks[t].order == Some(o) && !s.tasks[t].pc.Done?
    && OwnTask(s, t) && HonestTask(s, t) && HonestRow(s, o) && ExtTask(s.tasks[t], ride) && Held(s, o, t)
    && SameTask(s, s.tasks[t], d) && RightCalls(s, s.tasks[t], d) && InPlace(s.tasks[t], d)
    && Tracks(s, s.tasks[t], t, d) && Claims(s.tasks[t], d)
    && !s.orders[o].overage && s.orders[o].rideId == Some(ride)
    && (s.tasks[t].kind.Notice? ==> !d.task.threw && s.orders[o].maker != t)
  }

  lemma HolderLocal(s: State, t: TaskId, c: Choice, d: Delta, o: OrderId, ride: RideId)
    requires Taken(s, t, c, d) && IsExtension(s, o, ride) && ExtOnly(s, o, ride)
    requires OneClaim(s, o) && Quiet(Apply(s, t, d), o) && s.tasks[t].order == Some(o)
    ensures Local(s, t, c, d, o, ride)
  {
    assert OwnTask(s, t) && HonestTask(s, t) && HonestRow(s, o) && OwnRow(s, o) && Held(s, o, t);
    assert ExtTask(s.tasks[t], ride);
    assert Apply(s, t, d).tasks[t] == d.task;
  }

  lemma LocalHeld(s: State, t: TaskId, c: Choice, d: Delta, o: OrderId, ride: RideId)
    requires Local(s, t, c, d, o, ride)
    ensures o in Apply(s, t, d).orders && Held(Apply(s, t, d), o, t)
  {
  }

  predicate PaidClean(row: Order) {
    row.status == Paid && !row.errored
  }

  /** Before its own write, the route leaves the status and the error of the row alone. */
  lemma ShownByMaker(s: State, t: TaskId, c: Choice, d: Delta, o: OrderId, ride: RideId)
    requires Local(s, t, c, d, o, ride) && s.tasks[t].kind.Request? && s.tasks[t].owned
    requires !d.task.pc.Done? && !d.task.pc.MarkPaid?
    ensures var n := Apply(s, t, d);
            o in n.orders && (PaidClean(n.orders[o]) <==> PaidClean(s.orders[o]))
            && !Finishing(d.task, o) && !Finishing(s.tasks[t], o)
  {
  }

  /** A notification at its last write extended the ride exactly if it says so. */
  lemma ShownByMark(s: State, t: TaskId, c: Choice, d: Delta, o: OrderId, ride: RideId)
    requires Local(s, t, c, d, o, ride) && Notified(s.tasks[t], o) && s.tasks[t].pc.MarkPaid? && Unmarked(s, o)
    ensures var n := Apply(s, t, d);
            o in n.orders && !PaidClean(s.orders[o]) && (PaidClean(n.orders[o]) <==> Finishing(s.tasks[t], o))
            && !Finishing(d.task, o) && Applying(s.tasks[t], o)
  {
  }

  lemma ShownByNotice(s: State, t: TaskId, c: Choice, d: Delta, o: OrderId, ride: RideId)
    requires Local(s, t, c, d, o, ride) && Notified(s.tasks[t], o) && !s.tasks[t].pc.MarkPaid? && d.effect.None?
    ensures var n := Apply(s, t, d);
            o in n.orders && (PaidClean(n.orders[o]) <==> PaidClean(s.orders[o]))
            && !Finishing(d.task, o) && !Finishing(s.tasks[t], o)
  {
  }

  lemma SameShown(s: State, n: State, o: OrderId, t: TaskId)
    requires o in s.orders && o in n.orders && t in s.tasks && t in n.tasks && n.tasks == s.tasks[t := n.tasks[t]]
    requires PaidClean(n.orders[o]) <==> PaidClean(s.orders[o])
    requires !Finishing(n.tasks[t], o) && !Finishing(s.tasks[t], o)
    ensures AlreadyExtended(n, o) <==> AlreadyExtended(s, o)
  {
    forall h | h in s.tasks && h != t ensures n.tasks[h] == s.tasks[h] {}
  }

  lemma MarkShown(s: State, n: State, o: OrderId, t: TaskId)
    requires o in s.orders && o in n.orders && t in s.tasks && t in n.tasks && n.tasks == s.tasks[t := n.tasks[t]]
    requires !PaidClean(s.orders[o]) && (PaidClean(n.orders[o]) <==> Finishing(s.tasks[t], o))
             && !Finishing(n.tasks[t], o)
    requires forall h :: h in s.tasks && Applying(s.tasks[h], o) ==> h == t
    ensures AlreadyExtended(n, o) <==> AlreadyExtended(s, o)
  {
    forall h | h in s.tasks && h != t ensures n.tasks[h] == s.tasks[h] {}
  }

  /** Apart from an extension, a step changes nothing of what the row and the notifications show. */
  lemma StepShown(s: State, t: TaskId, c: Choice, d: Delta, o: OrderId, ride: RideId)
    requires Taken(s, t, c, d) && IsExtension(s, o, ride) && ExtOnly(s, o, ride) && OneClaim(s, o)
    requires Quiet(Apply(s, t, d), o) && o in Apply(s, t, d).orders && Unmarked(Apply(s, t, d), o) && Unmarked(s, o)
    requires d.effect.Some? ==> d.effect.value.order != o
    ensures AlreadyExtended(Apply(s, t, d), o) <==> AlreadyExtended(s, o)
  {
    var n := Apply(s, t, d);
    StepExtRow(s, t, c, d, o, ride);
    assert OwnTask(s, t);
    if s.tasks[t].order != Some(o) { SameShown(s, n, o, t); }
    else {
      Holders(s, o, t);
      HolderLocal(s, t, c, d, o, ride);
      if t == s.orders[o].maker { OwnedMaker(s, o); ShownByMaker(s, t, c, d, o, ride); SameShown(s, n, o, t); }
      else if s.tasks[t].pc.MarkPaid? { ShownByMark(s, t, c, d, o, ride); MarkShown(s, n, o, t); }
      else { ShownByNotice(s, t, c, d, o, ride); SameShown(s, n, o, t); }
    }
  }

  lemma OwnedMaker(s: State, o: OrderId)
    requires Owned(s) && o in s.orders
    ensures s.orders[o].maker in s.tasks && s.tasks[s.orders[o].maker].owned && s.tasks[s.orders[o].maker].kind.Request?
  {
    assert OwnRow(s, o) && OwnTask(s, s.orders[o].maker);
  }

  lemma StepUnmarked(s: State, t: TaskId, c: Choice, d: Delta, o: OrderId, ride: RideId)
    requires Taken(s, t, c, d) && IsExtension(s, o, ride) && ExtOnly(s, o, ride)
    requires o in Apply(s, t, d).orders && Unmarked(Apply(s, t, d), o)
    ensures Unmarked(s, o)
    ensures d.effect.Some? && d.effect.value.order == o ==> Finishing(d.task, o)
  {
    StepExtRow(s, t, c, d, o, ride);
    assert OwnTask(s, t) && HonestTask(s, t) && OwnRow(s, o);
    if s.tasks[t].order == Some(o) { Holders(s, o, t); StepExtTask(s, t, c, d, o, ride); }
  }

  lemma StepBought(s: State, t: TaskId, c: Choice, d: Delta, o: OrderId, ride: RideId)
    requires Taken(s, t, c, d) && IsExtension(s, o, ride) && ExtOnly(s, o, ride) && OneClaim(s, o)
    requires Quiet(Apply(s, t, d), o) && o in Apply(s, t, d).orders && Unmarked(Apply(s, t, d), o)
    ensures Bought(Apply(s, t, d), o) <==> AlreadyExtended(Apply(s, t, d), o)
  {
    var n := Apply(s, t, d);
    StepUnmarked(s, t, c, d, o, ride);
    if d.effect.Some? && d.effect.value.order == o {
      assert n.effects[|s.effects|].order == o && Finishing(n.tasks[t], o);
    } else {
      StepShown(s, t, c, d, o, ride);
      SameBought(s, n, o);
    }
  }

  lemma SameBought(s: State, n: State, o: OrderId)
    requires n.effects == s.effects || (|n.effects| == |s.effects| + 1 && n.effects[..|s.effects|] == s.effects
                                        && n.effects[|s.effects|].order != o)
    ensures Bought(n, o) <==> Bought(s, o)
  {
    if Bought(s, o) {
      var i :| 0 <= i < |s.effects| && s.effects[i].order == o;
      assert n.effects[i] == s.effects[i];
    }
    if Bought(n, o) {
      var i :| 0 <= i < |n.effects| && n.effects[i].order == o;
      assert s.effects[i] == n.effects[i];
    }
  }

  lemma QuietBefore(s: State, t: TaskId, c: Choice, d: Delta, o: OrderId)
    requires Taken(s, t, c, d) && Quiet(Apply(s, t, d), o)
    ensures Quiet(s, o)
  {
    var n := Apply(s, t, d);
    forall u | u in s.tasks && Notified(s.tasks[u], o) ensures !s.tasks[u].threw {
      assert u in n.tasks && Notified(n.tasks[u], o);
    }
  }

  lemma AllHeld(s: State, t: TaskId, c: Choice, d: Delta, o: OrderId, ride: RideId, h: TaskId)
    requires Taken(s, t, c, d) && IsExtension(s, o, ride) && ExtOnly(s, o, ride) && OneClaim(s, o)
    requires Quiet(s, o) && Quiet(Apply(s, t, d), o) && h in s.tasks
    ensures o in Apply(s, t, d).orders && Held(Apply(s, t, d), o, h)
  {
    StepExtRow(s, t, c, d, o, ride);
    if h != t { StepHeld(s, t, c, d, o, ride, h); }
    else if s.tasks[t].order == Some(o) { HolderLocal(s, t, c, d, o, ride); LocalHeld(s, t, c, d, o, ride); }
    else { assert OwnTask(s, t); }
  }

  /** A claim is only won on a row that no applying notification holds. */
  lemma StepOneClaim(s: State, t: TaskId, c: Choice, d: Delta, o: OrderId, ride: RideId, h: TaskId)
    requires Taken(s, t, c, d) && IsExtension(s, o, ride) && ExtOnly(s, o, ride) && OneClaim(s, o) && Quiet(s, o)
    requires h in s.tasks && h != t && Applying(s.tasks[h], o)
    ensures !Applying(d.task, o)
  {
    ApplyingGot(s, o, ride, h);
    assert OwnTask(s, t);
  }

  lemma StepOneApplying(s: State, t: TaskId, c: Choice, d: Delta, o: OrderId, ride: RideId, h: TaskId, k: TaskId)
    requires Taken(s, t, c, d) && IsExtension(s, o, ride) && ExtOnly(s, o, ride) && OneClaim(s, o) && Quiet(s, o)
    requires h in s.tasks && k in s.tasks && Applying(Apply(s, t, d).tasks[h], o)
             && Applying(Apply(s, t, d).tasks[k], o)
    ensures h == k
  {
    if h != t { StepOneClaim(s, t, c, d, o, ride, h); }
    if k != t { StepOneClaim(s, t, c, d, o, ride, k); }
  }

  lemma StepAlone(s: State, t: TaskId, c: Choice, d: Delta, o: OrderId, ride: RideId)
    requires Taken(s, t, c, d) && IsExtension(s, o, ride) && ExtOnly(s, o, ride) && (Quiet(s, o) ==> OneClaim(s, o))
    requires Quiet(Apply(s, t, d), o)
    ensures o in Apply(s, t, d).orders && OneClaim(Apply(s, t, d), o)
  {
    var n := Apply(s, t, d);
    QuietBefore(s, t, c, d, o);
    StepExtRow(s, t, c, d, o, ride);
    forall h | h in n.tasks ensures Held(n, o, h) { AllHeld(s, t, c, d, o, ride, h); }
    forall h, k | h in n.tasks && k in n.tasks && Applying(n.tasks[h], o) && Applying(n.tasks[k], o) ensures h == k {
      StepOneApplying(s, t, c, d, o, ride, h, k);
    }
    if Unmarked(n, o) { StepBought(s, t, c, d, o, ride); }
  }

  // ---------- every run ----------

  predicate Sorted(s: State, o: OrderId, ride: RideId)
    requires o in s.orders
  {
    ExtOnly(s, o, ride) && (Quiet(s, o) ==> OneClaim(s, o))
  }

  ghost predicate AllExtensions(s: State) {
    forall o, ride :: IsExtension(s, o, ride) ==> Sorted(s, o, ride)
  }

  lemma NewUnnotified(s: State, t: TaskId, c: Choice, d: Delta, o: OrderId, ride: RideId, h: TaskId)
    requires Taken(s, t, c, d) && o !in s.orders && IsExtension(Apply(s, t, d), o, ride) && h in Apply(s, t, d).tasks
    ensures !Notified(Apply(s, t, d).tasks[h], o)
  {
    if Apply(s, t, d).tasks[h].order == Some(o) {
      if h != t { NewExtHolder(s, t, c, d, o, ride, h); }
      assert OwnTask(s, t);
    }
  }

  lemma UnnoticedOneClaim(n: State, o: OrderId)
    requires o in n.orders && n.orders[o].status == Pending
    requires forall h :: h in n.tasks ==> !Notified(n.tasks[h], o)
    requires forall e :: e in n.effects ==> e.order != o
    ensures OneClaim(n, o)
  {
    forall h | h in n.tasks ensures Held(n, o, h) {}
    assert !Bought(n, o) && !AlreadyExtended(n, o);
  }

  lemma NewSorted(s: State, t: TaskId, c: Choice, d: Delta, o: OrderId, ride: RideId)
    requires Taken(s, t, c, d) && o !in s.orders && IsExtension(Apply(s, t, d), o, ride)
    ensures Sorted(Apply(s, t, d), o, ride)
  {
    var n := Apply(s, t, d);
    NewExtOnly(s, t, c, d, o, ride);
    WriteFrame(s, t, d);
    forall h | h in n.tasks ensures !Notified(n.tasks[h], o) { NewUnnotified(s, t, c, d, o, ride, h); }
    UnnoticedOneClaim(n, o);
  }

  lemma StepSorted(s: State, t: TaskId, c: Choice, d: Delta, o: OrderId, ride: RideId)
    requires Taken(s, t, c, d) && AllExtensions(s) && IsExtension(Apply(s, t, d), o, ride)
    ensures Sorted(Apply(s, t, d), o, ride)
  {
    WriteFrame(s, t, d);
    if o !in s.orders { NewSorted(s, t, c, d, o, ride); }
    else {
      assert OwnRow(s, o);
      assert IsExtension(s, o, ride);
      assert Sorted(s, o, ride);
      StepExtOnly(s, t, c, d, o, ride);
      if Quiet(Apply(s, t, d), o) { StepAlone(s, t, c, d, o, ride); }
    }
  }

  predicate Joins(s: State, n: State, t: TaskId, task: Task) {
    && n.orders == s.orders && n.effects == s.effects
    && t !in s.tasks && n.tasks == s.tasks[t := task]
    && !task.claimed && !task.threw && (task.pc.Lookup? || task.pc.Validate? || task.pc.Claim? || task.pc.Done?)
    && (task.IsOverage() ==> task.order.None?)
  }

  lemma JoinOnly(s: State, n: State, t: TaskId, task: Task, o: OrderId, ride: RideId)
    requires Joins(s, n, t, task) && o in s.orders && s.orders[o].maker in s.tasks && ExtOnly(s, o, ride)
    ensures ExtOnly(n, o, ride)
  {
    forall i | 0 <= i < |n.effects| ensures ExtEffect(n, o, ride, n.effects[i]) {
      assert ExtEffect(s, o, ride, s.effects[i]);
    }
  }

  lemma JoinAlone(s: State, n: State, t: TaskId, task: Task, o: OrderId)
    requires Joins(s, n, t, task) && o in s.orders && s.orders[o].maker in s.tasks && (Quiet(s, o) ==> OneClaim(s, o))
    ensures Quiet(n, o) ==> OneClaim(n, o)
  {
    if Quiet(n, o) {
      forall h | h in s.tasks && Notified(s.tasks[h], o) ensures !s.tasks[h].threw { assert h in n.tasks; }
      forall h | h in n.tasks ensures Held(n, o, h) { if h != t { assert Held(s, o, h); } }
      assert Bought(n, o) <==> Bought(s, o);
      forall h | h in s.tasks && Finishing(s.tasks[h], o) ensures h in n.tasks && Finishing(n.tasks[h], o) {}
      assert AlreadyExtended(n, o) <==> AlreadyExtended(s, o);
    }
  }

  lemma JoinAll(s: State, n: State, t: TaskId, task: Task)
    requires Owned(s) && AllExtensions(s) && Joins(s, n, t, task)
    ensures AllExtensions(n)
  {
    forall o, ride | IsExtension(n, o, ride) ensures Sorted(n, o, ride) {
      assert OwnRow(s, o);
      assert IsExtension(s, o, ride);
      assert Sorted(s, o, ride);
      JoinOnly(s, n, t, task, o, ride);
      JoinAlone(s, n, t, task, o);
    }
  }

  lemma SameAll(s: State, n: State)
    requires AllExtensions(s) && n.orders == s.orders && n.tasks == s.tasks && n.effects == s.effects
    ensures AllExtensions(n)
  {
    forall o, ride | IsExtension(n, o, ride) ensures Sorted(n, o, ride) {
      assert IsExtension(s, o, ride);
      assert Sorted(s, o, ride);
      SameOnly(s, n, o, ride);
    }
  }

  lemma SameOnly(s: State, n: State, o: OrderId, ride: RideId)
    requires o in s.orders && Sorted(s, o, ride) && n.orders == s.orders && n.tasks == s.tasks && n.effects == s.effects
    ensures Sorted(n, o, ride)
  {
    forall i | 0 <= i < |n.effects| ensures ExtEffect(n, o, ride, n.effects[i]) {
      assert ExtEffect(s, o, ride, s.effects[i]);
    }
    if Quiet(n, o) {
      assert Quiet(s, o);
      forall h | h in n.tasks ensures Held(n, o, h) { assert Held(s, o, h); }
      assert Bought(n, o) <==> Bought(s, o);
      assert AlreadyExtended(n, o) <==> AlreadyExtended(s, o);
    }
  }

  lemma StepAll(s: State, t: TaskId, c: Choice)
    requires Safe(s) && Honest(s) && t in s.tasks && Truthful(s, Step(t, c)) && AllExtensions(s)
    requires !s.tasks[t].pc.Done?
    ensures AllExtensions(Apply(s, t, Plan(s, t, c)))
  {
    PlanSound(s, t, c);
    PlanFollows(s, t, c);
    TakenAll(s, t, c, Plan(s, t, c));
  }

  lemma TakenAll(s: State, t: TaskId, c: Choice, d: Delta)
    requires Taken(s, t, c, d) && AllExtensions(s)
    ensures AllExtensions(Apply(s, t, d))
  {
    forall o, ride | IsExtension(Apply(s, t, d), o, ride) ensures Sorted(Apply(s, t, d), o, ride) {
      StepSorted(s, t, c, d, o, ride);
    }
  }

  lemma NextAll(s: State, e: Event)
    requires Safe(s) && Honest(s) && Truthful(s, e) && AllExtensions(s)
    ensures AllExtensions(Next(s, e))
  {
    var n := Next(s, e);
    match e
    case Arrive(t, route, spec) => if t !in s.tasks { JoinAll(s, n, t, NewRequest(route, spec)); }
    case Notify(t, o, status, success) => NotifyAll(s, t, o, status, success);
    case Step(t, c) =>
      if t in s.tasks { if s.tasks[t].pc.Done? { DoneStays(s, t, c); } else { StepAll(s, t, c); } }
    case _ => SameAll(s, n);
  }

  lemma NotifyAll(s: State, t: TaskId, o: OrderId, status: string, success: Option<bool>)
    requires Safe(s) && Honest(s) && Truthful(s, Notify(t, o, status, success)) && AllExtensions(s)
    ensures AllExtensions(Next(s, Notify(t, o, status, success)))
  {
    var n := Next(s, Notify(t, o, status, success));
    if o in s.orders && t !in s.tasks { JoinAll(s, n, t, NewNotice(o, s.orders[o], Classify(status, success))); }
  }

  lemma {:induction false} RunAll(events: seq<Event>)
    requires TruthfulRun(events)
    ensures AllExtensions(Run(Empty, events))
  {
    if events != [] {
      var before := events[..|events| - 1];
      RunAll(before);
      RunSafe(before);
      RunHonest(before);
      NextAll(Run(Empty, before), events[|events| - 1]);
    }
  }

  /** Whatever fails half-way, each handler extends the ride of an order at most once, and the
      only ones that do are the request that inserted the order and notifications of its capture
      that won a claim. */
  lemma EachHandlerExtendsOnce(events: seq<Event>, o: OrderId, ride: RideId, i: nat, j: nat)
    requires TruthfulRun(events)
    requires var s := Run(Empty, events);
             && IsExtension(s, o, ride) && i < j < |s.effects| && s.effects[i].order == o && s.effects[j].order == o
    ensures var s := Run(Empty, events); var e, f := s.effects[i], s.effects[j];
            && e.Extended? && f.Extended? && e.ride == ride == f.ride && e.task != f.task
            && e.task in s.tasks && (e.task == s.orders[o].maker || Applying(s.tasks[e.task], o))
            && f.task in s.tasks && (f.task == s.orders[o].maker || Applying(s.tasks[f.task], o))
  {
    RunAll(events);
    var s := Run(Empty, events);
    assert Sorted(s, o, ride);
    HandlersDiffer(s, o, ride, i, j);
  }

  lemma HandlersDiffer(s: State, o: OrderId, ride: RideId, i: nat, j: nat)
    requires o in s.orders && ExtOnly(s, o, ride)
    requires i < j < |s.effects| && s.effects[i].order == o && s.effects[j].order == o
    ensures var e, f := s.effects[i], s.effects[j];
            && e.Extended? && f.Extended? && e.ride == ride == f.ride && e.task != f.task
            && e.task in s.tasks && (e.task == s.orders[o].maker || Applying(s.tasks[e.task], o))
            && f.task in s.tasks && (f.task == s.orders[o].maker || Applying(s.tasks[f.task], o))
  {
    assert ExtEffect(s, o, ride, s.effects[i]) && ExtEffect(s, o, ride, s.effects[j]);
  }

  /** While no notification of it has failed half-way, one captured extension payment extends
      its ride at most twice: once by the route and once by one notification. */
  lemma AtMostTwoExtensions(events: seq<Event>, o: OrderId, ride: RideId, i: nat, j: nat, k: nat)
    requires TruthfulRun(events)
    requires var s := Run(Empty, events);
             && IsExtension(s, o, ride) && Quiet(s, o) && i < |s.effects| && j < |s.effects| && k < |s.effects|
             && s.effects[i].order == o && s.effects[j].order == o && s.effects[k].order == o
    ensures i == j || j == k || i == k
  {
    RunAll(events);
    var s := Run(Empty, events);
    assert Sorted(s, o, ride);
    assert ExtEffect(s, o, ride, s.effects[i]) && ExtEffect(s, o, ride, s.effects[j])
      && ExtEffect(s, o, ride, s.effects[k]);
  }

  predicate OnlyOne(s: State, o: OrderId) {
    forall i, j :: (0 <= i < |s.effects| && 0 <= j < |s.effects| && s.effects[i].order == o && s.effects[j].order == o)
                   ==> i == j
  }
}
