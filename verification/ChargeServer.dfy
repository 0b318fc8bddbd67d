/** The charge handlers as the server runs them: each method is the code of a handler from one
    `await` to the next, over an order table and an acquirer updated in place, and `Serve` runs
    any schedule of them. */
module ChargeServer {
  import opened Options
  import opened RidePayment
  import opened ChargeProtocol
  import opened ChargeInvariants

  // ---------- what a step of the transition system comes to at each place ----------

  lemma StepKeeps(s: State, t: TaskId, c: Choice)
    requires Safe(s) && t in s.tasks
    ensures OwnTask(s, t) && UniqueKeys(s) && Safe(Next(s, Step(t, c)))
  {
    NextSafe(s, Step(t, c));
  }

  lemma ReserveStep(s: State, t: TaskId, c: Choice)
    requires t in s.tasks && Reserving(s.tasks[t].pc)
    ensures Next(s, Step(t, c)) == Apply(s, t, PlanReserve(s, s.tasks[t], c))
  {
  }

  lemma InitStep(s: State, t: TaskId, c: Choice)
    requires t in s.tasks && OwnTask(s, t) && s.tasks[t].pc.CallInit?
    ensures Next(s, Step(t, c)) == Apply(s, t, PlanInit(s.tasks[t], c))
  {
  }

  lemma PayStep(s: State, t: TaskId, c: Choice)
    requires t in s.tasks && OwnTask(s, t)
    requires s.tasks[t].pc.Persist? || s.tasks[t].pc.Charge? || s.tasks[t].pc.AwaitCharge?
    ensures Id(s.tasks[t]) in s.orders
    ensures Next(s, Step(t, c)) == Apply(s, t, PlanPay(s.tasks[t], Id(s.tasks[t]), c))
  {
  }

  lemma SettleStep(s: State, t: TaskId, c: Choice)
    requires t in s.tasks && OwnTask(s, t) && Settling(s.tasks[t])
    ensures Id(s.tasks[t]) in s.orders
    ensures Next(s, Step(t, c)) == Apply(s, t, PlanSettle(s, s.tasks[t], t, Id(s.tasks[t]), c))
  {
  }

  lemma MarkStep(s: State, t: TaskId, c: Choice)
    requires t in s.tasks && OwnTask(s, t)
    requires s.tasks[t].pc.MarkPaid? || s.tasks[t].pc.MarkFailed? || s.tasks[t].pc.Release?
    ensures Id(s.tasks[t]) in s.orders
    ensures Next(s, Step(t, c))
         == Apply(s, t, if c.Throws? then PlanThrow(s.tasks[t]) else PlanMark(s.tasks[t], Id(s.tasks[t]), c))
  {
  }

  lemma PaidThrows(s: State, t: TaskId, c: Choice)
    requires t in s.tasks && OwnTask(s, t) && s.tasks[t].pc.MarkPaid? && c.Throws?
    ensures Next(s, Step(t, c)) == s.(tasks := s.tasks[t := Throw(s.tasks[t]).task])
  {
    MarkStep(s, t, c);
  }

  lemma PaidWrites(s: State, t: TaskId, c: Choice)
    requires t in s.tasks && OwnTask(s, t) && s.tasks[t].pc.MarkPaid? && !c.Throws?
    ensures Id(s.tasks[t]) in s.orders
    ensures
      var task := s.tasks[t];
      var o := Id(task);
      Next(s, Step(t, c))
      == s.(tasks := s.tasks[t := PlanMark(task, o, c).task],
            orders := s.orders[o := PaidRow(s.orders[o], task.pc)])
  {
    MarkStep(s, t, c);
  }

  class Server {
    var orders: map<OrderId, Order>
    var tasks: map<TaskId, Task>
    var payments: map<OrderId, Payment>
    var charges: seq<ChargeCall>
    var effects: seq<Effect>
    var active: map<string, ActiveRide>
    var nextOrder: OrderId
    var nextRide: RideId

    function View(): State
      reads this
    {
      State(orders, tasks, payments, charges, effects, active, nextOrder, nextRide)
    }

    ghost predicate Valid()
      reads this
    {
      Safe(View())
    }

    /** The handler exists and stands where a valid state lets it stand: what the code of one
        stretch relies on. */
    ghost predicate Placed(t: TaskId)
      reads this
    {
      t in tasks && OwnTask(View(), t)
    }

    constructor ()
      ensures Valid() && View() == Empty
    {
      orders, tasks, payments, charges, effects, active := map[], map[], map[], [], [], map[];
      nextOrder, nextRide := 0, 0;
    }

    // ---------- arrivals and the outside world ----------

    /** A request comes in on one of the routes. */
    method Receive(t: TaskId, route: Route, spec: Spec)
      requires Valid()
      modifies this
      ensures Valid() && View() == Next(old(View()), Arrive(t, route, spec))
    {
      NextSafe(View(), Arrive(t, route, spec));
      if t !in tasks {
        var first := if route.Overage? then Validate else Lookup;
        tasks := tasks[t := Task(Request(route), spec, None, false, 0, false, false, None, first)];
      }
    }

    /** A notification whose token was verified: it reads the row and stops there if that is paid
        or the state reported is not terminal. */
    method Notified(t: TaskId, o: OrderId, status: string, success: Option<bool>)
      requires Valid()
      modifies this
      ensures Valid() && View() == Next(old(View()), Notify(t, o, status, success))
    {
      NextSafe(View(), Notify(t, o, status, success));
      if o in orders && t !in tasks {
        var outcome := Classify(status, success);
        var first := if orders[o].status == Paid || outcome == InFlight then Done(NoOrder) else Claim;
        tasks := tasks[t := Task(Notice(outcome), orders[o].spec, Some(o), false, 0, false, false, None, first)];
      }
    }

    /** The acquirer decides a payment it was asked to charge. */
    method Settled(o: OrderId, verdict: Verdict)
      requires Valid()
      modifies this
      ensures Valid() && View() == Next(old(View()), Settle(o, verdict))
    {
      NextSafe(View(), Settle(o, verdict));
      if o in payments && payments[o].chargeable && payments[o].verdict == Open {
        payments := payments[o := payments[o].(verdict := verdict)];
      }
    }

    method RideEnded(bike: string)
      requires Valid()
      modifies this
      ensures Valid() && View() == Next(old(View()), EndRide(bike))
    {
      NextSafe(View(), EndRide(bike));
      active := active - {bike};
    }

    // ---------- reservation ----------

    /** getRidePaymentOrderByIdempotencyKey */
    method FindOrder(key: Key) returns (found: Option<OrderId>)
      ensures found.Some? <==> Holds(View(), key)
      ensures found.Some? ==> found.value in orders && orders[found.value].spec.key == key
    {
      var left := orders.Keys;
      while left != {}
        invariant left <= orders.Keys
        invariant forall o :: o in orders && orders[o].spec.key == key ==> o in left
        decreases |left|
      {
        var o :| o in left;
        if orders[o].spec.key == key {
          return Some(o);
        }
        left := left - {o};
      }
      return None;
    }

    /** The three reads by idempotency key: before anything else, before the insert, and after a
        lost insert. */
    method ReadByKey(t: TaskId, c: Choice)
      requires Placed(t) && UniqueKeys(View())
      requires tasks[t].pc.Lookup? || tasks[t].pc.ReserveLookup? || tasks[t].pc.Reread?
      modifies this
      ensures View() == Next(old(View()), Step(t, c))
    {
      ReserveStep(View(), t, c);
      var task := tasks[t];
      var found := FindOrder(task.spec.key);
      if found.Some? {
        assert found.value == RowOf(View(), task.spec.key);
        var row := orders[found.value];
        tasks := tasks[t := task.(pc := Done(ReplayReply(task.kind, found.value, row)))];
      } else if task.pc.Lookup? {
        tasks := tasks[t := task.(pc := Validate)];
      } else if task.pc.ReserveLookup? {
        tasks := tasks[t := task.(pc := Insert)];
      } else {
        tasks := tasks[t := task.(pc := Done(NoOrder))];
      }
    }

    /** Validation of the request, and the order id drawn when it passes. */
    method Validated(t: TaskId, c: Choice)
      requires Placed(t) && tasks[t].pc.Validate?
      modifies this
      ensures View() == Next(old(View()), Step(t, c))
    {
      ReserveStep(View(), t, c);
      var task := tasks[t];
      if c.Refuse? {
        tasks := tasks[t := task.(pc := Done(NoOrder))];
        return;
      }
      var next := if task.IsHosted() then CallInit else ReserveLookup;
      tasks := tasks[t := task.(order := Some(nextOrder), pc := next)];
      nextOrder := nextOrder + 1;
    }

    /** The INSERT under the unique index on (user_id, idempotency_key). */
    method InsertOrder(t: TaskId, c: Choice)
      requires Placed(t) && tasks[t].pc.Insert?
      modifies this
      ensures View() == Next(old(View()), Step(t, c))
    {
      ReserveStep(View(), t, c);
      var task := tasks[t];
      if c.Throws? {
        tasks := tasks[t := task.(pc := Done(NoOrder))];
        return;
      }
      var violated := FindOrder(task.spec.key);
      if violated.Some? {
        tasks := tasks[t := task.(pc := Reread)];
        return;
      }
      var o := task.order.value;
      orders := orders[o := Order(task.spec, task.IsOverage(), t, RouteRide(task.kind), None, Pending, false)];
      tasks := tasks[t := task.(owned := true, pc := if task.IsHosted() then Persist else CallInit)];
    }

    // ---------- the acquirer's calls ----------

    /** The catch blocks: a notification goes on to release its claim, the overage call to mark its
        order failed, the charge routes answer 502. */
    method Catch(t: TaskId)
      requires t in tasks
      modifies this`tasks
      ensures tasks == old(tasks)[t := Throw(old(tasks[t])).task]
    {
      var task := tasks[t];
      if task.kind.Notice? {
        task := task.(threw := true, pc := Release);
      } else if task.IsOverage() {
        task := task.(threw := true, pc := MarkFailed);
      } else {
        task := task.(pc := Done(NoOrder));
      }
      tasks := tasks[t := task];
    }

    /** The reply of Init, or what stands for it when none arrives. */
    method InitAnswered(t: TaskId, c: Choice)
      requires Placed(t) && tasks[t].pc.CallInit?
      modifies this
      ensures View() == Next(old(View()), Step(t, c))
    {
      InitStep(View(), t, c);
      var task := tasks[t];
      if c.InitOk? || c.LostInit? {
        payments := payments[task.order.value := Payment(c.id, task.IsHosted(), Open)];
      }
      if c.LostInit? || c.Throws? {
        Catch(t);
        return;
      }
      if c.InitOk? {
        task := task.(paymentId := c.id, pc := if task.IsHosted() then Insert else Persist);
      } else if task.IsHosted() {
        task := task.(pc := Done(NoOrder));
      } else {
        task := task.(pc := MarkFailed);
      }
      tasks := tasks[t := task];
    }

    /** updateRidePaymentOrder(id, { paymentId }), then the Charge call or the hosted reply. */
    method PersistPaymentId(t: TaskId, c: Choice)
      requires Placed(t) && tasks[t].pc.Persist?
      modifies this
      ensures View() == Next(old(View()), Step(t, c))
    {
      PayStep(View(), t, c);
      var task := tasks[t];
      var o := task.order.value;
      if !c.Throws? {
        orders := orders[o := orders[o].(paymentId := Some(task.paymentId))];
      }
      if c.Throws? || c.Late? {
        Catch(t);
        return;
      }
      tasks := tasks[t := task.(pc := if task.IsHosted() then Done(Named(o, task.spec.amount, Pending)) else Charge)];
    }

    /** Charge or ChargeQr leaves for the acquirer. */
    method SendCharge(t: TaskId, c: Choice)
      requires Placed(t) && tasks[t].pc.Charge?
      modifies this
      ensures View() == Next(old(View()), Step(t, c))
    {
      PayStep(View(), t, c);
      var task := tasks[t];
      var o := task.order.value;
      charges := charges + [ChargeCall(task.spec.key, o)];
      if o in payments {
        payments := payments[o := payments[o].(chargeable := true)];
      }
      tasks := tasks[t := task.(pc := AwaitCharge)];
    }

    /** The reply of the Charge call, or its exception. */
    method ChargeAnswered(t: TaskId, c: Choice)
      requires Placed(t) && tasks[t].pc.AwaitCharge?
      modifies this
      ensures View() == Next(old(View()), Step(t, c))
    {
      PayStep(View(), t, c);
      if c.Throws? {
        Catch(t);
      } else if c.ChargeReply? {
        Classified(t, Classify(c.status, c.success));
      }
    }

    /** What the handler does with the classified reply. */
    method Classified(t: TaskId, outcome: Outcome)
      requires t in tasks && tasks[t].kind.Request? && tasks[t].order.Some?
      modifies this`tasks
      ensures tasks == old(tasks)[t := PlanReply(old(tasks[t]), Id(old(tasks[t])), outcome).task]
    {
      var task := tasks[t];
      if outcome == Succeeded {
        var ride := RouteRide(task.kind);
        if task.IsOverage() {
          task := task.(target := ride, pc := MarkPaid(None, true));
        } else if ride.Some? {
          task := task.(target := ride, pc := Extend);
        } else {
          task := task.(target := ride, pc := FindRide);
        }
      } else if outcome == Rejected {
        task := task.(pc := MarkFailed);
      } else if task.IsOverage() {
        task := task.(pc := Done(NoOrder));
      } else {
        task := task.(pc := Done(Named(task.order.value, task.spec.amount, Pending)));
      }
      tasks := tasks[t := task];
    }

    // ---------- settling ----------

    /** claimRidePaymentOrderForProcessing, and what the notification goes on to do. */
    method ClaimOrder(t: TaskId, c: Choice)
      requires Placed(t) && tasks[t].pc.Claim?
      modifies this
      ensures View() == Next(old(View()), Step(t, c))
    {
      SettleStep(View(), t, c);
      var task := tasks[t];
      var o := task.order.value;
      var row := orders[o];
      if c.Throws? || row.status == Paid || row.status == Processing {
        tasks := tasks[t := task.(pc := Done(NoOrder))];
        return;
      }
      orders := orders[o := row.(status := Processing)];
      var next := MarkFailed;
      if task.kind == Notice(Succeeded) {
        next := if row.overage then MarkPaid(None, true) else if row.rideId.Some? then Extend else FindRide;
      }
      tasks := tasks[t := task.(claimed := true, target := row.rideId, pc := next)];
    }

    /** startRideForPaidOrder's look at the bike: a ride of this rider on it is reused. */
    method LookForRide(t: TaskId, c: Choice)
      requires Placed(t) && tasks[t].pc.FindRide?
      modifies this
      ensures View() == Next(old(View()), Step(t, c))
    {
      SettleStep(View(), t, c);
      if c.Throws? {
        Catch(t);
        return;
      }
      var task := tasks[t];
      var spec := orders[task.order.value].spec;
      if spec.bike in active && active[spec.bike].user == spec.key.user {
        tasks := tasks[t := task.(pc := MarkPaid(Some(active[spec.bike].ride), true))];
      } else {
        tasks := tasks[t := task.(pc := BeginRide)];
      }
    }

    /** startRide: one transaction, which a bike that is taken or any other refusal undoes. */
    method StartRide(t: TaskId, c: Choice)
      requires Placed(t) && tasks[t].pc.BeginRide?
      modifies this
      ensures View() == Next(old(View()), Step(t, c))
    {
      SettleStep(View(), t, c);
      if c.Throws? {
        Catch(t);
        return;
      }
      var task := tasks[t];
      var o := task.order.value;
      var bike := orders[o].spec.bike;
      if c.Refuse? || bike in active {
        tasks := tasks[t := task.(pc := MarkPaid(None, false))];
        return;
      }
      effects := effects + [Started(o, nextRide, bike)];
      active := active[bike := ActiveRide(task.spec.key.user, nextRide)];
      tasks := tasks[t := task.(pc := MarkPaid(Some(nextRide), true))];
      nextRide := nextRide + 1;
    }

    /** extendRide: one more block of time on the target ride. */
    method ExtendTarget(t: TaskId, c: Choice)
      requires Placed(t) && tasks[t].pc.Extend?
      modifies this
      ensures View() == Next(old(View()), Step(t, c))
    {
      SettleStep(View(), t, c);
      if c.Throws? {
        Catch(t);
        return;
      }
      var task := tasks[t];
      if c.Refuse? || task.target.None? {
        tasks := tasks[t := task.(pc := MarkPaid(None, false))];
        return;
      }
      effects := effects + [Extended(task.order.value, task.target.value, t)];
      tasks := tasks[t := task.(pc := MarkPaid(None, true))];
    }

    /** The last write: the order is paid, with the ride it started if any. */
    method RecordPaid(t: TaskId, c: Choice)
      requires Placed(t) && tasks[t].pc.MarkPaid?
      modifies this
      ensures View() == Next(old(View()), Step(t, c))
    {
      if c.Throws? {
        PaidThrows(View(), t, c);
        Catch(t);
        return;
      }
      PaidWrites(View(), t, c);
      var task := tasks[t];
      var o := task.order.value;
      orders := orders[o := PaidRow(orders[o], task.pc)];
      if c.Late? {
        Catch(t);
        return;
      }
      var silent := task.kind.Notice? || task.IsOverage() || !task.pc.ok;
      tasks := tasks[t := task.(pc := Done(if silent then NoOrder else Named(o, task.spec.amount, Paid)))];
    }

    /** The failure mark of a refused payment. */
    method RecordFailed(t: TaskId, c: Choice)
      requires Placed(t) && tasks[t].pc.MarkFailed?
      modifies this
      ensures View() == Next(old(View()), Step(t, c))
    {
      MarkStep(View(), t, c);
      var task := tasks[t];
      var o := task.order.value;
      if !c.Throws? {
        orders := orders[o := orders[o].(status := Failed)];
      }
      if task.kind.Notice? && (c.Throws? || c.Late?) {
        Catch(t);
        return;
      }
      tasks := tasks[t := task.(pc := Done(NoOrder))];
    }

    /** The catch block of a notification gives its claim back; an exception there is swallowed. */
    method ReleaseClaim(t: TaskId, c: Choice)
      requires Placed(t) && tasks[t].pc.Release?
      modifies this
      ensures View() == Next(old(View()), Step(t, c))
    {
      MarkStep(View(), t, c);
      var task := tasks[t];
      var o := task.order.value;
      if !c.Throws? {
        orders := orders[o := orders[o].(status := Pending)];
      }
      tasks := tasks[t := task.(pc := Done(NoOrder))];
    }

    // ---------- any schedule ----------

    /** The handler runs on to its next await. */
    method Resume(t: TaskId, c: Choice)
      requires Valid() && t in tasks
      modifies this
      ensures Valid() && View() == Next(old(View()), Step(t, c))
    {
      StepKeeps(View(), t, c);
      match tasks[t].pc
      case Lookup => ReadByKey(t, c);
      case Validate => Validated(t, c);
      case ReserveLookup => ReadByKey(t, c);
      case Insert => InsertOrder(t, c);
      case Reread => ReadByKey(t, c);
      case CallInit => InitAnswered(t, c);
      case Persist => PersistPaymentId(t, c);
      case Charge => SendCharge(t, c);
      case AwaitCharge => ChargeAnswered(t, c);
      case Claim => ClaimOrder(t, c);
      case FindRide => LookForRide(t, c);
      case BeginRide => StartRide(t, c);
      case Extend => ExtendTarget(t, c);
      case MarkPaid(_, _) => RecordPaid(t, c);
      case MarkFailed => RecordFailed(t, c);
      case Release => ReleaseClaim(t, c);
      case Done(_) => DoneStays(View(), t, c);
    }

    method Handle(e: Event)
      requires Valid()
      modifies this
      ensures Valid() && View() == Next(old(View()), e)
    {
      match e
      case Arrive(t, route, spec) => Receive(t, route, spec);
      case Notify(t, o, status, success) => Notified(t, o, status, success);
      case Settle(o, verdict) => Settled(o, verdict);
      case EndRide(bike) => RideEnded(bike);
      case Step(t, c) =>
        if t in tasks {
          Resume(t, c);
        }
    }

    /** The server under any schedule of requests, notifications, replies, exceptions and handlers
        that are never resumed: it goes through the states of the transition system, and sends at
        most one Charge for a key, with the PaymentId on the order of that key. */
    method Serve(schedule: seq<Event>)
      requires Valid()
      modifies this
      ensures Valid() && View() == Run(old(View()), schedule)
      ensures forall i, j :: 0 <= i < |charges| && 0 <= j < |charges| && charges[i].key == charges[j].key ==> i == j
      ensures forall i :: 0 <= i < |charges| ==>
                charges[i].order in orders && orders[charges[i].order].spec.key == charges[i].key
                && orders[charges[i].order].paymentId.Some?
    {
      for k := 0 to |schedule|
        invariant Valid() && View() == Run(old(View()), schedule[..k])
      {
        assert schedule[..k + 1][..k] == schedule[..k];
        Handle(schedule[k]);
      }
      assert schedule[..|schedule|] == schedule;
      ChargedOncePerKey(View());
    }
  }

  lemma ChargedOncePerKey(s: State)
    requires Safe(s)
    ensures forall i, j ::
      0 <= i < |s.charges| && 0 <= j < |s.charges| && s.charges[i].key == s.charges[j].key ==> i == j
    ensures forall i :: 0 <= i < |s.charges| ==>
      s.charges[i].order in s.orders && s.orders[s.charges[i].order].spec.key == s.charges[i].key
      && s.orders[s.charges[i].order].paymentId.Some?
  {
    forall i, j | 0 <= i < |s.charges| && 0 <= j < |s.charges| && s.charges[i].key == s.charges[j].key
      ensures i == j
    {
      assert ChargeOf(s, s.charges[i]) && ChargeOf(s, s.charges[j]);
    }
    forall i | 0 <= i < |s.charges| ensures ChargeOf(s, s.charges[i]) {}
  }
}
