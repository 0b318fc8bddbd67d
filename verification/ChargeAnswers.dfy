/** What a rider is told, and what one handler comes to that nothing disturbs: the replay of an
    earlier request, and each way through a charge and a notification from end to end. */
module ChargeAnswers {
  import opened Options
  import opened RidePayment
  import opened ChargeProtocol
  import opened ChargeInvariants
  import opened ChargeContinuations

  /** The handler's request is answered by `reply`, and that is all that happens. */
  predicate AnsweredOnly(s: State, n: State, t: TaskId, reply: Reply)
    requires t in s.tasks
  {
    n == s.(tasks := s.tasks[t := s.tasks[t].(pc := Done(reply))])
  }

  // ---------- replays ----------

  lemma RowFound(s: State, key: Key, o: OrderId)
    requires UniqueKeys(s) && o in s.orders && s.orders[o].spec.key == key
    ensures Holds(s, key) && RowOf(s, key) == o
  {
  }

  /** What a request is told whose key an order holds already, at each of the three reads by key:
      a charge route says paid exactly of a paid order, answers with the error exactly of a failed
      one and says pending of any other; the hosted route repeats the row; the server's own overage
      call just stops. Nothing else happens. */
  lemma ReplayAnswers(events: seq<Event>, t: TaskId, o: OrderId, c: Choice)
    requires
      var s := Run(Empty, events);
      && t in s.tasks && s.tasks[t].kind.Request?
      && (s.tasks[t].pc.Lookup? || s.tasks[t].pc.ReserveLookup? || s.tasks[t].pc.Reread?)
      && o in s.orders && s.orders[o].spec.key == s.tasks[t].spec.key
    ensures
      var s := Run(Empty, events);
      var n := Next(s, Step(t, c));
      && t in n.tasks && n.tasks[t].pc.Done?
      && var reply, row, route := n.tasks[t].pc.reply, s.orders[o], s.tasks[t].kind.route;
         && AnsweredOnly(s, n, t, reply)
         && (route.StartRide? || route.ExtendRide? ==>
             && (row.status == Paid <==> reply == Named(o, row.spec.amount, Paid))
             && (row.status == Failed <==> reply == NoOrder)
             && (row.status == Pending || row.status == Processing <==> reply == Named(o, row.spec.amount, Pending)))
         && (route.Hosted? ==> reply == Named(o, row.spec.amount, row.status))
         && (route.Overage? ==> reply == NoOrder)
  {
    RunSafe(events);
    RowFound(Run(Empty, events), Run(Empty, events).tasks[t].spec.key, o);
  }

  /** And the insert that finds its key taken goes on to the third read. */
  lemma LostInsertRereads(events: seq<Event>, t: TaskId, o: OrderId, c: Choice)
    requires
      var s := Run(Empty, events);
      && t in s.tasks && s.tasks[t].pc.Insert? && !c.Throws?
      && o in s.orders && s.orders[o].spec.key == s.tasks[t].spec.key
    ensures
      var s := Run(Empty, events);
      Next(s, Step(t, c)) == s.(tasks := s.tasks[t := s.tasks[t].(pc := Reread)])
  {
  }

  // ---------- one request from end to end ----------

  /** The ride that the orders of a route carry from the start. */
  function RideOf(route: Route): Option<RideId> {
    match route
    case ExtendRide(ride) => Some(ride)
    case Overage(ride) => Some(ride)
    case Hosted => None
    case StartRide => None
  }

  /** A new request of a charge route, past the first read where its route has one. */
  ghost predicate Fresh(s: State, t: TaskId, route: Route, spec: Spec) {
    && t in s.tasks && s.tasks[t] == Task(Request(route), spec, None, false, 0, false, false, None, Validate)
    && !Holds(s, spec.key)
  }

  function Reserved(route: Route, spec: Spec, o: OrderId, pc: Pc): Task {
    Task(Request(route), spec, Some(o), true, 0, false, false, None, pc)
  }

  /** A request comes in with nothing done for it yet; the overage call has no first read. */
  lemma RequestArrives(s: State, t: TaskId, route: Route, spec: Spec)
    requires t !in s.tasks
    ensures
      var first := if route.Overage? then Validate else Lookup;
      Next(s, Arrive(t, route, spec))
      == s.(tasks := s.tasks[t := Task(Request(route), spec, None, false, 0, false, false, None, first)])
  {
  }

  /** Its first read goes on where it finds nothing, and validation may end it before any order. */
  lemma FreeKeyGoesOn(s: State, t: TaskId, c: Choice)
    requires t in s.tasks && s.tasks[t].kind.Request?
    requires (s.tasks[t].pc.Lookup? && !Holds(s, s.tasks[t].spec.key)) || (s.tasks[t].pc.Validate? && c.Refuse?)
    ensures
      var next := if s.tasks[t].pc.Lookup? then Validate else Done(NoOrder);
      Next(s, Step(t, c)) == s.(tasks := s.tasks[t := s.tasks[t].(pc := next)])
  {
  }

  lemma ValidateStep(s: State, t: TaskId, route: Route, spec: Spec)
    requires Fresh(s, t, route, spec) && !route.Hosted?
    ensures Next(s, Step(t, Go))
         == s.(tasks := s.tasks[t := Reserved(route, spec, s.nextOrder, ReserveLookup).(owned := false)],
               nextOrder := s.nextOrder + 1)
  {
  }

  lemma LookupStep(s: State, t: TaskId, route: Route, spec: Spec, o: OrderId)
    requires t in s.tasks && s.tasks[t] == Reserved(route, spec, o, ReserveLookup).(owned := false)
    requires !Holds(s, spec.key)
    ensures Next(s, Step(t, Go)) == s.(tasks := s.tasks[t := Reserved(route, spec, o, Insert).(owned := false)])
  {
  }

  lemma InsertStep(s: State, t: TaskId, route: Route, spec: Spec, o: OrderId)
    requires t in s.tasks && s.tasks[t] == Reserved(route, spec, o, Insert).(owned := false)
    requires !Holds(s, spec.key) && !route.Hosted?
    ensures Next(s, Step(t, Go))
         == s.(tasks := s.tasks[t := Reserved(route, spec, o, CallInit)],
               orders := s.orders[o := Order(spec, route.Overage?, t, RideOf(route), None, Pending, false)])
  {
  }

  /** A request with a free key that nothing disturbs makes one pending order, under a fresh id,
      for what it asks, and goes on to Init. */
  lemma RequestReserves(s: State, t: TaskId, route: Route, spec: Spec)
    requires Fresh(s, t, route, spec) && !route.Hosted?
    ensures
      var a := Next(s, Step(t, Go));
      var b := Next(a, Step(t, Go));
      var n := Next(b, Step(t, Go));
      var o := s.nextOrder;
      n == s.(tasks := s.tasks[t := Reserved(route, spec, o, CallInit)],
              orders := s.orders[o := Order(spec, route.Overage?, t, RideOf(route), None, Pending, false)],
              nextOrder := o + 1)
  {
    var o := s.nextOrder;
    ValidateStep(s, t, route, spec);
    var a := s.(tasks := s.tasks[t := Reserved(route, spec, o, ReserveLookup).(owned := false)], nextOrder := o + 1);
    SameKeys(s, a, spec.key);
    LookupStep(a, t, route, spec, o);
    var b := a.(tasks := a.tasks[t := Reserved(route, spec, o, Insert).(owned := false)]);
    SameKeys(s, b, spec.key);
    InsertStep(b, t, route, spec, o);
    assert a.tasks[t := Reserved(route, spec, o, Insert).(owned := false)][t := Reserved(route, spec, o, CallInit)]
        == s.tasks[t := Reserved(route, spec, o, CallInit)];
  }

  lemma SameKeys(s: State, n: State, key: Key)
    requires n.orders == s.orders
    ensures Holds(n, key) <==> Holds(s, key)
  {
  }

  /** A handler that has its order, at `pc`. */
  predicate HasOrder(s: State, t: TaskId, o: OrderId, route: Route, pc: Pc) {
    && t in s.tasks && o in s.orders && s.tasks[t].kind == Request(route) && s.tasks[t].order == Some(o)
    && s.tasks[t].owned && !s.tasks[t].threw && s.tasks[t].pc == pc
  }

  lemma InitStep(s: State, t: TaskId, o: OrderId, route: Route, id: nat)
    requires HasOrder(s, t, o, route, CallInit) && !route.Hosted?
    ensures Next(s, Step(t, InitOk(id)))
         == s.(tasks := s.tasks[t := s.tasks[t].(paymentId := id, pc := Persist)],
               payments := s.payments[o := Payment(id, false, Open)])
  {
  }

  lemma PersistStep(s: State, t: TaskId, o: OrderId, route: Route)
    requires HasOrder(s, t, o, route, Persist) && !route.Hosted?
    ensures Next(s, Step(t, Go))
         == s.(tasks := s.tasks[t := s.tasks[t].(pc := Charge)],
               orders := s.orders[o := s.orders[o].(paymentId := Some(s.tasks[t].paymentId))])
  {
  }

  lemma ChargeStep(s: State, t: TaskId, o: OrderId, route: Route)
    requires HasOrder(s, t, o, route, Charge) && o in s.payments
    ensures Next(s, Step(t, Go))
         == s.(tasks := s.tasks[t := s.tasks[t].(pc := AwaitCharge)],
               charges := s.charges + [ChargeCall(s.tasks[t].spec.key, o)],
               payments := s.payments[o := s.payments[o].(chargeable := true)])
  {
  }

  /** From a successful Init: its PaymentId is on the order, and one Charge is out for it. */
  lemma RequestCharges(s: State, t: TaskId, o: OrderId, route: Route, id: nat)
    requires HasOrder(s, t, o, route, CallInit) && !route.Hosted?
    ensures
      var a := Next(s, Step(t, InitOk(id)));
      var b := Next(a, Step(t, Go));
      var n := Next(b, Step(t, Go));
      n == s.(tasks := s.tasks[t := s.tasks[t].(paymentId := id, pc := AwaitCharge)],
              orders := s.orders[o := s.orders[o].(paymentId := Some(id))],
              payments := s.payments[o := Payment(id, true, Open)],
              charges := s.charges + [ChargeCall(s.tasks[t].spec.key, o)])
  {
    InitStep(s, t, o, route, id);
    var a := s.(tasks := s.tasks[t := s.tasks[t].(paymentId := id, pc := Persist)],
                payments := s.payments[o := Payment(id, false, Open)]);
    PersistStep(a, t, o, route);
    var b := a.(tasks := a.tasks[t := a.tasks[t].(pc := Charge)],
                orders := a.orders[o := a.orders[o].(paymentId := Some(id))]);
    ChargeStep(b, t, o, route);
    assert b.tasks[t := b.tasks[t].(pc := AwaitCharge)]
        == s.tasks[t := s.tasks[t].(paymentId := id, pc := AwaitCharge)];
    assert b.payments[o := b.payments[o].(chargeable := true)] == s.payments[o := Payment(id, true, Open)];
  }

  /** A rejected Init fails the order, and the request is answered with the error. */
  lemma RejectedInitFails(s: State, t: TaskId, o: OrderId, route: Route)
    requires HasOrder(s, t, o, route, CallInit) && !route.Hosted?
    ensures
      var n := Next(Next(s, Step(t, Refuse)), Step(t, Go));
      n == s.(tasks := s.tasks[t := s.tasks[t].(pc := Done(NoOrder))],
              orders := s.orders[o := s.orders[o].(status := Failed)])
  {
    var a := s.(tasks := s.tasks[t := s.tasks[t].(pc := MarkFailed)]);
    assert Next(s, Step(t, Refuse)) == a;
    FailStep(a, t, o);
    assert a.tasks[t := a.tasks[t].(pc := Done(NoOrder))] == s.tasks[t := s.tasks[t].(pc := Done(NoOrder))];
  }

  lemma FailStep(s: State, t: TaskId, o: OrderId)
    requires t in s.tasks && o in s.orders && s.tasks[t].order == Some(o) && s.tasks[t].pc.MarkFailed?
    ensures Next(s, Step(t, Go))
         == s.(tasks := s.tasks[t := s.tasks[t].(pc := Done(NoOrder))],
               orders := s.orders[o := s.orders[o].(status := Failed)])
  {
  }

  /** A declined charge fails the order, and the request is answered with the error. */
  lemma DeclinedChargeFails(s: State, t: TaskId, o: OrderId, route: Route, status: string, success: Option<bool>)
    requires HasOrder(s, t, o, route, AwaitCharge) && Classify(status, success) == Rejected
    ensures
      var n := Next(Next(s, Step(t, ChargeReply(status, success))), Step(t, Go));
      n == s.(tasks := s.tasks[t := s.tasks[t].(pc := Done(NoOrder))],
              orders := s.orders[o := s.orders[o].(status := Failed)])
  {
    var a := s.(tasks := s.tasks[t := s.tasks[t].(pc := MarkFailed)]);
    assert Next(s, Step(t, ChargeReply(status, success))) == a;
    FailStep(a, t, o);
    assert a.tasks[t := a.tasks[t].(pc := Done(NoOrder))] == s.tasks[t := s.tasks[t].(pc := Done(NoOrder))];
  }

  /** A charge still in flight changes no order; a charge route says so, the overage call stops. */
  lemma ChargeInFlightIsPending(s: State, t: TaskId, o: OrderId, route: Route, status: string, success: Option<bool>)
    requires HasOrder(s, t, o, route, AwaitCharge) && Classify(status, success) == InFlight
    ensures AnsweredOnly(s, Next(s, Step(t, ChargeReply(status, success))), t,
                         if route.Overage? then NoOrder else Named(o, s.tasks[t].spec.amount, Pending))
  {
  }

  /** An exception of Init, of the write or of the charge: a charge route answers with an error and
      leaves the order as it is; the overage call goes on to fail it. */
  lemma ThrownCallAnswers(s: State, t: TaskId, o: OrderId, route: Route)
    requires
      || HasOrder(s, t, o, route, CallInit) || HasOrder(s, t, o, route, Persist)
      || HasOrder(s, t, o, route, AwaitCharge)
    ensures
      var n := Next(s, Step(t, Throws));
      if route.Overage?
      then n == s.(tasks := s.tasks[t := s.tasks[t].(threw := true, pc := MarkFailed)])
      else AnsweredOnly(s, n, t, NoOrder)
  {
  }

  lemma CapturedReply(s: State, t: TaskId, o: OrderId, route: Route, status: string, success: Option<bool>)
    requires HasOrder(s, t, o, route, AwaitCharge) && Classify(status, success) == Succeeded && !route.Hosted?
    ensures
      var next := if route.Overage? then MarkPaid(None, true) else if route.ExtendRide? then Extend else FindRide;
      Next(s, Step(t, ChargeReply(status, success)))
      == s.(tasks := s.tasks[t := s.tasks[t].(target := RideOf(route), pc := next)])
  {
  }

  lemma MarkStep(s: State, t: TaskId, o: OrderId, started: Option<RideId>, ok: bool)
    requires t in s.tasks && o in s.orders && s.tasks[t].order == Some(o) && s.tasks[t].pc == MarkPaid(started, ok)
    ensures
      var task, row := s.tasks[t], s.orders[o];
      var silent := task.kind.Notice? || task.IsOverage() || !ok;
      Next(s, Step(t, Go))
      == s.(tasks := s.tasks[t := task.(pc := Done(if silent then NoOrder else Named(o, task.spec.amount, Paid)))],
            orders := s.orders[o := row.(status := Paid, errored := !ok,
                                         rideId := if started.Some? then started else row.rideId)])
  {
  }

  /** An overage that is captured is recorded as paid; no ride is touched and nobody is told. */
  lemma OverageSettles(s: State, t: TaskId, o: OrderId, ride: RideId, status: string, success: Option<bool>)
    requires HasOrder(s, t, o, Overage(ride), AwaitCharge) && Classify(status, success) == Succeeded
    ensures
      var n := Next(Next(s, Step(t, ChargeReply(status, success))), Step(t, Go));
      n == s.(tasks := s.tasks[t := s.tasks[t].(target := Some(ride), pc := Done(NoOrder))],
              orders := s.orders[o := s.orders[o].(status := Paid, errored := false)])
  {
    CapturedReply(s, t, o, Overage(ride), status, success);
    var a := s.(tasks := s.tasks[t := s.tasks[t].(target := Some(ride), pc := MarkPaid(None, true))]);
    MarkStep(a, t, o, None, true);
    assert a.tasks[t := a.tasks[t].(pc := Done(NoOrder))]
        == s.tasks[t := s.tasks[t].(target := Some(ride), pc := Done(NoOrder))];
  }

  lemma ExtendStep(s: State, t: TaskId, o: OrderId, ride: RideId, allowed: bool)
    requires t in s.tasks && o in s.orders && s.tasks[t].order == Some(o) && s.tasks[t].pc.Extend?
    requires s.tasks[t].target == Some(ride)
    ensures Next(s, Step(t, if allowed then Go else Refuse))
         == s.(tasks := s.tasks[t := s.tasks[t].(pc := MarkPaid(None, allowed))],
               effects := if allowed then s.effects + [Extended(o, ride, t)] else s.effects)
  {
  }

  lemma ExtendAndMark(s: State, t: TaskId, o: OrderId, ride: RideId, allowed: bool)
    requires t in s.tasks && o in s.orders && s.tasks[t].order == Some(o) && s.tasks[t].pc.Extend?
    requires s.tasks[t].target == Some(ride) && !s.tasks[t].IsOverage()
    ensures
      var n := Next(Next(s, Step(t, if allowed then Go else Refuse)), Step(t, Go));
      var reply := if allowed && s.tasks[t].kind.Request? then Named(o, s.tasks[t].spec.amount, Paid) else NoOrder;
      n == s.(tasks := s.tasks[t := s.tasks[t].(pc := Done(reply))],
              orders := s.orders[o := s.orders[o].(status := Paid, errored := !allowed)],
              effects := if allowed then s.effects + [Extended(o, ride, t)] else s.effects)
  {
    ExtendStep(s, t, o, ride, allowed);
    var b := s.(tasks := s.tasks[t := s.tasks[t].(pc := MarkPaid(None, allowed))],
                effects := if allowed then s.effects + [Extended(o, ride, t)] else s.effects);
    MarkStep(b, t, o, None, allowed);
    var reply := if allowed && s.tasks[t].kind.Request? then Named(o, s.tasks[t].spec.amount, Paid) else NoOrder;
    assert b.tasks[t := b.tasks[t].(pc := Done(reply))] == s.tasks[t := s.tasks[t].(pc := Done(reply))];
  }

  /** A captured extension that nothing disturbs extends the ride it was asked for once, and the
      rider is told; where the ride code refuses, the order is paid with an error. */
  lemma ExtensionSettles(
    s: State, t: TaskId, o: OrderId, ride: RideId, status: string, success: Option<bool>, allowed: bool)
    requires HasOrder(s, t, o, ExtendRide(ride), AwaitCharge) && Classify(status, success) == Succeeded
    ensures
      var a := Next(s, Step(t, ChargeReply(status, success)));
      var b := Next(a, Step(t, if allowed then Go else Refuse));
      var n := Next(b, Step(t, Go));
      var reply := if allowed then Named(o, s.tasks[t].spec.amount, Paid) else NoOrder;
      n == s.(tasks := s.tasks[t := s.tasks[t].(target := Some(ride), pc := Done(reply))],
              orders := s.orders[o := s.orders[o].(status := Paid, errored := !allowed)],
              effects := if allowed then s.effects + [Extended(o, ride, t)] else s.effects)
  {
    CapturedReply(s, t, o, ExtendRide(ride), status, success);
    var a := s.(tasks := s.tasks[t := s.tasks[t].(target := Some(ride), pc := Extend)]);
    ExtendAndMark(a, t, o, ride, allowed);
    var reply := if allowed then Named(o, s.tasks[t].spec.amount, Paid) else NoOrder;
    assert a.tasks[t := a.tasks[t].(pc := Done(reply))]
        == s.tasks[t := s.tasks[t].(target := Some(ride), pc := Done(reply))];
  }

  lemma FindStep(s: State, t: TaskId, o: OrderId)
    requires t in s.tasks && o in s.orders && s.tasks[t].order == Some(o) && s.tasks[t].pc.FindRide?
    ensures
      var spec := s.orders[o].spec;
      var mine := spec.bike in s.active && s.active[spec.bike].user == spec.key.user;
      Next(s, Step(t, Go))
      == s.(tasks := s.tasks[t := s.tasks[t].(pc := if mine then MarkPaid(Some(s.active[spec.bike].ride), true)
                                                    else BeginRide)])
  {
  }

  lemma BeginStep(s: State, t: TaskId, o: OrderId, allowed: bool)
    requires t in s.tasks && o in s.orders && s.tasks[t].order == Some(o) && s.tasks[t].pc.BeginRide?
    requires s.tasks[t].spec == s.orders[o].spec
    ensures
      var bike := s.orders[o].spec.bike;
      var starts := allowed && bike !in s.active;
      Next(s, Step(t, if allowed then Go else Refuse))
      == if starts
         then s.(tasks := s.tasks[t := s.tasks[t].(pc := MarkPaid(Some(s.nextRide), true))],
                 effects := s.effects + [Started(o, s.nextRide, bike)],
                 active := s.active[bike := ActiveRide(s.orders[o].spec.key.user, s.nextRide)],
                 nextRide := s.nextRide + 1)
         else s.(tasks := s.tasks[t := s.tasks[t].(pc := MarkPaid(None, false))])
  {
  }

  /** Whether the bike of an order carries a ride of its own rider, so that none is to be started. */
  predicate RidesAlready(s: State, o: OrderId)
    requires o in s.orders
  {
    var spec := s.orders[o].spec;
    spec.bike in s.active && s.active[spec.bike].user == spec.key.user
  }

  /** From the look for a ride to the last write, undisturbed: a ride of the rider's own on the
      bike is taken; otherwise one is started on a free bike; otherwise the order is paid with an
      error. `silent` handlers answer nobody. */
  lemma StartTakesOwn(s: State, t: TaskId, o: OrderId)
    requires t in s.tasks && o in s.orders && s.tasks[t].order == Some(o) && s.tasks[t].pc.FindRide?
    requires RidesAlready(s, o) && !s.tasks[t].IsOverage()
    ensures
      var task := s.tasks[t];
      var reply := if task.kind.Notice? then NoOrder else Named(o, task.spec.amount, Paid);
      var ride := s.active[s.orders[o].spec.bike].ride;
      Next(Next(s, Step(t, Go)), Step(t, Go))
      == s.(tasks := s.tasks[t := task.(pc := Done(reply))],
            orders := s.orders[o := s.orders[o].(status := Paid, errored := false, rideId := Some(ride))])
  {
    FindStep(s, t, o);
    var ride := s.active[s.orders[o].spec.bike].ride;
    var a := s.(tasks := s.tasks[t := s.tasks[t].(pc := MarkPaid(Some(ride), true))]);
    MarkStep(a, t, o, Some(ride), true);
    var reply := if s.tasks[t].kind.Notice? then NoOrder else Named(o, s.tasks[t].spec.amount, Paid);
    assert a.tasks[t := a.tasks[t].(pc := Done(reply))] == s.tasks[t := s.tasks[t].(pc := Done(reply))];
  }

  lemma BeginAndMark(s: State, t: TaskId, o: OrderId)
    requires t in s.tasks && o in s.orders && s.tasks[t].order == Some(o) && s.tasks[t].pc.BeginRide?
    requires s.orders[o].spec.bike !in s.active && !s.tasks[t].IsOverage() && s.tasks[t].spec == s.orders[o].spec
    ensures
      var task, row, bike := s.tasks[t], s.orders[o], s.orders[o].spec.bike;
      var reply := if task.kind.Notice? then NoOrder else Named(o, task.spec.amount, Paid);
      Next(Next(s, Step(t, Go)), Step(t, Go))
      == s.(tasks := s.tasks[t := task.(pc := Done(reply))],
            orders := s.orders[o := row.(status := Paid, errored := false, rideId := Some(s.nextRide))],
            effects := s.effects + [Started(o, s.nextRide, bike)],
            active := s.active[bike := ActiveRide(row.spec.key.user, s.nextRide)],
            nextRide := s.nextRide + 1)
  {
    BeginStep(s, t, o, true);
    var b := Next(s, Step(t, Go));
    MarkStep(b, t, o, Some(s.nextRide), true);
    var reply := if s.tasks[t].kind.Notice? then NoOrder else Named(o, s.tasks[t].spec.amount, Paid);
    assert b.tasks[t := b.tasks[t].(pc := Done(reply))] == s.tasks[t := s.tasks[t].(pc := Done(reply))];
  }

  lemma RefusedAndMark(s: State, t: TaskId, o: OrderId, allowed: bool)
    requires t in s.tasks && o in s.orders && s.tasks[t].order == Some(o) && s.tasks[t].pc.BeginRide?
    requires !allowed || s.orders[o].spec.bike in s.active
    requires s.tasks[t].spec == s.orders[o].spec
    ensures
      Next(Next(s, Step(t, if allowed then Go else Refuse)), Step(t, Go))
      == s.(tasks := s.tasks[t := s.tasks[t].(pc := Done(NoOrder))],
            orders := s.orders[o := s.orders[o].(status := Paid, errored := true)])
  {
    BeginStep(s, t, o, allowed);
    var b := s.(tasks := s.tasks[t := s.tasks[t].(pc := MarkPaid(None, false))]);
    MarkStep(b, t, o, None, false);
    assert b.tasks[t := b.tasks[t].(pc := Done(NoOrder))] == s.tasks[t := s.tasks[t].(pc := Done(NoOrder))];
  }

  lemma StartBegins(s: State, t: TaskId, o: OrderId)
    requires t in s.tasks && o in s.orders && s.tasks[t].order == Some(o) && s.tasks[t].pc.FindRide?
    requires s.orders[o].spec.bike !in s.active && !s.tasks[t].IsOverage() && s.tasks[t].spec == s.orders[o].spec
    ensures
      var task, row, bike := s.tasks[t], s.orders[o], s.orders[o].spec.bike;
      var reply := if task.kind.Notice? then NoOrder else Named(o, task.spec.amount, Paid);
      Next(Next(Next(s, Step(t, Go)), Step(t, Go)), Step(t, Go))
      == s.(tasks := s.tasks[t := task.(pc := Done(reply))],
            orders := s.orders[o := row.(status := Paid, errored := false, rideId := Some(s.nextRide))],
            effects := s.effects + [Started(o, s.nextRide, bike)],
            active := s.active[bike := ActiveRide(row.spec.key.user, s.nextRide)],
            nextRide := s.nextRide + 1)
  {
    FindStep(s, t, o);
    var a := s.(tasks := s.tasks[t := s.tasks[t].(pc := BeginRide)]);
    BeginAndMark(a, t, o);
    var reply := if s.tasks[t].kind.Notice? then NoOrder else Named(o, s.tasks[t].spec.amount, Paid);
    assert a.tasks[t := a.tasks[t].(pc := Done(reply))] == s.tasks[t := s.tasks[t].(pc := Done(reply))];
  }

  lemma StartRefused(s: State, t: TaskId, o: OrderId, allowed: bool)
    requires t in s.tasks && o in s.orders && s.tasks[t].order == Some(o) && s.tasks[t].pc.FindRide?
    requires !RidesAlready(s, o) && (!allowed || s.orders[o].spec.bike in s.active)
    requires s.tasks[t].spec == s.orders[o].spec
    ensures
      Next(Next(Next(s, Step(t, Go)), Step(t, if allowed then Go else Refuse)), Step(t, Go))
      == s.(tasks := s.tasks[t := s.tasks[t].(pc := Done(NoOrder))],
            orders := s.orders[o := s.orders[o].(status := Paid, errored := true)])
  {
    FindStep(s, t, o);
    var a := s.(tasks := s.tasks[t := s.tasks[t].(pc := BeginRide)]);
    RefusedAndMark(a, t, o, allowed);
    assert a.tasks[t := a.tasks[t].(pc := Done(NoOrder))] == s.tasks[t := s.tasks[t].(pc := Done(NoOrder))];
  }

  /** An exception at a step that settles: a charge route answers with an error, whatever is bought
      by then; the overage call fails its order, and stops if even that throws; a notification gives
      its claim back, and stops where it has none or cannot. No row changes. */
  lemma ThrownSettlementAnswers(s: State, t: TaskId, o: OrderId)
    requires t in s.tasks && o in s.orders && OwnTask(s, t) && s.tasks[t].order == Some(o) && Settling(s.tasks[t])
    ensures
      var task, n := s.tasks[t], Next(s, Step(t, Throws));
      if task.pc.Claim? || task.pc.Release? || (task.kind.Request? && task.pc.MarkFailed?)
         || (task.kind.Request? && !task.IsOverage())
      then AnsweredOnly(s, n, t, NoOrder)
      else n == s.(tasks := s.tasks[t := task.(threw := true, pc := if task.kind.Notice? then Release else MarkFailed)])
  {
  }

  /** A captured start goes on to look for the rider's ride. */
  lemma StartFinds(s: State, t: TaskId, o: OrderId, status: string, success: Option<bool>)
    requires HasOrder(s, t, o, StartRide, AwaitCharge) && Classify(status, success) == Succeeded
    ensures Next(s, Step(t, ChargeReply(status, success)))
         == s.(tasks := s.tasks[t := s.tasks[t].(target := None, pc := FindRide)])
  {
    CapturedReply(s, t, o, StartRide, status, success);
  }

  // ---------- one notification from end to end ----------

  /** A notification as it arrives at an order that it can claim. */
  function AtClaim(spec: Spec, o: OrderId, outcome: Outcome): Task {
    Task(Notice(outcome), spec, Some(o), false, 0, false, false, None, Claim)
  }

  /** A notification of anything but a final state, or about an order that is paid, does nothing. */
  lemma NoticeIgnored(s: State, t: TaskId, o: OrderId, status: string, success: Option<bool>)
    requires o in s.orders && t !in s.tasks
    requires s.orders[o].status == Paid || Classify(status, success) == InFlight
    ensures
      var n := Next(s, Notify(t, o, status, success));
      && t in n.tasks && n.tasks[t].pc == Done(NoOrder) && n == s.(tasks := s.tasks[t := n.tasks[t]])
  {
  }

  lemma NoticeComes(s: State, t: TaskId, o: OrderId, status: string, success: Option<bool>)
    requires o in s.orders && t !in s.tasks
    requires s.orders[o].status != Paid && Classify(status, success) != InFlight
    ensures Next(s, Notify(t, o, status, success))
         == s.(tasks := s.tasks[t := AtClaim(s.orders[o].spec, o, Classify(status, success))])
  {
  }

  /** The claim passes exactly on an order that is neither paid nor being processed. */
  lemma NoticeClaimsIff(s: State, t: TaskId, o: OrderId, outcome: Outcome)
    requires o in s.orders && t in s.tasks && s.tasks[t] == AtClaim(s.orders[o].spec, o, outcome) && outcome != InFlight
    ensures
      var row := s.orders[o];
      var next :=
        if outcome == Rejected then MarkFailed else if row.overage then MarkPaid(None, true)
        else if row.rideId.Some? then Extend else FindRide;
      if row.status == Paid || row.status == Processing
      then AnsweredOnly(s, Next(s, Step(t, Go)), t, NoOrder)
      else Next(s, Step(t, Go))
           == s.(tasks := s.tasks[t := s.tasks[t].(claimed := true, target := row.rideId, pc := next)],
                 orders := s.orders[o := row.(status := Processing)])
  {
  }

  /** A notification of a refused payment fails the order. */
  lemma NoticeFails(s: State, t: TaskId, o: OrderId)
    requires o in s.orders && t in s.tasks && s.tasks[t] == AtClaim(s.orders[o].spec, o, Rejected)
    requires s.orders[o].status == Pending || s.orders[o].status == Failed
    ensures
      var n := Next(Next(s, Step(t, Go)), Step(t, Go));
      n == s.(tasks := s.tasks[t := n.tasks[t]], orders := s.orders[o := s.orders[o].(status := Failed)])
      && n.tasks[t].pc == Done(NoOrder)
  {
    NoticeClaimsIff(s, t, o, Rejected);
    var a := Next(s, Step(t, Go));
    FailStep(a, t, o);
    assert a.orders[o := a.orders[o].(status := Failed)] == s.orders[o := s.orders[o].(status := Failed)];
  }

  /** A notification of a captured overage records it as paid and touches no ride. */
  lemma NoticeSettlesOverage(s: State, t: TaskId, o: OrderId)
    requires o in s.orders && t in s.tasks && s.tasks[t] == AtClaim(s.orders[o].spec, o, Succeeded)
    requires s.orders[o].status == Pending || s.orders[o].status == Failed
    requires s.orders[o].overage
    ensures
      var n := Next(Next(s, Step(t, Go)), Step(t, Go));
      && n == s.(tasks := s.tasks[t := n.tasks[t]],
                 orders := s.orders[o := s.orders[o].(status := Paid, errored := false)])
      && n.tasks[t].pc == Done(NoOrder)
  {
    NoticeClaimsIff(s, t, o, Succeeded);
    var a := Next(s, Step(t, Go));
    MarkStep(a, t, o, None, true);
    assert a.orders[o := a.orders[o].(status := Paid, errored := false)]
        == s.orders[o := s.orders[o].(status := Paid, errored := false)];
  }

  /** A notification of a captured extension extends the ride on the order, or records the error. */
  lemma NoticeExtends(s: State, t: TaskId, o: OrderId, ride: RideId, allowed: bool)
    requires o in s.orders && t in s.tasks && s.tasks[t] == AtClaim(s.orders[o].spec, o, Succeeded)
    requires s.orders[o].status == Pending || s.orders[o].status == Failed
    requires !s.orders[o].overage && s.orders[o].rideId == Some(ride)
    ensures
      var a := Next(s, Step(t, Go));
      var b := Next(a, Step(t, if allowed then Go else Refuse));
      var n := Next(b, Step(t, Go));
      && n == s.(tasks := s.tasks[t := n.tasks[t]],
                 orders := s.orders[o := s.orders[o].(status := Paid, errored := !allowed)],
                 effects := if allowed then s.effects + [Extended(o, ride, t)] else s.effects)
      && n.tasks[t].pc == Done(NoOrder)
  {
    NoticeClaimsIff(s, t, o, Succeeded);
    var won := s.tasks[t].(claimed := true, target := Some(ride), pc := Extend);
    var a := s.(tasks := s.tasks[t := won], orders := s.orders[o := s.orders[o].(status := Processing)]);
    ExtendAndMark(a, t, o, ride, allowed);
    assert a.tasks[t := won.(pc := Done(NoOrder))] == s.tasks[t := won.(pc := Done(NoOrder))];
    assert a.orders[o := a.orders[o].(status := Paid, errored := !allowed)]
        == s.orders[o := s.orders[o].(status := Paid, errored := !allowed)];
  }

  // ---------- the hosted route ----------

  /** The hosted route calls Init first and inserts its order after it, and is answered at once: the
      rider pays on the acquirer's page. */
  lemma HostedReserves(s: State, t: TaskId, spec: Spec, id: nat)
    requires Fresh(s, t, Hosted, spec)
    ensures
      var o := s.nextOrder;
      var a := Next(s, Step(t, Go));
      var b := Next(a, Step(t, InitOk(id)));
      var c := Next(b, Step(t, Go));
      var n := Next(c, Step(t, Go));
      n == s.(tasks := s.tasks[t := n.tasks[t]],
              orders := s.orders[o := Order(spec, false, t, None, Some(id), Pending, false)],
              payments := s.payments[o := Payment(id, true, Open)], nextOrder := o + 1)
      && n.tasks[t].pc == Done(Named(o, spec.amount, Pending))
  {
    var o := s.nextOrder;
    var a, b := Next(s, Step(t, Go)), Next(Next(s, Step(t, Go)), Step(t, InitOk(id)));
    var task := Reserved(Hosted, spec, o, CallInit).(owned := false);
    assert a == s.(tasks := s.tasks[t := task], nextOrder := o + 1);
    HostedInit(a, t, spec, o, id);
    HostedInsert(b, t, spec, o, id);
    assert b.tasks == s.tasks[t := task.(paymentId := id, pc := Insert)];
  }

  lemma HostedInit(s: State, t: TaskId, spec: Spec, o: OrderId, id: nat)
    requires t in s.tasks && s.tasks[t] == Reserved(Hosted, spec, o, CallInit).(owned := false)
    ensures Next(s, Step(t, InitOk(id)))
         == s.(tasks := s.tasks[t := s.tasks[t].(paymentId := id, pc := Insert)],
               payments := s.payments[o := Payment(id, true, Open)])
  {
  }

  lemma HostedInsert(s: State, t: TaskId, spec: Spec, o: OrderId, id: nat)
    requires t in s.tasks && s.tasks[t] == Reserved(Hosted, spec, o, Insert).(owned := false, paymentId := id)
    requires !Holds(s, spec.key)
    ensures
      var n := Next(Next(s, Step(t, Go)), Step(t, Go));
      n == s.(tasks := s.tasks[t := n.tasks[t]],
              orders := s.orders[o := Order(spec, false, t, None, Some(id), Pending, false)])
      && n.tasks[t].pc == Done(Named(o, spec.amount, Pending))
  {
    var c := Next(s, Step(t, Go));
    assert c == s.(tasks := s.tasks[t := s.tasks[t].(owned := true, pc := Persist)],
                   orders := s.orders[o := Order(spec, false, t, None, None, Pending, false)]);
    assert Next(c, Step(t, Go)).orders == c.orders[o := c.orders[o].(paymentId := Some(id))];
    assert c.orders[o := c.orders[o].(paymentId := Some(id))]
        == s.orders[o := Order(spec, false, t, None, Some(id), Pending, false)];
    var done := Done(Named(o, spec.amount, Pending));
    assert Next(c, Step(t, Go)).tasks == c.tasks[t := c.tasks[t].(pc := done)];
    assert c.tasks[t := c.tasks[t].(pc := done)] == s.tasks[t := c.tasks[t].(pc := done)];
  }
}
