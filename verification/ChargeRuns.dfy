/** Runs of the charge protocol in which it does less than its comments promise. */
module ChargeRuns {
  import opened Options
  import opened RidePayment
  import opened Text
  import opened ChargeProtocol
  import opened ChargeInvariants
  import opened ChargeTruth
  import opened ChargeExtensions
  import opened ChargeOutcomes
  import opened ChargeContinuations
  import opened ChargeAgain
  import opened ChargeStarts
  import opened ChargeStartsAgain
  import opened ChargeTally
  import opened ChargeReservation

  /** The state of a server whose only request is task 0, with order 0 once it is inserted. */
  function Single(task: Task, rows: map<OrderId, Order>, payments: map<OrderId, Payment>, charges: seq<ChargeCall>)
    : State
  {
    State(rows, map[0 := task], payments, charges, [], map[], 1, 0)
  }

  lemma Take(s: State, t: TaskId, c: Choice, d: Delta)
    requires Reachable(s) && t in s.tasks && Truthful(s, Step(t, c)) && Plan(s, t, c) == d
    ensures Reachable(Apply(s, t, d))
  {
    ReachableNext(s, Step(t, c));
  }

  function At(route: Route, spec: Spec, paymentId: nat, owned: bool, pc: Pc): Task {
    Task(Request(route), spec, Some(0), owned, paymentId, false, false, None, pc)
  }

  function Row(route: Route, spec: Spec, paymentId: Option<nat>, status: Status): Order {
    Order(spec, route.Overage?, 0, RouteRide(Request(route)), paymentId, status, false)
  }

  lemma Arrived(route: Route, spec: Spec)
    requires !route.Hosted?
    ensures
      var task := Task(Request(route), spec, None, false, 0, false, false, None, Validate);
      Reachable(Single(task, map[], map[], []).(nextOrder := 0))
  {
    var task := NewRequest(route, spec);
    ReachableEmpty();
    ReachableNext(Empty, Arrive(0, route, spec));
    var s := Next(Empty, Arrive(0, route, spec));
    assert s == Single(task, map[], map[], []).(nextOrder := 0);
    if !route.Overage? {
      Take(s, 0, Go, Goto(task, Validate));
      assert Apply(s, 0, Goto(task, Validate)).tasks == map[0 := task.(pc := Validate)];
    }
  }

  lemma Validated(route: Route, spec: Spec)
    requires !route.Hosted?
    ensures Reachable(Single(At(route, spec, 0, false, Insert), map[], map[], []))
  {
    Arrived(route, spec);
    var task := Task(Request(route), spec, None, false, 0, false, false, None, Validate);
    var s := Single(task, map[], map[], []).(nextOrder := 0);
    var d := Move(At(route, spec, 0, false, ReserveLookup)).(issued := true);
    Take(s, 0, Go, d);
    var n := Single(At(route, spec, 0, false, ReserveLookup), map[], map[], []);
    assert Apply(s, 0, d).tasks == n.tasks;
    Take(n, 0, Go, Move(At(route, spec, 0, false, Insert)));
    assert Apply(n, 0, Move(At(route, spec, 0, false, Insert))).tasks == map[0 := At(route, spec, 0, false, Insert)];
  }

  lemma Inserted(route: Route, spec: Spec)
    requires !route.Hosted?
    ensures Reachable(Single(At(route, spec, 0, true, CallInit), map[0 := Row(route, spec, None, Pending)], map[], []))
  {
    Validated(route, spec);
    var s := Single(At(route, spec, 0, false, Insert), map[], map[], []);
    var d := Move(At(route, spec, 0, true, CallInit)).(write := InsertRow);
    Take(s, 0, Go, d);
    assert Apply(s, 0, d).tasks == map[0 := d.task];
    assert Apply(s, 0, d).orders == map[0 := Row(route, spec, None, Pending)];
  }

  lemma Initialised(route: Route, spec: Spec)
    requires !route.Hosted?
    ensures Reachable(Single(At(route, spec, 1, true, Persist), map[0 := Row(route, spec, None, Pending)],
                             map[0 := Payment(1, false, Open)], []))
  {
    Inserted(route, spec);
    var s := Single(At(route, spec, 0, true, CallInit), map[0 := Row(route, spec, None, Pending)], map[], []);
    var d := Move(At(route, spec, 1, true, Persist)).(call := InitCall(1));
    Take(s, 0, InitOk(1), d);
    var n := Single(d.task, s.orders, map[0 := Payment(1, false, Open)], []);
    assert Apply(s, 0, d).tasks == n.tasks && Apply(s, 0, d).payments == n.payments;
  }

  lemma Alone(
    task: Task, rows: map<OrderId, Order>, payments: map<OrderId, Payment>, charges: seq<ChargeCall>, d: Delta,
    newRows: map<OrderId, Order>, newPayments: map<OrderId, Payment>)
    requires d.effect.None? && !d.issued && Written(rows, d.task, 0, d.write) == newRows
    requires Called(payments, d.task, d.call) == newPayments
    ensures Apply(Single(task, rows, payments, charges), 0, d)
         == Single(d.task, newRows, newPayments,
                   if d.call.ChargeSent? then charges + [ChargeCall(d.task.spec.key, Id(d.task))] else charges)
  {
    assert Apply(Single(task, rows, payments, charges), 0, d).tasks == map[0 := d.task];
  }

  lemma PersistPlan(route: Route, spec: Spec, s: State)
    requires !route.Hosted? && 0 in s.tasks && s.tasks[0] == At(route, spec, 1, true, Persist)
    ensures Plan(s, 0, Go) == Move(At(route, spec, 1, true, Charge)).(write := SetPaymentId(1))
  {
  }

  lemma Persisted(route: Route, spec: Spec)
    requires !route.Hosted?
    ensures Reachable(Single(At(route, spec, 1, true, Charge), map[0 := Row(route, spec, Some(1), Pending)],
                             map[0 := Payment(1, false, Open)], []))
  {
    Initialised(route, spec);
    var task, rows, payments :=
      At(route, spec, 1, true, Persist), map[0 := Row(route, spec, None, Pending)], map[0 := Payment(1, false, Open)];
    var d := Move(At(route, spec, 1, true, Charge)).(write := SetPaymentId(1));
    PersistPlan(route, spec, Single(task, rows, payments, []));
    Take(Single(task, rows, payments, []), 0, Go, d);
    Alone(task, rows, payments, [], d, map[0 := Row(route, spec, Some(1), Pending)], payments);
  }

  lemma ChargePlan(route: Route, spec: Spec, s: State)
    requires 0 in s.tasks && s.tasks[0] == At(route, spec, 1, true, Charge)
    ensures Plan(s, 0, Go) == Move(At(route, spec, 1, true, AwaitCharge)).(call := ChargeSent)
  {
  }

  lemma Charged(route: Route, spec: Spec)
    requires !route.Hosted?
    ensures Reachable(Single(At(route, spec, 1, true, AwaitCharge), map[0 := Row(route, spec, Some(1), Pending)],
                             map[0 := Payment(1, true, Open)], [ChargeCall(spec.key, 0)]))
  {
    Persisted(route, spec);
    var task, rows, payments :=
      At(route, spec, 1, true, Charge), map[0 := Row(route, spec, Some(1), Pending)], map[0 := Payment(1, false, Open)];
    var d := Move(At(route, spec, 1, true, AwaitCharge)).(call := ChargeSent);
    ChargePlan(route, spec, Single(task, rows, payments, []));
    Take(Single(task, rows, payments, []), 0, Go, d);
    Alone(task, rows, payments, [], d, rows, map[0 := Payment(1, true, Open)]);
    assert [] + [ChargeCall(spec.key, 0)] == [ChargeCall(spec.key, 0)];
  }

  /** Any request of the three charge routes may get as far as a captured Charge whose reply
      is still on its way. */
  lemma CanCharge(route: Route, spec: Spec)
    requires !route.Hosted?
    ensures Reachable(Single(At(route, spec, 1, true, AwaitCharge), map[0 := Row(route, spec, Some(1), Pending)],
                             map[0 := Payment(1, true, Captured)], [ChargeCall(spec.key, 0)]))
  {
    Charged(route, spec);
    var s := Single(At(route, spec, 1, true, AwaitCharge), map[0 := Row(route, spec, Some(1), Pending)],
                    map[0 := Payment(1, true, Open)], [ChargeCall(spec.key, 0)]);
    ReachableNext(s, Settle(0, Captured));
    assert Next(s, Settle(0, Captured)).payments == map[0 := Payment(1, true, Captured)];
  }

  // ---------- the notification overtakes the reply ----------

  /** The same server once a notification of the order, task 1, has come in. */
  function Pair(task: Task, notice: Task, row: Order, key: Key, effects: seq<Effect>): State {
    State(map[0 := row], map[0 := task, 1 := notice], map[0 := Payment(1, true, Captured)],
          [ChargeCall(key, 0)], effects, map[], 1, 0)
  }

  function NoticeAt(spec: Spec, claimed: bool, target: Option<RideId>, pc: Pc): Task {
    Task(Notice(Succeeded), spec, Some(0), false, 0, claimed, false, target, pc)
  }

  lemma PairApplied(
    task: Task, notice: Task, row: Order, key: Key, effects: seq<Effect>, t: TaskId, d: Delta, after: Order)
    requires (t == 0 || t == 1) && d.call.NoCall? && !d.issued && (d.effect.Some? ==> d.effect.value.Extended?)
    requires Written(map[0 := row], d.task, t, d.write) == map[0 := after]
    ensures Apply(Pair(task, notice, row, key, effects), t, d)
         == Pair(if t == 0 then d.task else task, if t == 1 then d.task else notice, after, key,
                 if d.effect.Some? then effects + [d.effect.value] else effects)
  {
    var s := Pair(task, notice, row, key, effects);
    assert Apply(s, t, d).tasks == map[0 := if t == 0 then d.task else task, 1 := if t == 1 then d.task else notice];
  }

  lemma Turn(
    task: Task, notice: Task, row: Order, key: Key, effects: seq<Effect>, t: TaskId, c: Choice, d: Delta, after: Order)
    requires var s := Pair(task, notice, row, key, effects);
             && (t == 0 || t == 1) && Reachable(s) && Truthful(s, Step(t, c)) && Plan(s, t, c) == d
             && d.call.NoCall? && !d.issued && (d.effect.Some? ==> d.effect.value.Extended?)
             && Written(s.orders, d.task, t, d.write) == map[0 := after]
    ensures Reachable(Pair(if t == 0 then d.task else task, if t == 1 then d.task else notice, after, key,
                           if d.effect.Some? then effects + [d.effect.value] else effects))
  {
    Take(Pair(task, notice, row, key, effects), t, c, d);
    PairApplied(task, notice, row, key, effects, t, d, after);
  }

  lemma Noticed(route: Route, spec: Spec)
    requires !route.Hosted?
    ensures Reachable(Pair(At(route, spec, 1, true, AwaitCharge), NoticeAt(spec, false, None, Claim),
                           Row(route, spec, Some(1), Pending), spec.key, []))
  {
    CanCharge(route, spec);
    Confirmed();
    var s := Single(At(route, spec, 1, true, AwaitCharge), map[0 := Row(route, spec, Some(1), Pending)],
                    map[0 := Payment(1, true, Captured)], [ChargeCall(spec.key, 0)]);
    ReachableNext(s, Notify(1, 0, "CONFIRMED", None));
    assert Next(s, Notify(1, 0, "CONFIRMED", None)).tasks
        == map[0 := At(route, spec, 1, true, AwaitCharge), 1 := NoticeAt(spec, false, None, Claim)];
  }

  lemma Claimed(route: Route, spec: Spec)
    requires !route.Hosted?
    ensures Reachable(Pair(At(route, spec, 1, true, AwaitCharge),
                           NoticeAt(spec, true, RouteRide(Request(route)),
                             EffectPc(route.Overage?, RouteRide(Request(route)))),
                           Row(route, spec, Some(1), Processing), spec.key, []))
  {
    Noticed(route, spec);
    var ride := RouteRide(Request(route));
    var d := Move(NoticeAt(spec, true, ride, EffectPc(route.Overage?, ride))).(write := SetStatus(Processing));
    Turn(At(route, spec, 1, true, AwaitCharge), NoticeAt(spec, false, None, Claim), Row(route, spec, Some(1), Pending),
         spec.key, [], 1, Go, d, Row(route, spec, Some(1), Processing));
  }

  lemma NoticeExtendPlan(spec: Spec, ride: RideId, task: Task, row: Order)
    ensures var notice := NoticeAt(spec, true, Some(ride), Extend);
            Plan(Pair(task, notice, row, spec.key, []), 1, Go)
            == Move(notice.(pc := MarkPaid(None, true))).(effect := Some(Extended(0, ride, 1)))
  {
  }

  lemma NoticeExtended(spec: Spec, ride: RideId)
    ensures var route := ExtendRide(ride);
            Reachable(Pair(At(route, spec, 1, true, AwaitCharge),
                           NoticeAt(spec, true, Some(ride), MarkPaid(None, true)),
                           Row(route, spec, Some(1), Processing), spec.key, [Extended(0, ride, 1)]))
  {
    var route := ExtendRide(ride);
    Claimed(route, spec);
    var row := Row(route, spec, Some(1), Processing);
    NoticeExtendPlan(spec, ride, At(route, spec, 1, true, AwaitCharge), row);
    var d := Move(NoticeAt(spec, true, Some(ride), MarkPaid(None, true))).(effect := Some(Extended(0, ride, 1)));
    Turn(At(route, spec, 1, true, AwaitCharge), NoticeAt(spec, true, Some(ride), Extend), row, spec.key, [], 1, Go,
      d, row);
    assert [] + [Extended(0, ride, 1)] == [Extended(0, ride, 1)];
  }

  lemma NoticeMarked(route: Route, spec: Spec, ride: RideId, effects: seq<Effect>)
    requires Reachable(Pair(At(route, spec, 1, true, AwaitCharge),
                            NoticeAt(spec, true, Some(ride), MarkPaid(None, true)),
             Row(route, spec, Some(1), Processing), spec.key, effects))
    ensures Reachable(Pair(At(route, spec, 1, true, AwaitCharge), NoticeAt(spec, true, Some(ride), Done(NoOrder)),
                           Row(route, spec, Some(1), Paid), spec.key, effects))
  {
    var d := Move(NoticeAt(spec, true, Some(ride), Done(NoOrder))).(write := SetPaid(None, true));
    Turn(At(route, spec, 1, true, AwaitCharge), NoticeAt(spec, true, Some(ride), MarkPaid(None, true)),
         Row(route, spec, Some(1), Processing), spec.key, effects, 1, Go, d, Row(route, spec, Some(1), Paid));
  }

  lemma NoticePaid(spec: Spec, ride: RideId)
    ensures var route := ExtendRide(ride);
            Reachable(Pair(At(route, spec, 1, true, AwaitCharge), NoticeAt(spec, true, Some(ride), Done(NoOrder)),
                           Row(route, spec, Some(1), Paid), spec.key, [Extended(0, ride, 1)]))
  {
    NoticeExtended(spec, ride);
    NoticeMarked(ExtendRide(ride), spec, ride, [Extended(0, ride, 1)]);
  }

  lemma ReplyPlan(spec: Spec, ride: RideId, notice: Task, row: Order, effects: seq<Effect>)
    ensures var task := At(ExtendRide(ride), spec, 1, true, AwaitCharge);
            Plan(Pair(task, notice, row, spec.key, effects), 0, ChargeReply("CONFIRMED", None))
            == Move(task.(target := Some(ride), pc := Extend))
  {
    Confirmed();
  }

  lemma ReplyArrives(spec: Spec, ride: RideId)
    ensures var route := ExtendRide(ride);
            Reachable(Pair(At(route, spec, 1, true, Extend).(target := Some(ride)),
                           NoticeAt(spec, true, Some(ride), Done(NoOrder)),
                           Row(route, spec, Some(1), Paid), spec.key, [Extended(0, ride, 1)]))
  {
    var route := ExtendRide(ride);
    NoticePaid(spec, ride);
    Confirmed();
    var row := Row(route, spec, Some(1), Paid);
    ReplyPlan(spec, ride, NoticeAt(spec, true, Some(ride), Done(NoOrder)), row, [Extended(0, ride, 1)]);
    Turn(At(route, spec, 1, true, AwaitCharge), NoticeAt(spec, true, Some(ride), Done(NoOrder)), row, spec.key,
         [Extended(0, ride, 1)], 0, ChargeReply("CONFIRMED", None),
         Move(At(route, spec, 1, true, Extend).(target := Some(ride))), row);
  }

  /** One captured payment extends the ride twice when the notification overtakes the reply of
      the Charge call: the row is already paid when the route extends the ride again. */
  lemma OnePaymentExtendsTwice(spec: Spec, ride: RideId)
    ensures exists s :: Reachable(s) && |s.charges| == 1 && s.effects == [Extended(0, ride, 1), Extended(0, ride, 0)]
  {
    ReplyArrives(spec, ride);
    var route := ExtendRide(ride);
    var task := At(route, spec, 1, true, Extend).(target := Some(ride));
    var row := Row(route, spec, Some(1), Paid);
    var notice := NoticeAt(spec, true, Some(ride), Done(NoOrder));
    var d := Move(task.(pc := MarkPaid(None, true))).(effect := Some(Extended(0, ride, 0)));
    Turn(task, notice, row, spec.key, [Extended(0, ride, 1)], 0, Go, d, row);
    var s := Pair(d.task, notice, row, spec.key, [Extended(0, ride, 1), Extended(0, ride, 0)]);
    assert [Extended(0, ride, 1)] + [Extended(0, ride, 0)] == s.effects;
    assert Reachable(s);
  }

  lemma OveragePaid(spec: Spec, ride: RideId)
    ensures var route := Overage(ride);
            Reachable(Pair(At(route, spec, 1, true, AwaitCharge), NoticeAt(spec, true, Some(ride), Done(NoOrder)),
                           Row(route, spec, Some(1), Paid), spec.key, []))
  {
    Claimed(Overage(ride), spec);
    NoticeMarked(Overage(ride), spec, ride, []);
  }

  lemma OverageThrowPlan(spec: Spec, ride: RideId, notice: Task, row: Order)
    ensures var task := At(Overage(ride), spec, 1, true, AwaitCharge);
            Plan(Pair(task, notice, row, spec.key, []), 0, Throws) == Move(task.(threw := true, pc := MarkFailed))
  {
  }

  lemma OverageThrows(spec: Spec, ride: RideId)
    ensures var route := Overage(ride);
            Reachable(Pair(At(route, spec, 1, true, MarkFailed).(threw := true),
                           NoticeAt(spec, true, Some(ride), Done(NoOrder)), Row(route, spec, Some(1), Paid),
                           spec.key, []))
  {
    OveragePaid(spec, ride);
    var task := At(Overage(ride), spec, 1, true, AwaitCharge);
    var notice := NoticeAt(spec, true, Some(ride), Done(NoOrder));
    var row := Row(Overage(ride), spec, Some(1), Paid);
    OverageThrowPlan(spec, ride, notice, row);
    Turn(task, notice, row, spec.key, [], 0, Throws, Move(task.(threw := true, pc := MarkFailed)), row);
  }

  /** The overage call that times out marks its order failed although the money is captured,
      even over a notification that has already recorded it as paid. */
  lemma CapturedOverageFails(spec: Spec, ride: RideId)
    ensures exists s ::
      && Reachable(s) && 0 in s.orders && s.orders[0].overage && s.orders[0].status == Failed && Got(s, 0)
      && 1 in s.tasks && s.tasks[1].claimed && s.tasks[1].pc.Done?
  {
    var route := Overage(ride);
    OverageThrows(spec, ride);
    var task := At(route, spec, 1, true, MarkFailed).(threw := true);
    var notice := NoticeAt(spec, true, Some(ride), Done(NoOrder));
    var d := Move(task.(pc := Done(NoOrder))).(write := SetStatus(Failed));
    Turn(task, notice, Row(route, spec, Some(1), Paid), spec.key, [], 0, Go, d, Row(route, spec, Some(1), Failed));
    var s := Pair(d.task, notice, Row(route, spec, Some(1), Failed), spec.key, []);
    assert Reachable(s) && Got(s, 0);
  }

  /** Such a state can be reached with the money captured and nothing done for it yet: the
      notification has won its claim and goes no further, nor does the request. */
  lemma DeadClaimIsReachable(spec: Spec, ride: RideId)
    ensures exists s, dead :: Reachable(s) && Wedged(s, 0, dead) && Got(s, 0) && !Bought(s, 0)
  {
    var route := ExtendRide(ride);
    Claimed(route, spec);
    var s := Pair(At(route, spec, 1, true, AwaitCharge), NoticeAt(spec, true, Some(ride), Extend),
                  Row(route, spec, Some(1), Processing), spec.key, []);
    assert Wedged(s, 0, {0, 1}) && Got(s, 0) && !Bought(s, 0);
  }

  // ---------- further runs ----------

  /** The bound on the extensions of one payment is met for every number of notifications. */
  lemma BoundAttained(spec: Spec, ride: RideId, k: nat)
    ensures exists s ::
      Reachable(s) && IsExtension(s, 0, ride) && |s.charges| == 1 && |Winners(s, 0)| == k
        && Count(s.effects, 0) == k + 1
  {
    var route := ExtendRide(ride);
    CanCharge(route, spec);
    var s := Single(At(route, spec, 1, true, AwaitCharge), map[0 := Row(route, spec, Some(1), Pending)],
                    map[0 := Payment(1, true, Captured)], [ChargeCall(spec.key, 0)]);
    assert Winners(s, 0) == {};
    assert AfterHalfFailures(s, ride, 0);
    BoundIsMet(s, ride, k);
  }

  /** And so is that on its starts. */
  lemma StartBoundAttained(spec: Spec, k: nat)
    ensures exists s ::
      Reachable(s) && IsStart(s, 0) && |s.charges| == 1 && |Winners(s, 0)| == k && Tally(s.effects, 0, true) == k + 1
  {
    CanCharge(StartRide, spec);
    var s := Single(At(StartRide, spec, 1, true, AwaitCharge), map[0 := Row(StartRide, spec, Some(1), Pending)],
                    map[0 := Payment(1, true, Captured)], [ChargeCall(spec.key, 0)]);
    assert Winners(s, 0) == {};
    assert AfterHalfStarts(s, 0);
    StartBoundIsMet(s, k);
  }

  /** The reply of a captured charge reaches its request, whatever the notification has done. */
  lemma RouteReplied(route: Route, spec: Spec, notice: Task, row: Order)
    requires !route.Hosted? && !route.Overage?
    requires Reachable(Pair(At(route, spec, 1, true, AwaitCharge), notice, row, spec.key, []))
    ensures
      var ride := RouteRide(Request(route));
      Reachable(Pair(At(route, spec, 1, true, EffectPc(false, ride)).(target := ride), notice, row, spec.key, []))
  {
    var s := Pair(At(route, spec, 1, true, AwaitCharge), notice, row, spec.key, []);
    ReplyCaptured(s, 0, 0);
    ReachableNext(s, Step(0, ChargeReply(Capture, None)));
    RepliedPair(route, spec, notice, row);
  }

  lemma RepliedPair(route: Route, spec: Spec, notice: Task, row: Order)
    ensures
      var ride := RouteRide(Request(route));
      var s := Pair(At(route, spec, 1, true, AwaitCharge), notice, row, spec.key, []);
      s.(tasks := s.tasks[0 := s.tasks[0].(target := ride, pc := EffectPc(false, ride))])
      == Pair(At(route, spec, 1, true, EffectPc(false, ride)).(target := ride), notice, row, spec.key, [])
  {
    var ride := RouteRide(Request(route));
    var task := At(route, spec, 1, true, AwaitCharge);
    assert map[0 := task, 1 := notice][0 := task.(target := ride, pc := EffectPc(false, ride))]
        == map[0 := task.(target := ride, pc := EffectPc(false, ride)), 1 := notice];
  }

  lemma PairExtends(spec: Spec, ride: RideId)
    ensures
      var route, notice := ExtendRide(ride), NoticeAt(spec, false, None, Claim);
      var row, task := Row(route, spec, Some(1), Pending), At(route, spec, 1, true, Extend).(target := Some(ride));
      Next(Pair(task, notice, row, spec.key, []), Step(0, Go))
      == Pair(task.(pc := MarkPaid(None, true)), notice, row, spec.key, [Extended(0, ride, 0)])
  {
    var route, notice := ExtendRide(ride), NoticeAt(spec, false, None, Claim);
    var row, task := Row(route, spec, Some(1), Pending), At(route, spec, 1, true, Extend).(target := Some(ride));
    var s := Pair(task, notice, row, spec.key, []);
    HandlerExtends(s, 0, 0, ride);
    assert s.tasks[0 := task.(pc := MarkPaid(None, true))] == map[0 := task.(pc := MarkPaid(None, true)), 1 := notice];
    assert [] + [Extended(0, ride, 0)] == [Extended(0, ride, 0)];
  }

  /** The route extends first: the reply of the Charge call arrives while a notification of the
      payment is at its claim. */
  lemma RouteExtendsFirst(spec: Spec, ride: RideId)
    ensures
      var route := ExtendRide(ride);
      Reachable(Pair(At(route, spec, 1, true, MarkPaid(None, true)).(target := Some(ride)),
                     NoticeAt(spec, false, None, Claim), Row(route, spec, Some(1), Pending), spec.key,
                     [Extended(0, ride, 0)]))
  {
    var route := ExtendRide(ride);
    Noticed(route, spec);
    var notice, row := NoticeAt(spec, false, None, Claim), Row(route, spec, Some(1), Pending);
    RouteReplied(route, spec, notice, row);
    PairExtends(spec, ride);
    ReachableNext(Pair(At(route, spec, 1, true, Extend).(target := Some(ride)), notice, row, spec.key, []),
      Step(0, Go));
  }

  /** Nor does the order of the two extensions matter: nothing had been bought and nothing shown
      when the route extended the ride, yet the notification wins its claim before the route has
      marked the order, and extends the ride again. No handler fails. */
  lemma ClaimAfterRouteExtendsTwice(spec: Spec, ride: RideId)
    ensures exists s ::
      Reachable(s) && Quiet(s, 0) && |s.charges| == 1 && s.effects == [Extended(0, ride, 0), Extended(0, ride, 1)]
  {
    var route := ExtendRide(ride);
    RouteExtendsFirst(spec, ride);
    var task := At(route, spec, 1, true, MarkPaid(None, true)).(target := Some(ride));
    var s := Pair(task, NoticeAt(spec, false, None, Claim), Row(route, spec, Some(1), Pending), spec.key,
                  [Extended(0, ride, 0)]);
    var m := PairClaims(spec, ride, s);
    HandlerExtends(m, 0, 1, ride);
    ReachableNext(m, Step(1, Go));
    assert [Extended(0, ride, 0)] + [Extended(0, ride, 1)] == [Extended(0, ride, 0), Extended(0, ride, 1)];
    assert Quiet(Next(m, Step(1, Go)), 0);
  }

  lemma PairClaims(spec: Spec, ride: RideId, s: State) returns (m: State)
    requires Reachable(s)
    requires s == Pair(At(ExtendRide(ride), spec, 1, true, MarkPaid(None, true)).(target := Some(ride)),
                       NoticeAt(spec, false, None, Claim), Row(ExtendRide(ride), spec, Some(1), Pending), spec.key,
                       [Extended(0, ride, 0)])
    ensures Reachable(m) && 0 in m.orders && m.charges == s.charges && m.effects == s.effects
    ensures m.tasks == map[0 := s.tasks[0], 1 := NoticeAt(spec, true, Some(ride), Extend)]
  {
    NoticeClaims(s, 0, 1);
    ReachableNext(s, Step(1, Go));
    m := Next(s, Step(1, Go));
  }

  /** The server's own overage call finds its key taken by an order that a rider's request made, and
      never charges: the routes take any key, that of an overage call included. */
  lemma OverageNeverCharges(spec: Spec, overage: Spec, ride: RideId)
    requires overage.key == spec.key
    ensures exists s ::
      && Reachable(s) && s.charges == [] && 1 in s.tasks && s.tasks[1].Is(Overage(ride)) && s.tasks[1].spec == overage
      && BeforeInsert(s.tasks[1]) && !MayCharge(s, 1)
  {
    Inserted(StartRide, spec);
    var s := Single(At(StartRide, spec, 0, true, CallInit), map[0 := Row(StartRide, spec, None, Pending)], map[], []);
    ReachableNext(s, Arrive(1, Overage(ride), overage));
    var n := Next(s, Arrive(1, Overage(ride), overage));
    assert 0 in n.orders && n.orders[0].spec.key == overage.key;
    ChargesIffKeyIsFree(n, 1);
  }

  // ---------- a paid order reopened ----------

  /** A rider's start: a notification has claimed the order and is about to look for a ride, and
      the route has started one and marked the order paid. */
  function StartPaid(spec: Spec, notice: Task, reply: Reply): State {
    State(map[0 := Row(StartRide, spec, Some(1), Paid).(rideId := Some(0))],
          map[0 := At(StartRide, spec, 1, true, Done(reply)), 1 := notice],
          map[0 := Payment(1, true, Captured)], [ChargeCall(spec.key, 0)], [Started(0, 0, spec.bike)],
          map[spec.bike := ActiveRide(spec.key.user, 0)], 1, 1)
  }

  lemma PairFinds(spec: Spec, notice: Task, row: Order)
    ensures
      var task := At(StartRide, spec, 1, true, FindRide);
      Next(Pair(task, notice, row, spec.key, []), Step(0, Go))
      == Pair(task.(pc := BeginRide), notice, row, spec.key, [])
  {
    var task := At(StartRide, spec, 1, true, FindRide);
    HandlerFinds(Pair(task, notice, row, spec.key, []), 0, 0);
    assert map[0 := task, 1 := notice][0 := task.(pc := BeginRide)] == map[0 := task.(pc := BeginRide), 1 := notice];
  }

  lemma RouteFinds(spec: Spec)
    ensures Reachable(Pair(At(StartRide, spec, 1, true, BeginRide), NoticeAt(spec, true, None, FindRide),
                           Row(StartRide, spec, Some(1), Processing), spec.key, []))
  {
    Claimed(StartRide, spec);
    var notice, row := NoticeAt(spec, true, None, FindRide), Row(StartRide, spec, Some(1), Processing);
    RouteReplied(StartRide, spec, notice, row);
    PairFinds(spec, notice, row);
    ReachableNext(Pair(At(StartRide, spec, 1, true, FindRide), notice, row, spec.key, []), Step(0, Go));
  }

  /** The route has started the ride and not yet marked the order. */
  function StartBegun(spec: Spec, notice: Task): State {
    State(map[0 := Row(StartRide, spec, Some(1), Processing)],
          map[0 := At(StartRide, spec, 1, true, MarkPaid(Some(0), true)), 1 := notice],
          map[0 := Payment(1, true, Captured)], [ChargeCall(spec.key, 0)], [Started(0, 0, spec.bike)],
          map[spec.bike := ActiveRide(spec.key.user, 0)], 1, 1)
  }

  lemma PairBegins(spec: Spec, notice: Task)
    ensures Next(Pair(At(StartRide, spec, 1, true, BeginRide), notice, Row(StartRide, spec, Some(1), Processing),
            spec.key, []),
                 Step(0, Go))
         == StartBegun(spec, notice)
  {
    var s := Pair(At(StartRide, spec, 1, true, BeginRide), notice, Row(StartRide, spec, Some(1), Processing),
      spec.key, []);
    HandlerStarts(s, 0, 0);
    assert s.tasks[0 := At(StartRide, spec, 1, true, MarkPaid(Some(0), true))] == StartBegun(spec, notice).tasks;
    assert [] + [Started(0, 0, spec.bike)] == [Started(0, 0, spec.bike)];
    assert s.active[spec.bike := ActiveRide(spec.key.user, 0)] == map[spec.bike := ActiveRide(spec.key.user, 0)];
  }

  lemma RouteBegins(spec: Spec)
    ensures Reachable(StartBegun(spec, NoticeAt(spec, true, None, FindRide)))
  {
    RouteFinds(spec);
    var notice, row := NoticeAt(spec, true, None, FindRide), Row(StartRide, spec, Some(1), Processing);
    PairBegins(spec, notice);
    ReachableNext(Pair(At(StartRide, spec, 1, true, BeginRide), notice, row, spec.key, []), Step(0, Go));
  }

  lemma StartMarks(spec: Spec, notice: Task) returns (reply: Reply)
    ensures Next(StartBegun(spec, notice), Step(0, Go)) == StartPaid(spec, notice, reply)
  {
    var s := StartBegun(spec, notice);
    HandlerMarks(s, 0, 0);
    reply := Next(s, Step(0, Go)).tasks[0].pc.reply;
    assert s.tasks[0 := At(StartRide, spec, 1, true, Done(reply))] == StartPaid(spec, notice, reply).tasks;
    assert s.orders[0 := PaidRow(s.orders[0], MarkPaid(Some(0), true))] == StartPaid(spec, notice, reply).orders;
  }

  lemma RouteStarts(spec: Spec) returns (reply: Reply)
    ensures Reachable(StartPaid(spec, NoticeAt(spec, true, None, FindRide), reply))
  {
    RouteBegins(spec);
    var notice := NoticeAt(spec, true, None, FindRide);
    reply := StartMarks(spec, notice);
    ReachableNext(StartBegun(spec, notice), Step(0, Go));
  }

  /** One captured payment starts two rides, without any exception: the notification had claimed the
      order and looks for the rider's ride only after the one that the route started has ended. */
  lemma OnePaymentStartsTwice(spec: Spec)
    ensures exists s ::
      && Reachable(s) && Quiet(s, 0) && |s.charges| == 1
      && s.effects == [Started(0, 0, spec.bike), Started(0, 1, spec.bike)]
  {
    var reply := RouteStarts(spec);
    var s := StartPaid(spec, NoticeAt(spec, true, None, FindRide), reply);
    FindLeads(s, 1, 0);
    ReachableOn(s, Begun(s, 1, 0), {});
    assert [Started(0, 0, spec.bike)] + [Started(0, 1, spec.bike)]
        == [Started(0, 0, spec.bike), Started(0, 1, spec.bike)];
    assert Quiet(Begun(s, 1, 0), 0);
  }

  lemma StartThrown(spec: Spec) returns (reply: Reply)
    ensures Reachable(StartPaid(spec, NoticeAt(spec, true, None, Release).(threw := true), reply))
  {
    reply := RouteStarts(spec);
    var s := StartPaid(spec, NoticeAt(spec, true, None, FindRide), reply);
    NoticeThrows(s, 0, 1);
    ReachableNext(s, Step(1, Throws));
    assert Next(s, Step(1, Throws)).tasks
        == StartPaid(spec, NoticeAt(spec, true, None, Release).(threw := true), reply).tasks;
  }

  /** A paid order of a charge route does go back to pending: the notification that claimed it
      before the route had marked it is left by an exception. */
  lemma PaidOrderReopens(spec: Spec)
    ensures exists s, e ::
      && Reachable(s) && 0 in s.orders && s.orders[0].status == Paid && !s.orders[0].overage && Releases(s, e, 0)
      && 0 in Next(s, e).orders && Next(s, e).orders[0].status == Pending
  {
    var reply := StartThrown(spec);
    var s := StartPaid(spec, NoticeAt(spec, true, None, Release).(threw := true), reply);
    NoticeReleases(s, 0, 1);
    assert Releases(s, Step(1, Go), 0);
  }

  /** The same once the notification has been left by an exception and given its claim back. */
  function StartReopened(spec: Spec, reply: Reply): State {
    StartPaid(spec, NoticeAt(spec, true, None, Done(NoOrder)).(threw := true), reply)
    .(orders := map[0 := Row(StartRide, spec, Some(1), Pending).(rideId := Some(0))])
  }

  lemma ReleasedPair(spec: Spec, reply: Reply)
    ensures Next(StartPaid(spec, NoticeAt(spec, true, None, Release).(threw := true), reply), Step(1, Go))
         == StartReopened(spec, reply)
  {
    var notice := NoticeAt(spec, true, None, Release).(threw := true);
    var s := StartPaid(spec, notice, reply);
    NoticeReleases(s, 0, 1);
    assert s.tasks[1 := notice.(pc := Done(NoOrder))] == StartReopened(spec, reply).tasks;
    assert s.orders[0 := s.orders[0].(status := Pending)] == StartReopened(spec, reply).orders;
  }

  lemma StartReleased(spec: Spec) returns (reply: Reply)
    ensures Reachable(StartReopened(spec, reply))
  {
    reply := StartThrown(spec);
    ReleasedPair(spec, reply);
    ReachableNext(StartPaid(spec, NoticeAt(spec, true, None, Release).(threw := true), reply), Step(1, Go));
  }

  /** And then the payment of a start also buys an extension: the next notification finds the ride
      on the order that the route started, and takes it for the target of an extension. */
  lemma StartOrderExtends(spec: Spec)
    ensures exists s ::
      Reachable(s) && |s.charges| == 1 && s.effects == [Started(0, 0, spec.bike), Extended(0, 0, 2)]
  {
    var reply := StartReleased(spec);
    ClaimedAndExtended(StartReopened(spec, reply), 2, 0);
    assert [Started(0, 0, spec.bike)] + [Extended(0, 0, 2)] == [Started(0, 0, spec.bike), Extended(0, 0, 2)];
  }
}
