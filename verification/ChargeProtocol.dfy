/** The saved-card charge protocol as an interleaving of atomic steps.

    Every stretch of a handler between two `await`s is one step of its task, so any
    number of requests and notifications may run between any two steps of another.
    A task whose process dies is a task that takes no further step: every run with
    crashes is a run of this system.
  */
module ChargeProtocol {
  import opened Options
  import opened RidePayment

  type OrderId = nat
  type TaskId = nat
  type RideId = nat

  /** (userId, Idempotency-Key): what the partial unique index on the order table is over. */
  datatype Key = Key(user: string, idem: string)

  datatype Status = Pending | Processing | Paid | Failed

  /** What an order is for: fixed when its row is inserted. */
  datatype Spec = Spec(key: Key, amount: nat, bike: string)

  /** A row of the order table. `errored` says that `lastErrorMessage` holds a ride start or
      extension failure. `maker` is the request that inserted the row; the source keeps it
      only in that handler's local variable. */
  datatype Order = Order(
    spec: Spec, overage: bool, maker: TaskId,
    rideId: Option<RideId>, paymentId: Option<nat>, status: Status, errored: bool)

  /** The routes that create orders: the hosted form, the saved-method ride start, the
      saved-method extension, and the charge the server makes itself at ride end. */
  datatype Route = Hosted | StartRide | ExtendRide(ride: RideId) | Overage(ride: RideId)

  datatype Reply = NoOrder | Named(order: OrderId, amount: nat, status: Status)

  datatype Pc =
    | Lookup | Validate | ReserveLookup | Insert | Reread   // idempotency and reservation
    | CallInit | Persist | Charge | AwaitCharge             // acquirer calls
    | Claim                                                 // notification only
    | FindRide | BeginRide | Extend                         // effect of a captured payment
    | MarkPaid(started: Option<RideId>, ok: bool) | MarkFailed
    | Release                                               // notification's catch block
    | Done(reply: Reply)

  datatype Kind = Request(route: Route) | Notice(outcome: Outcome)

  /** A running handler: a request, or a notification of a terminal outcome. `order` is the
      order id it has drawn or was notified of, `owned` is `reserved.created`, `claimed` says that a
      notification has claimed its row, `threw` that its try block was left by an exception. */
  datatype Task = Task(
    kind: Kind, spec: Spec, order: Option<OrderId>, owned: bool, paymentId: nat,
    claimed: bool, threw: bool, target: Option<RideId>, pc: Pc)
  {
    predicate Is(route: Route) { kind == Request(route) }
    predicate IsOverage() { kind.Request? && kind.route.Overage? }
    predicate IsHosted() { kind == Request(Hosted) }
  }

  datatype Verdict = Open | Captured | Declined

  /** The acquirer's own record of a payment registered by Init. */
  datatype Payment = Payment(id: nat, chargeable: bool, verdict: Verdict)

  datatype ChargeCall = ChargeCall(key: Key, order: OrderId)

  /** What a captured payment bought: a ride started, or one more tariff block on a ride. */
  datatype Effect =
    | Started(order: OrderId, ride: RideId, bike: string)
    | Extended(order: OrderId, ride: RideId, task: TaskId)

  datatype ActiveRide = ActiveRide(user: string, ride: RideId)

  datatype State = State(
    orders: map<OrderId, Order>,
    tasks: map<TaskId, Task>,
    payments: map<OrderId, Payment>,
    charges: seq<ChargeCall>,
    effects: seq<Effect>,
    active: map<string, ActiveRide>,
    nextOrder: OrderId,
    nextRide: RideId)

  /** What the environment decides at a step: `Refuse` is a refused validation, a rejected
      Init or an error result of the ride code, `Throws` an exception of the awaited call,
      `Late` an exception after the awaited write was committed, `LostInit` an Init that took
      effect and whose reply was lost. An exception after any other committed step is one at the
      step that follows it, or a handler that takes no further step. */
  datatype Choice =
    | Go | Refuse | Throws | Late
    | InitOk(id: nat) | LostInit(id: nat)
    | ChargeReply(status: string, success: Option<bool>)

  datatype Event =
    | Arrive(task: TaskId, route: Route, spec: Spec)
    | Notify(task: TaskId, order: OrderId, status: string, success: Option<bool>)
    | Step(task: TaskId, choice: Choice)
    | Settle(order: OrderId, verdict: Verdict)
    | EndRide(bike: string)

  const Empty: State := State(map[], map[], map[], [], [], map[], 0, 0)

  // ---------- the steps of a handler ----------

  /** A write to the order table; all but `InsertRow` update the row of the handler's order. */
  datatype Write =
    | NoWrite
    | InsertRow
    | SetPaymentId(id: nat)
    | SetStatus(status: Status)
    | SetPaid(started: Option<RideId>, ok: bool)

  datatype Call = NoCall | InitCall(id: nat) | ChargeSent

  /** What one step of a task does: its own record, at most one write to the order table, one
      acquirer call and one effect on a ride. `issued` says that it drew a fresh order id. */
  datatype Delta = Delta(task: Task, write: Write, call: Call, effect: Option<Effect>, issued: bool)

  function Move(task: Task): Delta {
    Delta(task, NoWrite, NoCall, None, false)
  }

  function Goto(task: Task, pc: Pc): Delta {
    Move(task.(pc := pc))
  }

  function Id(task: Task): OrderId {
    if task.order.Some? then task.order.value else 0
  }

  function Written(orders: map<OrderId, Order>, task: Task, t: TaskId, w: Write): map<OrderId, Order> {
    var o := Id(task);
    if w.NoWrite? then orders
    else if w.InsertRow? then orders[o := NewRow(task, t)]
    else if o !in orders then orders
    else match w
      case SetPaymentId(id) => orders[o := orders[o].(paymentId := Some(id))]
      case SetStatus(status) => orders[o := orders[o].(status := status)]
      case SetPaid(started, ok) =>
        orders[o := orders[o].(status := Paid, errored := !ok,
                               rideId := if started.Some? then started else orders[o].rideId)]
      case _ => orders
  }

  function Called(payments: map<OrderId, Payment>, task: Task, call: Call): map<OrderId, Payment> {
    var o := Id(task);
    match call
    case NoCall => payments
    case InitCall(id) => payments[o := Payment(id, task.IsHosted(), Open)]
    case ChargeSent => if o in payments then payments[o := payments[o].(chargeable := true)] else payments
  }

  function Apply(s: State, t: TaskId, d: Delta): State {
    var starts := d.effect.Some? && d.effect.value.Started?;
    State(
      Written(s.orders, d.task, t, d.write),
      s.tasks[t := d.task],
      Called(s.payments, d.task, d.call),
      if d.call.ChargeSent? then s.charges + [ChargeCall(d.task.spec.key, Id(d.task))] else s.charges,
      if d.effect.Some? then s.effects + [d.effect.value] else s.effects,
      if starts then s.active[d.effect.value.bike := ActiveRide(d.task.spec.key.user, s.nextRide)] else s.active,
      if d.issued then s.nextOrder + 1 else s.nextOrder,
      if starts then s.nextRide + 1 else s.nextRide)
  }

  ghost predicate Holds(s: State, key: Key) {
    exists o :: o in s.orders && s.orders[o].spec.key == key
  }

  /** The row the unique index finds for a key. */
  ghost function RowOf(s: State, key: Key): (o: OrderId)
    requires Holds(s, key)
    ensures o in s.orders && s.orders[o].spec.key == key
  {
    var o :| o in s.orders && s.orders[o].spec.key == key; o
  }

  /** Answer from an existing row: never Init, never Charge. A row that is neither paid nor
      failed is reported as pending; a failed one is answered by its error alone, except on
      the hosted route, which repeats the row. The server's own overage call just stops. */
  function ReplayReply(kind: Kind, o: OrderId, row: Order): Reply {
    match kind
    case Request(Hosted) => Named(o, row.spec.amount, row.status)
    case Request(Overage(_)) => NoOrder
    case _ => match row.status
      case Paid => Named(o, row.spec.amount, Paid)
      case Failed => NoOrder
      case _ => Named(o, row.spec.amount, Pending)
  }

  ghost function Replay(s: State, task: Task): Delta
    requires Holds(s, task.spec.key)
  {
    var o := RowOf(s, task.spec.key);
    Goto(task, Done(ReplayReply(task.kind, o, s.orders[o])))
  }

  /** Where an exception takes a handler: a notification releases its claim, the overage call
      marks its order failed, the two charge routes answer 502 and leave the row alone. */
  function Throw(task: Task): Delta {
    if task.kind.Notice? then Move(task.(threw := true, pc := Release))
    else if task.IsOverage() then Move(task.(threw := true, pc := MarkFailed))
    else Goto(task, Done(NoOrder))
  }

  function RouteRide(kind: Kind): Option<RideId> {
    match kind
    case Request(ExtendRide(ride)) => Some(ride)
    case Request(Overage(ride)) => Some(ride)
    case _ => None
  }

  function NewRow(task: Task, t: TaskId): Order {
    Order(task.spec, task.IsOverage(), t, RouteRide(task.kind), None, Pending, false)
  }

  /** Reserve: look the key up, insert under the unique index, and on a violation read the
      winner. A lost race is a replay. The hosted route calls Init before it inserts. */
  ghost function PlanReserve(s: State, task: Task, c: Choice): Delta {
    if task.pc.Validate? then
      if c.Refuse? then Goto(task, Done(NoOrder))
      else Move(task.(order := Some(s.nextOrder), pc := if task.IsHosted() then CallInit else ReserveLookup))
           .(issued := true)
    else if task.pc.Insert? then
      if c.Throws? then Goto(task, Done(NoOrder))
      else if Holds(s, task.spec.key) then Goto(task, Reread)
      else Move(task.(owned := true, pc := if task.IsHosted() then Persist else CallInit)).(write := InsertRow)
    else if Holds(s, task.spec.key) then Replay(s, task)
    else Goto(task, if task.pc.Lookup? then Validate else if task.pc.ReserveLookup? then Insert else Done(NoOrder))
  }

  /** Init: a rejection fails the order, a reply that never comes leaves the payment registered. */
  function PlanInit(task: Task, c: Choice): Delta {
    match c
    case InitOk(id) =>
      Move(task.(paymentId := id, pc := if task.IsHosted() then Insert else Persist)).(call := InitCall(id))
    case LostInit(id) => Throw(task).(call := InitCall(id))
    case Throws => Throw(task)
    case _ => Goto(task, if task.IsHosted() then Done(NoOrder) else MarkFailed)
  }

  /** Persist the PaymentId, Charge, classify the reply. */
  function PlanPay(task: Task, o: OrderId, c: Choice): Delta {
    match task.pc
    case Persist =>
      if c.Throws? then Throw(task)
      else if c.Late? then Throw(task).(write := SetPaymentId(task.paymentId))
      else Goto(task, if task.IsHosted() then Done(Named(o, task.spec.amount, Pending)) else Charge)
           .(write := SetPaymentId(task.paymentId))
    case Charge => Goto(task, AwaitCharge).(call := ChargeSent)
    case AwaitCharge =>
      if c.Throws? then Throw(task)
      else if c.ChargeReply? then PlanReply(task, o, Classify(c.status, c.success))
      else Move(task)
    case _ => Move(task)
  }

  function PlanReply(task: Task, o: OrderId, outcome: Outcome): Delta {
    match outcome
    case Succeeded =>
      Move(task.(target := RouteRide(task.kind), pc := EffectPc(task.IsOverage(), RouteRide(task.kind))))
    case Rejected => Goto(task, MarkFailed)
    case InFlight => Goto(task, Done(if task.IsOverage() then NoOrder else Named(o, task.spec.amount, Pending)))
  }

  /** What a captured payment leads to. An overage order is settled without touching any ride;
      an order that carries a ride id extends that ride; any other starts one. */
  function EffectPc(overage: bool, target: Option<RideId>): Pc {
    if overage then MarkPaid(None, true)
    else if target.Some? then Extend
    else FindRide
  }

  /** Claim: one conditional UPDATE that only a row neither paid nor being processed passes. */
  function PlanClaim(task: Task, row: Order): Delta {
    if row.status == Paid || row.status == Processing then Goto(task, Done(NoOrder))
    else Move(task.(claimed := true, target := row.rideId,
                    pc := if task.kind == Notice(Succeeded) then EffectPc(row.overage, row.rideId) else MarkFailed))
         .(write := SetStatus(Processing))
  }

  /** The effect a captured payment has on the rides: reuse the rider's ride on that bike,
      start one, or add a tariff block to the target ride. */
  function PlanEffect(s: State, task: Task, row: Order, t: TaskId, o: OrderId, c: Choice): Delta {
    match task.pc
    case FindRide =>
      if row.spec.bike in s.active && s.active[row.spec.bike].user == row.spec.key.user
      then Goto(task, MarkPaid(Some(s.active[row.spec.bike].ride), true))
      else Goto(task, BeginRide)
    case BeginRide =>
      if c.Refuse? || row.spec.bike in s.active then Goto(task, MarkPaid(None, false))
      else Goto(task, MarkPaid(Some(s.nextRide), true)).(effect := Some(Started(o, s.nextRide, row.spec.bike)))
    case Extend =>
      if c.Refuse? || task.target.None? then Goto(task, MarkPaid(None, false))
      else Goto(task, MarkPaid(None, true)).(effect := Some(Extended(o, task.target.value, t)))
    case _ => Move(task)
  }

  /** The row that the last write of a captured payment leaves. */
  function PaidRow(row: Order, pc: Pc): Order
    requires pc.MarkPaid?
  {
    row.(status := Paid, errored := !pc.ok, rideId := if pc.started.Some? then pc.started else row.rideId)
  }

  /** The last write to the row: paid with or without a ride, failed, or released. */
  function PlanMark(task: Task, o: OrderId, c: Choice): Delta {
    match task.pc
    case MarkPaid(started, ok) =>
      if c.Late? then Throw(task).(write := SetPaid(started, ok))
      else
        var silent := task.kind.Notice? || task.IsOverage() || !ok;
        Goto(task, Done(if silent then NoOrder else Named(o, task.spec.amount, Paid))).(write := SetPaid(started, ok))
    case MarkFailed =>
      (if c.Late? && task.kind.Notice? then Throw(task) else Goto(task, Done(NoOrder))).(write := SetStatus(Failed))
    case Release => Goto(task, Done(NoOrder)).(write := SetStatus(Pending))
    case _ => Move(task)
  }

  /** The steps shared by the routes and the notification. */
  function PlanSettle(s: State, task: Task, t: TaskId, o: OrderId, c: Choice): Delta
    requires o in s.orders
  {
    if c.Throws? then PlanThrow(task)
    else if task.pc.Claim? then PlanClaim(task, s.orders[o])
    else if task.pc.FindRide? || task.pc.BeginRide? || task.pc.Extend? then PlanEffect(s, task, s.orders[o], t, o, c)
    else PlanMark(task, o, c)
  }

  /** An exception at a settling step. A claim that throws has claimed nothing, a release or a
      failure mark that throws is swallowed or answered, and the row keeps what it held. */
  function PlanThrow(task: Task): Delta {
    if task.pc.Claim? || task.pc.Release? || (task.pc.MarkFailed? && task.kind.Request?)
    then Goto(task, Done(NoOrder))
    else Throw(task)
  }

  predicate Reserving(pc: Pc) {
    pc.Lookup? || pc.Validate? || pc.ReserveLookup? || pc.Insert? || pc.Reread?
  }

  predicate AtAcquirer(pc: Pc) {
    pc.CallInit? || pc.Persist? || pc.Charge? || pc.AwaitCharge?
  }

  ghost function Plan(s: State, t: TaskId, c: Choice): Delta
    requires t in s.tasks
  {
    var task := s.tasks[t];
    if Reserving(task.pc) then PlanReserve(s, task, c)
    else if task.pc.Done? || task.order.None? then Move(task)
    else if task.pc.CallInit? then PlanInit(task, c)
    else if AtAcquirer(task.pc) then PlanPay(task, task.order.value, c)
    else if task.order.value in s.orders then PlanSettle(s, task, t, task.order.value, c)
    else Move(task)
  }

  // ---------- arrivals and the outside world ----------

  function NewRequest(route: Route, spec: Spec): Task {
    Task(Request(route), spec, None, false, 0, false, false, None, if route.Overage? then Validate else Lookup)
  }

  /** A notification reads the order's row when it arrives and stops there if the row is paid
      or the reported state is not terminal. */
  function NewNotice(o: OrderId, row: Order, outcome: Outcome): Task {
    Task(Notice(outcome), row.spec, Some(o), false, 0, false, false, None,
         if row.status == Paid || outcome == InFlight then Done(NoOrder) else Claim)
  }

  /** A new handler; a task id is used once. */
  function Spawn(s: State, t: TaskId, task: Task): State {
    if t in s.tasks then s else s.(tasks := s.tasks[t := task])
  }

  ghost function Next(s: State, e: Event): State {
    match e
    case Arrive(t, route, spec) => Spawn(s, t, NewRequest(route, spec))
    case Notify(t, o, status, success) =>
      if o in s.orders then Spawn(s, t, NewNotice(o, s.orders[o], Classify(status, success))) else s
    case Step(t, c) => if t in s.tasks then Apply(s, t, Plan(s, t, c)) else s
    case Settle(o, verdict) =>
      if o in s.payments && s.payments[o].chargeable && s.payments[o].verdict == Open
      then s.(payments := s.payments[o := s.payments[o].(verdict := verdict)]) else s
    case EndRide(bike) => s.(active := s.active - {bike})
  }

  ghost function Run(s: State, events: seq<Event>): State {
    if events == [] then s else Next(Run(s, events[..|events| - 1]), events[|events| - 1])
  }
}
