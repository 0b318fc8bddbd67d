/** Whether a request comes to charge at all: what the key it carries decides. */
module ChargeReservation {
  import opened Options
  import opened RidePayment
  import opened ChargeProtocol
  import opened ChargeInvariants
  import opened ChargeTruth
  import opened ChargeOutcomes
  import opened ChargeContinuations

  /** A request that has not come to its insert yet. */
  predicate BeforeInsert(task: Task) {
    task.kind.Request? && !task.IsHosted()
    && (task.pc.Lookup? || task.pc.Validate? || task.pc.ReserveLookup? || task.pc.Insert?)
  }

  /** The request has its own order and has sent the Charge call for it. */
  predicate Charging(s: State, t: TaskId) {
    t in s.tasks && s.tasks[t].owned && s.tasks[t].pc.AwaitCharge?
  }

  ghost predicate MayCharge(s: State, t: TaskId) { exists n :: Leads(s, n, {}) && Charging(n, t) }

  // ---------- a free key ----------

  lemma ChargesAfter(s: State, e: Event, t: TaskId)
    requires Truthful(s, e) && MayCharge(Next(s, e), t)
    ensures MayCharge(s, t)
  {
    var n :| Leads(Next(s, e), n, {}) && Charging(n, t);
    LeadsBy(s, e);
    LeadsOn(s, Next(s, e), n, {});
  }

  lemma SendCharges(s: State, t: TaskId)
    requires t in s.tasks && s.tasks[t].owned && s.tasks[t].order.Some? && s.tasks[t].pc.Charge?
    ensures MayCharge(s, t)
  {
    LeadsBy(s, Step(t, Go));
    assert Charging(Next(s, Step(t, Go)), t);
  }

  lemma PersistCharges(s: State, t: TaskId)
    requires t in s.tasks && s.tasks[t].owned && s.tasks[t].order.Some? && s.tasks[t].pc.Persist?
    requires !s.tasks[t].IsHosted()
    ensures MayCharge(s, t)
  {
    assert Next(s, Step(t, Go)).tasks[t] == s.tasks[t].(pc := Charge);
    SendCharges(Next(s, Step(t, Go)), t);
    ChargesAfter(s, Step(t, Go), t);
  }

  lemma InitCharges(s: State, t: TaskId)
    requires t in s.tasks && s.tasks[t].owned && s.tasks[t].order.Some? && s.tasks[t].pc.CallInit?
    requires !s.tasks[t].IsHosted()
    ensures MayCharge(s, t)
  {
    var e := Step(t, InitOk(0));
    assert Next(s, e).tasks[t] == s.tasks[t].(paymentId := 0, pc := Persist);
    PersistCharges(Next(s, e), t);
    ChargesAfter(s, e, t);
  }

  lemma InsertCharges(s: State, t: TaskId)
    requires t in s.tasks && BeforeInsert(s.tasks[t]) && s.tasks[t].pc.Insert? && s.tasks[t].order.Some?
    requires !Holds(s, s.tasks[t].spec.key)
    ensures MayCharge(s, t)
  {
    assert Next(s, Step(t, Go)).tasks[t] == s.tasks[t].(owned := true, pc := CallInit);
    InitCharges(Next(s, Step(t, Go)), t);
    ChargesAfter(s, Step(t, Go), t);
  }

  lemma ReserveCharges(s: State, t: TaskId)
    requires t in s.tasks && BeforeInsert(s.tasks[t]) && s.tasks[t].pc.ReserveLookup? && s.tasks[t].order.Some?
    requires !Holds(s, s.tasks[t].spec.key)
    ensures MayCharge(s, t)
  {
    var n := Next(s, Step(t, Go));
    assert n.orders == s.orders && n.tasks[t] == s.tasks[t].(pc := Insert);
    assert !Holds(n, s.tasks[t].spec.key);
    InsertCharges(n, t);
    ChargesAfter(s, Step(t, Go), t);
  }

  lemma ValidCharges(s: State, t: TaskId)
    requires t in s.tasks && BeforeInsert(s.tasks[t]) && s.tasks[t].pc.Validate?
    requires !Holds(s, s.tasks[t].spec.key)
    ensures MayCharge(s, t)
  {
    var n := Next(s, Step(t, Go));
    assert n.orders == s.orders && n.tasks[t] == s.tasks[t].(order := Some(s.nextOrder), pc := ReserveLookup);
    assert !Holds(n, s.tasks[t].spec.key);
    ReserveCharges(n, t);
    ChargesAfter(s, Step(t, Go), t);
  }

  lemma LookupCharges(s: State, t: TaskId)
    requires t in s.tasks && BeforeInsert(s.tasks[t]) && s.tasks[t].pc.Lookup?
    requires !Holds(s, s.tasks[t].spec.key)
    ensures MayCharge(s, t)
  {
    var n := Next(s, Step(t, Go));
    assert n.orders == s.orders && n.tasks[t] == s.tasks[t].(pc := Validate);
    assert !Holds(n, s.tasks[t].spec.key);
    ValidCharges(n, t);
    ChargesAfter(s, Step(t, Go), t);
  }

  lemma FreeKeyCharges(s: State, t: TaskId)
    requires Safe(s) && t in s.tasks && BeforeInsert(s.tasks[t]) && !Holds(s, s.tasks[t].spec.key)
    ensures MayCharge(s, t)
  {
    assert OwnTask(s, t);
    if s.tasks[t].pc.Lookup? { LookupCharges(s, t); }
    else if s.tasks[t].pc.Validate? { ValidCharges(s, t); }
    else if s.tasks[t].pc.ReserveLookup? { ReserveCharges(s, t); }
    else { InsertCharges(s, t); }
  }

  // ---------- a key that an order holds ----------

  /** The request owns no order, and one of another request holds its key. */
  ghost predicate Forestalled(s: State, t: TaskId, key: Key) {
    t in s.tasks && !s.tasks[t].owned && s.tasks[t].kind.Request? && s.tasks[t].spec.key == key && Holds(s, key)
  }

  lemma HoldsStays(s: State, t: TaskId, c: Choice, key: Key)
    requires Safe(s) && t in s.tasks && Holds(s, key)
    ensures Holds(Next(s, Step(t, c)), key)
  {
    assert Told(s, t);
    PlanLegal(s, t, c);
    WriteFrame(s, t, Plan(s, t, c));
    var o := RowOf(s, key);
    assert o in Next(s, Step(t, c)).orders && Next(s, Step(t, c)).orders[o].spec == s.orders[o].spec;
  }

  lemma StaysOut(s: State, t: TaskId, c: Choice, key: Key)
    requires Safe(s) && Forestalled(s, t, key)
    ensures
      var n := Next(s, Step(t, c));
      t in n.tasks && !n.tasks[t].owned && n.tasks[t].kind == s.tasks[t].kind && n.tasks[t].spec == s.tasks[t].spec
  {
    assert Told(s, t);
    PlanLegal(s, t, c);
  }

  lemma ForestalledNext(s: State, e: Event, t: TaskId, key: Key)
    requires Safe(s) && Forestalled(s, t, key)
    ensures Forestalled(Next(s, e), t, key)
  {
    if e.Step? && e.task in s.tasks {
      HoldsStays(s, e.task, e.choice, key);
      if e.task == t { StaysOut(s, t, e.choice, key); }
    } else {
      OrdersOutside(s, e);
      assert Holds(Next(s, e), key) by {
        var o := RowOf(s, key);
        assert o in Next(s, e).orders;
      }
    }
  }

  lemma {:induction false} ForestalledOn(s: State, more: seq<Event>, t: TaskId, key: Key)
    requires Safe(s) && Forestalled(s, t, key)
    ensures Safe(Run(s, more)) && Forestalled(Run(s, more), t, key)
  {
    if more != [] {
      ForestalledOn(s, more[..|more| - 1], t, key);
      NextSafe(Run(s, more[..|more| - 1]), more[|more| - 1]);
      ForestalledNext(Run(s, more[..|more| - 1]), more[|more| - 1], t, key);
    }
  }

  /** Before its insert, a request of the three charge routes can still come to send a Charge
      exactly when no order holds its key. For the server's own overage call, whose key is made of
      the ride's id, that decides whether the overtime is ever charged. */
  lemma ChargesIffKeyIsFree(s: State, t: TaskId)
    requires Reachable(s) && t in s.tasks && BeforeInsert(s.tasks[t])
    ensures MayCharge(s, t) <==> !Holds(s, s.tasks[t].spec.key)
  {
    ReachableKeeps(s);
    if Holds(s, s.tasks[t].spec.key) {
      assert OwnTask(s, t);
      forall n | Leads(s, n, {}) ensures !Charging(n, t) {
        var more :| Continues(s, n, {}, more);
        ForestalledOn(s, more, t, s.tasks[t].spec.key);
      }
    } else {
      FreeKeyCharges(s, t);
    }
  }
}
