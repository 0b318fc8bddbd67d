/** Giving a card-verification charge back: a retry loop against an acquirer whose replies may be
    refusals, or lost after the money has moved. */
module TbankRefund {
  import opened Options
  import opened Text

  const MAX_ATTEMPTS: nat := 3

  const ALREADY_SETTLED: seq<string> := [
    "CANCELED", "CANCELLED", "REVERSED", "REFUNDED", "PARTIAL_REFUNDED", "REJECTED", "AUTH_FAIL", "DEADLINE_EXPIRED"]

  predicate SettledStatus(status: string) { status in ALREADY_SETTLED }

  /** The payment at the acquirer: what is still held or charged, what went back to the rider,
      and how many Cancel calls arrived. */
  datatype Payment = Payment(outstanding: nat, returned: nat, cancels: nat)

  /** What becomes of one Cancel call. */
  datatype Fate =
    | Unreachable                // neither the call nor anything else arrives
    | ReplyLost                  // the call is carried out, its reply never arrives
    | Refused(status: Option<string>)
    | Answered(status: Option<string>)

  datatype Reply = Thrown | Reply(success: bool, status: Option<string>)

  /** A truthful acquirer: success means that it gave the money back just now, and it does not
      report a settled status while money is outstanding. */
  function TruthfulRefusal(p: Payment, status: Option<string>): Option<string> {
    if status.Some? && SettledStatus(Normal(status.value)) && p.outstanding > 0 then None else status
  }

  function Reversed(p: Payment): Payment { Payment(0, p.returned + p.outstanding, p.cancels) }

  function Carried(p: Payment, fate: Fate): (Payment, Reply) {
    var arrived := p.(cancels := p.cancels + 1);
    match fate
    case Unreachable => (arrived, Thrown)
    case ReplyLost => (Reversed(arrived), Thrown)
    case Refused(status) => (arrived, Reply(false, TruthfulRefusal(p, status)))
    case Answered(status) =>
      if p.outstanding == 0 then (arrived, Reply(false, Some("CANCELED")))
      else (Reversed(arrived), Reply(true, status))
  }

  /** What GetState brings: nothing, or a status that is truthful in the same sense. */
  datatype Lookup = NoAnswer | Status(success: bool, status: Option<string>)

  function LookedUp(p: Payment, lookup: Lookup): Lookup {
    match lookup
    case NoAnswer => NoAnswer
    case Status(success, status) => Status(success, TruthfulRefusal(p, status))
  }

  datatype Result = Refunded(status: string) | NothingToCancel(status: string) | Failed

  /** The rider's contact is needed for the fiscal receipt; without one the routine throws. */
  datatype Outcome = Done(result: Result) | NoContact

  class Acquirer {
    var payment: Payment

    constructor (amount: nat)
      ensures payment == Payment(amount, 0, 0)
    {
      payment := Payment(amount, 0, 0);
    }

    method Cancel(fate: Fate) returns (reply: Reply)
      modifies this
      ensures payment == Carried(old(payment), fate).0
      ensures reply == Carried(old(payment), fate).1
    {
      var outcome := Carried(payment, fate);
      payment, reply := outcome.0, outcome.1;
    }
  }

  function Given(status: Option<string>): string { if status.Some? then Normal(status.value) else "" }

  function StatusBefore(p: Payment, known: string, lookup: Lookup): string {
    var seen := LookedUp(p, lookup);
    if Normal(known) != "" then Normal(known)
    else if seen.Status? && seen.success then Given(seen.status)
    else ""
  }

  /** The attempts from `attempt` on; `fates[k]` is what becomes of the k-th call. */
  function Attempts(p: Payment, status: string, fates: seq<Fate>): (Payment, Result)
    decreases |fates|
  {
    if fates == [] then (p, Failed)
    else
      var (next, reply) := Carried(p, fates[0]);
      var decided := Decided(reply, status);
      if decided.Some? then (next, decided.value) else Attempts(next, status, fates[1..])
  }

  function Refund(p: Payment, paymentId: string, known: string, contact: bool, lookup: Lookup, fates: seq<Fate>)
    : (Payment, Outcome)
  {
    if paymentId == "" then (p, Done(Failed))
    else
      var status := StatusBefore(p, known, lookup);
      if SettledStatus(status) then (p, Done(NothingToCancel(status)))
      else if !contact then (p, NoContact)
      else
        var (after, result) := Attempts(p, status, fates);
        (after, Done(result))
  }

  /** What the reply to one Cancel call decides; an attempt that decides nothing is followed by
      the next one. */
  function Decided(reply: Reply, status: string): Option<Result> {
    if reply.Thrown? then None
    else if reply.success then
      Some(Refunded(if reply.status.Some? then Normal(reply.status.value)
                    else if status != "" then status else "CANCELED"))
    else if SettledStatus(Given(reply.status)) then Some(NothingToCancel(Given(reply.status)))
    else None
  }

  lemma OneAttempt(p: Payment, status: string, fates: seq<Fate>, k: nat)
    requires k < |fates|
    ensures
      var (next, reply) := Carried(p, fates[k]);
      var decided := Decided(reply, status);
      Attempts(p, status, fates[k..])
      == if decided.Some? then (next, decided.value) else Attempts(next, status, fates[k + 1..])
  {
    assert fates[k..][1..] == fates[k + 1..];
  }

  method RefundVerificationCharge(
    acquirer: Acquirer, paymentId: string, known: string, email: string, phone: string,
    lookup: Lookup, fates: seq<Fate>) returns (outcome: Outcome)
    requires |fates| == MAX_ATTEMPTS
    modifies acquirer
    ensures
      var contact := Trim(email) != "" || Trim(phone) != "";
      (acquirer.payment, outcome) == Refund(old(acquirer.payment), paymentId, known, contact, lookup, fates)
  {
    if paymentId == "" {
      return Done(Failed);
    }
    var status := Normal(known);
    if status == "" {
      var state := LookedUp(acquirer.payment, lookup);
      if state.Status? && state.success && state.status.Some? {
        status := Normal(state.status.value);
      }
    }
    if status != "" && SettledStatus(status) {
      return Done(NothingToCancel(status));
    }
    if Trim(email) == "" && Trim(phone) == "" {
      return NoContact;
    }
    var attempt := 1;
    while attempt <= MAX_ATTEMPTS
      invariant 1 <= attempt <= MAX_ATTEMPTS + 1
      invariant Attempts(acquirer.payment, status, fates[attempt - 1..])
             == Attempts(old(acquirer.payment), status, fates)
    {
      OneAttempt(acquirer.payment, status, fates, attempt - 1);
      var reply := acquirer.Cancel(fates[attempt - 1]);
      if reply.Reply? {
        if reply.success {
          return Done(Refunded(if reply.status.Some? then Normal(reply.status.value)
                               else if status != "" then status else "CANCELED"));
        }
        var answered := if reply.status.Some? then Normal(reply.status.value) else "";
        assert answered == Given(reply.status);
        if answered != "" && SettledStatus(answered) {
          return Done(NothingToCancel(answered));
        }
      }
      attempt := attempt + 1;
    }
    return Done(Failed);
  }

  // ---------- what the routine guarantees ----------

  /** A caller's status is as truthful as the acquirer's own. */
  predicate TruthfulStatus(p: Payment, status: string) { SettledStatus(Normal(status)) ==> p.outstanding == 0 }

  predicate Conserved(before: Payment, after: Payment) {
    after.outstanding + after.returned == before.outstanding + before.returned
    && (after.outstanding == before.outstanding || after.outstanding == 0)
  }

  lemma {:induction false} AttemptsConserve(p: Payment, status: string, fates: seq<Fate>)
    ensures Conserved(p, Attempts(p, status, fates).0)
    ensures Attempts(p, status, fates).0.cancels <= p.cancels + |fates|
    ensures !Attempts(p, status, fates).1.Failed? ==> Attempts(p, status, fates).0.outstanding == 0
    decreases |fates|
  {
    if fates != [] {
      AttemptsConserve(Carried(p, fates[0]).0, status, fates[1..]);
    }
  }

  lemma EmptyIsNotSettled()
    ensures !SettledStatus("")
  {
  }

  /** At most three Cancel calls; no money appears or is lost, and it goes back at most once; and
      a result other than a failure means that none is outstanding. */
  lemma RefundIsSafe(p: Payment, paymentId: string, known: string, contact: bool, lookup: Lookup, fates: seq<Fate>)
    requires |fates| == MAX_ATTEMPTS && TruthfulStatus(p, known)
    ensures
      var (after, outcome) := Refund(p, paymentId, known, contact, lookup, fates);
      && Conserved(p, after) && after.cancels <= p.cancels + MAX_ATTEMPTS
      && (outcome.Done? && !outcome.result.Failed? ==> after.outstanding == 0)
  {
    EmptyIsNotSettled();
    AttemptsConserve(p, StatusBefore(p, known, lookup), fates);
  }

  /** The states of a payment from which nothing is to be given back. */
  lemma SettledIs(status: string)
    ensures SettledStatus(status)
       <==> status in {"CANCELED", "CANCELLED", "REVERSED", "REFUNDED", "PARTIAL_REFUNDED", "REJECTED", "AUTH_FAIL",
                       "DEADLINE_EXPIRED"}
  {
  }

  /** A status the caller knows, written in any way, is not asked for again; a settled one, known or
      answered by GetState, ends the refund before any call; an unsettled one does not. */
  lemma KnownStatusDecides(p: Payment, known: string, contact: bool, lookup: Lookup, fates: seq<Fate>)
    ensures Normal(known) != "" ==>
      && Refund(p, "1", known, contact, lookup, fates) == Refund(p, "1", known, contact, NoAnswer, fates)
      && (SettledStatus(Normal(known)) ==>
            Refund(p, "1", known, contact, lookup, fates) == (p, Done(NothingToCancel(Normal(known)))))
      && (!SettledStatus(Normal(known)) && contact ==>
            Refund(p, "1", known, contact, lookup, fates).0 == Attempts(p, Normal(known), fates).0)
    ensures Normal(known) == "" && lookup.Status? && lookup.success && lookup.status.Some? && p.outstanding == 0
            && SettledStatus(Normal(lookup.status.value)) ==>
              Refund(p, "1", known, contact, lookup, fates) == (p, Done(NothingToCancel(Normal(lookup.status.value))))
    ensures Normal(known) == "" && lookup == NoAnswer && contact ==>
              Refund(p, "1", known, contact, lookup, fates).0 == Attempts(p, "", fates).0
    ensures Refund(p, "", known, contact, lookup, fates) == (p, Done(Failed))
    ensures Normal(known) == "" && lookup == NoAnswer && !contact ==>
              Refund(p, "1", known, contact, lookup, fates) == (p, NoContact)
  {
    EmptyIsNotSettled();
  }

  /** Whether a call at this point of the run gets an answer that ends it. */
  predicate Conclusive(p: Payment, fate: Fate) {
    fate.Answered? || (fate.Refused? && p.outstanding == 0 && SettledStatus(Given(fate.status)))
  }

  function PaymentAfter(p: Payment, fates: seq<Fate>): Payment {
    if fates == [] then p else Carried(PaymentAfter(p, fates[..|fates| - 1]), fates[|fates| - 1]).0
  }

  lemma {:induction false} PaymentAfterFirst(p: Payment, fates: seq<Fate>)
    requires fates != []
    ensures PaymentAfter(p, fates) == PaymentAfter(Carried(p, fates[0]).0, fates[1..])
  {
    var front := fates[..|fates| - 1];
    if front == [] {
      assert fates[1..] == [];
      assert fates == [fates[0]];
    } else {
      PaymentAfterFirst(p, front);
      assert front[1..] == fates[1..][..|fates| - 2];
    }
  }

  /** The attempts fail exactly when none of the calls is answered conclusively. */
  lemma {:induction false} AttemptsFailIff(p: Payment, status: string, fates: seq<Fate>)
    ensures Attempts(p, status, fates).1.Failed?
       <==> forall k :: 0 <= k < |fates| ==> !Conclusive(PaymentAfter(p, fates[..k]), fates[k])
    decreases |fates|
  {
    if fates != [] {
      NormalOfCanceled();
      var next, rest := Carried(p, fates[0]).0, fates[1..];
      AttemptsFailIff(next, status, rest);
      EmptyIsNotSettled();
      assert fates[..0] == [];
      forall k | 0 <= k < |rest|
        ensures PaymentAfter(next, rest[..k]) == PaymentAfter(p, fates[..k + 1])
      {
        PaymentAfterFirst(p, fates[..k + 1]);
        assert fates[..k + 1][1..] == rest[..k];
      }
      if Conclusive(p, fates[0]) {
        assert Conclusive(PaymentAfter(p, fates[..0]), fates[0]);
      } else {
        FailsBothOrNeither(p, fates, next, rest);
      }
    }
  }

  lemma FailsBothOrNeither(p: Payment, fates: seq<Fate>, next: Payment, rest: seq<Fate>)
    requires fates != [] && rest == fates[1..] && !Conclusive(p, fates[0])
    requires forall k :: 0 <= k < |rest| ==> PaymentAfter(next, rest[..k]) == PaymentAfter(p, fates[..k + 1])
    ensures (forall k :: 0 <= k < |rest| ==> !Conclusive(PaymentAfter(next, rest[..k]), rest[k]))
       <==> (forall k :: 0 <= k < |fates| ==> !Conclusive(PaymentAfter(p, fates[..k]), fates[k]))
  {
    assert fates[..0] == [];
    forall k | 0 <= k < |rest|
      ensures Conclusive(PaymentAfter(next, rest[..k]), rest[k])
         <==> Conclusive(PaymentAfter(p, fates[..k + 1]), fates[k + 1])
    {
    }
    if forall k :: 0 <= k < |fates| ==> !Conclusive(PaymentAfter(p, fates[..k]), fates[k]) {
      forall k | 0 <= k < |rest|
        ensures !Conclusive(PaymentAfter(next, rest[..k]), rest[k])
      {
        assert !Conclusive(PaymentAfter(p, fates[..k + 1]), fates[k + 1]);
      }
    }
    if forall k :: 0 <= k < |rest| ==> !Conclusive(PaymentAfter(next, rest[..k]), rest[k]) {
      forall k | 0 <= k < |fates|
        ensures !Conclusive(PaymentAfter(p, fates[..k]), fates[k])
      {
        if k > 0 {
          assert !Conclusive(PaymentAfter(next, rest[..k - 1]), rest[k - 1]);
        }
      }
    }
  }

  /** The first call whose answer ends the attempts. */
  predicate EndsAt(p: Payment, fates: seq<Fate>, k: nat)
    requires k < |fates|
  {
    && Conclusive(PaymentAfter(p, fates[..k]), fates[k])
    && forall j :: 0 <= j < k ==> !Conclusive(PaymentAfter(p, fates[..j]), fates[j])
  }

  /** What a conclusive call makes of the money that is outstanding, and what it is reported as. */
  predicate ReportsTruly(before: Payment, fate: Fate, status: string, result: Result) {
    if fate.Answered? && before.outstanding > 0 then
      result == Refunded(if fate.status.Some? then Normal(fate.status.value)
                         else if status != "" then status else "CANCELED")
    else
      result == NothingToCancel(if fate.Refused? && fate.status.Some? then Normal(fate.status.value) else "CANCELED")
  }

  /** The attempts report a refund exactly when the call that ends them gave the money back itself,
      and nothing to cancel exactly when it found none outstanding. */
  lemma {:induction false} AttemptsReport(p: Payment, status: string, fates: seq<Fate>, k: nat)
    requires k < |fates| && EndsAt(p, fates, k)
    ensures Attempts(p, status, fates).0 == PaymentAfter(p, fates[..k + 1])
    ensures ReportsTruly(PaymentAfter(p, fates[..k]), fates[k], status, Attempts(p, status, fates).1)
    decreases |fates|
  {
    NormalOfCanceled();
    EmptyIsNotSettled();
    assert fates[..k + 1][..k] == fates[..k];
    if k == 0 {
      assert fates[..0] == [];
    } else {
      assert fates[..0] == [];
      assert !Conclusive(PaymentAfter(p, fates[..0]), fates[0]);
      var next, rest := Carried(p, fates[0]).0, fates[1..];
      forall j | 0 <= j <= k
        ensures PaymentAfter(next, rest[..j]) == PaymentAfter(p, fates[..j + 1])
      {
        PaymentAfterFirst(p, fates[..j + 1]);
        assert fates[..j + 1][1..] == rest[..j];
      }
      forall j | 0 <= j < k - 1
        ensures !Conclusive(PaymentAfter(next, rest[..j]), rest[j])
      {
        assert !Conclusive(PaymentAfter(p, fates[..j + 1]), fates[j + 1]);
      }
      AttemptsReport(next, status, rest, k - 1);
    }
  }

  /** What failed attempts leave: the money is back with the rider exactly when one of the lost
      replies was to a call that was carried out; otherwise nothing has moved. */
  lemma {:induction false} FailedAttemptsRefundIff(p: Payment, status: string, fates: seq<Fate>)
    requires Attempts(p, status, fates).1.Failed? && p.outstanding > 0
    ensures Attempts(p, status, fates).0.outstanding == 0
       <==> exists k :: 0 <= k < |fates| && fates[k].ReplyLost?
    ensures Attempts(p, status, fates).0.outstanding != 0 ==>
      Attempts(p, status, fates).0 == p.(cancels := p.cancels + |fates|)
    decreases |fates|
  {
    if fates != [] {
      NormalOfCanceled();
      var next, rest := Carried(p, fates[0]).0, fates[1..];
      AttemptsConserve(next, status, rest);
      if !fates[0].ReplyLost? {
        FailedAttemptsRefundIff(next, status, rest);
        if k :| 0 <= k < |rest| && rest[k].ReplyLost? { assert fates[k + 1].ReplyLost?; }
        if k :| 0 <= k < |fates| && fates[k].ReplyLost? { assert rest[k - 1].ReplyLost?; }
      }
    }
  }

  /** What a refund reported as failed leaves of a charge that was outstanding. */
  lemma FailureRefundedIff(
    p: Payment, paymentId: string, known: string, contact: bool, lookup: Lookup, fates: seq<Fate>)
    requires Refund(p, paymentId, known, contact, lookup, fates).1 == Done(Failed) && p.outstanding > 0
    ensures
      var after := Refund(p, paymentId, known, contact, lookup, fates).0;
      var lost := exists k :: 0 <= k < |fates| && fates[k].ReplyLost?;
      && (after.outstanding == 0 <==> paymentId != "" && lost)
      && (after.outstanding != 0 ==> after.outstanding == p.outstanding && after.returned == p.returned)
  {
    if paymentId != "" { FailedAttemptsRefundIff(p, StatusBefore(p, known, lookup), fates); }
  }

  /** A failure does not mean that the money is stuck: the reply to the call that returned it may
      be the one that was lost. */
  lemma FailureMayHaveRefunded(amount: nat)
    ensures
      var (after, outcome) := Refund(Payment(amount, 0, 0), "1", "", true, NoAnswer,
        [Unreachable, Unreachable, ReplyLost]);
      outcome == Done(Failed) && after.outstanding == 0 && after.returned == amount
  {
    var p := Payment(amount, 0, 0);
    var fates := [Unreachable, Unreachable, ReplyLost];
    assert fates[1..] == [Unreachable, ReplyLost] && fates[1..][1..] == [ReplyLost] && fates[1..][1..][1..] == [];
    EmptyIsNotSettled();
    NormalOfNothing();
    assert Attempts(p.(cancels := 2), "", [ReplyLost]) == (Payment(0, amount, 3), Failed);
    assert Attempts(p.(cancels := 1), "", [Unreachable, ReplyLost]) == (Payment(0, amount, 3), Failed);
    assert Attempts(p, "", fates) == (Payment(0, amount, 3), Failed);
  }

  lemma NormalOfCanceled()
    ensures SettledStatus(Normal("CANCELED"))
  {
    assert Trim("CANCELED") == "CANCELED";
    assert Upper("CANCELED") == "CANCELED";
  }

  lemma NormalOfNothing()
    ensures Normal("") == ""
  {
  }
}
