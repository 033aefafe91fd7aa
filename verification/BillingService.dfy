/** Billing as the source writes it: one transaction after another updates the charge, the subscription and the
    credit balance. Each method is proved to do what its function in Billing says. */
module BillingService {
  import opened Basics
  import opened BillingPeriod
  import opened Billing
  import opened BillingOutcomes

  class Service {
    var charges: map<ChargeId, Charge>
    var subscription: Option<Subscription>
    var credits: int
    var used: nat
    ghost var grants: map<ChargeId, nat>
    ghost var late: map<ChargeId, nat>
    ghost var granted: int
    ghost var debited: int
    ghost var clawedBack: int
    ghost var sources: seq<QuotaSource>

    ghost function Snapshot(): Ledger
      reads this
    {
      Ledger(charges, subscription, credits, used, grants, late, granted, debited, clawedBack, sources)
    }

    constructor (subscription: Option<Subscription>)
      ensures Snapshot() == EmptyLedger(subscription)
    {
      this.subscription := subscription;
      charges, credits, used := map[], 0, 0;
      grants, late, granted, debited, clawedBack, sources := map[], map[], 0, 0, 0, [];
    }

    method Apply(p: ProviderPayment, now: Moment) returns (duplicate: bool)
      requires Inv(Snapshot())
      modifies this
      ensures (Snapshot(), duplicate) == Billing.Apply(old(Snapshot()), p, now)
      ensures Answered(old(Snapshot()), p, now, Snapshot(), duplicate)
      ensures Inv(Snapshot())
    {
      FeedKeepsInv(Snapshot(), p, now);
      ApplyAnswers(Snapshot(), p, now);
      duplicate := ApplyLocked(p, now);
    }

    /** What happens while the charge's row is locked. */
    method ApplyLocked(p: ProviderPayment, now: Moment) returns (duplicate: bool)
      requires Inv(Snapshot())
      modifies this
      ensures (Snapshot(), duplicate) == Billing.Apply(old(Snapshot()), p, now)
    {
      var next := MapProviderStatus(p.status);
      if next.None? || p.reference !in charges { return false; }
      var rec := charges[p.reference];
      if rec.status.Approved? && rec.paidBy.Some? && rec.paidBy.value != p.id { return next.value.Approved?; }
      match next.value {
        case Approved =>
          if rec.status.Approved? || rec.status.Refunded? { return false; }
          if p.amount != rec.amount || p.currency != rec.currency { return false; }
          Approve(p, now);
        case Refunded =>
          if rec.status.Refunded? { return false; }
          TakeBack(p);
        case _ =>
          if !OpenStatus(rec.status) || rec.status == next.value { return false; }
          charges := charges[p.reference := rec.(status := next.value)];
      }
      return false;
    }

    method Approve(p: ProviderPayment, now: Moment)
      requires p.reference in charges && p.reference in grants
      modifies this
      ensures Snapshot() == Grant(old(Snapshot()), p.reference, p, now)
    {
      var rec := charges[p.reference];
      match rec.product {
        case PlanMonths(planId, months) =>
          var period := NextPeriod(subscription, planId, months, now);
          var start := if period.extended then subscription.value.periodStart else period.start;
          subscription := Some(Subscription(planId, Active, start, Some(period.end), Some(p.id)));
        case DocumentPack(documents) =>
          credits := credits + documents;
          granted := granted + documents;
      }
      charges := charges[p.reference := rec.(status := Approved, paidBy := Some(p.id))];
      grants := grants[p.reference := grants[p.reference] + 1];
    }

    method TakeBack(p: ProviderPayment)
      requires p.reference in charges
      modifies this
      ensures Snapshot() == Refund(old(Snapshot()), p.reference, p)
    {
      var rec := charges[p.reference];
      charges := charges[p.reference := rec.(status := Refunded, paidBy := Some(p.id))];
      if rec.status.Approved? {
        match rec.product {
          case PlanMonths(_, _) =>
            if subscription.Some? && subscription.value.providerReference == Some(p.id) && subscription.value.status.Active? {
              subscription := Some(subscription.value.(status := PastDue));
            }
          case DocumentPack(documents) =>
            var removed := Min(credits, documents);
            credits := credits - removed;
            clawedBack := clawedBack + removed;
        }
      }
    }

    /** The next envelope's quota, reserved with the organization locked. */
    method AssertCanCreateEnvelope(plan: Plan) returns (source: Option<QuotaSource>)
      requires Inv(Snapshot())
      modifies this
      ensures (Snapshot(), source) == Activate(old(Snapshot()), plan)
      ensures var limit := plan.monthlyEnvelopes;
              source == None <==> && limit.Some? && old(used) >= limit.value && old(credits) <= 0
                                  && !WithinBonus(limit.value, plan.overageBonusPercent, old(used))
      ensures Inv(Snapshot())
    {
      QuotaIs(plan, used, credits);
      ActivateKeepsInv(Snapshot(), plan);
      source := EnvelopeQuota(plan, used, credits);
      if source.None? { return; }
      if source.value.FromCredit? {
        credits := credits - 1;
        debited := debited + 1;
      }
      used := used + 1;
      sources := sources + [source.value];
    }

    /** The reset that follows a passed check of a pay request. It looks at nothing: the charge is open for payment
        whatever has become of it, which counts as late exactly if it could no longer be paid. */
    method ResetForPayment(c: ChargeId)
      requires Inv(Snapshot()) && c in charges
      modifies `charges, `late
      ensures Inv(Snapshot()) && Snapshot() == Reset(old(Snapshot()), c)
      ensures charges.Keys == old(charges.Keys) && charges[c] == old(charges[c]).(status := Pending)
      ensures forall d | d in charges && d != c :: charges[d] == old(charges[d]) && late[d] == old(late[d])
      ensures late[c] == old(late[c]) + if PayableStatus(old(charges[c].status)) then 0 else 1
      ensures late[c] > old(late[c]) <==> Settled(old(charges[c].status))
    {
      StepKeepsInv(Snapshot(), Action.ResetLate(c));
      late := if PayableStatus(charges[c].status) then late else late[c := late[c] + 1];
      charges := charges[c := charges[c].(status := Pending)];
    }

    method Checkout(c: ChargeId, product: Product, amount: int, currency: string, expiresAt: Moment)
      requires Inv(Snapshot()) && c !in charges
      modifies this
      ensures Inv(Snapshot())
      ensures Snapshot() == Step(old(Snapshot()), Action.Checkout(c, product, amount, currency, expiresAt))
    {
      StepKeepsInv(Snapshot(), Action.Checkout(c, product, amount, currency, expiresAt));
      charges := charges[c := Charge(product, amount, currency, expiresAt, Pending, None)];
      grants, late := grants[c := 0], late[c := 0];
    }
  }
}
