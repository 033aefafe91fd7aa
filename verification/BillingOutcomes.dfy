/** What one provider payment does, in the provider's words and in the rows of the ledger, and where the next
    envelope comes from. The predicates here are definitions of their own, not those of the model. */
module BillingOutcomes {
  import opened Basics
  import opened BillingPeriod
  import opened Billing

  // ---------------------------------------------------------------- the calendar

  /** The months of the Gregorian calendar. */
  lemma MonthLengths(y: int, m: int)
    requires 1 <= m <= 12
    ensures m in {1, 3, 5, 7, 8, 10, 12} ==> DaysIn(y, m) == 31
    ensures m in {4, 6, 9, 11} ==> DaysIn(y, m) == 30
    ensures m == 2 ==> DaysIn(y, m) == if (y % 4 == 0 && y % 100 != 0) || y % 400 == 0 then 29 else 28
  {
    FourCenturies(y);
  }

  lemma FourCenturies(y: int)
    ensures y % 400 == 0 ==> y % 4 == 0
  {
    assert y == 4 * (100 * (y / 400)) + y % 400;
  }

  /** A number that grows with the date and the time of day. */
  function Instant(m: Moment): int {
    (400 * m.year + 32 * m.month + m.day) * 86_400_000 + m.time
  }

  lemma BeforeIsEarlier(a: Moment, b: Moment)
    requires Valid(a) && Valid(b)
    ensures Before(a, b) <==> Instant(a) < Instant(b)
  {
  }

  /** The plan is active and its paid period goes on beyond now. */
  ghost predicate Running(s: Option<Subscription>, planId: nat, now: Moment) {
    && s.Some? && s.value.planId == planId && s.value.status == SubscriptionStatus.Active
    && s.value.periodEnd.Some? && Before(now, s.value.periodEnd.value)
  }

  /** The same time of the same day, `months` later, or of that month's last day. */
  ghost predicate MonthsLater(a: Moment, months: nat, b: Moment) {
    && 12 * b.year + b.month == 12 * a.year + a.month + months && 1 <= b.month <= 12
    && b.time == a.time
    && b.day <= a.day && b.day <= DaysIn(b.year, b.month) && (b.day == a.day || b.day == DaysIn(b.year, b.month))
  }

  lemma AddedMonthsAreLater(m: Moment, months: nat)
    ensures MonthsLater(m, months, AddMonths(m, months))
  {
  }

  // ---------------------------------------------------------------- one payment

  predicate Refunding(status: string) {
    status == "refunded" || status == "charged_back"
  }

  /** What a status that neither grants nor takes back makes of an open charge. */
  function Standing(status: string): Option<ChargeStatus> {
    if status in {"pending", "in_process", "in_mediation", "authorized"} then Some(InProcess)
    else if status == "rejected" then Some(Rejected)
    else if status == "cancelled" then Some(Cancelled)
    else None
  }

  lemma StatusWords(status: string)
    ensures MapProviderStatus(status)
            == if status == "approved" then Some(Approved) else if Refunding(status) then Some(Refunded) else Standing(status)
  {
  }

  /** The charge is approved by this payment and its product goes out. */
  ghost predicate Granted(l: Ledger, p: ProviderPayment, now: Moment, t: Ledger)
    requires p.reference in l.charges && p.reference in l.grants
  {
    var c := p.reference;
    var rec := l.charges[c];
    && t == l.(charges := l.charges[c := rec.(status := Approved, paidBy := Some(p.id))], grants := l.grants[c := l.grants[c] + 1],
               subscription := t.subscription, credits := t.credits, granted := t.granted)
    && match rec.product
       case DocumentPack(n) => t.subscription == l.subscription && t.credits == l.credits + n && t.granted == l.granted + n
       case PlanMonths(planId, months) =>
         t.credits == l.credits && t.granted == l.granted && PlanGranted(l.subscription, planId, months, p.id, now, t.subscription)
  }

  /** The plan runs `months` longer: from its end if it is running, keeping its start, and from now otherwise. */
  ghost predicate PlanGranted(before: Option<Subscription>, planId: nat, months: nat, id: string, now: Moment, after: Option<Subscription>) {
    && after.Some? && after.value.planId == planId && after.value.status == SubscriptionStatus.Active
    && after.value.providerReference == Some(id) && after.value.periodEnd.Some?
    && if Running(before, planId, now)
       then after.value.periodStart == before.value.periodStart && MonthsLater(before.value.periodEnd.value, months, after.value.periodEnd.value)
       else after.value.periodStart == now && MonthsLater(now, months, after.value.periodEnd.value)
  }

  /** The charge is refunded; an approved one loses its product, as far as it can be taken back. */
  ghost predicate TakenBack(l: Ledger, p: ProviderPayment, t: Ledger)
    requires p.reference in l.charges
  {
    var rec := l.charges[p.reference];
    && t == l.(charges := l.charges[p.reference := rec.(status := Refunded, paidBy := Some(p.id))],
               subscription := t.subscription, credits := t.credits, clawedBack := l.clawedBack + (l.credits - t.credits))
    && (if rec.status == Approved && rec.product.DocumentPack?
        then && l.credits - rec.product.documents <= t.credits <= l.credits
             && (t.credits == 0 || t.credits == l.credits - rec.product.documents)
        else t.credits == l.credits)
    && (if rec.status == Approved && rec.product.PlanMonths? && Carries(l.subscription, p.id)
        then t.subscription == Some(l.subscription.value.(status := PastDue)) else t.subscription == l.subscription)
  }

  /** The active plan is the one this payment bought. */
  predicate Carries(s: Option<Subscription>, id: string) {
    s.Some? && s.value.status == SubscriptionStatus.Active && s.value.providerReference == Some(id)
  }

  /** The whole answer to a payment. */
  ghost predicate Answered(l: Ledger, p: ProviderPayment, now: Moment, t: Ledger, duplicate: bool)
    requires p.reference in l.charges ==> p.reference in l.grants
  {
    if p.reference !in l.charges || (p.status != "approved" && !Refunding(p.status) && Standing(p.status) == None) then
      t == l && !duplicate
    else
      var rec := l.charges[p.reference];
      if rec.status == Approved && rec.paidBy != None && rec.paidBy != Some(p.id) then t == l && (duplicate <==> p.status == "approved")
      else if p.status == "approved" then
        !duplicate && if rec.status == Approved || rec.status == Refunded || p.amount != rec.amount || p.currency != rec.currency
                      then t == l else Granted(l, p, now, t)
      else if Refunding(p.status) then !duplicate && if rec.status == Refunded then t == l else TakenBack(l, p, t)
      else
        !duplicate && t == if rec.status == Pending || rec.status == InProcess
                           then l.(charges := l.charges[p.reference := rec.(status := Standing(p.status).value)]) else l
  }

  lemma GrantIs(l: Ledger, p: ProviderPayment, now: Moment)
    requires p.reference in l.charges && p.reference in l.grants
    ensures Granted(l, p, now, Grant(l, p.reference, p, now))
  {
    match l.charges[p.reference].product
    case PlanMonths(planId, months) =>
      AddedMonthsAreLater(NextPeriod(l.subscription, planId, months, now).start, months);
    case DocumentPack(_) =>
  }

  lemma RefundIs(l: Ledger, p: ProviderPayment)
    requires p.reference in l.charges && l.credits >= 0
    ensures TakenBack(l, p, Refund(l, p.reference, p))
  {
  }

  lemma ApplyAnswers(l: Ledger, p: ProviderPayment, now: Moment)
    requires Inv(l)
    ensures Answered(l, p, now, Apply(l, p, now).0, Apply(l, p, now).1)
  {
    StatusWords(p.status);
    if p.reference in l.charges {
      var rec := l.charges[p.reference];
      GrantIs(l, p, now);
      RefundIs(l, p);
      assert l.charges[p.reference := rec] == l.charges;
    }
  }

  /** A refund of an approved pack by the payment that bought it takes back what is left of that pack at most. */
  lemma PackRefund(l: Ledger, p: ProviderPayment, now: Moment, n: nat)
    requires Inv(l) && p.reference in l.charges && Refunding(p.status)
    requires var rec := l.charges[p.reference]; rec.status == Approved && rec.paidBy == Some(p.id) && rec.product == DocumentPack(n)
    ensures var t := Apply(l, p, now).0;
            && l.credits - n <= t.credits <= l.credits && (t.credits == 0 || t.credits == l.credits - n)
            && t.subscription == l.subscription && t.charges.Keys == l.charges.Keys
            && t.charges[p.reference].status == Refunded
            && forall c | c in l.charges && c != p.reference :: t.charges[c] == l.charges[c]
  {
    ApplyAnswers(l, p, now);
  }

  /** A matching approval of an open pack raises the balance by exactly its documents. */
  lemma PackApproval(l: Ledger, p: ProviderPayment, now: Moment, n: nat)
    requires Inv(l) && p.reference in l.charges && p.status == "approved"
    requires var rec := l.charges[p.reference];
             && rec.status != Approved && rec.status != Refunded && rec.product == DocumentPack(n)
             && p.amount == rec.amount && p.currency == rec.currency
    ensures var t := Apply(l, p, now).0;
            && t.credits == l.credits + n && t.subscription == l.subscription && t.charges.Keys == l.charges.Keys
            && t.charges[p.reference] == l.charges[p.reference].(status := Approved, paidBy := Some(p.id))
            && forall c | c in l.charges && c != p.reference :: t.charges[c] == l.charges[c]
  {
    ApplyAnswers(l, p, now);
  }

  /** A refund of an approved plan suspends the subscription exactly if it is active and carried by that payment. */
  lemma PlanRefund(l: Ledger, p: ProviderPayment, now: Moment, planId: nat, months: nat)
    requires Inv(l) && p.reference in l.charges && Refunding(p.status)
    requires var rec := l.charges[p.reference]; rec.status == Approved && rec.paidBy == Some(p.id) && rec.product == PlanMonths(planId, months)
    ensures var t := Apply(l, p, now).0;
            && t.credits == l.credits
            && t.subscription == if Carries(l.subscription, p.id) then Some(l.subscription.value.(status := PastDue)) else l.subscription
  {
    ApplyAnswers(l, p, now);
  }

  // ---------------------------------------------------------------- charges opened and paid

  lemma CheckoutAnswers(l: Ledger, c: ChargeId, product: Product, amount: int, currency: string, expiresAt: Moment)
    ensures Step(l, Action.Checkout(c, product, amount, currency, expiresAt))
            == if c in l.charges then l
               else l.(charges := l.charges[c := Charge(product, amount, currency, expiresAt, Pending, None)],
                       grants := l.grants[c := 0], late := l.late[c := 0])
  {
  }

  /** A pay request opens the charge exactly if it is neither settled nor past its time. */
  lemma PayAnswers(l: Ledger, c: ChargeId, now: Moment)
    requires Inv(l) && c in l.charges
    ensures var rec := l.charges[c];
            Step(l, Action.Pay(c, now))
            == if rec.status != Approved && rec.status != Refunded && Before(now, rec.expiresAt)
               then l.(charges := l.charges[c := rec.(status := Pending)]) else l
  {
  }

  // ---------------------------------------------------------------- the next envelope

  /** Beyond the limit by less than the percentage of it. */
  predicate WithinBonus(limit: nat, percent: int, used: nat) {
    limit <= used && 100 * (used - limit) < limit * percent
  }

  /** Where the next envelope comes from; it is refused exactly if the plan is limited, its limit and bonus are used up
      and no credit is left. */
  lemma QuotaIs(plan: Plan, used: nat, credits: int)
    ensures var limit := plan.monthlyEnvelopes; var q := EnvelopeQuota(plan, used, credits);
            && (q == Some(Unlimited) <==> limit == None)
            && (q == Some(FromPlan) <==> limit.Some? && used < limit.value)
            && (q == Some(FromBonus) <==> limit.Some? && WithinBonus(limit.value, plan.overageBonusPercent, used))
            && (q == Some(FromCredit) <==> limit.Some? && used >= limit.value
                                           && !WithinBonus(limit.value, plan.overageBonusPercent, used) && credits > 0)
            && (q == None <==> limit.Some? && used >= limit.value
                               && !WithinBonus(limit.value, plan.overageBonusPercent, used) && credits <= 0)
  {
    if plan.monthlyEnvelopes.Some? && plan.monthlyEnvelopes.value <= used {
      BonusCounts(plan.monthlyEnvelopes.value, plan.overageBonusPercent, used);
    }
  }

  lemma BonusCounts(limit: nat, percent: int, used: nat)
    requires limit <= used
    ensures used < limit + Bonus(limit, percent) <==> WithinBonus(limit, percent, used)
  {
    if percent > 0 {
      BonusIsCeiling(limit, percent);
    } else {
      NoBonus(limit, percent);
    }
  }

  lemma NoBonus(limit: nat, percent: int)
    requires percent <= 0
    ensures limit * percent <= 0
  {
  }

  /** What the reservation writes. */
  lemma ActivateAnswers(l: Ledger, plan: Plan)
    ensures var source := EnvelopeQuota(plan, l.used, l.credits);
            Activate(l, plan)
            == match source
               case None => (l, None)
               case Some(FromCredit) => (l.(used := l.used + 1, sources := l.sources + [FromCredit],
                                            credits := l.credits - 1, debited := l.debited + 1), source)
               case Some(other) => (l.(used := l.used + 1, sources := l.sources + [other]), source)
  {
  }
}
