/** The billing ledger of one organization (billing.service.ts, limits.service.ts): charges settled by provider
    payments in any order and number, document credits, and the monthly quota. */
module Billing {
  import opened Basics
  import opened BillingPeriod

  type ChargeId = nat

  datatype ChargeStatus = Pending | InProcess | Approved | Rejected | Cancelled | Refunded

  datatype Product = PlanMonths(planId: nat, months: nat) | DocumentPack(documents: nat)

  datatype Charge = Charge(
    product: Product,
    amount: int,
    currency: string,
    expiresAt: Moment,
    status: ChargeStatus,
    paidBy: Option<string>)

  /** What the provider says of one of its payments. */
  datatype ProviderPayment = ProviderPayment(id: string, reference: ChargeId, status: string, amount: int, currency: string)

  datatype Plan = Plan(monthlyEnvelopes: Option<nat>, overageBonusPercent: int)

  datatype QuotaSource = FromPlan | FromBonus | FromCredit | Unlimited

  /** The last six fields only record history: how often each charge's product was granted, how often a pay
      request reset a charge that could no longer be paid, credits in and out, and where this month's envelopes came from. */
  datatype Ledger = Ledger(
    charges: map<ChargeId, Charge>,
    subscription: Option<Subscription>,
    credits: int,
    used: nat,
    grants: map<ChargeId, nat>,
    late: map<ChargeId, nat>,
    granted: int,
    debited: int,
    clawedBack: int,
    sources: seq<QuotaSource>)

  function EmptyLedger(subscription: Option<Subscription>): Ledger {
    Ledger(map[], subscription, 0, 0, map[], map[], 0, 0, 0, [])
  }

  // ---------------------------------------------------------------- charges

  function MapProviderStatus(status: string): Option<ChargeStatus> {
    if status == "approved" then Some(Approved)
    else if status == "pending" || status == "in_process" || status == "in_mediation" || status == "authorized" then Some(InProcess)
    else if status == "rejected" then Some(Rejected)
    else if status == "cancelled" then Some(Cancelled)
    else if status == "refunded" || status == "charged_back" then Some(Refunded)
    else None
  }

  predicate OpenStatus(s: ChargeStatus) {
    s.Pending? || s.InProcess?
  }

  predicate PayableStatus(s: ChargeStatus) {
    s.Pending? || s.InProcess? || s.Rejected? || s.Cancelled?
  }

  predicate Payable(c: Charge, now: Moment) {
    PayableStatus(c.status) && Before(now, c.expiresAt)
  }

  function GrantPlan(current: Option<Subscription>, planId: nat, months: nat, paidBy: string, now: Moment): Subscription {
    var period := NextPeriod(current, planId, months, now);
    Subscription(planId, Active, if period.extended then current.value.periodStart else period.start, Some(period.end), Some(paidBy))
  }

  /** The product goes out and the charge is approved, in one transaction. */
  function Grant(l: Ledger, c: ChargeId, p: ProviderPayment, now: Moment): Ledger
    requires c in l.charges && c in l.grants
  {
    var rec := l.charges[c];
    var charges := l.charges[c := rec.(status := Approved, paidBy := Some(p.id))];
    var grants := l.grants[c := l.grants[c] + 1];
    match rec.product
    case PlanMonths(planId, months) =>
      l.(charges := charges, grants := grants, subscription := Some(GrantPlan(l.subscription, planId, months, p.id, now)))
    case DocumentPack(documents) =>
      l.(charges := charges, grants := grants, credits := l.credits + documents, granted := l.granted + documents)
  }

  /** A refund of an approved charge suspends the plan it carries, or takes back the credits not used yet. */
  function Refund(l: Ledger, c: ChargeId, p: ProviderPayment): Ledger
    requires c in l.charges
  {
    var rec := l.charges[c];
    var charges := l.charges[c := rec.(status := Refunded, paidBy := Some(p.id))];
    if !rec.status.Approved? then l.(charges := charges)
    else match rec.product
      case PlanMonths(_, _) =>
        if l.subscription.Some? && l.subscription.value.providerReference == Some(p.id) && l.subscription.value.status.Active? then
          l.(charges := charges, subscription := Some(l.subscription.value.(status := PastDue)))
        else l.(charges := charges)
      case DocumentPack(documents) =>
        var removed := Min(l.credits, documents);
        l.(charges := charges, credits := l.credits - removed, clawedBack := l.clawedBack + removed)
  }

  /** One provider payment; the second result says whether it is a duplicate to be refunded. */
  function Apply(l: Ledger, p: ProviderPayment, now: Moment): (Ledger, bool) {
    var c := p.reference;
    var next := MapProviderStatus(p.status);
    if next.None? || c !in l.charges || c !in l.grants then (l, false)
    else
      var rec := l.charges[c];
      if rec.status.Approved? && rec.paidBy.Some? && rec.paidBy.value != p.id then (l, next.value.Approved?)
      else if next.value.Approved? then
        if rec.status.Approved? || rec.status.Refunded? || p.amount != rec.amount || p.currency != rec.currency then (l, false)
        else (Grant(l, c, p, now), false)
      else if next.value.Refunded? then
        (if rec.status.Refunded? then l else Refund(l, c, p), false)
      else if !OpenStatus(rec.status) || rec.status == next.value then (l, false)
      else (l.(charges := l.charges[c := rec.(status := next.value)]), false)
  }

  // ---------------------------------------------------------------- quota

  /** The bonus on top of the plan: a percentage of the limit, rounded up. */
  function Bonus(limit: nat, percent: int): nat {
    if percent <= 0 then 0 else (limit * percent + 99) / 100
  }

  /** Where the next envelope comes from: plan, then bonus, then credits. */
  function EnvelopeQuota(plan: Plan, used: nat, credits: int): Option<QuotaSource> {
    if plan.monthlyEnvelopes.None? then Some(Unlimited)
    else
      var limit := plan.monthlyEnvelopes.value;
      if used < limit then Some(FromPlan)
      else if used < limit + Bonus(limit, plan.overageBonusPercent) then Some(FromBonus)
      else if credits > 0 then Some(FromCredit)
      else None
  }

  function TakeFrom(l: Ledger, source: QuotaSource): Ledger {
    var counted := l.(used := l.used + 1, sources := l.sources + [source]);
    if source.FromCredit? then counted.(credits := l.credits - 1, debited := l.debited + 1) else counted
  }

  /** Activation of an envelope under the plan in force: reserves its quota, or is refused. */
  function Activate(l: Ledger, plan: Plan): (Ledger, Option<QuotaSource>) {
    var source := EnvelopeQuota(plan, l.used, l.credits);
    (if source.None? then l else TakeFrom(l, source.value), source)
  }

  // ---------------------------------------------------------------- runs

  /** `Pay` is a pay request whose check and reset happen together; `ResetLate` is the reset of one that had
      passed its check earlier: the source writes it without looking at the charge again. */
  datatype Action =
    | Checkout(charge: ChargeId, product: Product, amount: int, currency: string, expiresAt: Moment)
    | Feed(payment: ProviderPayment, now: Moment)
    | Pay(charge: ChargeId, now: Moment)
    | ResetLate(charge: ChargeId)
    | ActivateEnvelope(plan: Plan)
    | NewMonth

  function OpenCharge(l: Ledger, c: ChargeId, rec: Charge): Ledger {
    l.(charges := l.charges[c := rec], grants := l.grants[c := 0], late := l.late[c := 0])
  }

  function Reset(l: Ledger, c: ChargeId): Ledger
    requires c in l.charges && c in l.late
  {
    l.(charges := l.charges[c := l.charges[c].(status := Pending)],
       late := if PayableStatus(l.charges[c].status) then l.late else l.late[c := l.late[c] + 1])
  }

  function Step(l: Ledger, a: Action): Ledger {
    match a
    case Checkout(c, product, amount, currency, expiresAt) =>
      if c in l.charges then l else OpenCharge(l, c, Charge(product, amount, currency, expiresAt, Pending, None))
    case Feed(p, now) => Apply(l, p, now).0
    case Pay(c, now) => if c in l.charges && c in l.late && Payable(l.charges[c], now) then Reset(l, c) else l
    case ResetLate(c) => if c in l.charges && c in l.late then Reset(l, c) else l
    case ActivateEnvelope(plan) => Activate(l, plan).0
    case NewMonth => l.(used := 0, sources := [])
  }

  function Run(l: Ledger, actions: seq<Action>): Ledger
    decreases |actions|
  {
    if actions == [] then l else Step(Run(l, actions[..|actions| - 1]), actions[|actions| - 1])
  }

  ghost predicate Reachable(l: Ledger) {
    exists subscription, actions :: l == Run(EmptyLedger(subscription), actions)
  }

  // ---------------------------------------------------------------- what every run keeps

  predicate Settled(s: ChargeStatus) {
    s.Approved? || s.Refunded?
  }

  /** A product goes out when its charge settles; only a late reset can make a settled charge settle again. */
  ghost predicate ChargeOk(c: Charge, grants: nat, late: nat) {
    && grants <= late + (if Settled(c.status) then 1 else 0)
    && (c.status.Approved? ==> c.paidBy.Some? && grants >= 1)
  }

  ghost predicate ChargesOk(l: Ledger) {
    && l.grants.Keys == l.charges.Keys && l.late.Keys == l.charges.Keys
    && forall c | c in l.charges :: ChargeOk(l.charges[c], l.grants[c], l.late[c])
  }

  ghost predicate CreditsOk(l: Ledger) {
    l.credits >= 0 && l.granted == l.credits + l.debited + l.clawedBack
  }

  ghost predicate Inv(l: Ledger) {
    ChargesOk(l) && CreditsOk(l) && |l.sources| == l.used
  }

  /** One charge changes and nothing else in the charge tables. */
  lemma ChargeChanged(l: Ledger, c: ChargeId, rec: Charge, grants: nat)
    requires ChargesOk(l) && c in l.charges && ChargeOk(rec, grants, l.late[c])
    ensures ChargesOk(l.(charges := l.charges[c := rec], grants := l.grants[c := grants]))
  {
  }

  lemma GrantKeepsInv(l: Ledger, c: ChargeId, p: ProviderPayment, now: Moment)
    requires Inv(l) && c in l.charges && !Settled(l.charges[c].status)
    ensures Inv(Grant(l, c, p, now))
  {
    var rec := l.charges[c].(status := Approved, paidBy := Some(p.id));
    assert ChargeOk(l.charges[c], l.grants[c], l.late[c]);
    ChargeChanged(l, c, rec, l.grants[c] + 1);
  }

  lemma RefundKeepsInv(l: Ledger, c: ChargeId, p: ProviderPayment)
    requires Inv(l) && c in l.charges
    ensures Inv(Refund(l, c, p))
  {
    var rec := l.charges[c].(status := Refunded, paidBy := Some(p.id));
    assert ChargeOk(l.charges[c], l.grants[c], l.late[c]);
    ChargeChanged(l, c, rec, l.grants[c]);
    assert l.grants[c := l.grants[c]] == l.grants;
  }

  lemma FeedKeepsInv(l: Ledger, p: ProviderPayment, now: Moment)
    requires Inv(l)
    ensures Inv(Apply(l, p, now).0)
  {
    var c := p.reference;
    var next := MapProviderStatus(p.status);
    if c in l.charges && next.Some? {
      var rec := l.charges[c];
      assert ChargeOk(rec, l.grants[c], l.late[c]);
      if next.value.Approved? && !Settled(rec.status) {
        GrantKeepsInv(l, c, p, now);
      } else if next.value.Refunded? {
        RefundKeepsInv(l, c, p);
      } else if OpenStatus(rec.status) {
        ChargeChanged(l, c, rec.(status := next.value), l.grants[c]);
        assert l.grants[c := l.grants[c]] == l.grants;
      }
    }
  }

  lemma ActivateKeepsInv(l: Ledger, plan: Plan)
    requires Inv(l)
    ensures Inv(Activate(l, plan).0)
  {
  }

  lemma StepKeepsInv(l: Ledger, a: Action)
    requires Inv(l)
    ensures Inv(Step(l, a))
  {
    match a
    case Feed(p, now) => FeedKeepsInv(l, p, now);
    case ActivateEnvelope(plan) => ActivateKeepsInv(l, plan);
    case _ =>
  }

  lemma {:induction false} RunKeepsInv(l: Ledger, actions: seq<Action>)
    requires Inv(l)
    ensures Inv(Run(l, actions))
    decreases |actions|
  {
    if actions != [] {
      RunKeepsInv(l, actions[..|actions| - 1]);
      StepKeepsInv(Run(l, actions[..|actions| - 1]), actions[|actions| - 1]);
    }
  }

  lemma ReachableInv(l: Ledger)
    requires Reachable(l)
    ensures Inv(l)
  {
    var subscription, actions :| l == Run(EmptyLedger(subscription), actions);
    RunKeepsInv(EmptyLedger(subscription), actions);
  }

  /** Whatever payments arrive, in whatever order: at most one grant, and one more for every late reset. */
  lemma GrantedAtMostOnce(l: Ledger, c: ChargeId)
    requires Reachable(l) && c in l.charges
    ensures c in l.grants && c in l.late && l.grants[c] <= 1 + l.late[c]
    ensures l.charges[c].status.Approved? ==> l.grants[c] >= 1
  {
    ReachableInv(l);
    assert ChargeOk(l.charges[c], l.grants[c], l.late[c]);
  }

  lemma {:induction false} PunctualIsNeverLate(start: Ledger, actions: seq<Action>, c: ChargeId)
    requires Punctual(actions, c) && Inv(start) && (c in start.charges ==> start.late[c] == 0)
    ensures var l := Run(start, actions); Inv(l) && (c in l.charges ==> l.late[c] == 0)
    decreases |actions|
  {
    if actions != [] {
      var before, last := actions[..|actions| - 1], actions[|actions| - 1];
      assert last in actions;
      PunctualIsNeverLate(start, before, c);
      NotLate(Run(start, before), last, c);
      StepKeepsInv(Run(start, before), last);
    }
  }

  lemma GrantedOnceUnlessLate(l: Ledger, c: ChargeId)
    requires Inv(l) && (c in l.charges ==> l.late[c] == 0)
    ensures c in l.charges ==> l.grants[c] <= 1 && (l.charges[c].status.Approved? ==> l.grants[c] == 1)
  {
    assert c in l.charges ==> ChargeOk(l.charges[c], l.grants[c], l.late[c]);
  }

  /** Without late resets of its charge there is at most one grant, and exactly one once the charge is approved. */
  lemma PunctualRunsAreNotLate(subscription: Option<Subscription>, actions: seq<Action>, c: ChargeId)
    requires Punctual(actions, c)
    ensures var l := Run(EmptyLedger(subscription), actions); Inv(l) && (c in l.charges ==> l.late[c] == 0 && l.grants[c] <= 1)
    ensures var l := Run(EmptyLedger(subscription), actions); c in l.charges && l.charges[c].status.Approved? ==> l.grants[c] == 1
  {
    PunctualIsNeverLate(EmptyLedger(subscription), actions, c);
    GrantedOnceUnlessLate(Run(EmptyLedger(subscription), actions), c);
  }

  lemma NotLate(l: Ledger, a: Action, c: ChargeId)
    requires Inv(l) && a != ResetLate(c) && (c in l.charges ==> l.late[c] == 0)
    ensures var t := Step(l, a); c in t.charges ==> c in t.late && t.late[c] == 0
  {
  }

  /** Credits bought are on the balance, used up or taken back, and the balance is never negative. */
  lemma CreditsAreConserved(l: Ledger)
    requires Reachable(l)
    ensures l.granted == l.credits + l.debited + l.clawedBack && l.credits >= 0
  {
    ReachableInv(l);
  }

  // ---------------------------------------------------------------- what one payment can do

  /** A product goes out exactly for an approval in the charge's amount and currency while the charge is not settled. */
  lemma GrantsExactly(l: Ledger, p: ProviderPayment, now: Moment)
    requires Inv(l) && p.reference in l.charges
    ensures Apply(l, p, now).0.grants[p.reference] == l.grants[p.reference] + 1
            <==> MapProviderStatus(p.status) == Some(Approved) && p.amount == l.charges[p.reference].amount
                 && p.currency == l.charges[p.reference].currency && !Settled(l.charges[p.reference].status)
    ensures Apply(l, p, now).0.grants[p.reference] <= l.grants[p.reference] + 1
  {
    assert ChargeOk(l.charges[p.reference], l.grants[p.reference], l.late[p.reference]);
  }

  /** The answer is "duplicate" exactly for an approval under another id while the charge is approved. */
  lemma DuplicateExactly(l: Ledger, p: ProviderPayment, now: Moment)
    requires Inv(l)
    ensures Apply(l, p, now).1
            <==> p.reference in l.charges && l.charges[p.reference].status.Approved?
                 && l.charges[p.reference].paidBy != Some(p.id) && p.status == "approved"
    ensures Apply(l, p, now).1 ==> Apply(l, p, now).0 == l
  {
    if p.reference in l.charges {
      assert ChargeOk(l.charges[p.reference], l.grants[p.reference], l.late[p.reference]);
    }
  }

  predicate RefundFor(a: Action, c: ChargeId) {
    a.Feed? && a.payment.reference == c && MapProviderStatus(a.payment.status) == Some(Refunded)
  }

  predicate RefundOf(a: Action, c: ChargeId, id: string) {
    RefundFor(a, c) && a.payment.id == id
  }

  /** A provider's approval of a charge in that charge's amount and currency. */
  predicate ApprovalOf(a: Action, c: ChargeId, rec: Charge) {
    a.Feed? && a.payment.reference == c && MapProviderStatus(a.payment.status) == Some(Approved)
    && a.payment.amount == rec.amount && a.payment.currency == rec.currency
  }

  /** No late reset hits this charge. */
  predicate Punctual(actions: seq<Action>, c: ChargeId) {
    ResetLate(c) !in actions
  }

  /** An approved charge is touched by nothing but a refund of the payment that paid it. */
  lemma ApprovedStep(l: Ledger, a: Action, c: ChargeId, id: string)
    requires c in l.charges && l.charges[c].status.Approved? && l.charges[c].paidBy == Some(id) && a != ResetLate(c)
    ensures c in Step(l, a).charges
    ensures !RefundOf(a, c, id) ==> Step(l, a).charges[c] == l.charges[c]
    ensures Step(l, a).charges[c] == l.charges[c] || Step(l, a).charges[c] == l.charges[c].(status := Refunded)
  {
  }

  /** Every other payment for an approved charge changes nothing at all. */
  lemma ApprovedIgnoresOthers(l: Ledger, p: ProviderPayment, now: Moment, id: string)
    requires p.reference in l.charges && l.charges[p.reference].status.Approved? && l.charges[p.reference].paidBy == Some(id)
    requires !RefundOf(Feed(p, now), p.reference, id)
    ensures Apply(l, p, now).0 == l
  {
  }

  lemma RefundedStep(l: Ledger, a: Action, c: ChargeId)
    requires c in l.charges && l.charges[c].status.Refunded? && a != ResetLate(c)
    ensures c in Step(l, a).charges && Step(l, a).charges[c] == l.charges[c]
    ensures a.Feed? && a.payment.reference == c ==> Step(l, a) == l
  {
  }

  /** REFUNDED absorbs: no later payment, pay request or other step changes the charge. */
  lemma {:induction false} RefundedAbsorbs(l: Ledger, actions: seq<Action>, c: ChargeId)
    requires c in l.charges && l.charges[c].status.Refunded? && Punctual(actions, c)
    ensures c in Run(l, actions).charges && Run(l, actions).charges[c] == l.charges[c]
    decreases |actions|
  {
    if actions != [] {
      RefundedAbsorbs(l, actions[..|actions| - 1], c);
      RefundedStep(Run(l, actions[..|actions| - 1]), actions[|actions| - 1], c);
    }
  }

  /** After an approval by `id` the charge stays as it is until `id` is refunded, and then stays refunded. */
  lemma {:induction false} ApprovedStays(l: Ledger, actions: seq<Action>, c: ChargeId, id: string)
    requires Inv(l) && c in l.charges && l.charges[c].status.Approved? && l.charges[c].paidBy == Some(id) && Punctual(actions, c)
    ensures c in Run(l, actions).charges
    ensures Run(l, actions).charges[c]
            == if exists a :: a in actions && RefundOf(a, c, id) then l.charges[c].(status := Refunded) else l.charges[c]
    decreases |actions|
  {
    if actions != [] {
      var before, last := actions[..|actions| - 1], actions[|actions| - 1];
      var m := Run(l, before);
      assert actions == before + [last];
      RunKeepsInv(l, before);
      ApprovedStays(l, before, c, id);
      if m.charges[c].status.Refunded? {
        RefundedStep(m, last, c);
      } else if RefundOf(last, c, id) {
        RefundTakesEffect(m, last, c, id);
      } else {
        ApprovedStep(m, last, c, id);
      }
    }
  }

  lemma RefundTakesEffect(l: Ledger, a: Action, c: ChargeId, id: string)
    requires Inv(l) && c in l.charges && l.charges[c].status.Approved? && l.charges[c].paidBy == Some(id) && RefundOf(a, c, id)
    ensures c in Step(l, a).charges && Step(l, a).charges[c] == l.charges[c].(status := Refunded)
  {
  }

  // ---------------------------------------------------------------- exactly when a product goes out again

  lemma FeedKeepsTerms(l: Ledger, p: ProviderPayment, now: Moment, c: ChargeId)
    requires Inv(l) && c in l.charges
    ensures var t := Apply(l, p, now).0;
            && c in t.charges && c in t.late && t.late[c] == l.late[c]
            && t.charges[c].amount == l.charges[c].amount && t.charges[c].currency == l.charges[c].currency
  {
  }

  lemma FeedSettlesExactly(l: Ledger, p: ProviderPayment, now: Moment, c: ChargeId)
    requires Inv(l) && c in l.charges
    ensures var t, a := Apply(l, p, now).0, Feed(p, now);
            && c in t.charges && c in t.grants
            && (Settled(t.charges[c].status)
                <==> Settled(l.charges[c].status) || RefundFor(a, c) || ApprovalOf(a, c, l.charges[c]))
            && t.grants[c] == l.grants[c] + (if ApprovalOf(a, c, l.charges[c]) && !Settled(l.charges[c].status) then 1 else 0)
  {
    assert ChargeOk(l.charges[c], l.grants[c], l.late[c]);
  }

  /** A settled charge opens by a late reset only, an open one settles by a matching approval or by any refund. */
  lemma SettlesExactly(l: Ledger, a: Action, c: ChargeId)
    requires Inv(l) && c in l.charges
    ensures c in Step(l, a).charges && c in Step(l, a).grants && c in Step(l, a).late
    ensures Settled(Step(l, a).charges[c].status)
            <==> if Settled(l.charges[c].status) then a != ResetLate(c) else RefundFor(a, c) || ApprovalOf(a, c, l.charges[c])
    ensures Step(l, a).grants[c]
            == l.grants[c] + if ApprovalOf(a, c, l.charges[c]) && !Settled(l.charges[c].status) then 1 else 0
    ensures Step(l, a).late[c] == l.late[c] + if a == ResetLate(c) && Settled(l.charges[c].status) then 1 else 0
    ensures Step(l, a).charges[c].amount == l.charges[c].amount && Step(l, a).charges[c].currency == l.charges[c].currency
  {
    match a
    case Feed(p, now) => FeedSettlesExactly(l, p, now, c); FeedKeepsTerms(l, p, now, c);
    case _ =>
  }

  /** From some action on, neither a refund nor a matching approval of the charge comes in. */
  predicate NothingSettles(actions: seq<Action>, from: nat, c: ChargeId, rec: Charge) {
    forall k | from <= k < |actions| :: !RefundFor(actions[k], c) && !ApprovalOf(actions[k], c, rec)
  }

  /** The charge was open at the start, or a late reset hit it, and nothing has settled it since. */
  ghost predicate LeftOpen(actions: seq<Action>, c: ChargeId, rec: Charge, open: bool) {
    || (open && NothingSettles(actions, 0, c, rec))
    || exists i | 0 <= i < |actions| :: actions[i] == ResetLate(c) && NothingSettles(actions, i + 1, c, rec)
  }

  /** The matching approvals that find the charge open. */
  ghost function GrantPoints(actions: seq<Action>, c: ChargeId, rec: Charge, open: bool): set<nat> {
    set j: nat | j < |actions| && ApprovalOf(actions[j], c, rec) && LeftOpen(actions[..j], c, rec, open)
  }

  lemma LeftOpenStep(before: seq<Action>, last: Action, c: ChargeId, rec: Charge, open: bool)
    ensures LeftOpen(before + [last], c, rec, open)
            <==> last == ResetLate(c) || (LeftOpen(before, c, rec, open) && !RefundFor(last, c) && !ApprovalOf(last, c, rec))
  {
    var actions := before + [last];
    if last == ResetLate(c) {
      assert actions[|before|] == ResetLate(c) && NothingSettles(actions, |before| + 1, c, rec);
    } else if LeftOpen(before, c, rec, open) && !RefundFor(last, c) && !ApprovalOf(last, c, rec) {
      if !(open && NothingSettles(before, 0, c, rec)) {
        var i :| 0 <= i < |before| && before[i] == ResetLate(c) && NothingSettles(before, i + 1, c, rec);
        assert actions[i] == ResetLate(c) && NothingSettles(actions, i + 1, c, rec);
      }
    } else if LeftOpen(actions, c, rec, open) {
      StaysShut(before, last, c, rec, open);
    }
  }

  lemma StaysShut(before: seq<Action>, last: Action, c: ChargeId, rec: Charge, open: bool)
    requires LeftOpen(before + [last], c, rec, open) && last != ResetLate(c)
    ensures LeftOpen(before, c, rec, open) && !RefundFor(last, c) && !ApprovalOf(last, c, rec)
  {
    var actions := before + [last];
    assert actions[|before|] == last;
    assert forall k | 0 <= k < |before| :: before[k] == actions[k];
    if !(open && NothingSettles(before, 0, c, rec)) {
      var i :| 0 <= i < |actions| && actions[i] == ResetLate(c) && NothingSettles(actions, i + 1, c, rec);
      assert before[i] == ResetLate(c) && NothingSettles(before, i + 1, c, rec);
    }
  }

  lemma GrantPointsStep(before: seq<Action>, last: Action, c: ChargeId, rec: Charge, open: bool)
    ensures |GrantPoints(before + [last], c, rec, open)|
            == |GrantPoints(before, c, rec, open)| + if ApprovalOf(last, c, rec) && LeftOpen(before, c, rec, open) then 1 else 0
  {
    var actions := before + [last];
    assert forall j: nat | j <= |before| :: actions[..j] == before[..j];
    assert before[..|before|] == before;
    var more := if ApprovalOf(last, c, rec) && LeftOpen(before, c, rec, open) then {|before|} else {};
    assert GrantPoints(actions, c, rec, open) == GrantPoints(before, c, rec, open) + more;
  }

  /** Over any actions at all, a charge's product goes out exactly once for every matching approval that finds the
      charge open: open from the start, or since a late reset. */
  lemma {:induction false} GrantsAreCounted(l: Ledger, actions: seq<Action>, c: ChargeId)
    requires Inv(l) && c in l.charges
    ensures var t, rec, open := Run(l, actions), l.charges[c], !Settled(l.charges[c].status);
            && c in t.charges && c in t.grants && c in t.late
            && (Settled(t.charges[c].status) <==> !LeftOpen(actions, c, rec, open))
            && t.grants[c] == l.grants[c] + |GrantPoints(actions, c, rec, open)|
            && t.charges[c].amount == rec.amount && t.charges[c].currency == rec.currency
            && t.late[c] >= l.late[c] && (!open && t.late[c] == l.late[c] ==> Settled(t.charges[c].status) && t.grants[c] == l.grants[c])
    decreases |actions|
  {
    if actions == [] {
      assert GrantPoints(actions, c, l.charges[c], !Settled(l.charges[c].status)) == {};
    } else {
      var before, last := actions[..|actions| - 1], actions[|actions| - 1];
      assert actions == before + [last];
      GrantsAreCounted(l, before, c);
      RunKeepsInv(l, before);
      SettlesExactly(Run(l, before), last, c);
      LeftOpenStep(before, last, c, l.charges[c], !Settled(l.charges[c].status));
      GrantPointsStep(before, last, c, l.charges[c], !Settled(l.charges[c].status));
    }
  }

  /** A settled charge's product goes out again if and only if some late reset is followed by a matching approval with
      no refund and no other matching approval in between; and then some reset met a status that cannot be paid. */
  lemma GrantedAgainExactly(l: Ledger, actions: seq<Action>, c: ChargeId)
    requires Inv(l) && c in l.charges && Settled(l.charges[c].status)
    ensures c in Run(l, actions).grants && c in Run(l, actions).late
    ensures Run(l, actions).grants[c] > l.grants[c]
            <==> exists i, j | 0 <= i < j < |actions| ::
                   && actions[i] == ResetLate(c) && ApprovalOf(actions[j], c, l.charges[c])
                   && NothingSettles(actions[..j], i + 1, c, l.charges[c])
    ensures Run(l, actions).grants[c] > l.grants[c] ==> Run(l, actions).late[c] > l.late[c]
  {
    var rec := l.charges[c];
    var points := GrantPoints(actions, c, rec, false);
    GrantsAreCounted(l, actions, c);
    if points != {} {
      var j :| j in points;
      var i :| 0 <= i < j && actions[..j][i] == ResetLate(c) && NothingSettles(actions[..j], i + 1, c, rec);
      assert actions[i] == ResetLate(c);
    }
    if i, j :| 0 <= i < j < |actions| && actions[i] == ResetLate(c) && ApprovalOf(actions[j], c, rec)
               && NothingSettles(actions[..j], i + 1, c, rec) {
      assert actions[..j][i] == ResetLate(c);
      assert j in points;
    }
  }

  /** One step before a matching approval decides: of a charge approved or refunded alike, the product goes out again
      exactly if that step is a late reset. */
  lemma LateResetReopens(l: Ledger, a: Action, c: ChargeId, p: ProviderPayment, now: Moment)
    requires Inv(l) && c in l.charges && Settled(l.charges[c].status) && ApprovalOf(Feed(p, now), c, l.charges[c])
    ensures Step(l, Feed(p, now)).grants == l.grants
    ensures var t := Step(Step(l, a), Feed(p, now)); c in t.grants && (t.grants[c] > l.grants[c] <==> a == ResetLate(c))
  {
    StepKeepsInv(l, a);
    SettlesExactly(l, a, c);
    SettlesExactly(Step(l, a), Feed(p, now), c);
    assert ChargeOk(l.charges[c], l.grants[c], l.late[c]);
  }

  // ---------------------------------------------------------------- quota over a month

  lemma BonusIsCeiling(limit: nat, percent: int)
    requires percent > 0
    ensures 100 * (Bonus(limit, percent) - 1) < limit * percent <= 100 * Bonus(limit, percent)
  {
  }

  /** Where the n-th envelope of a month has to come from. */
  function SourceAt(limit: nat, bonus: nat, n: nat): QuotaSource {
    if n < limit then FromPlan else if n < limit + bonus then FromBonus else FromCredit
  }

  /** The actions of one month under one limited plan. */
  predicate SameMonth(actions: seq<Action>, plan: Plan) {
    forall a | a in actions :: !a.NewMonth? && (a.ActivateEnvelope? ==> a.plan == plan)
  }

  ghost predicate MonthOk(l: Ledger, start: Ledger, limit: nat, bonus: nat) {
    && |l.sources| == l.used && (forall n | 0 <= n < l.used :: l.sources[n] == SourceAt(limit, bonus, n))
    && l.debited - start.debited == if l.used > limit + bonus then l.used - limit - bonus else 0
  }

  lemma MonthStep(l: Ledger, a: Action, start: Ledger, plan: Plan)
    requires plan.monthlyEnvelopes.Some? && !a.NewMonth? && (a.ActivateEnvelope? ==> a.plan == plan)
    requires MonthOk(l, start, plan.monthlyEnvelopes.value, Bonus(plan.monthlyEnvelopes.value, plan.overageBonusPercent))
    ensures MonthOk(Step(l, a), start, plan.monthlyEnvelopes.value, Bonus(plan.monthlyEnvelopes.value, plan.overageBonusPercent))
  {
    if !a.ActivateEnvelope? {
      QuotaUntouched(l, a);
    }
  }

  lemma QuotaUntouched(l: Ledger, a: Action)
    requires !a.NewMonth? && !a.ActivateEnvelope?
    ensures var t := Step(l, a); t.used == l.used && t.sources == l.sources && t.debited == l.debited
  {
  }

  /** In a month under one limited plan the first envelopes come from the plan, the next from the bonus, and exactly
      the rest from credits, whatever is bought and refunded in between. */
  lemma {:induction false} QuotaIsTakenInOrder(start: Ledger, actions: seq<Action>, plan: Plan)
    requires start.used == 0 && start.sources == [] && plan.monthlyEnvelopes.Some? && SameMonth(actions, plan)
    ensures var limit := plan.monthlyEnvelopes.value;
            MonthOk(Run(start, actions), start, limit, Bonus(limit, plan.overageBonusPercent))
    decreases |actions|
  {
    if actions != [] {
      var last := actions[|actions| - 1];
      assert last in actions;
      QuotaIsTakenInOrder(start, actions[..|actions| - 1], plan);
      MonthStep(Run(start, actions[..|actions| - 1]), last, start, plan);
    }
  }

  // ---------------------------------------------------------------- renewals

  /** One renewal: when it is paid, and by which payment. */
  datatype Renewal = Renewal(at: Moment, paidBy: string)

  /** Successive grants of a plan to one organization, each at its own time and by its own payment. */
  function Renewals(current: Option<Subscription>, planId: nat, rs: seq<Renewal>): Option<Subscription>
    decreases |rs|
  {
    if rs == [] then current
    else
      var last := rs[|rs| - 1];
      Some(GrantPlan(Renewals(current, planId, rs[..|rs| - 1]), planId, 1, last.paidBy, last.at))
  }

  /** Renewed again and again, each time before the end reached so far, a plan ends where the calendar's month-by-month
      renewal says, keeps its start, and names the latest payment. */
  lemma {:induction false} RenewalsStack(current: Option<Subscription>, planId: nat, rs: seq<Renewal>)
    requires current.Some? && current.value.planId == planId && current.value.status.Active? && current.value.periodEnd.Some?
    requires forall i | 0 <= i < |rs| :: Before(rs[i].at, Renewed(current.value.periodEnd.value, i))
    ensures var r := Renewals(current, planId, rs);
            && r.Some? && r.value.planId == planId && r.value.status.Active?
            && r.value.periodEnd == Some(Renewed(current.value.periodEnd.value, |rs|))
            && r.value.periodStart == current.value.periodStart
            && r.value.providerReference == if rs == [] then current.value.providerReference else Some(rs[|rs| - 1].paidBy)
    decreases |rs|
  {
    if rs != [] {
      RenewalsStack(current, planId, rs[..|rs| - 1]);
    }
  }
}
