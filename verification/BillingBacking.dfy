/** What an organization enjoys is paid for and not refunded: its active plan and its credit balance. */
module BillingBacking {
  import opened Basics
  import opened BillingPeriod
  import opened Billing

  // ---------------------------------------------------------------- the active plan

  ghost predicate PaidPlan(c: Charge, planId: nat, id: string) {
    c.status.Approved? && c.paidBy == Some(id) && c.product.PlanMonths? && c.product.planId == planId
  }

  /** An active subscription that names a payment is carried by an approved charge for that plan, paid by it. */
  ghost predicate Backed(l: Ledger) {
    var s := l.subscription;
    s.Some? && s.value.status.Active? && s.value.providerReference.Some? ==>
      exists c :: c in l.charges && PaidPlan(l.charges[c], s.value.planId, s.value.providerReference.value)
  }

  lemma GrantKeepsBacked(l: Ledger, c: ChargeId, p: ProviderPayment, now: Moment)
    requires Backed(l) && c in l.charges && c in l.grants && !Settled(l.charges[c].status)
    ensures Backed(Grant(l, c, p, now))
  {
    var t := Grant(l, c, p, now);
    if l.charges[c].product.PlanMonths? {
      assert PaidPlan(t.charges[c], t.subscription.value.planId, p.id);
    } else if l.subscription.Some? && l.subscription.value.status.Active? && l.subscription.value.providerReference.Some? {
      var d :| d in l.charges && PaidPlan(l.charges[d], l.subscription.value.planId, l.subscription.value.providerReference.value);
      assert t.charges[d] == l.charges[d];
    }
  }

  /** The charge that carries the plan is refunded together with the plan: only its own payment can refund it. */
  lemma RefundKeepsBacked(l: Ledger, c: ChargeId, p: ProviderPayment)
    requires Backed(l) && c in l.charges && (l.charges[c].status.Approved? ==> l.charges[c].paidBy == Some(p.id))
    ensures Backed(Refund(l, c, p))
  {
    var t := Refund(l, c, p);
    if t.subscription.Some? && t.subscription.value.status.Active? && t.subscription.value.providerReference.Some? {
      var d :| d in l.charges && PaidPlan(l.charges[d], l.subscription.value.planId, l.subscription.value.providerReference.value);
      assert d != c;
      assert t.charges[d] == l.charges[d];
    }
  }

  lemma OtherChargeKeepsBacked(l: Ledger, c: ChargeId, rec: Charge)
    requires Backed(l) && (c in l.charges ==> !l.charges[c].status.Approved?)
    ensures Backed(l.(charges := l.charges[c := rec]))
  {
    if l.subscription.Some? && l.subscription.value.status.Active? && l.subscription.value.providerReference.Some? {
      var d :| d in l.charges && PaidPlan(l.charges[d], l.subscription.value.planId, l.subscription.value.providerReference.value);
      assert d != c && l.charges[c := rec][d] == l.charges[d];
    }
  }

  lemma FeedKeepsBacked(l: Ledger, p: ProviderPayment, now: Moment)
    requires Billing.Inv(l) && Backed(l)
    ensures Backed(Apply(l, p, now).0)
  {
    var c := p.reference;
    var next := MapProviderStatus(p.status);
    if c in l.charges && next.Some? {
      var rec := l.charges[c];
      assert ChargeOk(rec, l.grants[c], l.late[c]);
      if rec.status.Approved? && rec.paidBy.value != p.id {
      } else if next.value.Approved? && !Settled(rec.status) {
        GrantKeepsBacked(l, c, p, now);
      } else if next.value.Refunded? {
        RefundKeepsBacked(l, c, p);
      } else if OpenStatus(rec.status) {
        OtherChargeKeepsBacked(l, c, rec.(status := next.value));
      }
    }
  }

  // ---------------------------------------------------------------- the credit balance

  /** Documents of an approved pack. */
  function PaidDocuments(c: Charge): nat {
    if c.status.Approved? && c.product.DocumentPack? then c.product.documents else 0
  }

  function FirstCharge(charges: map<ChargeId, Charge>): (c: ChargeId)
    requires charges != map[]
    ensures c in charges && forall d | d in charges :: c <= d
  {
    var ids := set c | c in charges :: c as int;
    assert charges.Keys != {};
    assert forall c | c in charges :: c as int in ids;
    Basics.Least(ids)
  }

  lemma FirstIsUnique(charges: map<ChargeId, Charge>, c: ChargeId)
    requires c in charges && forall d | d in charges :: c <= d
    ensures charges != map[] && FirstCharge(charges) == c
  {
    assert charges != map[];
    assert c <= FirstCharge(charges) <= c;
  }

  function AllPaidDocuments(charges: map<ChargeId, Charge>): nat
    decreases |charges|
  {
    if charges == map[] then 0
    else
      var c := FirstCharge(charges);
      PaidDocuments(charges[c]) + AllPaidDocuments(charges - {c})
  }

  lemma {:induction false} ReplacedDocuments(charges: map<ChargeId, Charge>, c: ChargeId, rec: Charge)
    requires c in charges
    ensures AllPaidDocuments(charges[c := rec]) == AllPaidDocuments(charges) - PaidDocuments(charges[c]) + PaidDocuments(rec)
    decreases |charges|
  {
    var first := FirstCharge(charges);
    FirstIsUnique(charges[c := rec], first);
    if c == first {
      assert charges[c := rec] - {c} == charges - {c};
    } else {
      ReplacedDocuments(charges - {first}, c, rec);
      assert charges[c := rec] - {first} == (charges - {first})[c := rec];
    }
  }

  lemma AddedApart(charges: map<ChargeId, Charge>, c: ChargeId, rec: Charge, first: ChargeId)
    requires first != c
    ensures charges[c := rec] - {first} == (charges - {first})[c := rec]
  {
  }

  lemma {:induction false} AddedDocuments(charges: map<ChargeId, Charge>, c: ChargeId, rec: Charge)
    requires c !in charges
    ensures AllPaidDocuments(charges[c := rec]) == AllPaidDocuments(charges) + PaidDocuments(rec)
    decreases |charges|
  {
    var more := charges[c := rec];
    assert c in more;
    var first := FirstCharge(more);
    if c == first {
      assert more - {c} == charges;
    } else {
      forall d | d in charges ensures first <= d {
        assert d in more;
      }
      FirstIsUnique(charges, first);
      AddedDocuments(charges - {first}, c, rec);
      AddedApart(charges, c, rec, first);
    }
  }

  /** The balance never exceeds the documents of credit packs that are paid and not refunded. */
  ghost predicate Covered(l: Ledger) {
    0 <= l.credits <= AllPaidDocuments(l.charges)
  }

  lemma GrantKeepsCovered(l: Ledger, c: ChargeId, p: ProviderPayment, now: Moment)
    requires Covered(l) && c in l.charges && c in l.grants && !Settled(l.charges[c].status)
    ensures Covered(Grant(l, c, p, now))
  {
    ReplacedDocuments(l.charges, c, l.charges[c].(status := Approved, paidBy := Some(p.id)));
  }

  lemma RefundKeepsCovered(l: Ledger, c: ChargeId, p: ProviderPayment)
    requires Covered(l) && c in l.charges
    ensures Covered(Refund(l, c, p))
  {
    ReplacedDocuments(l.charges, c, l.charges[c].(status := Refunded, paidBy := Some(p.id)));
  }

  lemma FeedKeepsCovered(l: Ledger, p: ProviderPayment, now: Moment)
    requires Covered(l)
    ensures Covered(Apply(l, p, now).0)
  {
    var c := p.reference;
    var next := MapProviderStatus(p.status);
    if c in l.charges && c in l.grants && next.Some? {
      var rec := l.charges[c];
      if next.value.Approved? && !Settled(rec.status) {
        GrantKeepsCovered(l, c, p, now);
      } else if next.value.Refunded? {
        RefundKeepsCovered(l, c, p);
      } else if OpenStatus(rec.status) {
        ReplacedDocuments(l.charges, c, rec.(status := next.value));
      }
    }
  }

  lemma PayKeeps(l: Ledger, c: ChargeId, now: Moment)
    requires Backed(l) && Covered(l)
    ensures Backed(Step(l, Pay(c, now))) && Covered(Step(l, Pay(c, now)))
  {
    if c in l.charges && c in l.late && Payable(l.charges[c], now) {
      ReplacedDocuments(l.charges, c, l.charges[c].(status := Pending));
      OtherChargeKeepsBacked(l, c, l.charges[c].(status := Pending));
    }
  }

  lemma CheckoutKeeps(l: Ledger, c: ChargeId, rec: Charge)
    requires Backed(l) && Covered(l) && c !in l.charges && rec.status.Pending?
    ensures Backed(OpenCharge(l, c, rec)) && Covered(OpenCharge(l, c, rec))
  {
    AddedDocuments(l.charges, c, rec);
    OtherChargeKeepsBacked(l, c, rec);
  }

  // ---------------------------------------------------------------- over every run

  lemma StepKeeps(l: Ledger, a: Action)
    requires Billing.Inv(l) && Backed(l) && Covered(l) && !a.ResetLate?
    ensures Backed(Step(l, a)) && Covered(Step(l, a))
  {
    match a
    case Feed(p, now) => FeedKeepsBacked(l, p, now); FeedKeepsCovered(l, p, now);
    case Pay(c, now) => PayKeeps(l, c, now);
    case Checkout(c, product, amount, currency, expiresAt) =>
      if c !in l.charges {
        CheckoutKeeps(l, c, Charge(product, amount, currency, expiresAt, Pending, None));
      }
    case _ =>
  }

  /** In every run without late resets, starting without payments: an active plan bought by a payment is carried by
      an approved charge for that plan, and the balance is covered by approved packs. */
  lemma {:induction false} WhatIsActiveIsPaid(subscription: Option<Subscription>, actions: seq<Action>)
    requires (forall a | a in actions :: !a.ResetLate?) && (subscription.Some? ==> subscription.value.providerReference.None?)
    ensures var l := Run(EmptyLedger(subscription), actions); Backed(l) && Covered(l)
    decreases |actions|
  {
    var start := EmptyLedger(subscription);
    if actions != [] {
      var before, last := actions[..|actions| - 1], actions[|actions| - 1];
      assert last in actions;
      WhatIsActiveIsPaid(subscription, before);
      RunKeepsInv(start, before);
      StepKeeps(Run(start, before), last);
    }
  }

  // ---------------------------------------------------------------- nobody loses what they paid for

  /** The documents of the packs that are paid and not refunded are on the balance or have been used. */
  ghost predicate Kept(l: Ledger) {
    l.credits >= 0 && AllPaidDocuments(l.charges) <= l.credits + l.debited
  }

  lemma FeedKeepsKept(l: Ledger, p: ProviderPayment, now: Moment)
    requires Kept(l)
    ensures Kept(Apply(l, p, now).0)
  {
    var c := p.reference;
    var next := MapProviderStatus(p.status);
    if c in l.charges && c in l.grants && next.Some? {
      var rec := l.charges[c];
      if next.value.Approved? {
        ReplacedDocuments(l.charges, c, rec.(status := Approved, paidBy := Some(p.id)));
      } else if next.value.Refunded? {
        ReplacedDocuments(l.charges, c, rec.(status := Refunded, paidBy := Some(p.id)));
      } else if OpenStatus(rec.status) {
        ReplacedDocuments(l.charges, c, rec.(status := next.value));
      }
    }
  }

  lemma StepKeepsKept(l: Ledger, a: Action)
    requires Kept(l)
    ensures Kept(Step(l, a))
  {
    match a
    case Feed(p, now) => FeedKeepsKept(l, p, now);
    case Pay(c, now) => if c in l.charges { ReplacedDocuments(l.charges, c, l.charges[c].(status := Pending)); }
    case ResetLate(c) => if c in l.charges { ReplacedDocuments(l.charges, c, l.charges[c].(status := Pending)); }
    case Checkout(c, product, amount, currency, expiresAt) =>
      if c !in l.charges { AddedDocuments(l.charges, c, Charge(product, amount, currency, expiresAt, Pending, None)); }
    case _ =>
  }

  /** In every run, late resets or not: whatever was refunded in between, the balance and the credits used so far make
      up at least the documents of all packs that are paid and not refunded. */
  lemma {:induction false} PaidIsNeverTaken(subscription: Option<Subscription>, actions: seq<Action>)
    ensures Kept(Run(EmptyLedger(subscription), actions))
    decreases |actions|
  {
    if actions != [] {
      PaidIsNeverTaken(subscription, actions[..|actions| - 1]);
      StepKeepsKept(Run(EmptyLedger(subscription), actions[..|actions| - 1]), actions[|actions| - 1]);
    }
  }
}
