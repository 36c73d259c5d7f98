/**
  What is sold for which payment: purchases of plans and PDFs by every route, and
  what the answers say about them.
 */
module Sales {
  import opened Options
  import opened Plans
  import opened Membership
  import opened Ledger
  import opened Charges
  import opened Terms

  // A plan costs its fee; paid in full, what the service charge exceeds the fee by.
  ghost function PriceOf(plan: Plan, charge: nat, full: bool): nat {
    if !full then plan.price else (if charge > plan.price then charge else plan.price) - plan.price
  }

  // The payment and the order are for this amount, as far as they name one.
  ghost predicate AreFor(payment: Payment, order: GatewayOrder, price: nat) {
    (payment.amount == 0 || payment.amount == price) && (order.amount.Some? ==> order.amount.value == price)
  }

  ghost predicate Delivered(st: State, payment: Payment) {
    payment.id != "" && payment.ofThisOrder && payment.captured && !st.HasTxn(payment.id)
  }

  // When a request buys a plan for u: by hand, by webhook or by verification.
  ghost predicate Buys(st: State, e: Event, u: nat) {
    match e
    case PurchasePlan(v, plan, full, online) => v == u && st.Purchasable(plan) && !online
    case Webhook(payment, order) =>
      Delivered(st, payment) && order.purpose == ForPlan && order.user == Some(u) &&
      order.plan.Some? && order.plan.value in st.catalog &&
      AreFor(payment, order, PriceOf(st.catalog[order.plan.value], st.Charge(u), order.PaysInFull()))
    case VerifyPlan(v, plan, full, payment, order, signed, notesMatch) =>
      Delivered(st, payment) && signed && notesMatch && st.Purchasable(plan) &&
      order.purpose == ForPlan && order.user == Some(u) && order.plan == Some(plan) && (order.full.Some? ==> order.full.value == full) &&
      payment.amount == PriceOf(st.catalog[plan], st.Charge(v), full) ==
        PriceOf(st.catalog[plan], st.Charge(u), order.PaysInFull()) &&
      (order.amount.Some? ==> order.amount.value == payment.amount)
    case _ => false
  }

  // Which plan it buys, whether in full, and under which payment id.
  ghost function PlanBought(st: State, e: Event, u: nat): Plan
    requires Buys(st, e, u)
  {
    match e
    case PurchasePlan(_, plan, _, _) => st.catalog[plan]
    case Webhook(_, order) => st.catalog[order.plan.value]
    case VerifyPlan(_, plan, _, _, _, _, _) => st.catalog[plan]
  }

  ghost function InFull(st: State, e: Event, u: nat): bool
    requires Buys(st, e, u)
  {
    if e.PurchasePlan? then e.full else e.order.full == Some(true)
  }

  ghost function PaidWith(st: State, e: Event, u: nat): string
    requires Buys(st, e, u)
  {
    if e.PurchasePlan? then "" else e.payment.id
  }

  ghost function PurchasesOf(u: nat): Op -> bool {
    (o: Op) => o.Buy? && o.user == u
  }

  lemma PriceIsCharged(plan: Plan, charge: nat, full: bool)
    ensures PurchaseAmounts(plan, charge, full).0 == PriceOf(plan, charge, full)
  {}

  lemma WebhookBuys(st: State, payment: Payment, order: GatewayOrder, u: nat)
    ensures var e := Webhook(payment, order);
            if Buys(st, e, u) then
              Decide(st, e).ops == [Activate(st, u, PlanBought(st, e, u), InFull(st, e, u), payment.id)]
            else forall op :: op in Decide(st, e).ops ==> !PurchasesOf(u)(op)
  {
    FulfilmentUpdates(st, payment.id, order, if payment.amount != 0 then Some(payment.amount) else None);
    if order.purpose == ForPlan {
      if order.user.Some? && order.plan.Some? && order.plan.value in st.catalog {
        PriceIsCharged(st.catalog[order.plan.value], st.Charge(order.user.value), order.PaysInFull());
      }
      hide FulfilServiceCharge, FulfilPdf, PurchaseAmounts, PriceOf;
    } else {
      hide FulfilPlanPurchase, FulfilServiceCharge, FulfilPdf;
    }
  }

  lemma VerificationBuys(
      st: State, v: nat, plan: nat, full: bool, payment: Payment, order: GatewayOrder, signed: bool, notesMatch: bool, u: nat)
    ensures var e := VerifyPlan(v, plan, full, payment, order, signed, notesMatch);
            if Buys(st, e, u) then
              Decide(st, e).ops == [Activate(st, u, PlanBought(st, e, u), InFull(st, e, u), payment.id)]
            else forall op :: op in Decide(st, e).ops ==> !PurchasesOf(u)(op)
  {
    hide PurchaseAmounts, PriceOf, ToPayAfter, AnswerRecorded;
    if st.Purchasable(plan) {
      PriceIsCharged(st.catalog[plan], st.Charge(v), full);
      if order.user.Some? {
        PriceIsCharged(st.catalog[plan], st.Charge(order.user.value), order.PaysInFull());
      }
    }
  }

  // The updates of a buying request: that purchase alone. Other requests buy nothing for u.
  lemma PurchaseShape(st: State, e: Event, u: nat)
    ensures if Buys(st, e, u) then
              Decide(st, e).ops == [Activate(st, u, PlanBought(st, e, u), InFull(st, e, u), PaidWith(st, e, u))]
            else forall op :: op in Decide(st, e).ops ==> !PurchasesOf(u)(op)
  {
    if e.Webhook? {
      WebhookBuys(st, e.payment, e.order, u);
      hide Decide;
    } else if e.VerifyPlan? {
      VerificationBuys(st, e.user, e.plan, e.full, e.payment, e.order, e.signed, e.notesMatch, u);
      hide Decide;
    } else if e.PurchasePlan? {
      hide ToPayAfter;
    } else if IsPayment(e) {
      PaymentUpdates(st, e);
      hide Decide;
    } else {
      OthersSellNothing(st, e);
      hide Decide;
    }
  }

  // By whichever route: a plan is bought exactly under these circumstances, once, with
  // one transaction of exactly its price. A purchase that does not renew the running
  // plan leaves the charge less the fee to pay, or nothing if paid in full.
  lemma BuyingSells(o: Outcome, e: Event, u: nat)
    ensures var after := Step(o, e);
            if Buys(o.st, e, u) then
              var plan, full, charge := PlanBought(o.st, e, u), InFull(o.st, e, u), o.st.Charge(u);
              Count(after.log, PurchasesOf(u)) == Count(o.log, PurchasesOf(u)) + 1 &&
              u in after.st.rows && after.st.rows[u].plan == plan && after.st.rows[u].isActive &&
              after.st.txns == o.st.txns +
                [Txn(u, Some(plan.id), PriceOf(plan, charge, full), after.st.rows[u].serviceCharge, None, PaidWith(o.st, e, u))] &&
              (!(Continues(o.st.Row(u), o.st.today) && o.st.rows[u].plan.id == plan.id) ==>
               after.st.rows[u].serviceCharge == charge &&
               Owing(after.st, u) == Some(if !full || charge == 0 then charge - plan.price else 0))
            else Count(after.log, PurchasesOf(u)) == Count(o.log, PurchasesOf(u))
  {
    var ops := Decide(o.st, e).ops;
    PurchaseShape(o.st, e, u);
    CountAppend(o.log, ops, PurchasesOf(u));
    if Buys(o.st, e, u) {
      var plan, full := PlanBought(o.st, e, u), InFull(o.st, e, u);
      var buy := Activate(o.st, u, plan, full, PaidWith(o.st, e, u));
      CountOne(buy, PurchasesOf(u));
      ApplyOne(o.st, buy);
      PriceIsCharged(plan, o.st.Charge(u), full);
      if !(Continues(o.st.Row(u), o.st.today) && o.st.rows[u].plan.id == plan.id) {
        PurchaseOwes(o.st.Row(u), plan, o.st.Charge(u), full, o.st.today);
      }
      hide Decide, Count, ApplyAll, Buys, PriceOf, PurchaseAmounts;
    } else {
      NotCounted(ops, PurchasesOf(u));
      hide Decide, Count, ApplyAll, Buys;
    }
  }

  /* ---------------------------------- PDFs ------------------------------- */

  // When a request sells a PDF to u: only by webhook, for its price.
  ghost predicate Sells(st: State, e: Event, u: nat, product: string) {
    e.Webhook? && Delivered(st, e.payment) && e.order.purpose == ForPdf(product) && e.order.user == Some(u) &&
    product in st.pdfPrices && (e.payment.amount == 0 || e.payment.amount == st.pdfPrices[product])
  }

  lemma WebhookSells(st: State, payment: Payment, order: GatewayOrder, u: nat, product: string)
    ensures var e := Webhook(payment, order);
            if Sells(st, e, u, product) then Decide(st, e).ops == [SellPdf(u, product, st.pdfPrices[product], payment.id)]
            else forall op :: op in Decide(st, e).ops && op.SellPdf? ==> op.user != u || op.product != product
  {
    FulfilmentUpdates(st, payment.id, order, if payment.amount != 0 then Some(payment.amount) else None);
    if order.purpose.ForPdf? {
      hide FulfilServiceCharge, FulfilPlanPurchase;
    } else {
      hide FulfilPlanPurchase, FulfilServiceCharge, FulfilPdf;
    }
  }

  lemma PdfsAreSoldForTheirPrice(st: State, e: Event, u: nat, product: string)
    ensures if Sells(st, e, u, product) then
              ApplyAll(st, Decide(st, e).ops) ==
              st.(txns := st.txns + [Txn(u, None, st.pdfPrices[product], 0, Some(product), e.payment.id)])
            else forall op :: op in Decide(st, e).ops && op.SellPdf? ==> op.user != u || op.product != product
  {
    if e.Webhook? {
      WebhookSells(st, e.payment, e.order, u, product);
      if Sells(st, e, u, product) {
        ApplyOne(st, SellPdf(u, product, st.pdfPrices[product], e.payment.id));
      }
      hide Decide, ApplyAll;
    } else if IsPayment(e) {
      PaymentUpdates(st, e);
      hide Decide, ApplyAll;
    } else {
      OthersSellNothing(st, e);
      hide Decide, ApplyAll;
    }
  }

  /* ------------------------ Nothing without payment ---------------------- */

  // The request delivered a captured payment for what the update sells, to the one the
  // order is for: at the price, by the payment's amount and the order's. A settlement
  // is for what was owed, unless the payment matches the order and not the debt.
  ghost predicate PaidBy(e: Event, op: Op) {
    (e.Webhook? || e.VerifyPlan? || e.VerifyService?) && e.payment.captured && e.payment.ofThisOrder &&
    match op
    case Buy(u, plan, charge, full, _, _, paymentId) =>
      e.payment.id == paymentId && e.order.user == Some(u) && e.order.plan.Some? &&
      full == (e.order.full == Some(true)) && AreFor(e.payment, e.order, PriceOf(plan, charge, full))
    case Settle(u, amount, paymentId) =>
      e.payment.id == paymentId && e.order.user == Some(u) &&
      (e.payment.amount == 0 || e.payment.amount == amount || e.order.amount == Some(e.payment.amount))
    case SellPdf(u, product, price, paymentId) =>
      e.payment.id == paymentId && e.order.user == Some(u) && e.order.purpose == ForPdf(product) &&
      (e.payment.amount == 0 || e.payment.amount == price)
    case _ => false
  }

  ghost predicate BySomePayment(op: Op) {
    (op.Buy? || op.Settle? || op.SellPdf?) && op.paymentId != ""
  }

  lemma StepIsPaidFor(st: State, e: Event, op: Op)
    requires op in Decide(st, e).ops && BySomePayment(op)
    ensures PaidBy(e, op)
  {
    if op.Buy? {
      PurchaseShape(st, e, op.user);
      assert PurchasesOf(op.user)(op);
      hide Decide;
    } else if op.Settle? {
      assert Settlements(op.user)(op);
      if Settles(st, e, op.user) {
        var repairs, id := SettlementShape(st, e, op.user);
      } else {
        OtherwiseNoSettlement(st, e, op.user);
      }
      hide Decide, Owing;
    } else {
      PdfsAreSoldForTheirPrice(st, e, op.user, op.product);
      if Sells(st, e, op.user, op.product) {
        WebhookSells(st, e.payment, e.order, op.user, op.product);
      }
      hide Decide, ApplyAll;
    }
  }

  // In every run, whatever was sold or settled under a payment id was paid for by a
  // request of the run that delivered that payment.
  lemma {:induction false} SalesArePaidFor(
      catalog: map<nat, Plan>, pdfPrices: map<string, nat>, today: int, events: seq<Event>, op: Op)
    requires op in Run(Outcome(EmptyDatabase(catalog, pdfPrices, today), []), events).log && BySomePayment(op)
    ensures exists e :: e in events && PaidBy(e, op)
  {
    hide Decide, ApplyAll, PaidBy;
    var start := Outcome(EmptyDatabase(catalog, pdfPrices, today), []);
    var earlier, e := events[..|events| - 1], events[|events| - 1];
    if op in Run(start, earlier).log {
      SalesArePaidFor(catalog, pdfPrices, today, earlier, op);
      assert forall x :: x in earlier ==> x in events;
    } else {
      StepIsPaidFor(Run(start, earlier).st, e, op);
      assert e in events;
    }
  }

  /* ----------------------------- What answers say ------------------------ */

  // 201 means exactly that the request has bought or settled something for the one who
  // asked; a recorded payment of one's own is answered 200.
  lemma CreatedMeansDone(st: State, e: Event)
    requires !e.Webhook?
    ensures Decide(st, e).answer.status == 201 <==>
            match e
            case PurchasePlan(u, _, _, _) => Buys(st, e, u)
            case VerifyPlan(u, _, _, _, _, _, _) => Buys(st, e, u)
            case PayRemaining(u, _) => Settles(st, e, u)
            case VerifyService(u, _, _, _, _) => Settles(st, e, u)
            case _ => false
  {
    match e
    case VerifyPlan(u, plan, full, payment, order, _, _) =>
      if st.Purchasable(plan) {
        PriceIsCharged(st.catalog[plan], st.Charge(u), full);
        PriceIsCharged(st.catalog[plan], st.Charge(u), order.PaysInFull());
      }
      hide PurchaseAmounts, PriceOf, ToPayAfter;
    case VerifyService(u, payment, order, _, _) =>
      RepairsKeepOwing(st, RepairOnRead(st, u), u);
      hide Owing, ApplyAll;
    case _ =>
      hide ToPayAfter, ToPayNow, PurchaseAmounts;
  }

  // 200 means that there was nothing left to do: nothing owed, or the payment recorded as one's own.
  lemma OkMeansNothingToDo(st: State, e: Event)
    requires e.VerifyPlan? || e.PayRemaining? || e.VerifyService?
    ensures Decide(st, e).answer.status == 200 <==>
            match e
            case VerifyPlan(u, plan, _, payment, _, _, _) =>
              payment.id != "" && st.Purchasable(plan) && st.HasTxn(payment.id) && u in st.rows &&
              FirstTxn(st.txns, payment.id).user == u && FirstTxn(st.txns, payment.id).product == None
            case PayRemaining(u, online) => !online && Owing(st, u).Some? && Owing(st, u).value <= 0
            case VerifyService(u, payment, _, _, _) =>
              payment.id != "" && Owing(st, u).Some? &&
              if st.HasTxn(payment.id) then FirstTxn(st.txns, payment.id).user == u else Owing(st, u).value <= 0
  {
    if e.VerifyService? {
      RepairsKeepOwing(st, RepairOnRead(st, e.user), e.user);
      hide Owing, ApplyAll;
    } else {
      hide PurchaseAmounts, ToPayAfter, FirstTxn;
    }
  }

  // What an answer shows as still to pay: after a purchase what its row says, after a
  // settlement nothing, and on reading the plan what would be owed at today's charge.
  lemma AnswersShowWhatIsOwed(st: State, e: Event)
    ensures (e.PurchasePlan? || e.VerifyPlan?) && Decide(st, e).answer.status == 201 ==>
              var after := ApplyAll(st, Decide(st, e).ops);
              e.user in after.rows && Decide(st, e).answer.toPay == Some(after.rows[e.user].ShownAfterPurchase())
    ensures (e.PayRemaining? || e.VerifyService?) && Decide(st, e).answer.status in {200, 201} ==>
              Decide(st, e).answer.toPay == Some(0)
    ensures e.MyPlan? && st.Active(e.user) ==>
              var due := Owing(st, e.user).value + st.Charge(e.user) - st.rows[e.user].serviceCharge;
              Decide(st, e).answer.toPay == Some(if due > 0 then due else 0)
    ensures e.MyPlan? && !st.Active(e.user) ==> Decide(st, e).answer.toPay == Some(0)
    ensures Decide(st, e).answer.status >= 400 ==> Decide(st, e).answer.toPay == None
  {
    CreatedMeansShown(st, e);
    hide ApplyAll, Purchased, FulfilPlanPurchase, FulfilServiceCharge, FulfilPdf, PurchaseAmounts, ToPayAfter;
  }

  lemma CreatedMeansShown(st: State, e: Event)
    ensures (e.PurchasePlan? || e.VerifyPlan?) && Decide(st, e).answer.status == 201 ==>
              var after := ApplyAll(st, Decide(st, e).ops);
              e.user in after.rows && Decide(st, e).answer.toPay == Some(after.rows[e.user].ShownAfterPurchase())
  {
    if (e.PurchasePlan? || e.VerifyPlan?) && Decide(st, e).answer.status == 201 {
      CreatedMeansDone(st, e);
      PurchaseShape(st, e, e.user);
      ApplyOne(st, Activate(st, e.user, PlanBought(st, e, e.user), InFull(st, e, e.user), PaidWith(st, e, e.user)));
      hide ApplyAll, Purchased, PurchaseAmounts;
    }
  }

  // The request is a verification of one's own that buys or settles something for another.
  ghost predicate ServesAnother(st: State, e: Event) {
    (e.VerifyPlan? || e.VerifyService?) && e.order.user.Some? && e.order.user.value != e.user &&
    (Buys(st, e, e.order.user.value) || Settles(st, e, e.order.user.value))
  }

  // A refused request changes nothing but the repair of a row; the one exception is a
  // verification whose order turns out to be another member's, after it was fulfilled.
  lemma RefusalsChangeNothing(st: State, e: Event)
    requires Decide(st, e).answer.status >= 400
    ensures (forall op :: op in Decide(st, e).ops ==> op.Repair?) <==> !ServesAnother(st, e)
  {
    if e.VerifyPlan? && e.order.user.Some? {
      PurchaseShape(st, e, e.order.user.value);
      if Buys(st, e, e.order.user.value) {
        var buy := Decide(st, e).ops[0];
        assert buy in Decide(st, e).ops && buy.Buy?;
        CreatedMeansDone(st, e);
      } else {
        VerificationsBuyOrNothing(st, e);
      }
      hide Decide, Buys;
    } else if e.VerifyService? {
      ChargeVerifications(st, e);
      hide Decide, Settles;
    } else {
      hide FulfilCaptured, ToPayAfter, ToPayNow, PurchaseAmounts;
    }
  }

  lemma VerificationsBuyOrNothing(st: State, e: Event)
    requires e.VerifyPlan? && e.order.user.Some?
    ensures Decide(st, e).ops == [] || exists op :: op in Decide(st, e).ops && PurchasesOf(e.order.user.value)(op)
  {
    hide PurchaseAmounts, ToPayAfter, AnswerRecorded;
    var ops := Decide(st, e).ops;
    if ops != [] {
      assert ops[0] in ops && PurchasesOf(e.order.user.value)(ops[0]);
    }
  }

  lemma ChargeVerifications(st: State, e: Event)
    requires e.VerifyService? && Decide(st, e).answer.status >= 400
    ensures (forall op :: op in Decide(st, e).ops ==> op.Repair?) <==> !ServesAnother(st, e)
  {
    if e.order.user.Some? {
      var w := e.order.user.value;
      if Settles(st, e, w) {
        var repairs, id := SettlementShape(st, e, w);
        var settle := Settle(w, Owing(st, w).value, id);
        assert settle in Decide(st, e).ops;
        CreatedMeansDone(st, e);
        hide Decide, Owing;
      } else {
        VerificationsSettleOrRepair(st, e);
        OtherwiseNoSettlement(st, e, w);
        hide Decide, Owing;
      }
    } else {
      hide ApplyAll, Owing;
    }
  }

  lemma VerificationsSettleOrRepair(st: State, e: Event)
    requires e.VerifyService? && e.order.user.Some?
    ensures forall op :: op in Decide(st, e).ops ==> op.Repair? || Settlements(e.order.user.value)(op)
  {
    hide Owing, ApplyAll;
  }
}
