/**
  Payments arrive more than once: by webhook, by the member's verification, again
  after a timeout. A payment id is recorded once. Delivering it again makes no update
  but the repair of one column, and every later request is carried out alike and with
  the same status. One answer shows that column as it is; it can differ.
 */
module Redelivery {
  import opened Options
  import opened Plans
  import opened Membership
  import opened Ledger
  import opened Charges

  /* ---------------------- One record per payment id ---------------------- */

  ghost function Pays(paymentId: string): Op -> bool {
    (o: Op) => (o.Buy? || o.Settle? || o.SellPdf?) && o.paymentId == paymentId
  }

  ghost function Recorded(txns: seq<Txn>, paymentId: string): nat {
    if txns == [] then 0
    else Recorded(txns[..|txns| - 1], paymentId) + if txns[|txns| - 1].paymentId == paymentId then 1 else 0
  }

  lemma {:induction false} RecordedIff(st: State, paymentId: string, n: nat)
    requires n <= |st.txns|
    ensures Recorded(st.txns[..n], paymentId) > 0 <==> exists i :: 0 <= i < n && st.txns[i].paymentId == paymentId
  {
    if n > 0 {
      RecordedIff(st, paymentId, n - 1);
      assert st.txns[..n][..n - 1] == st.txns[..n - 1];
    }
  }

  // Every recorded payment was made by exactly one update of the log.
  ghost predicate PaidAtMostOnce(st: State, log: seq<Op>, paymentId: string) {
    Recorded(st.txns, paymentId) == Count(log, Pays(paymentId)) &&
    (paymentId != "" ==> Recorded(st.txns, paymentId) <= 1)
  }

  lemma OpPaysAtMostOnce(st: State, log: seq<Op>, op: Op, paymentId: string)
    requires PaidAtMostOnce(st, log, paymentId) && Allowed(st, op)
    ensures PaidAtMostOnce(Apply(st, op), log + [op], paymentId)
  {
    var after := Apply(st, op);
    CountAppend(log, [op], Pays(paymentId));
    CountOne(op, Pays(paymentId));
    RecordedIff(st, paymentId, |st.txns|);
    assert st.txns[..|st.txns|] == st.txns;
    if after.txns != st.txns {
      assert after.txns[..|st.txns|] == st.txns;
    }
  }

  lemma {:induction false} OpsPayAtMostOnce(st: State, log: seq<Op>, ops: seq<Op>, paymentId: string)
    requires PaidAtMostOnce(st, log, paymentId) && AllAllowed(st, ops)
    ensures PaidAtMostOnce(ApplyAll(st, ops), log + ops, paymentId)
    decreases |ops|
  {
    if ops == [] {
      assert log + ops == log;
    } else {
      OpPaysAtMostOnce(st, log, ops[0], paymentId);
      OpsPayAtMostOnce(Apply(st, ops[0]), log + [ops[0]], ops[1..], paymentId);
      assert log + [ops[0]] + ops[1..] == log + ops;
    }
  }

  // Over any run, a payment id has at most one transaction, and one activation or settlement behind it.
  lemma {:induction false} EachPaymentCountsOnce(
      catalog: map<nat, Plan>, pdfPrices: map<string, nat>, today: int, events: seq<Event>, paymentId: string)
    ensures var o := Run(Outcome(EmptyDatabase(catalog, pdfPrices, today), []), events);
            PaidAtMostOnce(o.st, o.log, paymentId)
  {
    var start := Outcome(EmptyDatabase(catalog, pdfPrices, today), []);
    if events != [] {
      var before, e := Run(start, events[..|events| - 1]), events[|events| - 1];
      EachPaymentCountsOnce(catalog, pdfPrices, today, events[..|events| - 1], paymentId);
      DecisionsAreAllowed(before.st, e);
      OpsPayAtMostOnce(before.st, before.log, Decide(before.st, e).ops, paymentId);
    }
  }

  /* ----------------------- Alike up to legacy repair --------------------- */

  // The same tables, but for rows whose registration fee one of the two has
  // already written into the service charge paid.
  ghost predicate Alike(a: State, b: State) {
    b == a.(rows := b.rows) && a.rows.Keys == b.rows.Keys &&
    forall u :: u in a.rows ==> a.rows[u].Repaired() == b.rows[u].Repaired()
  }

  lemma AlikeRows(x: UserPlan, y: UserPlan, today: int)
    requires x.Repaired() == y.Repaired()
    ensures x.Usable(today) == y.Usable(today) && x.Current(today) == y.Current(today)
    ensures x.EffectivePaid() == y.EffectivePaid() && x.Outstanding() == y.Outstanding() && x.isActive == y.isActive
    ensures forall m: Meter :: x.Metered(m) == y.Metered(m) && x.Left(m) == y.Left(m)
    ensures x.Carried() == y.Carried() && x.Dropped(today) == y.Dropped(today)
    ensures x.plan == y.plan && x.serviceCharge == y.serviceCharge && x.validUntil == y.validUntil
    ensures x.Settled().Repaired() == y.Settled().Repaired()
    ensures forall m: Meter :: x.WithUse(m).Repaired() == y.WithUse(m).Repaired()
  {
    RepairIsInvisible(x, today);
    RepairIsInvisible(y, today);
  }

  // In two alike states a member may do the same, owes the same and buys the same.
  lemma AlikeAccounts(a: State, b: State, u: nat)
    requires Alike(a, b)
    ensures a.Active(u) == b.Active(u) && Owing(a, u) == Owing(b, u) && RepairOnRead(a, u) == RepairOnRead(b, u)
    ensures RepairIfActive(a, u) == RepairIfActive(b, u)
    ensures forall m: Meter :: a.Can(u, m) == b.Can(u, m)
    ensures forall m: Meter, t :: Consume(a, u, m, t) == Consume(b, u, m, t)
    ensures forall plan, full, id :: Activate(a, u, plan, full, id) == Activate(b, u, plan, full, id)
    ensures forall plan, full :: ToPayAfter(a, u, plan, full) == ToPayAfter(b, u, plan, full)
    ensures ToPayNow(a, u) == ToPayNow(b, u)
  {
    if u in a.rows {
      AlikeRows(a.rows[u], b.rows[u], a.today);
    }
    hide UserPlan.Repaired, UserPlan.Usable, UserPlan.Outstanding, UserPlan.Left, UserPlan.Metered, UserPlan.Dropped;
  }

  // Only the row of the member concerned changes, and in the same way.
  lemma RowsKeepAlike(a: State, b: State, u: nat, x: UserPlan, y: UserPlan)
    requires Alike(a, b) && x.Repaired() == y.Repaired()
    ensures Alike(a.(rows := a.rows[u := x]), b.(rows := b.rows[u := y]))
  {
    hide UserPlan.Repaired;
  }

  lemma BuyKeepsAlike(a: State, b: State, op: Op)
    requires Alike(a, b) && op.Buy?
    ensures Alike(Apply(a, op), Apply(b, op))
  {
    var u := op.user;
    var x := Purchased(a.Row(u), op.plan, op.charge, op.full, op.day);
    assert x == Purchased(b.Row(u), op.plan, op.charge, op.full, op.day) by {
      if u in a.rows {
        AlikeRows(a.rows[u], b.rows[u], op.day);
      }
    }
    RowsKeepAlike(a, b, u, x, x);
    hide Purchased, UserPlan.Repaired, PurchaseAmounts;
  }

  lemma OpKeepsAlike(a: State, b: State, op: Op)
    requires Alike(a, b)
    ensures Alike(Apply(a, op), Apply(b, op))
  {
    if op.Buy? {
      BuyKeepsAlike(a, b, op);
    } else if op.Use? || op.Settle? || op.Repair? {
      var u := op.user;
      if u in a.rows {
        var x, y := a.rows[u], b.rows[u];
        AlikeRows(x, y, a.today);
        RepairIsInvisible(x, a.today);
        if op.Use? {
          RowsKeepAlike(a, b, u, x.WithUse(op.meter), y.WithUse(op.meter));
        } else if op.Settle? {
          RowsKeepAlike(a, b, u, x.Settled(), y.Settled());
        } else {
          RowsKeepAlike(a, b, u, x.Repaired(), y.Repaired());
        }
      }
    }
    hide Purchased, UserPlan.Repaired, UserPlan.WithUse, UserPlan.Settled;
  }

  lemma {:induction false} OpsKeepAlike(a: State, b: State, ops: seq<Op>)
    requires Alike(a, b)
    ensures Alike(ApplyAll(a, ops), ApplyAll(b, ops))
    decreases |ops|
  {
    if ops != [] {
      OpKeepsAlike(a, b, ops[0]);
      OpsKeepAlike(Apply(a, ops[0]), Apply(b, ops[0]), ops[1..]);
      hide Apply, Alike;
    }
  }

  lemma AlikeFulfilments(a: State, b: State, paymentId: string, order: GatewayOrder, expected: Option<nat>)
    requires Alike(a, b)
    ensures FulfilPlanPurchase(a, paymentId, order, expected) == FulfilPlanPurchase(b, paymentId, order, expected)
    ensures FulfilServiceCharge(a, paymentId, order, expected) == FulfilServiceCharge(b, paymentId, order, expected)
    ensures FulfilPdf(a, paymentId, order, expected) == FulfilPdf(b, paymentId, order, expected)
  {
    if order.user.Some? {
      AlikeAccounts(a, b, order.user.value);
    }
    hide Activate, Owing, RepairOnRead;
  }

  lemma AlikeMemberDecisions(a: State, b: State, e: Event, u: nat)
    requires Alike(a, b)
    requires match e
             case SendInterest(v, _, _, _) => v == u
             case RespondInterest(v, _, _, _, _) => v == u
             case UnlockContact(v, _, _, _, _) => v == u
             case OpenProfile(v, _, _, _, _, _) => v == u
             case StartChat(v, _, _, _) => v == u
             case CheckPorutham(v, _, _, _, _) => v == u
             case MyPlan(v) => v == u
             case PurchasePlan(v, _, _, _) => v == u
             case PayRemaining(v, _) => v == u
             case _ => false
    ensures Decide(a, e) == Decide(b, e)
  {
    hide Alike, Consume, Activate, Owing, RepairOnRead, RepairIfActive, ToPayAfter, ToPayNow, State.Active, State.Can;
    AlikeAccounts(a, b, u);
    AlikeTables(a, b);
    AlikeMembership(a, b, u);
  }

  lemma AlikeTables(a: State, b: State)
    requires Alike(a, b)
    ensures b == a.(rows := b.rows)
  {}

  lemma AlikeMembership(a: State, b: State, u: nat)
    requires Alike(a, b)
    ensures u in a.rows <==> u in b.rows
  {}

  // The request shows the column: it verifies a recorded plan payment of the member's
  // own, with a service charge on its transaction.
  ghost predicate ShowsColumn(st: State, e: Event) {
    e.VerifyPlan? && e.payment.id != "" && st.Purchasable(e.plan) && st.HasTxn(e.payment.id) && e.user in st.rows &&
    var t := FirstTxn(st.txns, e.payment.id);
    t.user == e.user && t.product == None && t.serviceCharge > 0
  }

  lemma AlikeRecorded(a: State, b: State, u: nat, t: Txn)
    requires Alike(a, b)
    ensures AnswerRecorded(a, u, t).status == AnswerRecorded(b, u, t).status
    ensures AnswerRecorded(a, u, t) != AnswerRecorded(b, u, t) <==>
            t.user == u && t.product == None && t.serviceCharge > 0 && u in a.rows &&
            a.rows[u].NeedsRepair() != b.rows[u].NeedsRepair()
  {}

  lemma AlikePlanVerifications(a: State, b: State, e: Event)
    requires Alike(a, b) && e.VerifyPlan?
    ensures Decide(a, e).ops == Decide(b, e).ops && Decide(a, e).answer.status == Decide(b, e).answer.status
    ensures Decide(a, e) == Decide(b, e) <==>
            !(ShowsColumn(a, e) && a.rows[e.user].NeedsRepair() != b.rows[e.user].NeedsRepair())
  {
    hide Alike, FulfilPlanPurchase, PurchaseAmounts, ToPayAfter, AnswerRecorded, UserPlan.NeedsRepair;
    AlikeTables(a, b);
    AlikeAccounts(a, b, e.user);
    if a.HasTxn(e.payment.id) {
      AlikeRecorded(a, b, e.user, FirstTxn(a.txns, e.payment.id));
    }
    if a.Purchasable(e.plan) {
      AlikeFulfilments(a, b, e.payment.id, e.order, Some(PurchaseAmounts(a.catalog[e.plan], a.Charge(e.user), e.full).0));
    }
  }

  lemma AlikeWebhooks(a: State, b: State, payment: Payment, order: GatewayOrder)
    requires Alike(a, b)
    ensures DecideWebhook(a, payment, order) == DecideWebhook(b, payment, order)
  {
    hide Alike, FulfilPlanPurchase, FulfilServiceCharge, FulfilPdf;
    AlikeTables(a, b);
    AlikeFulfilments(a, b, payment.id, order, if payment.amount != 0 then Some(payment.amount) else None);
  }

  lemma AlikeOtherDecisions(a: State, b: State, e: Event)
    requires Alike(a, b)
    requires e.Webhook? || e.VerifyService? || e.DaysPass? || e.ChargeEdited? || e.CancelInterest? || e.RecordView?
    ensures Decide(a, e) == Decide(b, e)
  {
    AlikeTables(a, b);
    if e.Webhook? {
      AlikeWebhooks(a, b, e.payment, e.order);
    } else if e.VerifyService? {
      AlikeVerifications(a, b, e.user, e.payment, e.order, e.signed, e.notesMatch);
    }
    hide Alike, DecideWebhook, DecideVerifyService;
  }

  // Two alike states carry out every request alike and answer with the same status.
  // The whole answer is the same, unless it shows the column and one state has
  // repaired the row and the other has not.
  lemma AlikeDecisions(a: State, b: State, e: Event)
    requires Alike(a, b)
    ensures Decide(a, e).ops == Decide(b, e).ops && Decide(a, e).answer.status == Decide(b, e).answer.status
    ensures Decide(a, e) == Decide(b, e) <==>
            !(ShowsColumn(a, e) && a.rows[e.user].NeedsRepair() != b.rows[e.user].NeedsRepair())
  {
    hide Decide, Alike, UserPlan.NeedsRepair;
    if e.VerifyPlan? {
      AlikePlanVerifications(a, b, e);
    } else if e.Webhook? || e.VerifyService? || e.DaysPass? || e.ChargeEdited? || e.CancelInterest? || e.RecordView? {
      AlikeOtherDecisions(a, b, e);
    } else {
      AlikeMemberDecisions(a, b, e, e.user);
    }
  }

  lemma AlikeVerifications(
      a: State, b: State, u: nat, payment: Payment, order: GatewayOrder, signed: bool, notesMatch: bool)
    requires Alike(a, b)
    ensures DecideVerifyService(a, u, payment, order, signed, notesMatch) ==
            DecideVerifyService(b, u, payment, order, signed, notesMatch)
  {
    AlikeAccounts(a, b, u);
    OpsKeepAlike(a, b, RepairOnRead(a, u));
    if Owing(a, u).Some? && Owing(a, u).value > 0 {
      AlikeFulfilments(ApplyAll(a, RepairOnRead(a, u)), ApplyAll(b, RepairOnRead(a, u)), payment.id, order, Some(Owing(a, u).value));
    }
    hide Owing, RepairOnRead, FulfilServiceCharge, ApplyAll;
  }

  lemma {:induction false} RunsKeepAlike(a: Outcome, b: Outcome, events: seq<Event>)
    requires Alike(a.st, b.st)
    ensures Alike(Run(a, events).st, Run(b, events).st)
  {
    if events != [] {
      var x, y, e := Run(a, events[..|events| - 1]), Run(b, events[..|events| - 1]), events[|events| - 1];
      RunsKeepAlike(a, b, events[..|events| - 1]);
      AlikeDecisions(x.st, y.st, e);
      OpsKeepAlike(x.st, y.st, Decide(x.st, e).ops);
      hide Decide, ApplyAll, Alike;
    }
  }

  /* ------------------------ When the fee is credited --------------------- */

  // The requests that read what a member has paid, and so credit the fee: the member's
  // own, and a payment of the service charge that is for the member.
  ghost predicate ReadsPlan(st: State, e: Event, u: nat) {
    match e
    case MyPlan(v) => v == u && st.Active(u)
    case OpenProfile(v, _, _, _, _, _) => v == u && st.Active(u) && Decide(st, e).answer.status == 200
    case PayRemaining(v, online) => v == u && !online && Owing(st, u).Some?
    case Webhook(payment, order) =>
      payment.id != "" && payment.ofThisOrder && payment.captured && !st.HasTxn(payment.id) &&
      order.purpose == ForServiceCharge && order.user == Some(u) && Owing(st, u).Some?
    case VerifyService(v, payment, order, signed, notesMatch) =>
      payment.id != "" && Owing(st, v).Some? &&
      (v == u ||
       (!st.HasTxn(payment.id) && Owing(st, v) == Some(payment.amount) && payment.amount > 0 &&
        signed && payment.ofThisOrder && payment.captured && order.purpose == ForServiceCharge && notesMatch &&
        order.user == Some(u) && Owing(st, u).Some?))
    case _ => false
  }

  lemma OneUpdateKeepsCredited(st: State, op: Op, u: nat)
    requires u in st.rows && !st.rows[u].NeedsRepair() && Allowed(st, op) && !op.Buy?
    ensures u in Apply(st, op).rows && !Apply(st, op).rows[u].NeedsRepair()
  {}

  lemma {:induction false} CreditedStays(st: State, ops: seq<Op>, u: nat)
    requires u in st.rows && !st.rows[u].NeedsRepair() && AllAllowed(st, ops)
    requires forall op :: op in ops ==> !op.Buy?
    ensures var after := ApplyAll(st, ops); u in after.rows && !after.rows[u].NeedsRepair()
    decreases |ops|
  {
    hide Apply, Allowed, UserPlan.NeedsRepair;
    if ops != [] {
      assert ops == [ops[0]] + ops[1..];
      OneUpdateKeepsCredited(st, ops[0], u);
      CreditedStays(Apply(st, ops[0]), ops[1..], u);
    }
  }

  lemma WebhookRepairs(st: State, payment: Payment, order: GatewayOrder, u: nat)
    ensures Repair(u) in Decide(st, Webhook(payment, order)).ops <==> ReadsPlan(st, Webhook(payment, order), u)
  {
    hide PurchaseAmounts;
    if order.user.Some? {
      RepairsOwnRow(st, order.user.value);
    }
    hide Owing, RepairOnRead;
  }

  lemma RepairsOwnRow(st: State, v: nat)
    ensures forall u :: Repair(u) in RepairOnRead(st, v) <==> u == v && u in st.rows
    ensures Owing(st, v).Some? ==> v in st.rows
  {}

  lemma VerificationRepairs(
      st: State, v: nat, payment: Payment, order: GatewayOrder, signed: bool, notesMatch: bool, u: nat)
    ensures var e := VerifyService(v, payment, order, signed, notesMatch);
            Repair(u) in Decide(st, e).ops <==> ReadsPlan(st, e, u)
  {
    var after := ApplyAll(st, RepairOnRead(st, v));
    RepairsOwnRow(st, v);
    RepairIsAllowed(st, v);
    if order.user.Some? {
      RepairsOwnRow(after, order.user.value);
      ApplyOne(st, Repair(v));
      assert order.user.value != v ==> Owing(after, order.user.value) == Owing(st, order.user.value);
    }
    hide Owing, RepairOnRead, ApplyAll;
  }

  // The fee is credited by these requests and no others.
  lemma RepairsIffRead(st: State, e: Event, u: nat)
    ensures Repair(u) in Decide(st, e).ops <==> ReadsPlan(st, e, u)
  {
    if e.Webhook? {
      WebhookRepairs(st, e.payment, e.order, u);
      hide Decide;
    } else if e.VerifyService? {
      VerificationRepairs(st, e.user, e.payment, e.order, e.signed, e.notesMatch, u);
      hide Decide;
    } else if e.PurchasePlan? || e.VerifyPlan? {
      PaymentUpdates(st, e);
      hide Decide;
    } else {
      hide ToPayNow, State.Can, State.Connected, State.Unlocked, UserPlan.Outstanding;
    }
  }

  // What comes before the repair of a row leaves the row as it is or repaired.
  lemma {:induction false} CreditedOnceRepaired(st: State, ops: seq<Op>, u: nat)
    requires u in st.rows && AllAllowed(st, ops) && Repair(u) in ops
    requires forall op :: op in ops ==> !op.Buy?
    ensures var after := ApplyAll(st, ops); u in after.rows && !after.rows[u].NeedsRepair()
    decreases |ops|
  {
    var after := Apply(st, ops[0]);
    assert ops == [ops[0]] + ops[1..];
    assert u in after.rows;
    if ops[0] == Repair(u) {
      RepairWritesIff(st.rows[u]);
      CreditedStays(after, ops[1..], u);
    } else {
      CreditedOnceRepaired(after, ops[1..], u);
    }
    hide UserPlan.NeedsRepair, UserPlan.Repaired, Allowed;
  }

  lemma ReadersBuyNothing(st: State, e: Event, u: nat)
    requires ReadsPlan(st, e, u)
    ensures u in st.rows && forall op :: op in Decide(st, e).ops ==> !op.Buy?
  {
    if e.Webhook? {
      FulfilmentUpdates(st, e.payment.id, e.order, if e.payment.amount != 0 then Some(e.payment.amount) else None);
      hide FulfilServiceCharge;
    } else if IsPayment(e) {
      PaymentUpdates(st, e);
      hide Decide;
    } else {
      OthersSellNothing(st, e);
      hide Decide;
    }
  }

  // After any of them the row needs no repair.
  lemma ReadingRepairs(st: State, e: Event, u: nat)
    requires ReadsPlan(st, e, u)
    ensures var after := ApplyAll(st, Decide(st, e).ops); u in after.rows && !after.rows[u].NeedsRepair()
  {
    hide Decide, UserPlan.NeedsRepair, ReadsPlan;
    RepairsIffRead(st, e, u);
    ReadersBuyNothing(st, e, u);
    DecisionsAreAllowed(st, e);
    CreditedOnceRepaired(st, Decide(st, e).ops, u);
  }

  /* ------------------------------- Redelivery ---------------------------- */

  ghost predicate Delivers(e: Event, paymentId: string) {
    (e.Webhook? || e.VerifyPlan? || e.VerifyService?) && e.payment.id == paymentId
  }

  // Delivering a recorded payment again makes no update at all, except that the
  // service charge verification repairs the member's row before it looks.
  lemma RedeliveryIsSilent(st: State, e: Event, paymentId: string)
    requires Delivers(e, paymentId) && paymentId != "" && st.HasTxn(paymentId)
    ensures !e.VerifyService? ==> Decide(st, e).ops == []
    ensures e.VerifyService? ==> Decide(st, e).ops in {[], [Repair(e.user)]}
    ensures Alike(st, ApplyAll(st, Decide(st, e).ops))
  {
    if e.VerifyService? && e.user in st.rows {
      RepairIsInvisible(st.rows[e.user], st.today);
      ApplyOne(st, Repair(e.user));
    }
  }

  // A plan or service charge payment ends with a transaction to show for it exactly
  // when its id is on record afterwards.
  lemma FulfilledIffRecorded(st: State, payment: Payment, order: GatewayOrder)
    requires payment.id != "" && payment.captured && order.purpose in {ForPlan, ForServiceCharge}
    ensures var f := FulfilCaptured(st, payment, order);
            f.ending in {NewTransaction, ExistingTransaction} <==> ApplyAll(st, f.ops).HasTxn(payment.id)
  {
    var f := FulfilCaptured(st, payment, order);
    if f.ops != [] {
      var u := order.user.value;
      if order.purpose == ForPlan {
        ApplyOne(st, f.ops[0]);
        LastIsRecorded(Apply(st, f.ops[0]), payment.id);
      } else {
        RepairIsAllowed(st, u);
        if f.ending == NewTransaction {
          var repaired, settle := ApplyAll(st, RepairOnRead(st, u)), Settle(u, Owing(st, u).value, payment.id);
          ApplyAppend(st, RepairOnRead(st, u), [settle]);
          ApplyOne(repaired, settle);
          LastIsRecorded(Apply(repaired, settle), payment.id);
        }
      }
    }
  }

  // A payment for a PDF does exactly when that PDF is on record under the id, and the
  // amount is its price.
  lemma PdfFulfilledIffRecorded(st: State, payment: Payment, order: GatewayOrder)
    requires payment.id != "" && payment.captured && order.purpose.ForPdf?
    ensures var f, product := FulfilCaptured(st, payment, order), order.purpose.product;
            f.ending in {NewTransaction, ExistingTransaction} <==>
            product in st.pdfPrices && (payment.amount == 0 || payment.amount == st.pdfPrices[product]) &&
            ApplyAll(st, f.ops).HasTxn(payment.id) &&
            FirstTxn(ApplyAll(st, f.ops).txns, payment.id).product == Some(product)
  {
    var f := FulfilCaptured(st, payment, order);
    if f.ops != [] {
      ApplyOne(st, f.ops[0]);
      LastIsRecorded(Apply(st, f.ops[0]), payment.id);
      NewestIsFirst(st.txns, Apply(st, f.ops[0]).txns[|st.txns|], payment.id);
    }
  }

  lemma {:induction false} NewestIsFirst(txns: seq<Txn>, t: Txn, paymentId: string)
    requires t.paymentId == paymentId && forall i :: 0 <= i < |txns| ==> txns[i].paymentId != paymentId
    ensures (txns + [t])[|txns|] == t && FirstTxn(txns + [t], paymentId) == t
  {
    assert (txns + [t])[|txns|] == t;
    if txns != [] {
      assert (txns + [t])[1..] == txns[1..] + [t];
      NewestIsFirst(txns[1..], t, paymentId);
    }
  }

  lemma LastIsRecorded(st: State, paymentId: string)
    ensures st.txns != [] && st.txns[|st.txns| - 1].paymentId == paymentId ==> st.HasTxn(paymentId)
  {}

  // Wherever in a run a recorded payment is delivered once more, the tables end alike
  // and with the same transactions, and any next request is carried out alike and with
  // the same status. Its answer is the same too, unless it shows the repaired column.
  lemma RedeliveryHasNoEffect(start: Outcome, before: seq<Event>, again: Event, later: seq<Event>, paymentId: string, next: Event)
    requires Delivers(again, paymentId) && paymentId != "" && Run(start, before).st.HasTxn(paymentId)
    ensures var with, without := Run(start, before + [again] + later).st, Run(start, before + later).st;
            Alike(without, with) && with.txns == without.txns &&
            (!again.VerifyService? ==> with == without) &&
            Decide(with, next).ops == Decide(without, next).ops &&
            Decide(with, next).answer.status == Decide(without, next).answer.status &&
            (Decide(with, next) == Decide(without, next) <==>
             !(ShowsColumn(without, next) && without.rows[next.user].NeedsRepair() != with.rows[next.user].NeedsRepair()))
  {
    var mid := Run(start, before);
    var twice := Step(mid, again);
    RedeliveryIsSilent(mid.st, again, paymentId);
    RunAppend(start, before + [again], later);
    RunAppend(start, before, later);
    RunStep(start, before, again);
    RunsKeepAlike(mid, twice, later);
    AlikeDecisions(Run(mid, later).st, Run(twice, later).st, next);
    if !again.VerifyService? {
      assert mid.log + [] == mid.log;
      assert twice == mid;
    }
    hide Decide, Step, ApplyAll;
  }

  // The service charge verification of a recorded payment changes the stored row
  // exactly when the row needs the repair.
  lemma RedeliveryChangesRowIff(st: State, e: Event, paymentId: string)
    requires e.VerifyService? && e.payment.id == paymentId != "" && st.HasTxn(paymentId)
    ensures ApplyAll(st, Decide(st, e).ops) != st <==>
            e.user in st.rows && st.rows[e.user].isActive && st.rows[e.user].NeedsRepair()
  {
    if e.user in st.rows {
      ApplyOne(st, Repair(e.user));
      var row, after := st.rows[e.user], Apply(st, Repair(e.user));
      RepairWritesIff(row);
      assert after.rows[e.user] == row.Repaired();
      if row.Repaired() == row {
        assert after.rows == st.rows;
      }
    }
  }

  // A redelivery changes the answer to the next request exactly when that request shows
  // the column and the redelivery is the member's own service charge verification,
  // finding the row in need of the repair.
  lemma RedeliveryChangesAnswerIff(st: State, again: Event, paymentId: string, next: Event)
    requires Delivers(again, paymentId) && paymentId != "" && st.HasTxn(paymentId)
    ensures Decide(ApplyAll(st, Decide(st, again).ops), next) != Decide(st, next) <==>
            ShowsColumn(st, next) && again.VerifyService? && again.user == next.user &&
            st.rows[next.user].isActive && st.rows[next.user].NeedsRepair()
  {
    var ops := Decide(st, again).ops;
    var after := ApplyAll(st, ops);
    RedeliveryIsSilent(st, again, paymentId);
    AlikeDecisions(st, after, next);
    if again.VerifyService? {
      RedeliveryChangesRowIff(st, again, paymentId);
      ApplyOne(st, Repair(again.user));
      if again.user in st.rows {
        RepairWritesIff(st.rows[again.user]);
      }
      hide Decide;
      assert ops == [] ==> after == st;
    } else {
      assert after == st;
    }
  }

  /* ------------------- Recorded payments are answered -------------------- */

  ghost predicate PayersHaveRows(st: State) {
    forall i :: 0 <= i < |st.txns| && st.txns[i].product == None ==> st.txns[i].user in st.rows
  }

  lemma OpKeepsPayers(st: State, op: Op)
    requires PayersHaveRows(st)
    ensures PayersHaveRows(Apply(st, op))
  {
    hide Purchased, PurchaseAmounts;
  }

  lemma {:induction false} OpsKeepPayers(st: State, ops: seq<Op>)
    requires PayersHaveRows(st)
    ensures PayersHaveRows(ApplyAll(st, ops))
    decreases |ops|
  {
    if ops != [] {
      OpKeepsPayers(st, ops[0]);
      OpsKeepPayers(Apply(st, ops[0]), ops[1..]);
    }
  }

  lemma {:induction false} FirstTxnIsOne(txns: seq<Txn>, paymentId: string) returns (i: nat)
    requires exists k :: 0 <= k < |txns| && txns[k].paymentId == paymentId
    ensures i < |txns| && FirstTxn(txns, paymentId) == txns[i]
  {
    i := 0;
    if txns[0].paymentId != paymentId {
      assert forall k :: 0 < k < |txns| ==> txns[k] == txns[1..][k - 1];
      var j := FirstTxnIsOne(txns[1..], paymentId);
      i := j + 1;
    }
  }

  // Whoever has a payment on record has a subscription to show, so the verification
  // of a recorded payment never fails in a run, whatever it verifies.
  lemma {:induction false} RecordedPaymentsAreAnswered(
      catalog: map<nat, Plan>, pdfPrices: map<string, nat>, today: int, events: seq<Event>, e: Event)
    requires e.VerifyPlan?
    ensures var st := Run(Outcome(EmptyDatabase(catalog, pdfPrices, today), []), events).st;
            PayersHaveRows(st) && Decide(st, e).answer.status != 500
  {
    var start := Outcome(EmptyDatabase(catalog, pdfPrices, today), []);
    var st := Run(start, events).st;
    if events != [] {
      var before, last := Run(start, events[..|events| - 1]), events[|events| - 1];
      RecordedPaymentsAreAnswered(catalog, pdfPrices, today, events[..|events| - 1], e);
      OpsKeepPayers(before.st, Decide(before.st, last).ops);
    }
    if st.HasTxn(e.payment.id) {
      var _ := FirstTxnIsOne(st.txns, e.payment.id);
    }
    hide Run, FulfilPlanPurchase, PurchaseAmounts, ToPayAfter, ApplyAll;
  }

  /* ----------------------- A run where it shows -------------------------- */

  // What a new payment of a plan does, once verified.
  lemma PlanPaidStep(o: Outcome, u: nat, plan: Plan, payment: Payment, order: GatewayOrder)
    requires plan.id in o.st.catalog && o.st.catalog[plan.id] == plan && o.st.Purchasable(plan.id)
    requires payment.id != "" && !o.st.HasTxn(payment.id) && payment.captured && payment.ofThisOrder
    requires payment.amount == plan.price
    requires order == GatewayOrder(ForPlan, Some(u), Some(plan.id), Some(false), Some(plan.price))
    ensures Step(o, VerifyPlan(u, plan.id, false, payment, order, true, true)).st ==
            Apply(o.st, Activate(o.st, u, plan, false, payment.id))
  {
    ApplyOne(o.st, Activate(o.st, u, plan, false, payment.id));
    hide Apply, Activate, ToPayAfter;
  }

  // What a new payment of the service charge does, once verified.
  lemma ServicePaidStep(o: Outcome, u: nat, payment: Payment, order: GatewayOrder)
    requires u in o.st.rows && o.st.rows[u].isActive && !o.st.rows[u].NeedsRepair()
    requires payment.id != "" && !o.st.HasTxn(payment.id) && payment.captured && payment.ofThisOrder
    requires o.st.rows[u].Outstanding() == payment.amount > 0
    requires order.purpose == ForServiceCharge && order.user == Some(u)
    ensures Step(o, VerifyService(u, payment, order, true, true)).st ==
            Apply(o.st, Settle(u, payment.amount, payment.id))
  {
    var e, repair, settle := VerifyService(u, payment, order, true, true), Repair(u), Settle(u, payment.amount, payment.id);
    assert o.st.rows[u := o.st.rows[u].Repaired()] == o.st.rows;
    assert Apply(o.st, repair) == o.st;
    ApplyOne(o.st, repair);
    ApplyOne(o.st, settle);
    ApplyAppend(o.st, [repair], [repair] + [settle]);
    ApplyAppend(o.st, [repair], [settle]);
    assert Decide(o.st, e).ops == [repair] + ([repair] + [settle]);
    hide Decide, Apply;
  }

  const BASIC := Plan(1, 49900, 30, NOTHING, true, true)
  const BETTER := Plan(2, 79900, 30, NOTHING, true, true)

  // Buying a plan and verifying the payment; settling the service charge by gateway.
  const BUYS := VerifyPlan(7, 1, false, Payment("pay_0", 49900, true, true),
                           GatewayOrder(ForPlan, Some(7), Some(1), Some(false), Some(49900)), true, true)
  const SETTLES := VerifyService(7, Payment("pay_1", 1450100, true, true),
                                 GatewayOrder(ForServiceCharge, Some(7), Some(1), None, Some(1450100)), true, true)

  ghost function FreshStart(): Outcome {
    Outcome(EmptyDatabase(map[1 := BASIC, 2 := BETTER], map[], 0), [])
  }

  // Once both payments are recorded the member owes nothing.
  lemma BoughtAndSettled(o: Outcome)
    requires o == Step(Step(Step(FreshStart(), ChargeEdited(7, 1500000)), BUYS), SETTLES)
    ensures o.st.catalog == FreshStart().st.catalog && 7 in o.st.rows && o.st.rows[7].plan == BASIC
    ensures o.st.txns == [Txn(7, Some(1), 49900, 1500000, None, "pay_0"), Txn(7, Some(1), 1450100, 1450100, None, "pay_1")]
  {
    hide Step, Purchased;
    var start := FreshStart();
    ChargeStep(start, 7, 1500000);
    var charged := Step(start, ChargeEdited(7, 1500000));
    PlanPaidStep(charged, 7, BASIC, BUYS.payment, BUYS.order);
    var bought := Step(charged, BUYS);
    PurchasedBasic();
    assert bought.st.rows[7] == Purchased(None, BASIC, 1500000, false, 0);
    assert bought.st.txns == [Txn(7, Some(1), 49900, 1500000, None, "pay_0")];
    ServicePaidStep(bought, 7, SETTLES.payment, SETTLES.order);
  }

  lemma PurchasedBasic()
    ensures var row := Purchased(None, BASIC, 1500000, false, 0);
            row.plan == BASIC && row.serviceCharge == 1500000 && row.isActive && row.Outstanding() == 1450100 && !row.NeedsRepair()
  {}

  // Then the charge is dropped, and a better plan bought in full.
  lemma BetterPlanIsUnrepaired(o: Outcome)
    requires o.st.catalog == FreshStart().st.catalog && 7 in o.st.rows && o.st.rows[7].plan == BASIC
    ensures var after := Step(Step(o, ChargeEdited(7, 0)), PurchasePlan(7, 2, true, false)).st;
            7 in after.rows && after.rows[7].isActive && after.rows[7].serviceChargePaid == 0 && after.rows[7].pricePaid == 79900 &&
            after.catalog == o.st.catalog && o.st.txns <= after.txns
  {
    hide Step;
    ChargeStep(o, 7, 0);
    var dropped := Step(o, ChargeEdited(7, 0));
    PurchaseStep(dropped, 7, BETTER, true);
  }

  // Verifying the payment of the charge once more then rewrites the row, and the payment
  // of the first plan is answered with 14201 rupees to pay instead of 15000.
  lemma RedeliveryCanShow()
    ensures var history := [ChargeEdited(7, 1500000), BUYS, SETTLES, ChargeEdited(7, 0), PurchasePlan(7, 2, true, false)];
            var st := Run(FreshStart(), history).st;
            var after := ApplyAll(st, Decide(st, SETTLES).ops);
            st.HasTxn("pay_1") && after != st &&
            Decide(st, BUYS).answer == Answer(200, Some(1500000)) &&
            Decide(after, BUYS).answer == Answer(200, Some(1420100))
  {
    hide Run, Step, Decide;
    var start, drop, upgrade := FreshStart(), ChargeEdited(7, 0), PurchasePlan(7, 2, true, false);
    RunOne(start, ChargeEdited(7, 1500000));
    RunStep(start, [ChargeEdited(7, 1500000)], BUYS);
    RunStep(start, [ChargeEdited(7, 1500000), BUYS], SETTLES);
    RunStep(start, [ChargeEdited(7, 1500000), BUYS, SETTLES], drop);
    RunStep(start, [ChargeEdited(7, 1500000), BUYS, SETTLES, drop], upgrade);
    assert [ChargeEdited(7, 1500000)] + [BUYS] == [ChargeEdited(7, 1500000), BUYS];
    assert [ChargeEdited(7, 1500000), BUYS] + [SETTLES] == [ChargeEdited(7, 1500000), BUYS, SETTLES];
    assert [ChargeEdited(7, 1500000), BUYS, SETTLES] + [drop] == [ChargeEdited(7, 1500000), BUYS, SETTLES, drop];
    assert [ChargeEdited(7, 1500000), BUYS, SETTLES, drop] + [upgrade] == [ChargeEdited(7, 1500000), BUYS, SETTLES, drop, upgrade];
    var settled := Step(Step(Step(start, ChargeEdited(7, 1500000)), BUYS), SETTLES);
    BoughtAndSettled(settled);
    BetterPlanIsUnrepaired(settled);
    ShownBeforeAndAfter(Step(Step(settled, drop), upgrade).st);
  }

  lemma ShownBeforeAndAfter(st: State)
    requires st.catalog == FreshStart().st.catalog
    requires 7 in st.rows && st.rows[7].isActive && st.rows[7].serviceChargePaid == 0 && st.rows[7].pricePaid == 79900
    requires |st.txns| >= 2 && st.txns[0] == Txn(7, Some(1), 49900, 1500000, None, "pay_0") && st.txns[1].paymentId == "pay_1"
    ensures var after := ApplyAll(st, Decide(st, SETTLES).ops);
            st.HasTxn("pay_1") && after != st &&
            Decide(st, BUYS).answer == Answer(200, Some(1500000)) &&
            Decide(after, BUYS).answer == Answer(200, Some(1420100))
  {
    hide Decide, ApplyAll;
    assert st.HasTxn("pay_1");
    RedeliveryChangesRowIff(st, SETTLES, "pay_1");
    RedeliveryIsSilent(st, SETTLES, "pay_1");
    ApplyOne(st, Repair(7));
    NoUpdates(st);
    ShownForBuys(st);
    ShownForBuys(Apply(st, Repair(7)));
  }

  lemma ShownForBuys(st: State)
    requires st.catalog == FreshStart().st.catalog && 7 in st.rows && st.rows[7].serviceChargePaid <= 1500000
    requires st.txns != [] && st.txns[0] == Txn(7, Some(1), 49900, 1500000, None, "pay_0")
    ensures Decide(st, BUYS).answer == Answer(200, Some(1500000 - st.rows[7].serviceChargePaid))
  {}
}
