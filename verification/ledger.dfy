/**
  Conservation of credits over whole runs.

  For every member and every meter, credits granted by purchases equal credits
  debited, plus credits dropped by later purchases, plus credits left.
 */
module Ledger {
  import opened Options
  import opened Plans
  import opened Membership

  // Payments made by hand carry no id; any other id may be recorded only once.
  ghost predicate Unpaid(st: State, paymentId: string) {
    paymentId == "" || !st.HasTxn(paymentId)
  }

  // What an update presupposes of the tables it is applied to.
  ghost predicate Allowed(st: State, op: Op) {
    match op
    case Use(u, m, _) => u in st.rows && st.rows[u].Metered(m) && st.rows[u].Left(m) > 0
    case Buy(u, _, _, _, day, dropped, paymentId) =>
      day == st.today && dropped == DroppedBy(st.Row(u), st.today) && Unpaid(st, paymentId)
    case Settle(u, amount, paymentId) => u in st.rows && st.rows[u].Outstanding() == amount > 0 && Unpaid(st, paymentId)
    case SellPdf(_, _, _, paymentId) => Unpaid(st, paymentId)
    case Repair(u) => u in st.rows
    case _ => true
  }

  ghost predicate AllAllowed(st: State, ops: seq<Op>)
    decreases |ops|
  {
    ops == [] || (Allowed(st, ops[0]) && AllAllowed(Apply(st, ops[0]), ops[1..]))
  }

  lemma {:induction false} ApplyAppend(st: State, a: seq<Op>, b: seq<Op>)
    ensures ApplyAll(st, a + b) == ApplyAll(ApplyAll(st, a), b)
    ensures AllAllowed(st, a + b) <==> AllAllowed(st, a) && AllAllowed(ApplyAll(st, a), b)
    decreases |a|
  {
    if a == [] {
      assert a + b == b;
    } else {
      assert (a + b)[1..] == a[1..] + b;
      ApplyAppend(Apply(st, a[0]), a[1..], b);
    }
  }

  lemma ApplyOne(st: State, op: Op)
    ensures ApplyAll(st, [op]) == Apply(st, op)
    ensures AllAllowed(st, [op]) <==> Allowed(st, op)
  {
    assert [op][1..] == [];
  }

  // What a purchase by hand and an edit of the charge do, in one step.
  lemma PurchaseStep(o: Outcome, u: nat, plan: Plan, full: bool)
    requires plan.id in o.st.catalog && o.st.catalog[plan.id] == plan && o.st.Purchasable(plan.id)
    ensures var after := Step(o, PurchasePlan(u, plan.id, full, false)).st;
            after.rows == o.st.rows[u := Purchased(o.st.Row(u), plan, o.st.Charge(u), full, o.st.today)] &&
            after == o.st.(rows := after.rows, txns := after.txns) && o.st.txns <= after.txns
  {
    ApplyOne(o.st, Activate(o.st, u, plan, full, ""));
    hide Purchased, PurchaseAmounts, ToPayAfter;
  }

  lemma ChargeStep(o: Outcome, u: nat, amount: nat)
    ensures Step(o, ChargeEdited(u, amount)).st == o.st.(charges := o.st.charges[u := amount])
  {
    ApplyOne(o.st, SetCharge(u, amount));
  }

  /* --------------------- Requests make only allowed updates -------------- */

  lemma ConsumeIsAllowed(st: State, u: nat, m: Meter, about: Target)
    requires st.Can(u, m)
    ensures AllAllowed(st, Consume(st, u, m, about))
  {
    ApplyOne(st, Use(u, m, about));
  }

  // Consuming one credit does not change what the member may do on another meter.
  lemma ConsumeKeepsOthers(st: State, u: nat, m: Meter, about: Target, k: Meter)
    requires k != m
    ensures var after := ApplyAll(st, Consume(st, u, m, about));
            after.Can(u, k) == st.Can(u, k) && after.Active(u) == st.Active(u) &&
            Consume(after, u, k, about) == Consume(st, u, k, about) &&
            after == st.(rows := after.rows)
  {
    ApplyOne(st, Use(u, m, about));
    if u in st.rows {
      var row := st.rows[u];
      assert row.WithUse(m).Left(k) == row.Left(k);
      hide UserPlan.Left, UserPlan.WithUse;
    }
  }

  lemma RepairIsAllowed(st: State, u: nat)
    ensures AllAllowed(st, RepairOnRead(st, u))
    ensures var after := ApplyAll(st, RepairOnRead(st, u));
            after == st.(rows := after.rows) && after.rows.Keys == st.rows.Keys &&
            Owing(after, u) == Owing(st, u) && after.Active(u) == st.Active(u) &&
            (forall m: Meter :: after.Can(u, m) == st.Can(u, m)) &&
            forall m: Meter, t :: Consume(after, u, m, t) == Consume(st, u, m, t)
  {
    ApplyOne(st, Repair(u));
    if u in st.rows {
      RepairIsInvisible(st.rows[u], st.today);
    }
    hide UserPlan.Repaired, UserPlan.Usable, UserPlan.Outstanding, UserPlan.Left, UserPlan.Metered;
  }

  lemma SettleIsAllowed(st: State, u: nat, paymentId: string)
    requires Owing(st, u).Some? && Owing(st, u).value > 0 && Unpaid(st, paymentId)
    ensures AllAllowed(st, RepairOnRead(st, u) + [Settle(u, Owing(st, u).value, paymentId)])
  {
    var repair, op := RepairOnRead(st, u), Settle(u, Owing(st, u).value, paymentId);
    RepairIsAllowed(st, u);
    ApplyAppend(st, repair, [op]);
    ApplyOne(ApplyAll(st, repair), op);
  }

  lemma SendInterestIsAllowed(st: State, u: nat, v: nat, found: bool, blocked: bool)
    ensures AllAllowed(st, DecideSendInterest(st, u, v, found, blocked).ops)
  {
    if st.Can(u, Interests) {
      forall s, r, x ensures AllAllowed(st, [SetInterest(s, r, x)] + Consume(st, u, Interests, Person(v))) {
        var after := Apply(st, SetInterest(s, r, x));
        ApplyOne(st, SetInterest(s, r, x));
        ApplyAppend(st, [SetInterest(s, r, x)], Consume(st, u, Interests, Person(v)));
        ConsumeIsAllowed(after, u, Interests, Person(v));
        assert Consume(after, u, Interests, Person(v)) == Consume(st, u, Interests, Person(v));
      }
    }
  }

  lemma UnlockContactIsAllowed(st: State, u: nat, v: nat, found: bool, blocked: bool, hasProfile: bool)
    ensures AllAllowed(st, DecideUnlockContact(st, u, v, found, blocked, hasProfile).ops)
  {
    if st.Can(u, Contacts) && (st.Unlocked(u, v) || st.Can(u, ProfileViews)) {
      var first, touch := Consume(st, u, Contacts, Person(v)), Touch(u, v, true);
      var second := if st.Unlocked(u, v) then [] else Consume(st, u, ProfileViews, Person(v));
      ConsumeIsAllowed(st, u, Contacts, Person(v));
      ConsumeKeepsOthers(st, u, Contacts, Person(v), ProfileViews);
      var mid := ApplyAll(st, first);
      var after := Apply(mid, touch);
      ApplyOne(mid, touch);
      ApplyAppend(st, first, [touch]);
      ApplyAppend(st, first + [touch], second);
      if !st.Unlocked(u, v) {
        ConsumeIsAllowed(after, u, ProfileViews, Person(v));
        assert Consume(after, u, ProfileViews, Person(v)) == second;
      }
    }
  }

  lemma OpenProfileIsAllowed(
      st: State, u: nat, v: nat, found: bool, blocked: bool, hidden: bool, hasProfile: bool)
    ensures AllAllowed(st, DecideOpenProfile(st, u, v, found, blocked, hidden, hasProfile).ops)
  {
    RepairIsAllowed(st, u);
    var repair := RepairIfActive(st, u);
    var mid := ApplyAll(st, repair);
    var second := Consume(st, u, ProfileViews, Person(v));
    forall unlock ensures AllAllowed(st, repair + [Touch(u, v, unlock)]) {
      ApplyOne(mid, Touch(u, v, unlock));
      ApplyAppend(st, repair, [Touch(u, v, unlock)]);
    }
    if st.Can(u, ProfileViews) {
      var after := Apply(mid, Touch(u, v, true));
      ApplyOne(mid, Touch(u, v, true));
      ApplyAppend(st, repair, [Touch(u, v, true)]);
      ApplyAppend(st, repair + [Touch(u, v, true)], second);
      ConsumeIsAllowed(after, u, ProfileViews, Person(v));
      assert Consume(after, u, ProfileViews, Person(v)) == second;
    }
  }

  lemma StartChatIsAllowed(st: State, u: nat, v: nat, found: bool, blocked: bool)
    ensures AllAllowed(st, DecideStartChat(st, u, v, found, blocked).ops)
  {
    if st.Can(u, Chats) {
      var op, rest := OpenChat(Ordered(u, v).0, Ordered(u, v).1), Consume(st, u, Chats, Person(v));
      var after := Apply(st, op);
      ApplyOne(st, op);
      ApplyAppend(st, [op], rest);
      ConsumeIsAllowed(after, u, Chats, Person(v));
      assert Consume(after, u, Chats, Person(v)) == rest;
    }
  }

  lemma CheckPoruthamIsAllowed(st: State, u: nat, bride: nat, groom: nat, found: bool, ready: bool)
    ensures AllAllowed(st, DecideCheckPorutham(st, u, bride, groom, found, ready).ops)
  {
    if st.Can(u, Horoscopes) {
      var op, rest := AddMatch(bride, groom), Consume(st, u, Horoscopes, Couple(bride, groom));
      var after := Apply(st, op);
      ApplyOne(st, op);
      ApplyAppend(st, [op], rest);
      ConsumeIsAllowed(after, u, Horoscopes, Couple(bride, groom));
      assert Consume(after, u, Horoscopes, Couple(bride, groom)) == rest;
    }
  }

  lemma FulfilmentIsAllowed(st: State, paymentId: string, order: GatewayOrder, expected: Option<nat>)
    ensures AllAllowed(st, FulfilPlanPurchase(st, paymentId, order, expected).ops)
    ensures AllAllowed(st, FulfilServiceCharge(st, paymentId, order, expected).ops)
    ensures AllAllowed(st, FulfilPdf(st, paymentId, order, expected).ops)
  {
    var p, s, d := FulfilPlanPurchase(st, paymentId, order, expected).ops,
                   FulfilServiceCharge(st, paymentId, order, expected).ops, FulfilPdf(st, paymentId, order, expected).ops;
    if p != [] { ApplyOne(st, p[0]); }
    if d != [] { ApplyOne(st, d[0]); }
    if s != [] {
      var u := order.user.value;
      RepairIsAllowed(st, u);
      if Owing(st, u).value > 0 {
        SettleIsAllowed(st, u, paymentId);
      }
    }
  }

  lemma VerifyServiceIsAllowed(st: State, u: nat, payment: Payment, order: GatewayOrder, signed: bool, notesMatch: bool)
    ensures AllAllowed(st, DecideVerifyService(st, u, payment, order, signed, notesMatch).ops)
  {
    var repair := RepairOnRead(st, u);
    var after := ApplyAll(st, repair);
    RepairIsAllowed(st, u);
    if Owing(st, u).Some? {
      var f := FulfilServiceCharge(after, payment.id, order, Some(if Owing(st, u).value > 0 then Owing(st, u).value else 0));
      FulfilmentIsAllowed(after, payment.id, order, Some(if Owing(st, u).value > 0 then Owing(st, u).value else 0));
      ApplyAppend(st, repair, f.ops);
    }
  }

  // Updates that presuppose nothing.
  lemma Plainly(st: State, op: Op)
    requires op.Pass? || op.SetCharge? || op.SetInterest? || op.Touch?
    ensures AllAllowed(st, [op])
  {
    ApplyOne(st, op);
  }

  lemma ActivationIsAllowed(st: State, u: nat, plan: Plan, full: bool, paymentId: string)
    requires Unpaid(st, paymentId)
    ensures AllAllowed(st, [Activate(st, u, plan, full, paymentId)])
  {
    ApplyOne(st, Activate(st, u, plan, full, paymentId));
  }

  // No request uses a credit that is not there, or settles what is not owed.
  lemma DecisionsAreAllowed(st: State, e: Event)
    ensures AllAllowed(st, Decide(st, e).ops)
  {
    hide DecideSendInterest, DecideUnlockContact, DecideOpenProfile, DecideStartChat, DecideCheckPorutham,
         DecideVerifyService, FulfilPlanPurchase, FulfilServiceCharge, FulfilPdf, Allowed, Apply;
    match e
    case DaysPass(days) => Plainly(st, Pass(days));
    case ChargeEdited(u, amount) => Plainly(st, SetCharge(u, amount));
    case SendInterest(u, v, found, blocked) => SendInterestIsAllowed(st, u, v, found, blocked);
    case RespondInterest(u, s, r, accept, blocked) => Plainly(st, SetInterest(s, r, if accept then Accepted else Rejected));
    case CancelInterest(u, s, r) => Plainly(st, SetInterest(s, r, Cancelled));
    case UnlockContact(u, v, found, blocked, hasProfile) => UnlockContactIsAllowed(st, u, v, found, blocked, hasProfile);
    case OpenProfile(u, v, found, blocked, hidden, hasProfile) =>
      OpenProfileIsAllowed(st, u, v, found, blocked, hidden, hasProfile);
    case RecordView(u, v, found, hasProfile) => Plainly(st, Touch(u, v, false));
    case StartChat(u, v, found, blocked) => StartChatIsAllowed(st, u, v, found, blocked);
    case CheckPorutham(u, bride, groom, found, ready) => CheckPoruthamIsAllowed(st, u, bride, groom, found, ready);
    case MyPlan(u) => RepairIsAllowed(st, u);
    case PurchasePlan(u, plan, full, _) =>
      if st.Purchasable(plan) {
        ActivationIsAllowed(st, u, st.catalog[plan], full, "");
      }
    case PayRemaining(u, _) =>
      RepairIsAllowed(st, u);
      if Owing(st, u).Some? && Owing(st, u).value > 0 {
        SettleIsAllowed(st, u, "");
      }
    case Webhook(payment, order) =>
      FulfilmentIsAllowed(st, payment.id, order, if payment.amount != 0 then Some(payment.amount) else None);
    case VerifyPlan(u, plan, full, payment, order, signed, notesMatch) =>
      if st.Purchasable(plan) {
        FulfilmentIsAllowed(st, payment.id, order, Some(PurchaseAmounts(st.catalog[plan], st.Charge(u), full).0));
      }
    case VerifyService(u, payment, order, signed, notesMatch) =>
      VerifyServiceIsAllowed(st, u, payment, order, signed, notesMatch);
  }

  /* ------------------------------ Conservation --------------------------- */

  datatype Column = Granted | Debited | Dropped

  // What one update adds to a column of a member's account on a meter.
  ghost function Amount(op: Op, c: Column, u: nat, m: Meter): nat {
    match op
    case Use(user, meter, _) => if c == Debited && user == u && meter == m then 1 else 0
    case Buy(user, plan, _, _, _, dropped, _) =>
      if user != u then 0
      else if c == Granted then plan.limits.Of(m)
      else if c == Dropped then dropped.Of(m)
      else 0
    case _ => 0
  }

  ghost function Total(log: seq<Op>, c: Column, u: nat, m: Meter): nat {
    if log == [] then 0 else Total(log[..|log| - 1], c, u, m) + Amount(log[|log| - 1], c, u, m)
  }

  ghost predicate Balanced(st: State, log: seq<Op>) {
    (forall u :: u in st.rows ==> st.rows[u].InBalance()) &&
    forall u: nat, m: Meter ::
      Total(log, Granted, u, m) == Total(log, Debited, u, m) + Total(log, Dropped, u, m) + Held(st.Row(u), m)
  }

  lemma OneMoreOp(log: seq<Op>, op: Op, c: Column, u: nat, m: Meter)
    ensures Total(log + [op], c, u, m) == Total(log, c, u, m) + Amount(op, c, u, m)
  {
    assert (log + [op])[..|log|] == log;
  }

  lemma UseTakesOne(row: UserPlan, k: Meter, m: Meter)
    requires row.Metered(k) && row.Left(k) > 0 && row.InBalance()
    ensures row.WithUse(k).InBalance()
    ensures row.Left(m) == row.WithUse(k).Left(m) + if k == m then 1 else 0
  {}

  lemma MoneyKeepsCredits(row: UserPlan, m: Meter)
    requires row.InBalance()
    ensures row.Repaired().InBalance() && row.Repaired().Left(m) == row.Left(m)
    ensures row.Settled().InBalance() && row.Settled().Left(m) == row.Left(m)
  {}

  // One update, seen from one member's account on one meter.
  ghost predicate KeepsAccount(st: State, op: Op, u: nat, m: Meter) {
    var after := Apply(st, op);
    (u in after.rows ==> after.rows[u].InBalance()) &&
    Amount(op, Granted, u, m) + Held(st.Row(u), m) ==
    Amount(op, Debited, u, m) + Amount(op, Dropped, u, m) + Held(after.Row(u), m)
  }

  lemma UseKeepsAccount(st: State, op: Op, u: nat, m: Meter)
    requires op.Use? && Allowed(st, op)
    requires u in st.rows ==> st.rows[u].InBalance()
    ensures KeepsAccount(st, op, u, m)
  {
    if op.user == u {
      UseTakesOne(st.rows[u], op.meter, m);
    }
    hide UserPlan.InBalance, UserPlan.Left, UserPlan.WithUse, UserPlan.Metered;
  }

  lemma BuyKeepsAccount(st: State, op: Op, u: nat, m: Meter)
    requires op.Buy? && Allowed(st, op)
    requires u in st.rows ==> st.rows[u].InBalance()
    ensures KeepsAccount(st, op, u, m)
  {
    if op.user == u {
      PurchaseConserves(st.Row(u), op.plan, op.charge, op.full, op.day, m);
    }
    hide UserPlan.InBalance, UserPlan.Left, Purchased, DroppedBy;
  }

  lemma MoneyKeepsAccount(st: State, op: Op, u: nat, m: Meter)
    requires (op.Settle? || op.Repair?) && Allowed(st, op)
    requires u in st.rows ==> st.rows[u].InBalance()
    ensures KeepsAccount(st, op, u, m)
  {
    if u in st.rows {
      MoneyKeepsCredits(st.rows[u], m);
    }
    hide UserPlan.InBalance, UserPlan.Left, UserPlan.Repaired, UserPlan.Settled;
  }

  lemma OpKeepsAccount(st: State, op: Op, u: nat, m: Meter)
    requires Allowed(st, op)
    requires u in st.rows ==> st.rows[u].InBalance()
    ensures KeepsAccount(st, op, u, m)
  {
    if op.Use? {
      UseKeepsAccount(st, op, u, m);
    } else if op.Buy? {
      BuyKeepsAccount(st, op, u, m);
    } else if op.Settle? || op.Repair? {
      MoneyKeepsAccount(st, op, u, m);
    } else {
      assert Apply(st, op).rows == st.rows;
      hide UserPlan.InBalance, UserPlan.Left;
    }
  }

  lemma OpKeepsBalance(st: State, log: seq<Op>, op: Op)
    requires Balanced(st, log) && Allowed(st, op)
    ensures Balanced(Apply(st, op), log + [op])
  {
    var after := Apply(st, op);
    forall u: nat, m: Meter
      ensures u in after.rows ==> after.rows[u].InBalance()
      ensures Total(log + [op], Granted, u, m) ==
              Total(log + [op], Debited, u, m) + Total(log + [op], Dropped, u, m) + Held(after.Row(u), m)
    {
      OpKeepsAccount(st, op, u, m);
      OneMoreOp(log, op, Granted, u, m);
      OneMoreOp(log, op, Debited, u, m);
      OneMoreOp(log, op, Dropped, u, m);
    }
  }

  lemma {:induction false} OpsKeepBalance(st: State, log: seq<Op>, ops: seq<Op>)
    requires Balanced(st, log) && AllAllowed(st, ops)
    ensures Balanced(ApplyAll(st, ops), log + ops)
    decreases |ops|
  {
    if ops == [] {
      assert log + ops == log;
    } else {
      OpKeepsBalance(st, log, ops[0]);
      OpsKeepBalance(Apply(st, ops[0]), log + [ops[0]], ops[1..]);
      assert log + [ops[0]] + ops[1..] == log + ops;
    }
  }

  // In every run from an empty database the books balance for everyone, on every
  // meter, and nobody has used more than was granted and carried over.
  lemma {:induction false} CreditsAreConserved(
      catalog: map<nat, Plan>, pdfPrices: map<string, nat>, today: int, events: seq<Event>)
    ensures var o := Run(Outcome(EmptyDatabase(catalog, pdfPrices, today), []), events); Balanced(o.st, o.log)
  {
    var start := Outcome(EmptyDatabase(catalog, pdfPrices, today), []);
    if events != [] {
      var before := Run(start, events[..|events| - 1]);
      var e := events[|events| - 1];
      CreditsAreConserved(catalog, pdfPrices, today, events[..|events| - 1]);
      DecisionsAreAllowed(before.st, e);
      OpsKeepBalance(before.st, before.log, Decide(before.st, e).ops);
    }
  }

  // A member with a running plan may act on a limited meter exactly as long as the
  // books show a credit left: granted, and neither debited nor dropped.
  lemma CreditsLeftMayBeUsed(
      catalog: map<nat, Plan>, pdfPrices: map<string, nat>, today: int, events: seq<Event>, u: nat, m: Meter)
    ensures var o := Run(Outcome(EmptyDatabase(catalog, pdfPrices, today), []), events);
            o.st.Can(u, m) <==>
            o.st.Active(u) &&
            (!o.st.rows[u].Metered(m) ||
             Total(o.log, Granted, u, m) > Total(o.log, Debited, u, m) + Total(o.log, Dropped, u, m))
  {
    hide Run, EmptyDatabase, Total, UserPlan.InBalance, UserPlan.Left, UserPlan.Metered;
    CreditsAreConserved(catalog, pdfPrices, today, events);
  }
}
