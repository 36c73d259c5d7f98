/**
  Paid time and the service charge over whole runs.
 */
module Terms {
  import opened Options
  import opened Plans
  import opened Membership
  import opened Ledger
  import opened Charges

  /* -------------------------------- Paid time ---------------------------- */

  datatype Term = Term(day: int, days: nat, plan: Plan)

  // The purchases of a member, in order.
  ghost function Purchases(log: seq<Op>, u: nat): seq<Term> {
    if log == [] then []
    else
      var op := log[|log| - 1];
      Purchases(log[..|log| - 1], u) +
      if op.Buy? && op.user == u then [Term(op.day, op.plan.durationDays, op.plan)] else []
  }

  ghost function SumDays(terms: seq<Term>): nat {
    if terms == [] then 0 else SumDays(terms[..|terms| - 1]) + terms[|terms| - 1].days
  }

  // Each purchase falls within the time the earlier ones of the chain have paid for.
  ghost predicate Unbroken(terms: seq<Term>) {
    forall k :: 0 < k < |terms| ==> terms[k].day <= terms[0].day + SumDays(terms[..k])
  }

  // The day paid for so far: a purchase made in time extends it, a later one starts anew.
  ghost function ChainEnd(terms: seq<Term>): Option<int> {
    if terms == [] then None
    else
      var last, before := terms[|terms| - 1], ChainEnd(terms[..|terms| - 1]);
      Some((if before.Some? && before.value >= last.day then before.value else last.day) + last.days)
  }

  // An unbroken chain runs from its first day, for the sum of its terms.
  lemma {:induction false} ChainEndOfUnbroken(terms: seq<Term>)
    requires terms != [] && Unbroken(terms)
    ensures ChainEnd(terms) == Some(terms[0].day + SumDays(terms))
  {
    var init := terms[..|terms| - 1];
    if init != [] {
      UnbrokenPrefix(terms);
      ChainEndOfUnbroken(init);
    }
  }

  lemma UnbrokenPrefix(chain: seq<Term>)
    requires |chain| > 1 && Unbroken(chain)
    ensures Unbroken(chain[..|chain| - 1])
    ensures chain[|chain| - 1].day <= chain[0].day + SumDays(chain[..|chain| - 1])
  {
    hide SumDays;
    var init := chain[..|chain| - 1];
    assert forall k :: 0 < k < |init| ==> init[..k] == chain[..k];
  }

  lemma OneMoreTerm(terms: seq<Term>, t: Term)
    ensures terms == [] ==> ChainEnd(terms) == None
    ensures SumDays(terms + [t]) == SumDays(terms) + t.days
    ensures ChainEnd(terms + [t]) ==
            Some((if ChainEnd(terms).Some? && ChainEnd(terms).value >= t.day then ChainEnd(terms).value else t.day) + t.days)
  {
    assert (terms + [t])[..|terms|] == terms;
  }

  // In general it is the end of the chain that the last break starts.
  lemma {:induction false} ChainEndAfterBreak(lapsed: seq<Term>, chain: seq<Term>)
    requires chain != [] && Unbroken(chain)
    requires ChainEnd(lapsed).Some? ==> ChainEnd(lapsed).value < chain[0].day
    ensures ChainEnd(lapsed + chain) == Some(chain[0].day + SumDays(chain))
  {
    hide Unbroken, ChainEnd, SumDays;
    var init, last := chain[..|chain| - 1], chain[|chain| - 1];
    assert chain == init + [last] && lapsed + chain == (lapsed + init) + [last];
    OneMoreTerm(lapsed + init, last);
    OneMoreTerm(init, last);
    if init == [] {
      assert lapsed + init == lapsed;
      NoDays();
    } else {
      UnbrokenPrefix(chain);
      ChainEndAfterBreak(lapsed, init);
    }
  }

  lemma NoDays()
    ensures SumDays([]) == 0
  {}

  // What the row of a member remembers of the purchases made.
  ghost predicate RowFollows(st: State, log: seq<Op>, u: nat) {
    var row, terms := st.Row(u), Purchases(log, u);
    (row == None <==> terms == []) &&
    (row.Some? ==>
       row.value.isActive && row.value.validUntil == ChainEnd(terms) &&
       row.value.plan == terms[|terms| - 1].plan && row.value.validFrom == terms[|terms| - 1].day)
  }

  lemma OneMorePurchase(log: seq<Op>, op: Op, u: nat)
    ensures op.Buy? && op.user == u ==> Purchases(log + [op], u) == Purchases(log, u) + [Term(op.day, op.plan.durationDays, op.plan)]
    ensures !(op.Buy? && op.user == u) ==> Purchases(log + [op], u) == Purchases(log, u)
  {
    assert (log + [op])[..|log|] == log;
  }

  lemma OthersKeepValidity(st: State, op: Op, u: nat)
    requires !(op.Buy? && op.user == u)
    ensures var a, b := st.Row(u), Apply(st, op).Row(u);
            (a == None <==> b == None) &&
            (a.Some? ==>
               b.value.isActive == a.value.isActive && b.value.validUntil == a.value.validUntil &&
               b.value.plan == a.value.plan && b.value.validFrom == a.value.validFrom)
  {}

  lemma OpKeepsTerms(st: State, log: seq<Op>, op: Op, u: nat)
    requires RowFollows(st, log, u) && Allowed(st, op)
    ensures RowFollows(Apply(st, op), log + [op], u)
  {
    hide Purchases, ChainEnd;
    OneMorePurchase(log, op, u);
    if op.Buy? && op.user == u {
      OneMoreTerm(Purchases(log, u), Term(op.day, op.plan.durationDays, op.plan));
      var row := Apply(st, op).Row(u);
      assert row == Some(Purchased(st.Row(u), op.plan, op.charge, op.full, op.day));
      hide Apply;
    } else {
      OthersKeepValidity(st, op, u);
      hide Apply;
    }
  }

  lemma {:induction false} OpsKeepTerms(st: State, log: seq<Op>, ops: seq<Op>, u: nat)
    requires RowFollows(st, log, u) && AllAllowed(st, ops)
    ensures RowFollows(ApplyAll(st, ops), log + ops, u)
    decreases |ops|
  {
    hide Apply, Allowed, RowFollows;
    if ops == [] {
      assert log + ops == log;
    } else {
      OpKeepsTerms(st, log, ops[0], u);
      OpsKeepTerms(Apply(st, ops[0]), log + [ops[0]], ops[1..], u);
      assert log + [ops[0]] + ops[1..] == log + ops;
    }
  }

  // In every run, a subscription is valid until the end of the chain of its purchases.
  lemma {:induction false} ValidityIsPaidTime(
      catalog: map<nat, Plan>, pdfPrices: map<string, nat>, today: int, events: seq<Event>, u: nat)
    ensures var o := Run(Outcome(EmptyDatabase(catalog, pdfPrices, today), []), events); RowFollows(o.st, o.log, u)
  {
    var start := Outcome(EmptyDatabase(catalog, pdfPrices, today), []);
    if events != [] {
      var before, e := Run(start, events[..|events| - 1]), events[|events| - 1];
      ValidityIsPaidTime(catalog, pdfPrices, today, events[..|events| - 1], u);
      DecisionsAreAllowed(before.st, e);
      OpsKeepTerms(before.st, before.log, Decide(before.st, e).ops, u);
    }
  }

  // A member who never let the subscription lapse has it from the first purchase
  // for the sum of all terms bought.
  lemma UnbrokenTimeAddsUp(
      catalog: map<nat, Plan>, pdfPrices: map<string, nat>, today: int, events: seq<Event>, u: nat)
    ensures var o := Run(Outcome(EmptyDatabase(catalog, pdfPrices, today), []), events);
            var terms := Purchases(o.log, u);
            terms != [] && Unbroken(terms) ==>
              u in o.st.rows && o.st.rows[u].validUntil == Some(terms[0].day + SumDays(terms))
  {
    hide Run, EmptyDatabase;
    ValidityIsPaidTime(catalog, pdfPrices, today, events, u);
    UnbrokenRow(Run(Outcome(EmptyDatabase(catalog, pdfPrices, today), []), events), u);
  }

  lemma UnbrokenRow(o: Outcome, u: nat)
    requires RowFollows(o.st, o.log, u)
    ensures var terms := Purchases(o.log, u);
            terms != [] && Unbroken(terms) ==>
              u in o.st.rows && o.st.rows[u].validUntil == Some(terms[0].day + SumDays(terms))
  {
    hide Purchases, Unbroken, ChainEnd, SumDays;
    var terms := Purchases(o.log, u);
    if terms != [] && Unbroken(terms) {
      ChainEndOfUnbroken(terms);
    }
  }

  // In every run, the members who may use the service are those whose paid time
  // includes today, as long as the plan they bought last has not been withdrawn.
  lemma ActiveIffPaid(
      catalog: map<nat, Plan>, pdfPrices: map<string, nat>, today: int, events: seq<Event>, u: nat)
    ensures var o := Run(Outcome(EmptyDatabase(catalog, pdfPrices, today), []), events);
            var terms := Purchases(o.log, u);
            o.st.Active(u) <==>
            terms != [] && o.st.today <= ChainEnd(terms).value && terms[|terms| - 1].plan.isActive
  {
    hide Run, EmptyDatabase, Purchases;
    ValidityIsPaidTime(catalog, pdfPrices, today, events, u);
  }

  lemma UseNeedsPlan(st: State, e: Event, op: Op)
    requires op in Decide(st, e).ops && op.Use?
    ensures st.Active(op.user)
  {
    if IsPayment(e) {
      PaymentUpdates(st, e);
      hide Decide;
    }
  }

  // So no request uses a credit of someone whose paid time is over.
  lemma NoCreditAfterPaidTime(
      catalog: map<nat, Plan>, pdfPrices: map<string, nat>, today: int, events: seq<Event>, e: Event, op: Op)
    requires op in Decide(Run(Outcome(EmptyDatabase(catalog, pdfPrices, today), []), events).st, e).ops && op.Use?
    ensures var o := Run(Outcome(EmptyDatabase(catalog, pdfPrices, today), []), events);
            var terms := Purchases(o.log, op.user);
            terms != [] && o.st.today <= ChainEnd(terms).value
  {
    hide Run, EmptyDatabase, Purchases, Decide;
    UseNeedsPlan(Run(Outcome(EmptyDatabase(catalog, pdfPrices, today), []), events).st, e, op);
    ActiveIffPaid(catalog, pdfPrices, today, events, op.user);
  }

  /* ----------------------------- Service charge -------------------------- */

  // The registration fee on record is the price of the plan, and plans come from the catalog.
  ghost predicate FromCatalog(st: State) {
    (forall id :: id in st.catalog ==> st.catalog[id].id == id) &&
    forall u :: u in st.rows ==>
      st.rows[u].pricePaid == st.rows[u].plan.price && st.rows[u].plan in st.catalog.Values && st.rows[u].isActive
  }

  // A purchase by u that only renews the plan already running, with a service charge
  // on record or none that applies.
  ghost predicate OnlyRenews(st: State, op: Op, u: nat) {
    op.Buy? && op.user == u ==>
      u in st.rows && st.rows[u].Current(op.day) && st.rows[u].plan.id == op.plan.id &&
      (st.rows[u].serviceCharge > 0 || op.charge == 0)
  }

  ghost predicate FromPlans(st: State, op: Op) {
    op.Buy? ==> op.plan in st.catalog.Values
  }

  ghost function Settlements(u: nat): Op -> bool {
    (o: Op) => o.Settle? && o.user == u
  }

  // Nothing but a settlement or a purchase other than a renewal changes what a member owes.
  lemma OpKeepsOwing(st: State, op: Op, u: nat)
    requires FromCatalog(st) && Allowed(st, op) && FromPlans(st, op) && OnlyRenews(st, op, u)
    ensures FromCatalog(Apply(st, op))
    ensures !(op.Settle? && op.user == u) ==> Owing(Apply(st, op), u) == Owing(st, u)
    ensures op.Settle? && op.user == u ==> Owing(st, u).Some? && Owing(st, u).value > 0 && Owing(Apply(st, op), u) == Some(0)
  {
    if op.Buy? && op.user == u {
      RenewalKeepsOutstanding(st.rows[u], op.plan, op.charge, op.full, op.day);
    }
  }

  ghost predicate AllRenew(st: State, ops: seq<Op>, u: nat)
    decreases |ops|
  {
    ops == [] || (OnlyRenews(st, ops[0], u) && AllRenew(Apply(st, ops[0]), ops[1..], u))
  }

  lemma SameCatalog(st: State, op: Op)
    ensures Apply(st, op).catalog == st.catalog
  {}

  lemma {:induction false} OpsKeepOwing(st: State, ops: seq<Op>, u: nat)
    requires FromCatalog(st) && AllAllowed(st, ops) && AllRenew(st, ops, u)
    requires forall op :: op in ops ==> FromPlans(st, op)
    requires Owing(st, u).Some? && Owing(st, u).value <= 0
    ensures FromCatalog(ApplyAll(st, ops)) && Owing(ApplyAll(st, ops), u) == Owing(st, u)
    ensures forall op :: op in ops ==> !Settlements(u)(op)
    decreases |ops|
  {
    if ops != [] {
      var after := Apply(st, ops[0]);
      OpKeepsOwing(st, ops[0], u);
      SameCatalog(st, ops[0]);
      assert ops == [ops[0]] + ops[1..];
      hide Apply, Allowed, OnlyRenews, FromCatalog, Owing;
      forall op | op in ops[1..] ensures FromPlans(after, op) {
        assert op in ops;
      }
      OpsKeepOwing(after, ops[1..], u);
    }
  }

  lemma DecisionsFromPlans(st: State, e: Event)
    ensures forall op :: op in Decide(st, e).ops ==> FromPlans(st, op)
  {
    if IsPayment(e) {
      PaymentUpdates(st, e);
      hide Decide;
    }
  }

  // In every run, rows agree with the catalog.
  lemma {:induction false} OpsKeepCatalog(st: State, ops: seq<Op>)
    requires FromCatalog(st) && forall op :: op in ops ==> FromPlans(st, op)
    ensures FromCatalog(ApplyAll(st, ops)) && ApplyAll(st, ops).catalog == st.catalog
    decreases |ops|
  {
    if ops != [] {
      var after := Apply(st, ops[0]);
      OpKeepsCatalog(st, ops[0]);
      forall op | op in ops[1..] ensures FromPlans(after, op) {
        assert op in ops;
      }
      OpsKeepCatalog(after, ops[1..]);
      hide Apply, FromCatalog;
    }
  }

  lemma OpKeepsCatalog(st: State, op: Op)
    requires FromCatalog(st) && FromPlans(st, op)
    ensures FromCatalog(Apply(st, op)) && Apply(st, op).catalog == st.catalog
  {}

  lemma {:induction false} RowsAgreeWithCatalog(start: Outcome, events: seq<Event>)
    requires FromCatalog(start.st)
    ensures FromCatalog(Run(start, events).st)
  {
    if events != [] {
      var before, e := Run(start, events[..|events| - 1]), events[|events| - 1];
      RowsAgreeWithCatalog(start, events[..|events| - 1]);
      DecisionsFromPlans(before.st, e);
      OpsKeepCatalog(before.st, Decide(before.st, e).ops);
    }
  }

  // Apart from renewals of the running plan, u buys nothing during these requests.
  ghost predicate RenewsAtMost(start: Outcome, events: seq<Event>, u: nat) {
    events == [] ||
    (RenewsAtMost(start, events[..|events| - 1], u) &&
     var before := Run(start, events[..|events| - 1]);
     AllRenew(before.st, Decide(before.st, events[|events| - 1]).ops, u))
  }

  // Once nothing is owed, nothing is owed and nothing is charged until the member
  // buys a different plan or buys after a lapse, whoever asks for payment and how often.
  lemma {:induction false} SettledStaysSettled(start: Outcome, events: seq<Event>, u: nat)
    requires FromCatalog(start.st) && RenewsAtMost(start, events, u)
    requires Owing(start.st, u).Some? && Owing(start.st, u).value <= 0
    ensures Owing(Run(start, events).st, u) == Owing(start.st, u)
    ensures Count(Run(start, events).log, Settlements(u)) == Count(start.log, Settlements(u))
  {
    if events != [] {
      var before, e := Run(start, events[..|events| - 1]), events[|events| - 1];
      var ops := Decide(before.st, e).ops;
      SettledStaysSettled(start, events[..|events| - 1], u);
      RowsAgreeWithCatalog(start, events[..|events| - 1]);
      DecisionsAreAllowed(before.st, e);
      DecisionsFromPlans(before.st, e);
      OpsKeepOwing(before.st, ops, u);
      NotCounted(ops, Settlements(u));
      CountAppend(before.log, ops, Settlements(u));
      hide Decide, ApplyAll, Count;
    }
  }

  // A renewal can raise what is owed: bought while no charge applied, renewed when one did.
  lemma RenewalCanRaiseWhatIsOwed()
    ensures var plan, buys := Plan(1, 49900, 30, NOTHING, true, true), PurchasePlan(7, 1, false, false);
            var start := Outcome(EmptyDatabase(map[1 := plan], map[], 0), []);
            Owing(Run(start, [buys, ChargeEdited(7, 1500000)]).st, 7) == Some(-49900) &&
            Owing(Run(start, [buys, ChargeEdited(7, 1500000), buys]).st, 7) == Some(1450100)
  {
    var plan, buys := Plan(1, 49900, 30, NOTHING, true, true), PurchasePlan(7, 1, false, false);
    var edit := ChargeEdited(7, 1500000);
    var start := Outcome(EmptyDatabase(map[1 := plan], map[], 0), []);
    RunOne(start, buys);
    RunStep(start, [buys], edit);
    RunStep(start, [buys, edit], buys);
    assert [buys] + [edit] == [buys, edit] && [buys, edit] + [buys] == [buys, edit, buys];
    hide Run, Step;
    PurchaseStep(start, 7, plan, false);
    ChargeStep(Step(start, buys), 7, 1500000);
    PurchaseStep(Step(Step(start, buys), edit), 7, plan, false);
    BoughtThenRenewed(plan);
  }

  lemma BoughtThenRenewed(plan: Plan)
    requires plan.price == 49900
    ensures var row := Purchased(None, plan, 0, false, 0);
            row.isActive && row.Outstanding() == -49900 &&
            Purchased(Some(row), plan, 1500000, false, 0).isActive &&
            Purchased(Some(row), plan, 1500000, false, 0).Outstanding() == 1450100
  {}

  /* ------------------------- Settling the service charge ----------------- */

  // When a request settles what u owes: by hand, by webhook or by verification.
  ghost predicate Settles(st: State, e: Event, u: nat) {
    Owing(st, u).Some? && Owing(st, u).value > 0 &&
    match e
    case PayRemaining(v, online) => v == u && !online
    case Webhook(payment, order) =>
      payment.id != "" && payment.ofThisOrder && payment.captured && !st.HasTxn(payment.id) &&
      order.purpose == ForServiceCharge && order.user == Some(u) &&
      (payment.amount in {0, Owing(st, u).value} || order.amount == Some(payment.amount))
    case VerifyService(v, payment, order, signed, notesMatch) =>
      payment.id != "" && signed && payment.ofThisOrder && payment.captured && !st.HasTxn(payment.id) &&
      order.purpose == ForServiceCharge && notesMatch && order.user == Some(u) &&
      Owing(st, v) == Some(payment.amount) && payment.amount > 0 &&
      (payment.amount == Owing(st, u).value || order.amount == Some(payment.amount))
    case _ => false
  }

  // Repairs alone change neither what is owed nor the transactions.
  lemma {:induction false} RepairsKeepOwing(st: State, repairs: seq<Op>, u: nat)
    requires forall op :: op in repairs ==> op.Repair?
    ensures var after := ApplyAll(st, repairs);
            Owing(after, u) == Owing(st, u) && after.txns == st.txns && after.rows.Keys == st.rows.Keys &&
            (u in st.rows ==> after.rows[u].plan == st.rows[u].plan)
    decreases |repairs|
  {
    if repairs != [] {
      var v := repairs[0].user;
      if v in st.rows {
        RepairIsInvisible(st.rows[v], st.today);
      }
      assert repairs == [repairs[0]] + repairs[1..];
      RepairsKeepOwing(Apply(st, repairs[0]), repairs[1..], u);
      hide UserPlan.Repaired, UserPlan.Outstanding;
    }
  }

  lemma WebhookSettlements(st: State, payment: Payment, order: GatewayOrder, u: nat)
    ensures var e := Webhook(payment, order);
            if Settles(st, e, u) then Decide(st, e).ops == RepairOnRead(st, u) + [Settle(u, Owing(st, u).value, payment.id)]
            else forall op :: op in Decide(st, e).ops ==> !Settlements(u)(op)
  {
    if order.user.Some? {
      NoSettlement(st, order.user.value);
    }
    hide Owing, RepairOnRead, PurchaseAmounts;
  }

  lemma NoSettlement(st: State, u: nat)
    ensures forall op :: op in RepairOnRead(st, u) ==> op.Repair?
  {}

  lemma VerificationSettlements(
      st: State, v: nat, payment: Payment, order: GatewayOrder, signed: bool, notesMatch: bool, u: nat)
    ensures var e, after := VerifyService(v, payment, order, signed, notesMatch), ApplyAll(st, RepairOnRead(st, v));
            if Settles(st, e, u) then
              Decide(st, e).ops ==
              RepairOnRead(st, v) + RepairOnRead(after, u) + [Settle(u, Owing(st, u).value, payment.id)]
            else forall op :: op in Decide(st, e).ops ==> !Settlements(u)(op)
  {
    var after := ApplyAll(st, RepairOnRead(st, v));
    NoSettlement(st, v);
    NoSettlement(after, u);
    if order.user.Some? {
      NoSettlement(after, order.user.value);
    }
    RepairsKeepOwing(st, RepairOnRead(st, v), u);
    hide Owing, RepairOnRead, ApplyAll;
    if Settles(st, VerifyService(v, payment, order, signed, notesMatch), u) {
      var settle := [Settle(u, Owing(st, u).value, payment.id)];
      assert RepairOnRead(st, v) + (RepairOnRead(after, u) + settle) == RepairOnRead(st, v) + RepairOnRead(after, u) + settle;
    }
  }

  // The updates of a settling request: repairs, and then the settlement.
  lemma SettlementShape(st: State, e: Event, u: nat) returns (repairs: seq<Op>, paymentId: string)
    requires Settles(st, e, u)
    ensures forall op :: op in repairs ==> op.Repair?
    ensures Decide(st, e).ops == repairs + [Settle(u, Owing(st, u).value, paymentId)]
    ensures paymentId == "" || (!e.PayRemaining? && paymentId == e.payment.id)
  {
    hide ApplyAll, Owing;
    match e
    case PayRemaining(_, _) =>
      repairs, paymentId := RepairOnRead(st, u), "";
    case Webhook(payment, order) =>
      WebhookSettlements(st, payment, order, u);
      repairs, paymentId := RepairOnRead(st, u), payment.id;
    case VerifyService(v, payment, order, signed, notesMatch) =>
      VerificationSettlements(st, v, payment, order, signed, notesMatch, u);
      repairs, paymentId := RepairOnRead(st, v) + RepairOnRead(ApplyAll(st, RepairOnRead(st, v)), u), payment.id;
  }

  lemma OtherwiseNoSettlement(st: State, e: Event, u: nat)
    requires !Settles(st, e, u)
    ensures forall op :: op in Decide(st, e).ops ==> !Settlements(u)(op)
  {
    if e.Webhook? {
      WebhookSettlements(st, e.payment, e.order, u);
      hide Decide;
    } else if e.VerifyService? {
      VerificationSettlements(st, e.user, e.payment, e.order, e.signed, e.notesMatch, u);
      hide Decide;
    } else if IsPayment(e) {
      PaymentUpdates(st, e);
      hide DecidePurchasePlan, DecideVerifyPlan, ToPayNow;
    } else {
      OthersSellNothing(st, e);
      hide Decide;
    }
  }

  lemma SettleAfterRepairs(st: State, repairs: seq<Op>, u: nat, id: string)
    requires forall op :: op in repairs ==> op.Repair?
    requires Owing(st, u).Some? && Owing(st, u).value > 0
    ensures var owed := Owing(st, u).value;
            var ops := repairs + [Settle(u, owed, id)];
            Count(ops, Settlements(u)) == 1 && Owing(ApplyAll(st, ops), u) == Some(0) &&
            ApplyAll(st, ops).txns == st.txns + [Txn(u, Some(st.rows[u].plan.id), owed, owed, None, id)]
  {
    hide Count, ApplyAll;
    var settle := Settle(u, Owing(st, u).value, id);
    NotCounted(repairs, Settlements(u));
    CountAppend(repairs, [settle], Settlements(u));
    CountOne(settle, Settlements(u));
    RepairsKeepOwing(st, repairs, u);
    ApplyAppend(st, repairs, [settle]);
    ApplyOne(ApplyAll(st, repairs), settle);
  }

  // By whichever route: a settlement is made exactly under these circumstances, once,
  // for exactly what was owed, and leaves nothing owed.
  lemma PayingSettles(o: Outcome, e: Event, u: nat)
    ensures var after, owed := Step(o, e), Owing(o.st, u);
            if Settles(o.st, e, u) then
              Count(after.log, Settlements(u)) == Count(o.log, Settlements(u)) + 1 && Owing(after.st, u) == Some(0) &&
              exists id :: after.st.txns == o.st.txns + [Txn(u, Some(o.st.rows[u].plan.id), owed.value, owed.value, None, id)]
            else
              Count(after.log, Settlements(u)) == Count(o.log, Settlements(u)) &&
              (e == PayRemaining(u, false) ==> Owing(after.st, u) == owed)
  {
    var ops := Decide(o.st, e).ops;
    CountAppend(o.log, ops, Settlements(u));
    if Settles(o.st, e, u) {
      var repairs, id := SettlementShape(o.st, e, u);
      SettleAfterRepairs(o.st, repairs, u, id);
      hide Decide, Count, ApplyAll, Settles, Owing;
    } else {
      OtherwiseNoSettlement(o.st, e, u);
      NotCounted(ops, Settlements(u));
      if e == PayRemaining(u, false) {
        RepairsKeepOwing(o.st, ops, u);
      }
      hide Decide, Count, ApplyAll;
    }
  }
}
