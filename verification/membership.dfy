/**
  The member-facing service as one state machine.

  A request is handled in one atomic step. `Decide` says, from the tables as they
  are, which table updates a request makes and how it is answered: the HTTP
  status, and the service charge shown as still to pay; `Apply` carries out one update. A run is a sequence of requests from
  an empty database; its log is the sequence of all updates made.

  Users, profiles and plans are numbers. What lies outside the tables (whether
  the other member exists, blocks, gateway answers) arrives with the request.
 */
module Membership {
  import opened Options
  import opened Plans

  datatype InterestStatus = Pending | Accepted | Rejected | Cancelled

  // `serviceCharge` is the total on record at a purchase, or the charge settled.
  datatype Txn = Txn(
    user: nat, plan: Option<nat>, amount: nat, serviceCharge: nat, product: Option<string>, paymentId: string)

  // `views` has a row for every profile someone has looked at; true means unlocked.
  datatype State = State(
    catalog: map<nat, Plan>,
    pdfPrices: map<string, nat>,
    today: int,
    charges: map<nat, nat>,
    rows: map<nat, UserPlan>,
    txns: seq<Txn>,
    interests: map<(nat, nat), InterestStatus>,
    views: map<(nat, nat), bool>,
    chats: set<(nat, nat)>,
    matches: set<(nat, nat)>)
  {
    function Row(u: nat): Option<UserPlan> {
      if u in rows then Some(rows[u]) else None
    }

    predicate Active(u: nat) {
      Usable(Row(u), today)
    }

    predicate Can(u: nat, m: Meter) {
      CanUse(Row(u), m, today)
    }

    function Charge(u: nat): nat {
      if u in charges then charges[u] else 0
    }

    predicate Unlocked(viewer: nat, profile: nat) {
      (viewer, profile) in views && views[(viewer, profile)]
    }

    predicate HasInterest(sender: nat, receiver: nat, status: InterestStatus) {
      (sender, receiver) in interests && interests[(sender, receiver)] == status
    }

    predicate Connected(a: nat, b: nat) {
      HasInterest(a, b, Accepted) || HasInterest(b, a, Accepted)
    }

    predicate HasTxn(paymentId: string) {
      exists i :: 0 <= i < |txns| && txns[i].paymentId == paymentId
    }

    predicate Purchasable(plan: nat) {
      plan in catalog && catalog[plan].isActive && catalog[plan].isPublished
    }
  }

  function EmptyDatabase(catalog: map<nat, Plan>, pdfPrices: map<string, nat>, today: int): State {
    State(catalog, pdfPrices, today, map[], map[], [], map[], map[], {}, {})
  }

  /* --------------------------------- Updates ----------------------------- */

  // What a credit was spent on.
  datatype Target = Person(id: nat) | Couple(bride: nat, groom: nat)

  datatype Op =
    | Use(user: nat, meter: Meter, about: Target)
    | Buy(user: nat, plan: Plan, charge: nat, full: bool, day: int, dropped: Quota, paymentId: string)
    | Settle(user: nat, amount: nat, paymentId: string)
    | Repair(user: nat)
    | SellPdf(user: nat, product: string, price: nat, paymentId: string)
    | SetInterest(sender: nat, receiver: nat, status: InterestStatus)
    | Touch(viewer: nat, profile: nat, unlock: bool)
    | OpenChat(low: nat, high: nat)
    | AddMatch(bride: nat, groom: nat)
    | Pass(days: nat)
    | SetCharge(user: nat, amount: nat)

  function Apply(st: State, op: Op): State {
    match op
    case Use(u, m, _) => if u in st.rows then st.(rows := st.rows[u := st.rows[u].WithUse(m)]) else st
    case Buy(u, plan, charge, full, day, _, paymentId) =>
      var row := Purchased(st.Row(u), plan, charge, full, day);
      st.(rows := st.rows[u := row],
          txns := st.txns + [Txn(u, Some(plan.id), PurchaseAmounts(plan, charge, full).0, row.serviceCharge, None, paymentId)])
    case Settle(u, amount, paymentId) =>
      if u in st.rows then
        st.(rows := st.rows[u := st.rows[u].Settled()],
            txns := st.txns + [Txn(u, Some(st.rows[u].plan.id), amount, amount, None, paymentId)])
      else st
    case Repair(u) => if u in st.rows then st.(rows := st.rows[u := st.rows[u].Repaired()]) else st
    case SellPdf(u, product, price, paymentId) =>
      st.(txns := st.txns + [Txn(u, None, price, 0, Some(product), paymentId)])
    case SetInterest(s, r, status) => st.(interests := st.interests[(s, r) := status])
    case Touch(v, p, unlock) => st.(views := st.views[(v, p) := unlock || st.Unlocked(v, p)])
    case OpenChat(a, b) => st.(chats := st.chats + {(a, b)})
    case AddMatch(b, g) => st.(matches := st.matches + {(b, g)})
    case Pass(days) => st.(today := st.today + days)
    case SetCharge(u, amount) => st.(charges := st.charges[u := amount])
  }

  function ApplyAll(st: State, ops: seq<Op>): State
    decreases |ops|
  {
    if ops == [] then st else ApplyAll(Apply(st, ops[0]), ops[1..])
  }

  lemma NoUpdates(st: State)
    ensures ApplyAll(st, []) == st
  {}

  /* --------------------------------- Requests ---------------------------- */

  datatype Purpose = ForPlan | ForServiceCharge | ForPdf(product: string) | ForSomethingElse

  // A gateway order as fetched: its notes with the user they resolve to, and its amount.
  datatype GatewayOrder = GatewayOrder(
    purpose: Purpose, user: Option<nat>, plan: Option<nat>, full: Option<bool>, amount: Option<nat>)
  {
    // Without a payment option the order is for the registration fee only.
    predicate PaysInFull() {
      full == Some(true)
    }
  }

  datatype Payment = Payment(id: string, amount: nat, captured: bool, ofThisOrder: bool)

  datatype Event =
    | DaysPass(days: nat)
    | ChargeEdited(user: nat, amount: nat)
    | SendInterest(user: nat, receiver: nat, found: bool, blocked: bool)
    | RespondInterest(user: nat, sender: nat, receiver: nat, accept: bool, blocked: bool)
    | CancelInterest(user: nat, sender: nat, receiver: nat)
    | UnlockContact(user: nat, target: nat, found: bool, blocked: bool, hasProfile: bool)
    | OpenProfile(user: nat, target: nat, found: bool, blocked: bool, hidden: bool, hasProfile: bool)
    | RecordView(user: nat, target: nat, found: bool, hasProfile: bool)
    | StartChat(user: nat, other: nat, found: bool, blocked: bool)
    | CheckPorutham(user: nat, bride: nat, groom: nat, found: bool, ready: bool)
    | MyPlan(user: nat)
    | PurchasePlan(user: nat, plan: nat, full: bool, online: bool)
    | PayRemaining(user: nat, online: bool)
    | Webhook(payment: Payment, order: GatewayOrder)
    | VerifyPlan(user: nat, plan: nat, full: bool, payment: Payment, order: GatewayOrder, signed: bool, notesMatch: bool)
    | VerifyService(user: nat, payment: Payment, order: GatewayOrder, signed: bool, notesMatch: bool)

  // The HTTP status of an answer and the service charge it shows as still to pay, if any.
  datatype Answer = Answer(status: nat, toPay: Option<int>)

  function Plain(status: nat): Answer {
    Answer(status, None)
  }

  // The updates a request makes and its answer.
  datatype Decision = Decision(ops: seq<Op>, answer: Answer)

  function Refuse(status: nat): Decision {
    Decision([], Plain(status))
  }

  // One credit, unless the meter is unlimited.
  function Consume(st: State, u: nat, m: Meter, about: Target): seq<Op> {
    if st.Active(u) && st.rows[u].Metered(m) then [Use(u, m, about)] else []
  }

  /* -------------------------------- Connections -------------------------- */

  function DecideSendInterest(st: State, u: nat, v: nat, found: bool, blocked: bool): Decision {
    if !st.Active(u) || !st.Can(u, Interests) then Refuse(403)
    else if !found then Refuse(404)
    else if v == u then Refuse(400)
    else if blocked then Refuse(403)
    else if st.Connected(u, v) then Refuse(200)
    else if st.HasInterest(v, u, Pending) then
      Decision([SetInterest(v, u, Accepted)] + Consume(st, u, Interests, Person(v)), Plain(200))
    else if (u, v) !in st.interests || st.interests[(u, v)] in {Cancelled, Rejected} then
      Decision([SetInterest(u, v, Pending)] + Consume(st, u, Interests, Person(v)), Plain(200))
    else Refuse(200)
  }

  function DecideRespondInterest(st: State, u: nat, s: nat, r: nat, accept: bool, blocked: bool): Decision {
    if (s, r) !in st.interests then Refuse(404)
    else if r != u || blocked || (accept && !st.Active(u)) then Refuse(403)
    else Decision([SetInterest(s, r, if accept then Accepted else Rejected)], Plain(200))
  }

  function DecideCancelInterest(st: State, u: nat, s: nat, r: nat): Decision {
    if (s, r) !in st.interests then Refuse(404)
    else if s != u then Refuse(403)
    else if st.interests[(s, r)] != Pending then Refuse(400)
    else Decision([SetInterest(s, r, Cancelled)], Plain(200))
  }

  function DecideUnlockContact(st: State, u: nat, v: nat, found: bool, blocked: bool, hasProfile: bool): Decision {
    if u in st.rows && !st.Active(u) then Refuse(403)
    else if !found then Refuse(404)
    else if v == u then Refuse(400)
    else if blocked || !st.Can(u, Contacts) then Refuse(403)
    else if !hasProfile then Refuse(404)
    else if !st.Unlocked(u, v) && !st.Can(u, ProfileViews) then Refuse(403)
    else
      Decision(Consume(st, u, Contacts, Person(v)) + [Touch(u, v, true)] +
               (if st.Unlocked(u, v) then [] else Consume(st, u, ProfileViews, Person(v))), Plain(200))
  }

  // Reading one's plan writes the registration fee into the service charge paid, if
  // nothing is there yet; otherwise the update leaves the row as it is.
  function RepairOnRead(st: State, u: nat): seq<Op> {
    if u in st.rows then [Repair(u)] else []
  }

  function RepairIfActive(st: State, u: nat): seq<Op> {
    if st.Active(u) then RepairOnRead(st, u) else []
  }

  function DecideOpenProfile(
      st: State, u: nat, v: nat, found: bool, blocked: bool, hidden: bool, hasProfile: bool): Decision
  {
    if !found then Refuse(404)
    else if v == u then Refuse(400)
    else if blocked then Refuse(403)
    else if hidden then Refuse(404)
    else if hasProfile && st.Active(u) && st.Unlocked(u, v) then
      Decision(RepairIfActive(st, u) + [Touch(u, v, false)], Plain(200))
    else if hasProfile && st.Can(u, ProfileViews) then
      Decision(RepairIfActive(st, u) + [Touch(u, v, true)] + Consume(st, u, ProfileViews, Person(v)), Plain(200))
    else Decision(RepairIfActive(st, u), Plain(200))
  }

  function DecideRecordView(st: State, u: nat, v: nat, found: bool, hasProfile: bool): Decision {
    if !found then Refuse(404)
    else if v == u then Refuse(400)
    else if !hasProfile then Refuse(404)
    else Decision([Touch(u, v, false)], Plain(200))
  }

  function Ordered(a: nat, b: nat): (nat, nat) {
    if a < b then (a, b) else (b, a)
  }

  function DecideStartChat(st: State, u: nat, v: nat, found: bool, blocked: bool): Decision {
    if !st.Active(u) then Refuse(403)
    else if !found then Refuse(404)
    else if v == u then Refuse(400)
    else if blocked || !st.Connected(u, v) || !st.Can(u, Chats) then Refuse(403)
    else if Ordered(u, v) in st.chats then Refuse(200)
    else Decision([OpenChat(Ordered(u, v).0, Ordered(u, v).1)] + Consume(st, u, Chats, Person(v)), Plain(200))
  }

  function DecideCheckPorutham(st: State, u: nat, bride: nat, groom: nat, found: bool, ready: bool): Decision {
    if !st.Active(u) then Refuse(403)
    else if !found then Refuse(404)
    else if !ready then Refuse(400)
    else if (bride, groom) in st.matches then Refuse(200)
    else if !st.Can(u, Horoscopes) then Refuse(403)
    else Decision([AddMatch(bride, groom)] + Consume(st, u, Horoscopes, Couple(bride, groom)), Plain(200))
  }

  /* --------------------------------- Payments ---------------------------- */

  function Activate(st: State, u: nat, plan: Plan, full: bool, paymentId: string): Op {
    Buy(u, plan, st.Charge(u), full, st.today, DroppedBy(st.Row(u), st.today), paymentId)
  }

  // The charge that the answer to a purchase shows as still to pay.
  function ToPayAfter(st: State, u: nat, plan: Plan, full: bool): int {
    Purchased(st.Row(u), plan, st.Charge(u), full, st.today).ShownAfterPurchase()
  }

  // Online payments have to go through the gateway.
  function DecidePurchasePlan(st: State, u: nat, plan: nat, full: bool, online: bool): Decision {
    if !st.Purchasable(plan) || online then Refuse(400)
    else
      Decision([Activate(st, u, st.catalog[plan], full, "")], Answer(201, Some(ToPayAfter(st, u, st.catalog[plan], full))))
  }

  // Remaining service charge, for a subscription that is switched on, even an expired one.
  function Owing(st: State, u: nat): Option<int> {
    if u in st.rows && st.rows[u].isActive then Some(st.rows[u].Outstanding()) else None
  }

  function DecidePayRemaining(st: State, u: nat, online: bool): Decision {
    if online then Refuse(400)
    else
      match Owing(st, u)
      case None => Refuse(404)
      case Some(owed) =>
        if owed <= 0 then Decision(RepairOnRead(st, u), Answer(200, Some(0)))
        else Decision(RepairOnRead(st, u) + [Settle(u, owed, "")], Answer(201, Some(0)))
  }

  // What a member reading the plan is shown as still to pay, measured against the
  // charge that applies today.
  function ToPayNow(st: State, u: nat): nat {
    if st.Active(u) && st.Charge(u) > st.rows[u].EffectivePaid() then st.Charge(u) - st.rows[u].EffectivePaid() else 0
  }

  // How an attempt to fulfil a payment ends.
  datatype Ending = NewTransaction | ExistingTransaction | NoTransaction | Failed(code: string)

  datatype Fulfilment = Fulfilment(ops: seq<Op>, ending: Ending)

  function FulfilPlanPurchase(st: State, paymentId: string, order: GatewayOrder, expected: Option<nat>): Fulfilment {
    if order.purpose != ForPlan then Fulfilment([], Failed("WRONG_PURPOSE"))
    else if st.HasTxn(paymentId) then Fulfilment([], ExistingTransaction)
    else if order.user == None then Fulfilment([], Failed("USER_NOT_FOUND"))
    else if order.plan == None then Fulfilment([], Failed("MISSING_PLAN"))
    else if order.plan.value !in st.catalog then Fulfilment([], Failed("PLAN_NOT_FOUND"))
    else
      var u, plan := order.user.value, st.catalog[order.plan.value];
      var paise := PurchaseAmounts(plan, st.Charge(u), order.PaysInFull()).0;
      if (expected.Some? && expected.value != paise) || (order.amount.Some? && order.amount.value != paise)
      then Fulfilment([], Failed("AMOUNT_MISMATCH"))
      else Fulfilment([Activate(st, u, plan, order.PaysInFull(), paymentId)], NewTransaction)
  }

  function FulfilServiceCharge(st: State, paymentId: string, order: GatewayOrder, expected: Option<nat>): Fulfilment {
    if order.purpose != ForServiceCharge then Fulfilment([], Failed("WRONG_PURPOSE"))
    else if st.HasTxn(paymentId) then Fulfilment([], ExistingTransaction)
    else if order.user == None then Fulfilment([], Failed("USER_NOT_FOUND"))
    else
      var u := order.user.value;
      match Owing(st, u)
      case None => Fulfilment([], Failed("NO_PLAN"))
      case Some(owed) =>
        if owed <= 0 then Fulfilment(RepairOnRead(st, u), NoTransaction)
        else if expected.Some? && expected.value != owed && order.amount != expected
        then Fulfilment(RepairOnRead(st, u), Failed("AMOUNT_MISMATCH"))
        else Fulfilment(RepairOnRead(st, u) + [Settle(u, owed, paymentId)], NewTransaction)
  }

  function FulfilPdf(st: State, paymentId: string, order: GatewayOrder, expected: Option<nat>): Fulfilment {
    if !order.purpose.ForPdf? then Fulfilment([], Failed("WRONG_PURPOSE"))
    else
      var product := order.purpose.product;
      if product !in st.pdfPrices then Fulfilment([], Failed("INVALID_PRODUCT"))
      else if expected.Some? && expected.value != st.pdfPrices[product] then Fulfilment([], Failed("AMOUNT_MISMATCH"))
      else if st.HasTxn(paymentId) then
        Fulfilment([], if FirstTxn(st.txns, paymentId).product == Some(product) then ExistingTransaction else Failed("TYPE_MISMATCH"))
      else if order.user == None then Fulfilment([], Failed("USER_NOT_FOUND"))
      else Fulfilment([SellPdf(order.user.value, product, st.pdfPrices[product], paymentId)], NewTransaction)
  }

  function FulfilCaptured(st: State, payment: Payment, order: GatewayOrder): Fulfilment {
    if payment.id == "" then Fulfilment([], Failed("MISSING_PAYMENT_ID"))
    else if !payment.captured then Fulfilment([], Failed("NOT_CAPTURED"))
    else
      var expected := if payment.amount != 0 then Some(payment.amount) else None;
      match order.purpose
      case ForPlan => FulfilPlanPurchase(st, payment.id, order, expected)
      case ForServiceCharge => FulfilServiceCharge(st, payment.id, order, expected)
      case ForPdf(_) => FulfilPdf(st, payment.id, order, expected)
      case ForSomethingElse => Fulfilment([], NoTransaction)
  }

  // The webhook answers 200 whether or not it fulfilled anything.
  function DecideWebhook(st: State, payment: Payment, order: GatewayOrder): Decision {
    if payment.id == "" || !payment.ofThisOrder || !payment.captured then Refuse(200)
    else Decision(FulfilCaptured(st, payment, order).ops, Plain(200))
  }

  // The answer to a member who verifies a payment.
  function StatusOf(ending: Ending, owner: bool): nat {
    match ending
    case Failed(_) => 400
    case NewTransaction => if owner then 201 else 403
    case _ => if owner then 200 else 403
  }

  function Answered(f: Fulfilment, owner: bool, toPay: Option<int>): Decision {
    Decision(f.ops, Answer(StatusOf(f.ending, owner), if f.ending.Failed? || !owner then None else toPay))
  }

  // The answer to a member who verifies a recorded plan payment. What is still to pay
  // is read from the column as it is; without a subscription the handler fails.
  function AnswerRecorded(st: State, u: nat, t: Txn): Answer {
    if t.user != u then Plain(403)
    else if t.product.Some? then Plain(400)
    else if u !in st.rows then Plain(500)
    else
      var paid := st.rows[u].serviceChargePaid;
      Answer(200, Some(if t.serviceCharge > paid then t.serviceCharge - paid else 0))
  }

  function DecideVerifyPlan(
      st: State, u: nat, plan: nat, full: bool, payment: Payment, order: GatewayOrder, signed: bool, notesMatch: bool): Decision
  {
    if payment.id == "" || !st.Purchasable(plan) then Refuse(400)
    else
      var paise := PurchaseAmounts(st.catalog[plan], st.Charge(u), full).0;
      if st.HasTxn(payment.id) then
        Decision([], AnswerRecorded(st, u, FirstTxn(st.txns, payment.id)))
      else if !signed || !payment.ofThisOrder || !payment.captured || payment.amount != paise then Refuse(400)
      else DecideConfirmPlan(st, u, plan, full, payment.id, order, notesMatch, paise)
  }

  // The rest of a verification, once the payment has been found captured and right.
  function DecideConfirmPlan(
      st: State, u: nat, plan: nat, full: bool, paymentId: string, order: GatewayOrder, notesMatch: bool, paise: nat): Decision
  {
    if order.purpose != ForPlan then Refuse(400)
    else if !notesMatch then Refuse(403)
    else if order.plan != Some(plan) || (order.full.Some? && order.full.value != full) then Refuse(400)
    else
      var f := FulfilPlanPurchase(st, paymentId, order, Some(paise));
      Answered(f, order.user == Some(u),
               if f.ending == NewTransaction then Some(ToPayAfter(st, u, st.catalog[plan], order.PaysInFull())) else None)
  }

  function FirstTxn(txns: seq<Txn>, paymentId: string): Txn
    requires exists i :: 0 <= i < |txns| && txns[i].paymentId == paymentId
  {
    if txns[0].paymentId == paymentId then txns[0]
    else
      assert forall i :: 0 < i < |txns| ==> txns[i] == txns[1..][i - 1];
      FirstTxn(txns[1..], paymentId)
  }

  function DecideVerifyService(
      st: State, u: nat, payment: Payment, order: GatewayOrder, signed: bool, notesMatch: bool): Decision
  {
    if payment.id == "" then Refuse(400)
    else
      match Owing(st, u)
      case None => Refuse(404)
      case Some(owed) =>
        var repair := RepairOnRead(st, u);
        if st.HasTxn(payment.id) then
          Decision(repair, if FirstTxn(st.txns, payment.id).user != u then Plain(403) else Answer(200, Some(0)))
        else if owed <= 0 then Decision(repair, Answer(200, Some(0)))
        else if !signed || !payment.ofThisOrder || !payment.captured || payment.amount != owed then Decision(repair, Plain(400))
        else if order.purpose != ForServiceCharge then Decision(repair, Plain(400))
        else if !notesMatch then Decision(repair, Plain(403))
        else
          var d := Answered(FulfilServiceCharge(ApplyAll(st, repair), payment.id, order, Some(owed)), order.user == Some(u), Some(0));
          d.(ops := repair + d.ops)
  }

  /* ----------------------------------- Runs ------------------------------ */

  function Decide(st: State, e: Event): Decision {
    match e
    case DaysPass(days) => Decision([Pass(days)], Plain(200))
    case ChargeEdited(u, amount) => Decision([SetCharge(u, amount)], Plain(200))
    case SendInterest(u, v, found, blocked) => DecideSendInterest(st, u, v, found, blocked)
    case RespondInterest(u, s, r, accept, blocked) => DecideRespondInterest(st, u, s, r, accept, blocked)
    case CancelInterest(u, s, r) => DecideCancelInterest(st, u, s, r)
    case UnlockContact(u, v, found, blocked, hasProfile) => DecideUnlockContact(st, u, v, found, blocked, hasProfile)
    case OpenProfile(u, v, found, blocked, hidden, hasProfile) => DecideOpenProfile(st, u, v, found, blocked, hidden, hasProfile)
    case RecordView(u, v, found, hasProfile) => DecideRecordView(st, u, v, found, hasProfile)
    case StartChat(u, v, found, blocked) => DecideStartChat(st, u, v, found, blocked)
    case CheckPorutham(u, bride, groom, found, ready) => DecideCheckPorutham(st, u, bride, groom, found, ready)
    case MyPlan(u) => Decision(RepairIfActive(st, u), Answer(200, Some(ToPayNow(st, u))))
    case PurchasePlan(u, plan, full, online) => DecidePurchasePlan(st, u, plan, full, online)
    case PayRemaining(u, online) => DecidePayRemaining(st, u, online)
    case Webhook(payment, order) => DecideWebhook(st, payment, order)
    case VerifyPlan(u, plan, full, payment, order, signed, notesMatch) =>
      DecideVerifyPlan(st, u, plan, full, payment, order, signed, notesMatch)
    case VerifyService(u, payment, order, signed, notesMatch) =>
      DecideVerifyService(st, u, payment, order, signed, notesMatch)
  }

  datatype Outcome = Outcome(st: State, log: seq<Op>)

  function Step(o: Outcome, e: Event): Outcome {
    var ops := Decide(o.st, e).ops;
    Outcome(ApplyAll(o.st, ops), o.log + ops)
  }

  function Run(start: Outcome, events: seq<Event>): Outcome {
    if events == [] then start
    else Step(Run(start, events[..|events| - 1]), events[|events| - 1])
  }

  lemma RunStep(start: Outcome, events: seq<Event>, e: Event)
    ensures Run(start, events + [e]) == Step(Run(start, events), e)
  {
    assert (events + [e])[..|events|] == events;
  }

  lemma RunOne(start: Outcome, e: Event)
    ensures Run(start, [e]) == Step(start, e)
  {
    RunStep(start, [], e);
    assert [] + [e] == [e];
  }

  lemma {:induction false} RunAppend(start: Outcome, a: seq<Event>, b: seq<Event>)
    ensures Run(start, a + b) == Run(Run(start, a), b)
  {
    if b == [] {
      assert a + b == a;
    } else {
      assert (a + b)[..|a + b| - 1] == a + b[..|b| - 1];
      RunAppend(start, a, b[..|b| - 1]);
    }
  }
}
