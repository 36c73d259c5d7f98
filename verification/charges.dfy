/**
  Nobody pays twice: unlocked profiles, chats and horoscope matches over whole runs.
 */
module Charges {
  import opened Options
  import opened Plans
  import opened Membership

  /* -------------------------------- Counting ----------------------------- */

  ghost function Count(log: seq<Op>, p: Op -> bool): nat {
    if log == [] then 0 else Count(log[..|log| - 1], p) + if p(log[|log| - 1]) then 1 else 0
  }

  lemma {:induction false} CountAppend(a: seq<Op>, b: seq<Op>, p: Op -> bool)
    ensures Count(a + b, p) == Count(a, p) + Count(b, p)
  {
    if b == [] {
      assert a + b == a;
    } else {
      assert (a + b)[..|a + b| - 1] == a + b[..|b| - 1];
      CountAppend(a, b[..|b| - 1], p);
    }
  }

  lemma NoCount(p: Op -> bool)
    ensures Count([], p) == 0
  {}

  lemma {:induction false} NotCounted(ops: seq<Op>, p: Op -> bool)
    requires forall op :: op in ops ==> !p(op)
    ensures Count(ops, p) == 0
  {
    if ops != [] {
      NotCounted(ops[..|ops| - 1], p);
    }
  }

  lemma CountOne(op: Op, p: Op -> bool)
    ensures Count([op], p) == if p(op) then 1 else 0
  {
    assert [op][..0] == [];
  }

  // One credit of a meter, if it is metered and p counts it.
  ghost function Taken(st: State, u: nat, m: Meter, about: Target, p: Op -> bool): nat {
    if st.Active(u) && st.rows[u].Metered(m) && p(Use(u, m, about)) then 1 else 0
  }

  lemma CountConsume(st: State, u: nat, m: Meter, about: Target, p: Op -> bool)
    ensures Count(Consume(st, u, m, about), p) == Taken(st, u, m, about, p)
  {
    CountOne(Use(u, m, about), p);
  }

  // A request and the one kind of credit it costs.
  lemma CountRequest(op: Op, st: State, u: nat, m: Meter, about: Target, p: Op -> bool)
    requires !p(op)
    ensures Count([op] + Consume(st, u, m, about), p) == Taken(st, u, m, about, p)
  {
    CountAppend([op], Consume(st, u, m, about), p);
    CountOne(op, p);
    CountConsume(st, u, m, about, p);
  }

  lemma CountRepair(st: State, u: nat, p: Op -> bool)
    requires forall o :: p(o) ==> o.Use?
    ensures Count(RepairOnRead(st, u), p) == 0
  {
    CountOne(Repair(u), p);
  }

  lemma CountUnlockContact(st: State, u: nat, v: nat, found: bool, blocked: bool, hasProfile: bool, p: Op -> bool)
    requires forall o :: p(o) ==> o.Use?
    ensures var d := DecideUnlockContact(st, u, v, found, blocked, hasProfile);
            Count(d.ops, p) ==
              (if d.answer.status == 200 then Taken(st, u, Contacts, Person(v), p) else 0) +
              (if !st.Unlocked(u, v) && Touch(u, v, true) in d.ops then Taken(st, u, ProfileViews, Person(v), p) else 0)
  {
    hide Count, Taken;
    var first, second := Consume(st, u, Contacts, Person(v)), Consume(st, u, ProfileViews, Person(v));
    var ops := DecideUnlockContact(st, u, v, found, blocked, hasProfile).ops;
    NoCount(p);
    if ops != [] {
      assert ops == first + [Touch(u, v, true)] + if st.Unlocked(u, v) then [] else second;
    }
    hide Consume;
    CountConsume(st, u, Contacts, Person(v), p);
    CountConsume(st, u, ProfileViews, Person(v), p);
    CountOne(Touch(u, v, true), p);
    CountAppend(first, [Touch(u, v, true)], p);
    CountAppend(first + [Touch(u, v, true)], second, p);
    CountAppend(first + [Touch(u, v, true)], [], p);
  }

  lemma CountOpenProfile(
      st: State, u: nat, v: nat, found: bool, blocked: bool, hidden: bool, hasProfile: bool, p: Op -> bool)
    requires forall o :: p(o) ==> o.Use?
    ensures var ops := DecideOpenProfile(st, u, v, found, blocked, hidden, hasProfile).ops;
            Count(ops, p) == (if Touch(u, v, true) in ops then Taken(st, u, ProfileViews, Person(v), p) else 0) &&
            (Touch(u, v, true) in ops ==> !st.Unlocked(u, v))
  {
    hide Count, Taken;
    var repair, second := RepairIfActive(st, u), Consume(st, u, ProfileViews, Person(v));
    CountRepair(st, u, p);
    NoCount(p);
    CountConsume(st, u, ProfileViews, Person(v), p);
    CountOne(Touch(u, v, true), p);
    CountOne(Touch(u, v, false), p);
    CountAppend(repair, [Touch(u, v, false)], p);
    CountAppend(repair, [Touch(u, v, true)], p);
    CountAppend(repair + [Touch(u, v, true)], second, p);
  }

  /* -------------------------------- Payments ----------------------------- */

  // What payments and purchases do to the tables. Plans come from the catalog.
  ghost predicate PaymentUpdate(st: State, op: Op) {
    (op.Buy? && op.plan in st.catalog.Values) || op.Settle? || op.SellPdf? || op.Repair?
  }

  ghost predicate IsPayment(e: Event) {
    e.PurchasePlan? || e.PayRemaining? || e.Webhook? || e.VerifyPlan? || e.VerifyService? || e.MyPlan?
  }

  lemma FulfilmentUpdates(st: State, paymentId: string, order: GatewayOrder, expected: Option<nat>)
    ensures forall op :: op in FulfilPlanPurchase(st, paymentId, order, expected).ops ==> op.Buy? && PaymentUpdate(st, op)
    ensures forall op :: op in FulfilServiceCharge(st, paymentId, order, expected).ops ==> op.Settle? || op.Repair?
    ensures forall op :: op in FulfilPdf(st, paymentId, order, expected).ops ==> op.SellPdf?
  {}

  // Payments sell, settle and repair, and make no other update.
  lemma PaymentUpdates(st: State, e: Event)
    requires IsPayment(e)
    ensures forall op :: op in Decide(st, e).ops ==> PaymentUpdate(st, op)
    ensures e.PurchasePlan? || e.VerifyPlan? ==> forall op :: op in Decide(st, e).ops ==> op.Buy?
    ensures e.PayRemaining? || e.VerifyService? ==> forall op :: op in Decide(st, e).ops ==> op.Settle? || op.Repair?
    ensures e.MyPlan? ==> forall op :: op in Decide(st, e).ops ==> op.Repair?
  {
    hide FulfilPlanPurchase, FulfilServiceCharge, FulfilPdf, ToPayAfter, ToPayNow, AnswerRecorded;
    match e
    case Webhook(payment, order) =>
      FulfilmentUpdates(st, payment.id, order, if payment.amount != 0 then Some(payment.amount) else None);
    case VerifyPlan(u, plan, full, payment, order, _, _) =>
      if st.Purchasable(plan) {
        FulfilmentUpdates(st, payment.id, order, Some(PurchaseAmounts(st.catalog[plan], st.Charge(u), full).0));
      }
    case VerifyService(u, payment, order, _, _) =>
      if Owing(st, u).Some? && Owing(st, u).value > 0 {
        FulfilmentUpdates(ApplyAll(st, RepairOnRead(st, u)), payment.id, order, Some(Owing(st, u).value));
      }
    case _ =>
  }

  // And no other request sells or settles anything.
  lemma OthersSellNothing(st: State, e: Event)
    requires !IsPayment(e)
    ensures forall op :: op in Decide(st, e).ops ==> !op.Buy? && !op.Settle? && !op.SellPdf?
  {
    hide State.Active, State.Can, State.Connected, State.Unlocked;
  }

  // They cost money, never credits.
  lemma PaymentsUseNoCredit(st: State, e: Event, p: Op -> bool)
    requires forall o :: p(o) ==> o.Use?
    requires IsPayment(e)
    ensures Count(Decide(st, e).ops, p) == 0
  {
    hide Decide, Count;
    PaymentUpdates(st, e);
    NotCounted(Decide(st, e).ops, p);
  }

  /* ------------------------------ One request ---------------------------- */

  // Exactly which credits a request costs.
  lemma CreditsOfARequest(st: State, e: Event, p: Op -> bool)
    requires forall o :: p(o) ==> o.Use?
    ensures var d := Decide(st, e);
            Count(d.ops, p) ==
            match e
            case SendInterest(u, v, _, _) => if d.ops != [] then Taken(st, u, Interests, Person(v), p) else 0
            case UnlockContact(u, v, _, _, _) =>
              (if d.answer.status == 200 then Taken(st, u, Contacts, Person(v), p) else 0) +
              (if !st.Unlocked(u, v) && Touch(u, v, true) in d.ops then Taken(st, u, ProfileViews, Person(v), p) else 0)
            case OpenProfile(u, v, _, _, _, _) =>
              if !st.Unlocked(u, v) && Touch(u, v, true) in d.ops then Taken(st, u, ProfileViews, Person(v), p) else 0
            case StartChat(u, v, _, _) =>
              if Ordered(u, v) !in st.chats && OpenChat(Ordered(u, v).0, Ordered(u, v).1) in d.ops
              then Taken(st, u, Chats, Person(v), p) else 0
            case CheckPorutham(u, b, g, _, _) =>
              if (b, g) !in st.matches && AddMatch(b, g) in d.ops then Taken(st, u, Horoscopes, Couple(b, g), p) else 0
            case _ => 0
  {
    hide DecideUnlockContact, DecideOpenProfile, Consume, Taken, Count;
    NoCount(p);
    match e
    case SendInterest(u, v, _, _) =>
      CountRequest(SetInterest(v, u, Accepted), st, u, Interests, Person(v), p);
      CountRequest(SetInterest(u, v, Pending), st, u, Interests, Person(v), p);
    case UnlockContact(u, v, found, blocked, hasProfile) => CountUnlockContact(st, u, v, found, blocked, hasProfile, p);
    case OpenProfile(u, v, found, blocked, hidden, hasProfile) =>
      CountOpenProfile(st, u, v, found, blocked, hidden, hasProfile, p);
    case StartChat(u, v, _, _) =>
      CountRequest(OpenChat(Ordered(u, v).0, Ordered(u, v).1), st, u, Chats, Person(v), p);
    case CheckPorutham(u, b, g, _, _) =>
      CountRequest(AddMatch(b, g), st, u, Horoscopes, Couple(b, g), p);
    case DaysPass(days) => CountOne(Pass(days), p);
    case ChargeEdited(u, amount) => CountOne(SetCharge(u, amount), p);
    case RespondInterest(u, s, r, accept, _) => CountOne(SetInterest(s, r, if accept then Accepted else Rejected), p);
    case CancelInterest(u, s, r) => CountOne(SetInterest(s, r, Cancelled), p);
    case RecordView(u, v, _, _) => CountOne(Touch(u, v, false), p);
    case _ => PaymentsUseNoCredit(st, e, p);
  }

  /* ---------------------- What updates leave behind ---------------------- */

  lemma AddedByOne(st: State, op: Op, a: nat, b: nat)
    ensures Apply(st, op).Unlocked(a, b) <==> st.Unlocked(a, b) || op == Touch(a, b, true)
    ensures (a, b) in Apply(st, op).views <==> (a, b) in st.views || op == Touch(a, b, true) || op == Touch(a, b, false)
    ensures (a, b) in Apply(st, op).chats <==> (a, b) in st.chats || op == OpenChat(a, b)
    ensures (a, b) in Apply(st, op).matches <==> (a, b) in st.matches || op == AddMatch(a, b)
  {}

  // Unlocks, chats and matches are only ever added.
  lemma {:induction false} AddedByUpdates(st: State, ops: seq<Op>, a: nat, b: nat)
    ensures var after := ApplyAll(st, ops);
            (after.Unlocked(a, b) <==> st.Unlocked(a, b) || Touch(a, b, true) in ops) &&
            ((a, b) in after.views <==> (a, b) in st.views || Touch(a, b, true) in ops || Touch(a, b, false) in ops) &&
            ((a, b) in after.chats <==> (a, b) in st.chats || OpenChat(a, b) in ops) &&
            ((a, b) in after.matches <==> (a, b) in st.matches || AddMatch(a, b) in ops)
    decreases |ops|
  {
    hide Apply, State.Unlocked;
    if ops != [] {
      AddedByOne(st, ops[0], a, b);
      AddedByUpdates(Apply(st, ops[0]), ops[1..], a, b);
      assert ops == [ops[0]] + ops[1..];
    }
  }

  /* ------------------------------ Whole runs ----------------------------- */

  ghost function ViewDebits(u: nat, v: nat): Op -> bool {
    (o: Op) => o == Use(u, ProfileViews, Person(v))
  }

  // A chat may be started, and paid for, by either side.
  ghost function ChatDebits(a: nat, b: nat): Op -> bool {
    (o: Op) => o == Use(a, Chats, Person(b)) || o == Use(b, Chats, Person(a))
  }

  // A match may be paid for by anyone.
  ghost function MatchDebits(bride: nat, groom: nat): Op -> bool {
    (o: Op) => o.Use? && o.meter == Horoscopes && o.about == Couple(bride, groom)
  }

  // The debits so far, and what they were for.
  ghost predicate PaidOnce(o: Outcome, a: nat, b: nat) {
    Count(o.log, ViewDebits(a, b)) <= (if o.st.Unlocked(a, b) then 1 else 0) &&
    Count(o.log, ChatDebits(a, b)) <= (if Ordered(a, b) in o.st.chats then 1 else 0) &&
    Count(o.log, MatchDebits(a, b)) <= (if (a, b) in o.st.matches then 1 else 0)
  }

  lemma StepPaysViewsOnce(o: Outcome, e: Event, a: nat, b: nat)
    requires Count(o.log, ViewDebits(a, b)) <= (if o.st.Unlocked(a, b) then 1 else 0)
    ensures Count(Step(o, e).log, ViewDebits(a, b)) <= (if Step(o, e).st.Unlocked(a, b) then 1 else 0)
  {
    hide Decide, ApplyAll, Count, State.Unlocked;
    AddedByUpdates(o.st, Decide(o.st, e).ops, a, b);
    CountAppend(o.log, Decide(o.st, e).ops, ViewDebits(a, b));
    CreditsOfARequest(o.st, e, ViewDebits(a, b));
  }

  lemma StepPaysChatsOnce(o: Outcome, e: Event, a: nat, b: nat)
    requires Count(o.log, ChatDebits(a, b)) <= (if Ordered(a, b) in o.st.chats then 1 else 0)
    ensures Count(Step(o, e).log, ChatDebits(a, b)) <= (if Ordered(a, b) in Step(o, e).st.chats then 1 else 0)
  {
    hide Decide, ApplyAll, Count, State.Unlocked;
    AddedByUpdates(o.st, Decide(o.st, e).ops, Ordered(a, b).0, Ordered(a, b).1);
    CountAppend(o.log, Decide(o.st, e).ops, ChatDebits(a, b));
    CreditsOfARequest(o.st, e, ChatDebits(a, b));
  }

  lemma StepPaysMatchesOnce(o: Outcome, e: Event, a: nat, b: nat)
    requires Count(o.log, MatchDebits(a, b)) <= (if (a, b) in o.st.matches then 1 else 0)
    ensures Count(Step(o, e).log, MatchDebits(a, b)) <= (if (a, b) in Step(o, e).st.matches then 1 else 0)
  {
    hide Decide, ApplyAll, Count, State.Unlocked;
    AddedByUpdates(o.st, Decide(o.st, e).ops, a, b);
    CountAppend(o.log, Decide(o.st, e).ops, MatchDebits(a, b));
    CreditsOfARequest(o.st, e, MatchDebits(a, b));
  }

  lemma StepPaysOnce(o: Outcome, e: Event, a: nat, b: nat)
    requires PaidOnce(o, a, b)
    ensures PaidOnce(Step(o, e), a, b)
  {
    hide Step, Count;
    StepPaysViewsOnce(o, e, a, b);
    StepPaysChatsOnce(o, e, a, b);
    StepPaysMatchesOnce(o, e, a, b);
  }

  // A conversation is opened with the smaller member first, whoever starts it.
  lemma ChatsAreOpenedInOrder(st: State, e: Event, a: nat, b: nat)
    ensures OpenChat(a, b) in Decide(st, e).ops ==> a < b
  {
    hide FulfilPlanPurchase, FulfilServiceCharge, FulfilPdf, ToPayAfter, ToPayNow, AnswerRecorded;
    if IsPayment(e) {
      PaymentUpdates(st, e);
      hide Decide;
    }
  }

  // An unlock, a conversation or a match is there exactly when some update of the
  // run made it, and a pair has a conversation in one order only.
  lemma {:induction false} TablesFollowLog(
      catalog: map<nat, Plan>, pdfPrices: map<string, nat>, today: int, events: seq<Event>, a: nat, b: nat)
    ensures var o := Run(Outcome(EmptyDatabase(catalog, pdfPrices, today), []), events);
            (o.st.Unlocked(a, b) <==> Touch(a, b, true) in o.log) &&
            ((a, b) in o.st.views <==> Touch(a, b, true) in o.log || Touch(a, b, false) in o.log) &&
            ((a, b) in o.st.chats <==> OpenChat(a, b) in o.log) &&
            ((a, b) in o.st.matches <==> AddMatch(a, b) in o.log) &&
            ((a, b) in o.st.chats ==> a < b)
  {
    if events != [] {
      hide Decide, ApplyAll;
      var before := Run(Outcome(EmptyDatabase(catalog, pdfPrices, today), []), events[..|events| - 1]);
      var ops := Decide(before.st, events[|events| - 1]).ops;
      TablesFollowLog(catalog, pdfPrices, today, events[..|events| - 1], a, b);
      AddedByUpdates(before.st, ops, a, b);
      ChatsAreOpenedInOrder(before.st, events[|events| - 1], a, b);
      assert forall op :: op in before.log + ops <==> op in before.log || op in ops;
    }
  }

  // Over any run: one conversation per pair; one view credit per viewer and profile,
  // one chat credit per pair, one horoscope credit per couple, whichever request spends it.
  lemma {:induction false} NobodyPaysTwice(
      catalog: map<nat, Plan>, pdfPrices: map<string, nat>, today: int, events: seq<Event>, a: nat, b: nat)
    ensures var o := Run(Outcome(EmptyDatabase(catalog, pdfPrices, today), []), events);
            PaidOnce(o, a, b) &&
            Count(o.log, ViewDebits(a, b)) <= 1 && Count(o.log, ChatDebits(a, b)) <= 1 && Count(o.log, MatchDebits(a, b)) <= 1 &&
            !((a, b) in o.st.chats && (b, a) in o.st.chats)
  {
    var start := Outcome(EmptyDatabase(catalog, pdfPrices, today), []);
    TablesFollowLog(catalog, pdfPrices, today, events, a, b);
    TablesFollowLog(catalog, pdfPrices, today, events, b, a);
    if events != [] {
      NobodyPaysTwice(catalog, pdfPrices, today, events[..|events| - 1], a, b);
      StepPaysOnce(Run(start, events[..|events| - 1]), events[|events| - 1], a, b);
    }
  }

  // What has been unlocked, opened or matched stays so.
  lemma {:induction false} NothingIsTakenBack(start: Outcome, events: seq<Event>, a: nat, b: nat)
    ensures var after := Run(start, events).st;
            (start.st.Unlocked(a, b) ==> after.Unlocked(a, b)) &&
            ((a, b) in start.st.chats ==> (a, b) in after.chats) &&
            ((a, b) in start.st.matches ==> (a, b) in after.matches)
  {
    if events != [] {
      hide Decide;
      var before := Run(start, events[..|events| - 1]);
      NothingIsTakenBack(start, events[..|events| - 1], a, b);
      AddedByUpdates(before.st, Decide(before.st, events[|events| - 1]).ops, a, b);
    }
  }
}
