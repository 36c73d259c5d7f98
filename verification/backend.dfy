/**
  The request handlers, working on the tables in place.

  Every handler is proved to leave the tables as the updates of its decision do,
  and to answer as that decision does; the laws of whole runs are
  proved about the decisions.
 */
module Backend {
  import opened Options
  import opened Plans
  import opened Membership
  import opened Ledger

  // A request that updates a table no subscription depends on, and then consumes a credit.
  lemma ThenConsume(st: State, op: Op, u: nat, m: Meter, about: Target)
    requires op.SetInterest? || op.OpenChat? || op.AddMatch? || op.Touch?
    ensures ApplyAll(st, [op] + Consume(st, u, m, about)) ==
            ApplyAll(Apply(st, op), Consume(Apply(st, op), u, m, about))
  {
    ApplyOne(st, op);
    ApplyAppend(st, [op], Consume(st, u, m, about));
    hide ApplyAll;
  }

  lemma ContactSteps(st: State, u: nat, v: nat)
    ensures var a := ApplyAll(st, Consume(st, u, Contacts, Person(v)));
            var b := Apply(a, Touch(u, v, true));
            a.Unlocked(u, v) == st.Unlocked(u, v) &&
            ApplyAll(st, Consume(st, u, Contacts, Person(v)) + [Touch(u, v, true)] +
                         (if st.Unlocked(u, v) then [] else Consume(st, u, ProfileViews, Person(v)))) ==
            if st.Unlocked(u, v) then b else ApplyAll(b, Consume(b, u, ProfileViews, Person(v)))
  {
    var first, touch := Consume(st, u, Contacts, Person(v)), Touch(u, v, true);
    var second := if st.Unlocked(u, v) then [] else Consume(st, u, ProfileViews, Person(v));
    ConsumeKeepsOthers(st, u, Contacts, Person(v), ProfileViews);
    ApplyOne(ApplyAll(st, first), touch);
    ApplyAppend(st, first, [touch]);
    ApplyAppend(st, first + [touch], second);
  }

  lemma OpenSteps(st: State, u: nat, v: nat)
    ensures var repair := RepairIfActive(st, u);
            var a := ApplyAll(st, repair);
            var b := Apply(a, Touch(u, v, true));
            a == st.(rows := a.rows) &&
            ApplyAll(st, repair + [Touch(u, v, false)]) == Apply(a, Touch(u, v, false)) &&
            ApplyAll(st, repair + [Touch(u, v, true)] + Consume(st, u, ProfileViews, Person(v))) ==
              ApplyAll(b, Consume(b, u, ProfileViews, Person(v)))
  {
    RepairSteps(st, u, v);
    hide RepairIfActive, Consume, ApplyAll;
    var repair := RepairIfActive(st, u);
    var a := ApplyAll(st, repair);
    ApplyOne(a, Touch(u, v, true));
    ApplyOne(a, Touch(u, v, false));
    ApplyAppend(st, repair, [Touch(u, v, true)]);
    ApplyAppend(st, repair, [Touch(u, v, false)]);
    ApplyAppend(st, repair + [Touch(u, v, true)], Consume(st, u, ProfileViews, Person(v)));
  }

  lemma RepairSteps(st: State, u: nat, v: nat)
    ensures var a := ApplyAll(st, RepairIfActive(st, u));
            a == st.(rows := a.rows) &&
            Consume(Apply(a, Touch(u, v, true)), u, ProfileViews, Person(v)) == Consume(st, u, ProfileViews, Person(v))
  {
    RepairKeepsCredits(st, u, ProfileViews, Person(v));
    var a := ApplyAll(st, RepairIfActive(st, u));
    hide ApplyAll, RepairIfActive;
    var b := Apply(a, Touch(u, v, true));
    assert b.rows == a.rows && b.today == a.today;
    assert Consume(b, u, ProfileViews, Person(v)) == Consume(a, u, ProfileViews, Person(v));
  }

  lemma RepairKeepsCredits(st: State, u: nat, m: Meter, about: Target)
    ensures var a := ApplyAll(st, RepairIfActive(st, u));
            a == st.(rows := a.rows) && Consume(a, u, m, about) == Consume(st, u, m, about)
  {
    if st.Active(u) {
      RepairIsAllowed(st, u);
    } else {
      assert ApplyAll(st, []) == st;
    }
    hide ApplyAll, RepairOnRead, Consume;
  }

  lemma SettleSteps(st: State, u: nat, paymentId: string)
    ensures var repair, owed := RepairOnRead(st, u), Owing(st, u);
            owed.Some? && owed.value > 0 ==>
              ApplyAll(st, repair + [Settle(u, owed.value, paymentId)]) ==
              Apply(ApplyAll(st, repair), Settle(u, owed.value, paymentId))
    ensures RepairOnRead(st, u) + [] == RepairOnRead(st, u)
  {
    if Owing(st, u).Some? && Owing(st, u).value > 0 {
      var settle := Settle(u, Owing(st, u).value, paymentId);
      ApplyOne(ApplyAll(st, RepairOnRead(st, u)), settle);
      ApplyAppend(st, RepairOnRead(st, u), [settle]);
    }
  }

  lemma NothingToRepair(st: State, u: nat)
    ensures ApplyAll(st, []) == st
    ensures RepairOnRead(st, u) + [] == RepairOnRead(st, u)
  {}

  // Repairing again before settling changes nothing.
  lemma RepairTwice(st: State, u: nat)
    ensures var a := ApplyAll(st, RepairOnRead(st, u)); ApplyAll(a, RepairOnRead(a, u)) == a && Owing(a, u) == Owing(st, u)
  {
    var a := ApplyAll(st, RepairOnRead(st, u));
    ApplyOne(st, Repair(u));
    ApplyOne(a, Repair(u));
    if u in st.rows {
      RepairIsInvisible(st.rows[u], st.today);
      assert a.rows[u := a.rows[u]] == a.rows;
    }
    hide UserPlan.Repaired, UserPlan.Outstanding;
  }

  lemma RepairThenSettle(st: State, u: nat, paymentId: string)
    ensures var a, owed := ApplyAll(st, RepairOnRead(st, u)), Owing(st, u);
            owed.Some? && owed.value > 0 ==>
              ApplyAll(a, RepairOnRead(a, u) + [Settle(u, owed.value, paymentId)]) ==
              ApplyAll(st, RepairOnRead(st, u) + [Settle(u, owed.value, paymentId)])
  {
    var a := ApplyAll(st, RepairOnRead(st, u));
    RepairTwice(st, u);
    SettleSteps(st, u, paymentId);
    SettleSteps(a, u, paymentId);
    hide ApplyAll, RepairOnRead, Owing;
  }

  // The first transaction with an id is the one found by looking from the front.
  lemma {:induction false} FirstTxnIs(txns: seq<Txn>, paymentId: string, i: nat)
    requires i < |txns| && txns[i].paymentId == paymentId
    requires forall k :: 0 <= k < i ==> txns[k].paymentId != paymentId
    ensures FirstTxn(txns, paymentId) == txns[i]
  {
    if i > 0 {
      FirstTxnIs(txns[1..], paymentId, i - 1);
    }
  }

  class Service {
    const catalog: map<nat, Plan>
    const pdfPrices: map<string, nat>
    var today: int
    var charges: map<nat, nat>
    var rows: map<nat, UserPlan>
    var txns: seq<Txn>
    var interests: map<(nat, nat), InterestStatus>
    var views: map<(nat, nat), bool>
    var chats: set<(nat, nat)>
    var matches: set<(nat, nat)>

    ghost function Tables(): State
      reads this
    {
      State(catalog, pdfPrices, today, charges, rows, txns, interests, views, chats, matches)
    }

    // The tables have taken the updates of a decision, and the answer is its answer.
    twostate predicate Did(d: Decision, answer: Answer)
      reads this
    {
      Tables() == ApplyAll(old(Tables()), d.ops) && answer == d.answer
    }

    constructor (catalog: map<nat, Plan>, pdfPrices: map<string, nat>, today: int)
      ensures Tables() == EmptyDatabase(catalog, pdfPrices, today)
    {
      this.catalog, this.pdfPrices, this.today := catalog, pdfPrices, today;
      charges, rows, txns := map[], map[], [];
      interests, views, chats, matches := map[], map[], {}, {};
    }

    /* ------------------------------ Allowances --------------------------- */

    method GetUserPlan(u: nat) returns (up: Option<UserPlan>)
      ensures up == if Tables().Active(u) then Some(rows[u]) else None
    {
      if u !in rows {
        return None;
      }
      var row := rows[u];
      if !row.isActive || !row.plan.isActive {
        return None;
      }
      if row.validUntil.Some? && row.validUntil.value < today {
        return None;
      }
      return Some(row);
    }

    method CanUseMeter(u: nat, m: Meter) returns (allowed: bool)
      ensures allowed == Tables().Can(u, m)
    {
      var up := GetUserPlan(u);
      if up == None {
        return false;
      }
      var limit := up.value.plan.limits.Of(m);
      if limit == 0 {
        return true;
      }
      limit := limit + up.value.bonus.Of(m);
      var used := up.value.used.Of(m);
      var remaining := if limit > used then limit - used else 0;
      return remaining > 0;
    }

    method ConsumeCredit(u: nat, m: Meter, ghost about: Target)
      modifies this
      ensures Tables() == ApplyAll(old(Tables()), Consume(old(Tables()), u, m, about))
    {
      ApplyOne(Tables(), Use(u, m, about));
      var up := GetUserPlan(u);
      if up == None || up.value.plan.limits.Of(m) == 0 {
        return;
      }
      rows := rows[u := up.value.(used := up.value.used.Plus(m, 1))];
    }

    /* ----------------------------- Connections --------------------------- */

    method HasAcceptedInterestBetween(a: nat, b: nat) returns (connected: bool)
      ensures connected == Tables().Connected(a, b)
    {
      connected := ((a, b) in interests && interests[(a, b)] == Accepted) ||
                   ((b, a) in interests && interests[(b, a)] == Accepted);
    }

    method SendInterest(u: nat, v: nat, found: bool, blocked: bool) returns (status: nat)
      modifies this
      ensures Did(DecideSendInterest(old(Tables()), u, v, found, blocked), Plain(status))
    {
      var up := GetUserPlan(u);
      if up == None { return 403; }
      var canSend := CanUseMeter(u, Interests);
      if !canSend { return 403; }
      if !found { return 404; }
      if v == u { return 400; }
      if blocked { return 403; }
      var connected := HasAcceptedInterestBetween(u, v);
      if connected { return 200; }
      hide Consume, ApplyAll;
      if (v, u) in interests && interests[(v, u)] == Pending {
        ThenConsume(Tables(), SetInterest(v, u, Accepted), u, Interests, Person(v));
        interests := interests[(v, u) := Accepted];
        ConsumeCredit(u, Interests, Person(v));
        return 200;
      }
      ThenConsume(Tables(), SetInterest(u, v, Pending), u, Interests, Person(v));
      if (u, v) in interests {
        if interests[(u, v)] == Cancelled || interests[(u, v)] == Rejected {
          interests := interests[(u, v) := Pending];
          ConsumeCredit(u, Interests, Person(v));
          return 200;
        }
        return 200;
      }
      interests := interests[(u, v) := Pending];
      ConsumeCredit(u, Interests, Person(v));
      return 200;
    }

    method RespondInterest(u: nat, s: nat, r: nat, accept: bool, blocked: bool) returns (status: nat)
      modifies this
      ensures Did(DecideRespondInterest(old(Tables()), u, s, r, accept, blocked), Plain(status))
    {
      if (s, r) !in interests { return 404; }
      if r != u { return 403; }
      if blocked { return 403; }
      var up := GetUserPlan(u);
      if accept && up == None { return 403; }
      ApplyOne(Tables(), SetInterest(s, r, if accept then Accepted else Rejected));
      if accept {
        interests := interests[(s, r) := Accepted];
      } else {
        interests := interests[(s, r) := Rejected];
      }
      return 200;
    }

    method CancelInterest(u: nat, s: nat, r: nat) returns (status: nat)
      modifies this
      ensures Did(DecideCancelInterest(old(Tables()), u, s, r), Plain(status))
    {
      if (s, r) !in interests { return 404; }
      if s != u { return 403; }
      if interests[(s, r)] != Pending { return 400; }
      ApplyOne(Tables(), SetInterest(s, r, Cancelled));
      interests := interests[(s, r) := Cancelled];
      return 200;
    }

    method StartChat(u: nat, v: nat, found: bool, blocked: bool) returns (status: nat)
      modifies this
      ensures Did(DecideStartChat(old(Tables()), u, v, found, blocked), Plain(status))
    {
      var up := GetUserPlan(u);
      if up == None { return 403; }
      if !found { return 404; }
      if v == u { return 400; }
      if blocked { return 403; }
      var connected := HasAcceptedInterestBetween(u, v);
      if !connected { return 403; }
      var canChat := CanUseMeter(u, Chats);
      if !canChat { return 403; }
      var low, high := v, u;
      if u < v {
        low, high := u, v;
      }
      if (low, high) !in chats {
        hide Consume, ApplyAll;
        ThenConsume(Tables(), OpenChat(low, high), u, Chats, Person(v));
        chats := chats + {(low, high)};
        ConsumeCredit(u, Chats, Person(v));
      }
      return 200;
    }

    method CheckPorutham(u: nat, bride: nat, groom: nat, found: bool, ready: bool) returns (status: nat)
      modifies this
      ensures Did(DecideCheckPorutham(old(Tables()), u, bride, groom, found, ready), Plain(status))
    {
      var up := GetUserPlan(u);
      if up == None { return 403; }
      if !found { return 404; }
      if !ready { return 400; }
      var alreadyMatched := (bride, groom) in matches;
      if !alreadyMatched {
        var allowed := CanUseMeter(u, Horoscopes);
        if !allowed { return 403; }
      }
      if (bride, groom) !in matches {
        hide Consume, ApplyAll;
        ThenConsume(Tables(), AddMatch(bride, groom), u, Horoscopes, Couple(bride, groom));
        matches := matches + {(bride, groom)};
        ConsumeCredit(u, Horoscopes, Couple(bride, groom));
      }
      return 200;
    }

    /* -------------------------------- Profiles --------------------------- */

    method HasUnlockedProfile(u: nat, v: nat) returns (unlocked: bool)
      ensures unlocked == Tables().Unlocked(u, v)
    {
      unlocked := (u, v) in views && views[(u, v)];
    }

    // One row per viewer and profile; the first paid unlock is reported.
    method TouchView(u: nat, v: nat, unlock: bool) returns (newlyUnlocked: bool)
      modifies this
      ensures Tables() == Apply(old(Tables()), Touch(u, v, unlock))
      ensures newlyUnlocked == (unlock && !old(Tables()).Unlocked(u, v))
    {
      if (u, v) !in views {
        views := views[(u, v) := false];
      }
      newlyUnlocked := false;
      if unlock && !views[(u, v)] {
        views := views[(u, v) := true];
        newlyUnlocked := true;
      }
    }

    method UnlockContact(u: nat, v: nat, found: bool, blocked: bool, hasProfile: bool) returns (status: nat)
      modifies this
      ensures Did(DecideUnlockContact(old(Tables()), u, v, found, blocked, hasProfile), Plain(status))
    {
      var up := GetUserPlan(u);
      if u in rows && up == None { return 403; }
      if !found { return 404; }
      if v == u { return 400; }
      if blocked { return 403; }
      var canView := CanUseMeter(u, Contacts);
      if !canView { return 403; }
      if !hasProfile { return 404; }
      var alreadyUnlocked := HasUnlockedProfile(u, v);
      if !alreadyUnlocked {
        var canProfile := CanUseMeter(u, ProfileViews);
        if !canProfile { return 403; }
      }
      hide Consume, ApplyAll;
      ContactSteps(Tables(), u, v);
      ConsumeCredit(u, Contacts, Person(v));
      var newlyUnlocked := TouchView(u, v, true);
      if newlyUnlocked {
        ConsumeCredit(u, ProfileViews, Person(v));
      }
      return 200;
    }

    method RepairLegacy(u: nat)
      modifies this
      ensures Tables() == ApplyAll(old(Tables()), RepairOnRead(old(Tables()), u))
    {
      ApplyOne(Tables(), Repair(u));
      if u in rows && rows[u].serviceChargePaid == 0 && rows[u].pricePaid > 0 {
        rows := rows[u := rows[u].(serviceChargePaid := rows[u].pricePaid)];
      } else if u in rows {
        assert rows[u].Repaired() == rows[u] && rows[u := rows[u]] == rows;
      }
    }

    method GetPlanInfo(u: nat) returns (toPay: nat)
      modifies this
      ensures Tables() == ApplyAll(old(Tables()), RepairIfActive(old(Tables()), u))
      ensures toPay == ToPayNow(old(Tables()), u)
    {
      var up := GetUserPlan(u);
      if up == None {
        return 0;
      }
      RepairIsAllowed(Tables(), u);
      RepairLegacy(u);
      var total, paid := if u in charges then charges[u] else 0, rows[u].serviceChargePaid;
      toPay := if total > paid then total - paid else 0;
    }

    method MyPlan(u: nat) returns (answer: Answer)
      modifies this
      ensures Did(Decision(RepairIfActive(old(Tables()), u), Answer(200, Some(ToPayNow(old(Tables()), u)))), answer)
    {
      var toPay := GetPlanInfo(u);
      return Answer(200, Some(toPay));
    }

    method OpenProfile(u: nat, v: nat, found: bool, blocked: bool, hidden: bool, hasProfile: bool) returns (status: nat)
      modifies this
      ensures Did(DecideOpenProfile(old(Tables()), u, v, found, blocked, hidden, hasProfile), Plain(status))
    {
      if !found { return 404; }
      if v == u { return 400; }
      if blocked { return 403; }
      if hidden { return 404; }
      hide Consume, ApplyAll, RepairIfActive;
      var up := GetUserPlan(u);
      var alreadyUnlocked := false;
      if hasProfile {
        alreadyUnlocked := HasUnlockedProfile(u, v);
      }
      var canView := CanUseMeter(u, ProfileViews);
      OpenSteps(Tables(), u, v);
      var _ := GetPlanInfo(u);
      if up.Some? && alreadyUnlocked {
        var _ := TouchView(u, v, false);
      } else if canView {
        if hasProfile {
          var newlyUnlocked := TouchView(u, v, true);
          if newlyUnlocked {
            ConsumeCredit(u, ProfileViews, Person(v));
          }
        }
      }
      return 200;
    }

    method RecordView(u: nat, v: nat, found: bool, hasProfile: bool) returns (status: nat)
      modifies this
      ensures Did(DecideRecordView(old(Tables()), u, v, found, hasProfile), Plain(status))
    {
      if !found { return 404; }
      if v == u { return 400; }
      if !hasProfile { return 404; }
      ApplyOne(Tables(), Touch(u, v, false));
      var _ := TouchView(u, v, false);
      return 200;
    }

    /* -------------------------------- Payments --------------------------- */

    // Row by row what a purchase makes of the subscription, and its transaction.
    method ActivatePlanPurchase(u: nat, plan: Plan, full: bool, paymentId: string) returns (toPay: int)
      modifies this
      ensures toPay == ToPayAfter(old(Tables()), u, plan, full)
      ensures Tables() == Apply(old(Tables()), Activate(old(Tables()), u, plan, full, paymentId))
    {
      var serviceChargeTotal := if u in charges then charges[u] else 0;
      var remaining := if serviceChargeTotal > plan.price then serviceChargeTotal - plan.price else 0;
      var amountPaid := if full then remaining else plan.price;
      var serviceChargePaid := if full then serviceChargeTotal else plan.price;
      var carried := NOTHING;
      var validUntil := today + plan.durationDays;
      if u in rows && rows[u].isActive && !(rows[u].validUntil.Some? && rows[u].validUntil.value < today) {
        var prior := rows[u];
        carried := prior.Carried();
        validUntil := (if prior.validUntil.Some? then prior.validUntil.value else today) + plan.durationDays;
        if prior.plan.id == plan.id {
          if prior.serviceCharge != 0 {
            serviceChargeTotal := prior.serviceCharge;
          }
          serviceChargePaid := prior.EffectivePaid();
        }
      }
      var row := UserPlan(plan, plan.price, serviceChargeTotal, serviceChargePaid, carried, NOTHING, today, Some(validUntil), true);
      assert row == Purchased(Tables().Row(u), plan, Tables().Charge(u), full, today);
      hide Purchased, UserPlan.Carried, UserPlan.EffectivePaid;
      rows := rows[u := row];
      txns := txns + [Txn(u, Some(plan.id), amountPaid, serviceChargeTotal, None, paymentId)];
      toPay := serviceChargeTotal - serviceChargePaid;
    }

    method PurchasePlan(u: nat, plan: nat, full: bool, online: bool) returns (answer: Answer)
      modifies this
      ensures Did(DecidePurchasePlan(old(Tables()), u, plan, full, online), answer)
    {
      if plan !in catalog || !catalog[plan].isActive || !catalog[plan].isPublished {
        return Plain(400);
      }
      if online { return Plain(400); }
      hide Apply, Activate, ToPayAfter;
      ApplyOne(Tables(), Activate(Tables(), u, catalog[plan], full, ""));
      var toPay := ActivatePlanPurchase(u, catalog[plan], full, "");
      return Answer(201, Some(toPay));
    }

    method ComputeServiceChargeRemaining(u: nat) returns (remaining: Option<int>)
      modifies this
      ensures remaining == Owing(old(Tables()), u)
      ensures Tables() == ApplyAll(old(Tables()), if remaining.Some? then RepairOnRead(old(Tables()), u) else [])
    {
      if u !in rows || !rows[u].isActive {
        return None;
      }
      RepairIsAllowed(Tables(), u);
      RepairLegacy(u);
      return Some(rows[u].serviceCharge - rows[u].serviceChargePaid);
    }

    // Settles what remains, if anything does.
    method PayRemainingServiceCharge(u: nat, paymentId: string) returns (paid: Option<int>)
      modifies this
      ensures paid == Owing(old(Tables()), u)
      ensures var before := old(Tables());
              Tables() == ApplyAll(before,
                if paid == None then []
                else RepairOnRead(before, u) + if paid.value > 0 then [Settle(u, paid.value, paymentId)] else [])
    {
      SettleSteps(Tables(), u, paymentId);
      paid := ComputeServiceChargeRemaining(u);
      if paid == None || paid.value <= 0 {
        return;
      }
      rows := rows[u := rows[u].(serviceChargePaid := rows[u].serviceCharge)];
      txns := txns + [Txn(u, Some(rows[u].plan.id), paid.value, paid.value, None, paymentId)];
    }

    method PayRemaining(u: nat, online: bool) returns (answer: Answer)
      modifies this
      ensures Did(DecidePayRemaining(old(Tables()), u, online), answer)
    {
      NothingToRepair(Tables(), u);
      hide ApplyAll, RepairOnRead, Owing;
      if online { return Plain(400); }
      var paid := PayRemainingServiceCharge(u, "");
      if paid == None { return Plain(404); }
      if paid.value <= 0 { return Answer(200, Some(0)); }
      return Answer(201, Some(0));
    }

    method GetSuccessTxnByPaymentId(paymentId: string) returns (found: Option<Txn>)
      ensures found.Some? <==> Tables().HasTxn(paymentId)
      ensures found.Some? ==> found.value == FirstTxn(txns, paymentId)
    {
      for i := 0 to |txns|
        invariant forall k :: 0 <= k < i ==> txns[k].paymentId != paymentId
      {
        if txns[i].paymentId == paymentId {
          FirstTxnIs(txns, paymentId, i);
          return Some(txns[i]);
        }
      }
      return None;
    }

    method FulfilPlan(paymentId: string, order: GatewayOrder, expected: Option<nat>)
      returns (ending: Ending, toPay: Option<int>)
      modifies this
      ensures var f := FulfilPlanPurchase(old(Tables()), paymentId, order, expected);
              ending == f.ending && Tables() == ApplyAll(old(Tables()), f.ops) &&
              toPay == if f.ending == NewTransaction
                       then Some(ToPayAfter(old(Tables()), order.user.value, catalog[order.plan.value], order.PaysInFull()))
                       else None
    {
      if order.purpose != ForPlan { return Failed("WRONG_PURPOSE"), None; }
      var existing := GetSuccessTxnByPaymentId(paymentId);
      if existing.Some? { return ExistingTransaction, None; }
      if order.user == None { return Failed("USER_NOT_FOUND"), None; }
      if order.plan == None { return Failed("MISSING_PLAN"), None; }
      if order.plan.value !in catalog { return Failed("PLAN_NOT_FOUND"), None; }
      var u, plan := order.user.value, catalog[order.plan.value];
      var paise := PurchaseAmounts(plan, if u in charges then charges[u] else 0, order.PaysInFull()).0;
      if expected.Some? && expected.value != paise { return Failed("AMOUNT_MISMATCH"), None; }
      if order.amount.Some? && order.amount.value != paise { return Failed("AMOUNT_MISMATCH"), None; }
      hide Apply, Activate, ToPayAfter;
      ApplyOne(Tables(), Activate(Tables(), u, plan, order.PaysInFull(), paymentId));
      var shown := ActivatePlanPurchase(u, plan, order.PaysInFull(), paymentId);
      return NewTransaction, Some(shown);
    }

    method FulfilService(paymentId: string, order: GatewayOrder, expected: Option<nat>) returns (ending: Ending)
      modifies this
      ensures var f := FulfilServiceCharge(old(Tables()), paymentId, order, expected);
              ending == f.ending && Tables() == ApplyAll(old(Tables()), f.ops)
    {
      if order.purpose != ForServiceCharge { return Failed("WRONG_PURPOSE"); }
      var existing := GetSuccessTxnByPaymentId(paymentId);
      if existing.Some? { return ExistingTransaction; }
      if order.user == None { return Failed("USER_NOT_FOUND"); }
      var u := order.user.value;
      ghost var before := Tables();
      RepairIsAllowed(before, u);
      RepairThenSettle(before, u, paymentId);
      RepairTwice(before, u);
      hide ApplyAll, RepairOnRead, Owing;
      var remaining := ComputeServiceChargeRemaining(u);
      if remaining == None { return Failed("NO_PLAN"); }
      if remaining.value <= 0 { return NoTransaction; }
      if expected.Some? && expected.value != remaining.value {
        if order.amount == None || order.amount.value != expected.value {
          return Failed("AMOUNT_MISMATCH");
        }
      }
      var paid := PayRemainingServiceCharge(u, paymentId);
      return NewTransaction;
    }

    method FulfilPdfPayment(paymentId: string, order: GatewayOrder, expected: Option<nat>) returns (ending: Ending)
      requires order.purpose.ForPdf?
      modifies this
      ensures var f := FulfilPdf(old(Tables()), paymentId, order, expected);
              ending == f.ending && Tables() == ApplyAll(old(Tables()), f.ops)
    {
      var product := order.purpose.product;
      if product !in pdfPrices { return Failed("INVALID_PRODUCT"); }
      if expected.Some? && expected.value != pdfPrices[product] { return Failed("AMOUNT_MISMATCH"); }
      var existing := GetSuccessTxnByPaymentId(paymentId);
      if existing.Some? {
        if existing.value.product == Some(product) {
          return ExistingTransaction;
        }
        return Failed("TYPE_MISMATCH");
      }
      if order.user == None { return Failed("USER_NOT_FOUND"); }
      ApplyOne(Tables(), SellPdf(order.user.value, product, pdfPrices[product], paymentId));
      txns := txns + [Txn(order.user.value, None, pdfPrices[product], 0, Some(product), paymentId)];
      return NewTransaction;
    }

    // Dispatches by the purpose noted on the order.
    method FulfilFromCapturedPayment(payment: Payment, order: GatewayOrder) returns (ending: Ending)
      modifies this
      ensures var f := FulfilCaptured(old(Tables()), payment, order);
              ending == f.ending && Tables() == ApplyAll(old(Tables()), f.ops)
    {
      NothingToRepair(Tables(), 0);
      hide ApplyAll, FulfilPlanPurchase, FulfilServiceCharge, FulfilPdf, ToPayAfter;
      if payment.id == "" { return Failed("MISSING_PAYMENT_ID"); }
      if !payment.captured { return Failed("NOT_CAPTURED"); }
      var expected := if payment.amount != 0 then Some(payment.amount) else None;
      match order.purpose
      case ForPlan =>
        var toPay;
        ending, toPay := FulfilPlan(payment.id, order, expected);
      case ForServiceCharge => ending := FulfilService(payment.id, order, expected);
      case ForPdf(_) => ending := FulfilPdfPayment(payment.id, order, expected);
      case ForSomethingElse => return NoTransaction;
    }

    method Webhook(payment: Payment, order: GatewayOrder) returns (status: nat)
      modifies this
      ensures Did(DecideWebhook(old(Tables()), payment, order), Plain(status))
    {
      NothingToRepair(Tables(), 0);
      hide ApplyAll, FulfilCaptured;
      if payment.id == "" { return 200; }
      if !payment.ofThisOrder { return 200; }
      if !payment.captured { return 200; }
      var _ := FulfilFromCapturedPayment(payment, order);
      return 200;
    }

    method VerifyPlan(
        u: nat, plan: nat, full: bool, payment: Payment, order: GatewayOrder, signed: bool, notesMatch: bool)
      returns (answer: Answer)
      modifies this
      ensures Did(DecideVerifyPlan(old(Tables()), u, plan, full, payment, order, signed, notesMatch), answer)
    {
      NothingToRepair(Tables(), 0);
      hide ApplyAll, DecideConfirmPlan, FirstTxn, PurchaseAmounts;
      if payment.id == "" { return Plain(400); }
      if plan !in catalog || !catalog[plan].isActive || !catalog[plan].isPublished { return Plain(400); }
      var expected := PurchaseAmounts(catalog[plan], if u in charges then charges[u] else 0, full).0;
      var existing := GetSuccessTxnByPaymentId(payment.id);
      if existing.Some? {
        if existing.value.user != u { return Plain(403); }
        if existing.value.product.Some? { return Plain(400); }
        if u !in rows { return Plain(500); }
        var total, paid := existing.value.serviceCharge, rows[u].serviceChargePaid;
        return Answer(200, Some(if total > paid then total - paid else 0));
      }
      if !signed { return Plain(400); }
      if !payment.ofThisOrder || !payment.captured || payment.amount != expected { return Plain(400); }
      answer := ConfirmPlan(u, plan, full, payment.id, order, notesMatch, expected);
    }

    method ConfirmPlan(
        u: nat, plan: nat, full: bool, paymentId: string, order: GatewayOrder, notesMatch: bool, expected: nat)
      returns (answer: Answer)
      modifies this
      ensures Did(DecideConfirmPlan(old(Tables()), u, plan, full, paymentId, order, notesMatch, expected), answer)
    {
      NothingToRepair(Tables(), 0);
      hide ApplyAll, StatusOf, ToPayAfter;
      if order.purpose != ForPlan { return Plain(400); }
      if !notesMatch { return Plain(403); }
      if order.plan != Some(plan) { return Plain(400); }
      if order.full.Some? && order.full.value != full { return Plain(400); }
      var ending, toPay := FulfilPlan(paymentId, order, Some(expected));
      var owner := order.user == Some(u);
      return Answer(StatusOf(ending, owner), if ending.Failed? || !owner then None else toPay);
    }

    method VerifyService(u: nat, payment: Payment, order: GatewayOrder, signed: bool, notesMatch: bool)
      returns (answer: Answer)
      modifies this
      ensures Did(DecideVerifyService(old(Tables()), u, payment, order, signed, notesMatch), answer)
    {
      ghost var before := Tables();
      NothingToRepair(before, u);
      RepairIsAllowed(before, u);
      hide ApplyAll, FulfilServiceCharge, FirstTxn, Owing, RepairOnRead, StatusOf;
      if payment.id == "" { return Plain(400); }
      var remaining := ComputeServiceChargeRemaining(u);
      if remaining == None { return Plain(404); }
      var existing := GetSuccessTxnByPaymentId(payment.id);
      if existing.Some? {
        if existing.value.user != u { return Plain(403); }
        return Answer(200, Some(0));
      }
      if remaining.value <= 0 { return Answer(200, Some(0)); }
      if !signed { return Plain(400); }
      if !payment.ofThisOrder || !payment.captured || payment.amount != remaining.value { return Plain(400); }
      if order.purpose != ForServiceCharge { return Plain(400); }
      if !notesMatch { return Plain(403); }
      ApplyAppend(before, RepairOnRead(before, u), FulfilServiceCharge(Tables(), payment.id, order, Some(remaining.value)).ops);
      var ending := FulfilService(payment.id, order, Some(remaining.value));
      var owner := order.user == Some(u);
      return Answer(StatusOf(ending, owner), if ending.Failed? || !owner then None else Some(0));
    }

    /* -------------------------------- Requests --------------------------- */

    method LetDaysPass(days: nat) returns (status: nat)
      modifies this
      ensures Did(Decision([Pass(days)], Plain(200)), Plain(status))
    {
      ApplyOne(Tables(), Pass(days));
      today := today + days;
      return 200;
    }

    method EditCharge(u: nat, amount: nat) returns (status: nat)
      modifies this
      ensures Did(Decision([SetCharge(u, amount)], Plain(200)), Plain(status))
    {
      ApplyOne(Tables(), SetCharge(u, amount));
      charges := charges[u := amount];
      return 200;
    }

    method HandlePayment(e: Event) returns (answer: Answer)
      requires e.PurchasePlan? || e.PayRemaining? || e.Webhook? || e.VerifyPlan? || e.VerifyService?
      modifies this
      ensures Did(Decide(old(Tables()), e), answer)
    {
      hide ApplyAll, DecidePurchasePlan, DecidePayRemaining, DecideWebhook, DecideVerifyPlan, DecideVerifyService;
      match e
      case PurchasePlan(u, plan, full, online) => answer := PurchasePlan(u, plan, full, online);
      case PayRemaining(u, online) => answer := PayRemaining(u, online);
      case Webhook(payment, order) =>
        var status := Webhook(payment, order);
        answer := Plain(status);
      case VerifyPlan(u, plan, full, payment, order, signed, notesMatch) =>
        answer := VerifyPlan(u, plan, full, payment, order, signed, notesMatch);
      case VerifyService(u, payment, order, signed, notesMatch) =>
        answer := VerifyService(u, payment, order, signed, notesMatch);
    }

    method HandleProfile(e: Event) returns (answer: Answer)
      requires e.UnlockContact? || e.OpenProfile? || e.RecordView? || e.MyPlan? || e.CheckPorutham?
      modifies this
      ensures Did(Decide(old(Tables()), e), answer)
    {
      hide ApplyAll, DecideUnlockContact, DecideOpenProfile, DecideRecordView, DecideCheckPorutham, RepairIfActive;
      match e
      case UnlockContact(u, v, found, blocked, hasProfile) =>
        var status := UnlockContact(u, v, found, blocked, hasProfile);
        answer := Plain(status);
      case OpenProfile(u, v, found, blocked, hidden, hasProfile) =>
        var status := OpenProfile(u, v, found, blocked, hidden, hasProfile);
        answer := Plain(status);
      case RecordView(u, v, found, hasProfile) =>
        var status := RecordView(u, v, found, hasProfile);
        answer := Plain(status);
      case MyPlan(u) => answer := MyPlan(u);
      case CheckPorutham(u, bride, groom, found, ready) =>
        var status := CheckPorutham(u, bride, groom, found, ready);
        answer := Plain(status);
    }

    // Any request.
    method Handle(e: Event) returns (answer: Answer)
      modifies this
      ensures Did(Decide(old(Tables()), e), answer)
    {
      if e.PurchasePlan? || e.PayRemaining? || e.Webhook? || e.VerifyPlan? || e.VerifyService? {
        answer := HandlePayment(e);
        return;
      }
      if e.UnlockContact? || e.OpenProfile? || e.RecordView? || e.MyPlan? || e.CheckPorutham? {
        answer := HandleProfile(e);
        return;
      }
      hide ApplyAll, DecideSendInterest, DecideRespondInterest, DecideCancelInterest, DecideStartChat;
      match e
      case DaysPass(days) =>
        var status := LetDaysPass(days);
        answer := Plain(status);
      case ChargeEdited(u, amount) =>
        var status := EditCharge(u, amount);
        answer := Plain(status);
      case SendInterest(u, v, found, blocked) =>
        var status := SendInterest(u, v, found, blocked);
        answer := Plain(status);
      case RespondInterest(u, s, r, accept, blocked) =>
        var status := RespondInterest(u, s, r, accept, blocked);
        answer := Plain(status);
      case CancelInterest(u, s, r) =>
        var status := CancelInterest(u, s, r);
        answer := Plain(status);
      case StartChat(u, v, found, blocked) =>
        var status := StartChat(u, v, found, blocked);
        answer := Plain(status);
    }

    // A run of requests, one after the other.
    method Serve(events: seq<Event>) returns (answers: seq<Answer>)
      modifies this
      ensures Tables() == Run(Outcome(old(Tables()), []), events).st
      ensures |answers| == |events|
      ensures forall i :: 0 <= i < |events| ==>
                answers[i] == Decide(Run(Outcome(old(Tables()), []), events[..i]).st, events[i]).answer
    {
      hide Decide, ApplyAll;
      answers := [];
      for i := 0 to |events|
        invariant Tables() == Run(Outcome(old(Tables()), []), events[..i]).st
        invariant |answers| == i
        invariant forall k :: 0 <= k < i ==>
                    answers[k] == Decide(Run(Outcome(old(Tables()), []), events[..k]).st, events[k]).answer
      {
        assert events[..i + 1][..i] == events[..i];
        var answer := Handle(events[i]);
        answers := answers + [answer];
      }
      assert events[..|events|] == events;
    }
  }
}
