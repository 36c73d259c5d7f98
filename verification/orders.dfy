/**
  Local records of gateway orders.

  A record is written when an order is created, when a payment for it is captured
  and when fulfilment ends, in whatever order these calls arrive.
 */
module Orders {
  import opened Options

  datatype Status = Created | Paid | Skipped | Fulfilled

  function Rank(s: Status): nat {
    match s
    case Created => 0
    case Paid => 1
    case Skipped => 1
    case Fulfilled => 2
  }

  datatype Order = Order(
    amountPaise: nat,
    user: Option<nat>,
    plan: Option<nat>,
    paymentId: string,
    status: Status,
    transaction: Option<nat>)

  const PAYMENT_ID_LENGTH := 64

  function Truncated(s: string): (t: string)
    ensures t <= s && |t| <= PAYMENT_ID_LENGTH && (t == s || |t| == PAYMENT_ID_LENGTH)
  {
    if |s| <= PAYMENT_ID_LENGTH then s else s[..PAYMENT_ID_LENGTH]
  }

  function OrElse<T>(a: Option<T>, b: Option<T>): Option<T> {
    if a.Some? then a else b
  }

  // The status a record has after it is told of a new one.
  function Advance(current: Status, next: Status): Status {
    if current != Fulfilled && (next == Fulfilled || Rank(next) >= Rank(current)) then next else current
  }

  /* --------------------------------- Events ------------------------------ */

  // Creation of an order, and the end of an attempt to fulfil it: with the
  // transaction it produced or found, or without one. `captured` marks the one
  // caller that only reports the capture after an unexpected failure.
  datatype Event =
    | Creation(orderId: string, amount: nat, user: Option<nat>, plan: Option<nat>)
    | Outcome(orderId: string, amount: nat, user: Option<nat>, plan: Option<nat>,
              paymentId: string, transaction: Option<nat>, captured: bool)
  {
    // A bare capture report carries no transaction.
    predicate FromCallers() {
      Outcome? && captured ==> transaction == None
    }

    function NewStatus(): Status
      requires Outcome?
    {
      if captured then Paid else if transaction.Some? then Fulfilled else Skipped
    }
  }

  // What is known of an order after a payload mentions it.
  ghost function Upserted(o: Option<Order>, amount: nat, user: Option<nat>, plan: Option<nat>,
                          paymentId: string, status: Status, transaction: Option<nat>): Order {
    match o
    case None => Order(amount, user, plan, Truncated(paymentId), status, transaction)
    case Some(v) =>
      Order(if amount != 0 then amount else v.amountPaise,
            OrElse(v.user, user), OrElse(v.plan, plan),
            if paymentId != "" then Truncated(paymentId) else v.paymentId,
            Advance(v.status, status),
            OrElse(transaction, v.transaction))
  }

  ghost function After(o: Option<Order>, e: Event): Order {
    match e
    case Creation(_, amount, user, plan) =>
      if o.Some? then o.value.(amountPaise := amount, user := user, plan := plan)
      else Order(amount, user, plan, "", Created, None)
    case Outcome(_, amount, user, plan, paymentId, transaction, _) =>
      Upserted(o, amount, user, plan, paymentId, e.NewStatus(), transaction)
  }

  // The record of one order after a run; calls without an order id are ignored.
  ghost function RecordAfter(events: seq<Event>, id: string): Option<Order> {
    if events == [] then None
    else
      var e := events[|events| - 1];
      var before := RecordAfter(events[..|events| - 1], id);
      if e.orderId == id && id != "" then Some(After(before, e)) else before
  }

  ghost predicate AllFromCallers(events: seq<Event>) {
    forall e :: e in events ==> e.FromCallers()
  }

  class OrderBook {
    var orders: map<string, Order>

    ghost function Find(id: string): Option<Order>
      reads this
    {
      if id in orders then Some(orders[id]) else None
    }

    // What the payment id column holds.
    ghost predicate Valid()
      reads this
    {
      forall id :: id in orders ==> |orders[id].paymentId| <= PAYMENT_ID_LENGTH
    }

    constructor ()
      ensures Valid() && orders == map[]
    {
      orders := map[];
    }

    method ApplyStatus(id: string, next: Status) returns (changed: bool)
      requires Valid() && id in orders
      modifies this
      ensures Valid()
      ensures orders == old(orders)[id := old(orders[id]).(status := Advance(old(orders[id]).status, next))]
      ensures !changed ==> orders[id].status == old(orders[id]).status
    {
      var obj := orders[id];
      if obj.status == Fulfilled {
        return false;
      }
      if next == Fulfilled {
        orders := orders[id := obj.(status := next)];
        return true;
      }
      if Rank(next) >= Rank(obj.status) {
        orders := orders[id := obj.(status := next)];
        return true;
      }
      return false;
    }

    method PersistCreatedOrder(id: string, amount: nat, user: Option<nat>, plan: Option<nat>)
      requires Valid()
      modifies this
      ensures Valid()
      ensures id == "" ==> orders == old(orders)
      ensures id != "" ==> orders == old(orders)[id := After(old(Find(id)), Creation(id, amount, user, plan))]
    {
      if id == "" {
        return;
      }
      if id in orders {
        orders := orders[id := orders[id].(amountPaise := amount, user := user, plan := plan)];
      } else {
        orders := orders[id := Order(amount, user, plan, "", Created, None)];
      }
    }

    method UpsertOrderFromPayload(
        id: string, amount: nat, user: Option<nat>, plan: Option<nat>,
        paymentId: string, status: Status, transaction: Option<nat>)
      requires Valid()
      modifies this
      ensures Valid()
      ensures id == "" ==> orders == old(orders)
      ensures id != "" ==>
                orders == old(orders)[id := Upserted(old(Find(id)), amount, user, plan, paymentId, status, transaction)]
    {
      hide Truncated, OrElse, Rank;
      if id == "" {
        return;
      }
      if id !in orders {
        orders := orders[id := Order(amount, user, plan, Truncated(paymentId), status, transaction)];
        return;
      }
      var obj := MergePayload(orders[id], amount, user, plan, paymentId, transaction);
      ghost var updated := Upserted(Some(orders[id]), amount, user, plan, paymentId, status, transaction);
      assert updated == obj.(status := Advance(obj.status, status));
      assert |obj.paymentId| <= PAYMENT_ID_LENGTH;
      hide Upserted, Advance;
      orders := orders[id := obj];
      var _ := ApplyStatus(id, status);
      assert orders == old(orders)[id := updated];
    }

    // Every field but the status.
    method MergePayload(
        known: Order, amount: nat, user: Option<nat>, plan: Option<nat>, paymentId: string, transaction: Option<nat>)
      returns (obj: Order)
      requires |known.paymentId| <= PAYMENT_ID_LENGTH
      ensures obj == Upserted(Some(known), amount, user, plan, paymentId, known.status, transaction)
    {
      obj := known;
      if amount != 0 && obj.amountPaise != amount {
        obj := obj.(amountPaise := amount);
      }
      if user.Some? && obj.user == None {
        obj := obj.(user := user);
      }
      if plan.Some? && obj.plan == None {
        obj := obj.(plan := plan);
      }
      if paymentId != "" && obj.paymentId != paymentId {
        obj := obj.(paymentId := Truncated(paymentId));
      }
      if transaction.Some? && obj.transaction != transaction {
        obj := obj.(transaction := transaction);
      }
    }

    method RecordOrderOutcome(
        id: string, amount: nat, user: Option<nat>, plan: Option<nat>,
        paymentId: string, transaction: Option<nat>, captured: bool)
      requires Valid()
      modifies this
      ensures Valid()
      ensures id == "" ==> orders == old(orders)
      ensures id != "" ==>
                orders == old(orders)[id := After(old(Find(id)), Outcome(id, amount, user, plan, paymentId, transaction, captured))]
    {
      var status;
      if captured {
        status := Paid;
      } else if transaction.Some? {
        status := Fulfilled;
      } else {
        status := Skipped;
      }
      assert Outcome(id, amount, user, plan, paymentId, transaction, captured).NewStatus() == status;
      UpsertOrderFromPayload(id, amount, user, plan, paymentId, status, transaction);
    }

    // Any sequence of calls leaves every order as its own run does.
    method Serve(events: seq<Event>)
      requires Valid() && orders == map[]
      modifies this
      ensures Valid()
      ensures forall id :: Find(id) == RecordAfter(events, id)
    {
      for i := 0 to |events|
        invariant Valid()
        invariant forall id :: Find(id) == RecordAfter(events[..i], id)
      {
        assert events[..i + 1][..i] == events[..i];
        hide After;
        match events[i]
        case Creation(id, amount, user, plan) =>
          PersistCreatedOrder(id, amount, user, plan);
        case Outcome(id, amount, user, plan, paymentId, transaction, captured) =>
          RecordOrderOutcome(id, amount, user, plan, paymentId, transaction, captured);
      }
      assert events[..|events|] == events;
    }
  }

  /* ------------------------------ Whole runs ----------------------------- */

  // A record is fulfilled exactly when it carries a transaction.
  lemma {:induction false} FulfilledIffTransaction(events: seq<Event>, id: string)
    requires AllFromCallers(events)
    ensures var o := RecordAfter(events, id);
            o.Some? ==> (o.value.status == Fulfilled <==> o.value.transaction.Some?)
  {
    if events != [] {
      var earlier, last := events[..|events| - 1], events[|events| - 1];
      assert events == earlier + [last] && last in events;
      FulfilledIffTransaction(earlier, id);
    }
  }

  // What the calls for an order have said, the latest first: the payment id last
  // reported, the amount and the transaction last given, the member and plan of the
  // last creation or else the first to be named after it, and the last outcome.
  ghost function LastPaymentId(events: seq<Event>, id: string): string {
    if events == [] then ""
    else
      var e := events[|events| - 1];
      if e.orderId == id && e.Outcome? && e.paymentId != "" then e.paymentId else LastPaymentId(events[..|events| - 1], id)
  }

  ghost function LastAmount(events: seq<Event>, id: string): nat {
    if events == [] then 0
    else
      var e := events[|events| - 1];
      if e.orderId == id && (e.Creation? || e.amount != 0) then e.amount else LastAmount(events[..|events| - 1], id)
  }

  ghost function LastTransaction(events: seq<Event>, id: string): Option<nat> {
    if events == [] then None
    else
      var e := events[|events| - 1];
      if e.orderId == id && e.Outcome? && e.transaction.Some? then e.transaction else LastTransaction(events[..|events| - 1], id)
  }

  ghost function NamedMember(e: Event): Option<nat> {
    e.user
  }

  ghost function NamedPlan(e: Event): Option<nat> {
    e.plan
  }

  ghost function FirstNamed(events: seq<Event>, id: string, who: Event -> Option<nat>): Option<nat> {
    if events == [] then None
    else
      var e, before := events[|events| - 1], FirstNamed(events[..|events| - 1], id, who);
      if e.orderId != id || (e.Outcome? && before.Some?) then before else who(e)
  }

  ghost function LastReport(events: seq<Event>, id: string): Status {
    if events == [] then Created
    else
      var e := events[|events| - 1];
      if e.orderId != id || e.Creation? then LastReport(events[..|events| - 1], id)
      else if e.captured then Paid
      else if e.transaction == None then Skipped
      else Fulfilled
  }

  // The record holds what its calls have said; its status is the last one reported,
  // unless the order has been fulfilled before.
  lemma {:induction false} RecordFollowsCalls(events: seq<Event>, id: string)
    requires id != "" && RecordAfter(events, id).Some?
    ensures var o := RecordAfter(events, id).value;
            o.paymentId == Truncated(LastPaymentId(events, id)) &&
            o.amountPaise == LastAmount(events, id) &&
            o.transaction == LastTransaction(events, id) &&
            o.user == FirstNamed(events, id, NamedMember) &&
            o.plan == FirstNamed(events, id, NamedPlan) &&
            (o.status != Fulfilled ==> o.status == LastReport(events, id))
  {
    var earlier := events[..|events| - 1];
    if RecordAfter(earlier, id).Some? {
      RecordFollowsCalls(earlier, id);
    } else {
      NothingSaid(earlier, id);
    }
  }

  lemma {:induction false} NothingSaid(events: seq<Event>, id: string)
    requires RecordAfter(events, id) == None && id != ""
    ensures LastPaymentId(events, id) == "" && LastAmount(events, id) == 0 && LastTransaction(events, id) == None
    ensures FirstNamed(events, id, NamedMember) == None && FirstNamed(events, id, NamedPlan) == None
    ensures LastReport(events, id) == Created
  {
    if events != [] {
      NothingSaid(events[..|events| - 1], id);
    }
  }

  // Whatever comes later, a record keeps existing, its status rank never falls and fulfilment is final.
  lemma {:induction false} StatusNeverFalls(events: seq<Event>, later: seq<Event>, id: string)
    requires RecordAfter(events, id).Some?
    ensures RecordAfter(events + later, id).Some?
    ensures Rank(RecordAfter(events, id).value.status) <= Rank(RecordAfter(events + later, id).value.status)
    ensures RecordAfter(events, id).value.status == Fulfilled ==> RecordAfter(events + later, id).value.status == Fulfilled
  {
    if later == [] {
      assert events + later == events;
    } else {
      StatusNeverFalls(events, later[..|later| - 1], id);
      assert (events + later)[..|events + later| - 1] == events + later[..|later| - 1];
    }
  }

  ghost predicate Fulfils(e: Event, id: string) {
    e.Outcome? && !e.captured && e.transaction.Some? && e.orderId == id
  }

  // An order ends fulfilled exactly when some call reported a transaction for it.
  lemma {:induction false} EndsFulfilledIff(events: seq<Event>, id: string)
    requires id != ""
    ensures RecordAfter(events, id).Some? && RecordAfter(events, id).value.status == Fulfilled <==>
            exists e :: e in events && Fulfils(e, id)
  {
    if events != [] {
      var earlier, last := events[..|events| - 1], events[|events| - 1];
      EndsFulfilledIff(earlier, id);
      assert events == earlier + [last] && last in events;
      assert forall e :: e in events <==> e in earlier || e == last;
    }
  }

  // So the order of the calls does not matter.
  lemma OrderOfCallsIsImmaterial(events: seq<Event>, shuffled: seq<Event>, id: string)
    requires multiset(events) == multiset(shuffled) && id != ""
    ensures RecordAfter(events, id).Some? <==> RecordAfter(shuffled, id).Some?
    ensures RecordAfter(events, id).Some? ==>
              (RecordAfter(events, id).value.status == Fulfilled <==> RecordAfter(shuffled, id).value.status == Fulfilled)
  {
    forall e ensures e in events <==> e in shuffled {
      assert e in multiset(events) <==> e in events;
      assert e in multiset(shuffled) <==> e in shuffled;
    }
    EndsFulfilledIff(events, id);
    EndsFulfilledIff(shuffled, id);
    KnownIff(events, id);
    KnownIff(shuffled, id);
  }

  lemma {:induction false} KnownIff(events: seq<Event>, id: string)
    requires id != ""
    ensures RecordAfter(events, id).Some? <==> exists e :: e in events && e.orderId == id
  {
    if events != [] {
      var earlier, last := events[..|events| - 1], events[|events| - 1];
      KnownIff(earlier, id);
      assert events == earlier + [last] && last in events;
      assert forall e :: e in events <==> e in earlier || e == last;
    }
  }
}
