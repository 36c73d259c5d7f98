/**
  Subscriptions: the plan a member holds, its five metered allowances, and what a
  purchase, a payment and a use do to it.

  Amounts are whole paise, dates day ordinals. A limit of 0 means unlimited.
 */
module Plans {
  import opened Options

  datatype Meter = ProfileViews | Interests | Chats | Horoscopes | Contacts

  // One number per meter.
  datatype Quota = Quota(profileViews: nat, interests: nat, chats: nat, horoscopes: nat, contacts: nat)
  {
    function Of(m: Meter): nat {
      match m
      case ProfileViews => profileViews
      case Interests => interests
      case Chats => chats
      case Horoscopes => horoscopes
      case Contacts => contacts
    }

    function Plus(m: Meter, n: nat): (q: Quota)
      ensures forall k: Meter :: q.Of(k) == Of(k) + if k == m then n else 0
    {
      match m
      case ProfileViews => this.(profileViews := profileViews + n)
      case Interests => this.(interests := interests + n)
      case Chats => this.(chats := chats + n)
      case Horoscopes => this.(horoscopes := horoscopes + n)
      case Contacts => this.(contacts := contacts + n)
    }
  }

  const NOTHING := Quota(0, 0, 0, 0, 0)

  datatype Plan = Plan(id: nat, price: nat, durationDays: nat, limits: Quota, isActive: bool, isPublished: bool)

  datatype UserPlan = UserPlan(
    plan: Plan,
    pricePaid: nat,
    serviceCharge: nat,
    serviceChargePaid: nat,
    bonus: Quota,
    used: Quota,
    validFrom: int,
    validUntil: Option<int>,
    isActive: bool)
  {
    predicate Expired(today: int) {
      validUntil.Some? && validUntil.value < today
    }

    // The subscription that lets a member use the service.
    predicate Usable(today: int) {
      isActive && plan.isActive && !Expired(today)
    }

    // The subscription a purchase continues; the plan itself may have been retired.
    predicate Current(today: int) {
      isActive && !Expired(today)
    }

    predicate Metered(m: Meter) {
      plan.limits.Of(m) != 0
    }

    // Credits left on a meter; on an unlimited meter, credits parked by an earlier purchase.
    function Left(m: Meter): nat {
      var granted := plan.limits.Of(m) + bonus.Of(m);
      if granted >= used.Of(m) then granted - used.Of(m) else 0
    }

    // What a purchase carries over.
    function Carry(m: Meter): nat {
      if Metered(m) then Left(m) else 0
    }

    function Carried(): (q: Quota)
      ensures forall m: Meter :: q.Of(m) == Carry(m)
    {
      Quota(Carry(ProfileViews), Carry(Interests), Carry(Chats), Carry(Horoscopes), Carry(Contacts))
    }

    // What a purchase drops: everything after a lapse, parked credits otherwise.
    function Dropped(today: int): (q: Quota)
      ensures forall m: Meter :: q.Of(m) == Left(m) - if Current(today) then Carry(m) else 0
    {
      var kept := if Current(today) then Carried() else NOTHING;
      Quota(Left(ProfileViews) - kept.Of(ProfileViews), Left(Interests) - kept.Of(Interests),
            Left(Chats) - kept.Of(Chats), Left(Horoscopes) - kept.Of(Horoscopes), Left(Contacts) - kept.Of(Contacts))
    }

    // Service charge credited so far; the registration fee counts when nothing else is recorded.
    function EffectivePaid(): nat {
      if NeedsRepair() then pricePaid else serviceChargePaid
    }

    // The registration fee has not been credited yet.
    predicate NeedsRepair() {
      serviceChargePaid == 0 && pricePaid > 0
    }

    function Repaired(): UserPlan {
      this.(serviceChargePaid := EffectivePaid())
    }

    function Outstanding(): int {
      serviceCharge - EffectivePaid()
    }

    // What the answer to a purchase shows as still to pay, from the columns as written.
    function ShownAfterPurchase(): int {
      serviceCharge - serviceChargePaid
    }

    function WithUse(m: Meter): UserPlan {
      this.(used := used.Plus(m, 1))
    }

    function Settled(): UserPlan {
      this.(serviceChargePaid := serviceCharge)
    }

    // Never more used than granted, and nothing recorded on an unlimited meter.
    ghost predicate InBalance() {
      forall m: Meter :: used.Of(m) <= (if Metered(m) then plan.limits.Of(m) + bonus.Of(m) else 0)
    }
  }

  function Usable(row: Option<UserPlan>, today: int): bool {
    row.Some? && row.value.Usable(today)
  }

  // May the member perform the action behind a meter?
  function CanUse(row: Option<UserPlan>, m: Meter, today: int): bool {
    Usable(row, today) && (!row.value.Metered(m) || row.value.Left(m) > 0)
  }

  // The amount charged, and the service charge credited by it.
  function PurchaseAmounts(plan: Plan, charge: nat, full: bool): (r: (nat, nat))
    ensures full ==> r.0 + plan.price == (if charge > plan.price then charge else plan.price) && r.1 == charge
    ensures !full ==> r.0 == r.1 == plan.price
  {
    if full then (if charge > plan.price then charge - plan.price else 0, charge) else (plan.price, plan.price)
  }

  function Continues(prior: Option<UserPlan>, today: int): bool {
    prior.Some? && prior.value.Current(today)
  }

  // The subscription after a purchase.
  function Purchased(prior: Option<UserPlan>, plan: Plan, charge: nat, full: bool, today: int): UserPlan {
    var renews := Continues(prior, today) && prior.value.plan.id == plan.id;
    UserPlan(
      plan,
      plan.price,
      if renews && prior.value.serviceCharge != 0 then prior.value.serviceCharge else charge,
      if renews then prior.value.EffectivePaid() else PurchaseAmounts(plan, charge, full).1,
      if Continues(prior, today) then prior.value.Carried() else NOTHING,
      NOTHING,
      today,
      Some((if Continues(prior, today) && prior.value.validUntil.Some? then prior.value.validUntil.value else today) + plan.durationDays),
      true)
  }

  /* ------------------------------ One purchase --------------------------- */

  function Held(row: Option<UserPlan>, m: Meter): nat {
    if row.Some? then row.value.Left(m) else 0
  }

  function DroppedBy(prior: Option<UserPlan>, today: int): Quota {
    if prior.Some? then prior.value.Dropped(today) else NOTHING
  }

  // Nothing is created or lost by a purchase other than the new allowance and what it drops.
  lemma PurchaseConserves(prior: Option<UserPlan>, plan: Plan, charge: nat, full: bool, today: int, m: Meter)
    ensures Purchased(prior, plan, charge, full, today).Left(m) + DroppedBy(prior, today).Of(m) == Held(prior, m) + plan.limits.Of(m)
    ensures Purchased(prior, plan, charge, full, today).InBalance()
  {}

  // The repair of old rows changes no allowance, no validity and nothing owed; a
  // second repair changes nothing at all.
  lemma RepairIsInvisible(row: UserPlan, today: int)
    ensures var r := row.Repaired();
            r.Usable(today) == row.Usable(today) && r.Current(today) == row.Current(today) &&
            r.Outstanding() == row.Outstanding() && r.EffectivePaid() == row.EffectivePaid() && r.isActive == row.isActive &&
            (forall m: Meter :: r.Metered(m) == row.Metered(m) && r.Left(m) == row.Left(m)) &&
            r.Carried() == row.Carried() && r.Dropped(today) == row.Dropped(today) && r.Repaired() == r
  {}

  // The repair does write: exactly when the fee has not been credited yet.
  lemma RepairWritesIff(row: UserPlan)
    ensures row.Repaired().serviceChargePaid != row.serviceChargePaid <==> row.NeedsRepair()
    ensures row.Repaired() != row <==> row.NeedsRepair()
    ensures !row.Repaired().NeedsRepair()
  {}

  // While a metered subscription is active, a purchase adds exactly the new plan's allowance.
  lemma PurchaseTopsUp(prior: UserPlan, plan: Plan, charge: nat, full: bool, today: int, m: Meter)
    requires prior.Current(today) && prior.Metered(m)
    ensures Purchased(Some(prior), plan, charge, full, today).Left(m) == prior.Left(m) + plan.limits.Of(m)
  {}

  // A purchase drops all that was left, if it comes after a lapse or leaves an unlimited
  // meter, and otherwise nothing.
  lemma DropsOnlyAfterLapseOrUnlimited(prior: Option<UserPlan>, today: int, m: Meter)
    ensures DroppedBy(prior, today).Of(m) ==
            if prior.Some? && prior.value.isActive && prior.value.plan.limits.Of(m) != 0 &&
               (prior.value.validUntil.Some? ==> today <= prior.value.validUntil.value)
            then 0 else Held(prior, m)
  {}

  // What a purchase other than a renewal leaves owed: the fee counts toward the charge,
  // and payment in full leaves nothing, or the fee to the member's credit while no
  // charge applies.
  lemma PurchaseOwes(prior: Option<UserPlan>, plan: Plan, charge: nat, full: bool, today: int)
    requires !(Continues(prior, today) && prior.value.plan.id == plan.id)
    ensures var row := Purchased(prior, plan, charge, full, today);
            row.serviceCharge == charge &&
            row.Outstanding() == (if !full || charge == 0 then charge - plan.price else 0) &&
            row.ShownAfterPurchase() == (if full then 0 else charge - plan.price)
  {}

  // What is shown after any purchase is what is owed, unless the fee is still to be credited.
  lemma PurchaseShowsWhatIsOwed(prior: Option<UserPlan>, plan: Plan, charge: nat, full: bool, today: int)
    ensures var row := Purchased(prior, plan, charge, full, today);
            row.ShownAfterPurchase() == row.Outstanding() <==> !row.NeedsRepair()
  {}

  // Renewing the same plan leaves what is still owed as it was, exactly when a total
  // is on record or none applies now.
  lemma RenewalKeepsOutstanding(prior: UserPlan, plan: Plan, charge: nat, full: bool, today: int)
    requires prior.Current(today) && prior.plan.id == plan.id
    requires prior.pricePaid == plan.price
    ensures Purchased(Some(prior), plan, charge, full, today).Outstanding() == prior.Outstanding() <==>
            prior.serviceCharge > 0 || charge == 0
  {}
}
