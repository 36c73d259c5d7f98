/**
  What every request costs, exactly: a credit for each first unlock, contact, chat,
  match and interest made while the meter is limited, and nothing else.
 */
module Costs {
  import opened Options
  import opened Plans
  import opened Membership
  import opened Charges
  import opened InterestProtocol
  import opened Connections

  // Someone whose plan limits a meter.
  ghost predicate Limited(st: State, u: nat, m: Meter) {
    u in st.rows && st.rows[u].Metered(m)
  }

  /* --------------------------- What is due, when ------------------------- */

  // For v's profile, when u's request unlocks it for the first time.
  ghost function ViewDue(u: nat, v: nat): (State, Event) -> nat {
    (st: State, e: Event) =>
      Bit(!st.Unlocked(u, v) && After(st, e).Unlocked(u, v) && Limited(st, u, ProfileViews))
  }

  // For v's contact details, every time they are given out.
  ghost function ContactDue(u: nat, v: nat): (State, Event) -> nat {
    (st: State, e: Event) =>
      Bit(e.UnlockContact? && e.user == u && e.target == v && Decide(st, e).answer.status == 200 && Limited(st, u, Contacts))
  }

  // For a conversation, from the one who starts it.
  ghost function ChatDue(a: nat, b: nat): (State, Event) -> nat {
    (st: State, e: Event) =>
      Bit(e.StartChat? && Ordered(a, b) !in st.chats && Ordered(a, b) in After(st, e).chats && Limited(st, e.user, Chats))
  }

  // For a couple, from the one who has it matched first.
  ghost function MatchDue(bride: nat, groom: nat): (State, Event) -> nat {
    (st: State, e: Event) =>
      Bit(e.CheckPorutham? && (bride, groom) !in st.matches && (bride, groom) in After(st, e).matches &&
          Limited(st, e.user, Horoscopes))
  }

  // For an interest sent to someone with whom no interest is accepted or on its way.
  ghost function InterestDue(u: nat, v: nat): (State, Event) -> nat {
    (st: State, e: Event) =>
      Bit(e.SendInterest? && e.user == u && e.receiver == v && Decide(st, e).answer.status == 200 &&
          !Engaged(st, u, v) && Limited(st, u, Interests))
  }

  ghost function ContactDebits(u: nat, v: nat): Op -> bool {
    (o: Op) => o == Use(u, Contacts, Person(v))
  }

  /* ------------------------------ One request ---------------------------- */

  // Only a request of the viewer, with a running plan, unlocks a profile.
  lemma UnlocksAreOwn(st: State, e: Event, u: nat, v: nat)
    requires Touch(u, v, true) in Decide(st, e).ops
    ensures (e.UnlockContact? || e.OpenProfile?) && e.user == u && e.target == v && st.Active(u)
  {
    if IsPayment(e) {
      PaymentUpdates(st, e);
      hide Decide;
    }
  }

  lemma ViewCost(st: State, e: Event, u: nat, v: nat)
    ensures Count(Decide(st, e).ops, ViewDebits(u, v)) == ViewDue(u, v)(st, e)
  {
    var ops := Decide(st, e).ops;
    AddedByUpdates(st, ops, u, v);
    CreditsOfARequest(st, e, ViewDebits(u, v));
    if Touch(u, v, true) in ops {
      UnlocksAreOwn(st, e, u, v);
    }
    hide Decide, ApplyAll, Count, State.Unlocked;
    assert ViewDue(u, v)(st, e) ==
           Bit(!st.Unlocked(u, v) && After(st, e).Unlocked(u, v) && Limited(st, u, ProfileViews));
  }

  lemma ContactCost(st: State, e: Event, u: nat, v: nat)
    ensures Count(Decide(st, e).ops, ContactDebits(u, v)) == ContactDue(u, v)(st, e)
  {
    CreditsOfARequest(st, e, ContactDebits(u, v));
    if e.UnlockContact? {
      assert Decide(st, e).answer.status == 200 ==> st.Active(e.user);
      hide DecideUnlockContact, Count;
    } else {
      hide Decide, Count;
    }
  }

  lemma ChatCost(st: State, e: Event, a: nat, b: nat)
    ensures Count(Decide(st, e).ops, ChatDebits(a, b)) == ChatDue(a, b)(st, e)
  {
    var low, high := Ordered(a, b).0, Ordered(a, b).1;
    AddedByUpdates(st, Decide(st, e).ops, low, high);
    CreditsOfARequest(st, e, ChatDebits(a, b));
    if e.StartChat? {
      AddedByUpdates(st, Decide(st, e).ops, Ordered(e.user, e.other).0, Ordered(e.user, e.other).1);
      if (low, high) in After(st, e).chats && (low, high) !in st.chats {
        OpenedByStep(st, e, low, high);
      }
    }
    hide Decide, ApplyAll, Count, State.Connected;
    assert ChatDue(a, b)(st, e) ==
           Bit(e.StartChat? && Ordered(a, b) !in st.chats && Ordered(a, b) in After(st, e).chats && Limited(st, e.user, Chats));
  }

  lemma MatchCost(st: State, e: Event, bride: nat, groom: nat)
    ensures Count(Decide(st, e).ops, MatchDebits(bride, groom)) == MatchDue(bride, groom)(st, e)
  {
    AddedByUpdates(st, Decide(st, e).ops, bride, groom);
    CreditsOfARequest(st, e, MatchDebits(bride, groom));
    if e.CheckPorutham? {
      assert Decide(st, e).ops != [] ==> st.Active(e.user);
      assert AddMatch(bride, groom) in Decide(st, e).ops ==> e.bride == bride && e.groom == groom;
    }
    hide Decide, ApplyAll, Count;
    assert MatchDue(bride, groom)(st, e) ==
           Bit(e.CheckPorutham? && (bride, groom) !in st.matches && (bride, groom) in After(st, e).matches &&
               Limited(st, e.user, Horoscopes));
  }

  lemma InterestCost(st: State, e: Event, u: nat, v: nat)
    requires Proper(st.interests)
    ensures Count(Decide(st, e).ops, InterestDebits(u, v)) == InterestDue(u, v)(st, e)
  {
    CreditsOfARequest(st, e, InterestDebits(u, v));
    if e.SendInterest? {
      assert !BothPending(st.interests, e.user, e.receiver);
      hide Count, Proper;
    } else {
      hide Decide, Count;
    }
  }

  // Whoever may view profiles and asks for one unlocks it; nobody else does.
  lemma OpeningUnlocks(st: State, u: nat, v: nat, found: bool, blocked: bool, hidden: bool, hasProfile: bool)
    ensures var e := OpenProfile(u, v, found, blocked, hidden, hasProfile);
            (Decide(st, e).answer.status == 200 <==> found && u != v && !blocked && !hidden) &&
            (After(st, e).Unlocked(u, v) <==>
             st.Unlocked(u, v) || (Decide(st, e).answer.status == 200 && hasProfile && st.Can(u, ProfileViews))) &&
            ((u, v) in After(st, e).views <==>
             (u, v) in st.views || (Decide(st, e).answer.status == 200 && hasProfile && st.Can(u, ProfileViews))) &&
            (Decide(st, e).answer.status == 404 <==> !found || (u != v && !blocked && hidden)) &&
            (Decide(st, e).answer.status == 400 <==> found && u == v)
  {
    AddedByUpdates(st, Decide(st, OpenProfile(u, v, found, blocked, hidden, hasProfile)).ops, u, v);
    hide ApplyAll;
  }

  // Contact details are given out, and the profile unlocked, exactly to those who may have both.
  lemma ContactsUnlock(st: State, u: nat, v: nat, found: bool, blocked: bool, hasProfile: bool)
    ensures var e := UnlockContact(u, v, found, blocked, hasProfile);
            (Decide(st, e).answer.status == 200 <==>
             found && u != v && !blocked && hasProfile && st.Can(u, Contacts) &&
             (st.Unlocked(u, v) || st.Can(u, ProfileViews))) &&
            (After(st, e).Unlocked(u, v) <==> st.Unlocked(u, v) || Decide(st, e).answer.status == 200) &&
            (u in st.rows && !st.Active(u) ==> Decide(st, e) == Refuse(403)) &&
            (Decide(st, e).answer.status == 404 <==>
             !(u in st.rows && !st.Active(u)) && (!found || (u != v && !blocked && st.Can(u, Contacts) && !hasProfile))) &&
            (Decide(st, e).answer.status == 400 <==> !(u in st.rows && !st.Active(u)) && found && u == v)
  {
    AddedByUpdates(st, Decide(st, UnlockContact(u, v, found, blocked, hasProfile)).ops, u, v);
    hide ApplyAll;
  }

  // Recording a view leaves a row for it and unlocks nothing.
  lemma ViewsAreRecorded(st: State, u: nat, v: nat, found: bool, hasProfile: bool)
    ensures var e := RecordView(u, v, found, hasProfile);
            (Decide(st, e).answer.status == 200 <==> found && u != v && hasProfile) &&
            (Decide(st, e).answer.status == 400 <==> found && u == v) &&
            ((u, v) in After(st, e).views <==> (u, v) in st.views || Decide(st, e).answer.status == 200) &&
            (After(st, e).Unlocked(u, v) <==> st.Unlocked(u, v))
  {
    AddedByUpdates(st, Decide(st, RecordView(u, v, found, hasProfile)).ops, u, v);
    hide ApplyAll;
  }

  // A couple is matched for whoever has a plan, and a credit if it is matched for the first time.
  lemma MatchingRecords(st: State, u: nat, bride: nat, groom: nat, found: bool, ready: bool)
    ensures var e := CheckPorutham(u, bride, groom, found, ready);
            (Decide(st, e).answer.status == 200 <==>
             st.Active(u) && found && ready && ((bride, groom) in st.matches || st.Can(u, Horoscopes))) &&
            ((bride, groom) in After(st, e).matches <==> (bride, groom) in st.matches || Decide(st, e).answer.status == 200) &&
            (Decide(st, e).answer.status == 404 <==> st.Active(u) && !found) &&
            (Decide(st, e).answer.status == 400 <==> st.Active(u) && found && !ready)
  {
    AddedByUpdates(st, Decide(st, CheckPorutham(u, bride, groom, found, ready)).ops, bride, groom);
    hide ApplyAll;
  }

  /* ------------------------------ Whole runs ----------------------------- */

  ghost function DueOver(start: Outcome, events: seq<Event>, due: (State, Event) -> nat): nat {
    if events == [] then 0
    else
      var earlier := events[..|events| - 1];
      DueOver(start, earlier, due) + due(Run(start, earlier).st, events[|events| - 1])
  }

  lemma {:induction false} CostsAddUp(start: Outcome, events: seq<Event>, p: Op -> bool, due: (State, Event) -> nat)
    requires forall k :: 0 <= k < |events| ==>
               Count(Decide(Run(start, events[..k]).st, events[k]).ops, p) == due(Run(start, events[..k]).st, events[k])
    ensures Count(Run(start, events).log, p) == Count(start.log, p) + DueOver(start, events, due)
  {
    hide Decide, Count, ApplyAll;
    if events != [] {
      var earlier, e := events[..|events| - 1], events[|events| - 1];
      forall k | 0 <= k < |earlier|
        ensures Count(Decide(Run(start, earlier[..k]).st, earlier[k]).ops, p) == due(Run(start, earlier[..k]).st, earlier[k])
      {
        assert earlier[..k] == events[..k] && earlier[k] == events[k];
      }
      CostsAddUp(start, earlier, p, due);
      assert events[..|events| - 1] == earlier;
      CountAppend(Run(start, earlier).log, Decide(Run(start, earlier).st, e).ops, p);
    }
  }

  // Over any run, what has been debited is what was due, on all five meters.
  lemma DebitsAreDues(
      catalog: map<nat, Plan>, pdfPrices: map<string, nat>, today: int, events: seq<Event>, a: nat, b: nat)
    ensures var start := Outcome(EmptyDatabase(catalog, pdfPrices, today), []);
            var log := Run(start, events).log;
            Count(log, ViewDebits(a, b)) == DueOver(start, events, ViewDue(a, b)) &&
            Count(log, ContactDebits(a, b)) == DueOver(start, events, ContactDue(a, b)) &&
            Count(log, ChatDebits(a, b)) == DueOver(start, events, ChatDue(a, b)) &&
            Count(log, MatchDebits(a, b)) == DueOver(start, events, MatchDue(a, b)) &&
            Count(log, InterestDebits(a, b)) == DueOver(start, events, InterestDue(a, b))
  {
    hide Decide, Run, DueOver, ViewDue, ContactDue, ChatDue, MatchDue, InterestDue, Proper;
    var start := Outcome(EmptyDatabase(catalog, pdfPrices, today), []);
    forall k | 0 <= k < |events|
      ensures var st, e := Run(start, events[..k]).st, events[k];
              Count(Decide(st, e).ops, ViewDebits(a, b)) == ViewDue(a, b)(st, e) &&
              Count(Decide(st, e).ops, ContactDebits(a, b)) == ContactDue(a, b)(st, e) &&
              Count(Decide(st, e).ops, ChatDebits(a, b)) == ChatDue(a, b)(st, e) &&
              Count(Decide(st, e).ops, MatchDebits(a, b)) == MatchDue(a, b)(st, e) &&
              Count(Decide(st, e).ops, InterestDebits(a, b)) == InterestDue(a, b)(st, e)
    {
      var st := Run(start, events[..k]).st;
      ViewCost(st, events[k], a, b);
      ContactCost(st, events[k], a, b);
      ChatCost(st, events[k], a, b);
      MatchCost(st, events[k], a, b);
      InterestLaw(catalog, pdfPrices, today, events[..k], a, b);
      InterestCost(st, events[k], a, b);
    }
    CostsAddUp(start, events, ViewDebits(a, b), ViewDue(a, b));
    CostsAddUp(start, events, ContactDebits(a, b), ContactDue(a, b));
    CostsAddUp(start, events, ChatDebits(a, b), ChatDue(a, b));
    CostsAddUp(start, events, MatchDebits(a, b), MatchDue(a, b));
    CostsAddUp(start, events, InterestDebits(a, b), InterestDue(a, b));
  }
}
