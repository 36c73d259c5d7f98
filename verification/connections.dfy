/**
  What sending, answering and withdrawing an interest mean to the two members: who is
  connected, what the sender is shown and who may start a chat.
 */
module Connections {
  import opened Options
  import opened Plans
  import opened Membership
  import opened Charges
  import opened InterestProtocol

  ghost function After(st: State, e: Event): State {
    ApplyAll(st, Decide(st, e).ops)
  }

  // The label and flag a member is shown for another.
  function ShownTo(st: State, viewer: nat, other: nat): (string, bool) {
    InterestUiState(StatusOfPair(st.interests, viewer, other), StatusOfPair(st.interests, other, viewer))
  }

  /* -------------------------------- Requests ----------------------------- */

  // A chat needs a connection and a credit, with another who has not blocked one. Without
  // a plan the answer says nothing about the other member.
  lemma ChatNeedsConnection(st: State, u: nat, v: nat, found: bool, blocked: bool)
    ensures var e := StartChat(u, v, found, blocked);
            (Decide(st, e).answer.status == 200 <==>
             found && u != v && !blocked && st.Connected(u, v) && st.Can(u, Chats)) &&
            (Decide(st, e).answer.status == 404 <==> st.Active(u) && !found) &&
            (Decide(st, e).answer.status == 400 <==> st.Active(u) && found && u == v) &&
            (!st.Active(u) ==> Decide(st, e) == Refuse(403)) &&
            (Decide(st, e).answer.status == 200 ==> Ordered(u, v) in After(st, e).chats)
  {
    AddedByUpdates(st, Decide(st, StartChat(u, v, found, blocked)).ops, Ordered(u, v).0, Ordered(u, v).1);
    hide ApplyAll, State.Connected;
  }

  // The receiver decides: an acceptance connects the two, and both may then chat; a
  // rejection leaves them unconnected, unless the interest the other way was accepted.
  lemma AnswerDecides(st: State, u: nat, s: nat, r: nat, accept: bool, blocked: bool)
    requires Proper(st.interests)
    ensures var e := RespondInterest(u, s, r, accept, blocked);
            var after := After(st, e);
            (Decide(st, e).answer.status == 200 <==>
             (s, r) in st.interests && r == u && !blocked && (accept ==> st.Active(u))) &&
            (Decide(st, e).answer.status == 404 <==> (s, r) !in st.interests) &&
            (Decide(st, e).answer.status == 200 ==>
             (after.Connected(s, r) <==> accept || st.HasInterest(r, s, Accepted)) &&
             ShownTo(after, s, r) ==
               (if accept || st.HasInterest(r, s, Accepted) then ("accepted", true) else ("rejected", false)) &&
             (Decide(after, StartChat(s, r, true, false)).answer.status == 200 <==>
              (accept || st.HasInterest(r, s, Accepted)) && st.Can(s, Chats)) &&
             (Decide(after, StartChat(r, s, true, false)).answer.status == 200 <==>
              (accept || st.HasInterest(r, s, Accepted)) && st.Can(r, Chats)))
  {
    var e := RespondInterest(u, s, r, accept, blocked);
    if Decide(st, e).answer.status == 200 {
      JustSet(st, s, r, if accept then Accepted else Rejected);
      AnswersKeepRows(st, e);
      ChatNeedsConnection(After(st, e), s, r, true, false);
      ChatNeedsConnection(After(st, e), r, s, true, false);
      hide ApplyAll, CanUse;
    }
  }

  lemma AnswersKeepRows(st: State, e: Event)
    requires e.RespondInterest? || e.CancelInterest?
    ensures After(st, e).rows == st.rows && After(st, e).today == st.today
  {
    var ops := Decide(st, e).ops;
    if ops != [] {
      assert ops[1..] == [];
      assert ApplyAll(st, ops) == Apply(st, ops[0]);
    }
  }

  // Only the sender withdraws, and only what is pending; it is then as if not sent.
  lemma WithdrawalUndoes(st: State, u: nat, s: nat, r: nat)
    requires Proper(st.interests)
    ensures var e := CancelInterest(u, s, r);
            (Decide(st, e).answer.status == 200 <==> s == u && st.HasInterest(s, r, Pending)) &&
            (Decide(st, e).answer.status == 404 <==> (s, r) !in st.interests) &&
            (Decide(st, e).answer.status == 403 <==> (s, r) in st.interests && s != u) &&
            (Decide(st, e).answer.status == 200 ==>
             (After(st, e).Connected(s, r) <==> st.Connected(s, r)) && !After(st, e).HasInterest(s, r, Pending) &&
             ShownTo(After(st, e), s, r) == (if st.Connected(s, r) then ("accepted", true) else ("pending", false)))
  {
    if s == u && st.HasInterest(s, r, Pending) {
      JustSet(st, s, r, Cancelled);
      hide ApplyAll;
    }
  }

  // Sending an interest to one who has sent one connects the two; otherwise the
  // interest is then on its way, if it was not already.
  lemma SendingReaches(st: State, u: nat, v: nat, found: bool, blocked: bool)
    requires Proper(st.interests)
    ensures var e := SendInterest(u, v, found, blocked);
            var after := After(st, e);
            (Decide(st, e).answer.status == 200 <==> st.Can(u, Interests) && found && u != v && !blocked) &&
            (Decide(st, e).answer.status == 404 <==> st.Can(u, Interests) && !found) &&
            (Decide(st, e).answer.status == 400 <==> st.Can(u, Interests) && found && u == v) &&
            (!st.Can(u, Interests) ==> Decide(st, e) == Refuse(403)) &&
            (Decide(st, e).answer.status == 200 ==>
             (after.Connected(u, v) <==> st.Connected(u, v) || st.HasInterest(v, u, Pending)) &&
             (after.Connected(u, v) || after.HasInterest(u, v, Pending)) &&
             ShownTo(after, u, v) == (if after.Connected(u, v) then ("accepted", true) else ("sent", true)))
  {
    if st.Can(u, Interests) && found && u != v && !blocked {
      assert !BothPending(st.interests, u, v);
      SetThenConsume(st, v, u, Accepted, u, Person(v));
      SetThenConsume(st, u, v, Pending, u, Person(v));
      NoUpdates(st);
      hide ApplyAll, Consume, CanUse, Proper;
    }
  }

  /* ------------------------------ Whole runs ----------------------------- */

  // Interest from s to r is accepted by r: by answering it, or by sending one in return while it is pending.
  ghost predicate Accepts(st: State, e: Event, s: nat, r: nat) {
    Decide(st, e).answer.status == 200 &&
    ((e.RespondInterest? && e.user == r && e.sender == s && e.receiver == r && e.accept) ||
     (e.SendInterest? && e.user == r && e.receiver == s && st.HasInterest(s, r, Pending)))
  }

  lemma AcceptedByStep(st: State, e: Event, s: nat, r: nat)
    requires After(st, e).HasInterest(s, r, Accepted)
    ensures st.HasInterest(s, r, Accepted) || Accepts(st, e, s, r)
  {
    if e.SendInterest? {
      SetThenConsume(st, e.receiver, e.user, Accepted, e.user, Person(e.receiver));
      SetThenConsume(st, e.user, e.receiver, Pending, e.user, Person(e.receiver));
      NoUpdates(st);
      hide ApplyAll, Consume, CanUse;
    } else if e.RespondInterest? {
      JustSet(st, e.sender, e.receiver, if e.accept then Accepted else Rejected);
      NoUpdates(st);
      hide ApplyAll;
    } else if e.CancelInterest? {
      JustSet(st, e.sender, e.receiver, Cancelled);
      NoUpdates(st);
      hide ApplyAll;
    } else {
      OthersSetNoInterest(st, e);
      InterestsUntouched(st, Decide(st, e).ops);
      hide Decide;
    }
  }

  // Every accepted interest goes back to its receiver's decision.
  lemma {:induction false} AcceptedGoesBack(
      catalog: map<nat, Plan>, pdfPrices: map<string, nat>, today: int, events: seq<Event>, s: nat, r: nat)
    ensures var start := Outcome(EmptyDatabase(catalog, pdfPrices, today), []);
            Run(start, events).st.HasInterest(s, r, Accepted) ==>
              exists k :: 0 <= k < |events| && Accepts(Run(start, events[..k]).st, events[k], s, r)
  {
    var start := Outcome(EmptyDatabase(catalog, pdfPrices, today), []);
    hide Decide, ApplyAll, Accepts;
    if events != [] && Run(start, events).st.HasInterest(s, r, Accepted) {
      var earlier, e := events[..|events| - 1], events[|events| - 1];
      AcceptedByStep(Run(start, earlier).st, e, s, r);
      AcceptedGoesBack(catalog, pdfPrices, today, earlier, s, r);
      if Run(start, earlier).st.HasInterest(s, r, Accepted) {
        var k :| 0 <= k < |earlier| && Accepts(Run(start, earlier[..k]).st, earlier[k], s, r);
        assert earlier[..k] == events[..k] && earlier[k] == events[k];
      }
    }
  }

  // A request that opens the conversation of a and b, who are connected.
  ghost predicate Opens(st: State, e: Event, a: nat, b: nat) {
    e.StartChat? && Ordered(e.user, e.other) == (a, b) && st.Connected(a, b) && st.Can(e.user, Chats) &&
    Decide(st, e).answer.status == 200
  }

  lemma OpenedByStep(st: State, e: Event, a: nat, b: nat)
    requires (a, b) in After(st, e).chats && (a, b) !in st.chats
    ensures Opens(st, e, a, b)
  {
    AddedByUpdates(st, Decide(st, e).ops, a, b);
    if IsPayment(e) {
      PaymentUpdates(st, e);
      hide Decide;
    }
  }

  // Nobody converses with a member to whom they have not been connected.
  lemma {:induction false} ConversationsNeedConnections(
      catalog: map<nat, Plan>, pdfPrices: map<string, nat>, today: int, events: seq<Event>, a: nat, b: nat)
    ensures var start := Outcome(EmptyDatabase(catalog, pdfPrices, today), []);
            (a, b) in Run(start, events).st.chats ==>
              exists k :: 0 <= k < |events| && Opens(Run(start, events[..k]).st, events[k], a, b)
  {
    var start := Outcome(EmptyDatabase(catalog, pdfPrices, today), []);
    hide Decide, ApplyAll, Opens;
    if events != [] && (a, b) in Run(start, events).st.chats {
      var earlier, e := events[..|events| - 1], events[|events| - 1];
      ConversationsNeedConnections(catalog, pdfPrices, today, earlier, a, b);
      if (a, b) in Run(start, earlier).st.chats {
        var k :| 0 <= k < |earlier| && Opens(Run(start, earlier[..k]).st, earlier[k], a, b);
        assert earlier[..k] == events[..k] && earlier[k] == events[k];
      } else {
        OpenedByStep(Run(start, earlier).st, e, a, b);
      }
    }
  }
}
