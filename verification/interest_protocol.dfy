/**
  The interest protocol over whole runs: no two members have pending interests in
  each other, and a sender pays at most once more than the pair has been parted.
 */
module InterestProtocol {
  import opened Options
  import opened Plans
  import opened Membership
  import opened Charges

  ghost function InterestDebits(u: nat, v: nat): Op -> bool {
    (o: Op) => o == Use(u, Interests, Person(v))
  }

  // Cancellations and rejections between two members, in either direction.
  ghost function Partings(u: nat, v: nat): Op -> bool {
    (o: Op) => o.SetInterest? && o.status in {Rejected, Cancelled} &&
               ((o.sender == u && o.receiver == v) || (o.sender == v && o.receiver == u))
  }

  // While this holds, u is not charged for an interest in v.
  ghost predicate Engaged(st: State, u: nat, v: nat) {
    st.HasInterest(u, v, Pending) || st.Connected(u, v)
  }

  ghost predicate BothPending(interests: map<(nat, nat), InterestStatus>, u: nat, v: nat) {
    (u, v) in interests && interests[(u, v)] == Pending && (v, u) in interests && interests[(v, u)] == Pending
  }

  // No interest in oneself, and never two pending interests facing each other.
  ghost predicate Proper(interests: map<(nat, nat), InterestStatus>) {
    (forall u: nat :: (u, u) !in interests) && forall u: nat, v: nat :: !BothPending(interests, u, v)
  }

  lemma SettingKeepsProper(interests: map<(nat, nat), InterestStatus>, s: nat, r: nat, x: InterestStatus)
    requires Proper(interests) && s != r
    requires x == Pending ==> !((r, s) in interests && interests[(r, s)] == Pending)
    ensures Proper(interests[(s, r) := x])
  {
    var after := interests[(s, r) := x];
    forall u: nat, v: nat ensures !BothPending(after, u, v) {
      assert !BothPending(interests, u, v);
    }
  }

  lemma OpTouchesNoInterest(st: State, op: Op)
    requires !op.SetInterest?
    ensures Apply(st, op).interests == st.interests
  {}

  lemma {:induction false} InterestsUntouched(st: State, ops: seq<Op>)
    requires forall op :: op in ops ==> !op.SetInterest?
    ensures ApplyAll(st, ops).interests == st.interests
    decreases |ops|
  {
    if ops != [] {
      OpTouchesNoInterest(st, ops[0]);
      InterestsUntouched(Apply(st, ops[0]), ops[1..]);
      hide Apply;
    }
  }

  lemma OthersSetNoInterest(st: State, e: Event)
    requires !e.SendInterest? && !e.RespondInterest? && !e.CancelInterest?
    ensures forall op :: op in Decide(st, e).ops ==> !op.SetInterest?
  {
    if IsPayment(e) {
      PaymentUpdates(st, e);
      hide Decide;
    }
  }

  // An interest is set, and then perhaps a credit consumed.
  lemma SetThenConsume(st: State, s: nat, r: nat, x: InterestStatus, u: nat, about: Target)
    ensures var ops := [SetInterest(s, r, x)] + Consume(st, u, Interests, about);
            ApplyAll(st, ops).interests == st.interests[(s, r) := x]
  {
    var ops := [SetInterest(s, r, x)] + Consume(st, u, Interests, about);
    assert ops[1..] == Consume(st, u, Interests, about);
    InterestsUntouched(Apply(st, ops[0]), ops[1..]);
  }

  lemma JustSet(st: State, s: nat, r: nat, x: InterestStatus)
    ensures ApplyAll(st, [SetInterest(s, r, x)]).interests == st.interests[(s, r) := x]
  {
    InterestsUntouched(Apply(st, SetInterest(s, r, x)), []);
  }

  ghost function Bit(b: bool): nat {
    if b then 1 else 0
  }

  // What one request does to a pair: a debit needs the pair to be apart and joins
  // it, and only a parting separates it again.
  ghost predicate PairStep(st: State, e: Event, u: nat, v: nat) {
    var ops := Decide(st, e).ops;
    Count(ops, InterestDebits(u, v)) + Bit(Engaged(st, u, v)) <=
    Count(ops, Partings(u, v)) + Bit(Engaged(ApplyAll(st, ops), u, v))
  }

  // Sending sets one interest, accepted or pending, and may cost the sender one credit; or it does nothing.
  lemma SendShape(st: State, e: Event, s: nat, r: nat, x: InterestStatus, u: nat, v: nat)
    requires e.SendInterest? && x in {Accepted, Pending}
    ensures var ops := [SetInterest(s, r, x)] + Consume(st, e.user, Interests, Person(e.receiver));
            Count(ops, InterestDebits(u, v)) <= Bit(e.user == u && e.receiver == v) &&
            ApplyAll(st, ops).interests == st.interests[(s, r) := x]
  {
    SetThenConsume(st, s, r, x, e.user, Person(e.receiver));
    CountRequest(SetInterest(s, r, x), st, e.user, Interests, Person(e.receiver), InterestDebits(u, v));
  }

  lemma SendStep(st: State, e: Event, u: nat, v: nat)
    requires Proper(st.interests) && e.SendInterest?
    ensures Proper(ApplyAll(st, Decide(st, e).ops).interests) && PairStep(st, e, u, v)
  {
    hide Consume, Count, ApplyAll, State.Can, State.Active;
    var a, b := e.user, e.receiver;
    SendShape(st, e, b, a, Accepted, u, v);
    SendShape(st, e, a, b, Pending, u, v);
    NoCount(InterestDebits(u, v));
    NoUpdates(st);
    assert !BothPending(st.interests, u, v);
    if a != b {
      SettingKeepsProper(st.interests, b, a, Accepted);
      if !st.HasInterest(b, a, Pending) {
        SettingKeepsProper(st.interests, a, b, Pending);
      }
    }
    hide Proper, BothPending;
  }

  lemma AnswerStep(st: State, e: Event, u: nat, v: nat)
    requires Proper(st.interests) && (e.RespondInterest? || e.CancelInterest?)
    ensures Proper(ApplyAll(st, Decide(st, e).ops).interests) && PairStep(st, e, u, v)
  {
    var x := if e.CancelInterest? then Cancelled else if e.accept then Accepted else Rejected;
    var op := SetInterest(e.sender, e.receiver, x);
    JustSet(st, e.sender, e.receiver, x);
    CountOne(op, InterestDebits(u, v));
    CountOne(op, Partings(u, v));
    NoCount(InterestDebits(u, v));
    NoUpdates(st);
    if e.sender != e.receiver && x != Pending {
      SettingKeepsProper(st.interests, e.sender, e.receiver, x);
    }
    hide Count, ApplyAll;
  }

  lemma OtherStep(st: State, e: Event, u: nat, v: nat)
    requires Proper(st.interests) && !e.SendInterest? && !e.RespondInterest? && !e.CancelInterest?
    ensures Proper(ApplyAll(st, Decide(st, e).ops).interests) && PairStep(st, e, u, v)
  {
    hide Decide, Count, ApplyAll;
    OthersSetNoInterest(st, e);
    InterestsUntouched(st, Decide(st, e).ops);
    NotCounted(Decide(st, e).ops, Partings(u, v));
    CreditsOfARequest(st, e, InterestDebits(u, v));
  }

  // In every run: no self-interest, never two pending interests facing each other,
  // and u has paid for v at most once more than the two have been parted.
  lemma {:induction false} InterestLaw(
      catalog: map<nat, Plan>, pdfPrices: map<string, nat>, today: int, events: seq<Event>, u: nat, v: nat)
    ensures var o := Run(Outcome(EmptyDatabase(catalog, pdfPrices, today), []), events);
            Proper(o.st.interests) &&
            Count(o.log, InterestDebits(u, v)) <= Count(o.log, Partings(u, v)) + Bit(Engaged(o.st, u, v)) <=
              Count(o.log, Partings(u, v)) + 1
  {
    var start := Outcome(EmptyDatabase(catalog, pdfPrices, today), []);
    if events != [] {
      var before, e := Run(start, events[..|events| - 1]), events[|events| - 1];
      var ops := Decide(before.st, e).ops;
      InterestLaw(catalog, pdfPrices, today, events[..|events| - 1], u, v);
      if e.SendInterest? {
        SendStep(before.st, e, u, v);
      } else if e.RespondInterest? || e.CancelInterest? {
        AnswerStep(before.st, e, u, v);
      } else {
        OtherStep(before.st, e, u, v);
      }
      CountAppend(before.log, ops, InterestDebits(u, v));
      CountAppend(before.log, ops, Partings(u, v));
      hide Decide, Count, ApplyAll;
    }
  }

  /* ------------------------- What a member is shown ---------------------- */

  // The label and the "interest sent" flag shown for the rows viewer -> other and other -> viewer.
  function InterestUiState(outgoing: Option<InterestStatus>, incoming: Option<InterestStatus>): (string, bool) {
    if outgoing == Some(Accepted) || incoming == Some(Accepted) then ("accepted", true)
    else if outgoing == Some(Pending) then ("sent", true)
    else if outgoing == Some(Rejected) then ("rejected", false)
    else ("pending", false)
  }

  function StatusOfPair(interests: map<(nat, nat), InterestStatus>, s: nat, r: nat): Option<InterestStatus> {
    if (s, r) in interests then Some(interests[(s, r)]) else None
  }

  datatype PairStates = PairStates(outgoing: Option<InterestStatus>, incoming: Option<InterestStatus>)

  // The state shown for each of many profiles, from one pass over the interest rows.
  method BulkInterestUiStates(interests: map<(nat, nat), InterestStatus>, viewer: nat, others: set<nat>)
    returns (shown: map<nat, (string, bool)>)
    requires (viewer, viewer) !in interests
    ensures shown.Keys == others
    ensures forall o :: o in others ==>
              shown[o] == InterestUiState(StatusOfPair(interests, viewer, o), StatusOfPair(interests, o, viewer))
  {
    if others == {} {
      return map[];
    }
    var rows := set pair | pair in interests && ((pair.0 == viewer && pair.1 in others) || (pair.0 in others && pair.1 == viewer));
    var byOther := map o | o in others :: PairStates(None, None);
    ghost var all := rows;
    while rows != {}
      invariant byOther.Keys == others
      invariant rows <= all
      invariant forall o :: o in others ==>
                  byOther[o].outgoing == (if (viewer, o) in all - rows then Some(interests[(viewer, o)]) else None)
      invariant forall o :: o in others ==>
                  byOther[o].incoming == (if (o, viewer) in all - rows then Some(interests[(o, viewer)]) else None)
      decreases rows
    {
      var row :| row in rows;
      var (sender, receiver) := row;
      var status := interests[row];
      if sender == viewer {
        if receiver in byOther {
          byOther := byOther[receiver := byOther[receiver].(outgoing := Some(status))];
        }
      } else if receiver == viewer {
        if sender in byOther {
          byOther := byOther[sender := byOther[sender].(incoming := Some(status))];
        }
      }
      rows := rows - {row};
    }
    shown := map o | o in byOther :: InterestUiState(byOther[o].outgoing, byOther[o].incoming);
  }

  // The flag tells a member the truth: it is set exactly when a request that passes
  // every check would do nothing, and while it is not set sending costs a credit.
  lemma FlagShownIffNothingToSend(st: State, u: nat, v: nat)
    requires Proper(st.interests) && st.Can(u, Interests) && u != v
    ensures var ops := DecideSendInterest(st, u, v, true, false).ops;
            var shown := InterestUiState(StatusOfPair(st.interests, u, v), StatusOfPair(st.interests, v, u));
            (shown.1 <==> Engaged(st, u, v)) && (shown.1 <==> ops == []) &&
            (!shown.1 && st.rows[u].Metered(Interests) ==> Use(u, Interests, Person(v)) in ops)
  {
    assert !BothPending(st.interests, u, v);
  }
}
