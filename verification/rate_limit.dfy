/**
  The fixed-window limiter in front of OTP requests.

  A cache entry holds how many requests the current window has admitted and when
  the window started; the entry lives for one window after it was last written.
  The theorem bounds how many requests any interval of one window's length can
  admit, wherever it is placed: 2 * max - 1, not max.
 */
module RateLimit {
  import opened Options

  datatype Entry = Entry(count: nat, start: int, evictAt: int)

  // What one request is told, and the entry it leaves.
  function Check(entry: Option<Entry>, max: nat, window: nat, now: int): (Option<Entry>, bool) {
    var live := if entry.Some? && now < entry.value.evictAt then entry.value else Entry(0, now, now);
    var current := if now > live.start + window then Entry(0, now, now) else live;
    if current.count >= max then (entry, false)
    else (Some(Entry(current.count + 1, current.start, now + window)), true)
  }

  datatype Request = Request(id: string, now: int)

  class Limiter {
    var cache: map<string, Entry>
    const max: nat
    const window: nat

    constructor (max: nat, window: nat)
      ensures cache == map[] && this.max == max && this.window == window
    {
      this.max, this.window := max, window;
      cache := map[];
    }

    ghost function EntryOf(id: string): Option<Entry>
      reads this
    {
      if id in cache then Some(cache[id]) else None
    }

    method CheckOtpRateLimit(id: string, now: int) returns (allowed: bool)
      modifies this
      ensures var r := Check(old(EntryOf(id)), max, window, now); allowed == r.1 && EntryOf(id) == r.0
      ensures forall k :: k != id ==> EntryOf(k) == old(EntryOf(k))
    {
      var count, start := 0, now;
      if id in cache && now < cache[id].evictAt {
        count, start := cache[id].count, cache[id].start;
      }
      if now > start + window {
        count, start := 0, now;
      }
      if count >= max {
        return false;
      }
      cache := cache[id := Entry(count + 1, start, now + window)];
      return true;
    }

    // Any sequence of requests, answered one after the other: every identifier has its
    // own run, and is admitted exactly when that run grants.
    method Serve(requests: seq<Request>) returns (allowed: seq<bool>)
      requires cache == map[]
      modifies this
      ensures |allowed| == |requests|
      ensures forall id :: EntryOf(id) == RunOf(requests, id, max, window).entry
      ensures forall id :: Admitted(requests, allowed, id) == Times(RunOf(requests, id, max, window).grants)
    {
      allowed := [];
      for i := 0 to |requests|
        invariant |allowed| == i
        invariant forall id :: EntryOf(id) == RunOf(requests[..i], id, max, window).entry
        invariant forall id :: Admitted(requests[..i], allowed, id) == Times(RunOf(requests[..i], id, max, window).grants)
      {
        var r := requests[i];
        ghost var before := allowed;
        var ok := CheckOtpRateLimit(r.id, r.now);
        allowed := allowed + [ok];
        assert requests[..i + 1] == requests[..i] + [r];
        forall id
          ensures EntryOf(id) == RunOf(requests[..i + 1], id, max, window).entry
          ensures Admitted(requests[..i + 1], allowed, id) == Times(RunOf(requests[..i + 1], id, max, window).grants)
        {
          OneMoreServed(requests[..i], before, r, ok, id, max, window);
        }
      }
      assert requests[..|requests|] == requests;
    }
  }

  /* --------------------------------- Runs -------------------------------- */

  // An admitted request: when, in the window started when, and as which of that window.
  datatype Grant = Grant(time: int, start: int, ordinal: nat)

  datatype Outcome = Outcome(entry: Option<Entry>, grants: seq<Grant>)

  ghost function Step(o: Outcome, max: nat, window: nat, now: int): Outcome {
    var r := Check(o.entry, max, window, now);
    Outcome(r.0, if r.1 then o.grants + [Grant(now, r.0.value.start, r.0.value.count)] else o.grants)
  }

  ghost function Run(times: seq<int>, max: nat, window: nat): Outcome {
    if times == [] then Outcome(None, [])
    else Step(Run(times[..|times| - 1], max, window), max, window, times[|times| - 1])
  }

  // The times at which an identifier asks, and those at which it is admitted.
  ghost function TimesOf(requests: seq<Request>, id: string): seq<int> {
    if requests == [] then []
    else
      var r := requests[|requests| - 1];
      TimesOf(requests[..|requests| - 1], id) + if r.id == id then [r.now] else []
  }

  ghost function Admitted(requests: seq<Request>, allowed: seq<bool>, id: string): seq<int>
    requires |allowed| == |requests|
  {
    if requests == [] then []
    else
      var n := |requests| - 1;
      Admitted(requests[..n], allowed[..n], id) + if requests[n].id == id && allowed[n] then [requests[n].now] else []
  }

  ghost function Times(grants: seq<Grant>): seq<int> {
    seq(|grants|, i requires 0 <= i < |grants| => grants[i].time)
  }

  ghost function RunOf(requests: seq<Request>, id: string, max: nat, window: nat): Outcome {
    Run(TimesOf(requests, id), max, window)
  }

  lemma OneMoreAnswer(requests: seq<Request>, allowed: seq<bool>, r: Request, ok: bool, id: string)
    requires |allowed| == |requests|
    ensures TimesOf(requests + [r], id) == TimesOf(requests, id) + if r.id == id then [r.now] else []
    ensures Admitted(requests + [r], allowed + [ok], id) ==
            Admitted(requests, allowed, id) + if r.id == id && ok then [r.now] else []
  {
    assert (requests + [r])[..|requests|] == requests && (allowed + [ok])[..|allowed|] == allowed;
  }

  lemma OneMoreGrant(o: Outcome, max: nat, window: nat, now: int)
    ensures Times(Step(o, max, window, now).grants) ==
            Times(o.grants) + if Check(o.entry, max, window, now).1 then [now] else []
  {
    hide Check;
  }

  // One more request, seen from the run of one identifier.
  lemma OneMoreServed(requests: seq<Request>, allowed: seq<bool>, r: Request, ok: bool, id: string, max: nat, window: nat)
    requires |allowed| == |requests|
    requires Admitted(requests, allowed, id) == Times(RunOf(requests, id, max, window).grants)
    requires r.id == id ==> ok == Check(RunOf(requests, id, max, window).entry, max, window, r.now).1
    ensures var after := RunOf(requests + [r], id, max, window);
            Admitted(requests + [r], allowed + [ok], id) == Times(after.grants) &&
            after.entry == if r.id == id then Check(RunOf(requests, id, max, window).entry, max, window, r.now).0
                           else RunOf(requests, id, max, window).entry
  {
    hide Check, Run, Times, TimesOf, Admitted;
    OneMoreAnswer(requests, allowed, r, ok, id);
    if r.id == id {
      OneMoreRequest(TimesOf(requests, id), r.now, max, window);
      OneMoreGrant(RunOf(requests, id, max, window), max, window, r.now);
    } else {
      assert TimesOf(requests + [r], id) == TimesOf(requests, id);
    }
  }

  ghost predicate Ordered(times: seq<int>) {
    forall i, j :: 0 <= i < j < |times| ==> times[i] <= times[j]
  }

  // A grant either continues the window of the one before or opens one at least a window later.
  ghost predicate Follows(a: Grant, b: Grant, window: nat) {
    a.time <= b.time &&
    ((b.start == a.start && b.ordinal == a.ordinal + 1) ||
     (b.ordinal == 1 && b.start == b.time && b.start >= a.start + window))
  }

  ghost predicate WellFormed(o: Outcome, max: nat, window: nat) {
    (forall k :: 0 <= k < |o.grants| ==>
       1 <= o.grants[k].ordinal <= max && o.grants[k].start <= o.grants[k].time <= o.grants[k].start + window &&
       (o.grants[k].ordinal == 1 ==> o.grants[k].start == o.grants[k].time)) &&
    (forall k :: 0 < k < |o.grants| ==> Follows(o.grants[k - 1], o.grants[k], window)) &&
    (o.grants == [] <==> o.entry == None) &&
    (o.entry.Some? ==>
       var last := o.grants[|o.grants| - 1];
       o.entry.value == Entry(last.ordinal, last.start, last.time + window))
  }

  lemma StepKeepsForm(o: Outcome, max: nat, window: nat, now: int)
    requires WellFormed(o, max, window)
    requires o.grants != [] ==> o.grants[|o.grants| - 1].time <= now
    ensures WellFormed(Step(o, max, window, now), max, window)
  {
    var after := Step(o, max, window, now);
    if after.grants != o.grants {
      var n := |o.grants|;
      var g := after.grants[n];
      if n > 0 {
        var last := o.grants[n - 1];
        assert Follows(last, g, window);
      }
      forall k | 0 < k < |after.grants| ensures Follows(after.grants[k - 1], after.grants[k], window) {}
    }
  }

  lemma {:induction false} RunsAreWellFormed(times: seq<int>, max: nat, window: nat)
    requires Ordered(times)
    ensures var o := Run(times, max, window);
            WellFormed(o, max, window) &&
            (o.grants != [] ==> times != [] && o.grants[|o.grants| - 1].time <= times[|times| - 1])
  {
    if times != [] {
      var earlier := times[..|times| - 1];
      RunsAreWellFormed(earlier, max, window);
      StepKeepsForm(Run(earlier, max, window), max, window, times[|times| - 1]);
    }
  }

  // The windows that a run opens start at least one window apart.
  lemma {:induction false} WindowsAreApart(times: seq<int>, max: nat, window: nat, i: nat, j: nat)
    requires Ordered(times)
    requires i <= j < |Run(times, max, window).grants|
    ensures var g := Run(times, max, window).grants;
            g[i].start == g[j].start || g[i].start + window <= g[j].start
    decreases j
  {
    RunsAreWellFormed(times, max, window);
    var g := Run(times, max, window).grants;
    if i < j {
      WindowsAreApart(times, max, window, i, j - 1);
      assert Follows(g[j - 1], g[j], window);
    }
  }

  // The next request read off the grants: it opens a window when there is none, when a
  // window's length has passed since the last grant, or more than that since the
  // window opened; otherwise it takes the next place, if one is left.
  lemma NextGrant(times: seq<int>, max: nat, window: nat, now: int)
    requires Ordered(times)
    ensures var g := Run(times, max, window).grants;
            var last := if g == [] then Grant(now, now, 0) else g[|g| - 1];
            Run(times + [now], max, window).grants ==
              if g == [] || now >= last.time + window || now > last.start + window
              then (if max == 0 then g else g + [Grant(now, now, 1)])
              else if last.ordinal < max then g + [Grant(now, last.start, last.ordinal + 1)]
              else g
  {
    RunsAreWellFormed(times, max, window);
    OneMoreRequest(times, now, max, window);
  }

  // How many requests the window that started then has admitted.
  ghost function AdmittedSince(g: seq<Grant>, start: int): nat {
    if g == [] then 0 else AdmittedSince(g[..|g| - 1], start) + if g[|g| - 1].start == start then 1 else 0
  }

  lemma {:induction false} OrdinalsCount(g: seq<Grant>, window: nat)
    requires window >= 1
    requires forall k :: 0 < k < |g| ==> Follows(g[k - 1], g[k], window)
    requires forall k :: 0 <= k < |g| ==> g[k].ordinal >= 1
    requires g != [] ==> g[0].ordinal == 1
    ensures g != [] ==> AdmittedSince(g, g[|g| - 1].start) == g[|g| - 1].ordinal
    ensures forall start :: g != [] && start > g[|g| - 1].start ==> AdmittedSince(g, start) == 0
  {
    if g != [] {
      var init, last := g[..|g| - 1], g[|g| - 1];
      OrdinalsCount(init, window);
      if init != [] {
        assert Follows(init[|init| - 1], last, window);
      }
    }
  }

  // A request is refused exactly when the last window is still running and has
  // admitted as many requests as it may.
  lemma RefusedExactlyWhenFull(times: seq<int>, max: nat, window: nat, now: int)
    requires Ordered(times) && window >= 1
    ensures var g := Run(times, max, window).grants;
            var last := if g == [] then Grant(now, now, 0) else g[|g| - 1];
            Run(times + [now], max, window).grants == g <==>
              max == 0 ||
              (g != [] && now < last.time + window && now <= last.start + window && AdmittedSince(g, last.start) == max)
  {
    RunsAreWellFormed(times, max, window);
    NextGrant(times, max, window, now);
    FirstIsFirst(times, max, window);
    OrdinalsCount(Run(times, max, window).grants, window);
  }

  lemma {:induction false} FirstIsFirst(times: seq<int>, max: nat, window: nat)
    requires Ordered(times)
    ensures var g := Run(times, max, window).grants; g != [] ==> g[0].ordinal == 1
  {
    if times != [] {
      var earlier := times[..|times| - 1];
      FirstIsFirst(earlier, max, window);
      NextGrant(earlier, max, window, times[|times| - 1]);
      assert earlier + [times[|times| - 1]] == times;
    }
  }

  // From any grant, the next window opens within max - ordinal + 1 grants.
  lemma {:induction false} NextWindow(g: seq<Grant>, max: nat, window: nat, i: nat, n: nat)
    requires forall k :: 0 <= k < |g| ==> 1 <= g[k].ordinal <= max
    requires forall k :: 0 < k < |g| ==> Follows(g[k - 1], g[k], window)
    requires i + n < |g| && g[i].ordinal + n > max
    ensures exists k :: i < k <= i + n && g[k].ordinal == 1 && g[k].start == g[k].time && g[k].time >= g[i].start + window
    decreases n
  {
    assert Follows(g[i], g[i + 1], window);
    if g[i + 1].ordinal == g[i].ordinal + 1 && g[i + 1].start == g[i].start {
      NextWindow(g, max, window, i + 1, n - 1);
    }
  }

  lemma {:induction false} TimesAreOrdered(g: seq<Grant>, window: nat, i: nat, j: nat)
    requires forall k :: 0 < k < |g| ==> Follows(g[k - 1], g[k], window)
    requires i <= j < |g|
    ensures g[i].time <= g[j].time
    decreases j
  {
    if i < j {
      TimesAreOrdered(g, window, i, j - 1);
      assert Follows(g[j - 1], g[j], window);
    }
  }

  // The first and the last of any 2 * max consecutive grants are at least a window apart.
  lemma GrantsSpread(g: seq<Grant>, max: nat, window: nat, i: nat)
    requires max >= 1 && i + 2 * max - 1 < |g|
    requires forall k :: 0 <= k < |g| ==> 1 <= g[k].ordinal <= max && g[k].start <= g[k].time
    requires g[i].ordinal == 1 ==> g[i].start == g[i].time
    requires forall k :: 0 < k < |g| ==> Follows(g[k - 1], g[k], window)
    ensures g[i].time + window <= g[i + 2 * max - 1].time
  {
    var n := max - g[i].ordinal + 1;
    NextWindow(g, max, window, i, n);
    var k :| i < k <= i + n && g[k].ordinal == 1 && g[k].start == g[k].time && g[k].time >= g[i].start + window;
    if g[i].ordinal == 1 {
      TimesAreOrdered(g, window, k, i + 2 * max - 1);
    } else {
      NextWindow(g, max, window, k, max);
      var l :| k < l <= k + max && g[l].ordinal == 1 && g[l].start == g[l].time && g[l].time >= g[k].start + window;
      TimesAreOrdered(g, window, i, k);
      TimesAreOrdered(g, window, l, i + 2 * max - 1);
    }
  }

  // How many grants fall into [from, to).
  ghost function GrantsIn(g: seq<Grant>, from: int, to: int): nat {
    if g == [] then 0
    else GrantsIn(g[..|g| - 1], from, to) + if from <= g[|g| - 1].time < to then 1 else 0
  }

  // Grants in an interval are consecutive.
  lemma {:induction false} GrantsInAreConsecutive(g: seq<Grant>, window: nat, from: int, to: int) returns (last: int)
    requires forall k :: 0 < k < |g| ==> Follows(g[k - 1], g[k], window)
    ensures GrantsIn(g, from, to) > 0 ==>
              0 <= last < |g| && GrantsIn(g, from, to) <= last + 1 &&
              (forall k :: last - GrantsIn(g, from, to) < k <= last ==> from <= g[k].time < to) &&
              (last + 1 < |g| ==> g[last + 1].time >= to)
    ensures GrantsIn(g, from, to) == 0 ==> forall k :: 0 <= k < |g| ==> !(from <= g[k].time < to)
  {
    last := -1;
    if g != [] {
      var init, e := g[..|g| - 1], g[|g| - 1];
      last := GrantsInAreConsecutive(init, window, from, to);
      if from <= e.time < to {
        if GrantsIn(init, from, to) > 0 && last + 1 < |init| {
          TimesAreOrdered(g, window, last + 1, |g| - 1);
        }
        last := |g| - 1;
      } else if GrantsIn(init, from, to) > 0 && last + 1 == |init| {
        TimesAreOrdered(g, window, last, |g| - 1);
      }
    }
  }

  // No interval as long as a window, wherever it starts, admits 2 * max requests.
  lemma AnyIntervalIsBounded(times: seq<int>, max: nat, window: nat, from: int)
    requires Ordered(times)
    ensures GrantsIn(Run(times, max, window).grants, from, from + window) <= if max == 0 then 0 else 2 * max - 1
  {
    RunsAreWellFormed(times, max, window);
    var g := Run(times, max, window).grants;
    var last := GrantsInAreConsecutive(g, window, from, from + window);
    var n := GrantsIn(g, from, from + window);
    if n > 0 {
      assert max > 0;
      if n >= 2 * max {
        GrantsSpread(g, max, window, last - 2 * max + 1);
      }
    }
  }

  // One early request, then bursts just before and just after the window it opened runs out.
  ghost function Bursts(window: nat, before: nat, after: nat): seq<int> {
    if after > 0 then Bursts(window, before, after - 1) + [window + 1]
    else if before > 0 then Bursts(window, before - 1, 0) + [window - 1]
    else [0]
  }

  lemma {:induction false} BurstsAreOrdered(window: nat, before: nat, after: nat)
    requires window >= 1
    ensures var t := Bursts(window, before, after);
            t != [] && Ordered(t) && (forall i :: 0 <= i < |t| ==> t[i] <= t[|t| - 1]) &&
            t[|t| - 1] <= if after > 0 then window + 1 else if before > 0 then window - 1 else 0
    decreases after, before
  {
    if after > 0 {
      BurstsAreOrdered(window, before, after - 1);
    } else if before > 0 {
      BurstsAreOrdered(window, before - 1, 0);
    }
  }

  ghost predicate AfterBursts(o: Outcome, window: nat, before: nat, after: nat) {
    GrantsIn(o.grants, window - 1, 2 * window - 1) == before + after &&
    o.entry == Some(if after > 0 then Entry(after, window + 1, 2 * window + 1)
                    else Entry(before + 1, 0, if before > 0 then 2 * window - 1 else window))
  }

  lemma OneMoreBurst(o: Outcome, max: nat, window: nat, before: nat, after: nat)
    requires window >= 3 && before < max && after <= max && before + after > 0
    requires AfterBursts(o, window, if after > 0 then before else before - 1, if after > 0 then after - 1 else 0)
    requires after > 0 ==> before == max - 1
    ensures AfterBursts(Step(o, max, window, if after > 0 then window + 1 else window - 1), window, before, after)
  {
    hide GrantsIn;
    var now := if after > 0 then window + 1 else window - 1;
    OneMoreIn(o.grants, Grant(now, if after > 0 then window + 1 else 0, if after > 0 then after else before + 1), window);
  }

  lemma OneMoreIn(g: seq<Grant>, e: Grant, window: nat)
    ensures GrantsIn(g + [e], window - 1, 2 * window - 1) ==
            GrantsIn(g, window - 1, 2 * window - 1) + if window - 1 <= e.time < 2 * window - 1 then 1 else 0
  {
    assert (g + [e])[..|g|] == g;
  }

  lemma OneMoreRequest(times: seq<int>, now: int, max: nat, window: nat)
    ensures Run(times + [now], max, window) == Step(Run(times, max, window), max, window, now)
  {
    assert (times + [now])[..|times|] == times;
  }

  lemma OneRequest(max: nat, window: nat)
    requires window >= 3 && max >= 1
    ensures AfterBursts(Run([0], max, window), window, 0, 0)
  {
    OneMoreRequest([], 0, max, window);
    assert [] + [0] == [0];
    var g := Step(Run([], max, window), max, window, 0).grants;
    assert g[..0] == [];
  }

  lemma {:induction false} BurstsAreAdmitted(max: nat, window: nat, before: nat, after: nat)
    requires window >= 3 && before < max && after <= max && (after > 0 ==> before == max - 1)
    ensures AfterBursts(Run(Bursts(window, before, after), max, window), window, before, after)
    decreases after, before
  {
    hide AfterBursts, Step, Check;
    if after > 0 {
      BurstsAreAdmitted(max, window, before, after - 1);
      OneMoreBurst(Run(Bursts(window, before, after - 1), max, window), max, window, before, after);
      OneMoreRequest(Bursts(window, before, after - 1), window + 1, max, window);
    } else if before > 0 {
      BurstsAreAdmitted(max, window, before - 1, 0);
      OneMoreBurst(Run(Bursts(window, before - 1, 0), max, window), max, window, before, after);
      OneMoreRequest(Bursts(window, before - 1, 0), window - 1, max, window);
    } else {
      OneRequest(max, window);
    }
  }

  // The bound is attained: the limiter does admit 2 * max - 1 requests within one window's length.
  lemma TheBoundIsAttained(max: nat, window: nat) returns (times: seq<int>, from: int)
    requires max >= 1 && window >= 3
    ensures Ordered(times) && GrantsIn(Run(times, max, window).grants, from, from + window) == 2 * max - 1
  {
    times, from := Bursts(window, max - 1, max), window - 1;
    BurstsAreOrdered(window, max - 1, max);
    BurstsAreAdmitted(max, window, max - 1, max);
  }
}
