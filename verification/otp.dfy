/**
  One-time passwords: a cache in front of a database record.

  The cache may lose any entry at any time. `RecordVerify` decides from the
  database record alone; the class keeps a cache as the program does and is
  proved to decide the same and to leave the same record. A second, independent
  reading, `Decide`, looks only at the history of what was issued and answered.

  A submitted code is represented by its digest; `whitelisted` says that the
  identifier and code match an active dummy-OTP phone.
 */
module Otp {
  import opened Options

  datatype CacheEntry = CacheEntry(digest: int, attempts: nat, expiresAt: int)

  datatype Record = Record(digest: int, attempts: nat, expiresAt: int, verified: bool)

  datatype Reply = Accepted | UnknownOrUsed | TooManyAttempts | Expired | WrongCode

  /* --------------------------- The record alone -------------------------- */

  // What a verification answers, and the record it leaves.
  function RecordVerify(rec: Option<Record>, limit: nat, digest: int, whitelisted: bool, now: int)
    : (r: (Option<Record>, Reply))
  {
    match rec
    case None => (None, if whitelisted then Accepted else UnknownOrUsed)
    case Some(v) =>
      if whitelisted then (Some(v.(verified := true)), Accepted)
      else if v.verified then (rec, UnknownOrUsed)
      else if v.attempts >= limit then (rec, TooManyAttempts)
      else if now > v.expiresAt then (rec, Expired)
      else if v.digest != digest then (Some(v.(attempts := v.attempts + 1)), WrongCode)
      else (Some(v.(verified := true)), Accepted)
  }

  function Lookup<V>(m: map<string, V>, id: string): Option<V> {
    if id in m then Some(m[id]) else None
  }

  function Store(m: map<string, Record>, id: string, r: Option<Record>): map<string, Record> {
    match r
    case None => m
    case Some(v) => m[id := v]
  }

  /* ------------------------------ The service ---------------------------- */

  // The cached entry of an identifier, when there is one, repeats its record, which is unused.
  ghost predicate Coherent(cache: map<string, CacheEntry>, records: map<string, Record>) {
    forall id :: id in cache ==>
      id in records && !records[id].verified &&
      records[id] == Record(cache[id].digest, cache[id].attempts, cache[id].expiresAt, false)
  }

  class OtpService {
    var cache: map<string, CacheEntry>
    var records: map<string, Record>
    const limit: nat
    const expiry: nat

    ghost predicate Valid()
      reads this
    {
      Coherent(cache, records)
    }

    constructor (limit: nat, expiry: nat)
      ensures Valid() && records == map[] && this.limit == limit && this.expiry == expiry
    {
      this.limit, this.expiry := limit, expiry;
      cache, records := map[], map[];
    }

    // The cache drops an entry: expiry, eviction or restart.
    method Evict(id: string)
      requires Valid()
      modifies this`cache
      ensures Valid() && id !in cache
      ensures forall k :: k != id ==> Lookup(cache, k) == old(Lookup(cache, k))
    {
      cache := cache - {id};
    }

    method PersistOtpRecord(id: string, digest: int, expiresAt: int)
      modifies this`records
      ensures records == old(records)[id := Record(digest, 0, expiresAt, false)]
    {
      records := records - {id};
      records := records[id := Record(digest, 0, expiresAt, false)];
    }

    method GenerateOtp(id: string, digest: int, now: int)
      requires Valid()
      modifies this
      ensures Valid()
      ensures records == old(records)[id := Record(digest, 0, now + expiry, false)]
      ensures cache == old(cache)[id := CacheEntry(digest, 0, now + expiry)]
    {
      var expiresAt := now + expiry;
      cache := cache[id := CacheEntry(digest, 0, expiresAt)];
      PersistOtpRecord(id, digest, expiresAt);
    }

    method MarkOtpVerified(id: string)
      requires forall k :: k != id && k in cache ==>
                 k in records && records[k] == Record(cache[k].digest, cache[k].attempts, cache[k].expiresAt, false)
      modifies this
      ensures Valid()
      ensures records == if id in old(records) then old(records)[id := old(records)[id].(verified := true)] else old(records)
    {
      cache := cache - {id};
      if id in records {
        records := records[id := records[id].(verified := true)];
      }
    }

    method VerifyOtp(id: string, digest: int, whitelisted: bool, now: int) returns (reply: Reply)
      requires Valid()
      modifies this
      ensures Valid()
      ensures var r := RecordVerify(Lookup(old(records), id), limit, digest, whitelisted, now);
              reply == r.1 && records == Store(old(records), id, r.0)
    {
      if whitelisted {
        MarkOtpVerified(id);
        return Accepted;
      }
      var attempts: nat;
      var expected: int;
      var cachedExpiry: Option<int> := None;
      if id !in cache {
        if id !in records || records[id].verified {
          return UnknownOrUsed;
        }
        if records[id].attempts >= limit {
          return TooManyAttempts;
        }
        if now > records[id].expiresAt {
          return Expired;
        }
        attempts, expected := records[id].attempts, records[id].digest;
      } else {
        if id in records && records[id].attempts >= limit {
          cache := cache - {id};
          return TooManyAttempts;
        }
        attempts, expected := cache[id].attempts, cache[id].digest;
        cachedExpiry := Some(cache[id].expiresAt);
      }
      if attempts >= limit {
        assert false; // the record has been compared with the limit above
      }
      if cachedExpiry.Some? && now > cachedExpiry.value {
        cache := cache - {id};
        return Expired;
      }
      if expected != digest {
        attempts := attempts + 1;
        if cachedExpiry.Some? {
          cache := cache[id := cache[id].(attempts := attempts)];
        }
        if id in records {
          records := records[id := records[id].(attempts := attempts)];
        }
        return WrongCode;
      }
      MarkOtpVerified(id);
      return Accepted;
    }

    // Any run of requests and evictions, answered one after the other.
    method Serve(events: seq<Event>) returns (log: seq<Entry>)
      requires Valid() && records == map[]
      modifies this
      ensures Valid()
      ensures log == Run(events, limit, expiry).log && records == Run(events, limit, expiry).records
    {
      log := [];
      for i := 0 to |events|
        invariant Valid()
        invariant log == Run(events[..i], limit, expiry).log && records == Run(events[..i], limit, expiry).records
      {
        assert events[..i + 1][..i] == events[..i];
        match events[i]
        case Generate(id, digest, now) =>
          GenerateOtp(id, digest, now);
          log := log + [Issued(id, digest, now + expiry)];
        case Verify(id, digest, whitelisted, now) =>
          var reply := VerifyOtp(id, digest, whitelisted, now);
          log := log + [Answered(id, digest, whitelisted, now, reply)];
        case Eviction(id) =>
          Evict(id);
      }
      assert events[..|events|] == events;
    }
  }

  /* -------------------------- Runs and histories ------------------------- */

  datatype Event =
    | Generate(id: string, digest: int, now: int)
    | Verify(id: string, digest: int, whitelisted: bool, now: int)
    | Eviction(id: string)

  datatype Entry =
    | Issued(id: string, digest: int, expiresAt: int)
    | Answered(id: string, digest: int, whitelisted: bool, now: int, reply: Reply)

  datatype Outcome = Outcome(records: map<string, Record>, log: seq<Entry>)

  // A run of the system that keeps no cache; an eviction changes nothing.
  ghost function Run(events: seq<Event>, limit: nat, expiry: nat): Outcome {
    if events == [] then Outcome(map[], [])
    else
      var before := Run(events[..|events| - 1], limit, expiry);
      match events[|events| - 1]
      case Generate(id, digest, now) =>
        Outcome(before.records[id := Record(digest, 0, now + expiry, false)],
                before.log + [Issued(id, digest, now + expiry)])
      case Verify(id, digest, whitelisted, now) =>
        var r := RecordVerify(Lookup(before.records, id), limit, digest, whitelisted, now);
        Outcome(Store(before.records, id, r.0), before.log + [Answered(id, digest, whitelisted, now, r.1)])
      case Eviction(_) => before
  }

  // The code last issued to an identifier, with its expiry.
  ghost function LastIssue(log: seq<Entry>, id: string): Option<(int, int)> {
    if log == [] then None
    else
      var e := log[|log| - 1];
      if e.Issued? && e.id == id then Some((e.digest, e.expiresAt)) else LastIssue(log[..|log| - 1], id)
  }

  // Since the last issue: wrong codes, acceptances of the issued code, acceptances of any kind.
  ghost function Wrong(log: seq<Entry>, id: string): nat {
    if log == [] then 0
    else
      var e := log[|log| - 1];
      if e.id != id then Wrong(log[..|log| - 1], id)
      else if e.Issued? then 0
      else Wrong(log[..|log| - 1], id) + if e.reply == WrongCode then 1 else 0
  }

  ghost function Redeemed(log: seq<Entry>, id: string): nat {
    if log == [] then 0
    else
      var e := log[|log| - 1];
      if e.id != id then Redeemed(log[..|log| - 1], id)
      else if e.Issued? then 0
      else Redeemed(log[..|log| - 1], id) + if e.reply == Accepted && !e.whitelisted then 1 else 0
  }

  ghost predicate UsedUp(log: seq<Entry>, id: string) {
    log != [] &&
    var e := log[|log| - 1];
    if e.id != id then UsedUp(log[..|log| - 1], id)
    else !e.Issued? && (UsedUp(log[..|log| - 1], id) || e.reply == Accepted)
  }

  // The answer a request deserves, read off the history.
  ghost function Decide(log: seq<Entry>, limit: nat, id: string, digest: int, whitelisted: bool, now: int): Reply {
    if whitelisted then Accepted
    else
      match LastIssue(log, id)
      case None => UnknownOrUsed
      case Some(issue) =>
        if UsedUp(log, id) then UnknownOrUsed
        else if Wrong(log, id) >= limit then TooManyAttempts
        else if now > issue.1 then Expired
        else if digest == issue.0 then Accepted
        else WrongCode
  }

  // The record of an identifier is the summary of its history.
  ghost predicate Summarises(o: Outcome, limit: nat, id: string) {
    match LastIssue(o.log, id)
    case None => id !in o.records && Redeemed(o.log, id) == 0 && Wrong(o.log, id) == 0
    case Some(issue) =>
      id in o.records &&
      o.records[id] == Record(issue.0, Wrong(o.log, id), issue.1, UsedUp(o.log, id)) &&
      Wrong(o.log, id) <= limit &&
      Redeemed(o.log, id) <= (if UsedUp(o.log, id) then 1 else 0)
  }

  lemma {:induction false} RecordsSummariseHistory(events: seq<Event>, limit: nat, expiry: nat, id: string)
    ensures Summarises(Run(events, limit, expiry), limit, id)
  {
    if events != [] {
      var earlier := events[..|events| - 1];
      RecordsSummariseHistory(earlier, limit, expiry, id);
      var before, after := Run(earlier, limit, expiry), Run(events, limit, expiry);
      if !events[|events| - 1].Eviction? {
        assert after.log[..|after.log| - 1] == before.log;
      }
    }
  }

  // Every answer in a run is the one its history calls for.
  lemma {:induction false} AnswersFollowHistory(events: seq<Event>, limit: nat, expiry: nat, k: nat)
    requires k < |Run(events, limit, expiry).log| && Run(events, limit, expiry).log[k].Answered?
    ensures var log := Run(events, limit, expiry).log;
            log[k].reply == Decide(log[..k], limit, log[k].id, log[k].digest, log[k].whitelisted, log[k].now)
  {
    if events != [] {
      var earlier := events[..|events| - 1];
      var before, log := Run(earlier, limit, expiry), Run(events, limit, expiry).log;
      if k < |before.log| {
        AnswersFollowHistory(earlier, limit, expiry, k);
        assert log[..k] == before.log[..k];
      } else {
        RecordsSummariseHistory(earlier, limit, expiry, log[k].id);
        assert log[..k] == before.log;
      }
    }
  }

  // At any point of any run, a code has been tried wrongly at most `limit` times and redeemed at most once.
  lemma CodeUseIsBounded(events: seq<Event>, limit: nat, expiry: nat, id: string)
    ensures var log := Run(events, limit, expiry).log;
            Wrong(log, id) <= limit && Redeemed(log, id) <= 1
  {
    RecordsSummariseHistory(events, limit, expiry, id);
  }

  lemma {:induction false} OthersKeepRecord(events: seq<Event>, later: seq<Event>, limit: nat, expiry: nat, id: string)
    requires forall e :: e in later ==> e.Eviction? || e.id != id
    ensures Lookup(Run(events + later, limit, expiry).records, id) == Lookup(Run(events, limit, expiry).records, id)
  {
    if later == [] {
      assert events + later == events;
    } else {
      assert (events + later)[..|events + later| - 1] == events + later[..|later| - 1];
      OthersKeepRecord(events, later[..|later| - 1], limit, expiry, id);
    }
  }

  // A fresh code is accepted until it expires, however the cache fares and whatever
  // happens to other identifiers; any other code is wrong, and afterwards all are late.
  lemma FreshCodeWorksUntilExpiry(
      events: seq<Event>, later: seq<Event>, limit: nat, expiry: nat, id: string, digest: int, issued: int, tried: int, now: int)
    requires limit > 0
    requires forall e :: e in later ==> e.Eviction? || e.id != id
    ensures var log := Run(events + [Generate(id, digest, issued)] + later + [Verify(id, tried, false, now)], limit, expiry).log;
            log != [] &&
            log[|log| - 1].Answered? &&
            log[|log| - 1].reply == if now > issued + expiry then Expired else if tried == digest then Accepted else WrongCode
  {
    var start := events + [Generate(id, digest, issued)];
    var all := start + later + [Verify(id, tried, false, now)];
    assert start[..|events|] == events;
    assert all[..|all| - 1] == start + later;
    OthersKeepRecord(start, later, limit, expiry, id);
    assert Lookup(Run(start, limit, expiry).records, id) == Some(Record(digest, 0, issued + expiry, false));
  }

  // Once a code has been accepted, only a new code or a whitelisted phone is accepted.
  lemma UsedCodesStayUsed(log: seq<Entry>, later: seq<Entry>, limit: nat, id: string, digest: int, now: int)
    requires UsedUp(log, id)
    requires forall e :: e in later ==> !(e.Issued? && e.id == id)
    ensures Decide(log + later, limit, id, digest, false, now) == UnknownOrUsed
  {
    StillUsedUp(log, later, id);
  }

  lemma {:induction false} StillUsedUp(log: seq<Entry>, later: seq<Entry>, id: string)
    requires UsedUp(log, id)
    requires forall e :: e in later ==> !(e.Issued? && e.id == id)
    ensures UsedUp(log + later, id)
  {
    if later == [] {
      assert log + later == log;
    } else {
      assert (log + later)[..|log + later| - 1] == log + later[..|later| - 1];
      StillUsedUp(log, later[..|later| - 1], id);
    }
  }
}
