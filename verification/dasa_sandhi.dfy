/**
  Dasha-junction search between two horoscopes.

  Dates are day ordinals. A table lists the last day of each dasha, 1-indexed
  (slot 0 is unused). The program looks for a bride row and a groom row whose
  dates are less than 365 days apart with two pointers: the groom pointer steps
  back two rows for every new bride row, and scanning stops 500 days past the
  bride date or past seventy years from the birth date.

  `Naive` is the plain double loop over all rows. The theorems say that the
  two-pointer search returns what the double loop finds first, provided that
  pair lies inside the horizon, and never misses a pair inside the horizon.
 */
module DasaSandhi {
  import opened Options

  const DASA_ROWS: nat := 15

  // 70 * 365.25 days, in quarter days, so that no rounding is involved.
  const SEVENTY_YEARS_IN_QUARTER_DAYS := 70 * 1461

  // The least distance between two rows of a table under which the back-step
  // of the search loses nothing: 499 days forward plus 365 days back.
  const MIN_GAP := 864

  // Any nine consecutive dashas together.
  const CYCLE_DAYS := 43826

  /* ------------------------------ The table ------------------------------ */

  // int(365.25 * years)
  function DaysIn(years: nat): nat {
    1461 * years / 4
  }

  // The length of each dasha, from its years.
  function DasaDays(code: nat): nat
    requires 1 <= code <= 9
  {
    match code
    case 1 => DaysIn(17)
    case 2 => DaysIn(7)
    case 3 => DaysIn(20)
    case 4 => DaysIn(6)
    case 5 => DaysIn(10)
    case 6 => DaysIn(7)
    case 7 => DaysIn(18)
    case 8 => DaysIn(16)
    case _ => DaysIn(19)
  }

  function NextDasa(code: nat): (next: nat)
    requires 1 <= code <= 9
    ensures 1 <= next <= 9
  {
    if code == 9 then 1 else code + 1
  }

  // Which dasha ends in the given row.
  ghost function DasaCode(star: int, row: nat): (code: nat)
    requires 1 <= row
    ensures 1 <= code <= 9
  {
    if row == 1 then star % 9 + 1 else NextDasa(DasaCode(star, row - 1))
  }

  ghost function EndDate(star: int, sista: int, dob: int, row: nat): int
    requires 1 <= row
  {
    if row == 1 then dob + sista
    else EndDate(star, sista, dob, row - 1) + DasaDays(DasaCode(star, row))
  }

  // The table with any number of rows; the program uses fifteen.
  ghost function Table(star: int, sista: int, dob: int, rows: nat): (t: seq<int>)
    ensures |t| == rows + 1
  {
    seq(rows + 1, k requires 0 <= k => if k == 0 then 0 else EndDate(star, sista, dob, k))
  }

  ghost predicate Spaced(t: seq<int>) {
    forall i, k :: 1 <= i < k < |t| ==> t[i] + MIN_GAP <= t[k]
  }

  lemma {:induction false} EndDatesAreSpaced(star: int, sista: int, dob: int, i: nat, k: nat)
    requires 1 <= i < k
    ensures EndDate(star, sista, dob, i) + 2191 * (k - i) <= EndDate(star, sista, dob, k)
    decreases k
  {
    if i + 1 < k {
      EndDatesAreSpaced(star, sista, dob, i, k - 1);
    }
  }

  lemma {:induction false} CodesGoRound(star: int, row: nat)
    requires 1 <= row
    ensures DasaCode(star, row) == (star + row - 1) % 9 + 1
  {
    if row > 1 {
      CodesGoRound(star, row - 1);
    }
  }

  // The rows in terms of the calendar alone: the first ends with the balance, and the
  // lengths that follow go round the nine dashas, from the one after the star's own.
  lemma RowsFollowTheCycle(star: int, sista: int, dob: int, row: nat)
    requires 1 <= row
    ensures EndDate(star, sista, dob, 1) == dob + sista
    ensures EndDate(star, sista, dob, row + 1) - EndDate(star, sista, dob, row) ==
            [6209, 2556, 7305, 2191, 3652, 2556, 6574, 5844, 6939][(star + row) % 9]
  {
    CodesGoRound(star, row + 1);
  }

  lemma TableIsSpaced(star: int, sista: int, dob: int, rows: nat)
    ensures Spaced(Table(star, sista, dob, rows))
  {
    var t := Table(star, sista, dob, rows);
    forall i, k | 1 <= i < k < |t| ensures t[i] + MIN_GAP <= t[k] {
      EndDatesAreSpaced(star, sista, dob, i, k);
    }
  }

  // Days from the start of dasha 1 to the end of the given one.
  ghost function CycleSum(code: nat): nat
    requires 1 <= code <= 9
  {
    if code == 1 then DasaDays(1) else CycleSum(code - 1) + DasaDays(code)
  }

  lemma CycleTotal()
    ensures CycleSum(9) == CYCLE_DAYS
  {
    assert CycleSum(3) == DasaDays(1) + DasaDays(2) + DasaDays(3);
    assert CycleSum(6) == CycleSum(3) + DasaDays(4) + DasaDays(5) + DasaDays(6);
    assert CycleSum(9) == CycleSum(6) + DasaDays(7) + DasaDays(8) + DasaDays(9);
  }

  lemma {:induction false} RowsWithinCycle(star: int, sista: int, dob: int, row: nat, n: nat)
    requires 1 <= row && DasaCode(star, row) + n <= 9
    ensures DasaCode(star, row + n) == DasaCode(star, row) + n
    ensures EndDate(star, sista, dob, row + n) - CycleSum(DasaCode(star, row + n)) ==
            EndDate(star, sista, dob, row) - CycleSum(DasaCode(star, row))
  {
    hide DasaDays;
    if n > 0 {
      RowsWithinCycle(star, sista, dob, row, n - 1);
    }
  }

  // Nine rows on, the calendar has moved by exactly one cycle.
  lemma NineRowsAreOneCycle(star: int, sista: int, dob: int, row: nat)
    requires 1 <= row
    ensures EndDate(star, sista, dob, row + 9) == EndDate(star, sista, dob, row) + CYCLE_DAYS
  {
    hide DaysIn;
    var code := DasaCode(star, row);
    var last := row + (9 - code);
    RowsWithinCycle(star, sista, dob, row, 9 - code);
    RowsWithinCycle(star, sista, dob, last + 1, code - 1);
    CycleTotal();
  }

  // Fills the table row by row, carrying the dasha code along.
  method BuildDasaEndDates(star: Option<int>, sista: Option<int>, dob: Option<int>)
    returns (ends: Option<array<int>>)
    ensures ends.Some? <==> star.Some? && sista.Some? && dob.Some?
    ensures ends.Some? ==> fresh(ends.value)
    ensures ends.Some? ==> ends.value[..] == Table(star.value, sista.value, dob.value, DASA_ROWS)
  {
    if star == None || sista == None || dob == None {
      return None;
    }
    ghost var table := Table(star.value, sista.value, dob.value, DASA_ROWS);
    var dasaCode := star.value % 9 + 1;
    var a := new int[DASA_ROWS + 1](_ => 0);
    a[1] := dob.value + sista.value;
    for i := 2 to DASA_ROWS + 1
      invariant dasaCode == DasaCode(star.value, i - 1)
      invariant a[..i] == table[..i]
    {
      dasaCode := dasaCode % 9 + 1;
      assert dasaCode == DasaCode(star.value, i);
      a[i] := a[i - 1] + DasaDays(dasaCode);
      assert a[i] == table[i] by {
        assert a[i - 1] == a[..i][i - 1] == table[i - 1];
      }
    }
    ends := Some(a);
  }

  /* ------------------------- The plain double loop ----------------------- */

  predicate Near(d: int, e: int) {
    -365 < d - e < 365
  }

  predicate Within(dob: int, d: int) {
    4 * (d - dob) <= SEVENTY_YEARS_IN_QUARTER_DAYS
  }

  // The first row from k on that is later than today.
  ghost function FirstAfter(t: seq<int>, k: nat, today: int): Option<nat>
    decreases |t| - k
  {
    if k >= |t| then None
    else if t[k] > today then Some(k)
    else FirstAfter(t, k + 1, today)
  }

  // Row 1 is considered only for someone not yet born.
  ghost function StartRow(t: seq<int>, dob: int, today: int): Option<nat> {
    if dob > today then Some(1) else FirstAfter(t, 2, today)
  }

  ghost function FirstNear(d: int, p: seq<int>, j: nat): Option<nat>
    decreases |p| - j
  {
    if j >= |p| then None
    else if Near(d, p[j]) then Some(j)
    else FirstNear(d, p, j + 1)
  }

  ghost function Naive(s: seq<int>, i: nat, p: seq<int>, j: nat): Option<(nat, nat)>
    decreases |s| - i
  {
    if i >= |s| then None
    else
      match FirstNear(s[i], p, j)
      case Some(k) => Some((i, k))
      case None => Naive(s, i + 1, p, j)
  }

  // A row is looked at as long as the row before it is inside the horizon; the
  // starting row itself must be inside, except for a bride not yet born.
  ghost predicate BrideReach(s: seq<int>, dob: int, start: nat, i: nat)
    requires 1 <= start <= i < |s|
  {
    if i == start then start == 1 || Within(dob, s[start]) else Within(dob, s[i - 1])
  }

  ghost predicate GroomReach(p: seq<int>, dob: int, start: nat, j: nat)
    requires 1 <= start <= j < |p|
  {
    if j == start then Within(dob, p[start]) else Within(dob, p[j - 1])
  }

  ghost predicate NearPair(s: seq<int>, si: nat, p: seq<int>, pi: nat, i: nat, j: nat) {
    si <= i < |s| && pi <= j < |p| && Near(s[i], p[j])
  }

  ghost predicate Earlier(a: (nat, nat), b: (nat, nat)) {
    a.0 < b.0 || (a.0 == b.0 && a.1 < b.1)
  }

  // A pair of rows the search may report.
  ghost predicate Junction(s: seq<int>, sDob: int, si: nat, p: seq<int>, pDob: int, pi: nat, i: nat, j: nat)
    requires 1 <= si && 1 <= pi
  {
    NearPair(s, si, p, pi, i, j) && BrideReach(s, sDob, si, i) && GroomReach(p, pDob, pi, j)
  }

  // What the search returns, in terms of the double loop: its first pair, if in reach.
  ghost function Found(s: seq<int>, sDob: int, si: nat, p: seq<int>, pDob: int, pi: nat): Option<(int, int)>
    requires 1 <= si && 1 <= pi
  {
    match Naive(s, si, p, pi)
    case None => None
    case Some(ij) =>
      if Junction(s, sDob, si, p, pDob, pi, ij.0, ij.1) then Some((s[ij.0], p[ij.1])) else None
  }

  ghost function Sandhi(s: seq<int>, sDob: int, p: seq<int>, pDob: int, today: int): Option<(int, int)> {
    match (StartRow(s, sDob, today), StartRow(p, pDob, today))
    case (Some(si), Some(pi)) =>
      StartRowIs(s, sDob, today); StartRowIs(p, pDob, today);
      Found(s, sDob, si, p, pDob, pi)
    case _ => None
  }

  /* ----------------------- Facts about the double loop ------------------- */

  lemma {:induction false} FirstAfterIs(t: seq<int>, k: nat, today: int)
    ensures match FirstAfter(t, k, today)
            case None => forall r :: k <= r < |t| ==> t[r] <= today
            case Some(r) => k <= r < |t| && t[r] > today && forall q :: k <= q < r ==> t[q] <= today
    decreases |t| - k
  {
    if k < |t| && t[k] <= today {
      FirstAfterIs(t, k + 1, today);
    }
  }

  lemma StartRowIs(t: seq<int>, dob: int, today: int)
    ensures match StartRow(t, dob, today)
            case None => dob <= today && forall r :: 2 <= r < |t| ==> t[r] <= today
            case Some(r) =>
              1 <= r && (r == 1 <==> dob > today) &&
              (r > 1 ==> r < |t| && t[r] > today && forall q :: 2 <= q < r ==> t[q] <= today)
  {
    FirstAfterIs(t, 2, today);
  }

  lemma {:induction false} FirstNearIs(d: int, p: seq<int>, j: nat)
    ensures match FirstNear(d, p, j)
            case None => forall k :: j <= k < |p| ==> !Near(d, p[k])
            case Some(k) => j <= k < |p| && Near(d, p[k]) && forall q :: j <= q < k ==> !Near(d, p[q])
    decreases |p| - j
  {
    if j < |p| && !Near(d, p[j]) {
      FirstNearIs(d, p, j + 1);
    }
  }

  // The double loop returns the lexicographically first near pair, and nothing only if there is none.
  lemma {:induction false} NaiveIsFirst(s: seq<int>, i: nat, p: seq<int>, j: nat)
    ensures match Naive(s, i, p, j)
            case None => forall a: nat, b: nat :: !NearPair(s, i, p, j, a, b)
            case Some(r) =>
              NearPair(s, i, p, j, r.0, r.1) &&
              forall a: nat, b: nat :: NearPair(s, i, p, j, a, b) ==> !Earlier((a, b), r)
    decreases |s| - i
  {
    if i < |s| {
      FirstNearIs(s[i], p, j);
      if FirstNear(s[i], p, j) == None {
        NaiveIsFirst(s, i + 1, p, j);
        forall a: nat, b: nat | NearPair(s, i, p, j, a, b) ensures NearPair(s, i + 1, p, j, a, b) {}
      }
    }
  }

  // In spaced tables near pairs never cross.
  lemma NearPairsDoNotCross(s: seq<int>, si: nat, p: seq<int>, pi: nat, a: nat, b: nat, i: nat, j: nat)
    requires Spaced(s) && Spaced(p) && 1 <= si && 1 <= pi
    requires NearPair(s, si, p, pi, a, b) && NearPair(s, si, p, pi, i, j)
    requires Earlier((a, b), (i, j))
    ensures a < i && b < j
  {
  }

  // Anything near and earlier than a junction is a junction too.
  lemma JunctionsAreClosedDownwards(
      s: seq<int>, sDob: int, si: nat, p: seq<int>, pDob: int, pi: nat, a: nat, b: nat, i: nat, j: nat)
    requires Spaced(s) && Spaced(p) && 1 <= si && 1 <= pi
    requires NearPair(s, si, p, pi, a, b) && Junction(s, sDob, si, p, pDob, pi, i, j)
    requires Earlier((a, b), (i, j))
    ensures Junction(s, sDob, si, p, pDob, pi, a, b)
  {
    NearPairsDoNotCross(s, si, p, pi, a, b, i, j);
  }

  // Nothing is found exactly when no junction exists; what is found is the first junction.
  lemma FoundIsTheFirstJunction(s: seq<int>, sDob: int, si: nat, p: seq<int>, pDob: int, pi: nat)
    requires Spaced(s) && Spaced(p) && 1 <= si && 1 <= pi
    ensures match Found(s, sDob, si, p, pDob, pi)
            case None => forall i: nat, j: nat :: !Junction(s, sDob, si, p, pDob, pi, i, j)
            case Some(d) =>
              exists i: nat, j: nat :: Junction(s, sDob, si, p, pDob, pi, i, j) && d == (s[i], p[j]) &&
                forall a: nat, b: nat :: Junction(s, sDob, si, p, pDob, pi, a, b) ==> !Earlier((a, b), (i, j))
  {
    NaiveIsFirst(s, si, p, pi);
    var n := Naive(s, si, p, pi);
    if n.Some? && !Junction(s, sDob, si, p, pDob, pi, n.value.0, n.value.1) {
      forall i: nat, j: nat ensures !Junction(s, sDob, si, p, pDob, pi, i, j) {
        if Junction(s, sDob, si, p, pDob, pi, i, j) && (i, j) != n.value {
          JunctionsAreClosedDownwards(s, sDob, si, p, pDob, pi, n.value.0, n.value.1, i, j);
        }
      }
    }
  }

  lemma FirstJunctionIsFound(s: seq<int>, sDob: int, si: nat, p: seq<int>, pDob: int, pi: nat, i: nat, j: nat)
    requires Spaced(s) && Spaced(p) && 1 <= si && 1 <= pi
    requires Junction(s, sDob, si, p, pDob, pi, i, j)
    requires forall a: nat, b: nat :: Junction(s, sDob, si, p, pDob, pi, a, b) ==> !Earlier((a, b), (i, j))
    ensures Found(s, sDob, si, p, pDob, pi) == Some((s[i], p[j]))
  {
    FoundIsTheFirstJunction(s, sDob, si, p, pDob, pi);
  }

  /* ------------------------- The two-pointer search ---------------------- */

  // Every groom row but the last one looked at passed both tests of the scan.
  ghost predicate Passed(d: int, p: seq<int>, pDob: int, pi: nat, c2: nat) {
    forall j :: pi <= j < |p| && j + 1 < c2 ==> p[j] < d + 500 && Within(pDob, p[j])
  }

  // No junction uses a bride row before c1.
  ghost predicate NoneBefore(s: seq<int>, si: nat, p: seq<int>, pDob: int, pi: nat, c1: nat)
    requires 1 <= pi
  {
    forall i: nat, j: nat :: NearPair(s, si, p, pi, i, j) && i < c1 ==> !GroomReach(p, pDob, pi, j)
  }

  method FirstRowAfter(t: array<int>, dob: int, today: int) returns (row: Option<nat>)
    ensures row == StartRow(t[..], dob, today)
  {
    StartRowIs(t[..], dob, today);
    var cntr := 1;
    var d := dob;
    while d <= today
      invariant 1 <= cntr
      invariant cntr == 1 ==> d == dob
      invariant cntr > 1 ==> cntr < t.Length && d == t[cntr] && dob <= today
      invariant FirstAfter(t[..], if cntr == 1 then 2 else cntr, today) == FirstAfter(t[..], 2, today)
      decreases t.Length - cntr
    {
      cntr := cntr + 1;
      if cntr > t.Length - 1 {
        return None;
      }
      d := t[cntr];
    }
    return Some(cntr);
  }

  // The inner loop: scans groom rows from a given row for one near the bride date d.
  method ScanGroomRows(p: array<int>, pDob: int, ghost pi: nat, from: nat, d: int) returns (hit: bool, cntr2: nat)
    requires Spaced(p[..]) && 1 <= pi <= from < p.Length
    requires from > pi ==> Within(pDob, p[from])
    ensures from <= cntr2 <= p.Length
    ensures forall j :: from <= j < cntr2 ==> !Near(d, p[j])
    ensures forall j :: from <= j < cntr2 - 1 ==> p[j] < d + 500 && Within(pDob, p[j])
    ensures hit ==> cntr2 < p.Length && Near(d, p[cntr2]) && GroomReach(p[..], pDob, pi, cntr2)
    ensures !hit ==> forall j :: cntr2 <= j < p.Length && Near(d, p[j]) ==> !GroomReach(p[..], pDob, pi, j)
  {
    cntr2 := from;
    var pDate := p[cntr2];
    while 4 * (pDate - pDob) < SEVENTY_YEARS_IN_QUARTER_DAYS && pDate - d < 500
      invariant from <= cntr2 <= p.Length
      invariant pDate == p[if cntr2 == from then from else cntr2 - 1]
      invariant forall j :: from <= j < cntr2 - 1 ==> p[j] < d + 500 && Within(pDob, p[j])
      invariant forall j :: from <= j < cntr2 ==> !Near(d, p[j])
      decreases p.Length - cntr2
    {
      if cntr2 > p.Length - 1 { break; }
      pDate := p[cntr2];
      if -365 < d - pDate < 365 {
        return true, cntr2;
      }
      cntr2 := cntr2 + 1;
    }
    ScanMissesNothing(p[..], pDob, pi, from, cntr2, d);
    hit := false;
  }

  method SearchRows(s: array<int>, sDob: int, p: array<int>, pDob: int, today: int)
    returns (r: Option<(int, int)>)
    requires Spaced(s[..]) && Spaced(p[..])
    requires s.Length > 1 && p.Length > 1
    ensures r == Sandhi(s[..], sDob, p[..], pDob, today)
  {
    var row1 := FirstRowAfter(s, sDob, today);
    if row1 == None { return None; }
    var row2 := FirstRowAfter(p, pDob, today);
    if row2 == None { return None; }
    StartRowIs(s[..], sDob, today);
    StartRowIs(p[..], pDob, today);
    r := SearchFrom(s, sDob, row1.value, p, pDob, row2.value);
  }

  // The outer loop, from the starting rows on.
  method SearchFrom(s: array<int>, sDob: int, stcntr1: nat, p: array<int>, pDob: int, stcntr2: nat)
    returns (r: Option<(int, int)>)
    requires Spaced(s[..]) && Spaced(p[..])
    requires 1 <= stcntr1 < s.Length && 1 <= stcntr2 < p.Length
    ensures r == Found(s[..], sDob, stcntr1, p[..], pDob, stcntr2)
  {
    ghost var S, P := s[..], p[..];
    var cntr1, cntr2 := stcntr1, stcntr2;
    var sDate := if cntr1 == 1 then sDob else s[cntr1];
    while Within(sDob, sDate)
      invariant stcntr1 <= cntr1 <= s.Length && stcntr2 <= cntr2 <= p.Length
      invariant sDate == if cntr1 > stcntr1 then s[cntr1 - 1] else if cntr1 == 1 then sDob else s[cntr1]
      invariant cntr1 > stcntr1 ==> Passed(sDate, P, pDob, stcntr2, cntr2)
      invariant cntr1 == stcntr1 ==> cntr2 == stcntr2
      invariant NoneBefore(S, stcntr1, P, pDob, stcntr2, cntr1)
      decreases s.Length - cntr1
    {
      if cntr1 > s.Length - 1 { break; }
      assert BrideReach(S, sDob, stcntr1, cntr1);
      ghost var previous := sDate;
      sDate := s[cntr1];
      var from := if cntr2 <= stcntr2 + 2 then stcntr2 else cntr2 - 2;
      if from > p.Length - 1 { break; }
      assert forall j :: stcntr2 <= j < from ==> !Near(sDate, P[j]) && P[j] < sDate + 500 && Within(pDob, P[j]);
      var hit;
      hit, cntr2 := ScanGroomRows(p, pDob, stcntr2, from, sDate);
      if hit {
        FirstJunctionIsFound(S, sDob, stcntr1, P, pDob, stcntr2, cntr1, cntr2);
        return Some((sDate, p[cntr2]));
      }
      cntr1 := cntr1 + 1;
    }
    NothingFound(S, sDob, stcntr1, P, pDob, stcntr2, cntr1);
    return None;
  }

  lemma NothingFound(s: seq<int>, sDob: int, si: nat, p: seq<int>, pDob: int, pi: nat, c1: nat)
    requires Spaced(s) && Spaced(p) && 1 <= si <= c1 <= |s| && 1 <= pi && si < |s|
    requires NoneBefore(s, si, p, pDob, pi, c1)
    requires c1 == |s| || !Within(sDob, if c1 > si then s[c1 - 1] else if c1 == 1 then sDob else s[c1])
    ensures Found(s, sDob, si, p, pDob, pi) == None
  {
    FoundIsTheFirstJunction(s, sDob, si, p, pDob, pi);
    forall i: nat, j: nat ensures !Junction(s, sDob, si, p, pDob, pi, i, j) {
      if c1 <= i < |s| && NearPair(s, si, p, pi, i, j) && c1 < i && i > c1 {
        var k := if c1 > si then c1 - 1 else c1;
        assert k == i - 1 || s[k] + MIN_GAP <= s[i - 1];
      }
    }
  }

  // Where the scan of groom rows stops, no row further on is both near and in reach.
  lemma ScanMissesNothing(p: seq<int>, pDob: int, pi: nat, from: nat, c2: nat, d: int)
    requires Spaced(p) && 1 <= pi <= from < |p| && from <= c2 <= |p|
    requires from > pi ==> Within(pDob, p[from])
    requires
      var last := p[if c2 == from then from else c2 - 1];
      c2 == |p| || !Within(pDob, last) || last - d >= 500
    ensures forall j :: c2 <= j < |p| && Near(d, p[j]) ==> !GroomReach(p, pDob, pi, j)
  {
    forall j | c2 <= j < |p| && Near(d, p[j]) ensures !GroomReach(p, pDob, pi, j) {
      var k := if c2 == from then from else c2 - 1;
      if k < j {
        assert p[k] + MIN_GAP <= p[j];
        if k < j - 1 {
          assert p[k] + MIN_GAP <= p[j - 1];
        }
      }
    }
  }

  /* ----------------------------- Two horoscopes -------------------------- */

  datatype Chart = Chart(star: Option<int>, dob: Option<int>, sista: Option<int>)
  {
    predicate Usable() {
      star.Some? && dob.Some? && sista.Some?
    }

    ghost function Rows(rows: nat): seq<int>
      requires Usable()
    {
      Table(star.value, sista.value, dob.value, rows)
    }
  }

  ghost function ChartSandhi(bride: Chart, groom: Chart, today: int, rows: nat): Option<(int, int)> {
    if bride.Usable() && groom.Usable()
    then Sandhi(bride.Rows(rows), bride.dob.value, groom.Rows(rows), groom.dob.value, today)
    else None
  }

  method DasaSandhiText(bride: Chart, groom: Chart, today: int) returns (r: Option<(int, int)>)
    ensures r == ChartSandhi(bride, groom, today, DASA_ROWS)
  {
    var s := BuildDasaEndDates(bride.star, bride.sista, bride.dob);
    var p := BuildDasaEndDates(groom.star, groom.sista, groom.dob);
    if s == None || p == None {
      return None;
    }
    TableIsSpaced(bride.star.value, bride.sista.value, bride.dob.value, DASA_ROWS);
    TableIsSpaced(groom.star.value, groom.sista.value, groom.dob.value, DASA_ROWS);
    r := SearchRows(s.value, bride.dob.value, p.value, groom.dob.value, today);
  }

  // True when the two charts do not collide.
  method DasaSandhi(bride: Chart, groom: Chart, today: int) returns (favourable: bool)
    ensures favourable <==> ChartSandhi(bride, groom, today, DASA_ROWS) == None
  {
    var text := DasaSandhiText(bride, groom, today);
    favourable := text == None;
  }

  // Rows a chart takes part with: those after today, row 1 only before birth.
  ghost predicate Considered(t: seq<int>, dob: int, today: int, i: nat) {
    1 <= i < |t| && (dob > today || (i >= 2 && t[i] > today))
  }

  lemma ConsideredFromStartRow(t: seq<int>, dob: int, today: int, i: nat)
    requires Spaced(t)
    ensures Considered(t, dob, today, i) <==>
            StartRow(t, dob, today).Some? && StartRow(t, dob, today).value <= i < |t|
  {
    StartRowIs(t, dob, today);
    var start := StartRow(t, dob, today);
    if start.Some? && 1 < start.value < i < |t| {
      assert t[start.value] + MIN_GAP <= t[i];
    }
  }

  // A pair of rows under a year apart, each within seventy years of its birth date, is never missed.
  lemma SearchIsComplete(s: seq<int>, sDob: int, p: seq<int>, pDob: int, today: int, i: nat, j: nat)
    requires Spaced(s) && Spaced(p)
    requires Considered(s, sDob, today, i) && Within(sDob, s[i])
    requires Considered(p, pDob, today, j) && Within(pDob, p[j])
    requires Near(s[i], p[j])
    ensures Sandhi(s, sDob, p, pDob, today).Some?
  {
    ConsideredFromStartRow(s, sDob, today, i);
    ConsideredFromStartRow(p, pDob, today, j);
    StartRowIs(s, sDob, today);
    StartRowIs(p, pDob, today);
    var si, pi := StartRow(s, sDob, today).value, StartRow(p, pDob, today).value;
    assert i > si ==> s[i - 1] <= s[i];
    assert j > pi ==> p[j - 1] <= p[j];
    assert Junction(s, sDob, si, p, pDob, pi, i, j);
    FoundIsTheFirstJunction(s, sDob, si, p, pDob, pi);
  }

  // What is reported is a pair of considered rows under a year apart, each at most
  // one dasha past the horizon, and no earlier pair of considered rows is near at all.
  lemma SearchIsSound(s: seq<int>, sDob: int, p: seq<int>, pDob: int, today: int) returns (i: nat, j: nat)
    requires Spaced(s) && Spaced(p) && |s| > 1 && |p| > 1
    requires Sandhi(s, sDob, p, pDob, today).Some?
    ensures Considered(s, sDob, today, i) && Considered(p, pDob, today, j)
    ensures Sandhi(s, sDob, p, pDob, today).value == (s[i], p[j]) && Near(s[i], p[j])
    ensures i == 1 || Within(sDob, s[i]) || (Considered(s, sDob, today, i - 1) && Within(sDob, s[i - 1]))
    ensures Within(pDob, p[j]) || (j > 1 && Considered(p, pDob, today, j - 1) && Within(pDob, p[j - 1]))
    ensures forall a: nat, b: nat ::
              Considered(s, sDob, today, a) && Considered(p, pDob, today, b) && Near(s[a], p[b])
              ==> !Earlier((a, b), (i, j))
  {
    StartRowIs(s, sDob, today);
    StartRowIs(p, pDob, today);
    var si, pi := StartRow(s, sDob, today).value, StartRow(p, pDob, today).value;
    NaiveIsFirst(s, si, p, pi);
    var ij := Naive(s, si, p, pi).value;
    i, j := ij.0, ij.1;
    ConsideredFromStartRow(s, sDob, today, i);
    ConsideredFromStartRow(p, pDob, today, j);
    if i > 1 { ConsideredFromStartRow(s, sDob, today, i - 1); }
    if j > 1 { ConsideredFromStartRow(p, pDob, today, j - 1); }
    forall a: nat, b: nat | Considered(s, sDob, today, a) && Considered(p, pDob, today, b) && Near(s[a], p[b])
      ensures !Earlier((a, b), (i, j))
    {
      ConsideredFromStartRow(s, sDob, today, a);
      ConsideredFromStartRow(p, pDob, today, b);
      assert NearPair(s, si, p, pi, a, b);
    }
  }

  ghost predicate NearWithinHorizon(s: seq<int>, sDob: int, p: seq<int>, pDob: int, today: int, i: nat, j: nat) {
    Considered(s, sDob, today, i) && Within(sDob, s[i]) && Considered(p, pDob, today, j) && Within(pDob, p[j]) &&
    Near(s[i], p[j])
  }

  // The seventy years are respected exactly when some near pair lies within them: then
  // the report does, and otherwise nothing or a pair past them is reported.
  lemma ReportsWithinHorizonIff(s: seq<int>, sDob: int, p: seq<int>, pDob: int, today: int)
    requires Spaced(s) && Spaced(p) && |s| > 1 && |p| > 1
    ensures (exists i: nat, j: nat :: NearWithinHorizon(s, sDob, p, pDob, today, i, j)) <==>
            var r := Sandhi(s, sDob, p, pDob, today);
            r.Some? && Within(sDob, r.value.0) && Within(pDob, r.value.1)
  {
    var r := Sandhi(s, sDob, p, pDob, today);
    if i: nat, j: nat :| NearWithinHorizon(s, sDob, p, pDob, today, i, j) {
      SearchIsComplete(s, sDob, p, pDob, today, i, j);
      var a, b := SearchIsSound(s, sDob, p, pDob, today);
      if (a, b) != (i, j) {
        NearPairsDoNotCross(s, 1, p, 1, a, b, i, j);
      }
    } else if r.Some? {
      var a, b := SearchIsSound(s, sDob, p, pDob, today);
      assert !NearWithinHorizon(s, sDob, p, pDob, today, a, b);
    }
  }

  // With a balance that is not negative, both reported dates lie after today.
  lemma ReportedDatesAreAhead(bride: Chart, groom: Chart, today: int)
    requires bride.Usable() && groom.Usable() && bride.sista.value >= 0 && groom.sista.value >= 0
    requires ChartSandhi(bride, groom, today, DASA_ROWS).Some?
    ensures ChartSandhi(bride, groom, today, DASA_ROWS).value.0 > today
    ensures ChartSandhi(bride, groom, today, DASA_ROWS).value.1 > today
  {
    TableIsSpaced(bride.star.value, bride.sista.value, bride.dob.value, DASA_ROWS);
    TableIsSpaced(groom.star.value, groom.sista.value, groom.dob.value, DASA_ROWS);
    var s, p := bride.Rows(DASA_ROWS), groom.Rows(DASA_ROWS);
    var i, j := SearchIsSound(s, bride.dob.value, p, groom.dob.value, today);
    assert i > 1 ==> s[1] <= s[i];
    assert j > 1 ==> p[1] <= p[j];
  }

  // The first eight rows for star 9, whose running dasha is the first of the table.
  lemma RowsForStarNine(sista: int, dob: int)
    ensures EndDate(9, sista, dob, 2) == dob + sista + 2556
    ensures EndDate(9, sista, dob, 6) == dob + sista + 18260
    ensures EndDate(9, sista, dob, 7) == dob + sista + 24834
    ensures EndDate(9, sista, dob, 8) == dob + sista + 30678
  {
    assert DasaCode(9, 2) == 2 && DasaCode(9, 3) == 3 && DasaCode(9, 4) == 4;
    assert DasaCode(9, 5) == 5 && DasaCode(9, 6) == 6 && DasaCode(9, 7) == 7 && DasaCode(9, 8) == 8;
    assert EndDate(9, sista, dob, 4) == EndDate(9, sista, dob, 2) + 7305 + 2191;
    assert EndDate(9, sista, dob, 6) == EndDate(9, sista, dob, 4) + 3652 + 2556;
  }

  // The seventy-year bound is not exact: here the one junction lies eighty-four years after the bride's birth.
  lemma ReportsPastTheHorizon()
    ensures var bride, groom := Chart(Some(9), Some(0), Some(0)), Chart(Some(9), Some(22122), Some(6000));
            ChartSandhi(bride, groom, 24000, DASA_ROWS) == Some((30678, 30678)) && !Within(0, 30678)
  {
    hide EndDate, DasaCode, DasaDays;
    RowsForStarNine(0, 0);
    RowsForStarNine(6000, 22122);
    TableIsSpaced(9, 0, 0, DASA_ROWS);
    TableIsSpaced(9, 6000, 22122, DASA_ROWS);
    var s, p := Table(9, 0, 0, DASA_ROWS), Table(9, 6000, 22122, DASA_ROWS);
    ConsideredFromStartRow(s, 0, 24000, 7);
    ConsideredFromStartRow(s, 0, 24000, 6);
    ConsideredFromStartRow(p, 22122, 24000, 2);
    StartRowIs(s, 0, 24000);
    StartRowIs(p, 22122, 24000);
    assert StartRow(s, 0, 24000) == Some(7) && StartRow(p, 22122, 24000) == Some(2);
    assert forall b :: 2 < b < |p| ==> p[2] < p[b];
    FirstJunctionIsFound(s, 0, 7, p, 22122, 2, 8, 2);
  }

  /* ------------------------------ The row limit -------------------------- */

  // The tenth row of a table always lies past the horizon.
  lemma TenthRowIsPastTheHorizon(c: Chart, rows: nat, k: nat)
    requires c.Usable() && c.sista.value > -18259 && 10 <= k <= rows
    ensures !Within(c.dob.value, c.Rows(rows)[k])
  {
    var star, sista, dob := c.star.value, c.sista.value, c.dob.value;
    NineRowsAreOneCycle(star, sista, dob, 1);
    if k > 10 {
      EndDatesAreSpaced(star, sista, dob, 10, k);
    }
  }

  // So a junction uses only the first ten rows of each table, however long.
  lemma JunctionsUseTenRows(bride: Chart, groom: Chart, rows: nat, si: nat, pi: nat, i: nat, j: nat)
    requires bride.Usable() && groom.Usable() && rows >= 10 && 1 <= si && 1 <= pi
    requires bride.sista.value > -18259 && groom.sista.value > -18259
    requires Junction(bride.Rows(rows), bride.dob.value, si, groom.Rows(rows), groom.dob.value, pi, i, j)
    ensures i <= 10 && j <= 10
  {
    if i > 10 {
      TenthRowIsPastTheHorizon(bride, rows, if i == si then i else i - 1);
    }
    if j > 10 {
      TenthRowIsPastTheHorizon(groom, rows, if j == pi then j else j - 1);
    }
  }

  lemma RowsArePrefixes(c: Chart, rows: nat, more: nat)
    requires c.Usable() && rows <= more
    ensures c.Rows(more)[..rows + 1] == c.Rows(rows)
  {}

  // A starting row past the tenth is never in reach, and neither is a missing one.
  lemma StartRowInTenRows(c: Chart, rows: nat, more: nat, today: int)
    requires c.Usable() && 10 <= rows <= more
    ensures var a, b := StartRow(c.Rows(rows), c.dob.value, today), StartRow(c.Rows(more), c.dob.value, today);
            a == b || (a == None && b.value > 10)
  {
    RowsArePrefixes(c, rows, more);
    var t, u := c.Rows(rows), c.Rows(more);
    assert forall k :: 0 <= k <= rows ==> u[k] == u[..rows + 1][k];
    StartRowIs(t, c.dob.value, today);
    StartRowIs(u, c.dob.value, today);
  }

  lemma SameJunctionsFindTheSame(
      s: seq<int>, p: seq<int>, t: seq<int>, q: seq<int>, sDob: int, si: nat, pDob: int, pi: nat)
    requires Spaced(s) && Spaced(p) && Spaced(t) && Spaced(q) && 1 <= si && 1 <= pi
    requires |s| <= |t| && |p| <= |q|
    requires forall k :: 0 <= k < |s| ==> t[k] == s[k]
    requires forall k :: 0 <= k < |p| ==> q[k] == p[k]
    requires forall i: nat, j: nat ::
               Junction(s, sDob, si, p, pDob, pi, i, j) <==> Junction(t, sDob, si, q, pDob, pi, i, j)
    ensures Found(s, sDob, si, p, pDob, pi) == Found(t, sDob, si, q, pDob, pi)
  {
    FoundIsTheFirstJunction(s, sDob, si, p, pDob, pi);
    FoundIsTheFirstJunction(t, sDob, si, q, pDob, pi);
  }

  lemma MoreRowsFindTheSame(bride: Chart, groom: Chart, rows: nat, more: nat, si: nat, pi: nat)
    requires bride.Usable() && groom.Usable() && 10 <= rows <= more && 1 <= si && 1 <= pi
    requires bride.sista.value > -18259 && groom.sista.value > -18259
    ensures Found(bride.Rows(rows), bride.dob.value, si, groom.Rows(rows), groom.dob.value, pi) ==
            Found(bride.Rows(more), bride.dob.value, si, groom.Rows(more), groom.dob.value, pi)
  {
    var sDob, pDob := bride.dob.value, groom.dob.value;
    var s, p, t, q := bride.Rows(rows), groom.Rows(rows), bride.Rows(more), groom.Rows(more);
    TableIsSpaced(bride.star.value, bride.sista.value, sDob, rows);
    TableIsSpaced(groom.star.value, groom.sista.value, pDob, rows);
    TableIsSpaced(bride.star.value, bride.sista.value, sDob, more);
    TableIsSpaced(groom.star.value, groom.sista.value, pDob, more);
    RowsArePrefixes(bride, rows, more);
    RowsArePrefixes(groom, rows, more);
    assert forall k :: 0 <= k <= rows ==> t[k] == s[k] && q[k] == p[k];
    forall i: nat, j: nat
      ensures Junction(s, sDob, si, p, pDob, pi, i, j) <==> Junction(t, sDob, si, q, pDob, pi, i, j)
    {
      if Junction(t, sDob, si, q, pDob, pi, i, j) {
        JunctionsUseTenRows(bride, groom, more, si, pi, i, j);
      }
    }
    SameJunctionsFindTheSame(s, p, t, q, sDob, si, pDob, pi);
  }

  // Longer tables never change the answer: ten rows already cover the seventy years.
  lemma RowLimitIsImmaterial(bride: Chart, groom: Chart, today: int, rows: nat)
    requires rows >= 10
    requires bride.Usable() ==> bride.sista.value > -18259
    requires groom.Usable() ==> groom.sista.value > -18259
    ensures ChartSandhi(bride, groom, today, rows) == ChartSandhi(bride, groom, today, DASA_ROWS)
  {
    var few, many := if rows <= DASA_ROWS then rows else DASA_ROWS, if rows <= DASA_ROWS then DASA_ROWS else rows;
    if bride.Usable() && groom.Usable() {
      StartRowInTenRows(bride, few, many, today);
      StartRowInTenRows(groom, few, many, today);
      var si := StartRow(bride.Rows(many), bride.dob.value, today);
      var pi := StartRow(groom.Rows(many), groom.dob.value, today);
      if si.Some? && pi.Some? {
        StartRowIs(bride.Rows(many), bride.dob.value, today);
        StartRowIs(groom.Rows(many), groom.dob.value, today);
        MoreRowsFindTheSame(bride, groom, few, many, si.value, pi.value);
        if Found(bride.Rows(many), bride.dob.value, si.value, groom.Rows(many), groom.dob.value, pi.value).Some? {
          NaiveIsFirst(bride.Rows(many), si.value, groom.Rows(many), pi.value);
          var ij := Naive(bride.Rows(many), si.value, groom.Rows(many), pi.value).value;
          JunctionsUseTenRows(bride, groom, many, si.value, pi.value, ij.0, ij.1);
        }
      }
    }
  }

  // The main promise, without any row limit: if any two dashas of the two unending
  // sequences end under a year apart, each within seventy years of its birth date
  // and after today, the program reports a junction.
  lemma JunctionsAreNeverMissed(bride: Chart, groom: Chart, today: int, i: nat, j: nat)
    requires bride.Usable() && bride.sista.value > -18259 && groom.Usable() && groom.sista.value > -18259
    requires i >= 1 && j >= 1
    requires
      var d := EndDate(bride.star.value, bride.sista.value, bride.dob.value, i);
      var e := EndDate(groom.star.value, groom.sista.value, groom.dob.value, j);
      (bride.dob.value > today || (i >= 2 && d > today)) && Within(bride.dob.value, d) &&
      (groom.dob.value > today || (j >= 2 && e > today)) && Within(groom.dob.value, e) &&
      Near(d, e)
    ensures ChartSandhi(bride, groom, today, DASA_ROWS).Some?
  {
    var rows := i + j + 10;
    TableIsSpaced(bride.star.value, bride.sista.value, bride.dob.value, rows);
    TableIsSpaced(groom.star.value, groom.sista.value, groom.dob.value, rows);
    SearchIsComplete(bride.Rows(rows), bride.dob.value, groom.Rows(rows), groom.dob.value, today, i, j);
    RowLimitIsImmaterial(bride, groom, today, rows);
  }
}
