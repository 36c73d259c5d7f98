/**
  Two computations behind the printed horoscope: which house a longitude lies in,
  and when the sun last entered a sign.

  Longitudes and instants are reals; the sun's path is an arbitrary function of time.
 */
module Thalakkuri {
  import opened Options

  /* -------------------------------- Houses ------------------------------- */

  // The arc from cusp a up to cusp b, through 0 when b is smaller.
  predicate InArc(a: real, b: real, lon: real) {
    if a <= b then a <= lon < b else lon >= a || lon < b
  }

  // The cusp after the last is the first.
  function Wrap(k: nat, n: nat): nat {
    if k == n then 0 else k
  }

  predicate InHouse(cusps: seq<real>, n: nat, i: nat, lon: real)
    requires i < n <= |cusps|
  {
    InArc(cusps[i], cusps[Wrap(i + 1, n)], lon)
  }

  method BhavaOf(sidCusps: seq<real>, lon: real) returns (house: Option<nat>)
    ensures |sidCusps| < 12 ==> house == None
    ensures |sidCusps| >= 12 ==>
              match house
              case None => forall i :: 0 <= i < 12 ==> !InHouse(sidCusps, 12, i, lon)
              case Some(h) => 1 <= h <= 12 && InHouse(sidCusps, 12, h - 1, lon) &&
                              forall i :: 0 <= i < h - 1 ==> !InHouse(sidCusps, 12, i, lon)
  {
    if |sidCusps| < 12 {
      return None;
    }
    for i := 0 to 12
      invariant forall k :: 0 <= k < i ==> !InHouse(sidCusps, 12, k, lon)
    {
      var j := (i + 1) % 12;
      var a, b := sidCusps[i], sidCusps[j];
      if a <= b {
        if a <= lon < b {
          return Some(i + 1);
        }
      } else {
        if lon >= a || lon < b {
          return Some(i + 1);
        }
      }
    }
    return None;
  }

  // How many of the first k of n arcs contain a longitude, and at how many of
  // them the cusps strictly fall.
  ghost function Containing(cusps: seq<real>, n: nat, k: nat, lon: real): nat
    requires k <= n <= |cusps|
  {
    if k == 0 then 0
    else Containing(cusps, n, k - 1, lon) + if InHouse(cusps, n, k - 1, lon) then 1 else 0
  }

  ghost function Descents(cusps: seq<real>, n: nat, k: nat): nat
    requires k <= n <= |cusps|
  {
    if k == 0 then 0
    else Descents(cusps, n, k - 1) + if cusps[k - 1] > cusps[Wrap(k, n)] then 1 else 0
  }

  lemma ArcCount(a: real, b: real, lon: real)
    ensures (if InArc(a, b, lon) then 1 else 0) + (if b <= lon then 1 else 0) ==
            (if a > b then 1 else 0) + (if a <= lon then 1 else 0)
  {}

  // Walking along the cusps, the arcs passed contain lon once per descent, give
  // or take whether the walk started before and ends after lon.
  lemma {:induction false} CountAlongTheWay(cusps: seq<real>, n: nat, k: nat, lon: real)
    requires 0 < k <= n <= |cusps|
    ensures Containing(cusps, n, k, lon) + (if cusps[Wrap(k, n)] <= lon then 1 else 0) ==
            Descents(cusps, n, k) + (if cusps[0] <= lon then 1 else 0)
  {
    ArcCount(cusps[k - 1], cusps[Wrap(k, n)], lon);
    if k > 1 {
      CountAlongTheWay(cusps, n, k - 1, lon);
    }
  }

  // Whatever the cusps, every longitude lies in exactly as many houses as there are descents.
  lemma HousesPerLongitude(cusps: seq<real>, n: nat, lon: real)
    requires 0 < n <= |cusps|
    ensures Containing(cusps, n, n, lon) == Descents(cusps, n, n)
  {
    CountAlongTheWay(cusps, n, n, lon);
  }

  lemma {:induction false} ContainingCounts(cusps: seq<real>, n: nat, k: nat, lon: real)
    requires k <= n <= |cusps|
    ensures Containing(cusps, n, k, lon) == 0 <==> forall i :: 0 <= i < k ==> !InHouse(cusps, n, i, lon)
    ensures Containing(cusps, n, k, lon) <= 1 <==>
            forall i, j :: 0 <= i < j < k ==> !(InHouse(cusps, n, i, lon) && InHouse(cusps, n, j, lon))
  {
    if k > 0 {
      ContainingCounts(cusps, n, k - 1, lon);
      if InHouse(cusps, n, k - 1, lon) && Containing(cusps, n, k - 1, lon) > 0 {
        var i :| 0 <= i < k - 1 && InHouse(cusps, n, i, lon);
        assert InHouse(cusps, n, k - 1, lon);
      }
    }
  }

  // The cusps never fall only when all of them coincide.
  lemma {:induction false} NoDescentMeansRising(cusps: seq<real>, n: nat, k: nat)
    requires 0 < k <= n <= |cusps| && Descents(cusps, n, k) == 0
    ensures forall i :: 0 <= i < k ==> cusps[0] <= cusps[i] <= cusps[Wrap(k, n)]
  {
    if k > 1 {
      NoDescentMeansRising(cusps, n, k - 1);
    }
  }

  lemma {:induction false} EqualCuspsNeverDescend(cusps: seq<real>, n: nat, k: nat)
    requires k <= n <= |cusps|
    requires forall i :: 0 <= i < n ==> cusps[i] == cusps[0]
    ensures Descents(cusps, n, k) == 0
  {
    if k > 0 {
      EqualCuspsNeverDescend(cusps, n, k - 1);
    }
  }

  // A house is found exactly when the cusps are not all the same; it is the only
  // one exactly when the cusps fall just once on the way round.
  lemma HouseIsFound(cusps: seq<real>, n: nat, lon: real)
    requires 0 < n <= |cusps|
    ensures (exists i :: 0 <= i < n && InHouse(cusps, n, i, lon)) <==> exists i :: 0 <= i < n && cusps[i] != cusps[0]
    ensures Descents(cusps, n, n) <= 1 <==>
            forall i, j :: 0 <= i < j < n ==> !(InHouse(cusps, n, i, lon) && InHouse(cusps, n, j, lon))
  {
    HousesPerLongitude(cusps, n, lon);
    ContainingCounts(cusps, n, n, lon);
    if Descents(cusps, n, n) == 0 {
      NoDescentMeansRising(cusps, n, n);
    }
    if forall i :: 0 <= i < n ==> cusps[i] == cusps[0] {
      EqualCuspsNeverDescend(cusps, n, n);
    }
  }

  /* ------------------------------- Sankranti ----------------------------- */

  // The sign, 0 to 11, of a longitude in [0, 360).
  function RasiOf(lon: real): int {
    (lon / 30.0).Floor % 12
  }

  // Sign k is the arc from 30k to 30(k + 1) degrees.
  lemma SignsAreArcs(lon: real, k: int)
    requires 0.0 <= lon < 360.0 && 0 <= k < 12
    ensures RasiOf(lon) == k <==> 30.0 * k as real <= lon < 30.0 * (k + 1) as real
  {
    var q := (lon / 30.0).Floor;
    assert 30.0 * q as real <= lon < 30.0 * (q + 1) as real;
    assert 0 <= q < 12;
  }

  ghost function Halved(width: real, times: nat): real {
    if times == 0 then width else Halved(width, times - 1) / 2.0
  }

  ghost function Pow2(n: nat): int {
    if n == 0 then 1 else 2 * Pow2(n - 1)
  }

  // Bisects the 35 days before jd; sunLon gives the sun's longitude at an instant.
  method FindSankrantiJd(jd: real, sunLon: real -> real, targetRasi: int) returns (hi: real, ghost lo: real)
    ensures hi == jd || RasiOf(sunLon(hi)) == targetRasi
    ensures jd - 35.0 <= lo < hi <= jd
    ensures hi - lo == Halved(35.0, 60)
    ensures lo == jd - 35.0 || RasiOf(sunLon(lo)) != targetRasi
  {
    var low := jd - 35.0;
    hi := jd;
    for k := 0 to 60
      invariant hi == jd || RasiOf(sunLon(hi)) == targetRasi
      invariant jd - 35.0 <= low < hi <= jd
      invariant hi - low == Halved(35.0, k)
      invariant low == jd - 35.0 || RasiOf(sunLon(low)) != targetRasi
    {
      var mid := (low + hi) / 2.0;
      var rasi := RasiOf(sunLon(mid));
      if rasi == targetRasi {
        hi := mid;
      } else {
        low := mid;
      }
    }
    lo := low;
  }

  lemma {:induction false} HalvedIsScaled(width: real, times: nat)
    ensures Halved(width, times) * Pow2(times) as real == width
  {
    if times > 0 {
      HalvedIsScaled(width, times - 1);
      var h, p := Halved(width, times - 1), Pow2(times - 1);
      assert Pow2(times) as real == 2.0 * p as real;
      assert (h / 2.0) * (2.0 * p as real) == h * p as real;
    }
  }

  // If the sun was outside the sign 35 days earlier and crossed into it once, at
  // `entry`, the instant found is not before the entry and less than 35/2^60 days after it.
  lemma SankrantiIsClose(jd: real, sunLon: real -> real, targetRasi: int, entry: real, hi: real, lo: real)
    requires jd - 35.0 <= lo < hi <= jd && hi - lo == Halved(35.0, 60)
    requires hi == jd || RasiOf(sunLon(hi)) == targetRasi
    requires lo == jd - 35.0 || RasiOf(sunLon(lo)) != targetRasi
    requires jd - 35.0 < entry <= jd
    requires forall t: real :: jd - 35.0 <= t <= jd ==> (RasiOf(sunLon(t)) == targetRasi <==> entry <= t)
    ensures entry <= hi && (hi - entry) * Pow2(60) as real < 35.0
  {
    HalvedIsScaled(35.0, 60);
    assert lo < entry;
    var p := Pow2(60) as real;
    assert Pow2(60) > 0 by { PowIsPositive(60); }
    ScalingKeepsOrder(hi - entry, hi - lo, p);
  }

  lemma ScalingKeepsOrder(a: real, b: real, p: real)
    requires a < b && p > 0.0
    ensures a * p < b * p
  {}

  lemma {:induction false} PowIsPositive(n: nat)
    ensures Pow2(n) > 0
  {
    if n > 0 {
      PowIsPositive(n - 1);
    }
  }
}
