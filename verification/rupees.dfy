/**
  Amounts in figures: the decimal digits grouped 3, 2, 2, ... from the right.

  The program cuts the digit string; `Groups` is defined by division instead, and
  the two are proved to agree.
 */
module Rupees {
  import opened IndianWords

  function Digit(d: nat): (c: char)
    requires d < 10
    ensures '0' <= c <= '9' && c as nat - '0' as nat == d
  {
    ['0', '1', '2', '3', '4', '5', '6', '7', '8', '9'][d]
  }

  function Digits(n: nat): (s: string)
    ensures |s| >= 1
  {
    if n < 10 then [Digit(n)] else Digits(n / 10) + [Digit(n % 10)]
  }

  function Pad2(n: nat): string
    requires n < 100
  {
    [Digit(n / 10), Digit(n % 10)]
  }

  function Pad3(n: nat): string
    requires n < 1000
  {
    [Digit(n / 100), Digit(n / 10 % 10), Digit(n % 10)]
  }

  // Groups of two digits, most significant first; the first is not padded.
  function PairGroups(q: nat): (g: seq<string>)
    ensures |g| >= 1
  {
    if q < 100 then [Digits(q)] else PairGroups(q / 100) + [Pad2(q % 100)]
  }

  function Groups(w: nat): (g: seq<string>)
    ensures |g| >= 1
  {
    if w < 1000 then [Digits(w)] else PairGroups(w / 1000) + [Pad3(w % 1000)]
  }

  function Reversed(s: seq<string>): seq<string> {
    if s == [] then [] else Reversed(s[1..]) + [s[0]]
  }

  /* ------------------------------- Cutting digits ------------------------ */

  lemma CutTwo(n: nat)
    ensures n / 10 / 10 == n / 100 && n / 10 % 10 == n % 100 / 10 && n % 10 == n % 100 % 10
  {}

  lemma CutThree(n: nat)
    ensures n / 100 / 10 == n / 1000 && n / 100 % 10 == n % 1000 / 100
    ensures n % 100 / 10 == n % 1000 / 10 % 10 && n % 10 == n % 1000 % 10
  {}

  lemma {:induction false} DigitsAbove(n: nat)
    ensures n >= 100 ==> Digits(n) == Digits(n / 100) + Pad2(n % 100)
    ensures n >= 1000 ==> Digits(n) == Digits(n / 1000) + Pad3(n % 1000)
  {
    hide Digit;
    if n >= 100 {
      var m := n / 10;
      assert Digits(n) == Digits(m) + [Digit(n % 10)];
      assert Digits(m) == Digits(m / 10) + [Digit(m % 10)];
      CutTwo(n);
      if n >= 1000 {
        var k := m / 10;
        assert Digits(k) == Digits(k / 10) + [Digit(k % 10)];
        CutThree(n);
      }
    }
  }

  lemma DigitCount(n: nat)
    ensures |Digits(n)| <= 2 <==> n < 100
    ensures |Digits(n)| <= 3 <==> n < 1000
  {
    hide Digit;
    DigitsAbove(n);
    if n < 100 {
      assert n >= 10 ==> |Digits(n / 10)| == 1;
    } else if n < 1000 {
      assert n / 100 < 10 && |Digits(n / 100)| == 1;
    } else {
      assert |Digits(n / 1000)| >= 1;
    }
  }

  lemma {:induction false} ReversedSnoc(s: seq<string>, x: string)
    ensures Reversed(s + [x]) == [x] + Reversed(s)
  {
    if s != [] {
      assert (s + [x])[1..] == s[1..] + [x];
      ReversedSnoc(s[1..], x);
    }
  }

  lemma {:induction false} JoinLast(parts: seq<string>, last: string)
    requires parts != []
    ensures Join(parts + [last], ",") == Join(parts, ",") + "," + last
  {
    if |parts| > 1 {
      assert (parts + [last])[1..] == parts[1..] + [last];
      JoinLast(parts[1..], last);
    }
  }

  // The whole-rupee part, cut from the digit string.
  method Group(w: nat) returns (g: string)
    ensures g == Join(Groups(w), ",")
  {
    hide Digit, Digits;
    var s := Digits(w);
    DigitCount(w);
    if |s| <= 3 {
      return s;
    }
    DigitsAbove(w);
    var last3, rest := s[|s| - 3..], s[..|s| - 3];
    ghost var q: nat := w / 1000;
    var ck := [];
    while |rest| > 2
      invariant rest == Digits(q)
      invariant PairGroups(w / 1000) == PairGroups(q) + Reversed(ck)
      decreases |rest|
    {
      DigitCount(q);
      DigitsAbove(q);
      ReversedSnoc(ck, rest[|rest| - 2..]);
      assert PairGroups(q) + Reversed(ck) == PairGroups(q / 100) + ([rest[|rest| - 2..]] + Reversed(ck));
      ck := ck + [rest[|rest| - 2..]];
      rest := rest[..|rest| - 2];
      q := q / 100;
    }
    DigitCount(q);
    ReversedSnoc(ck, rest);
    ck := ck + [rest];
    JoinLast(PairGroups(w / 1000), last3);
    return Join(Reversed(ck), ",") + "," + last3;
  }

  method Fmt(a: real) returns (text: string)
    ensures var d := if a < 0.0 then -a else a;
            text == (if a < 0.0 then "-" else "") + "Rs." + Join(Groups(d.Floor), ",") + "." + Pad2(PaiseOf(d))
  {
    var sign := if a < 0.0 then "-" else "";
    var d := if a < 0.0 then -a else a;
    var g := Group(d.Floor);
    text := sign + "Rs." + g + "." + Pad2(PaiseOf(d));
  }

  /* ------------------------------ What it shows -------------------------- */

  function WithoutCommas(s: string): string {
    if s == "" then "" else (if s[0] == ',' then "" else [s[0]]) + WithoutCommas(s[1..])
  }

  lemma {:induction false} WithoutCommasAppend(s: string, t: string)
    ensures WithoutCommas(s + t) == WithoutCommas(s) + WithoutCommas(t)
  {
    if s == "" {
      assert s + t == t;
    } else {
      assert (s + t)[1..] == s[1..] + t;
      WithoutCommasAppend(s[1..], t);
    }
  }

  lemma {:induction false} DigitsHaveNoCommas(n: nat)
    ensures WithoutCommas(Digits(n)) == Digits(n)
  {
    if n >= 10 {
      DigitsHaveNoCommas(n / 10);
      WithoutCommasAppend(Digits(n / 10), [Digit(n % 10)]);
    }
  }

  lemma {:induction false} CommaFree(s: string)
    requires ',' !in s
    ensures WithoutCommas(s) == s
  {
    if s != "" {
      CommaFree(s[1..]);
    }
  }

  lemma JoinOne(s: string)
    ensures Join([s], ",") == s
  {}

  lemma CommaAlone()
    ensures WithoutCommas(",") == ""
  {
    assert ","[1..] == "";
  }

  lemma CommaIsDropped(s: string, t: string)
    ensures WithoutCommas(s + "," + t) == WithoutCommas(s) + WithoutCommas(t)
  {
    hide WithoutCommas;
    WithoutCommasAppend(s + ",", t);
    WithoutCommasAppend(s, ",");
    CommaAlone();
  }

  lemma {:induction false} PairGroupsShowDigits(q: nat)
    ensures WithoutCommas(Join(PairGroups(q), ",")) == Digits(q)
  {
    hide Digit, Digits, Join;
    DigitsHaveNoCommas(q);
    if q >= 100 {
      PairGroupsShowDigits(q / 100);
      var pair := Pad2(q % 100);
      JoinLast(PairGroups(q / 100), pair);
      CommaIsDropped(Join(PairGroups(q / 100), ","), pair);
      CommaFree(pair);
      DigitsAbove(q);
    } else {
      JoinOne(Digits(q));
    }
  }

  // Taking the commas away leaves the decimal digits of the amount.
  lemma GroupsShowDigits(w: nat)
    ensures WithoutCommas(Join(Groups(w), ",")) == Digits(w)
  {
    hide Digit, Digits, Join, PairGroups;
    DigitsHaveNoCommas(w);
    if w >= 1000 {
      PairGroupsShowDigits(w / 1000);
      var last3 := Pad3(w % 1000);
      JoinLast(PairGroups(w / 1000), last3);
      CommaIsDropped(Join(PairGroups(w / 1000), ","), last3);
      CommaFree(last3);
      DigitsAbove(w);
    } else {
      JoinOne(Digits(w));
    }
  }

  lemma {:induction false} PairGroupSizes(q: nat)
    ensures var g := PairGroups(q);
            1 <= |g[0]| <= 2 && forall i :: 1 <= i < |g| ==> |g[i]| == 2
  {
    DigitCount(q);
    if q >= 100 {
      PairGroupSizes(q / 100);
    }
  }

  // Above 999 the last group has three digits, the first one or two and all others two.
  lemma GroupSizes(w: nat)
    requires w >= 1000
    ensures var g := Groups(w);
            |g| >= 2 && |g[|g| - 1]| == 3 && 1 <= |g[0]| <= 2 && forall i :: 1 <= i < |g| - 1 ==> |g[i]| == 2
  {
    PairGroupSizes(w / 1000);
  }

  function ToNumber(s: string): nat {
    if s == "" then 0
    else
      var c := s[|s| - 1];
      10 * ToNumber(s[..|s| - 1]) + if '0' <= c <= '9' then c as nat - '0' as nat else 0
  }

  lemma {:induction false} DigitsAreRead(n: nat)
    ensures ToNumber(Digits(n)) == n
  {
    if n >= 10 {
      DigitsAreRead(n / 10);
      assert Digits(n)[..|Digits(n)| - 1] == Digits(n / 10);
    }
  }

  lemma PairIsRead(n: nat)
    requires n < 100
    ensures ToNumber(Pad2(n)) == n
  {
    assert Pad2(n)[..1] == [Digit(n / 10)];
    assert Pad2(n)[..1][..0] == "";
  }

  lemma LastPairIsRead(q: nat)
    ensures var g := PairGroups(q); ToNumber(g[|g| - 1]) == q % 100
  {
    hide Digit, Digits, ToNumber, Pad2;
    DigitsAreRead(q);
    PairIsRead(q % 100);
  }

  lemma ChainOfDivisions(w: nat)
    ensures w % CRORE % LAKH / THOUSAND == w / 1000 % 100
    ensures w % CRORE / LAKH == w / 1000 / 100 % 100
  {
    var crore, lakh, thousand, rest := w / CRORE, w % CRORE / LAKH, w % CRORE % LAKH / THOUSAND, w % CRORE % LAKH % THOUSAND;
    PartsAddUp(w);
    assert w == 1000 * (10000 * crore + 100 * lakh + thousand) + rest;
    assert w / 1000 == 10000 * crore + 100 * lakh + thousand;
    assert w / 1000 / 100 == 100 * crore + lakh;
  }

  // The two groups before the last are the thousands and the lakhs of the amount in words.
  lemma GroupsAgreeWithWords(w: nat)
    requires w >= 1000
    ensures var g := Groups(w);
            ToNumber(g[|g| - 2]) == w % CRORE % LAKH / THOUSAND &&
            (w >= LAKH ==> |g| >= 3 && ToNumber(g[|g| - 3]) == w % CRORE / LAKH)
  {
    hide Digits, Pad2, Pad3, ToNumber;
    var q := w / 1000;
    LastPairIsRead(q);
    ChainOfDivisions(w);
    if w >= LAKH {
      LastPairIsRead(q / 100);
      assert Groups(w)[|Groups(w)| - 3] == PairGroups(q / 100)[|PairGroups(q / 100)| - 1];
    }
  }

  // Figures and words of an amount tell the same rupees and paise.
  lemma FiguresAgreeWithWords(a: real)
    ensures var d := if a < 0.0 then -a else a;
            var r := Read(Words(a), START);
            ToNumber(WithoutCommas(Join(Groups(d.Floor), ","))) == r.rupees &&
            ToNumber(Pad2(PaiseOf(d))) == r.paise
  {
    hide Read, Words, Groups, Join, WithoutCommas, ToNumber;
    var d := if a < 0.0 then -a else a;
    WordsRoundTrip(a);
    GroupsShowDigits(d.Floor);
    DigitsAreRead(d.Floor);
    PairIsRead(PaiseOf(d));
  }
}
