/**
  Amounts in words, in Indian numbering: thousand, lakh and crore, where crores
  nest without bound ("One Lakh Crore", "One Crore Crore").

  The text is read back by a small machine that sees one word at a time and knows
  nothing of how the text was produced. It is strict: a word that a number or an
  amount may not continue with breaks the reading for good.
 */
module IndianWords {

  const ONES: seq<string> := [
    "Zero", "One", "Two", "Three", "Four", "Five", "Six", "Seven", "Eight", "Nine", "Ten", "Eleven", "Twelve",
    "Thirteen", "Fourteen", "Fifteen", "Sixteen", "Seventeen", "Eighteen", "Nineteen"]

  const TENS: seq<string> := [
    "", "", "Twenty", "Thirty", "Forty", "Fifty", "Sixty", "Seventy", "Eighty", "Ninety"]

  const CRORE := 10_000_000
  const LAKH := 100_000
  const THOUSAND := 1_000

  /* -------------------------------- Printing ----------------------------- */

  function Join(parts: seq<string>, sep: string): string {
    if parts == [] then ""
    else if |parts| == 1 then parts[0]
    else parts[0] + sep + Join(parts[1..], sep)
  }

  function Two(n: nat): string
    requires n < 100
  {
    if n < 20 then ONES[n]
    else
      var t, o := n / 10, n % 10;
      TENS[t] + if o != 0 then " " + ONES[o] else ""
  }

  function Three(n: nat): string
    requires n < 1000
  {
    var h, rest := n / 100, n % 100;
    Join((if h != 0 then [ONES[h] + " Hundred"] else []) + (if rest != 0 then [Two(rest)] else []), " ")
  }

  function IntIndian(n: nat): string {
    if n == 0 then "Zero"
    else
      var crore, belowCrore := n / CRORE, n % CRORE;
      var lakh, belowLakh := belowCrore / LAKH, belowCrore % LAKH;
      var thousand, rest := belowLakh / THOUSAND, belowLakh % THOUSAND;
      Join((if crore != 0 then [IntIndian(crore) + " Crore"] else []) +
           (if lakh != 0 then [Two(lakh) + " Lakh"] else []) +
           (if thousand != 0 then [Two(thousand) + " Thousand"] else []) +
           (if rest != 0 then [Three(rest)] else []), " ")
  }

  // Whole paise of an amount that is not negative; fractions of a paisa are dropped.
  function PaiseOf(d: real): (p: nat)
    requires d >= 0.0
    ensures p < 100
    ensures d.Floor as real + p as real / 100.0 <= d < d.Floor as real + (p + 1) as real / 100.0
  {
    ((d - d.Floor as real) * 100.0).Floor
  }

  function Words(a: real): string
    decreases a < 0.0
  {
    if a < 0.0 then "Minus " + Words(-a)
    else
      var p := PaiseOf(a);
      if p != 0 then IntIndian(a.Floor) + " Rupees and " + Two(p) + " Paise Only"
      else IntIndian(a.Floor) + " Rupees Only"
  }

  /* --------------------------------- Reading ----------------------------- */

  datatype Stage = InRupees | AfterRupees | InPaise | AfterPaise | Closed

  // Completed scales, the number being read and whether any of it has been, and what
  // has been read as rupees and paise.
  datatype Reader = Reader(
    ok: bool, negative: bool, started: bool, total: nat, current: nat, rupees: nat, paise: nat, stage: Stage)

  const START := Reader(true, false, false, 0, 0, 0, 0, InRupees)

  // The number a word names, or -1; words are told apart by length first.
  function Number(w: string): int {
    match |w|
    case 3 => if w == "One" then 1 else if w == "Two" then 2 else if w == "Six" then 6 else if w == "Ten" then 10 else -1
    case 4 => if w == "Zero" then 0 else if w == "Four" then 4 else if w == "Five" then 5 else if w == "Nine" then 9 else -1
    case 5 =>
      if w == "Three" then 3 else if w == "Seven" then 7 else if w == "Eight" then 8
      else if w == "Forty" then 40 else if w == "Fifty" then 50 else if w == "Sixty" then 60 else -1
    case 6 =>
      if w == "Eleven" then 11 else if w == "Twelve" then 12 else if w == "Twenty" then 20
      else if w == "Thirty" then 30 else if w == "Eighty" then 80 else if w == "Ninety" then 90 else -1
    case 7 => if w == "Fifteen" then 15 else if w == "Sixteen" then 16 else if w == "Seventy" then 70 else -1
    case 8 =>
      if w == "Thirteen" then 13 else if w == "Fourteen" then 14
      else if w == "Eighteen" then 18 else if w == "Nineteen" then 19 else -1
    case 9 => if w == "Seventeen" then 17 else -1
    case _ => -1
  }

  // May a number continue with the word for n? "Zero" stands alone, units follow tens,
  // and below a hundred nothing is said twice.
  predicate NumberFits(n: nat, r: Reader) {
    r.stage in {InRupees, InPaise} &&
    if n == 0 then !r.started
    else
      (r.started ==> r.total + r.current > 0) && r.total % THOUSAND == 0 &&
      (r.current % 100 == 0 || (n < 10 && r.current % 100 >= 20 && r.current % 10 == 0))
  }

  // Scales come in descending order, each at most once between crores.
  predicate Fits(w: string, r: Reader) {
    if Number(w) >= 0 then NumberFits(Number(w), r)
    else if w == "Hundred" then 1 <= r.current < 10
    else if w == "Thousand" then 1 <= r.current < 100 && r.total % LAKH == 0
    else if w == "Lakh" then 1 <= r.current < 100 && r.total % CRORE == 0
    else if w == "Crore" then r.total + r.current > 0
    else if w == "Minus" then r.stage == InRupees && !r.started && !r.negative
    else if w == "Rupees" then r.stage == InRupees && r.started
    else if w == "and" then r.stage == AfterRupees
    else if w == "Paise" then r.stage == InPaise && r.total == 0 && 1 <= r.current < 100
    else w == "Only" && r.stage in {AfterRupees, AfterPaise}
  }

  function ReadWord(w: string, r: Reader): Reader {
    if !r.ok || !Fits(w, r) then r.(ok := false)
    else if Number(w) >= 0 then r.(started := true, current := r.current + Number(w))
    else if w == "Hundred" then r.(current := r.current * 100)
    else if w == "Thousand" then r.(total := r.total + r.current * THOUSAND, current := 0)
    else if w == "Lakh" then r.(total := r.total + r.current * LAKH, current := 0)
    else if w == "Crore" then r.(total := (r.total + r.current) * CRORE, current := 0)
    else if w == "Minus" then r.(negative := true)
    else if w == "Rupees" then
      r.(rupees := r.total + r.current, total := 0, current := 0, started := false, stage := AfterRupees)
    else if w == "and" then r.(stage := InPaise)
    else if w == "Paise" then r.(paise := r.current, current := 0, started := false, stage := AfterPaise)
    else r.(stage := Closed)
  }

  // Words are what stands between spaces.
  function FirstWord(s: string): (w: string)
    ensures |w| <= |s|
  {
    if s == "" || s[0] == ' ' then "" else [s[0]] + FirstWord(s[1..])
  }

  function Read(s: string, r: Reader): Reader
    decreases |s|
  {
    var w := FirstWord(s);
    if |w| == |s| then ReadWord(w, r)
    else Read(s[|w| + 1..], ReadWord(w, r))
  }

  ghost predicate OneWord(s: string) {
    forall i :: 0 <= i < |s| ==> s[i] != ' '
  }

  lemma {:induction false} OneWordIsFirst(s: string)
    requires OneWord(s)
    ensures FirstWord(s) == s
  {
    if s != "" {
      OneWordIsFirst(s[1..]);
    }
  }

  lemma {:induction false} FirstWordStopsAtSpace(a: string, b: string)
    ensures FirstWord(a + " " + b) == FirstWord(a)
  {
    if a != "" && a[0] != ' ' {
      assert (a + " " + b)[1..] == a[1..] + " " + b;
      FirstWordStopsAtSpace(a[1..], b);
    }
  }

  // Texts joined by a space are read one after the other.
  lemma {:induction false} ReadInTurn(a: string, b: string, r: Reader)
    ensures Read(a + " " + b, r) == Read(b, Read(a, r))
    decreases |a|
  {
    var s, w := a + " " + b, FirstWord(a);
    FirstWordStopsAtSpace(a, b);
    if |w| == |a| {
      assert s[|w| + 1..] == b;
    } else {
      assert s[|w| + 1..] == a[|w| + 1..] + " " + b;
      ReadInTurn(a[|w| + 1..], b, ReadWord(w, r));
    }
  }

  lemma ReadOneWord(w: string, r: Reader)
    requires OneWord(w)
    ensures Read(w, r) == ReadWord(w, r)
  {
    OneWordIsFirst(w);
  }

  // A text followed by a scale or another single word.
  lemma ReadThenWord(a: string, w: string, r: Reader)
    requires OneWord(w)
    ensures Read(a + " " + w, r) == ReadWord(w, Read(a, r))
  {
    ReadInTurn(a, w, r);
    ReadOneWord(w, Read(a, r));
  }

  ghost function ReadAll(parts: seq<string>, r: Reader): Reader {
    if parts == [] then r else ReadAll(parts[1..], Read(parts[0], r))
  }

  lemma {:induction false} ReadJoined(parts: seq<string>, r: Reader)
    requires parts != []
    ensures Read(Join(parts, " "), r) == ReadAll(parts, r)
  {
    if |parts| > 1 {
      ReadInTurn(parts[0], Join(parts[1..], " "), r);
      ReadJoined(parts[1..], Read(parts[0], r));
    }
  }

  lemma {:induction false} ReadAllAppend(parts: seq<string>, more: seq<string>, r: Reader)
    ensures ReadAll(parts + more, r) == ReadAll(more, ReadAll(parts, r))
  {
    if parts == [] {
      assert parts + more == more;
    } else {
      assert (parts + more)[1..] == parts[1..] + more;
      ReadAllAppend(parts[1..], more, Read(parts[0], r));
    }
  }

  /* ------------------------------- Round trip ---------------------------- */

  // Ready for the next part of a number.
  ghost predicate Open(r: Reader) {
    r.ok && r.stage in {InRupees, InPaise} && r.current == 0 && r.total % THOUSAND == 0 && (r.started ==> r.total > 0)
  }

  lemma OnesAreRead(n: nat, r: Reader)
    requires n < 20 && r.ok && NumberFits(n, r)
    ensures Read(ONES[n], r) == r.(started := true, current := r.current + n)
  {
    var w := ONES[n];
    assert Number(w) == n;
    assert OneWord(w);
    ReadOneWord(w, r);
  }

  lemma TensAreRead(t: nat, r: Reader)
    requires 2 <= t < 10 && r.ok && NumberFits(10 * t, r)
    ensures Read(TENS[t], r) == r.(started := true, current := r.current + 10 * t)
  {
    var w := TENS[t];
    assert Number(w) == 10 * t;
    assert OneWord(w);
    ReadOneWord(w, r);
  }

  lemma TensFit(n: nat, r: Reader)
    requires 20 <= n < 100 && NumberFits(n, r) && r.current % 100 == 0
    ensures NumberFits(10 * (n / 10), r)
  {}

  // After the tens of a number below a hundred, the units fit.
  lemma UnitsFit(t: nat, o: nat, r: Reader)
    requires 2 <= t < 10 && 0 < o < 10 && r.current % 100 == 0 && NumberFits(10 * t, r)
    ensures NumberFits(o, r.(started := true, current := r.current + 10 * t))
  {
    TensRemain(r.current / 100, t);
  }

  lemma TensRemain(h: nat, t: nat)
    requires t < 10
    ensures (100 * h + 10 * t) % 100 == 10 * t && (100 * h + 10 * t) % 10 == 0
  {
    assert 100 * h + 10 * t == 10 * (10 * h + t);
  }

  lemma TwoIsRead(n: nat, r: Reader)
    requires n < 100 && r.ok && NumberFits(n, r) && r.current % 100 == 0
    ensures Read(Two(n), r) == r.(started := true, current := r.current + n)
  {
    hide Number, ReadWord, FirstWord, Read, NumberFits;
    if n < 20 {
      OnesAreRead(n, r);
    } else {
      var t, o := n / 10, n % 10;
      TensFit(n, r);
      TensAreRead(t, r);
      if o == 0 {
        assert Two(n) == TENS[t];
      } else {
        assert Two(n) == TENS[t] + " " + ONES[o];
        ReadInTurn(TENS[t], ONES[o], r);
        UnitsFit(t, o, r);
        OnesAreRead(o, r.(started := true, current := r.current + 10 * t));
      }
    }
  }

  lemma ScalesAreWords()
    ensures OneWord("Hundred") && OneWord("Thousand") && OneWord("Lakh") && OneWord("Crore")
    ensures Number("Hundred") < 0 && Number("Thousand") < 0 && Number("Lakh") < 0 && Number("Crore") < 0
  {}

  lemma AmountWordsAreWords()
    ensures OneWord("Minus") && OneWord("Rupees") && OneWord("and") && OneWord("Paise") && OneWord("Only")
    ensures Number("Minus") < 0 && Number("Rupees") < 0 && Number("and") < 0 && Number("Paise") < 0 && Number("Only") < 0
  {}

  lemma ScaleIsRead(a: string, w: string, r: Reader)
    requires w in ["Hundred", "Thousand", "Lakh", "Crore"]
    requires Read(a, r).ok && Fits(w, Read(a, r))
    ensures var q := Read(a, r);
            Read(a + " " + w, r) ==
              if w == "Hundred" then q.(current := q.current * 100)
              else if w == "Thousand" then q.(total := q.total + q.current * THOUSAND, current := 0)
              else if w == "Lakh" then q.(total := q.total + q.current * LAKH, current := 0)
              else q.(total := (q.total + q.current) * CRORE, current := 0)
  {
    hide Read, FirstWord;
    ScalesAreWords();
    ReadThenWord(a, w, r);
  }

  // When a scale fits.
  lemma ScaleFits(w: string, r: Reader)
    ensures w == "Hundred" && 1 <= r.current < 10 ==> Fits(w, r)
    ensures w == "Thousand" && 1 <= r.current < 100 && r.total % LAKH == 0 ==> Fits(w, r)
    ensures w == "Lakh" && 1 <= r.current < 100 && r.total % CRORE == 0 ==> Fits(w, r)
    ensures w == "Crore" && r.total + r.current > 0 ==> Fits(w, r)
  {
    ScalesAreWords();
  }

  lemma ThreeIsRead(n: nat, r: Reader)
    requires 0 < n < 1000 && Open(r)
    ensures Read(Three(n), r) == r.(started := true, current := n)
  {
    hide Number, ReadWord, FirstWord, Read, Fits;
    var h, rest := n / 100, n % 100;
    var hundreds := if h != 0 then [ONES[h] + " Hundred"] else [];
    var units := if rest != 0 then [Two(rest)] else [];
    ReadJoined(hundreds + units, r);
    ReadAllAppend(hundreds, units, r);
    if h != 0 {
      OnesAreRead(h, r);
      ScaleFits("Hundred", r.(started := true, current := h));
      ScaleIsRead(ONES[h], "Hundred", r);
      assert ONES[h] + " " + "Hundred" == ONES[h] + " Hundred";
    }
    if rest != 0 {
      TwoIsRead(rest, if h != 0 then r.(started := true, current := 100 * h) else r);
    }
  }

  lemma UnitsAreRead(n: nat, r: Reader)
    requires n < 1000 && Open(r)
    ensures ReadAll(if n != 0 then [Three(n)] else [], r) == r.(started := r.started || n != 0, current := n)
  {
    if n != 0 {
      ThreeIsRead(n, r);
      assert [Three(n)][1..] == [];
    }
  }

  lemma WholeCrores(n: nat)
    ensures n * CRORE % CRORE == 0 && n * CRORE % THOUSAND == 0
  {
    assert n * CRORE == THOUSAND * (10_000 * n);
  }

  lemma WholeLakhs(total: nat, n: nat)
    requires total % CRORE == 0
    ensures (total + n * LAKH) % LAKH == 0 && (total + n * LAKH) % THOUSAND == 0
  {
    var k := total / CRORE;
    assert total + n * LAKH == LAKH * (100 * k + n);
    assert total + n * LAKH == THOUSAND * (100 * (100 * k + n));
  }

  lemma WholeThousands(total: nat, n: nat)
    requires total % LAKH == 0
    ensures (total + n * THOUSAND) % THOUSAND == 0
  {
    var k := total / LAKH;
    assert total + n * THOUSAND == THOUSAND * (100 * k + n);
  }

  // One part of a number, if it is there: "<Two(n)> <scale>".
  lemma ScaledPartIsRead(n: nat, w: string, r: Reader)
    requires n < 100 && Open(r) && w in ["Thousand", "Lakh"]
    requires r.total % (if w == "Lakh" then CRORE else LAKH) == 0
    ensures ReadAll(if n != 0 then [Two(n) + (" " + w)] else [], r) ==
            r.(started := r.started || n != 0, total := r.total + n * if w == "Lakh" then LAKH else THOUSAND)
  {
    hide Number, ReadWord, FirstWord, Read, Two, Fits;
    if n != 0 {
      var part := Two(n) + (" " + w);
      assert part == Two(n) + " " + w;
      TwoIsRead(n, r);
      ScaleFits(w, r.(started := true, current := n));
      ScaleIsRead(Two(n), w, r);
      assert [part][1..] == [];
    }
  }

  // The parts of n, as the program splits it.
  lemma PartsAddUp(n: nat)
    ensures var crore, lakh, thousand, rest := n / CRORE, n % CRORE / LAKH, n % CRORE % LAKH / THOUSAND, n % CRORE % LAKH % THOUSAND;
            n == crore * CRORE + lakh * LAKH + thousand * THOUSAND + rest &&
            lakh < 100 && thousand < 100 && rest < 1000 && (n > 0 ==> crore < n)
  {}

  // The parts below a crore, read after the crores have been.
  lemma BelowCroreIsRead(crores: seq<string>, lakh: nat, thousand: nat, rest: nat, r: Reader, c: Reader)
    requires lakh < 100 && thousand < 100 && rest < 1000
    requires ReadAll(crores, r) == c && Open(c) && c.total % CRORE == 0
    ensures ReadAll(crores +
                    (if lakh != 0 then [Two(lakh) + " Lakh"] else []) +
                    (if thousand != 0 then [Two(thousand) + " Thousand"] else []) +
                    (if rest != 0 then [Three(rest)] else []), r) ==
            c.(started := c.started || lakh + thousand + rest != 0,
               total := c.total + lakh * LAKH + thousand * THOUSAND, current := rest)
  {
    hide Number, ReadWord, FirstWord, Read, Two, Three;
    var lakhs := if lakh != 0 then [Two(lakh) + " Lakh"] else [];
    var thousands := if thousand != 0 then [Two(thousand) + " Thousand"] else [];
    var units := if rest != 0 then [Three(rest)] else [];
    ReadAllAppend(crores + lakhs + thousands, units, r);
    ReadAllAppend(crores + lakhs, thousands, r);
    ReadAllAppend(crores, lakhs, r);
    assert " " + "Lakh" == " Lakh" && " " + "Thousand" == " Thousand";
    WholeLakhs(c.total, lakh);
    ScaledPartIsRead(lakh, "Lakh", c);
    var l := c.(started := c.started || lakh != 0, total := c.total + lakh * LAKH);
    WholeThousands(l.total, thousand);
    ScaledPartIsRead(thousand, "Thousand", l);
    UnitsAreRead(rest, l.(started := l.started || thousand != 0, total := l.total + thousand * THOUSAND));
  }

  // Reading back the words of n gives n, however many crores are nested.
  lemma {:induction false} IntIndianRoundTrip(n: nat, negative: bool)
    ensures var r := START.(negative := negative);
            var q := Read(IntIndian(n), r);
            q.total + q.current == n && q == r.(started := true, total := q.total, current := q.current)
    decreases n
  {
    hide Number, ReadWord, FirstWord, Read, Two, Three, Fits;
    var r := START.(negative := negative);
    if n == 0 {
      assert IntIndian(0) == ONES[0];
      OnesAreRead(0, r);
    } else {
      PartsAddUp(n);
      var crore, lakh, thousand, rest := n / CRORE, n % CRORE / LAKH, n % CRORE % LAKH / THOUSAND, n % CRORE % LAKH % THOUSAND;
      var crores := if crore != 0 then [IntIndian(crore) + " Crore"] else [];
      var c := r.(started := crore != 0, total := crore * CRORE);
      assert ReadAll(crores, r) == c by {
        if crore != 0 {
          IntIndianRoundTrip(crore, negative);
          ScaleFits("Crore", Read(IntIndian(crore), r));
          ScaleIsRead(IntIndian(crore), "Crore", r);
          assert IntIndian(crore) + " " + "Crore" == IntIndian(crore) + " Crore";
        }
      }
      WholeCrores(crore);
      BelowCroreIsRead(crores, lakh, thousand, rest, r, c);
      ReadJoined(crores +
                 (if lakh != 0 then [Two(lakh) + " Lakh"] else []) +
                 (if thousand != 0 then [Two(thousand) + " Thousand"] else []) +
                 (if rest != 0 then [Three(rest)] else []), r);
    }
  }

  // Different numbers have different words.
  lemma WordsTellNumbersApart(m: nat, n: nat)
    requires IntIndian(m) == IntIndian(n)
    ensures m == n
  {
    IntIndianRoundTrip(m, false);
    IntIndianRoundTrip(n, false);
  }

  /* -------------------------------- Amounts ------------------------------ */

  lemma AmountWordIsRead(a: string, w: string, r: Reader)
    requires w in ["Rupees", "and", "Paise", "Only"] && Read(a, r).ok
    ensures var q := Read(a, r);
            if w == "Rupees" && q.stage == InRupees && q.started then
              Read(a + " " + w, r) ==
              q.(rupees := q.total + q.current, total := 0, current := 0, started := false, stage := AfterRupees)
            else if w == "and" && q.stage == AfterRupees then Read(a + " " + w, r) == q.(stage := InPaise)
            else if w == "Paise" && q.stage == InPaise && q.total == 0 && 1 <= q.current < 100 then
              Read(a + " " + w, r) == q.(paise := q.current, current := 0, started := false, stage := AfterPaise)
            else if w == "Only" && q.stage in {AfterRupees, AfterPaise} then Read(a + " " + w, r) == q.(stage := Closed)
            else !Read(a + " " + w, r).ok
  {
    hide Read, FirstWord;
    AmountWordsAreWords();
    ReadThenWord(a, w, r);
  }

  lemma RupeesAreRead(n: nat, negative: bool)
    ensures Read(IntIndian(n) + " " + "Rupees", START.(negative := negative)) ==
            START.(negative := negative, rupees := n, stage := AfterRupees)
  {
    hide Read, IntIndian;
    IntIndianRoundTrip(n, negative);
    AmountWordIsRead(IntIndian(n), "Rupees", START.(negative := negative));
  }

  lemma PaiseAreRead(rupees: string, p: nat, r: Reader)
    requires 0 < p < 100
    requires var q := Read(rupees, r); q.ok && q.stage == AfterRupees && !q.started && q.total == q.current == 0
    ensures Read(rupees + " " + "and" + " " + Two(p) + " " + "Paise" + " " + "Only", r) ==
            Read(rupees, r).(paise := p, stage := Closed)
  {
    hide Read, Two;
    var and := rupees + " " + "and";
    AmountWordIsRead(rupees, "and", r);
    var number := and + " " + Two(p);
    ReadInTurn(and, Two(p), r);
    TwoIsRead(p, Read(and, r));
    var paise := number + " " + "Paise";
    AmountWordIsRead(number, "Paise", r);
    AmountWordIsRead(paise, "Only", r);
  }

  lemma PositiveAmountIsRead(a: real, negative: bool)
    requires a >= 0.0
    ensures Read(Words(a), START.(negative := negative)) ==
            START.(negative := negative, rupees := a.Floor, paise := PaiseOf(a), stage := Closed)
  {
    hide Read, IntIndian, PaiseOf, Two;
    var r := START.(negative := negative);
    var p := PaiseOf(a);
    var rupees := IntIndian(a.Floor) + " " + "Rupees";
    RupeesAreRead(a.Floor, negative);
    if p == 0 {
      AmountWordIsRead(rupees, "Only", r);
      assert Words(a) == rupees + " " + "Only";
    } else {
      PaiseAreRead(rupees, p, r);
      assert " Rupees and " == " " + "Rupees" + " " + "and" + " ";
      assert " Paise Only" == " " + "Paise" + " " + "Only";
      assert Words(a) == rupees + " " + "and" + " " + Two(p) + " " + "Paise" + " " + "Only";
    }
  }

  // Reading an amount's words to their end gives its sign, its rupees and its whole paise.
  lemma WordsRoundTrip(a: real)
    ensures var size := if a < 0.0 then -a else a;
            Read(Words(a), START) ==
            START.(negative := a < 0.0, rupees := size.Floor, paise := PaiseOf(size), stage := Closed)
  {
    hide Read, IntIndian, PaiseOf, Two;
    if a < 0.0 {
      assert Words(a) == "Minus" + " " + Words(-a);
      ReadInTurn("Minus", Words(-a), START);
      MinusIsRead(START);
      PositiveAmountIsRead(-a, true);
    } else {
      PositiveAmountIsRead(a, false);
    }
  }

  lemma MinusIsRead(r: Reader)
    requires r.ok && r.stage == InRupees && !r.started && !r.negative
    ensures Read("Minus", r) == r.(negative := true)
  {
    AmountWordsAreWords();
    ReadOneWord("Minus", r);
  }
}
